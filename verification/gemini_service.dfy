/**
 * The adapter around the hosted language model. Building the prompt and the call itself
 * are outside the model; what the program does locally is turn any failure of the call
 * into one fixed error.
 */
module GeminiService {

  /** What the model call produced: generated text, or an error with its own message. */
  datatype ModelReply = Generated(text: string) | CallFailed(message: string)

  /** What `analyzeApiResponse` resolves or rejects with. */
  datatype AnalysisOutcome = Analysis(text: string) | AnalysisFailed(message: string)

  const ServiceFailureMessage := "Failed to get analysis from Gemini API."

  /** Generated text is passed through; every failure, whatever its message, is rethrown
      with the fixed service message. */
  function AnalyzeApiResponse(reply: ModelReply): (r: AnalysisOutcome)
    ensures reply.Generated? <==> r.Analysis?
    ensures r.Analysis? ==> r.text == reply.text
    ensures r.AnalysisFailed? ==> r.message == ServiceFailureMessage
  {
    match reply
    case Generated(text) => Analysis(text)
    case CallFailed(_) => AnalysisFailed(ServiceFailureMessage)
  }
}
