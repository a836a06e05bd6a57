/**
 * The decisions the response pane makes before drawing anything: which of its four
 * states to show, the colour of the status line, the badges on its tabs, what the
 * analysis tab shows, and the HTML escaping applied to the body text before it is
 * highlighted and inserted as markup.
 */
module ResponseDisplay {
  import opened Options
  import opened Text
  import opened Records
  import opened Types

  datatype Tab = BodyTab | HeadersTab | AnalysisTab

  /** The tab selected when the pane is first shown. */
  const DefaultTab: Tab := BodyTab

  /** Colour of the status line: 2xx green, 3xx yellow, 4xx orange, 500 and above red,
      anything below 200 gray. Each status falls in exactly one bucket. */
  function StatusColor(status: int): (c: Color)
    ensures c == Green <==> 200 <= status < 300
    ensures c == Yellow <==> 300 <= status < 400
    ensures c == Orange <==> 400 <= status < 500
    ensures c == Red <==> 500 <= status
    ensures c == Gray <==> status < 200
  {
    if 200 <= status < 300 then Green
    else if 300 <= status < 400 then Yellow
    else if 400 <= status < 500 then Orange
    else if status >= 500 then Red
    else Gray
  }

  /** The colour of each status class of section 15 of RFC 9110 (the first digit of the
      code): successful, redirection, client error, server error and beyond. */
  function ClassColor(statusClass: int): Color
  {
    if statusClass == 2 then Green
    else if statusClass == 3 then Yellow
    else if statusClass == 4 then Orange
    else if statusClass >= 5 then Red
    else Gray
  }

  /** The bucket of any status is decided by its hundreds digit alone. */
  lemma StatusColorByClass(status: int)
    ensures StatusColor(status) == ClassColor(status / 100)
  {
  }

  /** The class names the status line gets: `text-green-400` for 2xx, `text-yellow-400`
      for 3xx, `text-orange-400` for 4xx, `text-red-400` from 500, `text-gray-400`
      below 200. */
  lemma StatusClassName(status: int)
    ensures TextClass(StatusColor(status)) == "text-green-400" <==> 200 <= status < 300
    ensures TextClass(StatusColor(status)) == "text-yellow-400" <==> 300 <= status < 400
    ensures TextClass(StatusColor(status)) == "text-orange-400" <==> 400 <= status < 500
    ensures TextClass(StatusColor(status)) == "text-red-400" <==> 500 <= status
    ensures TextClass(StatusColor(status)) == "text-gray-400" <==> status < 200
  {
  }

  /** What the "AI Analysis" tab shows. */
  datatype AnalysisView = AnalysisPending | NoAnalysisYet | AnalysisText(text: string)

  /** A running analysis wins over any text; an absent or empty analysis shows the
      placeholder; otherwise the analysis text is shown. */
  function AnalysisViewer(analysis: Option<string>, loading: bool): (v: AnalysisView)
    ensures loading <==> v == AnalysisPending
    ensures v == NoAnalysisYet <==> !loading && !IsTruthy(analysis)
    ensures v.AnalysisText? ==> analysis == Some(v.text) && v.text != ""
  {
    if loading then AnalysisPending
    else if !IsTruthy(analysis) then NoAnalysisYet
    else AnalysisText(analysis.value)
  }

  datatype TabContent =
    | BodyContent(body: Body)
    | HeadersContent(entries: seq<(string, string)>)
    | AnalysisContent(view: AnalysisView)

  /** Everything the response view derives from the response and the analysis state. */
  datatype ResponsePanel = ResponsePanel(
    statusColor: Color,
    status: int,
    statusText: string,
    time: int,
    analyzeDisabled: bool,
    analyzeLabel: string,
    headerCount: nat,
    analysisDot: bool,
    content: TabContent)

  const AnalyzeIdleLabel := "Analyze with Gemini"
  const AnalyzeBusyLabel := "Analyzing..."

  /** The response view: status colour from the status code, the Headers badge counts the
      header keys, the analysis dot shows exactly when there is analysis text or an
      analysis is running, and the analyze button is disabled exactly while analysing.
      The headers are a JavaScript object, so no name occurs twice. */
  function Panel(response: ApiResponse, analysis: Option<string>, isAnalyzing: bool, tab: Tab): (p: ResponsePanel)
    requires DistinctKeys(response.headers)
    ensures p.status == response.status && p.statusText == response.statusText && p.time == response.time
    ensures p.statusColor == StatusColor(response.status)
    ensures p.headerCount == |KeySet(response.headers)|
    ensures p.analysisDot <==> IsTruthy(analysis) || isAnalyzing
    ensures p.analyzeDisabled <==> isAnalyzing
    ensures p.analyzeLabel == (if isAnalyzing then AnalyzeBusyLabel else AnalyzeIdleLabel)
    ensures tab == BodyTab ==> p.content == BodyContent(response.body)
    ensures tab == HeadersTab ==> p.content == HeadersContent(response.headers)
    ensures tab == AnalysisTab ==> p.content == AnalysisContent(AnalysisViewer(analysis, isAnalyzing))
  {
    KeyCountIsLength(response.headers);
    ResponsePanel(
      StatusColor(response.status),
      response.status,
      response.statusText,
      response.time,
      isAnalyzing,
      if isAnalyzing then AnalyzeBusyLabel else AnalyzeIdleLabel,
      |response.headers|,
      IsTruthy(analysis) || isAnalyzing,
      match tab
      case BodyTab => BodyContent(response.body)
      case HeadersTab => HeadersContent(response.headers)
      case AnalysisTab => AnalysisContent(AnalysisViewer(analysis, isAnalyzing)))
  }

  datatype View = LoadingView | ErrorView(message: string) | ResponseView(panel: ResponsePanel) | InitialView

  /** The pane's state: loading wins over an error, an error (a non-empty message) wins over
      a response, and a response wins over the initial screen. */
  function RenderContent(
    loading: bool, error: Option<string>, response: Option<ApiResponse>,
    analysis: Option<string>, isAnalyzing: bool, tab: Tab): (v: View)
    requires response.Some? ==> DistinctKeys(response.value.headers)
    ensures v == LoadingView <==> loading
    ensures v.ErrorView? <==> !loading && IsTruthy(error)
    ensures v.ErrorView? ==> error == Some(v.message)
    ensures v.ResponseView? <==> !loading && !IsTruthy(error) && response.Some?
    ensures v.ResponseView? ==> v.panel == Panel(response.value, analysis, isAnalyzing, tab)
    ensures v == InitialView <==> !loading && !IsTruthy(error) && response.None?
  {
    if loading then LoadingView
    else if IsTruthy(error) then ErrorView(error.value)
    else if response.Some? then ResponseView(Panel(response.value, analysis, isAnalyzing, tab))
    else InitialView
  }

  /** `s.replace(/c/g, rep)`: every occurrence of `c` replaced by `rep`. */
  function ReplaceAll(s: string, c: char, rep: string): (r: string)
    ensures c !in s ==> r == s
    ensures c !in rep ==> c !in r
    ensures forall x :: x in r && x != c && x !in rep ==> x in s
  {
    if |s| == 0 then ""
    else (if s[0] == c then rep else [s[0]]) + ReplaceAll(s[1..], c, rep)
  }

  /** Replacing characters one by one distributes over concatenation. */
  lemma {:induction false} ReplaceAllAppend(a: string, b: string, c: char, rep: string)
    ensures ReplaceAll(a + b, c, rep) == ReplaceAll(a, c, rep) + ReplaceAll(b, c, rep)
    decreases |a|
  {
    if |a| == 0 {
      assert a + b == b;
    } else {
      assert (a + b)[1..] == a[1..] + b;
      ReplaceAllAppend(a[1..], b, c, rep);
    }
  }

  /** The escaping done before highlighting: `&` first, then `<`, then `>`. The result holds
      no raw angle bracket. */
  function EscapeHtml(s: string): (r: string)
    ensures '<' !in r && '>' !in r
  {
    ReplaceAll(ReplaceAll(ReplaceAll(s, '&', "&amp;"), '<', "&lt;"), '>', "&gt;")
  }

  /** The entity that stands for one character. */
  function EscapeChar(c: char): string
  {
    if c == '&' then "&amp;"
    else if c == '<' then "&lt;"
    else if c == '>' then "&gt;"
    else [c]
  }

  /** Escaping each character on its own, in one pass. */
  function EscapeEach(s: string): string
  {
    if |s| == 0 then "" else EscapeChar(s[0]) + EscapeEach(s[1..])
  }

  lemma EscapeHtmlAppend(a: string, b: string)
    ensures EscapeHtml(a + b) == EscapeHtml(a) + EscapeHtml(b)
  {
    ReplaceAllAppend(a, b, '&', "&amp;");
    var a1, b1 := ReplaceAll(a, '&', "&amp;"), ReplaceAll(b, '&', "&amp;");
    ReplaceAllAppend(a1, b1, '<', "&lt;");
    var a2, b2 := ReplaceAll(a1, '<', "&lt;"), ReplaceAll(b1, '<', "&lt;");
    ReplaceAllAppend(a2, b2, '>', "&gt;");
  }

  /** Replacing in a one-character string replaces that character or keeps it. */
  lemma ReplaceAllOne(x: char, c: char, rep: string)
    ensures ReplaceAll([x], c, rep) == if x == c then rep else [x]
  {
    assert [x][1..] == "";
  }

  lemma EscapeHtmlChar(c: char)
    ensures EscapeHtml([c]) == EscapeChar(c)
  {
    ReplaceAllOne(c, '&', "&amp;");
    if c == '&' {
      assert '<' !in "&amp;" && '>' !in "&amp;";
    } else {
      ReplaceAllOne(c, '<', "&lt;");
      if c == '<' {
        assert '>' !in "&lt;";
      } else {
        ReplaceAllOne(c, '>', "&gt;");
      }
    }
  }

  /** The three sequential global replacements escape each character exactly once: the
      `&` of an entity inserted by a later replacement is never escaped again. */
  lemma {:induction false} EscapeHtmlIsOnePass(s: string)
    ensures EscapeHtml(s) == EscapeEach(s)
    decreases |s|
  {
    if |s| == 0 {
    } else {
      assert s == [s[0]] + s[1..];
      EscapeHtmlAppend([s[0]], s[1..]);
      EscapeHtmlChar(s[0]);
      EscapeHtmlIsOnePass(s[1..]);
    }
  }

  /** How a browser reads the three entities back when the markup is inserted. */
  function Unescape(s: string): string
    decreases |s|
  {
    if |s| == 0 then ""
    else if StartsWith(s, "&amp;") then "&" + Unescape(s[5..])
    else if StartsWith(s, "&lt;") then "<" + Unescape(s[4..])
    else if StartsWith(s, "&gt;") then ">" + Unescape(s[4..])
    else [s[0]] + Unescape(s[1..])
  }

  lemma UnescapeChar(c: char, rest: string)
    ensures Unescape(EscapeChar(c) + rest) == [c] + Unescape(rest)
  {
    var x := EscapeChar(c) + rest;
    if c == '&' {
      assert x[..5] == "&amp;" && x[5..] == rest;
      assert StartsWith(x, "&amp;");
    } else if c == '<' {
      assert x[..4] == "&lt;" && x[4..] == rest;
      assert !StartsWith(x, "&amp;") by {
        assert x[1] == 'l';
        if |x| >= 5 {
          assert x[..5][1] == 'l';
        }
      }
      assert StartsWith(x, "&lt;");
    } else if c == '>' {
      assert x[..4] == "&gt;" && x[4..] == rest;
      assert !StartsWith(x, "&amp;") by {
        assert x[1] == 'g';
        if |x| >= 5 {
          assert x[..5][1] == 'g';
        }
      }
      assert !StartsWith(x, "&lt;") by {
        assert x[..4][1] == 'g';
      }
      assert StartsWith(x, "&gt;");
    } else {
      assert x[0] == c && x[1..] == rest;
      assert !StartsWith(x, "&amp;") && !StartsWith(x, "&lt;") && !StartsWith(x, "&gt;") by {
        if |x| >= 4 {
          assert x[..4][0] == c;
        }
        if |x| >= 5 {
          assert x[..5][0] == c;
        }
      }
    }
  }

  /** Escaping loses nothing: the text the browser displays is the text that was escaped. */
  lemma {:induction false} EscapeHtmlRoundTrip(s: string)
    ensures Unescape(EscapeHtml(s)) == s
    decreases |s|
  {
    EscapeHtmlIsOnePass(s);
    if |s| > 0 {
      UnescapeChar(s[0], EscapeEach(s[1..]));
      EscapeHtmlRoundTrip(s[1..]);
      EscapeHtmlIsOnePass(s[1..]);
      assert s == [s[0]] + s[1..];
    }
  }
}
