/**
 * The connection manager: the saved profile list (owned by the application and
 * persisted by it), adding or replacing a profile by id, deleting by id after
 * confirmation, and the per-profile results of testing a connection.
 */
module ConnectionManager {
  import opened Options
  import opened Text
  import opened Records
  import opened Types
  import ConnectionForm

  /** The status of a test: the source's 'testing', 'success' and 'error'. */
  datatype TestStatus = Testing | Succeeded | Failed

  datatype TestResult = TestResult(status: TestStatus, message: string)

  /** `testResults` maps a connection id to the latest result of testing it. */
  datatype ManagerState = ManagerState(
    isFormOpen: bool,
    editing: Option<Connection>,
    testResults: seq<(string, TestResult)>,
    testEndpoint: string)

  const DefaultTestEndpoint := "http://localhost:8000/test-connection"
  const TestingMessage := "Testing..."
  const TestFailedMessage := "Test failed"
  const TestSucceededMessage := "Connection successful!"
  const UnknownTestError := "An unknown error occurred."
  const CorsTestMessage := "Failed to fetch. This is likely a CORS issue. Make sure your test endpoint server allows requests from this origin."

  function Init(): ManagerState
  {
    ManagerState(false, None, [], DefaultTestEndpoint)
  }

  /** Opens the form, for a new profile (None) or to edit `conn`. */
  function OpenForm(s: ManagerState, conn: Option<Connection>): (s': ManagerState)
    ensures s'.isFormOpen && s'.editing == conn
    ensures s'.testResults == s.testResults && s'.testEndpoint == s.testEndpoint
  {
    s.(editing := conn, isFormOpen := true)
  }

  /** Cancelling the form closes it; the profile being edited is kept. */
  function CloseForm(s: ManagerState): (s': ManagerState)
    ensures !s'.isFormOpen && s'.editing == s.editing
    ensures s'.testResults == s.testResults && s'.testEndpoint == s.testEndpoint
  {
    s.(isFormOpen := false)
  }

  function SetTestEndpoint(s: ManagerState, endpoint: string): (s': ManagerState)
    ensures s'.testEndpoint == endpoint
    ensures s'.isFormOpen == s.isFormOpen && s'.editing == s.editing && s'.testResults == s.testResults
  {
    s.(testEndpoint := endpoint)
  }

  predicate HasId(conns: seq<Connection>, id: string)
  {
    exists i :: 0 <= i < |conns| && conns[i].id == id
  }

  /** No two saved profiles share an id. */
  predicate UniqueIds(conns: seq<Connection>)
  {
    forall i, j :: 0 <= i < j < |conns| ==> conns[i].id != conns[j].id
  }

  /** Saving a profile: when its id is already in the list, every entry with that id is
      replaced where it stands and the length and all other entries stay; otherwise the
      profile is appended at the end. */
  function Upsert(conns: seq<Connection>, c: Connection): (r: seq<Connection>)
    ensures HasId(conns, c.id) ==>
      |r| == |conns| && forall i :: 0 <= i < |r| ==> r[i] == (if conns[i].id == c.id then c else conns[i])
    ensures !HasId(conns, c.id) ==> r == conns + [c] && |r| == |conns| + 1
    ensures c in r
  {
    if HasId(conns, c.id) then
      seq(|conns|, i requires 0 <= i < |conns| => if conns[i].id == c.id then c else conns[i])
    else conns + [c]
  }

  /** Saving the same profile twice leaves the list as saving it once. */
  lemma UpsertIdempotent(conns: seq<Connection>, c: Connection)
    ensures Upsert(Upsert(conns, c), c) == Upsert(conns, c)
  {
    var r := Upsert(conns, c);
    assert HasId(r, c.id) by {
      var k :| 0 <= k < |r| && r[k] == c;
    }
  }

  /** Saving keeps ids unique, and the ids afterwards are the ids before plus the saved one. */
  lemma UpsertKeepsIdsUnique(conns: seq<Connection>, c: Connection)
    requires UniqueIds(conns)
    ensures UniqueIds(Upsert(conns, c))
    ensures forall id :: HasId(Upsert(conns, c), id) <==> HasId(conns, id) || id == c.id
  {
    var r := Upsert(conns, c);
    forall id | HasId(r, id)
      ensures HasId(conns, id) || id == c.id
    {
      var i :| 0 <= i < |r| && r[i].id == id;
      if i < |conns| && r[i] == conns[i] {
        assert conns[i].id == id;
      }
    }
    forall id | HasId(conns, id)
      ensures HasId(r, id)
    {
      var i :| 0 <= i < |conns| && conns[i].id == id;
      assert r[i].id == id;
    }
    assert HasId(r, c.id) by {
      var k :| 0 <= k < |r| && r[k] == c;
    }
  }

  /** `connections.filter(c => c.id !== id)`: exactly the entries with another id remain. */
  function Remove(conns: seq<Connection>, id: string): (r: seq<Connection>)
    ensures forall c :: c in r <==> c in conns && c.id != id
    ensures !HasId(r, id)
    ensures |r| <= |conns|
    ensures !HasId(conns, id) ==> r == conns
  {
    if |conns| == 0 then []
    else
      var rest := Remove(conns[1..], id);
      assert !HasId(conns, id) ==> !HasId(conns[1..], id) by {
        if HasId(conns[1..], id) {
          var i :| 0 <= i < |conns[1..]| && conns[1..][i].id == id;
          assert conns[i + 1].id == id;
        }
      }
      assert conns == [conns[0]] + conns[1..];
      if conns[0].id == id then rest else [conns[0]] + rest
  }

  /** Removal works entry by entry, so the surviving entries keep their relative order. */
  lemma {:induction false} RemoveAppend(a: seq<Connection>, b: seq<Connection>, id: string)
    ensures Remove(a + b, id) == Remove(a, id) + Remove(b, id)
    decreases |a|
  {
    if |a| == 0 {
      assert a + b == b;
    } else {
      assert (a + b)[0] == a[0];
      assert (a + b)[1..] == a[1..] + b;
      RemoveAppend(a[1..], b, id);
    }
  }

  /** Removing never introduces a duplicate id. */
  lemma {:induction false} RemoveKeepsIdsUnique(conns: seq<Connection>, id: string)
    requires UniqueIds(conns)
    ensures UniqueIds(Remove(conns, id))
    decreases |conns|
  {
    if |conns| > 0 {
      RemoveKeepsIdsUnique(conns[1..], id);
      var rest := Remove(conns[1..], id);
      if conns[0].id != id {
        forall j | 0 <= j < |rest|
          ensures rest[j].id != conns[0].id
        {
          assert rest[j] in conns[1..];
          var k :| 0 <= k < |conns[1..]| && conns[1..][k] == rest[j];
          assert conns[k + 1] == rest[j];
        }
      }
    }
  }

  /** `handleDeleteConnection`: a confirmed delete saves the list without the id; an
      unconfirmed one saves nothing. */
  function DeleteConnection(conns: seq<Connection>, id: string, confirmed: bool): (saved: Option<seq<Connection>>)
    ensures saved.Some? <==> confirmed
    ensures saved.Some? ==> saved.value == Remove(conns, id)
  {
    if confirmed then Some(Remove(conns, id)) else None
  }

  datatype SaveResult = SaveResult(state: ManagerState, connections: seq<Connection>)

  /** `handleSaveConnection`: the list to save is the upsert, and the form closes with no
      profile being edited. */
  function SaveConnection(s: ManagerState, conns: seq<Connection>, c: Connection): (r: SaveResult)
    ensures r.connections == Upsert(conns, c)
    ensures !r.state.isFormOpen && r.state.editing.None?
    ensures r.state.testResults == s.testResults && r.state.testEndpoint == s.testEndpoint
  {
    SaveResult(s.(isFormOpen := false, editing := None), Upsert(conns, c))
  }

  /** Editing a saved profile and submitting the form untouched saves the list unchanged. */
  lemma EditUnchangedIsNoOp(conns: seq<Connection>, c: Connection, freshId: string)
    requires c in conns && c.id != "" && c.name != "" && UniqueIds(conns)
    ensures Upsert(conns, ConnectionForm.Submit(ConnectionForm.Open(Some(c)), Some(c), freshId)) == conns
  {
    ConnectionForm.OpenSubmitRoundTrip(c, freshId);
    var k :| 0 <= k < |conns| && conns[k] == c;
    assert HasId(conns, c.id);
  }

  /** The POST a test sends: the connection, as JSON, to the configured endpoint. */
  datatype TestCall = TestCall(endpoint: string, connection: Connection)

  datatype TestStart = TestStart(state: ManagerState, call: TestCall)

  /** Starting a test marks that connection as testing and touches no other result. */
  function StartTest(s: ManagerState, c: Connection): (r: TestStart)
    ensures Get(r.state.testResults, c.id) == Some(TestResult(Testing, TestingMessage))
    ensures forall id :: id != c.id ==> Get(r.state.testResults, id) == Get(s.testResults, id)
    ensures r.call == TestCall(s.testEndpoint, c)
    ensures r.state.isFormOpen == s.isFormOpen && r.state.editing == s.editing && r.state.testEndpoint == s.testEndpoint
  {
    TestStart(s.(testResults := Set(s.testResults, c.id, TestResult(Testing, TestingMessage))), TestCall(s.testEndpoint, c))
  }

  /** How the test call settled. `Replied` carries the response's `ok` flag and the
      `message` and `detail` fields of its JSON body (empty when absent); `Threw` carries
      the message of an error thrown by `fetch` or by reading the body as JSON. */
  datatype TestReply = Replied(ok: bool, message: string, detail: string) | Threw(message: string)

  lemma UnknownTestErrorLacksFailedToFetch()
    ensures !Contains(UnknownTestError, FailedToFetch)
  {
    assert FailedToFetch[0] == 'F';
    LacksFirstChar(UnknownTestError, FailedToFetch);
  }

  /** The message shown for a failed test: an empty message becomes the generic one, and
      one that mentions "Failed to fetch" is replaced wholesale by the CORS explanation. */
  function FailureMessage(m: string): (r: string)
    ensures r != ""
    ensures Contains(m, FailedToFetch) ==> r == CorsTestMessage
    ensures m == "" ==> r == UnknownTestError
    ensures m != "" && !Contains(m, FailedToFetch) ==> r == m
  {
    var message := OrElse(m, UnknownTestError);
    UnknownTestErrorLacksFailedToFetch();
    if Contains(message, FailedToFetch) then CorsTestMessage else message
  }

  /** The result a settled test records. Only an ok reply succeeds, with the reply's message
      or the default success text; a non-ok reply fails with its detail or "Test failed";
      a thrown error fails with its message; failure messages go through the CORS rule. */
  function TestOutcome(reply: TestReply): (t: TestResult)
    ensures t.status != Testing && t.message != ""
    ensures t.status == Succeeded <==> reply.Replied? && reply.ok
    ensures reply.Replied? && reply.ok ==> t.message == OrElse(reply.message, TestSucceededMessage)
    ensures reply.Replied? && !reply.ok ==> t.message == FailureMessage(OrElse(reply.detail, TestFailedMessage))
    ensures reply.Threw? ==> t.message == FailureMessage(reply.message)
  {
    match reply
    case Replied(ok, message, detail) =>
      if ok then TestResult(Succeeded, OrElse(message, TestSucceededMessage))
      else TestResult(Failed, FailureMessage(OrElse(detail, TestFailedMessage)))
    case Threw(message) => TestResult(Failed, FailureMessage(message))
  }

  /** A settled test records its outcome under that connection's id only. */
  function FinishTest(s: ManagerState, c: Connection, reply: TestReply): (s': ManagerState)
    ensures Get(s'.testResults, c.id) == Some(TestOutcome(reply))
    ensures forall id :: id != c.id ==> Get(s'.testResults, id) == Get(s.testResults, id)
    ensures DistinctKeys(s.testResults) ==> DistinctKeys(s'.testResults)
    ensures s'.isFormOpen == s.isFormOpen && s'.editing == s.editing && s'.testEndpoint == s.testEndpoint
  {
    s.(testResults := Set(s.testResults, c.id, TestOutcome(reply)))
  }

  /** The test button spins while that connection's test is running. */
  predicate IsTesting(s: ManagerState, id: string)
  {
    match Get(s.testResults, id)
    case Some(t) => t.status == Testing
    case None => false
  }

  /** A test that was started and has settled is no longer spinning, and other connections'
      spinners are as they were before the test started. */
  lemma TestSettles(s: ManagerState, c: Connection, reply: TestReply, other: string)
    requires other != c.id
    ensures IsTesting(StartTest(s, c).state, c.id)
    ensures !IsTesting(FinishTest(StartTest(s, c).state, c, reply), c.id)
    ensures IsTesting(FinishTest(StartTest(s, c).state, c, reply), other) == IsTesting(s, other)
  {
  }
}
