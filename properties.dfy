/**
 * Properties that relate several calls: which answers the engine and node
 * lookups consult, how the transfer poll depends on its answer sequence, and
 * the poll outcomes for small status sequences.
 */
module ActionsProperties {
  import opened Wrappers
  import opened Swis
  import opened Actions

  /** The sleeps are exactly the leading in-progress answers: any index that ends them is the one the poll stops at. */
  lemma WaitsIsFirstSettled(answers: seq<Response>, k: nat)
    requires k < |answers| && !InProgress(answers[k])
    requires forall j :: 0 <= j < k ==> InProgress(answers[j])
    ensures Settles(answers) && Waits(answers) == k
  {
  }

  /** Answers after the one that settles the poll are never looked at. */
  lemma LaterAnswersIgnored(answers: seq<Response>, rest: seq<Response>)
    requires Settles(answers)
    ensures var polled := answers[..Waits(answers) + 1] + rest;
      Settles(polled) && Waits(polled) == Waits(answers) && TransferSummary(polled) == TransferSummary(answers)
  {
    var k := Waits(answers);
    var polled := answers[..k + 1] + rest;
    assert polled[k] == answers[k];
    forall j | 0 <= j < k ensures InProgress(polled[j]) {
      assert polled[j] == answers[j];
    }
    WaitsIsFirstSettled(polled, k);
  }

  /** get_engine_id consults the platform only through the query EngineQuery names, so "primary" consults nothing. */
  lemma EngineIdConsultsOnlyEngineQuery(poller: string, swis1: Query -> Response, swis2: Query -> Response)
    requires forall q :: EngineQuery(poller) == Some(q) ==> swis1(q) == swis2(q)
    ensures EngineId(poller, swis1) == EngineId(poller, swis2)
  {
  }

  /** get_node consults the platform only through the queries NodeQueries lists. */
  lemma ResolveNodeConsultsOnlyNodeQueries(node: string, isIp: string -> bool, swis1: Query -> Response, swis2: Query -> Response)
    requires forall q :: q in NodeQueries(node, isIp, swis1) ==> swis1(q) == swis2(q)
    ensures NodeQueries(node, isIp, swis1) == NodeQueries(node, isIp, swis2)
    ensures ResolveNode(node, isIp, swis1) == ResolveNode(node, isIp, swis2)
  {
  }

  /** A found node whose NodeID is null is unset, as Python's None is, so no secondary query is sent. */
  lemma NullNodeIdSendsNoSecondary(node: string, isIp: string -> bool, swis: Query -> Response)
    requires var data := swis(NodeQuery(node, isIp));
      data.results.Some? && |data.results.value| == 1 &&
      FirstMissing(data.results.value[0], NodeFields).None? && data.results.value[0]["NodeID"] == Null
    ensures |NodeQueries(node, isIp, swis)| == 1
    ensures ResolveNode(node, isIp, swis).Success? && ResolveNode(node, isIp, swis).value.npmId.None?
  {
  }

  /** A one-row answer whose job has the given status code and empty details. */
  function StatusAnswer(code: int): (data: Response)
    ensures StatusOf(data) == Success(Int(code))
  {
    Response(Some([map[
      "Status" := Int(code),
      "RequestedScript" := Null,
      "RequestedReboot" := Null,
      "ErrorMessage" := Null,
      "DeviceOutput" := Null,
      "UserName" := Null]]))
  }

  /** Statuses 1, 1, 2: two sleeps, then the job is reported complete. */
  lemma CompleteAfterTwoSleeps()
    ensures var answers := [StatusAnswer(1), StatusAnswer(1), StatusAnswer(2)];
      && Settles(answers) && Waits(answers) == 2
      && TransferSummary(answers).Success?
      && TransferSummary(answers).value["status"] == Str("Complete")
  {
    var answers := [StatusAnswer(1), StatusAnswer(1), StatusAnswer(2)];
    WaitsIsFirstSettled(answers, 2);
  }

  /** Status 3 at once: no sleep, the job is reported as an error. */
  lemma ErrorAtOnce(rest: seq<Response>)
    ensures var answers := [StatusAnswer(3)] + rest;
      && Settles(answers) && Waits(answers) == 0
      && TransferSummary(answers).Success?
      && TransferSummary(answers).value["status"] == Str("Error")
  {
    var answers := [StatusAnswer(3)] + rest;
    WaitsIsFirstSettled(answers, 0);
  }

  /** An unexpected status such as 99 ends the poll at once as unknown. */
  lemma UnknownAtOnce(code: int, rest: seq<Response>)
    requires code !in {1, 2, 3}
    ensures var answers := [StatusAnswer(code)] + rest;
      && Settles(answers) && Waits(answers) == 0
      && TransferSummary(answers).Success?
      && TransferSummary(answers).value["status"] == Str("Unknown")
  {
    var answers := [StatusAnswer(code)] + rest;
    WaitsIsFirstSettled(answers, 0);
  }
}
