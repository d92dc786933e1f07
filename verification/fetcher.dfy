/**
 * The data-vendor side of main.go: the top search result, and the
 * trigger -> poll -> fetch protocol of `FetchCompanyInfo` and
 * `FetchSnapshotStatus`.
 *
 * HTTP is replaced by a `Network` object that logs each request and answers
 * from a script of replies; a reply's body is given already decoded as a JSON
 * value, and decoding it into the Go type the caller expects may still fail.
 */
module Fetcher {
  import opened Wrappers

  datatype OrganicSearchResult = OrganicSearchResult(
    link: string, displayLink: string, title: string, description: string, rank: int, globalRank: int)

  datatype SERPResults = SERPResults(organic: seq<OrganicSearchResult>)

  datatype SnapshotStatus = SnapshotStatus(snapshotId: string, status: string, message: string)

  datatype ProductDetails = ProductDetails(productName: string, productDescription: string)

  datatype CompanyInfo = CompanyInfo(fullDescription: string, products: seq<ProductDetails>, employeeCount: string)

  datatype URLPayload = URLPayload(url: string)

  /** The top-search loop of `main`: the first organic result's link, if any. */
  method TopSearch(results: SERPResults) returns (top: seq<URLPayload>)
    ensures |top| <= 1
    ensures top == [] <==> results.organic == []
    ensures results.organic != [] ==> top[0].url == results.organic[0].link
  {
    top := [];
    for i := 0 to |results.organic|
      invariant i <= 1
      invariant top == if i == 0 then [] else [URLPayload(results.organic[0].link)]
    {
      if i > 0 {
        break;
      }
      top := top + [URLPayload(results.organic[i].link)];
    }
  }

  // ---------------------------------------------------------------------------
  // Requests, replies and the scripted network

  /** The JSON value a response body holds. */
  datatype Json =
    | StatusObject(status: SnapshotStatus)       // an object with snapshot_id / status / message
    | CompanyArray(companies: seq<CompanyInfo>)  // an array of company records
    | Malformed(cause: string)                   // not valid JSON

  /** Where a request failed: `http.NewRequest`, `client.Do` or `io.ReadAll`. */
  datatype Stage = Create | Send | Read

  datatype Reply = Failed(stage: Stage, cause: string) | Body(json: Json)

  /** A request: its method, URL, `Authorization` header and JSON payload (empty for a GET). */
  datatype Request = Request(verb: string, url: string, authorization: string, payload: seq<URLPayload>)

  /** What a request gets once the script has run out. */
  const Exhausted := Failed(Send, "no reply")

  function NextReply(script: seq<Reply>): Reply {
    if script == [] then Exhausted else script[0]
  }

  function RestOf(script: seq<Reply>): seq<Reply> {
    if script == [] then [] else script[1..]
  }

  /** The HTTP client and the clock, as seen by the protocol. */
  class Network {
    var script: seq<Reply>
    var log: seq<Request>
    var waits: nat

    constructor (script: seq<Reply>)
      ensures this.script == script && log == [] && waits == 0
    {
      this.script := script;
      log := [];
      waits := 0;
    }

    /** `time.Sleep(3 * time.Second)`: only the number of waits is kept. */
    method Sleep()
      modifies this`waits
      ensures waits == old(waits) + 1
    {
      waits := waits + 1;
    }

    /** Issue `req` and take the next scripted reply. */
    method Do(req: Request) returns (reply: Reply)
      modifies this`script, this`log
      ensures reply == NextReply(old(script))
      ensures script == RestOf(old(script))
      ensures log == old(log) + [req]
    {
      reply := NextReply(script);
      script := RestOf(script);
      log := log + [req];
    }
  }

  // ---------------------------------------------------------------------------
  // Messages, URLs and decoding

  const TriggerURL := "https://api.brightdata.com/datasets/v3/trigger?dataset_id=gd_l1vijqt9jfj7olije&include_errors=true"
  const SnapshotPrefix := "https://api.brightdata.com/datasets/v3/snapshot/"
  const SnapshotSuffix := "?format=json"

  /** The status and snapshot URL of a snapshot id. */
  function SnapshotURL(id: string): (u: string)
    ensures SnapshotPrefix <= u
    ensures |u| == |SnapshotPrefix| + |id| + |SnapshotSuffix|
    ensures u[|SnapshotPrefix|..|SnapshotPrefix| + |id|] == id
    ensures u[|SnapshotPrefix| + |id|..] == SnapshotSuffix
  {
    SnapshotPrefix + id + SnapshotSuffix
  }

  /** Distinct snapshot ids give distinct URLs. */
  lemma SnapshotURLInjective(a: string, b: string)
    requires SnapshotURL(a) == SnapshotURL(b)
    ensures a == b
  {
    assert |a| == |b|;
  }

  /** `os.Getenv`: an unset variable reads as the empty string. */
  function Getenv(v: Option<string>): string {
    v.GetOr("")
  }

  const TokenUnset := Error("environment variable BRIGHT_TOKEN is not set")
  const NoCompanyInfo := Error("No company information found.")

  /** The wrapped error of a failed request, the same at every call site. */
  function RequestError(stage: Stage, cause: string): Error {
    match stage
    case Create => Error("error creating request: " + cause)
    case Send => Error("error making request: " + cause)
    case Read => Error("error reading response body: " + cause)
  }

  /** `json.Unmarshal` into a `SnapshotStatus`. */
  function DecodeStatus(j: Json): Result<SnapshotStatus, string> {
    match j
    case StatusObject(s) => Success(s)
    case CompanyArray(_) => Failure("json: cannot unmarshal array into Go value of type main.SnapshotStatus")
    case Malformed(cause) => Failure(cause)
  }

  /** `json.Unmarshal` into a `[]CompanyInfo`. */
  function DecodeCompanies(j: Json): Result<seq<CompanyInfo>, string> {
    match j
    case StatusObject(_) => Failure("json: cannot unmarshal object into Go value of type []main.CompanyInfo")
    case CompanyArray(cs) => Success(cs)
    case Malformed(cause) => Failure(cause)
  }

  /** A reply read as a `SnapshotStatus`; `context` prefixes a decoding error. */
  function StatusReply(reply: Reply, context: string): Result<SnapshotStatus, Error> {
    match reply
    case Failed(stage, cause) => Failure(RequestError(stage, cause))
    case Body(j) =>
      match DecodeStatus(j)
      case Success(s) => Success(s)
      case Failure(cause) => Failure(Error(context + cause))
  }

  /** A reply read as a `[]CompanyInfo`. */
  function CompaniesReply(reply: Reply): Result<seq<CompanyInfo>, Error> {
    match reply
    case Failed(stage, cause) => Failure(RequestError(stage, cause))
    case Body(j) =>
      match DecodeCompanies(j)
      case Success(cs) => Success(cs)
      case Failure(cause) => Failure(Error("error unmarshaling response: " + cause))
  }

  /** A reply that decodes to a status saying "running". */
  predicate IsRunning(reply: Reply) {
    reply.Body? && reply.json.StatusObject? && reply.json.status.status == "running"
  }

  function Repeat<T>(x: T, n: nat): (r: seq<T>)
    ensures |r| == n
    ensures forall k :: 0 <= k < n ==> r[k] == x
  {
    if n == 0 then [] else [x] + Repeat(x, n - 1)
  }

  // ---------------------------------------------------------------------------
  // FetchSnapshotStatus

  /**
   * What one call of `FetchSnapshotStatus` returns, how many requests and waits
   * it made, and the replies it left unread.
   */
  datatype Poll = Poll(status: SnapshotStatus, err: Option<Error>, requests: nat, waits: nat, rest: seq<Reply>)

  const EmptyStatus := SnapshotStatus("", "", "")

  function Complete(id: string): SnapshotStatus {
    SnapshotStatus(id, "complete", "")
  }

  function PollRequest(token: string, id: string): Request {
    Request("GET", SnapshotURL(id), "Bearer " + token, [])
  }

  /**
   * The poll against the script: wait, then (with a token) request the status,
   * recursing while it says "running". The nested call's result is discarded.
   */
  function PollOutcome(token: string, id: string, script: seq<Reply>): (p: Poll)
    decreases |script|
  {
    if token == "" then
      Poll(EmptyStatus, Some(TokenUnset), 0, 1, script)
    else
      match StatusReply(NextReply(script), "error unmarshaling JSON: ")
      case Failure(e) => Poll(EmptyStatus, Some(e), 1, 1, RestOf(script))
      case Success(s) =>
        if s.status == "running" then
          var nested := PollOutcome(token, id, RestOf(script));
          Poll(Complete(id), None, nested.requests + 1, nested.waits + 1, nested.rest)
        else
          Poll(Complete(id), None, 1, 1, RestOf(script))
  }

  /** `FetchSnapshotStatus(snapshotID)`, with the BRIGHT_TOKEN variable as `brightToken`. */
  method FetchSnapshotStatus(net: Network, brightToken: Option<string>, id: string)
    returns (status: SnapshotStatus, err: Option<Error>)
    modifies net
    decreases |net.script|
    ensures var p := PollOutcome(Getenv(brightToken), id, old(net.script));
      && status == p.status && err == p.err
      && net.log == old(net.log) + Repeat(PollRequest(Getenv(brightToken), id), p.requests)
      && net.waits == old(net.waits) + p.waits
      && net.script == p.rest
  {
    net.Sleep();
    var url := SnapshotURL(id);
    var token := Getenv(brightToken);
    if token == "" {
      return EmptyStatus, Some(TokenUnset);
    }
    ghost var before := net.script;
    var reply := net.Do(Request("GET", url, "Bearer " + token, []));
    match StatusReply(reply, "error unmarshaling JSON: ")
    case Failure(e) =>
      return EmptyStatus, Some(e);
    case Success(s) =>
      if s.status == "running" {
        assert before != [];
        var _, _ := FetchSnapshotStatus(net, brightToken, id);
        assert Repeat(PollRequest(token, id), PollOutcome(token, id, RestOf(before)).requests + 1)
            == [PollRequest(token, id)] + Repeat(PollRequest(token, id), PollOutcome(token, id, RestOf(before)).requests);
      }
      return Complete(id), None;
  }

  /** With no token: one wait, no request, an error and an empty status. */
  lemma PollWithoutToken(id: string, script: seq<Reply>)
    ensures PollOutcome("", id, script) == Poll(EmptyStatus, Some(TokenUnset), 0, 1, script)
  {
  }

  /**
   * k "running" statuses followed by any other reply take exactly k + 1
   * requests and k + 1 waits; past the first, the outcome is success whatever
   * the later replies were.
   */
  lemma {:induction false} PollCount(token: string, id: string, script: seq<Reply>, k: nat)
    requires token != ""
    requires k < |script|
    requires forall i :: 0 <= i < k ==> IsRunning(script[i])
    requires !IsRunning(script[k])
    ensures PollOutcome(token, id, script).requests == k + 1
    ensures PollOutcome(token, id, script).waits == k + 1
    ensures k > 0 ==> PollOutcome(token, id, script).status == Complete(id)
    ensures k > 0 ==> PollOutcome(token, id, script).err == None
    decreases k
  {
    if k > 0 {
      assert IsRunning(script[0]);
      PollCount(token, id, script[1..], k - 1);
    }
  }

  /** A successful poll reports "complete" for the id it polled, whatever the service said. */
  lemma PollSuccessIsComplete(token: string, id: string, script: seq<Reply>)
    ensures PollOutcome(token, id, script).err.None?
        <==> token != "" && StatusReply(NextReply(script), "error unmarshaling JSON: ").Success?
    ensures PollOutcome(token, id, script).err.None? ==> PollOutcome(token, id, script).status == Complete(id)
    ensures PollOutcome(token, id, script).err.Some? ==> PollOutcome(token, id, script).status == EmptyStatus
  {
  }

  // ---------------------------------------------------------------------------
  // FetchCompanyInfo

  /** What `FetchCompanyInfo` returns, the requests it makes, how often it waits and the replies it leaves unread. */
  datatype Fetch = Fetch(companies: seq<CompanyInfo>, err: Option<Error>, requests: seq<Request>, waits: nat, rest: seq<Reply>)

  function TriggerRequest(token: string, payloadData: seq<URLPayload>): Request {
    Request("POST", TriggerURL, "Bearer " + token, payloadData)
  }

  /** The trigger -> poll -> fetch sequence against the script. */
  function FetchOutcome(token: string, payloadData: seq<URLPayload>, script: seq<Reply>): (f: Fetch)
    ensures f.err.Some? ==> f.companies == []
  {
    var trigger := [TriggerRequest(token, payloadData)];
    match StatusReply(NextReply(script), "error unmarshaling snapshot response: ")
    case Failure(e) => Fetch([], Some(e), trigger, 0, RestOf(script))
    case Success(s) =>
      var id := s.snapshotId;
      var rest := RestOf(script);
      var p := PollOutcome(token, id, rest);
      var polls := trigger + Repeat(PollRequest(token, id), p.requests);
      if p.err.Some? then
        // The error wrapped is the (nil) trigger error, not the poll's.
        Fetch([], Some(Error("error getting snapshot status: <nil>")), polls, p.waits, p.rest)
      else if p.status.status == "complete" then
        if token == "" then
          Fetch([], Some(TokenUnset), polls, p.waits, p.rest)
        else
          var fetch := Request("GET", SnapshotURL(p.status.snapshotId), "Bearer " + token, []);
          match CompaniesReply(NextReply(p.rest))
          case Failure(e) => Fetch([], Some(e), polls + [fetch], p.waits, RestOf(p.rest))
          case Success(cs) => Fetch(cs, None, polls + [fetch], p.waits, RestOf(p.rest))
      else
        Fetch([], Some(NoCompanyInfo), polls, p.waits, p.rest)
  }

  /** `FetchCompanyInfo(payloadData)`, with the BRIGHT_TOKEN variable as `brightToken`. */
  method FetchCompanyInfo(net: Network, brightToken: Option<string>, payloadData: seq<URLPayload>)
    returns (companies: seq<CompanyInfo>, err: Option<Error>)
    modifies net
    ensures var f := FetchOutcome(Getenv(brightToken), payloadData, old(net.script));
      && companies == f.companies && err == f.err
      && net.log == old(net.log) + f.requests
      && net.waits == old(net.waits) + f.waits
      && net.script == f.rest
  {
    var reply := net.Do(Request("POST", TriggerURL, "Bearer " + Getenv(brightToken), payloadData));
    var snapshotStatus: SnapshotStatus;
    match StatusReply(reply, "error unmarshaling snapshot response: ")
    case Failure(e) =>
      return [], Some(e);
    case Success(s) =>
      snapshotStatus := s;
    var snapShotStatus, snapshotErr := FetchSnapshotStatus(net, brightToken, snapshotStatus.snapshotId);
    if snapshotErr.Some? {
      return [], Some(Error("error getting snapshot status: <nil>"));
    }
    if snapShotStatus.status == "complete" {
      var url := SnapshotURL(snapShotStatus.snapshotId);
      var token := Getenv(brightToken);
      if token == "" {
        return [], Some(TokenUnset);
      }
      var reply := net.Do(Request("GET", url, "Bearer " + token, []));
      match CompaniesReply(reply)
      case Failure(e) =>
        return [], Some(e);
      case Success(cs) =>
        return cs, None;
    }
    return [], Some(NoCompanyInfo);
  }

  /**
   * Every request after the trigger (each poll and the final fetch) targets the
   * snapshot URL of the id decoded from the trigger's reply.
   */
  lemma FetchUsesTriggerId(token: string, payloadData: seq<URLPayload>, script: seq<Reply>)
    ensures FetchOutcome(token, payloadData, script).requests[0] == TriggerRequest(token, payloadData)
    ensures StatusReply(NextReply(script), "error unmarshaling snapshot response: ").Success? ==>
      var id := StatusReply(NextReply(script), "error unmarshaling snapshot response: ").value.snapshotId;
      forall k :: 1 <= k < |FetchOutcome(token, payloadData, script).requests| ==>
        FetchOutcome(token, payloadData, script).requests[k] == Request("GET", SnapshotURL(id), "Bearer " + token, [])
  {
    match StatusReply(NextReply(script), "error unmarshaling snapshot response: ")
    case Failure(_) =>
    case Success(s) =>
      var p := PollOutcome(token, s.snapshotId, RestOf(script));
      PollSuccessIsComplete(token, s.snapshotId, RestOf(script));
  }

  /**
   * The snapshot is fetched exactly when the trigger and the poll succeed; then
   * the result is exactly the decoded array of the reply after the polls, and
   * otherwise it is empty with an error.
   */
  lemma FetchOnlyWhenComplete(token: string, payloadData: seq<URLPayload>, script: seq<Reply>)
    ensures var f := FetchOutcome(token, payloadData, script);
      var trig := StatusReply(NextReply(script), "error unmarshaling snapshot response: ");
      && (trig.Failure? ==> f == Fetch([], Some(trig.error), [TriggerRequest(token, payloadData)], 0, RestOf(script)))
      && (trig.Success? ==>
            var p := PollOutcome(token, trig.value.snapshotId, RestOf(script));
            && f.waits == p.waits
            && (p.err.Some? ==>
                  f.companies == [] && f.err == Some(Error("error getting snapshot status: <nil>"))
                  && |f.requests| == 1 + p.requests)
            && (p.err.None? ==>
                  |f.requests| == 2 + p.requests
                  && (f.err.None? <==> CompaniesReply(NextReply(p.rest)).Success?)
                  && (f.err.None? ==> f.companies == CompaniesReply(NextReply(p.rest)).value)))
  {
    var trig := StatusReply(NextReply(script), "error unmarshaling snapshot response: ");
    if trig.Success? {
      PollSuccessIsComplete(token, trig.value.snapshotId, RestOf(script));
    }
  }

  /** The "No company information found." exit is never taken: a successful poll always says "complete". */
  lemma NoCompanyInfoUnreachable(token: string, payloadData: seq<URLPayload>, script: seq<Reply>)
    ensures FetchOutcome(token, payloadData, script).err != Some(NoCompanyInfo)
  {
    var f := FetchOutcome(token, payloadData, script);
    match StatusReply(NextReply(script), "error unmarshaling snapshot response: ")
    case Failure(e) =>
      StatusErrorMessage(NextReply(script), "error unmarshaling snapshot response: ");
    case Success(s) =>
      var p := PollOutcome(token, s.snapshotId, RestOf(script));
      PollSuccessIsComplete(token, s.snapshotId, RestOf(script));
      if p.err.None? && token != "" {
        CompaniesErrorMessage(NextReply(p.rest));
      }
  }

  /** Every error from reading a status reply starts with a lower-case 'e'. */
  lemma StatusErrorMessage(reply: Reply, context: string)
    requires context != [] && context[0] == 'e'
    ensures StatusReply(reply, context).Failure? ==>
      StatusReply(reply, context).error.message != [] && StatusReply(reply, context).error.message[0] == 'e'
  {
    match reply
    case Failed(stage, cause) =>
    case Body(j) =>
      if DecodeStatus(j).Failure? {
        assert (context + DecodeStatus(j).error)[0] == context[0];
      }
  }

  /** Every error from reading the snapshot array starts with a lower-case 'e'. */
  lemma CompaniesErrorMessage(reply: Reply)
    ensures CompaniesReply(reply).Failure? ==>
      CompaniesReply(reply).error.message != [] && CompaniesReply(reply).error.message[0] == 'e'
  {
  }

  /**
   * A job whose trigger answers "running", whose first poll answers "running"
   * and whose second poll already gets the finished array (which does not
   * decode as a status, an error the nested call discards) yields the one
   * record of the snapshot, after two waits and four requests: the trigger,
   * two polls and the fetch, the last three to the same snapshot URL.
   */
  lemma OneRecordScenario(token: string, payloadData: seq<URLPayload>, rec: CompanyInfo)
    requires token != ""
    ensures
      var script := [
        Body(StatusObject(SnapshotStatus("abc", "running", ""))),
        Body(StatusObject(SnapshotStatus("abc", "running", ""))),
        Body(CompanyArray([rec])),
        Body(CompanyArray([rec]))];
      FetchOutcome(token, payloadData, script) == Fetch([rec], None, [TriggerRequest(token, payloadData)] + Repeat(PollRequest(token, "abc"), 3), 2, [])
  {
    var script := [
      Body(StatusObject(SnapshotStatus("abc", "running", ""))),
      Body(StatusObject(SnapshotStatus("abc", "running", ""))),
      Body(CompanyArray([rec])),
      Body(CompanyArray([rec]))];
    var rest := RestOf(script);
    assert PollOutcome(token, "abc", rest[1..]).rest == rest[2..];
    assert PollOutcome(token, "abc", rest) == Poll(Complete("abc"), None, 2, 2, rest[2..]);
  }

  /**
   * A snapshot that is already finished when first polled answers with its
   * array, which does not decode as a status: the whole call fails, with the
   * nil-wrapping poll error and no companies.
   */
  lemma ReadyAtFirstPollFails(token: string, payloadData: seq<URLPayload>, script: seq<Reply>)
    requires |script| >= 2 && script[0].Body? && script[0].json.StatusObject?
    requires script[1].Body? && script[1].json.CompanyArray?
    ensures FetchOutcome(token, payloadData, script).companies == []
    ensures FetchOutcome(token, payloadData, script).err.Some?
  {
  }
}
