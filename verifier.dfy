/**
 * The batch verification client of `sheerid_verifier.py` (`SheerIDVerifier`).
 *
 * The remote service is a script of replies: the k-th request to an endpoint gets the k-th
 * reply of that endpoint (`Service`). The session keeps a log of every request it sent
 * (`Wire`), so the counts and contents of requests can be stated. The client's own state is its
 * anti-forgery token and its header map.
 *
 * The first half of the module is the specification as functions on values (`State`); the
 * second half is the client as classes whose methods are proved to compute those functions.
 */
module Verifier {
  import opened Wrappers
  import opened Text
  import Ordered

  const BaseUrl: string := "https://batch.1key.me"
  const CsrfHeader: string := "X-CSRF-Token"
  /** The text the landing page must contain before the token assignment. */
  const TokenMarker: string := "window.CSRF_TOKEN"
  const DataPrefix: string := "data:"
  /** At most this many status requests per pending verification (`range(60)`). */
  const MaxPolls: nat := 60

  const DefaultHeaders: map<string, string> := map[
    "User-Agent" := "Mozilla/5.0 (Windows NT 10.0; Win64; x64) AppleWebKit/537.36 (KHTML, like Gecko) Chrome/120.0.0.0 Safari/537.36",
    "Origin" := BaseUrl,
    "Referer" := BaseUrl + "/"
  ]

  const MsgNoToken: string := "Failed to get CSRF token"
  const MsgTokenExpired: string := "Token expired"
  const MsgPollTimeout: string := "Polling timeout (120s)"
  const MsgPollException: string := "Polling exception: "
  const MsgCancelNoToken: string := "No CSRF Token"
  const MsgInvalidJson: string := "Invalid JSON: "

  // ===========================================================================
  // Data

  /** The string-valued fields of one JSON object of the protocol that the client reads. */
  datatype Record = Record(
    verificationId: Option<string>,
    currentStep: Option<string>,
    status: Option<string>,
    message: Option<string>,
    checkToken: Option<string>)

  /** The synthetic `{"status": "error", "message": msg}` entry. */
  function ErrorRecord(msg: string): Record {
    Record(None, None, Some("error"), Some(msg), None)
  }

  /** The per-id results dictionary of one batch, in insertion order. */
  type Results = Ordered.Dict<Record>

  /** One call of the progress callback: `callback(vid, msg)`. */
  datatype Progress = Progress(vid: string, msg: string)

  /** Reply to `GET /`: a page body, or a failure (network error or HTTP error status). */
  datatype Fetch = Page(text: string) | FetchError(error: string)

  /** What `json.loads` makes of a payload: not JSON, JSON that is not an object, or an object. */
  datatype Json = Malformed | NotObject(error: string) | Object(record: Record)

  /** One step of `resp.iter_lines()`: a line, or an exception raised while reading or decoding one. */
  datatype StreamItem = Chunk(line: string) | Fault(error: string)

  /** Reply to `POST /api/batch`: a status code and a line stream, or an exception. */
  datatype Submission = Response(code: int, body: seq<StreamItem>) | SubmitError(error: string)

  /** Reply to `POST /api/check-status`: a decoded object, or an exception. */
  datatype PollReply = Answered(record: Record) | Raised(error: string)

  /** Reply to `POST /api/cancel`: a JSON object, a body that is not JSON, or an exception. */
  datatype CancelReply = CancelBody(body: Record) | NotJson(text: string) | CancelError(error: string)

  /** The remote service: the reply to the k-th request of each endpoint, and the JSON decoder. */
  datatype Service = Service(
    landing: nat -> Fetch,
    batch: nat -> Submission,
    status: nat -> PollReply,
    cancel: nat -> CancelReply,
    parse: string -> Json)

  /** A `POST /api/batch` as sent: its ids, its `hCaptchaToken` and its `X-CSRF-Token` header. */
  datatype BatchRequest = BatchRequest(verificationIds: seq<string>, hCaptchaToken: string, csrf: Option<string>)

  /** A `POST /api/cancel` as sent. */
  datatype CancelRequest = CancelRequest(verificationId: string, csrf: Option<string>)

  /** Every request the session has sent, per endpoint, in order. */
  datatype Wire = Wire(
    landingGets: nat,
    batchPosts: seq<BatchRequest>,
    statusPosts: seq<string>,
    cancelPosts: seq<CancelRequest>)

  /** The client's fields `csrf_token` and `headers`, and its session's request log. */
  datatype State = State(csrfToken: Option<string>, headers: map<string, string>, wire: Wire)

  /** What `verify_batch` returns, the callbacks it made, and the state it leaves. */
  datatype Outcome = Outcome(results: Results, progress: seq<Progress>, state: State)

  function Lookup(m: map<string, string>, k: string): Option<string> {
    if k in m then Some(m[k]) else None
  }

  /** Python's `f"{x}"` of an optional string. */
  function Show(x: Option<string>): string {
    match x
    case Some(s) => s
    case None => "None"
  }

  /** `if not self.csrf_token`: a token is cached when it is present and non-empty. */
  predicate HasToken(st: State) {
    st.csrfToken.Some? && st.csrfToken.value != ""
  }

  /** A cached token is a regular-expression capture and is the `X-CSRF-Token` header. */
  predicate TokenInvariant(st: State) {
    st.csrfToken.Some? ==>
      && st.csrfToken.value != ""
      && NoQuotes(st.csrfToken.value)
      && Lookup(st.headers, CsrfHeader) == st.csrfToken
  }

  // ===========================================================================
  // Token extraction: re.search(r'window\.CSRF_TOKEN\s*=\s*["\']([^"\']+)["\']', text)

  predicate IsQuote(c: char) {
    c == '"' || c == '\''
  }

  predicate NoQuotes(s: string) {
    forall k :: 0 <= k < |s| ==> !IsQuote(s[k])
  }

  /** Length of the longest quote-free prefix of `s`: what `[^"\']+` consumes. */
  function QuoteFreeRun(s: string): (n: nat)
    ensures n <= |s|
    ensures NoQuotes(s[..n])
    ensures n < |s| ==> IsQuote(s[n])
  {
    if |s| == 0 || IsQuote(s[0]) then 0
    else
      var n := 1 + QuoteFreeRun(s[1..]);
      assert s[..n] == [s[0]] + s[1..][..n - 1];
      n
  }

  /** `([^"\']+)["\']` at the front of `r`: the group, if a closing quote follows a non-empty run. */
  function Group(r: string): (g: Option<string>)
    ensures g.Some? ==> g.value != "" && NoQuotes(g.value)
  {
    var n := QuoteFreeRun(r);
    if 0 < n < |r| then Some(r[..n]) else None
  }

  /** `\s*["\']` and the group, at the front of `r`. */
  function AfterEquals(r: string): (g: Option<string>)
    ensures g.Some? ==> g.value != "" && NoQuotes(g.value)
  {
    var k := LeadingSpaces(r);
    if k < |r| && IsQuote(r[k]) then Group(r[k + 1..]) else None
  }

  /** `\s*=`, then the rest of the pattern, at the front of `r`. */
  function AfterMarker(r: string): (g: Option<string>)
    ensures g.Some? ==> g.value != "" && NoQuotes(g.value)
  {
    var k := LeadingSpaces(r);
    if k < |r| && r[k] == '=' then AfterEquals(r[k + 1..]) else None
  }

  /** The group the pattern captures when matched at position `i` of `s`, if it matches there. */
  function TokenAt(s: string, i: nat): (r: Option<string>)
    ensures r.Some? ==> r.value != "" && NoQuotes(r.value)
  {
    if i <= |s| && StartsWith(s[i..], TokenMarker) then AfterMarker(s[i + |TokenMarker|..]) else None
  }

  /** `re.search` from position `from`: the capture at the leftmost position where the pattern matches. */
  function FindToken(s: string, from: nat): (r: Option<string>)
    decreases |s| + 1 - from
    ensures r.Some? ==> r.value != "" && NoQuotes(r.value)
  {
    if from > |s| then None
    else if TokenAt(s, from).Some? then TokenAt(s, from)
    else FindToken(s, from + 1)
  }

  // ===========================================================================
  // Specification of the client's operations

  /** `_get_csrf_token`: one `GET /`; on a match, cache the token and set the header. */
  function GetToken(svc: Service, st: State): (r: (bool, State))
    ensures r.1.wire == st.wire.(landingGets := st.wire.landingGets + 1)
  {
    var w := st.wire.(landingGets := st.wire.landingGets + 1);
    match svc.landing(st.wire.landingGets)
    case FetchError(_) => (false, st.(wire := w))
    case Page(text) =>
      match FindToken(text, 0)
      case None => (false, st.(wire := w))
      case Some(t) => (true, State(Some(t), st.headers[CsrfHeader := t], w))
  }

  predicate IsTerminal(step: Option<string>) {
    step == Some("success") || step == Some("error")
  }

  /** The progress message of the (i+1)-th status reply. */
  function PollMessage(rec: Record, i: nat): string {
    "Polling: " + Show(rec.currentStep) + " (" + NatToString(i + 1) + "/60) | Msg: " + rec.message.GetOr("")
  }

  /** `_poll_status` from iteration `i` on, holding `token` as the current check token. */
  function PollFrom(svc: Service, st: State, vid: string, token: string, i: nat): (r: (Record, State, seq<Progress>))
    requires i <= MaxPolls
    decreases MaxPolls - i
  {
    if i == MaxPolls then (ErrorRecord(MsgPollTimeout), st, [])
    else
      var st1 := st.(wire := st.wire.(statusPosts := st.wire.statusPosts + [token]));
      match svc.status(|st.wire.statusPosts|)
      case Raised(e) => (ErrorRecord(MsgPollException + e), st1, [])
      case Answered(rec) =>
        var p := Progress(vid, PollMessage(rec, i));
        if IsTerminal(rec.currentStep) then (rec, st1, [p])
        else
          var next := if rec.checkToken.Some? then rec.checkToken.value else token;
          var r := PollFrom(svc, st1, vid, next, i + 1);
          (r.0, r.1, [p] + r.2)
  }

  /** A poll that has already made the callbacks `done`, continued by `rest`. */
  function Resume(done: seq<Progress>, rest: (Record, State, seq<Progress>)): (Record, State, seq<Progress>) {
    (rest.0, rest.1, done + rest.2)
  }

  /** One iteration of the polling loop, seen from a poll that has already reported `done`. */
  lemma PollStep(svc: Service, st: State, vid: string, token: string, i: nat, done: seq<Progress>)
    requires i < MaxPolls
    ensures var st1 := st.(wire := st.wire.(statusPosts := st.wire.statusPosts + [token]));
      match svc.status(|st.wire.statusPosts|)
      case Raised(e) => Resume(done, PollFrom(svc, st, vid, token, i)) == (ErrorRecord(MsgPollException + e), st1, done)
      case Answered(rec) =>
        var done1 := done + [Progress(vid, PollMessage(rec, i))];
        if IsTerminal(rec.currentStep) then Resume(done, PollFrom(svc, st, vid, token, i)) == (rec, st1, done1)
        else
          var next := if rec.checkToken.Some? then rec.checkToken.value else token;
          Resume(done, PollFrom(svc, st, vid, token, i)) == Resume(done1, PollFrom(svc, st1, vid, next, i + 1))
  {
    match svc.status(|st.wire.statusPosts|)
    case Raised(_) =>
      assert done + [] == done;
    case Answered(rec) =>
      var p := Progress(vid, PollMessage(rec, i));
      if !IsTerminal(rec.currentStep) {
        var st1 := st.(wire := st.wire.(statusPosts := st.wire.statusPosts + [token]));
        var next := if rec.checkToken.Some? then rec.checkToken.value else token;
        var rest := PollFrom(svc, st1, vid, next, i + 1);
        assert done + ([p] + rest.2) == (done + [p]) + rest.2;
      }
  }

  /** `_handle_api_response`: dispatch one decoded record into `results`. */
  function Handle(svc: Service, st: State, results: Results, rec: Record): (r: (State, Results, seq<Progress>))
  {
    if rec.verificationId.None? || rec.verificationId.value == "" then (st, results, [])
    else
      var vid := rec.verificationId.value;
      var p := Progress(vid, "Step: " + Show(rec.currentStep) + " | Msg: " + rec.message.GetOr(""));
      if rec.currentStep == Some("pending") && rec.checkToken.Some? then
        var polled := PollFrom(svc, st, vid, rec.checkToken.value, 0);
        (polled.1, Ordered.Put(results, vid, polled.0), [p] + polled.2)
      else if IsTerminal(rec.currentStep) then (st, Ordered.Put(results, vid, rec), [p])
      else (st, results, [p])
  }

  /** The state of the stream loop: the results so far, and the exception that ended it, if any. */
  datatype Drain = Drain(state: State, results: Results, progress: seq<Progress>, fault: Option<string>)

  /** The payload of a `data:` line: the text after the first five characters, stripped. */
  function Payload(line: string): string
    requires StartsWith(line, DataPrefix)
  {
    Strip(line[|DataPrefix|..])
  }

  /** One iteration of the `for line in resp.iter_lines()` loop. */
  function Feed(svc: Service, acc: Drain, item: StreamItem): Drain
    requires acc.fault.None?
  {
    match item
    case Fault(e) => acc.(fault := Some(e))
    case Chunk(line) =>
      if line == "" || !StartsWith(line, DataPrefix) then acc
      else
        match svc.parse(Payload(line))
        case Malformed => acc
        case NotObject(e) => acc.(fault := Some(e))
        case Object(rec) =>
          var h := Handle(svc, acc.state, acc.results, rec);
          Drain(h.0, h.1, acc.progress + h.2, None)
  }

  /** The stream loop over `items`, left to right, leaving it at the first exception. */
  function Consume(svc: Service, acc: Drain, items: seq<StreamItem>): Drain
    decreases |items|
  {
    if |items| == 0 || acc.fault.Some? then acc
    else Consume(svc, Feed(svc, acc, items[0]), items[1..])
  }

  /** `for vid in ids: if vid not in results: results[vid] = err`. */
  function FillMissing(results: Results, ids: seq<string>, err: Record): Results
    decreases |ids|
  {
    if |ids| == 0 then results
    else
      var next := if Ordered.Has(results, ids[0]) then results else Ordered.Put(results, ids[0], err);
      FillMissing(next, ids[1..], err)
  }

  /** `{vid: {"status": "error", "message": msg} for vid in ids}`. */
  function ErrorsFor(ids: seq<string>, msg: string): Results {
    FillMissing([], ids, ErrorRecord(msg))
  }

  /** After the stream: the exception handler fills in every id that has no entry. */
  function Settle(acc: Drain, ids: seq<string>): Outcome {
    match acc.fault
    case None => Outcome(acc.results, acc.progress, acc.state)
    case Some(e) => Outcome(FillMissing(acc.results, ids, ErrorRecord(e)), acc.progress, acc.state)
  }

  /** What `verify_batch` makes of the reply it streams. */
  function Receive(svc: Service, st: State, ids: seq<string>, reply: Submission): Outcome {
    match reply
    case SubmitError(e) => Outcome(ErrorsFor(ids, e), [], st)
    case Response(_, body) => Settle(Consume(svc, Drain(st, [], [], None), body), ids)
  }

  /** The session after it sent one `POST /api/batch`. */
  function Posted(st: State, req: BatchRequest): State {
    st.(wire := st.wire.(batchPosts := st.wire.batchPosts + [req]))
  }

  predicate IsAuthFailure(reply: Submission) {
    reply.Response? && (reply.code == 403 || reply.code == 401)
  }

  /** `verify_batch` once a token is cached: submit, refresh and resubmit once on 401/403, stream. */
  function Submit(svc: Service, apiKey: string, st: State, ids: seq<string>): Outcome {
    var st1 := Posted(st, BatchRequest(ids, apiKey, Lookup(st.headers, CsrfHeader)));
    var first := svc.batch(|st.wire.batchPosts|);
    if IsAuthFailure(first) then
      var refreshed := GetToken(svc, st1);
      if !refreshed.0 then Outcome(ErrorsFor(ids, MsgTokenExpired), [], refreshed.1)
      else
        var st2 := refreshed.1;
        var st3 := Posted(st2, BatchRequest(ids, apiKey, st2.csrfToken));
        Receive(svc, st3, ids, svc.batch(|st2.wire.batchPosts|))
    else Receive(svc, st1, ids, first)
  }

  /** `verify_batch(ids)`. */
  function BatchOutcome(svc: Service, apiKey: string, st: State, ids: seq<string>): Outcome {
    if !HasToken(st) then
      var fetched := GetToken(svc, st);
      if !fetched.0 then Outcome(ErrorsFor(ids, MsgNoToken), [], fetched.1)
      else Submit(svc, apiKey, fetched.1, ids)
    else Submit(svc, apiKey, st, ids)
  }

  /** The reply of `cancel_verification` to what the cancel request brought back. */
  function CancelResult(reply: CancelReply): Record {
    match reply
    case CancelBody(body) => body
    case NotJson(text) => ErrorRecord(MsgInvalidJson + text)
    case CancelError(e) => ErrorRecord(e)
  }

  /** `cancel_verification(id)`: make sure of a token, then send one cancel request. */
  function Cancel(svc: Service, st: State, id: string): (Record, State) {
    var st1 := if HasToken(st) then (true, st) else GetToken(svc, st);
    if !st1.0 then (ErrorRecord(MsgCancelNoToken), st1.1)
    else
      var s := st1.1;
      var req := CancelRequest(id, s.csrfToken);
      (CancelResult(svc.cancel(|s.wire.cancelPosts|)), s.(wire := s.wire.(cancelPosts := s.wire.cancelPosts + [req])))
  }

  // ===========================================================================
  // The client as classes

  /** `FillMissing` as the loop of the exception handler in `verify_batch` runs it. */
  method FillMissingEntries(results: Results, ids: seq<string>, err: Record) returns (filled: Results)
    ensures filled == FillMissing(results, ids, err)
  {
    filled := results;
    for i := 0 to |ids|
      invariant FillMissing(filled, ids[i..], err) == FillMissing(results, ids, err)
    {
      assert ids[i..][1..] == ids[i + 1..];
      if !Ordered.Has(filled, ids[i]) {
        filled := Ordered.Put(filled, ids[i], err);
      }
    }
  }

  /** The `requests.Session` of one client, bound to the service it talks to; it logs each request. */
  class Session {
    const service: Service
    var wire: Wire

    constructor (service: Service)
      ensures this.service == service && wire == Wire(0, [], [], [])
    {
      this.service := service;
      wire := Wire(0, [], [], []);
    }

    /** `session.get(BASE_URL)` followed by `raise_for_status()`. */
    method Get() returns (reply: Fetch)
      modifies this
      ensures reply == service.landing(old(wire.landingGets))
      ensures wire == old(wire).(landingGets := old(wire.landingGets) + 1)
    {
      reply := service.landing(wire.landingGets);
      wire := wire.(landingGets := wire.landingGets + 1);
    }

    /** `session.post(BASE_URL + "/api/batch", ...)`. */
    method PostBatch(req: BatchRequest) returns (reply: Submission)
      modifies this
      ensures reply == service.batch(|old(wire.batchPosts)|)
      ensures wire == old(wire).(batchPosts := old(wire.batchPosts) + [req])
    {
      reply := service.batch(|wire.batchPosts|);
      wire := wire.(batchPosts := wire.batchPosts + [req]);
    }

    /** `session.post(BASE_URL + "/api/check-status", ...)` followed by `resp.json()`. */
    method PostStatus(checkToken: string) returns (reply: PollReply)
      modifies this
      ensures reply == service.status(|old(wire.statusPosts)|)
      ensures wire == old(wire).(statusPosts := old(wire.statusPosts) + [checkToken])
    {
      reply := service.status(|wire.statusPosts|);
      wire := wire.(statusPosts := wire.statusPosts + [checkToken]);
    }

    /** `session.post(BASE_URL + "/api/cancel", ...)` followed by `resp.json()`. */
    method PostCancel(req: CancelRequest) returns (reply: CancelReply)
      modifies this
      ensures reply == service.cancel(|old(wire.cancelPosts)|)
      ensures wire == old(wire).(cancelPosts := old(wire.cancelPosts) + [req])
    {
      reply := service.cancel(|wire.cancelPosts|);
      wire := wire.(cancelPosts := wire.cancelPosts + [req]);
    }
  }

  /** `SheerIDVerifier`: the token and header fields, updated in place by its methods. */
  class SheerIdVerifier {
    const apiKey: string
    const session: Session
    var csrfToken: Option<string>
    var headers: map<string, string>

    constructor (apiKey: string, session: Session)
      ensures this.apiKey == apiKey && this.session == session
      ensures csrfToken == None && headers == DefaultHeaders
    {
      this.apiKey := apiKey;
      this.session := session;
      csrfToken := None;
      headers := DefaultHeaders;
    }

    /** The fields of the client and the request log of its session, as one value. */
    function Snapshot(): State
      reads this, session
    {
      State(csrfToken, headers, session.wire)
    }

    /** `_get_csrf_token`. */
    method GetCsrfToken() returns (ok: bool)
      modifies this, session
      ensures (ok, Snapshot()) == GetToken(session.service, old(Snapshot()))
    {
      var reply := session.Get();
      match reply {
        case FetchError(_) =>
          ok := false;
        case Page(text) =>
          var found := FindToken(text, 0);
          if found.Some? {
            csrfToken := found;
            headers := headers[CsrfHeader := found.value];
            ok := true;
          } else {
            ok := false;
          }
      }
    }

    /** `_poll_status(check_token, vid)`, returning also the progress callbacks it made. */
    method PollStatus(checkToken: string, vid: string) returns (r: Record, progress: seq<Progress>)
      modifies session
      ensures (r, Snapshot(), progress) == PollFrom(session.service, old(Snapshot()), vid, checkToken, 0)
    {
      ghost var start := Snapshot();
      var token := checkToken;
      progress := [];
      assert start == Snapshot();
      ghost var whole := PollFrom(session.service, start, vid, checkToken, 0);
      assert [] + whole.2 == whole.2;
      assert Resume(progress, whole) == whole;
      for i := 0 to MaxPolls
        invariant csrfToken == start.csrfToken && headers == start.headers
        invariant Resume(progress, PollFrom(session.service, Snapshot(), vid, token, i))
                  == PollFrom(session.service, start, vid, checkToken, 0)
      {
        ghost var before := Snapshot();
        PollStep(session.service, before, vid, token, i, progress);
        var reply := session.PostStatus(token);
        assert Snapshot() == before.(wire := before.wire.(statusPosts := before.wire.statusPosts + [token]));
        match reply {
          case Raised(e) =>
            r := ErrorRecord(MsgPollException + e);
            return;
          case Answered(rec) =>
            progress := progress + [Progress(vid, PollMessage(rec, i))];
            if IsTerminal(rec.currentStep) {
              r := rec;
              return;
            }
            token := if rec.checkToken.Some? then rec.checkToken.value else token;
        }
      }
      assert progress + [] == progress;
      r := ErrorRecord(MsgPollTimeout);
    }

    /** `_handle_api_response(data, results)`: `updated` is `results` after the call. */
    method HandleApiResponse(rec: Record, results: Results) returns (updated: Results, progress: seq<Progress>)
      modifies session
      ensures (Snapshot(), updated, progress) == Handle(session.service, old(Snapshot()), results, rec)
    {
      updated, progress := results, [];
      if rec.verificationId.None? || rec.verificationId.value == "" {
        return;
      }
      var vid := rec.verificationId.value;
      progress := [Progress(vid, "Step: " + Show(rec.currentStep) + " | Msg: " + rec.message.GetOr(""))];
      if rec.currentStep == Some("pending") && rec.checkToken.Some? {
        var final, polled := PollStatus(rec.checkToken.value, vid);
        updated := Ordered.Put(updated, vid, final);
        progress := progress + polled;
      } else if IsTerminal(rec.currentStep) {
        updated := Ordered.Put(updated, vid, rec);
      }
    }

    /** The streaming part of `verify_batch`: read the reply line by line, then the exception handler. */
    method ReadReply(reply: Submission, ids: seq<string>) returns (results: Results, progress: seq<Progress>)
      modifies session
      ensures Outcome(results, progress, Snapshot()) == Receive(session.service, old(Snapshot()), ids, reply)
    {
      results, progress := [], [];
      match reply {
        case SubmitError(e) =>
          results := FillMissingEntries(results, ids, ErrorRecord(e));
        case Response(_, body) =>
          ghost var start := Drain(Snapshot(), [], [], None);
          var fault: Option<string> := None;
          var i := 0;
          while i < |body| && fault.None?
            invariant 0 <= i <= |body|
            invariant Consume(session.service, Drain(Snapshot(), results, progress, fault), body[i..])
                      == Consume(session.service, start, body)
          {
            assert body[i..][1..] == body[i + 1..];
            match body[i] {
              case Fault(e) =>
                fault := Some(e);
              case Chunk(line) =>
                if line != "" && StartsWith(line, DataPrefix) {
                  match session.service.parse(Payload(line)) {
                    case Malformed =>
                    case NotObject(e) =>
                      fault := Some(e);
                    case Object(rec) =>
                      var ps;
                      results, ps := HandleApiResponse(rec, results);
                      progress := progress + ps;
                  }
                }
            }
            i := i + 1;
          }
          if fault.Some? {
            results := FillMissingEntries(results, ids, ErrorRecord(fault.value));
          }
      }
    }

    /** `verify_batch(verification_ids)`, returning also the progress callbacks it made. */
    method VerifyBatch(ids: seq<string>) returns (results: Results, progress: seq<Progress>)
      modifies this, session
      ensures Outcome(results, progress, Snapshot()) == BatchOutcome(session.service, apiKey, old(Snapshot()), ids)
    {
      if !(csrfToken.Some? && csrfToken.value != "") {
        var ok := GetCsrfToken();
        if !ok {
          results, progress := ErrorsFor(ids, MsgNoToken), [];
          return;
        }
      }
      var sent := headers;
      var reply := session.PostBatch(BatchRequest(ids, apiKey, Lookup(sent, CsrfHeader)));
      if reply.Response? && (reply.code == 403 || reply.code == 401) {
        var ok := GetCsrfToken();
        if !ok {
          results, progress := ErrorsFor(ids, MsgTokenExpired), [];
          return;
        }
        sent := sent[CsrfHeader := csrfToken.value];
        reply := session.PostBatch(BatchRequest(ids, apiKey, Lookup(sent, CsrfHeader)));
      }
      results, progress := ReadReply(reply, ids);
    }

    /** `cancel_verification(verification_id)`. */
    method CancelVerification(id: string) returns (r: Record)
      modifies this, session
      ensures (r, Snapshot()) == Cancel(session.service, old(Snapshot()), id)
    {
      if !(csrfToken.Some? && csrfToken.value != "") {
        var ok := GetCsrfToken();
        if !ok {
          return ErrorRecord(MsgCancelNoToken);
        }
      }
      var sent := headers[CsrfHeader := csrfToken.value];
      var reply := session.PostCancel(CancelRequest(id, Lookup(sent, CsrfHeader)));
      match reply {
        case CancelBody(body) => r := body;
        case NotJson(text) => r := ErrorRecord(MsgInvalidJson + text);
        case CancelError(e) => r := ErrorRecord(e);
      }
    }
  }
}
