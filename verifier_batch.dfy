/**
 * Properties of `verify_batch`, `_handle_api_response` and `cancel_verification`: which requests
 * they send, what the results dictionary holds afterwards, and the token they keep.
 */
module VerifierBatch {
  import opened Wrappers
  import opened Text
  import Ordered
  import opened Verifier
  import opened VerifierPoll

  /** Every entry of `results` is final. */
  ghost predicate AllFinal(results: Results) {
    forall k :: Ordered.Get(results, k).Some? ==> Final(Ordered.Get(results, k).value)
  }

  /** `b` differs from `a` only by requests appended to the log, and keeps the token and headers. */
  predicate LogGrows(a: State, b: State) {
    && b.csrfToken == a.csrfToken
    && b.headers == a.headers
    && a.wire.landingGets <= b.wire.landingGets
    && a.wire.batchPosts <= b.wire.batchPosts
    && a.wire.statusPosts <= b.wire.statusPosts
    && a.wire.cancelPosts <= b.wire.cancelPosts
  }

  /** A line the stream loop passes over: empty, not a `data:` line, or a payload that is not JSON. */
  predicate Skipped(svc: Service, item: StreamItem) {
    item.Chunk? &&
    (item.line == "" || !StartsWith(item.line, DataPrefix) || svc.parse(Payload(item.line)).Malformed?)
  }

  // ---------------------------------------------------------------------------
  // The token

  /** `_get_csrf_token` succeeds exactly when the page loads and holds a match; on failure the
    * token and headers stay as they were, on success the header carries the new token. */
  lemma GetTokenResult(svc: Service, st: State)
    ensures var r := GetToken(svc, st);
      var page := svc.landing(st.wire.landingGets);
      && (r.0 <==> page.Page? && FindToken(page.text, 0).Some?)
      && (!r.0 ==> r.1.csrfToken == st.csrfToken && r.1.headers == st.headers)
      && (r.0 ==> r.1.csrfToken == FindToken(page.text, 0) && HasToken(r.1) && TokenInvariant(r.1))
      && (r.0 ==> forall h :: h != CsrfHeader ==> Lookup(r.1.headers, h) == Lookup(st.headers, h))
  {
  }

  /** A fetch keeps the token invariant whether it succeeds or not. */
  lemma GetTokenKeeps(svc: Service, st: State)
    requires TokenInvariant(st)
    ensures TokenInvariant(GetToken(svc, st).1)
  {
    GetTokenResult(svc, st);
  }

  // ---------------------------------------------------------------------------
  // Dispatch of one record

  /**
   * `_handle_api_response` touches only the entry of the record's own id and only by polling;
   * what it stores is final; a record without an id changes nothing and reports nothing; a
   * terminal record is stored as it is; a non-terminal record without a check token is only
   * reported.
   */
  lemma HandleResult(svc: Service, st: State, results: Results, rec: Record)
    ensures var h := Handle(svc, st, results, rec);
      && PollsOnly(st, h.0)
      && (AllFinal(results) ==> AllFinal(h.1))
      && (forall k :: Some(k) != rec.verificationId ==> Ordered.Get(h.1, k) == Ordered.Get(results, k))
      && (rec.verificationId.None? || rec.verificationId == Some("") ==> h == (st, results, []))
      && (rec.verificationId.Some? && rec.verificationId != Some("") ==>
            |h.2| >= 1 && h.2[0] == Progress(rec.verificationId.value,
              "Step: " + Show(rec.currentStep) + " | Msg: " + rec.message.GetOr("")))
      && (rec.verificationId.Some? && rec.verificationId != Some("") && IsTerminal(rec.currentStep) ==>
            Ordered.Get(h.1, rec.verificationId.value) == Some(rec) && h.0 == st)
      && (rec.currentStep != Some("pending") && !IsTerminal(rec.currentStep) ==> h.0 == st && h.1 == results)
      && (rec.currentStep == Some("pending") && rec.checkToken.None? ==> h.0 == st && h.1 == results)
      && (rec.verificationId.Some? && rec.verificationId != Some("") && rec.currentStep == Some("pending")
          && rec.checkToken.Some? ==>
            var p := PollFrom(svc, st, rec.verificationId.value, rec.checkToken.value, 0);
            Ordered.Get(h.1, rec.verificationId.value) == Some(p.0) && h.0 == p.1)
  {
    if rec.verificationId.Some? && rec.verificationId.value != ""
       && rec.currentStep == Some("pending") && rec.checkToken.Some? {
      PollBounds(svc, st, rec.verificationId.value, rec.checkToken.value, 0);
    }
  }

  // ---------------------------------------------------------------------------
  // The stream loop

  /** Reading `a` then `b` is reading `a + b`. */
  lemma {:induction false} ConsumeAppend(svc: Service, acc: Drain, a: seq<StreamItem>, b: seq<StreamItem>)
    decreases |a|
    ensures Consume(svc, acc, a + b) == Consume(svc, Consume(svc, acc, a), b)
  {
    if |a| == 0 {
      assert a + b == b;
    } else if acc.fault.None? {
      assert (a + b)[0] == a[0] && (a + b)[1..] == a[1..] + b;
      ConsumeAppend(svc, Feed(svc, acc, a[0]), a[1..], b);
    }
  }

  /** Nothing after an exception in the stream is read. */
  lemma NothingAfterFault(svc: Service, acc: Drain, a: seq<StreamItem>, e: string, b: seq<StreamItem>)
    ensures Consume(svc, acc, a + [Fault(e)] + b) == Consume(svc, acc, a + [Fault(e)])
    ensures Consume(svc, acc, a + [Fault(e)]).fault.Some?
  {
    ConsumeAppend(svc, acc, a + [Fault(e)], b);
    ConsumeAppend(svc, acc, a, [Fault(e)]);
    var mid := Consume(svc, acc, a);
    if mid.fault.None? {
      assert [Fault(e)][1..] == [];
    }
  }

  /** Empty lines, lines that are not `data:` lines and payloads that are not JSON change nothing. */
  lemma {:induction false} SkippedLines(svc: Service, acc: Drain, junk: seq<StreamItem>, rest: seq<StreamItem>)
    requires forall k :: 0 <= k < |junk| ==> Skipped(svc, junk[k])
    decreases |junk|
    ensures Consume(svc, acc, junk + rest) == Consume(svc, acc, rest)
  {
    if |junk| > 0 && acc.fault.None? {
      assert Skipped(svc, junk[0]);
      assert (junk + rest)[0] == junk[0] && (junk + rest)[1..] == junk[1..] + rest;
      assert Feed(svc, acc, junk[0]) == acc;
      SkippedLines(svc, acc, junk[1..], rest);
    } else if |junk| > 0 {
      assert |junk + rest| > 0;
    } else {
      assert junk + rest == rest;
    }
  }

  /**
   * From `a` to `b` only status requests were sent, entries that were all final stay so, no key
   * was removed and callbacks were only appended.
   */
  ghost predicate Grows(a: Drain, b: Drain) {
    && PollsOnly(a.state, b.state)
    && (AllFinal(a.results) ==> AllFinal(b.results))
    && Ordered.Keys(a.results) <= Ordered.Keys(b.results)
    && a.progress <= b.progress
  }

  lemma GrowsTrans(a: Drain, b: Drain, c: Drain)
    requires Grows(a, b) && Grows(b, c)
    ensures Grows(a, c)
  {
    assert a.progress == b.progress[..|a.progress|];
    assert b.progress == c.progress[..|b.progress|];
    assert a.state.wire.statusPosts == b.state.wire.statusPosts[..|a.state.wire.statusPosts|];
    assert b.state.wire.statusPosts == c.state.wire.statusPosts[..|b.state.wire.statusPosts|];
  }

  /** Dispatching a record never removes a key. */
  lemma HandleKeys(svc: Service, st: State, results: Results, rec: Record)
    ensures Ordered.Keys(results) <= Ordered.Keys(Handle(svc, st, results, rec).1)
  {
  }

  /** What the stream loop needs of one dispatch: only polls, entries kept final, no key removed. */
  lemma HandleGrows(svc: Service, st: State, results: Results, rec: Record)
    ensures var h := Handle(svc, st, results, rec);
      && PollsOnly(st, h.0)
      && (AllFinal(results) ==> AllFinal(h.1))
      && Ordered.Keys(results) <= Ordered.Keys(h.1)
  {
    HandleResult(svc, st, results, rec);
    HandleKeys(svc, st, results, rec);
  }

  /** One line of the stream loop. */
  lemma FeedGrows(svc: Service, acc: Drain, item: StreamItem)
    requires acc.fault.None?
    ensures Grows(acc, Feed(svc, acc, item))
  {
    match item
    case Fault(_) =>
    case Chunk(line) =>
      if line != "" && StartsWith(line, DataPrefix) && svc.parse(Payload(line)).Object? {
        var rec := svc.parse(Payload(line)).record;
        HandleGrows(svc, acc.state, acc.results, rec);
      }
  }

  /**
   * The stream loop sends only status requests, keeps every stored entry final, never removes
   * a key, and only appends callbacks; after an exception it reads nothing more.
   */
  lemma {:induction false} ConsumeResult(svc: Service, acc: Drain, items: seq<StreamItem>)
    decreases |items|
    ensures Grows(acc, Consume(svc, acc, items))
    ensures acc.fault.Some? ==> Consume(svc, acc, items) == acc
  {
    if |items| > 0 && acc.fault.None? {
      var next := Feed(svc, acc, items[0]);
      FeedGrows(svc, acc, items[0]);
      ConsumeResult(svc, next, items[1..]);
      GrowsTrans(acc, next, Consume(svc, next, items[1..]));
    }
  }

  // ---------------------------------------------------------------------------
  // The exception handler

  /**
   * `for vid in ids: if vid not in results: results[vid] = err` keeps every existing entry,
   * gives every missing id the error, adds nothing else, and only appends keys.
   */
  lemma {:induction false} FillMissingResult(results: Results, ids: seq<string>, err: Record)
    decreases |ids|
    ensures var r := FillMissing(results, ids, err);
      && Ordered.Keys(results) <= Ordered.Keys(r)
      && forall k :: Ordered.Get(r, k) ==
           if Ordered.Get(results, k).Some? then Ordered.Get(results, k)
           else if k in ids then Some(err) else None
  {
    if |ids| > 0 {
      var next := if Ordered.Has(results, ids[0]) then results else Ordered.Put(results, ids[0], err);
      FillMissingResult(next, ids[1..], err);
      assert ids == [ids[0]] + ids[1..];
      forall k ensures k in ids <==> k == ids[0] || k in ids[1..] {
      }
    }
  }

  /** The dictionary built for a failure maps each id to the error and holds nothing else. */
  lemma ErrorsForResult(ids: seq<string>, msg: string)
    ensures forall k :: Ordered.Get(ErrorsFor(ids, msg), k) == if k in ids then Some(ErrorRecord(msg)) else None
    ensures AllFinal(ErrorsFor(ids, msg))
  {
    FillMissingResult([], ids, ErrorRecord(msg));
  }

  /** Filling in missing ids with an error keeps every entry final. */
  lemma FillMissingFinal(results: Results, ids: seq<string>, e: string)
    requires AllFinal(results)
    ensures AllFinal(FillMissing(results, ids, ErrorRecord(e)))
  {
    FillMissingResult(results, ids, ErrorRecord(e));
  }

  // ---------------------------------------------------------------------------
  // One submission

  /**
   * Streaming a reply sends only status requests and stores only final entries; when the
   * request raised, or the stream broke off, every id has an entry afterwards; when the stream
   * ends normally, the results are exactly what the records stored, and no id is filled in.
   */
  lemma ReceiveResult(svc: Service, st: State, ids: seq<string>, reply: Submission)
    ensures var o := Receive(svc, st, ids, reply);
      && PollsOnly(st, o.state)
      && AllFinal(o.results)
      && (reply.SubmitError? ==>
            forall k :: Ordered.Get(o.results, k) == if k in ids then Some(ErrorRecord(reply.error)) else None)
      && (reply.SubmitError? || Consume(svc, Drain(st, [], [], None), reply.body).fault.Some? ==>
            forall k :: k in ids ==> Ordered.Get(o.results, k).Some?)
      && (reply.Response? && Consume(svc, Drain(st, [], [], None), reply.body).fault.None? ==>
            o.results == Consume(svc, Drain(st, [], [], None), reply.body).results)
  {
    match reply
    case SubmitError(e) =>
      ErrorsForResult(ids, e);
    case Response(_, body) =>
      var acc := Consume(svc, Drain(st, [], [], None), body);
      ConsumeResult(svc, Drain(st, [], [], None), body);
      if acc.fault.Some? {
        FillMissingResult(acc.results, ids, ErrorRecord(acc.fault.value));
      }
  }

  /** A line of the stream that decodes to a record for id `k`. */
  predicate Names(svc: Service, item: StreamItem, k: string) {
    && item.Chunk? && item.line != "" && StartsWith(item.line, DataPrefix)
    && svc.parse(Payload(item.line)).Object?
    && svc.parse(Payload(item.line)).record.verificationId == Some(k)
  }

  /** The stream loop gives an entry to no id that none of its records names. */
  lemma {:induction false} ConsumeUnnamed(svc: Service, acc: Drain, items: seq<StreamItem>, k: string)
    requires Ordered.Get(acc.results, k).None?
    requires forall j :: 0 <= j < |items| ==> !Names(svc, items[j], k)
    decreases |items|
    ensures Ordered.Get(Consume(svc, acc, items).results, k).None?
  {
    if |items| > 0 && acc.fault.None? {
      var item := items[0];
      assert !Names(svc, item, k);
      if item.Chunk? && item.line != "" && StartsWith(item.line, DataPrefix) && svc.parse(Payload(item.line)).Object? {
        HandleResult(svc, acc.state, acc.results, svc.parse(Payload(item.line)).record);
      }
      ConsumeUnnamed(svc, Feed(svc, acc, item), items[1..], k);
    }
  }

  /**
   * When the stream ends normally, an id of the batch that no record names is absent from the
   * results: only an exception fills in missing ids.
   */
  lemma ReceiveUnnamed(svc: Service, st: State, ids: seq<string>, code: int, body: seq<StreamItem>, k: string)
    requires Consume(svc, Drain(st, [], [], None), body).fault.None?
    requires forall j :: 0 <= j < |body| ==> !Names(svc, body[j], k)
    ensures Ordered.Get(Receive(svc, st, ids, Response(code, body)).results, k).None?
  {
    ConsumeUnnamed(svc, Drain(st, [], [], None), body, k);
  }

  // ---------------------------------------------------------------------------
  // verify_batch

  /** The first `POST /api/batch` of a batch, sent with the cached header. */
  function FirstRequest(apiKey: string, st: State, ids: seq<string>): BatchRequest {
    BatchRequest(ids, apiKey, Lookup(st.headers, CsrfHeader))
  }

  /** `_get_csrf_token` would succeed on the `k`-th landing page. */
  predicate LandingHasToken(svc: Service, k: nat) {
    svc.landing(k).Page? && FindToken(svc.landing(k).text, 0).Some?
  }

  /**
   * Without a cached token and with no token on the landing page, every id gets the
   * "Failed to get CSRF token" entry, nothing else is in the result, and no batch is sent.
   */
  lemma BatchNoToken(svc: Service, apiKey: string, st: State, ids: seq<string>)
    requires !HasToken(st) && !LandingHasToken(svc, st.wire.landingGets)
    ensures var o := BatchOutcome(svc, apiKey, st, ids);
      && (forall k :: Ordered.Get(o.results, k) == if k in ids then Some(ErrorRecord(MsgNoToken)) else None)
      && o.progress == []
      && o.state.wire == st.wire.(landingGets := st.wire.landingGets + 1)
      && o.state.csrfToken == st.csrfToken && o.state.headers == st.headers
  {
    GetTokenResult(svc, st);
    ErrorsForResult(ids, MsgNoToken);
  }

  /**
   * A batch sends one or two batch requests, each for the whole list and with the API key as
   * captcha token, fetches the landing page at most twice (at most once with a cached token),
   * and sends no cancel request.
   */
  lemma BatchRequests(svc: Service, apiKey: string, st: State, ids: seq<string>)
    ensures var o := BatchOutcome(svc, apiKey, st, ids);
      var w0 := st.wire; var w1 := o.state.wire;
      && w0.batchPosts <= w1.batchPosts
      && |w1.batchPosts| <= |w0.batchPosts| + 2
      && (forall k :: |w0.batchPosts| <= k < |w1.batchPosts| ==>
            w1.batchPosts[k].verificationIds == ids && w1.batchPosts[k].hCaptchaToken == apiKey)
      && w0.landingGets <= w1.landingGets <= w0.landingGets + 2
      && (HasToken(st) ==> w1.landingGets <= w0.landingGets + 1)
      && w0.statusPosts <= w1.statusPosts
      && w1.cancelPosts == w0.cancelPosts
  {
    var st0 := if HasToken(st) then st else GetToken(svc, st).1;
    if HasToken(st) || GetToken(svc, st).0 {
      SubmitRequests(svc, apiKey, st0, ids);
    }
  }

  lemma SubmitRequests(svc: Service, apiKey: string, st: State, ids: seq<string>)
    ensures var o := Submit(svc, apiKey, st, ids);
      var w0 := st.wire; var w1 := o.state.wire;
      && w0.batchPosts <= w1.batchPosts
      && 1 <= |w1.batchPosts| - |w0.batchPosts| <= 2
      && (forall k :: |w0.batchPosts| <= k < |w1.batchPosts| ==>
            w1.batchPosts[k].verificationIds == ids && w1.batchPosts[k].hCaptchaToken == apiKey)
      && w0.landingGets <= w1.landingGets <= w0.landingGets + 1
      && w0.statusPosts <= w1.statusPosts
      && w1.cancelPosts == w0.cancelPosts
  {
    var st1 := Posted(st, FirstRequest(apiKey, st, ids));
    var first := svc.batch(|st.wire.batchPosts|);
    if IsAuthFailure(first) {
      var refreshed := GetToken(svc, st1);
      if refreshed.0 {
        var st2 := refreshed.1;
        var st3 := Posted(st2, BatchRequest(ids, apiKey, st2.csrfToken));
        ReceiveResult(svc, st3, ids, svc.batch(|st2.wire.batchPosts|));
      }
    } else {
      ReceiveResult(svc, st1, ids, first);
    }
  }

  /** `verify_batch` gets past its initial token check: a token is cached or the page yields one. */
  predicate CanSubmit(svc: Service, st: State) {
    HasToken(st) || LandingHasToken(svc, st.wire.landingGets)
  }

  /** The landing page the refresh after a 401 or 403 reads: the next one after the initial fetch, if any. */
  function RefetchIndex(st: State): nat {
    st.wire.landingGets + (if HasToken(st) then 0 else 1)
  }

  /** The header value the first `POST /api/batch` carries: the cached one, or the token just fetched. */
  function FirstCsrf(svc: Service, st: State): Option<string> {
    if HasToken(st) then Lookup(st.headers, CsrfHeader)
    else match svc.landing(st.wire.landingGets)
      case Page(text) => FindToken(text, 0)
      case FetchError(_) => None
  }

  /** The state `verify_batch` submits from, once its initial token check has passed. */
  lemma Primed(svc: Service, st: State) returns (st0: State)
    requires CanSubmit(svc, st)
    ensures forall apiKey, ids :: BatchOutcome(svc, apiKey, st, ids) == Submit(svc, apiKey, st0, ids)
    ensures st0.wire.landingGets == RefetchIndex(st)
    ensures st0.wire.batchPosts == st.wire.batchPosts && st0.wire.statusPosts == st.wire.statusPosts
    ensures Lookup(st0.headers, CsrfHeader) == FirstCsrf(svc, st)
  {
    GetTokenResult(svc, st);
    st0 := if HasToken(st) then st else GetToken(svc, st).1;
  }

  /**
   * Once the initial token check has passed (with a cached token, or with one just fetched by a
   * new client), a 401 or 403 reply and a landing page without a token give every id the
   * "Token expired" entry after exactly one batch request.
   */
  lemma BatchTokenExpired(svc: Service, apiKey: string, st: State, ids: seq<string>)
    requires CanSubmit(svc, st) && IsAuthFailure(svc.batch(|st.wire.batchPosts|))
    requires !LandingHasToken(svc, RefetchIndex(st))
    ensures var o := BatchOutcome(svc, apiKey, st, ids);
      && (forall k :: Ordered.Get(o.results, k) == if k in ids then Some(ErrorRecord(MsgTokenExpired)) else None)
      && o.progress == []
      && o.state.wire.batchPosts == st.wire.batchPosts + [BatchRequest(ids, apiKey, FirstCsrf(svc, st))]
      && o.state.wire.landingGets == RefetchIndex(st) + 1
  {
    var st0 := Primed(svc, st);
    GetTokenResult(svc, Posted(st0, FirstRequest(apiKey, st0, ids)));
    ErrorsForResult(ids, MsgTokenExpired);
  }

  /**
   * Once the initial token check has passed, a 401 or 403 reply and a fresh token on the
   * landing page send the batch a second time with the fresh token, and only once more: a
   * second 401 or 403 is streamed like any other reply.
   */
  lemma BatchRetry(svc: Service, apiKey: string, st: State, ids: seq<string>)
    requires CanSubmit(svc, st) && IsAuthFailure(svc.batch(|st.wire.batchPosts|))
    requires LandingHasToken(svc, RefetchIndex(st))
    ensures var o := BatchOutcome(svc, apiKey, st, ids);
      var tok := FindToken(svc.landing(RefetchIndex(st)).text, 0);
      && o.state.wire.batchPosts == st.wire.batchPosts
           + [BatchRequest(ids, apiKey, FirstCsrf(svc, st)), BatchRequest(ids, apiKey, tok)]
      && o.state.wire.landingGets == RefetchIndex(st) + 1
      && o.state.csrfToken == tok
      && Lookup(o.state.headers, CsrfHeader) == tok
      && o.results == Receive(svc, o.state.(wire := o.state.wire.(statusPosts := st.wire.statusPosts)), ids,
                              svc.batch(|st.wire.batchPosts| + 1)).results
  {
    var st0 := Primed(svc, st);
    var st1 := Posted(st0, FirstRequest(apiKey, st0, ids));
    GetTokenResult(svc, st1);
    var st2 := GetToken(svc, st1).1;
    var st3 := Posted(st2, BatchRequest(ids, apiKey, st2.csrfToken));
    ReceiveResult(svc, st3, ids, svc.batch(|st2.wire.batchPosts|));
    var o := Receive(svc, st3, ids, svc.batch(|st2.wire.batchPosts|));
    assert o.state.(wire := o.state.wire.(statusPosts := st.wire.statusPosts)) == st3;
  }

  /** A batch keeps the token invariant, and every entry it returns is final. */
  lemma BatchKeeps(svc: Service, apiKey: string, st: State, ids: seq<string>)
    requires TokenInvariant(st)
    ensures TokenInvariant(BatchOutcome(svc, apiKey, st, ids).state)
    ensures AllFinal(BatchOutcome(svc, apiKey, st, ids).results)
  {
    var st0 := if HasToken(st) then st else GetToken(svc, st).1;
    GetTokenKeeps(svc, st);
    if !HasToken(st) && !GetToken(svc, st).0 {
      ErrorsForResult(ids, MsgNoToken);
    } else {
      SubmitKeeps(svc, apiKey, st0, ids);
    }
  }

  lemma SubmitKeeps(svc: Service, apiKey: string, st: State, ids: seq<string>)
    requires TokenInvariant(st)
    ensures TokenInvariant(Submit(svc, apiKey, st, ids).state)
    ensures AllFinal(Submit(svc, apiKey, st, ids).results)
  {
    var st1 := Posted(st, FirstRequest(apiKey, st, ids));
    var first := svc.batch(|st.wire.batchPosts|);
    if IsAuthFailure(first) {
      GetTokenKeeps(svc, st1);
      var refreshed := GetToken(svc, st1);
      if refreshed.0 {
        var st2 := refreshed.1;
        var st3 := Posted(st2, BatchRequest(ids, apiKey, st2.csrfToken));
        ReceiveResult(svc, st3, ids, svc.batch(|st2.wire.batchPosts|));
      } else {
        ErrorsForResult(ids, MsgTokenExpired);
      }
    } else {
      ReceiveResult(svc, st1, ids, first);
    }
  }

  // ---------------------------------------------------------------------------
  // cancel_verification

  /**
   * A cancel sends no batch or status request. Either there is no token to be had, and it
   * returns the "No CSRF Token" entry without sending anything; or it sends exactly one cancel
   * request, for the given id and with a non-empty token.
   */
  lemma CancelRequests(svc: Service, st: State, id: string)
    ensures var (r, s) := Cancel(svc, st, id);
      && s.wire.batchPosts == st.wire.batchPosts
      && s.wire.statusPosts == st.wire.statusPosts
      && s.wire.landingGets == st.wire.landingGets + (if HasToken(st) then 0 else 1)
      && (if !HasToken(st) && !LandingHasToken(svc, st.wire.landingGets)
          then r == ErrorRecord(MsgCancelNoToken) && s.wire.cancelPosts == st.wire.cancelPosts
          else (&& HasToken(s)
                && s.wire.cancelPosts == st.wire.cancelPosts + [CancelRequest(id, s.csrfToken)]
                && r == CancelResult(svc.cancel(|st.wire.cancelPosts|))))
  {
    GetTokenResult(svc, st);
  }

  /** A cancel keeps the token invariant. */
  lemma CancelKeeps(svc: Service, st: State, id: string)
    requires TokenInvariant(st)
    ensures TokenInvariant(Cancel(svc, st, id).1)
  {
    GetTokenKeeps(svc, st);
  }
}
