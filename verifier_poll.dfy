/**
 * Properties of `_poll_status`: how many status requests it sends, which check token each one
 * carries, and which record it settles on.
 */
module VerifierPoll {
  import opened Wrappers
  import opened Text
  import opened Verifier

  /** `b` differs from `a` only by status requests appended to the log. */
  predicate PollsOnly(a: State, b: State) {
    && b.csrfToken == a.csrfToken
    && b.headers == a.headers
    && b.wire.landingGets == a.wire.landingGets
    && b.wire.batchPosts == a.wire.batchPosts
    && b.wire.cancelPosts == a.wire.cancelPosts
    && a.wire.statusPosts <= b.wire.statusPosts
  }

  /** A record that ends a verification: a terminal step, or one of the client's error entries. */
  predicate Final(rec: Record) {
    IsTerminal(rec.currentStep) || (rec.currentStep.None? && rec.status == Some("error"))
  }

  /** A status reply that keeps the loop going: decoded, and neither `success` nor `error`. */
  predicate Pending(reply: PollReply) {
    reply.Answered? && !IsTerminal(reply.record.currentStep)
  }

  /** The check token the loop holds after `reply`: the reply's own one, if it carries one. */
  function NextToken(reply: PollReply, token: string): string {
    if reply.Answered? && reply.record.checkToken.Some? then reply.record.checkToken.value else token
  }

  /**
   * From iteration `i` on, the poll sends at least one and at most `MaxPolls - i` status
   * requests and nothing else, every callback names `vid`, and what it returns is final.
   */
  lemma {:induction false} PollBounds(svc: Service, st: State, vid: string, token: string, i: nat)
    requires i < MaxPolls
    decreases MaxPolls - i
    ensures var r := PollFrom(svc, st, vid, token, i);
      && PollsOnly(st, r.1)
      && |st.wire.statusPosts| + 1 <= |r.1.wire.statusPosts| <= |st.wire.statusPosts| + MaxPolls - i
      && Final(r.0)
      && forall k :: 0 <= k < |r.2| ==> r.2[k].vid == vid
  {
    var st1 := st.(wire := st.wire.(statusPosts := st.wire.statusPosts + [token]));
    match svc.status(|st.wire.statusPosts|)
    case Raised(_) =>
    case Answered(rec) =>
      if !IsTerminal(rec.currentStep) {
        var next := NextToken(Answered(rec), token);
        if i + 1 < MaxPolls {
          PollBounds(svc, st1, vid, next, i + 1);
        }
      }
  }

  /**
   * The first status request carries the given check token, and each later one carries the
   * token of the reply before it when that reply has one, else the same token again.
   */
  lemma {:induction false} PollTokens(svc: Service, st: State, vid: string, token: string, i: nat)
    requires i <= MaxPolls
    decreases MaxPolls - i
    ensures var posts := PollFrom(svc, st, vid, token, i).1.wire.statusPosts;
      var base := |st.wire.statusPosts|;
      && st.wire.statusPosts <= posts
      && (base < |posts| ==> posts[base] == token)
      && forall j :: base <= j < |posts| - 1 ==> posts[j + 1] == NextToken(svc.status(j), posts[j])
  {
    if i < MaxPolls {
      var base := |st.wire.statusPosts|;
      var st1 := st.(wire := st.wire.(statusPosts := st.wire.statusPosts + [token]));
      match svc.status(base)
      case Raised(_) =>
      case Answered(rec) =>
        if !IsTerminal(rec.currentStep) {
          var next := NextToken(Answered(rec), token);
          PollTokens(svc, st1, vid, next, i + 1);
          var posts := PollFrom(svc, st, vid, token, i).1.wire.statusPosts;
          assert posts == PollFrom(svc, st1, vid, next, i + 1).1.wire.statusPosts;
          assert st1.wire.statusPosts <= posts;
          assert posts[base] == token;
          if base + 1 < |posts| {
            assert posts[base + 1] == next;
          }
        }
    }
  }

  /**
   * When the first `k` replies keep the loop going and the next one does not, the poll sends
   * exactly `k + 1` requests, reports one numbered line per decoded reply, and returns that
   * reply's record, or the exception entry when that reply is an exception.
   */
  lemma {:induction false} PollStopsAt(svc: Service, st: State, vid: string, token: string, i: nat, k: nat)
    requires i + k < MaxPolls
    requires forall j :: |st.wire.statusPosts| <= j < |st.wire.statusPosts| + k ==> Pending(svc.status(j))
    requires !Pending(svc.status(|st.wire.statusPosts| + k))
    ensures var r := PollFrom(svc, st, vid, token, i);
      var base := |st.wire.statusPosts|;
      var last := svc.status(base + k);
      && |r.1.wire.statusPosts| == base + k + 1
      && r.0 == (match last case Answered(rec) => rec case Raised(e) => ErrorRecord(MsgPollException + e))
      && |r.2| == (if last.Answered? then k + 1 else k)
      && forall j :: 0 <= j < |r.2| ==>
           svc.status(base + j).Answered? && r.2[j] == Progress(vid, PollMessage(svc.status(base + j).record, i + j))
  {
    PollEndsAt(svc, st, vid, token, i, k);
    PollReports(svc, st, vid, token, i);
  }

  /** The requests sent and the record returned, for `PollStopsAt`. */
  lemma {:induction false} PollEndsAt(svc: Service, st: State, vid: string, token: string, i: nat, k: nat)
    requires i + k < MaxPolls
    requires forall j :: |st.wire.statusPosts| <= j < |st.wire.statusPosts| + k ==> Pending(svc.status(j))
    requires !Pending(svc.status(|st.wire.statusPosts| + k))
    decreases k
    ensures var r := PollFrom(svc, st, vid, token, i);
      var last := svc.status(|st.wire.statusPosts| + k);
      && |r.1.wire.statusPosts| == |st.wire.statusPosts| + k + 1
      && r.0 == (match last case Answered(rec) => rec case Raised(e) => ErrorRecord(MsgPollException + e))
      && |r.2| == (if last.Answered? then k + 1 else k)
  {
    if k > 0 {
      var base := |st.wire.statusPosts|;
      assert Pending(svc.status(base));
      var st1 := st.(wire := st.wire.(statusPosts := st.wire.statusPosts + [token]));
      PollEndsAt(svc, st1, vid, NextToken(svc.status(base), token), i + 1, k - 1);
    }
  }

  /** Line `p`, the `j`-th reported from request number `base`, comes from a decoded reply. */
  predicate ReportedAt(svc: Service, vid: string, base: nat, i: nat, j: nat, p: Progress) {
    svc.status(base + j).Answered? && p == Progress(vid, PollMessage(svc.status(base + j).record, i + j))
  }

  /** A reported line followed by lines reported from the next request on. */
  lemma ReportedCons(svc: Service, vid: string, base: nat, i: nat, p: Progress, rest: seq<Progress>)
    requires ReportedAt(svc, vid, base, i, 0, p)
    requires forall j :: 0 <= j < |rest| ==> ReportedAt(svc, vid, base + 1, i + 1, j, rest[j])
    ensures forall j :: 0 <= j < |[p] + rest| ==> ReportedAt(svc, vid, base, i, j, ([p] + rest)[j])
  {
    forall j | 0 < j < |[p] + rest| ensures ReportedAt(svc, vid, base, i, j, ([p] + rest)[j]) {
      assert ReportedAt(svc, vid, base + 1, i + 1, j - 1, rest[j - 1]);
    }
  }

  /** Every line the poll reports is numbered after its iteration and comes from a decoded reply. */
  lemma {:induction false} PollReports(svc: Service, st: State, vid: string, token: string, i: nat)
    requires i <= MaxPolls
    decreases MaxPolls - i
    ensures forall j :: 0 <= j < |PollFrom(svc, st, vid, token, i).2| ==>
      ReportedAt(svc, vid, |st.wire.statusPosts|, i, j, PollFrom(svc, st, vid, token, i).2[j])
  {
    if i < MaxPolls {
      var base := |st.wire.statusPosts|;
      var st1 := st.(wire := st.wire.(statusPosts := st.wire.statusPosts + [token]));
      assert |st1.wire.statusPosts| == base + 1;
      match svc.status(base)
      case Raised(_) =>
      case Answered(rec) =>
        var r := PollFrom(svc, st, vid, token, i);
        if !IsTerminal(rec.currentStep) {
          var next := NextToken(Answered(rec), token);
          PollReports(svc, st1, vid, next, i + 1);
          var rest := PollFrom(svc, st1, vid, next, i + 1);
          assert r.2 == [Progress(vid, PollMessage(rec, i))] + rest.2;
          ReportedCons(svc, vid, base, i, Progress(vid, PollMessage(rec, i)), rest.2);
        } else {
          assert r.2 == [Progress(vid, PollMessage(rec, i))];
        }
    }
  }

  /** When all the remaining replies keep the loop going, the poll ends in the timeout entry. */
  lemma {:induction false} PollTimesOut(svc: Service, st: State, vid: string, token: string, i: nat)
    requires i <= MaxPolls
    requires forall j :: |st.wire.statusPosts| <= j < |st.wire.statusPosts| + MaxPolls - i ==> Pending(svc.status(j))
    decreases MaxPolls - i
    ensures var r := PollFrom(svc, st, vid, token, i);
      && r.0 == ErrorRecord(MsgPollTimeout)
      && |r.1.wire.statusPosts| == |st.wire.statusPosts| + MaxPolls - i
      && |r.2| == MaxPolls - i
  {
    if i < MaxPolls {
      var base := |st.wire.statusPosts|;
      assert Pending(svc.status(base));
      var st1 := st.(wire := st.wire.(statusPosts := st.wire.statusPosts + [token]));
      PollTimesOut(svc, st1, vid, NextToken(svc.status(base), token), i + 1);
    }
  }
}
