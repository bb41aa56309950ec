/**
 * What a `VerifyWorker` run promises: the finished signal comes once and last, the batches it
 * submits are the first ones of the partition, a stop before a batch boundary ends the
 * submissions, callbacks go quiet once the flag is cleared, and every result is reported.
 */
module GuiWorkerProps {
  import opened Wrappers
  import opened Verifier
  import opened Gui
  import opened GuiWorker

  /** `b` extends `a` by events, calls and moves only, and reads the flag at least as often. */
  predicate Extends(a: Worker, b: Worker) {
    && a.events <= b.events
    && a.calls <= b.calls
    && a.moves <= b.moves
    && a.flagReads <= b.flagReads
    && (!a.running ==> !b.running)
  }

  /** None of `signals` is the finished signal. */
  predicate NoFinished(signals: seq<Signal>) {
    forall k :: 0 <= k < |signals| ==> signals[k].Update?
  }

  /** Every one of `signals` is a "Running" update. */
  predicate RunningOnly(signals: seq<Signal>) {
    forall k :: 0 <= k < |signals| ==> signals[k].Update? && signals[k].status == Some("Running")
  }

  /** `signals` are one update per result, in order, with its id and its reported status. */
  predicate ReportedAs(signals: seq<Signal>, results: Results) {
    && |signals| == |results|
    && forall k :: 0 <= k < |results| ==>
         && signals[k].Update?
         && signals[k].vid == results[k].0
         && signals[k].status == StatusOf(results[k].1)
  }

  lemma ExtendsTrans(a: Worker, b: Worker, c: Worker)
    requires Extends(a, b) && Extends(b, c)
    ensures Extends(a, c)
  {
  }

  /** The part of `c` past `a` is the part of `b` past `a` followed by the part of `c` past `b`. */
  lemma SliceSplit(a: seq<Signal>, b: seq<Signal>, c: seq<Signal>)
    requires a <= b <= c
    ensures c[|a|..] == b[|a|..] + c[|b|..]
  {
  }

  lemma NoFinishedAppend(a: seq<Signal>, b: seq<Signal>)
    requires NoFinished(a) && NoFinished(b)
    ensures NoFinished(a + b)
  {
    forall k | 0 <= k < |a + b| ensures (a + b)[k].Update? {
      if k >= |a| {
        assert (a + b)[k] == b[k - |a|];
      }
    }
  }

  lemma RunningOnlyAppend(a: seq<Signal>, b: seq<Signal>)
    requires RunningOnly(a) && RunningOnly(b)
    ensures RunningOnly(a + b)
  {
    forall k | 0 <= k < |a + b| ensures (a + b)[k].Update? && (a + b)[k].status == Some("Running") {
      if k >= |a| {
        assert (a + b)[k] == b[k - |a|];
      }
    }
  }

  lemma ReportedAsCons(e: Signal, rest: seq<Signal>, results: Results)
    requires |results| > 0
    requires e.Update? && e.vid == results[0].0 && e.status == StatusOf(results[0].1)
    requires ReportedAs(rest, results[1..])
    ensures ReportedAs([e] + rest, results)
  {
    forall k | 0 < k < |results|
      ensures ([e] + rest)[k].Update?
      ensures ([e] + rest)[k].vid == results[k].0
      ensures ([e] + rest)[k].status == StatusOf(results[k].1)
    {
      assert ([e] + rest)[k] == rest[k - 1];
      assert results[1..][k - 1] == results[k];
    }
  }

  // ---------------------------------------------------------------------------
  // Callbacks

  /**
   * The callbacks read the flag once each and emit one "Running" signal per call made while it
   * is set; once it is cleared they emit nothing at all.
   */
  lemma {:induction false} RelayResult(w: Worker, stopAt: nat, progress: seq<Progress>)
    decreases |progress|
    ensures var r := Relay(w, stopAt, progress);
      && r.calls == w.calls && r.moves == w.moves
      && r.flagReads == w.flagReads + |progress|
      && w.events <= r.events && |r.events| <= |w.events| + |progress|
      && RunningOnly(r.events[|w.events|..])
      && (!w.running || w.flagReads >= stopAt ==> r.events == w.events)
      && (!w.running ==> !r.running)
  {
    if |progress| > 0 {
      var (b, w1) := Read(w, stopAt);
      var w2 := if b then w1.(events := w1.events + [Update(progress[0].vid, Some("Running"), progress[0].msg)]) else w1;
      RelayResult(w2, stopAt, progress[1..]);
      var r := Relay(w, stopAt, progress);
      assert r == Relay(w2, stopAt, progress[1..]);
      SliceSplit(w.events, w2.events, r.events);
      RunningOnlyAppend(w2.events[|w.events|..], r.events[|w2.events|..]);
    }
  }

  // ---------------------------------------------------------------------------
  // Results

  /** The lines the hook is called with: the first link's line of each `success` result with a link. */
  function MovedLines(links: seq<Link>, results: Results): seq<string>
    decreases |results|
  {
    if |results| == 0 then []
    else
      var here := if StatusOf(results[0].1) == Some("success") && FirstLink(links, results[0].0).Some?
        then [links[FirstLink(links, results[0].0).value].line] else [];
      here + MovedLines(links, results[1..])
  }

  /**
   * One signal per result, in order, with the id and the status the result is reported with
   * (`success` stays `success` when the hook fails); nothing else changes but the hook log.
   */
  lemma {:induction false} ReportEvents(w: Worker, links: seq<Link>, moveOutcome: nat -> Option<string>, results: Results)
    decreases |results|
    ensures var r := Report(w, links, moveOutcome, results);
      && r.running == w.running && r.flagReads == w.flagReads && r.calls == w.calls
      && w.events <= r.events
      && ReportedAs(r.events[|w.events|..], results)
  {
    if |results| > 0 {
      var w1 := ReportOne(w, links, moveOutcome, results[0].0, results[0].1);
      ReportEvents(w1, links, moveOutcome, results[1..]);
      var r := Report(w, links, moveOutcome, results);
      assert r == Report(w1, links, moveOutcome, results[1..]);
      SliceSplit(w.events, w1.events, r.events);
      ReportedAsCons(w1.events[|w.events|], r.events[|w1.events|..], results);
    }
  }

  /**
   * The hook is called once for each `success` result whose id has a link, in order, with the
   * line of the first link carrying that id, and for no other result.
   */
  lemma {:induction false} ReportMoves(w: Worker, links: seq<Link>, moveOutcome: nat -> Option<string>, results: Results)
    decreases |results|
    ensures Report(w, links, moveOutcome, results).moves == w.moves + MovedLines(links, results)
  {
    if |results| > 0 {
      var w1 := ReportOne(w, links, moveOutcome, results[0].0, results[0].1);
      ReportMoves(w1, links, moveOutcome, results[1..]);
    }
  }

  // ---------------------------------------------------------------------------
  // One batch, and the loop over batches

  /** The steps of one batch, for any callbacks and results `verify_batch` produces. */
  lemma ProcessSteps(links: seq<Link>, stopAt: nat, moveOutcome: nat -> Option<string>,
                     w: Worker, batch: seq<string>, progress: seq<Progress>, results: Results)
    ensures var w1 := w.(events := w.events + Announce(batch), calls := w.calls + [batch]);
      var r := Report(Relay(w1, stopAt, progress), links, moveOutcome, results);
      && r.calls == w.calls + [batch]
      && w.events + Announce(batch) <= r.events
      && NoFinished(r.events[|w.events|..])
      && Extends(w, r)
  {
    var w1 := w.(events := w.events + Announce(batch), calls := w.calls + [batch]);
    var w2 := Relay(w1, stopAt, progress);
    var r := Report(w2, links, moveOutcome, results);
    RelayResult(w1, stopAt, progress);
    ReportEvents(w2, links, moveOutcome, results);
    ReportMoves(w2, links, moveOutcome, results);
    SliceSplit(w.events, w1.events, w2.events);
    SliceSplit(w.events, w2.events, r.events);
    assert w1.events[|w.events|..] == Announce(batch);
    var a := w2.events[|w1.events|..];
    var c := r.events[|w2.events|..];
    assert w2.events[|w.events|..] == Announce(batch) + a by {
      SliceSplit(w.events, w1.events, w2.events);
    }
    assert NoFinished(a);
    assert NoFinished(c);
    NoFinishedAppend(Announce(batch), a);
    NoFinishedAppend(Announce(batch) + a, c);
  }

  /**
   * A submitted batch first announces every one of its ids as "Processing", and only then is
   * handed to `verify_batch`; what follows are its callbacks and its results.
   */
  lemma ProcessAnnounces(svc: Service, apiKey: string, links: seq<Link>, stopAt: nat, moveOutcome: nat -> Option<string>,
                         w: Worker, st: State, batch: seq<string>)
    ensures var r := Process(svc, apiKey, links, stopAt, moveOutcome, w, st, batch).0;
      && r.calls == w.calls + [batch]
      && w.events + Announce(batch) <= r.events
      && NoFinished(r.events[|w.events|..])
      && Extends(w, r)
  {
    var o := BatchOutcome(svc, apiKey, st, batch);
    ProcessSteps(links, stopAt, moveOutcome, w, batch, o.progress, o.results);
  }

  /**
   * `r` has handed the first `n` of `batches` to `verify_batch` after `w`, in order, and has seen
   * the flag cleared if `n` falls short.
   */
  predicate SubmittedPrefix(w: Worker, r: Worker, batches: seq<seq<string>>) {
    var n := |r.calls| - |w.calls|;
    && Extends(w, r)
    && 0 <= n <= |batches|
    && r.calls == w.calls + batches[..n]
    && (n < |batches| ==> !r.running)
  }

  lemma SubmittedStep(w: Worker, p: Worker, r: Worker, batches: seq<seq<string>>)
    requires |batches| > 0 && w.running
    requires Extends(w, p) && p.calls == w.calls + [batches[0]]
    requires SubmittedPrefix(p, r, batches[1..])
    ensures SubmittedPrefix(w, r, batches)
  {
    ExtendsTrans(w, p, r);
    var m := |r.calls| - |p.calls|;
    assert r.calls == w.calls + ([batches[0]] + batches[1..][..m]);
    assert [batches[0]] + batches[1..][..m] == batches[..m + 1];
  }

  /**
   * The batches handed to `verify_batch` are the first `n` batches of the partition, in order;
   * a run that stops short of the last batch has seen the flag cleared at a batch boundary.
   */
  lemma {:induction false} RunBatchesPrefix(svc: Service, apiKey: string, links: seq<Link>, stopAt: nat,
                                            moveOutcome: nat -> Option<string>, w: Worker, st: State,
                                            batches: seq<seq<string>>)
    decreases |batches|
    ensures SubmittedPrefix(w, RunBatches(svc, apiKey, links, stopAt, moveOutcome, w, st, batches).0, batches)
  {
    if |batches| > 0 {
      var (b, w1) := Read(w, stopAt);
      if b {
        var p := Process(svc, apiKey, links, stopAt, moveOutcome, w1, st, batches[0]);
        ProcessAnnounces(svc, apiKey, links, stopAt, moveOutcome, w1, st, batches[0]);
        RunBatchesPrefix(svc, apiKey, links, stopAt, moveOutcome, p.0, p.1, batches[1..]);
        var r := RunBatches(svc, apiKey, links, stopAt, moveOutcome, w, st, batches).0;
        assert r == RunBatches(svc, apiKey, links, stopAt, moveOutcome, p.0, p.1, batches[1..]).0;
        SubmittedStep(w1, p.0, r, batches);
      } else {
        assert batches[..0] == [];
      }
    }
  }

  /** Until the loop ends, every signal is an update: the finished signal is not among them. */
  lemma {:induction false} RunBatchesSignals(svc: Service, apiKey: string, links: seq<Link>, stopAt: nat,
                                             moveOutcome: nat -> Option<string>, w: Worker, st: State,
                                            batches: seq<seq<string>>)
    decreases |batches|
    ensures var r := RunBatches(svc, apiKey, links, stopAt, moveOutcome, w, st, batches).0;
      && w.events <= r.events
      && NoFinished(r.events[|w.events|..])
  {
    if |batches| > 0 {
      var (b, w1) := Read(w, stopAt);
      if b {
        var p := Process(svc, apiKey, links, stopAt, moveOutcome, w1, st, batches[0]);
        ProcessAnnounces(svc, apiKey, links, stopAt, moveOutcome, w1, st, batches[0]);
        RunBatchesSignals(svc, apiKey, links, stopAt, moveOutcome, p.0, p.1, batches[1..]);
        var r := RunBatches(svc, apiKey, links, stopAt, moveOutcome, w, st, batches).0;
        assert r == RunBatches(svc, apiKey, links, stopAt, moveOutcome, p.0, p.1, batches[1..]).0;
        SliceSplit(w.events, p.0.events, r.events);
        NoFinishedAppend(p.0.events[|w.events|..], r.events[|p.0.events|..]);
      } else {
        assert w1.events[|w.events|..] == [];
      }
    } else {
      assert w.events[|w.events|..] == [];
    }
  }

  // ---------------------------------------------------------------------------
  // The whole run

  /**
   * `finished_signal` is emitted exactly once, as the last signal; the submitted batches are a
   * prefix of the partition of the ids into fives; fewer are submitted only after the flag was
   * seen cleared.
   */
  lemma RunResult(svc: Service, apiKey: string, links: seq<Link>, stopAt: nat, moveOutcome: nat -> Option<string>, w: Worker)
    ensures var r := RunOutcome(svc, apiKey, links, stopAt, moveOutcome, w);
      var batches := Batches(Vids(links));
      var n := |r.calls| - |w.calls|;
      && |w.events| < |r.events| && w.events <= r.events
      && r.events[|r.events| - 1] == Finished
      && NoFinished(r.events[|w.events|..|r.events| - 1])
      && 0 <= n <= |batches|
      && r.calls == w.calls + batches[..n]
      && (n < |batches| ==> !r.running)
  {
    var batches := Batches(Vids(links));
    RunBatchesPrefix(svc, apiKey, links, stopAt, moveOutcome, w, InitialState, batches);
    RunBatchesSignals(svc, apiKey, links, stopAt, moveOutcome, w, InitialState, batches);
    var q := RunBatches(svc, apiKey, links, stopAt, moveOutcome, w, InitialState, batches).0;
    var r := RunOutcome(svc, apiKey, links, stopAt, moveOutcome, w);
    assert r.events == q.events + [Finished];
    assert r.events[|w.events|..|r.events| - 1] == q.events[|w.events|..];
  }

  /** A worker that was stopped before it runs submits nothing and emits only the finished signal. */
  lemma RunAfterStop(svc: Service, apiKey: string, links: seq<Link>, stopAt: nat,
                     moveOutcome: nat -> Option<string>, w: Worker)
    requires !w.running
    ensures var r := RunOutcome(svc, apiKey, links, stopAt, moveOutcome, w);
      r.events == w.events + [Finished] && r.calls == w.calls && r.moves == w.moves
  {
  }
}
