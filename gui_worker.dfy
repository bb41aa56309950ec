/**
 * `VerifyWorker` of `sheerid_gui.py`: runs the checked ids through a fresh client in batches of
 * five and reports every step as a signal.
 *
 * The Qt signals are an event log. The `is_running` flag is a field; `stop()` is called from the
 * window's thread, which cannot be modelled, so it is represented by an input `stopAt`: every
 * read of the flag is numbered, and the reads numbered `stopAt` or later see it cleared. The
 * hook `AccountManager.move_to_verified`, whose code is not part of this model, is an input
 * `moveOutcome`: the failure message of its k-th call, if that call raises. The log `calls`
 * records the batches handed to `verify_batch`.
 */
module GuiWorker {
  import opened Wrappers
  import opened Verifier
  import opened Gui

  /** One entry of `self.links`: `{'vid': ..., 'line': ...}`. */
  datatype Link = Link(vid: string, line: string)

  /** `progress_signal.emit({'vid': vid, 'status': status, 'msg': msg})`, and `finished_signal`. */
  datatype Signal = Update(vid: string, status: Option<string>, msg: string) | Finished

  /** The worker's fields and logs. */
  datatype Worker = Worker(
    running: bool,
    flagReads: nat,
    events: seq<Signal>,
    calls: seq<seq<string>>,
    moves: seq<string>)

  /** The client a run starts with: `SheerIDVerifier(api_key=...)` on a new session. */
  const InitialState: State := State(None, DefaultHeaders, Wire(0, [], [], []))

  // ===========================================================================
  // Specification

  /** `self.is_running`, read once more. */
  function Read(w: Worker, stopAt: nat): (bool, Worker) {
    var r := w.running && w.flagReads < stopAt;
    (r, w.(running := r, flagReads := w.flagReads + 1))
  }

  /** `[item['vid'] for item in self.links]`. */
  function Vids(links: seq<Link>): (r: seq<string>)
    ensures |r| == |links|
    ensures forall k :: 0 <= k < |links| ==> r[k] == links[k].vid
  {
    if |links| == 0 then [] else [links[0].vid] + Vids(links[1..])
  }

  /** The "Processing" signals for one batch. */
  function Announce(batch: seq<string>): (r: seq<Signal>)
    ensures |r| == |batch|
    ensures forall k :: 0 <= k < |batch| ==> r[k] == Update(batch[k], Some("Processing"), "Submitting...")
  {
    if |batch| == 0 then [] else [Update(batch[0], Some("Processing"), "Submitting...")] + Announce(batch[1..])
  }

  lemma AnnounceSnoc(batch: seq<string>, vid: string)
    ensures Announce(batch + [vid]) == Announce(batch) + [Update(vid, Some("Processing"), "Submitting...")]
  {
    assert |Announce(batch + [vid])| == |batch| + 1;
  }

  /** The callback, called for each progress report in order. */
  function Relay(w: Worker, stopAt: nat, progress: seq<Progress>): Worker
    decreases |progress|
  {
    if |progress| == 0 then w
    else
      var (r, w1) := Read(w, stopAt);
      var w2 := if r then w1.(events := w1.events + [Update(progress[0].vid, Some("Running"), progress[0].msg)]) else w1;
      Relay(w2, stopAt, progress[1..])
  }

  /** The position of the first link carrying `vid`. */
  function FirstLink(links: seq<Link>, vid: string): (r: Option<nat>)
    ensures r.Some? ==> r.value < |links| && links[r.value].vid == vid
    ensures r.Some? ==> forall k :: 0 <= k < r.value ==> links[k].vid != vid
    ensures r.None? ==> forall k :: 0 <= k < |links| ==> links[k].vid != vid
  {
    if |links| == 0 then None
    else if links[0].vid == vid then Some(0)
    else match FirstLink(links[1..], vid)
      case None => None
      case Some(k) => Some(k + 1)
  }

  /** The signal for one result, with the hook called on success. */
  function ReportOne(w: Worker, links: seq<Link>, moveOutcome: nat -> Option<string>, vid: string, res: Record): Worker {
    var status := StatusOf(res);
    var msg := res.message.GetOr("");
    if status == Some("success") && FirstLink(links, vid).Some? then
      var line := links[FirstLink(links, vid).value].line;
      var msg1 := match moveOutcome(|w.moves|)
        case None => msg
        case Some(e) => msg + " (Move failed: " + e + ")";
      w.(moves := w.moves + [line], events := w.events + [Update(vid, status, msg1)])
    else
      w.(events := w.events + [Update(vid, status, msg)])
  }

  /** `for vid, res in results.items()`. */
  function Report(w: Worker, links: seq<Link>, moveOutcome: nat -> Option<string>, results: Results): Worker
    decreases |results|
  {
    if |results| == 0 then w
    else Report(ReportOne(w, links, moveOutcome, results[0].0, results[0].1), links, moveOutcome, results[1..])
  }

  /** Everything one submitted batch does after the flag was read as set. */
  function Process(svc: Service, apiKey: string, links: seq<Link>, stopAt: nat, moveOutcome: nat -> Option<string>,
                   w: Worker, st: State, batch: seq<string>): (Worker, State)
  {
    var w1 := w.(events := w.events + Announce(batch), calls := w.calls + [batch]);
    var o := BatchOutcome(svc, apiKey, st, batch);
    var w2 := Relay(w1, stopAt, o.progress);
    (Report(w2, links, moveOutcome, o.results), o.state)
  }

  /** `for batch in batches: if not self.is_running: break; ...`. */
  function RunBatches(svc: Service, apiKey: string, links: seq<Link>, stopAt: nat, moveOutcome: nat -> Option<string>,
                      w: Worker, st: State, batches: seq<seq<string>>): (Worker, State)
    decreases |batches|
  {
    if |batches| == 0 then (w, st)
    else
      var (r, w1) := Read(w, stopAt);
      if !r then (w1, st)
      else
        var p := Process(svc, apiKey, links, stopAt, moveOutcome, w1, st, batches[0]);
        RunBatches(svc, apiKey, links, stopAt, moveOutcome, p.0, p.1, batches[1..])
  }

  /** `run()`. */
  function RunOutcome(svc: Service, apiKey: string, links: seq<Link>, stopAt: nat, moveOutcome: nat -> Option<string>,
                      w: Worker): Worker
  {
    var r := RunBatches(svc, apiKey, links, stopAt, moveOutcome, w, InitialState, Batches(Vids(links))).0;
    r.(events := r.events + [Finished])
  }

  // ===========================================================================
  // The worker

  class VerifyWorker {
    const apiKey: string
    const links: seq<Link>
    /** The service the run's client talks to. */
    const service: Service
    /** The first numbered read of `is_running` that happens after `stop()`. */
    const stopAt: nat
    /** What the k-th call of the move hook raises, if anything. */
    const moveOutcome: nat -> Option<string>

    var isRunning: bool
    var flagReads: nat
    var events: seq<Signal>
    var calls: seq<seq<string>>
    var moves: seq<string>

    constructor (apiKey: string, links: seq<Link>, service: Service, stopAt: nat, moveOutcome: nat -> Option<string>)
      ensures this.apiKey == apiKey && this.links == links && this.service == service
      ensures this.stopAt == stopAt && this.moveOutcome == moveOutcome
      ensures Snapshot() == Worker(true, 0, [], [], [])
    {
      this.apiKey := apiKey;
      this.links := links;
      this.service := service;
      this.stopAt := stopAt;
      this.moveOutcome := moveOutcome;
      isRunning := true;
      flagReads := 0;
      events := [];
      calls := [];
      moves := [];
    }

    function Snapshot(): Worker
      reads this
    {
      Worker(isRunning, flagReads, events, calls, moves)
    }

    /** `stop()`. */
    method Stop()
      modifies this
      ensures Snapshot() == old(Snapshot()).(running := false)
    {
      isRunning := false;
    }

    /** One read of `self.is_running`. */
    method ReadFlag() returns (r: bool)
      modifies this
      ensures (r, Snapshot()) == Read(old(Snapshot()), stopAt)
    {
      if flagReads >= stopAt {
        isRunning := false;
      }
      flagReads := flagReads + 1;
      r := isRunning;
    }

    /** `callback(vid, msg)`. */
    method Callback(p: Progress)
      modifies this
      ensures Snapshot() == Relay(old(Snapshot()), stopAt, [p])
    {
      var r := ReadFlag();
      if r {
        events := events + [Update(p.vid, Some("Running"), p.msg)];
      }
    }

    /** `AccountManager.move_to_verified(line)`: `err` is what it raises, if anything. */
    method MoveToVerified(line: string) returns (err: Option<string>)
      modifies this
      ensures err == moveOutcome(|old(moves)|)
      ensures Snapshot() == old(Snapshot()).(moves := old(moves) + [line])
    {
      err := moveOutcome(|moves|);
      moves := moves + [line];
    }

    /** The body of `for vid, res in results.items()`. */
    method ReportResult(vid: string, res: Record)
      modifies this
      ensures Snapshot() == ReportOne(old(Snapshot()), links, moveOutcome, vid, res)
    {
      var status := if res.currentStep.Some? && res.currentStep.value != "" then res.currentStep else res.status;
      var msg := res.message.GetOr("");
      if status == Some("success") {
        var k := 0;
        while k < |links|
          invariant 0 <= k <= |links|
          invariant forall j :: 0 <= j < k ==> links[j].vid != vid
          invariant Snapshot() == old(Snapshot())
        {
          if links[k].vid == vid {
            assert FirstLink(links, vid) == Some(k);
            var err := MoveToVerified(links[k].line);
            if err.Some? {
              msg := msg + " (Move failed: " + err.value + ")";
            }
            break;
          }
          k := k + 1;
        }
      }
      events := events + [Update(vid, status, msg)];
    }

    /** `for vid in batch: self.progress_signal.emit(...)`. */
    method AnnounceBatch(batch: seq<string>)
      modifies this
      ensures Snapshot() == old(Snapshot()).(events := old(events) + Announce(batch))
    {
      for j := 0 to |batch|
        invariant Snapshot() == old(Snapshot()).(events := old(events) + Announce(batch[..j]))
      {
        AnnounceSnoc(batch[..j], batch[j]);
        assert batch[..j + 1] == batch[..j] + [batch[j]];
        events := events + [Update(batch[j], Some("Processing"), "Submitting...")];
      }
      assert batch[..|batch|] == batch;
    }

    /** The callbacks `verify_batch` made, in order. */
    method RelayAll(progress: seq<Progress>)
      modifies this
      ensures Snapshot() == Relay(old(Snapshot()), stopAt, progress)
    {
      for j := 0 to |progress|
        invariant Relay(Snapshot(), stopAt, progress[j..]) == Relay(old(Snapshot()), stopAt, progress)
      {
        assert progress[j..][0] == progress[j] && progress[j..][1..] == progress[j + 1..];
        ghost var before := Snapshot();
        Callback(progress[j]);
        assert Relay(before, stopAt, progress[j..]) == Relay(Relay(before, stopAt, [progress[j]]), stopAt, progress[j + 1..]);
      }
    }

    /** `for vid, res in results.items()`. */
    method ReportAll(results: Results)
      modifies this
      ensures Snapshot() == Report(old(Snapshot()), links, moveOutcome, results)
    {
      for j := 0 to |results|
        invariant Report(Snapshot(), links, moveOutcome, results[j..]) == Report(old(Snapshot()), links, moveOutcome, results)
      {
        assert results[j..][0] == results[j] && results[j..][1..] == results[j + 1..];
        ReportResult(results[j].0, results[j].1);
      }
    }

    /** `run()`. */
    method Run()
      modifies this
      ensures Snapshot() == RunOutcome(service, apiKey, links, stopAt, moveOutcome, old(Snapshot()))
    {
      var session := new Session(service);
      var verifier := new SheerIdVerifier(apiKey, session);
      var batches := Batches(Vids(links));
      ghost var whole := RunBatches(service, apiKey, links, stopAt, moveOutcome, Snapshot(), InitialState, batches);
      var b := 0;
      while b < |batches|
        invariant 0 <= b <= |batches|
        invariant verifier.session == session && verifier.apiKey == apiKey && session.service == service
        invariant RunBatches(service, apiKey, links, stopAt, moveOutcome, Snapshot(), verifier.Snapshot(), batches[b..]) == whole
        decreases |batches| - b
      {
        assert batches[b..][0] == batches[b] && batches[b..][1..] == batches[b + 1..];
        ghost var st := verifier.Snapshot();
        var running := ReadFlag();
        if !running {
          break;
        }
        AnnounceBatch(batches[b]);
        calls := calls + [batches[b]];
        var results, progress := verifier.VerifyBatch(batches[b]);
        RelayAll(progress);
        ReportAll(results);
        b := b + 1;
      }
      events := events + [Finished];
    }
  }
}
