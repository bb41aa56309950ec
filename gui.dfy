/**
 * The pure parts of `sheerid_gui.py`: cutting the id list into batches of five, pulling the
 * verification id out of a line, and the status a result is reported with.
 */
module Gui {
  import opened Wrappers
  import opened Text
  import opened Verifier
  import VerifierPoll

  /** Ids per `verify_batch` call. */
  const BatchSize: nat := 5

  // ---------------------------------------------------------------------------
  // Batching: [tasks[i:i + 5] for i in range(0, len(tasks), 5)]

  function Min(a: int, b: int): int {
    if a <= b then a else b
  }

  function Batches(tasks: seq<string>): (bs: seq<seq<string>>)
    decreases |tasks|
  {
    if |tasks| == 0 then []
    else if |tasks| <= BatchSize then [tasks]
    else [tasks[..BatchSize]] + Batches(tasks[BatchSize..])
  }

  function Flatten(bs: seq<seq<string>>): seq<string> {
    if |bs| == 0 then [] else bs[0] + Flatten(bs[1..])
  }

  /**
   * There are ceil(N/5) batches, and batch k is the slice `tasks[5k:5k+5]`, which is non-empty
   * and at most five long.
   */
  lemma {:induction false} BatchesSlice(tasks: seq<string>)
    decreases |tasks|
    ensures |Batches(tasks)| == (|tasks| + BatchSize - 1) / BatchSize
    ensures forall k :: 0 <= k < |Batches(tasks)| ==>
      && 0 < |Batches(tasks)[k]| <= BatchSize
      && Batches(tasks)[k] == tasks[BatchSize * k .. Min(BatchSize * k + BatchSize, |tasks|)]
  {
    if |tasks| > BatchSize {
      var bs := Batches(tasks);
      var rest := tasks[BatchSize..];
      BatchesSlice(rest);
      assert bs == [tasks[..BatchSize]] + Batches(rest);
      forall k | 0 < k < |bs|
        ensures bs[k] == tasks[BatchSize * k .. Min(BatchSize * k + BatchSize, |tasks|)]
      {
        assert bs[k] == Batches(rest)[k - 1];
        assert |rest| == |tasks| - BatchSize;
        var lo, hi := BatchSize * (k - 1), Min(BatchSize * (k - 1) + BatchSize, |rest|);
        assert lo + BatchSize == BatchSize * k;
        assert hi + BatchSize == Min(BatchSize * k + BatchSize, |tasks|);
        assert rest[lo..hi] == tasks[lo + BatchSize..hi + BatchSize];
        assert rest[BatchSize * (k - 1) .. Min(BatchSize * (k - 1) + BatchSize, |rest|)]
            == tasks[BatchSize * k .. Min(BatchSize * k + BatchSize, |tasks|)];
      }
    }
  }

  /** The batches put together give back the list, in order. */
  lemma {:induction false} BatchesFlatten(tasks: seq<string>)
    decreases |tasks|
    ensures Flatten(Batches(tasks)) == tasks
  {
    if |tasks| > BatchSize {
      var rest := tasks[BatchSize..];
      BatchesFlatten(rest);
      assert Batches(tasks) == [tasks[..BatchSize]] + Batches(rest);
      assert Flatten(Batches(tasks)) == tasks[..BatchSize] + Flatten(Batches(rest));
      assert tasks == tasks[..BatchSize] + rest;
    } else if |tasks| > 0 {
      assert Flatten([tasks]) == tasks + Flatten([]);
      assert tasks + [] == tasks;
    }
  }

  // ---------------------------------------------------------------------------
  // extract_vid: re.search(r'verificationId=([a-zA-Z0-9]+)') or re.search(r'verify/([a-zA-Z0-9]+)')

  const IdMarker: string := "verificationId="
  const PathMarker: string := "verify/"

  /** Length of the longest run of `[a-zA-Z0-9]` in `s` from position `a` on. */
  function RunFrom(s: string, a: nat): (n: nat)
    decreases |s| - a
    ensures a + n <= |s| || n == 0
    ensures forall k :: a <= k < a + n ==> IsAsciiAlnum(s[k])
    ensures a + n < |s| ==> !IsAsciiAlnum(s[a + n])
  {
    if a >= |s| || !IsAsciiAlnum(s[a]) then 0 else 1 + RunFrom(s, a + 1)
  }

  /** `marker([a-zA-Z0-9]+)` matches at position `i` of `s`. */
  predicate CaptureAt(s: string, marker: string, i: nat) {
    OccursAt(s, marker, i) && RunFrom(s, i + |marker|) > 0
  }

  /** The leftmost position from `from` on where `marker([a-zA-Z0-9]+)` matches. */
  function SearchFrom(s: string, marker: string, from: nat): (r: Option<nat>)
    decreases |s| + 1 - from
    ensures r.Some? ==> from <= r.value && CaptureAt(s, marker, r.value)
    ensures r.Some? ==> forall j :: from <= j < r.value ==> !CaptureAt(s, marker, j)
    ensures r.None? ==> forall j :: from <= j ==> !CaptureAt(s, marker, j)
  {
    if from + |marker| > |s| then None
    else if CaptureAt(s, marker, from) then Some(from)
    else SearchFrom(s, marker, from + 1)
  }

  /** The group of the leftmost match of `marker([a-zA-Z0-9]+)`: the whole alphanumeric run. */
  function Capture(s: string, marker: string): Option<string> {
    match SearchFrom(s, marker, 0)
    case None => None
    case Some(i) =>
      var a := i + |marker|;
      Some(s[a..a + RunFrom(s, a)])
  }

  /** `extract_vid(line)`. */
  function ExtractVid(line: string): Option<string> {
    if Capture(line, IdMarker).Some? then Capture(line, IdMarker) else Capture(line, PathMarker)
  }

  /**
   * The capture is non-empty and alphanumeric, directly follows the leftmost match of the
   * marker, and is maximal: the character after it, if any, is not alphanumeric.
   */
  lemma CaptureShape(s: string, marker: string)
    ensures Capture(s, marker).Some? ==>
      var i := SearchFrom(s, marker, 0).value;
      var v := Capture(s, marker).value;
      var a := i + |marker|;
      && v != ""
      && (forall k :: 0 <= k < |v| ==> IsAsciiAlnum(v[k]))
      && OccursAt(s, marker, i)
      && a + |v| <= |s| && s[a..a + |v|] == v
      && (a + |v| < |s| ==> !IsAsciiAlnum(s[a + |v|]))
      && (forall j :: 0 <= j < i ==> !CaptureAt(s, marker, j))
  {
    if SearchFrom(s, marker, 0).Some? {
      var i := SearchFrom(s, marker, 0).value;
      var a := i + |marker|;
      var n := RunFrom(s, a);
      var v := s[a..a + n];
      assert Capture(s, marker) == Some(v);
      assert |v| == n;
      forall k | 0 <= k < n ensures IsAsciiAlnum(v[k]) {
        assert v[k] == s[a + k];
      }
    }
  }

  /** There is no capture exactly when the pattern matches nowhere. */
  lemma CaptureNone(s: string, marker: string)
    ensures Capture(s, marker).None? <==> forall j :: !CaptureAt(s, marker, j)
  {
  }

  /**
   * A `verificationId=` match wins over a `verify/` match; the `verify/` pattern is used only
   * when the first has no match; and there is no id exactly when neither matches.
   */
  lemma ExtractVidPriority(line: string)
    ensures Capture(line, IdMarker).Some? ==> ExtractVid(line) == Capture(line, IdMarker)
    ensures Capture(line, IdMarker).None? ==> ExtractVid(line) == Capture(line, PathMarker)
    ensures ExtractVid(line).None? <==>
      (forall j :: !CaptureAt(line, IdMarker, j)) && (forall j :: !CaptureAt(line, PathMarker, j))
  {
    CaptureNone(line, IdMarker);
    CaptureNone(line, PathMarker);
  }

  // ---------------------------------------------------------------------------
  // Reported status: res.get("currentStep") or res.get("status")

  /** A present, non-empty string: Python's truth value of an optional string. */
  predicate Truthy(x: Option<string>) {
    x.Some? && x.value != ""
  }

  function StatusOf(res: Record): Option<string> {
    if Truthy(res.currentStep) then res.currentStep else res.status
  }

  /**
   * A final record is reported as `success` or `error`: a terminal record by its step, one of
   * the client's own error entries by its status.
   */
  lemma FinalStatus(res: Record)
    requires VerifierPoll.Final(res)
    ensures StatusOf(res) == Some("success") || StatusOf(res) == Some("error")
    ensures IsTerminal(res.currentStep) ==> StatusOf(res) == res.currentStep
  {
  }
}
