/**
 * The row bookkeeping of `SheerIDWindow` in `sheerid_gui.py`: the table built from the link
 * file, the map from id to row, the select-all box, gathering the checked rows for a run, and
 * applying a worker's progress signal to its row.
 *
 * The table is a sequence of rows (row k of the table is element k). The link file is an input:
 * `None` when it does not exist, else its lines as `readlines` returns them. The window's own
 * worker is represented by whether it is still running, also an input.
 */
module GuiWindow {
  import opened Wrappers
  import opened Text
  import opened Gui
  import opened GuiWorker

  /** One table row: the check box, the id, the original line, the status and the detail columns. */
  datatype Row = Row(checked: bool, vid: string, line: string, status: Option<string>, detail: string)

  // ===========================================================================
  // Specification

  /** `[l.strip() for l in f.readlines() if l.strip()]`. */
  function Lines(raw: seq<string>): (r: seq<string>)
    ensures |r| <= |raw|
    ensures forall k :: 0 <= k < |r| ==> r[k] != ""
  {
    if |raw| == 0 then []
    else (if Strip(raw[0]) != "" then [Strip(raw[0])] else []) + Lines(raw[1..])
  }

  /** The fresh row for a line with an id. */
  function ReadyRow(vid: string, line: string): Row {
    Row(false, vid, line, Some("Ready"), "")
  }

  /** The rows `load_data` inserts, in order: one per line that has an id. */
  function RowsOf(lines: seq<string>): seq<Row>
    decreases |lines|
  {
    if |lines| == 0 then []
    else
      var last := lines[|lines| - 1];
      var here := match ExtractVid(last) case None => [] case Some(v) => [ReadyRow(v, last)];
      RowsOf(lines[..|lines| - 1]) + here
  }

  /** `vid_row_map` after inserting `rows` one by one: later rows overwrite earlier ones. */
  function Index(rows: seq<Row>): map<string, nat>
    decreases |rows|
  {
    if |rows| == 0 then map[] else Index(rows[..|rows| - 1])[rows[|rows| - 1].vid := |rows| - 1]
  }

  /** The map sends every id to a row carrying it. */
  ghost predicate Consistent(rows: seq<Row>, m: map<string, nat>) {
    forall v :: v in m ==> m[v] < |rows| && rows[m[v]].vid == v
  }

  /** The links of the checked rows, in row order. */
  function Checked(rows: seq<Row>): seq<Link>
    decreases |rows|
  {
    if |rows| == 0 then []
    else
      var last := rows[|rows| - 1];
      Checked(rows[..|rows| - 1]) + (if last.checked then [Link(last.vid, last.line)] else [])
  }

  /** A checked row marked as waiting for the run; any other row as it was. */
  function Marked(row: Row): Row {
    if row.checked then row.(status := Some("Pending"), detail := "Waiting...") else row
  }

  /** Every row marked in turn. */
  function MarkPending(rows: seq<Row>): (r: seq<Row>)
    ensures |r| == |rows|
    ensures forall k :: 0 <= k < |rows| ==> r[k] == Marked(rows[k])
  {
    seq(|rows|, k requires 0 <= k < |rows| => Marked(rows[k]))
  }

  // ===========================================================================
  // Properties

  /**
   * Every row comes from a line that has an id, carries that id and starts unchecked and
   * "Ready"; every line with an id has a row; no row comes from a line without one.
   */
  lemma {:induction false} RowsOfLines(lines: seq<string>)
    decreases |lines|
    ensures |RowsOf(lines)| <= |lines|
    ensures forall k :: 0 <= k < |RowsOf(lines)| ==>
      var row := RowsOf(lines)[k];
      row.line in lines && ExtractVid(row.line) == Some(row.vid) && row == ReadyRow(row.vid, row.line)
    ensures forall l :: l in lines && ExtractVid(l).Some? ==> ReadyRow(ExtractVid(l).value, l) in RowsOf(lines)
  {
    if |lines| > 0 {
      var init := lines[..|lines| - 1];
      var last := lines[|lines| - 1];
      RowsOfLines(init);
      assert lines == init + [last];
      var here := match ExtractVid(last) case None => [] case Some(v) => [ReadyRow(v, last)];
      assert RowsOf(lines) == RowsOf(init) + here;
      forall k | 0 <= k < |RowsOf(lines)|
        ensures RowsOf(lines)[k].line in lines
        ensures ExtractVid(RowsOf(lines)[k].line) == Some(RowsOf(lines)[k].vid)
        ensures RowsOf(lines)[k] == ReadyRow(RowsOf(lines)[k].vid, RowsOf(lines)[k].line)
      {
        if k < |RowsOf(init)| {
          assert RowsOf(lines)[k] == RowsOf(init)[k];
        }
      }
      forall l | l in lines && ExtractVid(l).Some?
        ensures ReadyRow(ExtractVid(l).value, l) in RowsOf(lines)
      {
        if l != last {
          assert l in init;
        }
      }
    }
  }

  /**
   * An id is in `vid_row_map` exactly when some row carries it, and it is sent to the last row
   * carrying it.
   */
  lemma {:induction false} IndexLast(rows: seq<Row>)
    decreases |rows|
    ensures forall v :: v in Index(rows) <==> exists k :: 0 <= k < |rows| && rows[k].vid == v
    ensures forall v :: v in Index(rows) ==>
      && Index(rows)[v] < |rows| && rows[Index(rows)[v]].vid == v
      && forall k :: Index(rows)[v] < k < |rows| ==> rows[k].vid != v
  {
    if |rows| > 0 {
      var init := rows[..|rows| - 1];
      var last := rows[|rows| - 1];
      IndexLast(init);
      assert Index(rows) == Index(init)[last.vid := |rows| - 1];
      forall v | v in Index(rows)
        ensures exists k :: 0 <= k < |rows| && rows[k].vid == v
      {
        if v != last.vid {
          var k :| 0 <= k < |init| && init[k].vid == v;
          assert rows[k] == init[k];
        }
      }
      forall v | exists k :: 0 <= k < |rows| && rows[k].vid == v
        ensures v in Index(rows)
      {
        var k :| 0 <= k < |rows| && rows[k].vid == v;
        if v != last.vid {
          assert k < |init| && init[k] == rows[k];
        }
      }
      forall v | v in Index(rows)
        ensures Index(rows)[v] < |rows| && rows[Index(rows)[v]].vid == v
        ensures forall k :: Index(rows)[v] < k < |rows| ==> rows[k].vid != v
      {
        if v != last.vid {
          assert Index(rows)[v] == Index(init)[v];
          forall k | Index(rows)[v] < k < |rows| ensures rows[k].vid != v {
            if k < |init| {
              assert rows[k] == init[k];
            }
          }
        }
      }
    }
  }

  /**
   * The run is given exactly the checked rows, in row order, each with its id and its line; it
   * is given nothing when no row is checked.
   */
  lemma {:induction false} CheckedRows(rows: seq<Row>)
    decreases |rows|
    ensures |Checked(rows)| <= |rows|
    ensures forall k :: 0 <= k < |rows| && rows[k].checked ==> Link(rows[k].vid, rows[k].line) in Checked(rows)
    ensures forall l :: l in Checked(rows) ==>
      exists k :: 0 <= k < |rows| && rows[k].checked && l == Link(rows[k].vid, rows[k].line)
    ensures Checked(rows) == [] <==> forall k :: 0 <= k < |rows| ==> !rows[k].checked
  {
    if |rows| > 0 {
      var init := rows[..|rows| - 1];
      var last := rows[|rows| - 1];
      CheckedRows(init);
      assert Checked(rows) == Checked(init) + (if last.checked then [Link(last.vid, last.line)] else []);
      forall k | 0 <= k < |rows| && rows[k].checked
        ensures Link(rows[k].vid, rows[k].line) in Checked(rows)
      {
        if k < |init| {
          assert init[k] == rows[k];
        }
      }
      forall l | l in Checked(rows)
        ensures exists k :: 0 <= k < |rows| && rows[k].checked && l == Link(rows[k].vid, rows[k].line)
      {
        if l in Checked(init) {
          var k :| 0 <= k < |init| && init[k].checked && l == Link(init[k].vid, init[k].line);
          assert rows[k] == init[k];
        } else {
          assert rows[|rows| - 1].checked && l == Link(last.vid, last.line);
        }
      }
      if Checked(rows) == [] {
        forall k | 0 <= k < |rows| ensures !rows[k].checked {
          if k < |init| {
            assert init[k] == rows[k];
          }
        }
      }
    }
  }

  lemma {:induction false} CheckedAppend(a: seq<Row>, b: seq<Row>)
    decreases |b|
    ensures Checked(a + b) == Checked(a) + Checked(b)
  {
    if |b| > 0 {
      var init := b[..|b| - 1];
      var last := b[|b| - 1];
      var here := if last.checked then [Link(last.vid, last.line)] else [];
      CheckedAppend(a, init);
      assert (a + b)[..|a + b| - 1] == a + init;
      assert (a + b)[|a + b| - 1] == last;
      assert Checked(a + b) == Checked(a + init) + here;
      assert Checked(b) == Checked(init) + here;
    } else {
      assert a + b == a;
    }
  }

  /**
   * A checked row's link sits in the run's list right after those of the checked rows above it,
   * so the list follows row order.
   */
  lemma CheckedPosition(rows: seq<Row>, k: nat)
    requires k < |rows| && rows[k].checked
    ensures |Checked(rows[..k])| < |Checked(rows)|
    ensures Checked(rows)[|Checked(rows[..k])|] == Link(rows[k].vid, rows[k].line)
  {
    assert rows == rows[..k + 1] + rows[k + 1..];
    CheckedAppend(rows[..k + 1], rows[k + 1..]);
    assert rows[..k + 1][..k] == rows[..k];
  }

  /** The lines kept are the stripped non-blank lines of the file, each of them. */
  lemma {:induction false} LinesOf(raw: seq<string>)
    decreases |raw|
    ensures forall l :: l in Lines(raw) ==> exists k :: 0 <= k < |raw| && l == Strip(raw[k])
    ensures forall k :: 0 <= k < |raw| && Strip(raw[k]) != "" ==> Strip(raw[k]) in Lines(raw)
  {
    if |raw| > 0 {
      LinesOf(raw[1..]);
      forall l | l in Lines(raw) ensures exists k :: 0 <= k < |raw| && l == Strip(raw[k]) {
        if l in Lines(raw[1..]) {
          var k :| 0 <= k < |raw[1..]| && l == Strip(raw[1..][k]);
          assert raw[k + 1] == raw[1..][k];
        } else {
          assert l == Strip(raw[0]);
        }
      }
      forall k | 0 <= k < |raw| && Strip(raw[k]) != "" ensures Strip(raw[k]) in Lines(raw) {
        if k > 0 {
          assert raw[1..][k - 1] == raw[k];
        }
      }
    }
  }

  /** `RowsOf` and `Index` taken one line further, as the loop of `load_data` does. */
  lemma RowsPrefix(lines: seq<string>, i: nat)
    requires i < |lines|
    ensures RowsOf(lines[..i + 1]) ==
      RowsOf(lines[..i]) + match ExtractVid(lines[i]) case None => [] case Some(v) => [ReadyRow(v, lines[i])]
  {
    assert lines[..i + 1][..i] == lines[..i];
  }

  lemma CheckedPrefix(rows: seq<Row>, i: nat)
    requires i < |rows|
    ensures Checked(rows[..i + 1]) ==
      Checked(rows[..i]) + (if rows[i].checked then [Link(rows[i].vid, rows[i].line)] else [])
  {
    assert rows[..i + 1][..i] == rows[..i];
  }

  lemma IndexSnoc(rows: seq<Row>, row: Row)
    ensures Index(rows + [row]) == Index(rows)[row.vid := |rows|]
  {
    assert (rows + [row])[..|rows|] == rows;
  }

  /** The table after `load_data` is consistent with its map. */
  lemma LoadedConsistent(rows: seq<Row>)
    ensures Consistent(rows, Index(rows))
  {
    IndexLast(rows);
  }

  // ===========================================================================
  // The window

  class SheerIdWindow {
    var rows: seq<Row>
    var vidRowMap: map<string, nat>
    var selectAll: bool

    /** `__init__`: an empty table, then `load_data()`. */
    constructor (file: Option<seq<string>>)
      ensures file.None? ==> rows == [] && vidRowMap == map[] && !selectAll
      ensures file.Some? ==> rows == RowsOf(Lines(file.value)) && vidRowMap == Index(rows) && !selectAll
      ensures Consistent(rows, vidRowMap)
    {
      rows := [];
      vidRowMap := map[];
      selectAll := false;
      new;
      LoadData(file);
    }

    /**
     * `load_data()`: without the file the table is left as it is; otherwise it is rebuilt from
     * the file's non-blank stripped lines, one unchecked "Ready" row per line with an id.
     */
    method LoadData(file: Option<seq<string>>)
      modifies this
      ensures file.None? ==> rows == old(rows) && vidRowMap == old(vidRowMap) && selectAll == old(selectAll)
      ensures file.Some? ==> rows == RowsOf(Lines(file.value)) && vidRowMap == Index(rows) && !selectAll
      ensures file.Some? ==> Consistent(rows, vidRowMap)
    {
      if file.None? {
        return;
      }
      var lines := Lines(file.value);
      rows := [];
      vidRowMap := map[];
      selectAll := false;
      var i := 0;
      while i < |lines|
        invariant 0 <= i <= |lines|
        invariant rows == RowsOf(lines[..i]) && vidRowMap == Index(rows)
        invariant !selectAll
      {
        var line := lines[i];
        RowsPrefix(lines, i);
        var vid := ExtractVid(line);
        if vid.Some? {
          IndexSnoc(rows, ReadyRow(vid.value, line));
          vidRowMap := vidRowMap[vid.value := |rows|];
          rows := rows + [ReadyRow(vid.value, line)];
        }
        i := i + 1;
      }
      assert lines[..|lines|] == lines;
      LoadedConsistent(rows);
    }

    /** `toggle_select_all(state)`: every row's box takes the state of the select-all box. */
    method ToggleSelectAll(state: bool)
      modifies this
      ensures |rows| == |old(rows)| && vidRowMap == old(vidRowMap) && selectAll == state
      ensures forall k :: 0 <= k < |rows| ==> rows[k] == old(rows)[k].(checked := state)
    {
      selectAll := state;
      var i := 0;
      while i < |rows|
        invariant 0 <= i <= |rows| && |rows| == |old(rows)| && vidRowMap == old(vidRowMap) && selectAll == state
        invariant forall k :: 0 <= k < i ==> rows[k] == old(rows)[k].(checked := state)
        invariant forall k :: i <= k < |rows| ==> rows[k] == old(rows)[k]
      {
        rows := rows[i := rows[i].(checked := state)];
        i := i + 1;
      }
    }

    /**
     * `start_verify()`: refused while a run is going on; otherwise the checked rows, in order,
     * are marked as waiting and handed to a new worker with the stripped key, unless there are
     * none, in which case no worker is started.
     */
    method StartVerify(apiKeyText: string, workerBusy: bool) returns (started: Option<(string, seq<Link>)>)
      modifies this
      ensures vidRowMap == old(vidRowMap) && selectAll == old(selectAll)
      ensures workerBusy ==> started.None? && rows == old(rows)
      ensures !workerBusy ==> rows == MarkPending(old(rows))
      ensures !workerBusy && Checked(old(rows)) != [] ==> started == Some((Strip(apiKeyText), Checked(old(rows))))
      ensures Checked(old(rows)) == [] ==> started.None?
    {
      if workerBusy {
        return None;
      }
      var apiKey := Strip(apiKeyText);
      var links: seq<Link> := [];
      var before := rows;
      var i := 0;
      while i < |rows|
        invariant 0 <= i <= |rows| && |rows| == |before|
        invariant vidRowMap == old(vidRowMap) && selectAll == old(selectAll)
        invariant links == Checked(before[..i])
        invariant forall k :: 0 <= k < i ==> rows[k] == Marked(before[k])
        invariant forall k :: i <= k < |rows| ==> rows[k] == before[k]
      {
        var row := rows[i];
        CheckedPrefix(before, i);
        if row.checked {
          links := links + [Link(row.vid, row.line)];
          rows := rows[i := row.(status := Some("Pending"), detail := "Waiting...")];
        }
        i := i + 1;
      }
      assert before[..|before|] == before;
      assert rows == MarkPending(before);
      if links == [] {
        return None;
      }
      return Some((apiKey, links));
    }

    /**
     * `update_row_status(data)`: the row the id maps to takes the signal's status and message;
     * a signal for an id with no row changes nothing.
     */
    method UpdateRowStatus(vid: string, status: Option<string>, msg: string)
      requires Consistent(rows, vidRowMap)
      modifies this
      ensures vidRowMap == old(vidRowMap) && selectAll == old(selectAll) && |rows| == |old(rows)|
      ensures vid !in vidRowMap ==> rows == old(rows)
      ensures vid in vidRowMap ==> rows == old(rows)[vidRowMap[vid] := old(rows)[vidRowMap[vid]].(status := status, detail := msg)]
      ensures Consistent(rows, vidRowMap)
    {
      if vid in vidRowMap {
        var row := vidRowMap[vid];
        rows := rows[row := rows[row].(status := status, detail := msg)];
      }
    }
  }
}
