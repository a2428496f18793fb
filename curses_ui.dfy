/**
 * The curses window manager of the navigator: a selection (the list of entry
 * texts), the selected index, and the first index shown in the viewport.  The
 * terminal height `maxY` and width `maxX` are read from the screen on every
 * call, so they are parameters here; the bottom row `maxY - 1` is the status
 * bar and the `maxY - 1` rows above it show the list.  Screen writes are
 * recorded as the rows last drawn (`viewport`) and the last status line
 * (`barLine`).
 */
module CursesUI {
  import opened Text

  /** The argument of move_selection: a finite signed count, or -inf / +inf for the jumps to top and bottom. */
  datatype Step = Finite(n: int) | ToStart | ToEnd

  /** The (index, viewport_start) snapshot used to save and restore a selection. */
  datatype Status = Status(index: int, viewportStart: int)

  /** The `status` keyword argument of set_selection: omitted, a Status tuple, or a value of any other type. */
  datatype StatusArg = NoStatus | Saved(status: Status) | NotAStatus

  /** One list row: its text and whether it is drawn in reverse video. */
  datatype Row = Row(text: string, highlighted: bool)

  function Distance(a: int, b: int): nat {
    if a <= b then b - a else a - b
  }

  /**
   * The index move_selection selects: index + step, put back to 0 when it is
   * below 0 and otherwise to len - 1 when it is at or past len.
   */
  function MovedIndex(index: int, step: Step, len: nat): (r: int)
    ensures len > 0 ==> 0 <= r < len
    ensures step == ToStart ==> r == 0
    ensures step == ToEnd ==> r == len - 1
    ensures step.Finite? && 0 <= index + step.n < len ==> r == index + step.n
    ensures len == 0 && step.Finite? ==> r == (if index + step.n < 0 then 0 else -1)
  {
    match step
    case ToStart => 0
    case ToEnd => len - 1
    case Finite(n) =>
      if index + n < 0 then 0
      else if index + n >= len then len - 1
      else index + n
  }

  /** Clamping picks, among the valid indices, the one nearest to index + n. */
  lemma MovedIndexIsNearest(index: int, n: int, len: nat, j: int)
    requires 0 <= j < len
    ensures Distance(MovedIndex(index, Finite(n), len), index + n) <= Distance(j, index + n)
  {
  }

  /** A larger step never selects an earlier entry. */
  lemma MovedIndexMonotonic(index: int, n: int, m: int, len: nat)
    requires n <= m && len > 0
    ensures MovedIndex(index, ToStart, len) <= MovedIndex(index, Finite(n), len)
    ensures MovedIndex(index, Finite(n), len) <= MovedIndex(index, Finite(m), len)
    ensures MovedIndex(index, Finite(m), len) <= MovedIndex(index, ToEnd, len)
  {
  }

  /**
   * The viewport start move_selection chooses for the new index: the index
   * itself when it lies above the window, the start that puts it on the last
   * list row when it lies below, and the old start otherwise.
   */
  function ScrolledStart(start: int, newIndex: int, maxY: int): (r: int)
    ensures maxY >= 2 ==> r <= newIndex < r + (maxY - 1)
    ensures start <= newIndex < start + (maxY - 1) ==> r == start
  {
    if newIndex < start then newIndex
    else if newIndex >= start + maxY - 1 then newIndex - maxY + 2
    else start
  }

  /** The window is scrolled just enough: no start that keeps newIndex visible is nearer the old one. */
  lemma {:induction false} ScrolledStartIsMinimal(start: int, newIndex: int, maxY: int, other: int)
    requires maxY >= 2
    requires other <= newIndex < other + (maxY - 1)
    ensures Distance(ScrolledStart(start, newIndex, maxY), start) <= Distance(other, start)
  {
    if newIndex < start {
      assert other <= newIndex;
    } else if newIndex >= start + maxY - 1 {
      assert other >= newIndex - maxY + 2;
    }
  }

  /** The text truncated, then padded with spaces, to exactly maxX - 1 characters. */
  function Fit(s: string, maxX: int): (r: string)
    requires maxX >= 1
    ensures |r| == maxX - 1
    ensures forall i :: 0 <= i < |r| ==> r[i] == if i < |s| then s[i] else ' '
  {
    var width := maxX - 1;
    if |s| >= width then s[..width] else s + Spaces(width - |s|)
  }

  lemma FitIdempotent(s: string, maxX: int)
    requires maxX >= 1
    ensures Fit(Fit(s, maxX), maxX) == Fit(s, maxX)
  {
  }

  /** The row drawn for selection index k. */
  function RowAt(selection: seq<string>, index: int, k: int, maxX: int): (row: Row)
    requires maxX >= 1
    ensures |row.text| == maxX - 1
    ensures row.highlighted <==> k == index
  {
    Row(if 0 <= k < |selection| then Fit(selection[k], maxX) else Spaces(maxX - 1), k == index)
  }

  /** The number of list rows above the status bar. */
  function ListHeight(maxY: int): nat {
    if maxY >= 1 then maxY - 1 else 0
  }

  /** The rows _refresh_viewport draws, top to bottom. */
  function Rows(selection: seq<string>, index: int, start: int, maxY: int, maxX: int): (rows: seq<Row>)
    requires maxX >= 1
    ensures |rows| == ListHeight(maxY)
    ensures forall y :: 0 <= y < |rows| ==> |rows[y].text| == maxX - 1
    ensures forall y :: 0 <= y < |rows| && 0 <= start + y < |selection| ==> rows[y].text == Fit(selection[start + y], maxX)
    ensures forall y :: 0 <= y < |rows| && !(0 <= start + y < |selection|) ==> rows[y].text == Spaces(maxX - 1)
    ensures forall y :: 0 <= y < |rows| ==> (rows[y].highlighted <==> start + y == index)
    ensures forall y, z :: 0 <= y < z < |rows| ==> !(rows[y].highlighted && rows[z].highlighted)
  {
    var rows := seq(ListHeight(maxY), y => RowAt(selection, index, start + y, maxX));
    assert forall y :: 0 <= y < |rows| ==> rows[y] == RowAt(selection, index, start + y, maxX);
    rows
  }

  /**
   * After any move on a non-empty selection with at least one list row, the
   * selected entry is drawn, highlighted, on row index - start, and no other
   * row is highlighted.
   */
  lemma MoveKeepsSelectionOnScreen(selection: seq<string>, index: int, start: int, step: Step, maxY: int, maxX: int)
    requires |selection| > 0 && maxY >= 2 && maxX >= 1
    ensures var i := MovedIndex(index, step, |selection|);
            var s := ScrolledStart(start, i, maxY);
            var rows := Rows(selection, i, s, maxY, maxX);
            && 0 <= i - s < |rows|
            && rows[i - s] == Row(Fit(selection[i], maxX), true)
            && forall y :: 0 <= y < |rows| && y != i - s ==> !rows[y].highlighted
  {
  }

  class UI {
    var selection: seq<string>
    var index: int
    var viewportStart: int
    var statusBar: string
    /** The list rows as last drawn. */
    var viewport: seq<Row>
    /** The status bar row as last drawn. */
    var barLine: string

    /** CursesUI(screen): nothing selected yet, an empty status bar drawn. */
    constructor (maxY: int, maxX: int)
      requires maxY > 0 && maxX >= 1
      ensures selection == [] && index == 0 && viewportStart == 0
      ensures statusBar == "" && barLine == Fit("", maxX) && viewport == []
    {
      selection, index, viewportStart := [], 0, 0;
      viewport := [];
      statusBar := "";
      barLine := Fit("", maxX);
    }

    /** The `status` property. */
    function CurrentStatus(): (s: Status)
      reads this
      ensures s.index == index && s.viewportStart == viewportStart
    {
      Status(index, viewportStart)
    }

    /** _refresh_viewport: draw every list row. */
    method RefreshViewport(maxY: int, maxX: int)
      requires maxX >= 1
      modifies this`viewport
      ensures viewport == Rows(selection, index, viewportStart, maxY, maxX)
    {
      var k := viewportStart;
      var drawn: seq<Row> := [];
      for y := 0 to ListHeight(maxY)
        invariant k == viewportStart + y
        invariant drawn == Rows(selection, index, viewportStart, maxY, maxX)[..y]
      {
        var line := if 0 <= k < |selection| then Fit(selection[k], maxX) else Spaces(maxX - 1);
        drawn := drawn + [Row(line, k == index)];
        k := k + 1;
      }
      viewport := drawn;
    }

    /**
     * set_selection: store the new list, then start at the top (no status),
     * restore a saved status exactly, or raise TypeError (ok is false) for any
     * other status value, after the list has already been stored.
     */
    method SetSelection(newSelection: seq<string>, status: StatusArg, maxY: int, maxX: int) returns (ok: bool)
      requires maxX >= 1
      modifies this`selection, this`index, this`viewportStart, this`viewport
      ensures selection == newSelection
      ensures ok <==> !status.NotAStatus?
      ensures status.NoStatus? ==> index == 0 && viewportStart == 0
      ensures status.Saved? ==> CurrentStatus() == status.status
      ensures ok ==> viewport == Rows(selection, index, viewportStart, maxY, maxX)
      ensures !ok ==> index == old(index) && viewportStart == old(viewportStart) && viewport == old(viewport)
    {
      selection := newSelection;
      match status {
        case NoStatus =>
          index, viewportStart := 0, 0;
        case Saved(s) =>
          index, viewportStart := s.index, s.viewportStart;
        case NotAStatus =>
          return false;
      }
      RefreshViewport(maxY, maxX);
      ok := true;
    }

    /** set_status_bar: draw the message on the bottom row; TypeError (ok is false) when the screen has no rows. */
    method SetStatusBar(message: string, maxY: int, maxX: int) returns (ok: bool)
      requires maxX >= 1
      modifies this`statusBar, this`barLine
      ensures ok <==> maxY > 0
      ensures ok ==> statusBar == message && barLine == Fit(message, maxX)
      ensures !ok ==> statusBar == old(statusBar) && barLine == old(barLine)
    {
      if maxY > 0 {
        statusBar := message;
        barLine := Fit(message, maxX);
        ok := true;
      } else {
        ok := false;
      }
    }

    /** refresh: redraw the list and the current status bar message. */
    method Refresh(maxY: int, maxX: int) returns (ok: bool)
      requires maxX >= 1
      modifies this`viewport, this`statusBar, this`barLine
      ensures viewport == Rows(selection, index, viewportStart, maxY, maxX)
      ensures statusBar == old(statusBar)
      ensures ok <==> maxY > 0
      ensures ok ==> barLine == Fit(statusBar, maxX)
      ensures !ok ==> barLine == old(barLine)
    {
      RefreshViewport(maxY, maxX);
      ok := SetStatusBar(statusBar, maxY, maxX);
    }

    /** move_selection: clamp the new index, scroll just enough to show it, redraw. */
    method MoveSelection(step: Step, maxY: int, maxX: int)
      requires maxX >= 1
      modifies this`index, this`viewportStart, this`viewport
      ensures index == MovedIndex(old(index), step, |selection|)
      ensures viewportStart == ScrolledStart(old(viewportStart), index, maxY)
      ensures |selection| > 0 ==> 0 <= index < |selection|
      ensures maxY >= 2 ==> viewportStart <= index < viewportStart + (maxY - 1)
      ensures viewport == Rows(selection, index, viewportStart, maxY, maxX)
    {
      var newIndex: int;
      match step {
        case ToStart => newIndex := 0;
        case ToEnd => newIndex := |selection| - 1;
        case Finite(n) =>
          newIndex := index + n;
          if newIndex < 0 {
            newIndex := 0;
          } else if newIndex >= |selection| {
            newIndex := |selection| - 1;
          }
      }
      if newIndex < viewportStart {
        viewportStart := newIndex;
      } else if newIndex >= viewportStart + maxY - 1 {
        viewportStart := newIndex - maxY + 2;
      }
      index := newIndex;
      RefreshViewport(maxY, maxX);
    }

    /** move_viewport: shift the window by n with no clamping; the selection stays. */
    method MoveViewport(n: int, maxY: int, maxX: int)
      requires maxX >= 1
      modifies this`viewportStart, this`viewport
      ensures viewportStart == old(viewportStart) + n
      ensures viewport == Rows(selection, index, viewportStart, maxY, maxX)
    {
      viewportStart := viewportStart + n;
      RefreshViewport(maxY, maxX);
    }
  }
}
