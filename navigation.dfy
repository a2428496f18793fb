/**
 * The navigator (Tool): a stack of the containers above the one shown, the
 * container shown, and whether a Codeforces client exists.  Going down into
 * a container saves where the selection was; going up writes the child,
 * with its own selection saved, back into its parent and restores the
 * parent's selection.  The Codeforces catalogue is fetched the first time
 * its (still empty) top-level container is entered.
 */
module Navigation {
  import opened Wrappers
  import opened CursesUI
  import opened Containers
  import opened Catalogue
  import opened Keys
  import opened Urls

  /** Why get_catalogue raised: the request failed (ResponseError), or building the catalogue failed. */
  datatype FetchError = ResponseError | Malformed(error: CatalogueError)

  /** The exceptions that end the navigator. */
  datatype Fault =
    | IndexError                     // the selected index is not an index of the container
    | FetchFailed(error: FetchError) // get_catalogue raised
    | TypeError                      // set_status_bar on a screen without rows

  /** Whether i is a valid Python index of a list of length len (negative indices count from the end). */
  predicate PyValid(len: nat, i: int) {
    -(len as int) <= i < len
  }

  /** The position a valid Python index refers to. */
  function PyIndex(len: nat, i: int): (k: nat)
    requires PyValid(len, i)
    ensures k < len
    ensures k == i || k == len + i
  {
    if i >= 0 then i else len + i
  }

  /** container[index] for a container: the entry, or IndexError. */
  function Selected(current: Item, index: int): (r: Result<Item, Fault>)
    requires current.Container?
    ensures r.Ok? <==> PyValid(|current.items|, index)
    ensures r.Ok? ==> r.value in current.items
    ensures r.Err? ==> r.error == IndexError
  {
    if PyValid(|current.items|, index) then Ok(current.items[PyIndex(|current.items|, index)]) else Err(IndexError)
  }

  /** The navigator's state: the containers above (innermost last), the container shown, whether the client exists. */
  datatype Level = Level(stack: seq<Item>, current: Item, clientActive: bool)

  /**
   * Every container above was left with its selection saved at a valid
   * index (the entry that was entered), and the Codeforces client exists
   * exactly while the navigator is below the top level.
   */
  predicate ValidLevel(lv: Level) {
    && lv.current.Container?
    && (lv.clientActive <==> lv.stack != [])
    && forall k :: 0 <= k < |lv.stack| ==>
         && lv.stack[k].Container?
         && lv.stack[k].status.Some?
         && PyValid(|lv.stack[k].items|, lv.stack[k].status.value.index)
  }

  /** The top-level container: the four client containers, all still empty. */
  const Top := Container(Title(""), [
    Container(Title(CodeforcesName), [], None),
    Container(Title("Kattis (Incoming)"), [], None),
    Container(Title("Project Euler (Incoming)"), [], None),
    Container(Title("ICPC (Incoming)"), [], None)
  ], None)

  /** The state before the first key. */
  const Start := Level([], Top, false)

  /** What _go_down_level does. */
  datatype Descent =
    | Entered(level: Level)          // a container is shown now
    | Opened(problem: ProblemRecord) // the problem is handed to the client and the editor
    | Stayed                         // a top-level client that is not implemented
    | Failed(fault: Fault)

  /** Push the current container, its selection saved as `at` and entry i set to `child`, and show `child`. */
  function Enter(lv: Level, at: Status, i: nat, child: Item): Level
    requires lv.current.Container? && i < |lv.current.items|
  {
    var parent := lv.current.(items := lv.current.items[i := child], status := Some(at));
    Level(lv.stack + [parent], child, if lv.stack == [] then true else lv.clientActive)
  }

  /**
   * _go_down_level with the selection at `at`.  `catalogue` is what
   * get_catalogue returns or raises: the contest containers, or the error.
   */
  function Descend(lv: Level, at: Status, catalogue: Result<seq<Item>, FetchError>): (r: Descent)
    requires ValidLevel(lv)
    ensures r == Failed(IndexError) <==> !PyValid(|lv.current.items|, at.index)
    ensures r.Failed? && r.fault.FetchFailed? ==> lv.stack == [] && catalogue == Err(r.fault.error)
    ensures r.Opened? ==> && Selected(lv.current, at.index).Ok?
                          && Selected(lv.current, at.index).value.Problem?
                          && Selected(lv.current, at.index).value.record == r.problem
    ensures r.Stayed? <==> && lv.stack == [] && Selected(lv.current, at.index).Ok?
                           && Selected(lv.current, at.index).value.Container?
                           && Selected(lv.current, at.index).value.name != Title(CodeforcesName)
    ensures r.Entered? ==> && ValidLevel(r.level)
                           && |r.level.stack| == |lv.stack| + 1
                           && r.level.stack[..|lv.stack|] == lv.stack
                           && r.level.stack[|lv.stack|].status == Some(at)
                           && r.level.stack[|lv.stack|].name == lv.current.name
    ensures r.Entered? && lv.stack != [] ==> && r.level.current == Selected(lv.current, at.index).value
                                             && r.level.stack[|lv.stack|] == lv.current.(status := Some(at))
    ensures r.Entered? && lv.stack == [] ==> r.level.current.name == Title(CodeforcesName)
  {
    var items := lv.current.items;
    if !PyValid(|items|, at.index) then Failed(IndexError)
    else
      var i := PyIndex(|items|, at.index);
      match items[i]
      case Problem(record, _) => Opened(record)
      case Container(name, children, _) =>
        if lv.stack != [] then
          assert items[i := items[i]] == items;
          Entered(Enter(lv, at, i, items[i]))
        else if name != Title(CodeforcesName) then Stayed
        else if children != [] then Entered(Enter(lv, at, i, items[i]))
        else
          match catalogue
          case Err(e) => Failed(FetchFailed(e))
          case Ok(contests) => Entered(Enter(lv, at, i, Container(Title(CodeforcesName), contests, None)))
  }

  /** Going down at `at` fetches the catalogue: the entry is the top level's Codeforces container, still empty. */
  predicate FetchesCatalogue(lv: Level, at: Status)
    requires lv.current.Container?
  {
    && lv.stack == []
    && Selected(lv.current, at.index).Ok?
    && Selected(lv.current, at.index).value.Container?
    && Selected(lv.current, at.index).value.name == Title(CodeforcesName)
    && Selected(lv.current, at.index).value.items == []
  }

  /**
   * Entering the Codeforces container from the top level: a container that
   * already holds contests is shown as it is; an empty one is replaced by
   * the fetched catalogue, which is also written back into the top level at
   * the selected index.  A fetch error arises only from the empty one.
   */
  lemma EnteringCodeforces(lv: Level, at: Status, catalogue: Result<seq<Item>, FetchError>)
    requires ValidLevel(lv) && lv.stack == []
    ensures var r := Descend(lv, at, catalogue);
            r.Entered? ==>
              && Selected(lv.current, at.index).Ok?
              && var entry := Selected(lv.current, at.index).value;
                 && (entry.items != [] ==> r.level.current == entry)
                 && (entry.items == [] ==> catalogue.Ok? && r.level.current == Container(Title(CodeforcesName), catalogue.value, None))
                 && r.level.stack == [lv.current.(items := lv.current.items[PyIndex(|lv.current.items|, at.index) := r.level.current],
                                                  status := Some(at))]
    ensures var r := Descend(lv, at, catalogue);
            r.Failed? && r.fault.FetchFailed? ==> FetchesCatalogue(lv, at)
  {
  }

  /** Unless the empty Codeforces container is entered, what get_catalogue would return plays no part. */
  lemma CatalogueOnlyWhenEmpty(lv: Level, at: Status, catalogue: Result<seq<Item>, FetchError>, other: Result<seq<Item>, FetchError>)
    requires ValidLevel(lv) && !FetchesCatalogue(lv, at)
    ensures Descend(lv, at, catalogue) == Descend(lv, at, other)
  {
  }

  /**
   * The fetched catalogue is kept: after entering the Codeforces container
   * for the first time and going back up, entering it again shows the same
   * contests, whatever a new fetch would give.
   */
  lemma CatalogueFetchedOnce(lv: Level, at: Status, catalogue: Result<seq<Item>, FetchError>, inner: Status, other: Result<seq<Item>, FetchError>)
    requires ValidLevel(lv) && FetchesCatalogue(lv, at)
    requires catalogue.Ok? && catalogue.value != []
    ensures var down := Descend(lv, at, catalogue);
            && down.Entered?
            && var up := Ascend(down.level, inner);
               && up.stack == [] && !FetchesCatalogue(up, at)
               && Descend(up, at, other) == Descend(up, at, catalogue)
               && Descend(up, at, other).Entered?
               && Descend(up, at, other).level.current == Container(Title(CodeforcesName), catalogue.value, Some(inner))
  {
  }

  /**
   * _go_up_level with the selection at `at`: at the top level nothing
   * happens; otherwise the container shown, with `at` saved in it, goes
   * back into its parent at the parent's saved index, the parent is shown,
   * and the client is dropped when the top level is reached.
   */
  function Ascend(lv: Level, at: Status): (r: Level)
    requires ValidLevel(lv)
    ensures ValidLevel(r)
    ensures lv.stack == [] ==> r == lv
    ensures lv.stack != [] ==> && r.stack == lv.stack[..|lv.stack| - 1]
                               && r.current.name == lv.stack[|lv.stack| - 1].name
                               && r.current.status == lv.stack[|lv.stack| - 1].status
  {
    if lv.stack == [] then lv
    else
      var parent := lv.stack[|lv.stack| - 1];
      var i := PyIndex(|parent.items|, parent.status.value.index);
      var rest := lv.stack[..|lv.stack| - 1];
      Level(rest, parent.(items := parent.items[i := lv.current.(status := Some(at))]), if rest == [] then false else lv.clientActive)
  }

  /**
   * Going down and straight back up restores the stack and the selection
   * in the parent, and the parent now holds the child with the child's own
   * selection saved; nothing else in the parent changes.
   */
  lemma DescendThenAscend(lv: Level, at: Status, catalogue: Result<seq<Item>, FetchError>, inner: Status)
    requires ValidLevel(lv) && Descend(lv, at, catalogue).Entered?
    ensures var down := Descend(lv, at, catalogue).level;
            var up := Ascend(down, inner);
            var i := PyIndex(|lv.current.items|, at.index);
            && up.stack == lv.stack
            && up.clientActive == lv.clientActive
            && up.current.name == lv.current.name
            && up.current.status == Some(at)
            && |up.current.items| == |lv.current.items|
            && up.current.items[i] == down.current.(status := Some(inner))
            && forall k :: 0 <= k < |up.current.items| && k != i ==> up.current.items[k] == lv.current.items[k]
  {
    var down := Descend(lv, at, catalogue).level;
    assert down.stack[..|down.stack| - 1] == lv.stack;
  }

  /** Going back into the container just left shows it again with the selection it had when it was left. */
  lemma AscendThenDescend(lv: Level, inner: Status, catalogue: Result<seq<Item>, FetchError>)
    requires ValidLevel(lv) && |lv.stack| >= 2
    ensures var up := Ascend(lv, inner);
            var back := Descend(up, up.current.status.value, catalogue);
            && back.Entered?
            && back.level.current == lv.current.(status := Some(inner))
            && |back.level.stack| == |lv.stack|
  {
  }

  /** A point in the run: the key read and the screen size when it was handled. */
  datatype Event = Event(key: KeyCode, maxY: int, maxX: int)

  /** Why the key loop ended. */
  datatype Stop = Quitted | Crashed(fault: Fault) | OutOfInput

  function KeysOf(events: seq<Event>): (keys: seq<KeyCode>)
    ensures |keys| == |events| && forall j :: 0 <= j < |events| ==> keys[j] == events[j].key
  {
    seq(|events|, j requires 0 <= j < |events| => events[j].key)
  }

  function StatusArgOf(status: Option<Status>): StatusArg {
    match status
    case None => NoStatus
    case Some(s) => Saved(s)
  }

  class Tool {
    const ui: UI
    var stack: seq<Item>
    var current: Item
    var clientActive: bool
    /** The page the Codeforces client's browser shows, once a problem has been opened. */
    var page: Option<string>

    function CurrentLevel(): Level
      reads this
    {
      Level(stack, current, clientActive)
    }

    /** The state is a valid level and the curses UI lists the entries of the container shown. */
    predicate Valid()
      reads this, ui
    {
      ValidLevel(CurrentLevel()) && ui.selection == Labels(current.items)
    }

    /** Tool(config) followed by the curses call: the top level is listed with the first entry selected. */
    constructor (maxY: int, maxX: int)
      requires maxY > 0 && maxX >= 1
      ensures Valid() && fresh(ui)
      ensures CurrentLevel() == Start
      ensures ui.CurrentStatus() == Status(0, 0)
      ensures ui.viewport == Rows(ui.selection, 0, 0, maxY, maxX)
      ensures page == None
    {
      stack := [];
      page := None;
      current := Top;
      clientActive := false;
      ui := new UI(maxY, maxX);
      new;
      var _ := ui.SetSelection(Labels(Top.items), NoStatus, maxY, maxX);
    }

    /**
     * _go_down_level: the state becomes what Descend says, and an entered
     * container is listed with its saved selection.  An opened problem's
     * page is loaded from `site`, the Codeforces client's stored url.
     */
    method GoDownLevel(maxY: int, maxX: int, site: string, catalogue: Result<seq<Item>, FetchError>) returns (d: Descent)
      requires Valid() && maxX >= 1
      modifies this, ui`selection, ui`index, ui`viewportStart, ui`viewport
      ensures ui.statusBar == old(ui.statusBar) && ui.barLine == old(ui.barLine)
      ensures d == Descend(old(CurrentLevel()), old(ui.CurrentStatus()), catalogue)
      ensures Valid()
      ensures d.Entered? ==> && CurrentLevel() == d.level
                             && (current.status.None? ==> ui.CurrentStatus() == Status(0, 0))
                             && (current.status.Some? ==> ui.CurrentStatus() == current.status.value)
                             && ui.viewport == Rows(ui.selection, ui.index, ui.viewportStart, maxY, maxX)
      ensures !d.Entered? ==> CurrentLevel() == old(CurrentLevel()) && unchanged(ui)
      ensures d.Opened? ==> page == Some(ProblemPage(site, d.problem))
      ensures !d.Opened? ==> page == old(page)
    {
      d := Descend(CurrentLevel(), ui.CurrentStatus(), catalogue);
      if d.Entered? {
        stack, current, clientActive := d.level.stack, d.level.current, d.level.clientActive;
        var _ := ui.SetSelection(Labels(current.items), StatusArgOf(current.status), maxY, maxX);
      } else if d.Opened? {
        page := Some(ProblemPage(site, d.problem));
      }
    }

    /** _go_up_level: the state becomes what Ascend says, and the parent is listed with its saved selection. */
    method GoUpLevel(maxY: int, maxX: int)
      requires Valid() && maxX >= 1
      modifies this, ui`selection, ui`index, ui`viewportStart, ui`viewport
      ensures ui.statusBar == old(ui.statusBar) && ui.barLine == old(ui.barLine)
      ensures CurrentLevel() == Ascend(old(CurrentLevel()), old(ui.CurrentStatus()))
      ensures Valid()
      ensures old(stack) != [] ==> && ui.CurrentStatus() == current.status.value
                                   && ui.viewport == Rows(ui.selection, ui.index, ui.viewportStart, maxY, maxX)
      ensures old(stack) == [] ==> unchanged(ui)
      ensures page == old(page)
    {
      if stack != [] {
        var lv := Ascend(CurrentLevel(), ui.CurrentStatus());
        stack, current, clientActive := lv.stack, lv.current, lv.clientActive;
        var _ := ui.SetSelection(Labels(current.items), Saved(current.status.value), maxY, maxX);
      }
    }

    /**
     * The body of one turn of Tool.main after the key is classified: carry
     * out the action, then put the message on the status bar; an exception
     * is returned as the fault that ends the run.
     */
    method Dispatch(action: Action, bar: Option<string>, maxY: int, maxX: int, site: string, catalogue: Result<seq<Item>, FetchError>)
      returns (fault: Option<Fault>)
      requires Valid() && maxX >= 1 && action != Quit
      modifies this, ui
      ensures Valid()
      ensures action.Move? || action.Scroll? || action.Nothing? ==> CurrentLevel() == old(CurrentLevel())
      ensures bar.Some? && maxY <= 0 ==> fault.Some?
      ensures fault.Some? && fault.value.FetchFailed? ==> action == DownLevel && catalogue.Err?
      ensures action != DownLevel ==> page == old(page)
    {
      match action {
        case Move(step) =>
          ui.MoveSelection(step, maxY, maxX);
        case Scroll(n) =>
          ui.MoveViewport(n, maxY, maxX);
        case DownLevel =>
          var d := GoDownLevel(maxY, maxX, site, catalogue);
          if d.Failed? {
            return Some(d.fault);
          }
        case UpLevel =>
          GoUpLevel(maxY, maxX);
        case Redraw =>
          var ok := ui.Refresh(maxY, maxX);
          if !ok {
            return Some(TypeError);
          }
        case Run(command) =>
          if !command.TestCommand? {
            var selected := Selected(current, ui.index);
            if selected.Err? {
              return Some(selected.error);
            }
          }
        case Nothing =>
      }
      if bar.Some? {
        var ok := ui.SetStatusBar(bar.value, maxY, maxX);
        if !ok {
          return Some(TypeError);
        }
      }
      fault := None;
    }

    /**
     * Tool.main over a finite run of keys: each key is dispatched as React
     * says, until a quit command, an exception, or the end of the run.
     */
    method KeyLoop(events: seq<Event>, site: string, catalogue: Result<seq<Item>, FetchError>) returns (stop: Stop, consumed: nat)
      requires Valid()
      requires forall j :: 0 <= j < |events| ==> events[j].maxX >= 1
      modifies this, ui
      ensures Valid()
      ensures consumed <= |events|
      ensures stop.OutOfInput? ==> consumed == |events|
      ensures !stop.OutOfInput? ==> consumed >= 1
      ensures stop.Quitted? ==> && Actions(Initial, KeysOf(events)[..consumed]) == Actions(Initial, KeysOf(events)[..consumed - 1]) + [Quit]
                                && Quit !in Actions(Initial, KeysOf(events)[..consumed - 1])
      ensures !stop.Quitted? ==> Quit !in Actions(Initial, KeysOf(events)[..consumed])
    {
      var keys := KeysOf(events);
      var s := Initial;
      var i := 0;
      while i < |events|
        invariant 0 <= i <= |events|
        invariant Valid()
        invariant s == Replay(Initial, keys[..i])
        invariant Quit !in Actions(Initial, keys[..i])
      {
        var e := events[i];
        var r := React(s, e.key);
        ReplayNextKey(keys, i);
        consumed := i + 1;
        if r.action == Quit {
          assert keys[..consumed - 1] == keys[..i];
          return Quitted, consumed;
        }
        assert Quit !in Actions(Initial, keys[..consumed]);
        var fault := Dispatch(r.action, r.bar, e.maxY, e.maxX, site, catalogue);
        if fault.Some? {
          return Crashed(fault.value), consumed;
        }
        assert Replay(Initial, keys[..i + 1]) == r.next;
        s := r.next;
        i := i + 1;
      }
      assert keys[..i] == keys;
      stop, consumed := OutOfInput, |events|;
    }
  }
}
