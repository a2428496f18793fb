/**
 * The earlier, stand-alone Codeforces tool: it builds a sorted list of
 * contest items once, then runs a key loop that only keeps a repeat count
 * and the last three keys and calls a movement stub.
 */
module DraftTool {
  import opened Wrappers
  import opened Text
  import opened CursesUI
  import opened Containers
  import opened Catalogue
  import opened Keys

  /** ProblemItem: the fields read from a merged problem record. */
  datatype ProblemItem = ProblemItem(index: string, name: string, solvedCount: int)

  /** ContestItem: a contest id and its problem items; `expanded` is set to false and never read. */
  datatype ContestItem = ContestItem(contestId: int, problems: seq<ProblemItem>, expanded: bool)

  /** ProblemItem(problem): KeyError (None) when the record never got a solvedCount. */
  function ToProblemItem(r: ProblemRecord): (p: Option<ProblemItem>)
    ensures p.Some? <==> r.solvedCount.Some?
    ensures p.Some? ==> p.value == ProblemItem(r.index, r.name, r.solvedCount.value)
  {
    match r.solvedCount
    case None => None
    case Some(n) => Some(ProblemItem(r.index, r.name, n))
  }

  function ProblemKey(p: ProblemItem): Key {
    StringKey(p.index)
  }

  function ContestKey(c: ContestItem): Key {
    [c.contestId]
  }

  /** Every problem of one contest has a solvedCount. */
  predicate AllSolved(problems: Dict<string, ProblemRecord>)
    requires WellFormed(problems)
  {
    forall j :: 0 <= j < |problems.keys| ==> problems.entries[problems.keys[j]].solvedCount.Some?
  }

  /** The problem items of one contest, in the order the problems were first grouped. */
  function ProblemItems(problems: Dict<string, ProblemRecord>): (r: seq<ProblemItem>)
    requires WellFormed(problems)
    requires AllSolved(problems)
    ensures |r| == |problems.keys|
    ensures forall j :: 0 <= j < |r| ==> Some(r[j]) == ToProblemItem(problems.entries[problems.keys[j]])
  {
    seq(|problems.keys|, j requires 0 <= j < |problems.keys| => ToProblemItem(problems.entries[problems.keys[j]]).value)
  }

  /** Building the ProblemItems of one contest: the items, or None for the KeyError of a problem without a solvedCount. */
  method ContestProblems(problems: Dict<string, ProblemRecord>) returns (r: Option<seq<ProblemItem>>)
    requires WellFormed(problems)
    ensures r.Some? <==> AllSolved(problems)
    ensures r.Some? ==> r.value == ProblemItems(problems)
  {
    var items: seq<ProblemItem> := [];
    for j := 0 to |problems.keys|
      invariant |items| == j
      invariant forall k :: 0 <= k < j ==> Some(items[k]) == ToProblemItem(problems.entries[problems.keys[k]])
    {
      var p := ToProblemItem(problems.entries[problems.keys[j]]);
      if p.None? {
        return None;
      }
      items := items + [p.value];
    }
    r := Some(items);
  }

  /** Every contest of cs has all its solvedCounts. */
  ghost predicate AllContestsSolved(cs: Contests)
    requires ContestsWellFormed(cs)
  {
    forall i :: 0 <= i < |cs.keys| ==> cs.keys[i] in cs.entries && WellFormed(cs.entries[cs.keys[i]]) && AllSolved(cs.entries[cs.keys[i]])
  }

  /** The item is one of cs's contests, holding that contest's problem items in some order. */
  ghost predicate HoldsContest(cs: Contests, item: ContestItem)
    requires ContestsWellFormed(cs)
  {
    && item.contestId in cs.entries
    && AllSolved(cs.entries[item.contestId])
    && multiset(item.problems) == multiset(ProblemItems(cs.entries[item.contestId]))
  }

  /** One ContestItem per contest, in the order the contests were first grouped, or None for a missing solvedCount. */
  method BuildContestItems(cs: Contests) returns (r: Option<seq<ContestItem>>)
    requires ContestsWellFormed(cs)
    ensures r.Some? <==> AllContestsSolved(cs)
    ensures r.Some? ==> && |r.value| == |cs.keys|
                        && forall k :: 0 <= k < |cs.keys| ==>
                             r.value[k] == ContestItem(cs.keys[k], ProblemItems(cs.entries[cs.keys[k]]), false)
  {
    forall k | 0 <= k < |cs.keys|
      ensures cs.keys[k] in cs.entries && WellFormed(cs.entries[cs.keys[k]])
    {
      var c := cs.keys[k];
      assert c in cs.entries;
      assert WellFormed(cs.entries[c]);
    }
    var unsorted: seq<ContestItem> := [];
    for i := 0 to |cs.keys|
      invariant |unsorted| == i
      invariant forall k :: 0 <= k < i ==> AllSolved(cs.entries[cs.keys[k]])
      invariant forall k :: 0 <= k < i ==> unsorted[k] == ContestItem(cs.keys[k], ProblemItems(cs.entries[cs.keys[k]]), false)
    {
      var c := cs.keys[i];
      var items := ContestProblems(cs.entries[c]);
      if items.None? {
        return None;
      }
      unsorted := unsorted + [ContestItem(c, items.value, false)];
    }
    r := Some(unsorted);
  }

  /** `for contest_item in contests: contest_item.sort(key=key_index)`: each contest's problems sorted, nothing else changed. */
  method SortEachContest(contests: seq<ContestItem>) returns (sorted: seq<ContestItem>)
    ensures |sorted| == |contests|
    ensures forall k :: 0 <= k < |sorted| ==> && sorted[k] == contests[k].(problems := sorted[k].problems)
                                               && SortedBy(sorted[k].problems, ProblemKey)
                                               && multiset(sorted[k].problems) == multiset(contests[k].problems)
  {
    sorted := [];
    for i := 0 to |contests|
      invariant |sorted| == i
      invariant forall k :: 0 <= k < i ==> sorted[k] == contests[k].(problems := sorted[k].problems)
      invariant forall k :: 0 <= k < i ==> SortedBy(sorted[k].problems, ProblemKey)
      invariant forall k :: 0 <= k < i ==> multiset(sorted[k].problems) == multiset(contests[k].problems)
    {
      var problems := SortBy(contests[i].problems, ProblemKey);
      sorted := sorted + [contests[i].(problems := problems)];
    }
  }

  /**
   * Tool.__init__ after get_contests: one unexpanded ContestItem per
   * contest, the contests sorted by contest id and then each contest's
   * problems sorted by index; or the KeyError (None) of a problem without a
   * solvedCount.
   */
  method DraftContests(cs: Contests) returns (r: Option<seq<ContestItem>>)
    requires ContestsWellFormed(cs)
    ensures r.Some? <==> AllContestsSolved(cs)
    ensures r.Some? ==> && |r.value| == |cs.keys|
                        && SortedBy(r.value, ContestKey)
                        && (forall c :: c in cs.entries ==> exists i :: 0 <= i < |r.value| && r.value[i].contestId == c)
    ensures r.Some? ==> forall i :: 0 <= i < |r.value| ==>
                          && HoldsContest(cs, r.value[i])
                          && !r.value[i].expanded
                          && SortedBy(r.value[i].problems, ProblemKey)
  {
    var unsorted := BuildContestItems(cs);
    if unsorted.None? {
      return None;
    }
    var contests := SortBy(unsorted.value, ContestKey);
    var sorted := SortEachContest(contests);
    EveryContestListed(cs, unsorted.value, contests, sorted);
    EachItemHoldsContest(cs, unsorted.value, contests, sorted);
    assert SortedBy(sorted, ContestKey) by {
      assert forall i :: 0 <= i < |sorted| ==> ContestKey(sorted[i]) == ContestKey(contests[i]);
    }
    r := Some(sorted);
  }

  /** After both sorts every contest of cs still has an item. */
  lemma EveryContestListed(cs: Contests, unsorted: seq<ContestItem>, contests: seq<ContestItem>, sorted: seq<ContestItem>)
    requires ContestsWellFormed(cs) && AllContestsSolved(cs)
    requires |unsorted| == |cs.keys|
    requires forall k :: 0 <= k < |cs.keys| ==> unsorted[k] == ContestItem(cs.keys[k], ProblemItems(cs.entries[cs.keys[k]]), false)
    requires multiset(contests) == multiset(unsorted)
    requires |sorted| == |contests|
    requires forall k :: 0 <= k < |sorted| ==> && sorted[k] == contests[k].(problems := sorted[k].problems)
                                                && multiset(sorted[k].problems) == multiset(contests[k].problems)
    ensures forall c :: c in cs.entries ==> exists i :: 0 <= i < |sorted| && sorted[i].contestId == c
  {
    assert |multiset(contests)| == |multiset(unsorted)|;
    forall c | c in cs.entries
      ensures exists i :: 0 <= i < |sorted| && sorted[i].contestId == c
    {
      var k :| 0 <= k < |cs.keys| && cs.keys[k] == c;
      assert unsorted[k].contestId == c;
      assert unsorted[k] in multiset(contests);
      var i :| 0 <= i < |contests| && contests[i] == unsorted[k];
      assert sorted[i].contestId == contests[i].contestId;
    }
  }

  /** After both sorts each item is an unexpanded item of one of cs's contests, holding its problems. */
  lemma EachItemHoldsContest(cs: Contests, unsorted: seq<ContestItem>, contests: seq<ContestItem>, sorted: seq<ContestItem>)
    requires ContestsWellFormed(cs) && AllContestsSolved(cs)
    requires |unsorted| == |cs.keys|
    requires forall k :: 0 <= k < |cs.keys| ==> unsorted[k] == ContestItem(cs.keys[k], ProblemItems(cs.entries[cs.keys[k]]), false)
    requires multiset(contests) == multiset(unsorted)
    requires |sorted| == |contests|
    requires forall k :: 0 <= k < |sorted| ==> && sorted[k] == contests[k].(problems := sorted[k].problems)
                                                && multiset(sorted[k].problems) == multiset(contests[k].problems)
    ensures |sorted| == |cs.keys|
    ensures forall i :: 0 <= i < |sorted| ==> HoldsContest(cs, sorted[i]) && !sorted[i].expanded
  {
    assert |multiset(contests)| == |multiset(unsorted)|;
    forall i | 0 <= i < |sorted|
      ensures HoldsContest(cs, sorted[i]) && !sorted[i].expanded
    {
      assert contests[i] in multiset(unsorted);
      var k :| 0 <= k < |unsorted| && unsorted[k] == contests[i];
      SortedItemFromKey(cs, k, contests[i], sorted[i]);
    }
  }

  lemma SortedItemFromKey(cs: Contests, k: nat, item: ContestItem, sortedItem: ContestItem)
    requires ContestsWellFormed(cs) && AllContestsSolved(cs)
    requires k < |cs.keys| && item == ContestItem(cs.keys[k], ProblemItems(cs.entries[cs.keys[k]]), false)
    requires sortedItem == item.(problems := sortedItem.problems)
    requires multiset(sortedItem.problems) == multiset(item.problems)
    ensures HoldsContest(cs, sortedItem)
  {
  }

  /** The draft loop's variables: the repeat count and the last three keys, newest first. */
  datatype DraftState = DraftState(count: nat, history: seq<KeyCode>)

  const DraftInitial := DraftState(0, [])

  /**
   * Tool._move: every infinite or non-zero step takes a branch that does
   * nothing yet; a zero step raises RuntimeError (false).
   */
  function DraftMove(step: Step): (ok: bool)
    ensures ok <==> step != Finite(0)
  {
    match step
    case ToEnd => true
    case ToStart => true
    case Finite(n) => if n > 0 then true else if n < 0 then true else false
  }

  /** One key of the draft loop: go on with new variables (and the step passed to _move, if any), stop on q, or raise. */
  datatype DraftTurn =
    | Continued(next: DraftState, moved: Option<Step>)
    | Ended
    | RaisedIndexError   // history[0] on an empty deque
    | RaisedRuntimeError // _move(0)

  /** The step a key passes to _move, before the count is reset. */
  function DraftStep(count: nat, c: KeyCode): (r: Option<Step>)
    ensures r.Some? ==> r.value != Finite(0)
    ensures r.Some? <==> || c == Ord('j') || c == KeyDown || c == Ord('k') || c == KeyUp || c == KeyNextPage
                         || c == KeyPreviousPage || c == KeyHome || c == Ord('g') || c == KeyEnd || c == Ord('G')
    ensures c == Ord('j') || c == KeyDown ==> r == Some(Finite(Repeat(count, 1)))
    ensures c == Ord('k') || c == KeyUp ==> r == Some(Finite(Repeat(count, -1)))
    ensures c == KeyNextPage ==> r == Some(Finite(Repeat(count, 10)))
    ensures c == KeyPreviousPage ==> r == Some(Finite(Repeat(count, -10)))
    ensures c == KeyHome || c == Ord('g') ==> r == Some(ToStart)
    ensures c == KeyEnd || c == Ord('G') ==> r == Some(ToEnd)
    ensures r.Some? && r.value.Finite? ==> (r.value.n > 0 <==> c == Ord('j') || c == KeyDown || c == KeyNextPage)
  {
    if c == Ord('j') || c == KeyDown then Some(Finite(Repeat(count, 1)))
    else if c == Ord('k') || c == KeyUp then Some(Finite(Repeat(count, -1)))
    else if c == KeyNextPage then Some(Finite(Repeat(count, 10)))
    else if c == KeyPreviousPage then Some(Finite(Repeat(count, -10)))
    else if c == KeyHome || c == Ord('g') then Some(ToStart)
    else if c == KeyEnd || c == Ord('G') then Some(ToEnd)
    else None
  }

  /**
   * One iteration of the draft Tool.main.  The jump to the top is guarded by
   * `c == KEY_HOME or c == ord("g") and history[0] == ord("g")`, which
   * reads history[0] for every g, even when the deque is empty.
   */
  function DraftReact(s: DraftState, c: KeyCode): (t: DraftTurn)
    ensures t == RaisedIndexError <==> c == Ord('g') && s.history == []
    ensures t != RaisedRuntimeError
    ensures t == Ended <==> c == Ord('q')
    ensures Ord('0') <= c <= Ord('9') ==> t == Continued(DraftState(10 * s.count + (c - Ord('0')), Remember(s.history, c)), None)
    ensures c == KeyResize ==> t == Continued(s, None)
    ensures t.Continued? && !(Ord('0') <= c <= Ord('9')) && c != KeyResize ==> t.next == DraftState(0, Remember(s.history, c))
    ensures t.Continued? && t.moved.Some? ==> DraftMove(t.moved.value)
    ensures t.Continued? && (Ord('0') <= c <= Ord('9') || c == KeyResize) ==> t.moved == None
    ensures t.Continued? && !(Ord('0') <= c <= Ord('9')) && c != KeyResize ==>
              t.moved == (if c == Ord('g') && s.history[0] != Ord('g') then None else DraftStep(s.count, c))
  {
    if Ord('0') <= c <= Ord('9') then
      Continued(DraftState(10 * s.count + (c - Ord('0')), Remember(s.history, c)), None)
    else if c == KeyResize then
      Continued(s, None)
    else if c == Ord('g') && s.history == [] then
      RaisedIndexError
    else if c == Ord('q') then
      Ended
    else
      var step := if c == Ord('g') && s.history[0] != Ord('g') then None else DraftStep(s.count, c);
      if step.Some? && !DraftMove(step.value) then RaisedRuntimeError
      else Continued(DraftState(0, Remember(s.history, c)), step)
  }

  /** How a run of keys ends. */
  datatype DraftEnd = Quitted | Raised(turn: DraftTurn) | OutOfKeys(state: DraftState)

  /** The draft loop over a run of keys, from state s. */
  function DraftRun(s: DraftState, keys: seq<KeyCode>): DraftEnd
    decreases |keys|
  {
    if keys == [] then OutOfKeys(s)
    else match DraftReact(s, keys[0])
      case Continued(next, _) => DraftRun(next, keys[1..])
      case Ended => Quitted
      case t => Raised(t)
  }

  /** The draft Tool.main loop over a finite run of keys. */
  method RunDraft(keys: seq<KeyCode>) returns (e: DraftEnd)
    ensures e == DraftRun(DraftInitial, keys)
  {
    var s := DraftInitial;
    var i := 0;
    while i < |keys|
      invariant 0 <= i <= |keys|
      invariant DraftRun(s, keys[i..]) == DraftRun(DraftInitial, keys)
    {
      var t := DraftReact(s, keys[i]);
      assert keys[i..][1..] == keys[i + 1..];
      match t {
        case Continued(next, _) =>
          s := next;
        case Ended =>
          return Quitted;
        case _ =>
          return Raised(t);
      }
      i := i + 1;
    }
    e := OutOfKeys(s);
  }

  /** The deque after remembering the keys in order. */
  function DraftHistory(keys: seq<KeyCode>): (h: seq<KeyCode>)
    ensures |h| <= 3
    ensures keys != [] ==> |h| >= 1 && h[0] == keys[|keys| - 1]
  {
    if keys == [] then [] else Remember(DraftHistory(keys[..|keys| - 1]), keys[|keys| - 1])
  }

  /** Digits typed first build the count as the decimal number they spell, and are remembered. */
  lemma DraftDigitsSpellCount(keys: seq<KeyCode>, rest: seq<KeyCode>)
    requires AllDigitKeys(keys)
    ensures AllDigits(Chars(keys))
    ensures DraftRun(DraftInitial, keys + rest) == DraftRun(DraftState(ParseNat(Chars(keys)), DraftHistory(keys)), rest)
  {
    DraftDigitsRun(DraftInitial, keys, rest);
    DraftDigitsFromStart(keys);
  }

  /** The variables after a digit key. */
  function DraftDigit(s: DraftState, d: KeyCode): DraftState
    requires Ord('0') <= d <= Ord('9')
  {
    DraftState(10 * s.count + (d - Ord('0')), Remember(s.history, d))
  }

  /** The variables after a run of digit keys. */
  function DraftAfterDigits(s: DraftState, keys: seq<KeyCode>): DraftState
    requires AllDigitKeys(keys)
    decreases |keys|
  {
    if keys == [] then s else DraftAfterDigits(DraftDigit(s, keys[0]), keys[1..])
  }

  /** Digit keys only change the loop's variables, each as DraftDigit says. */
  lemma {:induction false} DraftDigitsRun(s: DraftState, keys: seq<KeyCode>, rest: seq<KeyCode>)
    requires AllDigitKeys(keys)
    ensures DraftRun(s, keys + rest) == DraftRun(DraftAfterDigits(s, keys), rest)
    decreases |keys|
  {
    if keys == [] {
      assert keys + rest == rest;
    } else {
      assert keys + rest == [keys[0]] + (keys[1..] + rest);
      DraftRunContinues(s, keys[0], keys[1..] + rest);
      DraftDigitsRun(DraftDigit(s, keys[0]), keys[1..], rest);
    }
  }

  /** A last digit is applied after the ones before it. */
  lemma {:induction false} DraftAfterDigitsSnoc(s: DraftState, init: seq<KeyCode>, last: KeyCode)
    requires AllDigitKeys(init) && Ord('0') <= last <= Ord('9')
    ensures DraftAfterDigits(s, init + [last]) == DraftDigit(DraftAfterDigits(s, init), last)
    decreases |init|
  {
    if init == [] {
      assert ([] + [last])[1..] == [];
    } else {
      assert (init + [last])[1..] == init[1..] + [last];
      DraftAfterDigitsSnoc(DraftDigit(s, init[0]), init[1..], last);
    }
  }

  /** From the start, digits give the count they spell and the history of those keys. */
  lemma {:induction false} DraftDigitsFromStart(keys: seq<KeyCode>)
    requires AllDigitKeys(keys)
    ensures AllDigits(Chars(keys))
    ensures DraftAfterDigits(DraftInitial, keys) == DraftState(ParseNat(Chars(keys)), DraftHistory(keys))
    decreases |keys|
  {
    if keys != [] {
      var init, last := keys[..|keys| - 1], keys[|keys| - 1];
      assert keys == init + [last];
      DraftDigitsFromStart(init);
      DraftAfterDigitsSnoc(DraftInitial, init, last);
      var cs := Chars(keys);
      assert cs[..|keys| - 1] == Chars(init);
      assert ParseNat(cs) == 10 * ParseNat(Chars(init)) + (last - Ord('0'));
      assert DraftHistory(keys) == Remember(DraftHistory(init), last);
    }
  }

  /** A key that lets the loop go on leaves the rest of the run to the next state. */
  lemma DraftRunContinues(s: DraftState, c: KeyCode, rest: seq<KeyCode>)
    requires DraftReact(s, c).Continued?
    ensures DraftRun(s, [c] + rest) == DraftRun(DraftReact(s, c).next, rest)
  {
    var keys := [c] + rest;
    assert keys[0] == c && keys[1..] == rest;
  }

  /** The loop quits only on a q, and a run without a q that raises nothing uses up every key. */
  lemma {:induction false} DraftQuitsOnlyOnQ(s: DraftState, keys: seq<KeyCode>)
    ensures DraftRun(s, keys).Quitted? ==> Ord('q') in keys
    ensures Ord('q') !in keys && !DraftRun(s, keys).Raised? ==> DraftRun(s, keys).OutOfKeys?
    decreases |keys|
  {
    if keys != [] {
      match DraftReact(s, keys[0])
      case Continued(next, _) =>
        DraftQuitsOnlyOnQ(next, keys[1..]);
        assert keys == [keys[0]] + keys[1..];
      case _ =>
    }
  }

  /** q ends the draft loop whatever came before it. */
  lemma DraftQuitsOnQ(s: DraftState, rest: seq<KeyCode>)
    ensures DraftRun(s, [Ord('q')] + rest) == Quitted
  {
  }

  /**
   * The keys of the loop never pass a zero step to _move, so its
   * RuntimeError cannot be reached: a run ends by q, by the IndexError of a
   * g, or with the keys.
   */
  lemma {:induction false} DraftNeverRaisesRuntimeError(s: DraftState, keys: seq<KeyCode>)
    ensures DraftRun(s, keys) != Raised(RaisedRuntimeError)
    ensures DraftRun(s, keys).Raised? ==> exists i :: 0 <= i < |keys| && keys[i] == Ord('g')
    decreases |keys|
  {
    if keys != [] {
      match DraftReact(s, keys[0])
      case Continued(next, _) =>
        DraftNeverRaisesRuntimeError(next, keys[1..]);
        if DraftRun(s, keys).Raised? {
          var i :| 0 <= i < |keys[1..]| && keys[1..][i] == Ord('g');
          assert keys[i + 1] == Ord('g');
        }
      case _ =>
    }
  }

  /** A g as the very first key raises IndexError: history[0] is read from the empty deque. */
  lemma FirstKeyGRaises(rest: seq<KeyCode>)
    ensures DraftRun(DraftInitial, [Ord('g')] + rest) == Raised(RaisedIndexError)
  {
  }
}
