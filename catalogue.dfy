/**
 * Building the Codeforces catalogue from the decoded problemset.problems
 * answer: problems grouped by contest id and problem index in a nested dict,
 * solvedCount merged in from the statistics, one container per contest, and
 * the contests sorted.  The HTTP request and the JSON decoding are not part
 * of this module: it starts from the decoded lists of records.
 */
module Catalogue {
  import opened Wrappers
  import opened Text
  import opened Containers

  /** A Python dict: its keys in insertion order and what each key maps to. */
  datatype Dict<K(==,!new), V> = Dict(keys: seq<K>, entries: map<K, V>)

  /** The dict invariant: each key once, and the ordered keys are exactly the mapped ones. */
  ghost predicate WellFormed<K(!new), V>(d: Dict<K, V>) {
    && (forall i, j :: 0 <= i < j < |d.keys| ==> d.keys[i] != d.keys[j])
    && (forall k :: k in d.entries <==> k in d.keys)
    && (forall i :: 0 <= i < |d.keys| ==> d.keys[i] in d.entries)
  }

  /** d[k] = v: a new key goes last, an existing key keeps its place and gets the new value. */
  function Put<K(==,!new), V>(d: Dict<K, V>, k: K, v: V): (r: Dict<K, V>)
    requires WellFormed(d)
    ensures WellFormed(r)
    ensures r.entries == d.entries[k := v]
    ensures k in d.entries ==> r.keys == d.keys
    ensures k !in d.entries ==> r.keys == d.keys + [k]
  {
    if k in d.entries then Dict(d.keys, d.entries[k := v]) else Dict(d.keys + [k], d.entries[k := v])
  }

  /** contests: contest id -> problem index -> problem record. */
  type Contests = Dict<int, Dict<string, ProblemRecord>>

  ghost predicate ContestsWellFormed(cs: Contests) {
    WellFormed(cs) && forall c :: c in cs.entries ==> WellFormed(cs.entries[c])
  }

  const NoContests: Contests := Dict([], map[])

  /** contests[contest_id][index], when both keys are present. */
  function Lookup(cs: Contests, contestId: int, index: string): Option<ProblemRecord> {
    if contestId in cs.entries && index in cs.entries[contestId].entries
    then Some(cs.entries[contestId].entries[index])
    else None
  }

  /** contests[p.contestId][p.index] = p on a defaultdict(dict). */
  function AddProblem(cs: Contests, p: ProblemRecord): (r: Contests)
    requires ContestsWellFormed(cs)
    ensures ContestsWellFormed(r)
  {
    var inner := if p.contestId in cs.entries then cs.entries[p.contestId] else Dict([], map[]);
    Put(cs, p.contestId, Put(inner, p.index, p))
  }

  /** The dict the grouping loop has built after the given problems. */
  function Grouped(problems: seq<ProblemRecord>): (r: Contests)
    ensures ContestsWellFormed(r)
  {
    if problems == [] then NoContests
    else AddProblem(Grouped(problems[..|problems| - 1]), problems[|problems| - 1])
  }

  /** The last problem of the list with the given contest id and index. */
  function LastWithKey(problems: seq<ProblemRecord>, contestId: int, index: string): Option<ProblemRecord> {
    if problems == [] then None
    else
      var p := problems[|problems| - 1];
      if p.contestId == contestId && p.index == index then Some(p)
      else LastWithKey(problems[..|problems| - 1], contestId, index)
  }

  /** Some problem with the given key is listed. */
  ghost predicate Listed(problems: seq<ProblemRecord>, contestId: int, index: string) {
    exists j :: 0 <= j < |problems| && problems[j].contestId == contestId && problems[j].index == index
  }

  lemma {:induction false} LastWithKeyFound(problems: seq<ProblemRecord>, contestId: int, index: string)
    ensures LastWithKey(problems, contestId, index).Some? <==> Listed(problems, contestId, index)
  {
    if problems != [] {
      var init := problems[..|problems| - 1];
      var last := |problems| - 1;
      if problems[last].contestId == contestId && problems[last].index == index {
        assert Listed(problems, contestId, index);
      } else {
        LastWithKeyFound(init, contestId, index);
        assert Listed(problems, contestId, index) ==> Listed(init, contestId, index) by {
          if Listed(problems, contestId, index) {
            var j :| 0 <= j < |problems| && problems[j].contestId == contestId && problems[j].index == index;
            assert init[j] == problems[j];
          }
        }
        assert Listed(init, contestId, index) ==> Listed(problems, contestId, index) by {
          if Listed(init, contestId, index) {
            var j :| 0 <= j < |init| && init[j].contestId == contestId && init[j].index == index;
            assert problems[j] == init[j];
          }
        }
      }
    }
  }

  /**
   * After grouping, each (contest id, index) holds the last problem listed
   * with that key, and no other key is present.
   */
  lemma {:induction false} GroupedHoldsLastProblem(problems: seq<ProblemRecord>, contestId: int, index: string)
    ensures Lookup(Grouped(problems), contestId, index) == LastWithKey(problems, contestId, index)
  {
    if problems != [] {
      GroupedHoldsLastProblem(problems[..|problems| - 1], contestId, index);
    }
  }

  /** The grouping loop of get_catalogue. */
  method GroupProblems(problems: seq<ProblemRecord>) returns (contests: Contests)
    ensures contests == Grouped(problems)
  {
    contests := NoContests;
    for i := 0 to |problems|
      invariant contests == Grouped(problems[..i])
    {
      assert problems[..i + 1][..i] == problems[..i];
      var p := problems[i];
      var inner := if p.contestId in contests.entries then contests.entries[p.contestId] else Dict([], map[]);
      contests := Put(contests, p.contestId, Put(inner, p.index, p));
    }
    assert problems[..|problems|] == problems;
  }

  /** One entry of problemStatistics. */
  datatype Statistic = Statistic(contestId: int, index: string, solvedCount: int)

  /** The exceptions get_catalogue raises while building. */
  datatype CatalogueError =
    | LengthMismatch                              // the assert on the two list lengths
    | MissingProblem(contestId: int, index: string) // KeyError: a statistic for an unknown problem

  /** contests[contest_id][index]["solvedCount"] = solved_count, or the KeyError. */
  function SetSolved(cs: Contests, st: Statistic): (r: Result<Contests, CatalogueError>)
    requires ContestsWellFormed(cs)
    ensures r.Ok? <==> Lookup(cs, st.contestId, st.index).Some?
    ensures r.Err? ==> r.error == MissingProblem(st.contestId, st.index)
    ensures r.Ok? ==> ContestsWellFormed(r.value) && r.value.keys == cs.keys
    ensures r.Ok? ==> forall c, x :: (Lookup(r.value, c, x) ==
      if c == st.contestId && x == st.index
      then Some(Lookup(cs, c, x).value.(solvedCount := Some(st.solvedCount)))
      else Lookup(cs, c, x))
  {
    match Lookup(cs, st.contestId, st.index)
    case None => Err(MissingProblem(st.contestId, st.index))
    case Some(p) =>
      var inner := cs.entries[st.contestId];
      Ok(Put(cs, st.contestId, Put(inner, st.index, p.(solvedCount := Some(st.solvedCount)))))
  }

  /** The dict after the statistics loop, or the first KeyError it raises. */
  function MergedAll(cs: Contests, stats: seq<Statistic>): (r: Result<Contests, CatalogueError>)
    requires ContestsWellFormed(cs)
    ensures r.Ok? ==> ContestsWellFormed(r.value) && r.value.keys == cs.keys
    ensures r.Ok? ==> forall c, x :: Lookup(r.value, c, x).Some? <==> Lookup(cs, c, x).Some?
  {
    if stats == [] then Ok(cs)
    else
      match MergedAll(cs, stats[..|stats| - 1])
      case Err(e) => Err(e)
      case Ok(merged) => SetSolved(merged, stats[|stats| - 1])
  }

  /** The solved count of the last statistic with the given key. */
  function LastSolved(stats: seq<Statistic>, contestId: int, index: string): Option<int> {
    if stats == [] then None
    else
      var st := stats[|stats| - 1];
      if st.contestId == contestId && st.index == index then Some(st.solvedCount)
      else LastSolved(stats[..|stats| - 1], contestId, index)
  }

  /** The record a problem has after the merge: the last matching statistic's count, if any. */
  function WithSolved(p: ProblemRecord, stats: seq<Statistic>): ProblemRecord {
    match LastSolved(stats, p.contestId, p.index)
    case None => p
    case Some(n) => p.(solvedCount := Some(n))
  }

  /** What contests[c][x] holds after a successful merge. */
  function MergedLookup(cs: Contests, stats: seq<Statistic>, contestId: int, index: string): Option<ProblemRecord> {
    match Lookup(cs, contestId, index)
    case None => None
    case Some(p) => Some(WithSolved(p, stats))
  }

  /** Every statistic names a problem present in the dict. */
  ghost predicate AllKnown(cs: Contests, stats: seq<Statistic>) {
    forall i :: 0 <= i < |stats| ==> Lookup(cs, stats[i].contestId, stats[i].index).Some?
  }

  /** The statistics are all known exactly when those before the last one are and the last one is. */
  lemma AllKnownLast(cs: Contests, stats: seq<Statistic>)
    requires stats != []
    ensures var st := stats[|stats| - 1];
            AllKnown(cs, stats) <==> AllKnown(cs, stats[..|stats| - 1]) && Lookup(cs, st.contestId, st.index).Some?
  {
    var init := stats[..|stats| - 1];
    assert forall i :: 0 <= i < |init| ==> init[i] == stats[i];
  }

  /** The merge succeeds exactly when every statistic names a grouped problem. */
  lemma {:induction false} MergeSucceedsIffAllKnown(cs: Contests, stats: seq<Statistic>)
    requires ContestsWellFormed(cs)
    ensures MergedAll(cs, stats).Ok? <==> AllKnown(cs, stats)
  {
    if stats != [] {
      var init := stats[..|stats| - 1];
      var st := stats[|stats| - 1];
      MergeSucceedsIffAllKnown(cs, init);
      AllKnownLast(cs, stats);
      match MergedAll(cs, init)
      case Err(_) =>
      case Ok(merged) =>
        assert Lookup(merged, st.contestId, st.index).Some? <==> Lookup(cs, st.contestId, st.index).Some?;
    }
  }

  /** Every record of the dict is filed under its own contest id and index. */
  ghost predicate FiledByKey(cs: Contests) {
    forall c, x :: Lookup(cs, c, x).Some? ==> Lookup(cs, c, x).value.contestId == c && Lookup(cs, c, x).value.index == x
  }

  lemma GroupedIsFiledByKey(problems: seq<ProblemRecord>)
    ensures FiledByKey(Grouped(problems))
  {
    forall c, x | Lookup(Grouped(problems), c, x).Some?
      ensures Lookup(Grouped(problems), c, x).value.contestId == c && Lookup(Grouped(problems), c, x).value.index == x
    {
      GroupedHoldsLastProblem(problems, c, x);
      LastWithKeyMatches(problems, c, x);
    }
  }

  lemma {:induction false} LastWithKeyMatches(problems: seq<ProblemRecord>, contestId: int, index: string)
    ensures LastWithKey(problems, contestId, index).Some? ==>
              LastWithKey(problems, contestId, index).value.contestId == contestId &&
              LastWithKey(problems, contestId, index).value.index == index
  {
    if problems != [] {
      LastWithKeyMatches(problems[..|problems| - 1], contestId, index);
    }
  }

  /** After a successful merge each problem carries the solved count of the last statistic naming it. */
  lemma {:induction false} MergeSetsLastSolvedCount(cs: Contests, stats: seq<Statistic>, c: int, x: string)
    requires ContestsWellFormed(cs) && FiledByKey(cs)
    requires MergedAll(cs, stats).Ok?
    ensures Lookup(MergedAll(cs, stats).value, c, x) == MergedLookup(cs, stats, c, x)
  {
    if stats != [] {
      var init := stats[..|stats| - 1];
      var st := stats[|stats| - 1];
      MergeSetsLastSolvedCount(cs, init, c, x);
    }
  }

  /** The statistics loop of get_catalogue: the merged dict, or the KeyError. */
  method MergeSolvedCounts(cs: Contests, stats: seq<Statistic>) returns (r: Result<Contests, CatalogueError>)
    requires ContestsWellFormed(cs)
    ensures r == MergedAll(cs, stats)
  {
    var merged := cs;
    for i := 0 to |stats|
      invariant MergedAll(cs, stats[..i]) == Ok(merged)
    {
      assert stats[..i + 1][..i] == stats[..i];
      var st := stats[i];
      match Lookup(merged, st.contestId, st.index) {
        case None =>
          MergedErrorPersists(cs, stats, i + 1);
          return Err(MissingProblem(st.contestId, st.index));
        case Some(p) =>
          var inner := merged.entries[st.contestId];
          merged := Put(merged, st.contestId, Put(inner, st.index, p.(solvedCount := Some(st.solvedCount))));
      }
    }
    assert stats[..|stats|] == stats;
    r := Ok(merged);
  }

  /** Once the loop has raised, the remaining statistics do not change the outcome. */
  lemma {:induction false} MergedErrorPersists(cs: Contests, stats: seq<Statistic>, n: nat)
    requires ContestsWellFormed(cs) && n <= |stats|
    requires MergedAll(cs, stats[..n]).Err?
    ensures MergedAll(cs, stats) == MergedAll(cs, stats[..n])
    decreases |stats| - n
  {
    if n < |stats| {
      assert stats[..n + 1][..n] == stats[..n];
      MergedErrorPersists(cs, stats, n + 1);
    } else {
      assert stats[..n] == stats;
    }
  }

  // Sorting

  /** A sort key compared as Python compares ints (one element) and strings (code points). */
  type Key = seq<int>

  /** Lexicographic order on keys. */
  predicate KeyLe(a: Key, b: Key) {
    a == [] || (b != [] && (a[0] < b[0] || (a[0] == b[0] && KeyLe(a[1..], b[1..]))))
  }

  lemma {:induction false} KeyLeTotal(a: Key, b: Key)
    ensures KeyLe(a, b) || KeyLe(b, a)
  {
    if a != [] && b != [] && a[0] == b[0] {
      KeyLeTotal(a[1..], b[1..]);
    }
  }

  lemma {:induction false} KeyLeTransitive(a: Key, b: Key, c: Key)
    requires KeyLe(a, b) && KeyLe(b, c)
    ensures KeyLe(a, c)
  {
    if a != [] && b != [] && c != [] && a[0] == b[0] == c[0] {
      KeyLeTransitive(a[1..], b[1..], c[1..]);
    }
  }

  /** The key of a string: its code points in order, which is what Python's str ordering compares. */
  function StringKey(s: string): (k: Key)
    ensures |k| == |s|
    ensures forall i :: 0 <= i < |s| ==> k[i] == s[i] as int
  {
    seq(|s|, i requires 0 <= i < |s| => s[i] as int)
  }

  predicate SortedBy<T>(xs: seq<T>, key: T -> Key) {
    forall i, j :: 0 <= i < j < |xs| ==> KeyLe(key(xs[i]), key(xs[j]))
  }

  /** Insert x after every element whose key is not above its own (so equal keys keep their order). */
  function InsertSorted<T>(x: T, ys: seq<T>, key: T -> Key): (r: seq<T>)
    ensures |r| == |ys| + 1
    ensures multiset(r) == multiset(ys) + multiset{x}
  {
    if ys == [] then [x]
    else if KeyLe(key(ys[0]), key(x)) then
      assert ys == [ys[0]] + ys[1..];
      [ys[0]] + InsertSorted(x, ys[1..], key)
    else [x] + ys
  }

  lemma {:induction false} InsertSortedKeepsOrder<T>(x: T, ys: seq<T>, key: T -> Key)
    requires SortedBy(ys, key)
    ensures SortedBy(InsertSorted(x, ys, key), key)
  {
    if ys == [] {
    } else if KeyLe(key(ys[0]), key(x)) {
      var rest := InsertSorted(x, ys[1..], key);
      InsertSortedKeepsOrder(x, ys[1..], key);
      forall j | 0 <= j < |rest| ensures KeyLe(key(ys[0]), key(rest[j])) {
        assert rest[j] in multiset(rest);
        if rest[j] != x {
          assert rest[j] in multiset(ys[1..]);
          var k :| 0 <= k < |ys[1..]| && ys[1..][k] == rest[j];
          assert ys[k + 1] == rest[j];
        }
      }
      assert InsertSorted(x, ys, key) == [ys[0]] + rest;
    } else {
      KeyLeTotal(key(ys[0]), key(x));
      forall j | 0 < j < |ys| ensures KeyLe(key(x), key(ys[j])) {
        KeyLeTransitive(key(x), key(ys[0]), key(ys[j]));
      }
    }
  }

  /** list.sort(key=...): a sorted permutation. */
  method SortBy<T>(xs: seq<T>, key: T -> Key) returns (ys: seq<T>)
    ensures SortedBy(ys, key)
    ensures multiset(ys) == multiset(xs)
  {
    ys := [];
    for i := 0 to |xs|
      invariant SortedBy(ys, key)
      invariant multiset(ys) == multiset(xs[..i])
    {
      assert xs[..i + 1] == xs[..i] + [xs[i]];
      InsertSortedKeepsOrder(xs[i], ys, key);
      ys := InsertSorted(xs[i], ys, key);
    }
    assert xs[..|xs|] == xs;
  }

  /** The key of a container: its name, as Python compares it. */
  function NameKey(it: Item): Key {
    if it.Problem? then []
    else match it.name
      case ContestId(id) => [id]
      case Title(t) => StringKey(t)
  }

  /** ProblemContainer(..., name=contest_id) over the problems of one contest, in dict order. */
  function ContestContainer(contestId: int, problems: Dict<string, ProblemRecord>, render: ProblemRecord -> string): (r: Item)
    requires WellFormed(problems)
    ensures r.Container? && r.name == ContestId(contestId) && r.status.None?
    ensures |r.items| == |problems.keys|
    ensures forall j :: 0 <= j < |r.items| ==> r.items[j] == Problem(problems.entries[problems.keys[j]], render(problems.entries[problems.keys[j]]))
  {
    Container(ContestId(contestId),
      seq(|problems.keys|, j requires 0 <= j < |problems.keys| =>
        Problem(problems.entries[problems.keys[j]], render(problems.entries[problems.keys[j]]))),
      None)
  }

  /** One ProblemContainer per contest, in the order the contest ids were first grouped. */
  function ContestContainers(cs: Contests, render: ProblemRecord -> string): (r: seq<Item>)
    requires ContestsWellFormed(cs)
    ensures |r| == |cs.keys|
    ensures forall i :: 0 <= i < |r| ==> r[i] == ContestContainer(cs.keys[i], cs.entries[cs.keys[i]], render)
  {
    seq(|cs.keys|, i requires 0 <= i < |cs.keys| => ContestContainer(cs.keys[i], cs.entries[cs.keys[i]], render))
  }

  /**
   * get_catalogue once the response is decoded: the assertion on the
   * lengths, the KeyError for a statistic naming no listed problem, or the
   * Codeforces container holding one container per contest, sorted by
   * contest id.  `render` is the problem format string.
   */
  method GetCatalogue(problems: seq<ProblemRecord>, stats: seq<Statistic>, render: ProblemRecord -> string)
    returns (r: Result<Item, CatalogueError>)
    ensures r.Ok? <==> && |problems| == |stats|
                       && forall i :: 0 <= i < |stats| ==> Listed(problems, stats[i].contestId, stats[i].index)
    ensures |problems| != |stats| ==> r == Err(LengthMismatch)
    ensures r.Ok? ==> && r.value.Container?
                      && r.value.name == Title(CodeforcesName)
                      && r.value.status.None?
                      && SortedBy(r.value.items, NameKey)
                      && MergedAll(Grouped(problems), stats).Ok?
                      && multiset(r.value.items) == multiset(ContestContainers(MergedAll(Grouped(problems), stats).value, render))
  {
    if |problems| != |stats| {
      return Err(LengthMismatch);
    }
    var contests := GroupProblems(problems);
    var merged := MergeSolvedCounts(contests, stats);
    MergeSucceedsIffAllKnown(contests, stats);
    forall i | 0 <= i < |stats|
      ensures Lookup(contests, stats[i].contestId, stats[i].index).Some? <==> Listed(problems, stats[i].contestId, stats[i].index)
    {
      GroupedHoldsLastProblem(problems, stats[i].contestId, stats[i].index);
      LastWithKeyFound(problems, stats[i].contestId, stats[i].index);
    }
    if merged.Err? {
      return Err(merged.error);
    }
    var unsorted := ContestContainers(merged.value, render);
    var sorted := SortBy(unsorted, NameKey);
    r := Ok(Container(Title(CodeforcesName), sorted, None));
  }
}
