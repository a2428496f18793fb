/**
 * The entries the navigator lists: a ProblemContainer (a named list of
 * entries that remembers where its selection was) or a Problem (a decoded
 * problem record and its display text).
 */
module Containers {
  import opened Wrappers
  import opened Text
  import opened CursesUI

  /** CodeforcesClient.NAME, the name that selects the Codeforces client. */
  const CodeforcesName := "Codeforces"

  /** A container name: the text it was built with, or a contest id (a Python int). */
  datatype Name = Title(text: string) | ContestId(id: int)

  /** A problem record as the problemset.problems call decodes it; solvedCount is absent until merged. */
  datatype ProblemRecord = ProblemRecord(contestId: int, index: string, name: string, solvedCount: Option<int>)

  /**
   * A ProblemContainer (its name, its entries, and the status saved when it
   * was last left, None before that) or a Problem (its record, and the text
   * its format string produces, which the model treats as given).
   */
  datatype Item =
    | Container(name: Name, items: seq<Item>, status: Option<Status>)
    | Problem(record: ProblemRecord, text: string)

  /** str() of a name: the text itself, or the decimal numeral of the contest id. */
  function NameText(n: Name): string {
    match n
    case Title(t) => t
    case ContestId(id) => IntToString(id)
  }

  /** str() of an entry: "name (size)" for a container, the formatted text for a problem. */
  function Label(it: Item): (s: string)
    ensures it.Container? ==> IsPrefix(NameText(it.name) + " (", s) && s[|s| - 1] == ')'
    ensures it.Problem? ==> s == it.text
  {
    match it
    case Container(name, items, _) => NameText(name) + " (" + NatToString(|items|) + ")"
    case Problem(_, text) => text
  }

  /** The number of entries can be read back from a container's label. */
  lemma ContainerLabelShowsSize(it: Item)
    requires it.Container?
    ensures var s := Label(it);
            var digits := s[|NameText(it.name)| + 2 .. |s| - 1];
            AllDigits(digits) && ParseNat(digits) == |it.items|
  {
    var s := Label(it);
    assert s[|NameText(it.name)| + 2 .. |s| - 1] == NatToString(|it.items|);
    ParseNatToString(|it.items|);
  }

  /** The texts the curses UI shows for a list of entries. */
  function Labels(items: seq<Item>): (r: seq<string>)
    ensures |r| == |items|
    ensures forall i :: 0 <= i < |items| ==> r[i] == Label(items[i])
  {
    seq(|items|, i requires 0 <= i < |items| => Label(items[i]))
  }

  /** Problem.path: the relative path contestId/index, as its list of components. */
  function ProblemPath(r: ProblemRecord): (path: seq<string>)
    ensures |path| == 2 && path[1] == r.index
    ensures IsNumeral(path[0]) && ParseInt(path[0]) == r.contestId
  {
    IntToStringRoundTrip(r.contestId);
    [IntToString(r.contestId), r.index]
  }

  /** Problems of different contests, or with different indices, get different paths. */
  lemma ProblemPathInjective(a: ProblemRecord, b: ProblemRecord)
    requires ProblemPath(a) == ProblemPath(b)
    ensures a.contestId == b.contestId && a.index == b.index
  {
    IntToStringInjective(a.contestId, b.contestId);
  }
}
