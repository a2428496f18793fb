/**
 * The base url and api url a Codeforces client keeps: the configured url
 * with a trailing slash, and the api url under it unless one is given.
 */
module Urls {
  import opened Wrappers
  import opened Text
  import opened Containers

  /** `url[-1]` on an empty url raises IndexError. */
  datatype UrlError = EmptyUrl

  predicate EndsWithSlash(s: string) {
    s != [] && s[|s| - 1] == '/'
  }

  /** The stored url: the configured one with a '/' appended unless it already ends in one. */
  function NormalizedUrl(url: string): (r: Result<string, UrlError>)
    ensures r.Err? <==> url == []
    ensures r.Ok? ==> EndsWithSlash(r.value) && IsPrefix(url, r.value)
    ensures r.Ok? && EndsWithSlash(url) ==> r.value == url
    ensures r.Ok? && !EndsWithSlash(url) ==> |r.value| == |url| + 1
  {
    if url == [] then Err(EmptyUrl)
    else if url[|url| - 1] != '/' then Ok(url + "/")
    else Ok(url)
  }

  /** Normalising a normalised url changes nothing. */
  lemma NormalizedUrlIdempotent(url: string)
    requires NormalizedUrl(url).Ok?
    ensures NormalizedUrl(NormalizedUrl(url).value) == NormalizedUrl(url)
  {
  }

  /** The api url: the one given, verbatim, or the normalised url followed by "api/". */
  function ApiUrl(url: string, given: Option<string>): (r: Result<string, UrlError>)
    ensures r.Err? <==> url == []
    ensures r.Ok? && given.Some? ==> r.value == given.value
    ensures r.Ok? && given.None? ==> && NormalizedUrl(url).Ok?
                                     && IsPrefix(NormalizedUrl(url).value, r.value)
                                     && r.value[|NormalizedUrl(url).value|..] == "api/"
  {
    match NormalizedUrl(url)
    case Err(e) => Err(e)
    case Ok(base) =>
      match given
      case Some(api) => Ok(api)
      case None => Ok(base + "api/")
  }

  /** The api url derived from the url ends in a slash and lies under the stored url. */
  lemma DerivedApiUrlUnderBase(url: string)
    requires url != []
    ensures var api := ApiUrl(url, None).value;
            EndsWithSlash(api) && IsPrefix(url, api)
  {
  }

  /** A numeral holds digits and possibly a minus sign, never a '/'. */
  lemma NumeralHasNoSlash(s: string)
    requires IsNumeral(s)
    ensures forall i :: 0 <= i < |s| ==> s[i] != '/'
  {
    forall i | 0 <= i < |s|
      ensures s[i] != '/'
    {
      if s[0] == '-' && i > 0 {
        assert s[1..][i - 1] == s[i];
      }
    }
  }

  /** Two strings joined by a '/' that neither first part contains split back at that '/'. */
  lemma SplitAtSlash(x1: string, y1: string, x2: string, y2: string)
    requires x1 + "/" + y1 == x2 + "/" + y2
    requires forall i :: 0 <= i < |x1| ==> x1[i] != '/'
    requires forall i :: 0 <= i < |x2| ==> x2[i] != '/'
    ensures x1 == x2 && y1 == y2
  {
    var w := x1 + "/" + y1;
    assert |x1| == |x2| by {
      assert w[|x1|] == '/' && w[|x2|] == '/';
    }
    assert x1 == w[..|x1|] == x2;
    assert y1 == w[|x1| + 1..] == y2;
  }

  /** The page load_problem opens for a problem, from its own contest id and index: the site url, "problemset/problem/", the contest id, '/', the index. */
  function ProblemPage(site: string, problem: ProblemRecord): (url: string)
    ensures IsPrefix(site + "problemset/problem/", url)
  {
    (site + "problemset/problem/") + ProblemTail(problem)
  }

  /** The part of a problem page after the site's problem directory: contest id, '/', index. */
  function ProblemTail(problem: ProblemRecord): string {
    IntToString(problem.contestId) + "/" + problem.index
  }

  /** Different problems have different pages. */
  lemma ProblemPageInjective(site: string, a: ProblemRecord, b: ProblemRecord)
    requires ProblemPage(site, a) == ProblemPage(site, b)
    ensures a.contestId == b.contestId && a.index == b.index
  {
    var prefix := site + "problemset/problem/";
    var na, nb := IntToString(a.contestId), IntToString(b.contestId);
    assert ProblemTail(a) == ProblemPage(site, a)[|prefix|..];
    assert ProblemTail(b) == ProblemPage(site, b)[|prefix|..];
    NumeralHasNoSlash(na);
    NumeralHasNoSlash(nb);
    SplitAtSlash(na, a.index, nb, b.index);
    IntToStringInjective(a.contestId, b.contestId);
  }

  /** The attributes a Problem object has: its record `obj`, its format string `fmt`, and the `path` property. */
  predicate IsProblemAttribute(name: string) {
    name == "obj" || name == "fmt" || name == "path"
  }

  /** An attribute read on an object that does not have it. */
  datatype LoadError = AttributeError(attribute: string)

  /**
   * load_problem as written: the page url is formatted from
   * problem.contest_id and problem.index, read as attributes of the Problem
   * object, which has neither.
   */
  function LoadProblemAsWritten(site: string, problem: ProblemRecord): (r: Result<string, LoadError>)
    ensures r.Ok? <==> IsProblemAttribute("contest_id") && IsProblemAttribute("index")
    ensures r.Ok? ==> r.value == ProblemPage(site, problem)
  {
    if !IsProblemAttribute("contest_id") then Err(AttributeError("contest_id"))
    else if !IsProblemAttribute("index") then Err(AttributeError("index"))
    else Ok(ProblemPage(site, problem))
  }

  /** Opening any problem raises AttributeError on contest_id, before the browser is touched. */
  lemma OpeningAProblemRaises(site: string, problem: ProblemRecord)
    ensures LoadProblemAsWritten(site, problem) == Err(AttributeError("contest_id"))
  {
  }
}
