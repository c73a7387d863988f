/** The search filter shared by the list screens: a blank term keeps the whole
    list, any other term keeps, in order, the entries that match it. */
module Filtering {
  import opened Text

  /** `r` is `xs` with some entries dropped and the others kept in order. */
  predicate IsSubsequence<T(==)>(r: seq<T>, xs: seq<T>)
    decreases |xs|
  {
    if r == [] then true
    else if xs == [] then false
    else if r[0] == xs[0] then IsSubsequence(r[1..], xs[1..])
    else IsSubsequence(r, xs[1..])
  }

  /** `xs.filter(x => matches(x, term))`. */
  function Select<T>(xs: seq<T>, matches: (T, string) -> bool, term: string): (r: seq<T>)
    ensures |r| <= |xs|
    ensures forall i :: 0 <= i < |r| ==> matches(r[i], term)
    decreases |xs|
  {
    if xs == [] then []
    else (if matches(xs[0], term) then [xs[0]] else []) + Select(xs[1..], matches, term)
  }

  /** Exactly the matching entries are kept, each as often as it occurs, in
      their original order. */
  lemma {:induction false} SelectExactly<T>(xs: seq<T>, matches: (T, string) -> bool, term: string)
    ensures IsSubsequence(Select(xs, matches, term), xs)
    ensures forall x :: x in Select(xs, matches, term) <==> x in xs && matches(x, term)
    ensures forall x :: multiset(Select(xs, matches, term))[x]
                        == if matches(x, term) then multiset(xs)[x] else 0
    decreases |xs|
  {
    if xs != [] {
      SelectExactly(xs[1..], matches, term);
      assert xs == [xs[0]] + xs[1..];
      var rest := Select(xs[1..], matches, term);
      if matches(xs[0], term) {
        assert Select(xs, matches, term) == [xs[0]] + rest;
        assert ([xs[0]] + rest)[1..] == rest;
      } else {
        assert Select(xs, matches, term) == rest;
        SkipHead(rest, xs);
      }
    }
  }

  /** A subsequence of the tail is a subsequence of the whole list. */
  lemma {:induction false} SkipHead<T>(r: seq<T>, xs: seq<T>)
    requires xs != [] && IsSubsequence(r, xs[1..])
    ensures IsSubsequence(r, xs)
    decreases |xs|, 0
  {
    if r != [] && r[0] == xs[0] {
      SubsequenceTail(r, xs[1..]);
    }
  }

  /** Dropping the first kept entry keeps a subsequence. */
  lemma {:induction false} SubsequenceTail<T>(r: seq<T>, xs: seq<T>)
    requires r != [] && IsSubsequence(r, xs)
    ensures IsSubsequence(r[1..], xs)
    decreases |xs|, 1
  {
    if r[0] != xs[0] {
      SubsequenceTail(r, xs[1..]);
    }
    SkipHead(r[1..], xs);
  }

  /** The list a controller shows for a search term: the whole list when the
      normalized term is blank, the matching entries otherwise. */
  function Search<T>(xs: seq<T>, term: string, matches: (T, string) -> bool): (r: seq<T>)
    ensures |r| <= |xs|
    ensures Normalize(term) != [] ==> forall i :: 0 <= i < |r| ==> matches(r[i], Normalize(term))
  {
    var t := Normalize(term);
    if t == [] then xs else Select(xs, matches, t)
  }

  /** A blank term keeps the list unchanged; any other term keeps exactly the
      entries that match the normalized term, in order. */
  lemma SearchSpec<T>(xs: seq<T>, term: string, matches: (T, string) -> bool)
    ensures Normalize(term) == [] ==> Search(xs, term, matches) == xs
    ensures Normalize(term) != [] ==>
      && IsSubsequence(Search(xs, term, matches), xs)
      && (forall x :: x in Search(xs, term, matches) <==> x in xs && matches(x, Normalize(term)))
      && forall x :: multiset(Search(xs, term, matches))[x]
                     == if matches(x, Normalize(term)) then multiset(xs)[x] else 0
  {
    if Normalize(term) != [] {
      SelectExactly(xs, matches, Normalize(term));
    }
  }
}
