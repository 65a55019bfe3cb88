/** Failure-carrying results used throughout the model. */
module Wrappers {

  datatype Option<+T> = None | Some(value: T)

  datatype Result<+T, +E> = Success(value: T) | Failure(error: E)
}

/** Small facts about built-in collections. */
module Collections {

  /** A witness for picking an element. */
  lemma Inhabited<T>(s: set<T>) returns (x: T)
    requires s != {}
    ensures x in s
  {
    x :| x in s;
  }

  lemma InsertOne<T>(s: seq<T>, k: nat, x: T)
    requires k <= |s|
    ensures multiset(s[..k] + [x] + s[k..]) == multiset(s) + multiset{x}
  {
    assert s == s[..k] + s[k..];
  }

  lemma SubsetSize<T>(a: set<T>, b: set<T>)
    requires a <= b
    ensures |a| <= |b|
    ensures |a| == |b| ==> a == b
  {
    assert b == a + (b - a);
  }

  /** Book-keeping of a loop that visits `todo` and has dealt with the members of `m` outside it. */
  lemma Visit<T>(m: set<T>, todo: set<T>, x: T)
    requires x in todo
    ensures x !in m - todo && todo - {x} <= todo && |todo - {x}| < |todo|
    ensures x in m ==> m - (todo - {x}) == (m - todo) + {x} && |m - (todo - {x})| == |m - todo| + 1
    ensures x !in m ==> m - (todo - {x}) == m - todo
  {
    if x in m { assert m - (todo - {x}) == (m - todo) + {x}; }
  }

  lemma AllVisited<T>(m: set<T>, todo: set<T>)
    requires todo == {}
    ensures m - todo == m
  {
    assert m - todo == m;
  }

  /** A bounded visit deals with as many members as the bound and their number allow. */
  lemma EnoughVisited<T>(m: set<T>, todo: set<T>, limit: int)
    requires |m - todo| == 0 || |m - todo| <= limit
    requires todo == {} || |m - todo| >= limit
    ensures m - todo <= m
    ensures |m - todo| == if limit <= 0 then 0 else if limit < |m| then limit else |m|
  {
    SubsetSize(m - todo, m);
    if todo == {} { assert m - todo == m; }
  }
}
