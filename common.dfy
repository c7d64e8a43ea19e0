/** Values shared by every part of the shop: optional values and what a route handler answers. */
module Common {

  datatype Option<T> = None | Some(value: T)

  /** What an Express route handler produces: a JSON success body, an error status with the
      `{ error }` message, or an exception thrown outside the handler's try block (no reply at all). */
  datatype Reply<T> = Ok(value: T) | Fail(status: nat, error: string) | Unhandled(exception: string)

  /** What a block inside a try produces: a value, or the message of the Error it threw. */
  datatype Outcome<T> = Done(value: T) | Threw(message: string)

  const BadRequest: nat := 400
  const NotFound: nat := 404
  const ServerError: nat := 500

  function Min(a: int, b: int): int { if a <= b then a else b }

  /** `x || ""` for a field that may be missing, null or empty. */
  function OrEmpty(s: Option<string>): string { if s.Some? then s.value else "" }
}

/** Sequence operations that stand for SQL and Array.prototype operations. */
module Seqs {
  import opened Common

  /** t arises from s by deleting elements, keeping the order of the rest. */
  predicate IsSubsequence<T(==)>(t: seq<T>, s: seq<T>)
    decreases |s|
  {
    if t == [] then true
    else if s == [] then false
    else (t[0] == s[0] && IsSubsequence(t[1..], s[1..])) || IsSubsequence(t, s[1..])
  }

  /** The position of the first element satisfying p: a lookup that keeps only `rows[0]`. */
  function FirstIndex<T>(s: seq<T>, p: T -> bool): (r: Option<nat>)
    ensures r.Some? ==> r.value < |s| && p(s[r.value]) && forall j :: 0 <= j < r.value ==> !p(s[j])
    ensures r.None? ==> forall j :: 0 <= j < |s| ==> !p(s[j])
  {
    if s == [] then None
    else if p(s[0]) then Some(0)
    else
      match FirstIndex(s[1..], p)
      case None => None
      case Some(k) => Some(k + 1)
  }

  /** `WHERE keep` on a table, or `Array.prototype.filter`: the order-preserving subsequence of
      the elements that satisfy keep. */
  function Filter<T(==)>(s: seq<T>, keep: T -> bool): (r: seq<T>)
    ensures |r| <= |s|
    ensures forall x :: x in r ==> x in s && keep(x)
    ensures forall x :: x in s && keep(x) ==> x in r
    ensures IsSubsequence(r, s)
  {
    if s == [] then []
    else
      assert s == [s[0]] + s[1..];
      var rest := Filter(s[1..], keep);
      if keep(s[0]) then
        assert ([s[0]] + rest)[1..] == rest;
        [s[0]] + rest
      else
        rest
  }

  /** A filter keeps every copy of an element that passes and none of one that fails, as
      `Array.prototype.filter` and `WHERE` do. */
  lemma {:induction false} FilterMultiplicity<T>(s: seq<T>, keep: T -> bool)
    ensures forall x :: multiset(Filter(s, keep))[x] == if keep(x) then multiset(s)[x] else 0
  {
    if s != [] {
      assert s == [s[0]] + s[1..];
      FilterMultiplicity(s[1..], keep);
      assert multiset(s) == multiset([s[0]]) + multiset(s[1..]);
      if keep(s[0]) {
        assert multiset(Filter(s, keep)) == multiset([s[0]]) + multiset(Filter(s[1..], keep));
      }
    }
  }

  lemma {:induction false} FilterAppend<T>(a: seq<T>, b: seq<T>, keep: T -> bool)
    ensures Filter(a + b, keep) == Filter(a, keep) + Filter(b, keep)
  {
    if a == [] {
      assert a + b == b;
    } else {
      assert (a + b)[0] == a[0];
      assert (a + b)[1..] == a[1..] + b;
      FilterAppend(a[1..], b, keep);
    }
  }

  /** A filter that every element passes is the identity. */
  lemma {:induction false} FilterKeepsAll<T>(s: seq<T>, keep: T -> bool)
    requires forall x :: x in s ==> keep(x)
    ensures Filter(s, keep) == s
  {
    if s != [] {
      assert s == [s[0]] + s[1..];
      FilterKeepsAll(s[1..], keep);
    }
  }

  /** A filter that no element passes yields nothing. */
  lemma FilterKeepsNone<T>(s: seq<T>, keep: T -> bool)
    requires forall x :: x in s ==> !keep(x)
    ensures Filter(s, keep) == []
  {
  }
}
