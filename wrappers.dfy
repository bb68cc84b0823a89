/** Option and Result, used for Python's None and for exceptions that a caller catches. */
module Wrappers {

  datatype Option<+T> = None | Some(value: T)

  /** `Err` carries the text of the exception (`str(e)`) that the source would raise. */
  datatype Result<+T> = Ok(value: T) | Err(error: string)

  /** Python's `x or default` on an optional value whose falsy value is `zero`. */
  function OrDefault<T(==)>(x: Option<T>, zero: T, default: T): (r: T)
    ensures x.Some? && x.value != zero ==> r == x.value
    ensures x.None? || x.value == zero ==> r == default
  {
    if x.Some? && x.value != zero then x.value else default
  }
}

/** Comprehensions over sequences. */
module Seqs {
  import opened Wrappers

  lemma AppendAssoc<T>(a: seq<T>, b: seq<T>, c: seq<T>)
    ensures (a + b) + c == a + (b + c)
  {
  }

  /** Extending a prefix by one element. */
  lemma PrefixSnoc<T>(s: seq<T>, i: nat)
    requires i < |s|
    ensures s[..i + 1] == s[..i] + [s[i]] && s[..i + 1][..i] == s[..i]
  {
  }

  lemma UpdateTwice<T>(s: seq<T>, i: nat, x: T)
    requires i < |s|
    ensures s[i := x][i := x] == s[i := x]
  {
  }

  lemma AppendEmpty<T>(s: seq<T>)
    ensures s + [] == s
  {
  }

  /** A non-empty sequence is its prefix followed by its last element. */
  lemma LastSplit<T>(s: seq<T>)
    requires s != []
    ensures s == s[..|s| - 1] + [s[|s| - 1]]
  {
  }

  /** `[f(x) for x in xs if keep(x)]`, built by appending in order. */
  function Collect<T, U>(xs: seq<T>, keep: T -> bool, f: T -> U): (r: seq<U>)
    ensures |r| <= |xs|
  {
    if xs == [] then []
    else Collect(xs[..|xs| - 1], keep, f) + (if keep(xs[|xs| - 1]) then [f(xs[|xs| - 1])] else [])
  }

  lemma CollectSnoc<T, U>(xs: seq<T>, x: T, keep: T -> bool, f: T -> U)
    ensures Collect(xs + [x], keep, f) == Collect(xs, keep, f) + (if keep(x) then [f(x)] else [])
  {
    assert (xs + [x])[..|xs|] == xs;
  }

  /** Exactly the images of the kept elements are collected. */
  lemma {:induction false} CollectMembers<T, U>(xs: seq<T>, keep: T -> bool, f: T -> U)
    ensures forall y :: y in Collect(xs, keep, f) <==> exists i :: 0 <= i < |xs| && keep(xs[i]) && y == f(xs[i])
  {
    if xs != [] {
      var init := xs[..|xs| - 1];
      CollectMembers(init, keep, f);
      forall y
        ensures y in Collect(xs, keep, f) <==> exists i :: 0 <= i < |xs| && keep(xs[i]) && y == f(xs[i])
      {
        if y in Collect(init, keep, f) {
          var i :| 0 <= i < |init| && keep(init[i]) && y == f(init[i]);
          assert xs[i] == init[i];
        }
        if exists i :: 0 <= i < |xs| && keep(xs[i]) && y == f(xs[i]) {
          var i :| 0 <= i < |xs| && keep(xs[i]) && y == f(xs[i]);
          if i < |init| {
            assert init[i] == xs[i];
          }
        }
      }
    }
  }

  /** Nothing is collected when no element is kept. */
  lemma {:induction false} CollectNone<T, U>(xs: seq<T>, keep: T -> bool, f: T -> U)
    requires forall i | 0 <= i < |xs| :: !keep(xs[i])
    ensures Collect(xs, keep, f) == []
  {
    if xs != [] {
      CollectNone(xs[..|xs| - 1], keep, f);
    }
  }

  /** `[f(x) for x in xs]` where `f` may fail: None as soon as one element fails. */
  function MapAll<T, U>(xs: seq<T>, f: T -> Option<U>): (r: Option<seq<U>>)
    ensures r.Some? ==> |r.value| == |xs|
  {
    if xs == [] then Some([])
    else
      match f(xs[0])
      case None => None
      case Some(y) =>
        match MapAll(xs[1..], f)
        case None => None
        case Some(rest) => Some([y] + rest)
  }

  /** The map succeeds exactly when every element does, and then holds their images in order. */
  lemma {:induction false} MapAllSpec<T, U>(xs: seq<T>, f: T -> Option<U>)
    ensures MapAll(xs, f).Some? <==> forall k | 0 <= k < |xs| :: f(xs[k]).Some?
    ensures MapAll(xs, f).Some? ==> forall k | 0 <= k < |xs| :: f(xs[k]) == Some(MapAll(xs, f).value[k])
  {
    if xs != [] {
      var tail := xs[1..];
      MapAllSpec(tail, f);
      assert forall k | 1 <= k < |xs| :: xs[k] == tail[k - 1];
      if f(xs[0]).Some? && MapAll(tail, f).Some? {
        var r := MapAll(xs, f).value;
        assert r == [f(xs[0]).value] + MapAll(tail, f).value;
        assert forall k | 1 <= k < |xs| :: r[k] == MapAll(tail, f).value[k - 1];
      } else if f(xs[0]).Some? {
        var j :| 0 <= j < |tail| && f(tail[j]).None?;
        assert f(xs[j + 1]).None?;
      }
    }
  }

  /** The 0-based index of the element at 1-based position `n`, when `n` is one of `xs`'s positions. */
  function Position<T>(xs: seq<T>, n: Option<int>): (r: Option<nat>)
    ensures r.Some? <==> n.Some? && 1 <= n.value <= |xs|
    ensures r.Some? ==> r.value < |xs| && n == Some(r.value + 1)
  {
    if n.Some? && 0 <= n.value - 1 < |xs| then Some(n.value - 1) else None
  }
}
