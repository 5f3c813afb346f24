/** Small collection helpers shared by every module of the model: the
    nullable value of Kotlin (`T?`) as an `Option`, and the few list
    operations (`flatMap`, `filter`, `singleOrNull`) the source relies on. */
module Common {

  /** Kotlin's `T?`: `None` stands for `null`. */
  datatype Option<+T> = None | Some(value: T) {
    /** Kotlin's `x ?: default`. */
    function GetOr(default: T): T {
      match this
      case Some(v) => v
      case None => default
    }
  }

  lemma AppendAssociative<T>(a: seq<T>, b: seq<T>, c: seq<T>)
    ensures a + b + c == a + (b + c)
  {
  }

  /** The concatenation of a list of lists (`flatten`, or `flatMap { it }`). */
  function Flatten<T>(xs: seq<seq<T>>): (r: seq<T>)
    ensures |r| == SumLengths(xs)
  {
    if xs == [] then [] else xs[0] + Flatten(xs[1..])
  }

  function SumLengths<T>(xs: seq<seq<T>>): nat {
    if xs == [] then 0 else |xs[0]| + SumLengths(xs[1..])
  }

  lemma {:induction false} FlattenAppend<T>(xs: seq<seq<T>>, ys: seq<seq<T>>)
    ensures Flatten(xs + ys) == Flatten(xs) + Flatten(ys)
  {
    if xs != [] {
      assert (xs + ys)[1..] == xs[1..] + ys;
      FlattenAppend(xs[1..], ys);
    } else {
      assert xs + ys == ys;
    }
  }

  /** Element `k` of group `g` sits in the flattened list right after all
      elements of the groups before `g`. */
  lemma {:induction false} FlattenIndex<T>(xs: seq<seq<T>>, g: nat, k: nat)
    requires g < |xs| && k < |xs[g]|
    ensures SumLengths(xs[..g]) + k < |Flatten(xs)|
    ensures Flatten(xs)[SumLengths(xs[..g]) + k] == xs[g][k]
  {
    if g == 0 {
      assert xs[..0] == [];
    } else {
      assert xs[..g][1..] == xs[1..][..g - 1];
      FlattenIndex(xs[1..], g - 1, k);
    }
  }

  /** The elements of `s` that satisfy `p`, in their original order. */
  function Filter<T>(s: seq<T>, p: T -> bool): (r: seq<T>)
    ensures |r| <= |s|
    ensures forall x :: x in r ==> x in s && p(x)
    ensures forall x :: x in s && p(x) ==> x in r
  {
    if s == [] then []
    else (if p(s[0]) then [s[0]] else []) + Filter(s[1..], p)
  }

  /** The positions from `i` on whose elements satisfy `p`: all of them,
      each once, in increasing order. */
  function PositionsFrom<T>(s: seq<T>, p: T -> bool, i: nat): (r: seq<nat>)
    requires i <= |s|
    ensures forall k :: 0 <= k < |r| ==> i <= r[k] < |s| && p(s[r[k]])
    ensures forall k, l :: 0 <= k < l < |r| ==> r[k] < r[l]
    ensures forall j :: i <= j < |s| && p(s[j]) ==> j in r
    decreases |s| - i
  {
    if i == |s| then []
    else
      var rest := PositionsFrom(s, p, i + 1);
      if p(s[i]) then
        ConsPosition(s, p, i, rest);
        [i] + rest
      else
        rest
  }

  lemma ConsPosition<T>(s: seq<T>, p: T -> bool, i: nat, rest: seq<nat>)
    requires i < |s| && p(s[i])
    requires forall k :: 0 <= k < |rest| ==> i + 1 <= rest[k] < |s| && p(s[rest[k]])
    requires forall k, l :: 0 <= k < l < |rest| ==> rest[k] < rest[l]
    ensures var r := [i] + rest;
      (forall k :: 0 <= k < |r| ==> i <= r[k] < |s| && p(s[r[k]]))
      && (forall k, l :: 0 <= k < l < |r| ==> r[k] < r[l])
      && i in r && forall j :: j in rest ==> j in r
  {
    var r := [i] + rest;
    assert forall k :: 1 <= k < |r| ==> r[k] == rest[k - 1];
  }

  /** `Filter` keeps the elements at exactly those positions, in order. */
  lemma {:induction false} FilterAtPositions<T>(s: seq<T>, p: T -> bool, i: nat)
    requires i <= |s|
    ensures var f := Filter(s[i..], p);
      var at := PositionsFrom(s, p, i);
      |f| == |at| && forall k :: 0 <= k < |at| ==> f[k] == s[at[k]]
    decreases |s| - i
  {
    if i < |s| {
      FilterAtPositions(s, p, i + 1);
      FilterAtPosition(s, p, i);
    }
  }

  /** One step of `FilterAtPositions`, from `i + 1` back to `i`. */
  lemma FilterAtPosition<T>(s: seq<T>, p: T -> bool, i: nat)
    requires i < |s|
    requires var f := Filter(s[i + 1..], p);
      var at := PositionsFrom(s, p, i + 1);
      |f| == |at| && forall k :: 0 <= k < |at| ==> f[k] == s[at[k]]
    ensures var f := Filter(s[i..], p);
      var at := PositionsFrom(s, p, i);
      |f| == |at| && forall k :: 0 <= k < |at| ==> f[k] == s[at[k]]
  {
    var rest, at := Filter(s[i + 1..], p), PositionsFrom(s, p, i + 1);
    assert s[i..][0] == s[i] && s[i..][1..] == s[i + 1..];
    assert Filter(s[i..], p) == (if p(s[i]) then [s[i]] else []) + rest;
    if p(s[i]) {
      assert PositionsFrom(s, p, i) == [i] + at;
      ConsPicked(s, i, rest, at);
    } else {
      assert PositionsFrom(s, p, i) == at;
    }
  }

  lemma ConsPicked<T>(s: seq<T>, i: nat, picked: seq<T>, at: seq<nat>)
    requires i < |s| && |picked| == |at|
    requires forall k :: 0 <= k < |at| ==> at[k] < |s| && picked[k] == s[at[k]]
    ensures forall k :: 0 <= k < |at| + 1 ==> ([i] + at)[k] < |s| && ([s[i]] + picked)[k] == s[([i] + at)[k]]
  {
    assert forall k :: 1 <= k < |at| + 1 ==> ([i] + at)[k] == at[k - 1] && ([s[i]] + picked)[k] == picked[k - 1];
  }

  /** Two tests that agree position by position pick the same positions. */
  lemma {:induction false} PositionsAgree<T, U>(s: seq<T>, p: T -> bool, t: seq<U>, q: U -> bool, i: nat)
    requires i <= |s| == |t|
    requires forall j :: i <= j < |s| ==> p(s[j]) == q(t[j])
    ensures PositionsFrom(s, p, i) == PositionsFrom(t, q, i)
    decreases |s| - i
  {
    if i < |s| {
      PositionsAgree(s, p, t, q, i + 1);
      assert p(s[i]) == q(t[i]);
      assert PositionsFrom(s, p, i) == (if p(s[i]) then [i] else []) + PositionsFrom(s, p, i + 1);
      assert PositionsFrom(t, q, i) == (if q(t[i]) then [i] else []) + PositionsFrom(t, q, i + 1);
    }
  }

  lemma {:induction false} FilterAppend<T>(s: seq<T>, t: seq<T>, p: T -> bool)
    ensures Filter(s + t, p) == Filter(s, p) + Filter(t, p)
  {
    if s == [] {
      assert s + t == t;
    } else {
      assert (s + t)[1..] == s[1..] + t;
      FilterAppend(s[1..], t, p);
    }
  }

  lemma {:induction false} FilterOfAll<T>(s: seq<T>, p: T -> bool)
    requires forall k :: 0 <= k < |s| ==> p(s[k])
    ensures Filter(s, p) == s
  {
    if s != [] {
      assert forall k :: 0 <= k < |s[1..]| ==> s[1..][k] == s[k + 1];
      FilterOfAll(s[1..], p);
    }
  }

  predicate Distinct<T(==)>(s: seq<T>) {
    forall i, j :: 0 <= i < j < |s| ==> s[i] != s[j]
  }

  /** In a list without repetitions, an element that is the only one
      satisfying `p` is all that filtering by `p` keeps. */
  lemma {:induction false} FilterOfUnique<T>(s: seq<T>, p: T -> bool, x: T)
    requires Distinct(s)
    requires x in s && p(x)
    requires forall y :: y in s && p(y) ==> y == x
    ensures Filter(s, p) == [x]
  {
    var rest := s[1..];
    assert Distinct(rest) by {
      forall i, j | 0 <= i < j < |rest| ensures rest[i] != rest[j] {
        assert rest[i] == s[i + 1] && rest[j] == s[j + 1];
      }
    }
    if s[0] == x {
      assert x !in rest by {
        forall k | 0 <= k < |rest| ensures rest[k] != x {
          assert rest[k] == s[k + 1];
        }
      }
      FilterOfNone(rest, p);
    } else {
      assert x in rest;
      FilterOfUnique(rest, p, x);
    }
  }

  lemma {:induction false} FilterOfNone<T>(s: seq<T>, p: T -> bool)
    requires forall y :: y in s ==> !p(y)
    ensures Filter(s, p) == []
  {
    if s != [] {
      assert forall y :: y in s[1..] ==> y in s;
      FilterOfNone(s[1..], p);
    }
  }

  /** Kotlin's `singleOrNull()`: the only element, or `null` when there are
      none or more than one. */
  function SingleOrNull<T>(s: seq<T>): (r: Option<T>)
    ensures r.Some? <==> |s| == 1
    ensures r.Some? ==> r.value == s[0]
  {
    if |s| == 1 then Some(s[0]) else None
  }

  /** Java's `List.indexOf`: the position of the first occurrence of `x`,
      or -1 when there is none. */
  function IndexOf<T(==)>(s: seq<T>, x: T): (r: int)
    ensures -1 <= r < |s|
    ensures r == -1 <==> x !in s
    ensures 0 <= r ==> s[r] == x && x !in s[..r]
  {
    if s == [] then -1
    else if s[0] == x then 0
    else
      var k := IndexOf(s[1..], x);
      if k < 0 then -1
      else
        assert s[..k + 1] == [s[0]] + s[1..][..k];
        k + 1
  }

  /** A position holding `x` with no `x` before it is the one `IndexOf`
      finds. */
  lemma IndexOfUnique<T>(s: seq<T>, x: T, j: int)
    requires 0 <= j < |s| && s[j] == x && x !in s[..j]
    ensures IndexOf(s, x) == j
  {
  }

  /** Appending does not move the first occurrence of an element already
      present. */
  lemma IndexOfAppend<T>(s: seq<T>, u: seq<T>, x: T)
    requires x in s
    ensures IndexOf(s + u, x) == IndexOf(s, x)
  {
    var i := IndexOf(s, x);
    assert (s + u)[..i] == s[..i];
    IndexOfUnique(s + u, x, i);
  }
}
