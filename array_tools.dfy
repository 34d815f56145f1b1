/**
 * The array shorthands shared by the server registries: `unique`, `exclude`
 * and `intersect`, each parameterised by an equality function.  The legacy
 * copy of the module under Utils/ is textually identical, so one definition
 * models both.
 */
module ArrayTools {

  /** `unique`: a left fold that appends an element only when no entry of the
      accumulated result is `eq` to it (`findIndex(entry => equal(entry, el))`). */
  function Unique<T>(a: seq<T>, eq: (T, T) -> bool): (r: seq<T>)
    ensures |r| <= |a|
    ensures forall x :: x in r ==> x in a
    ensures forall i, j :: 0 <= i < j < |r| ==> !eq(r[i], r[j])
    ensures forall x :: x in a ==> x in r || HasEqual(r, x, eq)
    decreases |a|
  {
    if |a| == 0 then []
    else
      var init, el := a[..|a| - 1], a[|a| - 1];
      var u := Unique(init, eq);
      assert a == init + [el];
      if HasEqual(u, el, eq) then u
      else
        HasEqualExtends(u, [el], eq);
        u + [el]
  }

  /** Some entry `e` of `s` satisfies `eq(e, el)` (`findIndex(...) !== -1`). */
  predicate HasEqual<T, U>(s: seq<T>, el: U, eq: (T, U) -> bool)
  {
    exists i :: 0 <= i < |s| && eq(s[i], el)
  }

  lemma HasEqualExtends<T, U>(u: seq<T>, v: seq<T>, eq: (T, U) -> bool)
    ensures forall x :: HasEqual(u, x, eq) ==> HasEqual(u + v, x, eq)
  {
    forall x | HasEqual(u, x, eq) ensures HasEqual(u + v, x, eq) {
      var i :| 0 <= i < |u| && eq(u[i], x);
      assert (u + v)[i] == u[i];
    }
  }

  /** Some entry `e` of `b` satisfies `eq(x, e)` (`findIndex(b => equal(a, b)) >= 0`). */
  predicate HasEqualIn<T, U>(x: T, b: seq<U>, eq: (T, U) -> bool)
  {
    exists j :: 0 <= j < |b| && eq(x, b[j])
  }

  /** `exclude`: the entries `e` of `a` with `!eq(e, el)`, in order. */
  function Exclude<T, U>(a: seq<T>, el: U, eq: (T, U) -> bool): (r: seq<T>)
    ensures |r| <= |a|
    ensures forall x :: x in r ==> x in a && !eq(x, el)
    ensures forall x :: x in a && !eq(x, el) ==> x in r
  {
    if |a| == 0 then []
    else if eq(a[0], el) then Exclude(a[1..], el, eq)
    else [a[0]] + Exclude(a[1..], el, eq)
  }

  /** `intersect`: the entries of `a` that have an `eq` partner in `b`, in order. */
  function Intersect<T, U>(a: seq<T>, b: seq<U>, eq: (T, U) -> bool): (r: seq<T>)
    ensures |r| <= |a|
    ensures forall x :: x in r ==> x in a && HasEqualIn(x, b, eq)
    ensures forall x :: x in a && HasEqualIn(x, b, eq) ==> x in r
  {
    if |a| == 0 then []
    else if HasEqualIn(a[0], b, eq) then [a[0]] + Intersect(a[1..], b, eq)
    else Intersect(a[1..], b, eq)
  }

  /** `s` is an order-preserving subsequence of `t`. */
  ghost predicate IsSubsequence<T>(s: seq<T>, t: seq<T>)
    decreases |t|
  {
    if |s| == 0 then true
    else if |t| == 0 then false
    else if s[0] == t[0] then IsSubsequence(s[1..], t[1..])
    else IsSubsequence(s, t[1..])
  }

  lemma {:induction false} SubsequenceAppend<T>(s: seq<T>, t: seq<T>, x: T)
    requires IsSubsequence(s, t)
    ensures IsSubsequence(s, t + [x]) && IsSubsequence(s + [x], t + [x])
    decreases |t|
  {
    if |s| == 0 {
      assert s + [x] == [x];
      SubsequenceOfSingleton(t, x);
    } else if s[0] == t[0] {
      assert (t + [x])[1..] == t[1..] + [x];
      assert (s + [x])[1..] == s[1..] + [x];
      SubsequenceAppend(s[1..], t[1..], x);
    } else {
      assert (t + [x])[1..] == t[1..] + [x];
      SubsequenceAppend(s, t[1..], x);
    }
  }

  /** Every entry of a subsequence is an entry of the sequence. */
  lemma {:induction false} SubsequenceMembers<T>(s: seq<T>, t: seq<T>)
    requires IsSubsequence(s, t)
    ensures forall x :: x in s ==> x in t
    decreases |t|
  {
    if |s| > 0 {
      if s[0] == t[0] {
        SubsequenceMembers(s[1..], t[1..]);
        forall x | x in s ensures x in t {
          if x != s[0] {
            assert x in s[1..];
            assert x in t[1..];
          }
        }
      } else {
        SubsequenceMembers(s, t[1..]);
        assert forall x :: x in t[1..] ==> x in t;
      }
    }
  }

  lemma {:induction false} SubsequenceOfSingleton<T>(t: seq<T>, x: T)
    ensures IsSubsequence([x], t + [x])
    decreases |t|
  {
    if |t| > 0 && t[0] != x {
      assert (t + [x])[1..] == t[1..] + [x];
      SubsequenceOfSingleton(t[1..], x);
    }
  }

  lemma {:induction false} SubsequenceReflexive<T>(t: seq<T>)
    ensures IsSubsequence(t, t)
    decreases |t|
  {
    if |t| > 0 { SubsequenceReflexive(t[1..]); }
  }

  /** `unique` keeps the first occurrence of each class, in input order: its
      result is a subsequence of the input. */
  lemma {:induction false} UniqueIsSubsequence<T>(a: seq<T>, eq: (T, T) -> bool)
    ensures IsSubsequence(Unique(a, eq), a)
    decreases |a|
  {
    if |a| == 0 {
    } else {
      var init := a[..|a| - 1];
      var el := a[|a| - 1];
      assert a == init + [el];
      UniqueIsSubsequence(init, eq);
      SubsequenceAppend(Unique(init, eq), init, el);
    }
  }

  /** An element is kept by `unique` exactly when no earlier element of the
      input was kept with an `eq` relation to it: for an equivalence that is
      the first occurrence of its class. */
  lemma {:induction false} UniqueKeepsFirst<T>(a: seq<T>, eq: (T, T) -> bool, k: nat)
    requires k < |a|
    requires forall j :: 0 <= j < k ==> !eq(a[j], a[k])
    ensures a[k] in Unique(a, eq)
    decreases |a|
  {
    var init := a[..|a| - 1];
    if k == |a| - 1 {
      assert a == init + [a[k]];
      var u := Unique(init, eq);
      forall i | 0 <= i < |u| ensures !eq(u[i], a[k]) {
        assert u[i] in init;
        var j :| 0 <= j < |init| && init[j] == u[i];
        assert a[j] == init[j];
      }
    } else {
      UniqueKeepsFirst(init, eq, k);
    }
  }

  /** A duplicate-free input (no earlier entry `eq` to a later one) is a fixed point of `unique`. */
  lemma {:induction false} UniqueOfDistinct<T>(a: seq<T>, eq: (T, T) -> bool)
    requires forall i, j :: 0 <= i < j < |a| ==> !eq(a[i], a[j])
    ensures Unique(a, eq) == a
    decreases |a|
  {
    if |a| > 0 {
      var init := a[..|a| - 1];
      UniqueOfDistinct(init, eq);
      assert !HasEqual(init, a[|a| - 1], eq);
      assert init + [a[|a| - 1]] == a;
    }
  }

  /** `unique(unique(a)) == unique(a)`. */
  lemma UniqueIdempotent<T>(a: seq<T>, eq: (T, T) -> bool)
    ensures Unique(Unique(a, eq), eq) == Unique(a, eq)
  {
    UniqueOfDistinct(Unique(a, eq), eq);
  }

  /** `exclude` keeps the order of the surviving entries: it distributes over
      concatenation, and leaves an input without `eq` entries as it is. */
  lemma {:induction false} ExcludeAppend<T, U>(a: seq<T>, b: seq<T>, el: U, eq: (T, U) -> bool)
    ensures Exclude(a + b, el, eq) == Exclude(a, el, eq) + Exclude(b, el, eq)
    decreases |a|
  {
    if |a| > 0 {
      assert (a + b)[0] == a[0];
      assert (a + b)[1..] == a[1..] + b;
      ExcludeAppend(a[1..], b, el, eq);
    } else {
      assert a + b == b;
    }
  }

  lemma {:induction false} ExcludeNothing<T, U>(a: seq<T>, el: U, eq: (T, U) -> bool)
    requires forall i :: 0 <= i < |a| ==> !eq(a[i], el)
    ensures Exclude(a, el, eq) == a
    decreases |a|
  {
    if |a| > 0 {
      ExcludeNothing(a[1..], el, eq);
      assert [a[0]] + a[1..] == a;
    }
  }

  /** `exclude` keeps a duplicate-free input duplicate-free. */
  lemma {:induction false} ExcludeKeepsDistinct<T, U>(a: seq<T>, el: U, eq: (T, U) -> bool)
    requires forall i, j :: 0 <= i < j < |a| ==> a[i] != a[j]
    ensures forall i, j :: 0 <= i < j < |Exclude(a, el, eq)| ==> Exclude(a, el, eq)[i] != Exclude(a, el, eq)[j]
    decreases |a|
  {
    if |a| > 0 {
      ExcludeKeepsDistinct(a[1..], el, eq);
      var rest := Exclude(a[1..], el, eq);
      assert forall i, j :: 0 <= i < j < |rest| ==> rest[i] != rest[j];
      assert forall i :: 0 <= i < |rest| ==> rest[i] in a[1..];
      assert a[0] !in a[1..] by {
        forall k | 0 <= k < |a[1..]| ensures a[1..][k] != a[0] { assert a[1..][k] == a[k + 1]; }
      }
      if !eq(a[0], el) {
        var r := [a[0]] + rest;
        assert Exclude(a, el, eq) == r;
        forall i, j | 0 <= i < j < |r| ensures r[i] != r[j] {
          if i == 0 {
            assert r[j] == rest[j - 1] && rest[j - 1] in a[1..];
          } else {
            assert r[i] == rest[i - 1] && r[j] == rest[j - 1];
            assert rest[i - 1] != rest[j - 1];
          }
        }
      }
    }
  }

  /** `intersect` keeps order: it distributes over concatenation of its first argument. */
  lemma {:induction false} IntersectAppend<T, U>(a: seq<T>, c: seq<T>, b: seq<U>, eq: (T, U) -> bool)
    ensures Intersect(a + c, b, eq) == Intersect(a, b, eq) + Intersect(c, b, eq)
    decreases |a|
  {
    if |a| > 0 {
      assert (a + c)[0] == a[0];
      assert (a + c)[1..] == a[1..] + c;
      IntersectAppend(a[1..], c, b, eq);
    } else {
      assert a + c == c;
    }
  }
}
