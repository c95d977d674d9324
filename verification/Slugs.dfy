/** Add-on slugs in Python's order: `sorted(set(...))`, reversal and the set differences built on it. */
module Slugs {

  type Slug = string

  /** Lexicographic by code point, as Python compares strings. */
  predicate Less(a: Slug, b: Slug)
  {
    if b == "" then false
    else if a == "" then true
    else a[0] < b[0] || (a[0] == b[0] && Less(a[1..], b[1..]))
  }

  predicate Ascending(xs: seq<Slug>) { forall i, j :: 0 <= i < j < |xs| ==> Less(xs[i], xs[j]) }

  predicate Distinct(xs: seq<Slug>) { forall i, j :: 0 <= i < j < |xs| ==> xs[i] != xs[j] }

  lemma {:induction false} LessIsTotal(a: Slug, b: Slug)
    ensures !Less(a, a)
    ensures a != b ==> Less(a, b) || Less(b, a)
  {
    if a != "" {
      LessIsTotal(a[1..], if b == "" then b else b[1..]);
      if b != "" && a[1..] == b[1..] && a[0] == b[0] {
        assert a == [a[0]] + a[1..] && b == [b[0]] + b[1..];
      }
    }
  }

  /** `a` is a proper prefix of `b`, or smaller at the first place where they differ. */
  ghost predicate Precedes(a: Slug, b: Slug, k: nat)
  {
    k <= |a| && k < |b| && a[..k] == b[..k] && (k < |a| ==> a[k] < b[k])
  }

  lemma {:induction false} LessExactly(a: Slug, b: Slug)
    ensures Less(a, b) <==> exists k: nat :: Precedes(a, b, k)
  {
    if b != "" && a == "" {
      assert Precedes(a, b, 0);
    } else if b != "" && a[0] < b[0] {
      assert Precedes(a, b, 0);
    } else if b != "" && a[0] == b[0] {
      LessExactly(a[1..], b[1..]);
      if Less(a, b) {
        var k: nat :| Precedes(a[1..], b[1..], k);
        assert a[..k + 1] == [a[0]] + a[1..][..k] && b[..k + 1] == [b[0]] + b[1..][..k];
        assert Precedes(a, b, k + 1);
      }
      if exists k: nat :: Precedes(a, b, k) {
        var k: nat :| Precedes(a, b, k);
        assert a[1..][..k - 1] == a[..k][1..] && b[1..][..k - 1] == b[..k][1..];
        assert Precedes(a[1..], b[1..], k - 1);
      }
    } else if b != "" {
      forall k: nat ensures !Precedes(a, b, k) {
        assert k > 0 && k <= |a| && k < |b| ==> a[..k][0] == a[0] && b[..k][0] == b[0];
      }
    }
  }

  lemma {:induction false} LessIsTransitive(a: Slug, b: Slug, c: Slug)
    requires Less(a, b) && Less(b, c)
    ensures Less(a, c)
  {
    if a != "" && a[0] == b[0] && b[0] == c[0] {
      LessIsTransitive(a[1..], b[1..], c[1..]);
    }
  }

  function Insert(x: Slug, xs: seq<Slug>): (r: seq<Slug>)
    ensures forall y :: y in r <==> y == x || y in xs
  {
    if xs == [] then [x]
    else if x == xs[0] then xs
    else if Less(x, xs[0]) then [x] + xs
    else
      assert xs == [xs[0]] + xs[1..];
      [xs[0]] + Insert(x, xs[1..])
  }

  /** `sorted(set(xs))`. */
  function SortedSet(xs: seq<Slug>): (r: seq<Slug>)
    ensures forall y :: y in r <==> y in xs
  {
    if xs == [] then []
    else
      assert xs == [xs[0]] + xs[1..];
      Insert(xs[0], SortedSet(xs[1..]))
  }

  lemma {:induction false} InsertAscends(x: Slug, xs: seq<Slug>)
    requires Ascending(xs)
    ensures Ascending(Insert(x, xs))
  {
    if xs != [] && x != xs[0] {
      LessIsTotal(x, xs[0]);
      assert forall i :: 1 <= i < |xs| ==> xs[i] == xs[1..][i - 1];
      var r := Insert(x, xs);
      if Less(x, xs[0]) {
        forall i | 0 <= i < |xs| ensures Less(x, xs[i]) {
          if i > 0 {
            LessIsTransitive(x, xs[0], xs[i]);
          }
        }
      } else {
        InsertAscends(x, xs[1..]);
        var rest := Insert(x, xs[1..]);
        forall j | 1 <= j < |r| ensures Less(r[0], r[j]) {
          assert r[j] == rest[j - 1] && rest[j - 1] in rest;
        }
      }
    }
  }

  lemma {:induction false} SortedSetAscends(xs: seq<Slug>)
    ensures Ascending(SortedSet(xs)) && Distinct(SortedSet(xs))
  {
    if xs != [] {
      SortedSetAscends(xs[1..]);
      InsertAscends(xs[0], SortedSet(xs[1..]));
    }
    var r := SortedSet(xs);
    forall i, j | 0 <= i < j < |r| ensures r[i] != r[j] {
      LessIsTotal(r[i], r[j]);
    }
  }

  function Reverse(xs: seq<Slug>): (r: seq<Slug>)
    ensures |r| == |xs| && forall i :: 0 <= i < |xs| ==> r[i] == xs[|xs| - 1 - i]
  {
    if xs == [] then [] else [xs[|xs| - 1]] + Reverse(xs[..|xs| - 1])
  }

  /** The elements of `xs` that `ys` does not hold, in the order of `xs`. */
  function Without(xs: seq<Slug>, ys: seq<Slug>): (r: seq<Slug>)
    ensures forall x :: x in r <==> x in xs && x !in ys
  {
    if xs == [] then []
    else
      var init, last := xs[..|xs| - 1], xs[|xs| - 1];
      assert xs == init + [last];
      if last in ys then Without(init, ys) else Without(init, ys) + [last]
  }

  /** The elements of `xs` that `ys` holds, in the order of `xs`. */
  function Only(xs: seq<Slug>, ys: seq<Slug>): (r: seq<Slug>)
    ensures forall x :: x in r <==> x in xs && x in ys
  {
    if xs == [] then []
    else
      assert xs == [xs[0]] + xs[1..];
      if xs[0] in ys then [xs[0]] + Only(xs[1..], ys) else Only(xs[1..], ys)
  }

  lemma {:induction false} OnlyAll(xs: seq<Slug>, ys: seq<Slug>)
    requires forall x :: x in xs ==> x in ys
    ensures Only(xs, ys) == xs
  {
    if xs != [] {
      OnlyAll(xs[1..], ys);
    }
  }

  /** Only whether `ys` holds the elements of `xs` matters. */
  lemma {:induction false} WithoutAgrees(xs: seq<Slug>, ys: seq<Slug>, zs: seq<Slug>)
    requires forall x :: x in xs ==> (x in ys <==> x in zs)
    ensures Without(xs, ys) == Without(xs, zs)
  {
    if xs != [] {
      WithoutAgrees(xs[..|xs| - 1], ys, zs);
    }
  }

  lemma {:induction false} WithoutAll(xs: seq<Slug>)
    ensures Without(xs, []) == xs && Without(xs, xs) == []
  {
    if xs != [] {
      var init := xs[..|xs| - 1];
      WithoutAll(init);
      WithoutSuffix(init, xs);
    }
  }

  lemma {:induction false} WithoutSuffix(xs: seq<Slug>, ys: seq<Slug>)
    requires forall x :: x in xs ==> x in ys
    ensures Without(xs, ys) == []
  {
    if xs != [] {
      WithoutSuffix(xs[..|xs| - 1], ys);
    }
  }

  lemma {:induction false} WithoutAscends(xs: seq<Slug>, ys: seq<Slug>)
    requires Distinct(xs)
    ensures Distinct(Without(xs, ys))
  {
    if xs != [] {
      var init, last := xs[..|xs| - 1], xs[|xs| - 1];
      WithoutAscends(init, ys);
      assert last !in init;
    }
  }
}
