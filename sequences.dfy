/** Generic facts about sequences: distinctness, first occurrences, deduplication. */
module Sequences {

  predicate Distinct<T(==,!new)>(s: seq<T>) {
    forall i, j :: 0 <= i < j < |s| ==> s[i] != s[j]
  }

  /** Position of the first occurrence of `x` in `s`. */
  function IndexOf<T(==,!new)>(s: seq<T>, x: T): (i: nat)
    requires x in s
    ensures i < |s| && s[i] == x
    ensures forall j :: 0 <= j < i ==> s[j] != x
  {
    if s[0] == x then 0 else 1 + IndexOf(s[1..], x)
  }

  /**
   * The elements of `s` in the order of their first occurrence, each once: the key order of a
   * LinkedHashMap into which the keys of `s` were put one after another.
   */
  function Dedup<T(==,!new)>(s: seq<T>): (r: seq<T>)
    ensures Distinct(r)
    ensures forall x :: x in r <==> x in s
  {
    if s == [] then []
    else
      var p := s[..|s| - 1];
      assert forall x :: x in s <==> x in p || x == s[|s| - 1];
      if s[|s| - 1] in p then Dedup(p) else Dedup(p) + [s[|s| - 1]]
  }

  /** The elements of `b` that are not in `a`, in order. */
  function Without<T(==,!new)>(b: seq<T>, a: seq<T>): (r: seq<T>)
    ensures forall x :: x in r <==> x in b && x !in a
  {
    if b == [] then []
    else
      var p := b[..|b| - 1];
      assert forall x :: x in b <==> x in p || x == b[|b| - 1];
      if b[|b| - 1] in a then Without(p, a) else Without(p, a) + [b[|b| - 1]]
  }

  lemma DedupSnoc<T(!new)>(s: seq<T>, x: T)
    ensures Dedup(s + [x]) == if x in s then Dedup(s) else Dedup(s) + [x]
  {
    assert (s + [x])[..|s|] == s;
  }

  lemma WithoutSnoc<T(!new)>(b: seq<T>, x: T, a: seq<T>)
    ensures Without(b + [x], a) == if x in a then Without(b, a) else Without(b, a) + [x]
  {
    assert (b + [x])[..|b|] == b;
  }

  /** An element new to `w` goes at the end of `w`'s deduplication, whatever precedes it. */
  lemma DedupSnocNew<T(!new)>(d: seq<T>, w: seq<T>, x: T)
    requires x !in w
    ensures d + Dedup(w) + [x] == d + Dedup(w + [x])
  {
    DedupSnoc(w, x);
    var u := Dedup(w);
    var l, r := (d + u) + [x], d + (u + [x]);
    assert |l| == |r|;
    forall i | 0 <= i < |l| ensures l[i] == r[i] {
      if i < |d| { assert l[i] == d[i] == r[i]; }
    }
    assert l == r;
  }

  /** Deduplicating `a + b` keeps the first occurrences from `a`, then the new elements of `b` in their own first-occurrence order. */
  lemma {:induction false} DedupAppend<T(!new)>(a: seq<T>, b: seq<T>)
    ensures Dedup(a + b) == Dedup(a) + Dedup(Without(b, a))
  {
    if b == [] {
      assert a + b == a;
    } else {
      var p, x := b[..|b| - 1], b[|b| - 1];
      var w := Without(p, a);
      assert b == p + [x];
      assert a + b == (a + p) + [x];
      DedupAppend(a, p);
      DedupSnoc(a + p, x);
      WithoutSnoc(p, x, a);
      DedupSnoc(w, x);
      if x in a {
        assert x in a + p;
        calc {
          Dedup(a + b);
          Dedup(a + p);
          Dedup(a) + Dedup(w);
          Dedup(a) + Dedup(Without(b, a));
        }
      } else if x in p {
        assert x in a + p && x in w;
        calc {
          Dedup(a + b);
          Dedup(a + p);
          Dedup(a) + Dedup(w);
          Dedup(a) + Dedup(w + [x]);
          Dedup(a) + Dedup(Without(b, a));
        }
      } else {
        assert x !in a + p && x !in w;
        DedupSnocNew(Dedup(a), w, x);
        calc {
          Dedup(a + b);
          Dedup(a + p) + [x];
          Dedup(a) + Dedup(w) + [x];
          Dedup(a) + Dedup(w + [x]);
          Dedup(a) + Dedup(Without(b, a));
        }
      }
    }
  }

  /** `Dedup` orders elements by their first occurrence in `s`. */
  lemma {:induction false} DedupKeepsFirstPositions<T(!new)>(s: seq<T>, i: nat, j: nat)
    requires i < j < |Dedup(s)|
    ensures IndexOf(s, Dedup(s)[i]) < IndexOf(s, Dedup(s)[j])
  {
    var p := s[..|s| - 1];
    var x := s[|s| - 1];
    var d := Dedup(s);
    assert forall y :: y in p ==> IndexOf(s, y) == IndexOf(p, y) by {
      forall y | y in p ensures IndexOf(s, y) == IndexOf(p, y) {
        IndexOfPrefix(p, s, y);
      }
    }
    if x in p {
      DedupKeepsFirstPositions(p, i, j);
    } else if j < |Dedup(p)| {
      assert d[i] == Dedup(p)[i] && d[j] == Dedup(p)[j];
      DedupKeepsFirstPositions(p, i, j);
    } else {
      assert d[j] == x && d[i] == Dedup(p)[i];
      assert d[i] in p;
      assert IndexOf(s, x) == |p|;
    }
  }

  lemma {:induction false} IndexOfPrefix<T(!new)>(p: seq<T>, s: seq<T>, y: T)
    requires p <= s && y in p
    ensures IndexOf(s, y) == IndexOf(p, y)
  {
    if p[0] != y {
      assert p[1..] <= s[1..];
      IndexOfPrefix(p[1..], s[1..], y);
    }
  }
}
