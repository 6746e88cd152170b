/** Sorted key lists: `sort.Strings` over keys collected from a map in any order. */
module SortedKeys {
  import opened Bytes

  /** Bytewise lexicographic order. */
  predicate Leq(a: Bytes, b: Bytes) {
    a == "" || (b != "" && (a[0] < b[0] || (a[0] == b[0] && Leq(a[1..], b[1..]))))
  }

  lemma {:induction false} LeqTotal(a: Bytes, b: Bytes)
    ensures Leq(a, b) || Leq(b, a)
    ensures Leq(a, b) && Leq(b, a) ==> a == b
  {
    if a != "" && b != "" && a[0] == b[0] {
      LeqTotal(a[1..], b[1..]);
      assert a == [a[0]] + a[1..] && b == [b[0]] + b[1..];
    }
  }

  lemma {:induction false} LeqTransitive(a: Bytes, b: Bytes, c: Bytes)
    requires Leq(a, b) && Leq(b, c)
    ensures Leq(a, c)
  {
    if a != "" && a[0] == b[0] == c[0] { LeqTransitive(a[1..], b[1..], c[1..]); }
  }

  ghost predicate IsSorted(q: seq<Bytes>) {
    forall i, j :: 0 <= i < j < |q| ==> Leq(q[i], q[j])
  }

  /** The first byte in which `a` and `b` differ is smaller in `a`. */
  ghost predicate Below(a: Bytes, b: Bytes, k: nat) {
    k < |a| && k < |b| && a[..k] == b[..k] && a[k] < b[k]
  }

  lemma BelowTail(a: Bytes, b: Bytes, k: nat)
    requires a != "" && b != "" && a[0] == b[0]
    ensures Below(a[1..], b[1..], k) <==> Below(a, b, k + 1)
  {
    if k < |a| - 1 && k < |b| - 1 {
      assert a[..k + 1] == [a[0]] + a[1..][..k] && b[..k + 1] == [b[0]] + b[1..][..k];
    }
  }

  lemma FirstDiffers(a: Bytes, b: Bytes)
    requires a != "" && b != ""
    ensures forall k: nat :: Below(a, b, k) ==> k == 0 || a[0] == b[0]
  {
    forall k: nat | Below(a, b, k) ensures k == 0 || a[0] == b[0] {
      if k > 0 { assert a[..k][0] == b[..k][0]; }
    }
  }

  /** The order is the bytewise one sort.Strings sorts by: a prefix first, else by the first difference. */
  lemma {:induction false} LeqMeans(a: Bytes, b: Bytes)
    ensures Leq(a, b) <==> a <= b || exists k: nat :: Below(a, b, k)
  {
    if a != "" && b != "" {
      if a[0] != b[0] {
        assert a[0] < b[0] ==> Below(a, b, 0);
        FirstDiffers(a, b);
      } else {
        LeqMeans(a[1..], b[1..]);
        assert a[1..] <= b[1..] <==> a <= b by {
          assert a == [a[0]] + a[1..] && b == [b[0]] + b[1..];
        }
        forall k: nat | Below(a, b, k) ensures k > 0 && Below(a[1..], b[1..], k - 1) {
          BelowTail(a, b, k - 1);
        }
        forall k: nat | Below(a[1..], b[1..], k) ensures Below(a, b, k + 1) {
          BelowTail(a, b, k);
        }
      }
    }
  }

  /** A list in which each key is followed by one no smaller is sorted. */
  lemma {:induction false} ChainSorted(q: seq<Bytes>)
    requires forall i :: 0 < i < |q| ==> Leq(q[i - 1], q[i])
    ensures IsSorted(q)
  {
    hide Leq;
    if |q| > 1 {
      var n := |q| - 1;
      ChainSorted(q[..n]);
      forall i, j | 0 <= i < j < |q| ensures Leq(q[i], q[j]) {
        if j < n {
          assert q[..n][i] == q[i] && q[..n][j] == q[j];
        } else if i < n - 1 {
          assert q[..n][i] == q[i] && q[..n][n - 1] == q[n - 1];
          LeqTransitive(q[i], q[n - 1], q[n]);
        }
      }
    }
  }

  ghost predicate IsLeast(m: Bytes, s: set<Bytes>) {
    m in s && forall x :: x in s ==> Leq(m, x)
  }

  lemma {:induction false} LeastExists(s: set<Bytes>)
    requires s != {}
    ensures exists m :: IsLeast(m, s)
    decreases |s|
  {
    var x :| x in s;
    var rest := s - {x};
    if rest == {} {
      LeqTotal(x, x);
      assert s == {x};
      assert IsLeast(x, s);
    } else {
      LeastExists(rest);
      var m :| IsLeast(m, rest);
      LeqTotal(x, m);
      LeqTotal(x, x);
      var least := if Leq(x, m) then x else m;
      forall y | y in s ensures Leq(least, y) {
        if y != x && Leq(x, m) { LeqTransitive(x, m, y); }
      }
      assert IsLeast(least, s);
    }
  }

  /** The keys of `s` in order. */
  ghost function Sorted(s: set<Bytes>): (q: seq<Bytes>)
    ensures forall x :: x in q <==> x in s
    ensures |q| == |s|
    decreases |s|
  {
    if s == {} then []
    else
      LeastExists(s);
      var m :| IsLeast(m, s);
      [m] + Sorted(s - {m})
  }

  lemma {:induction false} SortedIsSorted(s: set<Bytes>)
    ensures IsSorted(Sorted(s))
    decreases |s|
  {
    var q := Sorted(s);
    if s != {} {
      var m := q[0];
      assert q[1..] == Sorted(s - {m});
      SortedIsSorted(s - {m});
      forall i, j | 0 <= i < j < |q| ensures Leq(q[i], q[j]) {
        assert q[j] == q[1..][j - 1];
        if i == 0 {
          assert q[j] in s;
        } else {
          assert q[i] == q[1..][i - 1];
        }
      }
    }
  }

  /** `p` lists the elements of `s`, each once. */
  ghost predicate Lists(p: seq<Bytes>, s: set<Bytes>) {
    |p| == |s| && forall x :: x in p <==> x in s
  }

  lemma SortedStep(s: set<Bytes>)
    requires s != {}
    ensures Sorted(s) != [] && IsLeast(Sorted(s)[0], s) && Sorted(s) == [Sorted(s)[0]] + Sorted(s - {Sorted(s)[0]})
  {
    hide Leq;
  }

  lemma HeadIsLeast(p: seq<Bytes>, s: set<Bytes>)
    requires IsSorted(p) && Lists(p, s) && s != {}
    ensures p != [] && IsLeast(p[0], s)
  {
    hide Leq;
    var y :| y in s;
    assert y in p && p[0] in p;
    forall x | x in s ensures Leq(p[0], x) {
      assert x in p;
      LeqTotal(x, x);
    }
  }

  lemma LeastIsOne(a: Bytes, b: Bytes, s: set<Bytes>)
    requires IsLeast(a, s) && IsLeast(b, s)
    ensures a == b
  {
    hide Leq;
    LeqTotal(a, b);
  }

  lemma TailLists(p: seq<Bytes>, s: set<Bytes>)
    requires Lists(p, s) && p != []
    ensures Lists(p[1..], s - {p[0]})
  {
    NoDuplicates(p, s);
    assert p[0] in p;
    forall x ensures x in p[1..] <==> x in s - {p[0]} {
      if x in p[1..] {
        var i :| 0 <= i < |p[1..]| && p[1..][i] == x;
        assert p[i + 1] == x;
        assert x in p;
      }
      if x in s - {p[0]} {
        assert x in p;
        var i :| 0 <= i < |p| && p[i] == x;
        assert p[1..][i - 1] == x;
      }
    }
  }

  lemma TailSorted(p: seq<Bytes>)
    requires IsSorted(p) && p != []
    ensures IsSorted(p[1..])
  {
    hide Leq;
  }

  /** Map iteration order does not matter: any sorted listing of the same keys is the same list. */
  lemma {:induction false} SortedIsUnique(p: seq<Bytes>, s: set<Bytes>)
    requires IsSorted(p) && Lists(p, s)
    ensures p == Sorted(s)
    decreases |s|
  {
    hide Sorted, IsSorted, Leq, IsLeast;
    if s == {} {
      assert p == [];
    } else {
      SortedStep(s);
      HeadIsLeast(p, s);
      LeastIsOne(p[0], Sorted(s)[0], s);
      TailLists(p, s);
      TailSorted(p);
      SortedIsUnique(p[1..], s - {p[0]});
      assert p == [p[0]] + p[1..];
    }
  }

  /** A list as long as the set of its elements repeats none. */
  lemma {:induction false} NoDuplicates(p: seq<Bytes>, s: set<Bytes>)
    requires Lists(p, s)
    ensures forall i, j :: 0 <= i < j < |p| ==> p[i] != p[j]
  {
    forall i, j | 0 <= i < j < |p| ensures p[i] != p[j] {
      if p[i] == p[j] {
        var q := p[..j] + p[j + 1..];
        assert forall x :: x in s ==> x in q by {
          forall x | x in s ensures x in q {
            var k :| 0 <= k < |p| && p[k] == x;
            if k < j { assert q[k] == x; }
            else if k == j { assert q[i] == x; }
            else { assert q[k - 1] == x; }
          }
        }
        SetOfSeqSmall(q, s);
      }
    }
  }

  lemma {:induction false} SetOfSeqSmall(q: seq<Bytes>, s: set<Bytes>)
    requires forall x :: x in s ==> x in q
    ensures |s| <= |q|
  {
    if q == [] {
      assert s == {};
    } else {
      var x := q[0];
      forall y | y in s - {x} ensures y in q[1..] {
        var k :| 0 <= k < |q| && q[k] == y;
        assert q[1..][k - 1] == y;
      }
      SetOfSeqSmall(q[1..], s - {x});
      assert |s| <= |s - {x}| + 1;
    }
  }

  /** sort.Strings on a list of distinct keys. */
  method SortStrings(keys: seq<Bytes>, ghost s: set<Bytes>) returns (r: seq<Bytes>)
    requires Lists(keys, s)
    ensures r == Sorted(s)
  {
    hide Sorted, Leq;
    r := [];
    for n := 0 to |keys|
      invariant |r| == n && IsSorted(r)
      invariant forall x :: x in r <==> x in keys[..n]
    {
      ghost var before := r;
      r := Insert(r, keys[n]);
      assert keys[..n + 1] == keys[..n] + [keys[n]];
    }
    assert keys[..|keys|] == keys;
    SortedIsUnique(r, s);
  }

  method Insert(q: seq<Bytes>, x: Bytes) returns (r: seq<Bytes>)
    requires IsSorted(q)
    ensures IsSorted(r) && |r| == |q| + 1
    ensures forall y :: y in r <==> y in q || y == x
  {
    var i := 0;
    while i < |q| && Leq(q[i], x)
      invariant 0 <= i <= |q|
      invariant forall k :: 0 <= k < i ==> Leq(q[k], x)
    {
      i := i + 1;
    }
    r := q[..i] + [x] + q[i..];
    forall k | i <= k < |q| ensures Leq(x, q[k]) {
      LeqTotal(q[i], x);
      if k > i { LeqTransitive(x, q[i], q[k]); }
    }
    assert q == q[..i] + q[i..];
  }
}
