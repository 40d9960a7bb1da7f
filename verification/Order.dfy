/** The order of Go strings and the sorting of string slices (slices.Sort). */
module Order {
  /** Lexicographic order on characters. */
  predicate Leq(a: string, b: string) {
    a == "" || (b != "" && (a[0] < b[0] || (a[0] == b[0] && Leq(a[1..], b[1..]))))
  }

  /** The order of the standard: at the first position where two strings differ the smaller character decides,
      and a string comes before every longer one that it starts. */
  predicate Before(a: string, b: string) {
    || (|a| < |b| && a == b[..|a|])
    || exists i | 0 <= i < |a| && i < |b| :: a[..i] == b[..i] && a[i] < b[i]
  }

  lemma {:induction false} LeqFirstDifference(p: string, x: char, a: string, y: char, b: string)
    requires x < y
    ensures Leq(p + [x] + a, p + [y] + b) && !Leq(p + [y] + b, p + [x] + a)
    decreases |p|
  {
    var s, t := p + [x] + a, p + [y] + b;
    if p != "" {
      assert s[1..] == p[1..] + [x] + a && t[1..] == p[1..] + [y] + b;
      LeqFirstDifference(p[1..], x, a, y, b);
    }
  }

  lemma {:induction false} LeqPrefix(p: string, a: string)
    ensures Leq(p, p + a)
    decreases |p|
  {
    if p != "" {
      assert (p + a)[1..] == p[1..] + a;
      LeqPrefix(p[1..], a);
    }
  }

  /** Two strings have a first difference, or one starts the other. */
  lemma {:induction false} Compared(a: string, b: string)
    ensures a == b || Before(a, b) || Before(b, a)
    decreases |a|
  {
    if a != "" && b != "" {
      assert a == [a[0]] + a[1..] && b == [b[0]] + b[1..];
      if a[0] == b[0] {
        Compared(a[1..], b[1..]);
        if Before(a[1..], b[1..]) {
          BeforeTail(a, b);
        } else if Before(b[1..], a[1..]) {
          BeforeTail(b, a);
        }
      } else {
        assert a[..0] == b[..0];
      }
    }
  }

  lemma BeforeTail(a: string, b: string)
    requires a != "" && b != "" && a[0] == b[0] && Before(a[1..], b[1..])
    ensures Before(a, b)
  {
    if |a[1..]| < |b[1..]| && a[1..] == b[1..][..|a[1..]|] {
      assert a == [a[0]] + a[1..] && b[..|a|] == [b[0]] + b[1..][..|a| - 1];
    } else {
      var i :| 0 <= i < |a[1..]| && i < |b[1..]| && a[1..][..i] == b[1..][..i] && a[1..][i] < b[1..][i];
      assert a[..i + 1] == [a[0]] + a[1..][..i] && b[..i + 1] == [b[0]] + b[1..][..i];
    }
  }

  lemma BeforeIsLeq(a: string, b: string)
    requires Before(a, b)
    ensures Leq(a, b) && a != b
  {
    if |a| < |b| && a == b[..|a|] {
      assert b == a + b[|a|..];
      LeqPrefix(a, b[|a|..]);
    } else {
      var i :| 0 <= i < |a| && i < |b| && a[..i] == b[..i] && a[i] < b[i];
      assert a == a[..i] + [a[i]] + a[i + 1..] && b == b[..i] + [b[i]] + b[i + 1..];
      LeqFirstDifference(a[..i], a[i], a[i + 1..], b[i], b[i + 1..]);
    }
  }

  /** The order by which slices are sorted is that order. */
  lemma LeqMeans(a: string, b: string)
    ensures Leq(a, b) <==> a == b || Before(a, b)
  {
    Compared(a, b);
    LeqTotal(a, b);
    if Before(a, b) {
      BeforeIsLeq(a, b);
    }
    if Before(b, a) {
      BeforeIsLeq(b, a);
    }
    if Leq(a, b) && Leq(b, a) {
      LeqAntisymmetric(a, b);
    }
  }

  lemma LeqTotal(a: string, b: string)
    ensures Leq(a, b) || Leq(b, a)
  {
  }

  lemma {:induction false} LeqAntisymmetric(a: string, b: string)
    requires Leq(a, b) && Leq(b, a)
    ensures a == b
  {
    if a != "" {
      LeqAntisymmetric(a[1..], b[1..]);
      assert a == [a[0]] + a[1..] && b == [b[0]] + b[1..];
    }
  }

  lemma {:induction false} LeqTransitive(a: string, b: string, c: string)
    requires Leq(a, b) && Leq(b, c)
    ensures Leq(a, c)
  {
    if a != "" && a[0] == b[0] && b[0] == c[0] {
      LeqTransitive(a[1..], b[1..], c[1..]);
    }
  }

  predicate Sorted(s: seq<string>) {
    forall i, j | 0 <= i < j < |s| :: Leq(s[i], s[j])
  }

  function Insert(x: string, s: seq<string>): seq<string> {
    if s == [] || Leq(x, s[0]) then [x] + s else [s[0]] + Insert(x, s[1..])
  }

  /** slices.Sort. */
  function Sort(s: seq<string>): seq<string> {
    if s == [] then [] else Insert(s[0], Sort(s[1..]))
  }

  lemma {:induction false} InsertKeeps(x: string, s: seq<string>)
    ensures multiset(Insert(x, s)) == multiset{x} + multiset(s)
  {
    if s != [] {
      assert s == [s[0]] + s[1..];
      if !Leq(x, s[0]) {
        InsertKeeps(x, s[1..]);
      }
    }
  }

  lemma {:induction false} InsertSorted(x: string, s: seq<string>)
    requires Sorted(s)
    ensures Sorted(Insert(x, s))
  {
    if s != [] {
      if Leq(x, s[0]) {
        forall i | 0 <= i < |s| ensures Leq(x, s[i]) {
          if i > 0 {
            LeqTransitive(x, s[0], s[i]);
          }
        }
      } else {
        LeqTotal(x, s[0]);
        var r := Insert(x, s[1..]);
        InsertSorted(x, s[1..]);
        InsertKeeps(x, s[1..]);
        forall i | 0 <= i < |r| ensures Leq(s[0], r[i]) {
          assert r[i] in multiset(r);
          assert r[i] == x || r[i] in s[1..];
        }
      }
    }
  }

  /** Sorting gives a sorted permutation. */
  lemma {:induction false} SortSorts(s: seq<string>)
    ensures Sorted(Sort(s)) && multiset(Sort(s)) == multiset(s)
    ensures |Sort(s)| == |s|
  {
    if s != [] {
      SortSorts(s[1..]);
      InsertKeeps(s[0], Sort(s[1..]));
      InsertSorted(s[0], Sort(s[1..]));
      assert s == [s[0]] + s[1..];
    }
    assert |multiset(Sort(s))| == |multiset(s)|;
  }

  /** There is only one sorted permutation. */
  lemma {:induction false} SortedIsUnique(a: seq<string>, b: seq<string>)
    requires Sorted(a) && Sorted(b) && multiset(a) == multiset(b)
    ensures a == b
  {
    if a == [] {
      assert |multiset(b)| == 0;
    } else {
      assert a[0] in multiset(b) && |multiset(a)| == |multiset(b)|;
      assert b[0] in multiset(a);
      SmallestFirst(a, b[0]);
      SmallestFirst(b, a[0]);
      LeqAntisymmetric(a[0], b[0]);
      TailCounts(a);
      TailCounts(b);
      SortedIsUnique(a[1..], b[1..]);
      assert a == [a[0]] + a[1..] && b == [b[0]] + b[1..];
    }
  }

  lemma TailCounts(s: seq<string>)
    requires s != []
    ensures multiset(s[1..]) == multiset(s) - multiset{s[0]}
  {
    assert s == [s[0]] + s[1..];
  }

  /** Sorting is ascending in that order. */
  lemma SortAscends(s: seq<string>, i: nat, j: nat)
    requires i < j < |s|
    ensures |Sort(s)| == |s| && (Sort(s)[i] == Sort(s)[j] || Before(Sort(s)[i], Sort(s)[j]))
  {
    SortSorts(s);
    LeqMeans(Sort(s)[i], Sort(s)[j]);
  }

  lemma SmallestFirst(s: seq<string>, x: string)
    requires Sorted(s) && x in s
    ensures Leq(s[0], x)
  {
    var i :| 0 <= i < |s| && s[i] == x;
    if i == 0 {
      LeqTotal(x, x);
    }
  }

  /** The order in which elements were appended does not matter. */
  lemma SortIgnoresOrder(a: seq<string>, b: seq<string>)
    requires multiset(a) == multiset(b)
    ensures Sort(a) == Sort(b)
  {
    SortSorts(a);
    SortSorts(b);
    SortedIsUnique(Sort(a), Sort(b));
  }
}
