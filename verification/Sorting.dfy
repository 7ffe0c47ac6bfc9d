/** sort.Strings: byte-wise lexicographic order, and the one sorted arrangement of a list. */
module Sorting {

  predicate Leq(a: string, b: string) {
    |a| == 0 || (|b| > 0 && (a[0] < b[0] || (a[0] == b[0] && Leq(a[1..], b[1..]))))
  }

  /** Byte order: a is a prefix of b, or smaller at the first byte in which they differ. */
  lemma {:induction false} LeqMeaning(a: string, b: string)
    ensures Leq(a, b) <==>
              || (|a| <= |b| && b[..|a|] == a)
              || exists i | 0 <= i < |a| && i < |b| :: a[..i] == b[..i] && a[i] < b[i]
  {
    if |a| > 0 && |b| > 0 && a[0] == b[0] {
      LeqMeaning(a[1..], b[1..]);
      assert a == [a[0]] + a[1..] && b == [b[0]] + b[1..];
      if |a| <= |b| {
        assert b[..|a|] == [b[0]] + b[1..][..|a| - 1];
      }
      SmallerLater(a, b);
    } else if |a| > 0 && |b| > 0 {
      assert forall i | 0 < i < |a| && i < |b| :: a[..i][0] != b[..i][0];
      assert a[..0] == b[..0];
    }
  }

  lemma SmallerLater(a: string, b: string)
    requires |a| > 0 && |b| > 0 && a[0] == b[0]
    ensures (exists i | 0 <= i < |a| && i < |b| :: a[..i] == b[..i] && a[i] < b[i]) <==>
            (exists i | 0 <= i < |a[1..]| && i < |b[1..]| :: a[1..][..i] == b[1..][..i] && a[1..][i] < b[1..][i])
  {
    var s, t := a[1..], b[1..];
    if i :| 0 <= i < |a| && i < |b| && a[..i] == b[..i] && a[i] < b[i] {
      assert s[..i - 1] == a[..i][1..] && t[..i - 1] == b[..i][1..];
      assert s[i - 1] < t[i - 1];
    }
    if i :| 0 <= i < |s| && i < |t| && s[..i] == t[..i] && s[i] < t[i] {
      assert a[..i + 1] == [a[0]] + s[..i] && b[..i + 1] == [b[0]] + t[..i];
      assert a[i + 1] < b[i + 1];
    }
  }

  lemma {:induction false} LeqTotal(a: string, b: string)
    ensures Leq(a, b) || Leq(b, a)
    ensures Leq(a, b) && Leq(b, a) ==> a == b
  {
    if |a| > 0 && |b| > 0 && a[0] == b[0] {
      LeqTotal(a[1..], b[1..]);
      assert a == [a[0]] + a[1..] && b == [b[0]] + b[1..];
    }
  }

  lemma {:induction false} LeqTransitive(a: string, b: string, c: string)
    requires Leq(a, b) && Leq(b, c)
    ensures Leq(a, c)
  {
    if |a| > 0 && a[0] == b[0] && b[0] == c[0] {
      LeqTransitive(a[1..], b[1..], c[1..]);
    }
  }

  predicate IsSorted(s: seq<string>) {
    forall i, j | 0 <= i < j < |s| :: Leq(s[i], s[j])
  }

  function Insert(x: string, s: seq<string>): (r: seq<string>)
    ensures |r| == |s| + 1
  {
    if |s| == 0 || Leq(x, s[0]) then [x] + s else [s[0]] + Insert(x, s[1..])
  }

  /** The stable arrangement a sort of strings must produce. */
  function Sorted(s: seq<string>): (r: seq<string>)
    ensures |r| == |s|
  {
    if |s| == 0 then [] else Insert(s[0], Sorted(s[1..]))
  }

  lemma {:induction false} InsertKeeps(x: string, s: seq<string>)
    ensures multiset(Insert(x, s)) == multiset{x} + multiset(s)
  {
    if |s| > 0 && !Leq(x, s[0]) {
      InsertKeeps(x, s[1..]);
      assert s == [s[0]] + s[1..];
    }
  }

  lemma {:induction false} InsertSorts(x: string, s: seq<string>)
    requires IsSorted(s)
    ensures IsSorted(Insert(x, s))
  {
    if |s| > 0 {
      LeqTotal(x, s[0]);
      if Leq(x, s[0]) {
        forall i | 0 < i < |s| { LeqTransitive(x, s[0], s[i]); }
      } else {
        InsertSorts(x, s[1..]);
        InsertKeeps(x, s[1..]);
        var t := Insert(x, s[1..]);
        forall y | y in t ensures Leq(s[0], y) {
          assert y in multiset(t);
          if y != x { assert y in s[1..]; }
        }
      }
    }
  }

  lemma SortedHead(a: seq<string>, y: string)
    requires IsSorted(a) && y in a
    ensures Leq(a[0], y)
  {
    LeqTotal(y, y);
  }

  lemma SameTail<T>(a: seq<T>, b: seq<T>)
    requires |a| > 0 && |b| > 0 && a[0] == b[0]
    requires multiset(a) == multiset(b)
    ensures multiset(a[1..]) == multiset(b[1..])
  {
    assert a == [a[0]] + a[1..] && b == [b[0]] + b[1..];
    assert multiset(a[1..]) == multiset(a) - multiset{a[0]};
    assert multiset(b[1..]) == multiset(b) - multiset{a[0]};
  }

  lemma SameLength<T>(a: seq<T>, b: seq<T>)
    requires multiset(a) == multiset(b)
    ensures |a| == |b|
  {
    assert |a| == |multiset(a)| && |b| == |multiset(b)|;
  }

  /** Sorting arranges the same elements in order. */
  lemma {:induction false} SortedMeaning(s: seq<string>)
    ensures IsSorted(Sorted(s)) && multiset(Sorted(s)) == multiset(s)
  {
    if |s| > 0 {
      SortedMeaning(s[1..]);
      InsertKeeps(s[0], Sorted(s[1..]));
      InsertSorts(s[0], Sorted(s[1..]));
      assert s == [s[0]] + s[1..];
    }
  }

  /** In the order of bytes: of two elements, the earlier is a prefix of the later, or smaller at the
      first byte in which they differ. */
  lemma {:induction false} SortedByBytes(s: seq<string>)
    ensures var r := Sorted(s);
            forall i, j | 0 <= i < j < |r| ::
              || (|r[i]| <= |r[j]| && r[j][..|r[i]|] == r[i])
              || exists n | 0 <= n < |r[i]| && n < |r[j]| :: r[i][..n] == r[j][..n] && r[i][n] < r[j][n]
  {
    SortedMeaning(s);
    var r := Sorted(s);
    hide Sorted, Leq;
    forall i, j | 0 <= i < j < |r| {
      LeqMeaning(r[i], r[j]);
    }
  }

  /** A list has only one sorted arrangement. */
  lemma {:induction false} SortedUnique(a: seq<string>, b: seq<string>)
    requires IsSorted(a) && IsSorted(b)
    requires multiset(a) == multiset(b)
    ensures a == b
  {
    SameLength(a, b);
    if |a| > 0 {
      assert IsSorted(a[1..]) && IsSorted(b[1..]);
      hide Leq, IsSorted;
      assert a[0] == b[0] by {
        assert a[0] in multiset(b) && b[0] in multiset(a);
        SortedHead(a, b[0]);
        SortedHead(b, a[0]);
        LeqTotal(a[0], b[0]);
      }
      SameTail(a, b);
      SortedUnique(a[1..], b[1..]);
      assert a == [a[0]] + a[1..] && b == [b[0]] + b[1..];
    }
  }

  /** Comparing sorted copies is comparing multisets. */
  lemma SortedEqualIffSameMultiset(a: seq<string>, b: seq<string>)
    ensures Sorted(a) == Sorted(b) <==> multiset(a) == multiset(b)
  {
    SortedMeaning(a);
    SortedMeaning(b);
    hide Sorted;
    if multiset(a) == multiset(b) {
      SortedUnique(Sorted(a), Sorted(b));
    }
  }

  /** sort.Strings on a slice: the elements move inside the array they share with every alias.
      The library's own algorithm is not part of this model; the sorted arrangement is unique. */
  method SortStrings(a: array<string>)
    modifies a
    ensures a[..] == Sorted(old(a[..]))
  {
    var s := Sorted(a[..]);
    SortedMeaning(a[..]);
    forall i | 0 <= i < a.Length {
      a[i] := s[i];
    }
  }
}
