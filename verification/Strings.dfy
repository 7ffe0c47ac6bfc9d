/** Go's strings.Split, strings.Join and strings.Replace, as far as the provider uses them.
    A Go string is a sequence of bytes; here each `char` stands for one byte. */
module Strings {

  /** strings.Split with a one-byte separator: never empty. */
  function Split(s: string, sep: char): (parts: seq<string>)
    ensures |parts| > 0
  {
    if |s| == 0 then [""]
    else
      var rest := Split(s[1..], sep);
      if s[0] == sep then [""] + rest else [[s[0]] + rest[0]] + rest[1..]
  }

  lemma {:induction false} SplitPieces(s: string, sep: char)
    ensures forall p | p in Split(s, sep) :: sep !in p
  {
    if |s| > 0 {
      SplitPieces(s[1..], sep);
    }
  }

  function Join(parts: seq<string>, sep: char): string {
    if |parts| == 0 then ""
    else if |parts| == 1 then parts[0]
    else parts[0] + [sep] + Join(parts[1..], sep)
  }

  lemma {:induction false} JoinSplit(s: string, sep: char)
    ensures Join(Split(s, sep), sep) == s
  {
    if |s| > 0 {
      JoinSplit(s[1..], sep);
      var rest := Split(s[1..], sep);
      if s[0] == sep {
        assert Split(s, sep)[1..] == rest;
      } else {
        assert Split(s, sep)[1..] == rest[1..];
      }
    }
  }

  lemma {:induction false} SplitPlain(s: string, sep: char)
    requires sep !in s
    ensures Split(s, sep) == [s]
  {
    if |s| > 0 {
      assert sep !in s[1..];
      SplitPlain(s[1..], sep);
      assert [s[0]] + s[1..] == s;
    }
  }

  /** Splitting distributes over a separator. */
  lemma {:induction false} SplitConcat(a: string, b: string, sep: char)
    ensures Split(a + [sep] + b, sep) == Split(a, sep) + Split(b, sep)
  {
    var whole := a + [sep] + b;
    if |a| == 0 {
      assert whole[1..] == b;
    } else {
      assert whole[1..] == a[1..] + [sep] + b;
      SplitConcat(a[1..], b, sep);
    }
  }

  lemma {:induction false} SplitJoinPlain(parts: seq<string>, sep: char)
    requires |parts| > 0
    requires forall p | p in parts :: sep !in p
    ensures Split(Join(parts, sep), sep) == parts
  {
    SplitPlain(parts[0], sep);
    if |parts| > 1 {
      SplitConcat(parts[0], Join(parts[1..], sep), sep);
      SplitJoinPlain(parts[1..], sep);
    }
  }

  /** Split undoes Join exactly on the non-empty lists whose elements are free of the separator. */
  lemma SplitJoin(parts: seq<string>, sep: char)
    ensures Split(Join(parts, sep), sep) == parts <==> |parts| > 0 && forall p | p in parts :: sep !in p
  {
    SplitPieces(Join(parts, sep), sep);
    if |parts| > 0 && forall p | p in parts :: sep !in p {
      SplitJoinPlain(parts, sep);
    }
  }

  /** The first piece of a joined list is the first piece of its first element. */
  lemma SplitJoinHead(parts: seq<string>, sep: char)
    requires |parts| > 0
    ensures Split(Join(parts, sep), sep)[0] == Split(parts[0], sep)[0]
  {
    if |parts| > 1 {
      SplitConcat(parts[0], Join(parts[1..], sep), sep);
    }
  }

  lemma {:induction false} JoinLast(parts: seq<string>, sep: char)
    requires |parts| > 1
    ensures Join(parts, sep) == Join(parts[..|parts| - 1], sep) + [sep] + parts[|parts| - 1]
  {
    if |parts| > 2 {
      JoinLast(parts[1..], sep);
      assert parts[1..][..|parts| - 2] == parts[..|parts| - 1][1..];
    }
  }

  function LastSegment(s: string): (seg: string)
    ensures '-' !in seg
  {
    SplitPieces(s, '-');
    var parts := Split(s, '-');
    parts[|parts| - 1]
  }

  /** What follows the last dash is the last segment. */
  lemma LastSegmentAfterDash(prefix: string, seg: string)
    requires '-' !in seg
    ensures LastSegment(prefix + "-" + seg) == seg
  {
    SplitConcat(prefix, seg, '-');
    SplitPlain(seg, '-');
  }

  lemma {:induction false} SplitSingle(s: string, sep: char)
    ensures |Split(s, sep)| == 1 <==> sep !in s
  {
    if sep !in s {
      SplitPlain(s, sep);
    } else if |Split(s, sep)| == 1 {
      JoinSplit(s, sep);
      SplitPieces(s, sep);
    }
  }

  predicate HasPrefix(s: string, pat: string) {
    |pat| <= |s| && s[..|pat|] == pat
  }

  predicate Contains(s: string, pat: string) {
    exists i {:trigger s[i..]} :: 0 <= i <= |s| && HasPrefix(s[i..], pat)
  }

  /** strings.Replace(s, pat, "", -1): drops the non-overlapping matches, left to right. */
  function RemoveAll(s: string, pat: string): (r: string)
    requires |pat| > 0
    ensures |r| <= |s|
    decreases |s|
  {
    if |s| == 0 then ""
    else if HasPrefix(s, pat) then RemoveAll(s[|pat|..], pat)
    else [s[0]] + RemoveAll(s[1..], pat)
  }

  lemma RemoveAllStep(s: string, pat: string)
    requires |pat| > 0 && |s| > 0
    ensures RemoveAll(s, pat) ==
            if HasPrefix(s, pat) then RemoveAll(s[|pat|..], pat) else [s[0]] + RemoveAll(s[1..], pat)
    ensures HasPrefix(s, pat) ==> |pat| <= |s|
  {
  }

  /** The first match goes, and the search continues behind it. */
  lemma {:induction false} RemoveAllFirst(s: string, pat: string, i: nat)
    requires |pat| > 0 && i + |pat| <= |s| && HasPrefix(s[i..], pat)
    requires forall j | 0 <= j < i :: !HasPrefix(s[j..], pat)
    ensures RemoveAll(s, pat) == s[..i] + RemoveAll(s[i + |pat|..], pat)
    decreases i
  {
    hide RemoveAll, HasPrefix;
    assert s[0..] == s;
    RemoveAllStep(s, pat);
    if i == 0 {
      assert s[..0] + RemoveAll(s[|pat|..], pat) == RemoveAll(s[|pat|..], pat);
    } else {
      var t := s[1..];
      assert t[i - 1..] == s[i..];
      forall j | 0 <= j < i - 1 ensures !HasPrefix(t[j..], pat) {
        assert t[j..] == s[j + 1..];
      }
      RemoveAllFirst(t, pat, i - 1);
      assert t[i - 1 + |pat|..] == s[i + |pat|..];
      assert [s[0]] + t[..i - 1] == s[..i];
    }
  }

  lemma {:induction false} RemoveAllIdentity(s: string, pat: string)
    requires |pat| > 0
    ensures RemoveAll(s, pat) == s <==> !Contains(s, pat)
    decreases |s|
  {
    assert s[0..] == s;
    if |s| == 0 {
    } else if HasPrefix(s, pat) {
      assert |RemoveAll(s, pat)| < |s|;
    } else {
      RemoveAllIdentity(s[1..], pat);
      assert forall i | 0 <= i < |s| :: s[1..][i..] == s[i + 1..];
      if Contains(s, pat) {
        var i :| 0 <= i <= |s| && HasPrefix(s[i..], pat);
        assert s[1..][i - 1..] == s[i..];
      }
      if Contains(s[1..], pat) {
        var i :| 0 <= i <= |s[1..]| && HasPrefix(s[1..][i..], pat);
        assert s[i + 1..] == s[1..][i..];
      }
      assert RemoveAll(s, pat)[1..] == RemoveAll(s[1..], pat);
    }
  }
}
