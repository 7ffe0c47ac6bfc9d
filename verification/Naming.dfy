/** Workload names: the cloud takes at most 18 bytes, and names are the only identity
    both reconcilers have for the workloads they created. */
module Naming {
  import opened Wrappers
  import opened Strings

  const NAME_LIMIT: nat := 18

  /** shortenName; None is the slice-bounds panic. */
  function ShortenName(name: string, limit: nat): Option<string> {
    if |name| <= limit then Some(name)
    else
      var parts := Split(name, '-');
      var postfix := if |parts| <= 1 then "" else "-" + parts[|parts| - 1];
      var resize := if |parts| <= 1 then Join(parts, '-') else Join(parts[..|parts| - 1], '-');
      var trimRange := |name| - limit;
      if |resize| < trimRange then None else Some(resize[..|resize| - trimRange] + postfix)
  }

  /** Everything before the last dash. */
  function Front(name: string): string {
    var parts := Split(name, '-');
    Join(parts[..|parts| - 1], '-')
  }

  lemma NameParts(name: string)
    ensures '-' in name <==> |Split(name, '-')| > 1
    ensures '-' in name ==> name == Front(name) + "-" + LastSegment(name)
    ensures '-' !in name ==> LastSegment(name) == name
  {
    JoinSplit(name, '-');
    SplitSingle(name, '-');
    if '-' in name {
      JoinLast(Split(name, '-'), '-');
    } else {
      SplitPlain(name, '-');
    }
  }

  /** Over the limit, a name without a dash is cut at the limit. A dashed one loses bytes in
      the middle and keeps its last segment whole; it panics when that segment and its dash
      do not fit the limit. */
  lemma ShortenNameMeaning(name: string, limit: nat)
    ensures ShortenName(name, limit).Some? <==>
            |name| <= limit || '-' !in name || |LastSegment(name)| + 1 <= limit
    ensures ShortenName(name, limit).Some? ==>
            |ShortenName(name, limit).value| == if |name| <= limit then |name| else limit
    ensures |name| <= limit ==> ShortenName(name, limit) == Some(name)
    ensures |name| > limit && '-' !in name ==> ShortenName(name, limit) == Some(name[..limit])
    ensures |name| > limit && '-' in name && |LastSegment(name)| + 1 <= limit ==>
            && limit - |LastSegment(name)| - 1 <= |Front(name)|
            && ShortenName(name, limit) ==
               Some(Front(name)[..limit - |LastSegment(name)| - 1] + "-" + LastSegment(name))
  {
    NameParts(name);
    JoinSplit(name, '-');
    if |name| > limit && '-' in name {
      assert |name| == |Front(name)| + 1 + |LastSegment(name)|;
      if |LastSegment(name)| + 1 <= limit {
        var keep := limit - |LastSegment(name)| - 1;
        assert Front(name)[..keep] + ("-" + LastSegment(name)) == Front(name)[..keep] + "-" + LastSegment(name);
      }
    } else if |name| > limit {
      assert name[..limit] + "" == name[..limit];
    }
  }

  /** Shortening never touches the last segment of a dashed name. */
  lemma ShortenKeepsLastSegment(name: string, limit: nat)
    requires '-' in name && ShortenName(name, limit).Some?
    ensures LastSegment(ShortenName(name, limit).value) == LastSegment(name)
  {
    ShortenNameMeaning(name, limit);
    if |name| > limit {
      LastSegmentAfterDash(Front(name)[..limit - |LastSegment(name)| - 1], LastSegment(name));
    }
  }

  /** A name that went through shortening is left alone by every later shortening. */
  lemma ShortenIdempotent(name: string, limit: nat)
    requires ShortenName(name, limit).Some?
    ensures ShortenName(ShortenName(name, limit).value, limit) == ShortenName(name, limit)
  {
    ShortenNameMeaning(name, limit);
  }

  /** Two over-long dashed names collide exactly when they agree on the last segment
      and on as many leading bytes as the limit leaves room for. */
  lemma ShortenCollision(a: string, b: string, limit: nat)
    requires |a| > limit && |b| > limit && '-' in a && '-' in b
    requires ShortenName(a, limit).Some? && ShortenName(b, limit).Some?
    ensures |LastSegment(a)| + 1 <= limit
    ensures ShortenName(a, limit) == ShortenName(b, limit) <==>
            && LastSegment(a) == LastSegment(b)
            && a[..limit - |LastSegment(a)| - 1] == b[..limit - |LastSegment(a)| - 1]
  {
    hide Front, ShortenName, Split, LastSegment;
    ShortenNameMeaning(a, limit);
    ShortenNameMeaning(b, limit);
    ShortenKeepsLastSegment(a, limit);
    ShortenKeepsLastSegment(b, limit);
    NameParts(a);
    NameParts(b);
    var n := limit - |LastSegment(a)| - 1;
    assert a[..n] == Front(a)[..n];
    if LastSegment(a) == LastSegment(b) {
      assert b[..n] == Front(b)[..n];
      var ra, rb := ShortenName(a, limit).value, ShortenName(b, limit).value;
      assert ra[..n] == Front(a)[..n] && rb[..n] == Front(b)[..n];
    }
  }

  function ClusterLoadBalancerName(lbName: string, clusterName: string): string {
    "lb-" + (if |lbName| == 0 then clusterName else lbName)
  }

  function WorkerLoadBalancerName(lbName: string, clusterName: string): string {
    "lbworker-" + (if |lbName| == 0 then clusterName else lbName)
  }

  /** A generated name ends in the last segment of the base name; the rest precedes it. */
  lemma GeneratedParts(prefix: string, base: string)
    requires '-' !in prefix
    ensures LastSegment(prefix + "-" + base) == LastSegment(base)
    ensures HasPrefix(Front(prefix + "-" + base), prefix)
    ensures |Front(prefix + "-" + base)| == |prefix| || HasPrefix(Front(prefix + "-" + base), prefix + "-")
  {
    hide Front, ShortenName;
    var name := prefix + "-" + base;
    assert LastSegment(name) == LastSegment(base) by { SplitConcat(prefix, base, '-'); }
    hide Split, LastSegment;
    NameParts(name);
    NameParts(base);
    assert name[|prefix|] == '-';
    var f := Front(name);
    assert |f| == |name| - 1 - |LastSegment(base)| >= |prefix|;
    assert f == name[..|f|];
    assert f[..|prefix|] == name[..|prefix|] == prefix;
    if |f| > |prefix| {
      assert f[..|prefix| + 1] == name[..|prefix| + 1] == prefix + "-";
    }
  }

  /** The 18-byte form of a generated name: with a last segment of up to 14 bytes its third
      byte still tells the prefix; with a longer one only two bytes of the prefix are left. */
  lemma GeneratedShort(prefix: string, base: string)
    requires '-' !in prefix && |prefix| >= 2
    requires ShortenName(prefix + "-" + base, NAME_LIMIT).Some?
    ensures var r, seg := ShortenName(prefix + "-" + base, NAME_LIMIT).value, LastSegment(base);
            && |seg| <= 17
            && (|seg| <= 14 ==> |r| > 2 && r[2] == (prefix + "-")[2])
            && (|seg| > 14 ==> r == prefix[..17 - |seg|] + "-" + seg)
  {
    hide Front, ShortenName, Split, LastSegment;
    var name, seg := prefix + "-" + base, LastSegment(base);
    GeneratedParts(prefix, base);
    NameParts(base);
    assert name[|prefix|] == '-';
    ShortenNameMeaning(name, NAME_LIMIT);
    var r, f := ShortenName(name, NAME_LIMIT).value, Front(name);
    if |name| > NAME_LIMIT {
      var keep := 17 - |seg|;
      assert r == f[..keep] + "-" + seg;
      if |seg| <= 14 {
        assert r[2] == f[2];
        if |prefix| > 2 { assert f[2] == f[..|prefix|][2]; } else { assert f[2] == f[..|prefix| + 1][2]; }
      } else {
        assert f[..keep] == f[..|prefix|][..keep];
      }
    } else {
      if |seg| > 14 {
        assert |prefix| == 2 && base == seg;
        assert prefix[..2] == prefix;
      }
    }
  }

  /** The two load-balancer names of a cluster can be shortened exactly when the last dash
      segment of the base name has at most 17 bytes, and are then different workload names
      exactly when it has at most 14. */
  lemma LoadBalancerNamesSeparated(lbName: string, clusterName: string)
    ensures var cp := ShortenName(ClusterLoadBalancerName(lbName, clusterName), NAME_LIMIT);
            var wk := ShortenName(WorkerLoadBalancerName(lbName, clusterName), NAME_LIMIT);
            var seg := LastSegment(if |lbName| == 0 then clusterName else lbName);
            && (cp.Some? <==> |seg| <= 17)
            && (wk.Some? <==> |seg| <= 17)
            && (|seg| <= 17 ==> (cp != wk <==> |seg| <= 14))
  {
    hide Front, ShortenName, Split, LastSegment;
    var base := if |lbName| == 0 then clusterName else lbName;
    assert "lb" + "-" + base == ClusterLoadBalancerName(lbName, clusterName);
    assert "lbworker" + "-" + base == WorkerLoadBalancerName(lbName, clusterName);
    GeneratedDefined("lb", base);
    GeneratedDefined("lbworker", base);
    var seg := LastSegment(base);
    if |seg| <= 17 {
      GeneratedShort("lb", base);
      GeneratedShort("lbworker", base);
      if |seg| > 14 {
        assert "lb"[..17 - |seg|] == "lbworker"[..17 - |seg|];
      }
    }
  }

  lemma GeneratedDefined(prefix: string, base: string)
    requires '-' !in prefix && |prefix| >= 1
    ensures ShortenName(prefix + "-" + base, NAME_LIMIT).Some? <==> |LastSegment(base)| <= 17
  {
    hide Front, ShortenName, Split, LastSegment;
    var name := prefix + "-" + base;
    GeneratedParts(prefix, base);
    NameParts(base);
    assert name[|prefix|] == '-';
    ShortenNameMeaning(name, NAME_LIMIT);
  }
}
