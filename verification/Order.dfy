/** The byte order of strings and the order of names built on it. */
module Order {
  import opened Types
  import opened Kv

  predicate Less(a: Bytes, b: Bytes) {
    b != [] && (a == [] || a[0] < b[0] || (a[0] == b[0] && Less(a[1..], b[1..])))
  }

  /** Where two strings first differ, at `k`, the lower byte or the end comes first. */
  predicate FirstAt(a: Bytes, b: Bytes, k: nat) {
    k <= |a| && k < |b| && a[..k] == b[..k] && (k == |a| || a[k] < b[k])
  }

  lemma {:induction false} LessIff(a: Bytes, b: Bytes)
    ensures Less(a, b) <==> exists k: nat :: FirstAt(a, b, k)
  {
    if a != [] && b != [] && a[0] == b[0] {
      LessIff(a[1..], b[1..]);
      if Less(a, b) {
        var k: nat :| FirstAt(a[1..], b[1..], k);
        assert a[..k + 1] == [a[0]] + a[1..][..k] && b[..k + 1] == [b[0]] + b[1..][..k];
        assert FirstAt(a, b, k + 1);
      }
      if k: nat :| FirstAt(a, b, k) {
        assert a[..k] == [a[0]] + a[1..][..k - 1] && b[..k] == [b[0]] + b[1..][..k - 1];
        assert a[1..][..k - 1] == a[..k][1..] == b[..k][1..] == b[1..][..k - 1];
        assert FirstAt(a[1..], b[1..], k - 1);
      }
    } else if Less(a, b) {
      assert FirstAt(a, b, 0);
    }
  }

  lemma {:induction false} LessIrreflexive(a: Bytes)
    ensures !Less(a, a)
  {
    if a != [] {
      LessIrreflexive(a[1..]);
    }
  }

  lemma {:induction false} LessTransitive(a: Bytes, b: Bytes, c: Bytes)
    requires Less(a, b) && Less(b, c)
    ensures Less(a, c)
  {
    if a != [] && a[0] == b[0] == c[0] {
      LessTransitive(a[1..], b[1..], c[1..]);
    }
  }

  lemma {:induction false} LessTotal(a: Bytes, b: Bytes)
    ensures Less(a, b) || a == b || Less(b, a)
  {
    if a != [] && b != [] && a[0] == b[0] {
      LessTotal(a[1..], b[1..]);
      assert a == [a[0]] + a[1..] && b == [b[0]] + b[1..];
    }
  }

  lemma LessAsymmetric(a: Bytes, b: Bytes)
    requires Less(a, b)
    ensures !Less(b, a) && a != b
  {
    LessIrreflexive(a);
    if Less(b, a) {
      LessTransitive(a, b, a);
    }
  }

  /** A string is not below its prefixes. */
  lemma {:induction false} PrefixBelow(p: Bytes, k: Bytes)
    requires p <= k
    ensures !Less(k, p)
  {
    if p != [] {
      assert p[0] == k[0] && p[1..] <= k[1..];
      PrefixBelow(p[1..], k[1..]);
    }
  }

  /** Strings with a given prefix lie together: past the first that lacks it, none has it. */
  lemma {:induction false} PrefixBlock(p: Bytes, k: Bytes, later: Bytes)
    requires !Less(k, p) && !(p <= k) && Less(k, later)
    ensures !(p <= later)
  {
    if p != [] && p <= later {
      assert p[0] == later[0] && p[1..] <= later[1..];
      LessTotal(k, p);
      assert k != [] && k[0] == p[0];
      assert p[1..] <= k[1..] ==> p <= k by {
        assert p == [p[0]] + p[1..] && k == [k[0]] + k[1..];
      }
      PrefixBlock(p[1..], k[1..], later[1..]);
    }
  }

  predicate NameLess(a: KvName, b: KvName) {
    Less(a.space, b.space) || (a.space == b.space && Less(a.key, b.key))
  }

  lemma NameLessTransitive(a: KvName, b: KvName, c: KvName)
    requires NameLess(a, b) && NameLess(b, c)
    ensures NameLess(a, c)
  {
    if Less(a.space, b.space) && Less(b.space, c.space) {
      LessTransitive(a.space, b.space, c.space);
    } else if a.space == b.space == c.space {
      LessTransitive(a.key, b.key, c.key);
    }
  }

  lemma NameLessTotal(a: KvName, b: KvName)
    ensures NameLess(a, b) || a == b || NameLess(b, a)
  {
    LessTotal(a.space, b.space);
    LessTotal(a.key, b.key);
  }
}
