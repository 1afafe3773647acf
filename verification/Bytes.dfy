/** Byte strings in the order of the store's keys. */
module Bytes {
  type Byte = b: int | 0 <= b < 256

  type Bytes = seq<Byte>

  /** Strictly smaller, byte by byte; a proper prefix is smaller. */
  predicate Less(a: Bytes, b: Bytes)
    decreases a
  {
    b != [] && (a == [] || a[0] < b[0] || (a[0] == b[0] && Less(a[1..], b[1..])))
  }

  /** At the first place where they differ the smaller has the smaller byte, or ends. */
  lemma {:induction false} LessIff(a: Bytes, b: Bytes)
    ensures Less(a, b) <==> exists i: nat :: DiffersAt(a, b, i)
    decreases a
  {
    if a != [] && b != [] && a[0] == b[0] {
      LessIff(a[1..], b[1..]);
      forall i: nat ensures DiffersAt(a[1..], b[1..], i) <==> DiffersAt(a, b, i + 1) {
        if i <= |a[1..]| && i < |b[1..]| {
          assert a[..i + 1] == [a[0]] + a[1..][..i] && b[..i + 1] == [b[0]] + b[1..][..i];
          assert a[1..i + 1] == a[1..][..i] && b[1..i + 1] == b[1..][..i];
        }
      }
      if i: nat :| DiffersAt(a, b, i) {
        assert i > 0;
        assert DiffersAt(a[1..], b[1..], i - 1);
      }
    } else if b != [] {
      assert a[..0] == b[..0];
      assert DiffersAt(a, b, 0) <==> a == [] || a[0] < b[0];
      forall i: nat | i > 0 && a != [] ensures !DiffersAt(a, b, i) {
        DiffersLater(a, b, i);
      }
    }
  }

  lemma DiffersLater(a: Bytes, b: Bytes, i: nat)
    ensures DiffersAt(a, b, i) && i > 0 && a != [] ==> a[0] == b[0]
  {
    if DiffersAt(a, b, i) && i > 0 {
      assert a[..i][0] == b[..i][0];
    }
  }

  ghost predicate DiffersAt(a: Bytes, b: Bytes, i: nat) {
    i <= |a| && i < |b| && a[..i] == b[..i] && (i == |a| || a[i] < b[i])
  }

  lemma SliceOfSlice(s: Bytes, lo: nat, hi: nat, a: nat, b: nat)
    requires lo <= hi <= |s| && a <= b <= hi - lo
    ensures s[lo..hi][a..b] == s[lo + a..lo + b]
  {
    var part := s[lo..hi];
    var x, y := part[a..b], s[lo + a..lo + b];
    forall i | 0 <= i < |x| ensures x[i] == y[i] {
      assert x[i] == part[a + i] && part[a + i] == s[lo + (a + i)];
    }
  }

  predicate IsPrefix(p: Bytes, s: Bytes) {
    |p| <= |s| && s[..|p|] == p
  }

  lemma {:induction false} LessTotal(a: Bytes, b: Bytes)
    ensures Less(a, b) || a == b || Less(b, a)
    decreases a
  {
    if a != [] && b != [] && a[0] == b[0] {
      LessTotal(a[1..], b[1..]);
      assert a[1..] == b[1..] ==> a == [a[0]] + a[1..] == [b[0]] + b[1..] == b;
    }
  }

  lemma {:induction false} LessAsymmetric(a: Bytes, b: Bytes)
    requires Less(a, b)
    ensures !Less(b, a) && a != b
    decreases a
  {
    if a != [] && a[0] == b[0] {
      LessAsymmetric(a[1..], b[1..]);
    }
  }

  lemma {:induction false} LessTransitive(a: Bytes, b: Bytes, c: Bytes)
    requires Less(a, b) && Less(b, c)
    ensures Less(a, c)
    decreases a
  {
    if a != [] && a[0] == b[0] == c[0] {
      LessTransitive(a[1..], b[1..], c[1..]);
    }
  }

  /** The keys an iterator over [lower, upper) visits. */
  predicate InRange(k: Bytes, lower: Bytes, upper: Bytes) {
    !Less(k, lower) && Less(k, upper)
  }

  /** The last byte one up; None when it would overflow. */
  function Bump(p: Bytes): Bytes
    requires p != [] && p[|p| - 1] < 255
  {
    p[..|p| - 1] + [p[|p| - 1] + 1]
  }

  /** [p, Bump(p)) holds exactly the keys that start with p. */
  lemma {:induction false} BumpRange(k: Bytes, p: Bytes)
    requires p != [] && p[|p| - 1] < 255
    ensures InRange(k, p, Bump(p)) <==> IsPrefix(p, k)
    decreases p
  {
    if k != [] {
      if |p| == 1 {
        assert Bump(p) == [p[0] + 1];
        assert Bump(p)[1..] == [] && p == [p[0]] && p[1..] == [];
        assert !Less(k[1..], []);
        assert k[..1] == [k[0]];
      } else {
        assert Bump(p)[0] == p[0] && Bump(p)[1..] == Bump(p[1..]);
        BumpRange(k[1..], p[1..]);
        PrefixStep(k, p);
      }
    }
  }

  lemma PrefixStep(k: Bytes, p: Bytes)
    requires k != [] && p != []
    ensures IsPrefix(p, k) <==> k[0] == p[0] && IsPrefix(p[1..], k[1..])
  {
    if |p| <= |k| {
      assert k[..|p|] == [k[0]] + k[1..][..|p| - 1];
      assert p == [p[0]] + p[1..];
    }
  }

  /** [p, p + 0x01) holds exactly p itself and the keys that go on with a zero byte. */
  lemma {:induction false} TerminatorRange(k: Bytes, p: Bytes)
    ensures InRange(k, p, p + [1]) <==> IsPrefix(p, k) && (k == p || k[|p|] == 0)
    decreases p
  {
    if p == [] {
      assert p + [1] == [1] && (p + [1])[1..] == [];
      assert k != [] ==> !Less(k[1..], []);
    } else if k != [] {
      assert (p + [1])[0] == p[0] && (p + [1])[1..] == p[1..] + [1];
      TerminatorRange(k[1..], p[1..]);
      PrefixStep(k, p);
      assert k == [k[0]] + k[1..] && p == [p[0]] + p[1..];
    }
  }
}
