/** QUIC variable-length integers: `appendVarint` and `readVarint` of
    internal/h2proxy/capsule.go, in the format of section 16 of RFC 9000. */
module Varint {
  import opened Basics
  import opened Streams

  /** `appendVarint(nil, v)`. `byte(v>>8k)` is the k-th byte of ToBE. The first byte is or-ed
      with its width bits: the two middle forms have a first byte below 64, and or-ing 0xc0 into
      any byte keeps only its low six bits. */
  function AppendVarint(v: uint64): (s: Bytes)
    ensures s != []
  {
    if v < 64 then [v]
    else if v < 16384 then [v / 0x100 % 64 + 0x40] + ToBE(v, 1)
    else if v < 1073741824 then [v / 0x100_0000 % 64 + 0x80] + ToBE(v, 3)
    else [v / 0x100_0000_0000_0000 % 64 + 0xc0] + ToBE(v, 7)
  }

  /** Number of bytes announced by the two high bits of the first byte. */
  function Width(first: byte): (n: nat)
    ensures n == 1 || n == 2 || n == 4 || n == 8
  {
    var prefix := first / 64;
    if prefix == 0 then 1 else if prefix == 1 then 2 else if prefix == 2 then 4 else 8
  }

  /** The number in the first `n` bytes of `s`, big-endian, without the two width bits. */
  function Value(s: Bytes, n: nat): nat
    requires 1 <= n <= |s|
  {
    if n == 1 then s[0] % 64 else Value(s, n - 1) * 256 + s[n - 1]
  }

  /** Section 16 of RFC 9000: the value and the length of the varint at the head of `s`. */
  function Parse(s: Bytes): (r: Option<(nat, nat)>)
    ensures r.Some? ==> 0 < r.value.1 <= |s|
  {
    if s == [] || |s| < Width(s[0]) then None else Some((Value(s, Width(s[0])), Width(s[0])))
  }

  /** `s` is one complete varint, of minimal length or not, denoting `v`. */
  predicate Encodes(s: Bytes, v: nat)
  {
    Parse(s) == Some((v, |s|))
  }

  lemma {:induction false} ValueSuffix(s: Bytes, suffix: Bytes, n: nat)
    requires 1 <= n <= |s|
    ensures Value(s + suffix, n) == Value(s, n)
  {
    if n == 1 {
    } else {
      ValueSuffix(s, suffix, n - 1);
    }
  }

  lemma {:induction false} ValueOfTagged(x: byte, t: Bytes)
    ensures Value([x] + t, 1 + |t|) == x % 64 * Pow256(|t|) as int + FromBE(t)
    decreases |t|
  {
    if t == [] {
    } else {
      var n := |t| - 1;
      ValueOfTagged(x, t[..n]);
      assert [x] + t == ([x] + t[..n]) + [t[n]];
      ValueSuffix([x] + t[..n], [t[n]], n + 1);
      Times256(x % 64, Pow256(n), FromBE(t[..n]), t[n]);
    }
  }

  lemma Times256(h: nat, p: nat, f: nat, d: nat)
    ensures (h * p + f) * 256 + d == h * (256 * p) + (f * 256 + d)
  {
  }

  lemma SplitMod(v: nat, p: nat)
    requires p > 0
    ensures v / p % 64 * p + v % p == v % (64 * p)
  {
    var q := v / p;
    Regroup(v, p, q, v % p, q / 64, q % 64);
  }

  lemma Regroup(v: nat, p: nat, q: nat, t: nat, k: nat, r: nat)
    requires v == p * q + t && t < p && q == 64 * k + r && r < 64
    ensures v % (64 * p) == r * p + t
  {
    calc {
      p * q;
      p * (64 * k + r);
      (64 * p) * k + r * p;
    }
    assert r * p <= 63 * p;
    ModUnique(v, 64 * p, k, r * p + t);
  }

  lemma {:induction false} Powers()
    ensures Pow256(1) == 0x100 && Pow256(3) == 0x100_0000 && Pow256(7) == 0x100_0000_0000_0000
  {
    assert Pow256(2) == 0x1_0000;
    assert Pow256(4) == 0x1_0000_0000;
    assert Pow256(5) == 0x100_0000_0000;
    assert Pow256(6) == 0x1_0000_0000_0000;
  }

  // The value of a first byte tagged with width bits followed by the low `k` bytes of `v`.
  lemma {:induction false} TaggedValue(v: nat, k: nat, x: byte)
    requires x % 64 == v / Pow256(k) % 64
    ensures Value([x] + ToBE(v, k), 1 + k) == v % (64 * Pow256(k))
  {
    ValueOfTagged(x, ToBE(v, k));
    FromToBE(v, k);
    SplitMod(v, Pow256(k));
  }

  lemma {:induction false} ValueOfForm(v: nat, k: nat, x: byte, m: nat)
    requires m == 64 * Pow256(k) && x % 64 == v / Pow256(k) % 64
    requires v < m || m == POW_2_62
    ensures Value([x] + ToBE(v, k), 1 + k) == if v < m then v else v % POW_2_62
  {
    TaggedValue(v, k, x);
    if v < m {
      ModUnique(v, m, 0, v);
    }
  }

  lemma {:induction false} ValueOfAppended(v: uint64)
    ensures var a := AppendVarint(v); Width(a[0]) == |a| && Value(a, |a|) == v % POW_2_62
  {
    Powers();
    var low := v % POW_2_62;
    assert v < POW_2_62 ==> low == v;
    if v < 64 {
    } else if v < 16384 {
      ValueOfForm(v, 1, v / 0x100 % 64 + 0x40, 16384);
    } else if v < 1073741824 {
      ValueOfForm(v, 3, v / 0x100_0000 % 64 + 0x80, 1073741824);
    } else {
      ValueOfForm(v, 7, v / 0x100_0000_0000_0000 % 64 + 0xc0, POW_2_62);
    }
  }

  lemma {:induction false} ValueBound(s: Bytes, n: nat)
    requires 1 <= n <= |s|
    ensures Value(s, n) < 64 * Pow256(n - 1)
  {
    if n == 1 {
    } else {
      ValueBound(s, n - 1);
    }
  }

  /** Reading an appended varint, whatever follows it, consumes exactly its bytes and yields
      the low 62 bits of the value: the value itself exactly when it is below 2^62. */
  lemma RoundTrip(v: uint64, suffix: Bytes)
    ensures Parse(AppendVarint(v) + suffix) == Some((v % POW_2_62, |AppendVarint(v)|))
    ensures Encodes(AppendVarint(v), v) <==> v < POW_2_62
  {
    var a := AppendVarint(v);
    ValueOfAppended(v);
    ValueSuffix(a, suffix, |a|);
    assert (a + suffix)[0] == a[0];
  }

  /** No accepted encoding of a value is shorter than the one `appendVarint` produces. */
  lemma Shortest(s: Bytes, v: uint64)
    requires Encodes(s, v)
    ensures |AppendVarint(v)| <= |s|
  {
    Powers();
    ValueBound(s, |s|);
  }

  /** A complete varint is read the same way whatever follows it. */
  lemma ParseSuffix(s: Bytes, v: nat, suffix: Bytes)
    requires Encodes(s, v)
    ensures Parse(s + suffix) == Some((v, |s|))
  {
    ValueSuffix(s, suffix, |s|);
    assert (s + suffix)[0] == s[0];
  }

  /** Prefix freedom: of two complete varints neither is a proper prefix of the other, and a
      proper prefix of one is never accepted. */
  lemma PrefixFree(s: Bytes, v: nat, t: Bytes)
    requires Encodes(s, v) && t <= s && t != s
    ensures Parse(t) == None
  {
  }

  /** `readVarint`: one byte at a time off a consumed reader. At end of input everything read
      so far is lost and nothing is left. */
  method ReadVarint(rd: Reader) returns (r: Option<nat>)
    modifies rd
    ensures match Parse(old(rd.rest))
            case Some((v, n)) => r == Some(v) && rd.rest == old(rd.rest)[n..]
            case None => r == None && rd.rest == []
  {
    ghost var s := rd.rest;
    var b := rd.ReadByte();
    if b.None? {
      return None;
    }
    var n := Width(b.value);
    var val: nat := b.value % 64;
    var i := 1;
    while i < n
      invariant 1 <= i <= n && i <= |s|
      invariant val == Value(s, i)
      invariant rd.rest == s[i..]
    {
      b := rd.ReadByte();
      if b.None? {
        return None;
      }
      val := val * 256 + b.value;
      i := i + 1;
    }
    return Some(val);
  }
}
