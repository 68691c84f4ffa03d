/** Shared vocabulary: optional values, bytes, byte sequences, and big-endian integers. */
module Basics {

  datatype Option<+T> = None | Some(value: T)

  type byte = b: int | 0 <= b < 256
  type Bytes = seq<byte>

  const POW_2_32: nat := 0x1_0000_0000
  const POW_2_62: nat := 0x4000_0000_0000_0000
  const POW_2_64: nat := 0x1_0000_0000_0000_0000

  type uint32 = v: int | 0 <= v < POW_2_32
  type uint64 = v: int | 0 <= v < POW_2_64

  function Min(a: nat, b: nat): nat { if a <= b then a else b }

  // ---------------------------------------------------------------- sequences

  lemma Assoc<T>(a: seq<T>, b: seq<T>, c: seq<T>)
    ensures a + b + c == a + (b + c)
  {
  }

  lemma RightUnit<T>(a: seq<T>)
    ensures a + [] == a
  {
  }

  function Flatten(chunks: seq<Bytes>): Bytes
  {
    if chunks == [] then [] else Flatten(chunks[..|chunks| - 1]) + chunks[|chunks| - 1]
  }

  lemma {:induction false} FlattenSnoc(chunks: seq<Bytes>, last: Bytes)
    ensures Flatten(chunks + [last]) == Flatten(chunks) + last
  {
    assert (chunks + [last])[..|chunks|] == chunks;
  }

  lemma {:induction false} FlattenConcat(a: seq<Bytes>, b: seq<Bytes>)
    ensures Flatten(a + b) == Flatten(a) + Flatten(b)
    decreases |b|
  {
    if b == [] {
      assert a + b == a;
    } else {
      var n := |b| - 1;
      assert a + b == (a + b[..n]) + [b[n]];
      FlattenSnoc(a + b[..n], b[n]);
      FlattenConcat(a, b[..n]);
    }
  }

  lemma {:induction false} FlattenPrefix(a: seq<Bytes>, b: seq<Bytes>)
    requires a <= b
    ensures Flatten(a) <= Flatten(b)
  {
    assert b == a + b[|a|..];
    FlattenConcat(a, b[|a|..]);
  }

  /** `a` is obtained from `b` by deleting elements, order kept. */
  ghost predicate SubSeq<T>(a: seq<T>, b: seq<T>)
    decreases |b|
  {
    a == [] ||
    (b != [] &&
     var n := |b| - 1;
     (SubSeq(a, b[..n]) || (a[|a| - 1] == b[n] && SubSeq(a[..|a| - 1], b[..n]))))
  }

  lemma {:induction false} SubSeqKeep<T>(a: seq<T>, b: seq<T>, x: T)
    requires SubSeq(a, b)
    ensures SubSeq(a + [x], b + [x])
  {
    assert (a + [x])[..|a|] == a && (b + [x])[..|b|] == b;
  }

  lemma {:induction false} SubSeqSkip<T>(a: seq<T>, b: seq<T>, x: T)
    requires SubSeq(a, b)
    ensures SubSeq(a, b + [x])
  {
    assert (b + [x])[..|b|] == b;
  }

  lemma {:induction false} SubSeqFront<T>(a: seq<T>, b: seq<T>, x: T)
    requires SubSeq(a, b)
    ensures SubSeq([x] + a, [x] + b) && SubSeq(a, [x] + b)
    decreases |b|
  {
    if a == [] {
      SubSeqSingle(x, b);
      assert [x] + a == [x];
    } else {
      var n, m := |b| - 1, |a| - 1;
      assert ([x] + b)[..n + 1] == [x] + b[..n];
      assert ([x] + a)[..m + 1] == [x] + a[..m];
      if SubSeq(a, b[..n]) {
        SubSeqFront(a, b[..n], x);
      } else {
        SubSeqFront(a[..m], b[..n], x);
      }
    }
  }

  lemma {:induction false} SubSeqSingle<T>(x: T, b: seq<T>)
    ensures SubSeq([x], [x] + b)
    decreases |b|
  {
    if b == [] {
    } else {
      SubSeqSingle(x, b[..|b| - 1]);
      assert ([x] + b)[..|b|] == [x] + b[..|b| - 1];
    }
  }

  // --------------------------------------------------------------- big endian

  function Pow256(n: nat): (p: nat)
    ensures p > 0
  {
    if n == 0 then 1 else 256 * Pow256(n - 1)
  }

  /** The value of `s` read as a big-endian number. */
  function FromBE(s: Bytes): (v: nat)
    ensures v < Pow256(|s|)
  {
    if s == [] then 0 else FromBE(s[..|s| - 1]) * 256 + s[|s| - 1]
  }

  /** The low `n` bytes of `v`, most significant first. */
  function ToBE(v: nat, n: nat): (s: Bytes)
    ensures |s| == n
  {
    if n == 0 then [] else ToBE(v / 256, n - 1) + [v % 256]
  }

  lemma ModUnique(v: nat, m: nat, k: nat, r: nat)
    requires m > 0 && v == m * k + r && r < m
    ensures v % m == r
  {
    var d := v / m - k;
    assert m * d == r - v % m;
    assert d >= 1 ==> m * d >= m;
    assert d <= -1 ==> m * d + m <= 0;
  }

  lemma ShiftMod(v: nat, p: nat)
    requires p > 0
    ensures v % (256 * p) == 256 * (v / 256 % p) + v % 256
  {
    var q, d := v / 256, v % 256;
    var k, r := q / p, q % p;
    assert q == p * k + r;
    assert 256 * (p * k) == (256 * p) * k;
    ModUnique(v, 256 * p, k, 256 * r + d);
  }

  /** Truncation: `n` bytes hold exactly the residue modulo 256^n. */
  lemma {:induction false} FromToBE(v: nat, n: nat)
    ensures FromBE(ToBE(v, n)) == v % Pow256(n)
  {
    if n == 0 {
    } else {
      FromToBE(v / 256, n - 1);
      assert ToBE(v, n)[..n - 1] == ToBE(v / 256, n - 1);
      ShiftMod(v, Pow256(n - 1));
    }
  }

  lemma {:induction false} ToFromBE(s: Bytes)
    ensures ToBE(FromBE(s), |s|) == s
  {
    if s == [] {
    } else {
      ToFromBE(s[..|s| - 1]);
      assert s == s[..|s| - 1] + [s[|s| - 1]];
    }
  }
}
