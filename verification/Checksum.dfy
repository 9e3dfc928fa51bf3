/** The Internet checksum (RFC 1071) and its incremental update (RFC 1624), over
    bytes, for either byte order of the machine. */
module Checksum {
  import opened Types

  const M := 0xFFFF   // ones'-complement sums are sums modulo 65535

  datatype Endian = Big | Little

  /** The value of two adjacent bytes loaded as one 16-bit word. */
  function Word(e: Endian, b0: u8, b1: u8): u16 {
    if e.Big? then (b0 as int) * 0x100 + b1 else (b1 as int) * 0x100 + b0
  }

  /** A word stored as it stands. */
  function RawBytes(e: Endian, w: u16): (s: seq<u8>)
    ensures |s| == 2 && Word(e, s[0], s[1]) == w
  { if e.Big? then [w / 0x100, w % 0x100] else [w % 0x100, w / 0x100] }

  /** The sum of the words of a sequence of bytes. */
  function Words(e: Endian, s: seq<u8>): nat {
    if |s| < 2 then 0 else Word(e, s[0], s[1]) + Words(e, s[2..])
  }

  // ---- folding ----

  function Fold(sum: nat): nat { sum % U16 + sum / U16 }

  /** Two folds bring any 32-bit sum below 2^16, keep it modulo 65535, and reach 0
      only from 0. */
  lemma TwoFoldsSuffice(sum: u32)
    ensures Fold(Fold(sum)) <= M
    ensures Fold(Fold(sum)) % M == sum % M
    ensures Fold(Fold(sum)) == 0 <==> sum == 0
  {
  }

  /** csum_fold: fold twice and complement. */
  function CsumFold(sum: u32): (c: u16)
    ensures (sum + c) % M == 0
    ensures sum != 0 ==> c < M
  {
    TwoFoldsSuffice(sum);
    M - Fold(Fold(sum))
  }

  /** The receiver's test: the complemented fold of everything, checksum included, is 0. */
  predicate Verifies(sum: u32) { CsumFold(sum) == 0 }

  lemma VerifiesMeans(sum: u32)
    ensures Verifies(sum) <==> sum > 0 && sum % M == 0
  {
  }

  // ---- incremental update ----

  /** RFC 1624, equation 3: HC' = ~(~HC + ~m + m'). */
  function Patched(check: u16, m: u16, m': u16): u16 {
    CsumFold((M - check) + (M - m) + m')
  }

  lemma PatchKeepsSum(check: u16, m: u16, m': u16, rest: nat)
    ensures (rest + Patched(check, m, m') + m') % M == (rest + check + m) % M
  {
  }

  // ---- sums of words ----

  lemma {:induction false} WordsBound(e: Endian, s: seq<u8>)
    ensures Words(e, s) <= |s| / 2 * M
  {
    if |s| >= 2 {
      WordsBound(e, s[2..]);
    }
  }

  /** Replace word `j`. */
  function PutWord(s: seq<u8>, j: nat, b: seq<u8>): (r: seq<u8>)
    requires |b| == 2 && 2 * j + 1 < |s|
    ensures |r| == |s|
  { s[2 * j := b[0]][2 * j + 1 := b[1]] }

  function WordAt(e: Endian, s: seq<u8>, j: nat): u16
    requires 2 * j + 1 < |s|
  { Word(e, s[2 * j], s[2 * j + 1]) }

  lemma {:induction false} WordsPut(e: Endian, s: seq<u8>, j: nat, b: seq<u8>)
    requires |b| == 2 && 2 * j + 1 < |s|
    ensures Words(e, PutWord(s, j, b)) + WordAt(e, s, j) == Words(e, s) + Word(e, b[0], b[1])
  {
    if j == 0 {
      assert PutWord(s, 0, b)[2..] == s[2..];
    } else {
      assert PutWord(s, j, b)[2..] == PutWord(s[2..], j - 1, b);
      WordsPut(e, s[2..], j - 1, b);
    }
  }

  /** Swapping the bytes of every word multiplies the sum by 256 modulo 65535. */
  lemma {:induction false} ByteOrder(s: seq<u8>)
    ensures exists q: nat :: Words(Big, s) + q * M == 0x100 * Words(Little, s)
  {
    if |s| < 2 {
      assert Words(Big, s) + 0 * M == 0x100 * Words(Little, s);
    } else {
      ByteOrder(s[2..]);
      var q: nat :| Words(Big, s[2..]) + q * M == 0x100 * Words(Little, s[2..]);
      var big, little := Word(Big, s[0], s[1]), Word(Little, s[0], s[1]);
      assert (big as int) + (s[1] as int) * M == 0x100 * (little as int);
      assert Words(Big, s) + (q + s[1]) * M == 0x100 * Words(Little, s);
    }
  }

  /** A sum verifies in one byte order iff it verifies in the other (RFC 1071,
      section 2(B)). */
  lemma ZeroInEitherOrder(s: seq<u8>)
    ensures Words(Little, s) % M == 0 <==> Words(Big, s) % M == 0
  {
    ByteOrder(s);
    var q: nat :| Words(Big, s) + q * M == 0x100 * Words(Little, s);
    Times256(Words(Little, s), Words(Big, s), q);
  }

  lemma Times256(l: nat, b: nat, q: nat)
    requires b + q * M == 0x100 * l
    ensures l % M == 0 <==> b % M == 0
  {
    if l % M == 0 {
      assert b == (0x100 * (l / M) - q) * M;
    }
    if b % M == 0 {
      assert 0x100 * l == (b / M + q) * M;
      assert l == 0x100 * 0x100 * l - M * l == (0x100 * (b / M + q) - l) * M;
    }
  }
}
