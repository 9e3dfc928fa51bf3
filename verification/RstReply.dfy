/** build_and_send_rst: the dropped frame rewritten in place into a reset to its
    source. */
module RstReply {
  import opened Types
  import opened Frame
  import opened Checksum

  function Bytes16(x: u16): (s: seq<u8>)
    ensures |s| == 2
  { [x / 0x100, x % 0x100] }

  function Bytes32(x: u32): (s: seq<u8>)
    ensures |s| == 4
  { Bytes16(x / U16) + Bytes16(x % U16) }

  /** Overwrite `s` with `b` from `off` on. */
  function Splice(s: seq<u8>, off: nat, b: seq<u8>): (r: seq<u8>)
    requires off + |b| <= |s|
    ensures |r| == |s|
  { s[..off] + b + s[off + |b|..] }

  lemma SpliceAt(s: seq<u8>, off: nat, b: seq<u8>, i: nat)
    requires off + |b| <= |s| && i < |s|
    ensures Splice(s, off, b)[i] == if off <= i < off + |b| then b[i - off] else s[i]
  {
  }

  lemma SpliceSlice(s: seq<u8>, off: nat, b: seq<u8>, lo: nat, hi: nat)
    requires off + |b| <= |s| && lo <= hi <= |s|
    ensures hi <= off || off + |b| <= lo ==> Splice(s, off, b)[lo..hi] == s[lo..hi]
    ensures lo == off && hi == off + |b| ==> Splice(s, off, b)[lo..hi] == b
  {
    var r := Splice(s, off, b);
    forall i | lo <= i < hi
      ensures r[i] == if off <= i < off + |b| then b[i - off] else s[i]
    {
      SpliceAt(s, off, b, i);
    }
    if hi <= off || off + |b| <= lo {
      assert forall i :: 0 <= i < hi - lo ==> r[lo..hi][i] == s[lo..hi][i];
      assert r[lo..hi] == s[lo..hi];
    }
    if lo == off && hi == off + |b| {
      assert r[lo..hi] == b;
    }
  }

  lemma SpliceInside(s: seq<u8>, off: nat, b: seq<u8>, k: nat, c: seq<u8>)
    requires off + |b| <= |s| && k + |c| <= |b|
    ensures Splice(Splice(s, off, b), off + k, c) == Splice(s, off, Splice(b, k, c))
  {
  }

  // ---- the reset, as section 3.5.2 of RFC 9293 asks for it ----

  /** SEG.LEN: payload plus one each for SYN and FIN, computed in u32. */
  function SegLen(totLen: u16, ihl: nat, doff: nat, flags: u8): u32 {
    (totLen - ihl - doff + (if Syn(flags) then 1 else 0) + (if Fin(flags) then 1 else 0)) % U32
  }

  datatype Reply = Reply(seqNo: u32, ackNo: u32, flags: u8)

  function ReplyTo(totLen: u16, ihl: nat, doff: nat, flags: u8, seqNo: u32, ackNo: u32): Reply {
    if Ack(flags) then Reply(ackNo, 0, FLAG_RST)
    else Reply(0, (seqNo + SegLen(totLen, ihl, doff, flags)) % U32, FLAG_RST + FLAG_ACK)
  }

  /** The 20 header bytes with a zero checksum. */
  function BareHeader(sport: seq<u8>, dport: seq<u8>, r: Reply): (s: seq<u8>)
    requires |sport| == 2 && |dport| == 2
    ensures |s| == TCP_LEN
  {
    dport + sport + Bytes32(r.seqNo) + Bytes32(r.ackNo) + [0x50, r.flags] + [0, 0] + [0, 0] + [0, 0]
  }

  /** Pseudo-header: addresses, zero, protocol, TCP length. */
  function Pseudo(addrs: seq<u8>): (s: seq<u8>)
    requires |addrs| == 8
    ensures |s| == 12
  { addrs + [0, 6] + [0, 20] }

  const CHECK_WORD := 14   // (12 + 16) / 2

  function Sealed(e: Endian, addrs: seq<u8>, bare: seq<u8>): (s: seq<u8>)
    requires |addrs| == 8 && |bare| == TCP_LEN
    ensures |s| == TCP_LEN
  {
    WordsBound(e, Pseudo(addrs) + bare);
    Splice(bare, 16, RawBytes(e, CsumFold(Words(e, Pseudo(addrs) + bare))))
  }

  function Ihl(fr: seq<u8>, ip: nat): nat
    requires ip < |fr|
  { fr[ip] % 16 * 4 }

  function SwappedAddrs(fr: seq<u8>, ip: nat): (s: seq<u8>)
    requires ip + IP_LEN <= |fr|
    ensures |s| == 8
  { fr[ip + 16..ip + 20] + fr[ip + 12..ip + 16] }

  /** The header of the reset that answers the TCP packet at `ip`, checksum zero. */
  function BareReset(fr: seq<u8>, ip: nat): (s: seq<u8>)
    requires ip + IP_LEN <= |fr| && ip + Ihl(fr, ip) + TCP_LEN <= |fr|
    ensures |s| == TCP_LEN && s[16] == s[17] == 0
  {
    var l4 := ip + Ihl(fr, ip);
    var r := ReplyTo(U16At(fr, ip + 2), Ihl(fr, ip), fr[l4 + 12] / 16 * 4, fr[l4 + 13], U32At(fr, l4 + 4), U32At(fr, l4 + 8));
    BareHeader(fr[l4..l4 + 2], fr[l4 + 2..l4 + 4], r)
  }

  function RstHeader(fr: seq<u8>, ip: nat, e: Endian): (s: seq<u8>)
    requires ip + IP_LEN <= |fr| && ip + Ihl(fr, ip) + TCP_LEN <= |fr|
    ensures |s| == TCP_LEN
  {
    Sealed(e, SwappedAddrs(fr, ip), BareReset(fr, ip))
  }

  /** The bounds the writes need. */
  predicate Rewritable(fr: seq<u8>, ip: nat) {
    ETH_LEN <= ip && ip + IP_LEN <= |fr| && IP_LEN <= Ihl(fr, ip) && ip + Ihl(fr, ip) + TCP_LEN <= |fr|
  }

  /** MACs and IP addresses swapped. */
  function Bounced(fr: seq<u8>, ip: nat): (r: seq<u8>)
    requires ETH_LEN <= ip && ip + IP_LEN <= |fr|
    ensures |r| == |fr|
  {
    Splice(Splice(fr, 0, fr[6..12] + fr[..6]), ip + 12, SwappedAddrs(fr, ip))
  }

  /** IP length shrunk to a bare TCP header, and the IP checksum patched for it. */
  function Shrunk(fr: seq<u8>, ip: nat, newLen: u16): (r: seq<u8>)
    requires ip + IP_LEN <= |fr|
    ensures |r| == |fr|
  {
    var check := Patched(U16At(fr, ip + 10), U16At(fr, ip + 2), newLen);
    Splice(Splice(fr, ip + 2, Bytes16(newLen)), ip + 10, Bytes16(check))
  }

  function L3Frame(fr: seq<u8>, ip: nat, ihl: nat): (r: seq<u8>)
    requires ETH_LEN <= ip && ip + IP_LEN <= |fr| && ihl <= 60
    ensures |r| == |fr|
  {
    Shrunk(Bounced(fr, ip), ip, ihl + TCP_LEN)
  }

  /** The frame that is sent back: every byte not named here is as received. */
  function RstFrame(fr: seq<u8>, ip: nat, e: Endian): (r: seq<u8>)
    requires Rewritable(fr, ip)
    ensures |r| == |fr|
  {
    Splice(L3Frame(fr, ip, Ihl(fr, ip)), ip + Ihl(fr, ip), RstHeader(fr, ip, e))
  }

  // ---- the rewrite in place ----

  /** memcpy into the frame. */
  method Write(frame: array<u8>, off: nat, b: seq<u8>)
    requires off + |b| <= frame.Length
    modifies frame
    ensures frame[..] == Splice(old(frame[..]), off, b)
  {
    for i := 0 to |b|
      invariant forall j :: 0 <= j < frame.Length ==>
                  frame[j] == if off <= j < off + i then b[j - off] else old(frame[j])
    {
      frame[off + i] := b[i];
    }
  }

  /** The words of `n` bytes of the frame, as the machine loads them. */
  method SumWords(frame: array<u8>, off: nat, n: nat, e: Endian) returns (sum: nat)
    requires n % 2 == 0 && off + n <= frame.Length
    ensures sum == Words(e, frame[..][off..off + n])
  {
    ghost var s := frame[..][off..off + n];
    sum := 0;
    for i := 0 to n / 2
      invariant sum == Words(e, s[..2 * i])
    {
      sum := sum + Word(e, frame[off + 2 * i], frame[off + 2 * i + 1]);
      WordsSnoc(e, s, i);
    }
    assert s[..n] == s;
  }

  /** The sum behind the full TCP checksum; it fits the u32 accumulator. */
  method RawSum(frame: array<u8>, ip: nat, l4: nat, e: Endian) returns (sum: u32)
    requires ip + IP_LEN <= frame.Length && l4 + TCP_LEN <= frame.Length
    ensures sum == Words(e, Pseudo(frame[..][ip + 12..ip + 20]) + frame[..][l4..l4 + TCP_LEN])
  {
    var addrs := SumWords(frame, ip + 12, 8, e);
    var header := SumWords(frame, l4, TCP_LEN, e);
    ghost var a, h := frame[..][ip + 12..ip + 20], frame[..][l4..l4 + TCP_LEN];
    PseudoSum(e, a, h);
    WordsBound(e, Pseudo(a) + h);
    sum := addrs + Word(e, 0, 6) + Word(e, 0, 20) + header;
  }

  lemma PseudoSum(e: Endian, addrs: seq<u8>, header: seq<u8>)
    requires |addrs| == 8
    ensures Words(e, Pseudo(addrs) + header) == Words(e, addrs) + Word(e, 0, 6) + Word(e, 0, 20) + Words(e, header)
  {
    assert Pseudo(addrs) == addrs + ([0, 6] + [0, 20]);
    WordsConcat(e, addrs, [0, 6] + [0, 20]);
    WordsConcat(e, [0, 6], [0, 20]);
    WordsConcat(e, Pseudo(addrs), header);
    assert [0 as u8, 6][2..] == [] && [0 as u8, 20][2..] == [];
  }

  lemma {:induction false} WordsConcat(e: Endian, a: seq<u8>, b: seq<u8>)
    requires |a| % 2 == 0
    ensures Words(e, a + b) == Words(e, a) + Words(e, b)
  {
    if a == [] {
      assert a + b == b;
    } else {
      assert (a + b)[2..] == a[2..] + b;
      WordsConcat(e, a[2..], b);
    }
  }

  lemma {:induction false} WordsSnoc(e: Endian, s: seq<u8>, j: nat)
    requires 2 * j + 1 < |s|
    ensures Words(e, s[..2 * j + 2]) == Words(e, s[..2 * j]) + WordAt(e, s, j)
  {
    assert s[..2 * j + 2] == s[..2 * j] + s[2 * j..2 * j + 2];
    WordsConcat(e, s[..2 * j], s[2 * j..2 * j + 2]);
    assert s[2 * j..2 * j + 2][2..] == [];
  }

  method Bounce(frame: array<u8>, ip: nat)
    requires ETH_LEN <= ip && ip + IP_LEN <= frame.Length
    modifies frame
    ensures frame[..] == Bounced(old(frame[..]), ip)
  {
    var fr := frame[..];
    Write(frame, 0, fr[6..12] + fr[..6]);
    Write(frame, ip + 12, SwappedAddrs(fr, ip));
  }

  method Shrink(frame: array<u8>, ip: nat, newLen: u16)
    requires ip + IP_LEN <= frame.Length
    modifies frame
    ensures frame[..] == Shrunk(old(frame[..]), ip, newLen)
  {
    var check := Patched(U16At(frame[..], ip + 10), U16At(frame[..], ip + 2), newLen);
    Write(frame, ip + 2, Bytes16(newLen));
    Write(frame, ip + 10, Bytes16(check));
  }

  method RewriteL3(frame: array<u8>, ip: nat, ihl: nat)
    requires ETH_LEN <= ip && ip + IP_LEN <= frame.Length && ihl <= 60
    modifies frame
    ensures frame[..] == L3Frame(old(frame[..]), ip, ihl)
  {
    Bounce(frame, ip);
    Shrink(frame, ip, ihl + TCP_LEN);
  }

  /** Write the header with a zero checksum, sum the frame itself, store the fold. */
  method WriteReset(frame: array<u8>, ip: nat, l4: nat, bare: seq<u8>, ghost addrs: seq<u8>, e: Endian)
    requires |bare| == TCP_LEN && bare[16] == bare[17] == 0
    requires ip + IP_LEN <= l4 && l4 + TCP_LEN <= frame.Length && addrs == frame[..][ip + 12..ip + 20]
    modifies frame
    ensures frame[..] == Splice(old(frame[..]), l4, Sealed(e, addrs, bare))
  {
    SpliceSlice(frame[..], l4, bare, ip + 12, ip + 20);
    SpliceSlice(frame[..], l4, bare, l4, l4 + TCP_LEN);
    Write(frame, l4, bare);
    var sum := RawSum(frame, ip, l4, e);
    SpliceInside(old(frame[..]), l4, bare, 16, RawBytes(e, CsumFold(sum)));
    Write(frame, l4 + 16, RawBytes(e, CsumFold(sum)));
  }

  lemma L3Addrs(fr: seq<u8>, ip: nat, ihl: nat)
    requires ETH_LEN <= ip && ip + IP_LEN <= |fr| && ihl <= 60
    ensures L3Frame(fr, ip, ihl)[ip + 12..ip + 20] == SwappedAddrs(fr, ip)
  {
    var f2 := Bounced(fr, ip);
    var b1 := Bytes16(ihl + TCP_LEN);
    var b2 := Bytes16(Patched(U16At(f2, ip + 10), U16At(f2, ip + 2), ihl + TCP_LEN));
    SpliceSlice(Splice(fr, 0, fr[6..12] + fr[..6]), ip + 12, SwappedAddrs(fr, ip), ip + 12, ip + 20);
    SpliceSlice(f2, ip + 2, b1, ip + 12, ip + 20);
    SpliceSlice(Splice(f2, ip + 2, b1), ip + 10, b2, ip + 12, ip + 20);
  }

  /** Everything after the bounds check. */
  method RewriteFrame(frame: array<u8>, ip: nat, e: Endian)
    requires Rewritable(frame[..], ip)
    modifies frame
    ensures frame[..] == RstFrame(old(frame[..]), ip, e)
  {
    ghost var addrs := SwappedAddrs(frame[..], ip);
    var ihl := Ihl(frame[..], ip);
    var bare := BareReset(frame[..], ip);
    L3Addrs(frame[..], ip, ihl);
    RewriteL3(frame, ip, ihl);
    WriteReset(frame, ip, ip + ihl, bare, addrs, e);
  }

  /** Rewrite the frame, or leave it alone and answer false when the TCP header does
      not fit. */
  method BuildAndSendRst(frame: array<u8>, ip: nat, e: Endian) returns (ok: bool)
    requires ETH_LEN <= ip && ip + IP_LEN <= frame.Length && IP_LEN <= Ihl(frame[..], ip)
    modifies frame
    ensures ok <==> Rewritable(old(frame[..]), ip)
    ensures frame[..] == if ok then RstFrame(old(frame[..]), ip, e) else old(frame[..])
  {
    var ihl := (frame[ip] % 16 * 4) as int;
    if ip + ihl + TCP_LEN > frame.Length {
      return false;
    }
    RewriteFrame(frame, ip, e);
    ok := true;
  }
}
