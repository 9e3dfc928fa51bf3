/** What is right about the reset: which bytes change, both checksums, and what a
    parser makes of the result. */
module RstProof {
  import opened Types
  import opened Frame
  import opened Checksum
  import opened RstReply

  // ---- byte by byte ----

  function NewCheck(fr: seq<u8>, ip: nat): u16
    requires Rewritable(fr, ip)
  { Patched(U16At(fr, ip + 10), U16At(fr, ip + 2), Ihl(fr, ip) + TCP_LEN) }

  lemma BouncedAt(fr: seq<u8>, ip: nat, i: nat)
    requires ETH_LEN <= ip && ip + IP_LEN <= |fr| && i < |fr|
    ensures Bounced(fr, ip)[i] ==
            if ip + 12 <= i < ip + 16 then fr[i + 4] else if ip + 16 <= i < ip + 20 then fr[i - 4]
            else if i < 6 then fr[i + 6] else if i < 12 then fr[i - 6] else fr[i]
  {
  }

  lemma ShrunkAt(fr: seq<u8>, ip: nat, len: u16, i: nat)
    requires ip + IP_LEN <= |fr| && i < |fr|
    ensures Shrunk(fr, ip, len)[i] ==
            if ip + 2 <= i < ip + 4 then Bytes16(len)[i - ip - 2]
            else if ip + 10 <= i < ip + 12 then Bytes16(Patched(U16At(fr, ip + 10), U16At(fr, ip + 2), len))[i - ip - 10]
            else fr[i]
  {
  }

  /** Where every byte of the reset outside its TCP header comes from. */
  function OldByte(fr: seq<u8>, ip: nat, i: nat): u8
    requires Rewritable(fr, ip) && i < |fr|
  {
    if ip + 2 <= i < ip + 4 then Bytes16(Ihl(fr, ip) + TCP_LEN)[i - ip - 2]
    else if ip + 10 <= i < ip + 12 then Bytes16(NewCheck(fr, ip))[i - ip - 10]
    else if ip + 12 <= i < ip + 16 then fr[i + 4]
    else if ip + 16 <= i < ip + 20 then fr[i - 4]
    else if i < 6 then fr[i + 6]
    else if i < 12 then fr[i - 6]
    else fr[i]
  }

  /** Bouncing does not touch the length and checksum the patch starts from. */
  lemma BouncedFields(fr: seq<u8>, ip: nat)
    requires ETH_LEN <= ip && ip + IP_LEN <= |fr|
    ensures U16At(Bounced(fr, ip), ip + 10) == U16At(fr, ip + 10)
    ensures U16At(Bounced(fr, ip), ip + 2) == U16At(fr, ip + 2)
  {
  }

  lemma L3At(fr: seq<u8>, ip: nat, i: nat)
    requires Rewritable(fr, ip) && i < |fr|
    ensures L3Frame(fr, ip, Ihl(fr, ip))[i] == OldByte(fr, ip, i)
  {
    BouncedFields(fr, ip);
    BouncedAt(fr, ip, i);
    ShrunkAt(Bounced(fr, ip), ip, Ihl(fr, ip) + TCP_LEN, i);
  }

  lemma RstFrameAt(fr: seq<u8>, ip: nat, e: Endian, i: nat)
    requires Rewritable(fr, ip) && i < |fr|
    ensures var l4 := ip + Ihl(fr, ip);
            RstFrame(fr, ip, e)[i] ==
            if l4 <= i < l4 + TCP_LEN then RstHeader(fr, ip, e)[i - l4] else OldByte(fr, ip, i)
  {
    L3At(fr, ip, i);
    SpliceAt(L3Frame(fr, ip, Ihl(fr, ip)), ip + Ihl(fr, ip), RstHeader(fr, ip, e), i);
  }

  /** Outside the MACs, the IP length, checksum and addresses and the 20 TCP bytes,
      nothing changes: VLAN tags, IP options and trailing bytes are kept. */
  lemma OnlyTheseBytesChange(fr: seq<u8>, ip: nat, e: Endian, i: nat)
    requires Rewritable(fr, ip) && i < |fr|
    requires 12 <= i && !(ip + 2 <= i < ip + 4) && !(ip + 10 <= i < ip + 20)
    requires !(ip + Ihl(fr, ip) <= i < ip + Ihl(fr, ip) + TCP_LEN)
    ensures RstFrame(fr, ip, e)[i] == fr[i]
  {
    RstFrameAt(fr, ip, e, i);
  }

  // ---- the IP checksum ----

  function IpHeader(fr: seq<u8>, ip: nat): seq<u8>
    requires ip < |fr| && ip + Ihl(fr, ip) <= |fr|
  { fr[ip..ip + Ihl(fr, ip)] }

  /** Length and checksum replaced. */
  function Relabelled(h: seq<u8>, len: u16, check: u16): (r: seq<u8>)
    requires |h| >= IP_LEN
    ensures |r| == |h|
  { PutWord(PutWord(h, 1, Bytes16(len)), 5, Bytes16(check)) }

  /** Source and destination address exchanged. */
  function Exchanged(h: seq<u8>): (r: seq<u8>)
    requires |h| >= IP_LEN
    ensures |r| == |h|
  { h[..12] + h[16..20] + h[12..16] + h[20..] }

  lemma RelabelledSum(h: seq<u8>, len: u16, check: u16)
    requires |h| >= IP_LEN
    ensures Words(Big, Relabelled(h, len, check)) + WordAt(Big, h, 1) + WordAt(Big, h, 5) == Words(Big, h) + len + check
  {
    var a := PutWord(h, 1, Bytes16(len));
    WordsPut(Big, h, 1, Bytes16(len));
    WordsPut(Big, a, 5, Bytes16(check));
    assert WordAt(Big, a, 5) == WordAt(Big, h, 5);
  }

  lemma WordsOfFour(a: seq<u8>, b: seq<u8>, c: seq<u8>, d: seq<u8>)
    requires |a| % 2 == 0 && |b| % 2 == 0 && |c| % 2 == 0
    ensures Words(Big, a + b + c + d) == Words(Big, a) + Words(Big, b) + Words(Big, c) + Words(Big, d)
  {
    WordsConcat(Big, a + b + c, d);
    WordsConcat(Big, a + b, c);
    WordsConcat(Big, a, b);
  }

  lemma ExchangedSum(h: seq<u8>)
    requires |h| >= IP_LEN
    ensures Words(Big, Exchanged(h)) == Words(Big, h)
  {
    WordsOfFour(h[..12], h[12..16], h[16..20], h[20..]);
    WordsOfFour(h[..12], h[16..20], h[12..16], h[20..]);
    InFour(h);
  }

  lemma InFour(h: seq<u8>)
    requires |h| >= IP_LEN
    ensures h[..12] + h[12..16] + h[16..20] + h[20..] == h
  {
  }

  /** The rewritten IP header is the old one relabelled and exchanged. */
  lemma HeaderRewritten(fr: seq<u8>, ip: nat, e: Endian)
    requires Rewritable(fr, ip)
    ensures var r := RstFrame(fr, ip, e);
            && Ihl(r, ip) == Ihl(fr, ip)
            && IpHeader(r, ip) == Exchanged(Relabelled(IpHeader(fr, ip), Ihl(fr, ip) + TCP_LEN, NewCheck(fr, ip)))
  {
    var r, h := RstFrame(fr, ip, e), IpHeader(fr, ip);
    var len, check := Ihl(fr, ip) + TCP_LEN, NewCheck(fr, ip);
    RstFrameAt(fr, ip, e, ip);
    var want := Exchanged(Relabelled(h, len, check));
    forall j | 0 <= j < |h|
      ensures r[ip + j] == want[j]
    {
      RstFrameAt(fr, ip, e, ip + j);
      HeaderByte(fr, ip, j);
    }
    SameSlice(r, ip, want);
  }

  lemma SameSlice(s: seq<u8>, off: nat, want: seq<u8>)
    requires off + |want| <= |s| && forall j :: 0 <= j < |want| ==> s[off + j] == want[j]
    ensures s[off..off + |want|] == want
  {
  }

  lemma HeaderByte(fr: seq<u8>, ip: nat, j: nat)
    requires Rewritable(fr, ip) && j < Ihl(fr, ip)
    ensures OldByte(fr, ip, ip + j) ==
            Exchanged(Relabelled(IpHeader(fr, ip), Ihl(fr, ip) + TCP_LEN, NewCheck(fr, ip)))[j]
  {
  }

  /** The ones'-complement sum of an IP header. */
  function HeaderSum(h: seq<u8>): (s: u32)
    requires |h| <= 60
    ensures s == Words(Big, h)
  {
    WordsBound(Big, h);
    Words(Big, h)
  }

  lemma PatchedHeader(h: seq<u8>, len: u16)
    requires |h| >= IP_LEN
    ensures var check := Patched(WordAt(Big, h, 5), WordAt(Big, h, 1), len);
            Words(Big, Exchanged(Relabelled(h, len, check))) % M == Words(Big, h) % M
  {
    var check := Patched(WordAt(Big, h, 5), WordAt(Big, h, 1), len);
    RelabelledSum(h, len, check);
    RelabelledSum(h, 0, 0);
    ExchangedSum(Relabelled(h, len, check));
    PatchedSum(Words(Big, h), Words(Big, Relabelled(h, 0, 0)), Words(Big, Relabelled(h, len, check)),
               WordAt(Big, h, 5), WordAt(Big, h, 1), len);
  }

  lemma PatchedSum(before: nat, rest: nat, after: nat, check: u16, m: u16, m': u16)
    requires rest + m + check == before && after + m + check == before + m' + Patched(check, m, m')
    ensures after % M == before % M
  {
    PatchKeepsSum(check, m, m', rest);
  }

  lemma IpSumCongruent(fr: seq<u8>, ip: nat, e: Endian)
    requires Rewritable(fr, ip)
    ensures HeaderSum(RstFrame(fr, ip, e)[ip..ip + Ihl(fr, ip)]) % M == HeaderSum(fr[ip..ip + Ihl(fr, ip)]) % M
  {
    hide RstFrame, HeaderSum;
    HeaderRewritten(fr, ip, e);
    PatchedHeader(IpHeader(fr, ip), Ihl(fr, ip) + TCP_LEN);
  }

  /** For every header length: the sum of the rewritten IP header is congruent to
      that of the original modulo 65535, so it verifies iff the original did. */
  lemma IpChecksumPreserved(fr: seq<u8>, ip: nat, e: Endian)
    requires Rewritable(fr, ip) && fr[ip] / 16 == 4
    ensures var h, h' := fr[ip..ip + Ihl(fr, ip)], RstFrame(fr, ip, e)[ip..ip + Ihl(fr, ip)];
            HeaderSum(h') % M == HeaderSum(h) % M && (Verifies(HeaderSum(h')) <==> Verifies(HeaderSum(h)))
  {
    var h, h' := fr[ip..ip + Ihl(fr, ip)], RstFrame(fr, ip, e)[ip..ip + Ihl(fr, ip)];
    IpSumCongruent(fr, ip, e);
    RstFrameAt(fr, ip, e, ip);
    FirstWordCounts(h);
    FirstWordCounts(h');
    SameVerdictOnSums(HeaderSum(h), HeaderSum(h'));
  }

  lemma SameVerdictOnSums(s: u32, s': u32)
    requires s > 0 && s' > 0 && s % M == s' % M
    ensures Verifies(s) <==> Verifies(s')
  {
  }

  lemma FirstWordCounts(s: seq<u8>)
    requires |s| >= 2 && s[0] > 0
    ensures Words(Big, s) > 0
  {
  }

  // ---- the TCP checksum ----

  /** What a receiver sums: pseudo-header and header, in network order. */
  function SegmentSum(addrs: seq<u8>, header: seq<u8>): (s: u32)
    requires |addrs| == 8 && |header| == TCP_LEN
    ensures s == Words(Big, Pseudo(addrs) + header)
  {
    WordsBound(Big, Pseudo(addrs) + header);
    Words(Big, Pseudo(addrs) + header)
  }

  /** Sealing adds the checksum word to the sum, in the order it was computed in. */
  lemma SealedSum(e: Endian, addrs: seq<u8>, bare: seq<u8>)
    requires |addrs| == 8 && |bare| == TCP_LEN && bare[16] == bare[17] == 0
    ensures var all := Pseudo(addrs) + bare;
            && Words(e, all) < U32
            && Pseudo(addrs) + Sealed(e, addrs, bare) == PutWord(all, CHECK_WORD, RawBytes(e, CsumFold(Words(e, all))))
            && Words(e, Pseudo(addrs) + Sealed(e, addrs, bare)) == Words(e, all) + CsumFold(Words(e, all))
  {
    var all := Pseudo(addrs) + bare;
    WordsBound(e, all);
    var b := RawBytes(e, CsumFold(Words(e, all)));
    assert Pseudo(addrs) + Sealed(e, addrs, bare) == PutWord(all, CHECK_WORD, b);
    assert WordAt(e, all, CHECK_WORD) == 0;
    WordsPut(e, all, CHECK_WORD, b);
  }

  lemma PseudoPositive(e: Endian, addrs: seq<u8>, header: seq<u8>)
    requires |addrs| == 8
    ensures Words(e, Pseudo(addrs) + header) > 0
  {
    PseudoSum(e, addrs, header);
  }

  /** The checksum word as the wire sees it, whatever order it was computed in. */
  lemma SealedVerifies(e: Endian, addrs: seq<u8>, bare: seq<u8>)
    requires |addrs| == 8 && |bare| == TCP_LEN && bare[16] == bare[17] == 0
    ensures Verifies(SegmentSum(addrs, Sealed(e, addrs, bare)))
  {
    var all := Pseudo(addrs) + Sealed(e, addrs, bare);
    SealedSum(e, addrs, bare);
    assert Words(e, all) % M == 0;
    ZeroInEitherOrder(all);
    PseudoPositive(Big, addrs, Sealed(e, addrs, bare));
    VerifiesMeans(SegmentSum(addrs, Sealed(e, addrs, bare)));
  }

  lemma RstFields(fr: seq<u8>, ip: nat, e: Endian)
    requires Rewritable(fr, ip)
    ensures var r, l4 := RstFrame(fr, ip, e), ip + Ihl(fr, ip);
            r[ip + 12..ip + 20] == SwappedAddrs(fr, ip) && r[l4..l4 + TCP_LEN] == RstHeader(fr, ip, e)
  {
    var l3, l4 := L3Frame(fr, ip, Ihl(fr, ip)), ip + Ihl(fr, ip);
    L3Addrs(fr, ip, Ihl(fr, ip));
    SpliceSlice(l3, l4, RstHeader(fr, ip, e), ip + 12, ip + 20);
    SpliceSlice(l3, l4, RstHeader(fr, ip, e), l4, l4 + TCP_LEN);
  }

  /** The reset's TCP checksum verifies at the receiver, on either byte order of the
      machine that wrote it. */
  lemma TcpChecksumVerifies(fr: seq<u8>, ip: nat, e: Endian)
    requires Rewritable(fr, ip)
    ensures var r, l4 := RstFrame(fr, ip, e), ip + Ihl(fr, ip);
            Verifies(SegmentSum(r[ip + 12..ip + 20], r[l4..l4 + TCP_LEN]))
  {
    RstFields(fr, ip, e);
    SealedVerifies(e, SwappedAddrs(fr, ip), BareReset(fr, ip));
  }

  /** ... and the frame is the same, byte for byte, on either. */
  lemma ByteOrderDoesNotMatter(fr: seq<u8>, ip: nat)
    requires Rewritable(fr, ip)
    ensures RstFrame(fr, ip, Big) == RstFrame(fr, ip, Little)
  {
    SameSeal(SwappedAddrs(fr, ip), BareReset(fr, ip));
  }

  lemma SameSeal(addrs: seq<u8>, bare: seq<u8>)
    requires |addrs| == 8 && |bare| == TCP_LEN && bare[16] == bare[17] == 0
    ensures Sealed(Big, addrs, bare) == Sealed(Little, addrs, bare)
  {
    var all := Pseudo(addrs) + bare;
    WordsBound(Big, all);
    WordsBound(Little, all);
    ByteOrder(all);
    var q: nat :| Words(Big, all) + q * M == 0x100 * Words(Little, all);
    PseudoPositive(Big, addrs, bare);
    PseudoPositive(Little, addrs, bare);
    SameCheckBytes(Words(Big, all), Words(Little, all), q);
  }

  /** The checksum of the byte-swapped sum is the byte-swapped checksum. */
  lemma SameCheckBytes(big: u32, little: u32, q: nat)
    requires big > 0 && little > 0 && big + q * M == 0x100 * (little as int)
    ensures RawBytes(Big, CsumFold(big)) == RawBytes(Little, CsumFold(little))
  {
    hide CsumFold, RawBytes;
    var b, l := CsumFold(big), CsumFold(little);
    var w := Swapped(l);
    CongruentAndSmall(big, little, b, l, w, q, l / 0x100);
  }

  /** The word whose big-endian bytes are the little-endian bytes of `l`. */
  lemma Swapped(l: u16) returns (w: u16)
    ensures RawBytes(Big, w) == RawBytes(Little, l)
    ensures w + (l / 0x100) * M == 0x100 * (l as int) && (w == M ==> l == M)
  {
    w := l % 0x100 * 0x100 + l / 0x100;
  }

  lemma CongruentAndSmall(big: u32, little: u32, b: u16, l: u16, w: u16, q: nat, p: nat)
    requires (big + b) % M == 0 && (little + l) % M == 0 && b < M && l < M
    requires big + q * M == 0x100 * (little as int) && w + p * M == 0x100 * (l as int)
    requires w == M ==> l == M
    ensures w == b
  {
    var x := (little + l) / M;
    assert big + w == 0x100 * (little + l) - (q + p) * M == (0x100 * x - q - p) * M;
    var y := (big + b) / M;
    assert w - b == (0x100 * x - q - p - y) * M;
  }
}
