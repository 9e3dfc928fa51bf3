/** Round trip: a parser on the trusted side reads the reset as a well-formed TCP
    packet of the very flow the dropped packet belonged to. */
module RstReparse {
  import opened Types
  import opened Frame
  import opened Checksum
  import opened RstReply
  import opened RstProof

  /** The guards of the parser make the rewrite's bounds hold, and SEG.LEN does not
      underflow: it is the payload length plus one each for SYN and FIN. */
  lemma GuardsSuffice(fr: seq<u8>)
    requires Parse(fr).Tcp?
    ensures var h := Parse(fr).h;
            && Rewritable(fr, h.ip) && Ihl(fr, h.ip) == h.ihl
            && SegLen(h.totLen, h.ihl, h.doff, h.flags) ==
               (h.totLen - (h.ihl + h.doff)) + (if Syn(h.flags) then 1 else 0) + (if Fin(h.flags) then 1 else 0)
  {
    hide Parse;
    SegLenExact(Parse(fr).h);
  }

  lemma SegLenExact(h: TcpHdr)
    requires h.ihl + h.doff <= h.totLen
    ensures SegLen(h.totLen, h.ihl, h.doff, h.flags) ==
            (h.totLen - (h.ihl + h.doff)) + (if Syn(h.flags) then 1 else 0) + (if Fin(h.flags) then 1 else 0)
  {
  }

  // ---- the new TCP header ----

  lemma SubU16(s: seq<u8>, lo: nat, hi: nat, k: nat)
    requires lo + k + 2 <= hi <= |s|
    ensures U16At(s[lo..hi], k) == U16At(s, lo + k)
  {
  }

  lemma SubU32(s: seq<u8>, lo: nat, hi: nat, k: nat)
    requires lo + k + 4 <= hi <= |s|
    ensures U32At(s[lo..hi], k) == U32At(s, lo + k)
  {
  }

  lemma SealKeepsFields(e: Endian, addrs: seq<u8>, bare: seq<u8>)
    requires |addrs| == 8 && |bare| == TCP_LEN
    ensures Sealed(e, addrs, bare)[..16] == bare[..16]
  {
  }

  /** What the parser reads from a header. */
  predicate Reads(s: seq<u8>, sport: u16, dport: u16, r: Reply)
    requires |s| >= 16
  {
    && U16At(s, 0) == sport && U16At(s, 2) == dport && U32At(s, 4) == r.seqNo && U32At(s, 8) == r.ackNo
    && s[12] == 0x50 && s[13] == r.flags
  }

  lemma BareReads(sport: seq<u8>, dport: seq<u8>, r: Reply)
    requires |sport| == 2 && |dport| == 2
    ensures Reads(BareHeader(sport, dport, r), U16At(dport, 0), U16At(sport, 0), r)
  {
  }

  lemma PrefixReads(s: seq<u8>, t: seq<u8>, sport: u16, dport: u16, r: Reply)
    requires |s| >= 16 && |t| >= 16 && s[..16] == t[..16] && Reads(s, sport, dport, r)
    ensures Reads(t, sport, dport, r)
  {
  }

  // ---- tags ----

  lemma {:induction false} SameTags(fr: seq<u8>, r: seq<u8>, t: Tags, i: nat)
    requires |r| == |fr| && t.cur <= |fr| && !StripTags(fr, t, i).cut
    requires forall j :: t.cur <= j < StripTags(fr, t, i).cur ==> r[j] == fr[j]
    ensures StripTags(r, t, i) == StripTags(fr, t, i)
    decreases MAX_VLAN_DEPTH - i
  {
    if i < MAX_VLAN_DEPTH && IsTag(t.proto) && t.cur + TAG_LEN <= |fr| {
      var vid := U16At(fr, t.cur) % 0x1000;
      var t' := Tags(false, U16At(fr, t.cur + 2), t.cur + TAG_LEN,
                     if i == 0 then vid else t.outer, if i == 0 then t.inner else vid);
      SameTags(fr, r, t', i + 1);
    }
  }

  lemma SameFirstTags(fr: seq<u8>, e: Endian)
    requires Parse(fr).Tcp?
    ensures Rewritable(fr, Parse(fr).h.ip)
    ensures FirstTags(RstFrame(fr, Parse(fr).h.ip, e)) == FirstTags(fr) && FirstTags(fr).cur == Parse(fr).h.ip
  {
    var ip := Parse(fr).h.ip;
    var r := RstFrame(fr, ip, e);
    forall j | 12 <= j < ip
      ensures r[j] == fr[j]
    {
      OnlyTheseBytesChange(fr, ip, e, j);
    }
    SameTags(fr, r, Tags(false, U16At(fr, 12), ETH_LEN, 0, 0), 0);
  }

  // ---- the IP header as parsed again ----

  lemma IpFields(fr: seq<u8>, ip: nat, e: Endian)
    requires Rewritable(fr, ip)
    ensures var r := RstFrame(fr, ip, e);
            && r[ip] == fr[ip] && r[ip + 9] == fr[ip + 9] && FragOffset(r, ip) == FragOffset(fr, ip)
            && U16At(r, ip + 2) == Ihl(fr, ip) + TCP_LEN
            && U32At(r, ip + 12) == U32At(fr, ip + 16) && U32At(r, ip + 16) == U32At(fr, ip + 12)
  {
    KeptIpFields(fr, ip, e);
    LengthField(fr, ip, e);
    AddressFields(fr, ip, e);
  }

  lemma KeptIpFields(fr: seq<u8>, ip: nat, e: Endian)
    requires Rewritable(fr, ip)
    ensures var r := RstFrame(fr, ip, e);
            r[ip] == fr[ip] && r[ip + 9] == fr[ip + 9] && FragOffset(r, ip) == FragOffset(fr, ip)
  {
    OnlyTheseBytesChange(fr, ip, e, ip);
    OnlyTheseBytesChange(fr, ip, e, ip + 6);
    OnlyTheseBytesChange(fr, ip, e, ip + 7);
    OnlyTheseBytesChange(fr, ip, e, ip + 9);
  }

  lemma LengthField(fr: seq<u8>, ip: nat, e: Endian)
    requires Rewritable(fr, ip)
    ensures U16At(RstFrame(fr, ip, e), ip + 2) == Ihl(fr, ip) + TCP_LEN
  {
  }

  lemma AddressFields(fr: seq<u8>, ip: nat, e: Endian)
    requires Rewritable(fr, ip)
    ensures var r := RstFrame(fr, ip, e);
            U32At(r, ip + 12) == U32At(fr, ip + 16) && U32At(r, ip + 16) == U32At(fr, ip + 12)
  {
    var r := RstFrame(fr, ip, e);
    RstFields(fr, ip, e);
    SubU32(r, ip + 12, ip + 20, 0);
    SubU32(r, ip + 12, ip + 20, 4);
    SwappedValues(fr, ip);
  }

  lemma SwappedValues(fr: seq<u8>, ip: nat)
    requires ip + IP_LEN <= |fr|
    ensures var s := SwappedAddrs(fr, ip); U32At(s, 0) == U32At(fr, ip + 16) && U32At(s, 4) == U32At(fr, ip + 12)
  {
  }

  lemma TcpFields(fr: seq<u8>, ip: nat, e: Endian, reply: Reply)
    requires Rewritable(fr, ip)
    requires var l4 := ip + Ihl(fr, ip);
             reply == ReplyTo(U16At(fr, ip + 2), Ihl(fr, ip), fr[l4 + 12] / 16 * 4, fr[l4 + 13],
                              U32At(fr, l4 + 4), U32At(fr, l4 + 8))
    ensures var r, l4 := RstFrame(fr, ip, e), ip + Ihl(fr, ip);
            && U16At(r, l4) == U16At(fr, l4 + 2) && U16At(r, l4 + 2) == U16At(fr, l4)
            && U32At(r, l4 + 4) == reply.seqNo && U32At(r, l4 + 8) == reply.ackNo
            && r[l4 + 12] == 0x50 && r[l4 + 13] == reply.flags
  {
    hide RstFrame, Sealed, BareHeader, ReplyTo;
    var r, l4, bare := RstFrame(fr, ip, e), ip + Ihl(fr, ip), BareReset(fr, ip);
    SubU16(fr, l4, l4 + 2, 0);
    SubU16(fr, l4 + 2, l4 + 4, 0);
    BareReads(fr[l4..l4 + 2], fr[l4 + 2..l4 + 4], reply);
    SealKeepsFields(e, SwappedAddrs(fr, ip), bare);
    PrefixReads(bare, RstHeader(fr, ip, e), U16At(fr, l4 + 2), U16At(fr, l4), reply);
    RstFields(fr, ip, e);
    HeaderAt(r, l4, U16At(fr, l4 + 2), U16At(fr, l4), reply);
  }

  lemma HeaderAt(r: seq<u8>, l4: nat, sport: u16, dport: u16, reply: Reply)
    requires l4 + TCP_LEN <= |r| && Reads(r[l4..l4 + TCP_LEN], sport, dport, reply)
    ensures U16At(r, l4) == sport && U16At(r, l4 + 2) == dport
    ensures U32At(r, l4 + 4) == reply.seqNo && U32At(r, l4 + 8) == reply.ackNo
    ensures r[l4 + 12] == 0x50 && r[l4 + 13] == reply.flags
  {
  }

  /** The packet a reset is. */
  function ResetOf(p: Parsed): Parsed
    requires p.Tcp? && p.h.ihl <= 60
  {
    var r := ReplyTo(p.h.totLen, p.h.ihl, p.h.doff, p.h.flags, p.h.seqNo, p.h.ackNo);
    Tcp(p.vid, p.inner, Tuple(p.t.daddr, p.t.saddr, p.t.dport, p.t.sport),
        TcpHdr(p.h.ip, p.h.ihl, p.h.ihl + TCP_LEN, TCP_LEN, r.flags, r.seqNo, r.ackNo))
  }

  /** What the TCP stage of the parser makes of a frame with these fields. */
  lemma TcpStage(r: seq<u8>, ip: nat, ihl: nat, outer: u16, inner: u16, t: Tuple, reply: Reply)
    requires IP_LEN <= ihl <= 60 && ip + ihl + TCP_LEN <= |r|
    requires FragOffset(r, ip) == 0 && U16At(r, ip + 2) == ihl + TCP_LEN
    requires U32At(r, ip + 12) == t.saddr && U32At(r, ip + 16) == t.daddr
    requires U16At(r, ip + ihl) == t.sport && U16At(r, ip + ihl + 2) == t.dport
    requires U32At(r, ip + ihl + 4) == reply.seqNo && U32At(r, ip + ihl + 8) == reply.ackNo
    requires r[ip + ihl + 12] == 0x50 && r[ip + ihl + 13] == reply.flags
    ensures ParseTcp(r, ip, ihl, outer, inner) ==
            Tcp(outer, inner, t, TcpHdr(ip, ihl, ihl + TCP_LEN, TCP_LEN, reply.flags, reply.seqNo, reply.ackNo))
  {
  }

  lemma TcpStageReads(fr: seq<u8>, ip: nat, outer: u16, inner: u16, e: Endian)
    requires Rewritable(fr, ip) && ParseTcp(fr, ip, Ihl(fr, ip), outer, inner).Tcp?
    ensures var p := ParseTcp(fr, ip, Ihl(fr, ip), outer, inner);
            ParseTcp(RstFrame(fr, ip, e), ip, Ihl(fr, ip), outer, inner) == ResetOf(p)
  {
    var p := ParseTcp(fr, ip, Ihl(fr, ip), outer, inner);
    var reply := ReplyTo(p.h.totLen, p.h.ihl, p.h.doff, p.h.flags, p.h.seqNo, p.h.ackNo);
    IpFields(fr, ip, e);
    TcpFields(fr, ip, e, reply);
    TcpStage(RstFrame(fr, ip, e), ip, Ihl(fr, ip), outer, inner, Tuple(p.t.daddr, p.t.saddr, p.t.dport, p.t.sport), reply);
  }

  /** The reset of a dropped packet, parsed again, is the well-formed TCP packet with
      ends exchanged that section 3.5.2 of RFC 9293 prescribes. */
  lemma ResetReparses(fr: seq<u8>, e: Endian)
    requires Parse(fr).Tcp?
    ensures Rewritable(fr, Parse(fr).h.ip)
    ensures Parse(RstFrame(fr, Parse(fr).h.ip, e)) == ResetOf(Parse(fr))
  {
    hide RstFrame;
    var t := FirstTags(fr);
    SameFirstTags(fr, e);
    ReachesTcp(fr);
    IpFields(fr, t.cur, e);
    GoesToTcp(RstFrame(fr, t.cur, e), t, Ihl(fr, t.cur));
    TcpStageReads(fr, t.cur, t.outer, t.inner, e);
  }

  /** A frame that parses as TCP went through these steps. */
  lemma ReachesTcp(fr: seq<u8>)
    requires Parse(fr).Tcp?
    ensures var t := FirstTags(fr);
            && !t.cut && t.proto == ETH_P_IP && t.cur + IP_LEN <= |fr| && fr[t.cur] / 16 == 4 && fr[t.cur + 9] == 6
            && IP_LEN <= Ihl(fr, t.cur) && t.cur + Ihl(fr, t.cur) <= |fr|
            && Parse(fr) == ParseTcp(fr, t.cur, Ihl(fr, t.cur), t.outer, t.inner)
  {
  }

  lemma GoesToTcp(r: seq<u8>, t: Tags, ihl: nat)
    requires ETH_LEN <= |r| && t == FirstTags(r) && !t.cut && t.proto == ETH_P_IP
    requires t.cur + IP_LEN <= |r| && r[t.cur] / 16 == 4 && r[t.cur + 9] == 6
    requires ihl == Ihl(r, t.cur) && IP_LEN <= ihl && t.cur + ihl <= |r|
    ensures Parse(r) == ParseTcp(r, t.cur, ihl, t.outer, t.inner)
  {
  }

  /** The answer that section 3.5.2 of RFC 9293 prescribes. */
  predicate AnswersPerRfc(h: TcpHdr, q: TcpHdr)
    requires h.ihl + h.doff <= h.totLen
  {
    && !BadFlags(q.flags) && Types.Rst(q.flags)
    && !Syn(q.flags) && !Fin(q.flags)
    && if Ack(h.flags) then q.seqNo == h.ackNo && q.ackNo == 0 && !Ack(q.flags)
       else
         var len := (h.totLen - h.ihl - h.doff) + (if Syn(h.flags) then 1 else 0) + (if Fin(h.flags) then 1 else 0);
         q.seqNo == 0 && Ack(q.flags) && q.ackNo == (h.seqNo + len) % U32
  }

  lemma ReplyIsPerRfc(p: Parsed)
    requires p.Tcp? && p.h.ihl + p.h.doff <= p.h.totLen && p.h.ihl <= 60
    ensures AnswersPerRfc(p.h, ResetOf(p).h)
  {
    hide SegLen;
    SegLenExact(p.h);
  }

  /** The rest of the reset, by its bytes: MACs exchanged, IP addresses and TCP ports
      exchanged, the IP length that of the IP header and a bare TCP header, which has
      its length, a zero window and a zero urgent pointer. */
  lemma ResetBytes(fr: seq<u8>, ip: nat, e: Endian)
    requires Rewritable(fr, ip)
    ensures var r, l4 := RstFrame(fr, ip, e), ip + fr[ip] % 16 * 4;
            && r[0..6] == fr[6..12] && r[6..12] == fr[0..6]
            && r[ip + 12..ip + 16] == fr[ip + 16..ip + 20] && r[ip + 16..ip + 20] == fr[ip + 12..ip + 16]
            && 256 * (r[ip + 2] as int) + r[ip + 3] == fr[ip] % 16 * 4 + 20
            && r[l4..l4 + 2] == fr[l4 + 2..l4 + 4] && r[l4 + 2..l4 + 4] == fr[l4..l4 + 2]
            && r[l4 + 12] == 0x50 && r[l4 + 14] == r[l4 + 15] == 0 && r[l4 + 18] == r[l4 + 19] == 0
  {
    AddressBytes(fr, ip, e);
    HeaderBytes(fr, ip, e);
    hide RstFrame;
  }

  lemma AddressBytes(fr: seq<u8>, ip: nat, e: Endian)
    requires Rewritable(fr, ip)
    ensures var r := RstFrame(fr, ip, e);
            && r[0..6] == fr[6..12] && r[6..12] == fr[0..6]
            && r[ip + 12..ip + 16] == fr[ip + 16..ip + 20] && r[ip + 16..ip + 20] == fr[ip + 12..ip + 16]
            && 256 * (r[ip + 2] as int) + r[ip + 3] == fr[ip] % 16 * 4 + 20
  {
    var r := RstFrame(fr, ip, e);
    forall i | 0 <= i < 12 || ip + 2 <= i < ip + 4 || ip + 12 <= i < ip + 20
      ensures r[i] == OldByte(fr, ip, i)
    {
      RstFrameAt(fr, ip, e, i);
    }
    hide RstFrame;
  }

  lemma HeaderBytes(fr: seq<u8>, ip: nat, e: Endian)
    requires Rewritable(fr, ip)
    ensures var r, l4 := RstFrame(fr, ip, e), ip + Ihl(fr, ip);
            && r[l4..l4 + 2] == fr[l4 + 2..l4 + 4] && r[l4 + 2..l4 + 4] == fr[l4..l4 + 2]
            && r[l4 + 12] == 0x50 && r[l4 + 14] == r[l4 + 15] == 0 && r[l4 + 18] == r[l4 + 19] == 0
  {
    hide RstFrame, RstHeader;
    var r, h, l4 := RstFrame(fr, ip, e), RstHeader(fr, ip, e), ip + Ihl(fr, ip);
    RstFields(fr, ip, e);
    SealedBytes(fr, ip, e);
    forall j | 0 <= j < 20
      ensures r[l4 + j] == h[j]
    {
      assert r[l4..l4 + TCP_LEN][j] == r[l4 + j];
    }
    assert r[l4] == h[0] && r[l4 + 1] == h[1] && r[l4 + 2] == h[2] && r[l4 + 3] == h[3];
  }

  lemma SealedBytes(fr: seq<u8>, ip: nat, e: Endian)
    requires Rewritable(fr, ip)
    ensures var h, l4 := RstHeader(fr, ip, e), ip + Ihl(fr, ip);
            && h[0] == fr[l4 + 2] && h[1] == fr[l4 + 3] && h[2] == fr[l4] && h[3] == fr[l4 + 1]
            && h[12] == 0x50 && h[14] == h[15] == 0 && h[18] == h[19] == 0
  {
    var bare := BareReset(fr, ip);
    WordsBound(e, Pseudo(SwappedAddrs(fr, ip)) + bare);
    var check := RawBytes(e, CsumFold(Words(e, Pseudo(SwappedAddrs(fr, ip)) + bare)));
    forall j | 0 <= j < 20
      ensures RstHeader(fr, ip, e)[j] == if 16 <= j < 18 then check[j - 16] else bare[j]
    {
      SpliceAt(bare, 16, check, j);
    }
    BareBytes(fr, ip);
    hide BareReset, RstHeader;
  }

  lemma BareBytes(fr: seq<u8>, ip: nat)
    requires Rewritable(fr, ip)
    ensures var h, l4 := BareReset(fr, ip), ip + Ihl(fr, ip);
            && h[0] == fr[l4 + 2] && h[1] == fr[l4 + 3] && h[2] == fr[l4] && h[3] == fr[l4 + 1]
            && h[12] == 0x50 && h[14] == h[15] == 0 && h[18] == h[19] == 0
  {
    var l4 := ip + Ihl(fr, ip);
    var sport, dport := fr[l4..l4 + 2], fr[l4 + 2..l4 + 4];
    assert sport[0] == fr[l4] && sport[1] == fr[l4 + 1] && dport[0] == fr[l4 + 2] && dport[1] == fr[l4 + 3];
  }

  /** On the trusted role the reset passes the flag test and yields the flow key of the
      packet that was dropped on the untrusted role. */
  lemma ResetKeepsFlowKey(fr: seq<u8>, e: Endian)
    requires Parse(fr).Tcp?
    ensures Rewritable(fr, Parse(fr).h.ip)
    ensures var p, q := Parse(fr), Parse(RstFrame(fr, Parse(fr).h.ip, e));
            && q.Tcp? && WellPlaced(RstFrame(fr, p.h.ip, e), q.h)
            && KeyOf(true, q) == KeyOf(false, p)
            && AnswersPerRfc(p.h, q.h)
  {
    ResetReparses(fr, e);
    ReplyIsPerRfc(Parse(fr));
  }
}
