/** Which frames the parser takes for what, and where it reads their fields, in frame
    bytes alone. */
module Layout {
  import opened Types
  import opened Frame

  /** The 16-bit and the 32-bit number that start at byte `i`, most significant byte first. */
  function Word16(fr: seq<u8>, i: nat): nat
    requires i + 2 <= |fr|
  { 256 * (fr[i] as int) + fr[i + 1] }

  function Word32(fr: seq<u8>, i: nat): nat
    requires i + 4 <= |fr|
  { 65_536 * Word16(fr, i) + Word16(fr, i + 2) }

  /** A VLAN tag stands where the EtherType behind `d` tags is. */
  predicate TagAt(fr: seq<u8>, d: nat)
    requires 14 + 4 * d <= |fr|
  { Word16(fr, 12 + 4 * d) in {0x8100, 0x88A8} }

  /** An Ethernet header, then exactly `d` whole VLAN tags. */
  predicate Tagged(fr: seq<u8>, d: nat) {
    14 + 4 * d <= |fr| && !TagAt(fr, d) && forall i :: 0 <= i < d ==> TagAt(fr, i)
  }

  /** ... then the header of an IPv4 packet, options included. */
  predicate Ipv4(fr: seq<u8>, d: nat) {
    var ip := 14 + 4 * d;
    && Tagged(fr, d) && Word16(fr, 12 + 4 * d) == 0x0800
    && ip + 20 <= |fr| && fr[ip] / 16 == 4 && fr[ip] % 16 >= 5 && ip + fr[ip] % 16 * 4 <= |fr|
  }

  function HeaderLen(fr: seq<u8>, d: nat): nat
    requires Ipv4(fr, d)
  { fr[14 + 4 * d] % 16 * 4 }

  predicate Carries(fr: seq<u8>, d: nat, protocol: u8) { Ipv4(fr, d) && fr[14 + 4 * d + 9] == protocol }

  /** Not the first fragment of its datagram. */
  predicate LaterFragment(fr: seq<u8>, d: nat)
    requires Ipv4(fr, d)
  { Word16(fr, 14 + 4 * d + 6) % 8192 != 0 }

  /** The frame holds the fixed TCP header, the header is not shorter than that, and the
      packet is long enough for all of it. */
  predicate TcpWhole(fr: seq<u8>, d: nat)
    requires Ipv4(fr, d)
  {
    var ip, ihl := 14 + 4 * d, HeaderLen(fr, d);
    && ip + ihl + 20 <= |fr| && fr[ip + ihl + 12] / 16 >= 5
    && Word16(fr, ip + 2) >= ihl + fr[ip + ihl + 12] / 16 * 4
  }

  predicate UdpWhole(fr: seq<u8>, d: nat)
    requires Ipv4(fr, d)
  {
    var ip, ihl := 14 + 4 * d, HeaderLen(fr, d);
    ip + ihl + 8 <= |fr| && Word16(fr, ip + 2) >= ihl + 8
  }

  // ---- the tags ----

  lemma TagsEnd(fr: seq<u8>)
    requires |fr| >= 14
    ensures var t := FirstTags(fr);
            && (t.cut <==> (TagAt(fr, 0) && |fr| < 18) || (|fr| >= 18 && TagAt(fr, 0) && TagAt(fr, 1) && |fr| < 22))
            && (!t.cut && IsTag(t.proto) <==> |fr| >= 22 && TagAt(fr, 0) && TagAt(fr, 1) && TagAt(fr, 2))
            && t.outer == (if |fr| >= 18 && TagAt(fr, 0) then Word16(fr, 14) % 4096 else 0)
            && t.inner == (if |fr| >= 22 && TagAt(fr, 0) && TagAt(fr, 1) then Word16(fr, 18) % 4096 else 0)
  {
  }

  lemma TagsBefore(fr: seq<u8>, d: nat)
    requires Tagged(fr, d)
    ensures d <= 2 ==> var t := FirstTags(fr);
              !t.cut && !IsTag(t.proto) && t.cur == 14 + 4 * d && t.proto == Word16(fr, 12 + 4 * d)
  {
    if d > 0 {
      assert TagAt(fr, 0);
    }
    if d > 1 {
      assert TagAt(fr, 1);
    }
  }

  /** Either the tags end within two, or the frame is too short for them, or there are more. */
  lemma TagsCases(fr: seq<u8>)
    ensures |fr| < 14 || FirstTags(fr).cut || IsTag(FirstTags(fr).proto) ||
            Tagged(fr, 0) || Tagged(fr, 1) || Tagged(fr, 2)
  {
    if |fr| >= 14 {
      TagsEnd(fr);
    }
  }

  // ---- what the parser answers ----

  /** Before IPv4: a runt, a cut tag, too many tags, and the VLAN ids. */
  lemma BeforeIp(fr: seq<u8>)
    ensures var p := Parse(fr);
            && (p.Runt? <==> |fr| < 14)
            && (p.TagCut? <==> |fr| >= 14 && TagAt(fr, 0) && (|fr| < 18 || (TagAt(fr, 1) && |fr| < 22)))
            && (p.TooDeep? <==> |fr| >= 22 && TagAt(fr, 0) && TagAt(fr, 1) && TagAt(fr, 2))
            && Vid(p) == (if |fr| >= 18 && TagAt(fr, 0) then Word16(fr, 14) % 4096 else 0)
            && (p.Tcp? || p.Udp? ==>
                  p.inner == if |fr| >= 22 && TagAt(fr, 0) && TagAt(fr, 1) then Word16(fr, 18) % 4096 else 0)
  {
    if |fr| >= 14 {
      TagsEnd(fr);
    }
  }

  /** Behind `d` tags, every answer has exactly its layout. */
  lemma BehindTags(fr: seq<u8>, d: nat)
    requires Tagged(fr, d) && d <= 2
    ensures var p := Parse(fr);
            && (p.NonIp? <==> Word16(fr, 12 + 4 * d) != 0x0800)
            && (p.BadIp? <==> Word16(fr, 12 + 4 * d) == 0x0800 && !Ipv4(fr, d))
            && (p.TcpFragment? <==> Carries(fr, d, 6) && LaterFragment(fr, d))
            && (p.BadTcp? <==> Carries(fr, d, 6) && !LaterFragment(fr, d) && !TcpWhole(fr, d))
            && (p.Tcp? <==> Carries(fr, d, 6) && !LaterFragment(fr, d) && TcpWhole(fr, d))
            && (p.UdpFragment? <==> Carries(fr, d, 17) && LaterFragment(fr, d))
            && (p.BadUdp? <==> Carries(fr, d, 17) && !LaterFragment(fr, d) && !UdpWhole(fr, d))
            && (p.Udp? <==> Carries(fr, d, 17) && !LaterFragment(fr, d) && UdpWhole(fr, d))
            && (p.OtherIp? <==> Ipv4(fr, d) && !Carries(fr, d, 6) && !Carries(fr, d, 17))
  {
    TagsBefore(fr, d);
    if Word16(fr, 12 + 4 * d) == 0x0800 {
      IpAnswers(fr, d, FirstTags(fr).outer, FirstTags(fr).inner);
    }
  }

  lemma IpAnswers(fr: seq<u8>, d: nat, outer: u16, inner: u16)
    requires Tagged(fr, d) && Word16(fr, 12 + 4 * d) == 0x0800
    ensures var p := ParseIp(fr, 14 + 4 * d, outer, inner);
            && (p.BadIp? <==> !Ipv4(fr, d))
            && (p.TcpFragment? <==> Carries(fr, d, 6) && LaterFragment(fr, d))
            && (p.BadTcp? <==> Carries(fr, d, 6) && !LaterFragment(fr, d) && !TcpWhole(fr, d))
            && (p.Tcp? <==> Carries(fr, d, 6) && !LaterFragment(fr, d) && TcpWhole(fr, d))
            && (p.UdpFragment? <==> Carries(fr, d, 17) && LaterFragment(fr, d))
            && (p.BadUdp? <==> Carries(fr, d, 17) && !LaterFragment(fr, d) && !UdpWhole(fr, d))
            && (p.Udp? <==> Carries(fr, d, 17) && !LaterFragment(fr, d) && UdpWhole(fr, d))
            && (p.OtherIp? <==> Ipv4(fr, d) && !Carries(fr, d, 6) && !Carries(fr, d, 17))
            && !p.Runt? && !p.TagCut? && !p.TooDeep? && !p.NonIp?
  {
  }

  /** The frames that UDP filtering sees are exactly these. */
  lemma UdpExactly(fr: seq<u8>)
    ensures Parse(fr).Udp? <==>
            exists d :: 0 <= d <= 2 && Carries(fr, d, 17) && !LaterFragment(fr, d) && UdpWhole(fr, d)
  {
    TagsCases(fr);
    forall d: nat | d <= 2 && Tagged(fr, d)
      ensures Parse(fr).Udp? <==> Carries(fr, d, 17) && !LaterFragment(fr, d) && UdpWhole(fr, d)
    {
      BehindTags(fr, d);
    }
  }

  lemma ParseBehind(fr: seq<u8>, d: nat)
    requires d <= 2 && Ipv4(fr, d)
    ensures var outer := if d > 0 then Word16(fr, 14) % 4096 else 0;
            var inner := if d > 1 then Word16(fr, 18) % 4096 else 0;
            Parse(fr) == ParseIp(fr, 14 + 4 * d, outer, inner)
  {
    TagsBefore(fr, d);
    TagsEnd(fr);
    if d > 0 {
      assert TagAt(fr, 0);
    }
    if d > 1 {
      assert TagAt(fr, 1);
    }
    hide ParseIp;
  }

  /** ... and their addresses and ports are read from these bytes. */
  lemma UdpPlaces(fr: seq<u8>, d: nat)
    requires d <= 2 && Carries(fr, d, 17) && !LaterFragment(fr, d) && UdpWhole(fr, d)
    ensures var p, ip := Parse(fr), 14 + 4 * d;
            var l4 := ip + HeaderLen(fr, d);
            && p.Udp? && p.t.saddr == Word32(fr, ip + 12) && p.t.daddr == Word32(fr, ip + 16)
            && p.t.sport == Word16(fr, l4) && p.t.dport == Word16(fr, l4 + 2)
            && p.vid == (if d > 0 then Word16(fr, 14) % 4096 else 0)
            && p.inner == (if d > 1 then Word16(fr, 18) % 4096 else 0)
  {
    ParseBehind(fr, d);
    hide Parse, Tagged;
  }

  lemma TcpPlaces(fr: seq<u8>, d: nat)
    requires d <= 2 && Carries(fr, d, 6) && !LaterFragment(fr, d) && TcpWhole(fr, d)
    ensures var p, ip := Parse(fr), 14 + 4 * d;
            var l4 := ip + HeaderLen(fr, d);
            && p.Tcp? && p.t.saddr == Word32(fr, ip + 12) && p.t.daddr == Word32(fr, ip + 16)
            && p.t.sport == Word16(fr, l4) && p.t.dport == Word16(fr, l4 + 2)
            && p.h.seqNo == Word32(fr, l4 + 4) && p.h.ackNo == Word32(fr, l4 + 8) && p.h.flags == fr[l4 + 13]
            && p.h.ip == ip && p.h.ihl == HeaderLen(fr, d) && p.h.totLen == Word16(fr, ip + 2)
            && p.h.doff == fr[l4 + 12] / 16 * 4
            && p.vid == (if d > 0 then Word16(fr, 14) % 4096 else 0)
            && p.inner == (if d > 1 then Word16(fr, 18) % 4096 else 0)
  {
    ParseBehind(fr, d);
    hide Parse, Tagged;
  }

  // ---- the key ----

  /** The port's role says which end is the protected one; the outer VLAN id is in the
      upper bits. */
  lemma KeyEnds(trusted: bool, p: Parsed)
    requires (p.Tcp? || p.Udp?) && p.vid < 0x1000 && p.inner < 0x1000
    ensures var k := KeyOf(trusted, p);
            && k.vlans == 4096 * p.vid + p.inner
            && (trusted ==> k.hostIp == p.t.saddr && k.hostPort == p.t.sport
                            && k.inetIp == p.t.daddr && k.inetPort == p.t.dport)
            && (!trusted ==> k.inetIp == p.t.saddr && k.inetPort == p.t.sport
                             && k.hostIp == p.t.daddr && k.hostPort == p.t.dport)
  {
  }
}
