/** Frame parsing in xdp_filter: Ethernet, up to two VLAN tags, IPv4, TCP and UDP. */
module Frame {
  import opened Types

  const ETH_LEN := 14
  const TAG_LEN := 4
  const IP_LEN := 20
  const TCP_LEN := 20
  const UDP_LEN := 8
  const ETH_P_IP := 0x0800
  const ETH_P_8021Q := 0x8100
  const ETH_P_8021AD := 0x88A8
  const MAX_VLAN_DEPTH := 2

  function U16At(fr: seq<u8>, i: nat): u16
    requires i + 2 <= |fr|
  { (fr[i] as int) * 0x100 + fr[i + 1] }

  function U32At(fr: seq<u8>, i: nat): u32
    requires i + 4 <= |fr|
  { (U16At(fr, i) as int) * U16 + U16At(fr, i + 2) }

  /** Addresses and ports of a TCP or UDP packet as they stand in the frame. */
  datatype Tuple = Tuple(saddr: u32, daddr: u32, sport: u16, dport: u16)

  /** Where the headers of a well-formed TCP packet sit, and its header fields. */
  datatype TcpHdr = TcpHdr(ip: nat, ihl: nat, totLen: u16, doff: nat, flags: u8, seqNo: u32, ackNo: u32)

  /** How far a frame parses. `vid` is the outer VLAN id, `inner` the inner one. */
  datatype Parsed =
    | Runt
    | TagCut(vid: u16)                    // truncated VLAN tag
    | TooDeep(vid: u16)                   // more tags than MAX_VLAN_DEPTH
    | NonIp(vid: u16)
    | BadIp(vid: u16)
    | TcpFragment(vid: u16)
    | BadTcp(vid: u16)
    | Tcp(vid: u16, inner: u16, t: Tuple, h: TcpHdr)
    | UdpFragment(vid: u16)
    | BadUdp(vid: u16)
    | Udp(vid: u16, inner: u16, t: Tuple)
    | OtherIp(vid: u16)

  /** The VLAN the packet is accounted to. */
  function Vid(p: Parsed): u16 { if p.Runt? then 0 else p.vid }

  /** The normalized key: the port's role says which end is the protected side. */
  function KeyOf(trusted: bool, p: Parsed): FlowKey
    requires (p.Tcp? || p.Udp?) && p.vid < 0x1000 && p.inner < 0x1000
  {
    var vlans: u32 := (p.vid as int) * 0x1000 + p.inner;
    if trusted then FlowKey(p.t.daddr, p.t.saddr, p.t.dport, p.t.sport, vlans)
    else FlowKey(p.t.saddr, p.t.daddr, p.t.sport, p.t.dport, vlans)
  }

  predicate IsTag(proto: u16) { proto == ETH_P_8021Q || proto == ETH_P_8021AD }

  datatype Tags = Tags(cut: bool, proto: u16, cur: nat, outer: u16, inner: u16)

  /** Strip tags `i`.. starting at `t.cur`. */
  function StripTags(fr: seq<u8>, t: Tags, i: nat): (r: Tags)
    requires t.cur <= |fr|
    ensures t.cur <= r.cur <= |fr|
    ensures t.outer < 0x1000 && t.inner < 0x1000 ==> r.outer < 0x1000 && r.inner < 0x1000
    decreases MAX_VLAN_DEPTH - i
  {
    if i >= MAX_VLAN_DEPTH || !IsTag(t.proto) then t
    else if t.cur + TAG_LEN > |fr| then t.(cut := true)
    else
      var vid := U16At(fr, t.cur) % 0x1000;
      var t' := Tags(false, U16At(fr, t.cur + 2), t.cur + TAG_LEN,
                     if i == 0 then vid else t.outer, if i == 0 then t.inner else vid);
      StripTags(fr, t', i + 1)
  }

  function FragOffset(fr: seq<u8>, ip: nat): nat
    requires ip + IP_LEN <= |fr|
  { U16At(fr, ip + 6) % 0x2000 }

  function TupleAt(fr: seq<u8>, ip: nat, l4: nat): Tuple
    requires ip + IP_LEN <= |fr| && l4 + UDP_LEN <= |fr|
  { Tuple(U32At(fr, ip + 12), U32At(fr, ip + 16), U16At(fr, l4), U16At(fr, l4 + 2)) }

  /** The TCP header's place and fields. */
  predicate TcpPlaced(fr: seq<u8>, h: TcpHdr) {
    && IP_LEN <= h.ihl && TCP_LEN <= h.doff <= 60
    && h.ip + h.ihl + TCP_LEN <= |fr|
    && h.ihl + h.doff <= h.totLen
    && FragOffset(fr, h.ip) == 0 && U16At(fr, h.ip + 2) == h.totLen
    && fr[h.ip + h.ihl + 12] / 16 * 4 == h.doff
    && fr[h.ip + h.ihl + 13] == h.flags
    && U32At(fr, h.ip + h.ihl + 4) == h.seqNo
    && U32At(fr, h.ip + h.ihl + 8) == h.ackNo
  }

  /** The guards the parser has established by the time a TCP packet is handled:
      both headers lie inside the frame and the IP length reaches past both. */
  predicate WellPlaced(fr: seq<u8>, h: TcpHdr) {
    && ETH_LEN <= h.ip && TcpPlaced(fr, h)
    && h.ihl <= 60 && fr[h.ip] / 16 == 4 && fr[h.ip] % 16 * 4 == h.ihl
    && fr[h.ip + 9] == 6
  }

  function ParseTcp(fr: seq<u8>, ip: nat, ihl: nat, outer: u16, inner: u16): (p: Parsed)
    requires IP_LEN <= ihl && ip + ihl <= |fr|
    ensures p.Tcp? ==> p.h.ip == ip && p.h.ihl == ihl && TcpPlaced(fr, p.h)
    ensures !p.Udp? && !p.Runt? && p.vid == outer && (p.Tcp? ==> p.inner == inner)
  {
    var l4 := ip + ihl;
    if FragOffset(fr, ip) != 0 then TcpFragment(outer)
    else if l4 + TCP_LEN > |fr| then BadTcp(outer)
    else
      var doff := fr[l4 + 12] / 16 * 4;
      var totLen := U16At(fr, ip + 2);
      if doff < TCP_LEN || totLen < ihl + doff then BadTcp(outer)
      else Tcp(outer, inner, TupleAt(fr, ip, l4),
               TcpHdr(ip, ihl, totLen, doff, fr[l4 + 13], U32At(fr, l4 + 4), U32At(fr, l4 + 8)))
  }

  function ParseUdp(fr: seq<u8>, ip: nat, ihl: nat, outer: u16, inner: u16): Parsed
    requires IP_LEN <= ihl && ip + ihl <= |fr|
  {
    var l4 := ip + ihl;
    if FragOffset(fr, ip) != 0 then UdpFragment(outer)
    else if l4 + UDP_LEN > |fr| || U16At(fr, ip + 2) < ihl + UDP_LEN then BadUdp(outer)
    else Udp(outer, inner, TupleAt(fr, ip, l4))
  }

  function ParseIp(fr: seq<u8>, ip: nat, outer: u16, inner: u16): (p: Parsed)
    requires ETH_LEN <= ip
    ensures p.Tcp? ==> WellPlaced(fr, p.h)
    ensures !p.Runt? && p.vid == outer && (p.Tcp? || p.Udp? ==> p.inner == inner)
  {
    if ip + IP_LEN > |fr| || fr[ip] / 16 != 4 then BadIp(outer)
    else
      var ihl := fr[ip] % 16 * 4;
      if ihl < IP_LEN || ip + ihl > |fr| then BadIp(outer)
      else if fr[ip + 9] == 6 then ParseTcp(fr, ip, ihl, outer, inner)
      else if fr[ip + 9] == 17 then ParseUdp(fr, ip, ihl, outer, inner)
      else OtherIp(outer)
  }

  function FirstTags(fr: seq<u8>): Tags
    requires ETH_LEN <= |fr|
  { StripTags(fr, Tags(false, U16At(fr, 12), ETH_LEN, 0, 0), 0) }

  function Parse(fr: seq<u8>): (p: Parsed)
    ensures Vid(p) < 0x1000
    ensures p.Tcp? || p.Udp? ==> p.inner < 0x1000
    ensures p.Tcp? ==> WellPlaced(fr, p.h)
  {
    if |fr| < ETH_LEN then Runt
    else
      var t := FirstTags(fr);
      if t.cut then TagCut(t.outer)
      else if IsTag(t.proto) then TooDeep(t.outer)
      else if t.proto != ETH_P_IP then NonIp(t.outer)
      else ParseIp(fr, t.cur, t.outer, t.inner)
  }

  // ---- keys ----

  /** A packet on one side and its answer on the other have the same key, and only
      those do: same VLANs, ends exchanged. */
  lemma KeyIsDirectionFree(p: Parsed, q: Parsed)
    requires (p.Tcp? || p.Udp?) && p.vid < 0x1000 && p.inner < 0x1000
    requires (q.Tcp? || q.Udp?) && q.vid < 0x1000 && q.inner < 0x1000
    ensures KeyOf(true, p) == KeyOf(false, q) <==>
            p.vid == q.vid && p.inner == q.inner && p.t == Tuple(q.t.daddr, q.t.saddr, q.t.dport, q.t.sport)
    ensures forall role :: KeyOf(role, p) == KeyOf(role, q) <==> p.vid == q.vid && p.inner == q.inner && p.t == q.t
  {
  }

  // ---- which frames reach the TCP handlers ----

  /** `d` <= 2 VLAN tags, then an IPv4 header, then a TCP header, each whole; a first
      fragment whose IP length covers both headers. */
  predicate TcpLayout(fr: seq<u8>, d: nat) {
    var ip := ETH_LEN + TAG_LEN * d;
    && ip + IP_LEN <= |fr|
    && (d > 0 ==> IsTag(ProtoAt(fr, 0))) && (d > 1 ==> IsTag(ProtoAt(fr, 1)))
    && ProtoAt(fr, d) == ETH_P_IP
    && IpThenTcp(fr, ip)
  }

  /** The EtherType behind `i` tags. */
  function ProtoAt(fr: seq<u8>, i: nat): u16
  { if ETH_LEN + TAG_LEN * i <= |fr| then U16At(fr, 12 + TAG_LEN * i) else 0 }

  predicate IpThenTcp(fr: seq<u8>, ip: nat)
    requires ip + IP_LEN <= |fr|
  {
    var ihl, l4 := fr[ip] % 16 * 4, ip + fr[ip] % 16 * 4;
    && fr[ip] / 16 == 4 && IP_LEN <= ihl && fr[ip + 9] == 6 && FragOffset(fr, ip) == 0
    && l4 + TCP_LEN <= |fr|
    && TCP_LEN <= fr[l4 + 12] / 16 * 4 && ihl + fr[l4 + 12] / 16 * 4 <= U16At(fr, ip + 2)
  }

  lemma TagsByLayout(fr: seq<u8>, d: nat)
    requires ETH_LEN <= |fr| && d <= MAX_VLAN_DEPTH
    ensures var t := FirstTags(fr);
            (!t.cut && !IsTag(t.proto) && t.cur == ETH_LEN + TAG_LEN * d) <==>
            && ETH_LEN + TAG_LEN * d <= |fr| && !IsTag(ProtoAt(fr, d))
            && (d > 0 ==> IsTag(ProtoAt(fr, 0))) && (d > 1 ==> IsTag(ProtoAt(fr, 1)))
    ensures var t := FirstTags(fr);
            !t.cut && !IsTag(t.proto) && t.cur == ETH_LEN + TAG_LEN * d ==> t.proto == ProtoAt(fr, d)
    ensures FirstTags(fr).cur in {ETH_LEN, ETH_LEN + TAG_LEN, ETH_LEN + 2 * TAG_LEN}
  {
  }

  /** The parser hands a frame to the TCP handlers exactly when it has that layout with
      at most two tags. */
  lemma TcpExactly(fr: seq<u8>)
    ensures Parse(fr).Tcp? <==> TcpLayout(fr, 0) || TcpLayout(fr, 1) || TcpLayout(fr, 2)
  {
    if ETH_LEN <= |fr| {
      TagsByLayout(fr, 0);
      TagsByLayout(fr, 1);
      TagsByLayout(fr, 2);
    }
  }

  /** ... and reads the headers and the VLAN ids from the places that layout says. */
  lemma TcpLayoutPlaces(fr: seq<u8>, d: nat)
    requires d <= MAX_VLAN_DEPTH && TcpLayout(fr, d)
    ensures var p := Parse(fr);
            && p.Tcp? && p.h.ip == ETH_LEN + TAG_LEN * d
            && p.vid == (if d > 0 then U16At(fr, 14) % 0x1000 else 0)
            && p.inner == (if d > 1 then U16At(fr, 18) % 0x1000 else 0)
            && p.t == TupleAt(fr, p.h.ip, p.h.ip + p.h.ihl)
  {
    TagsByLayout(fr, d);
    TagIds(fr, d);
  }

  lemma TagIds(fr: seq<u8>, d: nat)
    requires ETH_LEN <= |fr| && d <= MAX_VLAN_DEPTH
    requires var t := FirstTags(fr); !t.cut && t.cur == ETH_LEN + TAG_LEN * d
    ensures FirstTags(fr).outer == if d > 0 then U16At(fr, 14) % 0x1000 else 0
    ensures FirstTags(fr).inner == if d > 1 then U16At(fr, 18) % 0x1000 else 0
  {
  }
}
