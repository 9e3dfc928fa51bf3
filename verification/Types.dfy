/** Shared types and constants of the XDP data plane (bpf/filter.h). */
module Types {

  type u8 = x: int | 0 <= x < 0x100
  type u16 = x: int | 0 <= x < 0x1_0000
  type u32 = x: int | 0 <= x < 0x1_0000_0000
  type u64 = x: int | 0 <= x < 0x1_0000_0000_0000_0000

  const U16 := 0x1_0000
  const U32 := 0x1_0000_0000
  const U64 := 0x1_0000_0000_0000_0000

  datatype Option<+T> = None | Some(value: T)

  // TCP flag bits of byte 13 of the TCP header.
  predicate Fin(flags: u8) { flags % 2 == 1 }
  predicate Syn(flags: u8) { flags / 2 % 2 == 1 }
  predicate Rst(flags: u8) { flags / 4 % 2 == 1 }
  predicate Psh(flags: u8) { flags / 8 % 2 == 1 }
  predicate Ack(flags: u8) { flags / 16 % 2 == 1 }
  predicate Urg(flags: u8) { flags / 32 % 2 == 1 }

  const FLAG_SYN: u8 := 2
  const FLAG_RST: u8 := 4
  const FLAG_ACK: u8 := 16

  predicate LoneSyn(flags: u8) { Syn(flags) && !Ack(flags) }
  predicate SynAck(flags: u8) { Syn(flags) && Ack(flags) }

  /** The flag combinations no conforming sender emits. */
  predicate BadFlags(flags: u8) {
    || flags == 0
    || (Syn(flags) && Fin(flags))
    || (Syn(flags) && Rst(flags))
    || (Fin(flags) && Psh(flags) && Urg(flags))
    || (Fin(flags) && !Ack(flags))
  }

  type Bit = b: int | 0 <= b < 2

  /** The flag byte by its bits, the two reserved ones on top: which bit is which flag,
      and which combinations are refused as bad. */
  lemma FlagBits(fin: Bit, syn: Bit, rst: Bit, psh: Bit, ack: Bit, urg: Bit, rest: nat)
    requires rest < 4
    ensures var flags := fin + 0x02 * syn + 0x04 * rst + 0x08 * psh + 0x10 * ack + 0x20 * urg + 0x40 * rest;
            && (Fin(flags) <==> fin == 1) && (Syn(flags) <==> syn == 1) && (Rst(flags) <==> rst == 1)
            && (Psh(flags) <==> psh == 1) && (Ack(flags) <==> ack == 1) && (Urg(flags) <==> urg == 1)
            && (LoneSyn(flags) <==> syn == 1 && ack == 0) && (SynAck(flags) <==> syn == 1 && ack == 1)
            && (BadFlags(flags) <==>
                  || (fin == syn == rst == psh == ack == urg == 0 && rest == 0)
                  || (syn == 1 && (fin == 1 || rst == 1))
                  || (fin == 1 && (ack == 0 || (psh == 1 && urg == 1))))
  {
    var flags := fin + 0x02 * syn + 0x04 * rst + 0x08 * psh + 0x10 * ack + 0x20 * urg + 0x40 * rest;
    assert flags / 2 == syn + 2 * (rst + 2 * psh + 4 * ack + 8 * urg + 16 * rest);
    assert flags / 4 == rst + 2 * (psh + 2 * ack + 4 * urg + 8 * rest);
    assert flags / 8 == psh + 2 * (ack + 2 * urg + 4 * rest);
    assert flags / 16 == ack + 2 * (urg + 2 * rest);
    assert flags / 32 == urg + 2 * rest;
  }

  /** Direction-independent flow key: the internet side and the protected side
      always sit in the same slots. */
  datatype FlowKey = FlowKey(inetIp: u32, hostIp: u32, inetPort: u16, hostPort: u16, vlans: u32)

  datatype FlowState = StNone | SynSent | SynRcvd | Est | Closing | StUdp

  /** A flow-table entry. The two bits of the C field `flags` are the booleans
      `isnValid` (FL_ISN_VALID) and `closedOut` (FL_CLOSED_OUT). */
  datatype FlowVal = FlowVal(clientIsn: u32, lastSeen: nat, state: FlowState, isnValid: bool, closedOut: bool)

  /** One slot of the per-CPU L1 cache. */
  datatype L1Entry = L1Entry(key: FlowKey, lastSeen: nat, state: FlowState)

  /** The live policy record; TTLs are in coarse ticks. */
  datatype Features = Features(
    enforce: bool,
    oosStrict: bool,
    allowInboundServers: bool,
    dropFrags: bool,
    dropBadFlags: bool,
    filterUdp: bool,
    dropVlanDeep: bool,
    dropUdpFrags: bool,
    rejectWithRst: bool,
    allowInboundSyn: bool,
    ttlSyn: nat,
    ttlEst: nat,
    ttlClosing: nat,
    ttlUdp: nat)

  datatype Server = Server(ip: u32, port: u16)

  /** What the program reads from the `features` and `server_allow` maps. */
  datatype Policy = Policy(f: Features, servers: set<Server>)

  /** Token bucket: tokens are fixed-point, 1000 per packet. */
  datatype Bucket = Bucket(tokens: u64, ts: u64)

  /** Drop reasons are indices into the drop_reason array. */
  type Reason = x: int | 0 <= x < RSN_MAX
  const RSN_MAX := 13
  const RSN_UNSOL_SYNACK: Reason := 0
  const RSN_BAD_ISN: Reason := 1
  const RSN_OOS_IN: Reason := 2
  const RSN_OOS_OUT: Reason := 3
  const RSN_OOS_RST: Reason := 4
  const RSN_INBOUND_SYN: Reason := 5
  const RSN_BAD_FLAGS: Reason := 6
  const RSN_TCP_FRAG: Reason := 7
  const RSN_MALFORMED: Reason := 8
  const RSN_UDP_OOS: Reason := 9
  const RSN_MAP_FAIL: Reason := 10
  const RSN_VLAN_DEPTH: Reason := 11
  const RSN_UDP_FRAG: Reason := 12
}
