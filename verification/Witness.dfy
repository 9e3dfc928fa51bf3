/** Packets for concrete runs: one TCP flow between a host and an internet address. */
module Witness {
  import opened Types
  import opened Frame
  import opened Machine

  /** The flow with internet address `inet`. */
  function KeyFor(inet: u32): FlowKey { FlowKey(inet, 2, 443, 40000, 0) }

  const KEY := KeyFor(1)

  /** A segment without payload on that flow, on either port; all inserts succeed. */
  function PacketOf(trusted: bool, inet: u32, flags: u8, ns: u64, pol: Policy): Packet {
    var t := if trusted then Tuple(2, inet, 40000, 443) else Tuple(inet, 2, 443, 40000);
    Packet(0, trusted, Tcp(0, 0, t, TcpHdr(14, 20, 40, 20, flags, 0, 0)), 60, ns, Some(pol), Inserts(true, true, true))
  }
}
