/** Every counter is exact: after any run it is the number of packets, or of bytes, that
    it is named for. */
module Counters {
  import opened Types
  import opened Frame
  import opened Machine
  import opened Account

  datatype Counter =
    | RxPkts | RxBytes | RedirPkts | RedirBytes | DropPkts | DropBytes | RstPkts | RstBytes
    | NonIpPkts | NonIpBytes | NonTcpPkts | NonTcpBytes | L1Hits
    | VlanPkts(vid: u16) | VlanBytes(vid: u16) | VlanDrops(vid: u16)
    | DropReason(reason: Reason)

  predicate Exists(c: Counter) { c.VlanPkts? || c.VlanBytes? || c.VlanDrops? ==> c.vid < 4096 }

  /** The number kept for a counter. */
  function Value(b: Books, c: Counter): nat
    requires WellKept(b) && Exists(c)
  {
    match c
    case RxPkts => b.g.rxPkts
    case RxBytes => b.g.rxBytes
    case RedirPkts => b.g.redirPkts
    case RedirBytes => b.g.redirBytes
    case DropPkts => b.g.dropPkts
    case DropBytes => b.g.dropBytes
    case RstPkts => b.g.rstPkts
    case RstBytes => b.g.rstBytes
    case NonIpPkts => b.g.nonipPkts
    case NonIpBytes => b.g.nonipBytes
    case NonTcpPkts => b.g.nontcpPkts
    case NonTcpBytes => b.g.nontcpBytes
    case L1Hits => b.g.l1Hits
    case VlanPkts(vid) => b.vlan[vid].pkts
    case VlanBytes(vid) => b.vlan[vid].bytes
    case VlanDrops(vid) => b.vlan[vid].drops
    case DropReason(reason) => b.reasons[reason]
  }

  // ---- what happens to one packet ----

  /** The policy in force enforces its refusals. */
  predicate Enforced(pkt: Packet) { pkt.pol.Some? && pkt.pol.value.f.enforce }

  /** A refused TCP segment from the internet side is answered with a reset, if asked to. */
  predicate IsAnswered(pkt: Packet, d: Decision) {
    d.Reject? && Enforced(pkt) && d.tcp && !pkt.trusted && pkt.pol.value.f.rejectWithRst
  }

  predicate IsDropped(pkt: Packet, d: Decision) { d.Reject? && Enforced(pkt) && !IsAnswered(pkt, d) }

  /** Forwarded and counted; a bypass is forwarded and not counted. */
  predicate IsForwarded(pkt: Packet, d: Decision) { d.Pass? || (d.Reject? && !Enforced(pkt)) }

  /** The frame is transmitted back, dropped or redirected accordingly. */
  lemma ActionIs(pkt: Packet, d: Decision)
    ensures ActionOf(pkt, d) == Transmit <==> IsAnswered(pkt, d)
    ensures ActionOf(pkt, d) == Drop <==> IsDropped(pkt, d)
    ensures ActionOf(pkt, d) == Redirect <==> IsForwarded(pkt, d) || d.Bypass?
  {
  }

  function One(b: bool): nat { if b then 1 else 0 }
  function Bytes(b: bool, len: nat): nat { if b then len else 0 }

  /** What one packet adds to a counter. */
  function Adds(pkt: Packet, r: Result, c: Counter): nat {
    var d, len := r.decision, pkt.len;
    match c
    case RxPkts => 1
    case RxBytes => len
    case RedirPkts => One(IsForwarded(pkt, d))
    case RedirBytes => Bytes(IsForwarded(pkt, d), len)
    case DropPkts => One(IsDropped(pkt, d))
    case DropBytes => Bytes(IsDropped(pkt, d), len)
    case RstPkts => One(IsAnswered(pkt, d))
    case RstBytes => Bytes(IsAnswered(pkt, d), len)
    case NonIpPkts => One(d == Pass(PassNonIp))
    case NonIpBytes => Bytes(d == Pass(PassNonIp), len)
    case NonTcpPkts => One(d == Pass(PassNonTcp))
    case NonTcpBytes => Bytes(d == Pass(PassNonTcp), len)
    case L1Hits => One(d == Pass(CacheHit))
    case VlanPkts(vid) => One(Vid(pkt.p) == vid)
    case VlanBytes(vid) => Bytes(Vid(pkt.p) == vid, len)
    case VlanDrops(vid) => One(IsDropped(pkt, d) && Vid(pkt.p) == vid)
    case DropReason(reason) => One(d.Reject? && d.reason == reason) + One(r.mapFail && reason == RSN_MAP_FAIL)
  }

  /** ... on receipt, */
  function AddsOnReceipt(vid: u16, len: nat, c: Counter): nat {
    match c
    case RxPkts => 1
    case RxBytes => len
    case VlanPkts(v) => One(vid == v)
    case VlanBytes(v) => Bytes(vid == v, len)
    case _ => 0
  }

  lemma ReceiptAdds(b: Books, vid: u16, len: nat, c: Counter)
    requires WellKept(b) && vid < VLANS && Exists(c)
    ensures Value(Receipt(b, vid, len), c) == Value(b, c) + AddsOnReceipt(vid, len, c)
  {
  }

  lemma CountedAdds(b: Books, reason: Reason, c: Counter)
    requires WellKept(b) && Exists(c)
    ensures Value(Counted(b, reason), c) == Value(b, c) + One(c == DropReason(reason))
  {
  }

  lemma SettleAdds(b: Books, pkt: Packet, d: Decision, c: Counter)
    requires WellKept(b) && WellFormed(pkt.p) && Exists(c)
    ensures Value(Settle(b, pkt, d), c) + AddsOnReceipt(Vid(pkt.p), pkt.len, c) ==
            Value(b, c) + Adds(pkt, Result(EMPTY, d, false), c)
  {
    if d.Pass? {
      PassAdds(b, pkt, d.kind, c);
    } else if d.Reject? {
      RejectAdds(b, pkt, d, c);
    }
  }

  lemma PassAdds(b: Books, pkt: Packet, kind: Kind, c: Counter)
    requires WellKept(b) && WellFormed(pkt.p) && Exists(c)
    ensures Value(Redirected(Noted(b, kind, pkt.len), pkt.len), c) + AddsOnReceipt(Vid(pkt.p), pkt.len, c) ==
            Value(b, c) + Adds(pkt, Result(EMPTY, Pass(kind), false), c)
  {
  }

  lemma RejectAdds(b: Books, pkt: Packet, d: Decision, c: Counter)
    requires WellKept(b) && WellFormed(pkt.p) && Exists(c) && d.Reject?
    ensures Value(Settle(b, pkt, d), c) + AddsOnReceipt(Vid(pkt.p), pkt.len, c) ==
            Value(b, c) + Adds(pkt, Result(EMPTY, d, false), c)
  {
    ActionIs(pkt, d);
    var b1 := Counted(b, d.reason);
    CountedAdds(b, d.reason, c);
    if IsAnswered(pkt, d) {
      assert Settle(b, pkt, d) == Answered(b1, pkt.len);
    } else if IsDropped(pkt, d) {
      assert Settle(b, pkt, d) == Dropped(b1, Vid(pkt.p), pkt.len);
    } else {
      assert Settle(b, pkt, d) == Redirected(b1, pkt.len);
    }
    hide Counted, Settle, IsAnswered;
  }

  lemma RecordAdds(b: Books, pkt: Packet, r: Result, c: Counter)
    requires WellKept(b) && WellFormed(pkt.p) && Exists(c)
    ensures Value(Record(b, pkt, r), c) == Value(b, c) + Adds(pkt, r, c)
  {
    var b1 := Receipt(b, Vid(pkt.p), pkt.len);
    ReceiptAdds(b, Vid(pkt.p), pkt.len, c);
    CountedAdds(b1, RSN_MAP_FAIL, c);
    SettleAdds(if r.mapFail then Counted(b1, RSN_MAP_FAIL) else b1, pkt, r.decision, c);
    hide Receipt, Value, Settle, Counted, IsAnswered, IsDropped, IsForwarded, AddsOnReceipt;
  }

  /** The sum over the packets of a run. */
  ghost function Sum(cfg: L1Config, es: Trace, c: Counter): nat
    requires Proper(es)
  {
    if es == [] then 0
    else
      Sum(cfg, Front(es), c) +
      if Last(es).Rx? then Adds(Last(es).pkt, Receive(cfg, Run(cfg, Front(es)), Last(es).pkt), c) else 0
  }

  /** Over every run, every counter is that sum. */
  lemma {:induction false} CountersExact(cfg: L1Config, es: Trace, c: Counter)
    requires Proper(es) && Exists(c)
    ensures Value(Ledger(cfg, es), c) == Sum(cfg, es, c)
  {
    hide Receive, Record, Value, Adds;
    if es == [] {
      BlankIsZero(c);
    } else {
      CountersExact(cfg, Front(es), c);
      if Last(es).Rx? {
        RecordAdds(Ledger(cfg, Front(es)), Last(es).pkt, Receive(cfg, Run(cfg, Front(es)), Last(es).pkt), c);
      }
    }
  }

  lemma BlankIsZero(c: Counter)
    requires Exists(c)
    ensures Value(Blank(), c) == 0
  {
  }
}
