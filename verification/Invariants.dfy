/** Safety of the flow tables over whole runs. */
module Invariants {
  import opened Types
  import opened Clock
  import opened Flows
  import opened Frame
  import opened SynLimit
  import opened Machine

  predicate TcpOk(v: FlowVal, now: nat) { TcpShape(v) && v.lastSeen <= now }
  predicate UdpOk(v: FlowVal, now: nat) { UdpShape(v) && v.lastSeen <= now }
  predicate SlotOk(s: L1Entry, now: nat) { s.state in {Est, StUdp} && s.lastSeen <= now }

  /** The invariant of every reachable state at tick `now`. */
  ghost predicate Inv(c: Core, now: nat) {
    && (forall k :: k in c.flows ==> TcpOk(c.flows[k], now))
    && (forall k :: k in c.udp ==> UdpOk(c.udp[k], now))
    && (forall s :: s in c.l1 ==> SlotOk(c.l1[s], now))
  }

  lemma OutTcpKeepsShape(f: Features, e: Option<FlowVal>, seg: Segment, now: nat, ok: bool)
    requires e.Some? ==> TcpOk(e.value, now)
    ensures var o := OutTcp(f, e, seg, now, ok); o.entry.Some? ==> TcpOk(o.entry.value, now)
  {
  }

  lemma InTcpKeepsShape(f: Features, e: Option<FlowVal>, seg: Segment, now: nat, admitted: bool, ok: bool)
    requires e.Some? ==> TcpOk(e.value, now)
    ensures var o := InTcp(f, e, seg, now, admitted, ok); o.entry.Some? ==> TcpOk(o.entry.value, now)
  {
  }

  lemma StoreTcpOk(m: FlowTable, k: FlowKey, e: Option<FlowVal>, now: nat)
    requires (forall j :: j in m ==> TcpOk(m[j], now)) && (e.Some? ==> TcpOk(e.value, now))
    ensures forall j :: j in Store(m, k, e) ==> TcpOk(Store(m, k, e)[j], now)
  {
  }

  lemma TcpLocalKeepsShape(e: Option<FlowVal>, bkt: Buckets, pkt: Packet, k: FlowKey, use: bool)
    requires pkt.p.Tcp? && (e.Some? ==> TcpOk(e.value, Tick(pkt.ns)))
    ensures var l := TcpLocal(e, bkt, pkt, k, use); l.entry.Some? ==> TcpOk(l.entry.value, Tick(pkt.ns))
  {
    if pkt.pol.Some? {
      var pol := pkt.pol.value;
      var seg := SegmentOf(pkt.trusted, pkt.p.h);
      OutTcpKeepsShape(pol.f, e, seg, Tick(pkt.ns), pkt.ok.flow);
      InTcpKeepsShape(pol.f, e, seg, Tick(pkt.ns), AdmitSyn(bkt, pol, k, seg.flags, pkt.ns, pkt.ok).1, pkt.ok.flow);
    }
  }

  lemma InvLater(c: Core, before: nat, now: nat)
    requires Inv(c, before) && before <= now
    ensures Inv(c, now)
  {
  }

  lemma TcpStepKeepsInv(cfg: L1Config, c: Core, pkt: Packet)
    requires WellFormed(pkt.p) && pkt.p.Tcp? && Inv(c, Tick(pkt.ns))
    ensures Inv(TcpStep(cfg, c, pkt).core, Tick(pkt.ns))
  {
    var k, now := KeyOf(pkt.trusted, pkt.p), Tick(pkt.ns);
    TcpLocalKeepsShape(Lookup(c.flows, k), c.bkt, pkt, k, UsesL1(cfg, pkt));
    StoreTcpOk(c.flows, k, TcpLocal(Lookup(c.flows, k), c.bkt, pkt, k, UsesL1(cfg, pkt)).entry, now);
  }

  lemma UdpStepKeepsInv(cfg: L1Config, c: Core, pkt: Packet)
    requires WellFormed(pkt.p) && pkt.p.Udp? && Inv(c, Tick(pkt.ns))
    ensures Inv(UdpStep(cfg, c, pkt).core, Tick(pkt.ns))
  {
  }

  lemma StepKeepsInv(cfg: L1Config, c: Core, e: Event, before: nat)
    requires Valid(e) && Inv(c, before) && before <= Tick(Time(e))
    ensures Inv(Step(cfg, c, e), Tick(Time(e)))
  {
    InvLater(c, before, Tick(Time(e)));
    if e.Rx? && e.pkt.p.Tcp? {
      TcpStepKeepsInv(cfg, c, e.pkt);
    } else if e.Rx? && e.pkt.p.Udp? {
      UdpStepKeepsInv(cfg, c, e.pkt);
    }
  }

  lemma {:induction false} RunInv(cfg: L1Config, es: Trace)
    requires Proper(es)
    ensures Inv(Run(cfg, es), Tick(Now(es)))
  {
    if es != [] {
      RunInv(cfg, Front(es));
      StepKeepsInv(cfg, Run(cfg, Front(es)), Last(es), Tick(Now(Front(es))));
    }
  }

  // ---- one key at a time ----

  /** The entry of `k` after an event: only a TCP packet of that key, a sweep or an
      eviction can change it. */
  function FlowAfter(cfg: L1Config, c: Core, e: Event, k: FlowKey): Option<FlowVal>
    requires Valid(e)
  {
    var v := Lookup(c.flows, k);
    if IsTcp(e, k) then
      if TcpHit(cfg, c, e.pkt, k) then v else TcpLocal(v, c.bkt, e.pkt, k, UsesL1(cfg, e.pkt)).entry
    else if FlowRemoved(c, e, k) then None
    else v
  }

  predicate FlowRemoved(c: Core, e: Event, k: FlowKey) {
    || (e.EvictTcp? && e.victim == k)
    || (e.Sweep? && e.tcp && Tick(e.at) != 0 && k in c.flows && GcStale(e.cfg, c.flows[k], Tick(e.at)))
  }

  function UdpAfter(cfg: L1Config, c: Core, e: Event, k: FlowKey): Option<FlowVal>
    requires Valid(e)
  {
    var v := Lookup(c.udp, k);
    if IsUdp(e, k) then
      if UdpHit(cfg, c, e.pkt, k) then v else UdpLocal(v, c.bkt, e.pkt, k, cfg.on).entry
    else if UdpRemoved(c, e, k) then None
    else v
  }

  predicate UdpRemoved(c: Core, e: Event, k: FlowKey) {
    || (e.EvictUdp? && e.victim == k)
    || (e.Sweep? && !e.tcp && Tick(e.at) != 0 && k in c.udp && GcStale(e.cfg, c.udp[k], Tick(e.at)))
  }

  lemma FlowStep(cfg: L1Config, c: Core, e: Event, k: FlowKey)
    requires Valid(e)
    ensures Lookup(Step(cfg, c, e).flows, k) == FlowAfter(cfg, c, e, k)
  {
  }

  lemma UdpFlowStep(cfg: L1Config, c: Core, e: Event, k: FlowKey)
    requires Valid(e)
    ensures Lookup(Step(cfg, c, e).udp, k) == UdpAfter(cfg, c, e, k)
  {
    if e.Rx? && e.pkt.p.Udp? {
      var j := KeyOf(e.pkt.trusted, e.pkt.p);
      StoreLookup(c.udp, j, UdpLocal(Lookup(c.udp, j), c.bkt, e.pkt, j, cfg.on).entry);
    }
  }

  /** The slot a packet fills, if it fills one. */
  predicate FillsTcp(cfg: L1Config, c: Core, e: Event, k: FlowKey)
    requires Valid(e)
  {
    && IsTcp(e, k) && !TcpHit(cfg, c, e.pkt, k)
    && TcpLocal(Lookup(c.flows, k), c.bkt, e.pkt, k, UsesL1(cfg, e.pkt)).fill
  }

  predicate FillsUdp(cfg: L1Config, c: Core, e: Event, k: FlowKey)
    requires Valid(e)
  {
    && IsUdp(e, k) && !UdpHit(cfg, c, e.pkt, k)
    && UdpLocal(Lookup(c.udp, k), c.bkt, e.pkt, k, cfg.on).fill
  }

  /** A slot holds what it held, or what this packet put there. */
  lemma SlotStep(cfg: L1Config, c: Core, e: Event, s: (nat, nat))
    requires Valid(e)
    ensures var l1 := Step(cfg, c, e).l1;
            s in l1 ==>
              var k, now := l1[s].key, Tick(Time(e));
              || (s in c.l1 && l1[s] == c.l1[s])
              || (FillsTcp(cfg, c, e, k) && l1[s] == L1Entry(k, now, Est))
              || (FillsUdp(cfg, c, e, k) && l1[s] == L1Entry(k, now, StUdp))
  {
    if e.Rx? && e.pkt.p.Tcp? {
      TcpSlotStep(cfg, c, e, s);
    } else if e.Rx? && e.pkt.p.Udp? {
      UdpSlotStep(cfg, c, e, s);
    }
  }

  lemma TcpSlotStep(cfg: L1Config, c: Core, e: Event, s: (nat, nat))
    requires Valid(e) && e.Rx? && e.pkt.p.Tcp?
    ensures var l1, k := TcpStep(cfg, c, e.pkt).core.l1, KeyOf(e.pkt.trusted, e.pkt.p);
            || Lookup(l1, s) == Lookup(c.l1, s)
            || (FillsTcp(cfg, c, e, k) && Lookup(l1, s) == Some(L1Entry(k, Tick(Time(e)), Est)))
  {
  }

  lemma UdpSlotStep(cfg: L1Config, c: Core, e: Event, s: (nat, nat))
    requires Valid(e) && e.Rx? && e.pkt.p.Udp?
    ensures var l1, k := UdpStep(cfg, c, e.pkt).core.l1, KeyOf(e.pkt.trusted, e.pkt.p);
            || Lookup(l1, s) == Lookup(c.l1, s)
            || (FillsUdp(cfg, c, e, k) && Lookup(l1, s) == Some(L1Entry(k, Tick(Time(e)), StUdp)))
  {
  }

  /** A slot is only ever filled for an entry that is in the table, stamped now. */
  lemma FillsTcpEntry(cfg: L1Config, c: Core, e: Event, k: FlowKey)
    requires Valid(e)
    ensures FillsTcp(cfg, c, e, k) ==>
              var v := Lookup(Step(cfg, c, e).flows, k); v.Some? && v.value.lastSeen == Tick(Time(e))
  {
    FlowStep(cfg, c, e, k);
  }

  lemma FillsUdpEntry(cfg: L1Config, c: Core, e: Event, k: FlowKey)
    requires Valid(e)
    ensures FillsUdp(cfg, c, e, k) ==>
              var v := Lookup(Step(cfg, c, e).udp, k); v.Some? && v.value.lastSeen == Tick(Time(e))
  {
    UdpFlowStep(cfg, c, e, k);
  }
}
