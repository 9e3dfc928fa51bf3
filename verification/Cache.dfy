/** The per-CPU L1 cache against the tables it stands in front of. */
module Cache {
  import opened Types
  import opened Clock
  import opened Flows
  import opened Frame
  import opened Machine
  import opened Invariants

  /** Every TCP slot validated in tick `t` names an entry stamped `t`. */
  ghost predicate TcpCoherent(c: Core, t: nat) {
    forall s :: s in c.l1 && c.l1[s].lastSeen == t && c.l1[s].state == Est ==> Stamped(c.flows, c.l1[s].key, t)
  }

  ghost predicate UdpCoherent(c: Core, t: nat) {
    forall s :: s in c.l1 && c.l1[s].lastSeen == t && c.l1[s].state == StUdp ==> Stamped(c.udp, c.l1[s].key, t)
  }

  predicate Stamped(m: FlowTable, k: FlowKey, t: nat) { k in m && m[k].lastSeen == t }

  lemma StampStays(cfg: L1Config, c: Core, e: Event, k: FlowKey)
    requires Valid(e) && Stamped(c.flows, k, Tick(Time(e))) && !e.EvictTcp?
    ensures Stamped(Step(cfg, c, e).flows, k, Tick(Time(e)))
  {
    FlowStep(cfg, c, e, k);
    if IsTcp(e, k) {
      LocalStampStays(c.flows[k], c.bkt, e.pkt, k, UsesL1(cfg, e.pkt));
    }
  }

  /** A handler that finds an entry stamped now leaves one stamped now. */
  lemma LocalStampStays(v: FlowVal, bkt: SynLimit.Buckets, pkt: Packet, k: FlowKey, use: bool)
    requires pkt.p.Tcp? && v.lastSeen == Tick(pkt.ns)
    ensures var l := TcpLocal(Some(v), bkt, pkt, k, use); l.entry.Some? && l.entry.value.lastSeen == Tick(pkt.ns)
  {
  }

  lemma UdpStampStays(cfg: L1Config, c: Core, e: Event, k: FlowKey)
    requires Valid(e) && Stamped(c.udp, k, Tick(Time(e))) && !e.EvictUdp?
    ensures Stamped(Step(cfg, c, e).udp, k, Tick(Time(e)))
  {
  }

  lemma TcpCoherentStep(cfg: L1Config, c: Core, e: Event)
    requires Valid(e) && !e.EvictTcp? && TcpCoherent(c, Tick(Time(e)))
    ensures TcpCoherent(Step(cfg, c, e), Tick(Time(e)))
  {
    var c', t := Step(cfg, c, e), Tick(Time(e));
    forall s | s in c'.l1 && c'.l1[s].lastSeen == t && c'.l1[s].state == Est
      ensures Stamped(c'.flows, c'.l1[s].key, t)
    {
      var k := c'.l1[s].key;
      SlotStep(cfg, c, e, s);
      FillsTcpEntry(cfg, c, e, k);
      if Stamped(c.flows, k, t) {
        StampStays(cfg, c, e, k);
      }
    }
  }

  lemma UdpCoherentStep(cfg: L1Config, c: Core, e: Event)
    requires Valid(e) && !e.EvictUdp? && UdpCoherent(c, Tick(Time(e)))
    ensures UdpCoherent(Step(cfg, c, e), Tick(Time(e)))
  {
    var c', t := Step(cfg, c, e), Tick(Time(e));
    forall s | s in c'.l1 && c'.l1[s].lastSeen == t && c'.l1[s].state == StUdp
      ensures Stamped(c'.udp, c'.l1[s].key, t)
    {
      var k := c'.l1[s].key;
      SlotStep(cfg, c, e, s);
      FillsUdpEntry(cfg, c, e, k);
      if Stamped(c.udp, k, t) {
        UdpStampStays(cfg, c, e, k);
      }
    }
  }

  /** A new tick invalidates the whole cache. */
  lemma NewTickIsCoherent(cfg: L1Config, es: Trace, t: nat)
    requires Proper(es) && Tick(Now(es)) < t
    ensures TcpCoherent(Run(cfg, es), t) && UdpCoherent(Run(cfg, es), t)
  {
    RunInv(cfg, es);
  }

  /** Coherence over runs: only an eviction in the same tick can break it. */
  lemma {:induction false} TcpCoherentRun(cfg: L1Config, es: Trace, t: nat)
    requires Proper(es) && Tick(Now(es)) <= t
    requires forall i :: 0 <= i < |es| && es[i].EvictTcp? ==> Tick(Time(es[i])) != t
    ensures TcpCoherent(Run(cfg, es), t)
  {
    if es != [] && Tick(Now(es)) == t {
      TcpCoherentRun(cfg, Front(es), t);
      TcpCoherentStep(cfg, Run(cfg, Front(es)), Last(es));
    } else if es != [] {
      NewTickIsCoherent(cfg, es, t);
    }
  }

  lemma {:induction false} UdpCoherentRun(cfg: L1Config, es: Trace, t: nat)
    requires Proper(es) && Tick(Now(es)) <= t
    requires forall i :: 0 <= i < |es| && es[i].EvictUdp? ==> Tick(Time(es[i])) != t
    ensures UdpCoherent(Run(cfg, es), t)
  {
    if es != [] && Tick(Now(es)) == t {
      UdpCoherentRun(cfg, Front(es), t);
      UdpCoherentStep(cfg, Run(cfg, Front(es)), Last(es));
    } else if es != [] {
      NewTickIsCoherent(cfg, es, t);
    }
  }

  // ---- TCP: a hit refines the slow path ----

  /** The one effect a hit can skip: promoting the entry to EST. */
  predicate Promotes(trusted: bool, v: FlowVal) {
    if trusted then v.state != Est && !(v.state == Closing && v.closedOut) else v.state == SynRcvd
  }

  /** A hit means the entry is there and stamped now; the slow path would forward
      too, and change nothing except, exactly when `Promotes` says so, the state. */
  lemma TcpHitRefinesSlowPath(cfg: L1Config, es: Trace, k: FlowKey, pol: Policy)
    requires Proper(es) && es != [] && IsTcp(Last(es), k)
    requires TcpHit(cfg, Run(cfg, Front(es)), Last(es).pkt, k)
    requires forall i :: 0 <= i < |es| && es[i].EvictTcp? ==> Tick(Time(es[i])) != Tick(Now(es))
    ensures var c, pkt := Run(cfg, Front(es)), Last(es).pkt.(pol := Some(pol));
            && Stamped(c.flows, k, Tick(pkt.ns))
            && var v := c.flows[k];
               var l := TcpLocal(Some(v), c.bkt, pkt, k, true);
            && l.decision == Pass(Inspected) && !l.mapFail && l.bkt == c.bkt
            && l.entry == Some(if Promotes(pkt.trusted, v) then v.(state := Est) else v)
  {
    TcpCoherentRun(cfg, Front(es), Tick(Now(es)));
    HitLocal(Run(cfg, Front(es)), Last(es).pkt.(pol := Some(pol)), k);
  }

  lemma HitLocal(c: Core, pkt: Packet, k: FlowKey)
    requires pkt.p.Tcp? && pkt.pol.Some? && L1Eligible(pkt.p.h.flags) && Stamped(c.flows, k, Tick(pkt.ns))
    ensures var v := c.flows[k];
            var l := TcpLocal(Some(v), c.bkt, pkt, k, true);
            && l.decision == Pass(Inspected) && !l.mapFail && l.bkt == c.bkt
            && l.entry == Some(if Promotes(pkt.trusted, v) then v.(state := Est) else v)
  {
  }

  /** A packet whose insert failed authorizes nothing in L1. */
  lemma FailedInsertIsNotCached(e: Option<FlowVal>, bkt: SynLimit.Buckets, pkt: Packet, k: FlowKey, use: bool)
    ensures pkt.p.Tcp? ==> var l := TcpLocal(e, bkt, pkt, k, use); l.mapFail ==> !l.fill && l.entry == e
    ensures var l := UdpLocal(e, bkt, pkt, k, use); l.mapFail ==> !l.fill && l.entry == e
  {
  }

  // ---- UDP: bisimulation ----

  function Off(cfg: L1Config): L1Config { cfg.(on := false) }

  predicate SameVerdict(a: Decision, b: Decision) { a == b || (a.Pass? && b.Pass?) }

  /** One datagram, with and without the cache in front of the same table. */
  lemma UdpPacketBisimulates(cfg: L1Config, c: Core, d: Core, pkt: Packet)
    requires pkt.p.Udp? && WellFormed(pkt.p)
    requires c.udp == d.udp && UdpCoherent(c, Tick(pkt.ns))
    requires forall k :: k in c.udp ==> UdpShape(c.udp[k])
    ensures UdpStep(cfg, c, pkt).core.udp == UdpStep(Off(cfg), d, pkt).core.udp
    ensures SameVerdict(UdpStep(cfg, c, pkt).decision, UdpStep(Off(cfg), d, pkt).decision)
  {
    var k := KeyOf(pkt.trusted, pkt.p);
    if UdpHit(cfg, c, pkt, k) {
      assert Stamped(c.udp, k, Tick(pkt.ns));
      UdpHitLocal(d, pkt, k);
      StoreSame(d.udp, k);
    } else {
      UdpUseOnlyFills(Lookup(c.udp, k), c.bkt, d.bkt, pkt, k, cfg.on);
    }
  }

  /** On an entry stamped now the slow path forwards and writes what is there. */
  lemma UdpHitLocal(d: Core, pkt: Packet, k: FlowKey)
    requires UdpTracked(pkt) && Stamped(d.udp, k, Tick(pkt.ns)) && UdpShape(d.udp[k])
    ensures var l := UdpLocal(Lookup(d.udp, k), d.bkt, pkt, k, false);
            l.entry == Lookup(d.udp, k) && l.decision.Pass?
  {
  }

  lemma UdpUseOnlyFills(e: Option<FlowVal>, s: SynLimit.Buckets, t: SynLimit.Buckets, pkt: Packet, k: FlowKey, use: bool)
    ensures UdpLocal(e, s, pkt, k, use).(fill := false, bkt := t) == UdpLocal(e, t, pkt, k, false)
  {
  }

  lemma UdpStepBisimulates(cfg: L1Config, c: Core, d: Core, e: Event)
    requires Valid(e) && c.udp == d.udp && UdpCoherent(c, Tick(Time(e)))
    requires forall k :: k in c.udp ==> UdpShape(c.udp[k])
    ensures Step(cfg, c, e).udp == Step(Off(cfg), d, e).udp
    ensures e.Rx? && e.pkt.p.Udp? ==>
              SameVerdict(Receive(cfg, c, e.pkt).decision, Receive(Off(cfg), d, e.pkt).decision)
  {
    if e.Rx? && e.pkt.p.Udp? {
      UdpPacketBisimulates(cfg, c, d, e.pkt);
    } else {
      OtherEventsBisimulate(cfg, c, d, e);
    }
  }

  lemma OtherEventsBisimulate(cfg: L1Config, c: Core, d: Core, e: Event)
    requires Valid(e) && c.udp == d.udp && !(e.Rx? && e.pkt.p.Udp?)
    ensures Step(cfg, c, e).udp == Step(Off(cfg), d, e).udp
  {
    if e.Rx? && e.pkt.p.Tcp? {
      TcpKeepsUdp(cfg, c, e.pkt);
      TcpKeepsUdp(Off(cfg), d, e.pkt);
    }
    hide UdpStep, TcpStep;
  }

  lemma TcpKeepsUdp(cfg: L1Config, c: Core, pkt: Packet)
    requires WellFormed(pkt.p) && pkt.p.Tcp?
    ensures TcpStep(cfg, c, pkt).core.udp == c.udp
  {
  }

  /** UDP inserts succeed, and the UDP timeout is `ttl`; nothing is said about TCP. */
  predicate UdpTimeout(e: Event, ttl: nat) {
    && (e.Rx? && e.pkt.p.Udp? ==> e.pkt.ok.flow && (e.pkt.pol.Some? ==> e.pkt.pol.value.f.ttlUdp == ttl))
    && (e.Sweep? && !e.tcp ==> SecToTicks(e.cfg.ttlUdp) == ttl)
  }

  ghost predicate NoUdpEviction(es: Trace) { forall i :: 0 <= i < |es| ==> !es[i].EvictUdp? }

  /** For every trace, CPU assignment, index function, insert oracle, sweep schedule
      and policy, the machine with the cache and the one without have the same UDP
      table after every step. */
  lemma {:induction false} UdpTablesAgree(cfg: L1Config, es: Trace)
    requires Proper(es) && NoUdpEviction(es)
    ensures Run(cfg, es).udp == Run(Off(cfg), es).udp
  {
    if es != [] {
      UdpTablesAgree(cfg, Front(es));
      UdpCoherentRun(cfg, Front(es), Tick(Now(es)));
      RunInv(cfg, Front(es));
      UdpStepBisimulates(cfg, Run(cfg, Front(es)), Run(Off(cfg), Front(es)), Last(es));
    }
  }

  /** ... and give every datagram the same verdict. */
  lemma UdpVerdictsAgree(cfg: L1Config, es: Trace)
    requires Proper(es) && NoUdpEviction(es) && es != [] && Last(es).Rx? && Last(es).pkt.p.Udp?
    ensures SameVerdict(Decide(cfg, es), Decide(Off(cfg), es))
  {
    UdpTablesAgree(cfg, Front(es));
    UdpCoherentRun(cfg, Front(es), Tick(Now(es)));
    RunInv(cfg, Front(es));
    UdpStepBisimulates(cfg, Run(cfg, Front(es)), Run(Off(cfg), Front(es)), Last(es));
  }

  // ---- TCP: when the cache is exact over whole runs ----

  /** A hit that postpones a promotion to EST. */
  predicate Postpones(cfg: L1Config, c: Core, e: Event)
    requires Valid(e)
  {
    && e.Rx? && e.pkt.p.Tcp?
    && var k := KeyOf(e.pkt.trusted, e.pkt.p);
    && TcpHit(cfg, c, e.pkt, k) && e.pkt.pol.Some? && k in c.flows && Promotes(e.pkt.trusted, c.flows[k])
  }

  /** The frame is forwarded in both cases, counted or not, or refused alike. */
  predicate SameFate(a: Decision, b: Decision) { a == b || (!a.Reject? && !b.Reject?) }

  /** One step from equal tables: they stay equal exactly when no promotion is
      postponed. */
  lemma TcpStepAgreesIff(cfg: L1Config, c: Core, d: Core, e: Event)
    requires Valid(e) && c.flows == d.flows && c.bkt == d.bkt && TcpCoherent(c, Tick(Time(e)))
    ensures Step(cfg, c, e).flows == Step(Off(cfg), d, e).flows <==> !Postpones(cfg, c, e)
    ensures Step(cfg, c, e).bkt == Step(Off(cfg), d, e).bkt
    ensures e.Rx? && e.pkt.p.Tcp? ==>
              SameFate(Receive(cfg, c, e.pkt).decision, Receive(Off(cfg), d, e.pkt).decision)
  {
    if e.Rx? && e.pkt.p.Tcp? {
      TcpPacketAgreesIff(cfg, c, d, e.pkt);
    } else {
      OtherEventsAgree(cfg, c, d, e);
    }
  }

  lemma OtherEventsAgree(cfg: L1Config, c: Core, d: Core, e: Event)
    requires Valid(e) && c.flows == d.flows && c.bkt == d.bkt && !(e.Rx? && e.pkt.p.Tcp?)
    ensures Step(cfg, c, e).flows == Step(Off(cfg), d, e).flows && Step(cfg, c, e).bkt == Step(Off(cfg), d, e).bkt
  {
    if e.Rx? && e.pkt.p.Udp? {
      UdpKeepsTcp(cfg, c, e.pkt);
      UdpKeepsTcp(Off(cfg), d, e.pkt);
    }
    hide UdpStep, TcpStep;
  }

  lemma UdpKeepsTcp(cfg: L1Config, c: Core, pkt: Packet)
    requires WellFormed(pkt.p) && pkt.p.Udp?
    ensures var c' := UdpStep(cfg, c, pkt).core; c'.flows == c.flows && c'.bkt == c.bkt
  {
  }

  lemma TcpPacketAgreesIff(cfg: L1Config, c: Core, d: Core, pkt: Packet)
    requires WellFormed(pkt.p) && pkt.p.Tcp?
    requires c.flows == d.flows && c.bkt == d.bkt && TcpCoherent(c, Tick(pkt.ns))
    ensures var c', d' := TcpStep(cfg, c, pkt), TcpStep(Off(cfg), d, pkt);
            && (c'.core.flows == d'.core.flows <==> !Postpones(cfg, c, Rx(pkt)))
            && c'.core.bkt == d'.core.bkt && SameFate(c'.decision, d'.decision)
  {
    var k := KeyOf(pkt.trusted, pkt.p);
    if TcpHit(cfg, c, pkt, k) && pkt.pol.None? {
      StoreSame(d.flows, k);
    } else if TcpHit(cfg, c, pkt, k) {
      HitAgreesIff(cfg, c, d, pkt, k);
    } else {
      MissAgrees(cfg, c, d, pkt, k);
    }
  }

  lemma UseOnlyFills(e: Option<FlowVal>, bkt: SynLimit.Buckets, pkt: Packet, k: FlowKey, use: bool)
    requires pkt.p.Tcp?
    ensures TcpLocal(e, bkt, pkt, k, use).(fill := false) == TcpLocal(e, bkt, pkt, k, false)
  {
  }

  lemma MissAgrees(cfg: L1Config, c: Core, d: Core, pkt: Packet, k: FlowKey)
    requires WellFormed(pkt.p) && pkt.p.Tcp? && k == KeyOf(pkt.trusted, pkt.p)
    requires c.flows == d.flows && c.bkt == d.bkt && !TcpHit(cfg, c, pkt, k)
    ensures var c', d' := TcpStep(cfg, c, pkt), TcpStep(Off(cfg), d, pkt);
            c'.core.flows == d'.core.flows && c'.core.bkt == d'.core.bkt && c'.decision == d'.decision
  {
  }

  lemma HitAgreesIff(cfg: L1Config, c: Core, d: Core, pkt: Packet, k: FlowKey)
    requires WellFormed(pkt.p) && pkt.p.Tcp? && k == KeyOf(pkt.trusted, pkt.p) && pkt.pol.Some?
    requires c.flows == d.flows && TcpHit(cfg, c, pkt, k) && TcpCoherent(c, Tick(pkt.ns))
    ensures var d' := TcpStep(Off(cfg), d, pkt);
            && (d'.core.flows == c.flows <==> !Promotes(pkt.trusted, c.flows[k]))
            && d'.core.bkt == d.bkt && d'.decision == Pass(Inspected)
  {
    assert Stamped(c.flows, k, Tick(pkt.ns));
    HitLocal(d, pkt, k);
    UseOnlyFills(Lookup(d.flows, k), d.bkt, pkt, k, true);
    var l := TcpLocal(Lookup(d.flows, k), d.bkt, pkt, k, false);
    StoreLookup(d.flows, k, l.entry);
    assert Lookup(Store(d.flows, k, l.entry), k) == l.entry;
  }

  ghost predicate NoTcpEviction(es: Trace) { forall i :: 0 <= i < |es| ==> !es[i].EvictTcp? }

  ghost predicate SameFlows(cfg: L1Config, es: Trace, n: nat)
    requires Proper(es) && n <= |es|
  { At(cfg, es, n).flows == At(Off(cfg), es, n).flows }

  ghost predicate SameBuckets(cfg: L1Config, es: Trace, n: nat)
    requires Proper(es) && n <= |es|
  { At(cfg, es, n).bkt == At(Off(cfg), es, n).bkt }

  /** Event `n`, if it is a TCP packet, fares the same with and without the cache. */
  ghost predicate SameTcpVerdict(cfg: L1Config, es: Trace, n: nat)
    requires Proper(es) && n < |es|
  {
    es[n].Rx? && es[n].pkt.p.Tcp? ==>
      SameFate(Receive(cfg, At(cfg, es, n), es[n].pkt).decision,
               Receive(Off(cfg), At(Off(cfg), es, n), es[n].pkt).decision)
  }

  ghost predicate PostponesAt(cfg: L1Config, es: Trace, n: nat)
    requires Proper(es) && n < |es|
  { Postpones(cfg, At(cfg, es, n), es[n]) }

  lemma TcpSameNext(cfg: L1Config, es: Trace, n: nat)
    requires Proper(es) && NoTcpEviction(es) && n < |es| && SameFlows(cfg, es, n) && SameBuckets(cfg, es, n)
    ensures SameFlows(cfg, es, n + 1) <==> !PostponesAt(cfg, es, n)
    ensures SameBuckets(cfg, es, n + 1) && SameTcpVerdict(cfg, es, n)
  {
    AtStep(cfg, es, n);
    AtStep(Off(cfg), es, n);
    TcpCoherentRun(cfg, es[..n], Tick(Time(es[n])));
    TcpStepAgreesIff(cfg, At(cfg, es, n), At(Off(cfg), es, n), es[n]);
  }

  lemma {:induction false} TcpSameRun(cfg: L1Config, es: Trace, n: nat)
    requires Proper(es) && NoTcpEviction(es) && n <= |es|
    requires (forall i :: 0 <= i < n ==> !PostponesAt(cfg, es, i)) || (forall m :: 0 <= m <= n ==> SameFlows(cfg, es, m))
    ensures SameFlows(cfg, es, n) && SameBuckets(cfg, es, n)
  {
    if n > 0 {
      TcpSameRun(cfg, es, n - 1);
      TcpSameNext(cfg, es, n - 1);
    }
  }

  /** Over a whole run: the TCP tables with and without the cache agree throughout if
      and only if no hit ever postpones a promotion, and then every TCP packet gets
      the same verdict. */
  lemma TcpTablesAgree(cfg: L1Config, es: Trace)
    requires Proper(es) && NoTcpEviction(es)
    ensures (forall n :: 0 <= n <= |es| ==> SameFlows(cfg, es, n))
            <==> (forall i :: 0 <= i < |es| ==> !PostponesAt(cfg, es, i))
    ensures (forall i :: 0 <= i < |es| ==> !PostponesAt(cfg, es, i)) ==>
              forall i :: 0 <= i < |es| ==> SameTcpVerdict(cfg, es, i)
  {
    if forall i :: 0 <= i < |es| ==> !PostponesAt(cfg, es, i) {
      forall n | 0 <= n <= |es|
        ensures SameFlows(cfg, es, n) && SameBuckets(cfg, es, n)
      {
        TcpSameRun(cfg, es, n);
      }
      forall i | 0 <= i < |es|
        ensures SameTcpVerdict(cfg, es, i)
      {
        TcpSameNext(cfg, es, i);
      }
    } else if forall n :: 0 <= n <= |es| ==> SameFlows(cfg, es, n) {
      forall i | 0 <= i < |es|
        ensures !PostponesAt(cfg, es, i)
      {
        TcpSameRun(cfg, es, i);
        TcpSameNext(cfg, es, i);
      }
    }
  }
}
