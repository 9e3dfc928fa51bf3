/** Garbage collection (internal/dataplane/gc.go) and why it cannot be observed. */
module Gc {
  import opened Types
  import opened Clock
  import opened Flows
  import opened Frame
  import opened Machine
  import opened Invariants
  import opened Cache

  // ---- the sweep itself ----

  /** The handle on one flow table. */
  class FlowMap {
    var m: FlowTable

    constructor (m: FlowTable)
      ensures this.m == m
    { this.m := m; }
  }

  /** The scan: visit every key in the map's own order and collect the stale ones. */
  method CollectStale(m: FlowTable, cfg: Config, now: nat) returns (total: nat, stale: seq<FlowKey>)
    ensures total == |m|
    ensures forall k :: k in stale <==> k in m && GcStale(cfg, m[k], now)
  {
    total, stale := 0, [];
    var rest := m.Keys;
    while rest != {}
      invariant rest <= m.Keys && total == |m| - |rest|
      invariant forall k :: k in stale <==> k in m && k !in rest && GcStale(cfg, m[k], now)
    {
      var k :| k in rest;
      rest := rest - {k};
      total := total + 1;
      var v := m[k];
      if v.lastSeen <= now && now - v.lastSeen > TtlForState(cfg, v.state) {
        stale := stale + [k];
      }
    }
  }

  /** Delete one key, and say whether it was there. */
  method DeleteKey(flows: FlowMap, k: FlowKey) returns (gone: bool)
    modifies flows
    ensures flows.m == old(flows.m) - {k}
    ensures |flows.m| == |old(flows.m)| - if gone then 1 else 0
  {
    gone := k in flows.m;
    if gone {
      DropOne(flows.m, k);
      flows.m := flows.m - {k};
    } else {
      assert flows.m - {k} == flows.m;
    }
  }

  /** The deletions; a key that is gone already is not counted. */
  method DeleteAll(flows: FlowMap, keys: seq<FlowKey>) returns (deleted: nat)
    modifies flows
    ensures flows.m == old(flows.m) - SetOf(keys)
    ensures deleted == |old(flows.m)| - |flows.m|
  {
    deleted := 0;
    for i := 0 to |keys|
      invariant flows.m == old(flows.m) - SetOf(keys[..i])
      invariant deleted == |old(flows.m)| - |flows.m|
    {
      DropNext(old(flows.m), keys, i);
      var gone := DeleteKey(flows, keys[i]);
      if gone {
        deleted := deleted + 1;
      }
    }
    assert keys[..|keys|] == keys;
  }

  /** One sweep. `now` is the monotonic tick, 0 when the clock could not be read. */
  method GcOnce(flows: FlowMap, cfg: Config, now: nat) returns (live: nat, deleted: nat)
    modifies flows
    ensures flows.m == Swept(old(flows.m), cfg, now)
    ensures now != 0 ==> live == |flows.m| && deleted == |old(flows.m)| - |flows.m|
    ensures now == 0 ==> live == 0 && deleted == 0
  {
    if now == 0 {
      return 0, 0;
    }
    var total, stale := CollectStale(flows.m, cfg, now);
    StaleRemoved(flows.m, cfg, now, stale);
    hide Swept, SetOf, GcStale;
    deleted := DeleteAll(flows, stale);
    live := total - deleted;
  }

  lemma StaleRemoved(m: FlowTable, cfg: Config, now: nat, stale: seq<FlowKey>)
    requires now != 0 && forall k :: k in stale <==> k in m && GcStale(cfg, m[k], now)
    ensures m - SetOf(stale) == Swept(m, cfg, now)
  {
    hide GcStale;
  }

  /** A sweep at instant `t1`, from the second tick on, by age and configured seconds: what
      has been idle for its timeout at most stays as it is, what has been idle two ticks
      longer is gone, and nothing comes into being. */
  lemma SweepByAge(cfg: Config, m: FlowTable, k: FlowKey, sec: u32, t0: nat, t1: nat)
    requires k in m && m[k].lastSeen == Tick(t0) && t0 <= t1 && t1 >= 0x4000_0000
    requires match m[k].state
             case SynSent | SynRcvd => sec == cfg.ttlSyn
             case Est => sec == cfg.ttlEst
             case Closing => sec == cfg.ttlClosing
             case StUdp => sec == cfg.ttlUdp
             case StNone => false
    ensures var s := Swept(m, cfg, Tick(t1));
            && (t1 - t0 <= sec * 1_000_000_000 ==> k in s && s[k] == m[k])
            && (t1 - t0 >= sec * 1_000_000_000 + 2_147_483_136 ==> k !in s)
            && s.Keys <= m.Keys
  {
    TimeoutOfState(cfg, m[k], t0, t1);
    hide GcStale;
  }

  function SetOf<T>(s: seq<T>): set<T> { set x | x in s }

  lemma DropNext<K, V>(m: map<K, V>, keys: seq<K>, i: nat)
    requires i < |keys|
    ensures m - SetOf(keys[..i]) - {keys[i]} == m - SetOf(keys[..i + 1])
  {
  }

  lemma DropOne<K, V>(m: map<K, V>, k: K)
    requires k in m
    ensures |m - {k}| == |m| - 1
  {
  }

  // ---- a sweep cannot be observed ----

  predicate SameTtls(f: Features, g: Features) {
    f.ttlSyn == g.ttlSyn && f.ttlEst == g.ttlEst && f.ttlClosing == g.ttlClosing && f.ttlUdp == g.ttlUdp
  }

  /** The table `g` is `p` without some entries that are expired at `now`. */
  ghost predicate Behind(g: FlowTable, p: FlowTable, f: Features, now: nat) {
    && (forall k :: k in g ==> k in p && p[k] == g[k])
    && (forall k :: k in p && k !in g ==> Expired(f, p[k], now))
  }

  /** What the data plane can see of a table: its live entries. */
  function LiveView(m: FlowTable, k: FlowKey, f: Features, now: nat): Option<FlowVal> {
    if Live(f, Lookup(m, k), now) then Lookup(m, k) else None
  }

  lemma BehindLooksTheSame(g: FlowTable, p: FlowTable, f: Features, now: nat, k: FlowKey)
    requires Behind(g, p, f, now)
    ensures LiveView(g, k, f, now) == LiveView(p, k, f, now)
  {
  }

  lemma BehindLater(g: FlowTable, p: FlowTable, f: Features, before: nat, now: nat)
    requires Behind(g, p, f, before) && before <= now
    ensures Behind(g, p, f, now)
  {
  }

  lemma SweepStaysBehind(g: FlowTable, p: FlowTable, f: Features, cfg: Config, now: nat)
    requires Behind(g, p, f, now) && SameTtls(f, FeaturesFrom(cfg))
    ensures Behind(Swept(g, cfg, now), p, f, now)
  {
  }

  /** Two entries of one key, one per table, and what the same write makes of them. */
  predicate EntryBehind(g: Option<FlowVal>, p: Option<FlowVal>, f: Features, now: nat) {
    g == p || (g.None? && p.Some? && Expired(f, p.value, now))
  }

  lemma StoreStaysBehind(g: FlowTable, p: FlowTable, k: FlowKey, a: Option<FlowVal>, b: Option<FlowVal>,
                         f: Features, now: nat)
    requires Behind(g, p, f, now) && EntryBehind(a, b, f, now)
    ensures Behind(Store(g, k, a), Store(p, k, b), f, now)
  {
  }

  lemma LookupBehind(g: FlowTable, p: FlowTable, k: FlowKey, f: Features, now: nat)
    requires Behind(g, p, f, now)
    ensures EntryBehind(Lookup(g, k), Lookup(p, k), f, now)
  {
  }

  /** The one handler that does not ask whether its entry has expired. */
  predicate OutReset(pkt: Packet) {
    pkt.p.Tcp? && pkt.pol.Some? && !FlagsRefused(pkt) && pkt.trusted && !LoneSyn(pkt.p.h.flags) && Rst(pkt.p.h.flags)
  }

  lemma OutExpiredLooksAbsent(g: Features, v: FlowVal, seg: Segment, now: nat)
    requires Expired(g, v, now)
    ensures var a, b := OutTcp(g, None, seg, now, true), OutTcp(g, Some(v), seg, now, true);
            && a.(entry := None) == b.(entry := None)
            && (EntryBehind(a.entry, b.entry, g, now) <==> LoneSyn(seg.flags) || !Types.Rst(seg.flags))
  {
  }

  lemma InExpiredLooksAbsent(g: Features, v: FlowVal, seg: Segment, now: nat, admitted: bool)
    requires Expired(g, v, now)
    ensures var a, b := InTcp(g, None, seg, now, admitted, true), InTcp(g, Some(v), seg, now, admitted, true);
            a.(entry := None) == b.(entry := None) && EntryBehind(a.entry, b.entry, g, now)
  {
  }

  /** A TCP packet that meets an expired entry in one run and none in the other gets
      the same verdict, and the runs stay in step exactly when it is not an
      outbound reset. */
  lemma ExpiredLooksAbsent(v: FlowVal, bkt: SynLimit.Buckets, pkt: Packet, k: FlowKey, use: bool, f: Features)
    requires pkt.p.Tcp? && pkt.ok.flow && (pkt.pol.Some? ==> SameTtls(pkt.pol.value.f, f))
    requires Expired(f, v, Tick(pkt.ns))
    ensures var a, b := TcpLocal(None, bkt, pkt, k, use), TcpLocal(Some(v), bkt, pkt, k, use);
            && a.(entry := None) == b.(entry := None)
            && (EntryBehind(a.entry, b.entry, f, Tick(pkt.ns)) <==> !OutReset(pkt))
  {
    if pkt.pol.Some? {
      var g, seg, now := pkt.pol.value.f, SegmentOf(pkt.trusted, pkt.p.h), Tick(pkt.ns);
      assert seg.flags == pkt.p.h.flags;
      if pkt.trusted {
        OutExpiredLooksAbsent(g, v, seg, now);
      } else {
        InExpiredLooksAbsent(g, v, seg, now, AdmitSyn(bkt, pkt.pol.value, k, seg.flags, pkt.ns, pkt.ok).1);
      }
    }
  }

  /** Why the exception is real: for every expired entry, an outbound reset followed
      by an inbound ACK in the same tick passes if the entry had not been swept
      and is dropped if it had. */
  lemma ResetRevivesExpired(f: Features, v: FlowVal, seg: Segment, ack: Segment, now: nat, ok: bool)
    requires Expired(f, v, now)
    requires !LoneSyn(seg.flags) && Rst(seg.flags)
    requires Ack(ack.flags) && !Syn(ack.flags) && !Rst(ack.flags)
    ensures InTcp(f, OutTcp(f, Some(v), seg, now, ok).entry, ack, now, false, ok).verdict == Forward
    ensures InTcp(f, OutTcp(f, None, seg, now, ok).entry, ack, now, false, ok).verdict == Refuse(RSN_OOS_IN)
  {
  }

  // ---- whole runs ----

  ghost predicate Coupled(g: Core, p: Core, f: Features, now: nat) {
    && Behind(g.flows, p.flows, f, now) && Behind(g.udp, p.udp, f, now)
    && g.l1 == p.l1 && g.bkt == p.bkt
  }

  /** Nothing the data plane reads tells `g` from `p`: live entries, cache, buckets. */
  ghost predicate LookAlike(g: Core, p: Core, f: Features, now: nat) {
    && (forall k :: LiveView(g.flows, k, f, now) == LiveView(p.flows, k, f, now))
    && (forall k :: LiveView(g.udp, k, f, now) == LiveView(p.udp, k, f, now))
    && g.l1 == p.l1 && g.bkt == p.bkt
  }

  lemma CoupledLookAlike(g: Core, p: Core, f: Features, now: nat)
    requires Coupled(g, p, f, now)
    ensures LookAlike(g, p, f, now)
  {
    forall k {
      BehindLooksTheSame(g.flows, p.flows, f, now, k);
    }
    forall k {
      BehindLooksTheSame(g.udp, p.udp, f, now, k);
    }
  }

  /** An outbound reset finds the entry in `p` that a sweep has removed from `g`. */
  predicate Diverges(g: Core, p: Core, e: Event)
    requires Valid(e)
  {
    && e.Rx? && OutReset(e.pkt)
    && var k := KeyOf(e.pkt.trusted, e.pkt.p);
       k in p.flows && k !in g.flows
  }

  /** Fixed TTLs, successful flow inserts. */
  predicate Steady(e: Event, f: Features) {
    && (e.Rx? ==> e.pkt.ok.flow && (e.pkt.pol.Some? ==> SameTtls(e.pkt.pol.value.f, f)))
    && (e.Sweep? ==> SameTtls(f, FeaturesFrom(e.cfg)))
  }

  lemma TcpLocalsCoupled(a: Option<FlowVal>, b: Option<FlowVal>, bkt: SynLimit.Buckets, pkt: Packet, k: FlowKey,
                         use: bool, f: Features)
    requires pkt.p.Tcp? && Steady(Rx(pkt), f) && EntryBehind(a, b, f, Tick(pkt.ns))
    ensures var x, y := TcpLocal(a, bkt, pkt, k, use), TcpLocal(b, bkt, pkt, k, use);
            && x == y.(entry := x.entry)
            && (EntryBehind(x.entry, y.entry, f, Tick(pkt.ns)) <==> !(OutReset(pkt) && a.None? && b.Some?))
  {
    if a != b {
      ExpiredLooksAbsent(b.value, bkt, pkt, k, use, f);
    }
  }

  predicate UdpInsert(pkt: Packet, f: Features) {
    pkt.ok.flow && (pkt.pol.Some? ==> pkt.pol.value.f.ttlUdp == f.ttlUdp)
  }

  lemma UdpLocalsCoupled(a: Option<FlowVal>, b: Option<FlowVal>, s: SynLimit.Buckets, t: SynLimit.Buckets, pkt: Packet,
                         k: FlowKey, use: bool, f: Features)
    requires UdpInsert(pkt, f) && EntryBehind(a, b, f, Tick(pkt.ns)) && (b.Some? ==> UdpShape(b.value))
    ensures var x, y := UdpLocal(a, s, pkt, k, use), UdpLocal(b, t, pkt, k, use);
            x == y.(entry := x.entry, bkt := s) && EntryBehind(x.entry, y.entry, f, Tick(pkt.ns))
  {
  }

  /** A TCP packet gets the same decision in coupled states, and the states stay
      coupled, unless it diverges. */
  lemma TcpStaysCoupled(cfg: L1Config, g: Core, p: Core, pkt: Packet, f: Features)
    requires pkt.p.Tcp? && WellFormed(pkt.p) && Steady(Rx(pkt), f)
    requires Coupled(g, p, f, Tick(pkt.ns))
    ensures !Diverges(g, p, Rx(pkt)) ==> Coupled(TcpStep(cfg, g, pkt).core, TcpStep(cfg, p, pkt).core, f, Tick(pkt.ns))
    ensures TcpStep(cfg, g, pkt).decision == TcpStep(cfg, p, pkt).decision
  {
    var k := KeyOf(pkt.trusted, pkt.p);
    assert TcpHit(cfg, g, pkt, k) == TcpHit(cfg, p, pkt, k);
    if !TcpHit(cfg, p, pkt, k) {
      TcpMissStaysBehind(cfg, g, p, pkt, k, f);
    }
  }

  lemma TcpMissStaysBehind(cfg: L1Config, g: Core, p: Core, pkt: Packet, k: FlowKey, f: Features)
    requires pkt.p.Tcp? && WellFormed(pkt.p) && Steady(Rx(pkt), f) && k == KeyOf(pkt.trusted, pkt.p)
    requires Behind(g.flows, p.flows, f, Tick(pkt.ns)) && g.l1 == p.l1 && g.bkt == p.bkt
    requires !TcpHit(cfg, g, pkt, k) && !TcpHit(cfg, p, pkt, k)
    ensures var x, y := TcpStep(cfg, g, pkt), TcpStep(cfg, p, pkt);
            && (!Diverges(g, p, Rx(pkt)) ==> Behind(x.core.flows, y.core.flows, f, Tick(pkt.ns)))
            && x.core.l1 == y.core.l1 && x.core.bkt == y.core.bkt
            && x.core.udp == g.udp && y.core.udp == p.udp && x.decision == y.decision
  {
    var a, b := Lookup(g.flows, k), Lookup(p.flows, k);
    LookupBehind(g.flows, p.flows, k, f, Tick(pkt.ns));
    TcpLocalsCoupled(a, b, p.bkt, pkt, k, UsesL1(cfg, pkt), f);
    var x, y := TcpLocal(a, g.bkt, pkt, k, UsesL1(cfg, pkt)), TcpLocal(b, p.bkt, pkt, k, UsesL1(cfg, pkt));
    if !Diverges(g, p, Rx(pkt)) {
      StoreStaysBehind(g.flows, p.flows, k, x.entry, y.entry, f, Tick(pkt.ns));
    }
  }

  /** A divergence shows at once: the entry is live in one table and absent in the other. */
  lemma DivergenceShows(cfg: L1Config, g: Core, p: Core, e: Event, f: Features)
    requires Valid(e) && Diverges(g, p, e)
    ensures !LookAlike(Step(cfg, g, e), Step(cfg, p, e), f, Tick(Time(e)))
  {
    var k := KeyOf(e.pkt.trusted, e.pkt.p);
    FlowStep(cfg, g, e, k);
    FlowStep(cfg, p, e, k);
    assert SegmentOf(true, e.pkt.p.h).flags == e.pkt.p.h.flags;
    var now := Tick(Time(e));
    assert LiveView(Step(cfg, g, e).flows, k, f, now) != LiveView(Step(cfg, p, e).flows, k, f, now);
  }

  lemma UdpStaysBehind(cfg: L1Config, g: Core, p: Core, pkt: Packet, f: Features)
    requires pkt.p.Udp? && WellFormed(pkt.p) && UdpInsert(pkt, f)
    requires Behind(g.udp, p.udp, f, Tick(pkt.ns)) && forall k :: k in p.udp ==> UdpShape(p.udp[k])
    requires var k := KeyOf(pkt.trusted, pkt.p); UdpHit(cfg, g, pkt, k) <==> UdpHit(cfg, p, pkt, k)
    ensures Behind(UdpStep(cfg, g, pkt).core.udp, UdpStep(cfg, p, pkt).core.udp, f, Tick(pkt.ns))
    ensures g.l1 == p.l1 ==> UdpStep(cfg, g, pkt).core.l1 == UdpStep(cfg, p, pkt).core.l1
    ensures UdpStep(cfg, g, pkt).decision == UdpStep(cfg, p, pkt).decision
  {
    var k := KeyOf(pkt.trusted, pkt.p);
    if !UdpHit(cfg, p, pkt, k) {
      var a, b := Lookup(g.udp, k), Lookup(p.udp, k);
      LookupBehind(g.udp, p.udp, k, f, Tick(pkt.ns));
      UdpLocalsCoupled(a, b, g.bkt, p.bkt, pkt, k, cfg.on, f);
      var x, y := UdpLocal(a, g.bkt, pkt, k, cfg.on), UdpLocal(b, p.bkt, pkt, k, cfg.on);
      StoreStaysBehind(g.udp, p.udp, k, x.entry, y.entry, f, Tick(pkt.ns));
    }
  }

  lemma CoupledLater(g: Core, p: Core, f: Features, before: nat, now: nat)
    requires Coupled(g, p, f, before) && before <= now
    ensures Coupled(g, p, f, now)
  {
  }

  /** Both runs take the same event, other than a sweep. */
  lemma StepStaysCoupled(cfg: L1Config, g: Core, p: Core, e: Event, f: Features)
    requires Valid(e) && !e.Sweep? && Steady(e, f)
    requires Coupled(g, p, f, Tick(Time(e))) && forall k :: k in p.udp ==> UdpShape(p.udp[k])
    ensures !Diverges(g, p, e) ==> Coupled(Step(cfg, g, e), Step(cfg, p, e), f, Tick(Time(e)))
    ensures e.Rx? ==> Receive(cfg, g, e.pkt).decision == Receive(cfg, p, e.pkt).decision
  {
    match e
    case Rx(pkt) =>
      if pkt.p.Tcp? {
        TcpStaysCoupled(cfg, g, p, pkt, f);
      } else if pkt.p.Udp? {
        UdpStaysBehind(cfg, g, p, pkt, f);
      }
    case EvictTcp(_, k) => StoreStaysBehind(g.flows, p.flows, k, None, None, f, Tick(Time(e)));
    case EvictUdp(_, k) => StoreStaysBehind(g.udp, p.udp, k, None, None, f, Tick(Time(e)));
    case EvictBucket(_, _) =>
  }

  /** Only one run sweeps. */
  lemma SweepStaysCoupled(cfg: L1Config, g: Core, p: Core, e: Event, f: Features)
    requires e.Sweep? && Steady(e, f) && Coupled(g, p, f, Tick(Time(e)))
    ensures Coupled(Step(cfg, g, e), p, f, Tick(Time(e)))
  {
    SweepStaysBehind(g.flows, p.flows, f, e.cfg, Tick(e.at));
    SweepStaysBehind(g.udp, p.udp, f, e.cfg, Tick(e.at));
  }

  /** The same trace without its sweeps. */
  function Strip(es: Trace): Trace {
    if es == [] then [] else if Last(es).Sweep? then Strip(Front(es)) else Strip(Front(es)) + [Last(es)]
  }

  lemma {:induction false} StripProper(es: Trace)
    requires Proper(es)
    ensures Proper(Strip(es)) && Now(Strip(es)) <= Now(es)
  {
    if es != [] {
      StripProper(Front(es));
      if !Last(es).Sweep? {
        ProperSnoc(Strip(Front(es)), Last(es));
      }
    }
  }

  /** The verdicts on the packets of a trace, in order. */
  ghost function Verdicts(cfg: L1Config, es: Trace, udpOnly: bool): seq<Decision>
    requires Proper(es)
  {
    if es == [] then []
    else if Last(es).Rx? && (udpOnly ==> Last(es).pkt.p.Udp?) then
      Verdicts(cfg, Front(es), udpOnly) + [Visible(Decide(cfg, es))]
    else Verdicts(cfg, Front(es), udpOnly)
  }

  /** Which path passed a packet cannot be seen from outside. */
  function Visible(d: Decision): Decision { if d.Pass? then Pass(Inspected) else d }

  /** The state after the same trace without its sweeps. */
  ghost function Unswept(cfg: L1Config, es: Trace): Core
    requires Proper(es)
  {
    StripProper(es);
    Run(cfg, Strip(es))
  }

  lemma UnsweptStep(cfg: L1Config, es: Trace)
    requires Proper(es) && es != []
    ensures Proper(Strip(Front(es))) && Now(Strip(Front(es))) <= Now(Front(es))
    ensures Unswept(cfg, es) ==
            if Last(es).Sweep? then Unswept(cfg, Front(es)) else Step(cfg, Unswept(cfg, Front(es)), Last(es))
  {
    StripProper(Front(es));
    if !Last(es).Sweep? {
      RunSnoc(cfg, Strip(Front(es)), Last(es));
    }
  }

  ghost predicate CoupledAfter(cfg: L1Config, es: Trace, f: Features)
    requires Proper(es)
  { Coupled(Run(cfg, es), Unswept(cfg, es), f, Tick(Now(es))) }

  ghost predicate LookAlikeAfter(cfg: L1Config, es: Trace, f: Features)
    requires Proper(es)
  { LookAlike(Run(cfg, es), Unswept(cfg, es), f, Tick(Now(es))) }

  /** The last event of the trace makes the two runs diverge. */
  ghost predicate DivergesLast(cfg: L1Config, es: Trace)
    requires Proper(es) && es != []
  { Diverges(Run(cfg, Front(es)), Unswept(cfg, Front(es)), Last(es)) }

  /** One more event of a run that is coupled so far. */
  lemma CoupledNext(cfg: L1Config, es: Trace, f: Features)
    requires Proper(es) && es != [] && Steady(Last(es), f) && CoupledAfter(cfg, Front(es), f)
    ensures !DivergesLast(cfg, es) ==> CoupledAfter(cfg, es, f)
    ensures DivergesLast(cfg, es) ==> !LookAlikeAfter(cfg, es, f)
    ensures Last(es).Rx? ==> Receive(cfg, Run(cfg, Front(es)), Last(es).pkt).decision ==
                             Receive(cfg, Unswept(cfg, Front(es)), Last(es).pkt).decision
  {
    var g, p, e := Run(cfg, Front(es)), Unswept(cfg, Front(es)), Last(es);
    UnsweptStep(cfg, es);
    RunInv(cfg, Strip(Front(es)));
    CoupledLater(g, p, f, Tick(Now(Front(es))), Tick(Now(es)));
    if e.Sweep? {
      SweepStaysCoupled(cfg, g, p, e, f);
    } else {
      StepStaysCoupled(cfg, g, p, e, f);
      if Diverges(g, p, e) {
        DivergenceShows(cfg, g, p, e, f);
      }
    }
  }

  /** The run and its unswept twin cannot be told apart after any event. */
  ghost predicate NeverTold(cfg: L1Config, es: Trace, f: Features)
    requires Proper(es)
  { (es != [] ==> NeverTold(cfg, Front(es), f)) && LookAlikeAfter(cfg, es, f) }

  /** No event of the run makes the two diverge. */
  ghost predicate NeverDiverges(cfg: L1Config, es: Trace)
    requires Proper(es)
  { es != [] ==> NeverDiverges(cfg, Front(es)) && !DivergesLast(cfg, es) }

  /** TCP and UDP: a run with sweeps at arbitrary points and the run without them
      look alike after every event if and only if no outbound reset ever finds an
      entry that a sweep has removed; and then every packet gets the same verdict. */
  lemma {:induction false} SweepsAreInvisible(cfg: L1Config, es: Trace, f: Features)
    requires Proper(es) && forall i :: 0 <= i < |es| ==> Steady(es[i], f)
    ensures Proper(Strip(es))
    ensures NeverTold(cfg, es, f) <==> NeverDiverges(cfg, es)
    ensures NeverDiverges(cfg, es) ==>
              CoupledAfter(cfg, es, f) && Verdicts(cfg, es, false) == Verdicts(cfg, Strip(es), false)
  {
    StripProper(es);
    if es == [] {
      CoupledLookAlike(EMPTY, EMPTY, f, 0);
    } else {
      SweepsAreInvisible(cfg, Front(es), f);
      if NeverDiverges(cfg, Front(es)) {
        CoupledNext(cfg, es, f);
        if !DivergesLast(cfg, es) {
          CoupledLookAlike(Run(cfg, es), Unswept(cfg, es), f, Tick(Now(es)));
          VerdictsNext(cfg, es, false);
        }
      }
    }
  }

  lemma VerdictsNext(cfg: L1Config, es: Trace, udpOnly: bool)
    requires Proper(es) && es != [] && Proper(Strip(es)) && Proper(Strip(Front(es)))
    requires Verdicts(cfg, Front(es), udpOnly) == Verdicts(cfg, Strip(Front(es)), udpOnly)
    requires Last(es).Rx? && (udpOnly ==> Last(es).pkt.p.Udp?) ==>
               Receive(cfg, Run(cfg, Front(es)), Last(es).pkt).decision ==
               Receive(cfg, Unswept(cfg, Front(es)), Last(es).pkt).decision
    ensures Verdicts(cfg, es, udpOnly) == Verdicts(cfg, Strip(es), udpOnly)
  {
    hide Step, Receive;
    if !Last(es).Sweep? {
      UnsweptStep(cfg, es);
      RunSnoc(cfg, Strip(Front(es)), Last(es));
    }
  }

  // ---- UDP, without any condition on resets ----

  lemma {:induction false} UdpVerdictsIgnoreCache(cfg: L1Config, es: Trace)
    requires Proper(es) && NoUdpEviction(es)
    ensures Verdicts(cfg, es, true) == Verdicts(Off(cfg), es, true)
  {
    if es != [] {
      UdpVerdictsIgnoreCache(cfg, Front(es));
      if Last(es).Rx? && Last(es).pkt.p.Udp? {
        UdpVerdictsAgree(cfg, es);
      }
    }
  }

  lemma UdpSweepStaysBehind(cfg: L1Config, g: Core, p: Core, e: Event, f: Features)
    requires e.Sweep? && UdpTimeout(e, f.ttlUdp) && Behind(g.udp, p.udp, f, Tick(Time(e)))
    requires forall k :: k in g.udp ==> UdpShape(g.udp[k])
    ensures Behind(Step(cfg, g, e).udp, p.udp, f, Tick(Time(e)))
  {
  }

  lemma {:induction false} UncachedUdpSweeps(cfg: L1Config, es: Trace, f: Features)
    requires Proper(es) && Proper(Strip(es)) && !cfg.on && forall i :: 0 <= i < |es| ==> UdpTimeout(es[i], f.ttlUdp)
    ensures Verdicts(cfg, es, true) == Verdicts(cfg, Strip(es), true)
    ensures Behind(Run(cfg, es).udp, Run(cfg, Strip(es)).udp, f, Tick(Now(es)))
  {
    if es != [] {
      StripProper(Front(es));
      UncachedUdpSweeps(cfg, Front(es), f);
      var g, p := Run(cfg, Front(es)), Run(cfg, Strip(Front(es)));
      BehindLater(g.udp, p.udp, f, Tick(Now(Front(es))), Tick(Now(es)));
      if Last(es).Sweep? {
        RunInv(cfg, Front(es));
        UdpSweepStaysBehind(cfg, g, p, Last(es), f);
      } else {
        UncachedUdpStep(cfg, es, f);
      }
    }
  }

  lemma UncachedUdpStep(cfg: L1Config, es: Trace, f: Features)
    requires Proper(es) && es != [] && !Last(es).Sweep? && Proper(Strip(Front(es))) && Proper(Strip(es)) && !cfg.on
    requires UdpTimeout(Last(es), f.ttlUdp)
    requires Verdicts(cfg, Front(es), true) == Verdicts(cfg, Strip(Front(es)), true)
    requires Behind(Run(cfg, Front(es)).udp, Run(cfg, Strip(Front(es))).udp, f, Tick(Now(es)))
    ensures Verdicts(cfg, es, true) == Verdicts(cfg, Strip(es), true)
    ensures Behind(Run(cfg, es).udp, Run(cfg, Strip(es)).udp, f, Tick(Now(es)))
  {
    RunInv(cfg, Strip(Front(es)));
    hide Step, Receive, Behind, Run, Verdicts;
    RunLast(cfg, es);
    UnsweptStep(cfg, es);
    UncachedStepStaysBehind(cfg, Run(cfg, Front(es)), Unswept(cfg, Front(es)), Last(es), f);
    VerdictsNext(cfg, es, true);
  }

  lemma UncachedStepStaysBehind(cfg: L1Config, g: Core, p: Core, e: Event, f: Features)
    requires Valid(e) && !e.Sweep? && !cfg.on && UdpTimeout(e, f.ttlUdp)
    requires Behind(g.udp, p.udp, f, Tick(Time(e))) && forall k :: k in p.udp ==> UdpShape(p.udp[k])
    ensures Behind(Step(cfg, g, e).udp, Step(cfg, p, e).udp, f, Tick(Time(e)))
    ensures e.Rx? && e.pkt.p.Udp? ==> Receive(cfg, g, e.pkt).decision == Receive(cfg, p, e.pkt).decision
  {
    if e.Rx? && e.pkt.p.Udp? {
      UdpStaysBehind(cfg, g, p, e.pkt, f);
    } else if e.EvictUdp? {
      StoreStaysBehind(g.udp, p.udp, e.victim, None, None, f, Tick(Time(e)));
    }
  }

  /** UDP, with the cache on: sweeps at arbitrary points change no verdict on any
      datagram and no live entry, whatever TCP does. */
  lemma UdpSweepsAreInvisible(cfg: L1Config, es: Trace, f: Features)
    requires Proper(es) && NoUdpEviction(es) && forall i :: 0 <= i < |es| ==> UdpTimeout(es[i], f.ttlUdp)
    ensures Proper(Strip(es)) && Verdicts(cfg, es, true) == Verdicts(cfg, Strip(es), true)
    ensures forall k :: LiveView(Run(cfg, es).udp, k, f, Tick(Now(es))) ==
                        LiveView(Run(cfg, Strip(es)).udp, k, f, Tick(Now(es)))
  {
    StripProper(es);
    StripKeeps(es);
    UdpVerdictsIgnoreCache(cfg, es);
    UdpVerdictsIgnoreCache(cfg, Strip(es));
    UncachedUdpSweeps(Off(cfg), es, f);
    UdpTablesAgree(cfg, es);
    UdpTablesAgree(cfg, Strip(es));
    forall k {
      BehindLooksTheSame(Run(cfg, es).udp, Run(cfg, Strip(es)).udp, f, Tick(Now(es)), k);
    }
  }

  lemma {:induction false} StripKeeps(es: Trace)
    requires NoUdpEviction(es)
    ensures NoUdpEviction(Strip(es))
  {
    if es != [] {
      StripKeeps(Front(es));
    }
  }
}
