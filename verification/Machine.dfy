/** The data plane as a state machine: one atomic step per packet, with garbage
    collection and LRU eviction as steps of the environment. Policy, inserts, the
    CPU and the clock are arbitrary per packet. */
module Machine {
  import opened Types
  import opened Clock
  import opened Flows
  import opened Frame
  import opened SynLimit

  /** L1_MASK != 0 and the index function; any function of the key is allowed. */
  datatype L1Config = L1Config(on: bool, index: FlowKey -> nat)

  type FlowTable = map<FlowKey, FlowVal>

  /** A slot of the per-CPU cache is named by its CPU and index; an absent slot
      is one still zeroed, which matches nothing. */
  type L1Cache = map<(nat, nat), L1Entry>

  /** The maps both program instances share. */
  datatype Core = Core(flows: FlowTable, udp: FlowTable, l1: L1Cache, bkt: Buckets)

  const EMPTY := Core(map[], map[], map[], map[])

  /** Which map inserts succeed while one packet is processed. */
  datatype Inserts = Inserts(flow: bool, srcBucket: bool, globalBucket: bool)

  datatype Packet = Packet(
    cpu: nat, trusted: bool, p: Parsed, len: nat, ns: u64, pol: Option<Policy>, ok: Inserts)

  datatype Event =
    | Rx(pkt: Packet)
    | Sweep(at: u64, cfg: Config, tcp: bool)   // GCOnce over one of the two flow tables
    | EvictTcp(at: u64, victim: FlowKey)
    | EvictUdp(at: u64, victim: FlowKey)
    | EvictBucket(at: u64, ip: u32)

  function Time(e: Event): u64 { if e.Rx? then e.pkt.ns else e.at }

  /** Why a packet passes; the stats distinguish the kinds. */
  datatype Kind = Inspected | CacheHit | PassNonIp | PassNonTcp

  /** `Bypass` is the fail-open redirect taken when the policy map is empty.
      `tcp` marks the refusals that go through do_drop_tcp. */
  datatype Decision = Pass(kind: Kind) | Reject(reason: Reason, tcp: bool) | Bypass

  datatype Result = Result(core: Core, decision: Decision, mapFail: bool)

  // ---- L1 cache ----

  predicate Hit(l1: L1Cache, slot: (nat, nat), k: FlowKey, want: FlowState, now: nat) {
    slot in l1 && l1[slot] == L1Entry(k, now, want)
  }

  /** Packets that may use the cache: ACK set, SYN, FIN and RST clear. */
  predicate L1Eligible(flags: u8) { !Syn(flags) && !Fin(flags) && !Rst(flags) && Ack(flags) }

  // ---- TCP ----

  predicate SynPolicy(pol: Policy, k: FlowKey) {
    pol.f.allowInboundSyn || (pol.f.allowInboundServers && Server(k.hostIp, k.hostPort) in pol.servers)
  }

  /** The admission test of an inbound lone SYN: policy first, then the buckets. */
  function AdmitSyn(bkt: Buckets, pol: Policy, k: FlowKey, flags: u8, ns: u64, ok: Inserts): (Buckets, bool) {
    if LoneSyn(flags) && SynPolicy(pol, k) then
      ChargeSyn(bkt, k.inetIp, ns, ok.srcBucket, ok.globalBucket)
    else (bkt, false)
  }

  function SegmentOf(trusted: bool, h: TcpHdr): Segment {
    Segment(h.flags, if trusted then h.seqNo else h.ackNo)
  }

  /** The effect of one packet on the single flow entry and the single cache slot
      it names. `fill` says the slot is written through. */
  datatype Local = Local(entry: Option<FlowVal>, bkt: Buckets, fill: bool, decision: Decision, mapFail: bool)

  function DecisionOf(v: Verdict, tcp: bool): Decision {
    match v
    case Forward => Pass(Inspected)
    case Refuse(r) => Reject(r, tcp)
  }

  function Handled(o: Outcome, bkt: Buckets, use: bool, tcp: bool): Local {
    Local(o.entry, bkt, use && o.cache, DecisionOf(o.verdict, tcp), o.mapFail)
  }

  function Untouched(e: Option<FlowVal>, bkt: Buckets, d: Decision): Local { Local(e, bkt, false, d, false) }

  /** The handlers behind the cache: handle_outbound and handle_inbound. */
  function SlowTcp(e: Option<FlowVal>, bkt: Buckets, pkt: Packet, k: FlowKey, pol: Policy): (Outcome, Buckets)
    requires pkt.p.Tcp?
  {
    var seg := SegmentOf(pkt.trusted, pkt.p.h);
    if pkt.trusted then (OutTcp(pol.f, e, seg, Tick(pkt.ns), pkt.ok.flow), bkt)
    else
      var (bkt', admitted) := AdmitSyn(bkt, pol, k, seg.flags, pkt.ns, pkt.ok);
      (InTcp(pol.f, e, seg, Tick(pkt.ns), admitted, pkt.ok.flow), bkt')
  }

  predicate FlagsRefused(pkt: Packet)
    requires pkt.p.Tcp?
  {
    pkt.pol.Some? && pkt.pol.value.f.dropBadFlags && BadFlags(pkt.p.h.flags)
  }

  /** A TCP packet that misses the cache; `use` says it may fill a slot. */
  function TcpLocal(e: Option<FlowVal>, bkt: Buckets, pkt: Packet, k: FlowKey, use: bool): Local
    requires pkt.p.Tcp?
  {
    if pkt.pol.None? then Untouched(e, bkt, Bypass)
    else if FlagsRefused(pkt) then Untouched(e, bkt, Reject(RSN_BAD_FLAGS, true))
    else
      var (o, bkt') := SlowTcp(e, bkt, pkt, k, pkt.pol.value);
      Handled(o, bkt', use, true)
  }

  predicate UsesL1(cfg: L1Config, pkt: Packet)
    requires pkt.p.Tcp?
  {
    cfg.on && L1Eligible(pkt.p.h.flags)
  }

  function Slot(cfg: L1Config, pkt: Packet, k: FlowKey): (nat, nat) { (pkt.cpu, cfg.index(k)) }

  predicate TcpHit(cfg: L1Config, c: Core, pkt: Packet, k: FlowKey)
    requires pkt.p.Tcp?
  {
    UsesL1(cfg, pkt) && Hit(c.l1, Slot(cfg, pkt, k), k, Est, Tick(pkt.ns))
  }

  function Fill(l1: L1Cache, fill: bool, slot: (nat, nat), s: L1Entry): L1Cache {
    if fill then l1[slot := s] else l1
  }

  function TcpStep(cfg: L1Config, c: Core, pkt: Packet): Result
    requires pkt.p.Tcp? && WellFormed(pkt.p)
  {
    var k := KeyOf(pkt.trusted, pkt.p);
    if TcpHit(cfg, c, pkt, k) then Result(c, Pass(CacheHit), false)
    else
      var l := TcpLocal(Lookup(c.flows, k), c.bkt, pkt, k, UsesL1(cfg, pkt));
      var l1 := Fill(c.l1, l.fill, Slot(cfg, pkt, k), L1Entry(k, Tick(pkt.ns), Est));
      Result(Core(Store(c.flows, k, l.entry), c.udp, l1, l.bkt), l.decision, l.mapFail)
  }

  // ---- UDP ----

  predicate UdpTracked(pkt: Packet) { pkt.pol.Some? && pkt.pol.value.f.filterUdp }

  function SlowUdp(e: Option<FlowVal>, pkt: Packet, k: FlowKey, pol: Policy): Outcome {
    if pkt.trusted then OutUdp(e, Tick(pkt.ns), pkt.ok.flow)
    else InUdp(pol.f, e, Tick(pkt.ns), Server(k.hostIp, k.hostPort) in pol.servers)
  }

  function UdpLocal(e: Option<FlowVal>, bkt: Buckets, pkt: Packet, k: FlowKey, use: bool): Local {
    if pkt.pol.None? then Untouched(e, bkt, Bypass)
    else if !pkt.pol.value.f.filterUdp then Untouched(e, bkt, Pass(PassNonTcp))
    else Handled(SlowUdp(e, pkt, k, pkt.pol.value), bkt, use, false)
  }

  predicate UdpHit(cfg: L1Config, c: Core, pkt: Packet, k: FlowKey) {
    UdpTracked(pkt) && cfg.on && Hit(c.l1, Slot(cfg, pkt, k), k, StUdp, Tick(pkt.ns))
  }

  function UdpStep(cfg: L1Config, c: Core, pkt: Packet): Result
    requires pkt.p.Udp? && WellFormed(pkt.p)
  {
    var k := KeyOf(pkt.trusted, pkt.p);
    if UdpHit(cfg, c, pkt, k) then Result(c, Pass(CacheHit), false)
    else
      var l := UdpLocal(Lookup(c.udp, k), c.bkt, pkt, k, cfg.on);
      var l1 := Fill(c.l1, l.fill, Slot(cfg, pkt, k), L1Entry(k, Tick(pkt.ns), StUdp));
      Result(Core(c.flows, Store(c.udp, k, l.entry), l1, c.bkt), l.decision, l.mapFail)
  }

  // ---- everything else ----

  function RejectOrBypass(pol: Option<Policy>, reason: Reason): Decision {
    if pol.None? then Bypass else Reject(reason, false)
  }

  function PolicyDrop(pol: Option<Policy>, drop: bool, reason: Reason, otherwise: Kind): Decision {
    if pol.None? then Bypass else if drop then Reject(reason, false) else Pass(otherwise)
  }

  /** Packets that touch no flow state. */
  function Stateless(p: Parsed, pol: Option<Policy>): Decision
    requires !p.Tcp? && !p.Udp?
  {
    match p
    case Runt | TagCut(_) | BadIp(_) | BadTcp(_) => RejectOrBypass(pol, RSN_MALFORMED)
    case TooDeep(_) => PolicyDrop(pol, pol.Some? && pol.value.f.dropVlanDeep, RSN_VLAN_DEPTH, PassNonIp)
    case NonIp(_) => Pass(PassNonIp)
    case OtherIp(_) => Pass(PassNonTcp)
    case TcpFragment(_) => PolicyDrop(pol, pol.Some? && pol.value.f.dropFrags, RSN_TCP_FRAG, Inspected)
    case UdpFragment(_) =>
      if pol.Some? && !pol.value.f.filterUdp then Pass(PassNonTcp)
      else PolicyDrop(pol, pol.Some? && pol.value.f.dropUdpFrags, RSN_UDP_FRAG, Inspected)
    case BadUdp(_) =>
      if pol.Some? && !pol.value.f.filterUdp then Pass(PassNonTcp)
      else RejectOrBypass(pol, RSN_MALFORMED)
  }

  predicate WellFormed(p: Parsed) {
    Vid(p) < 0x1000 && (p.Tcp? || p.Udp? ==> p.inner < 0x1000)
  }

  function Receive(cfg: L1Config, c: Core, pkt: Packet): Result
    requires WellFormed(pkt.p)
  {
    if pkt.p.Tcp? then TcpStep(cfg, c, pkt)
    else if pkt.p.Udp? then UdpStep(cfg, c, pkt)
    else Result(c, Stateless(pkt.p, pkt.pol), false)
  }

  // ---- environment ----

  /** What is left of a table after a sweep. GCOnce does nothing at tick 0. */
  function Swept(m: FlowTable, cfg: Config, now: nat): FlowTable {
    if now == 0 then m else map k | k in m && !GcStale(cfg, m[k], now) :: m[k]
  }

  predicate Valid(e: Event) { e.Rx? ==> WellFormed(e.pkt.p) }

  function Step(cfg: L1Config, c: Core, e: Event): Core
    requires Valid(e)
  {
    match e
    case Rx(pkt) => Receive(cfg, c, pkt).core
    case Sweep(ns, g, tcp) =>
      if tcp then c.(flows := Swept(c.flows, g, Tick(ns))) else c.(udp := Swept(c.udp, g, Tick(ns)))
    case EvictTcp(_, k) => c.(flows := c.flows - {k})
    case EvictUdp(_, k) => c.(udp := c.udp - {k})
    case EvictBucket(_, ip) => c.(bkt := c.bkt - {ip})
  }

  // ---- runs ----

  type Trace = seq<Event>

  function Last(es: Trace): Event
    requires es != []
  { es[|es| - 1] }

  function Front(es: Trace): Trace
    requires es != []
  { es[..|es| - 1] }

  /** The clock at the end of a trace. */
  function Now(es: Trace): u64 { if es == [] then 0 else Time(Last(es)) }

  /** Well-formed packets and a clock that never runs backwards. */
  ghost predicate Proper(es: Trace) {
    && (forall i :: 0 <= i < |es| ==> Valid(es[i]))
    && (forall i, j :: 0 <= i < j < |es| ==> Time(es[i]) <= Time(es[j]))
  }

  /** The state after a trace, from empty maps. Every reachable state is one. */
  ghost function Run(cfg: L1Config, es: Trace): Core
    requires Proper(es)
  {
    if es == [] then EMPTY else Step(cfg, Run(cfg, Front(es)), Last(es))
  }

  /** What happens to the last packet of a trace. */
  ghost function Decide(cfg: L1Config, es: Trace): Decision
    requires Proper(es) && es != [] && Last(es).Rx?
  {
    Receive(cfg, Run(cfg, Front(es)), Last(es).pkt).decision
  }

  lemma RunLast(cfg: L1Config, es: Trace)
    requires Proper(es) && es != []
    ensures Run(cfg, es) == Step(cfg, Run(cfg, Front(es)), Last(es))
  {
    hide Step;
  }

  lemma ProperSnoc(es: Trace, e: Event)
    requires Proper(es) && Valid(e) && Now(es) <= Time(e)
    ensures Proper(es + [e])
  {
  }

  lemma RunSnoc(cfg: L1Config, es: Trace, e: Event)
    requires Proper(es) && Valid(e) && Now(es) <= Time(e)
    ensures Proper(es + [e]) && Run(cfg, es + [e]) == Step(cfg, Run(cfg, es), e)
    ensures Front(es + [e]) == es && Last(es + [e]) == e
  {
  }

  /** The state before event `i`, or the final state. */
  ghost function At(cfg: L1Config, es: Trace, i: nat): Core
    requires Proper(es) && i <= |es|
  {
    Run(cfg, es[..i])
  }

  lemma AtStep(cfg: L1Config, es: Trace, i: nat)
    requires Proper(es) && i < |es|
    ensures At(cfg, es, i + 1) == Step(cfg, At(cfg, es, i), es[i])
    ensures Now(es[..i]) <= Time(es[i]) == Now(es[..i + 1])
  {
    assert Front(es[..i + 1]) == es[..i];
  }

  lemma AtEnd(cfg: L1Config, es: Trace)
    requires Proper(es)
    ensures At(cfg, es, |es|) == Run(cfg, es)
    ensures es != [] ==> At(cfg, es, |es| - 1) == Run(cfg, Front(es))
  {
    assert es[..|es|] == es;
  }

  // ---- vocabulary for events ----

  predicate IsTcp(e: Event, k: FlowKey)
    requires Valid(e)
  { e.Rx? && e.pkt.p.Tcp? && KeyOf(e.pkt.trusted, e.pkt.p) == k }

  predicate IsUdp(e: Event, k: FlowKey)
    requires Valid(e)
  { e.Rx? && e.pkt.p.Udp? && KeyOf(e.pkt.trusted, e.pkt.p) == k }
}
