/** What every kind of TCP segment and UDP datagram does: when it passes, why it is
    refused, and what becomes of the flow entry, for every state of the tables. */
module Segments {
  import opened Types
  import opened Clock
  import opened Flows
  import opened Frame
  import opened SynLimit
  import opened Machine
  import opened Invariants
  import opened Handshake

  /** The entry of `k` before and after the packet, and the decision on it. */
  datatype Effect = Effect(v: Option<FlowVal>, v': Option<FlowVal>, d: Decision, mapFail: bool)

  function EffectOf(cfg: L1Config, c: Core, pkt: Packet, k: FlowKey): Effect
    requires WellFormed(pkt.p) && pkt.p.Tcp?
  {
    var r := Receive(cfg, c, pkt);
    Effect(Lookup(c.flows, k), Lookup(r.core.flows, k), r.decision, r.mapFail)
  }

  /** Refused for this reason, and nothing has changed. */
  predicate Refused(x: Effect, reason: Reason) { x.d == Reject(reason, true) && x.v' == x.v && !x.mapFail }

  /** Forwarded after inspection, with this entry afterwards. */
  predicate Left(x: Effect, v: FlowVal) { x.d == Pass(Inspected) && x.v' == Some(v) && !x.mapFail }

  /** Forwarded after an attempt to write `v`, which leaves the old entry if it fails. */
  predicate Wrote(x: Effect, v: FlowVal, ok: bool) {
    x.d == Pass(Inspected) && x.mapFail == !ok && x.v' == if ok then Some(v) else x.v
  }

  predicate LiveFor(pkt: Packet, v: Option<FlowVal>)
    requires pkt.pol.Some?
  { Live(pkt.pol.value.f, v, Tick(pkt.ns)) }

  predicate HandledFrom(trusted: bool, pkt: Packet, k: FlowKey) {
    WellFormed(pkt.p) && Handles(Rx(pkt), k) && pkt.trusted == trusted
  }

  /** In terms of the handlers, for a packet that misses the cache. */
  lemma EffectIsLocal(cfg: L1Config, c: Core, pkt: Packet, k: FlowKey)
    requires WellFormed(pkt.p) && Handles(Rx(pkt), k) && !TcpHit(cfg, c, pkt, k)
    ensures var x, (o, _) := EffectOf(cfg, c, pkt, k), SlowTcp(Lookup(c.flows, k), c.bkt, pkt, k, pkt.pol.value);
            x == Effect(Lookup(c.flows, k), o.entry, DecisionOf(o.verdict, true), o.mapFail)
    ensures SegmentOf(pkt.trusted, pkt.p.h).flags == pkt.p.h.flags
  {
    FlowStep(cfg, c, Rx(pkt), k);
  }

  // ---- the host's segments ----

  /** A SYN without ACK always passes and starts the flow anew with its own ISN; only a
      new entry can fail to be written. */
  lemma HostSyn(cfg: L1Config, c: Core, pkt: Packet, k: FlowKey)
    requires HandledFrom(true, pkt, k) && Syn(pkt.p.h.flags) && !Ack(pkt.p.h.flags)
    ensures var x := EffectOf(cfg, c, pkt, k);
            Wrote(x, FlowVal(pkt.p.h.seqNo, Tick(pkt.ns), SynSent, true, false), pkt.ok.flow || x.v.Some?)
  {
    EffectIsLocal(cfg, c, pkt, k);
  }

  /** A reset always passes and closes the flow locally, expired or not; without an
      entry it leaves none. */
  lemma HostReset(cfg: L1Config, c: Core, pkt: Packet, k: FlowKey)
    requires HandledFrom(true, pkt, k) && Types.Rst(pkt.p.h.flags) && !LoneSyn(pkt.p.h.flags)
    ensures var x := EffectOf(cfg, c, pkt, k);
            if x.v.Some? then Left(x, x.v.value.(state := Closing, closedOut := true, lastSeen := Tick(pkt.ns)))
            else x.d == Pass(Inspected) && x.v'.None? && !x.mapFail
  {
    EffectIsLocal(cfg, c, pkt, k);
  }

  /** Anything else on a live flow passes and refreshes it: a FIN closes it locally, a
      local close stays, a SYN-ACK leaves it half-open, the rest establishes it. */
  lemma HostOnLive(cfg: L1Config, c: Core, pkt: Packet, k: FlowKey)
    requires HandledFrom(true, pkt, k) && !LoneSyn(pkt.p.h.flags) && !Types.Rst(pkt.p.h.flags)
    requires LiveFor(pkt, Lookup(c.flows, k)) && !TcpHit(cfg, c, pkt, k)
    ensures var x := EffectOf(cfg, c, pkt, k);
            var v, flags := x.v.value.(lastSeen := Tick(pkt.ns)), pkt.p.h.flags;
            && (Fin(flags) ==> Left(x, v.(state := Closing, closedOut := true)))
            && (!Fin(flags) && v.state == Closing && v.closedOut ==> Left(x, v))
            && (!Fin(flags) && v.state == SynRcvd && Syn(flags) ==> Left(x, v))
            && (!Fin(flags) && !(v.state == Closing && v.closedOut) && !(v.state == SynRcvd && Syn(flags)) ==>
                  Left(x, v.(state := Est)))
  {
    EffectIsLocal(cfg, c, pkt, k);
  }

  /** Without a live flow it is refused in strict mode; otherwise it is adopted, a FIN
      as a local close, the rest as established, without an ISN. */
  lemma HostOnNone(cfg: L1Config, c: Core, pkt: Packet, k: FlowKey)
    requires HandledFrom(true, pkt, k) && !LoneSyn(pkt.p.h.flags) && !Types.Rst(pkt.p.h.flags)
    requires !LiveFor(pkt, Lookup(c.flows, k)) && !TcpHit(cfg, c, pkt, k)
    ensures var x, fin := EffectOf(cfg, c, pkt, k), Fin(pkt.p.h.flags);
            if pkt.pol.value.f.oosStrict then Refused(x, RSN_OOS_OUT)
            else Wrote(x, FlowVal(0, Tick(pkt.ns), if fin then Closing else Est, false, fin), pkt.ok.flow)
  {
    EffectIsLocal(cfg, c, pkt, k);
  }

  // ---- the internet side's segments ----

  /** A SYN-ACK passes iff the flow is live and, if it has an ISN or is SYN_SENT, it has
      one and is acknowledged exactly; it establishes a SYN_SENT flow and refreshes any. */
  lemma InetSynAck(cfg: L1Config, c: Core, pkt: Packet, k: FlowKey)
    requires HandledFrom(false, pkt, k) && Syn(pkt.p.h.flags) && Ack(pkt.p.h.flags)
    ensures var x := EffectOf(cfg, c, pkt, k);
            if !LiveFor(pkt, x.v) then Refused(x, RSN_UNSOL_SYNACK)
            else
              var v := x.v.value;
              if (v.isnValid || v.state == SynSent) && !(v.isnValid && pkt.p.h.ackNo == (v.clientIsn + 1) % 0x1_0000_0000)
              then Refused(x, RSN_BAD_ISN)
              else Left(x, v.(state := if v.state == SynSent then Est else v.state, lastSeen := Tick(pkt.ns)))
  {
    EffectIsLocal(cfg, c, pkt, k);
  }

  /** The policy lets a SYN to this server in. */
  predicate ServerOpen(pol: Policy, k: FlowKey) {
    pol.f.allowInboundSyn
    || (pol.f.allowInboundServers && exists s :: s in pol.servers && s.ip == k.hostIp && s.port == k.hostPort)
  }

  /** A SYN without ACK passes iff the policy is open for its destination and both
      buckets admit it; then it opens a half-open flow over none, an expired or a closing
      one, and leaves any other alone. The buckets are charged only if the policy is open. */
  lemma InetSyn(cfg: L1Config, c: Core, pkt: Packet, k: FlowKey)
    requires HandledFrom(false, pkt, k) && Syn(pkt.p.h.flags) && !Ack(pkt.p.h.flags)
    ensures var x := EffectOf(cfg, c, pkt, k);
            var (bkt, both) := ChargeSyn(c.bkt, k.inetIp, pkt.ns, pkt.ok.srcBucket, pkt.ok.globalBucket);
            && Receive(cfg, c, pkt).core.bkt == (if ServerOpen(pkt.pol.value, k) then bkt else c.bkt)
            && if !ServerOpen(pkt.pol.value, k) || !both then Refused(x, RSN_INBOUND_SYN)
               else if LiveFor(pkt, x.v) && x.v.value.state != Closing then Left(x, x.v.value)
               else Wrote(x, FlowVal(0, Tick(pkt.ns), SynRcvd, false, false), pkt.ok.flow)
  {
    EffectIsLocal(cfg, c, pkt, k);
    var pol := pkt.pol.value;
    if exists s :: s in pol.servers && s.ip == k.hostIp && s.port == k.hostPort {
      var s :| s in pol.servers && s.ip == k.hostIp && s.port == k.hostPort;
      assert s == Server(k.hostIp, k.hostPort);
    }
  }

  /** A reset passes iff the flow is live and, while it is SYN_SENT with an ISN, the reset
      has ACK and acknowledges the SYN; it closes the flow, not locally. */
  lemma InetReset(cfg: L1Config, c: Core, pkt: Packet, k: FlowKey)
    requires HandledFrom(false, pkt, k) && Types.Rst(pkt.p.h.flags) && !Syn(pkt.p.h.flags)
    ensures var x := EffectOf(cfg, c, pkt, k);
            if !LiveFor(pkt, x.v) then Refused(x, RSN_OOS_RST)
            else
              var v, acks := x.v.value, Ack(pkt.p.h.flags) && pkt.p.h.ackNo == (x.v.value.clientIsn + 1) % 0x1_0000_0000;
              if v.state == SynSent && v.isnValid && !acks then Refused(x, RSN_OOS_RST)
              else Left(x, v.(state := Closing, lastSeen := Tick(pkt.ns)))
  {
    EffectIsLocal(cfg, c, pkt, k);
  }

  /** Anything else passes iff the flow is live, and refreshes it: a FIN closes it, not
      locally, a half-open inbound flow is established, any other keeps its state. */
  lemma InetOther(cfg: L1Config, c: Core, pkt: Packet, k: FlowKey)
    requires HandledFrom(false, pkt, k) && !Types.Rst(pkt.p.h.flags) && !Syn(pkt.p.h.flags)
    requires !TcpHit(cfg, c, pkt, k)
    ensures var x, now := EffectOf(cfg, c, pkt, k), Tick(pkt.ns);
            if !LiveFor(pkt, x.v) then Refused(x, RSN_OOS_IN)
            else
              var v := x.v.value;
              && (Fin(pkt.p.h.flags) ==> Left(x, v.(state := Closing, lastSeen := now)))
              && (!Fin(pkt.p.h.flags) && v.state == SynRcvd ==> Left(x, v.(state := Est, lastSeen := now)))
              && (!Fin(pkt.p.h.flags) && v.state != SynRcvd ==> Left(x, v.(lastSeen := now)))
  {
    EffectIsLocal(cfg, c, pkt, k);
  }

  // ---- what never reaches the handlers ----

  /** Without a policy a frame that is not answered by the cache is let through; a flag
      combination is refused iff the policy asks for it and it is a bad one. */
  lemma BeforeTheHandlers(cfg: L1Config, c: Core, pkt: Packet, k: FlowKey)
    requires WellFormed(pkt.p) && IsTcp(Rx(pkt), k) && !TcpHit(cfg, c, pkt, k) && !Handles(Rx(pkt), k)
    ensures var x := EffectOf(cfg, c, pkt, k);
            if pkt.pol.None? then x.d == Bypass && x.v' == x.v && !x.mapFail
            else pkt.pol.value.f.dropBadFlags && BadFlags(pkt.p.h.flags) && Refused(x, RSN_BAD_FLAGS)
  {
    FlowStep(cfg, c, Rx(pkt), k);
  }

  /** A reply from the cache forwards and changes nothing; it is possible only for
      segments with ACK and without SYN, FIN and RST, and for a slot that holds exactly
      this key, tick and state on this CPU. */
  lemma FromTheCache(cfg: L1Config, c: Core, pkt: Packet, k: FlowKey)
    requires WellFormed(pkt.p) && IsTcp(Rx(pkt), k)
    ensures var r, flags, slot := Receive(cfg, c, pkt), pkt.p.h.flags, (pkt.cpu, cfg.index(k));
            (r.decision == Pass(CacheHit) <==>
               && cfg.on && Ack(flags) && !Syn(flags) && !Fin(flags) && !Types.Rst(flags)
               && slot in c.l1 && c.l1[slot].key == k && c.l1[slot].lastSeen == Tick(pkt.ns) && c.l1[slot].state == Est)
            && (r.decision == Pass(CacheHit) ==> r.core == c && !r.mapFail)
  {
  }

  /** The cache is written exactly when an eligible segment was forwarded by a handler,
      no insert failed, and the flow is established afterwards. */
  lemma FillsTheCache(cfg: L1Config, c: Core, pkt: Packet, k: FlowKey)
    requires WellFormed(pkt.p) && IsTcp(Rx(pkt), k)
    ensures var x, flags, slot := EffectOf(cfg, c, pkt, k), pkt.p.h.flags, (pkt.cpu, cfg.index(k));
            Receive(cfg, c, pkt).core.l1 ==
            if && cfg.on && Ack(flags) && !Syn(flags) && !Fin(flags) && !Types.Rst(flags)
               && x.d == Pass(Inspected) && !x.mapFail && x.v'.Some? && x.v'.value.state == Est
            then c.l1[slot := L1Entry(k, Tick(pkt.ns), Est)] else c.l1
  {
    FlowStep(cfg, c, Rx(pkt), k);
    if Handles(Rx(pkt), k) && !TcpHit(cfg, c, pkt, k) {
      EffectIsLocal(cfg, c, pkt, k);
    }
  }

  /** The next eligible segment of a cached flow on that CPU within the tick is answered
      by the cache. */
  lemma CachedIsHit(cfg: L1Config, c: Core, pkt: Packet, next: Packet, k: FlowKey)
    requires WellFormed(pkt.p) && IsTcp(Rx(pkt), k) && WellFormed(next.p) && IsTcp(Rx(next), k)
    requires cfg.on && next.cpu == pkt.cpu && Tick(next.ns) == Tick(pkt.ns)
    requires forall p :: p in {pkt, next} ==>
               Ack(p.p.h.flags) && !Syn(p.p.h.flags) && !Fin(p.p.h.flags) && !Types.Rst(p.p.h.flags)
    requires var x := EffectOf(cfg, c, pkt, k);
             x.d == Pass(Inspected) && !x.mapFail && x.v'.Some? && x.v'.value.state == Est
    ensures Receive(cfg, Receive(cfg, c, pkt).core, next).decision == Pass(CacheHit)
  {
    FillsTheCache(cfg, c, pkt, k);
    FromTheCache(cfg, Receive(cfg, c, pkt).core, next, k);
  }

  // ---- datagrams ----

  function UdpEffectOf(cfg: L1Config, c: Core, pkt: Packet, k: FlowKey): Effect
    requires WellFormed(pkt.p) && pkt.p.Udp?
  {
    var r := Receive(cfg, c, pkt);
    Effect(Lookup(c.udp, k), Lookup(r.core.udp, k), r.decision, r.mapFail)
  }

  predicate Unchanged(x: Effect, d: Decision) { x.d == d && x.v' == x.v && !x.mapFail }

  /** Before the flow table: the fail-open bypass, filtering switched off, the cache. */
  lemma DatagramBefore(cfg: L1Config, c: Core, pkt: Packet, k: FlowKey)
    requires WellFormed(pkt.p) && IsUdp(Rx(pkt), k)
    ensures var x, slot := UdpEffectOf(cfg, c, pkt, k), (pkt.cpu, cfg.index(k));
            && (pkt.pol.None? ==> Unchanged(x, Bypass))
            && (pkt.pol.Some? && !pkt.pol.value.f.filterUdp ==> Unchanged(x, Pass(PassNonTcp)))
            && (x.d == Pass(CacheHit) <==>
                  && pkt.pol.Some? && pkt.pol.value.f.filterUdp && cfg.on
                  && slot in c.l1 && c.l1[slot] == L1Entry(k, Tick(pkt.ns), StUdp))
            && (x.d == Pass(CacheHit) ==> Unchanged(x, Pass(CacheHit)))
  {
    UdpFlowStep(cfg, c, Rx(pkt), k);
  }

  /** The host's datagrams always pass and open or refresh the pseudo-flow, expired or not. */
  lemma HostDatagram(cfg: L1Config, c: Core, pkt: Packet, k: FlowKey)
    requires WellFormed(pkt.p) && IsUdp(Rx(pkt), k) && pkt.trusted && UdpTracked(pkt) && !UdpHit(cfg, c, pkt, k)
    ensures var x := UdpEffectOf(cfg, c, pkt, k);
            if x.v.None? then Wrote(x, FlowVal(0, Tick(pkt.ns), StUdp, false, false), pkt.ok.flow)
            else Left(x, x.v.value.(lastSeen := Tick(pkt.ns)))
  {
    UdpFlowStep(cfg, c, Rx(pkt), k);
  }

  /** A datagram from outside passes on a live pseudo-flow, which it refreshes, or to an
      allowlisted server, which changes nothing; any other is refused. */
  lemma InetDatagram(cfg: L1Config, c: Core, pkt: Packet, k: FlowKey)
    requires WellFormed(pkt.p) && IsUdp(Rx(pkt), k) && !pkt.trusted && UdpTracked(pkt) && !UdpHit(cfg, c, pkt, k)
    ensures var x, pol := UdpEffectOf(cfg, c, pkt, k), pkt.pol.value;
            var listed := pol.f.allowInboundServers && exists s :: s in pol.servers && s.ip == k.hostIp && s.port == k.hostPort;
            if LiveFor(pkt, x.v) then Left(x, x.v.value.(lastSeen := Tick(pkt.ns)))
            else Unchanged(x, if listed then Pass(Inspected) else Reject(RSN_UDP_OOS, false))
  {
    UdpFlowStep(cfg, c, Rx(pkt), k);
    var pol := pkt.pol.value;
    if exists s :: s in pol.servers && s.ip == k.hostIp && s.port == k.hostPort {
      var s :| s in pol.servers && s.ip == k.hostIp && s.port == k.hostPort;
      assert s == Server(k.hostIp, k.hostPort);
    }
  }

  /** The cache is written exactly for tracked datagrams whose pseudo-flow was opened or
      refreshed, not for those that only the allowlist lets in. */
  lemma DatagramFillsTheCache(cfg: L1Config, c: Core, pkt: Packet, k: FlowKey)
    requires WellFormed(pkt.p) && IsUdp(Rx(pkt), k)
    ensures var x, slot := UdpEffectOf(cfg, c, pkt, k), (pkt.cpu, cfg.index(k));
            Receive(cfg, c, pkt).core.l1 ==
            if && cfg.on && UdpTracked(pkt) && x.d == Pass(Inspected) && !x.mapFail
               && (pkt.trusted || LiveFor(pkt, x.v))
            then c.l1[slot := L1Entry(k, Tick(pkt.ns), StUdp)] else c.l1
  {
  }

  // ---- frames that touch no flow ----

  /** Every other frame leaves the tables alone. Unreadable ones are always refused; each
      of the three policy switches decides one kind; with UDP filtering off, UDP that has
      no readable ports passes like any other protocol. */
  lemma FrameWithoutFlow(cfg: L1Config, c: Core, pkt: Packet)
    requires WellFormed(pkt.p) && !pkt.p.Tcp? && !pkt.p.Udp?
    ensures var r, p := Receive(cfg, c, pkt), pkt.p;
            && r.core == c && !r.mapFail
            && (p.NonIp? ==> r.decision == Pass(PassNonIp)) && (p.OtherIp? ==> r.decision == Pass(PassNonTcp))
            && (!p.NonIp? && !p.OtherIp? && pkt.pol.None? ==> r.decision == Bypass)
    ensures pkt.pol.Some? ==>
            var d, p, f := Receive(cfg, c, pkt).decision, pkt.p, pkt.pol.value.f;
            && (p.Runt? || p.TagCut? || p.BadIp? || p.BadTcp? ==> d == Reject(RSN_MALFORMED, false))
            && (p.TooDeep? ==> d == if f.dropVlanDeep then Reject(RSN_VLAN_DEPTH, false) else Pass(PassNonIp))
            && (p.TcpFragment? ==> d == if f.dropFrags then Reject(RSN_TCP_FRAG, false) else Pass(Inspected))
            && (p.UdpFragment? || p.BadUdp? ==> (d == Pass(PassNonTcp) <==> !f.filterUdp))
            && (p.UdpFragment? && f.filterUdp ==>
                  d == if f.dropUdpFrags then Reject(RSN_UDP_FRAG, false) else Pass(Inspected))
            && (p.BadUdp? && f.filterUdp ==> d == Reject(RSN_MALFORMED, false))
  {
  }
}
