/** The UDP table is a summary of the whole past: which datagrams pass can be said
    without mentioning any table. */
module UdpHistory {
  import opened Types
  import opened Clock
  import opened Flows
  import opened Machine
  import opened Invariants
  import opened Handshake
  import opened Cache

  /** Event `n` is a datagram that uses the pseudo-flow `k`: it is outbound, or it is
      inbound and follows another use of `k` within `ttl` ticks. */
  ghost predicate Uses(es: Trace, n: nat, k: FlowKey, ttl: nat)
    requires Proper(es) && n < |es|
    decreases n
  {
    && IsUdp(es[n], k) && UdpTracked(es[n].pkt)
    && (|| es[n].pkt.trusted
        || exists j :: 0 <= j < n && Uses(es, j, k, ttl) && Tick(Time(es[n])) - Tick(Time(es[j])) <= ttl)
  }

  /** Moreover, no UDP entry is evicted. */
  predicate UdpSteady(e: Event, ttl: nat) { UdpTimeout(e, ttl) && !e.EvictUdp? }

  /** What the entry of `k` says about the uses among the first `n` events. */
  ghost predicate Summary(v: Option<FlowVal>, es: Trace, n: nat, k: FlowKey, ttl: nat, now: nat)
    requires Proper(es) && n <= |es|
  {
    && (v.Some? ==> exists j :: 0 <= j < n && Uses(es, j, k, ttl) && Tick(Time(es[j])) == v.value.lastSeen)
    && (forall j :: 0 <= j < n && Uses(es, j, k, ttl) ==>
          (v.Some? && Tick(Time(es[j])) <= v.value.lastSeen) || Tick(Time(es[j])) + ttl < now)
  }

  /** The entry is live exactly when the next inbound datagram would be a use. */
  lemma LiveIffUse(f: Features, v: Option<FlowVal>, es: Trace, n: nat, k: FlowKey, before: nat)
    requires Proper(es) && n < |es| && IsUdp(es[n], k) && UdpTracked(es[n].pkt) && !es[n].pkt.trusted
    requires before <= Tick(Time(es[n])) && (v.Some? ==> UdpOk(v.value, before))
    requires Summary(v, es, n, k, f.ttlUdp, before)
    ensures Live(f, v, Tick(Time(es[n]))) <==> Uses(es, n, k, f.ttlUdp)
  {
  }

  lemma SummaryStep(cfg: L1Config, c: Core, es: Trace, n: nat, k: FlowKey, ttl: nat, before: nat)
    requires Proper(es) && n < |es| && !cfg.on && UdpSteady(es[n], ttl)
    requires before <= Tick(Time(es[n])) && (k in c.udp ==> UdpOk(c.udp[k], before))
    requires Summary(Lookup(c.udp, k), es, n, k, ttl, before)
    ensures Summary(UdpAfter(cfg, c, es[n], k), es, n + 1, k, ttl, Tick(Time(es[n])))
  {
    var v, e := Lookup(c.udp, k), es[n];
    if IsUdp(e, k) && UdpTracked(e.pkt) && !e.pkt.trusted {
      LiveIffUse(e.pkt.pol.value.f, v, es, n, k, before);
    }
  }

  ghost predicate SummaryAt(cfg: L1Config, es: Trace, n: nat, k: FlowKey, ttl: nat)
    requires Proper(es) && n <= |es|
  { Summary(Lookup(At(cfg, es, n).udp, k), es, n, k, ttl, Tick(Now(es[..n]))) }

  lemma SummaryNext(cfg: L1Config, es: Trace, n: nat, k: FlowKey, ttl: nat)
    requires Proper(es) && n < |es| && !cfg.on && UdpSteady(es[n], ttl) && SummaryAt(cfg, es, n, k, ttl)
    ensures SummaryAt(cfg, es, n + 1, k, ttl)
  {
    RunInv(cfg, es[..n]);
    AtStep(cfg, es, n);
    UdpFlowStep(cfg, At(cfg, es, n), es[n], k);
    SummaryStep(cfg, At(cfg, es, n), es, n, k, ttl, Tick(Now(es[..n])));
  }

  lemma {:induction false} SummaryRun(cfg: L1Config, es: Trace, n: nat, k: FlowKey, ttl: nat)
    requires Proper(es) && n <= |es| && !cfg.on && forall i :: 0 <= i < |es| ==> UdpSteady(es[i], ttl)
    ensures SummaryAt(cfg, es, n, k, ttl)
  {
    if n > 0 {
      SummaryRun(cfg, es, n - 1, k, ttl);
      SummaryNext(cfg, es, n - 1, k, ttl);
    }
  }

  /** With the cache on or off: an inbound datagram passes iff it is allowlisted or
      some earlier datagram of its flow, outbound or itself admitted by the flow,
      lies within the timeout. */
  lemma UdpAdmission(cfg: L1Config, es: Trace, n: nat, k: FlowKey, ttl: nat)
    requires Proper(es) && n < |es| && forall i :: 0 <= i < |es| ==> UdpSteady(es[i], ttl)
    requires IsUdp(es[n], k) && UdpTracked(es[n].pkt) && !es[n].pkt.trusted
    ensures Receive(cfg, At(cfg, es, n), es[n].pkt).decision.Pass? <==>
              UdpAllowlisted(es[n].pkt, k) || Uses(es, n, k, ttl)
  {
    var off, before := Off(cfg), Tick(Now(es[..n]));
    assert Front(es[..n + 1]) == es[..n];
    UdpVerdictsAgree(cfg, es[..n + 1]);
    RunInv(off, es[..n]);
    AtStep(off, es, n);
    SummaryRun(off, es, n, k, ttl);
    LiveIffUse(es[n].pkt.pol.value.f, Lookup(At(off, es, n).udp, k), es, n, k, before);
  }
}
