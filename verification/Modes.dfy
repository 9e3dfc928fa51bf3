/** Monitor mode predicts enforce mode. */
module Modes {
  import opened Types
  import opened Flows
  import opened Frame
  import opened Machine
  import opened Account

  /** The same packet under a policy that differs only in `mode` and `reject_with_rst`. */
  function PolicyIn(pol: Option<Policy>, enforce: bool, rst: bool): Option<Policy> {
    if pol.None? then None
    else Some(pol.value.(f := pol.value.f.(enforce := enforce, rejectWithRst := rst)))
  }

  function PacketIn(pkt: Packet, enforce: bool, rst: bool): Packet {
    pkt.(pol := PolicyIn(pkt.pol, enforce, rst))
  }

  function EventIn(e: Event, enforce: bool, rst: bool): (r: Event)
    ensures Valid(r) == Valid(e) && Time(r) == Time(e) && r.Rx? == e.Rx?
  {
    if e.Rx? then Rx(PacketIn(e.pkt, enforce, rst)) else e
  }

  function TraceIn(es: Trace, enforce: bool, rst: bool): (r: Trace)
    ensures |r| == |es| && forall i :: 0 <= i < |es| ==> r[i] == EventIn(es[i], enforce, rst)
  {
    seq(|es|, i requires 0 <= i < |es| => EventIn(es[i], enforce, rst))
  }

  lemma TcpIgnoresMode(e: Option<FlowVal>, bkt: SynLimit.Buckets, pkt: Packet, k: FlowKey, use: bool, enforce: bool, rst: bool)
    requires pkt.p.Tcp?
    ensures TcpLocal(e, bkt, PacketIn(pkt, enforce, rst), k, use) == TcpLocal(e, bkt, pkt, k, use)
  {
    if pkt.pol.Some? {
      SlowIgnoresMode(e, bkt, pkt, k, pkt.pol.value, enforce, rst);
    }
  }

  lemma SlowIgnoresMode(e: Option<FlowVal>, bkt: SynLimit.Buckets, pkt: Packet, k: FlowKey, pol: Policy,
                        enforce: bool, rst: bool)
    requires pkt.p.Tcp?
    ensures SlowTcp(e, bkt, PacketIn(pkt, enforce, rst), k, pol.(f := pol.f.(enforce := enforce, rejectWithRst := rst)))
            == SlowTcp(e, bkt, pkt, k, pol)
  {
  }

  lemma UdpIgnoresMode(e: Option<FlowVal>, bkt: SynLimit.Buckets, pkt: Packet, k: FlowKey, use: bool, enforce: bool, rst: bool)
    ensures UdpLocal(e, bkt, PacketIn(pkt, enforce, rst), k, use) == UdpLocal(e, bkt, pkt, k, use)
  {
  }

  /** The tables, the cache, the buckets and the decision do not depend on the mode. */
  lemma DecisionIgnoresMode(cfg: L1Config, c: Core, pkt: Packet, enforce: bool, rst: bool)
    requires WellFormed(pkt.p)
    ensures Receive(cfg, c, PacketIn(pkt, enforce, rst)) == Receive(cfg, c, pkt)
  {
    if pkt.p.Tcp? {
      var k := KeyOf(pkt.trusted, pkt.p);
      TcpIgnoresMode(Lookup(c.flows, k), c.bkt, pkt, k, UsesL1(cfg, pkt), enforce, rst);
    } else if pkt.p.Udp? {
      var k := KeyOf(pkt.trusted, pkt.p);
      UdpIgnoresMode(Lookup(c.udp, k), c.bkt, pkt, k, cfg.on, enforce, rst);
    }
  }

  lemma StepIgnoresMode(cfg: L1Config, c: Core, e: Event, enforce: bool, rst: bool)
    requires Valid(e)
    ensures Step(cfg, c, EventIn(e, enforce, rst)) == Step(cfg, c, e)
  {
    if e.Rx? {
      DecisionIgnoresMode(cfg, c, e.pkt, enforce, rst);
    }
  }

  /** What Record does to the reasons does not depend on the action taken. */
  lemma ReasonsIgnoreMode(b: Books, b': Books, pkt: Packet, pkt': Packet, r: Result)
    requires WellKept(b) && WellKept(b') && b.reasons == b'.reasons
    requires WellFormed(pkt.p) && pkt'.p == pkt.p
    ensures Record(b, pkt, r).reasons == Record(b', pkt', r).reasons
  {
  }

  lemma TraceInFront(es: Trace, enforce: bool, rst: bool)
    requires Proper(es)
    ensures Proper(TraceIn(es, enforce, rst))
    ensures es != [] ==> Front(TraceIn(es, enforce, rst)) == TraceIn(Front(es), enforce, rst)
    ensures es != [] ==> Last(TraceIn(es, enforce, rst)) == EventIn(Last(es), enforce, rst)
  {
  }

  lemma {:induction false} RunIgnoresMode(cfg: L1Config, es: Trace, enforce: bool, rst: bool)
    requires Proper(es)
    ensures Proper(TraceIn(es, enforce, rst)) && Run(cfg, TraceIn(es, enforce, rst)) == Run(cfg, es)
  {
    TraceInFront(es, enforce, rst);
    if es != [] {
      RunIgnoresMode(cfg, Front(es), enforce, rst);
      StepIgnoresMode(cfg, Run(cfg, Front(es)), Last(es), enforce, rst);
    }
  }

  lemma {:induction false} LedgerReasonsIgnoreMode(cfg: L1Config, es: Trace, enforce: bool, rst: bool)
    requires Proper(es) && Proper(TraceIn(es, enforce, rst))
    ensures Ledger(cfg, TraceIn(es, enforce, rst)).reasons == Ledger(cfg, es).reasons
  {
    if es != [] {
      TraceInFront(es, enforce, rst);
      RunIgnoresMode(cfg, Front(es), enforce, rst);
      LedgerReasonsIgnoreMode(cfg, Front(es), enforce, rst);
      if Last(es).Rx? {
        var c, pkt := Run(cfg, Front(es)), Last(es).pkt;
        DecisionIgnoresMode(cfg, c, pkt, enforce, rst);
        ReasonsIgnoreMode(Ledger(cfg, Front(TraceIn(es, enforce, rst))), Ledger(cfg, Front(es)),
                          PacketIn(pkt, enforce, rst), pkt, Receive(cfg, c, pkt));
      }
    }
  }

  /** A refusal raises one reason other than MAP_FAIL, a pass raises none. */
  lemma RefusalRaisesReason(b: Books, pkt: Packet, r: Result)
    requires WellKept(b) && WellFormed(pkt.p) && ProperRefusal(r.decision, pkt)
    ensures r.decision.Reject? <==> RaisesReason(b, Record(b, pkt, r))
  {
  }

  predicate RaisesReason(b: Books, b': Books)
    requires WellKept(b) && WellKept(b')
  {
    exists r :: 0 <= r < RSN_MAX && r != RSN_MAP_FAIL && b'.reasons[r] > b.reasons[r]
  }

  ghost function LastAction(cfg: L1Config, es: Trace): Action
    requires Proper(es) && es != [] && Last(es).Rx?
  { ActionOf(Last(es).pkt, Decide(cfg, es)) }

  /** Run the same trace in monitor mode and in enforce mode, with or without
      reject_with_rst: tables, cache, buckets and reason counters agree after every
      step; monitor redirects every packet; and enforce drops or answers exactly
      the packets for which monitor raises a reason other than MAP_FAIL. */
  lemma MonitorPredictsEnforce(cfg: L1Config, es: Trace, rstM: bool, rstE: bool)
    requires Proper(es)
    ensures var m, x := TraceIn(es, false, rstM), TraceIn(es, true, rstE);
            && Proper(m) && Proper(x)
            && Run(cfg, m) == Run(cfg, x)
            && Ledger(cfg, m).reasons == Ledger(cfg, x).reasons
            && (es != [] && Last(es).Rx? ==>
                  && LastAction(cfg, m) == Redirect
                  && (LastAction(cfg, x) != Redirect <==> RaisesReason(Ledger(cfg, Front(m)), Ledger(cfg, m))))
  {
    RunIgnoresMode(cfg, es, false, rstM);
    RunIgnoresMode(cfg, es, true, rstE);
    LedgerReasonsIgnoreMode(cfg, es, false, rstM);
    LedgerReasonsIgnoreMode(cfg, es, true, rstE);
    if es != [] && Last(es).Rx? {
      LastActionsAgree(cfg, es, rstM, rstE);
    }
  }

  lemma LastActionsAgree(cfg: L1Config, es: Trace, rstM: bool, rstE: bool)
    requires Proper(es) && es != [] && Last(es).Rx?
    ensures var m, x := TraceIn(es, false, rstM), TraceIn(es, true, rstE);
            && Proper(m) && Proper(x) && LastAction(cfg, m) == Redirect
            && (LastAction(cfg, x) != Redirect <==> RaisesReason(Ledger(cfg, Front(m)), Ledger(cfg, m)))
  {
    var c, pkt := Run(cfg, Front(es)), Last(es).pkt;
    var m := TraceIn(es, false, rstM);
    TraceInFront(es, false, rstM);
    TraceInFront(es, true, rstE);
    RunIgnoresMode(cfg, Front(es), false, rstM);
    RunIgnoresMode(cfg, Front(es), true, rstE);
    DecisionIgnoresMode(cfg, c, pkt, false, rstM);
    DecisionIgnoresMode(cfg, c, pkt, true, rstE);
    RefusalIsProper(cfg, c, pkt);
    RefusalRaisesReason(Ledger(cfg, Front(m)), Last(m).pkt, Receive(cfg, c, pkt));
  }
}
