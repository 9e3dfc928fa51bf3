/** What an entry of the TCP flow table proves about the run that made it: ISN
    binding, closes, and who may create entries. */
module Handshake {
  import opened Types
  import opened Clock
  import opened Flows
  import opened Machine
  import opened Invariants

  /** The event reaches a TCP handler for `k`: not refused for its flags, policy present. */
  predicate Handles(e: Event, k: FlowKey)
    requires Valid(e)
  { IsTcp(e, k) && e.pkt.pol.Some? && !FlagsRefused(e.pkt) }

  predicate OutSyn(e: Event, k: FlowKey)
    requires Valid(e)
  { Handles(e, k) && e.pkt.trusted && LoneSyn(e.pkt.p.h.flags) }

  // ---- ISN binding ----

  /** The sequence number of the latest outbound SYN of `k` in the trace. */
  ghost function LatestIsn(es: Trace, k: FlowKey): Option<u32>
    requires Proper(es)
  {
    if es == [] then None
    else if OutSyn(Last(es), k) then Some(Last(es).pkt.p.h.seqNo)
    else LatestIsn(Front(es), k)
  }

  /** One step: a valid ISN is the one of this SYN, or was already there. */
  lemma IsnStep(cfg: L1Config, c: Core, e: Event, k: FlowKey)
    requires Valid(e)
    ensures var v := FlowAfter(cfg, c, e, k);
            v.Some? && v.value.isnValid ==>
              if OutSyn(e, k) then v.value.clientIsn == e.pkt.p.h.seqNo
              else k in c.flows && c.flows[k].isnValid && c.flows[k].clientIsn == v.value.clientIsn
  {
    if IsTcp(e, k) && !TcpHit(cfg, c, e.pkt, k) && Handles(e, k) {
      var seg := SegmentOf(e.pkt.trusted, e.pkt.p.h);
      assert seg.flags == e.pkt.p.h.flags;
    }
  }

  /** In every reachable state a valid ISN is that of the latest outbound SYN. */
  lemma {:induction false} IsnBinding(cfg: L1Config, es: Trace, k: FlowKey)
    requires Proper(es)
    ensures var c := Run(cfg, es);
            k in c.flows && c.flows[k].isnValid ==> LatestIsn(es, k) == Some(c.flows[k].clientIsn)
  {
    if es != [] {
      IsnBinding(cfg, Front(es), k);
      IsnStep(cfg, Run(cfg, Front(es)), Last(es), k);
      FlowStep(cfg, Run(cfg, Front(es)), Last(es), k);
    }
  }

  /** What admits an inbound SYN-ACK: a live entry, and, when that entry has a valid
      ISN (always so while the handshake is half-open), an acknowledgment of exactly
      the ISN of the latest outbound SYN plus one (section 3.10.7.3 of RFC 9293). An
      entry without one was adopted or opened by an admitted inbound SYN. */
  lemma SynAckAdmission(cfg: L1Config, es: Trace, k: FlowKey)
    requires Proper(es) && es != [] && Handles(Last(es), k)
    requires !Last(es).pkt.trusted && SynAck(Last(es).pkt.p.h.flags)
    ensures var pkt := Last(es).pkt;
            var v := Lookup(Run(cfg, Front(es)).flows, k);
            && (Decide(cfg, es).Pass? <==>
                && Live(pkt.pol.value.f, v, Tick(pkt.ns))
                && (v.value.isnValid ==>
                      exists isn :: LatestIsn(Front(es), k) == Some(isn) && pkt.p.h.ackNo == (isn + 1) % U32))
            && (v.Some? && v.value.state == SynSent ==> v.value.isnValid)
            && (v.Some? && v.value.state == SynRcvd ==> !v.value.isnValid)
  {
    RunInv(cfg, Front(es));
    IsnBinding(cfg, Front(es), k);
    var pkt := Last(es).pkt;
    var v := Lookup(Run(cfg, Front(es)).flows, k);
    assert !L1Eligible(pkt.p.h.flags);
    if v.Some? && v.value.isnValid {
      assert LatestIsn(Front(es), k) == Some(v.value.clientIsn);
    }
  }

  /** What admits an inbound reset: a live entry, and, while that entry is SYN_SENT, an
      acknowledgment of exactly the ISN of the latest outbound SYN plus one. If admitted it
      closes the flow and refreshes it, and otherwise nothing changes. */
  lemma ResetAdmission(cfg: L1Config, es: Trace, k: FlowKey)
    requires Proper(es) && es != [] && Handles(Last(es), k)
    requires !Last(es).pkt.trusted && Types.Rst(Last(es).pkt.p.h.flags) && !Syn(Last(es).pkt.p.h.flags)
    ensures var pkt := Last(es).pkt;
            var v, v' := Lookup(Run(cfg, Front(es)).flows, k), Lookup(Run(cfg, es).flows, k);
            && (Decide(cfg, es).Pass? <==>
                && Live(pkt.pol.value.f, v, Tick(pkt.ns))
                && (v.value.state == SynSent ==>
                      Ack(pkt.p.h.flags) &&
                      exists isn :: LatestIsn(Front(es), k) == Some(isn) && pkt.p.h.ackNo == (isn + 1) % 0x1_0000_0000))
            && (if Decide(cfg, es).Pass? then v' == Some(v.value.(state := Closing, lastSeen := Tick(pkt.ns)))
                else v' == v && Decide(cfg, es) == Reject(RSN_OOS_RST, true))
  {
    RunInv(cfg, Front(es));
    IsnBinding(cfg, Front(es), k);
    FlowStep(cfg, Run(cfg, Front(es)), Last(es), k);
    var v, pkt := Lookup(Run(cfg, Front(es)).flows, k), Last(es).pkt;
    assert SegmentOf(false, pkt.p.h).flags == pkt.p.h.flags && !L1Eligible(pkt.p.h.flags);
    if v.Some? && v.value.isnValid {
      assert LatestIsn(Front(es), k) == Some(v.value.clientIsn);
    }
  }

  // ---- closes ----

  /** The events that take the entry of `k` out of a locally closed state. */
  predicate Reopens(c: Core, e: Event, k: FlowKey)
    requires Valid(e)
  {
    || FlowRemoved(c, e, k)
    || OutSyn(e, k)
    || (Handles(e, k) && e.pkt.ok.flow && (InSynAdmitted(c, e.pkt, k) || Adopts(c, e.pkt, k)))
  }

  predicate InSynAdmitted(c: Core, pkt: Packet, k: FlowKey)
    requires pkt.p.Tcp? && pkt.pol.Some?
  {
    && !pkt.trusted && LoneSyn(pkt.p.h.flags)
    && AdmitSyn(c.bkt, pkt.pol.value, k, pkt.p.h.flags, pkt.ns, pkt.ok).1
  }

  /** An outbound packet adopted over an expired entry, other than a SYN, RST or FIN. */
  predicate Adopts(c: Core, pkt: Packet, k: FlowKey)
    requires pkt.p.Tcp? && pkt.pol.Some?
  {
    var flags := pkt.p.h.flags;
    && pkt.trusted && !LoneSyn(flags) && !Rst(flags) && !Fin(flags)
    && !Live(pkt.pol.value.f, Lookup(c.flows, k), Tick(pkt.ns)) && !pkt.pol.value.f.oosStrict
  }

  predicate LocallyClosed(v: Option<FlowVal>) { v.Some? && v.value.state == Closing && v.value.closedOut }

  /** FL_CLOSED_OUT is only ever set on a closing entry. */
  lemma ClosedOutIsClosing(cfg: L1Config, es: Trace, k: FlowKey)
    requires Proper(es)
    requires var v := Lookup(Run(cfg, es).flows, k); v.Some? && v.value.closedOut
    ensures LocallyClosed(Lookup(Run(cfg, es).flows, k))
  {
    RunInv(cfg, es);
  }

  /** The host closes the flow: a reset that finds an entry, or a FIN that finds it live
      or is adopted. */
  predicate ClosesLocally(c: Core, e: Event, k: FlowKey)
    requires Valid(e)
  {
    && Handles(e, k) && e.pkt.trusted && !LoneSyn(e.pkt.p.h.flags)
    && if Types.Rst(e.pkt.p.h.flags) then k in c.flows
       else
         && Fin(e.pkt.p.h.flags)
         && (Live(e.pkt.pol.value.f, Lookup(c.flows, k), Tick(e.pkt.ns))
             || (!e.pkt.pol.value.f.oosStrict && e.pkt.ok.flow))
  }

  /** An entry that is not locally closed becomes so by exactly these events. */
  lemma LocalCloseStarts(cfg: L1Config, c: Core, e: Event, k: FlowKey)
    requires Valid(e) && !LocallyClosed(Lookup(c.flows, k)) && (k in c.flows ==> TcpShape(c.flows[k]))
    ensures LocallyClosed(FlowAfter(cfg, c, e, k)) <==> ClosesLocally(c, e, k)
  {
    if Handles(e, k) {
      assert SegmentOf(e.pkt.trusted, e.pkt.p.h).flags == e.pkt.p.h.flags;
    }
  }

  /** A locally closed entry stays locally closed, except by exactly these events. */
  lemma ClosedOutStep(cfg: L1Config, c: Core, e: Event, k: FlowKey)
    requires Valid(e) && LocallyClosed(Lookup(c.flows, k)) && !TcpHitOf(cfg, c, e, k)
    ensures LocallyClosed(FlowAfter(cfg, c, e, k)) <==> !Reopens(c, e, k)
  {
    if Handles(e, k) {
      var seg := SegmentOf(e.pkt.trusted, e.pkt.p.h);
      assert seg.flags == e.pkt.p.h.flags;
    }
  }

  predicate TcpHitOf(cfg: L1Config, c: Core, e: Event, k: FlowKey)
    requires Valid(e)
  { IsTcp(e, k) && TcpHit(cfg, c, e.pkt, k) }

  ghost predicate ClosedAt(cfg: L1Config, es: Trace, n: nat, k: FlowKey)
    requires Proper(es) && n <= |es|
  { LocallyClosed(Lookup(At(cfg, es, n).flows, k)) }

  ghost predicate ReopensAt(cfg: L1Config, es: Trace, n: nat, k: FlowKey)
    requires Proper(es) && n < |es|
  { Reopens(At(cfg, es, n), es[n], k) }

  lemma LocalCloseNext(cfg: L1Config, es: Trace, n: nat, k: FlowKey)
    requires Proper(es) && n < |es| && ClosedAt(cfg, es, n, k) && !ReopensAt(cfg, es, n, k)
    ensures ClosedAt(cfg, es, n + 1, k)
  {
    AtStep(cfg, es, n);
    LocalCloseStep(cfg, At(cfg, es, n), es[n], k);
  }

  /** Over a run: nothing but those events ends a local close. */
  lemma {:induction false} LocalCloseSticks(cfg: L1Config, es: Trace, i: nat, n: nat, k: FlowKey)
    requires Proper(es) && i <= n <= |es|
    requires var v := Lookup(At(cfg, es, i).flows, k); v.Some? && v.value.closedOut
    requires forall j :: i <= j < n ==> !ReopensAt(cfg, es, j, k)
    ensures ClosedAt(cfg, es, n, k)
    decreases n
  {
    if i == n {
      ClosedOutIsClosing(cfg, es[..i], k);
    } else {
      LocalCloseSticks(cfg, es, i, n - 1, k);
      LocalCloseNext(cfg, es, n - 1, k);
    }
  }

  lemma LocalCloseStep(cfg: L1Config, c: Core, e: Event, k: FlowKey)
    requires Valid(e) && LocallyClosed(Lookup(c.flows, k)) && !Reopens(c, e, k)
    ensures LocallyClosed(Lookup(Step(cfg, c, e).flows, k))
  {
    FlowStep(cfg, c, e, k);
    if !TcpHitOf(cfg, c, e, k) {
      ClosedOutStep(cfg, c, e, k);
    }
  }

  /** Over a run: after the host's FIN or reset the flow is closing, not established, until
      one of the events of `Reopens`. */
  lemma HostCloseHolds(cfg: L1Config, es: Trace, i: nat, n: nat, k: FlowKey)
    requires Proper(es) && i < n <= |es| && ClosesLocally(At(cfg, es, i), es[i], k)
    requires forall j :: i < j < n ==> !ReopensAt(cfg, es, j, k)
    ensures ClosedAt(cfg, es, n, k)
  {
    HostCloseTakes(cfg, es, i, k);
    LocalCloseSticks(cfg, es, i + 1, n, k);
  }

  lemma HostCloseTakes(cfg: L1Config, es: Trace, i: nat, k: FlowKey)
    requires Proper(es) && i < |es| && ClosesLocally(At(cfg, es, i), es[i], k)
    ensures ClosedAt(cfg, es, i + 1, k)
  {
    var c, e := At(cfg, es, i), es[i];
    RunInv(cfg, es[..i]);
    AtStep(cfg, es, i);
    FlowStep(cfg, c, e, k);
    if LocallyClosed(Lookup(c.flows, k)) {
      ClosedOutStep(cfg, c, e, k);
    } else {
      LocalCloseStarts(cfg, c, e, k);
    }
  }

  /** The events a remote party may cause once inbound SYNs are refused. */
  predicate OnlyInbound(e: Event, k: FlowKey)
    requires Valid(e)
  {
    Handles(e, k) ==> !e.pkt.trusted && (LoneSyn(e.pkt.p.h.flags) ==> !SynPolicy(e.pkt.pol.value, k))
  }

  predicate RemotelyCloseable(v: Option<FlowVal>) {
    v.Some? ==> v.value.state in {Est, Closing} && !v.value.closedOut
  }

  lemma OnlyInboundStep(cfg: L1Config, c: Core, e: Event, k: FlowKey)
    requires Valid(e) && OnlyInbound(e, k) && RemotelyCloseable(Lookup(c.flows, k))
    ensures RemotelyCloseable(Lookup(Step(cfg, c, e).flows, k))
  {
    FlowStep(cfg, c, e, k);
    if Handles(e, k) {
      var seg := SegmentOf(e.pkt.trusted, e.pkt.p.h);
      assert seg.flags == e.pkt.p.h.flags;
    }
  }

  lemma {:induction false} OnlyInboundRun(cfg: L1Config, es: Trace, i: nat, n: nat, k: FlowKey)
    requires Proper(es) && i <= n <= |es|
    requires var v := Lookup(At(cfg, es, i).flows, k); v.Some? && v.value.state == Est
    requires forall j :: i <= j < n ==> OnlyInbound(es[j], k)
    ensures RemotelyCloseable(Lookup(At(cfg, es, n).flows, k))
    decreases n
  {
    hide Step, OnlyInbound;
    if i == n {
      RunInv(cfg, es[..i]);
    } else {
      OnlyInboundRun(cfg, es, i, n - 1, k);
      OnlyInboundNext(cfg, es, n - 1, k);
    }
  }

  lemma OnlyInboundNext(cfg: L1Config, es: Trace, n: nat, k: FlowKey)
    requires Proper(es) && n < |es| && OnlyInbound(es[n], k) && RemotelyCloseable(Lookup(At(cfg, es, n).flows, k))
    ensures RemotelyCloseable(Lookup(At(cfg, es, n + 1).flows, k))
  {
    AtStep(cfg, es, n);
    OnlyInboundStep(cfg, At(cfg, es, n), es[n], k);
  }

  /** A remote close is reversible, except behind the cache: whatever the internet
      side sends on an established flow, the host's next ordinary packet on the live
      flow leaves it established if and only if it is not answered by the cache or
      the flow was established anyway. */
  lemma RemoteCloseReversible(cfg: L1Config, es: Trace, i: nat, n: nat, k: FlowKey)
    requires Proper(es) && i <= n < |es|
    requires var v := Lookup(At(cfg, es, i).flows, k); v.Some? && v.value.state == Est
    requires forall j :: i <= j < n ==> OnlyInbound(es[j], k)
    requires Handles(es[n], k) && es[n].pkt.trusted
    requires var flags := es[n].pkt.p.h.flags; !LoneSyn(flags) && !Fin(flags) && !Rst(flags)
    requires Live(es[n].pkt.pol.value.f, Lookup(At(cfg, es, n).flows, k), Tick(es[n].pkt.ns))
    ensures var v, v' := Lookup(At(cfg, es, n).flows, k), Lookup(At(cfg, es, n + 1).flows, k);
            var hit := TcpHit(cfg, At(cfg, es, n), es[n].pkt, k);
            && v'.Some?
            && (v'.value.state == Est <==> !hit || v.value.state == Est)
            && (!hit ==> v'.value.lastSeen == Tick(es[n].pkt.ns))
  {
    OnlyInboundRun(cfg, es, i, n, k);
    AtStep(cfg, es, n);
    FlowStep(cfg, At(cfg, es, n), es[n], k);
    assert SegmentOf(true, es[n].pkt.p.h).flags == es[n].pkt.p.h.flags;
  }

  // ---- completing a handshake ----

  /** The entry is absent, half-open with this ISN, or closing: not established. */
  predicate NotEstablished(v: Option<FlowVal>, isn: u32) {
    v.Some? ==> v.value.state == Closing || (v.value.state == SynSent && v.value.isnValid && v.value.clientIsn == isn)
  }

  /** The internet side answers the SYN whose ISN is `isn`. */
  predicate ProvesIsn(e: Event, k: FlowKey, isn: u32)
    requires Valid(e)
  { Handles(e, k) && !e.pkt.trusted && SynAck(e.pkt.p.h.flags) && e.pkt.p.h.ackNo == (isn + 1) % U32 }

  lemma NotEstablishedStep(cfg: L1Config, c: Core, e: Event, k: FlowKey, isn: u32)
    requires Valid(e) && OnlyInbound(e, k) && NotEstablished(Lookup(c.flows, k), isn) && !ProvesIsn(e, k, isn)
    ensures NotEstablished(Lookup(Step(cfg, c, e).flows, k), isn)
  {
    FlowStep(cfg, c, e, k);
    if Handles(e, k) {
      var seg := SegmentOf(e.pkt.trusted, e.pkt.p.h);
      assert seg.flags == e.pkt.p.h.flags && seg.num == e.pkt.p.h.ackNo;
    }
  }

  /** A half-open flow that the internet side alone drives to EST was answered by a
      SYN-ACK acknowledging exactly its ISN plus one: no other inbound packet,
      however many are sent, gets it there. */
  lemma {:induction false} EstablishingNeedsTheIsn(cfg: L1Config, es: Trace, i: nat, n: nat, k: FlowKey, isn: u32)
    requires Proper(es) && i <= n <= |es|
    requires var v := Lookup(At(cfg, es, i).flows, k); v.Some? && v.value.state == SynSent && v.value.clientIsn == isn
    requires forall j :: i <= j < n ==> OnlyInbound(es[j], k)
    requires var v := Lookup(At(cfg, es, n).flows, k); v.Some? && v.value.state == Est
    ensures exists j :: i <= j < n && ProvesIsn(es[j], k, isn)
  {
    if forall j :: i <= j < n ==> !ProvesIsn(es[j], k, isn) {
      StaysUnestablished(cfg, es, i, n, k, isn);
    }
  }

  lemma {:induction false} StaysUnestablished(cfg: L1Config, es: Trace, i: nat, n: nat, k: FlowKey, isn: u32)
    requires Proper(es) && i <= n <= |es|
    requires var v := Lookup(At(cfg, es, i).flows, k); v.Some? && v.value.state == SynSent && v.value.clientIsn == isn
    requires forall j :: i <= j < n ==> OnlyInbound(es[j], k) && !ProvesIsn(es[j], k, isn)
    ensures NotEstablished(Lookup(At(cfg, es, n).flows, k), isn)
    decreases n
  {
    hide Step, OnlyInbound, ProvesIsn;
    if i == n {
      RunInv(cfg, es[..i]);
    } else {
      StaysUnestablished(cfg, es, i, n - 1, k, isn);
      AtStep(cfg, es, n - 1);
      NotEstablishedStep(cfg, At(cfg, es, n - 1), es[n - 1], k, isn);
    }
  }

  // ---- half-open inbound flows ----

  predicate IsIn(v: Option<FlowVal>, st: FlowState) { v.Some? && v.value.state == st }

  /** An inbound segment other than SYN, RST or FIN reaches the handler and finds the flow
      live; nothing in it has to match what the host has sent. */
  predicate AnySegment(cfg: L1Config, c: Core, e: Event, k: FlowKey)
    requires Valid(e)
  {
    && Handles(e, k) && !e.pkt.trusted && !TcpHit(cfg, c, e.pkt, k)
    && !Syn(e.pkt.p.h.flags) && !Rst(e.pkt.p.h.flags) && !Fin(e.pkt.p.h.flags)
    && Live(e.pkt.pol.value.f, Lookup(c.flows, k), Tick(e.pkt.ns))
  }

  /** The host does nothing but answer the SYN, as long as the flow is half-open. */
  predicate HostOnlyAnswers(c: Core, e: Event, k: FlowKey)
    requires Valid(e)
  {
    Handles(e, k) && e.pkt.trusted ==>
      && SynAck(e.pkt.p.h.flags) && IsIn(Lookup(c.flows, k), SynRcvd)
      && Live(e.pkt.pol.value.f, Lookup(c.flows, k), Tick(e.pkt.ns))
  }

  /** Not established, and not about to be by anything but `AnySegment`. */
  predicate HalfOpenOrClosed(v: Option<FlowVal>) { v.Some? ==> v.value.state in {SynRcvd, Closing} }

  lemma AnswerKeepsHalfOpen(v: Option<FlowVal>, bkt: SynLimit.Buckets, pkt: Packet, k: FlowKey, use: bool)
    requires pkt.p.Tcp? && pkt.pol.Some? && !FlagsRefused(pkt) && pkt.trusted && SynAck(pkt.p.h.flags)
    requires IsIn(v, SynRcvd) && Live(pkt.pol.value.f, v, Tick(pkt.ns))
    ensures HalfOpenOrClosed(TcpLocal(v, bkt, pkt, k, use).entry)
  {
    assert SegmentOf(pkt.trusted, pkt.p.h).flags == pkt.p.h.flags;
  }

  lemma InboundEstablishes(v: Option<FlowVal>, bkt: SynLimit.Buckets, pkt: Packet, k: FlowKey, use: bool)
    requires pkt.p.Tcp? && pkt.pol.Some? && !FlagsRefused(pkt) && !pkt.trusted && HalfOpenOrClosed(v)
    ensures var v' := TcpLocal(v, bkt, pkt, k, use).entry;
            if IsIn(v, SynRcvd) && Live(pkt.pol.value.f, v, Tick(pkt.ns))
               && !Syn(pkt.p.h.flags) && !Rst(pkt.p.h.flags) && !Fin(pkt.p.h.flags)
            then IsIn(v', Est) else HalfOpenOrClosed(v')
  {
    assert SegmentOf(pkt.trusted, pkt.p.h).flags == pkt.p.h.flags;
  }

  /** One step of a flow opened from outside: it is established exactly when any inbound
      segment other than SYN, RST or FIN meets it half-open. */
  lemma HalfOpenStep(cfg: L1Config, c: Core, e: Event, k: FlowKey)
    requires Valid(e) && HostOnlyAnswers(c, e, k) && HalfOpenOrClosed(Lookup(c.flows, k))
    ensures var v, v' := Lookup(c.flows, k), FlowAfter(cfg, c, e, k);
            && (IsIn(v', Est) <==> IsIn(v, SynRcvd) && AnySegment(cfg, c, e, k))
            && (!IsIn(v', Est) ==> HalfOpenOrClosed(v'))
  {
    if Handles(e, k) && e.pkt.trusted {
      AnswerKeepsHalfOpen(Lookup(c.flows, k), c.bkt, e.pkt, k, UsesL1(cfg, e.pkt));
    } else if Handles(e, k) {
      InboundEstablishes(Lookup(c.flows, k), c.bkt, e.pkt, k, UsesL1(cfg, e.pkt));
    }
  }

  ghost predicate InAt(cfg: L1Config, es: Trace, n: nat, k: FlowKey, st: FlowState)
    requires Proper(es) && n <= |es|
  { IsIn(Lookup(At(cfg, es, n).flows, k), st) }

  ghost predicate CompletesAt(cfg: L1Config, es: Trace, n: nat, k: FlowKey)
    requires Proper(es) && n < |es|
  { InAt(cfg, es, n, k, SynRcvd) && AnySegment(cfg, At(cfg, es, n), es[n], k) }

  ghost predicate AnswersAt(cfg: L1Config, es: Trace, n: nat, k: FlowKey)
    requires Proper(es) && n < |es|
  { HostOnlyAnswers(At(cfg, es, n), es[n], k) }

  ghost predicate HalfOpenAt(cfg: L1Config, es: Trace, n: nat, k: FlowKey)
    requires Proper(es) && n <= |es|
  { HalfOpenOrClosed(Lookup(At(cfg, es, n).flows, k)) }

  lemma HalfOpenNext(cfg: L1Config, es: Trace, n: nat, k: FlowKey)
    requires Proper(es) && n < |es| && AnswersAt(cfg, es, n, k) && HalfOpenAt(cfg, es, n, k)
    ensures InAt(cfg, es, n + 1, k, Est) <==> CompletesAt(cfg, es, n, k)
    ensures !InAt(cfg, es, n + 1, k, Est) ==> HalfOpenAt(cfg, es, n + 1, k)
  {
    AtStep(cfg, es, n);
    HalfOpenStep(cfg, At(cfg, es, n), es[n], k);
    FlowStep(cfg, At(cfg, es, n), es[n], k);
  }

  lemma HalfOpenStart(cfg: L1Config, es: Trace, n: nat, k: FlowKey)
    requires Proper(es) && n <= |es| && InAt(cfg, es, n, k, SynRcvd)
    ensures HalfOpenAt(cfg, es, n, k)
  {
  }

  /** From event `i` to event `n` the host at most answers, and the flow is not established
      in between. */
  ghost predicate Unanswered(cfg: L1Config, es: Trace, i: nat, n: nat, k: FlowKey)
    requires Proper(es) && n <= |es|
  {
    && (forall j :: i <= j < n ==> AnswersAt(cfg, es, j, k))
    && (forall j :: i < j < n ==> !InAt(cfg, es, j, k, Est))
  }

  lemma UnansweredBefore(cfg: L1Config, es: Trace, i: nat, n: nat, k: FlowKey)
    requires Proper(es) && i + 1 < n <= |es| && Unanswered(cfg, es, i, n, k)
    ensures Unanswered(cfg, es, i, n - 1, k) && AnswersAt(cfg, es, n - 1, k) && !InAt(cfg, es, n - 1, k, Est)
  {
  }

  /** Over a run in which the host at most answers, the event that first establishes a
      flow opened from outside is exactly the first inbound segment other than SYN, RST
      or FIN that meets it half-open and live. */
  lemma {:induction false} BlindAckIff(cfg: L1Config, es: Trace, i: nat, n: nat, k: FlowKey)
    requires Proper(es) && i < n <= |es| && InAt(cfg, es, i, k, SynRcvd) && Unanswered(cfg, es, i, n, k)
    ensures InAt(cfg, es, n, k, Est) <==> CompletesAt(cfg, es, n - 1, k)
    ensures !InAt(cfg, es, n, k, Est) ==> HalfOpenAt(cfg, es, n, k)
    decreases n
  {
    hide AnswersAt, InAt, HalfOpenAt, CompletesAt;
    if i + 1 < n {
      UnansweredBefore(cfg, es, i, n, k);
      BlindAckIff(cfg, es, i, n - 1, k);
    } else {
      HalfOpenStart(cfg, es, i, k);
    }
    HalfOpenNext(cfg, es, n - 1, k);
  }

  // ---- who may create entries ----

  /** The event is a packet of the trusted side that filtering forwards for `k`. */
  predicate SentTcp(cfg: L1Config, c: Core, e: Event, k: FlowKey)
    requires Valid(e)
  { Handles(e, k) && e.pkt.trusted && Receive(cfg, c, e.pkt).decision.Pass? }

  predicate SentUdp(cfg: L1Config, c: Core, e: Event, k: FlowKey)
    requires Valid(e)
  { IsUdp(e, k) && UdpTracked(e.pkt) && e.pkt.trusted && Receive(cfg, c, e.pkt).decision.Pass? }

  /** The trusted side has sent a packet of this key, and it was not refused. */
  ghost predicate HadOutboundTcp(cfg: L1Config, es: Trace, k: FlowKey)
    requires Proper(es)
  { exists j :: 0 <= j < |es| && SentTcp(cfg, At(cfg, es, j), es[j], k) }

  ghost predicate HadOutboundUdp(cfg: L1Config, es: Trace, k: FlowKey)
    requires Proper(es)
  { exists j :: 0 <= j < |es| && SentUdp(cfg, At(cfg, es, j), es[j], k) }

  predicate ServersOff(e: Event) {
    e.Rx? && e.pkt.pol.Some? ==> !e.pkt.pol.value.f.allowInboundServers && !e.pkt.pol.value.f.allowInboundSyn
  }

  /** Every TCP entry, and every cached TCP slot, belongs to a key the trusted
      side has used. */
  ghost predicate TcpOwned(cfg: L1Config, es: Trace)
    requires Proper(es)
  {
    var c := Run(cfg, es);
    && (forall k :: k in c.flows ==> HadOutboundTcp(cfg, es, k))
    && (forall s :: s in c.l1 && c.l1[s].state == Est ==> HadOutboundTcp(cfg, es, c.l1[s].key))
  }

  ghost predicate UdpOwned(cfg: L1Config, es: Trace)
    requires Proper(es)
  {
    var c := Run(cfg, es);
    && (forall k :: k in c.udp ==> HadOutboundUdp(cfg, es, k))
    && (forall s :: s in c.l1 && c.l1[s].state == StUdp ==> HadOutboundUdp(cfg, es, c.l1[s].key))
  }

  lemma OwnedLater(cfg: L1Config, es: Trace, k: FlowKey)
    requires Proper(es) && es != []
    ensures HadOutboundTcp(cfg, Front(es), k) ==> HadOutboundTcp(cfg, es, k)
    ensures HadOutboundUdp(cfg, Front(es), k) ==> HadOutboundUdp(cfg, es, k)
    ensures SentTcp(cfg, Run(cfg, Front(es)), Last(es), k) ==> HadOutboundTcp(cfg, es, k)
    ensures SentUdp(cfg, Run(cfg, Front(es)), Last(es), k) ==> HadOutboundUdp(cfg, es, k)
  {
    forall j | 0 <= j < |Front(es)|
      ensures At(cfg, Front(es), j) == At(cfg, es, j)
    {
      assert Front(es)[..j] == es[..j];
    }
    AtEnd(cfg, es);
  }

  /** An inbound packet neither creates an entry nor fills a slot for a key that
      has no entry, unless it is an admitted SYN. */
  lemma InboundCreatesNothing(e: Option<FlowVal>, bkt: SynLimit.Buckets, pkt: Packet, k: FlowKey, use: bool)
    requires pkt.p.Tcp? && !pkt.trusted && e.None?
    requires pkt.pol.Some? ==> !(LoneSyn(pkt.p.h.flags) && SynPolicy(pkt.pol.value, k))
    ensures var l := TcpLocal(e, bkt, pkt, k, use); l.entry.None? && !l.fill && !l.decision.Pass?
  {
  }

  /** An outbound packet that leaves an entry where there was none was forwarded. */
  lemma CreatorPasses(bkt: SynLimit.Buckets, pkt: Packet, k: FlowKey, use: bool)
    requires pkt.p.Tcp? && pkt.trusted && TcpLocal(None, bkt, pkt, k, use).entry.Some?
    ensures pkt.pol.Some? && !FlagsRefused(pkt) && TcpLocal(None, bkt, pkt, k, use).decision.Pass?
  {
  }

  lemma OwnedFlow(cfg: L1Config, c: Core, e: Event, k: FlowKey)
    requires Valid(e) && ServersOff(e) && k in Step(cfg, c, e).flows
    ensures k in c.flows || SentTcp(cfg, c, e, k)
  {
    FlowStep(cfg, c, e, k);
    if k !in c.flows && IsTcp(e, k) {
      if e.pkt.trusted {
        CreatorPasses(c.bkt, e.pkt, k, UsesL1(cfg, e.pkt));
      } else {
        InboundCreatesNothing(None, c.bkt, e.pkt, k, UsesL1(cfg, e.pkt));
      }
    }
  }

  lemma OwnedUdp(cfg: L1Config, c: Core, e: Event, k: FlowKey)
    requires Valid(e) && k in Step(cfg, c, e).udp
    ensures k in c.udp || SentUdp(cfg, c, e, k)
  {
    UdpFlowStep(cfg, c, e, k);
  }

  /** With both inbound-server policies off, only forwarded packets of the trusted
      side create TCP state, whatever is evicted, swept or fails to insert. */
  lemma {:induction false} NoCreateTcp(cfg: L1Config, es: Trace)
    requires Proper(es) && forall i :: 0 <= i < |es| ==> ServersOff(es[i])
    ensures TcpOwned(cfg, es)
  {
    if es != [] {
      NoCreateTcp(cfg, Front(es));
      var c, e := Run(cfg, Front(es)), Last(es);
      forall k | k in Step(cfg, c, e).flows
        ensures HadOutboundTcp(cfg, es, k)
      {
        OwnedFlow(cfg, c, e, k);
        OwnedLater(cfg, es, k);
      }
      forall s | s in Step(cfg, c, e).l1 && Step(cfg, c, e).l1[s].state == Est
        ensures HadOutboundTcp(cfg, es, Step(cfg, c, e).l1[s].key)
      {
        var k := Step(cfg, c, e).l1[s].key;
        SlotStep(cfg, c, e, s);
        FillsTcpEntry(cfg, c, e, k);
        OwnedLater(cfg, es, k);
      }
    }
  }

  /** Under every policy, only forwarded packets of the trusted side create UDP state. */
  lemma {:induction false} NoCreateUdp(cfg: L1Config, es: Trace)
    requires Proper(es)
    ensures UdpOwned(cfg, es)
  {
    if es != [] {
      NoCreateUdp(cfg, Front(es));
      var c, e := Run(cfg, Front(es)), Last(es);
      forall k | k in Step(cfg, c, e).udp
        ensures HadOutboundUdp(cfg, es, k)
      {
        OwnedUdp(cfg, c, e, k);
        OwnedLater(cfg, es, k);
      }
      forall s | s in Step(cfg, c, e).l1 && Step(cfg, c, e).l1[s].state == StUdp
        ensures HadOutboundUdp(cfg, es, Step(cfg, c, e).l1[s].key)
      {
        var k := Step(cfg, c, e).l1[s].key;
        SlotStep(cfg, c, e, s);
        FillsUdpEntry(cfg, c, e, k);
        OwnedLater(cfg, es, k);
      }
    }
  }

  /** Every inbound TCP packet that passes answers an earlier outbound one that was
      not itself refused. */
  lemma AdmittedTcpHasOutbound(cfg: L1Config, es: Trace, k: FlowKey)
    requires Proper(es) && es != [] && forall i :: 0 <= i < |es| ==> ServersOff(es[i])
    requires IsTcp(Last(es), k) && !Last(es).pkt.trusted && Decide(cfg, es).Pass?
    ensures HadOutboundTcp(cfg, Front(es), k)
  {
    NoCreateTcp(cfg, Front(es));
    var c, pkt := Run(cfg, Front(es)), Last(es).pkt;
    if !TcpHit(cfg, c, pkt, k) && k !in c.flows {
      InboundCreatesNothing(None, c.bkt, pkt, k, UsesL1(cfg, pkt));
    }
  }

  /** Every inbound datagram that filtering admits answers an earlier outbound one,
      or goes to an allowlisted server. */
  lemma AdmittedUdpHasOutbound(cfg: L1Config, es: Trace, k: FlowKey)
    requires Proper(es) && es != []
    requires IsUdp(Last(es), k) && !Last(es).pkt.trusted && UdpTracked(Last(es).pkt)
    requires Decide(cfg, es).Pass?
    ensures HadOutboundUdp(cfg, Front(es), k) || UdpAllowlisted(Last(es).pkt, k)
  {
    NoCreateUdp(cfg, Front(es));
  }

  predicate UdpAllowlisted(pkt: Packet, k: FlowKey) {
    pkt.pol.Some? && pkt.pol.value.f.allowInboundServers && Server(k.hostIp, k.hostPort) in pkt.pol.value.servers
  }
}
