/** The data plane as it runs: the maps are fields that the handlers update in place
    (bpf/filter.bpf.c). Each method is proved to compute the step of module Machine. */
module DataPlane {
  import opened Types
  import opened Clock
  import opened Flows
  import opened Frame
  import opened SynLimit
  import opened Machine
  import opened Account
  import opened Checksum
  import opened RstReply
  import opened RstReparse

  class Maps {
    var flows: FlowTable
    var udpFlows: FlowTable
    var l1cache: L1Cache
    var synbkt: Buckets
    var global: Stats
    var vlans: seq<VlanStat>
    var dropReason: seq<nat>

    constructor ()
      ensures Tables() == EMPTY && Counters() == Blank()
    {
      flows, udpFlows, l1cache, synbkt := map[], map[], map[], map[];
      var b := Blank();
      global, vlans, dropReason := b.g, b.vlan, b.reasons;
    }

    function Tables(): Core
      reads this
    { Core(flows, udpFlows, l1cache, synbkt) }

    function Counters(): Books
      reads this
    { Books(global, vlans, dropReason) }

    // ---- small helpers ----

    method StatReason(reason: Reason)
      requires WellKept(Counters())
      modifies this`dropReason
      ensures Counters() == Counted(old(Counters()), reason)
    {
      dropReason := dropReason[reason := dropReason[reason] + 1];
    }

    /** Refresh the stamp of an entry, only when the tick has changed. */
    method Touch(k: FlowKey, now: nat)
      requires k in flows
      modifies this`flows
      ensures flows == old(flows)[k := old(flows)[k].(lastSeen := now)]
    {
      if flows[k].lastSeen != now {
        flows := flows[k := flows[k].(lastSeen := now)];
      }
    }

    method TouchUdp(k: FlowKey, now: nat)
      requires k in udpFlows
      modifies this`udpFlows
      ensures udpFlows == old(udpFlows)[k := old(udpFlows)[k].(lastSeen := now)]
    {
      if udpFlows[k].lastSeen != now {
        udpFlows := udpFlows[k := udpFlows[k].(lastSeen := now)];
      }
    }

    /** Write an entry, or count the failure and leave the table alone. */
    method Update(k: FlowKey, nv: FlowVal, ok: bool)
      requires WellKept(Counters())
      modifies this`flows, this`dropReason
      ensures flows == if ok then old(flows)[k := nv] else old(flows)
      ensures Counters() == if ok then old(Counters()) else Counted(old(Counters()), RSN_MAP_FAIL)
    {
      if ok {
        flows := flows[k := nv];
      } else {
        StatReason(RSN_MAP_FAIL);
      }
    }

    // ---- L1 cache ----

    /** Write-through; the usual revalidation of the same entry only moves its stamp. */
    method L1Put(slot: (nat, nat), k: FlowKey, st: FlowState, now: nat)
      modifies this`l1cache
      ensures l1cache == old(l1cache)[slot := L1Entry(k, now, st)]
    {
      if slot in l1cache && l1cache[slot].state == st && l1cache[slot].key == k {
        if l1cache[slot].lastSeen != now {
          l1cache := l1cache[slot := l1cache[slot].(lastSeen := now)];
        }
        return;
      }
      l1cache := l1cache[slot := L1Entry(k, now, st)];
    }

    // ---- outbound TCP ----

    method HandleOutbound(f: Features, k: FlowKey, flags: u8, seqNo: u32, now: nat, ok: bool)
      returns (v: Verdict, cache: bool)
      requires WellKept(Counters())
      modifies this`flows, this`dropReason
      ensures var o := OutTcp(f, Lookup(old(flows), k), Segment(flags, seqNo), now, ok);
              && v == o.verdict && cache == o.cache && flows == Store(old(flows), k, o.entry)
              && Counters() == if o.mapFail then Counted(old(Counters()), RSN_MAP_FAIL) else old(Counters())
    {
      v, cache := Forward, false;
      if LoneSyn(flags) {
        if k !in flows {
          Update(k, FlowVal(seqNo, now, SynSent, true, false), ok);
        } else {
          flows := flows[k := flows[k].(state := SynSent, clientIsn := seqNo, isnValid := true, closedOut := false)];
          Touch(k, now);
        }
        return;
      }
      if Types.Rst(flags) {
        if k in flows {
          flows := flows[k := flows[k].(state := Closing, closedOut := true)];
          Touch(k, now);
        }
        return;
      }
      if k in flows && !Expired(f, flows[k], now) {
        if Fin(flags) {
          flows := flows[k := flows[k].(state := Closing, closedOut := true)];
        } else if flows[k].state == Closing {
          if !flows[k].closedOut {
            flows := flows[k := flows[k].(state := Est)];
            cache := true;
          }
        } else if flows[k].state == SynRcvd && Syn(flags) {
          // the server's SYN-ACK: stay half-open until the client's ACK
        } else {
          flows := flows[k := flows[k].(state := Est)];
          cache := true;
        }
        Touch(k, now);
        return;
      }
      if f.oosStrict {
        v := Refuse(RSN_OOS_OUT);
        return;
      }
      var nv := FlowVal(0, now, if Fin(flags) then Closing else Est, false, Fin(flags));
      Update(k, nv, ok);
      cache := ok && !Fin(flags);
    }

    // ---- token buckets ----

    /** Other CPUs get at the bucket before access `n` of the call that `o` is about. */
    method OthersMove(key: u32, o: Others, n: nat)
      requires key in synbkt
      modifies this`synbkt
      ensures synbkt == old(synbkt)[key := Found(old(synbkt)[key], o, n)]
    {
      if n < |o| && o[n].Some? {
        synbkt := synbkt[key := o[n].value];
      } else {
        assert synbkt[key := synbkt[key]] == synbkt;
      }
    }

    /** The refill of one charge: win the interval by a CAS on the stamp, then add the
        credit clamped to the headroom. Answers the number of the next access. */
    method Refill(key: u32, rate: u64, tnow: u64, burst: u64, o: Others) returns (next: nat)
      requires key in synbkt && burst == Burst(rate)
      modifies this`synbkt
      ensures var p := RefilledAmid(old(synbkt)[key], rate, tnow, o);
              synbkt == old(synbkt)[key := p.b] && next == p.next
    {
      OthersMove(key, o, 0);
      var last := synbkt[key].ts;
      next := 1;
      if tnow > last && tnow - last >= MIN_INTERVAL {
        OthersMove(key, o, 1);
        next := 2;
        if synbkt[key].ts == last {
          synbkt := synbkt[key := synbkt[key].(ts := tnow)];
          next := Add(key, Credit(tnow - last, rate), burst, o, 2);
        }
      }
    }

    method Add(key: u32, credit: u64, burst: u64, o: Others, n: nat) returns (next: nat)
      requires key in synbkt
      modifies this`synbkt
      ensures var p := AddedAmid(old(synbkt)[key], credit, burst, o, n);
              synbkt == old(synbkt)[key := p.b] && next == p.next
    {
      OthersMove(key, o, n);
      var cur := synbkt[key].tokens;
      next := n + 1;
      if cur < burst {
        var add, room := credit, burst - cur;
        if add > room {
          add := room;
        }
        if add != 0 {
          OthersMove(key, o, n + 1);
          synbkt := synbkt[key := synbkt[key].(tokens := (synbkt[key].tokens + add) % U64)];
          next := n + 2;
        }
      }
    }

    /** The spend loop: four tries to pay by a CAS on the tokens, then fail open. */
    method Spend(key: u32, o: Others, n: nat) returns (pass: bool)
      requires key in synbkt
      modifies this`synbkt
      ensures var (b, paid) := SpentAmid(old(synbkt)[key], o, n, 0);
              synbkt == old(synbkt)[key := b] && pass == paid
    {
      assert synbkt[key := synbkt[key]] == synbkt;
      for i := 0 to TRIES
        invariant key in synbkt && synbkt == old(synbkt)[key := synbkt[key]]
        invariant SpentAmid(synbkt[key], o, n + 2 * i, i) == SpentAmid(old(synbkt)[key], o, n, 0)
      {
        OthersMove(key, o, n + 2 * i);
        var cur := synbkt[key].tokens;
        if cur < COST {
          return false;
        }
        OthersMove(key, o, n + 2 * i + 1);
        if synbkt[key].tokens == cur {
          synbkt := synbkt[key := synbkt[key].(tokens := cur - COST)];
          return true;
        }
      }
      OthersMove(key, o, n + 2 * TRIES);
      return true;
    }

    /** One charge, with other CPUs at the bucket before any of its accesses. */
    method TbktCharge(key: u32, rate: u64, tnow: u64, ok: bool, o: Others) returns (pass: bool)
      requires 1 <= rate && Burst(rate) < U64
      modifies this`synbkt
      ensures (synbkt, pass) == ChargeKeyAmid(old(synbkt), key, rate, tnow, ok, o)
      ensures o == QUIET ==> (synbkt, pass) == ChargeKey(old(synbkt), key, rate, tnow, ok)
    {
      QuietChargeKey(synbkt, key, rate, tnow, ok);
      var burst: u64 := Burst(rate);
      if key !in synbkt {
        assert synbkt - {key} == synbkt;
        if ok {
          synbkt := synbkt[key := Bucket(burst - COST, tnow)];
        }
        return true;
      }
      var next := Refill(key, rate, tnow, burst, o);
      pass := Spend(key, o, next);
      assert synbkt == old(synbkt)[key := ChargeAmid(old(synbkt)[key], rate, tnow, o).0];
    }

    /** The source's bucket, then, only if that admits, the global one. */
    method SynAdmitted(src: u32, t1: u64, t2: u64, ok: Inserts, o1: Others, o2: Others) returns (pass: bool)
      modifies this`synbkt
      ensures (synbkt, pass) == ChargeSynAmid(old(synbkt), src, t1, t2, ok.srcBucket, ok.globalBucket, o1, o2)
    {
      pass := TbktCharge(src, SOURCE_RATE, t1, ok.srcBucket, o1);
      if pass {
        pass := TbktCharge(GLOBAL_KEY, GLOBAL_RATE, t2, ok.globalBucket, o2);
      }
    }

    // ---- inbound TCP ----

    method HandleInbound(pol: Policy, k: FlowKey, flags: u8, ackNo: u32, now: nat, ns: u64, ok: Inserts)
      returns (v: Verdict, cache: bool)
      requires WellKept(Counters())
      modifies this`flows, this`dropReason, this`synbkt
      ensures var (bkt, admitted) := AdmitSyn(old(synbkt), pol, k, flags, ns, ok);
              var o := InTcp(pol.f, Lookup(old(flows), k), Segment(flags, ackNo), now, admitted, ok.flow);
              && v == o.verdict && cache == o.cache && flows == Store(old(flows), k, o.entry) && synbkt == bkt
              && Counters() == if o.mapFail then Counted(old(Counters()), RSN_MAP_FAIL) else old(Counters())
    {
      v, cache := Forward, false;
      StoreSame(flows, k);
      var live := k in flows && !Expired(pol.f, flows[k], now);
      if SynAck(flags) {
        v := InboundSynAck(k, ackNo, now, live);
      } else if LoneSyn(flags) {
        v := InboundSyn(pol, k, flags, now, ns, live, ok);
      } else if Types.Rst(flags) {
        v := InboundRst(k, flags, ackNo, now, live);
      } else if !live {
        v := Refuse(RSN_OOS_IN);
      } else {
        if Fin(flags) {
          flows := flows[k := flows[k].(state := Closing)];
        } else if flows[k].state == SynRcvd {
          flows := flows[k := flows[k].(state := Est)];
        }
        Touch(k, now);
        cache := flows[k].state == Est;
      }
    }

    method InboundSynAck(k: FlowKey, ackNo: u32, now: nat, live: bool) returns (v: Verdict)
      requires live ==> k in flows
      modifies this`flows
      ensures !live ==> v == Refuse(RSN_UNSOL_SYNACK) && flows == old(flows)
      ensures live ==> var o := InSynAck(old(flows)[k], ackNo, now);
                       v == o.verdict && flows == Store(old(flows), k, o.entry) && !o.cache && !o.mapFail
    {
      if !live {
        return Refuse(RSN_UNSOL_SYNACK);
      }
      assert flows[k := flows[k]] == flows;
      if flows[k].isnValid {
        if ackNo != (flows[k].clientIsn + 1) % U32 {
          return Refuse(RSN_BAD_ISN);
        }
        if flows[k].state == SynSent {
          flows := flows[k := flows[k].(state := Est)];
        }
      } else if flows[k].state == SynSent {
        return Refuse(RSN_BAD_ISN);
      }
      Touch(k, now);
      return Forward;
    }

    method InboundSyn(pol: Policy, k: FlowKey, flags: u8, now: nat, ns: u64, live: bool, ok: Inserts)
      returns (v: Verdict)
      requires WellKept(Counters()) && LoneSyn(flags) && (live ==> k in flows)
      modifies this`flows, this`dropReason, this`synbkt
      ensures var (bkt, admitted) := AdmitSyn(old(synbkt), pol, k, flags, ns, ok);
              var insert := admitted && (!live || old(flows)[k].state == Closing);
              && synbkt == bkt
              && v == (if admitted then Forward else Refuse(RSN_INBOUND_SYN))
              && flows == (if insert && ok.flow then old(flows)[k := Fresh(SynRcvd, now)] else old(flows))
              && Counters() == if insert && !ok.flow then Counted(old(Counters()), RSN_MAP_FAIL) else old(Counters())
    {
      if !pol.f.allowInboundSyn {
        if !pol.f.allowInboundServers {
          return Refuse(RSN_INBOUND_SYN);
        }
        if Server(k.hostIp, k.hostPort) !in pol.servers {
          return Refuse(RSN_INBOUND_SYN);
        }
      }
      QuietChargeSyn(synbkt, k.inetIp, ns, ok.srcBucket, ok.globalBucket);
      var pass := SynAdmitted(k.inetIp, ns, ns, ok, QUIET, QUIET);
      if !pass {
        return Refuse(RSN_INBOUND_SYN);
      }
      if !live || flows[k].state == Closing {
        Update(k, Fresh(SynRcvd, now), ok.flow);
      }
      return Forward;
    }

    method InboundRst(k: FlowKey, flags: u8, ackNo: u32, now: nat, live: bool) returns (v: Verdict)
      requires live ==> k in flows
      modifies this`flows
      ensures !live ==> v == Refuse(RSN_OOS_RST) && flows == old(flows)
      ensures live ==> var o := InRst(old(flows)[k], Segment(flags, ackNo), now);
                       v == o.verdict && flows == Store(old(flows), k, o.entry) && !o.cache && !o.mapFail
    {
      if !live {
        return Refuse(RSN_OOS_RST);
      }
      assert flows[k := flows[k]] == flows;
      if flows[k].state == SynSent && flows[k].isnValid && (!Ack(flags) || ackNo != (flows[k].clientIsn + 1) % U32) {
        return Refuse(RSN_OOS_RST);
      }
      flows := flows[k := flows[k].(state := Closing)];
      Touch(k, now);
      return Forward;
    }

    // ---- UDP ----

    method HandleOutboundUdp(k: FlowKey, now: nat, ok: bool) returns (v: Verdict, cache: bool)
      requires WellKept(Counters())
      modifies this`udpFlows, this`dropReason
      ensures var o := OutUdp(Lookup(old(udpFlows), k), now, ok);
              && v == o.verdict && cache == o.cache && udpFlows == Store(old(udpFlows), k, o.entry)
              && Counters() == if o.mapFail then Counted(old(Counters()), RSN_MAP_FAIL) else old(Counters())
    {
      v, cache := Forward, false;
      if k !in udpFlows {
        if !ok {
          StatReason(RSN_MAP_FAIL);
          assert udpFlows - {k} == udpFlows;
          return;
        }
        udpFlows := udpFlows[k := FlowVal(0, now, StUdp, false, false)];
      } else {
        TouchUdp(k, now);
      }
      cache := true;
    }

    method HandleInboundUdp(pol: Policy, k: FlowKey, now: nat) returns (v: Verdict, cache: bool)
      modifies this`udpFlows
      ensures var o := InUdp(pol.f, Lookup(old(udpFlows), k), now, Server(k.hostIp, k.hostPort) in pol.servers);
              v == o.verdict && cache == o.cache && udpFlows == Store(old(udpFlows), k, o.entry) && !o.mapFail
    {
      StoreSame(udpFlows, k);
      if k in udpFlows && !Expired(pol.f, udpFlows[k], now) {
        TouchUdp(k, now);
        return Forward, true;
      }
      if pol.f.allowInboundServers && Server(k.hostIp, k.hostPort) in pol.servers {
        return Forward, false;
      }
      return Refuse(RSN_UDP_OOS), false;
    }

    // ---- disposal ----

    method DoForward(len: nat) returns (act: Action)
      modifies this`global
      ensures act == Redirect && Counters() == Redirected(old(Counters()), len)
    {
      global := global.(redirPkts := global.redirPkts + 1, redirBytes := global.redirBytes + len);
      act := Redirect;
    }

    method ForwardHit(len: nat) returns (act: Action)
      modifies this`global
      ensures act == Redirect && Counters() == Redirected(Noted(old(Counters()), CacheHit, len), len)
    {
      global := global.(l1Hits := global.l1Hits + 1);
      act := DoForward(len);
    }

    method DoDrop(f: Features, vid: u16, reason: Reason, len: nat) returns (act: Action)
      requires WellKept(Counters()) && vid < VLANS
      modifies this`global, this`vlans, this`dropReason
      ensures act == if f.enforce then Drop else Redirect
      ensures Counters() == var b := Counted(old(Counters()), reason);
                            if f.enforce then Dropped(b, vid, len) else Redirected(b, len)
    {
      StatReason(reason);
      if f.enforce {
        global := global.(dropPkts := global.dropPkts + 1, dropBytes := global.dropBytes + len);
        vlans := vlans[vid := vlans[vid].(drops := vlans[vid].drops + 1)];
        return Drop;
      }
      act := DoForward(len);
    }

    /** A parse failure resolves the policy only now; without one the frame is let through. */
    method DoDropLazy(pol: Option<Policy>, vid: u16, reason: Reason, len: nat) returns (act: Action)
      requires WellKept(Counters()) && vid < VLANS
      modifies this`global, this`vlans, this`dropReason
      ensures pol.None? ==> act == Redirect && Counters() == old(Counters())
      ensures pol.Some? ==> act == if pol.value.f.enforce then Drop else Redirect
      ensures pol.Some? ==> Counters() == var b := Counted(old(Counters()), reason);
                                          if pol.value.f.enforce then Dropped(b, vid, len) else Redirected(b, len)
    {
      if pol.None? {
        return Redirect;
      }
      act := DoDrop(pol.value.f, vid, reason, len);
    }

    method CountReset(reason: Reason, len: nat)
      requires WellKept(Counters())
      modifies this`global, this`dropReason
      ensures Counters() == Answered(Counted(old(Counters()), reason), len)
    {
      StatReason(reason);
      global := global.(rstPkts := global.rstPkts + 1, rstBytes := global.rstBytes + len);
    }

    /** Answer an enforced TCP drop on the untrusted side with a reset, or drop it, also
        when no reset can be built. */
    method DoDropTcp(frame: array<u8>, f: Features, trusted: bool, vid: u16, reason: Reason, len: nat, ip: nat, e: Endian)
      returns (act: Action)
      requires WellKept(Counters()) && vid < VLANS
      requires ETH_LEN <= ip && ip + IP_LEN <= frame.Length && IP_LEN <= Ihl(frame[..], ip)
      modifies this`global, this`vlans, this`dropReason, frame
      ensures act == Transmit <==> !trusted && f.enforce && f.rejectWithRst && Rewritable(old(frame[..]), ip)
      ensures act != Transmit ==> act == if f.enforce then Drop else Redirect
      ensures frame[..] == if act == Transmit then RstFrame(old(frame[..]), ip, e) else old(frame[..])
      ensures Counters() == var b := Counted(old(Counters()), reason);
                            if act == Transmit then Answered(b, len)
                            else if f.enforce then Dropped(b, vid, len) else Redirected(b, len)
    {
      if !trusted && f.enforce && f.rejectWithRst {
        var sent := BuildAndSendRst(frame, ip, e);
        if sent {
          CountReset(reason, len);
          return Transmit;
        }
      }
      act := DoDrop(f, vid, reason, len);
    }

    /** Receive accounting: every packet, keyed by outer VLAN id. */
    method CountRx(vid: u16, len: nat)
      requires WellKept(Counters()) && vid < VLANS
      modifies this`global, this`vlans
      ensures Counters() == Receipt(old(Counters()), vid, len)
    {
      global := global.(rxPkts := global.rxPkts + 1, rxBytes := global.rxBytes + len);
      vlans := vlans[vid := vlans[vid].(pkts := vlans[vid].pkts + 1, bytes := vlans[vid].bytes + len)];
    }

    // ---- TCP and UDP behind the parser ----

    /** One of the two handlers, whichever the port's role selects. */
    method HandleTcp(pkt: Packet, pol: Policy, k: FlowKey) returns (v: Verdict, cache: bool)
      requires WellKept(Counters()) && pkt.p.Tcp?
      modifies this`flows, this`dropReason, this`synbkt
      ensures var (o, bkt) := SlowTcp(Lookup(old(flows), k), old(synbkt), pkt, k, pol);
              && v == o.verdict && cache == o.cache && flows == Store(old(flows), k, o.entry) && synbkt == bkt
              && Counters() == if o.mapFail then Counted(old(Counters()), RSN_MAP_FAIL) else old(Counters())
    {
      var h, now := pkt.p.h, Tick(pkt.ns);
      if pkt.trusted {
        v, cache := HandleOutbound(pol.f, k, h.flags, h.seqNo, now, pkt.ok.flow);
      } else {
        v, cache := HandleInbound(pol, k, h.flags, h.ackNo, now, pkt.ns, pkt.ok);
      }
    }

    /** Act on a handler's verdict: fill the slot and forward, or drop. */
    method ConcludeTcp(frame: array<u8>, pkt: Packet, f: Features, v: Verdict, fill: bool, slot: (nat, nat), k: FlowKey, e: Endian)
      returns (act: Action)
      requires WellKept(Counters()) && pkt.p.Tcp? && WellFormed(pkt.p) && Rewritable(frame[..], pkt.p.h.ip)
      requires pkt.pol.Some? && pkt.pol.value.f == f && (fill ==> v.Forward?)
      modifies this`l1cache, this`global, this`vlans, this`dropReason, frame
      ensures l1cache == Fill(old(l1cache), fill, slot, L1Entry(k, Tick(pkt.ns), Est))
      ensures act == ActionOf(pkt, DecisionOf(v, true))
      ensures Counters() == Settle(old(Counters()), pkt, DecisionOf(v, true))
      ensures FrameAfter(old(frame[..]), frame[..], act, pkt.p.h.ip, e)
    {
      match v
      case Forward =>
        if fill {
          L1Put(slot, k, Est, Tick(pkt.ns));
        }
        act := DoForward(pkt.len);
      case Refuse(reason) =>
        act := DoDropTcp(frame, f, pkt.trusted, pkt.p.vid, reason, pkt.len, pkt.p.h.ip, e);
    }

    /** A TCP packet that missed the cache and passed the flag test. */
    method TcpMiss(frame: array<u8>, pkt: Packet, k: FlowKey, use: bool, slot: (nat, nat), e: Endian) returns (act: Action)
      requires WellKept(Counters()) && pkt.p.Tcp? && WellFormed(pkt.p) && Rewritable(frame[..], pkt.p.h.ip)
      requires pkt.pol.Some? && !FlagsRefused(pkt)
      modifies this, frame
      ensures var l := TcpLocal(Lookup(old(flows), k), old(synbkt), pkt, k, use);
              && Tables() == Core(Store(old(flows), k, l.entry), old(udpFlows),
                                  Fill(old(l1cache), l.fill, slot, L1Entry(k, Tick(pkt.ns), Est)), l.bkt)
              && act == ActionOf(pkt, l.decision)
              && Counters() == Settle(if l.mapFail then Counted(old(Counters()), RSN_MAP_FAIL) else old(Counters()), pkt, l.decision)
      ensures FrameAfter(old(frame[..]), frame[..], act, pkt.p.h.ip, e)
    {
      var v, cache := HandleTcp(pkt, pkt.pol.value, k);
      OnlyForwardsAreCached(Lookup(old(flows), k), old(synbkt), pkt, k, pkt.pol.value);
      act := ConcludeTcp(frame, pkt, pkt.pol.value.f, v, use && cache, slot, k, e);
    }

    /** The TCP branch: policy only when it is needed, the cache, the handlers. */
    method FilterTcp(cfg: L1Config, frame: array<u8>, pkt: Packet, e: Endian) returns (act: Action)
      requires WellKept(Counters()) && pkt.p.Tcp? && WellFormed(pkt.p) && Rewritable(frame[..], pkt.p.h.ip)
      modifies this, frame
      ensures var r := TcpStep(cfg, old(Tables()), pkt);
              && Tables() == r.core && act == ActionOf(pkt, r.decision)
              && Counters() == Settled(old(Counters()), pkt, r)
      ensures FrameAfter(old(frame[..]), frame[..], act, pkt.p.h.ip, e)
    {
      var p, flags := pkt.p, pkt.p.h.flags;
      var l1Ok := cfg.on && !Syn(flags) && !Fin(flags) && !Types.Rst(flags) && Ack(flags);
      var k := KeyOf(pkt.trusted, p);
      StoreSame(flows, k);
      if !l1Ok {
        if pkt.pol.None? {
          return Redirect;
        }
        if pkt.pol.value.f.dropBadFlags && BadFlags(flags) {
          act := DoDropTcp(frame, pkt.pol.value.f, pkt.trusted, p.vid, RSN_BAD_FLAGS, pkt.len, p.h.ip, e);
          return;
        }
      }
      act := CachedOrMiss(cfg, frame, pkt, k, l1Ok, e);
    }

    /** Past the flag test: answer from the cache, or look the policy up and handle. */
    method CachedOrMiss(cfg: L1Config, frame: array<u8>, pkt: Packet, k: FlowKey, l1Ok: bool, e: Endian)
      returns (act: Action)
      requires WellKept(Counters()) && pkt.p.Tcp? && WellFormed(pkt.p) && Rewritable(frame[..], pkt.p.h.ip)
      requires k == KeyOf(pkt.trusted, pkt.p) && l1Ok == UsesL1(cfg, pkt) && !FlagsRefused(pkt)
      modifies this, frame
      ensures var r := TcpStep(cfg, old(Tables()), pkt);
              && Tables() == r.core && act == ActionOf(pkt, r.decision)
              && Counters() == Settled(old(Counters()), pkt, r)
      ensures FrameAfter(old(frame[..]), frame[..], act, pkt.p.h.ip, e)
    {
      StoreSame(flows, k);
      var now, slot := Tick(pkt.ns), (pkt.cpu, cfg.index(k));
      if l1Ok && slot in l1cache && l1cache[slot] == L1Entry(k, now, Est) {
        act := ForwardHit(pkt.len);
        return;
      }
      if pkt.pol.None? {
        return Redirect;
      }
      act := TcpMiss(frame, pkt, k, l1Ok, slot, e);
    }

    method FilterUdp(cfg: L1Config, pkt: Packet) returns (act: Action)
      requires WellKept(Counters()) && WellFormed(pkt.p) && pkt.p.Udp?
      modifies this
      ensures var r := UdpStep(cfg, old(Tables()), pkt);
              && Tables() == r.core && act == ActionOf(pkt, r.decision)
              && Counters() == Settled(old(Counters()), pkt, r)
    {
      var k := KeyOf(pkt.trusted, pkt.p);
      StoreSame(udpFlows, k);
      if pkt.pol.None? {
        return Redirect;
      }
      if !pkt.pol.value.f.filterUdp {
        global := global.(nontcpPkts := global.nontcpPkts + 1, nontcpBytes := global.nontcpBytes + pkt.len);
        act := DoForward(pkt.len);
        return;
      }
      var now, slot := Tick(pkt.ns), (pkt.cpu, cfg.index(k));
      if cfg.on && slot in l1cache && l1cache[slot] == L1Entry(k, now, StUdp) {
        act := ForwardHit(pkt.len);
        return;
      }
      act := UdpMiss(pkt, k, cfg.on, slot);
    }

    /** A datagram that missed the cache. */
    method UdpMiss(pkt: Packet, k: FlowKey, use: bool, slot: (nat, nat)) returns (act: Action)
      requires WellKept(Counters()) && pkt.p.Udp? && WellFormed(pkt.p) && UdpTracked(pkt)
      modifies this
      ensures var l := UdpLocal(Lookup(old(udpFlows), k), old(synbkt), pkt, k, use);
              && Tables() == Core(old(flows), Store(old(udpFlows), k, l.entry),
                                  Fill(old(l1cache), l.fill, slot, L1Entry(k, Tick(pkt.ns), StUdp)), old(synbkt))
              && act == ActionOf(pkt, l.decision)
              && Counters() == Settle(if l.mapFail then Counted(old(Counters()), RSN_MAP_FAIL) else old(Counters()), pkt, l.decision)
    {
      var v, cache := HandleUdp(pkt, pkt.pol.value, k);
      match v
      case Forward =>
        if use && cache {
          L1Put(slot, k, StUdp, Tick(pkt.ns));
        }
        act := DoForward(pkt.len);
      case Refuse(reason) =>
        act := DoDrop(pkt.pol.value.f, pkt.p.vid, reason, pkt.len);
    }

    method HandleUdp(pkt: Packet, pol: Policy, k: FlowKey) returns (v: Verdict, cache: bool)
      requires WellKept(Counters())
      modifies this`udpFlows, this`dropReason
      ensures var o := SlowUdp(Lookup(old(udpFlows), k), pkt, k, pol);
              && v == o.verdict && cache == o.cache && udpFlows == Store(old(udpFlows), k, o.entry)
              && Counters() == if o.mapFail then Counted(old(Counters()), RSN_MAP_FAIL) else old(Counters())
    {
      if pkt.trusted {
        v, cache := HandleOutboundUdp(k, Tick(pkt.ns), pkt.ok.flow);
      } else {
        v, cache := HandleInboundUdp(pol, k, Tick(pkt.ns));
      }
    }

    // ---- the program ----

    /** Drops for policy reasons at L2 and L3 never answer with a reset. */
    method Police(pol: Option<Policy>, drop: bool, vid: u16, reason: Reason, len: nat, kind: Kind) returns (act: Action)
      requires WellKept(Counters()) && vid < VLANS && kind in {Inspected, PassNonIp}
      modifies this`global, this`vlans, this`dropReason
      ensures pol.None? ==> act == Redirect && Counters() == old(Counters())
      ensures pol.Some? && drop ==> act == if pol.value.f.enforce then Drop else Redirect
      ensures pol.Some? && drop ==> Counters() == var b := Counted(old(Counters()), reason);
                                                  if pol.value.f.enforce then Dropped(b, vid, len) else Redirected(b, len)
      ensures pol.Some? && !drop ==> act == Redirect && Counters() == Redirected(Noted(old(Counters()), kind, len), len)
    {
      if pol.None? {
        return Redirect;
      }
      if drop {
        act := DoDrop(pol.value.f, vid, reason, len);
        return;
      }
      if kind == PassNonIp {
        global := global.(nonipPkts := global.nonipPkts + 1, nonipBytes := global.nonipBytes + len);
      }
      act := DoForward(len);
    }

    method PassNonTcpUdp(len: nat) returns (act: Action)
      modifies this`global
      ensures act == Redirect && Counters() == Redirected(Noted(old(Counters()), PassNonTcp, len), len)
    {
      global := global.(nontcpPkts := global.nontcpPkts + 1, nontcpBytes := global.nontcpBytes + len);
      act := DoForward(len);
    }

    /** Frames that touch no flow state. */
    method FilterStateless(pkt: Packet) returns (act: Action)
      requires WellKept(Counters()) && WellFormed(pkt.p) && !pkt.p.Tcp? && !pkt.p.Udp?
      modifies this`global, this`vlans, this`dropReason
      ensures var d := Stateless(pkt.p, pkt.pol); act == ActionOf(pkt, d) && Counters() == Settle(old(Counters()), pkt, d)
    {
      var pol, len := pkt.pol, pkt.len;
      match pkt.p
      case Runt => act := DoDropLazy(pol, 0, RSN_MALFORMED, len);
      case TagCut(vid) => act := DoDropLazy(pol, vid, RSN_MALFORMED, len);
      case TooDeep(vid) =>
        act := Police(pol, pol.Some? && pol.value.f.dropVlanDeep, vid, RSN_VLAN_DEPTH, len, PassNonIp);
      case NonIp(_) =>
        global := global.(nonipPkts := global.nonipPkts + 1, nonipBytes := global.nonipBytes + len);
        act := DoForward(len);
      case BadIp(vid) => act := DoDropLazy(pol, vid, RSN_MALFORMED, len);
      case TcpFragment(vid) =>
        act := Police(pol, pol.Some? && pol.value.f.dropFrags, vid, RSN_TCP_FRAG, len, Inspected);
      case BadTcp(vid) => act := DoDropLazy(pol, vid, RSN_MALFORMED, len);
      case UdpFragment(vid) =>
        if pol.Some? && !pol.value.f.filterUdp {
          act := PassNonTcpUdp(len);
        } else {
          act := Police(pol, pol.Some? && pol.value.f.dropUdpFrags, vid, RSN_UDP_FRAG, len, Inspected);
        }
      case BadUdp(vid) =>
        if pol.Some? && !pol.value.f.filterUdp {
          act := PassNonTcpUdp(len);
        } else {
          act := Police(pol, true, vid, RSN_MALFORMED, len, Inspected);
        }
      case OtherIp(_) => act := PassNonTcpUdp(len);
    }

    /** xdp_filter on one frame: parse, count, decide, dispose. `len` is the length
        accounted (the whole buffer for multi-buffer frames). The maps, the counters,
        the action and the frame are those of the state machine. */
    method XdpFilter(cfg: L1Config, frame: array<u8>, cpu: nat, trusted: bool, len: nat, ns: u64,
                     pol: Option<Policy>, ok: Inserts, e: Endian) returns (act: Action)
      requires WellKept(Counters())
      modifies this, frame
      ensures var pkt := Packet(cpu, trusted, Parse(old(frame[..])), len, ns, pol, ok);
              var r := Receive(cfg, old(Tables()), pkt);
              && Tables() == r.core && Counters() == Record(old(Counters()), pkt, r) && act == ActionOf(pkt, r.decision)
              && FrameAfter(old(frame[..]), frame[..], act, if pkt.p.Tcp? then pkt.p.h.ip else 0, e)
    {
      var p := ParseFrame(frame);
      var pkt := Packet(cpu, trusted, p, len, ns, pol, ok);
      CountRx(Vid(p), len);
      if p.Tcp? {
        GuardsSuffice(frame[..]);
        act := FilterTcp(cfg, frame, pkt, e);
      } else if p.Udp? {
        act := FilterUdp(cfg, pkt);
      } else {
        act := FilterStateless(pkt);
      }
    }
  }

  // ---- parsing ----

  /** Strip up to two VLAN tags. */
  method ReadTags(frame: array<u8>) returns (t: Tags)
    requires ETH_LEN <= frame.Length
    ensures t == FirstTags(frame[..])
  {
    t := Tags(false, U16At(frame[..], 12), ETH_LEN, 0, 0);
    for i := 0 to MAX_VLAN_DEPTH
      invariant t.cur <= frame.Length && !t.cut
      invariant StripTags(frame[..], t, i) == FirstTags(frame[..])
    {
      if !IsTag(t.proto) {
        return;
      }
      if t.cur + TAG_LEN > frame.Length {
        t := t.(cut := true);
        return;
      }
      var vid := U16At(frame[..], t.cur) % 0x1000;
      if i == 0 {
        t := t.(outer := vid);
      } else {
        t := t.(inner := vid);
      }
      t := t.(proto := U16At(frame[..], t.cur + 2), cur := t.cur + TAG_LEN);
    }
  }

  method ParseFrame(frame: array<u8>) returns (p: Parsed)
    ensures p == Parse(frame[..])
  {
    if frame.Length < ETH_LEN {
      return Runt;
    }
    var t := ReadTags(frame);
    if t.cut {
      return TagCut(t.outer);
    }
    if IsTag(t.proto) {
      return TooDeep(t.outer);
    }
    if t.proto != ETH_P_IP {
      return NonIp(t.outer);
    }
    p := ParseIp(frame[..], t.cur, t.outer, t.inner);
  }

  /** A frame is rewritten exactly when a reset is transmitted. */
  predicate FrameAfter(fr: seq<u8>, fr': seq<u8>, act: Action, ip: nat, e: Endian) {
    if act == Transmit then Rewritable(fr, ip) && fr' == RstFrame(fr, ip, e) else fr' == fr
  }

  lemma OnlyForwardsAreCached(v: Option<FlowVal>, bkt: Buckets, pkt: Packet, k: FlowKey, pol: Policy)
    requires pkt.p.Tcp?
    ensures var o := SlowTcp(v, bkt, pkt, k, pol).0; o.cache ==> o.verdict.Forward?
  {
  }
}
