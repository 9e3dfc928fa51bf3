/** What one packet does to the one table entry it looks up: the specification of
    the TCP and UDP handlers of bpf/filter.bpf.c. */
module Flows {
  import opened Types
  import opened Clock

  datatype Verdict = Forward | Refuse(reason: Reason)

  /** `entry` is the entry afterwards, `cache` says the forward may be cached in L1,
      `mapFail` that an insert was attempted and failed. */
  datatype Outcome = Outcome(verdict: Verdict, entry: Option<FlowVal>, cache: bool, mapFail: bool)

  /** The protocol fields a handler reads. `num` is the sequence number on the
      trusted side and the acknowledgment number on the untrusted side. */
  datatype Segment = Segment(flags: u8, num: u32)

  /** Forward and write `nv`; when the write fails the old entry, if any, survives
      and nothing may be cached. */
  function Insert(e: Option<FlowVal>, nv: FlowVal, cache: bool, ok: bool): Outcome {
    if ok then Outcome(Forward, Some(nv), cache, false) else Outcome(Forward, e, false, true)
  }

  function Keep(v: FlowVal, cache: bool): Outcome { Outcome(Forward, Some(v), cache, false) }

  function Deny(e: Option<FlowVal>, reason: Reason): Outcome { Outcome(Refuse(reason), e, false, false) }

  function Fresh(st: FlowState, now: nat): FlowVal { FlowVal(0, now, st, false, false) }

  function SynEntry(isn: u32, now: nat): FlowVal { FlowVal(isn, now, SynSent, true, false) }

  // ---- outbound TCP ----

  function OutLive(v: FlowVal, flags: u8): Outcome {
    if Fin(flags) then Keep(v.(state := Closing, closedOut := true), false)
    else if v.state == Closing && v.closedOut then Keep(v, false)
    else if v.state == SynRcvd && Syn(flags) then Keep(v, false)
    else Keep(v.(state := Est), true)
  }

  function OutTcp(f: Features, e: Option<FlowVal>, seg: Segment, now: nat, ok: bool): Outcome {
    if LoneSyn(seg.flags) then
      Insert(e, SynEntry(seg.num, now), false, ok || e.Some?)
    else if Rst(seg.flags) then
      Outcome(Forward, if e.None? then None else
                Some(e.value.(state := Closing, closedOut := true, lastSeen := now)), false, false)
    else if Live(f, e, now) then OutLive(e.value.(lastSeen := now), seg.flags)
    else if f.oosStrict then Deny(e, RSN_OOS_OUT)
    else if Fin(seg.flags) then Insert(e, Fresh(Closing, now).(closedOut := true), false, ok)
    else Insert(e, Fresh(Est, now), true, ok)
  }

  // ---- inbound TCP ----

  predicate AcksIsn(v: FlowVal, ack: u32) { ack == (v.clientIsn + 1) % U32 }

  function InSynAck(v: FlowVal, ack: u32, now: nat): Outcome {
    if v.isnValid && !AcksIsn(v, ack) then Deny(Some(v), RSN_BAD_ISN)
    else if !v.isnValid && v.state == SynSent then Deny(Some(v), RSN_BAD_ISN)
    else Keep(v.(state := if v.state == SynSent then Est else v.state, lastSeen := now), false)
  }

  function InRst(v: FlowVal, seg: Segment, now: nat): Outcome {
    if v.state == SynSent && v.isnValid && !(Ack(seg.flags) && AcksIsn(v, seg.num)) then
      Deny(Some(v), RSN_OOS_RST)
    else Keep(v.(state := Closing, lastSeen := now), false)
  }

  function InData(v: FlowVal, flags: u8, now: nat): Outcome {
    var st := if Fin(flags) then Closing else if v.state == SynRcvd then Est else v.state;
    Keep(v.(state := st, lastSeen := now), st == Est)
  }

  /** `admitted` is the answer of the inbound-SYN policy and its two rate limits. */
  function InTcp(f: Features, e: Option<FlowVal>, seg: Segment, now: nat, admitted: bool, ok: bool): Outcome {
    var live := Live(f, e, now);
    if SynAck(seg.flags) then
      if live then InSynAck(e.value, seg.num, now) else Deny(e, RSN_UNSOL_SYNACK)
    else if LoneSyn(seg.flags) then
      if !admitted then Deny(e, RSN_INBOUND_SYN)
      else if !live || e.value.state == Closing then Insert(e, Fresh(SynRcvd, now), false, ok)
      else Keep(e.value, false)
    else if Rst(seg.flags) then
      if live then InRst(e.value, seg, now) else Deny(e, RSN_OOS_RST)
    else
      if live then InData(e.value, seg.flags, now) else Deny(e, RSN_OOS_IN)
  }

  // ---- UDP ----

  function OutUdp(e: Option<FlowVal>, now: nat, ok: bool): Outcome {
    if e.None? then Insert(e, Fresh(StUdp, now), true, ok)
    else Keep(e.value.(lastSeen := now), true)
  }

  function InUdp(f: Features, e: Option<FlowVal>, now: nat, allowlisted: bool): Outcome {
    if Live(f, e, now) then Keep(e.value.(lastSeen := now), true)
    else if f.allowInboundServers && allowlisted then Outcome(Forward, e, false, false)
    else Deny(e, RSN_UDP_OOS)
  }

  // ---- tables ----

  function Lookup<K, V>(m: map<K, V>, k: K): Option<V> {
    if k in m then Some(m[k]) else None
  }

  function Store<K, V>(m: map<K, V>, k: K, e: Option<V>): map<K, V> {
    match e
    case None => m - {k}
    case Some(v) => m[k := v]
  }

  lemma StoreSame<K, V>(m: map<K, V>, k: K)
    ensures Store(m, k, Lookup(m, k)) == m
  {
  }

  lemma StoreLookup<K, V>(m: map<K, V>, k: K, e: Option<V>)
    ensures forall j :: Lookup(Store(m, k, e), j) == if j == k then e else Lookup(m, j)
  {
  }

  // ---- what the handlers keep ----

  /** The shape of every reachable TCP entry. */
  predicate TcpShape(v: FlowVal) {
    && v.state in {SynSent, SynRcvd, Est, Closing}
    && (v.state == SynSent ==> v.isnValid)
    && (v.state == SynRcvd ==> !v.isnValid && !v.closedOut)
    && (v.closedOut ==> v.state == Closing)
  }

  /** The shape of every reachable UDP entry. */
  predicate UdpShape(v: FlowVal) {
    v == Fresh(StUdp, v.lastSeen)
  }
}
