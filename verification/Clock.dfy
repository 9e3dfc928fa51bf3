/** Coarse time: ticks, TTLs and expiry, as the data plane (bpf/filter.bpf.c) and
    the Go side (internal/dataplane/loader.go, gc.go) compute them. */
module Clock {
  import opened Types

  const TICK := 0x4000_0000       // 2^30 ns
  const SECOND := 1_000_000_000   // ns

  /** bpf_ktime_get_coarse_ns() >> NOW_SHIFT */
  function Tick(ns: nat): nat { ns / TICK }

  function TtlFor(f: Features, st: FlowState): nat {
    match st
    case Est => f.ttlEst
    case Closing => f.ttlClosing
    case StUdp => f.ttlUdp
    case _ => f.ttlSyn
  }

  /** The data plane's expiry test. A stamp from the future counts as fresh. */
  predicate Expired(f: Features, v: FlowVal, now: nat) {
    now >= v.lastSeen && now - v.lastSeen > TtlFor(f, v.state)
  }

  predicate Live(f: Features, e: Option<FlowVal>, now: nat) {
    e.Some? && !Expired(f, e.value, now)
  }

  /** The policy and TTL fields of the configuration; TTLs are in seconds. */
  datatype Config = Config(
    enforce: bool, oosStrict: bool, allowInboundServers: bool, dropFrags: bool, dropBadFlags: bool,
    filterUdp: bool, dropVlanDeep: bool, dropUdpFrags: bool, rejectWithRst: bool, allowInboundSyn: bool,
    ttlSyn: u32, ttlEst: u32, ttlClosing: u32, ttlUdp: u32)

  /** Seconds to ticks, rounding up. The u64 intermediate cannot wrap and the u32
      result cannot truncate: both follow from the bound on `t`. */
  function SecToTicks(sec: u32): (t: u32)
    ensures (t - 1) * TICK < sec * SECOND <= t * TICK
    ensures sec == 0 <==> t == 0
  {
    if sec == 0 then 0 else
    assert sec * SECOND + TICK - 1 < U64;
    (sec * SECOND + TICK - 1) / TICK
  }

  /** Ticks to whole seconds; the conversion to uint32 truncates. */
  function TicksToSec(ticks: u32): u32 {
    assert ticks * TICK < U64;
    ticks * TICK / SECOND % U32
  }

  function TtlForState(cfg: Config, st: FlowState): u32 {
    match st
    case Est => SecToTicks(cfg.ttlEst)
    case Closing => SecToTicks(cfg.ttlClosing)
    case StUdp => SecToTicks(cfg.ttlUdp)
    case _ => SecToTicks(cfg.ttlSyn)
  }

  function FeaturesFrom(cfg: Config): Features {
    Features(cfg.enforce, cfg.oosStrict, cfg.allowInboundServers, cfg.dropFrags, cfg.dropBadFlags,
             cfg.filterUdp, cfg.dropVlanDeep, cfg.dropUdpFrags, cfg.rejectWithRst, cfg.allowInboundSyn,
             SecToTicks(cfg.ttlSyn), SecToTicks(cfg.ttlEst), SecToTicks(cfg.ttlClosing), SecToTicks(cfg.ttlUdp))
  }

  /** GCOnce's deletion test, with its own future-stamp guard. */
  predicate GcStale(cfg: Config, v: FlowVal, now: nat) {
    !(v.lastSeen > now) && now - v.lastSeen > TtlForState(cfg, v.state)
  }

  /** The sweep deletes exactly what the data plane calls expired, for every
      state and every stamp. */
  lemma GcAgreesWithDataPlane(cfg: Config, v: FlowVal, now: nat)
    ensures GcStale(cfg, v, now) <==> Expired(FeaturesFrom(cfg), v, now)
  {
  }

  /** An entry like `v`, last used at instant `t0`, is expired after `idle` ns. */
  predicate ExpiredIdle(f: Features, v: FlowVal, t0: nat, idle: nat) {
    Expired(f, v.(lastSeen := Tick(t0)), Tick(t0 + idle))
  }

  /** The exact window for a TTL of n ticks: alive from every start instant for up to n
      ticks, expired from every start instant from n + 1 ticks on, and in between it
      depends on where in its tick the entry was stamped. */
  lemma TtlWindow(f: Features, v: FlowVal, idle: nat)
    ensures (forall t0 :: !ExpiredIdle(f, v, t0, idle)) <==> idle <= TtlFor(f, v.state) * TICK
    ensures (forall t0 :: ExpiredIdle(f, v, t0, idle)) <==> idle >= (TtlFor(f, v.state) + 1) * TICK
  {
    var ttl := TtlFor(f, v.state);
    if idle <= ttl * TICK {
      forall t0
        ensures !ExpiredIdle(f, v, t0, idle)
      {
        TicksPassed(t0, idle, ttl);
      }
    } else {
      assert ExpiredIdle(f, v, TICK - 1, idle);
    }
    if idle >= (ttl + 1) * TICK {
      forall t0
        ensures ExpiredIdle(f, v, t0, idle)
      {
        TicksPassed(t0, idle, ttl);
      }
    } else {
      assert !ExpiredIdle(f, v, 0, idle);
    }
  }

  lemma TicksPassed(t0: nat, idle: nat, ttl: nat)
    ensures idle <= ttl * TICK ==> Tick(t0 + idle) - Tick(t0) <= ttl
    ensures idle >= (ttl + 1) * TICK ==> Tick(t0 + idle) - Tick(t0) > ttl
  {
  }

  /** Rounding up adds less than a tick: a tick and a second are both multiples of 512 ns. */
  lemma RoundingSlack(sec: u32)
    ensures SecToTicks(sec) * TICK <= sec * SECOND + TICK - 512
  {
    var t := SecToTicks(sec);
    var steps := t * 0x20_0000 - sec * 1_953_125;
    assert t * TICK - sec * SECOND == 512 * steps && steps < 0x20_0000;
  }

  /** The configured seconds have lapsed between two instants, as counted in ticks. */
  predicate Lapsed(sec: u32, t0: nat, t1: nat) { Tick(t1) - Tick(t0) > SecToTicks(sec) }

  lemma LapsedBetween(sec: u32, t0: nat, t1: nat)
    requires t0 <= t1
    ensures t1 - t0 <= sec * SECOND ==> !Lapsed(sec, t0, t1)
    ensures t1 - t0 >= sec * SECOND + 2 * TICK - 512 ==> Lapsed(sec, t0, t1)
  {
    RoundingSlack(sec);
    TicksPassed(t0, t1 - t0, SecToTicks(sec));
  }

  lemma ExpiryIsLapse(cfg: Config, v: FlowVal, sec: u32, t0: nat, t1: nat)
    requires t0 <= t1 && v.lastSeen == Tick(t0)
    requires TtlForState(cfg, v.state) == SecToTicks(sec)
    ensures Expired(FeaturesFrom(cfg), v, Tick(t1)) <==> Lapsed(sec, t0, t1)
    ensures GcStale(cfg, v, Tick(t1)) <==> Lapsed(sec, t0, t1)
  {
    GcAgreesWithDataPlane(cfg, v, Tick(t1));
    assert Tick(t0) <= Tick(t1);
  }

  /** Quantization: an entry stamped at instant `t0` and looked at at `t1` is
      never expired while idle for at most its configured seconds, and always
      expired once idle for two ticks less 512 ns more than that. */
  lemma TtlQuantization(cfg: Config, v: FlowVal, sec: u32, t0: nat, t1: nat)
    requires t0 <= t1 && v.lastSeen == Tick(t0)
    requires TtlForState(cfg, v.state) == SecToTicks(sec)
    ensures t1 - t0 <= sec * SECOND ==>
              !Expired(FeaturesFrom(cfg), v, Tick(t1)) && !GcStale(cfg, v, Tick(t1))
    ensures t1 - t0 >= sec * SECOND + 2 * TICK - 512 ==>
              Expired(FeaturesFrom(cfg), v, Tick(t1)) && GcStale(cfg, v, Tick(t1))
  {
    LapsedBetween(sec, t0, t1);
    ExpiryIsLapse(cfg, v, sec, t0, t1);
  }

  /** An entry stamped at instant `t0` lives for `sec` seconds, and as long as its stamp is
      in the future, and is gone two ticks less 512 ns after that, for the data plane and
      for the sweep. */
  predicate TimesOut(cfg: Config, v: FlowVal, sec: u32, t0: nat, t1: nat) {
    && (t1 - t0 <= sec * 1_000_000_000 ==>
          !Expired(FeaturesFrom(cfg), v, Tick(t1)) && !GcStale(cfg, v, Tick(t1)))
    && (t1 - t0 >= sec * 1_000_000_000 + 2_147_483_136 ==>
          Expired(FeaturesFrom(cfg), v, Tick(t1)) && GcStale(cfg, v, Tick(t1)))
  }

  /** Which configured timeout applies to which state: half-open either way, established,
      closing, UDP. */
  lemma TimeoutOfState(cfg: Config, v: FlowVal, t0: nat, t1: nat)
    requires v.lastSeen == Tick(t0)
    ensures v.state == SynSent || v.state == SynRcvd ==> TimesOut(cfg, v, cfg.ttlSyn, t0, t1)
    ensures v.state == Est ==> TimesOut(cfg, v, cfg.ttlEst, t0, t1)
    ensures v.state == Closing ==> TimesOut(cfg, v, cfg.ttlClosing, t0, t1)
    ensures v.state == StUdp ==> TimesOut(cfg, v, cfg.ttlUdp, t0, t1)
  {
    var sec := match v.state
               case Est => cfg.ttlEst
               case Closing => cfg.ttlClosing
               case StUdp => cfg.ttlUdp
               case _ => cfg.ttlSyn;
    if t0 <= t1 {
      TtlQuantization(cfg, v, sec, t0, t1);
    } else {
      assert Tick(t1) <= Tick(t0);
    }
  }

  /** Every switch of the configuration reaches the switch of the data plane that has its
      name, and nothing else does. */
  lemma SwitchesInstalled(cfg: Config)
    ensures var f := FeaturesFrom(cfg);
            && (f.enforce <==> cfg.enforce) && (f.oosStrict <==> cfg.oosStrict)
            && (f.allowInboundServers <==> cfg.allowInboundServers) && (f.allowInboundSyn <==> cfg.allowInboundSyn)
            && (f.dropFrags <==> cfg.dropFrags) && (f.dropBadFlags <==> cfg.dropBadFlags)
            && (f.dropVlanDeep <==> cfg.dropVlanDeep) && (f.dropUdpFrags <==> cfg.dropUdpFrags)
            && (f.filterUdp <==> cfg.filterUdp) && (f.rejectWithRst <==> cfg.rejectWithRst)
  {
  }

  /** Both margins of `TtlQuantization` are exact over all u32 seconds: no greater grace
      and no earlier deadline holds for every TTL and every start instant. */
  lemma TtlMarginsExact(slack: int)
    ensures (forall sec: u32, t0: nat, t1: nat ::
              Lapsed(sec, t0, t1) ==> t1 - t0 > sec * SECOND + slack) <==> slack <= 0
    ensures (forall sec: u32, t0: nat, t1: nat ::
              !Lapsed(sec, t0, t1) ==> t1 - t0 < sec * SECOND + slack) <==> slack >= 2 * TICK - 512
  {
    GraceWitness();
    DeadlineWitness();
    forall sec: u32, t0: nat, t1: nat
      ensures Lapsed(sec, t0, t1) ==> t1 - t0 > sec * SECOND
      ensures !Lapsed(sec, t0, t1) ==> t1 - t0 < sec * SECOND + 2 * TICK - 512
    {
      if t0 <= t1 {
        LapsedBetween(sec, t0, t1);
      }
    }
  }

  /** 2^21 seconds are a whole number of ticks. */
  lemma GraceWitness()
    ensures var sec: u32 := 0x20_0000; Lapsed(sec, TICK - 1, TICK - 1 + sec * SECOND + 1)
  {
  }

  /** These seconds are one 512 ns step more than a whole number of ticks. */
  lemma DeadlineWitness()
    ensures var sec: u32 := 957549; !Lapsed(sec, 0, sec * SECOND + 2 * TICK - 513)
  {
  }

  /** Reading a live TTL back shows the configured seconds or one more, except for
      the largest u32, where the uint32 conversion wraps and shows 0. */
  lemma TtlReadback(s: u32)
    ensures var r := TicksToSec(SecToTicks(s));
            && ((r == s || r == s + 1) <==> s != U32 - 1)
            && (r == s <==> SecToTicks(s) * TICK < (s + 1) * SECOND)
            && (s == U32 - 1 ==> r == 0)
  {
  }

  /** Writing back what was read installs the same TTL: no drift however many
      times the live policy is read and re-applied. */
  lemma TtlWriteBack(s: u32)
    ensures SecToTicks(TicksToSec(SecToTicks(s))) == SecToTicks(s) <==> s != U32 - 1
  {
    TtlReadback(s);
  }
}
