/** A SYN that claims to come from 0.0.0.0 charges the global bucket as if it were a
    source's: at the rate and with the burst of a source, before charging it again. */
module ZeroSource {
  import opened Types
  import opened Flows
  import opened SynLimit
  import opened Machine
  import opened SynGrowth
  import opened Witness

  // ---- when key 0 is only the global bucket ----

  /** What a SYN does to key 0 is nothing, or one charge at the global rate. */
  predicate GlobalOnly(m: Buckets, src: u32, t: u64, okSrc: bool, okGlobal: bool) {
    var (m', pass) := ChargeSyn(m, src, t, okSrc, okGlobal);
    var b, b' := Lookup(m, GLOBAL_KEY), Lookup(m', GLOBAL_KEY);
    b' == b || (b', pass) == Charge(b, GLOBAL_RATE, t, okGlobal)
  }

  lemma OtherSourceGlobalOnly(m: Buckets, src: u32, t: u64, okSrc: bool, okGlobal: bool)
    requires src != GLOBAL_KEY
    ensures GlobalOnly(m, src, t, okSrc, okGlobal)
  {
    var m1 := ChargeKey(m, src, SOURCE_RATE, t, okSrc).0;
    StoreLookup(m, src, Charge(Lookup(m, src), SOURCE_RATE, t, okSrc).0);
    StoreLookup(m1, GLOBAL_KEY, Charge(Lookup(m1, GLOBAL_KEY), GLOBAL_RATE, t, okGlobal).0);
  }

  /** Key 0 serves as the global bucket alone if and only if the source is not 0.0.0.0. */
  lemma GlobalOnlyIff(src: u32)
    ensures (forall m: Buckets, t: u64, okSrc: bool, okGlobal: bool :: GlobalOnly(m, src, t, okSrc, okGlobal))
            <==> src != GLOBAL_KEY
  {
    if src != GLOBAL_KEY {
      forall m: Buckets, t: u64, okSrc: bool, okGlobal: bool
        ensures GlobalOnly(m, src, t, okSrc, okGlobal)
      {
        OtherSourceGlobalOnly(m, src, t, okSrc, okGlobal);
      }
    } else {
      CreatesShort(0);
      assert !GlobalOnly(map[], GLOBAL_KEY, 0, true, true);
    }
  }

  /** As the first SYN of all it creates the global bucket with a source's burst: 98
      packets are left where any other source would leave 6399. */
  lemma CreatesShort(t: u64)
    ensures ChargeSyn(map[], GLOBAL_KEY, t, true, true) == (map[GLOBAL_KEY := Bucket(98_000, t)], true)
  {
    var m1: Buckets := map[GLOBAL_KEY := Bucket(99_000, t)];
    assert ChargeKey(map[], GLOBAL_KEY, SOURCE_RATE, t, true) == (m1, true);
    assert ChargeKey(m1, GLOBAL_KEY, GLOBAL_RATE, t, true).0 == map[GLOBAL_KEY := Bucket(98_000, t)];
  }

  /** On an empty global bucket it is refused itself, spends nothing, and takes the
      interval's refill away: the SYN of any source that has tokens of its own, which
      would have been admitted, is refused. */
  lemma TakesRefill(m: Buckets, src: u32, ts: u64, t: u64)
    requires GLOBAL_KEY in m && m[GLOBAL_KEY] == Bucket(0, ts) && t == ts + MIN_INTERVAL && src != GLOBAL_KEY
    requires Charge(Lookup(m, src), SOURCE_RATE, t, true).1
    ensures var (m', pass) := ChargeSyn(m, GLOBAL_KEY, t, true, true);
            && !pass && m' == m[GLOBAL_KEY := Bucket(50, t)]
            && ChargeSyn(m, src, t, true, true).1 && !ChargeSyn(m', src, t, true, true).1
  {
    assert Credit(MIN_INTERVAL, SOURCE_RATE) == 50 && Credit(MIN_INTERVAL, GLOBAL_RATE) == 3200;
    assert ChargeKey(m, GLOBAL_KEY, SOURCE_RATE, t, true) == (m[GLOBAL_KEY := Bucket(50, t)], false);
  }

  // ---- a run in which it costs a verdict ----

  /** Inbound SYNs are allowed. */
  const POLICY := Policy(
    Features(true, false, false, true, true, true, false, false, false, true, 10, 300, 1, 30), {})

  const ZERO := Rx(PacketOf(false, 0, FLAG_SYN, 0, POLICY))                      // creates the global bucket
  const SYN := Rx(PacketOf(false, 1, FLAG_SYN, 0, POLICY))                       // from 0.0.0.1
  const ZERO_LATER := Rx(PacketOf(false, 0, FLAG_SYN, MIN_INTERVAL, POLICY))     // one refill interval later
  const SYN_LATER := Rx(PacketOf(false, 1, FLAG_SYN, MIN_INTERVAL, POLICY))

  /** `ZERO` and `n` times `SYN`. */
  function Drained(n: nat): Trace { if n == 0 then [ZERO] else Drained(n - 1) + [SYN] }

  function BucketsAfter(n: nat): Buckets
    requires n <= 98
  {
    var m: Buckets := map[GLOBAL_KEY := Bucket(98_000 - COST * n, 0)];
    if n == 0 then m else m[1 := Bucket(100_000 - COST * n, 0)]
  }

  /** What a SYN of the run does to the buckets, and its verdict. */
  lemma SynStep(cfg: L1Config, c: Core, src: u32, ns: u64)
    ensures var pkt := PacketOf(false, src, FLAG_SYN, ns, POLICY);
            var (m, pass) := ChargeSyn(c.bkt, src, ns, true, true);
            && Step(cfg, c, Rx(pkt)).bkt == m
            && Receive(cfg, c, pkt).decision == if pass then Pass(Inspected) else Reject(RSN_INBOUND_SYN, true)
  {
    hide ChargeSyn;
    BucketsStep(cfg, c, Rx(PacketOf(false, src, FLAG_SYN, ns, POLICY)));
  }

  lemma SynCharges(n: nat)
    requires 0 < n <= 98
    ensures ChargeSyn(BucketsAfter(n - 1), 1, 0, true, true) == (BucketsAfter(n), true)
  {
    var m := BucketsAfter(n - 1);
    var m1 := m[1 := Bucket(100_000 - COST * n, 0)];
    assert ChargeKey(m, 1, SOURCE_RATE, 0, true) == (m1, true);
    assert ChargeKey(m1, GLOBAL_KEY, GLOBAL_RATE, 0, true) == (m1[GLOBAL_KEY := Bucket(98_000 - COST * n, 0)], true);
    assert m1[GLOBAL_KEY := Bucket(98_000 - COST * n, 0)] == BucketsAfter(n);
  }

  /** One more SYN at the end of a run. */
  lemma NextSyn(cfg: L1Config, es: Trace, src: u32, ns: u64)
    requires Proper(es) && Now(es) <= ns
    ensures var es' := es + [Rx(PacketOf(false, src, FLAG_SYN, ns, POLICY))];
            var (m, pass) := ChargeSyn(Run(cfg, es).bkt, src, ns, true, true);
            && Proper(es') && Now(es') == ns && Run(cfg, es').bkt == m
            && Decide(cfg, es') == if pass then Pass(Inspected) else Reject(RSN_INBOUND_SYN, true)
  {
    hide ChargeSyn;
    RunSnoc(cfg, es, Rx(PacketOf(false, src, FLAG_SYN, ns, POLICY)));
    SynStep(cfg, Run(cfg, es), src, ns);
  }

  ghost predicate DrainedOk(cfg: L1Config, n: nat)
    requires n <= 98
  { var es := Drained(n); Proper(es) && Now(es) == 0 && Run(cfg, es).bkt == BucketsAfter(n) }

  lemma {:induction false} RunDrained(cfg: L1Config, n: nat)
    requires n <= 98
    ensures DrainedOk(cfg, n)
  {
    hide DrainedOk;
    if n == 0 {
      RunZero(cfg);
    } else {
      RunDrained(cfg, n - 1);
      DrainNext(cfg, n);
    }
  }

  lemma DrainNext(cfg: L1Config, n: nat)
    requires 0 < n <= 98 && DrainedOk(cfg, n - 1)
    ensures DrainedOk(cfg, n)
  {
    hide Run, Proper, Now, ChargeSyn, BucketsAfter, PacketOf;
    NextSyn(cfg, Drained(n - 1), 1, 0);
    SynCharges(n);
    assert Drained(n) == Drained(n - 1) + [SYN];
  }

  lemma RunZero(cfg: L1Config)
    ensures DrainedOk(cfg, 0)
  {
    hide Step, ChargeSyn;
    NextSyn(cfg, [], 0, 0);
    assert [] + [ZERO] == [ZERO];
    CreatesShort(0);
  }

  /** The two runs differ in one refused packet from 0.0.0.0, and for it the last SYN,
      which otherwise passes, is refused. */
  lemma ZeroSourceCostsAVerdict(cfg: L1Config)
    ensures var with, without := Drained(98) + [ZERO_LATER], Drained(98);
            && Proper(with) && Decide(cfg, with) == Reject(RSN_INBOUND_SYN, true)
            && Proper(with + [SYN_LATER]) && Decide(cfg, with + [SYN_LATER]) == Reject(RSN_INBOUND_SYN, true)
            && Proper(without + [SYN_LATER]) && Decide(cfg, without + [SYN_LATER]) == Pass(Inspected)
  {
    hide Step, Receive;
    var es := Drained(98);
    RunDrained(cfg, 98);
    TakesRefill(BucketsAfter(98), 1, 0, MIN_INTERVAL);
    NextSyn(cfg, es, 0, MIN_INTERVAL);
    NextSyn(cfg, es, 1, MIN_INTERVAL);
    NextSyn(cfg, es + [ZERO_LATER], 1, MIN_INTERVAL);
  }
}
