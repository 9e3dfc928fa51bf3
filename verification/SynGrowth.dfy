/** How fast the internet side can grow the TCP flow table. */
module SynGrowth {
  import opened Types
  import opened Clock
  import opened Flows
  import opened Frame
  import opened SynLimit
  import opened Machine
  import opened Invariants
  import opened Handshake

  /** The event is an inbound lone SYN that the policy and both buckets admit. */
  predicate AdmittedSyn(c: Core, e: Event)
    requires Valid(e)
  {
    && e.Rx? && e.pkt.p.Tcp? && e.pkt.pol.Some? && !FlagsRefused(e.pkt)
    && InSynAdmitted(c, e.pkt, KeyOf(e.pkt.trusted, e.pkt.p))
  }

  /** The event is an inbound TCP packet that writes a new entry: over an absent or
      expired one, or a fresh SYN_RCVD over one in another state. */
  predicate InboundInsert(cfg: L1Config, c: Core, e: Event)
    requires Valid(e)
  {
    && e.Rx? && e.pkt.p.Tcp? && !e.pkt.trusted
    && var k := KeyOf(false, e.pkt.p);
       var v, v' := Lookup(c.flows, k), FlowAfter(cfg, c, e, k);
       v'.Some? && v' != v &&
       (v.None? || (v.value.state != SynRcvd && v'.value.state == SynRcvd)
        || (e.pkt.pol.Some? && !Live(e.pkt.pol.value.f, v, Tick(e.pkt.ns))))
  }

  lemma InsertsAreAdmitted(cfg: L1Config, c: Core, e: Event)
    requires Valid(e)
    ensures InboundInsert(cfg, c, e) ==> AdmittedSyn(c, e)
  {
    if InboundInsert(cfg, c, e) && e.pkt.pol.Some? {
      assert SegmentOf(e.pkt.trusted, e.pkt.p.h).flags == e.pkt.p.h.flags;
    }
  }

  // ---- the limits: one per source, and one for all ----

  /** What the limit of a bucket counts: at key 0 every admitted SYN, at any other key the
      admitted SYNs that claim to come from that address. */
  predicate CountsFor(c: Core, e: Event, key: u32)
    requires Valid(e)
  { AdmittedSyn(c, e) && (key == GLOBAL_KEY || KeyOf(e.pkt.trusted, e.pkt.p).inetIp == key) }

  function RateOf(key: u32): u64 { if key == GLOBAL_KEY then GLOBAL_RATE else SOURCE_RATE }

  // ---- counting events among `i`..`n` - 1 ----

  ghost function Admitted(cfg: L1Config, es: Trace, i: nat, n: nat, key: u32): nat
    requires Proper(es) && i <= n <= |es|
  {
    if i == n then 0
    else Admitted(cfg, es, i, n - 1, key) + if CountsFor(At(cfg, es, n - 1), es[n - 1], key) then 1 else 0
  }

  ghost function Inserted(cfg: L1Config, es: Trace, i: nat, n: nat): nat
    requires Proper(es) && i <= n <= |es|
  {
    if i == n then 0
    else Inserted(cfg, es, i, n - 1) + if InboundInsert(cfg, At(cfg, es, n - 1), es[n - 1]) then 1 else 0
  }

  ghost function BucketAt(cfg: L1Config, es: Trace, n: nat, key: u32): Option<Bucket>
    requires Proper(es) && n <= |es|
  { Lookup(At(cfg, es, n).bkt, key) }

  /** Event `j` is a counted SYN for which the bucket could not be created. */
  ghost predicate FailsOpen(cfg: L1Config, es: Trace, j: nat, key: u32)
    requires Proper(es) && j < |es|
  { CountsFor(At(cfg, es, j), es[j], key) && BucketAt(cfg, es, j + 1, key).None? }

  ghost function Uncharged(cfg: L1Config, es: Trace, i: nat, n: nat, key: u32): (r: nat)
    requires Proper(es) && i <= n <= |es|
    ensures r <= Admitted(cfg, es, i, n, key)
  {
    if i == n then 0
    else Uncharged(cfg, es, i, n - 1, key) + if FailsOpen(cfg, es, n - 1, key) then 1 else 0
  }

  /** The counted SYNs that are charged. */
  ghost function Paid(cfg: L1Config, es: Trace, i: nat, n: nat, key: u32): nat
    requires Proper(es) && i <= n <= |es|
  { Admitted(cfg, es, i, n, key) - Uncharged(cfg, es, i, n, key) }

  lemma PaidNext(cfg: L1Config, es: Trace, i: nat, n: nat, key: u32)
    requires Proper(es) && i <= n < |es|
    ensures Paid(cfg, es, i, n + 1, key) ==
            Paid(cfg, es, i, n, key) +
            if CountsFor(At(cfg, es, n), es[n], key) && BucketAt(cfg, es, n + 1, key).Some? then 1 else 0
  {
  }

  predicate Evicts(e: Event, key: u32) { e.EvictBucket? && e.ip == key }

  function Evictions(es: Trace, i: nat, n: nat, key: u32): nat
    requires i <= n <= |es|
  {
    if i == n then 0 else Evictions(es, i, n - 1, key) + if Evicts(es[n - 1], key) then 1 else 0
  }

  lemma {:induction false} InsertedAtMostAdmitted(cfg: L1Config, es: Trace, i: nat, n: nat)
    requires Proper(es) && i <= n <= |es|
    ensures Inserted(cfg, es, i, n) <= Admitted(cfg, es, i, n, 0)
  {
    if i < n {
      InsertedAtMostAdmitted(cfg, es, i, n - 1);
      InsertsAreAdmitted(cfg, At(cfg, es, n - 1), es[n - 1]);
    }
  }

  // ---- one event and one bucket ----

  function CreditOf(elapsed: nat, key: u32): nat { elapsed * RateOf(key) / MIN_INTERVAL }

  /** What any packet does to the bucket: a counted SYN leaves it with at least one
      packet's worth less than a new bucket or the refilled old one, and nothing adds more
      than the credit of the time its stamp moves. */
  predicate Charged(b: Option<Bucket>, b': Option<Bucket>, counted: bool, t: u64, key: u32) {
    var cost := if counted then COST else 0;
    match (b, b')
    case (None, None) => true
    case (Some(_), None) => false
    case (None, Some(w)) => w.ts == t && w.tokens + cost <= Burst(RateOf(key))
    case (Some(v), Some(w)) =>
      && v.ts <= w.ts && (w.ts == v.ts || w.ts == t)
      && w.tokens + cost <= v.tokens + CreditOf(w.ts - v.ts, key)
  }

  lemma ChargeIsCharged(b: Option<Bucket>, rate: u64, t: u64, ok: bool, key: u32)
    requires rate == SOURCE_RATE || (rate == GLOBAL_RATE && key == GLOBAL_KEY)
    ensures var (b', pass) := Charge(b, rate, t, ok); Charged(b, b', pass, t, key)
  {
    if b.Some? {
      RefillIsCharged(b.value, rate, t, key);
      hide Refilled, CreditOf;
    }
  }

  lemma RefillIsCharged(v: Bucket, rate: u64, t: u64, key: u32)
    requires rate == SOURCE_RATE || (rate == GLOBAL_RATE && key == GLOBAL_KEY)
    ensures Charged(Some(v), Some(Refilled(v, rate, t)), false, t, key)
  {
  }

  /** A source of 0.0.0.0 charges the global bucket twice, which spends only more. */
  lemma ChargedTwice(b: Option<Bucket>, b1: Option<Bucket>, b2: Option<Bucket>, first: bool, second: bool, t: u64,
                     key: u32)
    requires Charged(b, b1, first, t, key) && Charged(b1, b2, second, t, key)
    ensures Charged(b, b2, second, t, key)
  {
  }

  lemma ChargeKeyAt(m: Buckets, at: u32, rate: u64, t: u64, ok: bool, key: u32)
    requires rate == SOURCE_RATE || (rate == GLOBAL_RATE && at == GLOBAL_KEY)
    ensures var (m', pass) := ChargeKey(m, at, rate, t, ok);
            var b, b' := Lookup(m, key), Lookup(m', key);
            if at == key then Charged(b, b', pass, t, key) else b' == b
  {
    ChargeIsCharged(Lookup(m, at), rate, t, ok, at);
    StoreLookup(m, at, Charge(Lookup(m, at), rate, t, ok).0);
  }

  lemma ChargeSynAt(m: Buckets, src: u32, t: u64, okSrc: bool, okGlobal: bool, key: u32)
    ensures var (m', pass) := ChargeSyn(m, src, t, okSrc, okGlobal);
            Charged(Lookup(m, key), Lookup(m', key), pass && (key == GLOBAL_KEY || src == key), t, key)
  {
    var (m1, pass1) := ChargeKey(m, src, SOURCE_RATE, t, okSrc);
    var (m2, pass2) := ChargeKey(m1, GLOBAL_KEY, GLOBAL_RATE, t, okGlobal);
    ChargeKeyAt(m, src, SOURCE_RATE, t, okSrc, key);
    ChargeKeyAt(m1, GLOBAL_KEY, GLOBAL_RATE, t, okGlobal, key);
    if pass1 && src == key == GLOBAL_KEY {
      ChargedTwice(Lookup(m, key), Lookup(m1, key), Lookup(m2, key), pass1, pass2, t, key);
    }
  }

  lemma BucketsStep(cfg: L1Config, c: Core, e: Event)
    requires Valid(e) && e.Rx? && e.pkt.p.Tcp?
    ensures var k := KeyOf(e.pkt.trusted, e.pkt.p);
            Step(cfg, c, e).bkt ==
            if e.pkt.trusted || e.pkt.pol.None? || FlagsRefused(e.pkt) then c.bkt
            else AdmitSyn(c.bkt, e.pkt.pol.value, k, e.pkt.p.h.flags, e.pkt.ns, e.pkt.ok).0
  {
  }

  lemma BucketStep(cfg: L1Config, c: Core, e: Event, key: u32)
    requires Valid(e) && !Evicts(e, key)
    ensures Charged(Lookup(c.bkt, key), Lookup(Step(cfg, c, e).bkt, key), CountsFor(c, e, key), Time(e), key)
  {
    if e.Rx? && e.pkt.p.Tcp? {
      BucketsStep(cfg, c, e);
      TcpCharges(c, e.pkt, key);
    } else {
      OthersKeepBucket(cfg, c, e, key);
    }
  }

  lemma TcpCharges(c: Core, pkt: Packet, key: u32)
    requires WellFormed(pkt.p) && pkt.p.Tcp?
    ensures var k := KeyOf(pkt.trusted, pkt.p);
            var m := if pkt.trusted || pkt.pol.None? || FlagsRefused(pkt) then c.bkt
                     else AdmitSyn(c.bkt, pkt.pol.value, k, pkt.p.h.flags, pkt.ns, pkt.ok).0;
            Charged(Lookup(c.bkt, key), Lookup(m, key), CountsFor(c, Rx(pkt), key), pkt.ns, key)
  {
    ChargeSynAt(c.bkt, KeyOf(pkt.trusted, pkt.p).inetIp, pkt.ns, pkt.ok.srcBucket, pkt.ok.globalBucket, key);
    hide ChargeSyn;
  }

  lemma OthersKeepBucket(cfg: L1Config, c: Core, e: Event, key: u32)
    requires Valid(e) && !Evicts(e, key) && !(e.Rx? && e.pkt.p.Tcp?)
    ensures Lookup(Step(cfg, c, e).bkt, key) == Lookup(c.bkt, key) && !AdmittedSyn(c, e)
  {
  }

  lemma BucketMoves(cfg: L1Config, es: Trace, n: nat, key: u32)
    requires Proper(es) && n < |es|
    ensures if Evicts(es[n], key) then BucketAt(cfg, es, n + 1, key).None? && !CountsFor(At(cfg, es, n), es[n], key)
            else Charged(BucketAt(cfg, es, n, key), BucketAt(cfg, es, n + 1, key), CountsFor(At(cfg, es, n), es[n], key),
                         Time(es[n]), key)
  {
    AtStep(cfg, es, n);
    if !Evicts(es[n], key) {
      BucketStep(cfg, At(cfg, es, n), es[n], key);
    }
  }

  // ---- the balance over a run ----

  /** What was spent since `t0`: each incarnation of the bucket starts with at most a
      burst, and no instant is credited twice. */
  ghost predicate Balanced(b: Option<Bucket>, spent: nat, evictions: nat, t0: nat, now: nat, key: u32) {
    && t0 <= now
    && match b
       case None => COST * spent <= Burst(RateOf(key)) * evictions + CreditOf(now - t0, key)
       case Some(v) =>
         && t0 <= v.ts <= now
         && COST * spent + v.tokens <= Burst(RateOf(key)) * (evictions + 1) + CreditOf(v.ts - t0, key)
  }

  lemma BalancedStep(b: Option<Bucket>, b': Option<Bucket>, counted: bool, t: u64, spent: nat, evictions: nat,
                     t0: nat, before: nat, key: u32)
    requires Balanced(b, spent, evictions, t0, before, key) && before <= t && Charged(b, b', counted, t, key)
    ensures Balanced(b', spent + if counted && b'.Some? then 1 else 0, evictions, t0, t, key)
  {
  }

  lemma BalancedEviction(b: Option<Bucket>, t: u64, spent: nat, evictions: nat, t0: nat, before: nat, key: u32)
    requires Balanced(b, spent, evictions, t0, before, key) && before <= t
    ensures Balanced(None, spent, evictions + 1, t0, t, key)
  {
  }

  /** The bucket before event `n`, measured from event `i`. */
  ghost predicate BucketOk(cfg: L1Config, es: Trace, i: nat, n: nat, key: u32)
    requires Proper(es) && i <= n <= |es| && i < |es|
  {
    Balanced(BucketAt(cfg, es, n, key), Paid(cfg, es, i, n, key),
             Evictions(es, i, n, key), Time(es[i]), if i == n then Time(es[i]) else Time(es[n - 1]), key)
  }

  lemma BucketStart(cfg: L1Config, es: Trace, i: nat, key: u32)
    requires Proper(es) && i < |es| && BucketAt(cfg, es, i, key).None?
    ensures BucketOk(cfg, es, i, i, key)
  {
    hide BucketAt;
  }

  lemma BucketNext(cfg: L1Config, es: Trace, i: nat, n: nat, key: u32)
    requires Proper(es) && i <= n < |es| && BucketOk(cfg, es, i, n, key)
    ensures BucketOk(cfg, es, i, n + 1, key)
  {
    hide BucketAt, CountsFor, Step, Balanced, Charged, Paid;
    BucketMoves(cfg, es, n, key);
    PaidNext(cfg, es, i, n, key);
    var spent := Paid(cfg, es, i, n, key);
    var before := if i == n then Time(es[i]) else Time(es[n - 1]);
    if Evicts(es[n], key) {
      BalancedEviction(BucketAt(cfg, es, n, key), Time(es[n]), spent, Evictions(es, i, n, key), Time(es[i]), before, key);
    } else {
      BalancedStep(BucketAt(cfg, es, n, key), BucketAt(cfg, es, n + 1, key), CountsFor(At(cfg, es, n), es[n], key), Time(es[n]),
                   spent, Evictions(es, i, n, key), Time(es[i]), before, key);
    }
  }

  /** From any point where the bucket does not exist, such as the start of the run: what
      it spends is covered by a burst, one more per eviction, and the credit of the
      elapsed time. */
  lemma {:induction false} BucketRun(cfg: L1Config, es: Trace, i: nat, n: nat, key: u32)
    requires Proper(es) && i <= n <= |es| && i < |es| && BucketAt(cfg, es, i, key).None?
    ensures BucketOk(cfg, es, i, n, key)
    decreases n
  {
    hide BucketOk, BucketAt;
    if i < n {
      BucketRun(cfg, es, i, n - 1, key);
      BucketNext(cfg, es, i, n - 1, key);
    } else {
      BucketStart(cfg, es, i, key);
    }
  }

  /** However many sources take part, whatever addresses they claim, and whatever is
      evicted: the flows that the internet side inserts are at most 6400, 6400 more for
      every eviction of the global bucket, (3200 * elapsed >> 20) / 1000, and one for
      every SYN admitted because the bucket could not be created. */
  lemma InboundGrowthBound(cfg: L1Config, es: Trace, i: nat, n: nat)
    requires Proper(es) && i < n <= |es| && BucketAt(cfg, es, i, 0).None?
    ensures Inserted(cfg, es, i, n) <=
            Uncharged(cfg, es, i, n, 0) + 6400 * (Evictions(es, i, n, 0) + 1)
            + (Time(es[n - 1]) - Time(es[i])) * 3200 / 0x10_0000 / 1000
  {
    BucketRun(cfg, es, i, n, 0);
    InsertedAtMostAdmitted(cfg, es, i, n);
    BalanceInPackets(BucketAt(cfg, es, n, 0), Paid(cfg, es, i, n, 0), Evictions(es, i, n, 0), Time(es[i]),
                     Time(es[n - 1]), 0);
  }

  /** One source, whatever the others do: the SYNs admitted from it are at most 100, 100
      more for every eviction of its bucket, (50 * elapsed >> 20) / 1000, and one for
      every SYN admitted because its bucket could not be created. */
  lemma SourceBound(cfg: L1Config, es: Trace, i: nat, n: nat, src: u32)
    requires Proper(es) && i < n <= |es| && src != 0 && BucketAt(cfg, es, i, src).None?
    ensures Admitted(cfg, es, i, n, src) <=
            Uncharged(cfg, es, i, n, src) + 100 * (Evictions(es, i, n, src) + 1)
            + (Time(es[n - 1]) - Time(es[i])) * 50 / 0x10_0000 / 1000
  {
    BucketRun(cfg, es, i, n, src);
    BalanceInPackets(BucketAt(cfg, es, n, src), Paid(cfg, es, i, n, src), Evictions(es, i, n, src), Time(es[i]),
                     Time(es[n - 1]), src);
  }

  lemma BalanceInPackets(b: Option<Bucket>, spent: nat, evictions: nat, t0: nat, now: nat, key: u32)
    requires Balanced(b, spent, evictions, t0, now, key)
    ensures spent <= (if key == 0 then 6400 else 100) * (evictions + 1) + CreditOf(now - t0, key) / 1000
  {
  }

  /** Without evictions the bucket, once created, stays. */
  lemma {:induction false} CreatedStays(cfg: L1Config, es: Trace, i: nat, n: nat, key: u32)
    requires Proper(es) && i < n <= |es| && Evictions(es, i, n, key) == 0 && BucketAt(cfg, es, i + 1, key).Some?
    ensures BucketAt(cfg, es, n, key).Some?
    decreases n
  {
    hide BucketAt, CountsFor, Step;
    if i + 1 < n {
      CreatedStays(cfg, es, i, n - 1, key);
      BucketMoves(cfg, es, n - 1, key);
    }
  }

  /** ... and every SYN admitted since is charged. */
  lemma {:induction false} CreatedIsCharged(cfg: L1Config, es: Trace, i: nat, n: nat, key: u32)
    requires Proper(es) && i <= n <= |es| && i < |es| && Evictions(es, i, n, key) == 0 && BucketAt(cfg, es, i + 1, key).Some?
    ensures Uncharged(cfg, es, i, n, key) == 0
    decreases n
  {
    hide BucketAt, CountsFor, Step;
    if i < n {
      CreatedIsCharged(cfg, es, i, n - 1, key);
      CreatedStays(cfg, es, i, n, key);
    }
  }

  /** Since the global bucket was created, and while it is not evicted, the internet side
      has inserted at most 6400 + (3200 * elapsed >> 20) / 1000 flows. */
  lemma GrowthSinceCreation(cfg: L1Config, es: Trace, i: nat, n: nat)
    requires Proper(es) && i < n <= |es| && Evictions(es, i, n, 0) == 0
    requires BucketAt(cfg, es, i, 0).None? && BucketAt(cfg, es, i + 1, 0).Some?
    ensures Inserted(cfg, es, i, n) <= 6400 + (Time(es[n - 1]) - Time(es[i])) * 3200 / 0x10_0000 / 1000
  {
    CreatedIsCharged(cfg, es, i, n, 0);
    InboundGrowthBound(cfg, es, i, n);
  }

  /** Since a source's bucket was created, and while it is not evicted, at most
      100 + (50 * elapsed >> 20) / 1000 SYNs have been admitted from that source. */
  lemma SourceSinceCreation(cfg: L1Config, es: Trace, i: nat, n: nat, src: u32)
    requires Proper(es) && i < n <= |es| && src != 0 && Evictions(es, i, n, src) == 0
    requires BucketAt(cfg, es, i, src).None? && BucketAt(cfg, es, i + 1, src).Some?
    ensures Admitted(cfg, es, i, n, src) <= 100 + (Time(es[n - 1]) - Time(es[i])) * 50 / 0x10_0000 / 1000
  {
    CreatedIsCharged(cfg, es, i, n, src);
    SourceBound(cfg, es, i, n, src);
  }
}
