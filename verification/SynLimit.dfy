/** The SYN token bucket when one CPU at a time charges it. The interleaved
    version is module TokenRace, where the steps of one call add up to `ChargeAmid`. */
module SynLimit {
  import opened Types
  import opened Flows

  const MIN_INTERVAL := 0x10_0000   // 2^20 ns
  const COST := 1000
  const TRIES := 4
  const SOURCE_RATE: u64 := 50
  const GLOBAL_RATE: u64 := 50 * 64
  const GLOBAL_KEY: u32 := 0

  function Burst(rate: u64): nat { rate * 2 * 1000 }

  /** Credit for an interval; the u64 product wraps. */
  function Credit(interval: nat, rate: u64): (c: u64)
    ensures c < 0x1000_0000_0000
    ensures c <= interval * rate / MIN_INTERVAL
  {
    assert interval * rate % U64 <= interval * rate by { ModLeq(interval * rate); }
    interval * rate % U64 / MIN_INTERVAL
  }

  lemma ModLeq(x: nat)
    ensures x % U64 <= x
  {
  }

  /** Add a refill, clamped to the headroom left below `burst`. */
  function AddClamped(tokens: u64, add: u64, burst: nat): u64
    requires burst < U64
  {
    var room := burst - tokens;
    if room <= 0 then tokens else tokens + (if add > room then room else add)
  }

  function Refilled(b: Bucket, rate: u64, tnow: u64): Bucket
    requires Burst(rate) < U64
  {
    if tnow > b.ts && tnow - b.ts >= MIN_INTERVAL then
      Bucket(AddClamped(b.tokens, Credit(tnow - b.ts, rate), Burst(rate)), tnow)
    else b
  }

  function Spent(b: Bucket): (Bucket, bool) {
    if b.tokens < COST then (b, false) else (b.(tokens := b.tokens - COST), true)
  }

  /** Charge one packet; the bucket afterwards and whether the packet is admitted.
      A first packet is admitted whether or not its bucket could be created. */
  function Charge(b: Option<Bucket>, rate: u64, tnow: u64, ok: bool): (Option<Bucket>, bool)
    requires 1 <= rate && Burst(rate) < U64
  {
    match b
    case None => (if ok then Some(Bucket(Burst(rate) - COST, tnow)) else None, true)
    case Some(v) => var (v', pass) := Spent(Refilled(v, rate, tnow)); (Some(v'), pass)
  }

  type Buckets = map<u32, Bucket>

  function ChargeKey(m: Buckets, key: u32, rate: u64, tnow: u64, ok: bool): (Buckets, bool)
    requires 1 <= rate && Burst(rate) < U64
  {
    var (b, pass) := Charge(Lookup(m, key), rate, tnow, ok);
    (Store(m, key, b), pass)
  }

  /** The inbound-SYN charge: the source's bucket, then, only if that admits, the
      global bucket. */
  function ChargeSyn(m: Buckets, src: u32, tnow: u64, okSrc: bool, okGlobal: bool): (Buckets, bool) {
    var (m1, pass1) := ChargeKey(m, src, SOURCE_RATE, tnow, okSrc);
    if pass1 then ChargeKey(m1, GLOBAL_KEY, GLOBAL_RATE, tnow, okGlobal) else (m1, false)
  }

  // ---- what a charge comes to ----

  /** A bucket holds at most two seconds' worth; a charge finds it refilled by the time
      since its stamp, once that is a refill interval, and takes one packet's worth or,
      if that is not there, nothing. The product of time and rate wraps. */
  lemma ChargeByLevel(v: Bucket, rate: u64, t: u64, ok: bool)
    requires 1 <= rate && rate * 2000 < U64
    ensures var due := t >= v.ts + 0x10_0000;
            var refilled := v.tokens + (t - v.ts) * rate % 0x1_0000_0000_0000_0000 / 0x10_0000;
            var level := if !due || v.tokens >= rate * 2000 then v.tokens
                         else if refilled > rate * 2000 then rate * 2000 else refilled;
            Charge(Some(v), rate, t, ok) ==
            (Some(Bucket(if level >= 1000 then level - 1000 else level, if due then t else v.ts)), level >= 1000)
  {
  }

  /** A first packet is admitted, and leaves a full bucket less its own worth. */
  lemma FirstCharge(rate: u64, t: u64, ok: bool)
    requires 1 <= rate && rate * 2000 < U64
    ensures Charge(None, rate, t, ok) == (if ok then Some(Bucket(rate * 2000 - 1000, t)) else None, true)
  {
  }

  /** Whoever waits long enough is admitted, whatever was spent before. */
  lemma WaitingAdmits(v: Bucket, rate: u64, t: u64, ok: bool)
    requires 1 <= rate && rate * 2000 < U64 && t >= v.ts + 0x10_0000
    requires 1000 * 0x10_0000 <= (t - v.ts) * rate < U64
    ensures Charge(Some(v), rate, t, ok).1
  {
    ChargeByLevel(v, rate, t, ok);
  }

  /** A SYN of any source but 0.0.0.0 needs both limits, 50 a second for the source and
      3200 for all; a SYN that its own limit refuses leaves the common one alone, and no
      other source's bucket is touched. */
  lemma SynNeedsBoth(m: Buckets, src: u32, t: u64, okSrc: bool, okGlobal: bool)
    requires src != 0
    ensures var (m', pass) := ChargeSyn(m, src, t, okSrc, okGlobal);
            var (own, mine) := Charge(Lookup(m, src), 50, t, okSrc);
            var (all, ours) := Charge(Lookup(m, 0), 3200, t, okGlobal);
            && (pass <==> mine && ours)
            && Lookup(m', src) == own && Lookup(m', 0) == (if mine then all else Lookup(m, 0))
            && forall k :: k != src && k != 0 ==> Lookup(m', k) == Lookup(m, k)
  {
    var (own, mine) := Charge(Lookup(m, src), SOURCE_RATE, t, okSrc);
    var m1 := Store(m, src, own);
    StoreLookup(m, src, own);
    assert Lookup(m1, 0) == Lookup(m, 0);
    StoreLookup(m1, 0, Charge(Lookup(m1, 0), GLOBAL_RATE, t, okGlobal).0);
    hide Charge;
  }

  // ---- a charge among other CPUs ----

  /** What other CPUs do to the bucket during one call: before its `n`-th access they leave
      it as `o[n]`, or untouched if that is None. */
  type Others = seq<Option<Bucket>>

  const QUIET: Others := []

  /** The bucket as access `n` finds it. */
  function Found(b: Bucket, o: Others, n: nat): Bucket {
    if n < |o| && o[n].Some? then o[n].value else b
  }

  /** The bucket and the number of the next access. */
  datatype Progress = Progress(b: Bucket, next: nat)

  /** The clamp loads the tokens, and the addition goes to whatever they are by then. */
  function AddedAmid(b: Bucket, credit: u64, burst: nat, o: Others, n: nat): Progress
    requires burst < U64
  {
    var cur := Found(b, o, n);
    var add := AddClamped(cur.tokens, credit, burst) - cur.tokens;
    if add == 0 then Progress(cur, n + 1)
    else
      var w := Found(cur, o, n + 1);
      Progress(w.(tokens := (w.tokens + add) % U64), n + 2)
  }

  /** Load the stamp, elect a refiller by a CAS on it, add the refill. */
  function RefilledAmid(b: Bucket, rate: u64, tnow: u64, o: Others): Progress
    requires Burst(rate) < U64
  {
    var v := Found(b, o, 0);
    if !(tnow > v.ts && tnow - v.ts >= MIN_INTERVAL) then Progress(v, 1)
    else
      var w := Found(v, o, 1);
      if w.ts != v.ts then Progress(w, 2)
      else AddedAmid(w.(ts := tnow), Credit(tnow - v.ts, rate), Burst(rate), o, 2)
  }

  /** The spend loop from try `i` on, whose load is access `n`; the bucket is as the call
      leaves it. */
  function SpentAmid(b: Bucket, o: Others, n: nat, i: nat): (Bucket, bool)
    requires i <= TRIES
    decreases TRIES - i
  {
    var v := Found(b, o, n);
    if i == TRIES then (v, true)
    else
      if v.tokens < COST then (v, false)
      else
        var w := Found(v, o, n + 1);
        if w.tokens == v.tokens then (w.(tokens := w.tokens - COST), true) else SpentAmid(w, o, n + 2, i + 1)
  }

  function ChargeAmid(b: Bucket, rate: u64, tnow: u64, o: Others): (Bucket, bool)
    requires Burst(rate) < U64
  {
    var p := RefilledAmid(b, rate, tnow, o);
    SpentAmid(p.b, o, p.next, 0)
  }

  /** When no other CPU interferes, the charge is the sequential one. */
  lemma QuietCharge(b: Bucket, rate: u64, tnow: u64)
    requires 1 <= rate && Burst(rate) < U64
    ensures var (w, pass) := ChargeAmid(b, rate, tnow, QUIET);
            forall ok :: Charge(Some(b), rate, tnow, ok) == (Some(w), pass)
  {
    assert RefilledAmid(b, rate, tnow, QUIET).b == Refilled(b, rate, tnow);
  }

  // ---- how the spend loop ends ----

  /** What the load and the CAS of try `j` find, when the tries before it are lost. */
  function Loaded(b: Bucket, o: Others, n: nat, j: nat): Bucket
    decreases j, 0
  {
    Found(if j == 0 then b else AtCas(b, o, n, j - 1), o, n + 2 * j)
  }

  function AtCas(b: Bucket, o: Others, n: nat, j: nat): Bucket
    decreases j, 1
  {
    Found(Loaded(b, o, n, j), o, n + 2 * j + 1)
  }

  /** Try `j` can pay, but another CPU changes the tokens before its CAS. */
  predicate Loses(b: Bucket, o: Others, n: nat, j: nat) {
    Loaded(b, o, n, j).tokens >= COST && AtCas(b, o, n, j).tokens != Loaded(b, o, n, j).tokens
  }

  /** The loop ends at try `j` with the bucket `r`: out of tries, out of tokens, or paid. */
  predicate SettlesAt(b: Bucket, o: Others, n: nat, j: nat, r: Bucket, pass: bool) {
    && (forall i :: 0 <= i < j ==> Loses(b, o, n, i))
    && if j == 4 then pass && r == Loaded(b, o, n, j)
       else if Loaded(b, o, n, j).tokens < COST then !pass && r == Loaded(b, o, n, j)
       else
         var w := AtCas(b, o, n, j);
         !Loses(b, o, n, j) && pass && r == w.(tokens := w.tokens - COST)
  }

  lemma {:induction false} SettlesFrom(b: Bucket, o: Others, n: nat, i: nat) returns (j: nat)
    requires i <= 4 && forall h :: 0 <= h < i ==> Loses(b, o, n, h)
    ensures var (r, pass) := SpentAmid(if i == 0 then b else AtCas(b, o, n, i - 1), o, n + 2 * i, i);
            i <= j <= 4 && SettlesAt(b, o, n, j, r, pass)
    decreases 4 - i
  {
    if i < 4 && Loses(b, o, n, i) {
      j := SettlesFrom(b, o, n, i + 1);
    } else {
      j := i;
    }
  }

  /** A call is refused only by a level it has itself found below one packet's worth, and
      admitted without paying only after four lost tries. */
  lemma SpendSettles(b: Bucket, o: Others, n: nat)
    ensures var (r, pass) := SpentAmid(b, o, n, 0);
            exists j :: 0 <= j <= 4 && SettlesAt(b, o, n, j, r, pass)
  {
    var j := SettlesFrom(b, o, n, 0);
  }

  // ---- the inbound-SYN charge among other CPUs ----

  function ChargeKeyAmid(m: Buckets, key: u32, rate: u64, tnow: u64, ok: bool, o: Others): (Buckets, bool)
    requires 1 <= rate && Burst(rate) < U64
  {
    if key !in m then ChargeKey(m, key, rate, tnow, ok)
    else
      var (b, pass) := ChargeAmid(m[key], rate, tnow, o);
      (m[key := b], pass)
  }

  /** Each of the two charges reads the clock itself. */
  function ChargeSynAmid(m: Buckets, src: u32, t1: u64, t2: u64, okSrc: bool, okGlobal: bool, o1: Others, o2: Others)
    : (Buckets, bool)
  {
    var (m1, pass1) := ChargeKeyAmid(m, src, SOURCE_RATE, t1, okSrc, o1);
    if pass1 then ChargeKeyAmid(m1, GLOBAL_KEY, GLOBAL_RATE, t2, okGlobal, o2) else (m1, false)
  }

  lemma QuietChargeKey(m: Buckets, key: u32, rate: u64, tnow: u64, ok: bool)
    requires 1 <= rate && Burst(rate) < U64
    ensures ChargeKeyAmid(m, key, rate, tnow, ok, QUIET) == ChargeKey(m, key, rate, tnow, ok)
  {
    if key in m {
      QuietCharge(m[key], rate, tnow);
    }
  }

  /** Undisturbed and with one clock reading, the two charges are `ChargeSyn`. */
  lemma QuietChargeSyn(m: Buckets, src: u32, t: u64, okSrc: bool, okGlobal: bool)
    ensures ChargeSynAmid(m, src, t, t, okSrc, okGlobal, QUIET, QUIET) == ChargeSyn(m, src, t, okSrc, okGlobal)
  {
    QuietChargeKey(m, src, SOURCE_RATE, t, okSrc);
    QuietChargeKey(ChargeKey(m, src, SOURCE_RATE, t, okSrc).0, GLOBAL_KEY, GLOBAL_RATE, t, okGlobal);
  }
}
