/** tbkt_charge on one existing bucket, called by N CPUs at once: every load,
    compare-and-swap and fetch-and-add is a step of its own, and any CPU may take
    the next one. */
module TokenRace {
  import opened Types
  import opened SynLimit

  /** Where a CPU stands in tbkt_charge. */
  datatype Pc =
    | Idle
    | Begin(now: u64)                    // clock read; next: load ts_ns
    | CasTs(now: u64, last: u64)         // next: CAS ts_ns from last to now
    | ReadTokens(add: u64)               // won the interval; next: load tokens to clamp
    | AddTokens(add: u64)                // next: fetch-and-add the clamped refill
    | ReadSpend(i: nat)                  // try i; next: load tokens
    | CasSpend(i: nat, cur: u64)         // next: CAS tokens from cur to cur - 1000
    | Done(pass: bool)

  /** The bucket, the CPUs, and a history of what happened to the bucket. */
  datatype Sys = Sys(
    tokens: u64, ts: u64, pc: seq<Pc>,
    credits: nat,    // sum of the refills applied
    refills: nat,    // how many were applied
    spends: nat,     // successful spend CASes
    failed: nat,     // failed spend CASes
    opens: nat)      // calls admitted because all four tries failed

  function Start(tokens: u64, ts: u64, cpus: nat): Sys {
    Sys(tokens, ts, seq(cpus, _ => Idle), 0, 0, 0, 0, 0)
  }

  /** What a CPU's own earlier tests guarantee about the values it holds. */
  predicate Sound(p: Pc) {
    match p
    case CasTs(now, last) => last + MIN_INTERVAL <= now
    case AddTokens(add) => add > 0
    case ReadSpend(i) => i <= TRIES
    case CasSpend(i, cur) => i < TRIES && cur >= COST
    case _ => true
  }

  ghost predicate Sane(s: Sys) { forall i :: 0 <= i < |s.pc| ==> Sound(s.pc[i]) }

  function Move(s: Sys, c: nat, pc: Pc): Sys
    requires c < |s.pc|
  { s.(pc := s.pc[c := pc]) }

  /** One atomic step of CPU `c`; `now` is its clock if the step starts a call. */
  function Step(s: Sys, c: nat, now: u64, rate: u64): (r: Sys)
    requires c < |s.pc| && Sound(s.pc[c]) && Burst(rate) < U64
    ensures |r.pc| == |s.pc| && (Sane(s) ==> Sane(r))
  {
    match s.pc[c]
    case Idle | Done(_) => Move(s, c, Begin(now))
    case Begin(t) =>
      if t > s.ts && t - s.ts >= MIN_INTERVAL then Move(s, c, CasTs(t, s.ts)) else Move(s, c, ReadSpend(0))
    case CasTs(t, last) =>
      if s.ts == last then Move(s, c, ReadTokens(Credit(t - last, rate))).(ts := t)
      else Move(s, c, ReadSpend(0))
    case ReadTokens(add) =>
      var room := Burst(rate) - s.tokens;
      var a := if add > room then room else add;
      if room > 0 && a > 0 then Move(s, c, AddTokens(a)) else Move(s, c, ReadSpend(0))
    case AddTokens(a) =>
      Move(s, c, ReadSpend(0)).(tokens := (s.tokens + a) % U64, credits := s.credits + a, refills := s.refills + 1)
    case ReadSpend(i) =>
      if i == TRIES then Move(s, c, Done(true)).(opens := s.opens + 1)
      else if s.tokens < COST then Move(s, c, Done(false))
      else Move(s, c, CasSpend(i, s.tokens))
    case CasSpend(i, cur) =>
      if s.tokens == cur then
        Move(s, c, Done(true)).(tokens := s.tokens - COST, spends := s.spends + 1)
      else Move(s, c, ReadSpend(i + 1)).(failed := s.failed + 1)
  }

  /** A schedule names the CPU that moves and the clock it would read. */
  datatype Turn = Turn(cpu: nat, now: u64)

  ghost predicate Schedule(sched: seq<Turn>, cpus: nat) { forall i :: 0 <= i < |sched| ==> sched[i].cpu < cpus }

  ghost function Exec(s: Sys, sched: seq<Turn>, rate: u64): (r: Sys)
    requires Schedule(sched, |s.pc|) && Sane(s) && Burst(rate) < U64
    ensures |r.pc| == |s.pc| && Sane(r)
  {
    if sched == [] then s
    else
      var n := |sched| - 1;
      Step(Exec(s, sched[..n], rate), sched[n].cpu, sched[n].now, rate)
  }

  // ---- sums over CPUs ----

  function Total(w: Pc -> nat, pc: seq<Pc>): nat {
    if pc == [] then 0 else w(pc[0]) + Total(w, pc[1..])
  }

  lemma {:induction false} TotalUpdate(w: Pc -> nat, pc: seq<Pc>, c: nat, x: Pc)
    requires c < |pc|
    ensures Total(w, pc[c := x]) + w(pc[c]) == Total(w, pc) + w(x)
  {
    if c == 0 {
      assert pc[c := x][1..] == pc[1..];
    } else {
      assert pc[c := x][1..] == pc[1..][c - 1 := x];
      TotalUpdate(w, pc[1..], c - 1, x);
    }
  }

  lemma {:induction false} TotalAtMost(w: Pc -> nat, pc: seq<Pc>, b: nat)
    requires forall i :: 0 <= i < |pc| ==> w(pc[i]) <= b
    ensures Total(w, pc) <= |pc| * b
  {
    if pc != [] {
      TotalAtMost(w, pc[1..], b);
      assert |pc| * b == (|pc| - 1) * b + b;
    }
  }

  lemma {:induction false} TotalZero(w: Pc -> nat, pc: seq<Pc>)
    requires forall i :: 0 <= i < |pc| ==> w(pc[i]) == 0
    ensures Total(w, pc) == 0
  {
    if pc != [] {
      TotalZero(w, pc[1..]);
    }
  }

  /** All but one CPU contribute at most `b` each. */
  lemma {:induction false} OthersAtMost(w: Pc -> nat, pc: seq<Pc>, c: nat, b: nat)
    requires c < |pc| && forall i :: 0 <= i < |pc| ==> w(pc[i]) <= b
    ensures Total(w, pc) <= (|pc| - 1) * b + w(pc[c])
  {
    if c == 0 {
      TotalAtMost(w, pc[1..], b);
    } else {
      OthersAtMost(w, pc[1..], c - 1, b);
      assert (|pc| - 1) * b == (|pc| - 2) * b + b;
    }
  }

  /** Refills computed and clamped but not yet added. */
  function Pending(p: Pc): nat { if p.AddTokens? then p.add else 0 }

  /** Credit won but not yet added. */
  function Owed(p: Pc): nat { if p.AddTokens? || p.ReadTokens? then p.add else 0 }

  /** Spend tries already lost in the current call. */
  function Lost(p: Pc): nat { if p.ReadSpend? || p.CasSpend? then p.i else 0 }

  /** A CPU about to lose a spend CAS. */
  function Stale(tokens: u64): Pc -> nat { (p: Pc) => if p.CasSpend? && p.cur != tokens then 1 else 0 }

  // ---- conservation ----

  /** Tokens are accounted for exactly and nothing wraps; what is in the bucket or on
      its way into it stays below `cap`, which will be N bursts. */
  ghost predicate Conserved(s: Sys, tokens: u64, burst: nat, cap: nat) {
    && s.tokens + COST * s.spends == tokens + s.credits
    && s.tokens + Total(Pending, s.pc) <= cap
    && forall i :: 0 <= i < |s.pc| ==> Pending(s.pc[i]) <= burst
  }

  /** A refill clamped to the room left fits beside everyone else's. */
  lemma RoomForOne(pc: seq<Pc>, c: nat, tokens: nat, add: nat, burst: nat)
    requires c < |pc| && Pending(pc[c]) == 0 && tokens + add <= burst
    requires forall i :: 0 <= i < |pc| ==> Pending(pc[i]) <= burst
    ensures tokens + add + Total(Pending, pc) <= |pc| * burst
  {
    OthersAtMost(Pending, pc, c, burst);
    assert |pc| * burst == (|pc| - 1) * burst + burst;
  }

  /** No refill is larger than a burst. */
  lemma PendingStep(s: Sys, t: Turn, rate: u64)
    requires t.cpu < |s.pc| && Sane(s) && Burst(rate) < U64
    requires forall i :: 0 <= i < |s.pc| ==> Pending(s.pc[i]) <= Burst(rate)
    ensures var r := Step(s, t.cpu, t.now, rate);
            forall i :: 0 <= i < |r.pc| ==> Pending(r.pc[i]) <= Burst(rate)
  {
  }

  lemma ConservedStep(s: Sys, t: Turn, tokens: u64, rate: u64, cap: nat)
    requires t.cpu < |s.pc| && Sane(s) && Burst(rate) < U64 && cap < U64
    requires Conserved(s, tokens, Burst(rate), cap)
    requires var r := Step(s, t.cpu, t.now, rate);
             r.pc[t.cpu].AddTokens? ==> s.tokens + r.pc[t.cpu].add + Total(Pending, s.pc) <= cap
    ensures Conserved(Step(s, t.cpu, t.now, rate), tokens, Burst(rate), cap)
  {
    var c, r := t.cpu, Step(s, t.cpu, t.now, rate);
    TotalUpdate(Pending, s.pc, c, r.pc[c]);
    PendingStep(s, t, rate);
    if s.pc[c].AddTokens? {
      assert Total(Pending, s.pc) == Total(Pending, r.pc) + s.pc[c].add;
      assert r.tokens == s.tokens + s.pc[c].add;
    }
  }

  /** Under every schedule: tokens = initial + credits - 1000 * spends, and tokens
      plus pending refills stay below N bursts. */
  lemma {:induction false} TokensConserved(tokens: u64, ts: u64, cpus: nat, sched: seq<Turn>, rate: u64)
    requires Schedule(sched, cpus) && cpus >= 1 && cpus * Burst(rate) < U64 && Burst(rate) < U64
    requires tokens <= cpus * Burst(rate)
    ensures Conserved(Exec(Start(tokens, ts, cpus), sched, rate), tokens, Burst(rate), cpus * Burst(rate))
  {
    if sched == [] {
      TotalZero(Pending, Start(tokens, ts, cpus).pc);
    } else {
      var n := |sched| - 1;
      TokensConserved(tokens, ts, cpus, sched[..n], rate);
      var s, c := Exec(Start(tokens, ts, cpus), sched[..n], rate), sched[n].cpu;
      var r := Step(s, c, sched[n].now, rate);
      if r.pc[c].AddTokens? {
        RoomForOne(s.pc, c, s.tokens, r.pc[c].add, Burst(rate));
      }
      ConservedStep(s, sched[n], tokens, rate, cpus * Burst(rate));
    }
  }

  // ---- the credit follows the clock ----

  ghost predicate CreditBound(s: Sys, ts: u64, rate: u64) {
    && ts <= s.ts
    && s.credits + Total(Owed, s.pc) <= (s.ts - ts) * rate / MIN_INTERVAL
  }

  /** Adjacent intervals: crediting them apart never gives more than crediting them whole. */
  lemma IntervalsAdd(a: nat, b: nat, rate: nat)
    ensures a * rate / MIN_INTERVAL + b * rate / MIN_INTERVAL <= (a + b) * rate / MIN_INTERVAL
  {
  }

  lemma CreditStep(s: Sys, t: Turn, ts: u64, rate: u64)
    requires t.cpu < |s.pc| && Sane(s) && Burst(rate) < U64
    requires CreditBound(s, ts, rate)
    ensures CreditBound(Step(s, t.cpu, t.now, rate), ts, rate)
  {
    var pc, r := s.pc[t.cpu], Step(s, t.cpu, t.now, rate);
    TotalUpdate(Owed, s.pc, t.cpu, r.pc[t.cpu]);
    if pc.CasTs? && s.ts == pc.last {
      IntervalsAdd(s.ts - ts, r.ts - s.ts, rate);
    }
  }

  /** The refills applied never exceed rate * elapsed / 2^20: the winning CASes cut
      the time line into disjoint intervals. */
  lemma {:induction false} CreditsFollowClock(tokens: u64, ts: u64, cpus: nat, sched: seq<Turn>, rate: u64)
    requires Schedule(sched, cpus) && Burst(rate) < U64
    ensures CreditBound(Exec(Start(tokens, ts, cpus), sched, rate), ts, rate)
  {
    if sched == [] {
      TotalZero(Owed, Start(tokens, ts, cpus).pc);
    } else {
      var n := |sched| - 1;
      CreditsFollowClock(tokens, ts, cpus, sched[..n], rate);
      CreditStep(Exec(Start(tokens, ts, cpus), sched[..n], rate), sched[n], ts, rate);
    }
  }

  /** The time stamp only moves by a won CAS, and then strictly forward. */
  lemma WinMovesTime(s: Sys, c: nat, now: u64, rate: u64)
    requires c < |s.pc| && Sane(s) && Burst(rate) < U64
    ensures var r := Step(s, c, now, rate);
            && (r.ts != s.ts <==> s.pc[c].CasTs? && s.pc[c].last == s.ts)
            && (r.ts != s.ts ==> r.ts > s.ts && r.pc[c].ReadTokens?)
  {
  }

  // ---- fail-open admissions ----

  /** Every lost CAS, past or imminent, is charged to a change of `tokens` by
      another CPU; every fail-open call has lost four. */
  ghost predicate FailuresPaid(s: Sys) { LossesPaid(s) && OpensPaid(s) }

  ghost predicate LossesPaid(s: Sys) {
    s.failed + Total(Stale(s.tokens), s.pc) <= (|s.pc| - 1) * (s.spends + s.refills)
  }

  ghost predicate OpensPaid(s: Sys) { TRIES * s.opens + Total(Lost, s.pc) <= s.failed }

  /** A change of `tokens` makes at most N - 1 CPUs stale. */
  lemma OneChange(pc: seq<Pc>, c: nat, tokens: u64, failed: nat, changes: nat)
    requires c < |pc| && !pc[c].CasSpend? && failed <= (|pc| - 1) * changes
    ensures failed + Total(Stale(tokens), pc) <= (|pc| - 1) * (changes + 1)
  {
    OthersAtMost(Stale(tokens), pc, c, 1);
    assert (|pc| - 1) * (changes + 1) == (|pc| - 1) * changes + (|pc| - 1);
  }

  lemma OpensStep(s: Sys, t: Turn, rate: u64)
    requires t.cpu < |s.pc| && Sane(s) && Burst(rate) < U64 && OpensPaid(s)
    ensures OpensPaid(Step(s, t.cpu, t.now, rate))
  {
    TotalUpdate(Lost, s.pc, t.cpu, Step(s, t.cpu, t.now, rate).pc[t.cpu]);
  }

  lemma LossesStep(s: Sys, t: Turn, rate: u64)
    requires t.cpu < |s.pc| && Sane(s) && Burst(rate) < U64 && LossesPaid(s)
    ensures LossesPaid(Step(s, t.cpu, t.now, rate))
  {
    var c, r := t.cpu, Step(s, t.cpu, t.now, rate);
    TotalUpdate(Stale(s.tokens), s.pc, c, r.pc[c]);
    if r.spends + r.refills > s.spends + s.refills {
      OneChange(r.pc, c, r.tokens, s.failed, s.spends + s.refills);
    }
  }

  lemma StartPaid(tokens: u64, ts: u64, cpus: nat)
    requires cpus >= 1
    ensures FailuresPaid(Start(tokens, ts, cpus))
  {
    TotalZero(Stale(tokens), Start(tokens, ts, cpus).pc);
    TotalZero(Lost, Start(tokens, ts, cpus).pc);
  }

  lemma {:induction false} FailuresRun(tokens: u64, ts: u64, cpus: nat, sched: seq<Turn>, rate: u64)
    requires Schedule(sched, cpus) && cpus >= 1 && Burst(rate) < U64
    ensures FailuresPaid(Exec(Start(tokens, ts, cpus), sched, rate))
  {
    if sched == [] {
      StartPaid(tokens, ts, cpus);
    } else {
      var n := |sched| - 1;
      FailuresRun(tokens, ts, cpus, sched[..n], rate);
      OpensStep(Exec(Start(tokens, ts, cpus), sched[..n], rate), sched[n], rate);
      LossesStep(Exec(Start(tokens, ts, cpus), sched[..n], rate), sched[n], rate);
    }
  }

  /** Four times the fail-open admissions is at most what the other N - 1 CPUs can make
      a call lose. */
  lemma FailOpenBound(tokens: u64, ts: u64, cpus: nat, sched: seq<Turn>, rate: u64)
    requires Schedule(sched, cpus) && cpus >= 1 && Burst(rate) < U64
    ensures var r := Exec(Start(tokens, ts, cpus), sched, rate);
            FailuresPaid(r) && 4 * r.opens <= (cpus - 1) * (r.spends + r.refills)
  {
    hide Exec;
    FailuresRun(tokens, ts, cpus, sched, rate);
  }

  // ---- the rate limit ----

  predicate Refilling(p: Pc) { p.ReadTokens? || p.AddTokens? }

  /** One for a CPU between winning an interval and applying its refill. */
  function Claim(p: Pc): nat { if Refilling(p) then 1 else 0 }

  /** Every refill, applied or on its way, has used up an interval of its own. */
  ghost predicate RefillsSpaced(s: Sys, ts: u64) {
    ts <= s.ts && (s.refills + Total(Claim, s.pc)) * MIN_INTERVAL <= s.ts - ts
  }

  lemma RefillsStep(s: Sys, t: Turn, ts: u64, rate: u64)
    requires t.cpu < |s.pc| && Sane(s) && Burst(rate) < U64
    requires RefillsSpaced(s, ts)
    ensures RefillsSpaced(Step(s, t.cpu, t.now, rate), ts)
  {
    TotalUpdate(Claim, s.pc, t.cpu, Step(s, t.cpu, t.now, rate).pc[t.cpu]);
  }

  lemma {:induction false} RefillsFollowClock(tokens: u64, ts: u64, cpus: nat, sched: seq<Turn>, rate: u64)
    requires Schedule(sched, cpus) && Burst(rate) < U64
    ensures RefillsSpaced(Exec(Start(tokens, ts, cpus), sched, rate), ts)
  {
    if sched == [] {
      TotalZero(Claim, Start(tokens, ts, cpus).pc);
    } else {
      var n := |sched| - 1;
      RefillsFollowClock(tokens, ts, cpus, sched[..n], rate);
      RefillsStep(Exec(Start(tokens, ts, cpus), sched[..n], rate), sched[n], ts, rate);
    }
  }

  lemma AdmissionsBounded(spends: nat, opens: nat, refills: nat, most: nat, wins: nat, cpus: nat)
    requires cpus >= 1 && spends <= most && refills <= wins
    requires 4 * opens <= (cpus - 1) * (spends + refills)
    ensures 4 * (spends + opens) <= (cpus + 3) * most + (cpus - 1) * wins
  {
    assert (cpus - 1) * (spends + refills) <= (cpus - 1) * (most + wins);
  }

  /** The rate limit under contention: from the initial tokens and the time the stamp
      has moved follows a bound on all that N racing CPUs admit, fail-open admissions
      included. */
  lemma SpendBound(tokens: u64, ts: u64, cpus: nat, sched: seq<Turn>, rate: u64)
    requires Schedule(sched, cpus) && cpus >= 1 && cpus * Burst(rate) < U64 && Burst(rate) < U64
    requires tokens <= cpus * Burst(rate)
    ensures var r := Exec(Start(tokens, ts, cpus), sched, rate);
            && 1000 * r.spends <= tokens + (r.ts - ts) * rate / MIN_INTERVAL
            && r.refills <= (r.ts - ts) / MIN_INTERVAL
            && 4 * (r.spends + r.opens) <=
               (cpus + 3) * ((tokens + (r.ts - ts) * rate / MIN_INTERVAL) / 1000)
               + (cpus - 1) * ((r.ts - ts) / MIN_INTERVAL)
  {
    hide Exec;
    TokensConserved(tokens, ts, cpus, sched, rate);
    CreditsFollowClock(tokens, ts, cpus, sched, rate);
    FailOpenBound(tokens, ts, cpus, sched, rate);
    RefillsFollowClock(tokens, ts, cpus, sched, rate);
    var r := Exec(Start(tokens, ts, cpus), sched, rate);
    AdmissionsBounded(r.spends, r.opens, r.refills, (tokens + (r.ts - ts) * rate / MIN_INTERVAL) / 1000,
                      (r.ts - ts) / MIN_INTERVAL, cpus);
  }

  // ---- when the burst is respected ----

  ghost predicate OneRefiller(s: Sys) {
    forall i, j :: 0 <= i < j < |s.pc| ==> !(Refilling(s.pc[i]) && Refilling(s.pc[j]))
  }

  ghost predicate WithinBurst(s: Sys, rate: u64) {
    && s.tokens <= Burst(rate)
    && forall i :: 0 <= i < |s.pc| ==> s.tokens + Pending(s.pc[i]) <= Burst(rate)
  }

  lemma WithinBurstStep(s: Sys, t: Turn, rate: u64)
    requires t.cpu < |s.pc| && Sane(s) && Burst(rate) < U64 && OneRefiller(s) && WithinBurst(s, rate)
    ensures WithinBurst(Step(s, t.cpu, t.now, rate), rate)
  {
  }

  /** While no two CPUs are between winning an interval and applying its refill, the
      bucket never exceeds one burst. */
  lemma {:induction false} BurstRespected(tokens: u64, ts: u64, cpus: nat, sched: seq<Turn>, rate: u64)
    requires Schedule(sched, cpus) && Burst(rate) < U64 && tokens <= Burst(rate)
    requires forall i :: 0 <= i < |sched| ==> OneRefiller(Exec(Start(tokens, ts, cpus), sched[..i], rate))
    ensures WithinBurst(Exec(Start(tokens, ts, cpus), sched, rate), rate)
  {
    if sched != [] {
      var n := |sched| - 1;
      forall i | 0 <= i < n
        ensures OneRefiller(Exec(Start(tokens, ts, cpus), sched[..n][..i], rate))
      {
        assert sched[..n][..i] == sched[..i];
      }
      BurstRespected(tokens, ts, cpus, sched[..n], rate);
      WithinBurstStep(Exec(Start(tokens, ts, cpus), sched[..n], rate), sched[n], rate);
    }
  }

  // ---- one call among the others ----

  /** What concerns one call: the bucket and where its CPU stands. */
  datatype View = View(b: Bucket, pc: Pc)

  function ViewOf(s: Sys, c: nat): View
    requires c < |s.pc|
  { View(Bucket(s.tokens, s.ts), s.pc[c]) }

  /** One step of a call, seen from the call. */
  function Advance(v: View, rate: u64): View
    requires Burst(rate) < U64
  {
    if Sound(v.pc) then ViewOf(Step(Sys(v.b.tokens, v.b.ts, [v.pc], 0, 0, 0, 0, 0), 0, 0, rate), 0) else v
  }

  function Mover(rate: u64): View -> View
    requires Burst(rate) < U64
  { (v: View) => Advance(v, rate) }

  /** A call after `n` moves, with the others at the bucket before each of them. */
  function After(f: View -> View, v: View, o: Others, n: nat): View {
    if n == 0 then v
    else
      var u := After(f, v, o, n - 1);
      f(u.(b := Found(u.b, o, n - 1)))
  }

  /** A call from move `n` until it returns. */
  function Finish(f: View -> View, v: View, o: Others, n: nat, fuel: nat): View
    decreases fuel
  {
    if fuel == 0 || v.pc.Done? then v else Finish(f, f(v.(b := Found(v.b, o, n))), o, n + 1, fuel - 1)
  }

  lemma {:induction false} FinishAfter(f: View -> View, v: View, o: Others, i: nat, n: nat, fuel: nat)
    requires i <= n && fuel >= n - i && After(f, v, o, n).pc.Done?
    requires forall j :: 0 <= j < n ==> !After(f, v, o, j).pc.Done?
    ensures Finish(f, After(f, v, o, i), o, i, fuel) == After(f, v, o, n)
    decreases n - i
  {
    if i < n {
      FinishAfter(f, v, o, i + 1, n, fuel - 1);
    }
  }

  lemma {:induction false} AfterSnoc(f: View -> View, v: View, o: Others, x: Option<Bucket>, n: nat)
    requires n <= |o|
    ensures After(f, v, o + [x], n) == After(f, v, o, n)
  {
    if n > 0 {
      AfterSnoc(f, v, o, x, n - 1);
    }
  }

  function Outcome(b: Bucket, pass: bool): View { View(b, Done(pass)) }

  lemma {:induction false} SpendPhase(b: Bucket, o: Others, n: nat, i: nat, rate: u64, fuel: nat)
    requires Burst(rate) < U64 && i <= TRIES && fuel >= 2 * (TRIES - i) + 1
    ensures var (r, pass) := SpentAmid(b, o, n, i);
            Finish(Mover(rate), View(b, ReadSpend(i)), o, n, fuel) == Outcome(r, pass)
    decreases TRIES - i
  {
    var u := Advance(View(Found(b, o, n), ReadSpend(i)), rate);
    assert Finish(Mover(rate), View(b, ReadSpend(i)), o, n, fuel) == Finish(Mover(rate), u, o, n + 1, fuel - 1);
    if u.pc.CasSpend? {
      var w := Advance(u.(b := Found(u.b, o, n + 1)), rate);
      assert Finish(Mover(rate), u, o, n + 1, fuel - 1) == Finish(Mover(rate), w, o, n + 2, fuel - 2);
      if w.pc.ReadSpend? {
        SpendPhase(w.b, o, n + 2, i + 1, rate, fuel - 2);
      }
    }
  }

  /** The clamp and the addition, as two moves or one. */
  lemma AddMoves(b: Bucket, add: u64, o: Others, n: nat, rate: u64)
    requires Burst(rate) < U64
    ensures var p := AddedAmid(b, add, Burst(rate), o, n);
            var u := Advance(View(Found(b, o, n), ReadTokens(add)), rate);
            if p.next == n + 2 then u.pc.AddTokens? && Advance(u.(b := Found(u.b, o, n + 1)), rate) == View(p.b, ReadSpend(0))
            else p.next == n + 1 && u == View(p.b, ReadSpend(0))
  {
  }

  lemma AddPhase(b: Bucket, add: u64, o: Others, n: nat, rate: u64, fuel: nat)
    requires Burst(rate) < U64 && fuel >= 11
    ensures var p := AddedAmid(b, add, Burst(rate), o, n);
            var (r, pass) := SpentAmid(p.b, o, p.next, 0);
            Finish(Mover(rate), View(b, ReadTokens(add)), o, n, fuel) == Outcome(r, pass)
  {
    AddMoves(b, add, o, n, rate);
    var p := AddedAmid(b, add, Burst(rate), o, n);
    var u := Advance(View(Found(b, o, n), ReadTokens(add)), rate);
    assert Finish(Mover(rate), View(b, ReadTokens(add)), o, n, fuel) == Finish(Mover(rate), u, o, n + 1, fuel - 1);
    if p.next == n + 2 {
      var w := Advance(u.(b := Found(u.b, o, n + 1)), rate);
      assert Finish(Mover(rate), u, o, n + 1, fuel - 1) == Finish(Mover(rate), w, o, n + 2, fuel - 2);
    }
    SpendPhase(p.b, o, p.next, 0, rate, fuel - (p.next - n));
  }

  /** The steps of one call add up to `ChargeAmid`. */
  lemma CallPhase(b: Bucket, now: u64, o: Others, rate: u64, fuel: nat)
    requires Burst(rate) < U64 && fuel >= 13
    ensures var (r, pass) := ChargeAmid(b, rate, now, o);
            Finish(Mover(rate), View(b, Begin(now)), o, 0, fuel) == Outcome(r, pass)
  {
    var u := Advance(View(Found(b, o, 0), Begin(now)), rate);
    assert Finish(Mover(rate), View(b, Begin(now)), o, 0, fuel) == Finish(Mover(rate), u, o, 1, fuel - 1);
    if u.pc.CasTs? {
      var w := Advance(u.(b := Found(u.b, o, 1)), rate);
      assert Finish(Mover(rate), u, o, 1, fuel - 1) == Finish(Mover(rate), w, o, 2, fuel - 2);
      if w.pc.ReadTokens? {
        AddPhase(w.b, w.pc.add, o, 2, rate, fuel - 2);
      } else {
        SpendPhase(w.b, o, 2, 0, rate, fuel - 2);
      }
    } else {
      SpendPhase(u.b, o, 1, 0, rate, fuel - 1);
    }
  }

  /** What the turns of CPU `c` in a schedule find in the bucket. */
  ghost function Finds(s: Sys, c: nat, sched: seq<Turn>, rate: u64): Others
    requires Schedule(sched, |s.pc|) && c < |s.pc| && Sane(s) && Burst(rate) < U64
  {
    if sched == [] then []
    else
      var n := |sched| - 1;
      Finds(s, c, sched[..n], rate)
      + if sched[n].cpu == c then [Some(ViewOf(Exec(s, sched[..n], rate), c).b)] else []
  }

  /** CPU `c` is inside one call, from `s` to before the last turn of the schedule. */
  ghost predicate InCall(s: Sys, c: nat, sched: seq<Turn>, rate: u64)
    requires Schedule(sched, |s.pc|) && c < |s.pc| && Sane(s) && Burst(rate) < U64
  {
    && s.pc[c].Begin?
    && forall i :: 0 <= i < |sched| ==> !Exec(s, sched[..i], rate).pc[c].Done?
  }

  /** One turn of the schedule, seen from the call of CPU `c`. */
  lemma TurnView(s: Sys, c: nat, t: Turn, rate: u64)
    requires c < |s.pc| && t.cpu < |s.pc| && Sane(s) && Burst(rate) < U64 && !s.pc[c].Idle? && !s.pc[c].Done?
    ensures var r := Step(s, t.cpu, t.now, rate);
            !r.pc[c].Idle? && if t.cpu == c then ViewOf(r, c) == Mover(rate)(ViewOf(s, c)) else r.pc[c] == s.pc[c]
  {
    if t.cpu == c {
      OwnTurn(s, c, t.now, rate);
    }
  }

  lemma OwnTurn(s: Sys, c: nat, now: u64, rate: u64)
    requires c < |s.pc| && Sane(s) && Burst(rate) < U64 && !s.pc[c].Idle? && !s.pc[c].Done?
    ensures var r := Step(s, c, now, rate); !r.pc[c].Idle? && ViewOf(r, c) == Advance(ViewOf(s, c), rate)
  {
  }

  /** The call after its turns in the schedule, seen from the call, and never over before. */
  ghost predicate Tracks(f: View -> View, v: View, o: Others, now: View) {
    && After(f, v, o, |o|).pc == now.pc
    && forall j :: 0 <= j < |o| ==> !After(f, v, o, j).pc.Done?
  }

  lemma NextTracks(f: View -> View, v: View, o: Others, o': Others, q: View, r: View, own: bool)
    requires Tracks(f, v, o, q) && !q.pc.Done?
    requires if own then r == f(q) && o' == o + [Some(q.b)] else r.pc == q.pc && o' == o
    ensures Tracks(f, v, o', r) && (own ==> After(f, v, o', |o'|) == r)
  {
    if own {
      forall j | 0 <= j <= |o|
        ensures After(f, v, o', j) == After(f, v, o, j)
      {
        AfterSnoc(f, v, o, Some(q.b), j);
      }
    }
  }

  ghost predicate Tracked(s: Sys, c: nat, sched: seq<Turn>, rate: u64)
    requires Schedule(sched, |s.pc|) && c < |s.pc| && Sane(s) && Burst(rate) < U64
  {
    var r, v, o := ViewOf(Exec(s, sched, rate), c), ViewOf(s, c), Finds(s, c, sched, rate);
    && !r.pc.Idle? && Tracks(Mover(rate), v, o, r)
    && (sched != [] && sched[|sched| - 1].cpu == c ==> After(Mover(rate), v, o, |o|) == r)
  }

  lemma TrackedNext(s: Sys, c: nat, sched: seq<Turn>, rate: u64)
    requires Schedule(sched, |s.pc|) && c < |s.pc| && Sane(s) && Burst(rate) < U64 && sched != []
    requires var front := sched[..|sched| - 1]; Tracked(s, c, front, rate) && !Exec(s, front, rate).pc[c].Done?
    ensures Tracked(s, c, sched, rate)
  {
    var n := |sched| - 1;
    var q := Exec(s, sched[..n], rate);
    TurnView(q, c, sched[n], rate);
    NextTracks(Mover(rate), ViewOf(s, c), Finds(s, c, sched[..n], rate), Finds(s, c, sched, rate), ViewOf(q, c),
               ViewOf(Step(q, sched[n].cpu, sched[n].now, rate), c), sched[n].cpu == c);
  }

  lemma {:induction false} CallTracks(s: Sys, c: nat, sched: seq<Turn>, rate: u64)
    requires Schedule(sched, |s.pc|) && c < |s.pc| && Sane(s) && Burst(rate) < U64 && InCall(s, c, sched, rate)
    ensures Tracked(s, c, sched, rate)
  {
    if sched != [] {
      InCallBefore(s, c, sched, rate);
      CallTracks(s, c, sched[..|sched| - 1], rate);
      TrackedNext(s, c, sched, rate);
    }
  }

  lemma InCallPrefix(s: Sys, c: nat, sched: seq<Turn>, n: nat, rate: u64)
    requires Schedule(sched, |s.pc|) && c < |s.pc| && Sane(s) && Burst(rate) < U64 && InCall(s, c, sched, rate)
    requires n <= |sched|
    ensures InCall(s, c, sched[..n], rate)
  {
    forall i | 0 <= i < n
      ensures sched[..n][..i] == sched[..i]
    {
    }
  }

  lemma InCallBefore(s: Sys, c: nat, sched: seq<Turn>, rate: u64)
    requires Schedule(sched, |s.pc|) && c < |s.pc| && Sane(s) && Burst(rate) < U64 && InCall(s, c, sched, rate)
    requires sched != []
    ensures InCall(s, c, sched[..|sched| - 1], rate) && !Exec(s, sched[..|sched| - 1], rate).pc[c].Done?
  {
    InCallPrefix(s, c, sched, |sched| - 1, rate);
  }

  /** Every call in every schedule is `ChargeAmid`, with the others doing what they did
      to the bucket before each of its turns. */
  lemma EveryCallIsCharge(s: Sys, c: nat, sched: seq<Turn>, rate: u64)
    requires Schedule(sched, |s.pc|) && c < |s.pc| && Sane(s) && Burst(rate) < U64 && InCall(s, c, sched, rate)
    requires sched != [] && sched[|sched| - 1].cpu == c && Exec(s, sched, rate).pc[c].Done?
    ensures var r := Exec(s, sched, rate);
            ChargeAmid(ViewOf(s, c).b, rate, s.pc[c].now, Finds(s, c, sched, rate)) == (ViewOf(r, c).b, r.pc[c].pass)
  {
    CallTracks(s, c, sched, rate);
    var v, o := ViewOf(s, c), Finds(s, c, sched, rate);
    FinishAfter(Mover(rate), v, o, 0, |o|, |o| + 13);
    CallPhase(v.b, s.pc[c].now, o, rate, |o| + 13);
  }

  ghost predicate OnlyTurns(sched: seq<Turn>, c: nat) { forall i :: 0 <= i < |sched| ==> sched[i].cpu == c }

  lemma {:induction false} AloneAfter(s: Sys, c: nat, sched: seq<Turn>, rate: u64)
    requires Schedule(sched, |s.pc|) && c < |s.pc| && Sane(s) && Burst(rate) < U64 && InCall(s, c, sched, rate)
    requires OnlyTurns(sched, c)
    ensures var r := Exec(s, sched, rate);
            !r.pc[c].Idle? && After(Mover(rate), ViewOf(s, c), QUIET, |sched|) == ViewOf(r, c)
  {
    if sched != [] {
      var n := |sched| - 1;
      InCallBefore(s, c, sched, rate);
      AloneAfter(s, c, sched[..n], rate);
      TurnView(Exec(s, sched[..n], rate), c, sched[n], rate);
    }
  }

  /** A call that nobody interrupts is the sequential charge, wherever the others stand. */
  lemma UninterruptedIsCharge(s: Sys, c: nat, sched: seq<Turn>, rate: u64, ok: bool)
    requires Schedule(sched, |s.pc|) && c < |s.pc| && Sane(s) && Burst(rate) < U64 && InCall(s, c, sched, rate)
    requires OnlyTurns(sched, c) && Exec(s, sched, rate).pc[c].Done? && 1 <= rate
    ensures var r := Exec(s, sched, rate);
            Charge(Some(ViewOf(s, c).b), rate, s.pc[c].now, ok) == (Some(ViewOf(r, c).b), r.pc[c].pass)
  {
    var v, n := ViewOf(s, c), |sched|;
    forall j | 0 <= j <= n
      ensures After(Mover(rate), v, QUIET, j) == ViewOf(Exec(s, sched[..j], rate), c)
    {
      InCallPrefix(s, c, sched, j, rate);
      AloneAfter(s, c, sched[..j], rate);
    }
    assert sched[..n] == sched;
    FinishAfter(Mover(rate), v, QUIET, 0, n, n + 13);
    CallPhase(v.b, s.pc[c].now, QUIET, rate, n + 13);
    QuietCharge(v.b, rate, s.pc[c].now);
  }

  // ---- the clamp alone does not respect the burst ----

  const GAP: u64 := 0x8000_0000         // 2^31 ns
  const RATE_LIMIT := 0x2_0000_0000     // 2^33; both of the program's rates are far below

  /** An interval of 2^31 ns is worth more than a burst, and its product does not wrap. */
  lemma GapFillsBurst(rate: u64)
    requires 1 <= rate < RATE_LIMIT
    ensures Burst(rate) < U64 && Credit(GAP, rate) >= Burst(rate)
  {
  }

  lemma ExecSnoc(s: Sys, sched: seq<Turn>, t: Turn, rate: u64)
    requires Schedule(sched, |s.pc|) && t.cpu < |s.pc| && Sane(s) && Burst(rate) < U64
    ensures Schedule(sched + [t], |s.pc|)
    ensures Exec(s, sched + [t], rate) == Step(Exec(s, sched, rate), t.cpu, t.now, rate)
  {
  }

  predicate Resting(p: Pc) { p.Idle? || p.Done? }

  lemma WinSteps(s: Sys, c: nat, now: u64, rate: u64)
    requires c < |s.pc| && Sane(s) && 1 <= rate < RATE_LIMIT && Burst(rate) < U64
    requires Resting(s.pc[c]) && s.tokens < Burst(rate) && now == s.ts + GAP
    ensures var r := Step(Step(s, c, now, rate), c, now, rate);
            Step(Step(r, c, now, rate), c, now, rate) == Move(s, c, AddTokens(Burst(rate) - s.tokens)).(ts := now)
  {
    GapFillsBurst(rate);
    var r := Step(Step(s, c, now, rate), c, now, rate);
    assert r == Move(s, c, CasTs(now, s.ts));
    var w := Step(r, c, now, rate);
    assert w == Move(s, c, ReadTokens(Credit(GAP, rate))).(ts := now);
  }

  /** CPU `c` wins an interval of 2^31 ns and clamps its refill to the room left, but
      stops before adding it. */
  lemma WinAndStop(s: Sys, sched: seq<Turn>, c: nat, now: u64, rate: u64) returns (sched': seq<Turn>)
    requires c < |s.pc| && Sane(s) && Schedule(sched, |s.pc|) && 1 <= rate < RATE_LIMIT && Burst(rate) < U64
    requires var e := Exec(s, sched, rate); Resting(e.pc[c]) && e.tokens < Burst(rate) && now == e.ts + GAP
    ensures Schedule(sched', |s.pc|)
    ensures var e := Exec(s, sched, rate);
            Exec(s, sched', rate) == Move(e, c, AddTokens(Burst(rate) - e.tokens)).(ts := now)
  {
    WinSteps(Exec(s, sched, rate), c, now, rate);
    var t := Turn(c, now);
    ExecSnoc(s, sched, t, rate);
    ExecSnoc(s, sched + [t], t, rate);
    ExecSnoc(s, sched + [t] + [t], t, rate);
    ExecSnoc(s, sched + [t] + [t] + [t], t, rate);
    sched' := sched + [t] + [t] + [t] + [t];
  }

  /** The first `k` CPUs hold a refill that fills the bucket, the others are at rest. */
  ghost predicate Winners(s: Sys, tokens: u64, ts: nat, k: nat, room: nat) {
    && s.tokens == tokens && s.ts == ts + k * GAP && k <= |s.pc| && room < U64
    && forall i :: 0 <= i < |s.pc| ==> if i < k then s.pc[i] == AddTokens(room) else Resting(s.pc[i])
  }

  lemma {:induction false} LetWin(s: Sys, base: seq<Turn>, tokens: u64, ts: u64, k: nat, rate: u64)
    returns (sched: seq<Turn>)
    requires Sane(s) && Schedule(base, |s.pc|) && k <= |s.pc| && 1 <= rate < RATE_LIMIT
    requires tokens < Burst(rate) < U64 && ts + k * GAP < U64
    requires Winners(Exec(s, base, rate), tokens, ts, 0, Burst(rate) - tokens)
    ensures Schedule(sched, |s.pc|)
    ensures Winners(Exec(s, sched, rate), tokens, ts, k, Burst(rate) - tokens)
  {
    if k == 0 {
      sched := base;
    } else {
      sched := LetWin(s, base, tokens, ts, k - 1, rate);
      sched := WinAndStop(s, sched, k - 1, ts + k * GAP, rate);
    }
  }

  /** ... and the first `j` of the `k` winners have added theirs. */
  ghost predicate Adders(s: Sys, tokens: u64, j: nat, k: nat, room: nat) {
    && s.tokens == tokens + j * room && j <= k <= |s.pc| && room < U64
    && forall i :: j <= i < k ==> s.pc[i] == AddTokens(room)
  }

  lemma NextAdds(s: Sys, tokens: u64, j: nat, k: nat, room: nat, rate: u64)
    requires Adders(s, tokens, j, k, room) && j < k && Sane(s) && Burst(rate) < U64
    requires tokens + (j + 1) * room < U64
    ensures Adders(Step(s, j, 0, rate), tokens, j + 1, k, room)
  {
    assert (j + 1) * room == j * room + room;
    assert Step(s, j, 0, rate).tokens == s.tokens + room;
  }

  lemma {:induction false} LetAdd(s: Sys, tokens: u64, sched: seq<Turn>, j: nat, k: nat, room: nat, rate: u64)
    returns (sched': seq<Turn>)
    requires Sane(s) && Schedule(sched, |s.pc|) && Burst(rate) < U64 && j <= k && tokens + j * room < U64
    requires Adders(Exec(s, sched, rate), tokens, 0, k, room)
    ensures Schedule(sched', |s.pc|) && Adders(Exec(s, sched', rate), tokens, j, k, room)
  {
    if j == 0 {
      sched' := sched;
    } else {
      assert j * room == (j - 1) * room + room;
      sched' := LetAdd(s, tokens, sched, j - 1, k, room, rate);
      NextAdds(Exec(s, sched', rate), tokens, j - 1, k, room, rate);
      ExecSnoc(s, sched', Turn(j - 1, 0), rate);
      sched' := sched' + [Turn(j - 1, 0)];
    }
  }

  /** From a state in which all CPUs are at rest, `k` of them add all the room there is. */
  lemma LetOvershoot(s: Sys, base: seq<Turn>, k: nat, rate: u64) returns (sched: seq<Turn>)
    requires Sane(s) && Schedule(base, |s.pc|) && k <= |s.pc| && 1 <= rate < RATE_LIMIT && Burst(rate) < U64
    requires var e := Exec(s, base, rate);
             && (forall i :: 0 <= i < |e.pc| ==> Resting(e.pc[i]))
             && e.tokens < Burst(rate) && e.ts + k * GAP < U64 && e.tokens + k * (Burst(rate) - e.tokens) < U64
    ensures Schedule(sched, |s.pc|)
    ensures var e := Exec(s, base, rate);
            Exec(s, sched, rate).tokens == e.tokens + k * (Burst(rate) - e.tokens)
  {
    var e := Exec(s, base, rate);
    sched := LetWin(s, base, e.tokens, e.ts, k, rate);
    sched := LetAdd(s, e.tokens, sched, k, k, Burst(rate) - e.tokens, rate);
  }

  /** CPUs that clamp against the same level overshoot the burst: of N CPUs any `k`
      can each add all the room that was left. */
  lemma ClampCanOvershoot(tokens: u64, ts: u64, cpus: nat, k: nat, rate: u64) returns (sched: seq<Turn>)
    requires k <= cpus && 1 <= rate < RATE_LIMIT && tokens < Burst(rate) < U64
    requires ts + k * GAP < U64 && tokens + k * (Burst(rate) - tokens) < U64
    ensures Schedule(sched, cpus)
    ensures Exec(Start(tokens, ts, cpus), sched, rate).tokens == tokens + k * (Burst(rate) - tokens)
  {
    sched := LetOvershoot(Start(tokens, ts, cpus), [], k, rate);
  }

  /** The bound of N bursts in `TokensConserved` is reached, for every N. */
  lemma ManyBurstsReached(cpus: nat, rate: u64) returns (sched: seq<Turn>)
    requires 1 <= rate < RATE_LIMIT && Burst(rate) < U64 && cpus * GAP < U64 && cpus * Burst(rate) < U64
    ensures Schedule(sched, cpus) && Exec(Start(0, 0, cpus), sched, rate).tokens == cpus * Burst(rate)
  {
    sched := ClampCanOvershoot(0, 0, cpus, cpus, rate);
  }

  /** CPU 0 takes one packet out of a bucket that needs no refill. */
  lemma SpendOne(tokens: u64, ts: u64, cpus: nat, rate: u64) returns (sched: seq<Turn>)
    requires cpus >= 1 && Burst(rate) < U64 && tokens >= COST
    ensures Schedule(sched, cpus)
    ensures var s := Start(tokens, ts, cpus);
            var r := Exec(s, sched, rate);
            r.tokens == tokens - COST && r.ts == ts && r.pc == s.pc[0 := Done(true)]
  {
    var s, t := Start(tokens, ts, cpus), Turn(0, ts);
    ExecSnoc(s, [], t, rate);
    ExecSnoc(s, [] + [t], t, rate);
    ExecSnoc(s, [] + [t] + [t], t, rate);
    ExecSnoc(s, [] + [t] + [t] + [t], t, rate);
    sched := [] + [t] + [t] + [t] + [t];
  }

  /** Two CPUs exceed one burst from any level, a full bucket included. */
  lemma TwoExceedOneBurst(tokens: u64, ts: u64, cpus: nat, rate: u64) returns (sched: seq<Turn>)
    requires cpus >= 2 && 1 <= rate < RATE_LIMIT && tokens <= Burst(rate) < U64 && ts + 2 * GAP < U64
    ensures Schedule(sched, cpus) && Exec(Start(tokens, ts, cpus), sched, rate).tokens > Burst(rate)
  {
    var s, base := Start(tokens, ts, cpus), [];
    if tokens == Burst(rate) {
      base := SpendOne(tokens, ts, cpus, rate);
    }
    sched := LetOvershoot(s, base, 2, rate);
  }

  /** From any bucket within its burst, no schedule exceeds one burst if and only if
      there is no second CPU to race with. */
  lemma OneBurstIff(tokens: u64, ts: u64, cpus: nat, rate: u64)
    requires 1 <= rate < RATE_LIMIT && tokens <= Burst(rate) < U64 && ts + 2 * GAP < U64
    ensures (forall sched | Schedule(sched, cpus) :: Exec(Start(tokens, ts, cpus), sched, rate).tokens <= Burst(rate))
            <==> cpus <= 1
  {
    if cpus >= 2 {
      var sched := TwoExceedOneBurst(tokens, ts, cpus, rate);
      assert Exec(Start(tokens, ts, cpus), sched, rate).tokens > Burst(rate);
    } else {
      forall sched | Schedule(sched, cpus)
        ensures Exec(Start(tokens, ts, cpus), sched, rate).tokens <= Burst(rate)
      {
        BurstRespected(tokens, ts, cpus, sched, rate);
      }
    }
  }
}
