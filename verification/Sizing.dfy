/** Map sizing from host and cgroup memory (internal/config/resources.go). */
module Sizing {
  import opened Types

  const FLOW_ENTRY := 128
  const L1_ENTRY := 24
  const FIXED_MAPS := 10 * 1024 * 1024
  const STATS_PER_CPU := 98_512
  const MEM_LIMIT := 0x1000_0000_0000_0000   // 2^60
  const CPU_LIMIT := 0x1_0000_0000           // far beyond any kernel's possible CPUs

  datatype HostResources = HostResources(
    memTotal: u64, memAvailable: u64, effective: u64, headroom: u64,
    cgroupLimit: u64, cgroupCurrent: u64, possibleCpus: int, onlineCpus: int, limitedByCgroup: bool)

  datatype Recommendation = Recommendation(
    flowMax: u32, udpFlowMax: u32, l1Size: u32, budget: u64, estimated: u64, l1Bytes: u64, fixedBytes: u64)

  function Min(a: nat, b: nat): nat { if a < b then a else b }
  function Clamp(v: nat, lo: nat, hi: nat): nat { if v < lo then lo else if v > hi then hi else v }
  function RoundDown1024(v: nat): nat { v - v % 1024 }

  ghost predicate PowerOfTwo(p: nat) { p == 1 || (p > 1 && p % 2 == 0 && PowerOfTwo(p / 2)) }

  lemma DoublePower(p: nat)
    requires PowerOfTwo(p)
    ensures PowerOfTwo(2 * p)
  {
  }

  lemma {:induction false} PowersBelow(p: nat, q: nat)
    requires PowerOfTwo(p) && PowerOfTwo(q) && p <= q < 2 * p
    ensures p == q
  {
    if p > 1 {
      PowersBelow(p / 2, q / 2);
    }
  }

  /** The largest power of two not above `v`, or 0. */
  method FloorPowerOfTwo(v: u64) returns (p: u64)
    ensures v == 0 ==> p == 0
    ensures v != 0 ==> PowerOfTwo(p) && p <= v < 2 * p
    ensures forall q: nat :: PowerOfTwo(q) && q <= v ==> q <= p
  {
    if v == 0 {
      return 0;
    }
    p := 1;
    while p <= v / 2
      invariant PowerOfTwo(p) && p <= v
    {
      DoublePower(p);
      p := 2 * p;
    }
    forall q: nat | PowerOfTwo(q) && q <= v
      ensures q <= p
    {
      if p < q {
        PowersBelow(p, q);
      }
    }
  }

  // ---- recommendation ----

  predicate Sensible(r: HostResources) {
    r.memTotal < MEM_LIMIT && r.effective < MEM_LIMIT && r.headroom < MEM_LIMIT && r.possibleCpus < CPU_LIMIT
  }

  function Rest(budget: nat, used: nat): nat { if budget > used then budget - used else 0 }

  /** What may be spent on flow entries. */
  function FlowBudget(rec: Recommendation): nat { Rest(rec.budget, rec.fixedBytes + rec.l1Bytes) }

  /** A cache size that may be chosen: a power of two in [4096, 65536] whose slots, one
      set per CPU, fit into `most` bytes. */
  ghost predicate MayChoose(slots: nat, perSlot: nat, most: nat) {
    PowerOfTwo(slots) && 4096 <= slots <= 65536 && slots * perSlot <= most
  }

  ghost predicate Largest(slots: nat, perSlot: nat, most: nat) {
    MayChoose(slots, perSlot, most) && forall q: nat :: MayChoose(q, perSlot, most) ==> q <= slots
  }

  /** The largest size that may be chosen, or 0 when there is none. */
  ghost predicate LargestOrNone(slots: nat, perSlot: nat, most: nat) {
    if slots == 0 then forall q: nat :: !MayChoose(q, perSlot, most) else Largest(slots, perSlot, most)
  }

  /** The cache: the largest size within 1% of memory, if that leaves room in the budget
      beside the fixed maps; off if it does not, or if there is no such size. */
  ghost predicate SlotsOk(slots: nat, bytes: nat, effective: nat, p: nat, fixed: nat, budget: nat) {
    var perSlot, most := L1_ENTRY * p, effective / 100;
    && bytes == slots * perSlot && bytes <= most
    && if slots != 0 then Largest(slots, perSlot, most) && fixed + bytes < budget
       else forall q: nat :: Largest(q, perSlot, most) ==> fixed + q * perSlot >= budget
  }

  /** A flow table: 1024-aligned, within its cap, and the largest such that fits its
      share of the budget, but never below 1024 entries. */
  predicate TableOk(entries: nat, share: nat, cap: nat) {
    && entries % 1024 == 0 && 1024 <= entries <= cap
    && (entries > 1024 ==> entries * FLOW_ENTRY <= share)
    && (entries < cap ==> (entries + 1024) * FLOW_ENTRY > share)
  }

  const TCP_CAP := 0x400_0000
  const UDP_CAP := 0x100_0000

  /** The flow budget is split four to one. */
  predicate FlowsOk(rec: Recommendation) {
    && TableOk(rec.flowMax, FlowBudget(rec) * 4 / 5, TCP_CAP)
    && TableOk(rec.udpFlowMax, FlowBudget(rec) / 5, UDP_CAP)
  }

  /** The estimate adds up, and exceeds the budget only when the flow budget is too
      small for minimum tables, with the UDP table at its minimum. */
  predicate EstimateOk(rec: Recommendation) {
    && rec.estimated == rec.fixedBytes + rec.l1Bytes + FLOW_ENTRY * (rec.flowMax + rec.udpFlowMax)
    && (rec.estimated > rec.budget ==> rec.udpFlowMax == 1024 && FlowBudget(rec) < 5 * 1024 * FLOW_ENTRY)
  }

  /** Everything promised of a recommendation for this much memory and this many CPUs. */
  ghost predicate Sized(rec: Recommendation, effective: nat, headroom: nat, p: nat) {
    && rec.budget == Min(effective / 3, headroom) * 4 / 5
    && rec.fixedBytes == FIXED_MAPS + STATS_PER_CPU * p
    && SlotsOk(rec.l1Size, rec.l1Bytes, effective, p, rec.fixedBytes, rec.budget)
    && FlowsOk(rec) && EstimateOk(rec)
  }

  function Entries(share: nat, cap: nat): nat { Clamp(RoundDown1024(share / FLOW_ENTRY), 1024, cap) }

  lemma EntriesOk(share: nat, cap: nat)
    requires cap % 1024 == 0 && cap >= 1024
    ensures TableOk(Entries(share, cap), share, cap)
    ensures share >= 1024 * FLOW_ENTRY ==> Entries(share, cap) * FLOW_ENTRY <= share
  {
  }

  lemma SharesFit(fb: nat)
    requires fb >= 5 * 1024 * FLOW_ENTRY
    ensures FLOW_ENTRY * (Entries(fb * 4 / 5, TCP_CAP) + Entries(fb / 5, UDP_CAP)) <= fb
  {
  }

  lemma SmallShare(fb: nat)
    requires fb < 5 * 1024 * FLOW_ENTRY
    ensures Entries(fb / 5, UDP_CAP) == 1024
  {
  }

  method SizeL1(effective: u64, p: nat, fixed: u64, budget: u64) returns (slots: u64, bytes: u64)
    requires 1 <= p < CPU_LIMIT && fixed < MEM_LIMIT
    ensures SlotsOk(slots, bytes, effective, p, fixed, budget) && slots <= 65536 && bytes <= effective / 100
  {
    bytes := L1_ENTRY * p;
    slots := SlotsFor(effective / 100, bytes);
    bytes := slots * bytes;
    if fixed + bytes >= budget {
      slots, bytes := 0, 0;
    }
  }

  /** How many slots fit: a power of two, capped at 65536, or none below 4096. */
  method SlotsFor(budget: u64, perSlot: nat) returns (slots: nat)
    requires 0 < perSlot
    ensures LargestOrNone(slots, perSlot, budget) && slots * perSlot <= budget && slots <= 65536
  {
    var fit := Divide(budget, perSlot);
    slots := FloorPowerOfTwo(fit);
    ghost var floor := slots;
    if slots > 65536 {
      CapIsPower();
      slots := 65536;
    }
    if slots < 4096 {
      slots := 0;
    }
    MulMono(slots, fit, perSlot);
    forall q: nat | MayChoose(q, perSlot, budget)
      ensures q <= floor
    {
      FitsBelow(q, fit, perSlot, budget);
    }
  }

  lemma FitsBelow(q: nat, fit: nat, perSlot: nat, budget: nat)
    requires q * perSlot <= budget < (fit + 1) * perSlot
    ensures q <= fit
  {
    if q > fit {
      MulMono(fit + 1, q, perSlot);
    }
  }

  method Divide(x: u64, d: nat) returns (q: u64)
    requires d > 0
    ensures q * d <= x < (q + 1) * d
  {
    q := x / d;
  }

  lemma MulMono(a: nat, b: nat, c: nat)
    requires a <= b
    ensures a * c <= b * c
  {
  }

  lemma CapIsPower()
    ensures PowerOfTwo(65536)
  {
  }

  method SizeFlows(budget: u64, used: u64) returns (tcp: u32, udp: u32)
    ensures TableOk(tcp, Rest(budget, used) * 4 / 5, TCP_CAP) && TableOk(udp, Rest(budget, used) / 5, UDP_CAP)
    ensures used + FLOW_ENTRY * (tcp + udp) > budget ==> udp == 1024 && Rest(budget, used) < 5 * 1024 * FLOW_ENTRY
  {
    var flowBudget := 0;
    if budget > used {
      flowBudget := budget - used;
    }
    tcp := Entries(flowBudget * 4 / 5, TCP_CAP);
    udp := Entries(flowBudget / 5, UDP_CAP);
    EntriesOk(flowBudget * 4 / 5, TCP_CAP);
    EntriesOk(flowBudget / 5, UDP_CAP);
    if flowBudget >= 5 * 1024 * FLOW_ENTRY {
      SharesFit(flowBudget);
    } else {
      SmallShare(flowBudget);
    }
  }

  /** Split the budget between the cache and the flow tables. */
  method SizeTables(effective: u64, budget: u64, p: nat, fixed: u64) returns (rec: Recommendation)
    requires 1 <= p < CPU_LIMIT && fixed < MEM_LIMIT && effective < MEM_LIMIT
    ensures rec.budget == budget && rec.fixedBytes == fixed
    ensures SlotsOk(rec.l1Size, rec.l1Bytes, effective, p, fixed, budget)
    ensures FlowsOk(rec) && EstimateOk(rec)
  {
    var slots, l1Bytes := SizeL1(effective, p, fixed, budget);
    var tcp, udp := SizeFlows(budget, fixed + l1Bytes);
    rec := Recommendation(tcp, udp, slots, budget, fixed + l1Bytes + FLOW_ENTRY * (tcp + udp), l1Bytes, fixed);
  }

  method RecommendDedicated(r: HostResources) returns (rec: Recommendation)
    requires Sensible(r)
    ensures var effective := if r.effective == 0 then r.memTotal else r.effective;
            Sized(rec, effective, if r.headroom == 0 then effective else r.headroom,
                  if r.possibleCpus < 1 then 1 else r.possibleCpus)
  {
    var p := r.possibleCpus;
    if p < 1 {
      p := 1;
    }
    var effective := r.effective;
    if effective == 0 {
      effective := r.memTotal;
    }
    var headroom := r.headroom;
    if headroom == 0 {
      headroom := effective;
    }
    var budget := Min(effective / 3, headroom) * 4 / 5;
    rec := SizeTables(effective, budget, p, FIXED_MAPS + STATS_PER_CPU * p);
  }
}
