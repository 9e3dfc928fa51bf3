/** The memory limits that apply to the process: the upward walk over its cgroup and
    all ancestors, and the sizing built on it (internal/config/resources.go). */
module Cgroup {
  import opened Types
  import opened Sizing

  /** A cleaned absolute directory, as its components. */
  type Path = seq<string>

  /** Where the process's memory cgroup is: the mount and the path below it. */
  datatype Location = Location(root: Path, rel: Path)

  /** The numbers in the limit and usage files of a directory; None for a missing
      file, "max", or anything that does not parse as a u64. */
  datatype Files = Files(max: Path -> Option<u64>, cur: Path -> Option<u64>)

  /** At most 1024 times the host's memory; the u64 product wraps from 2^54 bytes on. */
  predicate Plausible(v: nat, hostTotal: u64) { hostTotal == 0 || v <= hostTotal * 1024 % U64 }

  /** Implausible values read as 0. */
  function ParseMemoryValue(v: Option<u64>, hostTotal: u64): (r: u64)
    ensures r < MEM_LIMIT && (r > 0 ==> v == Some(r))
    ensures r > 0 <==> v.Some? && 0 < v.value < MEM_LIMIT && Plausible(v.value, hostTotal)
    ensures hostTotal < 0x40_0000_0000_0000 ==> (Plausible(r, hostTotal) <==> hostTotal == 0 || r <= 1024 * hostTotal)
  {
    if v.None? || v.value >= MEM_LIMIT || (hostTotal > 0 && v.value > hostTotal * 1024 % U64) then 0 else v.value
  }

  function LimitAt(fs: Files, d: Path, hostTotal: u64): u64 { ParseMemoryValue(fs.max(d), hostTotal) }
  function UsageAt(fs: Files, d: Path): u64 { ParseMemoryValue(fs.cur(d), 0) }

  /** Room left in a limited directory; 0 when unlimited or full. */
  function RoomAt(fs: Files, d: Path, hostTotal: u64): u64 {
    var max, cur := LimitAt(fs, d, hostTotal), UsageAt(fs, d);
    if max > cur then max - cur else 0
  }

  /** In terms of the two files: the limit must be plausible for the host, the usage need
      not be, and a usage that cannot be read counts as none. */
  lemma RoomIs(fs: Files, d: Path, hostTotal: u64)
    ensures var max, cur := fs.max(d), fs.cur(d);
            var usage := if cur.Some? && cur.value < 0x1000_0000_0000_0000 then cur.value else 0;
            var limited := max.Some? && max.value < 0x1000_0000_0000_0000
                           && (hostTotal == 0 || max.value <= hostTotal * 1024 % 0x1_0000_0000_0000_0000);
            && LimitAt(fs, d, hostTotal) == (if limited then max.value else 0)
            && UsageAt(fs, d) == usage
            && RoomAt(fs, d, hostTotal) == (if limited && max.value > usage then max.value - usage else 0)
  {
  }

  /** The directory `i` components below the root: the cgroup or one of its ancestors. */
  function Ancestor(l: Location, i: nat): Path
    requires i <= |l.rel|
  { l.root + l.rel[..i] }

  /** The least positive value, or 0 when there is none. */
  ghost predicate LeastLimit(x: nat, fs: Files, l: Location, hostTotal: u64, lo: nat) {
    && (x > 0 ==> exists i :: lo <= i <= |l.rel| && LimitAt(fs, Ancestor(l, i), hostTotal) == x)
    && forall i :: lo <= i <= |l.rel| ==>
         var v := LimitAt(fs, Ancestor(l, i), hostTotal); v > 0 ==> 0 < x <= v
  }

  ghost predicate LeastRoom(x: nat, fs: Files, l: Location, hostTotal: u64, lo: nat) {
    && (x > 0 ==> exists i :: lo <= i <= |l.rel| && RoomAt(fs, Ancestor(l, i), hostTotal) == x)
    && forall i :: lo <= i <= |l.rel| ==>
         var v := RoomAt(fs, Ancestor(l, i), hostTotal); v > 0 ==> 0 < x <= v
  }

  /** `current` is the usage of the deepest directory whose limit is `limit`. */
  ghost predicate UsageBeside(limit: nat, current: nat, fs: Files, l: Location, hostTotal: u64, lo: nat) {
    exists i ::
      lo <= i <= |l.rel| && LimitAt(fs, Ancestor(l, i), hostTotal) == limit && UsageAt(fs, Ancestor(l, i)) == current
      && forall j :: i < j <= |l.rel| ==> LimitAt(fs, Ancestor(l, j), hostTotal) != limit
  }

  /** The least positive number of a list; 0 when there is none. */
  function Least(s: seq<nat>): (x: nat)
    ensures x > 0 ==> exists i :: 0 <= i < |s| && s[i] == x
    ensures forall i :: 0 <= i < |s| && s[i] > 0 ==> 0 < x <= s[i]
  {
    if s == [] then 0
    else
      assert forall i :: 0 < i < |s| ==> s[i] == s[1..][i - 1];
      var rest := Least(s[1..]);
      if s[0] > 0 && (rest == 0 || s[0] < rest) then s[0] else rest
  }

  /** The limits and the rooms of the cgroup and all its ancestors. */
  function Limits(cg: Option<Location>, fs: Files, hostTotal: u64): seq<nat> {
    if cg.None? then []
    else seq(|cg.value.rel| + 1, i requires 0 <= i <= |cg.value.rel| => LimitAt(fs, Ancestor(cg.value, i), hostTotal))
  }

  function Rooms(cg: Option<Location>, fs: Files, hostTotal: u64): seq<nat> {
    if cg.None? then []
    else seq(|cg.value.rel| + 1, i requires 0 <= i <= |cg.value.rel| => RoomAt(fs, Ancestor(cg.value, i), hostTotal))
  }

  lemma LeastOfAll(x: nat, y: nat, l: Location, fs: Files, hostTotal: u64)
    ensures LeastLimit(x, fs, l, hostTotal, 0) ==> x == Least(Limits(Some(l), fs, hostTotal))
    ensures LeastRoom(y, fs, l, hostTotal, 0) ==> y == Least(Rooms(Some(l), fs, hostTotal))
  {
    var limits, rooms := Limits(Some(l), fs, hostTotal), Rooms(Some(l), fs, hostTotal);
    assert forall i :: 0 <= i < |limits| ==> limits[i] == LimitAt(fs, Ancestor(l, i), hostTotal);
    assert forall i :: 0 <= i < |rooms| ==> rooms[i] == RoomAt(fs, Ancestor(l, i), hostTotal);
  }

  datatype Found = Found(limit: u64, current: u64, headroom: u64)

  /** `f` is right for the directories `lo`.. of the walk. */
  ghost predicate WalkedTo(f: Found, fs: Files, l: Location, hostTotal: u64, lo: nat) {
    && LeastLimit(f.limit, fs, l, hostTotal, lo) && LeastRoom(f.headroom, fs, l, hostTotal, lo)
    && (if f.limit > 0 then UsageBeside(f.limit, f.current, fs, l, hostTotal, lo) else f.current == 0)
    && f.limit < MEM_LIMIT && f.headroom < MEM_LIMIT
  }

  /** `f'` is `f` after a look at one more directory. */
  predicate Visited(f: Found, f': Found, fs: Files, d: Path, hostTotal: u64) {
    var max, room := LimitAt(fs, d, hostTotal), RoomAt(fs, d, hostTotal);
    && (if max > 0 && (f.limit == 0 || max < f.limit) then f'.limit == max && f'.current == UsageAt(fs, d)
        else f'.limit == f.limit && f'.current == f.current)
    && f'.headroom == (if room > 0 && (f.headroom == 0 || room < f.headroom) then room else f.headroom)
  }

  lemma VisitExtends(f: Found, f': Found, fs: Files, l: Location, hostTotal: u64, i: nat)
    requires i <= |l.rel| && WalkedTo(f, fs, l, hostTotal, i + 1) && Visited(f, f', fs, Ancestor(l, i), hostTotal)
    ensures WalkedTo(f', fs, l, hostTotal, i)
  {
  }

  /** One directory of the walk. */
  method Visit(f: Found, fs: Files, dir: Path, hostTotal: u64) returns (f': Found)
    ensures Visited(f, f', fs, dir, hostTotal)
  {
    var limit, current, headroom := f.limit, f.current, f.headroom;
    var max := ParseMemoryValue(fs.max(dir), hostTotal);
    var cur := ParseMemoryValue(fs.cur(dir), 0);
    if max > 0 {
      if limit == 0 || max < limit {
        limit, current := max, cur;
      }
      if max > cur {
        var h := max - cur;
        if headroom == 0 || h < headroom {
          headroom := h;
        }
      }
    }
    f' := Found(limit, current, headroom);
  }

  lemma Parent(l: Location, i: nat)
    requires i <= |l.rel|
    ensures i == 0 <==> Ancestor(l, i) == l.root
    ensures i > 0 ==> Ancestor(l, i)[..|Ancestor(l, i)| - 1] == Ancestor(l, i - 1) && l.root <= Ancestor(l, i - 1)
  {
  }

  /** Walk from the process's cgroup up to the root: the least limit with the usage
      beside it, and the least headroom, over all ancestors. */
  method DetectCgroupMemory(cg: Option<Location>, fs: Files, hostTotal: u64) returns (f: Found)
    ensures f.limit == Least(Limits(cg, fs, hostTotal)) && f.headroom == Least(Rooms(cg, fs, hostTotal))
    ensures if f.limit > 0 then UsageBeside(f.limit, f.current, fs, cg.value, hostTotal, 0) else f.current == 0
    ensures f.limit < MEM_LIMIT && f.headroom < MEM_LIMIT
  {
    f := Found(0, 0, 0);
    if cg.None? {
      return;
    }
    var root := cg.value.root;
    var dir := root + cg.value.rel;
    ghost var i: nat := |cg.value.rel|;
    assert cg.value.rel[..i] == cg.value.rel;
    while true
      invariant i <= |cg.value.rel| && dir == Ancestor(cg.value, i) && WalkedTo(f, fs, cg.value, hostTotal, i + 1)
      decreases |dir|
    {
      var f' := Visit(f, fs, dir, hostTotal);
      VisitExtends(f, f', fs, cg.value, hostTotal, i);
      f := f';
      Parent(cg.value, i);
      if dir == root {
        break;
      }
      var parent := dir[..|dir| - 1];
      if parent == dir || !(root <= parent) {
        assert false;
      }
      dir, i := parent, i - 1;
    }
    LeastOfAll(f.limit, f.headroom, cg.value, fs, hostTotal);
  }

  // ---- host resources ----

  /** What the probes outside the cgroup tree found; CPU counts of 0 mean unknown. */
  datatype Probe = Probe(memTotal: u64, memAvailable: u64, possible: int, online: int)

  /** The least of the host's memory and every ancestor's limit. */
  function EffectiveOf(h: Probe, cg: Option<Location>, fs: Files): nat {
    Least([h.memTotal] + Limits(cg, fs, h.memTotal))
  }

  /** The least of the host's available memory and every ancestor's room, or else the
      effective memory. */
  function HeadroomOf(h: Probe, cg: Option<Location>, fs: Files): nat {
    var room := Least([h.memAvailable] + Rooms(cg, fs, h.memTotal));
    if room == 0 then EffectiveOf(h, cg, fs) else room
  }

  function CpusOf(h: Probe): int {
    if h.possible != 0 then h.possible else if h.online != 0 then h.online else 1
  }

  /** The lesser of two numbers of which 0 means none. */
  function LesserPositive(a: nat, b: nat): nat { if a > 0 && (b == 0 || a < b) then a else b }

  lemma LeastCons(x: nat, s: seq<nat>)
    ensures Least([x] + s) == LesserPositive(x, Least(s)) == LesserPositive(Least(s), x)
  {
    assert ([x] + s)[1..] == s;
  }

  /** The minima in two steps: over the cgroups first, then with the host's numbers. */
  lemma HostAndCgroup(h: Probe, cg: Option<Location>, fs: Files, limit: nat, room: nat)
    requires limit == Least(Limits(cg, fs, h.memTotal)) && room == Least(Rooms(cg, fs, h.memTotal))
    ensures EffectiveOf(h, cg, fs) == LesserPositive(limit, h.memTotal)
    ensures HeadroomOf(h, cg, fs) ==
            var x := LesserPositive(room, h.memAvailable); if x == 0 then EffectiveOf(h, cg, fs) else x
  {
    LeastCons(h.memTotal, Limits(cg, fs, h.memTotal));
    LeastCons(h.memAvailable, Rooms(cg, fs, h.memTotal));
  }

  method DetectHostResources(h: Probe, cg: Option<Location>, fs: Files) returns (r: HostResources)
    requires h.memTotal < MEM_LIMIT && h.memAvailable < MEM_LIMIT && h.possible < CPU_LIMIT && h.online < CPU_LIMIT
    ensures Sensible(r) && r.memTotal == h.memTotal && r.memAvailable == h.memAvailable
    ensures r.effective == EffectiveOf(h, cg, fs) && r.headroom == HeadroomOf(h, cg, fs)
    ensures r.cgroupLimit == Least(Limits(cg, fs, h.memTotal))
    ensures if r.cgroupLimit > 0 then UsageBeside(r.cgroupLimit, r.cgroupCurrent, fs, cg.value, h.memTotal, 0)
            else r.cgroupCurrent == 0
    ensures r.possibleCpus == CpusOf(h) && r.onlineCpus == if h.online != 0 then h.online else CpusOf(h)
    ensures r.limitedByCgroup <==> r.cgroupLimit > 0 && r.effective == r.cgroupLimit != h.memTotal
  {
    var possible, online := h.possible, h.online;
    if possible == 0 {
      possible := online;
    }
    if possible == 0 {
      possible := 1;
    }
    if online == 0 {
      online := possible;
    }
    var found := DetectCgroupMemory(cg, fs, h.memTotal);
    HostAndCgroup(h, cg, fs, found.limit, found.headroom);
    var effective, headroom, limited := Combine(h, found.limit, found.headroom);
    r := HostResources(h.memTotal, h.memAvailable, effective, headroom, found.limit, found.current,
                       possible, online, limited);
  }

  /** The host's memory cut down to what its cgroup leaves. */
  method Combine(h: Probe, limit: u64, room: u64) returns (effective: u64, headroom: u64, limited: bool)
    ensures effective == LesserPositive(limit, h.memTotal)
    ensures headroom == var x := LesserPositive(room, h.memAvailable); if x == 0 then effective else x
    ensures limited <==> limit > 0 && effective == limit != h.memTotal
  {
    effective := h.memTotal;
    limited := limit > 0 && (effective == 0 || limit < effective);
    if limited {
      effective := limit;
    }
    headroom := h.memAvailable;
    if room > 0 && (headroom == 0 || room < headroom) {
      headroom := room;
    }
    if headroom == 0 {
      headroom := effective;
    }
  }

  lemma LeastBelowEach(h: Probe, cg: Option<Location>, fs: Files, i: nat)
    requires cg.Some? && i <= |cg.value.rel|
    ensures var v := LimitAt(fs, Ancestor(cg.value, i), h.memTotal); v > 0 ==> EffectiveOf(h, cg, fs) <= v
    ensures var v := RoomAt(fs, Ancestor(cg.value, i), h.memTotal); v > 0 ==> HeadroomOf(h, cg, fs) <= v
  {
    var limits := [h.memTotal] + Limits(cg, fs, h.memTotal);
    var rooms := [h.memAvailable] + Rooms(cg, fs, h.memTotal);
    assert limits[i + 1] == LimitAt(fs, Ancestor(cg.value, i), h.memTotal);
    assert rooms[i + 1] == RoomAt(fs, Ancestor(cg.value, i), h.memTotal);
  }

  lemma BudgetMono(a: nat, b: nat, limit: nat, room: nat)
    ensures a <= limit ==> Min(a / 3, b) * 4 / 5 <= limit / 3 * 4 / 5
    ensures b <= room ==> Min(a / 3, b) * 4 / 5 <= room * 4 / 5
  {
  }

  lemma BudgetBelowEach(h: Probe, cg: Option<Location>, fs: Files, budget: nat)
    requires budget == Min(EffectiveOf(h, cg, fs) / 3, HeadroomOf(h, cg, fs)) * 4 / 5
    ensures cg.Some? ==> forall i :: 0 <= i <= |cg.value.rel| ==>
              var v := LimitAt(fs, Ancestor(cg.value, i), h.memTotal); v > 0 ==> budget <= v / 3 * 4 / 5
    ensures cg.Some? ==> forall i :: 0 <= i <= |cg.value.rel| ==>
              var v := RoomAt(fs, Ancestor(cg.value, i), h.memTotal); v > 0 ==> budget <= v * 4 / 5
  {
    if cg.Some? {
      forall i | 0 <= i <= |cg.value.rel|
        ensures var v := LimitAt(fs, Ancestor(cg.value, i), h.memTotal); v > 0 ==> budget <= v / 3 * 4 / 5
        ensures var v := RoomAt(fs, Ancestor(cg.value, i), h.memTotal); v > 0 ==> budget <= v * 4 / 5
      {
        var limit, room := LimitAt(fs, Ancestor(cg.value, i), h.memTotal), RoomAt(fs, Ancestor(cg.value, i), h.memTotal);
        LeastBelowEach(h, cg, fs, i);
        BudgetMono(EffectiveOf(h, cg, fs), HeadroomOf(h, cg, fs), limit, room);
      }
    }
  }

  /** End to end, as the setup wizard sizes a host: the map budget is 4/5 of the lesser
      of a third of the effective memory and the headroom, so at most that of every
      ancestor's limit and positive room. */
  method SizeHost(h: Probe, cg: Option<Location>, fs: Files) returns (rec: Recommendation)
    requires h.memTotal < MEM_LIMIT && h.memAvailable < MEM_LIMIT && h.possible < CPU_LIMIT && h.online < CPU_LIMIT
    ensures Sized(rec, EffectiveOf(h, cg, fs), HeadroomOf(h, cg, fs), if CpusOf(h) < 1 then 1 else CpusOf(h))
    ensures cg.Some? ==> forall i :: 0 <= i <= |cg.value.rel| ==>
              var v := LimitAt(fs, Ancestor(cg.value, i), h.memTotal); v > 0 ==> rec.budget <= v / 3 * 4 / 5
    ensures cg.Some? ==> forall i :: 0 <= i <= |cg.value.rel| ==>
              var v := RoomAt(fs, Ancestor(cg.value, i), h.memTotal); v > 0 ==> rec.budget <= v * 4 / 5
  {
    var r := DetectHostResources(h, cg, fs);
    rec := RecommendDedicated(r);
    BudgetBelowEach(h, cg, fs, rec.budget);
  }
}
