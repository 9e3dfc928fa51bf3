/** Counters and the enforcement mode: what is done with a decision, and how the
    books are kept. Per-CPU counters are modelled by their sum, unbounded. */
module Account {
  import opened Types
  import opened Flows
  import opened Frame
  import opened Machine

  datatype Stats = Stats(
    rxPkts: nat, rxBytes: nat, redirPkts: nat, redirBytes: nat, dropPkts: nat, dropBytes: nat,
    nonipPkts: nat, nonipBytes: nat, nontcpPkts: nat, nontcpBytes: nat, l1Hits: nat, rstPkts: nat, rstBytes: nat)

  datatype VlanStat = VlanStat(pkts: nat, bytes: nat, drops: nat)

  const VLANS := 4096

  datatype Books = Books(g: Stats, vlan: seq<VlanStat>, reasons: seq<nat>)

  predicate WellKept(b: Books) { |b.vlan| == VLANS && |b.reasons| == RSN_MAX }

  function Blank(): Books {
    Books(Stats(0, 0, 0, 0, 0, 0, 0, 0, 0, 0, 0, 0, 0), seq(VLANS, _ => VlanStat(0, 0, 0)), seq(RSN_MAX, _ => 0))
  }

  /** XDP_REDIRECT to the peer port, XDP_DROP, or XDP_TX of a reset. */
  datatype Action = Redirect | Drop | Transmit

  // ---- single entries ----

  function Receipt(b: Books, vid: u16, len: nat): Books
    requires WellKept(b) && vid < VLANS
  {
    var v := b.vlan[vid];
    b.(g := b.g.(rxPkts := b.g.rxPkts + 1, rxBytes := b.g.rxBytes + len),
       vlan := b.vlan[vid := v.(pkts := v.pkts + 1, bytes := v.bytes + len)])
  }

  function Redirected(b: Books, len: nat): Books {
    b.(g := b.g.(redirPkts := b.g.redirPkts + 1, redirBytes := b.g.redirBytes + len))
  }

  function Dropped(b: Books, vid: u16, len: nat): Books
    requires WellKept(b) && vid < VLANS
  {
    b.(g := b.g.(dropPkts := b.g.dropPkts + 1, dropBytes := b.g.dropBytes + len),
       vlan := b.vlan[vid := b.vlan[vid].(drops := b.vlan[vid].drops + 1)])
  }

  function Answered(b: Books, len: nat): Books {
    b.(g := b.g.(rstPkts := b.g.rstPkts + 1, rstBytes := b.g.rstBytes + len))
  }

  function Counted(b: Books, r: Reason): Books
    requires WellKept(b)
  { b.(reasons := b.reasons[r := b.reasons[r] + 1]) }

  function Noted(b: Books, k: Kind, len: nat): Books {
    match k
    case Inspected => b
    case CacheHit => b.(g := b.g.(l1Hits := b.g.l1Hits + 1))
    case PassNonIp => b.(g := b.g.(nonipPkts := b.g.nonipPkts + 1, nonipBytes := b.g.nonipBytes + len))
    case PassNonTcp => b.(g := b.g.(nontcpPkts := b.g.nontcpPkts + 1, nontcpBytes := b.g.nontcpBytes + len))
  }

  // ---- one packet ----

  /** A refusal is answered with a reset on the untrusted side, when enforcing and
      asked to, for the refusals that carry a TCP header. */
  predicate AnswersWithRst(pkt: Packet, tcp: bool) {
    tcp && !pkt.trusted && pkt.pol.Some? && pkt.pol.value.f.enforce && pkt.pol.value.f.rejectWithRst
  }

  function ActionOf(pkt: Packet, d: Decision): Action {
    match d
    case Reject(_, tcp) =>
      if AnswersWithRst(pkt, tcp) then Transmit
      else if pkt.pol.Some? && pkt.pol.value.f.enforce then Drop
      else Redirect
    case _ => Redirect
  }

  function Settle(b: Books, pkt: Packet, d: Decision): Books
    requires WellKept(b) && WellFormed(pkt.p)
  {
    match d
    case Bypass => b
    case Pass(k) => Redirected(Noted(b, k, pkt.len), pkt.len)
    case Reject(r, tcp) =>
      match ActionOf(pkt, d)
      case Transmit => Answered(Counted(b, r), pkt.len)
      case Drop => Dropped(Counted(b, r), Vid(pkt.p), pkt.len)
      case Redirect => Redirected(Counted(b, r), pkt.len)
  }

  /** Everything after the receive accounting. */
  function Settled(b: Books, pkt: Packet, r: Result): Books
    requires WellKept(b) && WellFormed(pkt.p)
  {
    Settle(if r.mapFail then Counted(b, RSN_MAP_FAIL) else b, pkt, r.decision)
  }

  function Record(b: Books, pkt: Packet, r: Result): (b': Books)
    requires WellKept(b) && WellFormed(pkt.p)
    ensures WellKept(b')
  {
    Settled(Receipt(b, Vid(pkt.p), pkt.len), pkt, r)
  }

  // ---- runs ----

  ghost function Ledger(cfg: L1Config, es: Trace): (b: Books)
    requires Proper(es)
    ensures WellKept(b)
  {
    if es == [] then Blank()
    else
      var b := Ledger(cfg, Front(es));
      if Last(es).Rx? then Record(b, Last(es).pkt, Receive(cfg, Run(cfg, Front(es)), Last(es).pkt)) else b
  }

  // ---- sums ----

  function Sum(s: seq<nat>): nat { if s == [] then 0 else s[0] + Sum(s[1..]) }

  lemma {:induction false} SumUpdate(s: seq<nat>, i: nat, x: nat)
    requires i < |s|
    ensures Sum(s[i := x]) + s[i] == Sum(s) + x
  {
    if i == 0 {
      assert s[i := x][1..] == s[1..];
    } else {
      assert s[i := x][1..] == s[1..][i - 1 := x];
      SumUpdate(s[1..], i - 1, x);
    }
  }

  lemma {:induction false} SumZero(s: seq<nat>)
    requires forall i :: 0 <= i < |s| ==> s[i] == 0
    ensures Sum(s) == 0
  {
    if s != [] {
      SumZero(s[1..]);
    }
  }

  function PktsOf(v: seq<VlanStat>): seq<nat> { seq(|v|, i requires 0 <= i < |v| => v[i].pkts) }
  function BytesOf(v: seq<VlanStat>): seq<nat> { seq(|v|, i requires 0 <= i < |v| => v[i].bytes) }
  function DropsOf(v: seq<VlanStat>): seq<nat> { seq(|v|, i requires 0 <= i < |v| => v[i].drops) }

  lemma VlanUpdate(v: seq<VlanStat>, i: nat, x: VlanStat)
    requires i < |v|
    ensures Sum(PktsOf(v[i := x])) + v[i].pkts == Sum(PktsOf(v)) + x.pkts
    ensures Sum(BytesOf(v[i := x])) + v[i].bytes == Sum(BytesOf(v)) + x.bytes
    ensures Sum(DropsOf(v[i := x])) + v[i].drops == Sum(DropsOf(v)) + x.drops
  {
    assert PktsOf(v[i := x]) == PktsOf(v)[i := x.pkts];
    assert BytesOf(v[i := x]) == BytesOf(v)[i := x.bytes];
    assert DropsOf(v[i := x]) == DropsOf(v)[i := x.drops];
    SumUpdate(PktsOf(v), i, x.pkts);
    SumUpdate(BytesOf(v), i, x.bytes);
    SumUpdate(DropsOf(v), i, x.drops);
  }

  // ---- conservation ----

  /** `out` packets of `outBytes` bytes were redirected uncounted, because the
      policy map was empty. */
  predicate Balanced(g: Stats, out: nat, outBytes: nat) {
    && g.rxPkts == g.redirPkts + g.dropPkts + g.rstPkts + out
    && g.rxBytes == g.redirBytes + g.dropBytes + g.rstBytes + outBytes
    && Noteworthy(g)
  }

  /** What passed without inspection or by the cache is part of what was redirected. */
  predicate Noteworthy(g: Stats) {
    && g.nonipPkts + g.nontcpPkts + g.l1Hits <= g.redirPkts
    && g.nonipBytes + g.nontcpBytes <= g.redirBytes
  }

  /** The reasons other than MAP_FAIL count `refused` packets. */
  ghost predicate ReasonsCount(b: Books, refused: nat) {
    WellKept(b) && Sum(b.reasons) == b.reasons[RSN_MAP_FAIL] + refused
  }

  ghost predicate VlansAddUp(b: Books) {
    && WellKept(b)
    && Sum(PktsOf(b.vlan)) == b.g.rxPkts
    && Sum(BytesOf(b.vlan)) == b.g.rxBytes
    && Sum(DropsOf(b.vlan)) == b.g.dropPkts
  }

  /** A disposal books the packet once, unless it is a bypass. */
  lemma SettleBooksOnce(b: Books, pkt: Packet, d: Decision)
    requires WellKept(b) && WellFormed(pkt.p)
    ensures var g, g' := b.g, Settle(b, pkt, d).g;
            && g'.rxPkts == g.rxPkts && g'.rxBytes == g.rxBytes
            && g'.redirPkts + g'.dropPkts + g'.rstPkts ==
               g.redirPkts + g.dropPkts + g.rstPkts + (if d.Bypass? then 0 else 1)
            && g'.redirBytes + g'.dropBytes + g'.rstBytes ==
               g.redirBytes + g.dropBytes + g.rstBytes + (if d.Bypass? then 0 else pkt.len)
  {
  }

  lemma SettleNotesRedirects(b: Books, pkt: Packet, d: Decision)
    requires WellKept(b) && WellFormed(pkt.p) && Noteworthy(b.g)
    ensures Noteworthy(Settle(b, pkt, d).g)
  {
  }

  lemma RecordBalances(b: Books, pkt: Packet, r: Result, out: nat, outBytes: nat)
    requires WellKept(b) && WellFormed(pkt.p) && Balanced(b.g, out, outBytes)
    ensures Balanced(Record(b, pkt, r).g,
                     out + if r.decision.Bypass? then 1 else 0,
                     outBytes + if r.decision.Bypass? then pkt.len else 0)
  {
    var b1 := Receipt(b, Vid(pkt.p), pkt.len);
    var b2 := if r.mapFail then Counted(b1, RSN_MAP_FAIL) else b1;
    SettleBooksOnce(b2, pkt, r.decision);
    SettleNotesRedirects(b2, pkt, r.decision);
  }

  lemma RecordCounts(b: Books, pkt: Packet, r: Result, refused: nat)
    requires ReasonsCount(b, refused) && WellFormed(pkt.p)
    requires r.decision.Reject? ==> r.decision.reason != RSN_MAP_FAIL
    ensures ReasonsCount(Record(b, pkt, r), refused + if r.decision.Reject? then 1 else 0)
  {
    var s := b.reasons;
    var s1 := if r.mapFail then s[RSN_MAP_FAIL := s[RSN_MAP_FAIL] + 1] else s;
    SumUpdate(s, RSN_MAP_FAIL, s[RSN_MAP_FAIL] + 1);
    if r.decision.Reject? {
      SumUpdate(s1, r.decision.reason, s1[r.decision.reason] + 1);
    }
  }

  lemma RecordAddsUp(b: Books, pkt: Packet, r: Result)
    requires VlansAddUp(b) && WellFormed(pkt.p)
    ensures VlansAddUp(Record(b, pkt, r))
  {
    ReceiptAddsUp(b, Vid(pkt.p), pkt.len);
    SettledAddsUp(Receipt(b, Vid(pkt.p), pkt.len), pkt, r);
  }

  lemma ReceiptAddsUp(b: Books, vid: u16, len: nat)
    requires VlansAddUp(b) && vid < VLANS
    ensures VlansAddUp(Receipt(b, vid, len))
  {
    var v := b.vlan[vid];
    VlanUpdate(b.vlan, vid, v.(pkts := v.pkts + 1, bytes := v.bytes + len));
  }

  lemma SettledAddsUp(b: Books, pkt: Packet, r: Result)
    requires VlansAddUp(b) && WellFormed(pkt.p)
    ensures VlansAddUp(Settled(b, pkt, r))
  {
    var v := b.vlan[Vid(pkt.p)];
    VlanUpdate(b.vlan, Vid(pkt.p), v.(drops := v.drops + 1));
  }

  /** A refusal presupposes a policy, never has reason MAP_FAIL, and carries a TCP
      header only when a TCP header was parsed. */
  predicate ProperRefusal(d: Decision, pkt: Packet) {
    d.Reject? ==> d.reason != RSN_MAP_FAIL && pkt.pol.Some? && (d.tcp ==> pkt.p.Tcp?)
  }

  lemma TcpRefusal(e: Option<FlowVal>, bkt: SynLimit.Buckets, pkt: Packet, k: FlowKey, use: bool)
    requires pkt.p.Tcp?
    ensures ProperRefusal(TcpLocal(e, bkt, pkt, k, use).decision, pkt)
  {
  }

  lemma RefusalIsProper(cfg: L1Config, c: Core, pkt: Packet)
    requires WellFormed(pkt.p)
    ensures ProperRefusal(Receive(cfg, c, pkt).decision, pkt)
  {
    if pkt.p.Tcp? {
      var k := KeyOf(pkt.trusted, pkt.p);
      TcpRefusal(Lookup(c.flows, k), c.bkt, pkt, k, UsesL1(cfg, pkt));
    }
  }

  // ---- counting along a run ----

  datatype Tally = Tally(bypassed: nat, bypassedBytes: nat, refused: nat)

  function Tallied(t: Tally, len: nat, d: Decision): Tally {
    match d
    case Bypass => t.(bypassed := t.bypassed + 1, bypassedBytes := t.bypassedBytes + len)
    case Reject(_, _) => t.(refused := t.refused + 1)
    case Pass(_) => t
  }

  ghost function TallyOf(cfg: L1Config, es: Trace): Tally
    requires Proper(es)
  {
    if es == [] then Tally(0, 0, 0)
    else
      var t := TallyOf(cfg, Front(es));
      if Last(es).Rx? then Tallied(t, Last(es).pkt.len, Decide(cfg, es)) else t
  }

  ghost predicate BooksInOrder(b: Books, t: Tally) {
    && WellKept(b) && Balanced(b.g, t.bypassed, t.bypassedBytes)
    && ReasonsCount(b, t.refused) && VlansAddUp(b)
  }

  lemma ZeroVlans(v: seq<VlanStat>)
    requires forall i :: 0 <= i < |v| ==> v[i] == VlanStat(0, 0, 0)
    ensures Sum(PktsOf(v)) == Sum(BytesOf(v)) == Sum(DropsOf(v)) == 0
  {
    SumZero(PktsOf(v));
    SumZero(BytesOf(v));
    SumZero(DropsOf(v));
  }

  lemma BlankInOrder()
    ensures BooksInOrder(Blank(), Tally(0, 0, 0))
  {
    BlankCounts();
    BlankAddsUp();
  }

  lemma BlankCounts()
    ensures ReasonsCount(Blank(), 0)
  {
    SumZero(Blank().reasons);
  }

  lemma BlankAddsUp()
    ensures VlansAddUp(Blank())
  {
    ZeroVlans(Blank().vlan);
  }

  lemma ReceiptInOrder(cfg: L1Config, c: Core, b: Books, t: Tally, pkt: Packet)
    requires BooksInOrder(b, t) && WellFormed(pkt.p)
    ensures var r := Receive(cfg, c, pkt); BooksInOrder(Record(b, pkt, r), Tallied(t, pkt.len, r.decision))
  {
    RefusalIsProper(cfg, c, pkt);
    RecordInOrder(b, t, pkt, Receive(cfg, c, pkt));
  }

  lemma RecordInOrder(b: Books, t: Tally, pkt: Packet, r: Result)
    requires BooksInOrder(b, t) && WellFormed(pkt.p) && ProperRefusal(r.decision, pkt)
    ensures BooksInOrder(Record(b, pkt, r), Tallied(t, pkt.len, r.decision))
  {
    RecordBalances(b, pkt, r, t.bypassed, t.bypassedBytes);
    RecordCounts(b, pkt, r, t.refused);
    RecordAddsUp(b, pkt, r);
  }

  /** Over every run: received = redirected + dropped + answered + bypassed, in
      packets and bytes; the VLANs add up to the totals; the reasons other than
      MAP_FAIL count exactly the refusals. */
  lemma {:induction false} BooksBalance(cfg: L1Config, es: Trace)
    requires Proper(es)
    ensures BooksInOrder(Ledger(cfg, es), TallyOf(cfg, es))
  {
    hide Step, Receive, Record, BooksInOrder;
    if es == [] {
      BlankInOrder();
    } else {
      BooksBalance(cfg, Front(es));
      if Last(es).Rx? {
        ReceiptInOrder(cfg, Run(cfg, Front(es)), Ledger(cfg, Front(es)), TallyOf(cfg, Front(es)), Last(es).pkt);
      }
    }
  }

  predicate Enforcing(e: Event) { e.Rx? ==> e.pkt.pol.Some? && e.pkt.pol.value.f.enforce }

  /** One packet under an enforced policy: dropped or answered iff refused. */
  lemma EnforcedRecord(b: Books, pkt: Packet, r: Result)
    requires WellKept(b) && WellFormed(pkt.p) && pkt.pol.Some? && pkt.pol.value.f.enforce
    ensures var g := Record(b, pkt, r).g;
            g.dropPkts + g.rstPkts == b.g.dropPkts + b.g.rstPkts + if r.decision.Reject? then 1 else 0
  {
  }

  /** With a policy present and enforced throughout, nothing is bypassed and every
      refusal is dropped or answered. */
  lemma {:induction false} EnforcedBooks(cfg: L1Config, es: Trace)
    requires Proper(es) && forall i :: 0 <= i < |es| ==> Enforcing(es[i])
    ensures var b, t := Ledger(cfg, es), TallyOf(cfg, es);
            t.bypassed == 0 && t.bypassedBytes == 0 && t.refused == b.g.dropPkts + b.g.rstPkts
  {
    if es != [] {
      EnforcedBooks(cfg, Front(es));
      if Last(es).Rx? {
        var c, pkt := Run(cfg, Front(es)), Last(es).pkt;
        NoBypass(cfg, c, pkt);
        EnforcedRecord(Ledger(cfg, Front(es)), pkt, Receive(cfg, c, pkt));
      }
    }
  }

  lemma NoBypass(cfg: L1Config, c: Core, pkt: Packet)
    requires WellFormed(pkt.p) && pkt.pol.Some?
    ensures !Receive(cfg, c, pkt).decision.Bypass?
  {
  }

  /** In an all-enforce run the reasons other than MAP_FAIL sum to dropped + answered,
      and received = redirected + dropped + answered. */
  lemma EnforcedRunConserves(cfg: L1Config, es: Trace)
    requires Proper(es) && forall i :: 0 <= i < |es| ==> Enforcing(es[i])
    ensures var b := Ledger(cfg, es);
            && Sum(b.reasons) - b.reasons[RSN_MAP_FAIL] == b.g.dropPkts + b.g.rstPkts
            && b.g.rxPkts == b.g.redirPkts + b.g.dropPkts + b.g.rstPkts
            && b.g.rxBytes == b.g.redirBytes + b.g.dropBytes + b.g.rstBytes
  {
    BooksBalance(cfg, es);
    EnforcedBooks(cfg, es);
  }
}
