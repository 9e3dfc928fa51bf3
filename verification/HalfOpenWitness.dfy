/** A half-open inbound flow held beyond ttl_syn: a run in which one acknowledgment that
    nobody asked for keeps a spoofed SYN's slot for the established timeout. */
module HalfOpenWitness {
  import opened Types
  import opened Clock
  import opened Flows
  import opened SynLimit
  import opened Machine
  import opened Witness

  /** Inbound SYNs are allowed; ttl_syn 10 ticks, ttl_est 300 ticks. */
  const POLICY := Policy(
    Features(true, false, false, true, true, true, false, false, false, true, 10, 300, 1, 30), {})

  const SYN := Rx(PacketOf(false, 1, FLAG_SYN, 0, POLICY))             // opens the flow: SYN_RCVD
  const ACK := Rx(PacketOf(false, 1, FLAG_ACK, 0, POLICY))             // acknowledges nothing the host has sent
  const LATE := Rx(PacketOf(false, 1, FLAG_ACK, 100 * TICK, POLICY))   // ten times ttl_syn later

  /** Both buckets after the SYN. */
  const CHARGED: Buckets := map[1 := Bucket(99_000, 0), 0 := Bucket(6_399_000, 0)]

  function CoreOf(st: FlowState, l1: L1Cache): Core {
    Core(map[KEY := Fresh(st, 0)], map[], l1, CHARGED)
  }

  function CacheOf(cfg: L1Config): L1Cache {
    if cfg.on then map[(0, cfg.index(KEY)) := L1Entry(KEY, 0, Est)] else map[]
  }

  lemma SynStep(cfg: L1Config)
    ensures Step(cfg, EMPTY, SYN) == CoreOf(SynRcvd, map[])
  {
  }

  lemma AckStep(cfg: L1Config)
    ensures Step(cfg, CoreOf(SynRcvd, map[]), ACK) == CoreOf(Est, CacheOf(cfg))
  {
  }

  lemma LateVerdict(cfg: L1Config)
    ensures Receive(cfg, CoreOf(SynRcvd, map[]), LATE.pkt).decision == Reject(RSN_OOS_IN, true)
    ensures Receive(cfg, CoreOf(Est, CacheOf(cfg)), LATE.pkt).decision == Pass(Inspected)
  {
  }

  /** With the acknowledgment the flow is still live long after ttl_syn, without it not. */
  lemma BlindAckHoldsSlot(cfg: L1Config)
    ensures Proper([SYN] + [ACK] + [LATE]) && Decide(cfg, [SYN] + [ACK] + [LATE]) == Pass(Inspected)
    ensures Proper([SYN] + [LATE]) && Decide(cfg, [SYN] + [LATE]) == Reject(RSN_OOS_IN, true)
  {
    RunSnoc(cfg, [], SYN);
    assert [] + [SYN] == [SYN];
    SynStep(cfg);
    RunSnoc(cfg, [SYN], ACK);
    AckStep(cfg);
    LateVerdict(cfg);
    RunSnoc(cfg, [SYN], LATE);
    RunSnoc(cfg, [SYN] + [ACK], LATE);
  }
}
