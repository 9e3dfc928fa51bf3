/** The cache is not exact for TCP over whole runs: a run of four packets in which
    a postponed promotion later costs a verdict. */
module CacheWitness {
  import opened Types
  import opened Clock
  import opened Flows
  import opened Machine
  import opened Cache
  import opened Witness

  /** ttl_est 300 ticks, ttl_closing 1 tick. */
  const POLICY := Policy(
    Features(true, false, false, true, true, true, false, false, false, false, 10, 300, 1, 30), {})

  const ADOPT := Rx(PacketOf(true, 1, FLAG_ACK, 0, POLICY))           // host data: adopted as EST, cached
  const CLOSE := Rx(PacketOf(false, 1, FLAG_RST, 0, POLICY))          // a reset from outside: CLOSING
  const TALK := Rx(PacketOf(true, 1, FLAG_ACK, 0, POLICY))            // host data again: a cache hit
  const REPLY := Rx(PacketOf(false, 1, FLAG_ACK, 5 * TICK, POLICY))   // a reply five ticks later

  const TALKED: Trace := [ADOPT] + [CLOSE] + [TALK]

  function CoreOf(st: FlowState, l1: L1Cache): Core {
    Core(map[KEY := Fresh(st, 0)], map[], l1, map[])
  }

  function CacheOf(cfg: L1Config): L1Cache {
    if cfg.on then map[(0, cfg.index(KEY)) := L1Entry(KEY, 0, Est)] else map[]
  }

  lemma AdoptStep(cfg: L1Config)
    ensures Step(cfg, EMPTY, ADOPT) == CoreOf(Est, CacheOf(cfg))
  {
  }

  lemma CloseStep(cfg: L1Config)
    ensures Step(cfg, CoreOf(Est, CacheOf(cfg)), CLOSE) == CoreOf(Closing, CacheOf(cfg))
  {
  }

  lemma TalkStep(cfg: L1Config)
    ensures Step(cfg, CoreOf(Closing, CacheOf(cfg)), TALK) == CoreOf(if cfg.on then Closing else Est, CacheOf(cfg))
  {
  }

  lemma RunTalked(cfg: L1Config)
    ensures Proper(TALKED) && Run(cfg, TALKED) == CoreOf(if cfg.on then Closing else Est, CacheOf(cfg))
  {
    RunSnoc(cfg, [], ADOPT);
    assert [] + [ADOPT] == [ADOPT];
    AdoptStep(cfg);
    RunSnoc(cfg, [ADOPT], CLOSE);
    CloseStep(cfg);
    RunSnoc(cfg, [ADOPT] + [CLOSE], TALK);
    TalkStep(cfg);
  }

  lemma ReplyVerdict(cfg: L1Config, st: FlowState)
    requires st in {Est, Closing}
    ensures Receive(cfg, CoreOf(st, CacheOf(cfg)), REPLY.pkt).decision ==
              if st == Est then Pass(Inspected) else Reject(RSN_OOS_IN, true)
  {
  }

  /** With the cache the reply is dropped, without it the reply passes. */
  lemma CacheCanCostAVerdict(cfg: L1Config)
    requires cfg.on
    ensures Proper(TALKED + [REPLY])
    ensures Decide(cfg, TALKED + [REPLY]) == Reject(RSN_OOS_IN, true)
    ensures Decide(Off(cfg), TALKED + [REPLY]) == Pass(Inspected)
  {
    RunTalked(cfg);
    RunTalked(Off(cfg));
    RunSnoc(cfg, TALKED, REPLY);
    ReplyVerdict(cfg, Closing);
    ReplyVerdict(Off(cfg), Est);
  }
}
