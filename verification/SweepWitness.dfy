/** A sweep can be observed after all: a run of four events in which a host's reset on
    a flow that the sweep has removed costs the next reply its verdict. */
module SweepWitness {
  import opened Types
  import opened Clock
  import opened Machine
  import opened Gc
  import opened Witness

  /** Every timeout is one second, which is one tick. */
  const CONFIG := Config(true, false, false, true, true, true, false, false, false, false, 1, 1, 1, 1)
  const POLICY := Policy(FeaturesFrom(CONFIG), {})

  const ADOPT := Rx(PacketOf(true, 1, FLAG_ACK, TICK, POLICY))        // host data: adopted as EST
  const SWEEP := Sweep(3 * TICK, CONFIG, true)                         // two ticks later the flow is swept
  const RESET := Rx(PacketOf(true, 1, FLAG_RST, 3 * TICK, POLICY))     // the host resets the flow
  const REPLY := Rx(PacketOf(false, 1, FLAG_ACK, 3 * TICK, POLICY))    // a reply still under way

  const SWEPT: Trace := [ADOPT] + [SWEEP] + [RESET]
  const KEPT: Trace := [ADOPT] + [RESET]

  function CoreOf(flows: FlowTable, cfg: L1Config): Core {
    Core(flows, map[], if cfg.on then map[(0, cfg.index(KEY)) := L1Entry(KEY, 1, Est)] else map[], map[])
  }

  const OPEN: FlowTable := map[KEY := FlowVal(0, 1, Est, false, false)]
  const CLOSED: FlowTable := map[KEY := FlowVal(0, 3, Closing, false, true)]

  lemma AdoptStep(cfg: L1Config)
    ensures Step(cfg, EMPTY, ADOPT) == CoreOf(OPEN, cfg)
  {
  }

  lemma SweepStep(cfg: L1Config)
    ensures Step(cfg, CoreOf(OPEN, cfg), SWEEP) == CoreOf(map[], cfg)
  {
    assert SecToTicks(1) == 1;
  }

  lemma ResetStep(cfg: L1Config)
    ensures Step(cfg, CoreOf(map[], cfg), RESET) == CoreOf(map[], cfg)
    ensures Step(cfg, CoreOf(OPEN, cfg), RESET) == CoreOf(CLOSED, cfg)
  {
  }

  lemma ReplyVerdict(cfg: L1Config)
    ensures Receive(cfg, CoreOf(map[], cfg), REPLY.pkt).decision == Reject(RSN_OOS_IN, true)
    ensures Receive(cfg, CoreOf(CLOSED, cfg), REPLY.pkt).decision == Pass(Inspected)
  {
  }

  lemma RunAdopted(cfg: L1Config)
    ensures Proper([ADOPT]) && Run(cfg, [ADOPT]) == CoreOf(OPEN, cfg) && Strip([ADOPT]) == [ADOPT]
  {
    RunSnoc(cfg, [], ADOPT);
    assert [] + [ADOPT] == [ADOPT];
    AdoptStep(cfg);
  }

  lemma RunSwept(cfg: L1Config)
    ensures Proper(SWEPT) && Run(cfg, SWEPT) == CoreOf(map[], cfg) && Strip(SWEPT) == KEPT
  {
    RunAdopted(cfg);
    RunSnoc(cfg, [ADOPT], SWEEP);
    SweepStep(cfg);
    RunSnoc(cfg, [ADOPT] + [SWEEP], RESET);
    ResetStep(cfg);
  }

  lemma RunKept(cfg: L1Config)
    ensures Proper(KEPT) && Run(cfg, KEPT) == CoreOf(CLOSED, cfg)
  {
    RunAdopted(cfg);
    RunSnoc(cfg, [ADOPT], RESET);
    ResetStep(cfg);
  }

  /** With the sweep the reply is dropped, without it the reply passes. */
  lemma SweepCanCostAVerdict(cfg: L1Config)
    ensures var es := SWEPT + [REPLY];
            && Proper(es) && Proper(Strip(es))
            && Decide(cfg, es) == Reject(RSN_OOS_IN, true)
            && Strip(es) == KEPT + [REPLY] && Decide(cfg, Strip(es)) == Pass(Inspected)
            && Verdicts(cfg, es, false) != Verdicts(cfg, Strip(es), false)
  {
    RunSwept(cfg);
    RunKept(cfg);
    RunSnoc(cfg, SWEPT, REPLY);
    RunSnoc(cfg, KEPT, REPLY);
    ReplyVerdict(cfg);
    LastVerdict(cfg, SWEPT + [REPLY]);
    LastVerdict(cfg, KEPT + [REPLY]);
  }

  lemma LastVerdict(cfg: L1Config, es: Trace)
    requires Proper(es) && es != [] && Last(es).Rx?
    ensures var vs := Verdicts(cfg, es, false); vs != [] && vs[|vs| - 1] == Visible(Decide(cfg, es))
  {
  }
}
