/** What an allowed run of the loop never does (src/controller/loop-coordinator.ts). */
module LoopSafety {
  import opened ScoredLoop
  import opened LoopMachine
  import opened LoopGuards
  import LoopJudged
  import LoopUnjudged

  ghost predicate Inv(s: Exec, cfg: Config) {
    if cfg.judged then LoopJudged.Inv(s, cfg) else LoopUnjudged.Inv(s, cfg)
  }

  lemma FreshIsInv(cfg: Config)
    ensures Inv(Fresh(cfg), cfg)
  {
  }

  lemma StepKeepsInv(s: Exec, cfg: Config, e: LoopMachine.Event)
    requires Inv(s, cfg) && Allowed(s, cfg, e)
    ensures Inv(LoopMachine.Step(s, cfg, e), cfg)
  {
    if cfg.judged {
      LoopJudged.StepKeepsInv(s, cfg, e);
    } else {
      LoopUnjudged.StepKeepsInv(s, cfg, e);
    }
  }

  lemma {:induction false} EveryRunKeepsInv(cfg: Config, events: seq<LoopMachine.Event>)
    requires AllAllowed(cfg, events)
    ensures Inv(LoopMachine.Run(cfg, events), cfg)
  {
    if events == [] {
      FreshIsInv(cfg);
    } else {
      var n := |events| - 1;
      assert forall i :: 0 <= i < n ==> events[..n][..i] == events[..i];
      EveryRunKeepsInv(cfg, events[..n]);
      assert Allowed(LoopMachine.Run(cfg, events[..n]), cfg, events[n]);
      StepKeepsInv(LoopMachine.Run(cfg, events[..n]), cfg, events[n]);
    }
  }

  /** In every such run no prompt ever went out while the run's own verification or compaction was in flight, and every
    * verdict that was consumed came from the newest verification task, or was read from the reply. */
  lemma NothingCollides(cfg: Config, events: seq<LoopMachine.Event>)
    requires AllAllowed(cfg, events)
    ensures !LoopMachine.Run(cfg, events).log.collided && !LoopMachine.Run(cfg, events).log.superseded
  {
    EveryRunKeepsInv(cfg, events);
  }
}
