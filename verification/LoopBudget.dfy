/** A run starts finitely many verifications (src/controller/loop-coordinator.ts:407-507), whatever the host, the timers and
  * the operator do: at most three for each attempt of the budget and six for each answer, provided a verifier reports a
  * cancellation only when it was cancelled.
  *
  * The argument keeps an account: every attempt left, and every piece of work that is outstanding, is worth three tasks. */
module LoopBudget {
  import opened Collections
  import opened ScoredLoop
  import opened LoopMachine
  import opened LoopOutcome
  import opened LoopGuards
  import LoopJudged
  import LoopSafety

  // ---------------------------------------------------------------- the account

  function Retries(stack: seq<Frame>): nat {
    if stack == [] then 0 else Retries(stack[..|stack| - 1]) + Bit(stack[|stack| - 1].RetryVerify?)
  }

  /** Frames that lead to work of their own; those that only judge count for nothing while it is being judged anyway. */
  predicate Owes(f: Frame, judging: bool) {
    f.StartSend? || (IsCompaction(f) && f.first) || (!judging && (f.StartVerify? || f.StepVerify? || f.Answering?))
  }

  function Owing(stack: seq<Frame>, judging: bool): nat {
    if stack == [] then 0 else Owing(stack[..|stack| - 1], judging) + Bit(Owes(stack[|stack| - 1], judging))
  }

  /** Outstanding work besides the attempt that is awaited. Strictly, a frame that would only verify a step is no work of
    * its own while a verification is under way. */
  function Units(s: Exec, cfg: Config, strict: bool): nat {
    Owing(s.out.stack, strict && s.guards.verifying && !cfg.marked(s.loop.step)) + s.out.sectionReads
    + Bit(s.guards.pending) + Bit(s.out.startResume) + Bit(s.out.compaction == Some(true))
  }

  /** Tasks the attempt that is awaited may still start: its retries, or all three. Strictly, it starts none of its own
    * while other work is outstanding. */
  function Credit(s: Exec, cfg: Config, strict: bool): nat {
    if s.guards.verifying then Max(0, VerifierRetries - s.tasks.misses)
    else if Retries(s.out.stack) > 0 then Max(0, VerifierRetries + 1 - s.tasks.misses)
    else if s.out.check.Some? || !s.loop.awaiting || (strict && Units(s, cfg, strict) > 0) then 0
    else VerifierRetries + 1
  }

  /** Verdicts that may still be consumed for it. Strictly, the one that is checked and the one that is judged count each. */
  function Open(s: Exec, cfg: Config, strict: bool): nat {
    if strict then
      Bit(s.out.check.Some?)
      + Bit(s.guards.verifying || Retries(s.out.stack) > 0
            || (s.loop.awaiting && s.out.check.None? && Units(s, cfg, strict) == 0))
    else Bit(s.loop.awaiting)
  }

  /** The attempts of the whole budget. */
  function Tries(cfg: Config): int {
    (cfg.limits.to - cfg.limits.from + 1) * cfg.limits.tries
  }

  /** Attempts after the one that is awaited. */
  function Left(s: Exec, cfg: Config): int {
    Tries(cfg) - 1 - Spent(cfg.limits, s.loop)
  }

  function TaskAccount(s: Exec, cfg: Config, strict: bool): int {
    s.tasks.lastSeq + 3 * (Left(s, cfg) + Units(s, cfg, strict)) + Credit(s, cfg, strict)
  }

  function VerdictAccount(s: Exec, cfg: Config, strict: bool): int {
    |s.log.consumed| + Left(s, cfg) + Units(s, cfg, strict) + Open(s, cfg, strict)
  }

  /** A step that is paid for: the accounts grow by no more than an allowance, and an ended run starts and consumes
    * nothing. */
  predicate Pays(s: Exec, n: Exec, cfg: Config, strict: bool, allowance: nat) {
    s.life.answers <= n.life.answers && (s.life.started ==> n.life.started) &&
    if !Active(s.loop) then
      !Active(n.loop) && n.tasks.lastSeq == s.tasks.lastSeq && n.log.consumed == s.log.consumed
    else if Active(n.loop) then
      && (cfg.judged ==> TaskAccount(n, cfg, strict) <= TaskAccount(s, cfg, strict) + 3 * allowance)
      && VerdictAccount(n, cfg, strict) <= VerdictAccount(s, cfg, strict) + allowance
    else
      && (cfg.judged ==> n.tasks.lastSeq <= TaskAccount(s, cfg, strict) + 3 * allowance)
      && |n.log.consumed| <= VerdictAccount(s, cfg, strict) + allowance
  }

  /** What the account relies on: calls and tasks belong together, and a retry keeps its attempt awaited. */
  predicate Books(s: Exec, cfg: Config) {
    && (!cfg.judged ==> s.tasks.lastSeq == 0 && !s.guards.verifying && s.tasks.verifyTask.None? && s.tasks.verifies == map[]
                        && Retries(s.out.stack) == 0)
    && (s.life.started && Active(s.loop) ==>
          && s.life.live && s.life.owned
          && (s.guards.verifying <==> s.tasks.verifyTask.Some?)
          && (s.tasks.verifyTask.Some? ==> s.tasks.identity == s.tasks.verifyTask)
          && (forall n :: n in s.tasks.verifies ==> s.tasks.verifyTask == Some(n) && !s.tasks.verifies[n])
          && LoopJudged.CallsAre(s.out.stack, s.tasks.verifyTask)
          && (Retries(s.out.stack) > 0 ==> s.loop.awaiting && s.tasks.misses <= VerifierRetries))
    && (!s.life.started ==> s == if s.life.live then Fresh(cfg) else Leave(Fresh(cfg)))
  }

  predicate Sensible(cfg: Config) {
    cfg.limits.from <= cfg.limits.to && cfg.limits.tries >= 1
  }

  // ---------------------------------------------------------------- frames

  lemma PushOwing(s: Exec, f: Frame, judging: bool, task: Option<nat>)
    ensures Owing(Push(s, f).out.stack, judging) == Owing(s.out.stack, judging) + Bit(Owes(f, judging))
    ensures Retries(Push(s, f).out.stack) == Retries(s.out.stack) + Bit(f.RetryVerify?)
    ensures LoopJudged.CallsAre(Push(s, f).out.stack, task)
       <==> LoopJudged.CallsAre(s.out.stack, task) && (f.VerifyCall? ==> task == Some(f.seqNo))
  {
    assert (s.out.stack + [f])[..|s.out.stack|] == s.out.stack;
  }

  lemma PushUnits(s: Exec, f: Frame, cfg: Config, strict: bool)
    ensures var judging := strict && s.guards.verifying && !cfg.marked(s.loop.step);
            Units(Push(s, f), cfg, strict) == Units(s, cfg, strict) + Bit(Owes(f, judging))
    ensures Retries(Push(s, f).out.stack) == Retries(s.out.stack) + Bit(f.RetryVerify?)
    ensures LoopJudged.CallsAre(Push(s, f).out.stack, s.tasks.verifyTask)
       <==> LoopJudged.CallsAre(s.out.stack, s.tasks.verifyTask) && (f.VerifyCall? ==> s.tasks.verifyTask == Some(f.seqNo))
  {
    PushOwing(s, f, strict && s.guards.verifying && !cfg.marked(s.loop.step), s.tasks.verifyTask);
  }

  lemma PopUnits(s: Exec, cfg: Config, strict: bool)
    requires s.out.stack != []
    ensures var judging := strict && s.guards.verifying && !cfg.marked(s.loop.step);
            Units(s, cfg, strict) == Units(Pop(s), cfg, strict) + Bit(Owes(Top(s), judging))
    ensures Retries(s.out.stack) == Retries(Pop(s).out.stack) + Bit(Top(s).RetryVerify?)
    ensures LoopJudged.CallsAre(s.out.stack, s.tasks.verifyTask) ==> LoopJudged.CallsAre(Pop(s).out.stack, s.tasks.verifyTask)
  {
  }

  lemma {:induction false} JudgingOwesLess(stack: seq<Frame>)
    ensures Owing(stack, true) <= Owing(stack, false)
  {
    if stack != [] {
      JudgingOwesLess(stack[..|stack| - 1]);
    }
  }

  // ---------------------------------------------------------------- parts that start no task and consume nothing

  predicate Calm(s: Exec, n: Exec) {
    && n.tasks == s.tasks && n.guards.verifying == s.guards.verifying && n.log.consumed == s.log.consumed
    && n.loop.(awaiting := s.loop.awaiting) == s.loop && n.out.check == s.out.check && n.life == s.life
    && (s.loop.awaiting ==> n.loop.awaiting) && (!Active(s.loop) ==> n.loop == s.loop)
    && Retries(n.out.stack) <= Retries(s.out.stack)
    && (LoopJudged.CallsAre(s.out.stack, s.tasks.verifyTask) ==> LoopJudged.CallsAre(n.out.stack, s.tasks.verifyTask))
  }

  /** Such a part is paid for when it adds no work, and awaits an attempt only for a piece of work it takes. */
  lemma CalmPays(s: Exec, n: Exec, cfg: Config, strict: bool)
    requires Calm(s, n) && s.life.started && Retries(n.out.stack) == Retries(s.out.stack)
    requires Units(n, cfg, strict) + Bit(n.loop.awaiting && !s.loop.awaiting) <= Units(s, cfg, strict)
    ensures Pays(s, n, cfg, strict, 0) && (Books(s, cfg) ==> Books(n, cfg))
  {
  }

  lemma PaysOn(s: Exec, m: Exec, n: Exec, cfg: Config, strict: bool, allowance: nat)
    requires Pays(s, m, cfg, strict, 0) && Pays(m, n, cfg, strict, allowance)
    ensures Pays(s, n, cfg, strict, allowance)
  {
  }

  lemma SendPendingPays(s: Exec, cfg: Config, strict: bool)
    requires Books(s, cfg) && s.life.started
    ensures Pays(s, SendPending(s), cfg, strict, 0) && Books(SendPending(s), cfg)
  {
    var n := Await(DropPrompt(s));
    PushOwing(n, FlushSend, strict && s.guards.verifying && !cfg.marked(s.loop.step), s.tasks.verifyTask);
    CalmPays(s, SendPending(s), cfg, strict);
  }

  lemma FlushPays(s: Exec, cfg: Config, w: World, strict: bool)
    requires Books(s, cfg) && s.life.started
    ensures Pays(s, Flush(s, cfg, w), cfg, strict, 0) && Books(Flush(s, cfg, w), cfg)
  {
    SendPendingPays(s, cfg, strict);
    var n := s.(guards := s.guards.(compacting := true));
    PushOwing(n, CompactCall(false), strict && s.guards.verifying && !cfg.marked(s.loop.step), s.tasks.verifyTask);
    if Flush(s, cfg, w) != SendPending(s) {
      CalmPays(s, Flush(s, cfg, w), cfg, strict);
    }
  }

  /** The opening frame is worth the prompt, or the compaction before it. */
  lemma SendOpeningPays(s: Exec, cfg: Config, w: World, strict: bool)
    requires Books(s, cfg) && s.life.started && s.out.stack != [] && Top(s).StartSend?
    ensures var n := SendOpening(Pop(s), cfg, w); Pays(s, n, cfg, strict, 0) && Books(n, cfg)
  {
    var p := Pop(s);
    PopUnits(s, cfg, strict);
    if !Current(p) {
      CalmPays(s, p, cfg, strict);
    } else if w.due && cfg.compacts {
      OpeningCompactPays(s, p, cfg, strict);
    } else {
      PushUnits(Await(p), StartSent, cfg, strict);
      CalmPays(s, Push(Await(p), StartSent), cfg, strict);
    }
  }

  lemma OpeningCompactPays(s: Exec, p: Exec, cfg: Config, strict: bool)
    requires Books(s, cfg) && s.life.started && Calm(s, p) && Retries(p.out.stack) == Retries(s.out.stack)
    requires Units(p, cfg, strict) + 1 == Units(s, cfg, strict) && p.loop == s.loop
    ensures Pays(s, CompactStart(p, true), cfg, strict, 0) && Books(CompactStart(p, true), cfg)
  {
    var m := p.(guards := p.guards.(compacting := true));
    PushUnits(m, CompactCall(true), cfg, strict);
    CalmPays(s, Push(m, CompactCall(true)), cfg, strict);
  }

  lemma CompactFramePays(s: Exec, cfg: Config, w: World, strict: bool)
    requires Books(s, cfg) && s.life.started && s.out.stack != [] && IsCompaction(Top(s))
    ensures var n := Continued(Pop(s), cfg, Top(s), w); Pays(s, n, cfg, strict, 0) && Books(n, cfg)
  {
    PopUnits(s, cfg, strict);
    if Top(s).CompactCall? {
      CalmPays(s, Pop(s).(out := Pop(s).out.(compaction := Some(Top(s).first))), cfg, strict);
    } else {
      CalmPays(s, LiftGuard(Pop(s), Top(s).first), cfg, strict);
    }
  }

  lemma CompactDonePays(s: Exec, cfg: Config, strict: bool)
    requires Books(s, cfg) && s.life.started
    ensures Pays(s, CompactDone(s), cfg, strict, 0) && Books(CompactDone(s), cfg)
  {
    if s.out.compaction.Some? {
      var n := s.(out := s.out.(compaction := None));
      PushUnits(n, CompactNote(s.out.compaction.value), cfg, strict);
      if Current(n) {
        CalmPays(s, Push(n, CompactNote(s.out.compaction.value)), cfg, strict);
      } else {
        CalmPays(s, n.(guards := n.guards.(compacting := false)), cfg, strict);
      }
    }
  }

  lemma StartResumedPays(s: Exec, cfg: Config, strict: bool)
    requires Books(s, cfg) && s.life.started && s.out.startResume
    ensures Pays(s, StartResumed(s), cfg, strict, 0) && Books(StartResumed(s), cfg)
  {
    var n := Await(s.(out := s.out.(startResume := false)));
    PushOwing(n, StartSent, strict && s.guards.verifying && !cfg.marked(s.loop.step), s.tasks.verifyTask);
    CalmPays(s, StartResumed(s), cfg, strict);
  }

  /** Frames that send, are done with, or hold the gate. */
  lemma PassingPays(s: Exec, cfg: Config, w: World, strict: bool)
    requires Books(s, cfg) && s.life.started && s.out.stack != []
    requires Top(s).StartSent? || Top(s).FlushSend? || Top(s).SettleEnd?
    ensures var n := Continued(Pop(s), cfg, Top(s), w); Pays(s, n, cfg, strict, 0) && Books(n, cfg)
  {
    CalmPays(s, Continued(Pop(s), cfg, Top(s), w), cfg, strict);
  }

  lemma PoppedPays(s: Exec, cfg: Config, strict: bool)
    requires Books(s, cfg) && s.life.started && s.out.stack != [] && !Top(s).RetryVerify?
    ensures Pays(s, Pop(s), cfg, strict, 0) && Books(Pop(s), cfg)
  {
    CalmPays(s, Pop(s), cfg, strict);
  }

  /** The section of a step is read in place of what was about to judge it. */
  lemma SectionStartPays(s: Exec, cfg: Config, strict: bool)
    requires Books(s, cfg) && s.life.started && s.out.stack != [] && cfg.marked(s.loop.step)
    requires Top(s).StartVerify? || Top(s).StepVerify? || Top(s).Answering?
    ensures var n := VerifySection(Pop(s), cfg); Pays(s, n, cfg, strict, 0) && Books(n, cfg)
  {
    CalmPays(s, VerifySection(Pop(s), cfg), cfg, strict);
  }

  lemma ReadUnits(s: Exec, cfg: Config, strict: bool)
    requires s.out.sectionReads > 0
    ensures var r := s.(out := s.out.(sectionReads := s.out.sectionReads - 1));
            && Calm(s, r) && Units(r, cfg, strict) + 1 == Units(s, cfg, strict)
            && Units(HoldPrompt(r), cfg, strict) <= Units(s, cfg, strict)
  {
  }

  /** A missing section is worth the prompt that is held for it. */
  lemma SectionMissingPays(s: Exec, cfg: Config, strict: bool)
    requires Books(s, cfg) && s.life.started && s.out.sectionReads > 0
    ensures var n := SectionRead(s, cfg, Missing); Pays(s, n, cfg, strict, 0) && Books(n, cfg)
  {
    var r := s.(out := s.out.(sectionReads := s.out.sectionReads - 1));
    var n := HoldPrompt(r);
    ReadUnits(s, cfg, strict);
    PushUnits(n, FlushHeld, cfg, strict);
    if Current(r) {
      assert Calm(s, Push(n, FlushHeld));
      CalmPays(s, Push(n, FlushHeld), cfg, strict);
    } else {
      CalmPays(s, r, cfg, strict);
    }
  }

  // ---------------------------------------------------------------- parts that start a task

  /** Work is outstanding when a task starts. */
  function Doubled(s: Exec, n: Exec, cfg: Config): nat {
    Bit(n.tasks.lastSeq > s.tasks.lastSeq && n.guards.verifying && Units(n, cfg, true) > 0)
  }

  lemma RoundUnits(s: Exec, cfg: Config, strict: bool)
    requires !s.guards.verifying
    ensures Units(Await(Tasked(s)), cfg, strict) <= Units(s, cfg, strict)
  {
    JudgingOwesLess(s.out.stack);
  }

  /** What a task that starts costs: one, and its retries; and a frame that would only verify is worth nothing then. */
  lemma RoundCosts(s: Exec, cfg: Config, strict: bool)
    requires Books(s, cfg) && s.life.started && Current(s) && cfg.judged && !s.guards.verifying
    ensures var n := VerifyRound(s, cfg);
            && Books(n, cfg) && n.tasks.lastSeq == s.tasks.lastSeq + 1 && n.loop == s.loop.(awaiting := true)
            && n.log == s.log && n.life == s.life && n.out.check == s.out.check && Units(n, cfg, strict) <= Units(s, cfg, strict)
            && Credit(n, cfg, strict) == Max(0, VerifierRetries - s.tasks.misses)
  {
    var m := Await(Tasked(s));
    RoundUnits(s, cfg, strict);
    LoopJudged.NoCalls(s.out.stack, m.tasks.verifyTask);
    PushUnits(m, VerifyCall(s.tasks.lastSeq + 1), cfg, strict);
  }

  /** A task that starts for a piece of work takes that piece. */
  lemma RoundForWork(s: Exec, p: Exec, cfg: Config, strict: bool)
    requires Books(p, cfg) && p.life.started && p.loop == s.loop && p.log == s.log && p.tasks == s.tasks
    requires p.life == s.life && p.guards.verifying == s.guards.verifying && (cfg.judged && Active(s.loop) ==> Current(p))
    requires Pays(s, p, cfg, strict, 0) && p.out.check == s.out.check
    requires Units(p, cfg, strict) + Bit(!s.guards.verifying) <= Units(s, cfg, strict)
    ensures Pays(s, VerifyRound(p, cfg), cfg, strict, 0) && Books(VerifyRound(p, cfg), cfg)
  {
    if Current(p) && cfg.judged && !p.guards.verifying {
      RoundCosts(p, cfg, strict);
    }
  }

  lemma RoundFramePays(s: Exec, cfg: Config, w: World, strict: bool)
    requires Books(s, cfg) && s.life.started && s.out.stack != [] && !cfg.marked(s.loop.step) && cfg.judged
    requires Top(s).StartVerify? || Top(s).StepVerify? || Top(s).Answering?
    ensures var n := Continued(Pop(s), cfg, Top(s), w); Pays(s, n, cfg, strict, 0) && Books(n, cfg)
  {
    PoppedPays(s, cfg, strict);
    RoundForWork(s, Pop(s), cfg, strict);
  }

  lemma RetryFramePays(s: Exec, cfg: Config, strict: bool)
    requires Books(s, cfg) && s.life.started && s.out.stack != [] && Top(s).RetryVerify?
    ensures var n := VerifyRound(Pop(s), cfg); Pays(s, n, cfg, strict, 0) && Books(n, cfg)
  {
    var p := Pop(s);
    assert Books(p, cfg);
    if Current(p) && cfg.judged && !p.guards.verifying {
      RoundCosts(p, cfg, strict);
    }
  }

  lemma SectionReadPays(s: Exec, cfg: Config, section: Section, strict: bool)
    requires Books(s, cfg) && s.life.started
    ensures var n := SectionRead(s, cfg, section); Pays(s, n, cfg, strict, 0) && Books(n, cfg)
  {
    if s.out.sectionReads > 0 {
      if section == Missing {
        SectionMissingPays(s, cfg, strict);
      } else {
        var p := s.(out := s.out.(sectionReads := s.out.sectionReads - 1));
        CalmPays(s, p, cfg, strict);
        RoundForWork(s, p, cfg, strict);
      }
    }
  }

  /** A task that an end starts is paid for by its attempt, unless other work is outstanding. */
  lemma EndPays(s: Exec, e: Exec, cfg: Config, strict: bool)
    requires Books(s, cfg) && s.life.started && Current(s) && cfg.judged && s.loop.awaiting && GateOk(s)
    requires !s.guards.verifying && !s.guards.settling
    requires e == s.(guards := e.guards) && !e.guards.verifying && e.guards.pending == s.guards.pending
    ensures var n := VerifyRound(e, cfg);
            Pays(s, n, cfg, strict, if strict then Doubled(s, n, cfg) else 0) && Books(n, cfg)
  {
    var n := VerifyRound(e, cfg);
    SameUnits(s, e, cfg, strict);
    RoundCosts(e, cfg, strict);
    AwaitedCredit(s, cfg, strict);
    if !strict || Units(s, cfg, strict) == 0 || Retries(s.out.stack) > 0 {
      CreditPays(s, n, cfg, strict);
    }
  }

  /** A task that its attempt's credit pays for. */
  lemma CreditPays(s: Exec, n: Exec, cfg: Config, strict: bool)
    requires Active(s.loop) && Active(n.loop) && n.loop == s.loop.(awaiting := true) && n.log == s.log && n.life == s.life
    requires n.tasks.lastSeq == s.tasks.lastSeq + 1 && Units(n, cfg, strict) <= Units(s, cfg, strict)
    requires Open(s, cfg, strict) == 1 && Credit(s, cfg, strict) >= 1 + Credit(n, cfg, strict) && n.out.check == s.out.check
    ensures Pays(s, n, cfg, strict, 0)
  {
  }

  lemma SameUnits(s: Exec, e: Exec, cfg: Config, strict: bool)
    requires e.out == s.out && e.loop == s.loop && e.guards.verifying == s.guards.verifying && e.guards.pending == s.guards.pending
    ensures Units(e, cfg, strict) == Units(s, cfg, strict)
  {
  }

  /** An attempt that is awaited and not judged may start a task, unless, strictly, other work is outstanding. */
  lemma AwaitedCredit(s: Exec, cfg: Config, strict: bool)
    requires Books(s, cfg) && s.life.started && Active(s.loop) && s.loop.awaiting && GateOk(s)
    requires !s.guards.verifying && !s.guards.settling
    ensures !strict || Units(s, cfg, strict) == 0 || Retries(s.out.stack) > 0 ==>
              Open(s, cfg, strict) == 1 && Credit(s, cfg, strict) >= 1 + Max(0, VerifierRetries - s.tasks.misses)
  {
  }

  // ---------------------------------------------------------------- parts that consume an attempt

  /** A consumed attempt pays for the work it leads to. */
  lemma DecisionPays(l: Loop, limits: Limits, v: Option<Verdict>)
    requires limits.from <= limits.to && limits.tries >= 1 && Within(limits, l) && Active(l)
    ensures var r := Settle(l, limits, v);
            && !r.0.awaiting && Spent(limits, l) + Bit(r.1 == Continue) <= Spent(limits, r.0)
            && (r.1 == Continue ==> Active(r.0))
  {
    BudgetIsSpent(l, limits, v);
  }

  /** The state once a verdict was consumed: one attempt less, or nothing more to do. */
  predicate Consumes(s: Exec, n: Exec, cfg: Config, strict: bool) {
    && |n.log.consumed| == |s.log.consumed| + 1
    && (Active(n.loop) ==>
          && !n.loop.awaiting && n.tasks == s.tasks && n.guards.verifying == s.guards.verifying && n.life == s.life
          && n.out.check.None? && Retries(n.out.stack) == Retries(s.out.stack)
          && LoopJudged.CallsAre(n.out.stack, n.tasks.verifyTask) == LoopJudged.CallsAre(s.out.stack, s.tasks.verifyTask)
          && Left(n, cfg) + Units(n, cfg, strict) <= Left(s, cfg) + Units(s, cfg, strict))
    && n.tasks == s.tasks && n.life.started == s.life.started && n.life.answers == s.life.answers
    && Retries(n.out.stack) == Retries(s.out.stack)
    && n.guards.verifying == s.guards.verifying
  }

  /** Frames whose worth depends on the step in flight. */
  predicate StepFree(stack: seq<Frame>) {
    forall i :: 0 <= i < |stack| ==> !stack[i].StartVerify? && !stack[i].StepVerify? && !stack[i].Answering?
  }

  lemma {:induction false} StepFreeOwes(stack: seq<Frame>)
    requires StepFree(stack)
    ensures Owing(stack, true) == Owing(stack, false)
  {
    if stack != [] {
      assert forall i :: 0 <= i < |stack| - 1 ==> stack[..|stack| - 1][i] == stack[i];
      StepFreeOwes(stack[..|stack| - 1]);
    }
  }

  lemma TakenUnits(s: Exec, cfg: Config, l: Loop, c: LoopMachine.Consumed, strict: bool)
    requires StepFree(s.out.stack) || !strict
    ensures Units(Taken(s, l, c), cfg, strict) == Units(s, cfg, strict)
  {
    if strict {
      StepFreeOwes(s.out.stack);
    }
  }

  lemma HoldUnits(s: Exec, cfg: Config, strict: bool)
    ensures Units(HoldPrompt(s), cfg, strict) <= Units(s, cfg, strict) + 1
  {
  }

  lemma SettleWithConsumes(s: Exec, cfg: Config, v: Option<Verdict>, section: Section, source: Source, strict: bool)
    requires Sensible(cfg) && Within(cfg.limits, s.loop) && Current(s) && s.loop.awaiting && s.out.check.None?
    requires StepFree(s.out.stack) || !strict
    ensures Consumes(s, SettleWith(s, cfg, v, section, source), cfg, strict)
  {
    var r := Settle(s.loop, cfg.limits, Effective(v, section));
    if r.1 == Continue && r.0.step != s.loop.step && cfg.verifyFirst && cfg.judged {
      NextStepConsumes(s, cfg, v, section, source, strict);
    } else if r.1 == Continue {
      NextPromptConsumes(s, cfg, v, section, source, strict);
    } else {
      var c := Consumed(s.loop.step, s.loop.attempt, v, section, source);
      DecisionPays(s.loop, cfg.limits, Effective(v, section));
      TakenUnits(s, cfg, r.0, c, strict);
    }
  }

  /** The next step is verified before it is worked on. */
  lemma NextStepConsumes(s: Exec, cfg: Config, v: Option<Verdict>, section: Section, source: Source, strict: bool)
    requires Sensible(cfg) && Within(cfg.limits, s.loop) && Current(s) && s.loop.awaiting && s.out.check.None?
    requires StepFree(s.out.stack) || !strict
    requires var r := Settle(s.loop, cfg.limits, Effective(v, section));
             r.1 == Continue && r.0.step != s.loop.step && cfg.verifyFirst && cfg.judged
    ensures Consumes(s, SettleWith(s, cfg, v, section, source), cfg, strict)
  {
    var r := Settle(s.loop, cfg.limits, Effective(v, section));
    var c := Consumed(s.loop.step, s.loop.attempt, v, section, source);
    DecisionPays(s.loop, cfg.limits, Effective(v, section));
    TakenUnits(s, cfg, r.0, c, strict);
    PushUnits(Taken(s, r.0, c), StepVerify, cfg, strict);
  }

  lemma NextPromptConsumes(s: Exec, cfg: Config, v: Option<Verdict>, section: Section, source: Source, strict: bool)
    requires Sensible(cfg) && Within(cfg.limits, s.loop) && Current(s) && s.loop.awaiting && s.out.check.None?
    requires StepFree(s.out.stack) || !strict
    requires var r := Settle(s.loop, cfg.limits, Effective(v, section));
             r.1 == Continue && !(r.0.step != s.loop.step && cfg.verifyFirst && cfg.judged)
    ensures Consumes(s, SettleWith(s, cfg, v, section, source), cfg, strict)
  {
    var r := Settle(s.loop, cfg.limits, Effective(v, section));
    var c := Consumed(s.loop.step, s.loop.attempt, v, section, source);
    var n := Taken(s, r.0, c);
    DecisionPays(s.loop, cfg.limits, Effective(v, section));
    TakenUnits(s, cfg, r.0, c, strict);
    HoldUnits(n, cfg, strict);
    PushUnits(HoldPrompt(n), FlushHeld, cfg, strict);
  }

  /** A verdict that is taken up is consumed, or checked first, or not taken up at all. */
  lemma SettleCheckedConsumes(s: Exec, cfg: Config, v: Option<Verdict>, source: Source, strict: bool)
    requires Sensible(cfg) && Within(cfg.limits, s.loop) && GateOk(s) && (StepFree(s.out.stack) || !strict)
    ensures var n := SettleChecked(s, cfg, v, source);
            || (n == s && (!Current(s) || !s.loop.awaiting || s.guards.settling))
            || (Current(s) && s.loop.awaiting && !s.guards.settling && s.out.check.None?
                && (Consumes(s, n, cfg, strict)
                    || (n.out.check.Some? && n == s.(guards := n.guards, out := s.out.(check := n.out.check))
                        && n.guards == s.guards.(settling := true))))
  {
    if Current(s) && s.loop.awaiting && !s.guards.settling && !NeedsCheck(s, cfg, v) {
      GatedConsumes(s, cfg, v, source, strict);
    }
  }

  lemma StepFreePush(s: Exec, f: Frame)
    requires StepFree(s.out.stack) && !f.StartVerify? && !f.StepVerify? && !f.Answering?
    ensures StepFree(Push(s, f).out.stack)
  {
  }

  lemma GatedConsumes(s: Exec, cfg: Config, v: Option<Verdict>, source: Source, strict: bool)
    requires Sensible(cfg) && Within(cfg.limits, s.loop) && Current(s) && s.loop.awaiting && s.out.check.None?
    requires StepFree(s.out.stack) || !strict
    ensures Consumes(s, SettleWith(Push(s.(guards := s.guards.(settling := true)), SettleEnd), cfg, v, Unchecked, source), cfg,
                     strict)
  {
    var g := s.(guards := s.guards.(settling := true));
    PushUnits(g, SettleEnd, cfg, strict);
    if strict {
      StepFreePush(g, SettleEnd);
    }
    SettleWithConsumes(Push(g, SettleEnd), cfg, v, Unchecked, source, strict);
  }

  // ---------------------------------------------------------------- a verification comes back

  /** A task came back: its attempt is still awaited, and it starts no other by itself. */
  predicate Back(s: Exec, m: Exec) {
    && m.loop == s.loop && m.log == s.log && m.life == s.life && m.out == s.out && m.tasks.lastSeq == s.tasks.lastSeq
    && m.tasks.identity == s.tasks.identity && m.tasks.verifyTask.None? && m.tasks.verifies == map[]
    && !m.guards.verifying && m.guards.pending == s.guards.pending && m.guards.settling == s.guards.settling
  }

  lemma BackUnits(s: Exec, m: Exec, cfg: Config, strict: bool)
    requires Back(s, m) && s.out.stack == []
    ensures Units(m, cfg, strict) == Units(s, cfg, strict)
  {
  }

  /** It is not taken up while another verdict is checked, or is checked itself: then that check goes on. */
  lemma CheckedPays(s: Exec, m: Exec, n: Exec, cfg: Config, strict: bool)
    requires Books(s, cfg) && s.life.started && Active(s.loop) && s.out.stack == []
    requires cfg.judged && s.guards.verifying && s.loop.awaiting && Back(s, m)
    requires n == m.(guards := n.guards, out := m.out.(check := n.out.check)) && n.out.check.Some?
    requires !n.guards.verifying && n.guards.pending == m.guards.pending
    ensures Pays(s, n, cfg, strict, 0) && Books(n, cfg)
  {
  }

  lemma ConsumedPays(s: Exec, m: Exec, n: Exec, cfg: Config, strict: bool)
    requires Sensible(cfg) && Within(cfg.limits, s.loop)
    requires Books(s, cfg) && s.life.started && Active(s.loop) && s.out.stack == []
    requires cfg.judged && s.guards.verifying && s.loop.awaiting && Back(s, m) && Consumes(m, n, cfg, strict)
    ensures Pays(s, n, cfg, strict, 0) && Books(n, cfg)
  {
    BackUnits(s, m, cfg, strict);
    WorkingHasOneLeft(s.loop, cfg.limits);
  }

  /** The verdict of a task that came back is taken up, if it still can be. */
  lemma BackSettles(s: Exec, m: Exec, cfg: Config, v: Option<Verdict>, source: Source, strict: bool)
    requires Sensible(cfg) && Sound(s, cfg) && Books(s, cfg) && s.life.started && Active(s.loop) && s.out.stack == []
    requires cfg.judged && s.guards.verifying && s.loop.awaiting && Back(s, m)
    ensures var n := SettleChecked(m, cfg, v, source); Pays(s, n, cfg, strict, 0) && Books(n, cfg)
  {
    var n := SettleChecked(m, cfg, v, source);
    SettleCheckedConsumes(m, cfg, v, source, strict);
    if n == m || n.out.check.Some? {
      CheckedPays(s, m, n, cfg, strict);
    } else {
      ConsumedPays(s, m, n, cfg, strict);
    }
  }

  lemma EndedBackPays(s: Exec, m: Exec, cfg: Config, phase: Phase, reason: Reason, strict: bool)
    requires Sensible(cfg) && Sound(s, cfg) && Books(s, cfg) && s.life.started && Active(s.loop) && s.out.stack == []
    requires Back(s, m) && (phase.NeedsHuman? || phase.Unavailable?)
    ensures var n := EndedByTask(m, phase, reason); Pays(s, n, cfg, strict, 0) && Books(n, cfg)
  {
    WorkingHasOneLeft(s.loop, cfg.limits);
  }

  /** A working run has not spent its last attempt. */
  lemma WorkingHasOneLeft(l: Loop, limits: Limits)
    requires limits.from <= limits.to && limits.tries >= 1 && Within(limits, l) && Active(l)
    ensures Spent(limits, l) <= (limits.to - limits.from + 1) * limits.tries - 1
  {
    ScaledSteps(l.step - limits.from, limits.to - limits.from, limits.tries);
    assert (limits.to - limits.from + 1) * limits.tries == (limits.to - limits.from) * limits.tries + limits.tries;
  }

  /** An outage leaves its attempt awaited, with one retry less. */
  lemma RetryPays(s: Exec, m: Exec, cfg: Config, strict: bool)
    requires Books(s, cfg) && s.life.started && Active(s.loop) && s.out.stack == []
    requires cfg.judged && s.guards.verifying && s.loop.awaiting && Back(s, m)
    requires m.tasks.misses == s.tasks.misses + 1 <= VerifierRetries
    ensures Pays(s, Push(m, RetryVerify), cfg, strict, 0) && Books(Push(m, RetryVerify), cfg)
  {
    BackUnits(s, m, cfg, strict);
    PushUnits(m, RetryVerify, cfg, strict);
  }

  lemma OutagePays(s: Exec, m: Exec, cfg: Config, n: nat, retryable: bool, w: World, strict: bool)
    requires Sensible(cfg) && Sound(s, cfg) && Books(s, cfg) && s.life.started && Active(s.loop) && s.out.stack == []
    requires cfg.judged && s.guards.verifying && s.loop.awaiting && Back(s, m) && m.tasks.misses == s.tasks.misses
    ensures var r := AfterOutage(m, cfg, n, retryable, w); Pays(s, r, cfg, strict, 0) && Books(r, cfg)
  {
    if !retryable {
      EndedBackPays(s, m, cfg, Unavailable, VerifierUnavailable, strict);
    } else if Miss(m).tasks.misses <= VerifierRetries {
      RetryPays(s, Miss(m), cfg, strict);
    } else if cfg.selfFallback {
      BackSettles(s, Miss(m), cfg, w.reply, FromTask(n), strict);
    } else {
      EndedBackPays(s, Miss(m), cfg, Unavailable, VerifierUnavailable, strict);
    }
  }

  /** The task that came back is the one under way. */
  lemma TaskIsBack(s: Exec, cfg: Config, n: nat)
    requires Books(s, cfg) && s.life.started && Active(s.loop) && n in s.tasks.verifies && cfg.judged
    ensures Back(s, ForgetEnd(TaskDone(s, n))) && s.guards.verifying && TaskDone(s, n).tasks.misses == s.tasks.misses
    ensures s.tasks.verifyTask == Some(n) && (Decides(TaskDone(s, n), n) <==> s.loop.awaiting)
  {
    var v := s.tasks.verifies - {n};
    assert forall k :: k in v ==> k in s.tasks.verifies && k != n;
    assert v == map[];
  }

  /** A task whose attempt is no longer awaited decides nothing. */
  lemma AbandonedPays(s: Exec, cfg: Config, n: nat, strict: bool)
    requires Books(s, cfg) && s.life.started && Active(s.loop) && n in s.tasks.verifies && cfg.judged && s.out.stack == []
    requires !s.loop.awaiting
    ensures Pays(s, TaskDone(s, n), cfg, strict, 0) && Books(TaskDone(s, n), cfg)
  {
    TaskIsBack(s, cfg, n);
    BackUnits(s, ForgetEnd(TaskDone(s, n)), cfg, strict);
  }

  lemma AfterVerifyPays(s: Exec, cfg: Config, n: nat, outcome: Outcome, w: World, strict: bool)
    requires Sensible(cfg) && Sound(s, cfg) && Books(s, cfg) && s.life.started && s.out.stack == [] && n in s.tasks.verifies
    requires Active(s.loop) ==> !outcome.NoOutcome?
    ensures var r := AfterVerify(s, cfg, n, outcome, w); Pays(s, r, cfg, strict, 0) && Books(r, cfg)
  {
    if Active(s.loop) {
      TaskIsBack(s, cfg, n);
      var m := ForgetEnd(TaskDone(s, n));
      if !s.loop.awaiting {
        AbandonedPays(s, cfg, n, strict);
      } else {
        match outcome
        case NoOutcome =>
        case AsksPerson => EndedBackPays(s, m, cfg, NeedsHuman, VerifierNeedsHuman, strict);
        case Verified(v) =>
          BackSettles(s, m.(tasks := m.tasks.(misses := 0)), cfg, Some(v), FromTask(n), strict);
        case Outage(retryable) => OutagePays(s, m, cfg, n, retryable, w, strict);
      }
    }
  }

  /** A call that is made belongs to the task under way, unless the run ended meanwhile. */
  lemma CallPays(s: Exec, cfg: Config, w: World, strict: bool)
    requires Books(s, cfg) && s.life.started && s.out.stack != [] && Top(s).VerifyCall?
    ensures var n := CallVerifier(Pop(s), cfg, Top(s).seqNo, w); Pays(s, n, cfg, strict, 0) && Books(n, cfg)
  {
    PopUnits(s, cfg, strict);
  }

  /** A check that was read has its verdict consumed, or dropped with the attempt it was for. */
  lemma CheckReadPays(s: Exec, cfg: Config, section: Section, strict: bool)
    requires Sensible(cfg) && Sound(s, cfg) && Books(s, cfg) && s.life.started && s.out.stack == []
    ensures var n := CheckRead(s, cfg, section); Pays(s, n, cfg, strict, 0) && Books(n, cfg)
  {
    if s.out.check.Some? {
      var g := s.(out := s.out.(check := None));
      if Current(g) && g.loop.awaiting {
        JudgedCheckPays(s, Push(g, SettleEnd), cfg, section, strict);
      } else {
        DroppedCheckPays(s, g.(guards := g.guards.(settling := false)), cfg, strict);
      }
    }
  }

  lemma JudgedCheckPays(s: Exec, p: Exec, cfg: Config, section: Section, strict: bool)
    requires Sensible(cfg) && Within(cfg.limits, s.loop) && Books(s, cfg) && s.life.started && s.out.stack == []
    requires s.out.check.Some? && Current(s) && s.loop.awaiting
    requires p == Push(s.(out := s.out.(check := None)), SettleEnd)
    ensures var n := SettleWith(p, cfg, Some(s.out.check.value.verdict), section, s.out.check.value.source);
            Pays(s, n, cfg, strict, 0) && Books(n, cfg)
  {
    var c := s.out.check.value;
    PushUnits(s.(out := s.out.(check := None)), SettleEnd, cfg, strict);
    assert p.out.stack == [SettleEnd];
    SettleWithConsumes(p, cfg, Some(c.verdict), section, c.source, strict);
    ReadPays(s, p, SettleWith(p, cfg, Some(c.verdict), section, c.source), cfg, strict);
  }

  lemma DroppedCheckPays(s: Exec, n: Exec, cfg: Config, strict: bool)
    requires Books(s, cfg) && s.life.started && s.out.stack == [] && s.out.check.Some?
    requires Active(s.loop) ==> !s.loop.awaiting
    requires n == s.(out := s.out.(check := None), guards := s.guards.(settling := false))
    ensures Pays(s, n, cfg, strict, 0) && Books(n, cfg)
  {
  }

  lemma ReadPays(s: Exec, p: Exec, n: Exec, cfg: Config, strict: bool)
    requires Sensible(cfg) && Within(cfg.limits, s.loop) && Books(s, cfg) && s.life.started && s.out.stack == []
    requires Active(s.loop) && s.loop.awaiting && s.out.check.Some?
    requires p == Push(s.(out := s.out.(check := None)), SettleEnd) && Units(p, cfg, strict) == Units(s, cfg, strict)
    requires Retries(p.out.stack) == 0 && LoopJudged.CallsAre(p.out.stack, p.tasks.verifyTask) && Consumes(p, n, cfg, strict)
    ensures Pays(s, n, cfg, strict, 0) && Books(n, cfg)
  {
    WorkingHasOneLeft(s.loop, cfg.limits);
  }

  // ---------------------------------------------------------------- answers, starts and ends

  /** An answer is worth the attempt it resumes and the judgement, or the prompt, that it asks for; strictly, only one of
    * the two. */
  lemma AnswerPays(s: Exec, cfg: Config, strict: bool)
    requires Sensible(cfg) && Books(s, cfg) && s.life.started && Active(s.loop) && Paused(s.loop) && s.out.stack == []
    ensures Pays(s, Answered(s), cfg, strict, if strict then 1 else 2) && Books(Answered(s), cfg)
  {
    var n := s.(loop := Resume(s.loop), life := s.life.(answers := s.life.answers + 1));
    assert Left(n, cfg) == Left(s, cfg);
    assert Units(n, cfg, strict) == Units(s, cfg, strict);
    PushUnits(n, Answering, cfg, strict);
  }

  /** A run that ends by itself has paid for what it started. */
  lemma EndingPays(s: Exec, n: Exec, cfg: Config, strict: bool)
    requires Sensible(cfg) && Sound(s, cfg) && Books(s, cfg) && s.life.started && Active(s.loop) && !Active(n.loop)
    requires n.tasks.lastSeq == s.tasks.lastSeq && n.log.consumed == s.log.consumed && n.life.started
    requires n.life.answers == s.life.answers
    requires !cfg.judged ==> n.tasks.verifyTask.None? && n.tasks.verifies == map[] && !n.guards.verifying
    requires n.out.stack == s.out.stack
    ensures Pays(s, n, cfg, strict, 0) && Books(n, cfg)
  {
    WorkingHasOneLeft(s.loop, cfg.limits);
  }

  lemma StoppedPays(s: Exec, cfg: Config, reason: Reason, strict: bool)
    requires Sensible(cfg) && Sound(s, cfg) && Books(s, cfg) && s.life.started
    ensures Pays(s, Stopped(s, reason), cfg, strict, 0) && Books(Stopped(s, reason), cfg)
  {
    if s.life.owned && Active(s.loop) {
      EndingPays(s, Stopped(s, reason), cfg, strict);
    }
  }

  lemma LeavingPays(s: Exec, cfg: Config, reason: Reason, strict: bool)
    requires Sensible(cfg) && Sound(s, cfg) && Books(s, cfg) && s.life.started
    ensures var n := Stopped(Leave(s), reason);
            && Pays(s, n, cfg, strict, 0) && Books(n, cfg)
            && Pays(s, Disown(n), cfg, strict, 0) && Books(Disown(n), cfg)
  {
    if s.life.owned && Active(s.loop) {
      EndingPays(s, Stopped(Leave(s), reason), cfg, strict);
      EndingPays(s, Disown(Stopped(Leave(s), reason)), cfg, strict);
    }
  }

  lemma RejectedPays(s: Exec, cfg: Config, strict: bool)
    requires Sensible(cfg) && Sound(s, cfg) && Books(s, cfg) && s.life.started && s.out.sends > 0
    ensures var n := s.(out := s.out.(sends := s.out.sends - 1));
            && Pays(s, n, cfg, strict, 0) && Books(n, cfg)
            && Pays(s, Rejected(n), cfg, strict, 0) && Books(Rejected(n), cfg)
  {
    var n := s.(out := s.out.(sends := s.out.sends - 1));
    CalmPays(s, n, cfg, strict);
    if Current(n) {
      EndingPays(s, Rejected(n), cfg, strict);
    }
  }

  lemma ExpiredPays(s: Exec, cfg: Config, strict: bool)
    requires Sensible(cfg) && Sound(s, cfg) && Books(s, cfg) && s.life.started
    ensures Pays(s, Expired(s), cfg, strict, 0) && Books(Expired(s), cfg)
  {
    if s.life.owned && Active(s.loop) {
      EndingPays(s, Expired(s), cfg, strict);
    }
  }

  // ---------------------------------------------------------------- ends of turns

  /** Only what is noted of an end, and its timer, may differ. */
  predicate SameWork(s: Exec, e: Exec) {
    e == s.(guards := s.guards.(endedAt := e.guards.endedAt, settleTimer := e.guards.settleTimer))
  }

  lemma SameWorkPays(s: Exec, e: Exec, cfg: Config, strict: bool)
    requires Books(s, cfg) && s.life.started && SameWork(s, e)
    ensures Pays(s, e, cfg, strict, 0) && Books(e, cfg) && Units(e, cfg, strict) == Units(s, cfg, strict)
  {
  }

  lemma ReplyConsumedPays(s: Exec, e: Exec, n: Exec, cfg: Config)
    requires Sensible(cfg) && Within(cfg.limits, s.loop) && Books(s, cfg) && s.life.started && Active(s.loop) && !cfg.judged
    requires SameWork(s, e) && s.loop.awaiting && Consumes(e, n, cfg, false)
    ensures Pays(s, n, cfg, false, 0) && Books(n, cfg)
  {
    SameWorkPays(s, e, cfg, false);
    WorkingHasOneLeft(s.loop, cfg.limits);
  }

  lemma ReplyCheckedPays(s: Exec, n: Exec, cfg: Config)
    requires Books(s, cfg) && s.life.started && !cfg.judged
    requires n == s.(guards := n.guards, out := s.out.(check := n.out.check))
    requires n.guards.verifying == s.guards.verifying && n.guards.pending == s.guards.pending
    ensures Pays(s, n, cfg, false, 0) && Books(n, cfg)
  {
  }

  /** A reply that is read is consumed for the attempt that is awaited. */
  lemma ReplyPays(s: Exec, e: Exec, cfg: Config, v: Option<Verdict>)
    requires Sensible(cfg) && Sound(s, cfg) && Books(s, cfg) && s.life.started && Active(s.loop) && !cfg.judged && SameWork(s, e)
    ensures var n := SettleChecked(e, cfg, v, FromReply); Pays(s, n, cfg, false, 0) && Books(n, cfg)
  {
    var n := SettleChecked(e, cfg, v, FromReply);
    SettleCheckedConsumes(e, cfg, v, FromReply, false);
    if n == e || n.out.check.Some? {
      ReplyCheckedPays(s, n, cfg);
    } else {
      ReplyConsumedPays(s, e, n, cfg);
    }
  }

  lemma TrySettlePays(s: Exec, e: Exec, cfg: Config, w: World, strict: bool)
    requires Sensible(cfg) && Sound(s, cfg) && Books(s, cfg) && s.life.started && SameWork(s, e) && (strict ==> cfg.judged)
    ensures var n := TrySettle(e, cfg, w);
            Pays(s, n, cfg, strict, if strict then Doubled(s, n, cfg) else 0) && Books(n, cfg)
  {
    var n := TrySettle(e, cfg, w);
    if e.life.owned && Active(e.loop) && e.loop.awaiting && e.guards.endedAt && cfg.judged
       && !e.guards.verifying && !e.guards.settling {
      EndPays(s, e, cfg, strict);
    } else if e.life.owned && Active(e.loop) && e.loop.awaiting && e.guards.endedAt && !cfg.judged
              && (w.reply.Some? || w.late) {
      ReplyPays(s, ForgetEnd(e), cfg, w.reply);
    } else {
      SameWorkPays(s, n, cfg, strict);
    }
  }

  lemma IdlePays(s: Exec, cfg: Config, w: World, strict: bool)
    requires Sensible(cfg) && Sound(s, cfg) && Books(s, cfg) && s.life.started && (strict ==> cfg.judged)
    ensures var n := IdleStep(s, cfg, w);
            Pays(s, n, cfg, strict, if strict then Doubled(s, n, cfg) else 0) && Books(n, cfg)
  {
    TrySettlePays(s, s.(guards := s.guards.(endedAt := true)), cfg, w, strict);
    SameWorkPays(s, s, cfg, strict);
  }

  lemma RestPays(s: Exec, cfg: Config, w: World, strict: bool)
    requires Sensible(cfg) && Sound(s, cfg) && Books(s, cfg) && s.life.started && (strict ==> cfg.judged)
    ensures var n := RestOfChange(s, cfg, w);
            Pays(s, n, cfg, strict, if strict then Doubled(s, n, cfg) else 0) && Books(n, cfg)
  {
    TrySettlePays(s, s, cfg, w, strict);
    SameWorkPays(s, s, cfg, strict);
  }

  lemma ChangedPays(s: Exec, cfg: Config, w: World, strict: bool)
    requires Sensible(cfg) && Sound(s, cfg) && Books(s, cfg) && s.life.started && (strict ==> cfg.judged)
    ensures var n := ChangedStep(s, cfg, w);
            Pays(s, n, cfg, strict, if strict then Doubled(s, n, cfg) else 0) && Books(n, cfg)
  {
    if s.guards.pending {
      var p := Push(s, ChangedRest);
      PushUnits(s, ChangedRest, cfg, strict);
      CalmPays(s, p, cfg, strict);
      FlushPays(p, cfg, w, strict);
      PaysOn(s, p, Flush(p, cfg, w), cfg, strict, 0);
    } else {
      RestPays(s, cfg, w, strict);
    }
  }

  // ---------------------------------------------------------------- steps

  lemma SoundPop(s: Exec, cfg: Config)
    requires Sound(s, cfg) && s.out.stack != [] && !Top(s).SettleEnd?
    ensures Sound(Pop(s), cfg)
  {
    PoppedQuiet(s);
    QuietGoes(s, Pop(s), cfg);
  }

  lemma ChangeRestPays(s: Exec, cfg: Config, w: World, strict: bool)
    requires Sensible(cfg) && Sound(s, cfg) && Books(s, cfg) && s.life.started && (strict ==> cfg.judged)
    requires s.out.stack != [] && Top(s).ChangedRest?
    ensures var n := RestOfChange(Pop(s), cfg, w);
            Pays(s, n, cfg, strict, if strict then Doubled(s, n, cfg) else 0) && Books(n, cfg)
  {
    var p := Pop(s);
    SoundPop(s, cfg);
    PoppedPays(s, cfg, strict);
    RestPays(p, cfg, w, strict);
    PaysOn(s, p, RestOfChange(p, cfg, w), cfg, strict, if strict then Doubled(p, RestOfChange(p, cfg, w), cfg) else 0);
  }

  lemma HeldFramePays(s: Exec, cfg: Config, w: World, strict: bool)
    requires Books(s, cfg) && s.life.started && s.out.stack != [] && Top(s).FlushHeld?
    ensures var n := Flush(Pop(s), cfg, w); Pays(s, n, cfg, strict, 0) && Books(n, cfg)
  {
    PoppedPays(s, cfg, strict);
    FlushPays(Pop(s), cfg, w, strict);
    PaysOn(s, Pop(s), Flush(Pop(s), cfg, w), cfg, strict, 0);
  }

  /** An answer that nobody judges is the next prompt. */
  lemma AnswerFramePays(s: Exec, cfg: Config, w: World)
    requires Books(s, cfg) && s.life.started && s.out.stack != [] && Top(s).Answering? && !cfg.judged
    ensures var n := TakeAnswer(Pop(s), cfg, w); Pays(s, n, cfg, false, 0) && Books(n, cfg)
  {
    var h := HoldPrompt(Pop(s));
    PopUnits(s, cfg, false);
    HoldUnits(Pop(s), cfg, false);
    CalmPays(s, h, cfg, false);
    FlushPays(h, cfg, w, false);
    PaysOn(s, h, Flush(h, cfg, w), cfg, false, 0);
  }

  lemma ReturnPays(s: Exec, cfg: Config, w: World, strict: bool)
    requires Sensible(cfg) && Sound(s, cfg) && Books(s, cfg) && s.life.started && (strict ==> cfg.judged)
    requires s.out.stack != []
    ensures var n := Continued(Pop(s), cfg, Top(s), w);
            Pays(s, n, cfg, strict, if strict then Doubled(s, n, cfg) else 0) && Books(n, cfg)
  {
    var f := Top(s);
    if f.ChangedRest? {
      ChangeRestPays(s, cfg, w, strict);
    } else if IsCompaction(f) {
      CompactFramePays(s, cfg, w, strict);
    } else if f.VerifyCall? {
      CallPays(s, cfg, w, strict);
    } else if f.StartSend? {
      SendOpeningPays(s, cfg, w, strict);
    } else if f.FlushHeld? {
      HeldFramePays(s, cfg, w, strict);
    } else if f.RetryVerify? {
      RetryFramePays(s, cfg, strict);
    } else if f.Answering? && !cfg.judged {
      AnswerFramePays(s, cfg, w);
    } else if f.StartVerify? || f.StepVerify? || f.Answering? {
      JudgeFramePays(s, cfg, w, strict);
    } else {
      PassingPays(s, cfg, w, strict);
    }
  }

  lemma JudgeFramePays(s: Exec, cfg: Config, w: World, strict: bool)
    requires Books(s, cfg) && s.life.started && s.out.stack != [] && (Top(s).Answering? ==> cfg.judged)
    requires Top(s).StartVerify? || Top(s).StepVerify? || Top(s).Answering?
    ensures var n := Continued(Pop(s), cfg, Top(s), w); Pays(s, n, cfg, strict, 0) && Books(n, cfg)
  {
    if cfg.marked(s.loop.step) {
      SectionStartPays(s, cfg, strict);
    } else if cfg.judged {
      RoundFramePays(s, cfg, w, strict);
    } else {
      PoppedPays(s, cfg, strict);
    }
  }

  /** What an answer is worth. */
  function Allowance(s: Exec, n: Exec, cfg: Config, strict: bool): nat {
    if n.life.answers > s.life.answers then (if strict then 1 else 2)
    else if strict then Doubled(s, n, cfg) else 0
  }

  /** A verifier reports that it was cancelled only when it was. */
  predicate Honest(s: Exec, e: LoopMachine.Event) {
    e.VerifyReturns? && e.outcome.NoOutcome? && e.seqNo in s.tasks.verifies ==> s.tasks.verifies[e.seqNo]
  }

  lemma VerifyReturnPays(s: Exec, cfg: Config, n: nat, outcome: Outcome, w: World, strict: bool)
    requires Sensible(cfg) && Sound(s, cfg) && Books(s, cfg) && s.life.started && s.out.stack == []
    requires Honest(s, VerifyReturns(n, outcome, w))
    ensures var r := TopStep(s, cfg, VerifyReturns(n, outcome, w)); Pays(s, r, cfg, strict, 0) && Books(r, cfg)
  {
    if n in s.tasks.verifies {
      AfterVerifyPays(s, cfg, n, outcome, w, strict);
    } else {
      SameWorkPays(s, s, cfg, strict);
    }
  }

  lemma ReadingPays(s: Exec, cfg: Config, e: LoopMachine.Event, strict: bool)
    requires Sensible(cfg) && Sound(s, cfg) && Books(s, cfg) && s.life.started && s.out.stack == [] && Honest(s, e)
    requires e.SectionReturns? || e.CheckReturns? || e.VerifyReturns? || e.CompactReturns?
    ensures Pays(s, TopStep(s, cfg, e), cfg, strict, 0) && Books(TopStep(s, cfg, e), cfg)
  {
    SameWorkPays(s, s, cfg, strict);
    match e
    case SectionReturns(section) => if !section.Unchecked? { SectionReadPays(s, cfg, section, strict); }
    case CheckReturns(section) => if !section.Unchecked? { CheckReadPays(s, cfg, section, strict); }
    case VerifyReturns(n, outcome, w) => VerifyReturnPays(s, cfg, n, outcome, w, strict);
    case CompactReturns => CompactDonePays(s, cfg, strict);
  }

  lemma FlushResumedPays(s: Exec, cfg: Config, strict: bool)
    requires Books(s, cfg) && s.life.started && s.out.flushResumes > 0
    ensures var n := SendPending(s.(out := s.out.(flushResumes := s.out.flushResumes - 1)));
            Pays(s, n, cfg, strict, 0) && Books(n, cfg)
  {
    var r := s.(out := s.out.(flushResumes := s.out.flushResumes - 1));
    CalmPays(s, r, cfg, strict);
    SendPendingPays(r, cfg, strict);
    PaysOn(s, r, SendPending(r), cfg, strict, 0);
  }

  lemma SendingPays(s: Exec, cfg: Config, e: LoopMachine.Event, strict: bool)
    requires Sensible(cfg) && Sound(s, cfg) && Books(s, cfg) && s.life.started && s.out.stack == []
    requires e.StartResumes? || e.FlushResumes? || e.SendReturns? || e.SendFails?
    ensures Pays(s, TopStep(s, cfg, e), cfg, strict, 0) && Books(TopStep(s, cfg, e), cfg)
  {
    if e.StartResumes? || e.FlushResumes? {
      ResumingPays(s, cfg, e, strict);
    } else {
      HandedOverPays(s, cfg, e, strict);
    }
  }

  lemma ResumingPays(s: Exec, cfg: Config, e: LoopMachine.Event, strict: bool)
    requires Books(s, cfg) && s.life.started && s.out.stack == [] && (e.StartResumes? || e.FlushResumes?)
    ensures Pays(s, TopStep(s, cfg, e), cfg, strict, 0) && Books(TopStep(s, cfg, e), cfg)
  {
    if e.StartResumes? && s.out.startResume {
      StartResumedPays(s, cfg, strict);
    } else if e.FlushResumes? && s.out.flushResumes > 0 {
      FlushResumedPays(s, cfg, strict);
    }
  }

  lemma HandedOverPays(s: Exec, cfg: Config, e: LoopMachine.Event, strict: bool)
    requires Sensible(cfg) && Sound(s, cfg) && Books(s, cfg) && s.life.started && s.out.stack == []
    requires e.SendReturns? || e.SendFails?
    ensures Pays(s, TopStep(s, cfg, e), cfg, strict, 0) && Books(TopStep(s, cfg, e), cfg)
  {
    if s.out.sends > 0 {
      RejectedPays(s, cfg, strict);
    }
  }

  lemma ClosingPays(s: Exec, cfg: Config, e: LoopMachine.Event, strict: bool)
    requires Sensible(cfg) && Sound(s, cfg) && Books(s, cfg) && s.life.started && s.out.stack == []
    requires e.DeadlineFires? || e.StopRun? || e.Forget? || e.Close?
    ensures Pays(s, TopStep(s, cfg, e), cfg, strict, 0) && Books(TopStep(s, cfg, e), cfg)
  {
    match e
    case DeadlineFires => ExpiredPays(s, cfg, strict);
    case StopRun => StoppedPays(s, cfg, UserCancelled, strict);
    case Forget => LeavingPays(s, cfg, Replaced, strict);
    case Close => LeavingPays(s, cfg, UserCancelled, strict);
  }

  lemma TimeoutPays(s: Exec, cfg: Config, w: World, strict: bool)
    requires Sensible(cfg) && Sound(s, cfg) && Books(s, cfg) && s.life.started && (strict ==> cfg.judged)
    ensures var n := TrySettle(s.(guards := s.guards.(settleTimer := false)), cfg, w);
            Pays(s, n, cfg, strict, if strict then Doubled(s, n, cfg) else 0) && Books(n, cfg)
  {
    TrySettlePays(s, s.(guards := s.guards.(settleTimer := false)), cfg, w, strict);
  }

  lemma PaysMore(s: Exec, n: Exec, cfg: Config, strict: bool, allowance: nat, more: nat)
    requires Pays(s, n, cfg, strict, allowance) && allowance <= more
    ensures Pays(s, n, cfg, strict, more)
  {
  }

  lemma AnswerStepPays(s: Exec, cfg: Config, strict: bool)
    requires Sensible(cfg) && Books(s, cfg) && s.life.started && Active(s.loop) && Paused(s.loop) && s.out.stack == []
    ensures Pays(s, Answered(s), cfg, strict, Allowance(s, Answered(s), cfg, strict)) && Books(Answered(s), cfg)
  {
    AnswerPays(s, cfg, strict);
    assert Answered(s).life.answers == s.life.answers + 1;
  }

  lemma TimeoutStepPays(s: Exec, cfg: Config, w: World, strict: bool)
    requires Sensible(cfg) && Sound(s, cfg) && Books(s, cfg) && s.life.started && (strict ==> cfg.judged)
    ensures var n := TrySettle(s.(guards := s.guards.(settleTimer := false)), cfg, w);
            Pays(s, n, cfg, strict, Allowance(s, n, cfg, strict)) && Books(n, cfg)
  {
    var n := TrySettle(s.(guards := s.guards.(settleTimer := false)), cfg, w);
    TimeoutPays(s, cfg, w, strict);
    PaysMore(s, n, cfg, strict, if strict then Doubled(s, n, cfg) else 0, Allowance(s, n, cfg, strict));
  }

  lemma OperatingPays(s: Exec, cfg: Config, e: LoopMachine.Event, strict: bool)
    requires Sensible(cfg) && Sound(s, cfg) && Books(s, cfg) && s.life.started && (strict ==> cfg.judged)
    requires s.out.stack == [] && (e.Start? || e.SettleTimeout? || e.Answer?)
    ensures var n := TopStep(s, cfg, e); Pays(s, n, cfg, strict, Allowance(s, n, cfg, strict)) && Books(n, cfg)
  {
    if e.SettleTimeout? && s.guards.settleTimer {
      TimeoutEventPays(s, cfg, e, strict);
    } else if e.Answer? && Current(s) && Paused(s.loop) {
      AnswerEventPays(s, cfg, e, strict);
    } else {
      NoOperation(s, cfg, e);
      NothingPays(s, cfg, strict);
    }
  }

  lemma TimeoutEventPays(s: Exec, cfg: Config, e: LoopMachine.Event, strict: bool)
    requires Sensible(cfg) && Sound(s, cfg) && Books(s, cfg) && s.life.started && (strict ==> cfg.judged)
    requires e.SettleTimeout? && s.guards.settleTimer
    ensures var n := TopStep(s, cfg, e); Pays(s, n, cfg, strict, Allowance(s, n, cfg, strict)) && Books(n, cfg)
  {
    TimeoutStepPays(s, cfg, e.w, strict);
    assert TopStep(s, cfg, e) == TrySettle(s.(guards := s.guards.(settleTimer := false)), cfg, e.w);
  }

  lemma AnswerEventPays(s: Exec, cfg: Config, e: LoopMachine.Event, strict: bool)
    requires Sensible(cfg) && Books(s, cfg) && s.life.started && s.out.stack == []
    requires e.Answer? && Current(s) && Paused(s.loop)
    ensures var n := TopStep(s, cfg, e); Pays(s, n, cfg, strict, Allowance(s, n, cfg, strict)) && Books(n, cfg)
  {
    AnswerStepPays(s, cfg, strict);
    assert TopStep(s, cfg, e) == Answered(s);
  }

  lemma NoOperation(s: Exec, cfg: Config, e: LoopMachine.Event)
    requires s.life.started && (e.Start? || e.SettleTimeout? || e.Answer?)
    requires !(e.SettleTimeout? && s.guards.settleTimer) && !(e.Answer? && Current(s) && Paused(s.loop))
    ensures TopStep(s, cfg, e) == s
  {
  }

  lemma NothingPays(s: Exec, cfg: Config, strict: bool)
    requires Books(s, cfg) && s.life.started
    ensures Pays(s, s, cfg, strict, Allowance(s, s, cfg, strict))
  {
    SameWorkPays(s, s, cfg, strict);
    PaysMore(s, s, cfg, strict, 0, Allowance(s, s, cfg, strict));
  }

  lemma TopStepPays(s: Exec, cfg: Config, e: LoopMachine.Event, strict: bool)
    requires Sensible(cfg) && Sound(s, cfg) && Books(s, cfg) && s.life.started && (strict ==> cfg.judged)
    requires Honest(s, e) && s.out.stack == []
    ensures var n := TopStep(s, cfg, e); Pays(s, n, cfg, strict, Allowance(s, n, cfg, strict)) && Books(n, cfg)
  {
    var n := TopStep(s, cfg, e);
    if e.Start? || e.SettleTimeout? || e.Answer? {
      OperatingPays(s, cfg, e, strict);
    } else {
      if e.SectionReturns? || e.CheckReturns? || e.VerifyReturns? || e.CompactReturns? {
        ReadingPays(s, cfg, e, strict);
      } else if e.StartResumes? || e.FlushResumes? || e.SendReturns? || e.SendFails? {
        SendingPays(s, cfg, e, strict);
      } else if e.DeadlineFires? || e.StopRun? || e.Forget? || e.Close? {
        ClosingPays(s, cfg, e, strict);
      } else {
        SameWorkPays(s, s, cfg, strict);
      }
      PaysMore(s, n, cfg, strict, 0, Allowance(s, n, cfg, strict));
    }
  }

  /** Every step of a started run is paid for by what its answers and its doubled tasks are worth. */
  lemma StepPays(s: Exec, cfg: Config, e: LoopMachine.Event, strict: bool)
    requires Sensible(cfg) && Sound(s, cfg) && Books(s, cfg) && s.life.started && (strict ==> cfg.judged) && Honest(s, e)
    ensures var n := LoopMachine.Step(s, cfg, e); Pays(s, n, cfg, strict, Allowance(s, n, cfg, strict)) && Books(n, cfg)
  {
    var n := LoopMachine.Step(s, cfg, e);
    if e.Return? || e.Changed? || e.Idle? {
      CallbackPays(s, cfg, e, strict);
      PaysMore(s, n, cfg, strict, if strict then Doubled(s, n, cfg) else 0, Allowance(s, n, cfg, strict));
    } else if s.out.stack == [] {
      TopStepPays(s, cfg, e, strict);
    } else {
      SameWorkPays(s, s, cfg, strict);
    }
  }

  lemma CallbackPays(s: Exec, cfg: Config, e: LoopMachine.Event, strict: bool)
    requires Sensible(cfg) && Sound(s, cfg) && Books(s, cfg) && s.life.started && (strict ==> cfg.judged)
    requires e.Return? || e.Changed? || e.Idle?
    ensures var n := LoopMachine.Step(s, cfg, e);
            Pays(s, n, cfg, strict, if strict then Doubled(s, n, cfg) else 0) && Books(n, cfg)
  {
    SameWorkPays(s, s, cfg, strict);
    match e
    case Return(w) => if s.out.stack != [] { ReturnPays(s, cfg, w, strict); }
    case Changed(w) => if s.life.live { ChangedPays(s, cfg, w, strict); }
    case Idle(w) => if s.life.live { IdlePays(s, cfg, w, strict); }
  }

  lemma StartPays(cfg: Config, strict: bool)
    ensures var n := Started(Fresh(cfg), cfg); Pays(Fresh(cfg), n, cfg, strict, 1) && Books(n, cfg) && Books(Fresh(cfg), cfg)
  {
    BegunPays(cfg, strict);
    StartedPays(Begun(Fresh(cfg), cfg), cfg, if cfg.verifyFirst && cfg.judged then StartVerify else StartSend, strict);
  }

  lemma StartedPays(b: Exec, cfg: Config, f: Frame, strict: bool)
    requires b == Begun(Fresh(cfg), cfg) && Books(b, cfg) && (f.StartVerify? || f.StartSend?)
    requires !b.guards.verifying && !b.loop.awaiting && Retries(b.out.stack) == 0 && Active(b.loop)
    requires Pays(Fresh(cfg), b, cfg, strict, 0)
    ensures Pays(Fresh(cfg), Push(b, f), cfg, strict, 1) && Books(Push(b, f), cfg)
  {
    PushUnits(b, f, cfg, strict);
  }

  lemma BegunPays(cfg: Config, strict: bool)
    ensures var b := Begun(Fresh(cfg), cfg); Pays(Fresh(cfg), b, cfg, strict, 0) && Books(b, cfg) && Books(Fresh(cfg), cfg)
    ensures !Begun(Fresh(cfg), cfg).guards.verifying && !Begun(Fresh(cfg), cfg).loop.awaiting
    ensures Retries(Begun(Fresh(cfg), cfg).out.stack) == 0 && Active(Begun(Fresh(cfg), cfg).loop)
  {
  }

  // ---------------------------------------------------------------- main results

  ghost predicate AllHonest(cfg: Config, events: seq<LoopMachine.Event>) {
    forall i :: 0 <= i < |events| ==> Honest(LoopMachine.Run(cfg, events[..i]), events[i])
  }

  /** How often a run started a verification although other work of it was outstanding. */
  function Doubles(cfg: Config, events: seq<LoopMachine.Event>): nat {
    if events == [] then 0
    else
      var front := events[..|events| - 1];
      Doubles(cfg, front) + Doubled(LoopMachine.Run(cfg, front), LoopMachine.Run(cfg, events), cfg)
  }

  /** What a run was worth beyond its attempts. */
  function Worth(cfg: Config, events: seq<LoopMachine.Event>, strict: bool): nat {
    var s := LoopMachine.Run(cfg, events);
    if strict then s.life.answers + Doubles(cfg, events) else 2 * s.life.answers
  }

  predicate Bounded(s: Exec, cfg: Config, strict: bool, worth: nat) {
    var most := Tries(cfg) - 1 + Bit(s.life.started) + worth;
    if Active(s.loop) then
      && (cfg.judged ==> TaskAccount(s, cfg, strict) <= 3 * most) && VerdictAccount(s, cfg, strict) <= most
    else (cfg.judged ==> s.tasks.lastSeq <= 3 * most) && |s.log.consumed| <= most
  }

  lemma BoundedNext(s: Exec, n: Exec, cfg: Config, strict: bool, worth: nat, allowance: nat)
    requires Bounded(s, cfg, strict, worth) && Pays(s, n, cfg, strict, allowance) && s.life.started && n.life.started
    ensures Bounded(n, cfg, strict, worth + allowance)
  {
  }

  lemma BoundedMore(s: Exec, cfg: Config, strict: bool, worth: nat, more: nat)
    requires Bounded(s, cfg, strict, worth) && worth <= more
    ensures Bounded(s, cfg, strict, more)
  {
  }

  /** Before the run starts it is only closed or started. */
  lemma UnstartedStays(s: Exec, cfg: Config, e: LoopMachine.Event)
    requires Books(s, cfg) && !s.life.started
    ensures var n := LoopMachine.Step(s, cfg, e);
            || n == Started(Fresh(cfg), cfg) || (n == s && !n.life.started)
            || (!n.life.started && n == Leave(Fresh(cfg)))
  {
  }

  lemma UnstartedIsBounded(s: Exec, cfg: Config, strict: bool)
    requires s == Fresh(cfg) || s == Leave(Fresh(cfg))
    ensures Books(s, cfg) && Bounded(s, cfg, strict, 0)
  {
  }

  lemma StartedIsBounded(cfg: Config, strict: bool)
    ensures Books(Started(Fresh(cfg), cfg), cfg) && Bounded(Started(Fresh(cfg), cfg), cfg, strict, 0)
  {
    UnstartedIsBounded(Fresh(cfg), cfg, strict);
    StartPays(cfg, strict);
  }

  /** What a run is worth grows by what its next step may cost. */
  lemma WorthGrows(cfg: Config, front: seq<LoopMachine.Event>, e: LoopMachine.Event, strict: bool)
    requires LoopMachine.Run(cfg, front).life.answers <= LoopMachine.Run(cfg, front + [e]).life.answers
    ensures Worth(cfg, front, strict) + Allowance(LoopMachine.Run(cfg, front), LoopMachine.Run(cfg, front + [e]), cfg, strict)
         <= Worth(cfg, front + [e], strict)
  {
    assert (front + [e])[..|front|] == front;
  }

  lemma NextIsBounded(cfg: Config, front: seq<LoopMachine.Event>, e: LoopMachine.Event, strict: bool)
    requires Sensible(cfg) && (strict ==> cfg.judged) && Honest(LoopMachine.Run(cfg, front), e)
    requires Books(LoopMachine.Run(cfg, front), cfg)
    requires Bounded(LoopMachine.Run(cfg, front), cfg, strict, Worth(cfg, front, strict))
    ensures Books(LoopMachine.Run(cfg, front + [e]), cfg)
    ensures Bounded(LoopMachine.Run(cfg, front + [e]), cfg, strict, Worth(cfg, front + [e], strict))
  {
    var s, n := LoopMachine.Run(cfg, front), LoopMachine.Run(cfg, front + [e]);
    RunNext(cfg, front, e);
    if s.life.started {
      EveryRunIsSound(cfg, front);
      StepPays(s, cfg, e, strict);
      WorthGrows(cfg, front, e, strict);
      BoundedNext(s, n, cfg, strict, Worth(cfg, front, strict), Allowance(s, n, cfg, strict));
      BoundedMore(n, cfg, strict, Worth(cfg, front, strict) + Allowance(s, n, cfg, strict), Worth(cfg, front + [e], strict));
    } else {
      UnstartedStays(s, cfg, e);
      StartedIsBounded(cfg, strict);
      if !n.life.started {
        UnstartedIsBounded(n, cfg, strict);
      }
      BoundedMore(n, cfg, strict, 0, Worth(cfg, front + [e], strict));
    }
  }

  lemma {:induction false} EveryRunIsBounded(cfg: Config, events: seq<LoopMachine.Event>, strict: bool)
    requires Sensible(cfg) && AllHonest(cfg, events) && (strict ==> cfg.judged)
    ensures Books(LoopMachine.Run(cfg, events), cfg)
    ensures Bounded(LoopMachine.Run(cfg, events), cfg, strict, Worth(cfg, events, strict))
  {
    if events == [] {
      NoEventsAreBounded(cfg, strict);
    } else {
      var front, e := events[..|events| - 1], events[|events| - 1];
      HonestSoFar(cfg, events);
      EveryRunIsBounded(cfg, front, strict);
      assert front + [e] == events;
      NextIsBounded(cfg, front, e, strict);
    }
  }

  lemma NoEventsAreBounded(cfg: Config, strict: bool)
    ensures LoopMachine.Run(cfg, []) == Fresh(cfg) && Books(Fresh(cfg), cfg)
    ensures Bounded(Fresh(cfg), cfg, strict, Worth(cfg, [], strict))
  {
    UnstartedIsBounded(Fresh(cfg), cfg, strict);
    BoundedMore(Fresh(cfg), cfg, strict, 0, Worth(cfg, [], strict));
  }

  lemma HonestSoFar(cfg: Config, events: seq<LoopMachine.Event>)
    requires AllHonest(cfg, events) && events != []
    ensures AllHonest(cfg, events[..|events| - 1])
    ensures Honest(LoopMachine.Run(cfg, events[..|events| - 1]), events[|events| - 1])
  {
    var front := events[..|events| - 1];
    forall i | 0 <= i < |front|
      ensures Honest(LoopMachine.Run(cfg, front[..i]), front[i])
    {
      assert front[..i] == events[..i];
    }
  }

  lemma BoundIsBelow(s: Exec, cfg: Config, strict: bool, worth: nat)
    requires Sensible(cfg) && Sound(s, cfg) && Books(s, cfg) && Bounded(s, cfg, strict, worth)
    ensures s.tasks.lastSeq <= 3 * (Tries(cfg) + worth) && |s.log.consumed| <= Tries(cfg) + worth
  {
    if Active(s.loop) {
      WorkingHasOneLeft(s.loop, cfg.limits);
    }
    BudgetIsPositive(cfg);
  }

  lemma BudgetIsPositive(cfg: Config)
    requires Sensible(cfg)
    ensures Tries(cfg) >= 1
  {
    ScaledSteps(1, cfg.limits.to - cfg.limits.from + 1, cfg.limits.tries);
  }

  /** Whatever the host, the timers and the operator do: every run starts at most three verifications for each attempt of
    * its budget and six for each answer, and consumes at most one verdict for each attempt and two for each answer. */
  lemma TasksAreBounded(cfg: Config, events: seq<LoopMachine.Event>)
    requires Sensible(cfg) && AllHonest(cfg, events)
    ensures var s := LoopMachine.Run(cfg, events);
            && s.tasks.lastSeq <= 3 * (Tries(cfg) + 2 * s.life.answers)
            && |s.log.consumed| <= Tries(cfg) + 2 * s.life.answers
  {
    EveryRunIsBounded(cfg, events, false);
    EveryRunIsSound(cfg, events);
    BoundIsBelow(LoopMachine.Run(cfg, events), cfg, false, Worth(cfg, events, false));
  }

  lemma {:induction false} OwesWeighs(stack: seq<Frame>, marked: bool)
    ensures Owing(stack, !marked) + LoopJudged.Rounds(stack, marked) <= LoopJudged.Weights(stack)
  {
    if stack != [] {
      OwesWeighs(stack[..|stack| - 1], marked);
    }
  }

  /** An allowed run starts no verification while other work of it is outstanding. */
  lemma AllowedIsNotDoubled(s: Exec, n: Exec, cfg: Config)
    requires LoopJudged.Inv(n, cfg)
    ensures Doubled(s, n, cfg) == 0
  {
    LoopJudged.CountsWeigh(n.out.stack, cfg.marked(n.loop.step));
    OwesWeighs(n.out.stack, cfg.marked(n.loop.step));
  }

  lemma {:induction false} AllowedNeverDoubles(cfg: Config, events: seq<LoopMachine.Event>)
    requires cfg.judged && AllAllowed(cfg, events)
    ensures Doubles(cfg, events) == 0
  {
    if events != [] {
      var front := events[..|events| - 1];
      assert forall i :: 0 <= i < |front| ==> front[..i] == events[..i];
      AllowedNeverDoubles(cfg, front);
      LoopSafety.EveryRunKeepsInv(cfg, events);
      AllowedIsNotDoubled(LoopMachine.Run(cfg, front), LoopMachine.Run(cfg, events), cfg);
    }
  }

  /** Each answer is worth one attempt's tasks, and another's only where a verification was started although other work was
    * outstanding. */
  lemma DoubledTasksAreBounded(cfg: Config, events: seq<LoopMachine.Event>)
    requires Sensible(cfg) && cfg.judged && AllHonest(cfg, events)
    ensures var s, most := LoopMachine.Run(cfg, events), Tries(cfg) + LoopMachine.Run(cfg, events).life.answers + Doubles(cfg, events);
            s.tasks.lastSeq <= 3 * most && |s.log.consumed| <= most
  {
    EveryRunIsBounded(cfg, events, true);
    EveryRunIsSound(cfg, events);
    BoundIsBelow(LoopMachine.Run(cfg, events), cfg, true, Worth(cfg, events, true));
  }

  /** So a judged run that is allowed starts at most three verifications for each attempt and each answer. */
  lemma AllowedTasksAreBounded(cfg: Config, events: seq<LoopMachine.Event>)
    requires Sensible(cfg) && cfg.judged && AllAllowed(cfg, events) && AllHonest(cfg, events)
    ensures var s, most := LoopMachine.Run(cfg, events), Tries(cfg) + LoopMachine.Run(cfg, events).life.answers;
            s.tasks.lastSeq <= 3 * most && |s.log.consumed| <= most
  {
    AllowedNeverDoubles(cfg, events);
    DoubledTasksAreBounded(cfg, events);
  }

  // ---------------------------------------------------------------- a verifier that is cancelled by itself

  /** A turn is out, and nothing else is going on. */
  predicate Waiting(s: Exec) {
    && s.out.stack == [] && Current(s) && s.loop.awaiting && s.out.sectionReads == 0 && s.out.check.None?
    && s.guards == Guards(false, false, false, false, false, false)
  }

  /** A verification that comes back as cancelled leaves the run as it was, and the next end starts another. */
  lemma CancelledTask(s: Exec, cfg: Config, w: World)
    requires Waiting(s) && cfg.judged && !w.due
    ensures var a := LoopMachine.Step(s, cfg, Idle(w));
            var b := LoopMachine.Step(a, cfg, Return(w));
            var c := LoopMachine.Step(b, cfg, VerifyReturns(s.tasks.lastSeq + 1, NoOutcome, w));
            && Waiting(c) && c.tasks.lastSeq == s.tasks.lastSeq + 1
            && Allowed(s, cfg, Idle(w)) && Allowed(a, cfg, Return(w))
  {
    var n := s.tasks.lastSeq + 1;
    var a := LoopMachine.Step(s, cfg, Idle(w));
    assert a == VerifyRound(s.(guards := s.guards.(endedAt := true)), cfg);
    assert Top(a) == VerifyCall(n) && Pop(a).out.stack == [];
    var b := LoopMachine.Step(a, cfg, Return(w));
    assert b == Pop(a).(tasks := a.tasks.(verifies := a.tasks.verifies[n := false]));
    assert LoopMachine.Step(b, cfg, VerifyReturns(n, NoOutcome, w)) == ForgetEnd(TaskDone(b, n));
  }

  lemma AllowedNext(cfg: Config, events: seq<LoopMachine.Event>, e: LoopMachine.Event)
    requires AllAllowed(cfg, events) && Allowed(LoopMachine.Run(cfg, events), cfg, e)
    ensures AllAllowed(cfg, events + [e])
    ensures LoopMachine.Run(cfg, events + [e]) == LoopMachine.Step(LoopMachine.Run(cfg, events), cfg, e)
  {
    var all := events + [e];
    assert all[..|events|] == events;
    forall i | 0 <= i < |all| ensures Allowed(LoopMachine.Run(cfg, all[..i]), cfg, all[i]) {
      if i < |events| {
        assert all[..i] == events[..i];
      }
    }
  }

  /** The opening prompt of a run that asks for work first goes out, and its turn is waited for. */
  lemma OpeningWaits(cfg: Config, w: World)
    requires cfg.judged && !cfg.verifyFirst && !w.due
    ensures var s := LoopMachine.Run(cfg, [Start] + [Return(w)] + [Return(w)]);
            AllAllowed(cfg, [Start] + [Return(w)] + [Return(w)]) && Waiting(s) && s.tasks.lastSeq == 0
  {
    var f := Fresh(cfg);
    var a := LoopMachine.Step(f, cfg, Start);
    assert Top(a) == StartSend && Pop(a).out.stack == [];
    var b := LoopMachine.Step(a, cfg, Return(w));
    assert b == Push(Await(Pop(a)), StartSent);
    assert Top(b) == StartSent && Pop(b).out.stack == [];
    assert LoopMachine.Step(b, cfg, Return(w)) == Send(Pop(b));
    AllowedNext(cfg, [], Start);
    assert [] + [Start] == [Start];
    AllowedNext(cfg, [Start], Return(w));
    AllowedNext(cfg, [Start] + [Return(w)], Return(w));
  }

  lemma AnotherTask(cfg: Config, w: World, before: seq<LoopMachine.Event>) returns (events: seq<LoopMachine.Event>)
    requires cfg.judged && !w.due && AllAllowed(cfg, before) && Waiting(LoopMachine.Run(cfg, before))
    ensures AllAllowed(cfg, events) && Waiting(LoopMachine.Run(cfg, events))
    ensures LoopMachine.Run(cfg, events).tasks.lastSeq == LoopMachine.Run(cfg, before).tasks.lastSeq + 1
  {
    var s := LoopMachine.Run(cfg, before);
    CancelledTask(s, cfg, w);
    AllowedNext(cfg, before, Idle(w));
    AllowedNext(cfg, before + [Idle(w)], Return(w));
    AllowedNext(cfg, before + [Idle(w)] + [Return(w)], VerifyReturns(s.tasks.lastSeq + 1, NoOutcome, w));
    events := before + [Idle(w)] + [Return(w)] + [VerifyReturns(s.tasks.lastSeq + 1, NoOutcome, w)];
  }

  /** The bound needs an honest verifier: with one that reports a cancellation of its own, a run may start any number of
    * verifications, although every event is allowed. */
  lemma {:induction false} CancelledTasksNeverEnd(cfg: Config, w: World, count: nat) returns (events: seq<LoopMachine.Event>)
    requires cfg.judged && !cfg.verifyFirst && !w.due
    ensures AllAllowed(cfg, events)
    ensures LoopMachine.Run(cfg, events).tasks.lastSeq == count && Waiting(LoopMachine.Run(cfg, events))
  {
    if count == 0 {
      OpeningWaits(cfg, w);
      events := [Start] + [Return(w)] + [Return(w)];
    } else {
      var before := CancelledTasksNeverEnd(cfg, w, count - 1);
      events := AnotherTask(cfg, w, before);
    }
  }
}
