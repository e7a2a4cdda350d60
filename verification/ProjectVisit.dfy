/**
 What a turn of the loop means to its caller: what becomes of what the executor brought back, and where a run goes whose
 stages all advance.
 */
module ProjectVisits {
  import opened Prelude
  import opened ProjectStates
  import opened ProjectTransitions
  import opened ProjectChains
  import opened ProjectMoves
  import opened ProjectOutcomes
  import opened ProjectLoops

  /** The turn calls its stage and goes on once the executor is back. */
  predicate Calls(executors: set<Stage>, s: ProjectState, w: World, k: nat) {
    && s.status == Running && s.stage != Done && s.stepsRemaining > 0 && s.stage in executors
    && !w.cancelledBefore(k) && !w.regionOpen(k, AfterIntent)
  }

  /** No record of this revision is too large. */
  ghost predicate Small(oversized: ProjectState -> bool, revision: nat) { forall x: ProjectState :: x.revision == revision ==> !oversized(x) }

  /** The announced effect is left open, one step is charged, and no output is kept. */
  predicate LeftOpen(s: ProjectState, n: ProjectState) {
    && n.status == WaitingReconciliation
    && n.wait == Some(ReconciliationWait(s.stage, EffectId(s.runId, s.stage, s.revision + 1)))
    && n.stepsRemaining == s.stepsRemaining - 1 && n.artifacts == s.artifacts && n.stage == s.stage
  }

  lemma {:induction false} ThrownMeans(cfg: Config, sent: ProjectState)
    requires Parked(sent) || Stray(sent)
    ensures var n := Next(cfg, sent, Thrown);
      && n.Some? && n.value.status == WaitingReconciliation && n.value.artifacts == sent.artifacts && n.value.stage == sent.stage
      && n.value.stepsRemaining == (if sent.stepsRemaining > 0 then sent.stepsRemaining - 1 else 0)
      && n.value.wait == (if Parked(sent) then sent.wait else Some(ReconciliationWait(sent.stage, EffectId(sent.runId, sent.stage, sent.revision))))
  {
    hide EffectId;
  }

  lemma {:induction false} CancelledMeans(cfg: Config, sent: ProjectState)
    requires Parked(sent)
    ensures Next(cfg, sent, CancelledInFlight) == Next(cfg, sent, Thrown)
  {
  }

  /** What is announced, however its record is kept. */
  lemma {:induction false} SentIs(cfg: Config, oversized: ProjectState -> bool, s: ProjectState)
    requires CanVisit(s)
    ensures Next(cfg, s, Intent).Some?
    ensures var n := Kept(cfg, oversized, s, Intent);
      && n.artifacts == s.artifacts && n.stage == s.stage && n.runId == s.runId && n.stepsRemaining == s.stepsRemaining
      && n.revision == s.revision + 1
      && (if oversized(Next(cfg, s, Intent).value) then Stray(n)
          else Parked(n) && n.wait == Some(ReconciliationWait(s.stage, EffectId(s.runId, s.stage, s.revision + 1))))
  {
    hide EffectId;
  }

  /** An executor that throws leaves its effect open, even if its announcement was too large and the run failed by then. */
  lemma {:induction false} ThrownTurnMeans(cfg: Config, oversized: ProjectState -> bool, executors: set<Stage>, s: ProjectState, w: World, k: nat)
    requires Calls(executors, s, w, k) && Small(oversized, s.revision + 2) && w.outcome(k).Threw?
    ensures LeftOpen(s, TurnState(cfg, oversized, executors, s, w, k))
  {
    hide Next, TurnState, Kept, EffectId, Parked, Stray;
    TurnOfVisit(cfg, oversized, executors, s, w, k);
    SentIs(cfg, oversized, s);
    var sent := Kept(cfg, oversized, s, Intent);
    NextKeepsRun(cfg, sent, Thrown);
    ThrownMeans(cfg, sent);
    KeptSmall(cfg, oversized, sent, Thrown);
    assert OutcomeOf(w, k) == Thrown;
    ParkedIsNotStray(sent);
  }

  lemma {:induction false} ParkedIsNotStray(s: ProjectState)
    ensures !(Parked(s) && Stray(s))
  {
  }

  lemma {:induction false} KeptSmall(cfg: Config, oversized: ProjectState -> bool, s: ProjectState, c: Cause)
    requires Next(cfg, s, c).Some? && !oversized(Next(cfg, s, c).value)
    ensures Kept(cfg, oversized, s, c) == Next(cfg, s, c).value
  {
  }

  /** A result that arrives after its run was cancelled is thrown away: the announced effect stays open. */
  lemma {:induction false} CancelledTurnMeans(cfg: Config, oversized: ProjectState -> bool, executors: set<Stage>, s: ProjectState, w: World, k: nat)
    requires Calls(executors, s, w, k) && Small(oversized, s.revision + 1) && Small(oversized, s.revision + 2)
    requires w.outcome(k).Result? && w.cancelledDuring(k)
    ensures LeftOpen(s, TurnState(cfg, oversized, executors, s, w, k))
  {
    hide Next, TurnState, Kept, EffectId, Parked, Stray;
    TurnOfVisit(cfg, oversized, executors, s, w, k);
    SentIs(cfg, oversized, s);
    NextKeepsRun(cfg, s, Intent);
    var sent := Kept(cfg, oversized, s, Intent);
    CancelledMeans(cfg, sent);
    NextKeepsRun(cfg, sent, Thrown);
    ThrownMeans(cfg, sent);
    KeptSmall(cfg, oversized, sent, CancelledInFlight);
    assert OutcomeOf(w, k) == CancelledInFlight;
  }

  /**
   A result in time is taken if it is usable: its output is kept under its stage and its steps are charged; otherwise the
   run fails and keeps what it had.
   */
  lemma {:induction false} ReturnedTurnMeans(cfg: Config, oversized: ProjectState -> bool, executors: set<Stage>, s: ProjectState, w: World, k: nat)
    requires Calls(executors, s, w, k) && Small(oversized, s.revision + 2) && w.outcome(k).Result? && !w.cancelledDuring(k)
    ensures var n, r := TurnState(cfg, oversized, executors, s, w, k), w.outcome(k).result;
      var used := if r.stepsUsed.Some? then r.stepsUsed.value else 1;
      if Usable(r) then
        && n.artifacts == s.artifacts[s.stage := r.output.value]
        && n.stepsRemaining == if used >= s.stepsRemaining then 0 else s.stepsRemaining - used
      else n.status == Failed && n.artifacts == s.artifacts && n.stepsRemaining == s.stepsRemaining && n.stage == s.stage
  {
    hide Next, TurnState, Kept, EffectId, Parked, Stray, Ends, Controls;
    TurnOfVisit(cfg, oversized, executors, s, w, k);
    SentIs(cfg, oversized, s);
    var sent, c := Kept(cfg, oversized, s, Intent), OutcomeOf(w, k);
    assert c == Returned(w.outcome(k).result, w.outcome(k).retryAt, w.outcome(k).permission);
    NextKeepsRun(cfg, sent, c);
    KeptSmall(cfg, oversized, sent, c);
    UsableIsAcceptable(c.result);
    ArtifactsStep(cfg, sent, c);
    StepsStep(cfg, sent, c);
    if !Usable(c.result) {
      UnusableFails(cfg, sent, c);
    }
  }

  lemma {:induction false} UnusableFails(cfg: Config, s: ProjectState, c: Cause)
    requires Next(cfg, s, c).Some? && c.Returned? && !Usable(c.result)
    ensures Next(cfg, s, c).value.status == Failed && Next(cfg, s, c).value.stage == s.stage
  {
    hide Next, Usable;
    UsableIsAcceptable(c.result);
    StatusStep(cfg, s, c);
    StageStep(cfg, s, c);
  }

  // ---- a run whose stages all advance ----

  /** Nothing intervenes, nothing is too large, no other loop stores anything, and each stage advances with an output for one step. */
  ghost predicate Plain(oversized: ProjectState -> bool, w: World) {
    && (forall x: ProjectState :: !oversized(x))
    && forall k: nat ::
         && Quiet(w, k) && !w.cancelledBefore(k) && !w.cancelledDuring(k) && !w.regionOpen(k, AfterIntent)
         && w.outcome(k).Result? && w.outcome(k).result.control.Advance?
         && w.outcome(k).result.output.Some? && w.outcome(k).result.stepsUsed.None?
  }

  /** The record after a stage that advanced to `next`. */
  function Advanced(s: ProjectState, output: string, next: Stage): ProjectState
    requires s.stepsRemaining > 0
  {
    s.(revision := s.revision + 2, stage := next, artifacts := s.artifacts[s.stage := output], stepsRemaining := s.stepsRemaining - 1)
  }

  /** The forward path of a run, which leaves out rag. */
  function Path(): seq<Stage> { [Understand, Research, Plan, VetPlan, Ticket, Implement, VetArtifact, Learn, Done] }

  lemma {:induction false} PathIsOrder(i: nat)
    requires i < 8
    ensures ComesAfter(Path()[i], Path()[i + 1]) && NextStage(Path()[i]) == Path()[i + 1]
  {
    NextComesAfter(Path()[i]);
    var g := Path()[i];
    assert Index(g) == if i < 2 then i else i + 1;
  }

  lemma {:induction false} PlainReturn(cfg: Config, sent: ProjectState, c: Cause, next: Stage)
    requires Parked(sent) && Controls(c, Advance) && c.result.stepsUsed.None? && sent.stepsRemaining > 0 && NextStage(sent.stage) == next
    ensures var n := Next(cfg, sent, c);
      n.Some? && n.value == sent.(status := Running, wait := None, revision := sent.revision + 1, stage := next,
                                  artifacts := sent.artifacts[sent.stage := c.result.output.value], stepsRemaining := sent.stepsRemaining - 1)
  {
    hide NextStage;
  }

  lemma {:induction false} PlainTurn(cfg: Config, oversized: ProjectState -> bool, executors: set<Stage>, s: ProjectState, w: World, k: nat, next: Stage)
    requires Plain(oversized, w) && CanVisit(s) && s.wait.None? && s.stage in executors && NextStage(s.stage) == next
    ensures TurnState(cfg, oversized, executors, s, w, k) == Advanced(s, w.outcome(k).result.output.value, next)
  {
    hide EffectId, NextStage, TurnState;
    TurnOfVisit(cfg, oversized, executors, s, w, k);
    var sent := Next(cfg, s, Intent).value;
    hide Next;
    PlainReturn(cfg, sent, OutcomeOf(w, k), next);
  }

  /** Both records of such a turn can be stored. */
  lemma {:induction false} PlainTurnLands(cfg: Config, oversized: ProjectState -> bool, executors: set<Stage>, s: ProjectState, w: World, k: nat)
    requires Plain(oversized, w) && CanVisit(s) && s.wait.None? && s.stage in executors && Decodable(s) && s.revision + 2 <= MAX_SAFE
    ensures TurnLands(cfg, oversized, executors, s, w, k) && Decodable(TurnState(cfg, oversized, executors, s, w, k))
  {
    hide Next, Decodable, EffectId, NextStage, TurnState;
    TurnOfVisit(cfg, oversized, executors, s, w, k);
    DecodableStep(cfg, s, Intent);
    NextKeepsRun(cfg, s, Intent);
    var sent, c := Next(cfg, s, Intent).value, OutcomeOf(w, k);
    SentIs(cfg, oversized, s);
    assert Kept(cfg, oversized, s, Intent) == sent;
    assert Controls(c, Advance);
    DecodableStep(cfg, sent, c);
  }

  lemma {:induction false} CompletionLands(cfg: Config, oversized: ProjectState -> bool, s: ProjectState)
    requires s.status == Running && s.stage == Done && Decodable(s) && s.revision < MAX_SAFE && !oversized(Next(cfg, s, Complete).value)
    ensures Lands(cfg, oversized, s, Complete)
  {
    hide Decodable, Next;
    LoopTransitions(cfg, s);
    DecodableStep(cfg, s, Complete);
  }

  /** The place of a stage on the path. */
  function Place(g: Stage): nat { if Index(g) < 2 then Index(g) else Index(g) - 1 }

  lemma {:induction false} PlaceOnPath(g: Stage, i: nat)
    requires i <= 8
    ensures g != Rag && Place(g) == i <==> Path()[i] == g
  {
    var n := Path()[i];
    assert Index(n) == if i < 2 then i else i + 1;
    StageAtIndex(n, Index(n));
    StageAtIndex(g, Index(g));
  }

  /** Exactly the stages before place `i` have an output, each its own. */
  predicate HasOutputs(s: ProjectState, i: nat, w: World) {
    && (forall g: Stage :: g in s.artifacts <==> g != Rag && Place(g) < i)
    && (forall g: Stage :: g in s.artifacts ==> w.outcome(Place(g)).Result? && w.outcome(Place(g)).result.output == Some(s.artifacts[g]))
  }

  /** Only the stage, its outputs, the budget and the revision have moved. */
  predicate MovedOn(first: ProjectState, s: ProjectState, i: nat) {
    && s.runId == first.runId && s.posture == first.posture && s.retry == first.retry && s.reworkCount == first.reworkCount
    && s.consumedSignals == first.consumedSignals && s.wait.None?
    && s.stepsRemaining == first.stepsRemaining - i
  }

  /** A run that stands at place `i` of the path, having come there from `first`, goes on to its end. */
  lemma {:induction false} PlainFrom(cfg: Config, oversized: ProjectState -> bool, executors: set<Stage>, first: ProjectState, s: ProjectState, w: World, i: nat)
    returns (end: ProjectState)
    requires Plain(oversized, w) && i <= 8 <= first.stepsRemaining && forall j :: 0 <= j < 8 ==> Path()[j] in executors
    requires s.status == Running && s.stage == Path()[i] && HasOutputs(s, i, w) && MovedOn(first, s, i)
    requires Decodable(s) && s.revision == 2 * i
    ensures RunLands(cfg, oversized, executors, s, w, Path()[..i])
    ensures RunState(cfg, oversized, executors, s, w, Path()[..i]) == (end, Path()[..8])
    ensures end.status == Completed && end.stage == Done && HasOutputs(end, 8, w) && MovedOn(first, end, 8)
    decreases 8 - i
  {
    if i == 8 {
      hide HasOutputs, Decodable;
      end := Kept(cfg, oversized, s, Complete);
      CompletionLands(cfg, oversized, s);
      OutputsStay(s, end, w);
    } else {
      hide TurnState, HasOutputs, Decodable, TurnLands;
      PlainTurnLands(cfg, oversized, executors, s, w, i);
      PathIsOrder(i);
      PlaceOnPath(s.stage, i);
      PlainTurn(cfg, oversized, executors, s, w, i, Path()[i + 1]);
      var n := TurnState(cfg, oversized, executors, s, w, i);
      assert Path()[..i] + [Path()[i]] == Path()[..i + 1];
      OutputsMore(s, i, w, Path()[i + 1]);
      end := PlainFrom(cfg, oversized, executors, first, n, w, i + 1);
    }
  }

  lemma {:induction false} OutputsStay(s: ProjectState, t: ProjectState, w: World)
    requires HasOutputs(s, 8, w) && t.artifacts == s.artifacts
    ensures HasOutputs(t, 8, w)
  {
  }

  lemma {:induction false} OutputsMore(s: ProjectState, i: nat, w: World, next: Stage)
    requires HasOutputs(s, i, w) && s.stage != Rag && Place(s.stage) == i && s.stepsRemaining > 0
    requires w.outcome(i).Result? && w.outcome(i).result.output.Some?
    ensures HasOutputs(Advanced(s, w.outcome(i).result.output.value, next), i + 1, w)
  {
    forall g: Stage | g != Rag && Place(g) == i ensures g == s.stage {
      SamePlace(g, s.stage);
    }
    hide Place;
  }

  lemma {:induction false} SamePlace(g: Stage, h: Stage)
    requires g != Rag && h != Rag && Place(g) == Place(h)
    ensures g == h
  {
    StageAtIndex(g, Index(g));
    StageAtIndex(h, Index(h));
    StageAtIndex(Rag, 2);
  }

  /**
   A fresh run with eight steps or more whose stages all advance visits the eight stages of the forward path in order and
   completes, with exactly their own outputs stored, eight steps used, and nothing else moved.
   */
  lemma {:induction false} PlainRunCompletes(cfg: Config, oversized: ProjectState -> bool, executors: set<Stage>, runId: string, posture: Posture, w: World)
    returns (end: ProjectState)
    requires Plain(oversized, w) && SafeConfig(cfg) && 8 <= cfg.stepBudget
    requires executors >= {Understand, Research, Plan, VetPlan, Ticket, Implement, VetArtifact, Learn}
    ensures RunState(cfg, oversized, executors, InitialState(cfg, runId, posture), w, [])
         == (end, [Understand, Research, Plan, VetPlan, Ticket, Implement, VetArtifact, Learn])
    ensures end.status == Completed && end.stage == Done && end.stepsRemaining == cfg.stepBudget - 8
    ensures end.runId == runId && end.posture == posture && end.retry == Retry(map[], 0, cfg.retryRunLimit)
    ensures RunLands(cfg, oversized, executors, InitialState(cfg, runId, posture), w, [])
    ensures end.reworkCount == 0 && end.consumedSignals == [] && HasOutputs(end, 8, w)
  {
    hide RunState, RunLands;
    InitialCounters(cfg, runId, posture);
    assert Path()[..0] == [] && Path()[..8] == [Understand, Research, Plan, VetPlan, Ticket, Implement, VetArtifact, Learn];
    var first := InitialState(cfg, runId, posture);
    NoOutputs(first, w);
    hide HasOutputs, Decodable;
    end := PlainFrom(cfg, oversized, executors, first, first, w, 0);
  }

  lemma {:induction false} NoOutputs(s: ProjectState, w: World)
    requires s.artifacts == map[]
    ensures HasOutputs(s, 0, w)
  {
  }
}
