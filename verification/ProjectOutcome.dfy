/**
 What every transition comes to, read from the record it leaves: which transitions fail a run, which make it wait, for
 what, under whose authority and by which name, and when the loop's own transitions are open at all.
 */
module ProjectOutcomes {
  import opened Prelude
  import opened ProjectStates
  import opened ProjectTransitions
  import opened ProjectChains
  import opened ProjectMoves

  predicate IsResume(c: Cause) {
    c.BudgetResume? || c.RetryDue? || c.CapabilityRecheck? || c.ApprovalDecision? || c.PolicyDecision? || c.Reconcile? || c.PreparedExecution?
  }

  /** A stage's result that the runtime takes: durable output, and a step charge that is a positive safe integer. */
  predicate Usable(r: StageResult) { r.output.Some? && (r.stepsUsed.Some? ==> 0 < r.stepsUsed.value <= MAX_SAFE) }

  /** The transition leaves a failed run. */
  predicate Fails(s: ProjectState, c: Cause) {
    || (c.Returned? && !Usable(c.result))
    || (Controls(c, Fail) && c.result.permanent) || Controls(c, UnknownControl)
    || (Controls(c, Rework) && !SendsBack(s.stage, c.result.reworkTo))
    || c.CheckpointCeiling? || c.Unannounced? || (c.CancelledInFlight? && s.status == Failed)
  }

  /** What the answer to a stage that wants approval makes the run wait for, when it asks no person. */
  function Unapproved(s: ProjectState, r: StageResult, p: Permission): Option<(string, Authority)> {
    match s.posture
    case Autonomous => if r.severity.Routine? then Some(("safe-resolution:" + StageName(s.stage), ApprovalAuthority)) else None
    case ApprovalRequired => None
    case PolicyCalibrated =>
      if p.NoPolicyInstalled? then Some(("project-permission-policy", WorkAuthority))
      else if p.Deny? then Some(("policy-alternative:" + StageName(s.stage), ApprovalAuthority)) else None
  }

  /** The capability a transition makes the run wait for, and whose authority ends the wait. */
  function Capability(cfg: Config, s: ProjectState, c: Cause): Option<(string, Authority)> {
    if c.CancelBeforeStage? then Some(("project-cancellation", WorkAuthority))
    else if c.MissingExecutor? then Some(("project-stage:" + StageName(s.stage), WorkAuthority))
    else if c.HoldCapability? then Some((c.held, c.authority))
    else if c.ApprovalDecision? && !c.approved then Some(("alternative:" + StageName(s.stage), ApprovalAuthority))
    else if c.PolicyDecision? && !c.proceed then Some(("policy-alternative:" + StageName(s.stage), ApprovalAuthority))
    else if AsksApproval(c) then Unapproved(s, c.result, c.permission)
    else if (Controls(c, Fail) && !c.result.permanent) || (Controls(c, RetryControl) && !Retries(cfg, s, c)) then
      Some(("recovery:" + StageName(s.stage), WorkAuthority))
    else if Controls(c, CapabilityUnavailable) then
      Some((if c.result.capability.Some? then c.result.capability.value else "project-stage:" + StageName(s.stage),
            c.result.resumeAuthority))
    else if Controls(c, Rework) && SendsBack(s.stage, c.result.reworkTo) && !Reworks(cfg, s, c) then
      Some(("rework-strategy:" + StageName(s.stage), WorkAuthority))
    else None
  }

  /** The question a transition puts to a person: its identity, its severity, and what a yes does. */
  function Question(s: ProjectState, c: Cause): Option<(string, Severity, ResumeMode)> {
    if c.HoldApproval? then
      Some((s.runId + ":preflight:" + StageName(s.stage) + ":" + Decimal(s.revision + 1), c.severity, RerunOnApproval))
    else if Asks(s.posture, c) then
      var asked := if c.result.decisionId.Some? then c.result.decisionId.value else s.runId + ":" + StageName(s.stage);
      Some((asked + ":" + Decimal(s.revision + 1), c.result.severity, AdvanceOnApproval))
    else None
  }

  /** The policy a transition makes the run wait for. */
  function Policy(s: ProjectState, c: Cause): Option<string> {
    if c.HoldPolicy? then Some(c.policy)
    else if Controls(c, PolicyHold) then
      Some(if c.result.policyId.Some? then c.result.policyId.value else "policy:" + StageName(s.stage))
    else None
  }

  /** The effect a transition leaves open; a throw or a cancellation in flight leaves open what was announced. */
  function Effect(s: ProjectState, c: Cause): Option<Wait> {
    if c.Intent? then
      Some(ReconciliationWait(s.stage, s.runId + ":" + StageName(s.stage) + ":" + Decimal(s.revision + 1)))
    else if Controls(c, ReconciliationRequired) then
      Some(ReconciliationWait(s.stage, if c.result.effectId.Some? then c.result.effectId.value else s.runId + ":" + StageName(s.stage)))
    else if c.Thrown? || (c.CancelledInFlight? && s.status != Failed) then
      if s.wait.Some? then s.wait
      else Some(ReconciliationWait(s.stage, s.runId + ":" + StageName(s.stage) + ":" + Decimal(s.revision)))
    else None
  }

  /** The status of `n`, the record a transition leaves, names what the transition was, and its wait says the rest. */
  predicate Ends(cfg: Config, s: ProjectState, c: Cause, n: ProjectState) {
    && (n.status == Failed <==> Fails(s, c))
    && (n.status == WaitingCapability <==> Capability(cfg, s, c).Some?)
    && (n.status == WaitingCapability ==>
          n.wait == Some(CapabilityWait(s.stage, Capability(cfg, s, c).value.0, Capability(cfg, s, c).value.1)))
    && (n.status == WaitingRetry <==> Retries(cfg, s, c))
    && (n.status == WaitingRetry ==> n.wait == Some(RetryWait(s.stage, c.retryAt, Attempts(s.retry, s.stage) + 1)))
    && n.retry == (if Retries(cfg, s, c)
                   then Retry(s.retry.attemptsByStage[s.stage := Attempts(s.retry, s.stage) + 1], s.retry.attemptsConsumed + 1, s.retry.runLimit)
                   else s.retry)
    && (n.status == WaitingApproval <==> Question(s, c).Some?)
    && (n.status == WaitingApproval ==>
          n.wait == Some(ApprovalWait(s.stage, Question(s, c).value.0, Question(s, c).value.1, Question(s, c).value.2)))
    && (n.status == WaitingPolicy <==> Policy(s, c).Some?)
    && (n.status == WaitingPolicy ==> n.wait == Some(PolicyWait(s.stage, Policy(s, c).value)))
    && (n.status == WaitingReconciliation <==> Effect(s, c).Some?)
    && (n.status == WaitingReconciliation ==> n.wait == Effect(s, c))
    && (n.status == PausedBudget <==> c.BudgetExhausted? || c.PauseBudget?)
    && (n.status == Completed <==> c.Complete?)
  }

  lemma {:induction false} UsableIsAcceptable(r: StageResult)
    ensures Usable(r) <==> Acceptable(r)
  {
  }

  lemma {:induction false} ApprovalEnds(s: ProjectState, c: Cause)
    requires s.status == Running && s.wait.None? && AsksApproval(c)
    ensures var n := ApprovalOutcome(s, c.result, c.permission);
      && n.retry == s.retry && n.status in {Running, WaitingCapability, WaitingApproval}
      && (n.status == WaitingCapability <==> Unapproved(s, c.result, c.permission).Some?)
      && (n.status == WaitingCapability ==>
            n.wait == Some(CapabilityWait(s.stage, Unapproved(s, c.result, c.permission).value.0, Unapproved(s, c.result, c.permission).value.1)))
      && (n.status == WaitingApproval <==> Question(s, c).Some?)
      && (n.status == WaitingApproval ==>
            n.wait == Some(ApprovalWait(s.stage, Question(s, c).value.0, Question(s, c).value.1, Question(s, c).value.2)))
  {
    hide NextStage, StageName, Decimal;
  }

  lemma {:induction false} RetryEnds(cfg: Config, s: ProjectState, c: Cause)
    requires s.status == Running && s.wait.None? && Controls(c, RetryControl)
    ensures Ends(cfg, s, c, RetryOrDefer(cfg, s, c.retryAt))
  {
    hide StageName, Decimal;
  }

  lemma {:induction false} ObeyEnds(cfg: Config, s: ProjectState, c: Cause)
    requires s.status == Running && s.wait.None? && Accepted(c)
    ensures Ends(cfg, s, c, Obey(cfg, s, c.result, c.retryAt, c.permission))
  {
    hide ApprovalOutcome, NextStage, StageName, Decimal, ReworkStage, SendsBack, RetryOrDefer, Question, Unapproved;
    UsableIsAcceptable(c.result);
    SentBack(s.stage, c.result.reworkTo);
    match c.result.control
    case BlockHuman => ApprovalEnds(s, c);
    case ApprovalNeeded => ApprovalEnds(s, c);
    case RetryControl => RetryEnds(cfg, s, c);
    case _ => assert Question(s, c).None? by { NothingAsked(s, c); }
  }

  lemma {:induction false} NothingAsked(s: ProjectState, c: Cause)
    requires !AsksApproval(c) && !c.HoldApproval?
    ensures Question(s, c).None?
  {
  }

  /** The records agree on what names and bounds the transitions of a stage. */
  predicate SameStage(s: ProjectState, t: ProjectState) {
    && t.runId == s.runId && t.stage == s.stage && t.revision == s.revision && t.posture == s.posture
    && t.retry == s.retry && t.reworkCount == s.reworkCount
  }

  lemma {:induction false} SameQuestion(s: ProjectState, t: ProjectState, c: Cause)
    requires Accepted(c) && SameStage(s, t)
    ensures Question(t, c) == Question(s, c) && Policy(t, c) == Policy(s, c) && Effect(t, c) == Effect(s, c)
  {
    hide StageName, Decimal;
  }

  lemma {:induction false} SameCapability(cfg: Config, s: ProjectState, t: ProjectState, c: Cause)
    requires Accepted(c) && SameStage(s, t)
    ensures Capability(cfg, t, c) == Capability(cfg, s, c) && (Fails(t, c) <==> Fails(s, c))
    ensures Retries(cfg, t, c) <==> Retries(cfg, s, c)
  {
    hide StageName, Decimal, SendsBack;
  }

  /** Accepting the output changes nothing that names or bounds what follows. */
  lemma {:induction false} EndsOfAccepted(cfg: Config, s: ProjectState, c: Cause, n: ProjectState)
    requires Accepted(c) && Ends(cfg, Accept(Resumed(s), c.result), c, n)
    ensures Ends(cfg, s, c, n.(revision := s.revision + 1))
  {
    hide StageName, Decimal, SendsBack, Question, Policy, Effect, Capability, Fails, Retries;
    var t := Accept(Resumed(s), c.result);
    SameQuestion(s, t, c);
    SameCapability(cfg, s, t, c);
  }

  lemma {:induction false} OutcomeEnds(cfg: Config, s: ProjectState, c: Cause)
    requires Next(cfg, s, c).Some? && IsOutcome(c) && !Accepted(c)
    ensures Ends(cfg, s, c, Next(cfg, s, c).value)
  {
    hide Obey, NextStage, StageName, Decimal, SendsBack;
    if c.Returned? {
      UsableIsAcceptable(c.result);
    }
  }

  lemma {:induction false} ResumeEnds(cfg: Config, s: ProjectState, c: Cause)
    requires Next(cfg, s, c).Some? && IsResume(c)
    ensures Ends(cfg, s, c, Next(cfg, s, c).value)
  {
    hide NextStage, StageName, Decimal, AnyStartsWith, SendsBack, CapabilitySignal, ReconciliationSignal, ApprovalPrefix, PolicyPrefix;
  }

  lemma {:induction false} LoopEnds(cfg: Config, s: ProjectState, c: Cause)
    requires Next(cfg, s, c).Some? && !IsOutcome(c) && !IsResume(c)
    ensures Ends(cfg, s, c, Next(cfg, s, c).value)
  {
    hide NextStage, StageName, Decimal, SendsBack;
  }

  /** Every transition's record tells which transition it was, as far as status and wait go. */
  lemma {:induction false} StatusStep(cfg: Config, s: ProjectState, c: Cause)
    requires Next(cfg, s, c).Some?
    ensures Ends(cfg, s, c, Next(cfg, s, c).value)
  {
    hide Ends, Obey, StageName, Decimal;
    if Accepted(c) {
      ObeyEnds(cfg, Accept(Resumed(s), c.result), c);
      EndsOfAccepted(cfg, s, c, Obey(cfg, Accept(Resumed(s), c.result), c.result, c.retryAt, c.permission));
    } else if IsOutcome(c) {
      OutcomeEnds(cfg, s, c);
    } else if IsResume(c) {
      ResumeEnds(cfg, s, c);
    } else {
      LoopEnds(cfg, s, c);
    }
  }

  /** Over a whole run: each stored record's status and wait are those of the transition that stored it. */
  lemma {:induction false} RecordsNameTheirCause(cfg: Config, h: seq<Commit>, k: nat)
    requires Legal(cfg, h) && 0 < k < |h|
    ensures h[k].cause.Some? && Ends(cfg, h[k - 1].state, h[k].cause.value, h[k].state)
  {
    hide Next, Ends;
    ChainSound(cfg, h, k - 1);
    assert LegalStep(cfg, h[k - 1].state, h[k]);
    StatusStep(cfg, h[k - 1].state, h[k].cause.value);
  }

  // ---- when the loop's own transitions are open ----

  /** The stage of this record has been called and its outcome is awaited, or may still arrive after the run was failed. */
  predicate AwaitsOutcome(s: ProjectState) {
    || (s.status == WaitingReconciliation && s.wait.Some? && s.wait.value.ReconciliationWait? && s.wait.value.activity == s.stage)
    || (s.status == Failed && s.wait.None? && s.stage != Done && s.stepsRemaining > 0)
  }

  /** Apart from resumes: the loop acts on a running record, an outcome on its dispatched stage, and a hold at any time. */
  lemma {:induction false} OpenStep(cfg: Config, s: ProjectState, c: Cause)
    requires !IsResume(c)
    ensures Next(cfg, s, c).Some? <==>
      (if IsHold(c) || c.CheckpointCeiling? then true
       else if IsOutcome(c) then AwaitsOutcome(s)
       else
         && s.status == Running
         && (c.Complete? <==> s.stage == Done)
         && (c.BudgetExhausted? ==> s.stepsRemaining == 0)
         && (c.MissingExecutor? || c.Intent? || c.Unannounced? ==> s.stepsRemaining > 0))
  {
    hide Obey, StageName, Decimal;
  }

  /** The names by which a run waits for the executors of its stages. */
  lemma {:induction false} ExecutorNames(cfg: Config, s: ProjectState)
    ensures var name := Capability(cfg, s, MissingExecutor).value.0;
      && (s.stage == Understand ==> name == "project-stage:understand") && (s.stage == Research ==> name == "project-stage:research")
      && (s.stage == Rag ==> name == "project-stage:rag") && (s.stage == Plan ==> name == "project-stage:plan")
      && (s.stage == VetPlan ==> name == "project-stage:vet_plan") && (s.stage == Ticket ==> name == "project-stage:ticket")
      && (s.stage == Implement ==> name == "project-stage:implement")
      && (s.stage == VetArtifact ==> name == "project-stage:vet_artifact") && (s.stage == Learn ==> name == "project-stage:learn")
  {
  }
}
