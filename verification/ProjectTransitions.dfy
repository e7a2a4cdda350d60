/**
 Every transition the project loop can hand to its checkpoint store
 (src/autonomy/project_loop.ts), as a function of the record it starts from and its cause.
 Clock readings, executor results and operator signals are data of the cause.
 */
module ProjectTransitions {
  import opened Prelude
  import opened ProjectStates

  datatype Config = Config(stepBudget: nat, maxRework: nat, retryRunLimit: nat, retryPerStageLimit: nat)

  datatype Control =
    | Advance | NeedRag | Rework | BlockHuman | Fail | RetryControl | CapabilityUnavailable
    | ReconciliationRequired | ApprovalNeeded | PolicyHold | UnknownControl

  datatype ReworkTarget = PriorStage | To(stage: Stage) | UnknownStage

  datatype Permission = NoPolicyInstalled | Proceed | AskApproval | Deny

  /** What a stage executor returned; an absent output could not be normalised to durable data. */
  datatype StageResult = StageResult(
    output: Option<string>,
    control: Control,
    reworkTo: ReworkTarget,
    stepsUsed: Option<int>,
    capability: Option<string>,
    resumeAuthority: Authority,
    effectId: Option<string>,
    decisionId: Option<string>,
    policyId: Option<string>,
    severity: Severity,
    permanent: bool)

  datatype Cause =
    // inside the run loop, before a stage
    | CancelBeforeStage | BudgetExhausted | MissingExecutor | Intent | Complete
    // inside the run loop, after a stage was dispatched
    | Thrown | CancelledInFlight | Returned(result: StageResult, retryAt: int, permission: Permission)
    // resume signals
    | BudgetResume(addSteps: int) | RetryDue(now: int)
    | CapabilityRecheck(capability: string, evidenceId: string)
    | ApprovalDecision(decisionId: string, approved: bool)
    | PolicyDecision(policyId: string, proceed: bool)
    | Reconcile(effectId: string, resolved: bool, evidenceId: string)
    | PreparedExecution
    // holds placed from outside the loop
    | HoldCapability(held: string, authority: Authority) | PauseBudget
    | HoldApproval(severity: Severity) | HoldPolicy(policy: string)
    // the store refused an oversized record, or an oversized announcement
    | CheckpointCeiling | Unannounced

  predicate IsHold(c: Cause) {
    c.HoldCapability? || c.PauseBudget? || c.HoldApproval? || c.HoldPolicy?
  }

  predicate IsOutcome(c: Cause) {
    c.Thrown? || c.CancelledInFlight? || c.Returned?
  }

  function Min(a: int, b: int): int { if a <= b then a else b }

  function Charge(s: ProjectState, steps: nat): ProjectState {
    s.(stepsRemaining := s.stepsRemaining - Min(s.stepsRemaining, steps))
  }

  function ClearWait(s: ProjectState): ProjectState { s.(wait := None) }

  function Resumed(s: ProjectState): ProjectState { ClearWait(s).(status := Running) }

  function Consume(s: ProjectState, signal: string): ProjectState {
    s.(consumedSignals := s.consumedSignals + [signal])
  }

  function PriorOf(s: Stage): Stage {
    if Index(s) > 0 then StageAt(Index(s) - 1) else s
  }

  /** The stage after `from`, skipping the optional rag stage. */
  function NextStage(from: Stage): Stage {
    var i := Index(from) + 1;
    if StageAt(i) == Rag then StageAt(i + 1) else StageAt(i)
  }

  function AdvanceFrom(s: ProjectState): ProjectState { s.(stage := NextStage(s.stage)) }

  function AwaitCapability(s: ProjectState, capability: string, authority: Authority): ProjectState {
    s.(status := WaitingCapability, wait := Some(CapabilityWait(s.stage, capability, authority)))
  }

  function RetryOrDefer(cfg: Config, s: ProjectState, resumeAt: int): ProjectState {
    var prior := Attempts(s.retry, s.stage);
    if prior >= cfg.retryPerStageLimit || s.retry.attemptsConsumed >= s.retry.runLimit then
      AwaitCapability(s, "recovery:" + StageName(s.stage), WorkAuthority)
    else
      s.(status := WaitingRetry, wait := Some(RetryWait(s.stage, resumeAt, prior + 1)),
         retry := s.retry.(attemptsByStage := s.retry.attemptsByStage[s.stage := prior + 1],
                           attemptsConsumed := s.retry.attemptsConsumed + 1))
  }

  function ApprovalOutcome(s: ProjectState, r: StageResult, permission: Permission): ProjectState {
    var base := r.decisionId.GetOr(s.runId + ":" + StageName(s.stage));
    var ask := s.(status := WaitingApproval,
                  wait := Some(ApprovalWait(s.stage, base + ":" + Decimal(s.revision + 1), r.severity, AdvanceOnApproval)));
    if s.posture.Autonomous? && !r.severity.Extreme? then
      AwaitCapability(s, "safe-resolution:" + StageName(s.stage), ApprovalAuthority)
    else if s.posture.PolicyCalibrated? then
      match permission
      case NoPolicyInstalled => AwaitCapability(s, "project-permission-policy", WorkAuthority)
      case Proceed => AdvanceFrom(s)
      case Deny => AwaitCapability(s, "policy-alternative:" + StageName(s.stage), ApprovalAuthority)
      case AskApproval => ask
    else ask
  }

  /** A result whose output and step charge the runtime accepts. */
  predicate Acceptable(r: StageResult) {
    r.output.Some? && 0 < r.stepsUsed.GetOr(1) <= MAX_SAFE
  }

  function ReworkStage(s: Stage, t: ReworkTarget): Option<Stage> {
    match t
    case PriorStage => Some(PriorOf(s))
    case To(x) => Some(x)
    case UnknownStage => None
  }

  /** The executing state with the stage's output recorded and its steps charged. */
  function Accept(s: ProjectState, r: StageResult): ProjectState
    requires Acceptable(r)
  {
    Charge(s, r.stepsUsed.GetOr(1)).(artifacts := s.artifacts[s.stage := r.output.value])
  }

  function ReworkOutcome(cfg: Config, st: ProjectState, target: Option<Stage>): ProjectState {
    if target.None? || Index(target.value) >= Index(st.stage) then st.(status := Failed)
    else if st.reworkCount >= cfg.maxRework then
      AwaitCapability(st, "rework-strategy:" + StageName(st.stage), WorkAuthority)
    else st.(stage := target.value, reworkCount := st.reworkCount + 1)
  }

  /** The runtime's answer to the control of an accepted result. */
  function Obey(cfg: Config, st: ProjectState, r: StageResult, retryAt: int, permission: Permission): ProjectState {
    match r.control
    case Advance => AdvanceFrom(st)
    case NeedRag => st.(stage := Rag)
    case Rework => ReworkOutcome(cfg, st, ReworkStage(st.stage, r.reworkTo))
    case BlockHuman => ApprovalOutcome(st, r, permission)
    case ApprovalNeeded => ApprovalOutcome(st, r, permission)
    case Fail =>
      if r.permanent then st.(status := Failed)
      else AwaitCapability(st, "recovery:" + StageName(st.stage), WorkAuthority)
    case RetryControl => RetryOrDefer(cfg, st, retryAt)
    case CapabilityUnavailable =>
      AwaitCapability(st, r.capability.GetOr("project-stage:" + StageName(st.stage)), r.resumeAuthority)
    case ReconciliationRequired =>
      st.(status := WaitingReconciliation,
          wait := Some(ReconciliationWait(st.stage, r.effectId.GetOr(st.runId + ":" + StageName(st.stage)))))
    case PolicyHold =>
      st.(status := WaitingPolicy,
          wait := Some(PolicyWait(st.stage, r.policyId.GetOr("policy:" + StageName(st.stage)))))
    case UnknownControl => st.(status := Failed)
  }

  /** The record after a dispatched stage returned: `s` is the executing state. */
  function AfterReturn(cfg: Config, s: ProjectState, r: StageResult, retryAt: int, permission: Permission): ProjectState {
    if Acceptable(r) then Obey(cfg, Accept(s, r), r, retryAt, permission) else s.(status := Failed)
  }

  predicate AnyStartsWith(signals: seq<string>, prefix: string) {
    exists i :: 0 <= i < |signals| && prefix <= signals[i]
  }

  function CapabilitySignal(capability: string, evidenceId: string): string {
    "capability:" + capability + ":" + evidenceId
  }
  function ApprovalPrefix(decisionId: string): string { "approval:" + decisionId + ":" }
  function PolicyPrefix(policyId: string): string { "policy:" + policyId + ":" }
  function ReconciliationSignal(effectId: string, evidenceId: string): string {
    "reconciliation:" + effectId + ":" + evidenceId
  }

  /** Before a stage may be dispatched: running, not done, and with budget left. */
  predicate CanVisit(s: ProjectState) {
    s.status == Running && s.stage != Done && s.stepsRemaining > 0
  }

  predicate CanRecheck(cfg: Config, s: ProjectState, capability: string, evidenceId: string) {
    && s.status == WaitingCapability && s.wait.Some? && s.wait.value.CapabilityWait?
    && s.wait.value.capability == capability && evidenceId != ""
    && !("recovery:" <= capability
         && (s.retry.attemptsConsumed >= s.retry.runLimit || Attempts(s.retry, s.stage) >= cfg.retryPerStageLimit))
    && CapabilitySignal(capability, evidenceId) !in s.consumedSignals
  }

  predicate CanDecideApproval(s: ProjectState, decisionId: string) {
    && s.status == WaitingApproval && s.wait.Some? && s.wait.value.ApprovalWait?
    && s.wait.value.decisionId == decisionId
    && !AnyStartsWith(s.consumedSignals, ApprovalPrefix(decisionId))
  }

  predicate CanDecidePolicy(s: ProjectState, policyId: string) {
    && s.status == WaitingPolicy && s.wait.Some? && s.wait.value.PolicyWait?
    && s.wait.value.policyId == policyId
    && !AnyStartsWith(s.consumedSignals, PolicyPrefix(policyId))
  }

  /** A state parked on an effect that may have happened. */
  predicate ParkedOn(s: ProjectState, effectId: string) {
    s.status == WaitingReconciliation && s.wait == Some(ReconciliationWait(s.stage, effectId))
  }

  predicate Parked(s: ProjectState) {
    s.status == WaitingReconciliation && s.wait.Some? && s.wait.value.ReconciliationWait? && s.wait.value.activity == s.stage
  }

  /**
   A run that was failed because the announcement of its stage was too large: the loop goes on and calls the stage all
   the same.
   */
  predicate Stray(s: ProjectState) { s.status == Failed && s.wait.None? && s.stage != Done && s.stepsRemaining > 0 }

  /** The wait a loop keeps in memory for the stage it has announced, or meant to announce, at this revision. */
  function InFlightWait(s: ProjectState): Wait { ReconciliationWait(s.stage, EffectId(s.runId, s.stage, s.revision)) }

  predicate CanReconcile(s: ProjectState, effectId: string, resolved: bool, evidenceId: string) {
    && s.status == WaitingReconciliation && s.wait.Some? && s.wait.value.ReconciliationWait?
    && s.wait.value.effectId == effectId && resolved && evidenceId != ""
    && ReconciliationSignal(effectId, evidenceId) !in s.consumedSignals
  }

  /** The fields of the next record, or None when the loop refuses the transition and stores nothing. */
  function Body(cfg: Config, s: ProjectState, c: Cause): Option<ProjectState> {
    match c
    case CancelBeforeStage =>
      if s.status == Running && s.stage != Done then Some(AwaitCapability(s, "project-cancellation", WorkAuthority)) else None
    case BudgetExhausted =>
      if s.status == Running && s.stage != Done && s.stepsRemaining == 0 then Some(s.(status := PausedBudget)) else None
    case MissingExecutor =>
      if CanVisit(s) then Some(AwaitCapability(s, "project-stage:" + StageName(s.stage), WorkAuthority)) else None
    case Intent =>
      if CanVisit(s) then
        Some(s.(status := WaitingReconciliation,
                wait := Some(ReconciliationWait(s.stage, EffectId(s.runId, s.stage, s.revision + 1)))))
      else None
    case Complete =>
      if s.status == Running && s.stage == Done then Some(s.(status := Completed)) else None
    case Thrown =>
      if Parked(s) then Some(Charge(s, 1))
      else if Stray(s) then Some(Charge(s, 1).(status := WaitingReconciliation, wait := Some(InFlightWait(s)))) else None
    case CancelledInFlight =>
      if Parked(s) then Some(Charge(s, 1))
      else if Stray(s) then Some(Charge(s, 1).(wait := Some(InFlightWait(s)))) else None
    case Returned(result, retryAt, permission) =>
      if Parked(s) || Stray(s) then Some(AfterReturn(cfg, Resumed(s), result, retryAt, permission)) else None
    case BudgetResume(add) =>
      if s.status == PausedBudget && 0 < add <= MAX_SAFE then Some(Resumed(s).(stepsRemaining := s.stepsRemaining + add)) else None
    case RetryDue(now) =>
      if s.status == WaitingRetry && s.wait.Some? && s.wait.value.RetryWait? && now >= s.wait.value.resumeAt
      then Some(Resumed(s)) else None
    case CapabilityRecheck(capability, evidenceId) =>
      if CanRecheck(cfg, s, capability, evidenceId)
      then Some(Consume(Resumed(s), CapabilitySignal(capability, evidenceId))) else None
    case ApprovalDecision(decisionId, approved) =>
      if !CanDecideApproval(s, decisionId) then None
      else
        var decided := Consume(Resumed(s), ApprovalPrefix(decisionId) + if approved then "approved" else "declined");
        Some(if !approved then AwaitCapability(decided, "alternative:" + StageName(s.stage), ApprovalAuthority)
             else if s.wait.value.resumeMode.AdvanceOnApproval? then AdvanceFrom(decided)
             else decided)
    case PolicyDecision(policyId, proceed) =>
      if !CanDecidePolicy(s, policyId) then None
      else
        var decided := Consume(Resumed(s), PolicyPrefix(policyId) + if proceed then "proceed" else "deny");
        Some(if proceed then AdvanceFrom(decided)
             else AwaitCapability(decided, "policy-alternative:" + StageName(s.stage), ApprovalAuthority))
    case Reconcile(effectId, resolved, evidenceId) =>
      if CanReconcile(s, effectId, resolved, evidenceId)
      then Some(Consume(Resumed(s), ReconciliationSignal(effectId, evidenceId))) else None
    case PreparedExecution => if s.status == WaitingCapability then Some(Resumed(s)) else None
    case HoldCapability(held, authority) => Some(AwaitCapability(s, held, authority))
    case PauseBudget => Some(s.(status := PausedBudget))
    case HoldApproval(severity) =>
      Some(s.(status := WaitingApproval,
              wait := Some(ApprovalWait(s.stage, s.runId + ":preflight:" + StageName(s.stage) + ":" + Decimal(s.revision + 1),
                                        severity, RerunOnApproval))))
    case HoldPolicy(policyId) => Some(s.(status := WaitingPolicy, wait := Some(PolicyWait(s.stage, policyId))))
    case CheckpointCeiling => Some(ClearWait(s).(status := Failed))
    case Unannounced => if CanVisit(s) then Some(ClearWait(s).(status := Failed)) else None
  }

  /** The record handed to the store: the next fields at the next revision. */
  function Next(cfg: Config, s: ProjectState, c: Cause): Option<ProjectState> {
    match Body(cfg, s, c)
    case Some(b) => Some(b.(revision := s.revision + 1))
    case None => None
  }

  /** The first record of a run. */
  function InitialState(cfg: Config, runId: string, posture: Posture): ProjectState {
    ProjectState(0, runId, Understand, map[], posture, cfg.stepBudget, 0, Running,
                 Retry(map[], 0, cfg.retryRunLimit), [], None)
  }

  // ---- what one transition does to the decoder's checks ----

  predicate Consumes(c: Cause) {
    c.CapabilityRecheck? || c.ApprovalDecision? || c.PolicyDecision? || c.Reconcile?
  }

  /** What a run remembers of a signal it consumed. */
  function Text(c: Cause): string {
    match c
    case CapabilityRecheck(capability, evidenceId) => CapabilitySignal(capability, evidenceId)
    case ApprovalDecision(decisionId, approved) => ApprovalPrefix(decisionId) + if approved then "approved" else "declined"
    case PolicyDecision(policyId, proceed) => PolicyPrefix(policyId) + if proceed then "proceed" else "deny"
    case Reconcile(effectId, _, evidenceId) => ReconciliationSignal(effectId, evidenceId)
    case _ => ""
  }

  predicate Accepted(c: Cause) { c.Returned? && Acceptable(c.result) }

  /** An accepted result with this control. */
  predicate Controls(c: Cause, control: Control) { Accepted(c) && c.result.control == control }

  /** A rework's target lies before the stage that asks for it; without a target it is the stage just before. */
  predicate SendsBack(g: Stage, target: ReworkTarget) {
    match target
    case PriorStage => Index(g) > 0
    case To(x) => Index(x) < Index(g)
    case UnknownStage => false
  }

  /** The transition is a rework that the rework limit still allowed. */
  predicate Reworks(cfg: Config, s: ProjectState, c: Cause) {
    Controls(c, Rework) && s.reworkCount < cfg.maxRework && SendsBack(s.stage, c.result.reworkTo)
  }

  /** The transition is a deferral that the retry limits still allowed. */
  predicate Retries(cfg: Config, s: ProjectState, c: Cause) {
    && Controls(c, RetryControl)
    && Attempts(s.retry, s.stage) < cfg.retryPerStageLimit && s.retry.attemptsConsumed < s.retry.runLimit
  }

  /**
   When a transition's record can be stored at all. All but the first are guards a caller can evaluate beforehand: the
   source has no such guard, and its decoder throws when they fail.
   */
  predicate Storable(cfg: Config, s: ProjectState, c: Cause) {
    && s.revision < MAX_SAFE
    && (c.PauseBudget? ==> s.wait.None?)
    && (Consumes(c) ==> |s.consumedSignals| < MAX_SIGNALS && Bytes(Text(c)) <= MAX_SIGNAL_BYTES)
    && (c.BudgetResume? ==> s.stepsRemaining + c.addSteps <= MAX_SAFE)
    && (c.CancelledInFlight? ==> !Stray(s))
    && (Reworks(cfg, s, c) ==> s.reworkCount < MAX_SAFE)
    && (Retries(cfg, s, c) ==> Attempts(s.retry, s.stage) < MAX_SAFE && 0 <= c.retryAt <= MAX_SAFE)
  }

  /** Limits that a first record can carry. */
  predicate SafeConfig(cfg: Config) { cfg.stepBudget <= MAX_SAFE && cfg.retryRunLimit <= MAX_SAFE }

  lemma {:induction false} UniqueAppend(s: seq<string>, x: string)
    requires Unique(s)
    ensures Unique(s + [x]) <==> x !in s
  {
    if x in s {
      var i :| 0 <= i < |s| && s[i] == x;
      assert (s + [x])[i] == (s + [x])[|s|];
    }
  }

  /** A stage's control decides status, stage, wait and counters; it touches nothing else. */
  lemma {:induction false} ObeyKeeps(cfg: Config, s: ProjectState, r: StageResult, retryAt: int, p: Permission)
    ensures var n := Obey(cfg, s, r, retryAt, p);
      && n.runId == s.runId && n.revision == s.revision && n.artifacts == s.artifacts
      && n.stepsRemaining == s.stepsRemaining && n.consumedSignals == s.consumedSignals
  {
  }

  predicate OutcomeOk(n: ProjectState) {
    n.retry.attemptsConsumed <= n.retry.runLimit && WaitMatches(n.status, n.wait)
  }

  lemma {:induction false} ApprovalOk(s: ProjectState, r: StageResult, p: Permission)
    requires s.status == Running && s.wait.None? && s.retry.attemptsConsumed <= s.retry.runLimit
    ensures var n := ApprovalOutcome(s, r, p); OutcomeOk(n) && n.retry == s.retry && (CountsSafe(s) ==> CountsSafe(n))
  {
  }

  lemma {:induction false} RetryOk(cfg: Config, s: ProjectState, resumeAt: int)
    requires s.status == Running && s.wait.None? && CountsSafe(s)
    ensures CountsSafe(RetryOrDefer(cfg, s, resumeAt)) <==>
      (Attempts(s.retry, s.stage) < cfg.retryPerStageLimit && s.retry.attemptsConsumed < s.retry.runLimit ==>
        Attempts(s.retry, s.stage) < MAX_SAFE && 0 <= resumeAt <= MAX_SAFE)
  {
    var n := RetryOrDefer(cfg, s, resumeAt);
    if n.status == WaitingRetry {
      assert Attempts(n.retry, s.stage) == Attempts(s.retry, s.stage) + 1;
      assert forall g :: g != s.stage ==> Attempts(n.retry, g) == Attempts(s.retry, g);
    }
  }

  lemma {:induction false} ObeyOk(cfg: Config, s: ProjectState, r: StageResult, retryAt: int, p: Permission)
    requires s.status == Running && s.wait.None? && s.retry.attemptsConsumed <= s.retry.runLimit
    ensures OutcomeOk(Obey(cfg, s, r, retryAt, p)) && Obey(cfg, s, r, retryAt, p).retry.runLimit == s.retry.runLimit
  {
    hide ApprovalOutcome;
    ApprovalOk(s, r, p);
  }

  lemma {:induction false} SentBack(g: Stage, target: ReworkTarget)
    ensures SendsBack(g, target) <==> ReworkStage(g, target).Some? && Index(ReworkStage(g, target).value) < Index(g)
    ensures SendsBack(g, target) && target.PriorStage? ==> Index(ReworkStage(g, target).value) + 1 == Index(g)
  {
    StageAtIndex(g, if Index(g) > 0 then Index(g) - 1 else 0);
  }

  /** A stage's result leaves safe numbers unless it counts one beyond them. */
  lemma {:induction false} ObeyCounts(cfg: Config, s: ProjectState, c: Cause)
    requires Accepted(c) && s.status == Running && s.wait.None? && CountsSafe(s) && s.retry.attemptsConsumed <= s.retry.runLimit
    ensures CountsSafe(Obey(cfg, s, c.result, c.retryAt, c.permission)) <==>
      && (Reworks(cfg, s, c) ==> s.reworkCount < MAX_SAFE)
      && (Retries(cfg, s, c) ==> Attempts(s.retry, s.stage) < MAX_SAFE && 0 <= c.retryAt <= MAX_SAFE)
  {
    hide ApprovalOutcome, RetryOrDefer, ReworkStage, SendsBack;
    SentBack(s.stage, c.result.reworkTo);
    ApprovalOk(s, c.result, c.permission);
    RetryOk(cfg, s, c.retryAt);
  }

  /** The record after an outcome of a dispatched stage. */
  lemma {:induction false} DecodableReturn(cfg: Config, s: ProjectState, c: Cause)
    requires Decodable(s) && Next(cfg, s, c).Some? && Accepted(c)
    ensures Decodable(Next(cfg, s, c).value) <==> Storable(cfg, s, c)
  {
    hide Obey, SignalsOk;
    var st := Accept(Resumed(s), c.result);
    ObeyKeeps(cfg, st, c.result, c.retryAt, c.permission);
    ObeyOk(cfg, st, c.result, c.retryAt, c.permission);
    assert CountsSafe(st);
    ObeyCounts(cfg, st, c);
    var n := Next(cfg, s, c).value;
    assert CountsSafe(n) <==> CountsSafe(Obey(cfg, st, c.result, c.retryAt, c.permission));
  }

  /** From a decodable record, the next one is decodable exactly when the transition is storable. */
  lemma {:induction false} DecodableStep(cfg: Config, s: ProjectState, c: Cause)
    requires Decodable(s) && Next(cfg, s, c).Some?
    ensures Decodable(Next(cfg, s, c).value) <==> Storable(cfg, s, c)
  {
    if Accepted(c) {
      hide Next, Decodable, Storable;
      DecodableReturn(cfg, s, c);
    } else if Consumes(c) {
      hide Next, Decodable, Storable;
      DecodableSignal(cfg, s, c);
    } else {
      hide Obey, SignalsOk, Text;
      var n := Next(cfg, s, c).value;
      assert n.retry == s.retry && n.reworkCount == s.reworkCount && n.consumedSignals == s.consumedSignals;
    }
  }

  // ---- records that are stored once and can then not be followed ----

  const NO_RETRIES: Retry := Retry(map[], 0, 0)

  /** A run that waits for a capability, and has consumed as many signals as a record may hold. */
  function FullRecord(): ProjectState {
    ProjectState(7, "run", Understand, map[], Autonomous, 1, 0, WaitingCapability, NO_RETRIES,
                 seq(MAX_SIGNALS, i requires 0 <= i => Decimal(i)), Some(CapabilityWait(Understand, "tool", WorkAuthority)))
  }

  /** A run out of budget that was granted almost everything. */
  function RichRecord(): ProjectState {
    ProjectState(7, "run", Understand, map[], Autonomous, MAX_SAFE, 0, PausedBudget, NO_RETRIES, [], None)
  }

  lemma {:induction false} FullRecordDecodes()
    ensures Decodable(FullRecord()) && CapabilitySignal("tool", "seen") !in FullRecord().consumedSignals
  {
    hide Decimal, Bytes;
    var s := FullRecord();
    forall i, j | 0 <= i < j < MAX_SIGNALS ensures s.consumedSignals[i] != s.consumedSignals[j] {
      if Decimal(i) == Decimal(j) {
        DecimalInjective(i, j);
      }
    }
    forall i | 0 <= i < MAX_SIGNALS ensures Bytes(s.consumedSignals[i]) <= MAX_SIGNAL_BYTES {
      DecimalBytes(i);
    }
    assert forall i :: 0 <= i < MAX_SIGNALS ==> s.consumedSignals[i] == Decimal(i) && '0' <= Decimal(i)[0] <= '9';
    assert CapabilitySignal("tool", "seen")[0] == 'c';
  }

  /** Three decodable records with an open transition whose record the decoder refuses. */
  lemma {:induction false} UnstorableTransitions(cfg: Config)
    ensures Decodable(FullRecord()) && Decodable(RichRecord())
    ensures Next(cfg, FullRecord(), PauseBudget).Some? && !Decodable(Next(cfg, FullRecord(), PauseBudget).value)
    ensures var c := CapabilityRecheck("tool", "seen");
      Next(cfg, FullRecord(), c).Some? && !Decodable(Next(cfg, FullRecord(), c).value)
    ensures var c := BudgetResume(1);
      Next(cfg, RichRecord(), c).Some? && !Decodable(Next(cfg, RichRecord(), c).value)
  {
    FullRecordDecodes();
    hide CapabilitySignal, Bytes, Decodable, Text;
    RichRecordDecodes();
    DecodableStep(cfg, FullRecord(), PauseBudget);
    DecodableStep(cfg, FullRecord(), CapabilityRecheck("tool", "seen"));
    DecodableStep(cfg, RichRecord(), BudgetResume(1));
  }

  lemma {:induction false} RichRecordDecodes()
    ensures Decodable(RichRecord())
  {
  }

  /** Four digits are four bytes. */
  lemma {:induction false} DecimalBytes(n: nat)
    requires n < 10_000
    ensures Bytes(Decimal(n)) == |Decimal(n)| <= 4
  {
    AsciiBytes(Decimal(n));
    assert n >= 10 ==> |Decimal(n)| == |Decimal(n / 10)| + 1;
    assert n >= 100 ==> |Decimal(n / 10)| == |Decimal(n / 10 / 10)| + 1;
    assert n >= 1000 ==> |Decimal(n / 10 / 10)| == |Decimal(n / 10 / 10 / 10)| + 1;
  }

  lemma {:induction false} SignalsMore(signals: seq<string>, x: string)
    requires SignalsOk(signals) && x !in signals
    ensures SignalsOk(signals + [x]) <==> |signals| < MAX_SIGNALS && Bytes(x) <= MAX_SIGNAL_BYTES
  {
    hide Bytes;
    UniqueAppend(signals, x);
    var all := signals + [x];
    assert all[|signals|] == x;
    assert forall i :: 0 <= i < |signals| ==> all[i] == signals[i];
  }

  /** A resume signal appends its text, which was not consumed before. */
  lemma {:induction false} SignalIsNew(cfg: Config, s: ProjectState, c: Cause)
    requires Next(cfg, s, c).Some? && Consumes(c)
    ensures Next(cfg, s, c).value.consumedSignals == s.consumedSignals + [Text(c)] && Text(c) !in s.consumedSignals
  {
    hide NextStage;
    if c.ApprovalDecision? {
      assert ApprovalPrefix(c.decisionId) <= Text(c);
    } else if c.PolicyDecision? {
      assert PolicyPrefix(c.policyId) <= Text(c);
    }
  }

  lemma {:induction false} DecodableSignal(cfg: Config, s: ProjectState, c: Cause)
    requires Decodable(s) && Next(cfg, s, c).Some? && Consumes(c)
    ensures Decodable(Next(cfg, s, c).value) <==> Storable(cfg, s, c)
  {
    SignalIsNew(cfg, s, c);
    SignalsMore(s.consumedSignals, Text(c));
    hide SignalsOk, Text, Bytes, NextStage, CapabilitySignal, ReconciliationSignal, ApprovalPrefix, PolicyPrefix, AnyStartsWith;
  }

  // ---- counters ----

  /** Retry attempts are conserved and bounded, and rework stays within its limit. */
  predicate CountersOk(cfg: Config, s: ProjectState) {
    && s.retry.attemptsConsumed == AttemptSum(s.retry)
    && s.retry.attemptsConsumed <= s.retry.runLimit == cfg.retryRunLimit
    && (forall g :: Attempts(s.retry, g) <= cfg.retryPerStageLimit)
    && s.reworkCount <= cfg.maxRework
  }

  function Recount(r: Retry, g: Stage, k: nat): Retry {
    r.(attemptsByStage := r.attemptsByStage[g := k])
  }

  lemma {:induction false} RecountElsewhere(r: Retry, g: Stage, k: nat, h: Stage)
    ensures Attempts(Recount(r, g, k), h) == if h == g then k else Attempts(r, h)
  {
  }

  /** Re-counting one stage changes the total by exactly that stage's change. */
  lemma {:induction false} AttemptSumUpdate(r: Retry, g: Stage, k: nat, n: nat)
    requires n <= 10
    ensures AttemptsBefore(Recount(r, g, k), n) ==
            AttemptsBefore(r, n) + if Index(g) < n then k - Attempts(r, g) else 0
  {
    if n > 0 {
      AttemptSumUpdate(r, g, k, n - 1);
      RecountElsewhere(r, g, k, StageAt(n - 1));
      StageAtIndex(g, n - 1);
    }
  }

  lemma {:induction false} SameAttempts(r: Retry, q: Retry, n: nat)
    requires r.attemptsByStage == q.attemptsByStage
    ensures AttemptsBefore(r, n) == AttemptsBefore(q, n)
  {
    if n > 0 {
      SameAttempts(r, q, n - 1);
    }
  }

  lemma {:induction false} CountersRetry(cfg: Config, s: ProjectState, resumeAt: int)
    requires CountersOk(cfg, s)
    ensures CountersOk(cfg, RetryOrDefer(cfg, s, resumeAt))
  {
    var k := Attempts(s.retry, s.stage) + 1;
    var n := RetryOrDefer(cfg, s, resumeAt);
    if n.status == WaitingRetry && n.retry != s.retry {
      AttemptSumUpdate(s.retry, s.stage, k, 10);
      SameAttempts(n.retry, Recount(s.retry, s.stage, k), 10);
      forall g ensures Attempts(n.retry, g) <= cfg.retryPerStageLimit {
        RecountElsewhere(s.retry, s.stage, k, g);
      }
    }
  }

  /** Only a retry and a rework move a counter. */
  lemma {:induction false} CountersObey(cfg: Config, s: ProjectState, r: StageResult, retryAt: int, p: Permission)
    requires CountersOk(cfg, s)
    ensures CountersOk(cfg, Obey(cfg, s, r, retryAt, p))
  {
    hide RetryOrDefer;
    CountersRetry(cfg, s, retryAt);
  }

  lemma {:induction false} CountersStep(cfg: Config, s: ProjectState, c: Cause)
    requires CountersOk(cfg, s) && Next(cfg, s, c).Some?
    ensures CountersOk(cfg, Next(cfg, s, c).value)
  {
    hide Obey;
    if c.Returned? && Acceptable(c.result) {
      CountersObey(cfg, Accept(Resumed(s), c.result), c.result, c.retryAt, c.permission);
    }
  }
}
