/**
 The durable record of one project run (src/autonomy/project_state.ts): its stages, statuses
 and waits, and the relational checks its decoder makes on every record it reads or writes.
 */
module ProjectStates {
  import opened Prelude

  datatype Stage =
    | Understand | Research | Rag | Plan | VetPlan
    | Ticket | Implement | VetArtifact | Learn | Done

  /** The position of a stage in the canonical forward order. */
  function Index(s: Stage): (i: nat)
    ensures i <= 9
  {
    match s
    case Understand => 0 case Research => 1 case Rag => 2 case Plan => 3 case VetPlan => 4
    case Ticket => 5 case Implement => 6 case VetArtifact => 7 case Learn => 8 case Done => 9
  }

  /** The stage at a position of the forward order, and done past its end. */
  function StageAt(i: nat): Stage {
    if i == 0 then Understand else if i == 1 then Research else if i == 2 then Rag else if i == 3 then Plan
    else if i == 4 then VetPlan else if i == 5 then Ticket else if i == 6 then Implement
    else if i == 7 then VetArtifact else if i == 8 then Learn else Done
  }

  lemma {:induction false} StageAtIndex(s: Stage, i: nat)
    ensures StageAt(Index(s)) == s
    ensures i <= 9 ==> Index(StageAt(i)) == i
  {
  }

  function StageName(s: Stage): string {
    match s
    case Understand => "understand" case Research => "research" case Rag => "rag" case Plan => "plan"
    case VetPlan => "vet_plan" case Ticket => "ticket" case Implement => "implement"
    case VetArtifact => "vet_artifact" case Learn => "learn" case Done => "done"
  }

  datatype Posture = Autonomous | PolicyCalibrated | ApprovalRequired

  datatype Status =
    | Running | WaitingRetry | WaitingCapability | WaitingApproval | WaitingPolicy
    | WaitingReconciliation | PausedBudget | Completed | Failed

  datatype Authority = WorkAuthority | ApprovalAuthority
  datatype Severity = Routine | Extreme
  datatype ResumeMode = AdvanceOnApproval | RerunOnApproval

  datatype Wait =
    | RetryWait(activity: Stage, resumeAt: int, attempt: nat)
    | CapabilityWait(activity: Stage, capability: string, resumeAuthority: Authority)
    | ApprovalWait(activity: Stage, decisionId: string, severity: Severity, resumeMode: ResumeMode)
    | PolicyWait(activity: Stage, policyId: string)
    | ReconciliationWait(activity: Stage, effectId: string)

  datatype Retry = Retry(attemptsByStage: map<Stage, nat>, attemptsConsumed: nat, runLimit: nat)

  datatype ProjectState = ProjectState(
    revision: nat,
    runId: string,
    stage: Stage,
    artifacts: map<Stage, string>,
    posture: Posture,
    stepsRemaining: nat,
    reworkCount: nat,
    status: Status,
    retry: Retry,
    consumedSignals: seq<string>,
    wait: Option<Wait>)

  const MAX_SIGNALS: nat := 10_000
  const MAX_SIGNAL_BYTES: nat := 4096

  function Width(c: char): nat {
    if c as int < 0x80 then 1 else if c as int < 0x800 then 2 else if c as int < 0x1_0000 then 3 else 4
  }

  /** The length of a text in UTF-8. */
  function Bytes(s: string): nat {
    if s == "" then 0 else Bytes(s[..|s| - 1]) + Width(s[|s| - 1])
  }

  lemma {:induction false} BytesAdd(a: string, b: string)
    ensures Bytes(a + b) == Bytes(a) + Bytes(b)
  {
    if b == "" {
      assert a + b == a;
    } else {
      assert (a + b)[..|a + b| - 1] == a + b[..|b| - 1];
      BytesAdd(a, b[..|b| - 1]);
    }
  }

  lemma {:induction false} AsciiBytes(s: string)
    requires forall i :: 0 <= i < |s| ==> s[i] as int < 0x80
    ensures Bytes(s) == |s|
  {
    if s != "" {
      AsciiBytes(s[..|s| - 1]);
    }
  }

  /** The status and the wait of a record belong together. */
  predicate WaitMatches(status: Status, wait: Option<Wait>) {
    match status
    case WaitingRetry => wait.Some? && wait.value.RetryWait?
    case WaitingCapability => wait.Some? && wait.value.CapabilityWait?
    case WaitingApproval => wait.Some? && wait.value.ApprovalWait?
    case WaitingPolicy => wait.Some? && wait.value.PolicyWait?
    case WaitingReconciliation => wait.Some? && wait.value.ReconciliationWait?
    case _ => wait.None?
  }

  predicate Unique(s: seq<string>) {
    forall i, j :: 0 <= i < j < |s| ==> s[i] != s[j]
  }

  function Attempts(r: Retry, s: Stage): nat {
    if s in r.attemptsByStage then r.attemptsByStage[s] else 0
  }

  /** The counters that a stage's result may move, and the numbers of a retry, are safe integers. */
  predicate CountsSafe(s: ProjectState) {
    && s.reworkCount <= MAX_SAFE
    && (forall g: Stage :: Attempts(s.retry, g) <= MAX_SAFE)
    && (s.wait.Some? && s.wait.value.RetryWait? ==> 0 <= s.wait.value.resumeAt <= MAX_SAFE && s.wait.value.attempt <= MAX_SAFE)
  }

  /** Few enough signals, none twice and none too long. */
  predicate SignalsOk(signals: seq<string>) {
    |signals| <= MAX_SIGNALS && Unique(signals) && forall i :: 0 <= i < |signals| ==> Bytes(signals[i]) <= MAX_SIGNAL_BYTES
  }

  /** What the decoder checks of a record's numbers and signals, and between its fields. */
  predicate Decodable(s: ProjectState) {
    && s.revision <= MAX_SAFE
    && s.stepsRemaining <= MAX_SAFE
    && s.retry.attemptsConsumed <= s.retry.runLimit <= MAX_SAFE
    && CountsSafe(s)
    && SignalsOk(s.consumedSignals)
    && WaitMatches(s.status, s.wait)
  }

  /** The attempts of the first `n` stages. */
  function AttemptsBefore(r: Retry, n: nat): nat {
    if n == 0 then 0 else AttemptsBefore(r, n - 1) + Attempts(r, StageAt(n - 1))
  }

  /** All attempts, over every stage. */
  function AttemptSum(r: Retry): nat { AttemptsBefore(r, 10) }

  /** The identity of one dispatched activity: run, stage and the revision that announces it. */
  function EffectId(runId: string, stage: Stage, revision: nat): string {
    runId + ":" + StageName(stage) + ":" + Decimal(revision)
  }

  /** An effect identity never names two revisions of a run. */
  lemma {:induction false} EffectIdNamesRevision(runId: string, s: Stage, m: nat, t: Stage, n: nat)
    requires EffectId(runId, s, m) == EffectId(runId, t, n)
    ensures m == n
  {
    LastColonSplits(runId + ":" + StageName(s), Decimal(m), runId + ":" + StageName(t), Decimal(n));
    DecimalInjective(m, n);
  }
}
