/**
 The loop itself: a checkpoint store updated in place, and the run and resume methods that sequence the
 stages over it. Everything the loop cannot decide — cancellation, what an executor returns, what other
 loops store meanwhile — comes from a `World`, and the contracts hold for every world.
 */
module ProjectLoops {
  import opened Prelude
  import opened ProjectStates
  import opened ProjectTransitions
  import opened ProjectChains
  import opened ProjectMoves

  datatype SaveResult = Saved | Invalid | Conflict | TooLarge

  /** What a save answers, in the order the source checks. */
  function SaveVerdict(states: map<string, ProjectState>, oversized: ProjectState -> bool,
                       next: ProjectState, expected: Option<nat>): SaveResult {
    var actual := if next.runId in states then Some(states[next.runId].revision) else None;
    if !Decodable(next) then Invalid
    else if actual != expected then Conflict
    else if next.revision != (if expected.Some? then expected.value + 1 else 0) then Conflict
    else if oversized(next) then TooLarge
    else Saved
  }

  /** Run histories only grow. */
  ghost predicate Grows(before: map<string, seq<Commit>>, after: map<string, seq<Commit>>) {
    forall r :: r in before ==> r in after && before[r] <= after[r]
  }

  /** A legal history of the run, with `s` its newest record. */
  ghost predicate Records(cfg: Config, h: seq<Commit>, r: string, s: ProjectState) {
    Legal(cfg, h) && h[0].state.runId == r && h[|h| - 1].state == s
  }

  lemma {:induction false} RecordsMore(cfg: Config, h: seq<Commit>, r: string, s: ProjectState, cause: Cause, next: ProjectState)
    requires Records(cfg, h, r, s) && Next(cfg, s, cause) == Some(next) && Decodable(next)
    ensures Records(cfg, h + [Commit(Some(cause), next)], r, next)
  {
    hide Next, Decodable;
    LegalExtend(cfg, h, Commit(Some(cause), next));
    hide Legal;
    assert (h + [Commit(Some(cause), next)])[0] == h[0];
  }

  lemma {:induction false} RecordsFirst(cfg: Config, s: ProjectState)
    requires s == InitialState(cfg, s.runId, s.posture) && Decodable(s)
    ensures Records(cfg, [Commit(None, s)], s.runId, s)
  {
  }

  class CheckpointStore {
    const cfg: Config
    const oversized: ProjectState -> bool
    var states: map<string, ProjectState>
    ghost var chains: map<string, seq<Commit>>

    constructor (cfg: Config, oversized: ProjectState -> bool)
      ensures Valid() && states == map[] && this.cfg == cfg
    {
      this.cfg, this.oversized := cfg, oversized;
      states, chains := map[], map[];
    }

    /** The register of each run holds the newest record of a legal history. */
    ghost predicate Valid()
      reads this
    {
      chains.Keys == states.Keys && forall r :: r in states ==> ValidRun(r)
    }

    ghost predicate ValidRun(r: string)
      requires r in states && chains.Keys == states.Keys
      reads this
    {
      Records(cfg, chains[r], r, states[r])
    }

    /** The record is, or was, stored at its own revision. */
    ghost predicate Holds(s: ProjectState)
      reads this
    {
      s.runId in chains && s.revision < |chains[s.runId]| && chains[s.runId][s.revision].state == s
    }

    lemma {:induction false} CurrentIsHeld(r: string)
      requires Valid() && r in states
      ensures Holds(states[r]) && states[r].revision == |chains[r]| - 1 && states[r].runId == r
    {
      ChainSound(cfg, chains[r], |chains[r]| - 1);
    }

    ghost predicate Newest(s: ProjectState)
      reads this
    {
      s.runId in states && states[s.runId] == s
    }

    /** A held record at the newest revision is the newest. */
    lemma {:induction false} HeldIsNewest(s: ProjectState)
      requires Valid() && Holds(s) && s.runId in states && states[s.runId].revision == s.revision
      ensures states[s.runId] == s
    {
      CurrentIsHeld(s.runId);
    }

    method Load(runId: string) returns (s: Option<ProjectState>)
      requires Valid()
      ensures s.Some? <==> runId in states
      ensures s.Some? ==> s.value == states[runId] && Holds(s.value) && s.value.runId == runId
    {
      if runId in states {
        CurrentIsHeld(runId);
        s := Some(states[runId]);
      } else {
        s := None;
      }
    }

    /**
     The store's compare-and-swap, open to any record: it is stored exactly if it passes the decoder, the newest record of
     its run is the expected one, its revision is the next and it is not too large; otherwise nothing changes.
     */
    method Put(next: ProjectState, expected: Option<nat>) returns (r: SaveResult)
      modifies this`states
      ensures r == Saved <==>
        && Decodable(next) && !oversized(next) && expected.Some? == (next.runId in old(states))
        && (expected.None? ==> next.revision == 0)
        && (expected.Some? ==> old(states)[next.runId].revision == expected.value && next.revision == expected.value + 1)
      ensures r == Invalid <==> !Decodable(next)
      ensures r == TooLarge ==> oversized(next)
      ensures states == if r == Saved then old(states)[next.runId := next] else old(states)
      ensures r == SaveVerdict(old(states), oversized, next, expected)
    {
      hide Decodable;
      var actual := if next.runId in states then Some(states[next.runId].revision) else None;
      if !Decodable(next) {
        return Invalid;
      }
      if actual != expected || next.revision != (if expected.Some? then expected.value + 1 else 0) {
        return Conflict;
      }
      if oversized(next) {
        return TooLarge;
      }
      states := states[next.runId := next];
      return Saved;
    }

    /** Stores the first record of a run. */
    method Create(next: ProjectState) returns (r: SaveResult)
      requires Valid() && next == InitialState(cfg, next.runId, next.posture)
      modifies this
      ensures Valid() && Grows(old(chains), chains)
      ensures r == SaveVerdict(old(states), oversized, next, None)
      ensures r == Saved ==> states == old(states)[next.runId := next] && Holds(next)
      ensures r != Saved ==> states == old(states) && chains == old(chains)
    {
      hide Records, Decodable;
      r := Put(next, None);
      if r == Saved {
        RecordsFirst(cfg, next);
        chains := chains[next.runId := [Commit(None, next)]];
        assert forall q :: q in old(states) ==> old(ValidRun(q));
      }
    }

    /** Stores the record that follows `from`, if `from` is still the newest. */
    method Save(next: ProjectState, expected: nat, ghost from: ProjectState, ghost cause: Cause) returns (r: SaveResult)
      requires Valid() && Holds(from) && expected == from.revision && Next(cfg, from, cause) == Some(next)
      modifies this
      ensures Valid() && Grows(old(chains), chains)
      ensures r == SaveVerdict(old(states), oversized, next, Some(expected))
      ensures r == Saved ==>
        && states == old(states)[next.runId := next] && Holds(next)
        && old(states)[next.runId] == from
        && chains == old(chains)[next.runId := old(chains[next.runId]) + [Commit(Some(cause), next)]]
      ensures r != Saved ==> states == old(states) && chains == old(chains)
      ensures r == Conflict ==> from.revision < states[from.runId].revision
      ensures next.runId == from.runId && from.runId in states
    {
      hide Next, Decodable, Records;
      NextKeepsRun(cfg, from, cause);
      CurrentIsHeld(from.runId);
      r := Put(next, Some(expected));
      if r == Saved {
        RecordsMore(cfg, chains[next.runId], next.runId, from, cause, next);
        assert forall q :: q in old(states) ==> old(ValidRun(q));
        chains := chains[next.runId := chains[next.runId] + [Commit(Some(cause), next)]];
        assert forall q :: q in states && q != next.runId ==> ValidRun(q);
      }
    }

    /** Other loops store whatever transitions they can while this one waits. */
    method OthersStore(runId: string, causes: seq<Cause>)
      requires Valid() && runId in states
      modifies this
      ensures Valid() && Grows(old(chains), chains) && states.Keys == old(states).Keys
      ensures states == old(states)[runId := AfterOthers(cfg, oversized, old(states)[runId], causes)]
    {
      hide Next, Legal, Decodable, AfterOthers, ValidRun;
      OthersNone(cfg, oversized, states[runId]);
      for i := 0 to |causes|
        invariant Valid() && Grows(old(chains), chains) && states.Keys == old(states).Keys
        invariant states == old(states)[runId := AfterOthers(cfg, oversized, old(states)[runId], causes[..i])]
      {
        OthersMore(cfg, oversized, old(states)[runId], causes, i);
        var s := states[runId];
        CurrentIsHeld(runId);
        ghost var before := chains;
        var n := Next(cfg, s, causes[i]);
        if n.Some? {
          var r := Save(n.value, s.revision, s, causes[i]);
        }
        GrowsTrans(old(chains), before, chains);
      }
      assert causes[..|causes|] == causes;
    }
  }

  /** The newest record once others have stored what they can, one after the other. */
  function AfterOthers(cfg: Config, oversized: ProjectState -> bool, s: ProjectState, causes: seq<Cause>): (t: ProjectState)
    ensures t.runId == s.runId
  {
    if causes == [] then s
    else
      var t := AfterOthers(cfg, oversized, s, causes[..|causes| - 1]);
      match Next(cfg, t, causes[|causes| - 1])
      case None => t
      case Some(n) =>
        NextKeepsRun(cfg, t, causes[|causes| - 1]);
        if Decodable(n) && !oversized(n) then n else t
  }

  lemma {:induction false} OthersNone(cfg: Config, oversized: ProjectState -> bool, s: ProjectState)
    ensures AfterOthers(cfg, oversized, s, []) == s
  {
  }

  lemma {:induction false} OthersMore(cfg: Config, oversized: ProjectState -> bool, s: ProjectState, causes: seq<Cause>, i: nat)
    requires i < |causes|
    ensures var t := AfterOthers(cfg, oversized, s, causes[..i]);
      AfterOthers(cfg, oversized, s, causes[..i + 1]) == match Next(cfg, t, causes[i])
        case None => t
        case Some(n) => if Decodable(n) && !oversized(n) then n else t
  {
    assert causes[..i + 1][..i] == causes[..i];
    hide Next, Decodable;
  }

  lemma {:induction false} GrowsAt(a: map<string, seq<Commit>>, b: map<string, seq<Commit>>, r: string)
    requires Grows(a, b) && r in a
    ensures r in b && a[r] <= b[r] && |a[r]| <= |b[r]|
  {
  }

  lemma {:induction false} GrowsRefl(a: map<string, seq<Commit>>)
    ensures Grows(a, a)
  {
  }

  lemma {:induction false} GrowsTrans(a: map<string, seq<Commit>>, b: map<string, seq<Commit>>, c: map<string, seq<Commit>>)
    requires Grows(a, b) && Grows(b, c)
    ensures Grows(a, c)
  {
  }

  /** When the loop looks whether an effect region of the run is still open. */
  datatype Moment = Resuming | BeforeStage | AfterIntent | AfterOutcome

  /** Everything outside the loop's control, by the number of the stage visit. */
  datatype World = World(
    cancelledBefore: nat -> bool,
    cancelledDuring: nat -> bool,
    outcome: nat -> Outcome,
    regionOpen: (nat, Moment) -> bool,
    others: nat -> seq<Cause>)

  datatype Outcome = Threw | Result(result: StageResult, retryAt: int, permission: Permission)

  datatype Transition = Stored(state: ProjectState) | Superseded(winner: ProjectState) | Refused

  datatype RunResult = Finished(state: ProjectState, visited: seq<Stage>) | Failure

  /** What a caller hands to a resume, and whether the host admits a prepared execution for a call that hands in nothing. */
  datatype ResumeInput = ResumeInput(
    addSteps: Option<int>,
    approval: Option<(string, bool)>,
    policy: Option<(string, bool)>,
    reconciliation: Option<(string, bool, string)>,
    capability: Option<(string, string)>,
    admitted: bool)
  {
    predicate Empty() { addSteps.None? && approval.None? && policy.None? && reconciliation.None? && capability.None? }
  }

  /** The transition a resume signal asks for; None when the signal does not speak to the wait. */
  function ResumeCause(s: ProjectState, input: ResumeInput, now: int): Option<Cause> {
    match s.status
    case PausedBudget => Some(BudgetResume(input.addSteps.GetOr(0)))
    case WaitingRetry => Some(RetryDue(now))
    case WaitingCapability =>
      if input.Empty() && input.admitted then Some(PreparedExecution)
      else if input.capability.Some? then Some(CapabilityRecheck(input.capability.value.0, input.capability.value.1)) else None
    case WaitingApproval =>
      if input.approval.Some? then Some(ApprovalDecision(input.approval.value.0, input.approval.value.1)) else None
    case WaitingPolicy =>
      if input.policy.Some? then Some(PolicyDecision(input.policy.value.0, input.policy.value.1)) else None
    case WaitingReconciliation =>
      if input.reconciliation.Some?
      then Some(Reconcile(input.reconciliation.value.0, input.reconciliation.value.1, input.reconciliation.value.2)) else None
    case _ => None
  }

  // ---- what a resume means, in the terms of its caller ----

  predicate StartsSome(signals: seq<string>, prefix: string) { exists i :: 0 <= i < |signals| && prefix <= signals[i] }

  /** The call speaks to what the run waits for, and was not heard before. */
  predicate Speaks(cfg: Config, s: ProjectState, input: ResumeInput, now: int) {
    match s.status
    case PausedBudget => input.addSteps.Some? && 0 < input.addSteps.value <= MAX_SAFE
    case WaitingRetry => s.wait.Some? && s.wait.value.RetryWait? && s.wait.value.resumeAt <= now
    case WaitingCapability =>
      || (input.Empty() && input.admitted)
      || (&& input.capability.Some? && s.wait.Some? && s.wait.value.CapabilityWait?
          && input.capability.value.0 == s.wait.value.capability && input.capability.value.1 != ""
          && ("recovery:" <= s.wait.value.capability ==>
                s.retry.attemptsConsumed < s.retry.runLimit && Attempts(s.retry, s.stage) < cfg.retryPerStageLimit)
          && "capability:" + input.capability.value.0 + ":" + input.capability.value.1 !in s.consumedSignals)
    case WaitingApproval =>
      && input.approval.Some? && s.wait.Some? && s.wait.value.ApprovalWait? && input.approval.value.0 == s.wait.value.decisionId
      && !StartsSome(s.consumedSignals, "approval:" + input.approval.value.0 + ":")
    case WaitingPolicy =>
      && input.policy.Some? && s.wait.Some? && s.wait.value.PolicyWait? && input.policy.value.0 == s.wait.value.policyId
      && !StartsSome(s.consumedSignals, "policy:" + input.policy.value.0 + ":")
    case WaitingReconciliation =>
      && input.reconciliation.Some? && s.wait.Some? && s.wait.value.ReconciliationWait?
      && input.reconciliation.value.0 == s.wait.value.effectId && input.reconciliation.value.1 && input.reconciliation.value.2 != ""
      && "reconciliation:" + input.reconciliation.value.0 + ":" + input.reconciliation.value.2 !in s.consumedSignals
    case _ => false
  }

  /** What the record then remembers of the call. */
  function Heard(s: ProjectState, input: ResumeInput): seq<string> {
    match s.status
    case WaitingCapability =>
      if input.capability.Some? then ["capability:" + input.capability.value.0 + ":" + input.capability.value.1] else []
    case WaitingApproval =>
      if input.approval.Some? then ["approval:" + input.approval.value.0 + if input.approval.value.1 then ":approved" else ":declined"]
      else []
    case WaitingPolicy =>
      if input.policy.Some? then ["policy:" + input.policy.value.0 + if input.policy.value.1 then ":proceed" else ":deny"] else []
    case WaitingReconciliation =>
      if input.reconciliation.Some? then ["reconciliation:" + input.reconciliation.value.0 + ":" + input.reconciliation.value.2] else []
    case _ => []
  }

  /** Whether a yes was asked for and given: then the run goes beyond its stage, or runs it again before it is dispatched. */
  predicate Declined(s: ProjectState, input: ResumeInput) {
    || (s.status == WaitingApproval && input.approval.Some? && !input.approval.value.1)
    || (s.status == WaitingPolicy && input.policy.Some? && !input.policy.value.1)
  }

  predicate GoesBeyond(s: ProjectState, input: ResumeInput) {
    || (s.status == WaitingPolicy && input.policy.Some? && input.policy.value.1)
    || (&& s.status == WaitingApproval && input.approval.Some? && input.approval.value.1
        && s.wait.Some? && s.wait.value.ApprovalWait? && s.wait.value.resumeMode.AdvanceOnApproval?)
  }

  /**
   `n` answers the call from `s`: a refusal by a person or policy makes the run wait for an alternative, with approval
   authority; anything else sets it running, beyond its stage after a go-ahead; the steps that were granted are added, what
   was said is remembered, and nothing else changes.
   */
  predicate Answers(s: ProjectState, input: ResumeInput, n: ProjectState) {
    && n.revision == s.revision + 1 && n.runId == s.runId && n.posture == s.posture && n.artifacts == s.artifacts
    && n.reworkCount == s.reworkCount && n.retry == s.retry
    && n.stepsRemaining == s.stepsRemaining + (if s.status == PausedBudget then input.addSteps.GetOr(0) else 0)
    && n.consumedSignals == s.consumedSignals + Heard(s, input)
    && (if GoesBeyond(s, input) then ComesAfter(s.stage, n.stage) else n.stage == s.stage)
    && (if Declined(s, input) then
          && n.status == WaitingCapability
          && n.wait == Some(CapabilityWait(s.stage, (if s.status == WaitingPolicy then "policy-alternative:" else "alternative:")
                                                    + StageName(s.stage), ApprovalAuthority))
        else n.status == Running && n.wait.None?)
  }

  /** The caller's terms and the transition behind them agree: when a call speaks, and which record answers it. */
  predicate Agrees(cfg: Config, s: ProjectState, input: ResumeInput, now: int) {
    var c := ResumeCause(s, input, now);
    && (Speaks(cfg, s, input, now) <==> c.Some? && Next(cfg, s, c.value).Some?)
    && (Speaks(cfg, s, input, now) ==> Answers(s, input, Next(cfg, s, c.value).value))
  }

  lemma {:induction false} TimedMeans(cfg: Config, s: ProjectState, input: ResumeInput, now: int)
    requires s.status in {PausedBudget, WaitingRetry}
    ensures Agrees(cfg, s, input, now)
  {
    hide NextStage, ComesAfter, StageName;
  }

  lemma {:induction false} Verdicts(kind: string, id: string)
    ensures kind + id + ":approved" == kind + id + ":" + "approved" && kind + id + ":declined" == kind + id + ":" + "declined"
    ensures kind + id + ":proceed" == kind + id + ":" + "proceed" && kind + id + ":deny" == kind + id + ":" + "deny"
  {
    assert ":" + "approved" == ":approved" && ":" + "declined" == ":declined" && ":" + "proceed" == ":proceed" && ":" + "deny" == ":deny";
  }

  lemma {:induction false} PolicyMeans(cfg: Config, s: ProjectState, input: ResumeInput, now: int)
    requires s.status == WaitingPolicy
    ensures Agrees(cfg, s, input, now)
  {
    hide NextStage, ComesAfter, StageName;
    NextComesAfter(s.stage);
    if input.policy.Some? {
      Verdicts("policy:", input.policy.value.0);
    }
  }

  lemma {:induction false} ApprovalMeans(cfg: Config, s: ProjectState, input: ResumeInput, now: int)
    requires s.status == WaitingApproval
    ensures Agrees(cfg, s, input, now)
  {
    hide NextStage, ComesAfter, StageName;
    NextComesAfter(s.stage);
    if input.approval.Some? {
      Verdicts("approval:", input.approval.value.0);
    }
  }

  lemma {:induction false} EvidenceMeans(cfg: Config, s: ProjectState, input: ResumeInput, now: int)
    requires s.status in {WaitingCapability, WaitingReconciliation}
    ensures Agrees(cfg, s, input, now)
  {
    hide NextStage, ComesAfter, StageName;
  }

  lemma {:induction false} ResumeMeans(cfg: Config, s: ProjectState, input: ResumeInput, now: int)
    requires s.status !in {Running, Completed, Failed}
    ensures Agrees(cfg, s, input, now)
  {
    hide Agrees;
    match s.status
    case WaitingPolicy => PolicyMeans(cfg, s, input, now);
    case WaitingApproval => ApprovalMeans(cfg, s, input, now);
    case WaitingCapability => EvidenceMeans(cfg, s, input, now);
    case WaitingReconciliation => EvidenceMeans(cfg, s, input, now);
    case _ => TimedMeans(cfg, s, input, now);
  }

  /** Only one record answers a call. */
  lemma {:induction false} OneAnswer(s: ProjectState, input: ResumeInput, m: ProjectState, n: ProjectState)
    requires Answers(s, input, m) && Answers(s, input, n)
    ensures m == n
  {
    if GoesBeyond(s, input) {
      OnlyOneComesAfter(s.stage, m.stage, n.stage);
    }
    hide ComesAfter;
  }

  /** What the executor of visit `k` brings back. */
  function OutcomeOf(w: World, k: nat): Cause {
    match w.outcome(k)
    case Threw => Thrown
    case Result(result, retryAt, permission) =>
      if w.cancelledDuring(k) then CancelledInFlight else Returned(result, retryAt, permission)
  }

  /** An outcome never adds steps, and one that keeps the run going has charged at least one. */
  lemma {:induction false} OutcomeProgress(cfg: Config, sent: ProjectState, c: Cause)
    requires (Parked(sent) || Stray(sent)) && IsOutcome(c)
    ensures Next(cfg, sent, c).Some?
    ensures var n := Next(cfg, sent, c).value;
      && n.stepsRemaining <= sent.stepsRemaining && n.revision == sent.revision + 1
      && (n.status == Running && sent.stepsRemaining > 0 ==> n.stepsRemaining < sent.stepsRemaining)
  {
    hide Obey;
    StepsStep(cfg, sent, c);
  }

  /** How a run is failed whose record was too large: an announcement's failure still lets its stage be called. */
  function Ceiling(c: Cause): Cause { if c.Intent? then Unannounced else CheckpointCeiling }

  function FailedOf(s: ProjectState): ProjectState { ClearWait(s).(status := Failed, revision := s.revision + 1) }

  lemma {:induction false} FailedIsNext(s: ProjectState)
    ensures FailedOf(s).runId == s.runId && FailedOf(s).revision == s.revision + 1 && FailedOf(s).status == Failed
  {
  }

  lemma {:induction false} CeilingNext(cfg: Config, s: ProjectState, c: Cause)
    requires Next(cfg, s, c).Some?
    ensures Next(cfg, s, Ceiling(c)) == Some(FailedOf(s))
  {
    hide Obey, NextStage;
  }

  /** The record a transition leaves: the next one, or the failure of the run if that one is too large. */
  function Kept(cfg: Config, oversized: ProjectState -> bool, s: ProjectState, c: Cause): ProjectState
    requires Next(cfg, s, c).Some?
  {
    var n := Next(cfg, s, c).value;
    if oversized(n) then FailedOf(s) else n
  }

  /** Undisturbed, that record can be stored. */
  predicate Lands(cfg: Config, oversized: ProjectState -> bool, s: ProjectState, c: Cause)
    requires Next(cfg, s, c).Some?
  {
    var n := Next(cfg, s, c).value;
    Decodable(n) && (oversized(n) ==> Decodable(FailedOf(s)) && !oversized(FailedOf(s)))
  }

  lemma {:induction false} KeptMovesOn(cfg: Config, oversized: ProjectState -> bool, s: ProjectState, c: Cause)
    requires Next(cfg, s, c).Some?
    ensures var n := Kept(cfg, oversized, s, c); n.revision == s.revision + 1 && n.runId == s.runId
  {
    hide Next;
    NextKeepsRun(cfg, s, c);
  }

  /** A transition that stops the run stops it however its record is kept. */
  lemma {:induction false} KeptStops(cfg: Config, oversized: ProjectState -> bool, s: ProjectState, c: Cause)
    requires var n := Next(cfg, s, c); n.Some? && n.value.status != Running && n.value.stepsRemaining == s.stepsRemaining
    ensures var n := Kept(cfg, oversized, s, c);
      n.status != Running && n.stepsRemaining == s.stepsRemaining && n.revision == s.revision + 1 && n.runId == s.runId
  {
    hide Next;
    NextKeepsRun(cfg, s, c);
  }

  /** The cause under which that record is stored. */
  function KeptCause(cfg: Config, oversized: ProjectState -> bool, s: ProjectState, c: Cause): Cause
    requires Next(cfg, s, c).Some?
  {
    if oversized(Next(cfg, s, c).value) then Ceiling(c) else c
  }

  /** After this commit its stage is called: it is an announcement, or the failure of one that was too large. */
  predicate Dispatches(c: Commit) { c.cause == Some(Intent) || (c.cause == Some(Unannounced) && c.state.status == Failed) }

  /** Whatever its announcement came to, the stage can then be called. */
  lemma {:induction false} AnnouncedOrMissed(cfg: Config, oversized: ProjectState -> bool, s: ProjectState)
    requires CanVisit(s)
    ensures Next(cfg, s, Intent).Some?
    ensures var n := Kept(cfg, oversized, s, Intent);
      && (Parked(n) || Stray(n)) && n.status != Running && n.stepsRemaining == s.stepsRemaining && n.stage == s.stage
      && n.runId == s.runId && n.revision == s.revision + 1
      && Dispatches(Commit(Some(KeptCause(cfg, oversized, s, Intent)), n))
  {
  }

  /** The transitions the loop makes itself stop it, and are always open to it. */
  lemma {:induction false} LoopTransitions(cfg: Config, s: ProjectState)
    requires s.status == Running
    ensures s.stage != Done ==> var n := Next(cfg, s, CancelBeforeStage);
      n.Some? && n.value.status != Running && n.value.stepsRemaining == s.stepsRemaining && n.value.revision == s.revision + 1
    ensures s.stage != Done && s.stepsRemaining == 0 ==> var n := Next(cfg, s, BudgetExhausted);
      n.Some? && n.value.status != Running && n.value.stepsRemaining == s.stepsRemaining && n.value.revision == s.revision + 1
    ensures s.stage != Done && s.stepsRemaining > 0 ==> var n := Next(cfg, s, MissingExecutor);
      n.Some? && n.value.status != Running && n.value.stepsRemaining == s.stepsRemaining && n.value.revision == s.revision + 1
    ensures s.stage == Done ==> var n := Next(cfg, s, Complete);
      n.Some? && n.value.status == Completed && n.value.revision == s.revision + 1
  {
  }

  predicate Visits(s: ProjectState, w: World, k: nat) {
    !w.cancelledBefore(k) && s.stepsRemaining > 0
  }

  /** The record one undisturbed turn of the loop leaves behind. */
  function TurnState(cfg: Config, oversized: ProjectState -> bool, executors: set<Stage>, s: ProjectState, w: World, k: nat): (n: ProjectState)
    requires s.status == Running && s.stage != Done
    ensures n.stepsRemaining <= s.stepsRemaining && (n.status == Running ==> n.stepsRemaining < s.stepsRemaining)
  {
    LoopTransitions(cfg, s);
    if w.cancelledBefore(k) then Kept(cfg, oversized, s, CancelBeforeStage)
    else if s.stepsRemaining == 0 then Kept(cfg, oversized, s, BudgetExhausted)
    else if s.stage !in executors then Kept(cfg, oversized, s, MissingExecutor)
    else
      AnnouncedOrMissed(cfg, oversized, s);
      var sent := Kept(cfg, oversized, s, Intent);
      OutcomeProgress(cfg, sent, OutcomeOf(w, k));
      if w.regionOpen(k, AfterIntent) then sent else Kept(cfg, oversized, sent, OutcomeOf(w, k))
  }

  /** The record of a turn that visits its stage: of the announcement, or of the outcome behind it. */
  lemma {:induction false} TurnOfVisit(cfg: Config, oversized: ProjectState -> bool, executors: set<Stage>, s: ProjectState, w: World, k: nat)
    requires CanVisit(s) && s.stage in executors && !w.cancelledBefore(k)
    ensures Next(cfg, s, Intent).Some? && Next(cfg, Kept(cfg, oversized, s, Intent), OutcomeOf(w, k)).Some?
    ensures var sent := Kept(cfg, oversized, s, Intent);
      var n := TurnState(cfg, oversized, executors, s, w, k);
      && n == (if w.regionOpen(k, AfterIntent) then sent else Kept(cfg, oversized, sent, OutcomeOf(w, k)))
      && n.runId == s.runId && s.revision < n.revision
  {
    hide Next, Kept, Parked, Stray;
    AnnouncedOrMissed(cfg, oversized, s);
    var sent := Kept(cfg, oversized, s, Intent);
    OutcomeProgress(cfg, sent, OutcomeOf(w, k));
    KeptMovesOn(cfg, oversized, sent, OutcomeOf(w, k));
  }

  /** The record and visits of an undisturbed run: turns until it stops, then completion if it is done. */
  function RunState(cfg: Config, oversized: ProjectState -> bool, executors: set<Stage>, s: ProjectState, w: World, visited: seq<Stage>)
    : (ProjectState, seq<Stage>)
    decreases s.stepsRemaining, s.status == Running
  {
    if s.status != Running then (s, visited)
    else if s.stage == Done then
      LoopTransitions(cfg, s);
      (Kept(cfg, oversized, s, Complete), visited)
    else
      RunState(cfg, oversized, executors, TurnState(cfg, oversized, executors, s, w, |visited|), w,
               visited + if Visits(s, w, |visited|) then [s.stage] else [])
  }

  /** At turn `k` no other loop stores anything, and no effect region refuses a record. */
  predicate Quiet(w: World, k: nat) { w.others(k) == [] && !w.regionOpen(k, BeforeStage) && !w.regionOpen(k, AfterOutcome) }

  /** Every record of the turn can be stored. */
  predicate TurnLands(cfg: Config, oversized: ProjectState -> bool, executors: set<Stage>, s: ProjectState, w: World, k: nat)
    requires s.status == Running && s.stage != Done
  {
    LoopTransitions(cfg, s);
    if w.cancelledBefore(k) then Lands(cfg, oversized, s, CancelBeforeStage)
    else if s.stepsRemaining == 0 then Lands(cfg, oversized, s, BudgetExhausted)
    else if s.stage !in executors then Lands(cfg, oversized, s, MissingExecutor)
    else
      AnnouncedOrMissed(cfg, oversized, s);
      var sent := Kept(cfg, oversized, s, Intent);
      OutcomeProgress(cfg, sent, OutcomeOf(w, k));
      Lands(cfg, oversized, s, Intent) && (w.regionOpen(k, AfterIntent) || Lands(cfg, oversized, sent, OutcomeOf(w, k)))
  }

  /** Nothing disturbs the run from here to its end, and every one of its records can be stored. */
  predicate RunLands(cfg: Config, oversized: ProjectState -> bool, executors: set<Stage>, s: ProjectState, w: World, visited: seq<Stage>)
    decreases s.stepsRemaining, s.status == Running
  {
    if s.status != Running then true
    else if s.stage == Done then
      LoopTransitions(cfg, s);
      !w.regionOpen(|visited|, BeforeStage) && Lands(cfg, oversized, s, Complete)
    else
      && Quiet(w, |visited|) && TurnLands(cfg, oversized, executors, s, w, |visited|)
      && RunLands(cfg, oversized, executors, TurnState(cfg, oversized, executors, s, w, |visited|), w,
                  visited + if Visits(s, w, |visited|) then [s.stage] else [])
  }

  lemma {:induction false} RunGoesOn(cfg: Config, oversized: ProjectState -> bool, executors: set<Stage>, s: ProjectState, w: World, visited: seq<Stage>)
    requires s.status == Running && s.stage != Done
    ensures var k := |visited|;
      var n, more := TurnState(cfg, oversized, executors, s, w, k), visited + if Visits(s, w, k) then [s.stage] else [];
      && RunState(cfg, oversized, executors, s, w, visited) == RunState(cfg, oversized, executors, n, w, more)
      && (RunLands(cfg, oversized, executors, s, w, visited) ==>
            Quiet(w, k) && TurnLands(cfg, oversized, executors, s, w, k) && RunLands(cfg, oversized, executors, n, w, more))
  {
    hide TurnState, TurnLands, Visits, Quiet;
  }

  lemma {:induction false} RunEnds(cfg: Config, oversized: ProjectState -> bool, executors: set<Stage>, s: ProjectState, w: World, visited: seq<Stage>)
    ensures s.status != Running ==> RunState(cfg, oversized, executors, s, w, visited) == (s, visited)
    ensures s.status == Running && s.stage == Done ==>
      && Next(cfg, s, Complete).Some?
      && RunState(cfg, oversized, executors, s, w, visited) == (Kept(cfg, oversized, s, Complete), visited)
      && (RunLands(cfg, oversized, executors, s, w, visited) ==>
            !w.regionOpen(|visited|, BeforeStage) && Lands(cfg, oversized, s, Complete))
  {
    hide Next, Kept, Lands, TurnState, TurnLands, Quiet, Visits;
    if s.status == Running {
      LoopTransitions(cfg, s);
    }
  }

  lemma {:induction false} CallsNone(executors: set<Stage>, w: World)
    ensures CountCalls(executors, w, []) == 0
  {
  }

  lemma {:induction false} CallsMore(executors: set<Stage>, w: World, visited: seq<Stage>, g: Stage)
    ensures CountCalls(executors, w, visited + [g]) ==
            CountCalls(executors, w, visited) + if g in executors && !w.regionOpen(|visited|, AfterIntent) then 1 else 0
  {
    assert (visited + [g])[..|visited|] == visited;
  }

  /** How many of the visits get as far as their executor. */
  function CountCalls(executors: set<Stage>, w: World, visited: seq<Stage>): nat {
    if visited == [] then 0
    else
      var k := |visited| - 1;
      CountCalls(executors, w, visited[..k]) + if visited[k] in executors && !w.regionOpen(k, AfterIntent) then 1 else 0
  }

  /** Every revision in `calls` dispatches a stage of the run, in increasing order. */
  ghost predicate CallsAnnounced(h: seq<Commit>, calls: seq<nat>) {
    && (forall i :: 0 <= i < |calls| ==> calls[i] < |h| && Dispatches(h[calls[i]]))
    && (forall i, j :: 0 <= i < j < |calls| ==> calls[i] < calls[j])
  }

  class ProjectLoop {
    const store: CheckpointStore
    const executors: set<Stage>

    constructor (store: CheckpointStore, executors: set<Stage>)
      ensures this.store == store && this.executors == executors
    {
      this.store, this.executors := store, executors;
    }

    /**
     Stores the transition, fails an oversized run, or reports the record that won. While an effect region of the run is
     open, only a record that waits for reconciliation is stored at all.
     */
    method TransitionCheckpoint(from: ProjectState, cause: Cause, open: bool) returns (t: Transition)
      requires store.Valid() && store.Holds(from) && Next(store.cfg, from, cause).Some?
      modifies store
      ensures store.Valid() && Grows(old(store.chains), store.chains) && from.runId in store.states
      ensures t.Stored? ==> store.Holds(t.state) && t.state == store.states[from.runId] && t.state.runId == from.runId
      ensures t.Stored? ==>
        && t.state == Kept(store.cfg, store.oversized, from, cause)
        && store.chains[from.runId] == old(store.chains)[from.runId]
             + [Commit(Some(KeptCause(store.cfg, store.oversized, from, cause)), t.state)]
      ensures t.Superseded? ==>
        && store.states == old(store.states) && t.winner == store.states[from.runId]
        && store.Holds(t.winner) && t.winner.runId == from.runId && from.revision < t.winner.revision
      ensures t.Refused? ==> store.states == old(store.states)
      ensures var free := !open || Next(store.cfg, from, cause).value.status == WaitingReconciliation;
        var newest := old(store.Newest(from));
        && (t.Stored? <==> free && newest && Lands(store.cfg, store.oversized, from, cause))
        && (t.Superseded? <==> free && Decodable(Next(store.cfg, from, cause).value) && !newest)
      ensures open && Next(store.cfg, from, cause).value.status != WaitingReconciliation ==> t == Refused
      ensures var next := Next(store.cfg, from, cause).value;
        && (!open || next.status == WaitingReconciliation)
        && SaveVerdict(old(store.states), store.oversized, next, Some(from.revision)) == Saved ==>
          t == Stored(next) && store.chains[from.runId] == old(store.chains)[from.runId] + [Commit(Some(cause), next)]
    {
      hide Legal, Next, Decodable, Records, FailedOf;
      var next := Next(store.cfg, from, cause).value;
      NextKeepsRun(store.cfg, from, cause);
      if open && next.status != WaitingReconciliation {
        store.CurrentIsHeld(from.runId);
        GrowsRefl(store.chains);
        return Refused;
      }
      var saved := store.Save(next, from.revision, from, cause);
      match saved
      case Saved => t := Stored(next);
      case Invalid => t := Refused;
      case Conflict =>
        var winner := store.Load(from.runId);
        t := Superseded(winner.value);
      case TooLarge =>
        var prior := store.Load(from.runId);
        store.HeldIsNewest(from);
        CeilingNext(store.cfg, prior.value, cause);
        FailedIsNext(prior.value);
        var failed := FailedOf(prior.value);
        var again := store.Save(failed, prior.value.revision, prior.value, Ceiling(cause));
        t := if again == Saved then Stored(failed) else Refused;
    }

    /** Nothing disturbs a run from this record on, and all its records can be stored. */
    predicate Undisturbed(s: ProjectState, w: World) { RunLands(store.cfg, store.oversized, executors, s, w, []) }

    /** The same, from the newest record of the run. */
    ghost predicate RunFree(s: ProjectState, w: World)
      reads store
    {
      store.Newest(s) && Undisturbed(s, w)
    }

    ghost predicate TurnFree(s: ProjectState, w: World, k: nat)
      requires s.status == Running && s.stage != Done
      reads store
    {
      store.Newest(s) && Quiet(w, k) && TurnLands(store.cfg, store.oversized, executors, s, w, k)
    }

    /** `winner` is the newest record of the run `state` belongs to, and is newer. */
    ghost predicate Won(winner: ProjectState, state: ProjectState)
      reads store
    {
      && state.runId in store.states && winner == store.states[state.runId] && store.Holds(winner)
      && winner.runId == state.runId && state.revision < winner.revision
    }

    /** The stored record continues `state` without adding steps; a run that goes on has used some. */
    ghost predicate Continues(next: ProjectState, state: ProjectState)
      reads store
    {
      && store.Holds(next) && next.runId == state.runId && state.revision < next.revision
      && next.stepsRemaining <= state.stepsRemaining
      && (next.status == Running ==> next.stepsRemaining < state.stepsRemaining)
    }

    /** `called` announced stage `g` of the run after everything stored before. */
    ghost predicate Announced(called: Option<nat>, before: seq<Commit>, runId: string, g: Stage)
      reads store
    {
      called.Some? ==>
        && runId in store.chains && |before| <= called.value < |store.chains[runId]|
        && Dispatches(store.chains[runId][called.value])
        && store.chains[runId][called.value].state.stage == g
    }

    /**
     One visit: announce the stage durably, stop if an effect region is open, else call its executor and store the
     outcome. The executor is called even if the announcement was too large and the run was failed instead.
     */
    method VisitStage(state: ProjectState, w: World, k: nat) returns (t: Transition, ghost called: Option<nat>)
      requires store.Valid() && store.Holds(state) && CanVisit(state) && state.stage in executors && !w.cancelledBefore(k)
      modifies store
      ensures store.Valid() && Grows(old(store.chains), store.chains) && state.runId in store.states
      ensures t.Stored? ==> Continues(t.state, state) && t.state == TurnState(store.cfg, store.oversized, executors, state, w, k)
      ensures t.Superseded? ==> Won(t.winner, state)
      ensures Announced(called, old(store.chains)[state.runId], state.runId, state.stage)
      ensures w.regionOpen(k, AfterIntent) ==> called.None?
      ensures t.Stored? ==> (called.Some? <==> !w.regionOpen(k, AfterIntent)) && store.states[state.runId] == t.state
      ensures old(TurnFree(state, w, k)) ==> t.Stored?
    {
      hide Legal, Next, Grows, CheckpointStore.Valid, Decodable, SaveVerdict, Kept, KeptCause, Dispatches, Parked, Stray, Lands;
      called := None;
      AnnouncedOrMissed(store.cfg, store.oversized, state);
      TurnOfVisit(store.cfg, store.oversized, executors, state, w, k);
      hide TurnState, CanVisit, OutcomeOf;
      t := TransitionCheckpoint(state, Intent, w.regionOpen(k, BeforeStage));
      if t.Stored? && !w.regionOpen(k, AfterIntent) {
        var sent := t.state;
        ghost var before := store.chains;
        called := Some(|store.chains[state.runId]| - 1);
        store.OthersStore(state.runId, w.others(k));
        var cause := OutcomeOf(w, k);
        ghost var waited := store.chains;
        HeldStays(before, waited, sent);
        t := TransitionCheckpoint(sent, cause, w.regionOpen(k, AfterOutcome));
        GrowsAt(before, waited, state.runId);
        GrowsAt(waited, store.chains, state.runId);
        GrowsTrans(before, waited, store.chains);
        GrowsTrans(old(store.chains), before, store.chains);
      }
    }

    /** Stores a transition that stops the loop before a stage. */
    method StopBefore(state: ProjectState, cause: Cause, open: bool) returns (t: Transition)
      requires store.Valid() && store.Holds(state) && Next(store.cfg, state, cause).Some?
      requires var n := Next(store.cfg, state, cause).value; n.status != Running && n.stepsRemaining == state.stepsRemaining
      modifies store
      ensures store.Valid() && Grows(old(store.chains), store.chains) && state.runId in store.states
      ensures t.Stored? ==>
        Continues(t.state, state) && t.state == Kept(store.cfg, store.oversized, state, cause) && store.states[state.runId] == t.state
      ensures t.Superseded? ==> Won(t.winner, state)
      ensures old(store.Newest(state)) && !open && Lands(store.cfg, store.oversized, state, cause) ==> t.Stored?
    {
      KeptStops(store.cfg, store.oversized, state, cause);
      hide Legal, Next, Kept, KeptCause, SaveVerdict, Decodable, Records, Lands;
      t := TransitionCheckpoint(state, cause, open);
    }

    /** One turn of the loop: stop for cancellation, budget or a missing executor, or visit the stage. */
    method Turn(state: ProjectState, w: World, k: nat) returns (t: Transition, visit: bool, ghost called: Option<nat>)
      requires store.Valid() && store.Holds(state) && state.status == Running && state.stage != Done
      modifies store
      ensures store.Valid() && Grows(old(store.chains), store.chains) && state.runId in store.states
      ensures t.Stored? ==> Continues(t.state, state) && t.state == TurnState(store.cfg, store.oversized, executors, state, w, k)
      ensures t.Superseded? ==> Won(t.winner, state)
      ensures Announced(called, old(store.chains)[state.runId], state.runId, state.stage)
      ensures visit == Visits(state, w, k)
      ensures called.Some? ==> visit
      ensures t.Stored? ==>
        && store.states[state.runId] == t.state
        && (called.Some? <==> visit && state.stage in executors && !w.regionOpen(k, AfterIntent))
      ensures old(TurnFree(state, w, k)) ==> t.Stored?
    {
      hide Legal, Next, SaveVerdict, Grows, CheckpointStore.Valid, Continues, Decodable, Lands;
      called := None;
      LoopTransitions(store.cfg, state);
      if w.cancelledBefore(k) {
        visit := false;
        t := StopBefore(state, CancelBeforeStage, w.regionOpen(k, BeforeStage));
      } else if state.stepsRemaining == 0 {
        visit := false;
        t := StopBefore(state, BudgetExhausted, w.regionOpen(k, BeforeStage));
      } else if state.stage !in executors {
        visit := true;
        t := StopBefore(state, MissingExecutor, w.regionOpen(k, BeforeStage));
      } else {
        visit := true;
        t, called := VisitStage(state, w, k);
      }
    }

    /** Runs the stages from `initial` until the run completes, fails or pauses, or another loop wins. */
    method Run(initial: ProjectState, w: World) returns (r: RunResult, ghost calls: seq<nat>)
      requires store.Valid() && store.Holds(initial)
      modifies store
      ensures store.Valid() && Grows(old(store.chains), store.chains) && initial.runId in store.chains
      ensures CallsAnnounced(store.chains[initial.runId], calls)
      ensures forall i :: 0 <= i < |calls| ==> |old(store.chains)[initial.runId]| <= calls[i]
      ensures |calls| <= initial.stepsRemaining
      ensures r.Finished? ==>
        && store.Holds(r.state) && r.state.runId == initial.runId && |r.visited| <= initial.stepsRemaining
        && (|| (r.state, r.visited) == RunState(store.cfg, store.oversized, executors, initial, w, [])
            || (r.visited == [] && Won(r.state, initial)))
      ensures old(RunFree(initial, w)) ==>
        && r.Finished? && (r.state, r.visited) == RunState(store.cfg, store.oversized, executors, initial, w, [])
        && |calls| == CountCalls(executors, w, r.visited)
    {
      hide Legal, Next, Grows, CallsAnnounced, CheckpointStore.Valid, Lands, TurnLands, TurnState, Quiet, CountCalls, Kept, RunState, RunLands;
      ghost var lands := RunFree(initial, w);
      var state := initial;
      var visited := [];
      calls := [];
      GrowsRefl(store.chains);
      NoCalls(store.chains[initial.runId]);
      CallsNone(executors, w);
      while state.status == Running && state.stage != Done
        invariant store.Valid() && store.Holds(state) && state.runId == initial.runId
        invariant Grows(old(store.chains), store.chains)
        invariant |visited| <= initial.stepsRemaining && |calls| <= |visited|
        invariant initial.revision <= state.revision
        invariant RunState(store.cfg, store.oversized, executors, state, w, visited)
               == RunState(store.cfg, store.oversized, executors, initial, w, [])
        invariant state.status == Running ==> |visited| + state.stepsRemaining <= initial.stepsRemaining
        invariant lands ==> store.Newest(state) && RunLands(store.cfg, store.oversized, executors, state, w, visited)
        invariant |calls| == CountCalls(executors, w, visited)
        invariant CallsAnnounced(store.chains[initial.runId], calls)
        invariant forall i :: 0 <= i < |calls| ==> |old(store.chains)[initial.runId]| <= calls[i]
        decreases state.stepsRemaining, state.status == Running
      {
        ghost var before := store.chains;
        var t, visit; ghost var called;
        t, visit, called := Turn(state, w, |visited|);
        GrowsAt(old(store.chains), before, initial.runId);
        GrowsAt(before, store.chains, initial.runId);
        GrowsTrans(old(store.chains), before, store.chains);
        CallsGrow(before[initial.runId], store.chains[initial.runId], calls, called);
        assert visited + [] == visited;
        RunGoesOn(store.cfg, store.oversized, executors, state, w, visited);
        if visit {
          CallsMore(executors, w, visited, state.stage);
          visited := visited + [state.stage];
        }
        if called.Some? {
          calls := calls + [called.value];
        }
        match t
        case Stored(next) => state := next;
        case Superseded(winner) => return Finished(winner, []), calls;
        case Refused => return Failure, calls;
      }
      RunEnds(store.cfg, store.oversized, executors, state, w, visited);
      if state.stage == Done && state.status == Running {
        ghost var before := store.chains;
        LoopTransitions(store.cfg, state);
        r, calls := CompleteRun(state, w, visited, calls, store.chains[initial.runId]);
        GrowsTrans(old(store.chains), before, store.chains);
      } else {
        r := Finished(state, visited);
      }
    }

    /** Reached "done" cleanly. */
    method CompleteRun(state: ProjectState, w: World, visited: seq<Stage>, ghost made: seq<nat>, ghost h: seq<Commit>)
      returns (r: RunResult, ghost calls: seq<nat>)
      requires store.Valid() && store.Holds(state) && state.status == Running && state.stage == Done
      requires Next(store.cfg, state, Complete).Some?
      requires h == store.chains[state.runId] && CallsAnnounced(h, made)
      modifies store
      ensures store.Valid() && Grows(old(store.chains), store.chains) && state.runId in store.chains
      ensures calls == made && CallsAnnounced(store.chains[state.runId], calls)
      ensures r.Finished? ==>
        && store.Holds(r.state) && r.state.runId == state.runId
        && (|| (r.visited == visited && r.state == Kept(store.cfg, store.oversized, state, Complete))
            || (r.visited == [] && Won(r.state, state)))
      ensures old(store.Newest(state)) && !w.regionOpen(|visited|, BeforeStage) && Lands(store.cfg, store.oversized, state, Complete) ==>
        r == Finished(Kept(store.cfg, store.oversized, state, Complete), visited)
    {
      hide Legal, Next, SaveVerdict, Lands;
      calls := made;
      LoopTransitions(store.cfg, state);
      var t := TransitionCheckpoint(state, Complete, w.regionOpen(|visited|, BeforeStage));
      CallsGrow(h, store.chains[state.runId], calls, None);
      match t
      case Stored(next) => r := Finished(next, visited);
      case Superseded(winner) => r := Finished(winner, []);
      case Refused => r := Failure;
    }

    static lemma {:induction false} NoCalls(h: seq<Commit>)
      ensures CallsAnnounced(h, [])
    {
    }

    static lemma {:induction false} CallsGrow(h: seq<Commit>, g: seq<Commit>, calls: seq<nat>, called: Option<nat>)
      requires CallsAnnounced(h, calls) && h <= g
      requires called.Some? ==> |h| <= called.value < |g| && Dispatches(g[called.value])
      ensures CallsAnnounced(g, calls)
      ensures called.Some? ==> CallsAnnounced(g, calls + [called.value])
    {
    }

    /** Stores the transition of an admitted signal from the newest record. */
    method ApplySignal(state: ProjectState, cause: Cause, open: bool) returns (t: Transition)
      requires store.Valid() && state.runId in store.states && store.states[state.runId] == state && store.Holds(state)
      requires Next(store.cfg, state, cause).Some?
      modifies store
      ensures store.Valid() && Grows(old(store.chains), store.chains)
      ensures t.Stored? ==> store.Holds(t.state) && t.state.runId == state.runId
      ensures var n := Next(store.cfg, state, cause).value;
        Decodable(n) && !store.oversized(n) && !open ==>
          t == Stored(n) && state.runId in store.states && store.states[state.runId] == n &&
          state.runId in store.chains && store.chains[state.runId] == old(store.chains)[state.runId] + [Commit(Some(cause), n)]
    {
      hide Legal, Body, Decodable;
      NextKeepsRun(store.cfg, state, cause);
      t := TransitionCheckpoint(state, cause, open);
    }

    /** Applies one resume signal to the newest record, once, and runs on from there. */
    method Resume(runId: string, input: ResumeInput, now: int, w: World) returns (r: RunResult, ghost calls: seq<nat>)
      requires store.Valid()
      modifies store
      ensures store.Valid() && Grows(old(store.chains), store.chains)
      ensures runId !in old(store.states) ==> r.Failure?
      ensures runId in old(store.states) && old(store.states)[runId].status in {Completed, Failed} ==>
        r == Finished(old(store.states)[runId], []) && store.states == old(store.states)
      ensures runId in old(store.states) && old(store.states)[runId].status !in {Running, Completed, Failed} &&
              !Speaks(store.cfg, old(store.states)[runId], input, now) ==>
        r == Finished(old(store.states)[runId], []) && store.states == old(store.states) && calls == []
      ensures runId in old(store.states) && old(store.states)[runId].status !in {Running, Completed, Failed} &&
              Speaks(store.cfg, old(store.states)[runId], input, now) && !w.regionOpen(0, Resuming) ==>
        forall n :: Answers(old(store.states)[runId], input, n) && Decodable(n) && !store.oversized(n) ==>
          && runId in store.chains && old(store.chains)[runId] <= store.chains[runId]
          && |old(store.chains)[runId]| < |store.chains[runId]| && store.chains[runId][|old(store.chains)[runId]|].state == n
      ensures runId in old(store.states) && old(store.states)[runId].status == Running && old(RunFree(store.states[runId], w)) ==>
        r.Finished? && (r.state, r.visited) == RunState(store.cfg, store.oversized, executors, old(store.states)[runId], w, [])
      ensures runId in old(store.states) && old(store.states)[runId].status !in {Running, Completed, Failed} &&
              Speaks(store.cfg, old(store.states)[runId], input, now) && !w.regionOpen(0, Resuming) ==>
        forall n :: Answers(old(store.states)[runId], input, n) && Decodable(n) && !store.oversized(n) && Undisturbed(n, w) ==>
          r.Finished? && (r.state, r.visited) == RunState(store.cfg, store.oversized, executors, n, w, [])
      ensures runId in store.chains ==> CallsAnnounced(store.chains[runId], calls)
    {
      hide Legal, Next, SaveVerdict, Decodable, ResumeCause, Answers, Speaks, RunLands, RunState;
      calls := [];
      var loaded := store.Load(runId);
      if loaded.None? {
        return Failure, calls;
      }
      var state := loaded.value;
      if state.status == Completed || state.status == Failed {
        return Finished(state, []), calls;
      }
      ghost var before := store.chains;
      if state.status != Running {
        var cause := ResumeCause(state, input, now);
        ResumeMeans(store.cfg, state, input, now);
        if cause.None? || Next(store.cfg, state, cause.value).None? {
          return Finished(state, []), calls;
        }
        ghost var answer := Next(store.cfg, state, cause.value).value;
        forall n | Answers(state, input, n) ensures n == answer {
          OneAnswer(state, input, n, answer);
        }
        var t := ApplySignal(state, cause.value, w.regionOpen(0, Resuming));
        match t
        case Stored(next) => state := next;
        case Superseded(winner) => return Finished(winner, []), calls;
        case Refused => return Failure, calls;
      }
      ghost var stored := store.chains;
      r, calls := Run(state, w);
      GrowsTrans(before, stored, store.chains);
    }

    static lemma {:induction false} HeldStays(a: map<string, seq<Commit>>, b: map<string, seq<Commit>>, s: ProjectState)
      requires Grows(a, b) && s.runId in a && s.revision < |a[s.runId]|
      ensures s.runId in b && s.revision < |b[s.runId]| && b[s.runId][s.revision] == a[s.runId][s.revision]
    {
    }
  }
}
