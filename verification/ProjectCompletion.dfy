/**
 What a completed run holds: every required stage has an accepted output, except exactly those that a transition
 passed over.
 */
module ProjectCompletion {
  import opened Prelude
  import opened ProjectStates
  import opened ProjectTransitions
  import opened ProjectChains

  /** The stages that must have produced something before a run may be called complete. */
  predicate Required(g: Stage) { g != Rag && g != Done }

  /** A transition that leaves stage `g` behind without an output of its own. */
  predicate Passes(s: ProjectState, c: Cause, g: Stage) {
    && Required(g) && g !in s.artifacts
    && (|| (c.Returned? && Acceptable(c.result) && c.result.control.NeedRag? && s.stage == Understand && g == Research)
        || (c.PolicyDecision? && c.proceed && s.stage == g))
  }

  /** Stage `g` has no output, and the run is beyond it or waits for leave to go beyond it. */
  predicate LeftBehind(s: ProjectState, g: Stage) {
    && g !in s.artifacts
    && (|| Index(g) < Index(s.stage)
        || (s.stage == g && s.wait.Some? && s.wait.value.ApprovalWait? && s.wait.value.resumeMode.AdvanceOnApproval?))
  }

  lemma {:induction false} NextIsOne(g: Stage, x: Stage)
    requires Required(x)
    ensures Index(x) < Index(NextStage(g)) <==> Index(x) <= Index(g)
  {
    StageAtIndex(g, Index(g) + 1);
    StageAtIndex(g, Index(g) + 2);
  }

  lemma {:induction false} ApprovalLeaves(s: ProjectState, r: StageResult, p: Permission, g: Stage)
    requires Required(g) && !LeftBehind(s, g) && s.status == Running && s.wait.None? && s.stage in s.artifacts
    ensures !LeftBehind(ApprovalOutcome(s, r, p), g)
  {
    hide NextStage;
    NextIsOne(s.stage, g);
  }

  lemma {:induction false} ObeyLeaves(cfg: Config, s: ProjectState, r: StageResult, retryAt: int, p: Permission, g: Stage)
    requires Required(g) && !LeftBehind(s, g) && s.status == Running && s.wait.None? && s.stage in s.artifacts
    ensures LeftBehind(Obey(cfg, s, r, retryAt, p), g) <==>
            r.control.NeedRag? && s.stage == Understand && g == Research && g !in s.artifacts
  {
    hide NextStage, ApprovalOutcome;
    NextIsOne(s.stage, g);
    ApprovalLeaves(s, r, p, g);
  }

  lemma {:induction false} DecisionLeaves(cfg: Config, s: ProjectState, c: Cause, g: Stage)
    requires Required(g) && !LeftBehind(s, g) && Next(cfg, s, c).Some? && (c.ApprovalDecision? || c.PolicyDecision?)
    ensures LeftBehind(Next(cfg, s, c).value, g) <==> Passes(s, c, g)
  {
    hide NextStage;
    NextIsOne(s.stage, g);
  }

  /** A stage is left behind by one transition exactly if that transition passes it. */
  lemma {:induction false} PassStep(cfg: Config, s: ProjectState, c: Cause, g: Stage)
    requires Required(g) && !LeftBehind(s, g) && Next(cfg, s, c).Some?
    ensures LeftBehind(Next(cfg, s, c).value, g) <==> Passes(s, c, g)
  {
    if c.Returned? && Acceptable(c.result) {
      hide Obey;
      ObeyLeaves(cfg, Accept(Resumed(s), c.result), c.result, c.retryAt, c.permission, g);
    } else if c.ApprovalDecision? || c.PolicyDecision? {
      hide Next;
      DecisionLeaves(cfg, s, c, g);
    }
  }

  /** Commit `m` stores an accepted return of stage `g`. */
  predicate Supplies(h: seq<Commit>, m: int, g: Stage) {
    0 < m < |h| && h[m].cause.Some? && Accepted(h[m].cause.value) && h[m - 1].state.stage == g
  }

  /** Commit `i` passed stage `g`, and no commit after it, up to `k`, made up for that. */
  ghost predicate PassedAt(h: seq<Commit>, k: nat, g: Stage, i: nat)
    requires k < |h|
  {
    && 0 < i <= k && h[i].cause.Some? && Passes(h[i - 1].state, h[i].cause.value, g)
    && forall m :: i < m <= k ==> !Supplies(h, m, g)
  }

  /** A stage has an output after a commit exactly if it had one before or the commit supplies it. */
  lemma {:induction false} SuppliedStep(cfg: Config, h: seq<Commit>, k: nat, g: Stage)
    requires Legal(cfg, h) && 0 < k < |h|
    ensures g in h[k].state.artifacts <==> g in h[k - 1].state.artifacts || Supplies(h, k, g)
  {
    hide Next;
    assert LegalStep(cfg, h[k - 1].state, h[k]);
    ArtifactsStep(cfg, h[k - 1].state, h[k].cause.value);
  }

  lemma {:induction false} LeftBehindWasPassed(cfg: Config, h: seq<Commit>, k: nat, g: Stage) returns (i: nat)
    requires Legal(cfg, h) && k < |h| && Required(g) && LeftBehind(h[k].state, g)
    ensures PassedAt(h, k, g, i)
  {
    hide Next, Passes, Supplies;
    i := k;
    if k > 0 {
      assert LegalStep(cfg, h[k - 1].state, h[k]);
      SuppliedStep(cfg, h, k, g);
      if LeftBehind(h[k - 1].state, g) {
        i := LeftBehindWasPassed(cfg, h, k - 1, g);
      } else {
        PassStep(cfg, h[k - 1].state, h[k].cause.value, g);
      }
    }
  }

  /** A transition that passes a stage does not supply it. */
  lemma {:induction false} PassingSuppliesNothing(cfg: Config, h: seq<Commit>, i: nat, g: Stage)
    requires Legal(cfg, h) && 0 < i < |h| && h[i].cause.Some? && Passes(h[i - 1].state, h[i].cause.value, g)
    ensures g !in h[i].state.artifacts
  {
    hide Legal;
    SuppliedStep(cfg, h, i, g);
  }

  /** What was passed stays missing until a commit supplies it. */
  lemma {:induction false} PassedStaysMissing(cfg: Config, h: seq<Commit>, k: nat, g: Stage, i: nat)
    requires Legal(cfg, h) && k < |h| && PassedAt(h, k, g, i)
    ensures g !in h[k].state.artifacts
    decreases k
  {
    hide Legal, Passes, Supplies;
    if i == k {
      PassingSuppliesNothing(cfg, h, i, g);
    } else {
      PassedStaysMissing(cfg, h, k - 1, g, i);
      SuppliedStep(cfg, h, k, g);
    }
  }

  /** At any revision beyond a required stage, its output is missing exactly if it was passed and not made up for since. */
  lemma {:induction false} MissingOutputsWerePassed(cfg: Config, h: seq<Commit>, k: nat, g: Stage)
    requires Legal(cfg, h) && k < |h| && Required(g) && Index(g) < Index(h[k].state.stage)
    ensures g !in h[k].state.artifacts <==> exists i :: PassedAt(h, k, g, i)
  {
    hide Legal, Required, PassedAt;
    if g !in h[k].state.artifacts {
      var i := LeftBehindWasPassed(cfg, h, k, g);
    }
    if i :| PassedAt(h, k, g, i) {
      PassedStaysMissing(cfg, h, k, g, i);
    }
  }

  lemma {:induction false} ApprovalNeverCompletes(s: ProjectState, r: StageResult, p: Permission)
    requires s.status == Running
    ensures ApprovalOutcome(s, r, p).status != Completed
  {
    hide NextStage;
  }

  lemma {:induction false} ObeyNeverCompletes(cfg: Config, s: ProjectState, r: StageResult, retryAt: int, p: Permission)
    requires s.status == Running
    ensures Obey(cfg, s, r, retryAt, p).status != Completed
  {
    hide NextStage, ApprovalOutcome;
    ApprovalNeverCompletes(s, r, p);
  }

  lemma {:induction false} CompletedStep(cfg: Config, s: ProjectState, c: Cause)
    requires Next(cfg, s, c).Some?
    ensures Next(cfg, s, c).value.status == Completed ==> Next(cfg, s, c).value.stage == Done
  {
    hide Obey, NextStage;
    if c.Returned? && Acceptable(c.result) {
      ObeyNeverCompletes(cfg, Accept(Resumed(s), c.result), c.result, c.retryAt, c.permission);
    }
  }

  lemma {:induction false} CompletedIsDone(cfg: Config, h: seq<Commit>, k: nat)
    requires Legal(cfg, h) && k < |h| && h[k].state.status == Completed
    ensures h[k].state.stage == Done
  {
    if k > 0 {
      hide Next;
      assert LegalStep(cfg, h[k - 1].state, h[k]);
      CompletedStep(cfg, h[k - 1].state, h[k].cause.value);
    }
  }

  /**
   A completed run holds the output of a required stage, accepted from an execution of that stage, unless the
   stage was passed and never made up for; and then it does not.
   */
  lemma {:induction false} CompletedRunLacks(cfg: Config, h: seq<Commit>, k: nat, g: Stage)
    requires Legal(cfg, h) && k < |h| && h[k].state.status == Completed && Required(g)
    ensures g !in h[k].state.artifacts <==> exists i :: PassedAt(h, k, g, i)
    ensures g in h[k].state.artifacts ==> exists i :: AcceptedBy(h, k, g, i)
  {
    hide Legal, PassedAt, AcceptedBy;
    CompletedIsDone(cfg, h, k);
    assert Index(g) < Index(Done);
    MissingOutputsWerePassed(cfg, h, k, g);
    if g in h[k].state.artifacts {
      OutputsAreAccepted(cfg, h, k, g);
    }
  }

  // ---- both ways of passing a stage are real ----

  function Plainly(control: Control): StageResult {
    StageResult(Some("output"), control, PriorStage, None, None, WorkAuthority, None, None, None, Routine, false)
  }

  /** Runs one stage to an ordinary return. */
  lemma {:induction false} RunStage(cfg: Config, h: seq<Commit>, control: Control) returns (g: seq<Commit>)
    requires Legal(cfg, h) && CanVisit(h[|h| - 1].state) && |h| < 1_000
    requires control.Advance? || control.NeedRag?
    ensures Legal(cfg, g) && |g| == |h| + 2
    ensures var s, n := h[|h| - 1].state, g[|g| - 1].state;
      && n.status == Running && n.stepsRemaining == s.stepsRemaining - 1
      && n.stage == (if control.NeedRag? then Rag else NextStage(s.stage))
      && n.artifacts == s.artifacts[s.stage := "output"]
  {
    hide LegalStep;
    ChainSound(cfg, h, |h| - 1);
    var parked := Extend(cfg, h, Intent);
    g := Extend(cfg, parked, Returned(Plainly(control), 0, NoPolicyInstalled));
  }

  /** The done stage completes the run. */
  lemma {:induction false} RunDone(cfg: Config, h: seq<Commit>) returns (g: seq<Commit>)
    requires Legal(cfg, h) && |h| < 1_000
    requires var s := h[|h| - 1].state; s.status == Running && s.stage == Done
    ensures Legal(cfg, g) && g[|g| - 1].state.status == Completed && g[|g| - 1].state.artifacts == h[|h| - 1].state.artifacts
  {
    hide LegalStep;
    ChainSound(cfg, h, |h| - 1);
    g := Extend(cfg, h, Complete);
  }

  /** Advances plainly from beyond stage `missing` until the run completes. */
  lemma {:induction false} RunToCompletion(cfg: Config, h: seq<Commit>, missing: Stage) returns (g: seq<Commit>)
    requires Legal(cfg, h) && |h| + 2 * (10 - Index(h[|h| - 1].state.stage)) < 1_000
    requires var s := h[|h| - 1].state;
      s.status == Running && s.stepsRemaining >= 10 - Index(s.stage) && Index(missing) < Index(s.stage) && missing !in s.artifacts
    ensures Legal(cfg, g) && g[|g| - 1].state.status == Completed && missing !in g[|g| - 1].state.artifacts
    decreases 10 - Index(h[|h| - 1].state.stage)
  {
    hide Next, LegalStep, NextStage;
    var s := h[|h| - 1].state;
    if s.stage == Done {
      g := RunDone(cfg, h);
    } else {
      NextGoesOn(s.stage);
      var h1 := RunStage(cfg, h, Advance);
      g := RunToCompletion(cfg, h1, missing);
    }
  }

  lemma {:induction false} NextGoesOn(g: Stage)
    requires g != Done
    ensures Index(g) < Index(NextStage(g))
  {
    StageAtIndex(g, Index(g) + 1);
    StageAtIndex(g, Index(g) + 2);
  }

  /** When the first stage asks for the rag stage, the run can complete with no research at all. */
  lemma {:induction false} NeedRagFromUnderstandSkipsResearch(cfg: Config, runId: string, posture: Posture) returns (h: seq<Commit>)
    requires 10 <= cfg.stepBudget && SafeConfig(cfg)
    ensures Legal(cfg, h) && h[|h| - 1].state.status == Completed && Research !in h[|h| - 1].state.artifacts
  {
    var h0 := [Commit(None, InitialState(cfg, runId, posture))];
    var h1 := RunStage(cfg, h0, NeedRag);
    h := RunToCompletion(cfg, h1, Research);
  }

  /** When a policy hold is placed before the first stage ran and the policy lets it go ahead, that stage never runs. */
  lemma {:induction false} PolicyHoldSkipsUnderstand(cfg: Config, runId: string, posture: Posture, policyId: string) returns (h: seq<Commit>)
    requires 10 <= cfg.stepBudget && SafeConfig(cfg) && Bytes(Text(PolicyDecision(policyId, true))) <= MAX_SIGNAL_BYTES
    ensures Legal(cfg, h) && h[|h| - 1].state.status == Completed && Understand !in h[|h| - 1].state.artifacts
  {
    var h0 := [Commit(None, InitialState(cfg, runId, posture))];
    var h1 := Extend(cfg, h0, HoldPolicy(policyId));
    var h2 := Extend(cfg, h1, PolicyDecision(policyId, true));
    h := RunToCompletion(cfg, h2, Understand);
  }
}
