/**
 Where a run goes: what moves it forward, what sends it back, how often it defers, and who is asked.
 */
module ProjectMoves {
  import opened ProjectStates
  import opened ProjectTransitions
  import opened ProjectChains

  predicate AsksApproval(c: Cause) { Controls(c, BlockHuman) || Controls(c, ApprovalNeeded) }

  /** An installed policy let the stage proceed. */
  predicate PolicyProceeds(s: ProjectState, c: Cause) { AsksApproval(c) && s.posture.PolicyCalibrated? && c.permission.Proceed? }

  /** A person or a policy let a stage that already returned go ahead. */
  predicate GoesAhead(s: ProjectState, c: Cause) {
    || (c.ApprovalDecision? && c.approved && s.wait.Some? && s.wait.value.ApprovalWait? && s.wait.value.resumeMode.AdvanceOnApproval?)
    || (c.PolicyDecision? && c.proceed)
  }

  /** The transition defers the stage for a retry. */
  predicate Defers(s: ProjectState, n: ProjectState, c: Cause) { c.Returned? && n.status == WaitingRetry && s.status != WaitingRetry }

  lemma {:induction false} ApprovalMoves(s: ProjectState, r: StageResult, p: Permission)
    requires s.status == Running
    ensures var n := ApprovalOutcome(s, r, p);
      && n.reworkCount == s.reworkCount && n.retry == s.retry && n.status != WaitingRetry && n.posture == s.posture
      && n.stage == (if s.posture.PolicyCalibrated? && p.Proceed? then NextStage(s.stage) else s.stage)
      && (n.status == WaitingApproval <==>
            (s.posture.Autonomous? && r.severity.Extreme?) || s.posture.ApprovalRequired? || (s.posture.PolicyCalibrated? && p.AskApproval?))
  {
  }

  lemma {:induction false} ObeyMoves(cfg: Config, s: ProjectState, r: StageResult, retryAt: int, p: Permission)
    requires s.status == Running
    ensures var n := Obey(cfg, s, r, retryAt, p);
      && n.stage == (match r.control
           case Advance => NextStage(s.stage)
           case NeedRag => Rag
           case Rework => if n.reworkCount > s.reworkCount then n.stage else s.stage
           case BlockHuman => if s.posture.PolicyCalibrated? && p.Proceed? then NextStage(s.stage) else s.stage
           case ApprovalNeeded => if s.posture.PolicyCalibrated? && p.Proceed? then NextStage(s.stage) else s.stage
           case _ => s.stage)
      && (n.reworkCount == s.reworkCount + if r.control.Rework? && s.reworkCount < cfg.maxRework && SendsBack(s.stage, r.reworkTo) then 1 else 0)
      && (n.reworkCount > s.reworkCount ==> IsBack(s.stage, r.reworkTo, n.stage))
      && n.retry.attemptsConsumed == s.retry.attemptsConsumed + (if n.status == WaitingRetry then 1 else 0)
  {
    hide ApprovalOutcome, NextStage, ReworkStage, SendsBack;
    SentBack(s.stage, r.reworkTo);
    BackIs(s.stage, r.reworkTo);
    ApprovalMoves(s, r, p);
  }

  /** `n` is where a rework of `g` goes: the named stage, or the one just before. */
  predicate IsBack(g: Stage, target: ReworkTarget, n: Stage) {
    match target
    case PriorStage => Index(n) + 1 == Index(g)
    case To(x) => n == x
    case UnknownStage => false
  }

  lemma {:induction false} BackIs(g: Stage, target: ReworkTarget)
    ensures SendsBack(g, target) ==> ReworkStage(g, target).Some? && IsBack(g, target, ReworkStage(g, target).value)
  {
    SentBack(g, target);
  }

  /** `n` is the least later stage other than rag; nothing comes after done but done. */
  predicate ComesAfter(g: Stage, n: Stage) {
    && n != Rag
    && if g == Done then n == Done else Index(g) < Index(n) && forall x :: x != Rag && Index(g) < Index(x) ==> Index(n) <= Index(x)
  }

  lemma {:induction false} NextComesAfter(g: Stage)
    ensures ComesAfter(g, NextStage(g))
  {
    StageAtIndex(g, Index(g));
    if g != Done {
      StageAtIndex(g, Index(g) + 1);
      forall x | x != Rag && Index(g) < Index(x) ensures Index(NextStage(g)) <= Index(x) {
        StageAtIndex(x, Index(x));
      }
    }
  }

  lemma {:induction false} OnlyOneComesAfter(g: Stage, m: Stage, n: Stage)
    requires ComesAfter(g, m) && ComesAfter(g, n)
    ensures m == n
  {
    StageAtIndex(m, Index(m));
    StageAtIndex(n, Index(n));
  }

  /**
   The stage changes only in four ways: to the least later stage other than rag when a stage advances, its approval policy
   proceeds or a person or policy lets it go ahead; to rag on request; back to an earlier stage on a counted rework, to the
   one just before unless one is named; and never otherwise.
   */
  lemma {:induction false} StageStep(cfg: Config, s: ProjectState, c: Cause)
    requires Next(cfg, s, c).Some?
    ensures var n := Next(cfg, s, c).value;
      && (if Controls(c, Advance) || PolicyProceeds(s, c) || GoesAhead(s, c) then ComesAfter(s.stage, n.stage)
          else if Controls(c, NeedRag) then n.stage == Rag
          else if Reworks(cfg, s, c) then IsBack(s.stage, c.result.reworkTo, n.stage)
          else n.stage == s.stage)
      && n.reworkCount == s.reworkCount + (if Reworks(cfg, s, c) then 1 else 0)
      && n.retry.attemptsConsumed == s.retry.attemptsConsumed + (if Defers(s, n, c) then 1 else 0)
  {
    hide Obey, NextStage, ComesAfter, IsBack, SendsBack;
    NextComesAfter(s.stage);
    if Accepted(c) {
      ObeyMoves(cfg, Accept(Resumed(s), c.result), c.result, c.retryAt, c.permission);
    }
  }

  // ---- over whole runs ----

  /** How often the commits `1..k` sent the run back. */
  function CountReworks(cfg: Config, h: seq<Commit>, k: nat): nat
    requires k < |h|
  {
    if k == 0 then 0
    else CountReworks(cfg, h, k - 1) + if h[k].cause.Some? && Reworks(cfg, h[k - 1].state, h[k].cause.value) then 1 else 0
  }

  /** How often they deferred a stage. */
  function CountDeferrals(h: seq<Commit>, k: nat): nat
    requires k < |h|
  {
    if k == 0 then 0
    else CountDeferrals(h, k - 1) + if h[k].cause.Some? && Defers(h[k - 1].state, h[k].state, h[k].cause.value) then 1 else 0
  }

  /** A run's counters are what happened: it was sent back and deferred exactly that often, and never beyond its limits. */
  lemma {:induction false} CountersCount(cfg: Config, h: seq<Commit>, k: nat)
    requires Legal(cfg, h) && k < |h|
    ensures h[k].state.reworkCount == CountReworks(cfg, h, k) <= cfg.maxRework
    ensures h[k].state.retry.attemptsConsumed == CountDeferrals(h, k) <= cfg.retryRunLimit
  {
    hide Next, Reworks, Defers;
    ChainSound(cfg, h, k);
    if k > 0 {
      CountersCount(cfg, h, k - 1);
      assert LegalStep(cfg, h[k - 1].state, h[k]);
      StageStep(cfg, h[k - 1].state, h[k].cause.value);
    }
  }

  /** From one revision to the next, a run can only get behind by a rework or by going back to rag. */
  lemma {:induction false} OnlyReworkOrRagGoesBack(cfg: Config, h: seq<Commit>, k: nat)
    requires Legal(cfg, h) && 0 < k < |h| && Index(h[k].state.stage) < Index(h[k - 1].state.stage)
    ensures h[k].cause.Some?
    ensures var c := h[k].cause.value; Reworks(cfg, h[k - 1].state, c) || (Controls(c, NeedRag) && h[k].state.stage == Rag)
  {
    hide Next, Reworks;
    assert LegalStep(cfg, h[k - 1].state, h[k]);
    StageStep(cfg, h[k - 1].state, h[k].cause.value);
  }

  /** A run comes to the rag stage only when a stage asks for it or is sent back to it. */
  lemma {:induction false} RagOnlyOnRequest(cfg: Config, h: seq<Commit>, k: nat)
    requires Legal(cfg, h) && 0 < k < |h| && h[k].state.stage == Rag && h[k - 1].state.stage != Rag
    ensures h[k].cause.Some?
    ensures var c := h[k].cause.value; Controls(c, NeedRag) || Reworks(cfg, h[k - 1].state, c)
  {
    hide Next, Reworks;
    assert LegalStep(cfg, h[k - 1].state, h[k]);
    StageStep(cfg, h[k - 1].state, h[k].cause.value);
  }

  /** When a stage advances, its run goes on at the least later stage other than rag, and at done behind the last. */
  lemma {:induction false} AdvancesInOrder(cfg: Config, h: seq<Commit>, k: nat)
    requires Legal(cfg, h) && 0 < k < |h| && h[k].cause.Some? && Controls(h[k].cause.value, Advance)
    ensures var g, n := h[k - 1].state.stage, h[k].state.stage;
      ComesAfter(g, n) && (g in {Learn, Done} ==> n == Done) && (g in {Research, Rag} ==> n == Plan)
  {
    hide Next, Reworks;
    assert LegalStep(cfg, h[k - 1].state, h[k]);
    StageStep(cfg, h[k - 1].state, h[k].cause.value);
    TheOrder();
    var g, n := h[k - 1].state.stage, h[k].state.stage;
    if g in {Learn, Done} {
      OnlyOneComesAfter(g, n, Done);
    } else if g in {Research, Rag} {
      OnlyOneComesAfter(g, n, Plan);
    }
  }

  lemma {:induction false} TheOrder()
    ensures ComesAfter(Learn, Done) && ComesAfter(Done, Done) && ComesAfter(Research, Plan) && ComesAfter(Rag, Plan)
  {
  }

  /** A person's approval is asked for: by a preflight hold, or over a result that the run's posture puts to a person. */
  predicate Asks(posture: Posture, c: Cause) {
    || c.HoldApproval?
    || (AsksApproval(c) && (|| (posture.Autonomous? && c.result.severity.Extreme?)
                            || posture.ApprovalRequired?
                            || (posture.PolicyCalibrated? && c.permission.AskApproval?)))
  }

  lemma {:induction false} AskStep(cfg: Config, s: ProjectState, c: Cause)
    requires Next(cfg, s, c).Some? && Decodable(s)
    ensures Next(cfg, s, c).value.status == WaitingApproval <==> Asks(s.posture, c)
    ensures Next(cfg, s, c).value.posture == s.posture
  {
    hide Obey, NextStage;
    if Accepted(c) {
      ObeyAsks(cfg, Accept(Resumed(s), c.result), c.result, c.retryAt, c.permission);
    }
  }

  /**
   Who is asked, over a whole run: its posture never changes, and it waits for approval exactly at the revisions whose
   transition asked under that posture.
   */
  lemma {:induction false} ApprovalIsAskedByPosture(cfg: Config, h: seq<Commit>, k: nat)
    requires Legal(cfg, h) && k < |h|
    ensures h[k].state.posture == h[0].state.posture
    ensures h[k].state.status == WaitingApproval <==> k > 0 && h[k].cause.Some? && Asks(h[0].state.posture, h[k].cause.value)
  {
    hide Next, Asks;
    if k > 0 {
      ApprovalIsAskedByPosture(cfg, h, k - 1);
      ChainSound(cfg, h, k - 1);
      assert LegalStep(cfg, h[k - 1].state, h[k]);
      AskStep(cfg, h[k - 1].state, h[k].cause.value);
    }
  }

  lemma {:induction false} ObeyAsks(cfg: Config, s: ProjectState, r: StageResult, retryAt: int, p: Permission)
    requires s.status == Running
    ensures Obey(cfg, s, r, retryAt, p).posture == s.posture
    ensures Obey(cfg, s, r, retryAt, p).status == WaitingApproval <==>
      (r.control.BlockHuman? || r.control.ApprovalNeeded?)
      && ((s.posture.Autonomous? && r.severity.Extreme?) || s.posture.ApprovalRequired? || (s.posture.PolicyCalibrated? && p.AskApproval?))
  {
    hide ApprovalOutcome, NextStage;
    ApprovalMoves(s, r, p);
  }
}
