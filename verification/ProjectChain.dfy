/**
 The chain of committed checkpoints of one run: what holds of every record a run ever stores,
 whoever stored it and however long the run is.
 */
module ProjectChains {
  import opened Prelude
  import opened ProjectStates
  import opened ProjectTransitions

  /** A stored record and the cause of its transition; the first record of a run has no cause. */
  datatype Commit = Commit(cause: Option<Cause>, state: ProjectState)

  predicate LegalStep(cfg: Config, s: ProjectState, c: Commit) {
    c.cause.Some? && Next(cfg, s, c.cause.value) == Some(c.state) && Decodable(c.state)
  }

  /** Each commit follows the one before it by a transition of the loop that the decoder accepted. */
  predicate Legal(cfg: Config, h: seq<Commit>) {
    && 0 < |h| && SafeConfig(cfg)
    && h[0] == Commit(None, InitialState(cfg, h[0].state.runId, h[0].state.posture))
    && forall i :: 0 < i < |h| ==> LegalStep(cfg, h[i - 1].state, h[i])
  }

  lemma {:induction false} LegalExtend(cfg: Config, h: seq<Commit>, c: Commit)
    requires Legal(cfg, h) && LegalStep(cfg, h[|h| - 1].state, c)
    ensures Legal(cfg, h + [c])
  {
    var g := h + [c];
    forall i | 0 < i < |g| ensures LegalStep(cfg, g[i - 1].state, g[i]) {
      assert g[i - 1] == h[i - 1];
    }
  }

  /** Every stored record is decodable, keeps its counters, and sits at the index of its revision. */
  lemma {:induction false} ChainSound(cfg: Config, h: seq<Commit>, k: nat)
    requires Legal(cfg, h) && k < |h|
    ensures h[k].state.revision == k && h[k].state.runId == h[0].state.runId
    ensures Decodable(h[k].state) && CountersOk(cfg, h[k].state)
  {
    hide Next;
    if k == 0 {
      InitialCounters(cfg, h[0].state.runId, h[0].state.posture);
    } else {
      ChainSound(cfg, h, k - 1);
      assert LegalStep(cfg, h[k - 1].state, h[k]);
      CountersStep(cfg, h[k - 1].state, h[k].cause.value);
      NextKeepsRun(cfg, h[k - 1].state, h[k].cause.value);
    }
  }

  lemma {:induction false} NoAttempts(r: Retry, n: nat)
    requires r.attemptsByStage == map[]
    ensures AttemptsBefore(r, n) == 0
  {
    if n > 0 {
      NoAttempts(r, n - 1);
    }
  }

  lemma {:induction false} InitialCounters(cfg: Config, runId: string, posture: Posture)
    requires SafeConfig(cfg)
    ensures var s := InitialState(cfg, runId, posture); CountersOk(cfg, s) && Decodable(s)
  {
    NoAttempts(InitialState(cfg, runId, posture).retry, 10);
  }

  /** A history goes on by any transition whose record can be stored. */
  lemma {:induction false} Extend(cfg: Config, h: seq<Commit>, c: Cause) returns (g: seq<Commit>)
    requires Legal(cfg, h) && Next(cfg, h[|h| - 1].state, c).Some? && Storable(cfg, h[|h| - 1].state, c)
    ensures Legal(cfg, g) && g == h + [Commit(Some(c), Next(cfg, h[|h| - 1].state, c).value)]
  {
    hide Next;
    var s := h[|h| - 1].state;
    ChainSound(cfg, h, |h| - 1);
    DecodableStep(cfg, s, c);
    g := h + [Commit(Some(c), Next(cfg, s, c).value)];
    LegalExtend(cfg, h, g[|g| - 1]);
  }

  lemma {:induction false} NextKeepsRun(cfg: Config, s: ProjectState, c: Cause)
    requires Next(cfg, s, c).Some?
    ensures Next(cfg, s, c).value.runId == s.runId && Next(cfg, s, c).value.revision == s.revision + 1
  {
    hide Obey;
    if c.Returned? && Acceptable(c.result) {
      ObeyKeeps(cfg, Accept(Resumed(s), c.result), c.result, c.retryAt, c.permission);
    }
  }

  // ---- outputs over a whole run ----

  /** The commit that put the output of stage `g` of record `k` there. */
  ghost predicate AcceptedBy(h: seq<Commit>, k: nat, g: Stage, i: nat)
    requires k < |h| && g in h[k].state.artifacts
  {
    && 0 < i <= k && h[i].cause.Some? && h[i].cause.value.Returned? && Acceptable(h[i].cause.value.result)
    && h[i - 1].state.stage == g && (Parked(h[i - 1].state) || Stray(h[i - 1].state))
    && h[i].cause.value.result.output == Some(h[k].state.artifacts[g])
  }

  /** Stored outputs change only when a dispatched stage returns, and then only for that stage. */
  lemma {:induction false} ArtifactsStep(cfg: Config, s: ProjectState, c: Cause)
    requires Next(cfg, s, c).Some?
    ensures Next(cfg, s, c).value.artifacts ==
            if c.Returned? && Acceptable(c.result) then s.artifacts[s.stage := c.result.output.value] else s.artifacts
    ensures c.Returned? ==> Parked(s) || Stray(s)
  {
    hide Obey;
    if c.Returned? && Acceptable(c.result) {
      ObeyKeeps(cfg, Accept(Resumed(s), c.result), c.result, c.retryAt, c.permission);
    }
  }

  /** Every stored output was returned by an execution of its own stage. */
  lemma {:induction false} OutputsAreAccepted(cfg: Config, h: seq<Commit>, k: nat, g: Stage)
    requires Legal(cfg, h) && k < |h| && g in h[k].state.artifacts
    ensures exists i :: AcceptedBy(h, k, g, i)
  {
    hide Next;
    if k > 0 {
      var s, c := h[k - 1].state, h[k].cause.value;
      assert LegalStep(cfg, s, h[k]);
      ArtifactsStep(cfg, s, c);
      if c.Returned? && Acceptable(c.result) && s.stage == g {
        assert AcceptedBy(h, k, g, k);
      } else {
        OutputsAreAccepted(cfg, h, k - 1, g);
        var i :| AcceptedBy(h, k - 1, g, i);
        assert AcceptedBy(h, k, g, i);
      }
    }
  }

  // ---- the step budget ----

  /** What a transition charges: what an accepted result used, one if it does not say, one for a throw or a cancellation. */
  function Charged(c: Cause): nat {
    if c.Thrown? || c.CancelledInFlight? then 1
    else if !Accepted(c) then 0
    else if c.result.stepsUsed.Some? then c.result.stepsUsed.value else 1
  }

  /** One transition raises the step budget only as a budget resume, and then by what was added. */
  lemma {:induction false} StepsStep(cfg: Config, s: ProjectState, c: Cause)
    requires Next(cfg, s, c).Some?
    ensures var n := Next(cfg, s, c).value;
      && (n.stepsRemaining > s.stepsRemaining <==> c.BudgetResume?)
      && (c.BudgetResume? ==> n.stepsRemaining == s.stepsRemaining + c.addSteps)
      && (c.Returned? && Acceptable(c.result) && s.stepsRemaining > 0 ==> n.stepsRemaining < s.stepsRemaining)
      && (!c.BudgetResume? ==> n.stepsRemaining == if Charged(c) >= s.stepsRemaining then 0 else s.stepsRemaining - Charged(c))
  {
    hide Obey;
    if c.Returned? && Acceptable(c.result) {
      ObeyKeeps(cfg, Accept(Resumed(s), c.result), c.result, c.retryAt, c.permission);
    }
  }

  /** The steps granted by budget resumes in commits `i+1..j`. */
  function Granted(h: seq<Commit>, i: nat, j: nat): int
    requires i <= j < |h|
    decreases j - i
  {
    if i == j then 0
    else Granted(h, i, j - 1) + if h[j].cause.Some? && h[j].cause.value.BudgetResume? then h[j].cause.value.addSteps else 0
  }

  /** Along a run, the budget never exceeds what it was plus what was granted since. */
  lemma {:induction false} StepsNeverRise(cfg: Config, h: seq<Commit>, i: nat, j: nat)
    requires Legal(cfg, h) && i <= j < |h|
    ensures h[j].state.stepsRemaining <= h[i].state.stepsRemaining + Granted(h, i, j)
    decreases j - i
  {
    hide Next;
    if i < j {
      StepsNeverRise(cfg, h, i, j - 1);
      assert LegalStep(cfg, h[j - 1].state, h[j]);
      StepsStep(cfg, h[j - 1].state, h[j].cause.value);
    }
  }

  // ---- single-use signals ----

  lemma {:induction false} SignalsStep(cfg: Config, s: ProjectState, c: Cause)
    requires Next(cfg, s, c).Some?
    ensures s.consumedSignals <= Next(cfg, s, c).value.consumedSignals
  {
    hide Obey;
    if c.Returned? && Acceptable(c.result) {
      ObeyKeeps(cfg, Accept(Resumed(s), c.result), c.result, c.retryAt, c.permission);
    }
  }

  lemma {:induction false} SignalsGrow(cfg: Config, h: seq<Commit>, i: nat, j: nat)
    requires Legal(cfg, h) && i <= j < |h|
    ensures h[i].state.consumedSignals <= h[j].state.consumedSignals
    decreases j - i
  {
    hide Next;
    if i < j {
      SignalsGrow(cfg, h, i, j - 1);
      assert LegalStep(cfg, h[j - 1].state, h[j]);
      SignalsStep(cfg, h[j - 1].state, h[j].cause.value);
    }
  }

  /** Two resume signals that speak about the same decision, capability evidence or effect evidence. */
  predicate SameSignal(c: Cause, d: Cause) {
    || (c.ApprovalDecision? && d.ApprovalDecision? && c.decisionId == d.decisionId)
    || (c.PolicyDecision? && d.PolicyDecision? && c.policyId == d.policyId)
    || (c.CapabilityRecheck? && d.CapabilityRecheck? && c.capability == d.capability && c.evidenceId == d.evidenceId)
    || (c.Reconcile? && d.Reconcile? && c.effectId == d.effectId && c.evidenceId == d.evidenceId)
  }

  /** Once a signal is in the record, no later transition accepts it again. */
  lemma {:induction false} ConsumedSignalRefused(cfg: Config, s: ProjectState, c: Cause, t: ProjectState, d: Cause)
    requires Next(cfg, s, c).Some? && Next(cfg, s, c).value.consumedSignals <= t.consumedSignals && SameSignal(c, d)
    ensures Next(cfg, t, d).None?
  {
    var signals := Next(cfg, s, c).value.consumedSignals;
    var signal := signals[|s.consumedSignals|];
    assert t.consumedSignals[|s.consumedSignals|] == signal;
    if c.ApprovalDecision? {
      assert ApprovalPrefix(c.decisionId) <= signal;
    } else if c.PolicyDecision? {
      assert PolicyPrefix(c.policyId) <= signal;
    } else {
      assert signal in t.consumedSignals;
    }
  }

  /** Two transitions of which the second starts from a record that remembers the first. */
  lemma {:induction false} LaterSignalDiffers(cfg: Config, s: ProjectState, c: Cause, t: ProjectState, d: Cause)
    requires Next(cfg, s, c).Some? && Next(cfg, s, c).value.consumedSignals <= t.consumedSignals
    requires Next(cfg, t, d).Some?
    ensures !SameSignal(c, d)
  {
    hide Next;
    if SameSignal(c, d) {
      ConsumedSignalRefused(cfg, s, c, t, d);
      assert false;
    }
  }

  /** No approval, policy, capability or reconciliation signal takes effect twice in a run. */
  lemma {:induction false} SignalsAreSingleUse(cfg: Config, h: seq<Commit>, i: nat, j: nat)
    requires Legal(cfg, h) && 0 < i < j < |h|
    ensures h[i].cause.Some? && h[j].cause.Some? && !SameSignal(h[i].cause.value, h[j].cause.value)
  {
    hide Next;
    assert LegalStep(cfg, h[i - 1].state, h[i]) && LegalStep(cfg, h[j - 1].state, h[j]);
    SignalsGrow(cfg, h, i, j - 1);
    LaterSignalDiffers(cfg, h[i - 1].state, h[i].cause.value, h[j - 1].state, h[j].cause.value);
  }
}
