/**
 Any number of project loops on one run, interleaving over an atomic compare-and-swap checkpoint
 register and stopping between any two steps. The register's history, and the log of executor calls,
 are what the safety properties are about.
 */
module ProjectSystem {
  import opened Prelude
  import opened ProjectStates
  import opened ProjectTransitions
  import opened ProjectChains
  import opened ProjectCompletion

  /** Where a loop stands: the record it last stored or was given, and whether its stage is out. */
  datatype Proc =
    | Looping(cur: ProjectState)     // between two transitions
    | Announced(cur: ProjectState)   // its intent is stored, or was too large, and its executor not called yet
    | InFlight(cur: ProjectState)    // its executor was called and has not returned
    | Oversized                      // the store refused its record, no announcement; it will fail the run

  datatype Dispatch = Dispatch(effectId: string, revision: nat)

  datatype Sys = Sys(hist: seq<Commit>, procs: map<nat, Proc>, log: seq<Dispatch>)

  datatype Action =
    | Begin(p: nat, revision: nat)          // run or resume, given some record of the run
    | Attempt(p: nat, cause: Cause)         // a transition outside a stage; one cause is an oversized announcement
    | Call(p: nat)                          // the executor is called
    | Settle(p: nat, cause: Cause)          // the executor returned, threw or was cancelled
    | Overflow(p: nat)                      // the next record exceeds the store's ceiling
    | FailRun(p: nat, revision: nat)        // the run is failed from the record then loaded
    | Stop(p: nat)                          // the loop returns or its process is lost

  function Last(s: Sys): ProjectState
    requires 0 < |s.hist|
  {
    s.hist[|s.hist| - 1].state
  }

  function Drop(s: Sys, p: nat): Sys { s.(procs := s.procs - {p}) }

  /**
   The compare-and-swap: a record computed from `from` enters the register only if `from` is still its
   newest revision and the decoder accepts it; otherwise the loop is superseded, or throws, and stops.
   */
  function Swap(cfg: Config, s: Sys, p: nat, from: ProjectState, cause: Cause): Sys
    requires 0 < |s.hist|
  {
    match Next(cfg, from, cause)
    case None => Drop(s, p)
    case Some(n) =>
      if from.revision != |s.hist| - 1 || !Decodable(n) then Drop(s, p)
      else s.(hist := s.hist + [Commit(Some(cause), n)],
              procs := s.procs[p := if cause == Intent || cause == Unannounced then Announced(n) else Looping(n)])
  }

  /** One atomic step; an action that is not enabled changes nothing. */
  function Step(cfg: Config, s: Sys, a: Action): Sys
    requires 0 < |s.hist|
  {
    match a
    case Begin(p, revision) =>
      if p !in s.procs && revision < |s.hist| then s.(procs := s.procs[p := Looping(s.hist[revision].state)]) else s
    case Attempt(p, cause) =>
      if p in s.procs && s.procs[p].Looping? && !IsOutcome(cause) && !cause.CheckpointCeiling?
      then Swap(cfg, s, p, s.procs[p].cur, cause) else s
    case Call(p) =>
      if p in s.procs && s.procs[p].Announced? then
        var cur := s.procs[p].cur;
        s.(procs := s.procs[p := InFlight(cur)],
           log := s.log + [Dispatch(EffectId(cur.runId, cur.stage, cur.revision), cur.revision)])
      else s
    case Settle(p, cause) =>
      if p in s.procs && s.procs[p].InFlight? && IsOutcome(cause) then Swap(cfg, s, p, s.procs[p].cur, cause) else s
    case Overflow(p) =>
      if p in s.procs && (s.procs[p].Looping? || s.procs[p].InFlight?) then s.(procs := s.procs[p := Oversized]) else s
    case FailRun(p, revision) =>
      if p in s.procs && s.procs[p].Oversized? && revision < |s.hist|
      then Swap(cfg, s, p, s.hist[revision].state, CheckpointCeiling) else s
    case Stop(p) => Drop(s, p)
  }

  lemma {:induction false} StepKeepsHistory(cfg: Config, s: Sys, a: Action)
    requires 0 < |s.hist|
    ensures s.hist <= Step(cfg, s, a).hist
  {
  }

  /** The system after a sequence of steps. */
  function Exec(cfg: Config, s: Sys, actions: seq<Action>): (t: Sys)
    requires 0 < |s.hist|
    ensures 0 < |t.hist|
    decreases |actions|
  {
    if actions == [] then s
    else
      StepKeepsHistory(cfg, s, actions[0]);
      Exec(cfg, Step(cfg, s, actions[0]), actions[1..])
  }

  /** A stored run with no loop working on it. */
  function Created(cfg: Config, runId: string, posture: Posture): Sys {
    Sys([Commit(None, InitialState(cfg, runId, posture))], map[], [])
  }

  // ---- the invariant ----

  /** Revision `r` is a committed announcement of the effect it names. */
  predicate IsAnnouncement(h: seq<Commit>, r: nat) {
    && 0 < r < |h| && h[r].cause == Some(Intent)
    && ParkedOn(h[r].state, EffectId(h[r].state.runId, h[r].state.stage, r))
  }

  /** Revision `r` is the failure of a run whose announcement was too large to store. */
  predicate IsMissedAnnouncement(h: seq<Commit>, r: nat) {
    0 < r < |h| && h[r].cause == Some(Unannounced) && h[r].state.status == Failed
  }

  /** After revision `r` a loop goes on to call its stage. */
  predicate IsDispatch(h: seq<Commit>, r: nat) { IsAnnouncement(h, r) || IsMissedAnnouncement(h, r) }

  predicate Logged(log: seq<Dispatch>, r: nat) {
    exists d :: d in log && d.revision == r
  }

  /** A loop holding an announcement nobody else holds. */
  predicate Owns(x: Proc) { x.Announced? || x.InFlight? }

  predicate ProcOk(s: Sys, x: Proc) {
    x.Oversized? ||
    (&& x.cur.revision < |s.hist| && s.hist[x.cur.revision].state == x.cur
     && (Owns(x) ==> IsDispatch(s.hist, x.cur.revision))
     && (x.Announced? ==> !Logged(s.log, x.cur.revision))
     && (x.InFlight? ==> Logged(s.log, x.cur.revision)))
  }

  predicate LogOk(s: Sys) {
    && (forall d :: d in s.log ==>
          IsDispatch(s.hist, d.revision)
          && d.effectId == EffectId(s.hist[d.revision].state.runId, s.hist[d.revision].state.stage, d.revision))
    && (forall i, j :: 0 <= i < j < |s.log| ==> s.log[i].revision != s.log[j].revision)
  }

  /** An outcome is only ever stored right behind the announcement it answers, stored or too large. */
  predicate OutcomesOk(s: Sys) {
    forall i :: 0 < i < |s.hist| && s.hist[i].cause.Some? && IsOutcome(s.hist[i].cause.value) ==>
      IsDispatch(s.hist, i - 1) && Logged(s.log, i - 1)
  }

  predicate OwnedOnce(procs: map<nat, Proc>) {
    forall p, q :: p in procs && q in procs && p != q && Owns(procs[p]) && Owns(procs[q]) ==>
      procs[p].cur.revision != procs[q].cur.revision
  }

  predicate Inv(cfg: Config, s: Sys) {
    && Legal(cfg, s.hist)
    && (forall p :: p in s.procs ==> ProcOk(s, s.procs[p]))
    && OwnedOnce(s.procs)
    && LogOk(s)
    && OutcomesOk(s)
  }

  lemma {:induction false} InvCreated(cfg: Config, runId: string, posture: Posture)
    requires SafeConfig(cfg)
    ensures Inv(cfg, Created(cfg, runId, posture))
  {
  }

  lemma {:induction false} InvDrop(cfg: Config, s: Sys, p: nat)
    requires Inv(cfg, s)
    ensures Inv(cfg, Drop(s, p))
  {
    hide Next;
    var t := Drop(s, p);
    forall q | q in t.procs ensures ProcOk(t, t.procs[q]) {
      assert ProcOk(s, s.procs[q]);
    }
  }

  /** Extending the history leaves every loop and every logged call where it was. */
  lemma {:induction false} ExtendKeeps(s: Sys, c: Commit)
    ensures var t := s.(hist := s.hist + [c]);
      && (forall x :: ProcOk(s, x) ==> ProcOk(t, x))
      && (forall r :: IsDispatch(s.hist, r) ==> IsDispatch(t.hist, r))
  {
  }

  /** A stored intent parks the run on the effect its revision names; one too large to store fails it. */
  lemma {:induction false} IntentAnnounces(cfg: Config, from: ProjectState, c: Cause)
    requires Next(cfg, from, c).Some?
    ensures var n := Next(cfg, from, c).value;
      (c == Intent ==> ParkedOn(n, EffectId(n.runId, n.stage, n.revision))) && (c == Unannounced ==> n.status == Failed)
  {
    hide Obey, NextStage;
  }

  /** The oversize failure is a failure. */
  lemma {:induction false} CeilingFails(cfg: Config, from: ProjectState)
    ensures Next(cfg, from, CheckpointCeiling).Some? && Next(cfg, from, CheckpointCeiling).value.status == Failed
  {
  }

  lemma {:induction false} OutcomesExtend(s: Sys, c: Commit)
    requires 0 < |s.hist| && OutcomesOk(s)
    requires c.cause.Some? && IsOutcome(c.cause.value) ==>
      IsDispatch(s.hist, |s.hist| - 1) && Logged(s.log, |s.hist| - 1)
    ensures OutcomesOk(s.(hist := s.hist + [c]))
  {
    var t := s.(hist := s.hist + [c]);
    ExtendKeeps(s, c);
    forall i | 0 < i < |t.hist| && t.hist[i].cause.Some? && IsOutcome(t.hist[i].cause.value)
      ensures IsDispatch(t.hist, i - 1) && Logged(t.log, i - 1)
    {
      if i < |s.hist| {
        assert t.hist[i] == s.hist[i];
        assert IsDispatch(s.hist, i - 1);
      }
    }
  }

  /** Putting a loop in a sound place keeps every loop sound and every announcement owned once. */
  lemma {:induction false} ProcsReplace(s: Sys, p: nat, x: Proc)
    requires forall q :: q in s.procs ==> ProcOk(s, s.procs[q])
    requires OwnedOnce(s.procs) && ProcOk(s, x)
    requires Owns(x) ==> forall q :: q in s.procs && q != p && Owns(s.procs[q]) ==> s.procs[q].cur.revision != x.cur.revision
    ensures var t := s.(procs := s.procs[p := x]);
      (forall q :: q in t.procs ==> ProcOk(t, t.procs[q])) && OwnedOnce(t.procs)
  {
    var t := s.(procs := s.procs[p := x]);
    forall q | q in t.procs ensures ProcOk(t, t.procs[q]) {
      assert ProcOk(s, t.procs[q]);
    }
  }

  lemma {:induction false} InvReplace(cfg: Config, s: Sys, p: nat, x: Proc)
    requires Inv(cfg, s) && ProcOk(s, x) && !Owns(x)
    ensures Inv(cfg, s.(procs := s.procs[p := x]))
  {
    hide LegalStep, ProcOk, IsAnnouncement, Logged;
    ProcsReplace(s, p, x);
  }

  /** Where a loop stands once its record is stored. */
  function Place(cause: Cause, n: ProjectState): Proc {
    if cause == Intent || cause == Unannounced then Announced(n) else Looping(n)
  }

  lemma {:induction false} PlaceOk(cfg: Config, s: Sys, from: ProjectState, cause: Cause, n: ProjectState)
    requires Inv(cfg, s) && from == Last(s) && from.revision == |s.hist| - 1 && Next(cfg, from, cause) == Some(n)
    ensures ProcOk(s.(hist := s.hist + [Commit(Some(cause), n)]), Place(cause, n)) && n.revision == |s.hist|
  {
    hide Legal;
    NextKeepsRun(cfg, from, cause);
    IntentAnnounces(cfg, from, cause);
    NothingNewLogged(s);
    hide Next;
    var m := s.(hist := s.hist + [Commit(Some(cause), n)]);
    if cause == Intent || cause == Unannounced {
      assert IsDispatch(m.hist, |s.hist|);
    }
  }

  lemma {:induction false} InvCommit(cfg: Config, s: Sys, p: nat, from: ProjectState, cause: Cause, n: ProjectState)
    requires Inv(cfg, s) && p in s.procs && from == Last(s) && from.revision == |s.hist| - 1
    requires Next(cfg, from, cause) == Some(n) && Decodable(n)
    requires IsOutcome(cause) ==> s.procs[p].InFlight? && s.procs[p].cur == from
    ensures Inv(cfg, Swap(cfg, s, p, from, cause))
  {
    hide Next, Decodable;
    var c := Commit(Some(cause), n);
    LegalExtend(cfg, s.hist, c);
    ExtendKeeps(s, c);
    assert ProcOk(s, s.procs[p]);
    OutcomesExtend(s, c);
    PlaceOk(cfg, s, from, cause, n);
    OwnersAreOld(s);
    hide Legal, LegalStep, ProcOk, IsDispatch, Logged;
    ProcsReplace(s.(hist := s.hist + [c]), p, Place(cause, n));
  }

  lemma {:induction false} NothingNewLogged(s: Sys)
    requires LogOk(s)
    ensures !Logged(s.log, |s.hist|)
  {
  }

  lemma {:induction false} OwnersAreOld(s: Sys)
    requires forall q :: q in s.procs ==> ProcOk(s, s.procs[q])
    ensures forall q :: q in s.procs && Owns(s.procs[q]) ==> s.procs[q].cur.revision < |s.hist|
  {
    forall q | q in s.procs && Owns(s.procs[q]) ensures s.procs[q].cur.revision < |s.hist| {
      assert ProcOk(s, s.procs[q]);
    }
  }

  lemma {:induction false} InvSwap(cfg: Config, s: Sys, p: nat, from: ProjectState, cause: Cause)
    requires Inv(cfg, s) && p in s.procs
    requires from.revision < |s.hist| && s.hist[from.revision].state == from
    requires IsOutcome(cause) ==> s.procs[p].InFlight? && s.procs[p].cur == from
    ensures Inv(cfg, Swap(cfg, s, p, from, cause))
  {
    hide Next;
    var next := Next(cfg, from, cause);
    if next.None? || from.revision != |s.hist| - 1 || !Decodable(next.value) {
      InvDrop(cfg, s, p);
    } else {
      InvCommit(cfg, s, p, from, cause, next.value);
    }
  }

  lemma {:induction false} LogMore(log: seq<Dispatch>, d: Dispatch)
    ensures forall r :: Logged(log + [d], r) <==> Logged(log, r) || r == d.revision
  {
    forall r ensures Logged(log + [d], r) <==> Logged(log, r) || r == d.revision {
      if Logged(log, r) {
        var e :| e in log && e.revision == r;
        assert e in log + [d];
      }
      assert d in log + [d];
    }
  }

  lemma {:induction false} InvCall(cfg: Config, s: Sys, p: nat)
    requires Inv(cfg, s) && p in s.procs && s.procs[p].Announced?
    ensures Inv(cfg, Step(cfg, s, Call(p)))
  {
    hide Next;
    var t := Step(cfg, s, Call(p));
    var cur := s.procs[p].cur;
    var d := Dispatch(EffectId(cur.runId, cur.stage, cur.revision), cur.revision);
    assert t.log == s.log + [d];
    assert ProcOk(s, s.procs[p]);
    LogMore(s.log, d);
    forall q | q in t.procs ensures ProcOk(t, t.procs[q]) {
      assert ProcOk(s, s.procs[q]);
    }
    forall i, j | 0 <= i < j < |t.log| ensures t.log[i].revision != t.log[j].revision {
      assert s.log[i] in s.log;
    }
  }

  lemma {:induction false} OversizedOk(s: Sys)
    ensures ProcOk(s, Oversized)
  {
  }

  lemma {:induction false} LoopingOk(s: Sys, revision: nat)
    requires revision < |s.hist| && s.hist[revision].state.revision == revision
    ensures ProcOk(s, Looping(s.hist[revision].state))
  {
  }

  lemma {:induction false} CurIsStored(s: Sys, p: nat)
    requires p in s.procs && ProcOk(s, s.procs[p]) && !s.procs[p].Oversized?
    ensures s.procs[p].cur.revision < |s.hist| && s.hist[s.procs[p].cur.revision].state == s.procs[p].cur
  {
  }

  lemma {:induction false} InvStep(cfg: Config, s: Sys, a: Action)
    requires Inv(cfg, s)
    ensures Inv(cfg, Step(cfg, s, a))
  {
    hide Swap, ProcOk;
    match a {
      case Begin(p, revision) =>
        if p !in s.procs && revision < |s.hist| {
          ChainSound(cfg, s.hist, revision);
          LoopingOk(s, revision);
          InvReplace(cfg, s, p, Looping(s.hist[revision].state));
        }
      case Attempt(p, cause) =>
        if p in s.procs && s.procs[p].Looping? && !IsOutcome(cause) && !cause.CheckpointCeiling? {
          CurIsStored(s, p);
          InvSwap(cfg, s, p, s.procs[p].cur, cause);
        }
      case Call(p) =>
        if p in s.procs && s.procs[p].Announced? {
          InvCall(cfg, s, p);
        }
      case Settle(p, cause) =>
        if p in s.procs && s.procs[p].InFlight? && IsOutcome(cause) {
          CurIsStored(s, p);
          InvSwap(cfg, s, p, s.procs[p].cur, cause);
        }
      case Overflow(p) =>
        assert ProcOk(s, Oversized) by { OversizedOk(s); }
        InvReplace(cfg, s, p, Oversized);
      case FailRun(p, revision) =>
        if p in s.procs && s.procs[p].Oversized? && revision < |s.hist| {
          ChainSound(cfg, s.hist, revision);
          InvSwap(cfg, s, p, s.hist[revision].state, CheckpointCeiling);
        }
      case Stop(p) => InvDrop(cfg, s, p);
    }
  }

  lemma {:induction false} InvExec(cfg: Config, s: Sys, actions: seq<Action>)
    requires Inv(cfg, s)
    ensures Inv(cfg, Exec(cfg, s, actions))
    decreases |actions|
  {
    hide Next;
    if actions != [] {
      InvStep(cfg, s, actions[0]);
      StepKeepsHistory(cfg, s, actions[0]);
      InvExec(cfg, Step(cfg, s, actions[0]), actions[1..]);
    }
  }

  // ---- safety over all interleavings ----

  /**
   No effect identity is ever called twice, and an executor call follows a committed checkpoint that parks the run on
   exactly its effect, except when that checkpoint was too large to store: then the call follows the failure of the run.
   */
  lemma {:induction false} DispatchSafety(cfg: Config, runId: string, posture: Posture, actions: seq<Action>, i: nat, j: nat)
    requires SafeConfig(cfg)
    ensures var s := Exec(cfg, Created(cfg, runId, posture), actions);
      && (i < |s.log| ==>
            var r := s.log[i].revision;
            && 0 < r < |s.hist| && s.hist[r].state.revision == r && s.hist[r].cause in {Some(Intent), Some(Unannounced)}
            && (ParkedOn(s.hist[r].state, s.log[i].effectId) <==> s.hist[r].cause != Some(Unannounced))
            && (s.hist[r].cause == Some(Unannounced) ==> s.hist[r].state.status == Failed))
      && (i < j < |s.log| ==> s.log[i].effectId != s.log[j].effectId)
  {
    hide Next;
    var s := Exec(cfg, Created(cfg, runId, posture), actions);
    InvCreated(cfg, runId, posture);
    InvExec(cfg, Created(cfg, runId, posture), actions);
    if i < |s.log| {
      assert s.log[i] in s.log;
      ChainSound(cfg, s.hist, s.log[i].revision);
      if i < j < |s.log| && s.log[i].effectId == s.log[j].effectId {
        assert s.log[j] in s.log;
        var m, n := s.log[i].revision, s.log[j].revision;
        ChainSound(cfg, s.hist, n);
        EffectIdNamesRevision(s.hist[m].state.runId, s.hist[m].state.stage, m, s.hist[n].state.stage, n);
      }
    }
  }

  /**
   A stored output changes only by the outcome of the call dispatched at the revision just before it: what a
   superseded loop brings back never enters the register.
   */
  lemma {:induction false} OnlyTheAnnouncedOutputEnters(cfg: Config, runId: string, posture: Posture, actions: seq<Action>, i: nat)
    requires SafeConfig(cfg)
    ensures var s := Exec(cfg, Created(cfg, runId, posture), actions);
      0 < i < |s.hist| && s.hist[i].state.artifacts != s.hist[i - 1].state.artifacts ==>
        && s.hist[i - 1].cause in {Some(Intent), Some(Unannounced)} && Logged(s.log, i - 1)
        && s.hist[i].cause.Some? && s.hist[i].cause.value.Returned? && s.hist[i].cause.value.result.output.Some?
        && s.hist[i].state.artifacts ==
           s.hist[i - 1].state.artifacts[s.hist[i - 1].state.stage := s.hist[i].cause.value.result.output.value]
  {
    hide Next;
    var s := Exec(cfg, Created(cfg, runId, posture), actions);
    InvCreated(cfg, runId, posture);
    InvExec(cfg, Created(cfg, runId, posture), actions);
    if 0 < i < |s.hist| && s.hist[i].state.artifacts != s.hist[i - 1].state.artifacts {
      assert LegalStep(cfg, s.hist[i - 1].state, s.hist[i]);
      ArtifactsStep(cfg, s.hist[i - 1].state, s.hist[i].cause.value);
    }
  }

  // ---- a failed run, and how it can come back ----

  /** From a failed record, a transition of the loop that goes elsewhere is a hold or an outcome. */
  lemma {:induction false} FailedLeaves(cfg: Config, s: ProjectState, c: Cause)
    requires s.status == Failed && Next(cfg, s, c).Some? && Next(cfg, s, c).value.status != Failed
    ensures IsHold(c) || IsOutcome(c)
  {
    hide Obey, NextStage;
  }

  /**
   Under any interleaving a failed run stays failed, except when a hold is placed on it from outside, or when it was failed
   because an announcement was too large: then the stage is called all the same, and its outcome goes on from the failure.
   */
  lemma {:induction false} FailureIsFinal(cfg: Config, runId: string, posture: Posture, actions: seq<Action>, i: nat)
    requires SafeConfig(cfg)
    ensures var s := Exec(cfg, Created(cfg, runId, posture), actions);
      0 < i < |s.hist| && s.hist[i - 1].state.status == Failed && s.hist[i].state.status != Failed ==>
        && s.hist[i].cause.Some?
        && (IsHold(s.hist[i].cause.value)
            || (IsOutcome(s.hist[i].cause.value) && s.hist[i - 1].cause == Some(Unannounced) && Logged(s.log, i - 1)))
  {
    hide Next;
    var s := Exec(cfg, Created(cfg, runId, posture), actions);
    InvCreated(cfg, runId, posture);
    InvExec(cfg, Created(cfg, runId, posture), actions);
    if 0 < i < |s.hist| && s.hist[i - 1].state.status == Failed && s.hist[i].state.status != Failed {
      assert LegalStep(cfg, s.hist[i - 1].state, s.hist[i]);
      FailedLeaves(cfg, s.hist[i - 1].state, s.hist[i].cause.value);
    }
  }

  /** A run whose first announcement is too large, up to the outcome of the stage that is called all the same. */
  function MissedAnnouncement(c: Cause): seq<Action> {
    [Begin(0, 0), Attempt(0, Unannounced), Call(0), Settle(0, c)]
  }

  /** The run is failed without an announcement, its first stage is called, and what it returns brings the run back. */
  lemma {:induction false} FailedRunComesBack(cfg: Config, runId: string, posture: Posture)
    requires SafeConfig(cfg) && 0 < cfg.stepBudget
    ensures var s := Exec(cfg, Created(cfg, runId, posture), MissedAnnouncement(Returned(Plainly(Advance), 0, NoPolicyInstalled)));
      && |s.hist| == 3 && |s.log| == 1 && s.log[0].revision == 1
      && s.hist[1].state.status == Failed && s.hist[1].state.wait.None?
      && s.hist[2].state.status == Running && s.hist[2].state.stage == Research && Understand in s.hist[2].state.artifacts
  {
    var c := Returned(Plainly(Advance), 0, NoPolicyInstalled);
    var s0 := Created(cfg, runId, posture);
    ExecFour(cfg, s0, Begin(0, 0), Attempt(0, Unannounced), Call(0), Settle(0, c));
    InvCreated(cfg, runId, posture);
    ChainSound(cfg, s0.hist, 0);
    var initial := s0.hist[0].state;
    FirstStageFails(cfg, initial, c);
    MissedSteps(cfg, s0, initial, c);
  }

  lemma {:induction false} MissedSteps(cfg: Config, s: Sys, initial: ProjectState, c: Cause)
    requires s == Sys([Commit(None, initial)], map[], []) && initial.revision == 0 && IsOutcome(c)
    requires var f := Next(cfg, initial, Unannounced); f.Some? && f.value.revision == 1 && Decodable(f.value)
    requires var n := Next(cfg, Next(cfg, initial, Unannounced).value, c); n.Some? && Decodable(n.value)
    ensures var f := Next(cfg, initial, Unannounced).value;
      var t := Step(cfg, Step(cfg, Step(cfg, Step(cfg, s, Begin(0, 0)), Attempt(0, Unannounced)), Call(0)), Settle(0, c));
      && t.hist == [Commit(None, initial), Commit(Some(Unannounced), f), Commit(Some(c), Next(cfg, f, c).value)]
      && |t.log| == 1 && t.log[0].revision == 1
  {
    hide Next, Decodable;
  }

  lemma {:induction false} FirstStageFails(cfg: Config, s: ProjectState, c: Cause)
    requires s.revision == 0 && Decodable(s) && CanVisit(s) && s.stage == Understand && s.wait.None?
    requires c == Returned(Plainly(Advance), 0, NoPolicyInstalled)
    ensures var f := Next(cfg, s, Unannounced);
      f.Some? && f.value.status == Failed && f.value.wait.None? && f.value.revision == 1 && Decodable(f.value)
    ensures var n := Next(cfg, Next(cfg, s, Unannounced).value, c);
      && n.Some? && n.value.status == Running && n.value.stage == Research && Understand in n.value.artifacts && n.value.revision == 2
      && Decodable(n.value)
  {
    var f := Next(cfg, s, Unannounced).value;
    DecodableStep(cfg, s, Unannounced);
    DecodableStep(cfg, f, c);
    hide SignalsOk, CountsSafe;
  }

  /**
   Whatever loops interleave on a run, a completed record lacks the output of a required stage exactly if a transition
   passed that stage and no later one made up for it; every output it has was returned by an execution of its stage.
   */
  lemma {:induction false} CompletionLacks(cfg: Config, runId: string, posture: Posture, actions: seq<Action>, k: nat, g: Stage)
    requires SafeConfig(cfg)
    ensures var h := Exec(cfg, Created(cfg, runId, posture), actions).hist;
      k < |h| && h[k].state.status == Completed && Required(g) ==>
        && (g !in h[k].state.artifacts <==> exists i :: PassedAt(h, k, g, i))
        && (g in h[k].state.artifacts ==> exists i :: AcceptedBy(h, k, g, i))
  {
    hide Next, PassedAt, AcceptedBy;
    var s := Exec(cfg, Created(cfg, runId, posture), actions);
    InvCreated(cfg, runId, posture);
    InvExec(cfg, Created(cfg, runId, posture), actions);
    if k < |s.hist| && s.hist[k].state.status == Completed && Required(g) {
      CompletedRunLacks(cfg, s.hist, k, g);
    }
  }

  // ---- nothing runs again until the parked effect is reconciled ----

  /** The run waits for news of `effectId`, or was failed, and no live loop can still act on an older announcement. */
  predicate Blocked(s: Sys, effectId: string) {
    && 0 < |s.hist|
    && (ParkedOn(Last(s), effectId) || Last(s).status == Failed)
    && (forall p :: p in s.procs ==> !s.procs[p].Announced?)
    && (forall p :: p in s.procs && s.procs[p].InFlight? ==> s.procs[p].cur.revision != |s.hist| - 1)
  }

  /** The one signal that speaks for the parked effect. */
  predicate Releases(a: Action, effectId: string) {
    a.Attempt? && a.cause.Reconcile? && a.cause.effectId == effectId && a.cause.resolved && a.cause.evidenceId != ""
  }

  /** Steps of run and resume calls, as opposed to holds placed from outside the loop. */
  predicate RunOrResume(a: Action) { a.Attempt? ==> !IsHold(a.cause) }

  /** From a parked or failed record, run and resume make no transition but a matching reconciliation. */
  lemma {:induction false} OnlyReconciliationLeaves(cfg: Config, s: ProjectState, effectId: string, c: Cause)
    requires ParkedOn(s, effectId) || s.status == Failed
    requires !IsHold(c) && !IsOutcome(c) && !c.CheckpointCeiling?
    ensures Next(cfg, s, c).Some? ==> c.Reconcile? && c.effectId == effectId && c.resolved && c.evidenceId != ""
  {
  }

  lemma {:induction false} BlockedAttempt(cfg: Config, s: Sys, effectId: string, p: nat, cause: Cause)
    requires Inv(cfg, s) && Blocked(s, effectId) && p in s.procs && s.procs[p].Looping?
    requires !IsHold(cause) && !IsOutcome(cause) && !cause.CheckpointCeiling? && !Releases(Attempt(p, cause), effectId)
    ensures Step(cfg, s, Attempt(p, cause)) == Drop(s, p)
  {
    hide Next;
    assert ProcOk(s, s.procs[p]);
    OnlyReconciliationLeaves(cfg, Last(s), effectId, cause);
  }

  lemma {:induction false} LateOutcomeDropped(cfg: Config, s: Sys, p: nat, cause: Cause)
    requires 0 < |s.hist| && p in s.procs && s.procs[p].InFlight? && s.procs[p].cur.revision != |s.hist| - 1
    ensures Swap(cfg, s, p, s.procs[p].cur, cause) == Drop(s, p)
  {
    hide Next;
  }

  lemma {:induction false} BlockedFailRun(cfg: Config, s: Sys, effectId: string, p: nat, revision: nat)
    requires Inv(cfg, s) && Blocked(s, effectId) && p in s.procs && s.procs[p].Oversized? && revision < |s.hist|
    ensures var t := Step(cfg, s, FailRun(p, revision)); Blocked(t, effectId) && t.log == s.log
  {
    hide Next;
    CeilingFails(cfg, s.hist[revision].state);
    var t := Step(cfg, s, FailRun(p, revision));
    forall q | q in t.procs && t.procs[q].InFlight? ensures t.procs[q].cur.revision != |t.hist| - 1 {
      assert ProcOk(s, s.procs[q]);
    }
  }

  lemma {:induction false} BlockedStep(cfg: Config, s: Sys, effectId: string, a: Action)
    requires Inv(cfg, s) && Blocked(s, effectId) && RunOrResume(a) && !Releases(a, effectId)
    ensures var t := Step(cfg, s, a); Blocked(t, effectId) && t.log == s.log
  {
    hide Swap, Legal, LogOk, OutcomesOk, ProcOk;
    match a {
      case Attempt(p, cause) =>
        if p in s.procs && s.procs[p].Looping? && !IsOutcome(cause) && !cause.CheckpointCeiling? {
          BlockedAttempt(cfg, s, effectId, p, cause);
        }
      case FailRun(p, revision) =>
        if p in s.procs && s.procs[p].Oversized? && revision < |s.hist| {
          BlockedFailRun(cfg, s, effectId, p, revision);
        }
      case Settle(p, cause) =>
        if p in s.procs && s.procs[p].InFlight? && IsOutcome(cause) {
          LateOutcomeDropped(cfg, s, p, cause);
        }
      case _ =>
    }
  }

  /**
   After process loss, no sequence of run and resume steps calls any executor until a resume carries the
   stored effect identity, resolved, with evidence.
   */
  lemma {:induction false} NoCallBeforeReconciliation(cfg: Config, s: Sys, effectId: string, actions: seq<Action>)
    requires Inv(cfg, s) && Blocked(s, effectId)
    requires forall a :: a in actions ==> RunOrResume(a) && !Releases(a, effectId)
    ensures Exec(cfg, s, actions).log == s.log
    decreases |actions|
  {
    hide Next;
    if actions != [] {
      assert actions[0] in actions;
      BlockedStep(cfg, s, effectId, actions[0]);
      InvStep(cfg, s, actions[0]);
      NoCallBeforeReconciliation(cfg, Step(cfg, s, actions[0]), effectId, actions[1..]);
    }
  }

  /** Losing every process while a stage is announced or in flight blocks the run on that effect. */
  lemma {:induction false} ProcessLossBlocks(cfg: Config, s: Sys, p: nat)
    requires Inv(cfg, s) && p in s.procs && Owns(s.procs[p]) && s.procs[p].cur.revision == |s.hist| - 1
    ensures var cur := s.procs[p].cur;
      Blocked(s.(procs := map[]), EffectId(cur.runId, cur.stage, cur.revision))
  {
    hide Next;
    assert ProcOk(s, s.procs[p]);
  }

  /** The matching reconciliation is enough: the next run then announces and calls the stage once more. */
  lemma {:induction false} ReconciliationReleases(cfg: Config, s: Sys, effectId: string, evidenceId: string, p: nat)
    requires Inv(cfg, s) && ParkedOn(Last(s), effectId) && p !in s.procs
    requires evidenceId != "" && ReconciliationSignal(effectId, evidenceId) !in Last(s).consumedSignals
    requires |Last(s).consumedSignals| < MAX_SIGNALS && Bytes(ReconciliationSignal(effectId, evidenceId)) <= MAX_SIGNAL_BYTES
    requires |s.hist| + 1 <= MAX_SAFE
    requires Last(s).stage != Done && Last(s).stepsRemaining > 0
    ensures |Exec(cfg, s, [Begin(p, |s.hist| - 1), Attempt(p, Reconcile(effectId, true, evidenceId)),
                           Attempt(p, Intent), Call(p)]).log| == |s.log| + 1
  {
    var parked := Last(s);
    ChainSound(cfg, s.hist, |s.hist| - 1);
    var c := Reconcile(effectId, true, evidenceId);
    var released := Next(cfg, parked, c).value;
    DecodableStep(cfg, parked, c);
    DecodableStep(cfg, released, Intent);
    var s1 := Step(cfg, s, Begin(p, |s.hist| - 1));
    var s2 := Step(cfg, s1, Attempt(p, c));
    var s3 := Step(cfg, s2, Attempt(p, Intent));
    ExecFour(cfg, s, Begin(p, |s.hist| - 1), Attempt(p, c), Attempt(p, Intent), Call(p));
    assert s2.procs[p] == Looping(released);
    assert s3.procs[p].Announced?;
  }

  /**
   The system leaves out nothing a process can do: at any moment a new process can load the newest record, store any
   transition that is open from it and can be stored, and end, and nothing else changes.
   */
  lemma {:induction false} AnyTransitionCanBeStored(cfg: Config, s: Sys, p: nat, c: Cause)
    requires Inv(cfg, s) && p !in s.procs && !IsOutcome(c) && !c.CheckpointCeiling?
    requires Next(cfg, Last(s), c).Some? && Storable(cfg, Last(s), c)
    ensures Exec(cfg, s, [Begin(p, |s.hist| - 1), Attempt(p, c), Stop(p)])
         == s.(hist := s.hist + [Commit(Some(c), Next(cfg, Last(s), c).value)])
  {
    hide Next, Storable, Decodable;
    var cur := Last(s);
    ChainSound(cfg, s.hist, |s.hist| - 1);
    DecodableStep(cfg, cur, c);
    var s1 := Step(cfg, s, Begin(p, |s.hist| - 1));
    assert s1.procs[p] == Looping(cur) && s1.procs - {p} == s.procs;
    var s2 := Step(cfg, s1, Attempt(p, c));
    assert s2.hist == s.hist + [Commit(Some(c), Next(cfg, cur, c).value)] && s2.procs - {p} == s.procs;
    ExecThree(cfg, s, Begin(p, |s.hist| - 1), Attempt(p, c), Stop(p));
  }

  /** A process whose next record is too large, in a loop or behind a call, fails the run from the newest record. */
  lemma {:induction false} OversizedRunFails(cfg: Config, s: Sys, p: nat)
    requires Inv(cfg, s) && p in s.procs && (s.procs[p].Looping? || s.procs[p].InFlight?) && |s.hist| <= MAX_SAFE
    ensures Exec(cfg, s, [Overflow(p), FailRun(p, |s.hist| - 1), Stop(p)])
         == Drop(s.(hist := s.hist + [Commit(Some(CheckpointCeiling), Last(s).(status := Failed, wait := None, revision := |s.hist|))]), p)
  {
    hide Next, Decodable, Storable, ProcOk, LogOk, OutcomesOk, OwnedOnce;
    var cur := Last(s);
    ChainSound(cfg, s.hist, |s.hist| - 1);
    CeilingIs(cfg, cur);
    DecodableStep(cfg, cur, CheckpointCeiling);
    var s1 := Step(cfg, s, Overflow(p));
    assert s1.procs[p] == Oversized && s1.procs - {p} == s.procs - {p};
    var s2 := Step(cfg, s1, FailRun(p, |s.hist| - 1));
    assert s2.procs - {p} == s.procs - {p};
    ExecThree(cfg, s, Overflow(p), FailRun(p, |s.hist| - 1), Stop(p));
  }

  lemma {:induction false} CeilingIs(cfg: Config, s: ProjectState)
    ensures Next(cfg, s, CheckpointCeiling) == Some(s.(status := Failed, wait := None, revision := s.revision + 1))
    ensures Storable(cfg, s, CheckpointCeiling) <==> s.revision < MAX_SAFE
  {
  }

  lemma {:induction false} ExecThree(cfg: Config, s: Sys, a: Action, b: Action, c: Action)
    requires 0 < |s.hist|
    ensures 0 < |Step(cfg, s, a).hist| && 0 < |Step(cfg, Step(cfg, s, a), b).hist|
    ensures Exec(cfg, s, [a, b, c]) == Step(cfg, Step(cfg, Step(cfg, s, a), b), c)
  {
    hide Step;
    StepKeepsHistory(cfg, s, a);
    StepKeepsHistory(cfg, Step(cfg, s, a), b);
    StepKeepsHistory(cfg, Step(cfg, Step(cfg, s, a), b), c);
    var s1, s2 := Step(cfg, s, a), Step(cfg, Step(cfg, s, a), b);
    assert [c][1..] == [];
    assert Exec(cfg, s2, [c]) == Exec(cfg, Step(cfg, s2, c), []);
    assert [b, c][1..] == [c];
    assert Exec(cfg, s1, [b, c]) == Exec(cfg, s2, [c]);
    assert [a, b, c][1..] == [b, c];
  }

  lemma {:induction false} ExecFour(cfg: Config, s: Sys, a: Action, b: Action, c: Action, d: Action)
    requires 0 < |s.hist|
    ensures 0 < |Step(cfg, s, a).hist| && 0 < |Step(cfg, Step(cfg, s, a), b).hist|
    ensures 0 < |Step(cfg, Step(cfg, Step(cfg, s, a), b), c).hist|
    ensures Exec(cfg, s, [a, b, c, d]) == Step(cfg, Step(cfg, Step(cfg, Step(cfg, s, a), b), c), d)
  {
    hide Step;
    StepKeepsHistory(cfg, s, a);
    StepKeepsHistory(cfg, Step(cfg, s, a), b);
    StepKeepsHistory(cfg, Step(cfg, Step(cfg, s, a), b), c);
    StepKeepsHistory(cfg, Step(cfg, Step(cfg, Step(cfg, s, a), b), c), d);
    var s1, s2, s3 := Step(cfg, s, a), Step(cfg, Step(cfg, s, a), b), Step(cfg, Step(cfg, Step(cfg, s, a), b), c);
    assert [d][1..] == [];
    assert Exec(cfg, s3, [d]) == Exec(cfg, Step(cfg, s3, d), []);
    assert [c, d][1..] == [d];
    assert Exec(cfg, s2, [c, d]) == Exec(cfg, s3, [d]);
    assert [b, c, d][1..] == [c, d];
    assert Exec(cfg, s1, [b, c, d]) == Exec(cfg, s2, [c, d]);
    assert [a, b, c, d][1..] == [b, c, d];
  }
}
