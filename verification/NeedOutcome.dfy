/**
 What solve outcomes come to: the tallies are what the journal says, and a task shape that failed before gives rise to an
 evaluation-data proposal.
 */
module NeedOutcomes {
  import opened Prelude
  import opened NeedProposals
  import opened NeedPlans
  import opened NeedReplays
  import opened NeedRuns

  /** An event that records an outcome of this scope and shape. */
  predicate IsOutcomeOf(e: Event, key: string) { e.Observed? && Pair(e.scope, e.shape) == key }

  /** How many recorded solves of a scope and shape there are, and how many of them failed. */
  function SolvesIn(journal: seq<Event>, key: string): nat {
    if journal == [] then 0
    else SolvesIn(journal[..|journal| - 1], key) + if IsOutcomeOf(journal[|journal| - 1], key) then 1 else 0
  }

  function FailuresIn(journal: seq<Event>, key: string): nat {
    if journal == [] then 0
    else
      var e := journal[|journal| - 1];
      FailuresIn(journal[..|journal| - 1], key) + if IsOutcomeOf(e, key) && !e.passed then 1 else 0
  }

  /** The table holds exactly the recorded solves and failures. */
  ghost predicate TalliesMatch(tallies: map<string, Tally>, journal: seq<Event>) {
    forall key ::
      && (key in tallies <==> SolvesIn(journal, key) > 0)
      && (key in tallies ==> tallies[key] == Tally(FailuresIn(journal, key), SolvesIn(journal, key)))
  }

  lemma {:induction false} CountsMore(journal: seq<Event>, e: Event, key: string)
    ensures SolvesIn(journal + [e], key) == SolvesIn(journal, key) + if IsOutcomeOf(e, key) then 1 else 0
    ensures FailuresIn(journal + [e], key) == FailuresIn(journal, key) + if IsOutcomeOf(e, key) && !e.passed then 1 else 0
  {
    assert (journal + [e])[..|journal + [e]| - 1] == journal;
  }

  lemma {:induction false} FailuresAreSolves(journal: seq<Event>, key: string)
    ensures FailuresIn(journal, key) <= SolvesIn(journal, key)
  {
    if journal != [] {
      FailuresAreSolves(journal[..|journal| - 1], key);
    }
  }

  /** One more event changes the tally of its own key only, and by its own outcome. */
  lemma {:induction false} TalliesMore(c: Platform, l: Limits, s: Scheduler, op: Op, journal: seq<Event>)
    requires Sound(c) && Keyed(s.queues.deferred) && Accepted(c, s, op) && TalliesMatch(s.tallies, journal)
    ensures TalliesMatch(After(c, l, s, op).tallies, journal + [Decide(c, l, s, op)])
  {
    hide Pair, ValidText, MakePlan, Promoted, Proposed, ApplyDelta, Ids;
    StepCounts(c, l, s, op);
    var r, e := After(c, l, s, op), Decide(c, l, s, op);
    assert op.Outcome? <==> e.Observed?;
    hide After, Decide, Accepted;
    forall key
      ensures key in r.tallies <==> SolvesIn(journal + [e], key) > 0
      ensures key in r.tallies ==> r.tallies[key] == Tally(FailuresIn(journal + [e], key), SolvesIn(journal + [e], key))
    {
      CountsMore(journal, e, key);
      FailuresAreSolves(journal, key);
    }
  }

  /** In any reachable state, each tally counts exactly the recorded outcomes of its scope and shape, and their failures. */
  lemma {:induction false} TalliesAreTheJournal(c: Platform, l: Limits, ops: seq<Op>)
    requires Sound(c) && forall op :: op in ops ==> OpOk(c, op)
    ensures var (s, journal) := Exec(c, l, ops); TalliesMatch(s.tallies, journal)
  {
    hide OpOk, Formed, Count, After, Decide, Accepted, TalliesMatch;
    if ops == [] {
      NothingTallied();
    } else {
      var op := ops[|ops| - 1];
      TalliesAreTheJournal(c, l, ops[..|ops| - 1]);
      var (s, journal) := Exec(c, l, ops[..|ops| - 1]);
      if Accepted(c, s, op) {
        TalliesMore(c, l, s, op, journal);
      }
    }
  }

  lemma {:induction false} NothingTallied()
    ensures TalliesMatch(map[], [])
  {
  }

  // ---- which outcomes count ----

  /** A trimmed, well-formed text of one to `max` characters, none of them a control character. */
  predicate Fit(c: Platform, s: string, max: nat) {
    s != "" && |s| <= max && c.tidy(s) && forall i :: 0 <= i < |s| ==> s[i] as int >= 32 && s[i] as int != 127
  }

  lemma {:induction false} FitIsValid(c: Platform, s: string, max: nat)
    ensures ValidText(c, s, max) <==> Fit(c, s, max)
  {
  }

  /** The journal records an outcome of this scope and solve. */
  predicate Solved(journal: seq<Event>, scope: string, solveId: string) {
    exists i :: 0 <= i < |journal| && journal[i].Observed? && journal[i].scope == scope && journal[i].solveId == solveId
  }

  /** The solves of a journal have texts that leave no doubt where a scope ends. */
  ghost predicate Clean(journal: seq<Event>) {
    forall i :: 0 <= i < |journal| && journal[i].Observed? ==> '\0' !in journal[i].scope && '\0' !in journal[i].solveId
  }

  /** The set holds exactly the recorded solves. */
  ghost predicate ObservedMatch(observed: set<string>, journal: seq<Event>) {
    Clean(journal) && forall scope, id :: '\0' !in scope && '\0' !in id ==> (Pair(scope, id) in observed <==> Solved(journal, scope, id))
  }

  /** Two names under one key are the same two names. */
  lemma {:induction false} PairNamesBoth(a: string, x: string, b: string, y: string)
    requires '\0' !in a && '\0' !in b && Pair(a, x) == Pair(b, y)
    ensures a == b && x == y
  {
    var s := Pair(a, x);
    assert forall i :: 0 <= i < |a| ==> s[i] == a[i] && a[i] in a;
    assert forall i :: 0 <= i < |b| ==> s[i] == Pair(b, y)[i] == b[i] && b[i] in b;
    assert s[|a|] == '\0' && s[|b|] == Pair(b, y)[|b|] == '\0';
    assert |a| == |b|;
    assert a == s[..|a|] && b == Pair(b, y)[..|b|] && x == s[|a| + 1..] && y == Pair(b, y)[|b| + 1..];
  }

  lemma {:induction false} ScopeHasNoBreak(c: Platform, t: Option<string>)
    requires ValidTenant(c, t)
    ensures '\0' !in ScopeName(t)
  {
    if t.Some? {
      assert ScopeName(t) == "tenant:" + t.value;
    }
  }

  lemma {:induction false} SolvedMore(journal: seq<Event>, e: Event, scope: string, id: string)
    ensures Solved(journal + [e], scope, id) <==> Solved(journal, scope, id) || (e.Observed? && e.scope == scope && e.solveId == id)
  {
    var all := journal + [e];
    assert all[|journal|] == e;
    if Solved(journal, scope, id) {
      var i :| 0 <= i < |journal| && journal[i].Observed? && journal[i].scope == scope && journal[i].solveId == id;
      assert all[i] == journal[i];
    }
  }

  lemma {:induction false} SolveAdds(observed: set<string>, journal: seq<Event>, e: Event)
    requires ObservedMatch(observed, journal) && e.Observed? && '\0' !in e.scope && '\0' !in e.solveId
    ensures ObservedMatch(observed + {Pair(e.scope, e.solveId)}, journal + [e])
  {
    hide Solved, Pair;
    var more := observed + {Pair(e.scope, e.solveId)};
    forall scope, id | '\0' !in scope && '\0' !in id
      ensures Pair(scope, id) in more <==> Solved(journal + [e], scope, id)
    {
      SolvedMore(journal, e, scope, id);
      if Pair(scope, id) == Pair(e.scope, e.solveId) {
        PairNamesBoth(scope, id, e.scope, e.solveId);
      }
    }
  }

  lemma {:induction false} OthersAddNone(observed: set<string>, journal: seq<Event>, e: Event)
    requires ObservedMatch(observed, journal) && !e.Observed?
    ensures ObservedMatch(observed, journal + [e])
  {
    hide Solved, Pair;
    forall scope, id ensures Solved(journal + [e], scope, id) <==> Solved(journal, scope, id) {
      SolvedMore(journal, e, scope, id);
    }
  }

  lemma {:induction false} ObservedMore(c: Platform, l: Limits, s: Scheduler, op: Op, journal: seq<Event>)
    requires Sound(c) && Keyed(s.queues.deferred) && OpOk(c, op) && Accepted(c, s, op) && ObservedMatch(s.observed, journal)
    ensures ObservedMatch(After(c, l, s, op).observed, journal + [Decide(c, l, s, op)])
  {
    hide Pair, MakePlan, Promoted, Proposed, ApplyDelta, Ids, ObservedMatch, ScopeName, Admissible, Sound;
    var e := Decide(c, l, s, op);
    if op.Outcome? {
      ScopeHasNoBreak(c, op.tenant);
      SolveAdds(s.observed, journal, e);
    } else {
      OthersAddNone(s.observed, journal, e);
    }
  }

  /** In any reachable state, what counts as observed is exactly what the journal records. */
  lemma {:induction false} ObservedAreTheJournal(c: Platform, l: Limits, ops: seq<Op>)
    requires Sound(c) && forall op :: op in ops ==> OpOk(c, op)
    ensures var (s, journal) := Exec(c, l, ops); ObservedMatch(s.observed, journal)
  {
    hide OpOk, Formed, Count, After, Decide, Accepted, ObservedMatch;
    if ops == [] {
      NothingObserved();
    } else {
      var op := ops[|ops| - 1];
      ObservedAreTheJournal(c, l, ops[..|ops| - 1]);
      var (s, journal) := Exec(c, l, ops[..|ops| - 1]);
      if Accepted(c, s, op) {
        ObservedMore(c, l, s, op, journal);
      }
    }
  }

  lemma {:induction false} NothingObserved()
    ensures ObservedMatch({}, [])
  {
  }

  /** In any reachable state, an outcome counts exactly if its texts are valid and its solve is not recorded for its scope. */
  lemma {:induction false} OutcomesCountWhenNew(c: Platform, l: Limits, ops: seq<Op>, t: Option<string>, solveId: string, shape: string, passed: bool)
    requires Sound(c) && (forall op :: op in ops ==> OpOk(c, op)) && ValidTenant(c, t)
    ensures var (s, journal) := Exec(c, l, ops);
      Accepted(c, s, Outcome(t, solveId, shape, passed)) <==>
        Fit(c, solveId, 512) && Fit(c, shape, 512) && !Solved(journal, ScopeName(t), solveId)
  {
    hide OpOk, Formed, Count, Exec, Pair, Solved, ScopeName;
    ObservedAreTheJournal(c, l, ops);
    ScopeHasNoBreak(c, t);
    FitIsValid(c, solveId, 512);
    FitIsValid(c, shape, 512);
  }

  /** An acknowledgement counts exactly if its identity is a valid text and pending in the caller's own scope. */
  lemma {:induction false} OwnPendingIsAcknowledged(c: Platform, s: Scheduler, t: Option<string>, id: string)
    ensures Accepted(c, s, Acknowledge(t, id)) <==>
      Fit(c, id, 4096) && id in s.queues.pending && s.queues.pending[id].scopeId == t
  {
    FitIsValid(c, id, 4096);
    hide Fit, ValidText;
    if id in s.queues.pending {
      ScopeNamesTenant(s.queues.pending[id].scopeId, t);
    }
  }

  lemma {:induction false} ScopeNamesTenant(a: Option<string>, b: Option<string>)
    ensures ScopeName(a) == ScopeName(b) <==> a == b
  {
    assert a.Some? ==> ScopeName(a)[0] == 't' && ScopeName(a)[7..] == a.value;
    assert b.Some? ==> ScopeName(b)[0] == 't' && ScopeName(b)[7..] == b.value;
  }

  // ---- what a restart reads ----

  /** A scope is read from the journal exactly if it is that of no tenant or of a valid one. */
  lemma {:induction false} ScopeKeysAreScopes(c: Platform, scope: string)
    ensures ValidScopeKey(c, scope) <==> scope == "n1" || exists t :: Fit(c, t, 256) && scope == "tenant:" + t
  {
    hide Fit, ValidText;
    if |scope| >= 7 {
      FitIsValid(c, scope[7..], 256);
      assert scope == scope[..7] + scope[7..];
    }
    forall t | Fit(c, t, 256) && scope == "tenant:" + t ensures ValidScopeKey(c, scope) {
      FitIsValid(c, t, 256);
      assert scope[7..] == t && scope[..7] == "tenant:";
    }
  }

  /** Of a list, canonical proposals and valid identities are read, and nothing at all if it is too long. */
  lemma {:induction false} ListsAreRead(c: Platform, s: seq<Proposal>, ids: set<string>)
    ensures forall p :: p in DecodeProposals(c, s) <==> |s| <= 10_000 && p in s && Formed(c, p) && Journalable(c, p)
    ensures forall id :: id in DecodeIds(c, ids) <==> |ids| <= 50_000 && id in ids && Fit(c, id, 4096)
  {
    hide Fit, ValidText, Formed, Journalable, Canonical, Readable;
    forall p ensures p in DecodeProposals(c, s) <==> |s| <= 10_000 && p in s && Formed(c, p) && Journalable(c, p) {
      ReadableMembers(c, s);
      CanonicalIs(c, p);
    }
    forall id ensures ValidText(c, id, 4096) <==> Fit(c, id, 4096) {
      FitIsValid(c, id, 4096);
    }
  }

  lemma {:induction false} CanonicalIs(c: Platform, p: Proposal)
    ensures Canonical(c, p) <==> Formed(c, p) && Journalable(c, p)
  {
    hide Fit, ValidText, Formed;
    FitIsValid(c, p.id, 4096);
    FitIsValid(c, p.signalId, 1024);
    FitIsValid(c, p.subject, 512);
    FitIsValid(c, p.goal, 4096);
    FitIsValid(c, p.reason, 4096);
    if p.scopeId.Some? {
      FitIsValid(c, p.scopeId.value, 256);
    }
  }

  /** A tenant is one exactly if its name is a text of at most 256 characters. */
  lemma {:induction false} TenantMeans(c: Platform, t: Option<string>)
    ensures ValidTenant(c, t) <==> t.None? || Fit(c, t.value, 256)
  {
    if t.Some? {
      FitIsValid(c, t.value, 256);
    }
  }

  // ---- the proposal that failures give rise to ----

  /** The identity of an evaluation-data proposal. */
  function EvidenceId(c: Platform, tenant: Option<string>, shape: string): string {
    match tenant
    case None => "evaluation-data:" + c.encode(shape)
    case Some(t) => "scope:" + c.encode(t) + ":evaluation-data:" + c.encode(shape)
  }

  /** The proposal for a shape of which `n` solves failed, the last of them `solveId`. */
  function EvidenceFor(c: Platform, tenant: Option<string>, solveId: string, shape: string, n: nat): Proposal {
    var scope := match tenant case None => "n1" case Some(t) => "tenant:" + t;
    Proposal(EvidenceId(c, tenant, shape), "outcomes:" + scope + ":" + solveId, EvaluationData, shape, tenant,
             "retain regression evidence and improve measured outcomes for " + shape,
             Decimal(n) + " distinct execution-grounded solve failures should become regression evidence", 60, false)
  }

  /** Every text of a proposal is valid and short enough to be journaled. */
  predicate Journalable(c: Platform, p: Proposal) {
    && Fit(c, p.id, 4096) && Fit(c, p.signalId, 1024) && Fit(c, p.subject, 512)
    && Fit(c, p.goal, 4096) && Fit(c, p.reason, 4096) && (p.scopeId.Some? ==> Fit(c, p.scopeId.value, 256))
  }

  lemma {:induction false} EvidenceIdIs(c: Platform, tenant: Option<string>, shape: string)
    ensures ProposalId(c, tenant, EvaluationData, shape) == EvidenceId(c, tenant, shape)
  {
    if tenant.Some? {
      var t := "scope:" + c.encode(tenant.value);
      assert t + ":" + "evaluation-data" + ":" + c.encode(shape) == t + ":evaluation-data:" + c.encode(shape);
    } else {
      assert "evaluation-data" + ":" == "evaluation-data:";
    }
  }

  lemma {:induction false} EvidenceIs(c: Platform, tenant: Option<string>, solveId: string, shape: string, n: nat)
    ensures var p := EvidenceFor(c, tenant, solveId, shape, n);
      Evidence(c, tenant, solveId, shape, n) == if Journalable(c, p) then Some(p) else None
  {
    EvidenceIdIs(c, tenant, shape);
    hide ProposalId, EvidenceId, ValidText, Fit, Decimal;
    var p := EvidenceFor(c, tenant, solveId, shape, n);
    FitIsValid(c, p.id, 4096);
    FitIsValid(c, p.signalId, 1024);
    FitIsValid(c, p.subject, 512);
    FitIsValid(c, p.goal, 4096);
    FitIsValid(c, p.reason, 4096);
    if tenant.Some? {
      FitIsValid(c, tenant.value, 256);
    }
  }

  /** Before an outcome is recorded, its key's tally says how often the shape has failed. */
  lemma {:induction false} ProposedIs(c: Platform, s: Scheduler, journal: seq<Event>, t: Option<string>, solveId: string, shape: string, passed: bool)
    requires TalliesMatch(s.tallies, journal)
    ensures var n := FailuresIn(journal, Pair(ScopeName(t), shape));
      var p := EvidenceFor(c, t, solveId, shape, n + 1);
      Proposed(c, s, t, solveId, shape, passed) == if !passed && n >= 1 && Journalable(c, p) then Some(p) else None
  {
    hide Pair, ScopeName, Evidence, EvidenceFor, Journalable, SolvesIn, FailuresIn;
    var key := Pair(ScopeName(t), shape);
    var n := FailuresIn(journal, key);
    FailuresAreSolves(journal, key);
    EvidenceIs(c, t, solveId, shape, n + 1);
  }

  /** Where a planned proposal can be after the plan. */
  ghost predicate Placed(q: Queues, plan: Plan, p: Proposal) {
    p.id in q.pending || p in plan.scheduled || p in plan.deferred || p in plan.evicted
  }

  lemma {:induction false} OnlyIncomingPlaced(c: Platform, l: Limits, q: Queues, scope: string, p: Proposal)
    requires Sound(c) && QueuesOk(c, l, q) && Admissible(c, scope, [p])
    ensures Placed(q, MakePlan(c, l, q, scope, [p], q.cycle + 1), p)
  {
    hide MakePlan, Formed, Count, Restrict, Sound;
    PlanConserves(c, l, q, scope, [p], q.cycle + 1);
    assert [p][..0] == [];
    assert ById([p]) == map[p.id := p];
  }

  /** If `due`, the outcome plans one cycle with exactly the proposal; otherwise it leaves cycle and queues alone. */
  ghost predicate Plans(c: Platform, l: Limits, s: Scheduler, op: Op, p: Proposal, due: bool)
    requires Sound(c) && Keyed(s.queues.deferred) && Accepted(c, s, op) && op.Outcome?
  {
    var q, scope := s.queues, ScopeName(op.tenant);
    var e, r := Decide(c, l, s, op), After(c, l, s, op).queues;
    && e == Observed(op.solveId, scope, op.shape, op.passed,
                     if due then PlanDelta(c, l, q, scope, [p]) else Delta(q.cycle, [], [], {}))
    && (due ==> r.cycle == q.cycle + 1 && r == ApplyDelta(l, q, e.delta) && Placed(q, MakePlan(c, l, q, scope, [p], q.cycle + 1), p))
    && (!due ==> r == q)
  }

  /** What an accepted outcome records and does, by the proposal it gives rise to. */
  lemma {:induction false} OutcomeRecords(c: Platform, l: Limits, s: Scheduler, op: Op)
    requires Sound(c) && Keyed(s.queues.deferred) && Accepted(c, s, op) && op.Outcome?
    ensures var e := Decide(c, l, s, op);
      var p := Proposed(c, s, op.tenant, op.solveId, op.shape, op.passed);
      && e == Observed(op.solveId, ScopeName(op.tenant), op.shape, op.passed,
                       if p.None? then Delta(s.queues.cycle, [], [], {}) else PlanDelta(c, l, s.queues, ScopeName(op.tenant), [p.value]))
      && After(c, l, s, op).queues == ApplyDelta(l, s.queues, e.delta)
  {
    hide Proposed, ApplyDelta, PlanDelta, Promoted, Pair, ScopeName, ValidText, Sound, Tallied, Ids;
  }

  lemma {:induction false} PlansProposed(c: Platform, l: Limits, s: Scheduler, op: Op, p: Proposal, due: bool)
    requires Sound(c) && QueuesOk(c, l, s.queues) && OpOk(c, op) && Accepted(c, s, op) && op.Outcome?
    requires Proposed(c, s, op.tenant, op.solveId, op.shape, op.passed) == if due then Some(p) else None
    ensures Plans(c, l, s, op, p, due)
  {
    hide Proposed, ApplyDelta, PlanDelta, Decide, After, Accepted, MakePlan, ScopeName, Sound, Placed, Admissible, Formed, Canonical, Count;
    OutcomeRecords(c, l, s, op);
    EvidenceFits(c, s, op.tenant, op.solveId, op.shape, op.passed);
    NothingApplied(l, s.queues);
    if due {
      OnlyIncomingPlaced(c, l, s.queues, ScopeName(op.tenant), p);
      CycleMoves(c, l, s.queues, ScopeName(op.tenant), [p]);
    }
  }

  lemma {:induction false} CycleMoves(c: Platform, l: Limits, q: Queues, scope: string, incoming: seq<Proposal>)
    requires Sound(c) && QueuesOk(c, l, q) && Admissible(c, scope, incoming)
    ensures ApplyDelta(l, q, PlanDelta(c, l, q, scope, incoming)).cycle == q.cycle + 1
  {
    hide ApplyDelta, MakePlan, QueuesOk, Sound, Admissible, OthersUntouched, DeferredOk;
    PlanSucceeds(c, l, q, scope, incoming);
  }

  /**
   In any reachable state, a failing outcome whose scope and shape have failed before plans one cycle with exactly the
   evaluation-data proposal of that shape, if its texts can be journaled; every other outcome leaves cycle and queues alone.
   */
  lemma {:induction false} OutcomePlans(c: Platform, l: Limits, ops: seq<Op>, op: Op)
    requires Sound(c) && (forall o :: o in ops ==> OpOk(c, o)) && OpOk(c, op) && op.Outcome?
    requires Accepted(c, Exec(c, l, ops).0, op)
    ensures var (s, journal) := Exec(c, l, ops);
      var n := FailuresIn(journal, Pair(ScopeName(op.tenant), op.shape));
      var p := EvidenceFor(c, op.tenant, op.solveId, op.shape, n + 1);
      Plans(c, l, s, op, p, !op.passed && n >= 1 && Journalable(c, p))
  {
    hide Plans, Accepted, OpOk, TalliesMatch, Formed, Count, EvidenceFor, Journalable, Pair, FailuresIn, Proposed;
    var (s, journal) := Exec(c, l, ops);
    TalliesAreTheJournal(c, l, ops);
    ProposedIs(c, s, journal, op.tenant, op.solveId, op.shape, op.passed);
    var n := FailuresIn(journal, Pair(ScopeName(op.tenant), op.shape));
    var p := EvidenceFor(c, op.tenant, op.solveId, op.shape, n + 1);
    PlansProposed(c, l, s, op, p, !op.passed && n >= 1 && Journalable(c, p));
  }
}
