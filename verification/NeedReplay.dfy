/**
 The need scheduler as a journaled state machine: what each operation records, what it does to the state, and what
 a restart makes of the journal.
 */
module NeedReplays {
  import opened Prelude
  import opened NeedProposals
  import opened NeedPlans

  // ---- state, journal and operations ----

  datatype Tally = Tally(failures: nat, total: nat)

  datatype Scheduler = Scheduler(queues: Queues, observed: set<string>, tallies: map<string, Tally>)

  const EMPTY: Scheduler := Scheduler(Queues(0, map[], map[], map[]), {}, map[])

  /** What a queue change records. */
  datatype Delta = Delta(cycle: nat, scheduled: seq<Proposal>, added: seq<Proposal>, removed: set<string>)

  datatype Event =
    | Scheduled(delta: Delta)
    | Observed(solveId: string, scope: string, shape: string, passed: bool, delta: Delta)
    | Acknowledged(id: string, scope: string, delta: Delta)

  /** A scope is the single-user one or a tenant's. */
  datatype Op =
    | Schedule(tenant: Option<string>, incoming: seq<Proposal>)
    | Outcome(tenant: Option<string>, solveId: string, shape: string, passed: bool)
    | Acknowledge(tenant: Option<string>, id: string)

  function Pair(scope: string, name: string): string { scope + "\0" + name }

  predicate ValidTenant(c: Platform, t: Option<string>) { t.Some? ==> ValidText(c, t.value, 256) }

  predicate ValidScopeKey(c: Platform, scope: string) {
    scope == N1 || (|scope| >= 7 && scope[..7] == "tenant:" && ValidText(c, scope[7..], 256))
  }

  lemma {:induction false} ScopeKeyOfTenant(c: Platform, t: Option<string>)
    requires ValidTenant(c, t)
    ensures ValidScopeKey(c, ScopeName(t))
  {
    if t.Some? {
      assert ScopeName(t)[..7] == "tenant:" && ScopeName(t)[7..] == t.value;
    }
  }

  // ---- the live steps ----

  function ApplyDelta(l: Limits, q: Queues, d: Delta): Queues {
    Apply(l, q, d.cycle, d.scheduled, d.added, d.removed)
  }

  function Released(q: Queues, id: string): Queues {
    q.(pending := q.pending - {id}, deferred := q.deferred - {id})
  }

  function Counted(s: Scheduler, scope: string, solveId: string, shape: string, passed: bool): Scheduler {
    s.(observed := s.observed + {Pair(scope, solveId)},
       tallies := s.tallies[Pair(scope, shape) := Tallied(s.tallies, Pair(scope, shape), passed)])
  }

  function Tallied(tallies: map<string, Tally>, key: string, passed: bool): Tally {
    var t := if key in tallies then tallies[key] else Tally(0, 0);
    Tally(t.failures + if passed then 0 else 1, t.total + 1)
  }

  /** What an event does to the state. */
  function Perform(l: Limits, s: Scheduler, e: Event): Scheduler {
    match e
    case Scheduled(d) => s.(queues := ApplyDelta(l, s.queues, d))
    case Observed(solveId, scope, shape, passed, d) =>
      Counted(s, scope, solveId, shape, passed).(queues := ApplyDelta(l, s.queues, d))
    case Acknowledged(id, _, d) => s.(queues := ApplyDelta(l, Released(s.queues, id), d))
  }

  /** The evaluation-data proposal that a repeatedly failing task shape gives rise to, when it can be journaled. */
  function Evidence(c: Platform, tenant: Option<string>, solveId: string, shape: string, failures: nat): Option<Proposal> {
    var p := Proposal(ProposalId(c, tenant, EvaluationData, shape), "outcomes:" + ScopeName(tenant) + ":" + solveId,
                      EvaluationData, shape, tenant,
                      "retain regression evidence and improve measured outcomes for " + shape,
                      Decimal(failures) + " distinct execution-grounded solve failures should become regression evidence",
                      Priority(EvaluationData), false);
    if Canonical(c, p) then Some(p) else None
  }

  function Proposed(c: Platform, s: Scheduler, tenant: Option<string>, solveId: string, shape: string, passed: bool): Option<Proposal> {
    var next := Tallied(s.tallies, Pair(ScopeName(tenant), shape), passed);
    if !passed && next.failures >= 2 then Evidence(c, tenant, solveId, shape, next.failures) else None
  }

  ghost function PlanDelta(c: Platform, l: Limits, q: Queues, scope: string, incoming: seq<Proposal>): Delta
    requires Sound(c) && Keyed(q.deferred)
  {
    var plan := MakePlan(c, l, q, scope, incoming, q.cycle + 1);
    Delta(q.cycle + 1, plan.scheduled, plan.added, plan.removed)
  }

  /** The first of a backlog that is not cooling down, if any. */
  function FirstDue(l: Limits, last: map<string, nat>, backlog: seq<Proposal>, cycle: nat): (due: seq<Proposal>)
    ensures |due| <= 1
  {
    if backlog == [] then []
    else if !Cooling(l, last, backlog[0].id, cycle) then [backlog[0]]
    else FirstDue(l, last, backlog[1..], cycle)
  }

  ghost function Promoted(c: Platform, l: Limits, q: Queues, scope: string): seq<Proposal>
    requires Sound(c) && Keyed(q.deferred)
  {
    FirstDue(l, q.last, Listing(c, Restrict(q.deferred, scope)), q.cycle + 1)
  }

  /** Whether an operation is recorded at all: repeated outcomes and foreign or unknown acknowledgements are not. */
  predicate Accepted(c: Platform, s: Scheduler, op: Op) {
    match op
    case Schedule(_, _) => true
    case Outcome(t, solveId, shape, _) =>
      ValidText(c, solveId, 512) && ValidText(c, shape, 512) && Pair(ScopeName(t), solveId) !in s.observed
    case Acknowledge(t, id) =>
      ValidText(c, id, 4096) && id in s.queues.pending && ScopeOf(s.queues.pending[id]) == ScopeName(t)
  }

  /** The one event an accepted operation records before it changes anything. */
  ghost function Decide(c: Platform, l: Limits, s: Scheduler, op: Op): Event
    requires Sound(c) && Keyed(s.queues.deferred) && Accepted(c, s, op)
  {
    var q := s.queues;
    match op
    case Schedule(t, incoming) => Scheduled(PlanDelta(c, l, q, ScopeName(t), incoming))
    case Outcome(t, solveId, shape, passed) =>
      var p := Proposed(c, s, t, solveId, shape, passed);
      Observed(solveId, ScopeName(t), shape, passed,
               if p.None? then Delta(q.cycle, [], [], {}) else PlanDelta(c, l, q, ScopeName(t), [p.value]))
    case Acknowledge(t, id) =>
      var promoted := Promoted(c, l, q, ScopeName(t));
      Acknowledged(id, ScopeName(t), Delta(q.cycle + 1, promoted, [], Ids(promoted)))
  }

  ghost function After(c: Platform, l: Limits, s: Scheduler, op: Op): Scheduler
    requires Sound(c) && Keyed(s.queues.deferred)
  {
    if Accepted(c, s, op) then Perform(l, s, Decide(c, l, s, op)) else s
  }

  /** What the interface guarantees: a valid tenant, and proposals the recognizer built for that scope. */
  ghost predicate OpOk(c: Platform, op: Op) {
    ValidTenant(c, op.tenant) && (op.Schedule? ==> Admissible(c, ScopeName(op.tenant), op.incoming))
  }

  // ---- replay ----

  const MAX_LISTED: nat := 10_000

  function Readable(c: Platform, s: seq<Proposal>): seq<Proposal> {
    if s == [] then []
    else Readable(c, s[..|s| - 1]) + if Canonical(c, s[|s| - 1]) then [s[|s| - 1]] else []
  }

  function DecodeProposals(c: Platform, s: seq<Proposal>): seq<Proposal> {
    if |s| > MAX_LISTED then [] else Readable(c, s)
  }

  function DecodeIds(c: Platform, ids: set<string>): set<string> {
    if |ids| > MAX_LISTED * 5 then {} else set id | id in ids && ValidText(c, id, 4096)
  }

  function DecodeDelta(c: Platform, d: Delta): Delta {
    Delta(d.cycle, DecodeProposals(c, d.scheduled), DecodeProposals(c, d.added), DecodeIds(c, d.removed))
  }

  /** Whether a restart takes an event up; the same guards as the live object applies, on what was journaled. */
  predicate Effective(c: Platform, s: Scheduler, e: Event) {
    && e.delta.cycle <= MAX_SAFE
    && match e
       case Scheduled(_) => true
       case Observed(solveId, scope, shape, _, _) =>
         ValidText(c, solveId, 512) && ValidScopeKey(c, scope) && ValidText(c, shape, 512) && Pair(scope, solveId) !in s.observed
       case Acknowledged(id, scope, _) =>
         ValidText(c, id, 4096) && ValidScopeKey(c, scope) && id in s.queues.pending && ScopeOf(s.queues.pending[id]) == scope
  }

  function ReplayStep(c: Platform, l: Limits, s: Scheduler, e: Event): Scheduler {
    if Effective(c, s, e) then Perform(l, s, e.(delta := DecodeDelta(c, e.delta))) else s
  }

  function Replay(c: Platform, l: Limits, journal: seq<Event>): Scheduler {
    if journal == [] then EMPTY
    else ReplayStep(c, l, Replay(c, l, journal[..|journal| - 1]), journal[|journal| - 1])
  }

  /** What survives the journal's limits: canonical proposals, in lists of at most ten thousand. */
  ghost predicate Listable(c: Platform, s: seq<Proposal>) {
    s == [] || (|s| <= MAX_LISTED && forall p :: p in s ==> Canonical(c, p))
  }

  /** An event that a restart reads back in full, up to removals that its own schedule implies. */
  ghost predicate Recordable(c: Platform, d: Delta) {
    && d.cycle <= MAX_SAFE && Listable(c, d.scheduled) && Listable(c, d.added)
    && d.removed - Ids(d.scheduled) <= DecodeIds(c, d.removed)
  }

  lemma {:induction false} ReadableLast(c: Platform, s: seq<Proposal>)
    ensures Readable(c, []) == []
    ensures s != [] ==> Readable(c, s) == Readable(c, s[..|s| - 1]) + if Canonical(c, s[|s| - 1]) then [s[|s| - 1]] else []
  {
  }

  lemma {:induction false} ReadableMembers(c: Platform, s: seq<Proposal>)
    ensures forall p :: p in Readable(c, s) <==> p in s && Canonical(c, p)
    ensures (forall p :: p in s ==> Canonical(c, p)) ==> Readable(c, s) == s
  {
    hide Canonical, Readable;
    ReadableLast(c, s);
    if s != [] {
      ReadableMembers(c, s[..|s| - 1]);
      assert s == s[..|s| - 1] + [s[|s| - 1]];
    }
  }

  lemma {:induction false} Decoded(c: Platform, s: seq<Proposal>)
    ensures forall p :: p in DecodeProposals(c, s) ==> p in s
    ensures Listable(c, s) <==> forall p :: p in s ==> p in DecodeProposals(c, s)
    ensures Listable(c, s) ==> DecodeProposals(c, s) == s
  {
    hide Canonical;
    ReadableMembers(c, s);
    if |s| > MAX_LISTED {
      assert s[0] in s;
    }
  }

  // ---- where queue entries come from ----

  lemma {:induction false} AdmitSources(l: Limits, q: Queues, s: seq<Proposal>, cycle: nat)
    ensures var r := Admit(l, q, s, cycle);
      && (forall id :: id in r.pending ==> (id in q.pending && r.pending[id] == q.pending[id]) || r.pending[id] in s)
      && (forall id :: id in r.deferred ==> (id in q.deferred && r.deferred[id] == q.deferred[id]) || r.deferred[id] in s)
      && (forall id :: id in q.deferred && (forall p :: p in s ==> p.id != id) ==> id in r.deferred)
  {
    if s != [] {
      hide Count, ScopeOf;
      var t, p := s[..|s| - 1], s[|s| - 1];
      AdmitLast(l, q, s, cycle);
      assert s == t + [p];
      AdmitSources(l, q, t, cycle);
      hide Admit;
    }
  }

  lemma {:induction false} DeferSources(l: Limits, q: Queues, s: seq<Proposal>)
    ensures var r := Defer(l, q, s);
      && r.pending == q.pending && r.deferred.Keys >= q.deferred.Keys
      && (forall id :: id in r.deferred ==> (id in q.deferred && r.deferred[id] == q.deferred[id]) || r.deferred[id] in s)
  {
    if s != [] {
      hide Count;
      assert s == s[..|s| - 1] + [s[|s| - 1]];
      DeferSources(l, q, s[..|s| - 1]);
    }
  }

  lemma {:induction false} ApplySources(l: Limits, q: Queues, d: Delta)
    ensures var r := ApplyDelta(l, q, d);
      && (forall id :: id in r.pending ==> (id in q.pending && r.pending[id] == q.pending[id]) || r.pending[id] in d.scheduled)
      && (forall id :: id in r.deferred ==> (id in q.deferred && r.deferred[id] == q.deferred[id])
                                            || r.deferred[id] in d.scheduled || r.deferred[id] in d.added)
      && (forall id :: id in q.deferred && id !in d.removed && (forall p :: p in d.scheduled ==> p.id != id) ==> id in r.deferred)
  {
    hide Admit, Defer;
    var q1 := q.(cycle := Max(q.cycle, d.cycle), deferred := q.deferred - d.removed);
    AdmitSources(l, q1, d.scheduled, d.cycle);
    DeferSources(l, Admit(l, q1, d.scheduled, d.cycle), d.added);
  }

  // ---- when a delta survives the journal ----

  /** There is room for everything the delta schedules, and none of it is pending. */
  ghost predicate Admits(l: Limits, q: Queues, d: Delta, scope: string) {
    && DistinctIds(d.scheduled) && InScope(d.scheduled, scope) && (forall p :: p in d.scheduled ==> p.id !in q.pending)
    && Count(q.pending, scope) + |d.scheduled| <= l.maxPending
  }

  lemma {:induction false} AdmittedPending(l: Limits, q: Queues, d: Delta, scope: string)
    requires Admits(l, q, d, scope)
    ensures ApplyDelta(l, q, d).pending == q.pending + ById(d.scheduled)
    ensures forall p :: p in d.scheduled ==> p.id in ById(d.scheduled) && ById(d.scheduled)[p.id] == p
  {
    hide ById, Admit, Defer, Count, DistinctIds;
    var q1 := q.(cycle := Max(q.cycle, d.cycle), deferred := q.deferred - d.removed);
    AdmitClosed(l, q1, d.scheduled, d.cycle, scope);
    DeferSources(l, Admit(l, q1, d.scheduled, d.cycle), d.added);
    ByIdHolds(d.scheduled);
  }

  /** A delta read back in full, up to removals its own schedule implies, has the same effect. */
  lemma {:induction false} DecodedSame(c: Platform, l: Limits, q: Queues, d: Delta, scope: string)
    requires Admits(l, q, d, scope) && Recordable(c, d)
    ensures ApplyDelta(l, q, DecodeDelta(c, d)) == ApplyDelta(l, q, d)
  {
    hide ById, Admit, Defer, Count, DistinctIds, Canonical, InScope, Listable, DecodeProposals;
    Decoded(c, d.scheduled);
    Decoded(c, d.added);
    var e := DecodeDelta(c, d);
    var q1 := q.(cycle := Max(q.cycle, d.cycle), deferred := q.deferred - d.removed);
    var q2 := q.(cycle := Max(q.cycle, d.cycle), deferred := q.deferred - e.removed);
    AdmitClosed(l, q1, d.scheduled, d.cycle, scope);
    AdmitClosed(l, q2, d.scheduled, d.cycle, scope);
    SameRemovals(q.deferred, d.removed, e.removed, Ids(d.scheduled));
  }

  lemma {:induction false} SameRemovals(m: map<string, Proposal>, all: set<string>, some: set<string>, ids: set<string>)
    requires some <= all && all - ids <= some
    ensures (m - all) - ids == (m - some) - ids
  {
  }

  /** If the effect is the same, everything scheduled was read back. */
  lemma {:induction false} ScheduledSurvive(c: Platform, l: Limits, q: Queues, d: Delta, scope: string)
    requires Admits(l, q, d, scope) && ApplyDelta(l, q, DecodeDelta(c, d)) == ApplyDelta(l, q, d)
    ensures Listable(c, d.scheduled)
  {
    hide ById, Apply, Count, DistinctIds, Canonical, InScope, Listable, DecodeProposals, DecodeIds;
    AdmittedPending(l, q, d, scope);
    var r := ApplyDelta(l, q, d);
    ApplySources(l, q, DecodeDelta(c, d));
    forall p | p in d.scheduled ensures p in DecodeProposals(c, d.scheduled) {
      assert p.id in r.pending && r.pending[p.id] == p;
    }
    Decoded(c, d.scheduled);
  }

  /** Every new backlog entry of a plan is stored, and comes from nowhere else. */
  lemma {:induction false} PlanStores(c: Platform, l: Limits, q: Queues, scope: string, incoming: seq<Proposal>, p: Proposal)
    requires Sound(c) && QueuesOk(c, l, q) && Admissible(c, scope, incoming) && p in PlanDelta(c, l, q, scope, incoming).added
    ensures var d := PlanDelta(c, l, q, scope, incoming); var r := ApplyDelta(l, q, d);
      && p.id in r.deferred && r.deferred[p.id] == p
      && p !in d.scheduled && !(p.id in q.deferred && q.deferred[p.id] == p)
  {
    hide ById, Apply, Count, DistinctIds, Formed, InScope, Outside, MakePlan, Restrict, Stamp, Sound, Admissible;
    var plan := MakePlan(c, l, q, scope, incoming, q.cycle + 1);
    PlanAdds(c, l, q, scope, incoming, q.cycle + 1);
    DeferredApart(c, l, q, scope, incoming, q.cycle + 1, p);
    PlanApplied(c, l, q, scope, incoming, q.cycle + 1);
  }

  lemma {:induction false} DeferredApart(c: Platform, l: Limits, q: Queues, scope: string, incoming: seq<Proposal>, cycle: nat, p: Proposal)
    requires Sound(c) && QueuesOk(c, l, q) && Admissible(c, scope, incoming) && p in MakePlan(c, l, q, scope, incoming, cycle).deferred
    ensures var plan := MakePlan(c, l, q, scope, incoming, cycle);
      p !in plan.scheduled && p.id in ById(plan.deferred) && ById(plan.deferred)[p.id] == p
  {
    hide ById, DistinctIds, Formed, MakePlan, Sound, Admissible;
    var plan := MakePlan(c, l, q, scope, incoming, cycle);
    PlanIds(c, l, q, scope, incoming, cycle);
    ByIdHolds(plan.deferred);
  }

  /** A stored proposal that was not there before and was not scheduled was read back as an addition. */
  lemma {:induction false} StoredWasDecoded(c: Platform, l: Limits, q: Queues, d: Delta, p: Proposal)
    requires var r := ApplyDelta(l, q, DecodeDelta(c, d)); p.id in r.deferred && r.deferred[p.id] == p
    requires p !in d.scheduled && !(p.id in q.deferred && q.deferred[p.id] == p)
    ensures p in DecodeProposals(c, d.added)
  {
    hide ApplyDelta, DecodeProposals;
    ApplySources(l, q, DecodeDelta(c, d));
    Decoded(c, d.scheduled);
  }

  /** If the effect is the same, every new backlog entry was read back. */
  lemma {:induction false} AddedSurvive(c: Platform, l: Limits, q: Queues, scope: string, incoming: seq<Proposal>)
    requires Sound(c) && QueuesOk(c, l, q) && Admissible(c, scope, incoming)
    requires var d := PlanDelta(c, l, q, scope, incoming); ApplyDelta(l, q, DecodeDelta(c, d)) == ApplyDelta(l, q, d)
    ensures Listable(c, PlanDelta(c, l, q, scope, incoming).added)
  {
    hide ApplyDelta, DecodeDelta, DecodeProposals, Listable, PlanDelta, Count, Formed, Sound, Admissible;
    var d := PlanDelta(c, l, q, scope, incoming);
    forall p | p in d.added ensures p in DecodeProposals(c, d.added) {
      PlanStores(c, l, q, scope, incoming, p);
      StoredWasDecoded(c, l, q, d, p);
    }
    Decoded(c, d.added);
  }

  lemma {:induction false} PlanAdds(c: Platform, l: Limits, q: Queues, scope: string, incoming: seq<Proposal>, cycle: nat)
    requires Sound(c) && Keyed(q.deferred)
    ensures var plan := MakePlan(c, l, q, scope, incoming, cycle);
      && (forall p :: p in plan.added ==> p in plan.deferred && !(p.id in q.deferred && q.deferred[p.id] == p))
      && (forall id :: id in plan.removed <==> id in q.deferred && ScopeOf(q.deferred[id]) == scope && id !in Ids(plan.deferred))
  {
    hide ById, Select, Candidates;
    var plan := MakePlan(c, l, q, scope, incoming, cycle);
    forall p | p in plan.added ensures p in plan.deferred && !(p.id in q.deferred && q.deferred[p.id] == p) {
      NewInMembers(plan.deferred, q.deferred, p);
    }
  }

  /** If the effect is the same, every removal that the schedule does not imply was read back. */
  lemma {:induction false} RemovedSurvive(c: Platform, l: Limits, q: Queues, scope: string, incoming: seq<Proposal>)
    requires Sound(c) && QueuesOk(c, l, q) && Admissible(c, scope, incoming)
    requires var d := PlanDelta(c, l, q, scope, incoming); ApplyDelta(l, q, DecodeDelta(c, d)) == ApplyDelta(l, q, d)
    ensures var d := PlanDelta(c, l, q, scope, incoming); d.removed - Ids(d.scheduled) <= DecodeIds(c, d.removed)
  {
    hide ById, Apply, Count, DistinctIds, Canonical, InScope, Listable, DecodeProposals, DecodeIds, Admissible, MakePlan;
    var plan, d := MakePlan(c, l, q, scope, incoming, q.cycle + 1), PlanDelta(c, l, q, scope, incoming);
    PlanApplied(c, l, q, scope, incoming, q.cycle + 1);
    var r := ApplyDelta(l, q, d);
    ApplySources(l, q, DecodeDelta(c, d));
    PlanAdds(c, l, q, scope, incoming, q.cycle + 1);
    Decoded(c, d.scheduled);
    forall id | id in d.removed - Ids(d.scheduled) ensures id in DecodeIds(c, d.removed) {
      assert id !in r.deferred;
    }
  }

  lemma {:induction false} PlanDeltaAdmits(c: Platform, l: Limits, q: Queues, scope: string, incoming: seq<Proposal>)
    requires Sound(c) && QueuesOk(c, l, q) && Admissible(c, scope, incoming)
    ensures Admits(l, q, PlanDelta(c, l, q, scope, incoming), scope)
  {
    hide Canonical, Admissible, MakePlan;
    PlanIds(c, l, q, scope, incoming, q.cycle + 1);
    PlanWithinLimits(c, l, q, scope, incoming, q.cycle + 1);
  }

  /** A planned delta has the same effect after a restart exactly if it is recordable. */
  lemma {:induction false} PlanReplays(c: Platform, l: Limits, q: Queues, scope: string, incoming: seq<Proposal>)
    requires Sound(c) && QueuesOk(c, l, q) && Admissible(c, scope, incoming) && q.cycle < MAX_SAFE
    ensures var d := PlanDelta(c, l, q, scope, incoming);
      ApplyDelta(l, q, DecodeDelta(c, d)) == ApplyDelta(l, q, d) <==> Recordable(c, d)
  {
    hide Admissible, MakePlan, ApplyDelta, DecodeDelta, Listable, Admits, DecodeIds, Sound;
    var d := PlanDelta(c, l, q, scope, incoming);
    PlanDeltaAdmits(c, l, q, scope, incoming);
    if Recordable(c, d) {
      DecodedSame(c, l, q, d, scope);
    }
    if ApplyDelta(l, q, DecodeDelta(c, d)) == ApplyDelta(l, q, d) {
      ScheduledSurvive(c, l, q, d, scope);
      AddedSurvive(c, l, q, scope, incoming);
      RemovedSurvive(c, l, q, scope, incoming);
    }
  }

  // ---- acknowledging ----

  /** The promoted proposal is the first of the scope's backlog that is due: everything ahead of it is cooling down. */
  lemma {:induction false} FirstDueIsFirst(c: Platform, l: Limits, last: map<string, nat>, backlog: seq<Proposal>, cycle: nat)
    requires Ordered(c, backlog)
    ensures var due := FirstDue(l, last, backlog, cycle);
      && (forall p :: p in due ==> p in backlog && !Cooling(l, last, p.id, cycle))
      && (forall p :: p in backlog && !Cooling(l, last, p.id, cycle) ==> due != [] && (p == due[0] || Before(c, due[0], p)))
  {
    if backlog != [] {
      FirstDueIsFirst(c, l, last, backlog[1..], cycle);
      forall p | p in backlog ensures p == backlog[0] || (p in backlog[1..] && Before(c, backlog[0], p)) {
        FirstMember(c, backlog);
        TailMember(c, backlog, p);
      }
    }
  }

  ghost predicate Acknowledgeable(q: Queues, scope: string, id: string) {
    id in q.pending && ScopeOf(q.pending[id]) == scope
  }

  lemma {:induction false} PromotedIds(c: Platform, l: Limits, q: Queues, scope: string)
    requires Sound(c) && QueuesOk(c, l, q)
    ensures var promoted := Promoted(c, l, q, scope);
      && |promoted| <= 1 && DistinctIds(promoted) && Ids(promoted) <= q.deferred.Keys
      && (forall p :: p in promoted ==> p.id in q.deferred && q.deferred[p.id] == p && ScopeOf(p) == scope
                                        && Formed(c, p) && p.id !in q.pending && !Cooling(l, q.last, p.id, q.cycle + 1))
  {
    hide Formed, Cooling, FirstDue, ScopeOf, ById, Count, Sound, Ordered;
    var backlog := Restrict(q.deferred, scope);
    FirstDueIsFirst(c, l, q.last, Listing(c, backlog), q.cycle + 1);
    IdsWithin(Promoted(c, l, q, scope), q.deferred);
  }

  lemma {:induction false} IdsWithin(s: seq<Proposal>, m: map<string, Proposal>)
    ensures (forall p :: p in s ==> p.id in m) ==> Ids(s) <= m.Keys
  {
  }

  /** Releasing one of a scope's pending proposals makes room for one more. */
  lemma {:induction false} ReleasedRoom(m: map<string, Proposal>, scope: string, id: string)
    requires id in m && ScopeOf(m[id]) == scope
    ensures Count(m - {id}, scope) == Count(m, scope) - 1
    ensures forall other :: other != scope ==> Restrict(m - {id}, other) == Restrict(m, other)
  {
    assert Restrict(m - {id}, scope) == Restrict(m, scope) - {id};
    assert (Restrict(m, scope) - {id}).Keys == Restrict(m, scope).Keys - {id};
    assert |(Restrict(m, scope) - {id}).Keys| == |Restrict(m, scope).Keys| - 1;
    forall other | other != scope ensures Restrict(m - {id}, other) == Restrict(m, other) {
      assert Restrict(m - {id}, other).Keys == Restrict(m, other).Keys;
    }
  }

  ghost function AckDelta(c: Platform, l: Limits, q: Queues, scope: string): Delta
    requires Sound(c) && Keyed(q.deferred)
  {
    var promoted := Promoted(c, l, q, scope);
    Delta(q.cycle + 1, promoted, [], Ids(promoted))
  }

  lemma {:induction false} AckAdmits(c: Platform, l: Limits, q: Queues, scope: string, id: string)
    requires Sound(c) && QueuesOk(c, l, q) && Acknowledgeable(q, scope, id)
    ensures Admits(l, Released(q, id), AckDelta(c, l, q, scope), scope)
  {
    hide Formed, Count, Promoted;
    PromotedIds(c, l, q, scope);
    ReleasedRoom(q.pending, scope, id);
  }

  /** Acknowledging frees the proposal's place and moves the first due one of the scope's backlog into it. */
  lemma {:induction false} AckApplied(c: Platform, l: Limits, q: Queues, scope: string, id: string)
    requires Sound(c) && QueuesOk(c, l, q) && Acknowledgeable(q, scope, id)
    ensures var promoted := Promoted(c, l, q, scope);
      ApplyDelta(l, Released(q, id), AckDelta(c, l, q, scope)) ==
      Queues(q.cycle + 1, q.last + Stamp(Ids(promoted), q.cycle + 1), (q.pending - {id}) + ById(promoted), q.deferred - Ids(promoted))
  {
    hide Formed, Count, Promoted, ById, Admit, InScope, DistinctIds, Stamp;
    var d := AckDelta(c, l, q, scope);
    AckAdmits(c, l, q, scope, id);
    assert q.deferred - {id} == q.deferred;
    var q1 := Released(q, id).(cycle := q.cycle + 1, deferred := q.deferred - d.removed);
    AdmitClosed(l, q1, d.scheduled, d.cycle, scope);
    RemoveTwice(q.deferred, d.removed);
  }

  lemma {:induction false} RemoveTwice(m: map<string, Proposal>, ids: set<string>)
    ensures (m - ids) - ids == m - ids
  {
  }

  lemma {:induction false} AckReplays(c: Platform, l: Limits, q: Queues, scope: string, id: string)
    requires Sound(c) && QueuesOk(c, l, q) && Acknowledgeable(q, scope, id) && q.cycle < MAX_SAFE
    ensures var q1, d := Released(q, id), AckDelta(c, l, q, scope);
      ApplyDelta(l, q1, DecodeDelta(c, d)) == ApplyDelta(l, q1, d) <==> Recordable(c, d)
  {
    hide Promoted, ApplyDelta, DecodeDelta, Admits, DecodeIds, Sound, Acknowledgeable, Canonical;
    var d := AckDelta(c, l, q, scope);
    AckAdmits(c, l, q, scope, id);
    if Recordable(c, d) {
      DecodedSame(c, l, Released(q, id), d, scope);
    }
    if ApplyDelta(l, Released(q, id), DecodeDelta(c, d)) == ApplyDelta(l, Released(q, id), d) {
      ScheduledSurvive(c, l, Released(q, id), d, scope);
    }
  }
}
