/**
 Runs of the need scheduler: what every operation keeps, what separates scopes and schedulings, and when a restart
 from the journal rebuilds the live state.
 */
module NeedRuns {
  import opened Prelude
  import opened NeedProposals
  import opened NeedPlans
  import opened NeedReplays

  // ---- what one change of the queues keeps ----

  /** Outside one scope, the ready and deferred queues are as they were. */
  ghost predicate OthersUntouched(q: Queues, r: Queues, scope: string) {
    forall other :: other != scope ==>
      Restrict(r.pending, other) == Restrict(q.pending, other) && Restrict(r.deferred, other) == Restrict(q.deferred, other)
  }

  /** A sound successor: the invariant holds, only one scope changed, and what was scheduled is stamped with its cycle. */
  ghost predicate Succeeds(c: Platform, l: Limits, q: Queues, r: Queues, d: Delta, scope: string) {
    && QueuesOk(c, l, r) && OthersUntouched(q, r, scope) && (DeferredOk(l, q) ==> DeferredOk(l, r))
    && r.cycle == d.cycle && q.cycle <= d.cycle
    && r.last == q.last + Stamp(Ids(d.scheduled), d.cycle)
    && (forall p :: p in d.scheduled ==> ScopeOf(p) == scope && !Cooling(l, q.last, p.id, d.cycle))
  }

  lemma {:induction false} PlanSucceeds(c: Platform, l: Limits, q: Queues, scope: string, incoming: seq<Proposal>)
    requires Sound(c) && QueuesOk(c, l, q) && Admissible(c, scope, incoming)
    ensures var d := PlanDelta(c, l, q, scope, incoming); Succeeds(c, l, q, ApplyDelta(l, q, d), d, scope)
  {
    hide Formed, Restrict, MakePlan, Apply, Count, Stamp, Cooling, Outside, ById;
    var cycle := q.cycle + 1;
    PlanIds(c, l, q, scope, incoming, cycle);
    PlanWithinLimits(c, l, q, scope, incoming, cycle);
    PlanApplied(c, l, q, scope, incoming, cycle);
    ScheduleKeeps(c, l, q, scope, incoming, cycle);
    var r := Applied(c, l, q, scope, incoming, cycle);
    forall other | other != scope
      ensures Restrict(r.pending, other) == Restrict(q.pending, other) && Restrict(r.deferred, other) == Restrict(q.deferred, other)
    {
      ScheduleByScope(c, l, q, scope, incoming, cycle, other);
    }
  }

  lemma {:induction false} RestrictRemove(m: map<string, Proposal>, ids: set<string>, scope: string, other: string)
    requires forall id :: id in ids ==> id in m && ScopeOf(m[id]) == scope
    ensures other != scope ==> Restrict(m - ids, other) == Restrict(m, other)
    ensures Count(m - ids, other) <= Count(m, other)
  {
    hide ScopeOf;
    assert Restrict(m - ids, other).Keys <= Restrict(m, other).Keys;
    SubsetSize(Restrict(m - ids, other).Keys, Restrict(m, other).Keys);
    assert |Restrict(m - ids, other).Keys| == |Restrict(m - ids, other)| && |Restrict(m, other).Keys| == |Restrict(m, other)|;
    if other != scope {
      assert Restrict(m - ids, other).Keys == Restrict(m, other).Keys;
    }
  }

  lemma {:induction false} GoodRemove(c: Platform, m: map<string, Proposal>, ids: set<string>)
    requires Good(c, m)
    ensures Good(c, m - ids)
  {
    hide Formed;
  }

  /** The ready queue of a scope after one of its proposals is released and some others move in. */
  lemma {:induction false} MovedByScope(m: map<string, Proposal>, scope: string, id: string, moved: map<string, Proposal>, other: string)
    requires id in m && ScopeOf(m[id]) == scope && AllInScope(moved, scope) && m.Keys !! moved.Keys
    ensures other != scope ==> Restrict((m - {id}) + moved, other) == Restrict(m, other)
    ensures Count((m - {id}) + moved, scope) == Count(m, scope) - 1 + |moved|
  {
    hide ScopeOf, Count, Restrict;
    ReleasedRoom(m, scope, id);
    PendingByScope(m - {id}, moved, scope, other);
  }

  /** The queues of every scope after the proposal `id` gave way to the promoted ones. */
  lemma {:induction false} AckByScope(pending: map<string, Proposal>, deferred: map<string, Proposal>, scope: string, id: string,
                   promoted: seq<Proposal>, other: string)
    requires id in pending && ScopeOf(pending[id]) == scope && |promoted| <= 1
    requires forall p :: p in promoted ==> p.id in deferred && deferred[p.id] == p && ScopeOf(p) == scope && p.id !in pending
    ensures other != scope ==> Restrict((pending - {id}) + ById(promoted), other) == Restrict(pending, other)
                               && Restrict(deferred - Ids(promoted), other) == Restrict(deferred, other)
    ensures Count((pending - {id}) + ById(promoted), other) <= Count(pending, other)
    ensures Count(deferred - Ids(promoted), other) <= Count(deferred, other)
  {
    hide ById, Restrict, ScopeOf, Count;
    var moved := ById(promoted);
    ByIdHolds(promoted);
    MovedByScope(pending, scope, id, moved, other);
    RestrictRemove(deferred, Ids(promoted), scope, other);
    SameCount(pending, (pending - {id}) + moved, other);
  }

  /** The queues once the proposal `id` gave way to the promoted ones. */
  function Moved(q: Queues, id: string, promoted: seq<Proposal>): Queues {
    Queues(q.cycle + 1, q.last + Stamp(Ids(promoted), q.cycle + 1), (q.pending - {id}) + ById(promoted), q.deferred - Ids(promoted))
  }

  lemma {:induction false} MovedOk(c: Platform, l: Limits, q: Queues, scope: string, id: string, promoted: seq<Proposal>)
    requires QueuesOk(c, l, q) && Acknowledgeable(q, scope, id) && |promoted| <= 1
    requires forall p :: p in promoted ==> p.id in q.deferred && q.deferred[p.id] == p && ScopeOf(p) == scope && p.id !in q.pending
    ensures QueuesOk(c, l, Moved(q, id, promoted)) && OthersUntouched(q, Moved(q, id, promoted), scope)
    ensures DeferredOk(l, q) ==> DeferredOk(l, Moved(q, id, promoted))
  {
    hide Formed, Restrict, Count, Stamp, ById, Good, ScopeOf;
    var r := Moved(q, id, promoted);
    MovedGood(c, q, id, promoted);
    forall other
      ensures other != scope ==> Restrict(r.pending, other) == Restrict(q.pending, other) && Restrict(r.deferred, other) == Restrict(q.deferred, other)
      ensures Count(r.pending, other) <= l.maxPending && Count(r.deferred, other) <= Count(q.deferred, other)
    {
      AckByScope(q.pending, q.deferred, scope, id, promoted, other);
    }
    StampsBehind(q.last, Ids(promoted), q.cycle, q.cycle + 1);
  }

  lemma {:induction false} MovedGood(c: Platform, q: Queues, id: string, promoted: seq<Proposal>)
    requires Good(c, q.pending) && Good(c, q.deferred) && q.pending.Keys !! q.deferred.Keys
    requires forall p :: p in promoted ==> p.id in q.deferred && q.deferred[p.id] == p && p.id !in q.pending
    ensures Good(c, (q.pending - {id}) + ById(promoted)) && Good(c, q.deferred - Ids(promoted))
    ensures ((q.pending - {id}) + ById(promoted)).Keys !! (q.deferred - Ids(promoted)).Keys
  {
    hide Formed, ById;
    GoodRemove(c, q.pending, {id});
    GoodAdd(c, q.pending - {id}, promoted);
    GoodRemove(c, q.deferred, Ids(promoted));
  }

  lemma {:induction false} AckSucceeds(c: Platform, l: Limits, q: Queues, scope: string, id: string)
    requires Sound(c) && QueuesOk(c, l, q) && Acknowledgeable(q, scope, id)
    ensures var d := AckDelta(c, l, q, scope); Succeeds(c, l, q, ApplyDelta(l, Released(q, id), d), d, scope)
  {
    hide Formed, Restrict, Count, Stamp, Cooling, ById, Promoted, OthersUntouched, ApplyDelta, DistinctIds;
    var promoted := Promoted(c, l, q, scope);
    AckApplied(c, l, q, scope, id);
    PromotedIds(c, l, q, scope);
    MovedOk(c, l, q, scope, id, promoted);
  }

  lemma {:induction false} StampsBehind(last: map<string, nat>, ids: set<string>, now: nat, cycle: nat)
    requires (forall id :: id in last ==> last[id] <= now) && now <= cycle
    ensures forall id :: id in last + Stamp(ids, cycle) ==> (last + Stamp(ids, cycle))[id] <= cycle
  {
  }

  lemma {:induction false} NothingApplied(l: Limits, q: Queues)
    ensures ApplyDelta(l, q, Delta(q.cycle, [], [], {})) == q
  {
    assert q.deferred - {} == q.deferred;
  }

  // ---- what one operation keeps ----

  lemma {:induction false} EvidenceCanonical(c: Platform, t: Option<string>, solveId: string, shape: string, failures: nat)
    ensures var p := Evidence(c, t, solveId, shape, failures);
      p.Some? ==> Canonical(c, p.value) && Formed(c, p.value) && ScopeOf(p.value) == ScopeName(t)
  {
    hide ScopeName, ProposalId;
  }

  lemma {:induction false} EvidenceFits(c: Platform, s: Scheduler, t: Option<string>, solveId: string, shape: string, passed: bool)
    ensures var p := Proposed(c, s, t, solveId, shape, passed);
      p.Some? ==> Canonical(c, p.value) && ScopeOf(p.value) == ScopeName(t) && Admissible(c, ScopeName(t), [p.value])
  {
    hide Tallied, Evidence, Pair, Formed, ScopeName, Canonical;
    EvidenceCanonical(c, t, solveId, shape, Tallied(s.tallies, Pair(ScopeName(t), shape), passed).failures);
  }

  /** Every accepted operation leaves a sound successor and touches its own scope only. */
  lemma {:induction false} StepSucceeds(c: Platform, l: Limits, s: Scheduler, op: Op)
    requires Sound(c) && QueuesOk(c, l, s.queues) && OpOk(c, op) && Accepted(c, s, op)
    ensures Succeeds(c, l, s.queues, After(c, l, s, op).queues, Decide(c, l, s, op).delta, ScopeName(op.tenant))
  {
    hide ApplyDelta, MakePlan, Promoted, Formed, Canonical, Proposed, Succeeds, Sound, ValidText, QueuesOk, Admissible, Tallied;
    var q := s.queues;
    match op
    case Schedule(t, incoming) => PlanSucceeds(c, l, q, ScopeName(t), incoming);
    case Acknowledge(t, id) => AckSucceeds(c, l, q, ScopeName(t), id);
    case Outcome(t, solveId, shape, passed) =>
      var p := Proposed(c, s, t, solveId, shape, passed);
      EvidenceFits(c, s, t, solveId, shape, passed);
      NothingSucceeds(c, l, q, ScopeName(t));
      if p.Some? {
        PlanSucceeds(c, l, q, ScopeName(t), [p.value]);
      }
  }

  lemma {:induction false} NothingSucceeds(c: Platform, l: Limits, q: Queues, scope: string)
    requires QueuesOk(c, l, q)
    ensures Succeeds(c, l, q, ApplyDelta(l, q, Delta(q.cycle, [], [], {})), Delta(q.cycle, [], [], {}), scope)
  {
    NothingApplied(l, q);
    hide ApplyDelta, QueuesOk, Restrict;
    assert q.last + Stamp({}, q.cycle) == q.last;
  }

  // ---- when one operation survives a restart ----

  /** Bookkeeping apart, an event replays as it was performed if its delta has the same effect on the queues. */
  ghost predicate SameEffect(c: Platform, l: Limits, s: Scheduler, e: Event) {
    var q := if e.Acknowledged? then Released(s.queues, e.id) else s.queues;
    ApplyDelta(l, q, DecodeDelta(c, e.delta)) == ApplyDelta(l, q, e.delta)
  }

  lemma {:induction false} ReplayIsPerform(c: Platform, l: Limits, s: Scheduler, e: Event)
    requires Effective(c, s, e)
    ensures ReplayStep(c, l, s, e) == Perform(l, s, e) <==> SameEffect(c, l, s, e)
  {
    hide ApplyDelta, DecodeDelta, Tallied;
  }

  lemma {:induction false} DecisionEffective(c: Platform, l: Limits, s: Scheduler, op: Op)
    requires Sound(c) && QueuesOk(c, l, s.queues) && OpOk(c, op) && Accepted(c, s, op)
    ensures Effective(c, s, Decide(c, l, s, op)) <==> Decide(c, l, s, op).delta.cycle <= MAX_SAFE
  {
    hide MakePlan, Promoted, Formed, Canonical, Proposed, ValidText, ScopeName, ValidScopeKey, Ids;
    ScopeKeyOfTenant(c, op.tenant);
  }

  lemma {:induction false} DecisionReplays(c: Platform, l: Limits, s: Scheduler, op: Op)
    requires Sound(c) && QueuesOk(c, l, s.queues) && OpOk(c, op) && Accepted(c, s, op)
    requires Decide(c, l, s, op).delta.cycle <= MAX_SAFE
    ensures SameEffect(c, l, s, Decide(c, l, s, op)) <==> Recordable(c, Decide(c, l, s, op).delta)
  {
    hide ApplyDelta, MakePlan, Promoted, Formed, Canonical, Proposed, Sound, DecodeDelta, Recordable, ValidText;
    var q := s.queues;
    match op
    case Schedule(t, incoming) => PlanReplays(c, l, q, ScopeName(t), incoming);
    case Acknowledge(t, id) => AckReplays(c, l, q, ScopeName(t), id);
    case Outcome(t, solveId, shape, passed) =>
      var p := Proposed(c, s, t, solveId, shape, passed);
      EvidenceFits(c, s, t, solveId, shape, passed);
      if p.Some? {
        PlanReplays(c, l, q, ScopeName(t), [p.value]);
      } else {
        EmptyRecordable(c, q.cycle);
      }
  }

  lemma {:induction false} EmptyRecordable(c: Platform, cycle: nat)
    ensures DecodeDelta(c, Delta(cycle, [], [], {})) == Delta(cycle, [], [], {})
    ensures cycle <= MAX_SAFE ==> Recordable(c, Delta(cycle, [], [], {}))
  {
  }

  /** An event beyond the safe integers is skipped on restart, though the live object did change. */
  lemma {:induction false} SkippedDiffers(c: Platform, l: Limits, s: Scheduler, op: Op)
    requires Sound(c) && QueuesOk(c, l, s.queues) && OpOk(c, op) && Accepted(c, s, op)
    ensures After(c, l, s, op) != s
  {
    hide ApplyDelta, MakePlan, Promoted, Formed, Canonical, Proposed, Sound, Tallied, ValidText, Good, Cooling, Stamp, Count;
    StepSucceeds(c, l, s, op);
    match op
    case Schedule(t, incoming) =>
    case Acknowledge(t, id) =>
    case Outcome(t, solveId, shape, passed) =>
      assert Pair(ScopeName(t), solveId) !in s.observed;
  }

  /**
   From a state the journal reproduces, one more operation is reproduced exactly if what it recorded is recordable:
   a safe cycle, at most ten thousand scheduled and ten thousand deferred proposals that are all canonical, and
   removals that are readable or implied by the schedule.
   */
  lemma {:induction false} StepReplays(c: Platform, l: Limits, s: Scheduler, op: Op)
    requires Sound(c) && QueuesOk(c, l, s.queues) && OpOk(c, op) && Accepted(c, s, op)
    ensures ReplayStep(c, l, s, Decide(c, l, s, op)) == After(c, l, s, op) <==> Recordable(c, Decide(c, l, s, op).delta)
  {
    hide ApplyDelta, Decide, Perform, DecodeDelta, Listable, OpOk, Accepted, Effective, SameEffect, DecodeIds, ReplayStep, Sound;
    var e := Decide(c, l, s, op);
    DecisionEffective(c, l, s, op);
    SkippedDiffers(c, l, s, op);
    SkippedStays(c, l, s, e);
    if e.delta.cycle <= MAX_SAFE {
      ReplayIsPerform(c, l, s, e);
      DecisionReplays(c, l, s, op);
    }
  }

  lemma {:induction false} SkippedStays(c: Platform, l: Limits, s: Scheduler, e: Event)
    ensures !Effective(c, s, e) ==> ReplayStep(c, l, s, e) == s
  {
  }

  // ---- runs ----

  /** The state and the journal after a run of operations. */
  ghost function Exec(c: Platform, l: Limits, ops: seq<Op>): (r: (Scheduler, seq<Event>))
    requires Sound(c) && forall op :: op in ops ==> OpOk(c, op)
    ensures QueuesOk(c, l, r.0.queues) && DeferredOk(l, r.0.queues)
  {
    if ops == [] then
      EmptyOk(c, l);
      (EMPTY, [])
    else
      var op := ops[|ops| - 1];
      var (s, journal) := Exec(c, l, ops[..|ops| - 1]);
      if Accepted(c, s, op) then
        StepSucceeds(c, l, s, op);
        (After(c, l, s, op), journal + [Decide(c, l, s, op)])
      else (s, journal)
  }

  lemma {:induction false} EmptyOk(c: Platform, l: Limits)
    ensures QueuesOk(c, l, EMPTY.queues) && DeferredOk(l, EMPTY.queues)
  {
    forall scope ensures Count(map[], scope) == 0 {
      assert Restrict(map[], scope) == map[];
    }
  }

  /** Replaying the journal of any run whose events are recordable rebuilds exactly the live state. */
  lemma {:induction false} RestoreRebuilds(c: Platform, l: Limits, ops: seq<Op>)
    requires Sound(c) && forall op :: op in ops ==> OpOk(c, op)
    requires forall e :: e in Exec(c, l, ops).1 ==> Recordable(c, e.delta)
    ensures Replay(c, l, Exec(c, l, ops).1) == Exec(c, l, ops).0
  {
    hide OpOk, Recordable, Decide, After, Accepted, ReplayStep, Formed, Count;
    if ops != [] {
      var op := ops[|ops| - 1];
      var (s, journal) := Exec(c, l, ops[..|ops| - 1]);
      if Accepted(c, s, op) {
        var e := Decide(c, l, s, op);
        assert Exec(c, l, ops).1 == journal + [e];
        assert e in journal + [e] && forall f :: f in journal ==> f in journal + [e];
        RestoreRebuilds(c, l, ops[..|ops| - 1]);
        StepReplays(c, l, s, op);
        assert (journal + [e])[..|journal|] == journal;
      } else {
        RestoreRebuilds(c, l, ops[..|ops| - 1]);
      }
    }
  }

  // ---- runs whose proposals fit the journal ----

  ghost predicate AllCanonical(c: Platform, m: map<string, Proposal>) {
    forall id :: id in m ==> Canonical(c, m[id])
  }

  /** What an operation brings in is within the journal's text limits. */
  ghost predicate Fits(c: Platform, op: Op) {
    op.Schedule? ==> forall p :: p in op.incoming ==> Canonical(c, p)
  }

  lemma {:induction false} PlanRecordable(c: Platform, l: Limits, q: Queues, scope: string, incoming: seq<Proposal>)
    requires Sound(c) && QueuesOk(c, l, q) && Admissible(c, scope, incoming) && q.cycle < MAX_SAFE
    requires l.maxPerCycle <= MAX_LISTED && l.maxDeferred <= MAX_LISTED && DeferredOk(l, q)
    requires AllCanonical(c, q.deferred) && forall p :: p in incoming ==> Canonical(c, p)
    ensures Recordable(c, PlanDelta(c, l, q, scope, incoming))
    ensures AllCanonical(c, ApplyDelta(l, q, PlanDelta(c, l, q, scope, incoming)).deferred)
  {
    hide Canonical, Formed, ById, Restrict, MakePlan, ApplyDelta, Cooling, KindCount, Count, DecodeIds, Sound;
    var plan, d := MakePlan(c, l, q, scope, incoming, q.cycle + 1), PlanDelta(c, l, q, scope, incoming);
    PlanCanonical(c, l, q, scope, incoming, q.cycle + 1);
    PlanWithinLimits(c, l, q, scope, incoming, q.cycle + 1);
    PlanAdds(c, l, q, scope, incoming, q.cycle + 1);
    PlanSizes(c, l, q, scope, incoming, q.cycle + 1);
    RemovedReadable(c, q.deferred, plan.removed);
    AppliedCanonical(c, l, q, d);
  }

  lemma {:induction false} PlanCanonical(c: Platform, l: Limits, q: Queues, scope: string, incoming: seq<Proposal>, cycle: nat)
    requires Sound(c) && QueuesOk(c, l, q) && Admissible(c, scope, incoming)
    requires AllCanonical(c, q.deferred) && forall p :: p in incoming ==> Canonical(c, p)
    ensures var plan := MakePlan(c, l, q, scope, incoming, cycle);
      forall p :: p in plan.scheduled || p in plan.deferred ==> Canonical(c, p)
  {
    hide Canonical, Formed, ById, Restrict, MakePlan, Count, Candidates, Ordered;
    PlanConserves(c, l, q, scope, incoming, cycle);
    CandidatesCanonical(c, q, scope, incoming);
  }

  lemma {:induction false} AppliedCanonical(c: Platform, l: Limits, q: Queues, d: Delta)
    requires AllCanonical(c, q.deferred) && forall p :: p in d.scheduled || p in d.added ==> Canonical(c, p)
    ensures AllCanonical(c, ApplyDelta(l, q, d).deferred)
  {
    hide Canonical, ApplyDelta;
    ApplySources(l, q, d);
  }

  lemma {:induction false} CandidatesCanonical(c: Platform, q: Queues, scope: string, incoming: seq<Proposal>)
    requires AllCanonical(c, q.deferred) && forall p :: p in incoming ==> Canonical(c, p)
    ensures AllCanonical(c, Candidates(q, scope, incoming))
  {
    hide Canonical, ById;
  }

  lemma {:induction false} RemovedReadable(c: Platform, m: map<string, Proposal>, removed: set<string>)
    requires Keyed(m) && AllCanonical(c, m) && |removed| <= MAX_LISTED
    requires forall id :: id in removed ==> id in m
    ensures removed <= DecodeIds(c, removed)
  {
    hide Formed;
  }

  lemma {:induction false} PlanSizes(c: Platform, l: Limits, q: Queues, scope: string, incoming: seq<Proposal>, cycle: nat)
    requires Sound(c) && QueuesOk(c, l, q) && DeferredOk(l, q)
    ensures var plan := MakePlan(c, l, q, scope, incoming, cycle); |plan.added| <= |plan.deferred| && |plan.removed| <= l.maxDeferred
  {
    hide ById, Select, Candidates, Formed;
    var plan := MakePlan(c, l, q, scope, incoming, cycle);
    var any :| true;
    NewInMembers(plan.deferred, q.deferred, any);
    SubsetSize(plan.removed, Restrict(q.deferred, scope).Keys);
    assert |Restrict(q.deferred, scope).Keys| == Count(q.deferred, scope);
  }

  lemma {:induction false} AckRecordable(c: Platform, l: Limits, q: Queues, scope: string, id: string)
    requires Sound(c) && QueuesOk(c, l, q) && Acknowledgeable(q, scope, id) && q.cycle < MAX_SAFE && AllCanonical(c, q.deferred)
    ensures Recordable(c, AckDelta(c, l, q, scope))
    ensures AllCanonical(c, ApplyDelta(l, Released(q, id), AckDelta(c, l, q, scope)).deferred)
  {
    hide Canonical, Formed, ById, Restrict, Apply, Count, Promoted, Cooling;
    PromotedIds(c, l, q, scope);
    AckApplied(c, l, q, scope, id);
  }

  lemma {:induction false} StepRecordable(c: Platform, l: Limits, s: Scheduler, op: Op)
    requires Sound(c) && QueuesOk(c, l, s.queues) && OpOk(c, op) && Accepted(c, s, op) && Fits(c, op)
    requires l.maxPerCycle <= MAX_LISTED && l.maxDeferred <= MAX_LISTED && DeferredOk(l, s.queues)
    requires AllCanonical(c, s.queues.deferred) && s.queues.cycle < MAX_SAFE
    ensures Recordable(c, Decide(c, l, s, op).delta)
    ensures AllCanonical(c, After(c, l, s, op).queues.deferred)
    ensures After(c, l, s, op).queues.cycle <= s.queues.cycle + 1
  {
    hide ApplyDelta, MakePlan, Promoted, Formed, Canonical, Proposed, Sound, ValidText, Tallied, Recordable, AllCanonical, Count, Succeeds;
    var q := s.queues;
    StepSucceeds(c, l, s, op);
    CycleOf(c, l, s, op);
    match op
    case Schedule(t, incoming) => PlanRecordable(c, l, q, ScopeName(t), incoming);
    case Acknowledge(t, id) => AckRecordable(c, l, q, ScopeName(t), id);
    case Outcome(t, solveId, shape, passed) =>
      var p := Proposed(c, s, t, solveId, shape, passed);
      EvidenceFits(c, s, t, solveId, shape, passed);
      NothingApplied(l, q);
      EmptyRecordable(c, q.cycle);
      if p.Some? {
        PlanRecordable(c, l, q, ScopeName(t), [p.value]);
      }
  }

  lemma {:induction false} CycleOf(c: Platform, l: Limits, s: Scheduler, op: Op)
    requires Sound(c) && QueuesOk(c, l, s.queues) && OpOk(c, op) && Accepted(c, s, op)
    ensures After(c, l, s, op).queues.cycle <= s.queues.cycle + 1
  {
    hide ApplyDelta, MakePlan, Promoted, Formed, Canonical, Proposed, Sound, ValidText, Tallied, Count, Stamp, QueuesOk, OthersUntouched, Cooling;
    StepSucceeds(c, l, s, op);
  }

  lemma {:induction false} CanonicalRun(c: Platform, l: Limits, ops: seq<Op>)
    requires Sound(c) && |ops| <= MAX_SAFE && forall op :: op in ops ==> OpOk(c, op) && Fits(c, op)
    requires l.maxPerCycle <= MAX_LISTED && l.maxDeferred <= MAX_LISTED
    ensures var (s, journal) := Exec(c, l, ops);
      && s.queues.cycle <= |ops| && AllCanonical(c, s.queues.deferred) && forall e :: e in journal ==> Recordable(c, e.delta)
  {
    hide OpOk, Recordable, Decide, After, Accepted, Formed, Count, Fits, Canonical;
    if ops != [] {
      var op := ops[|ops| - 1];
      CanonicalRun(c, l, ops[..|ops| - 1]);
      var (s, journal) := Exec(c, l, ops[..|ops| - 1]);
      if Accepted(c, s, op) {
        StepRecordable(c, l, s, op);
      }
    }
  }

  /**
   With canonical input and per-cycle and backlog limits of at most ten thousand, a restart always rebuilds exactly the
   live cycle, stamps, queues, observed solves and outcome tallies, whatever was called in whatever order.
   */
  lemma {:induction false} RestartIsExact(c: Platform, l: Limits, ops: seq<Op>)
    requires Sound(c) && |ops| <= MAX_SAFE && forall op :: op in ops ==> OpOk(c, op) && Fits(c, op)
    requires l.maxPerCycle <= MAX_LISTED && l.maxDeferred <= MAX_LISTED
    ensures Replay(c, l, Exec(c, l, ops).1) == Exec(c, l, ops).0
  {
    hide OpOk, Recordable, Fits, Exec, Replay, QueuesOk;
    CanonicalRun(c, l, ops);
    RestoreRebuilds(c, l, ops);
  }

  // ---- spacing ----

  lemma {:induction false} StampAdds(last: map<string, nat>, s: seq<Proposal>, cycle: nat)
    requires forall id :: id in last ==> last[id] <= cycle
    ensures forall p :: p in s ==> p.id in last + Stamp(Ids(s), cycle) && (last + Stamp(Ids(s), cycle))[p.id] == cycle
    ensures forall id :: id in last ==> id in last + Stamp(Ids(s), cycle) && last[id] <= (last + Stamp(Ids(s), cycle))[id]
  {
    hide ById;
  }

  /** Every scheduling in the journal has a stamp at least as late. */
  lemma {:induction false} RunStamps(c: Platform, l: Limits, ops: seq<Op>)
    requires Sound(c) && forall op :: op in ops ==> OpOk(c, op)
    ensures var (s, journal) := Exec(c, l, ops);
      forall e, p :: e in journal && p in e.delta.scheduled ==> p.id in s.queues.last && e.delta.cycle <= s.queues.last[p.id]
  {
    hide OpOk, Decide, After, Accepted, Count, Stamp, Formed, OthersUntouched, Cooling;
    if ops != [] {
      var op := ops[|ops| - 1];
      RunStamps(c, l, ops[..|ops| - 1]);
      var (s, journal) := Exec(c, l, ops[..|ops| - 1]);
      if Accepted(c, s, op) {
        StepSucceeds(c, l, s, op);
        var d := Decide(c, l, s, op).delta;
        StampAdds(s.queues.last, d.scheduled, d.cycle);
      }
    }
  }

  /** Two schedulings of one proposal, direct or by promotion, are always more than the cooldown apart. */
  lemma {:induction false} SchedulingsAreSpaced(c: Platform, l: Limits, ops: seq<Op>, i: nat, j: nat, p: Proposal, r: Proposal)
    requires Sound(c) && forall op :: op in ops ==> OpOk(c, op)
    requires i < j < |Exec(c, l, ops).1| && p.id == r.id
    requires p in Exec(c, l, ops).1[i].delta.scheduled && r in Exec(c, l, ops).1[j].delta.scheduled
    ensures Exec(c, l, ops).1[j].delta.cycle - Exec(c, l, ops).1[i].delta.cycle > l.cooldown
  {
    hide OpOk, Decide, After, Accepted, Count, Stamp, Good, OthersUntouched;
    var op := ops[|ops| - 1];
    var (s, journal) := Exec(c, l, ops[..|ops| - 1]);
    if j < |journal| {
      SchedulingsAreSpaced(c, l, ops[..|ops| - 1], i, j, p, r);
    } else {
      RunStamps(c, l, ops[..|ops| - 1]);
      StepSucceeds(c, l, s, op);
      assert journal[i] in journal;
      assert p.id in s.queues.last && journal[i].delta.cycle <= s.queues.last[p.id];
    }
  }

  /** In any reachable state, an operation in one scope leaves what every other scope has ready and deferred unchanged. */
  lemma {:induction false} ScopesAreIsolated(c: Platform, l: Limits, ops: seq<Op>, op: Op, other: string)
    requires Sound(c) && OpOk(c, op) && (forall o :: o in ops ==> OpOk(c, o)) && other != ScopeName(op.tenant)
    ensures var q, r := Exec(c, l, ops).0.queues, After(c, l, Exec(c, l, ops).0, op).queues;
      Restrict(r.pending, other) == Restrict(q.pending, other) && Restrict(r.deferred, other) == Restrict(q.deferred, other)
  {
    hide Restrict, OpOk, Exec, Decide, Perform, Accepted, Stamp, Count, Formed, Cooling;
    var s := Exec(c, l, ops).0;
    if Accepted(c, s, op) {
      StepSucceeds(c, l, s, op);
    }
  }

  // ---- outcomes ----

  /** All solves counted in a table of tallies. */
  ghost function Seen(tallies: map<string, Tally>): nat {
    if tallies == map[] then 0
    else
      var key :| key in tallies;
      tallies[key].total + Seen(tallies - {key})
  }

  lemma {:induction false} SeenWithout(tallies: map<string, Tally>, key: string)
    requires key in tallies
    ensures Seen(tallies) == tallies[key].total + Seen(tallies - {key})
    decreases |tallies|
  {
    var k :| k in tallies && Seen(tallies) == tallies[k].total + Seen(tallies - {k});
    if k != key {
      assert |(tallies - {k}).Keys| < |tallies.Keys|;
      SeenWithout(tallies - {k}, key);
      SeenWithout(tallies - {key}, k);
      assert (tallies - {k}) - {key} == (tallies - {key}) - {k};
    }
  }

  lemma {:induction false} SeenOnce(tallies: map<string, Tally>, key: string, passed: bool)
    ensures Seen(tallies[key := Tallied(tallies, key, passed)]) == Seen(tallies) + 1
  {
    var next := tallies[key := Tallied(tallies, key, passed)];
    SeenWithout(next, key);
    assert next - {key} == tallies - {key};
    if key in tallies {
      SeenWithout(tallies, key);
    } else {
      assert tallies - {key} == tallies;
    }
  }

  /** One accepted outcome is observed and tallied once; nothing else touches the tallies. */
  lemma {:induction false} StepCounts(c: Platform, l: Limits, s: Scheduler, op: Op)
    requires Sound(c) && Keyed(s.queues.deferred) && Accepted(c, s, op)
    ensures var r := After(c, l, s, op);
      if !op.Outcome? then r.observed == s.observed && r.tallies == s.tallies
      else
        var seen, key := Pair(ScopeName(op.tenant), op.solveId), Pair(ScopeName(op.tenant), op.shape);
        && seen !in s.observed && r.observed == s.observed + {seen}
        && r.tallies == s.tallies[key := Tallied(s.tallies, key, op.passed)]
  {
    hide ApplyDelta, MakePlan, Promoted, Proposed, ValidText, Pair, Ids, Tallied;
  }

  /** Over any run, the tallies together count every observed solve exactly once, and no more failures than solves. */
  lemma {:induction false} OutcomesCountOnce(c: Platform, l: Limits, ops: seq<Op>)
    requires Sound(c) && forall op :: op in ops ==> OpOk(c, op)
    ensures var s := Exec(c, l, ops).0;
      && Seen(s.tallies) == |s.observed|
      && forall key :: key in s.tallies ==> s.tallies[key].failures <= s.tallies[key].total
  {
    hide OpOk, Formed, Count, Seen, After, Decide, Accepted, Pair;
    if ops == [] {
      SeenNone();
    } else {
      var op := ops[|ops| - 1];
      OutcomesCountOnce(c, l, ops[..|ops| - 1]);
      var s := Exec(c, l, ops[..|ops| - 1]).0;
      if Accepted(c, s, op) {
        StepCounts(c, l, s, op);
        if op.Outcome? {
          SeenOnce(s.tallies, Pair(ScopeName(op.tenant), op.shape), op.passed);
        }
      }
    }
  }

  lemma {:induction false} SeenNone()
    ensures Seen(map[]) == 0
  {
  }
}
