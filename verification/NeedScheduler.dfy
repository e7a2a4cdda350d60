/**
 The scheduler object: it journals each change as a delta before applying it to its own queues, and rebuilds itself
 from the journal when it starts.
 */
module NeedSchedulers {
  import opened Prelude
  import opened NeedProposals
  import opened FairOrders
  import opened NeedPlans
  import opened NeedReplays
  import opened NeedRuns
  import opened NeedRestarts

  /** A sequence that holds a collection once each is read back as that collection. */
  lemma {:induction false} HoldsIsById(s: seq<Proposal>, m: map<string, Proposal>)
    requires DistinctIds(s) && Keyed(m) && Holds(s, m)
    ensures ById(s) == m
  {
    ByIdHolds(s);
    hide ById, DistinctIds;
    forall id ensures id in ById(s) <==> id in m {
      if id in ById(s) {
        assert ById(s)[id] in s;
      }
      if id in m {
        assert m[id] in s;
      }
    }
  }

  lemma {:induction false} ByIdMore(s: seq<Proposal>, p: Proposal)
    ensures ById(s + [p]) == ById(s)[p.id := p]
  {
    assert (s + [p])[..|s + [p]| - 1] == s;
    ByIdLast(s + [p]);
  }

  /** The values of a collection, in some order. */
  method ValuesOf(m: map<string, Proposal>) returns (s: seq<Proposal>)
    requires Keyed(m)
    ensures DistinctIds(s) && ById(s) == m
  {
    s := [];
    var left := m.Keys;
    while left != {}
      invariant left <= m.Keys && DistinctIds(s)
      invariant forall p :: p in s <==> p.id in m && p.id !in left && m[p.id] == p
      decreases |left|
    {
      var id :| id in left;
      s := s + [m[id]];
      left := left - {id};
    }
    HoldsIsById(s, m);
  }

  lemma {:induction false} OverrideMore(base: map<string, Proposal>, s: seq<Proposal>, i: nat)
    requires i < |s|
    ensures (base + ById(s[..i]))[s[i].id := s[i]] == base + ById(s[..i + 1])
  {
    ByIdMore(s[..i], s[i]);
    assert s[..i + 1] == s[..i] + [s[i]];
    hide ById;
    AddMore(base, ById(s[..i]), s[i].id, s[i]);
  }

  /** Sets each proposal of a sequence in a collection, in turn. */
  method Override(base: map<string, Proposal>, s: seq<Proposal>) returns (m: map<string, Proposal>)
    ensures m == base + ById(s)
  {
    m := base;
    ByIdNone();
    assert base + map[] == base && s[..0] == [] && s[..|s|] == s;
    hide ById;
    for i := 0 to |s|
      invariant m == base + ById(s[..i])
    {
      OverrideMore(base, s, i);
      m := m[s[i].id := s[i]];
    }
  }

  function Tell(m: map<string, nat>, key: string): nat { if key in m then m[key] else 0 }

  /** The part of a collection that has been visited. */
  function Visited(m: map<string, Proposal>, left: set<string>): map<string, Proposal> { m - left }

  lemma {:induction false} CountMore(m: map<string, Proposal>, left: set<string>, id: string, scope: string)
    requires id in m && id in left
    ensures Count(Visited(m, left - {id}), scope) == Count(Visited(m, left), scope) + if ScopeOf(m[id]) == scope then 1 else 0
  {
    hide ScopeOf;
    var a, b := Restrict(Visited(m, left), scope), Restrict(Visited(m, left - {id}), scope);
    if ScopeOf(m[id]) == scope {
      assert b == a[id := m[id]];
    } else {
      assert b == a;
    }
  }

  lemma {:induction false} NoneVisited(m: map<string, Proposal>)
    ensures Visited(m, {}) == m
    ensures forall scope :: Count(Visited(m, m.Keys), scope) == 0
  {
    forall scope ensures Count(Visited(m, m.Keys), scope) == 0 {
      assert Restrict(Visited(m, m.Keys), scope) == map[];
    }
  }

  /** How many proposals each scope has pending. */
  method CountByScope(m: map<string, Proposal>) returns (counts: map<string, nat>)
    ensures forall scope :: Tell(counts, scope) == Count(m, scope)
  {
    hide Count, Visited, ScopeOf;
    counts := map[];
    var left := m.Keys;
    NoneVisited(m);
    while left != {}
      invariant left <= m.Keys
      invariant forall scope :: Tell(counts, scope) == Count(Visited(m, left), scope)
      decreases |left|
    {
      var id :| id in left;
      var s := ScopeOf(m[id]);
      ghost var before := counts;
      counts := counts[s := Tell(counts, s) + 1];
      forall scope ensures Tell(counts, scope) == Count(Visited(m, left - {id}), scope) {
        CountMore(m, left, id, scope);
      }
      left := left - {id};
    }
  }

  /** The proposals that a reader of the journal accepts. */
  method ReadProposals(c: Platform, s: seq<Proposal>) returns (r: seq<Proposal>)
    ensures r == DecodeProposals(c, s)
  {
    if |s| > MAX_LISTED {
      return [];
    }
    r := [];
    for i := 0 to |s|
      invariant r == Readable(c, s[..i])
    {
      assert s[..i + 1][..i] == s[..i];
      if Canonical(c, s[i]) {
        r := r + [s[i]];
      }
    }
    assert s[..|s|] == s;
  }

  /** The first of a backlog that is not cooling down. */
  method FindDue(l: Limits, last: map<string, nat>, backlog: seq<Proposal>, cycle: nat) returns (due: seq<Proposal>)
    ensures due == FirstDue(l, last, backlog, cycle)
  {
    var i := 0;
    while i < |backlog| && Cooling(l, last, backlog[i].id, cycle)
      invariant i <= |backlog| && FirstDue(l, last, backlog[i..], cycle) == FirstDue(l, last, backlog, cycle)
    {
      assert backlog[i..][1..] == backlog[i + 1..];
      i := i + 1;
    }
    due := if i < |backlog| then [backlog[i]] else [];
  }

  type Quotas = map<(string, NeedKind), nat>

  function Taken(m: Quotas, scope: string, kind: NeedKind): nat { if (scope, kind) in m then m[(scope, kind)] else 0 }

  lemma {:induction false} KindCountMore(s: seq<Proposal>, p: Proposal)
    ensures forall k :: KindCount(s + [p], k) == KindCount(s, k) + if p.kind == k then 1 else 0
  {
    assert (s + [p])[..|s + [p]| - 1] == s;
  }

  /** Chooses from ordered candidates of one scope while the cycle, kind and queue limits have room. */
  method Choose(l: Limits, q: Queues, cycle: nat, scope: string, ordered: seq<Proposal>)
    returns (scheduled: seq<Proposal>, deferred: seq<Proposal>)
    requires InScope(ordered, scope)
    ensures (scheduled, deferred) == Select(l, q, Count(q.pending, scope), cycle, ordered)
  {
    hide Count, KindCount, ScopeOf, Cooling;
    scheduled, deferred := [], [];
    var byScopeKind: Quotas := map[];
    var pendingCounts: map<string, nat> := CountByScope(q.pending);
    ghost var waiting := Count(q.pending, scope);
    NoKinds();
    for i := 0 to |ordered|
      invariant (scheduled, deferred) == Select(l, q, waiting, cycle, ordered[..i])
      invariant forall k :: Taken(byScopeKind, scope, k) == KindCount(scheduled, k)
      invariant Tell(pendingCounts, scope) == waiting + |scheduled|
    {
      var p := ordered[i];
      assert ordered[..i + 1][..i] == ordered[..i];
      assert p in ordered;
      if p.id in q.pending {
        continue;
      }
      var s := ScopeOf(p);
      var cooling := Cooling(l, q.last, p.id, cycle);
      var kindFull := Taken(byScopeKind, s, p.kind) >= l.maxPerKind;
      var scopeFull := Tell(pendingCounts, s) >= l.maxPending;
      if cooling || kindFull || scopeFull || |scheduled| >= l.maxPerCycle {
        deferred := deferred + [p];
        continue;
      }
      KindCountMore(scheduled, p);
      scheduled := scheduled + [p];
      byScopeKind := byScopeKind[(s, p.kind) := Taken(byScopeKind, s, p.kind) + 1];
      pendingCounts := pendingCounts[s := Tell(pendingCounts, s) + 1];
    }
    assert ordered[..|ordered|] == ordered;
  }

  lemma {:induction false} NoKinds()
    ensures forall k :: KindCount([], k) == 0
  {
  }

  class BoundedNeedScheduler {
    const c: Platform
    const l: Limits
    var cycle: nat
    var lastScheduled: map<string, nat>
    var pendingById: map<string, Proposal>
    var deferredById: map<string, Proposal>
    var observedSolves: set<string>
    var outcomeCounts: map<string, Tally>
    var journal: seq<Event>

    function Held(): Queues
      reads this
    {
      Queues(cycle, lastScheduled, pendingById, deferredById)
    }

    function State(): Scheduler
      reads this
    {
      Scheduler(Held(), observedSolves, outcomeCounts)
    }

    ghost predicate Valid()
      reads this
    {
      Sound(c) && QueuesOk(c, l, Held())
    }

    /** Starts from what the journal says; whatever that is, the object is in a valid state. */
    constructor (platform: Platform, limits: Limits, events: seq<Event>)
      ensures c == platform && l == limits && journal == events
      ensures State() == Replay(platform, limits, events)
      ensures Sound(platform) ==> Valid()
    {
      c, l, journal := platform, limits, events;
      cycle, lastScheduled, pendingById, deferredById := 0, map[], map[], map[];
      observedSolves, outcomeCounts := {}, map[];
      new;
      hide Replay, QueuesOk, Sound;
      Restore();
      if Sound(platform) {
        ReplayKeeps(platform, limits, events);
      }
    }

    /** A scope's ready queue, in order. */
    method ReadyFor(scope: string) returns (s: seq<Proposal>)
      requires Sound(c) && Keyed(pendingById)
      ensures s == Listing(c, Restrict(pendingById, scope))
    {
      s := SortedValues(c, Restrict(pendingById, scope));
    }

    /** A scope's backlog, in order. */
    method DeferredFor(scope: string) returns (s: seq<Proposal>)
      requires Sound(c) && Keyed(deferredById)
      ensures s == Listing(c, Restrict(deferredById, scope))
    {
      s := SortedValues(c, Restrict(deferredById, scope));
    }

    /** Applies one delta: remove, then move in what is scheduled, then put back what there is room for. */
    method ApplyScheduleDelta(now: nat, scheduled: seq<Proposal>, added: seq<Proposal>, removed: set<string>)
      modifies this`cycle, this`lastScheduled, this`pendingById, this`deferredById
      ensures Held() == Apply(l, old(Held()), now, scheduled, added, removed)
    {
      hide Count, ScopeOf;
      cycle := Max(cycle, now);
      var left := removed;
      while left != {}
        invariant left <= removed && Held() == old(Held()).(cycle := cycle, deferred := old(deferredById) - (removed - left))
        invariant cycle == Max(old(cycle), now)
        decreases |left|
      {
        var id :| id in left;
        assert (old(deferredById) - (removed - left)) - {id} == old(deferredById) - (removed - (left - {id}));
        deferredById := deferredById - {id};
        left := left - {id};
      }
      ghost var q1 := Held();
      assert removed - {} == removed;
      for i := 0 to |scheduled|
        invariant Held() == Admit(l, q1, scheduled[..i], now)
      {
        var p := scheduled[i];
        assert scheduled[..i + 1][..i] == scheduled[..i];
        if Count(pendingById, ScopeOf(p)) >= l.maxPending && p.id !in pendingById {
          deferredById := deferredById[p.id := p];
        } else {
          lastScheduled := lastScheduled[p.id := now];
          pendingById := pendingById[p.id := p];
          deferredById := deferredById - {p.id};
        }
      }
      assert scheduled[..|scheduled|] == scheduled;
      ghost var q2 := Held();
      for i := 0 to |added|
        invariant Held() == Defer(l, q2, added[..i])
      {
        var p := added[i];
        assert added[..i + 1][..i] == added[..i];
        if p.id !in pendingById && (p.id in deferredById || Count(deferredById, ScopeOf(p)) < l.maxDeferred) {
          deferredById := deferredById[p.id := p];
        }
      }
      assert added[..|added|] == added;
    }

    /** Rebuilds the state from the journal, event by event. */
    method Restore()
      requires State() == EMPTY
      modifies this`cycle, this`lastScheduled, this`pendingById, this`deferredById, this`observedSolves, this`outcomeCounts
      ensures State() == Replay(c, l, journal)
    {
      hide Apply, DecodeIds, DecodeProposals, ValidText, ValidScopeKey;
      for i := 0 to |journal|
        invariant State() == Replay(c, l, journal[..i])
      {
        assert journal[..i + 1][..i] == journal[..i];
        RestoreEvent(journal[i]);
      }
      assert journal[..|journal|] == journal;
    }

    /** Takes up one journaled event, or skips it. */
    method RestoreEvent(e: Event)
      modifies this`cycle, this`lastScheduled, this`pendingById, this`deferredById, this`observedSolves, this`outcomeCounts
      ensures State() == ReplayStep(c, l, old(State()), e)
    {
      hide Apply, DecodeIds, DecodeProposals, ValidText, ValidScopeKey;
      if !(e.delta.cycle <= MAX_SAFE) {
        return;
      }
      match e
      case Scheduled(_) =>
        RestoreSchedule(e.delta);
      case Observed(solveId, scope, shape, passed, _) =>
        if ValidText(c, solveId, 512) && ValidScopeKey(c, scope) && ValidText(c, shape, 512) && Pair(scope, solveId) !in observedSolves {
          Observe(scope, solveId, shape, passed);
          RestoreSchedule(e.delta);
        }
      case Acknowledged(id, scope, _) =>
        if ValidText(c, id, 4096) && ValidScopeKey(c, scope) && id in pendingById && ScopeOf(pendingById[id]) == scope {
          pendingById := pendingById - {id};
          deferredById := deferredById - {id};
          RestoreSchedule(e.delta);
        }
    }

    method RestoreSchedule(d: Delta)
      modifies this`cycle, this`lastScheduled, this`pendingById, this`deferredById
      ensures Held() == ApplyDelta(l, old(Held()), DecodeDelta(c, d))
    {
      var scheduled := ReadProposals(c, d.scheduled);
      var added := ReadProposals(c, d.added);
      ApplyScheduleDelta(d.cycle, scheduled, added, DecodeIds(c, d.removed));
    }

    /** Marks a solve as observed and tallies its outcome. */
    method Observe(scope: string, solveId: string, shape: string, passed: bool)
      modifies this`observedSolves, this`outcomeCounts
      ensures State() == Counted(old(State()), scope, solveId, shape, passed)
    {
      var key := Pair(scope, shape);
      observedSolves := observedSolves + {Pair(scope, solveId)};
      outcomeCounts := outcomeCounts[key := Tallied(outcomeCounts, key, passed)];
    }

    /** The scope's backlog overridden by what comes in, as a collection. */
    method Gather(scope: string, incoming: seq<Proposal>) returns (candidates: map<string, Proposal>)
      requires Sound(c) && Keyed(deferredById)
      ensures candidates == Candidates(Held(), scope, incoming)
    {
      hide ById, Ordered, Sound, DistinctIds;
      var backlog := DeferredFor(scope);
      ghost var stored := Restrict(deferredById, scope);
      OrderedDistinct(c, backlog, stored);
      HoldsIsById(backlog, stored);
      candidates := Override(map[], backlog);
      assert map[] + ById(backlog) == stored;
      candidates := Override(candidates, incoming);
    }

    /** Plans one cycle of a scope without changing anything. */
    method PlanSchedule(scope: string, incoming: seq<Proposal>, now: nat) returns (plan: Plan)
      requires Valid() && Admissible(c, scope, incoming) && 0 < now
      ensures plan == MakePlan(c, l, Held(), scope, incoming, now)
    {
      hide Sound, ById, Ordered, Formed, Count, Candidates, Select, IsFairOrder, DistinctIds, Restrict, Splits;
      var q := Held();
      var candidates := Gather(scope, incoming);
      CandidatesGood(c, l, q, scope, incoming);
      var values := ValuesOf(candidates);
      var ordered := FairOrder(c, values, now);
      FairOrderOfOneScope(c, candidates, now, ordered, scope);
      ListedInScope(c, candidates, ordered, scope);
      var scheduled, deferred := Choose(l, q, now, scope, ordered);
      OrderedDistinct(c, ordered, candidates);
      DeferredSorted(c, l, q, scope, now, ordered);
      var queue := SortQueue(c, deferred);
      ListingUnique(c, queue, deferred);
      var n := if |queue| <= l.maxDeferred then |queue| else l.maxDeferred;
      var bounded, evicted := queue[..n], queue[n..];
      plan := Plan(scheduled, bounded, NewIn(bounded, deferredById), Restrict(deferredById, scope).Keys - Ids(bounded), evicted);
    }

    /** Plans, journals, then applies. */
    method CommitSchedule(tenant: Option<string>, incoming: seq<Proposal>) returns (scheduled: seq<Proposal>, deferred: seq<Proposal>)
      requires Valid() && OpOk(c, Schedule(tenant, incoming))
      modifies this
      ensures Valid() && State() == After(c, l, old(State()), Schedule(tenant, incoming))
      ensures journal == old(journal) + [Decide(c, l, old(State()), Schedule(tenant, incoming))]
      ensures var plan := MakePlan(c, l, old(Held()), ScopeName(tenant), incoming, old(cycle) + 1);
        scheduled == plan.scheduled && deferred == plan.deferred
    {
      hide MakePlan, Apply, Formed, Sound, Succeeds, Promoted, Proposed, ValidText, ScopeName;
      var nextCycle := cycle + 1;
      StepIsValid(c, l, State(), Schedule(tenant, incoming));
      var plan := PlanSchedule(ScopeName(tenant), incoming, nextCycle);
      journal := journal + [Scheduled(Delta(nextCycle, plan.scheduled, plan.added, plan.removed))];
      ApplyScheduleDelta(nextCycle, plan.scheduled, plan.added, plan.removed);
      scheduled, deferred := plan.scheduled, plan.deferred;
    }

    /** Tallies a solve once; a task shape that keeps failing may bring in an evaluation-data proposal. */
    method OnOutcome(tenant: Option<string>, solveId: string, shape: string, passed: bool)
      requires Valid() && OpOk(c, Outcome(tenant, solveId, shape, passed))
      modifies this
      ensures Valid() && State() == After(c, l, old(State()), Outcome(tenant, solveId, shape, passed))
      ensures journal == old(journal) + if Accepted(c, old(State()), Outcome(tenant, solveId, shape, passed))
                                        then [Decide(c, l, old(State()), Outcome(tenant, solveId, shape, passed))] else []
    {
      hide MakePlan, Apply, Formed, Sound, Succeeds, Promoted, Proposed, ValidText, ScopeName, Admissible, Tallied, Pair;
      ghost var op := Outcome(tenant, solveId, shape, passed);
      ghost var before := State();
      if !(ValidText(c, solveId, 512) && ValidText(c, shape, 512)) {
        return;
      }
      var scope := ScopeName(tenant);
      if Pair(scope, solveId) in observedSolves {
        return;
      }
      StepIsValid(c, l, before, op);
      EvidenceFits(c, before, tenant, solveId, shape, passed);
      var proposal := Proposed(c, State(), tenant, solveId, shape, passed);
      var delta := Delta(cycle, [], [], {});
      if proposal.Some? {
        var plan := PlanSchedule(scope, [proposal.value], cycle + 1);
        delta := Delta(cycle + 1, plan.scheduled, plan.added, plan.removed);
      }
      journal := journal + [Observed(solveId, scope, shape, passed, delta)];
      Observe(scope, solveId, shape, passed);
      ApplyScheduleDelta(delta.cycle, delta.scheduled, delta.added, delta.removed);
    }

    /** Releases a pending proposal of the scope and promotes the first due one of its backlog. */
    method AcknowledgeFor(tenant: Option<string>, id: string) returns (ok: bool)
      requires Valid() && OpOk(c, Acknowledge(tenant, id))
      modifies this
      ensures Valid() && ok == Accepted(c, old(State()), Acknowledge(tenant, id))
      ensures State() == After(c, l, old(State()), Acknowledge(tenant, id))
      ensures journal == old(journal) + if ok then [Decide(c, l, old(State()), Acknowledge(tenant, id))] else []
    {
      hide Apply, Formed, Sound, ValidText, ScopeName, ScopeOf, FirstDue, Decide, After, Ids, QueuesOk, Restrict, OpOk, Listing;
      ghost var op := Acknowledge(tenant, id);
      ghost var before := State();
      BacklogKeyed(c, l, Held());
      AckDecision(c, l, before, tenant, id);
      if !ValidText(c, id, 4096) {
        return false;
      }
      var scope := ScopeName(tenant);
      if id !in pendingById || ScopeOf(pendingById[id]) != scope {
        return false;
      }
      StepIsValid(c, l, before, op);
      var nextCycle := cycle + 1;
      var backlog := DeferredFor(scope);
      var promoted := FindDue(l, lastScheduled, backlog, nextCycle);
      var promotedIds := Ids(promoted);
      journal := journal + [Acknowledged(id, scope, Delta(nextCycle, promoted, [], promotedIds))];
      pendingById := pendingById - {id};
      deferredById := deferredById - {id};
      ApplyScheduleDelta(nextCycle, promoted, [], promotedIds);
      return true;
    }
  }

  lemma {:induction false} StepIsValid(c: Platform, l: Limits, s: Scheduler, op: Op)
    requires Sound(c) && QueuesOk(c, l, s.queues) && OpOk(c, op) && Accepted(c, s, op)
    ensures QueuesOk(c, l, After(c, l, s, op).queues)
  {
    hide After, Accepted, QueuesOk, OthersUntouched;
    StepSucceeds(c, l, s, op);
  }

  lemma {:induction false} BacklogKeyed(c: Platform, l: Limits, q: Queues)
    requires QueuesOk(c, l, q)
    ensures Keyed(q.deferred)
  {
  }

  lemma {:induction false} AckDecision(c: Platform, l: Limits, s: Scheduler, tenant: Option<string>, id: string)
    requires Sound(c) && Keyed(s.queues.deferred)
    ensures var op, d := Acknowledge(tenant, id), AckDelta(c, l, s.queues, ScopeName(tenant));
      if !Accepted(c, s, op) then After(c, l, s, op) == s
      else
        && Decide(c, l, s, op) == Acknowledged(id, ScopeName(tenant), d)
        && After(c, l, s, op) == s.(queues := Apply(l, Released(s.queues, id), d.cycle, d.scheduled, d.added, d.removed))
  {
    hide Apply, Promoted, Ids;
  }

  lemma {:induction false} ListedInScope(c: Platform, m: map<string, Proposal>, s: seq<Proposal>, scope: string)
    requires Holds(s, m) && AllInScope(m, scope)
    ensures InScope(s, scope)
  {
  }

  lemma {:induction false} DeferredSorted(c: Platform, l: Limits, q: Queues, scope: string, cycle: nat, ordered: seq<Proposal>)
    requires Ordered(c, ordered) && DistinctIds(ordered) && Count(q.pending, scope) <= l.maxPending
    ensures var back := Select(l, q, Count(q.pending, scope), cycle, ordered).1; Ordered(c, back) && DistinctIds(back)
  {
    SelectSplits(c, l, q, Count(q.pending, scope), cycle, ordered);
    var back := Select(l, q, Count(q.pending, scope), cycle, ordered).1;
    hide Select, Count;
    ByIdHolds(ordered);
    OrderedDistinct(c, back, ById(ordered));
  }
}
