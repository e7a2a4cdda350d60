/**
 Restarts of the need scheduler that are not exact: journals written by anyone, under other limits or with events
 missing, and what they still leave; limits that may change safely; and a proposal that a restart loses.
 */
module NeedRestarts {
  import opened Prelude
  import opened NeedProposals
  import opened NeedPlans
  import opened NeedReplays
  import opened NeedRuns

  // ---- what every replay keeps ----

  /** The collection after one more of a scope's proposals, as far as each scope's number goes. */
  lemma {:induction false} CountPut(c: Platform, m: map<string, Proposal>, p: Proposal, scope: string)
    requires Sound(c) && Good(c, m) && Formed(c, p)
    ensures Count(m[p.id := p], scope) == Count(m, scope) + if p.id !in m && ScopeOf(p) == scope then 1 else 0
  {
    hide Formed, ScopeOf, Sound;
    var a, b := Restrict(m, scope), Restrict(m[p.id := p], scope);
    if p.id in m {
      SameIdSameScope(c, m[p.id], p);
      assert b.Keys == a.Keys;
      assert |b.Keys| == |a.Keys|;
    } else if ScopeOf(p) == scope {
      assert b == a[p.id := p];
    } else {
      assert b == a;
    }
  }

  lemma {:induction false} GoodPut(c: Platform, m: map<string, Proposal>, p: Proposal)
    requires Good(c, m) && Formed(c, p)
    ensures Good(c, m[p.id := p])
  {
    hide Formed;
  }

  lemma {:induction false} AdmitOneKeeps(c: Platform, l: Limits, q: Queues, p: Proposal, cycle: nat)
    requires Sound(c) && QueuesOk(c, l, q) && Formed(c, p) && cycle <= q.cycle
    ensures QueuesOk(c, l, AdmitOne(l, q, p, cycle)) && AdmitOne(l, q, p, cycle).cycle == q.cycle
  {
    hide Formed, Count, Good, ScopeOf, Sound;
    GoodPut(c, q.pending, p);
    GoodPut(c, q.deferred, p);
    GoodRemove(c, q.deferred, {p.id});
    var r := AdmitOne(l, q, p, cycle);
    forall scope ensures Count(r.pending, scope) <= l.maxPending {
      CountPut(c, q.pending, p, scope);
    }
  }

  lemma {:induction false} AdmitKeeps(c: Platform, l: Limits, q: Queues, s: seq<Proposal>, cycle: nat)
    requires Sound(c) && QueuesOk(c, l, q) && (forall p :: p in s ==> Formed(c, p)) && cycle <= q.cycle
    ensures QueuesOk(c, l, Admit(l, q, s, cycle)) && Admit(l, q, s, cycle).cycle == q.cycle
  {
    hide Formed, QueuesOk, AdmitOne;
    if s != [] {
      assert s[|s| - 1] in s;
      AdmitKeeps(c, l, q, s[..|s| - 1], cycle);
      AdmitOneKeeps(c, l, Admit(l, q, s[..|s| - 1], cycle), s[|s| - 1], cycle);
    }
  }

  lemma {:induction false} DeferKeeps(c: Platform, l: Limits, q: Queues, s: seq<Proposal>)
    requires Sound(c) && QueuesOk(c, l, q) && forall p :: p in s ==> Formed(c, p)
    ensures QueuesOk(c, l, Defer(l, q, s))
  {
    hide Formed, Count;
    if s != [] {
      assert s[|s| - 1] in s;
      DeferKeeps(c, l, q, s[..|s| - 1]);
      GoodPut(c, Defer(l, q, s[..|s| - 1]).deferred, s[|s| - 1]);
    }
  }

  lemma {:induction false} ApplyKeeps(c: Platform, l: Limits, q: Queues, d: Delta)
    requires Sound(c) && QueuesOk(c, l, q) && forall p :: p in d.scheduled || p in d.added ==> Formed(c, p)
    ensures QueuesOk(c, l, ApplyDelta(l, q, d))
  {
    hide Formed, Count, Admit, Defer, Good;
    var q1 := q.(cycle := Max(q.cycle, d.cycle), deferred := q.deferred - d.removed);
    GoodRemove(c, q.deferred, d.removed);
    AdmitKeeps(c, l, q1, d.scheduled, d.cycle);
    DeferKeeps(c, l, Admit(l, q1, d.scheduled, d.cycle), d.added);
  }

  lemma {:induction false} ReleasedKeeps(c: Platform, l: Limits, q: Queues, id: string)
    requires QueuesOk(c, l, q) && id in q.pending
    ensures QueuesOk(c, l, Released(q, id))
  {
    hide Count, Good;
    GoodRemove(c, q.pending, {id});
    GoodRemove(c, q.deferred, {id});
    forall scope ensures Count(q.pending - {id}, scope) <= Count(q.pending, scope) {
      RestrictRemove(q.pending, {id}, ScopeOf(q.pending[id]), scope);
    }
  }

  lemma {:induction false} DecodedFormed(c: Platform, d: Delta)
    ensures forall p :: p in DecodeDelta(c, d).scheduled || p in DecodeDelta(c, d).added ==> Formed(c, p)
  {
    ReadableMembers(c, d.scheduled);
    ReadableMembers(c, d.added);
    hide Formed, Readable, DecodeIds;
  }

  lemma {:induction false} ReplayStepKeeps(c: Platform, l: Limits, s: Scheduler, e: Event)
    requires Sound(c) && QueuesOk(c, l, s.queues)
    ensures QueuesOk(c, l, ReplayStep(c, l, s, e).queues)
  {
    hide Formed, QueuesOk, ApplyDelta, DecodeDelta, ValidText, ValidScopeKey, Released;
    DecodedFormed(c, e.delta);
    if Effective(c, s, e) {
      var q := if e.Acknowledged? then Released(s.queues, e.id) else s.queues;
      if e.Acknowledged? {
        ReleasedKeeps(c, l, s.queues, e.id);
      }
      ApplyKeeps(c, l, q, DecodeDelta(c, e.delta));
    }
  }

  /**
   Whatever the journal holds, be it written under other limits, with events missing, repeated, reordered or made up,
   a restart leaves sound queues: ready and deferred apart, every scope's ready queue within the limit, no stamp ahead.
   */
  lemma {:induction false} ReplayKeeps(c: Platform, l: Limits, journal: seq<Event>)
    requires Sound(c)
    ensures QueuesOk(c, l, Replay(c, l, journal).queues)
  {
    hide QueuesOk, ReplayStep;
    if journal == [] {
      EmptyOk(c, l);
    } else {
      ReplayKeeps(c, l, journal[..|journal| - 1]);
      ReplayStepKeeps(c, l, Replay(c, l, journal[..|journal| - 1]), journal[|journal| - 1]);
    }
  }

  // ---- what may exceed the backlog's limit ----

  /** Turned away from a full ready queue, into a backlog that is full and does not hold it. */
  predicate Overflows(l: Limits, q: Queues, p: Proposal) {
    && Count(q.pending, ScopeOf(p)) >= l.maxPending && p.id !in q.pending
    && Count(q.deferred, ScopeOf(p)) >= l.maxDeferred && p.id !in q.deferred
  }

  /** Moving in one scheduled proposal keeps every backlog within its limit exactly unless it overflows. */
  lemma {:induction false} AdmitOneOverflows(c: Platform, l: Limits, q: Queues, p: Proposal, cycle: nat)
    requires Sound(c) && QueuesOk(c, l, q) && DeferredOk(l, q) && Formed(c, p)
    ensures DeferredOk(l, AdmitOne(l, q, p, cycle)) <==> !Overflows(l, q, p)
  {
    hide Formed, Count, Good, ScopeOf, Sound;
    var r := AdmitOne(l, q, p, cycle);
    CountPut(c, q.deferred, p, ScopeOf(p));
    if !Overflows(l, q, p) {
      forall scope ensures Count(r.deferred, scope) <= l.maxDeferred {
        CountPut(c, q.deferred, p, scope);
        CountRemoved(q.deferred, p.id, scope);
      }
    }
  }

  lemma {:induction false} CountRemoved(m: map<string, Proposal>, id: string, scope: string)
    ensures Count(m - {id}, scope) <= Count(m, scope)
  {
    if id in m {
      RestrictRemove(m, {id}, ScopeOf(m[id]), scope);
    } else {
      assert m - {id} == m;
    }
  }

  /** Putting back a proposal never exceeds the limit. */
  lemma {:induction false} DeferOneKeepsRoom(c: Platform, l: Limits, q: Queues, p: Proposal)
    requires Sound(c) && QueuesOk(c, l, q) && DeferredOk(l, q) && Formed(c, p)
    ensures DeferredOk(l, DeferOne(l, q, p))
  {
    hide Formed, Count, Good, ScopeOf, Sound;
    forall scope ensures Count(DeferOne(l, q, p).deferred, scope) <= l.maxDeferred {
      CountPut(c, q.deferred, p, scope);
    }
  }

  /** No proposal that the delta moves in overflows when its turn comes. */
  ghost predicate FitsInto(l: Limits, q: Queues, s: seq<Proposal>, cycle: nat) {
    forall i :: 0 <= i < |s| ==> !Overflows(l, Admit(l, q, s[..i], cycle), s[i])
  }

  lemma {:induction false} AdmitFits(c: Platform, l: Limits, q: Queues, s: seq<Proposal>, cycle: nat)
    requires Sound(c) && QueuesOk(c, l, q) && DeferredOk(l, q) && (forall p :: p in s ==> Formed(c, p)) && cycle <= q.cycle
    requires FitsInto(l, q, s, cycle)
    ensures DeferredOk(l, Admit(l, q, s, cycle))
  {
    hide Formed, QueuesOk, AdmitOne, DeferredOk, Overflows;
    if s != [] {
      var rest, last := s[..|s| - 1], s[|s| - 1];
      assert last in s;
      assert forall i :: 0 <= i < |rest| ==> rest[..i] == s[..i] && rest[i] == s[i];
      AdmitFits(c, l, q, rest, cycle);
      AdmitKeeps(c, l, q, rest, cycle);
      AdmitOneOverflows(c, l, Admit(l, q, rest, cycle), last, cycle);
    }
  }

  lemma {:induction false} DeferFits(c: Platform, l: Limits, q: Queues, s: seq<Proposal>)
    requires Sound(c) && QueuesOk(c, l, q) && DeferredOk(l, q) && forall p :: p in s ==> Formed(c, p)
    ensures DeferredOk(l, Defer(l, q, s))
  {
    hide Formed, QueuesOk, DeferOne, DeferredOk;
    if s != [] {
      var rest, last := s[..|s| - 1], s[|s| - 1];
      assert last in s;
      DeferFits(c, l, q, rest);
      DeferKeeps(c, l, q, rest);
      DeferOneKeepsRoom(c, l, Defer(l, q, rest), last);
    }
  }

  /** The queues that an event's scheduled proposals move into. */
  function Entered(s: Scheduler, e: Event): Queues {
    var q := if e.Acknowledged? then Released(s.queues, e.id) else s.queues;
    q.(cycle := Max(q.cycle, e.delta.cycle), deferred := q.deferred - e.delta.removed)
  }

  lemma {:induction false} RemovedFits(l: Limits, q: Queues, ids: set<string>)
    requires DeferredOk(l, q)
    ensures DeferredOk(l, q.(deferred := q.deferred - ids))
    decreases |ids|
  {
    hide Count;
    if id :| id in ids {
      RemovedFits(l, q, ids - {id});
      assert q.deferred - ids == (q.deferred - (ids - {id})) - {id};
      forall scope ensures Count(q.deferred - ids, scope) <= l.maxDeferred {
        CountRemoved(q.deferred - (ids - {id}), id, scope);
      }
    } else {
      assert q.deferred - ids == q.deferred;
    }
  }

  /** The event, as it is read back, moves in nothing that overflows. */
  ghost predicate EventFits(c: Platform, l: Limits, s: Scheduler, e: Event) {
    Effective(c, s, e) ==>
      var d := e.(delta := DecodeDelta(c, e.delta));
      FitsInto(l, Entered(s, d), d.delta.scheduled, d.delta.cycle)
  }

  lemma {:induction false} ReleasedFits(l: Limits, q: Queues, id: string)
    requires DeferredOk(l, q)
    ensures DeferredOk(l, Released(q, id))
  {
    hide Count;
    forall scope ensures Count(q.deferred - {id}, scope) <= l.maxDeferred {
      CountRemoved(q.deferred, id, scope);
    }
  }

  lemma {:induction false} EnteredOk(c: Platform, l: Limits, s: Scheduler, e: Event)
    requires QueuesOk(c, l, s.queues) && DeferredOk(l, s.queues) && (e.Acknowledged? ==> e.id in s.queues.pending)
    ensures var q := Entered(s, e); QueuesOk(c, l, q) && DeferredOk(l, q) && e.delta.cycle <= q.cycle
  {
    hide Count, Good, DeferredOk;
    var q := if e.Acknowledged? then Released(s.queues, e.id) else s.queues;
    if e.Acknowledged? {
      ReleasedKeeps(c, l, s.queues, e.id);
      ReleasedFits(l, s.queues, e.id);
    }
    GoodRemove(c, q.deferred, e.delta.removed);
    RemovedFits(l, q, e.delta.removed);
    SameBacklog(l, q.(deferred := q.deferred - e.delta.removed), Entered(s, e));
  }

  lemma {:induction false} SameBacklog(l: Limits, q: Queues, r: Queues)
    requires DeferredOk(l, q) && r.deferred == q.deferred
    ensures DeferredOk(l, r)
  {
  }

  lemma {:induction false} EventKeepsRoom(c: Platform, l: Limits, s: Scheduler, e: Event)
    requires Sound(c) && QueuesOk(c, l, s.queues) && DeferredOk(l, s.queues) && EventFits(c, l, s, e)
    ensures DeferredOk(l, ReplayStep(c, l, s, e).queues)
  {
    hide Formed, QueuesOk, DeferredOk, DecodeDelta, ValidText, ValidScopeKey, Admit, Defer, FitsInto;
    DecodedFormed(c, e.delta);
    if Effective(c, s, e) {
      var d := e.(delta := DecodeDelta(c, e.delta));
      EnteredOk(c, l, s, d);
      var q := Entered(s, d);
      AdmitFits(c, l, q, d.delta.scheduled, d.delta.cycle);
      AdmitKeeps(c, l, q, d.delta.scheduled, d.delta.cycle);
      DeferFits(c, l, Admit(l, q, d.delta.scheduled, d.delta.cycle), d.delta.added);
    }
  }

  /** No event of the journal overflows when its turn comes. */
  ghost predicate JournalFits(c: Platform, l: Limits, journal: seq<Event>) {
    forall i :: 0 <= i < |journal| ==> EventFits(c, l, Replay(c, l, journal[..i]), journal[i])
  }

  /** Whatever the journal holds, a restart keeps every backlog within its limit unless a proposal overflows on the way. */
  lemma {:induction false} ReplayWithinLimits(c: Platform, l: Limits, journal: seq<Event>)
    requires Sound(c) && JournalFits(c, l, journal)
    ensures DeferredOk(l, Replay(c, l, journal).queues)
  {
    hide QueuesOk, ReplayStep, EventFits, DeferredOk;
    if journal == [] {
      EmptyOk(c, l);
    } else {
      var rest := journal[..|journal| - 1];
      assert forall i :: 0 <= i < |rest| ==> rest[..i] == journal[..i] && rest[i] == journal[i];
      ReplayWithinLimits(c, l, rest);
      ReplayKeeps(c, l, rest);
      EventKeepsRoom(c, l, Replay(c, l, rest), journal[|journal| - 1]);
    }
  }

  // ---- limits that may change ----

  lemma {:induction false} PlanAppliesAlike(c: Platform, l: Limits, wide: Limits, q: Queues, scope: string, incoming: seq<Proposal>)
    requires Sound(c) && QueuesOk(c, l, q) && Admissible(c, scope, incoming) && Wider(l, wide)
    ensures var d := PlanDelta(c, l, q, scope, incoming); ApplyDelta(wide, q, d) == ApplyDelta(l, q, d) && Admits(wide, q, d, scope)
  {
    hide Formed, ById, Apply, Stamp, Count, Sound, MakePlan, Admits, Wider;
    AsWide(l);
    PlanFits(c, l, l, q, scope, incoming, q.cycle + 1);
    PlanFits(c, l, wide, q, scope, incoming, q.cycle + 1);
    PlanDeltaAdmits(c, l, q, scope, incoming);
    AdmitsWider(l, wide, q, PlanDelta(c, l, q, scope, incoming), scope);
  }

  lemma {:induction false} AsWide(l: Limits)
    ensures Wider(l, l)
  {
  }

  lemma {:induction false} AdmitsWider(l: Limits, wide: Limits, q: Queues, d: Delta, scope: string)
    requires Admits(l, q, d, scope) && Wider(l, wide)
    ensures Admits(wide, q, d, scope)
  {
    hide DistinctIds, InScope, Count;
  }

  lemma {:induction false} AckAppliesAlike(c: Platform, l: Limits, wide: Limits, q: Queues, scope: string, id: string)
    requires Sound(c) && QueuesOk(c, l, q) && Acknowledgeable(q, scope, id) && Wider(l, wide)
    ensures var q1, d := Released(q, id), AckDelta(c, l, q, scope);
      ApplyDelta(wide, q1, d) == ApplyDelta(l, q1, d) && Admits(wide, q1, d, scope)
  {
    hide Formed, Count, Promoted, ById, Admit, InScope, DistinctIds, Stamp;
    var d := AckDelta(c, l, q, scope);
    AckAdmits(c, l, q, scope, id);
    AdmitsWider(l, wide, Released(q, id), d, scope);
    var q1 := Released(q, id).(cycle := q.cycle + 1, deferred := Released(q, id).deferred - d.removed);
    AdmitClosed(l, q1, d.scheduled, d.cycle, scope);
    AdmitClosed(wide, q1, d.scheduled, d.cycle, scope);
  }

  /** What a restart under wider limits makes of one event, as far as the queues go. */
  lemma {:induction false} DecidedAppliesAlike(c: Platform, l: Limits, wide: Limits, s: Scheduler, op: Op)
    requires Sound(c) && QueuesOk(c, l, s.queues) && OpOk(c, op) && Accepted(c, s, op) && Wider(l, wide)
    requires Recordable(c, Decide(c, l, s, op).delta)
    ensures var e := Decide(c, l, s, op);
      var q := if e.Acknowledged? then Released(s.queues, e.id) else s.queues;
      ApplyDelta(wide, q, DecodeDelta(c, e.delta)) == ApplyDelta(l, q, e.delta)
  {
    hide ApplyDelta, MakePlan, Promoted, Formed, Canonical, Proposed, Sound, DecodeDelta, Recordable, ValidText, Admits, Wider;
    var q := s.queues;
    match op
    case Schedule(t, incoming) =>
      PlanAppliesAlike(c, l, wide, q, ScopeName(t), incoming);
      DecodedSame(c, wide, q, PlanDelta(c, l, q, ScopeName(t), incoming), ScopeName(t));
    case Acknowledge(t, id) =>
      AckAppliesAlike(c, l, wide, q, ScopeName(t), id);
      DecodedSame(c, wide, Released(q, id), AckDelta(c, l, q, ScopeName(t)), ScopeName(t));
    case Outcome(t, solveId, shape, passed) =>
      var p := Proposed(c, s, t, solveId, shape, passed);
      EvidenceFits(c, s, t, solveId, shape, passed);
      if p.Some? {
        PlanAppliesAlike(c, l, wide, q, ScopeName(t), [p.value]);
        DecodedSame(c, wide, q, PlanDelta(c, l, q, ScopeName(t), [p.value]), ScopeName(t));
      } else {
        EmptyRecordable(c, q.cycle);
        NothingApplied(l, q);
        NothingApplied(wide, q);
      }
  }

  lemma {:induction false} StepReplaysWider(c: Platform, l: Limits, wide: Limits, s: Scheduler, op: Op)
    requires Sound(c) && QueuesOk(c, l, s.queues) && OpOk(c, op) && Accepted(c, s, op) && Wider(l, wide)
    requires Recordable(c, Decide(c, l, s, op).delta)
    ensures ReplayStep(c, wide, s, Decide(c, l, s, op)) == After(c, l, s, op)
  {
    hide ApplyDelta, Decide, DecodeDelta, Listable, OpOk, Accepted, Effective, DecodeIds, Sound, Tallied, Wider, QueuesOk;
    DecisionEffective(c, l, s, op);
    DecidedAppliesAlike(c, l, wide, s, op);
  }

  /**
   A restart under other limits is still exact if neither queue limit got smaller; the limits of a cycle, of a kind and
   of the cooldown may change at will.
   */
  lemma {:induction false} WiderRestartIsExact(c: Platform, l: Limits, wide: Limits, ops: seq<Op>)
    requires Sound(c) && (forall op :: op in ops ==> OpOk(c, op)) && Wider(l, wide)
    requires forall e :: e in Exec(c, l, ops).1 ==> Recordable(c, e.delta)
    ensures Replay(c, wide, Exec(c, l, ops).1) == Exec(c, l, ops).0
  {
    hide OpOk, Recordable, Decide, After, Accepted, ReplayStep, Formed, Count, Wider;
    if ops != [] {
      var op := ops[|ops| - 1];
      var (s, journal) := Exec(c, l, ops[..|ops| - 1]);
      if Accepted(c, s, op) {
        var e := Decide(c, l, s, op);
        assert Exec(c, l, ops).1 == journal + [e];
        assert e in journal + [e] && forall f :: f in journal ==> f in journal + [e];
        WiderRestartIsExact(c, l, wide, ops[..|ops| - 1]);
        StepReplaysWider(c, l, wide, s, op);
        assert (journal + [e])[..|journal|] == journal;
      } else {
        WiderRestartIsExact(c, l, wide, ops[..|ops| - 1]);
      }
    }
  }

  // ---- a restart that exceeds the backlog's limit ----

  /** Room for one a cycle, two ready and one deferred; and the same with room for one ready. */
  const LIVE: Limits := Limits(1, 1, 2, 1, 0)
  const NARROW: Limits := Limits(1, 1, 1, 1, 0)

  /** Different proposals of the single-user scope. */
  ghost predicate Three(c: Platform, a: Proposal, b: Proposal, d: Proposal) {
    && Canonical(c, a) && Canonical(c, b) && Canonical(c, d) && a.scopeId.None? && b.scopeId.None? && d.scopeId.None?
    && a.id != b.id && a.id != d.id && b.id != d.id && Before(c, a, d) && Before(c, b, d)
  }

  lemma {:induction false} SelectMore(l: Limits, q: Queues, w: nat, cycle: nat, s: seq<Proposal>, p: Proposal)
    requires p.id !in q.pending
    ensures var (taken, back) := Select(l, q, w, cycle, s);
      Select(l, q, w, cycle, s + [p]) ==
      if Cooling(l, q.last, p.id, cycle) || Full(l, w, taken, p.kind) then (taken, back + [p]) else (taken + [p], back)
  {
    hide Cooling, Full;
    assert (s + [p])[..|s|] == s;
  }

  lemma {:induction false} SelectNone(l: Limits, q: Queues, w: nat, cycle: nat)
    ensures Select(l, q, w, cycle, []) == ([], [])
  {
  }

  lemma {:induction false} SelectTwo(q: Queues, w: nat, cycle: nat, x: Proposal, y: Proposal)
    requires x.id !in q.pending && y.id !in q.pending && x.id !in q.last && w < 2
    ensures Select(LIVE, q, w, cycle, [x, y]) == ([x], [y])
  {
    SelectNone(LIVE, q, w, cycle);
    hide Select;
    var none: seq<Proposal> := [];
    assert none + [x] == [x] && [x] + [y] == [x, y];
    SelectMore(LIVE, q, w, cycle, none, x);
    assert !Cooling(LIVE, q.last, x.id, cycle) && !Full(LIVE, w, none, x.kind);
    assert Select(LIVE, q, w, cycle, [x]) == ([x], []);
    SelectMore(LIVE, q, w, cycle, [x], y);
    assert Full(LIVE, w, [x], y.kind);
    assert none + [y] == [y];
  }

  /** The first of two due candidates takes the cycle's one place, the second stays in the backlog. */
  lemma {:induction false} PlanOfTwo(c: Platform, q: Queues, incoming: seq<Proposal>, cycle: nat, x: Proposal, y: Proposal)
    requires Sound(c) && Keyed(q.deferred) && Before(c, x, y) && x.id != y.id
    requires Candidates(q, N1, incoming) == map[x.id := x, y.id := y]
    requires x.id !in q.pending && y.id !in q.pending && x.id !in q.last && Count(q.pending, N1) < 2
    ensures var plan := MakePlan(c, LIVE, q, N1, incoming, cycle); plan.scheduled == [x] && plan.deferred == [y]
  {
    hide Count, Sound, Before, ById, Restrict, Candidates, Select;
    ListingOfTwo(c, x, y);
    SelectTwo(q, Count(q.pending, N1), cycle, x, y);
  }

  lemma {:induction false} ListingOfTwo(c: Platform, x: Proposal, y: Proposal)
    requires Sound(c) && Before(c, x, y) && x.id != y.id
    ensures Keyed(map[x.id := x, y.id := y]) && Listing(c, map[x.id := x, y.id := y]) == [x, y]
  {
    hide Sound, Before;
    ListingIs(c, map[x.id := x, y.id := y], [x, y]);
  }

  lemma {:induction false} FirstCandidates(a: Proposal, d: Proposal)
    requires a.id != d.id
    ensures Candidates(EMPTY.queues, N1, [a, d]) == map[a.id := a, d.id := d]
  {
    NoneCounted();
    ByIdOfTwo(a, d);
    hide ById, Restrict;
  }

  lemma {:induction false} FirstDelta(c: Platform, a: Proposal, d: Proposal)
    requires Sound(c) && a.id != d.id && Before(c, a, d)
    ensures PlanDelta(c, LIVE, EMPTY.queues, N1, [a, d]) == Delta(1, [a], [d], {})
  {
    hide Sound, Before, Candidates, Select, Count, ById, NewIn, Listing, Restrict, Ids;
    NoneCounted();
    FirstCandidates(a, d);
    PlanOfTwo(c, EMPTY.queues, [a, d], 1, a, d);
    NewInOne(d, EMPTY.queues.deferred);
    NothingRemoved([d]);
  }

  lemma {:induction false} NothingRemoved(s: seq<Proposal>)
    ensures Restrict(map[], N1).Keys - Ids(s) == {}
  {
    NoneCounted();
    hide Restrict;
  }

  /** The first cycle schedules one proposal and puts the other back, under either limits. */
  lemma {:induction false} FirstApplied(l: Limits, a: Proposal, d: Proposal)
    requires l.maxPending > 0 && l.maxDeferred > 0 && a.scopeId.None? && d.scopeId.None? && a.id != d.id
    ensures ApplyDelta(l, EMPTY.queues, Delta(1, [a], [d], {})) == Queues(1, map[a.id := 1], map[a.id := a], map[d.id := d])
  {
    NoneCounted();
    hide Count;
    var q := Queues(1, map[], map[], map[]);
    assert EMPTY.queues.deferred - {} == map[];
    AdmitSingle(l, q, a, 1);
    var r := AdmitOne(l, q, a, 1);
    assert r == Queues(1, map[a.id := 1], map[a.id := a], map[]);
    AdmitSingle(l, r, d, 1);
  }

  lemma {:induction false} NoneCounted()
    ensures Restrict(map[], N1) == map[] && Count(map[], N1) == 0
  {
  }

  lemma {:induction false} ByIdOfTwo(x: Proposal, y: Proposal)
    ensures ById([x, y]) == map[x.id := x][y.id := y] && ById([x]) == map[x.id := x]
  {
    assert [x, y][..1] == [x] && [x][..0] == [];
  }

  lemma {:induction false} NewInOne(x: Proposal, m: map<string, Proposal>)
    ensures NewIn([x], m) == if x.id in m && m[x.id] == x then [] else [x]
  {
    assert [x][..0] == [];
  }

  lemma {:induction false} AdmitSingle(l: Limits, q: Queues, x: Proposal, cycle: nat)
    ensures Admit(l, q, [x], cycle) == AdmitOne(l, q, x, cycle) && Defer(l, q, [x]) == DeferOne(l, q, x)
  {
    assert [x][..0] == [];
  }

  /** The queues after the first cycle. */
  function AfterFirst(a: Proposal, d: Proposal): Queues { Queues(1, map[a.id := 1], map[a.id := a], map[d.id := d]) }

  lemma {:induction false} OneCounted(m: map<string, Proposal>, x: Proposal)
    requires m == map[x.id := x] && x.scopeId.None?
    ensures Restrict(m, N1) == m && Count(m, N1) == 1
  {
    assert Restrict(m, N1) == m;
  }

  lemma {:induction false} SecondDelta(c: Platform, a: Proposal, b: Proposal, d: Proposal)
    requires Sound(c) && Three(c, a, b, d)
    ensures PlanDelta(c, LIVE, AfterFirst(a, d), N1, [b]) == Delta(2, [b], [], {})
  {
    hide Sound, Before, Select, Count, Restrict, Canonical;
    var q := AfterFirst(a, d);
    OneCounted(q.pending, a);
    OneCounted(q.deferred, d);
    ByIdOne(b);
    ByIdOne(d);
    hide ById;
    assert Candidates(q, N1, [b]) == map[b.id := b, d.id := d];
    PlanOfTwo(c, q, [b], 2, b, d);
    NewInOne(d, q.deferred);
    assert q.deferred.Keys - Ids([d]) == {};
  }

  lemma {:induction false} ByIdOne(x: Proposal)
    ensures ById([x]) == map[x.id := x]
  {
    assert [x][..0] == [];
  }

  /** Under the narrow limits, the second scheduled proposal finds no room and lengthens the backlog. */
  lemma {:induction false} SecondApplied(a: Proposal, b: Proposal, d: Proposal)
    requires a.scopeId.None? && b.scopeId.None? && a.id != b.id
    ensures ApplyDelta(NARROW, AfterFirst(a, d), Delta(2, [b], [], {})) == AfterFirst(a, d).(cycle := 2, deferred := map[d.id := d][b.id := b])
  {
    hide Count, Restrict;
    var q := AfterFirst(a, d);
    OneCounted(q.pending, a);
    assert q.deferred - {} == q.deferred;
    AdmitSingle(NARROW, q.(cycle := 2), b, 2);
  }

  /** Canonical lists are read back as they are. */
  lemma {:induction false} ReadBack(c: Platform, x: Proposal)
    requires Canonical(c, x)
    ensures DecodeProposals(c, [x]) == [x] && DecodeProposals(c, []) == []
  {
    hide Canonical;
    Decoded(c, [x]);
    Decoded(c, []);
  }

  lemma {:induction false} NoIds(c: Platform)
    ensures DecodeIds(c, {}) == {}
  {
  }

  /** What a restart under narrower limits makes of the two recorded cycles. */
  lemma {:induction false} NarrowReplay(c: Platform, a: Proposal, b: Proposal, d: Proposal)
    requires Three(c, a, b, d)
    ensures Replay(c, NARROW, [Scheduled(Delta(1, [a], [d], {})), Scheduled(Delta(2, [b], [], {}))]).queues
         == AfterFirst(a, d).(cycle := 2, deferred := map[d.id := d][b.id := b])
  {
    hide ApplyDelta, DecodeProposals, DecodeIds, Canonical, Before;
    var e, f := Scheduled(Delta(1, [a], [d], {})), Scheduled(Delta(2, [b], [], {}));
    ReadBack(c, a);
    ReadBack(c, b);
    ReadBack(c, d);
    NoIds(c);
    FirstApplied(NARROW, a, d);
    SecondApplied(a, b, d);
    assert [e, f][..1] == [e] && [e][..0] == [];
    assert Replay(c, NARROW, [e]) == ReplayStep(c, NARROW, EMPTY, e);
    assert Replay(c, NARROW, [e, f]) == ReplayStep(c, NARROW, Replay(c, NARROW, [e]), f);
  }

  lemma {:induction false} LiveJournal(c: Platform, a: Proposal, b: Proposal, d: Proposal)
    requires Sound(c) && Three(c, a, b, d)
    ensures var ops := [Schedule(None, [a, d]), Schedule(None, [b])];
      && (forall op :: op in ops ==> OpOk(c, op))
      && Exec(c, LIVE, ops).1 == [Scheduled(Delta(1, [a], [d], {})), Scheduled(Delta(2, [b], [], {}))]
  {
    hide ApplyDelta, Sound, Before, PlanDelta, QueuesOk, DeferredOk, ValidText;
    var one, two := Schedule(None, [a, d]), Schedule(None, [b]);
    FirstDelta(c, a, d);
    FirstApplied(LIVE, a, d);
    SecondDelta(c, a, b, d);
    hide Canonical;
    assert [one, two][..1] == [one] && [one][..0] == [];
    assert Exec(c, LIVE, [one]).1 == [Scheduled(Delta(1, [a], [d], {}))];
    assert Exec(c, LIVE, [one]).0.queues == AfterFirst(a, d);
  }

  /**
   A restart under a smaller ready limit can exceed the backlog's limit: two cycles under room for two, replayed under
   room for one, leave two proposals in a backlog that may hold one.
   */
  lemma {:induction false} SmallerRestartOverflows(c: Platform, a: Proposal, b: Proposal, d: Proposal)
    requires Sound(c) && Three(c, a, b, d)
    ensures var ops := [Schedule(None, [a, d]), Schedule(None, [b])];
      && (forall op :: op in ops ==> OpOk(c, op))
      && var r := Replay(c, NARROW, Exec(c, LIVE, ops).1).queues;
         r.pending == map[a.id := a] && r.deferred == map[d.id := d, b.id := b] && !DeferredOk(NARROW, r)
  {
    hide Replay, Exec, Canonical, Before, Sound, Count, OpOk;
    LiveJournal(c, a, b, d);
    NarrowReplay(c, a, b, d);
    TwoCounted(b, d);
  }

  lemma {:induction false} TwoCounted(b: Proposal, d: Proposal)
    requires b.scopeId.None? && d.scopeId.None? && b.id != d.id
    ensures Count(map[d.id := d, b.id := b], N1) == 2
  {
    var m := map[d.id := d, b.id := b];
    assert Restrict(m, N1) == m;
    assert m.Keys == {d.id, b.id};
    assert |m.Keys| == |m|;
  }

  // ---- a proposal that a restart loses ----

  lemma {:induction false} OnlyCandidate(c: Platform, p: Proposal)
    requires Sound(c)
    ensures Candidates(EMPTY.queues, N1, [p]) == map[p.id := p] && Listing(c, map[p.id := p]) == [p]
  {
    hide Sound;
    NoneCounted();
    ByIdOne(p);
    hide ById, Restrict;
    ListingIs(c, map[p.id := p], [p]);
  }

  /** The first schedule of a single proposal takes it. */
  lemma {:induction false} OnlyPlan(c: Platform, l: Limits, p: Proposal)
    requires Sound(c) && l.maxPerCycle > 0 && l.maxPerKind > 0 && l.maxPending > 0
    ensures PlanDelta(c, l, EMPTY.queues, N1, [p]) == Delta(1, [p], [], {})
  {
    hide Sound, Candidates, Count, ById, Restrict, Listing, Ids;
    NoneCounted();
    NothingRemoved([]);
    OnlyCandidate(c, p);
    SelectNone(l, EMPTY.queues, 0, 1);
    hide Select;
    var none: seq<Proposal> := [];
    SelectMore(l, EMPTY.queues, 0, 1, none, p);
    assert none + [p] == [p] && !Full(l, 0, none, p.kind);
    assert Select(l, EMPTY.queues, 0, 1, [p]) == ([p], []);
  }

  /** The one operation of a run from the start, and what replaying its event starts from. */
  lemma {:induction false} OnlyEvent(c: Platform, l: Limits, p: Proposal)
    requires Sound(c) && Formed(c, p) && p.scopeId.None? && l.maxPerCycle > 0 && l.maxPerKind > 0 && l.maxPending > 0
    ensures var op, e := Schedule(None, [p]), Scheduled(Delta(1, [p], [], {}));
      && (forall o :: o in [op] ==> OpOk(c, o))
      && Exec(c, l, [op]) == (EMPTY.(queues := ApplyDelta(l, EMPTY.queues, e.delta)), [e])
      && Replay(c, l, [e]) == ReplayStep(c, l, EMPTY, e)
  {
    hide Sound, ApplyDelta, PlanDelta, QueuesOk, DeferredOk, Formed, ReplayStep;
    var op, e := Schedule(None, [p]), Scheduled(Delta(1, [p], [], {}));
    OnlyPlan(c, l, p);
    assert [op][..0] == [] && [e][..0] == [];
    assert Exec(c, l, []) == (EMPTY, []);
    assert Accepted(c, EMPTY, op) && Decide(c, l, EMPTY, op) == e;
    assert Exec(c, l, [op]).1 == [e];
    assert Exec(c, l, [op]).0 == After(c, l, EMPTY, op);
  }

  /**
   A proposal whose identity is longer than 4,096 characters is scheduled like any other, and a restart loses it: the
   live scheduler has it pending, the restarted one has never heard of it.
   */
  lemma {:induction false} LongIdentityIsLost(c: Platform, l: Limits, p: Proposal)
    requires Sound(c) && Formed(c, p) && p.scopeId.None? && |p.id| > 4096
    requires l.maxPerCycle > 0 && l.maxPerKind > 0 && l.maxPending > 0
    ensures var ops := [Schedule(None, [p])];
      && (forall op :: op in ops ==> OpOk(c, op))
      && var live, again := Exec(c, l, ops).0.queues, Replay(c, l, Exec(c, l, ops).1).queues;
         live.pending == map[p.id := p] && again.pending == map[] && p.id in live.last && p.id !in again.last
  {
    hide Sound, ApplyDelta, Exec, Replay, OpOk, DecodeIds, DecodeProposals, Formed;
    OnlyEvent(c, l, p);
    OnlyApplied(l, p);
    NotReadBack(c, p);
    NoIds(c);
  }

  lemma {:induction false} NotReadBack(c: Platform, p: Proposal)
    requires |p.id| > 4096
    ensures DecodeProposals(c, [p]) == [] && DecodeProposals(c, []) == []
  {
    assert [p][..0] == [];
    ReadableLast(c, [p]);
    hide Readable;
  }

  lemma {:induction false} OnlyApplied(l: Limits, p: Proposal)
    requires l.maxPending > 0
    ensures var r := ApplyDelta(l, EMPTY.queues, Delta(1, [p], [], {})); r.pending == map[p.id := p] && p.id in r.last
    ensures ApplyDelta(l, EMPTY.queues, Delta(1, [], [], {})) == Queues(1, map[], map[], map[])
  {
    var q := Queues(1, map[], map[], map[]);
    AdmitSingle(l, q, p, 1);
    assert EMPTY.queues.deferred - {} == map[];
    EmptyCounted(ScopeOf(p));
    assert EMPTY.queues.(cycle := Max(0, 1), deferred := EMPTY.queues.deferred - {}) == q;
    assert Admit(l, q, [], 1) == q;
    assert Defer(l, q, []) == q;
  }

  lemma {:induction false} EmptyCounted(scope: string)
    ensures Count(map[], scope) == 0
  {
    assert Restrict(map[], scope) == map[];
  }
}
