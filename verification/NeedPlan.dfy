/**
 Planning one scheduling cycle of a scope, and applying the planned delta to the scheduler's queues.
 */
module NeedPlans {
  import opened NeedProposals

  datatype Limits = Limits(maxPerCycle: nat, maxPerKind: nat, maxPending: nat, maxDeferred: nat, cooldown: nat)

  datatype Queues = Queues(cycle: nat, last: map<string, nat>, pending: map<string, Proposal>, deferred: map<string, Proposal>)

  datatype Plan = Plan(scheduled: seq<Proposal>, deferred: seq<Proposal>,
                       added: seq<Proposal>, removed: set<string>, evicted: seq<Proposal>)

  // ---- selection ----

  /** Scheduled too recently to be scheduled again at this cycle. */
  predicate Cooling(l: Limits, last: map<string, nat>, id: string, cycle: nat) {
    id in last && cycle - last[id] <= l.cooldown
  }

  function KindCount(s: seq<Proposal>, k: NeedKind): nat {
    if s == [] then 0 else KindCount(s[..|s| - 1], k) + if s[|s| - 1].kind == k then 1 else 0
  }

  /** A cycle that already took `taken` has no room for a proposal of kind `k`. */
  predicate Full(l: Limits, waiting: nat, taken: seq<Proposal>, k: NeedKind) {
    KindCount(taken, k) >= l.maxPerKind || waiting + |taken| >= l.maxPending || |taken| >= l.maxPerCycle
  }

  /** One scope's choice, in order: take what is due while there is room, put the rest back. */
  function Select(l: Limits, q: Queues, waiting: nat, cycle: nat, ordered: seq<Proposal>): (seq<Proposal>, seq<Proposal>) {
    if ordered == [] then ([], [])
    else
      var (taken, back) := Select(l, q, waiting, cycle, ordered[..|ordered| - 1]);
      var p := ordered[|ordered| - 1];
      if p.id in q.pending then (taken, back)
      else if Cooling(l, q.last, p.id, cycle) || Full(l, waiting, taken, p.kind) then (taken, back + [p])
      else (taken + [p], back)
  }

  /** `taken` and `back` split what of `ordered` is not pending, both in order. */
  ghost predicate Splits(c: Platform, q: Queues, ordered: seq<Proposal>, taken: seq<Proposal>, back: seq<Proposal>) {
    && (forall p :: p in ordered && p.id !in q.pending <==> p in taken || p in back)
    && (forall p :: !(p in taken && p in back))
    && Ordered(c, taken) && Ordered(c, back)
  }

  /** `taken` respects the limits of a cycle. */
  ghost predicate WithinLimits(l: Limits, q: Queues, waiting: nat, cycle: nat, taken: seq<Proposal>) {
    && |taken| <= l.maxPerCycle && waiting + |taken| <= l.maxPending
    && (forall k :: KindCount(taken, k) <= l.maxPerKind)
    && (forall p :: p in taken ==> !Cooling(l, q.last, p.id, cycle))
  }

  lemma {:induction false} OrderedMore(c: Platform, s: seq<Proposal>, p: Proposal)
    requires Ordered(c, s) && forall r :: r in s ==> Before(c, r, p)
    ensures Ordered(c, s + [p])
  {
  }

  lemma {:induction false} SplitsMore(c: Platform, q: Queues, rest: seq<Proposal>, p: Proposal, taken: seq<Proposal>, back: seq<Proposal>)
    requires Splits(c, q, rest, taken, back) && forall r :: r in rest ==> Before(c, r, p)
    ensures p.id in q.pending ==> Splits(c, q, rest + [p], taken, back)
    ensures p.id !in q.pending ==> Splits(c, q, rest + [p], taken + [p], back) && Splits(c, q, rest + [p], taken, back + [p])
  {
    OrderedMore(c, taken, p);
    OrderedMore(c, back, p);
    hide Ordered;
    assert p !in rest;
    assert p.id !in q.pending ==> p !in taken && p !in back;
  }

  lemma {:induction false} TakesMore(l: Limits, q: Queues, waiting: nat, cycle: nat, taken: seq<Proposal>, p: Proposal)
    requires WithinLimits(l, q, waiting, cycle, taken)
    requires !Cooling(l, q.last, p.id, cycle) && !Full(l, waiting, taken, p.kind)
    ensures WithinLimits(l, q, waiting, cycle, taken + [p])
  {
    hide Cooling;
    var more := taken + [p];
    assert more[..|more| - 1] == taken;
    forall k ensures KindCount(more, k) <= l.maxPerKind {
      assert KindCount(more, k) == KindCount(taken, k) + if p.kind == k then 1 else 0;
    }
  }

  /** Choosing splits what is not pending, keeps the order on both sides, and respects every limit. */
  lemma {:induction false} SelectSplits(c: Platform, l: Limits, q: Queues, waiting: nat, cycle: nat, ordered: seq<Proposal>)
    requires Ordered(c, ordered) && waiting <= l.maxPending
    ensures var (taken, back) := Select(l, q, waiting, cycle, ordered);
      Splits(c, q, ordered, taken, back) && WithinLimits(l, q, waiting, cycle, taken)
  {
    hide Splits, WithinLimits, Cooling, Full;
    if ordered == [] {
      NothingSelected(c, l, q, waiting, cycle);
    } else {
      var rest, p := ordered[..|ordered| - 1], ordered[|ordered| - 1];
      assert ordered == rest + [p];
      SelectSplits(c, l, q, waiting, cycle, rest);
      var (taken, back) := Select(l, q, waiting, cycle, rest);
      forall r | r in rest ensures Before(c, r, p) {
        var i :| 0 <= i < |rest| && rest[i] == r;
        assert Before(c, ordered[i], ordered[|ordered| - 1]);
      }
      SplitsMore(c, q, rest, p, taken, back);
      if !Cooling(l, q.last, p.id, cycle) && !Full(l, waiting, taken, p.kind) {
        TakesMore(l, q, waiting, cycle, taken, p);
      }
    }
  }

  lemma {:induction false} NothingSelected(c: Platform, l: Limits, q: Queues, waiting: nat, cycle: nat)
    requires waiting <= l.maxPending
    ensures Splits(c, q, [], [], []) && WithinLimits(l, q, waiting, cycle, [])
  {
  }

  lemma {:induction false} KindCountGrows(s: seq<Proposal>, t: seq<Proposal>, k: NeedKind)
    requires s <= t
    ensures KindCount(s, k) <= KindCount(t, k)
    decreases |t|
  {
    if |s| < |t| {
      KindCountGrows(s, t[..|t| - 1], k);
    } else {
      assert s == t;
    }
  }

  /** Later choices only add to earlier ones. */
  lemma {:induction false} SelectGrows(l: Limits, q: Queues, waiting: nat, cycle: nat, ordered: seq<Proposal>, i: nat)
    requires i <= |ordered|
    ensures Select(l, q, waiting, cycle, ordered[..i]).0 <= Select(l, q, waiting, cycle, ordered).0
    ensures Select(l, q, waiting, cycle, ordered[..i]).1 <= Select(l, q, waiting, cycle, ordered).1
    decreases |ordered|
  {
    if i < |ordered| {
      assert ordered[..|ordered| - 1][..i] == ordered[..i];
      SelectGrows(l, q, waiting, cycle, ordered[..|ordered| - 1], i);
    } else {
      assert ordered[..i] == ordered;
    }
  }

  /**
   A proposal that is due is never passed over for a later one of its kind: if one is put back and a later one of
   the same kind is taken, the earlier one was cooling down.
   */
  lemma {:induction false} NoPassingOver(c: Platform, l: Limits, q: Queues, waiting: nat, cycle: nat, ordered: seq<Proposal>, i: nat, j: nat)
    requires Ordered(c, ordered) && i < j < |ordered| && ordered[i].kind == ordered[j].kind
    requires ordered[i] in Select(l, q, waiting, cycle, ordered).1 && ordered[j] in Select(l, q, waiting, cycle, ordered).0
    requires waiting <= l.maxPending
    ensures Cooling(l, q.last, ordered[i].id, cycle)
  {
    var early := Select(l, q, waiting, cycle, ordered[..i]);
    var late := Select(l, q, waiting, cycle, ordered[..j]);
    PlacedWhenMet(c, l, q, waiting, cycle, ordered, i);
    PlacedWhenMet(c, l, q, waiting, cycle, ordered, j);
    assert ordered[..j][..i] == ordered[..i];
    SelectGrows(l, q, waiting, cycle, ordered[..j], i);
    KindCountGrows(early.0, late.0, ordered[i].kind);
  }

  /** A proposal ends up where it was put when its turn came. */
  lemma {:induction false} PlacedWhenMet(c: Platform, l: Limits, q: Queues, waiting: nat, cycle: nat, ordered: seq<Proposal>, i: nat)
    requires Ordered(c, ordered) && i < |ordered| && waiting <= l.maxPending
    ensures var early := Select(l, q, waiting, cycle, ordered[..i]);
      var p := ordered[i];
      && (p in Select(l, q, waiting, cycle, ordered).0 ==> !Cooling(l, q.last, p.id, cycle) && !Full(l, waiting, early.0, p.kind))
      && (p in Select(l, q, waiting, cycle, ordered).1 ==> Cooling(l, q.last, p.id, cycle) || Full(l, waiting, early.0, p.kind))
  {
    var p := ordered[i];
    var early := Select(l, q, waiting, cycle, ordered[..i]);
    var met := Select(l, q, waiting, cycle, ordered[..i + 1]);
    assert ordered[..i + 1][..i] == ordered[..i] && ordered[..i + 1][i] == p;
    SelectGrows(l, q, waiting, cycle, ordered, i + 1);
    SelectSplits(c, l, q, waiting, cycle, ordered);
    var all := Select(l, q, waiting, cycle, ordered);
    assert met == Select(l, q, waiting, cycle, ordered[..i + 1]);
    if p.id in q.pending {
      assert p !in all.0 && p !in all.1;
    } else if Cooling(l, q.last, p.id, cycle) || Full(l, waiting, early.0, p.kind) {
      assert met.1 == early.1 + [p];
      assert all.1[|early.1|] == p;
    } else {
      assert met.0 == early.0 + [p];
      assert all.0[|early.0|] == p;
    }
  }

  // ---- the plan ----

  /** The scope's deferred backlog, overridden by what comes in. */
  function Candidates(q: Queues, scope: string, incoming: seq<Proposal>): map<string, Proposal> {
    Restrict(q.deferred, scope) + ById(incoming)
  }

  /** The proposals of `s` that `m` does not hold as they are. */
  function NewIn(s: seq<Proposal>, m: map<string, Proposal>): seq<Proposal> {
    if s == [] then []
    else
      var p := s[|s| - 1];
      NewIn(s[..|s| - 1], m) + if p.id in m && m[p.id] == p then [] else [p]
  }

  ghost function MakePlan(c: Platform, l: Limits, q: Queues, scope: string, incoming: seq<Proposal>, cycle: nat): Plan
    requires Sound(c) && Keyed(q.deferred)
  {
    var (scheduled, back) := Select(l, q, Count(q.pending, scope), cycle, Listing(c, Candidates(q, scope, incoming)));
    var n := if |back| <= l.maxDeferred then |back| else l.maxDeferred;
    Plan(scheduled, back[..n], NewIn(back[..n], q.deferred), Restrict(q.deferred, scope).Keys - Ids(back[..n]), back[n..])
  }

  // ---- applying a delta ----

  function AdmitOne(l: Limits, q: Queues, p: Proposal, cycle: nat): Queues {
    if Count(q.pending, ScopeOf(p)) >= l.maxPending && p.id !in q.pending then q.(deferred := q.deferred[p.id := p])
    else q.(last := q.last[p.id := cycle], pending := q.pending[p.id := p], deferred := q.deferred - {p.id})
  }

  function Admit(l: Limits, q: Queues, s: seq<Proposal>, cycle: nat): Queues {
    if s == [] then q else AdmitOne(l, Admit(l, q, s[..|s| - 1], cycle), s[|s| - 1], cycle)
  }

  function DeferOne(l: Limits, q: Queues, p: Proposal): Queues {
    if p.id !in q.pending && (p.id in q.deferred || Count(q.deferred, ScopeOf(p)) < l.maxDeferred)
    then q.(deferred := q.deferred[p.id := p]) else q
  }

  function Defer(l: Limits, q: Queues, s: seq<Proposal>): Queues {
    if s == [] then q else DeferOne(l, Defer(l, q, s[..|s| - 1]), s[|s| - 1])
  }

  function Max(a: nat, b: nat): nat { if a >= b then a else b }

  /** The queues after the delta of one event, as the live scheduler and the replay both apply it. */
  function Apply(l: Limits, q: Queues, cycle: nat, scheduled: seq<Proposal>, added: seq<Proposal>, removed: set<string>): Queues {
    Defer(l, Admit(l, q.(cycle := Max(q.cycle, cycle), deferred := q.deferred - removed), scheduled, cycle), added)
  }

  // ---- closed forms ----

  function Stamp(ids: set<string>, cycle: nat): map<string, nat> { map id | id in ids :: cycle }

  ghost predicate InScope(s: seq<Proposal>, scope: string) { forall p :: p in s ==> ScopeOf(p) == scope }

  ghost predicate AllInScope(m: map<string, Proposal>, scope: string) { forall id :: id in m ==> ScopeOf(m[id]) == scope }

  lemma {:induction false} DisjointSize(a: map<string, Proposal>, b: map<string, Proposal>)
    requires a.Keys !! b.Keys
    ensures |a + b| == |a| + |b|
  {
    assert (a + b).Keys == a.Keys + b.Keys;
    assert |(a + b).Keys| == |a.Keys| + |b.Keys|;
  }

  lemma {:induction false} RestrictAdd(m: map<string, Proposal>, n: map<string, Proposal>, scope: string)
    requires AllInScope(n, scope)
    ensures Restrict(m + n, scope) == Restrict(m, scope) + n
  {
  }

  /** Adding new proposals of a scope counts each of them. */
  lemma {:induction false} CountAdd(m: map<string, Proposal>, n: map<string, Proposal>, scope: string)
    requires AllInScope(n, scope) && m.Keys !! n.Keys
    ensures Count(m + n, scope) == Count(m, scope) + |n|
  {
    RestrictAdd(m, n, scope);
    DisjointSize(Restrict(m, scope), n);
  }

  lemma {:induction false} StampMore(last: map<string, nat>, ids: set<string>, id: string, cycle: nat)
    ensures (last + Stamp(ids, cycle))[id := cycle] == last + Stamp(ids + {id}, cycle)
  {
  }

  lemma {:induction false} AddMore<V>(a: map<string, V>, b: map<string, V>, id: string, v: V)
    ensures (a + b)[id := v] == a + b[id := v] && b[id := v].Keys == b.Keys + {id}
  {
  }

  lemma {:induction false} RemoveMore<V>(a: map<string, V>, ids: set<string>, id: string)
    ensures (a - ids) - {id} == a - (ids + {id})
  {
  }

  lemma {:induction false} AdmitClosedStep(l: Limits, q: Queues, m: map<string, Proposal>, p: Proposal, cycle: nat, scope: string)
    requires m.Keys !! q.pending.Keys && AllInScope(m, scope) && ScopeOf(p) == scope
    requires Count(q.pending, scope) + |m| < l.maxPending
    ensures AdmitOne(l, q.(last := q.last + Stamp(m.Keys, cycle), pending := q.pending + m, deferred := q.deferred - m.Keys), p, cycle)
         == q.(last := q.last + Stamp(m[p.id := p].Keys, cycle), pending := q.pending + m[p.id := p],
               deferred := q.deferred - m[p.id := p].Keys)
  {
    CountAdd(q.pending, m, scope);
    hide Count, Stamp;
    StampMore(q.last, m.Keys, p.id, cycle);
    AddMore(q.pending, m, p.id, p);
    RemoveMore(q.deferred, m.Keys, p.id);
  }

  lemma {:induction false} NothingAdmitted(l: Limits, q: Queues, cycle: nat)
    ensures Admit(l, q, [], cycle) == q.(last := q.last + Stamp(Ids([]), cycle), pending := q.pending + ById([]), deferred := q.deferred - Ids([]))
  {
    assert q.deferred - {} == q.deferred;
    assert q.last + Stamp({}, cycle) == q.last;
    assert q.pending + map[] == q.pending;
  }

  lemma {:induction false} AdmitLast(l: Limits, q: Queues, s: seq<Proposal>, cycle: nat)
    requires s != []
    ensures Admit(l, q, s, cycle) == AdmitOne(l, Admit(l, q, s[..|s| - 1], cycle), s[|s| - 1], cycle)
  {
  }

  /** With room for all of them, admitting proposals stamps them, queues them and takes them off the backlog. */
  lemma {:induction false} AdmitClosed(l: Limits, q: Queues, s: seq<Proposal>, cycle: nat, scope: string)
    requires DistinctIds(s) && InScope(s, scope) && (forall p :: p in s ==> p.id !in q.pending)
    requires Count(q.pending, scope) + |s| <= l.maxPending
    ensures Admit(l, q, s, cycle) ==
            q.(last := q.last + Stamp(Ids(s), cycle), pending := q.pending + ById(s), deferred := q.deferred - Ids(s))
  {
    hide ById, AdmitOne, Count, Admit, Stamp;
    if s == [] {
      NothingAdmitted(l, q, cycle);
    } else {
      var t, p := s[..|s| - 1], s[|s| - 1];
      ByIdLast(s);
      AdmitLast(l, q, s, cycle);
      AdmitClosed(l, q, t, cycle, scope);
      ByIdHolds(t);
      AdmitClosedStep(l, q, ById(t), p, cycle, scope);
    }
  }

  lemma {:induction false} IdsSize(s: seq<Proposal>)
    ensures |Ids(s)| <= |s|
  {
    if s != [] {
      IdsSize(s[..|s| - 1]);
      assert Ids(s) == Ids(s[..|s| - 1]) + {s[|s| - 1].id};
    }
  }

  lemma {:induction false} SubsetSize(a: set<string>, b: set<string>)
    requires a <= b
    ensures |a| <= |b|
    decreases |a|
  {
    if a != {} {
      var x :| x in a;
      SubsetSize(a - {x}, b - {x});
    }
  }

  /** A backlog within `final` that lacks one of `final` is smaller than `final`. */
  lemma {:induction false} BacklogHasRoom(m: map<string, Proposal>, scope: string, final: seq<Proposal>, id: string)
    requires Restrict(m, scope).Keys <= Ids(final) && id in Ids(final) && id !in m
    ensures Count(m, scope) < |final|
  {
    SubsetSize(Restrict(m, scope).Keys, Ids(final) - {id});
    IdsSize(final);
    assert |Restrict(m, scope).Keys| == |Restrict(m, scope)|;
  }

  lemma {:induction false} DeferClosedStep(l: Limits, q: Queues, m: map<string, Proposal>, p: Proposal, scope: string, final: seq<Proposal>)
    requires AllInScope(m, scope) && ScopeOf(p) == scope && p.id !in q.pending
    requires Restrict(q.deferred, scope).Keys + m.Keys + {p.id} <= Ids(final) && |final| <= l.maxDeferred
    ensures DeferOne(l, q.(deferred := q.deferred + m), p) == q.(deferred := q.deferred + m[p.id := p])
  {
    hide ById, Restrict, Count;
    var before := q.deferred + m;
    RestrictAdd(q.deferred, m, scope);
    if p.id !in before {
      BacklogHasRoom(before, scope, final, p.id);
    }
    AddMore(q.deferred, m, p.id, p);
  }

  /** A backlog that stays within `final` always has room for the next of `final`. */
  lemma {:induction false} DeferClosed(l: Limits, q: Queues, s: seq<Proposal>, scope: string, final: seq<Proposal>)
    requires InScope(s, scope) && (forall p :: p in s ==> p.id !in q.pending)
    requires Restrict(q.deferred, scope).Keys <= Ids(final) && (forall p :: p in s ==> p.id in Ids(final)) && |final| <= l.maxDeferred
    ensures Defer(l, q, s) == q.(deferred := q.deferred + ById(s))
  {
    if s == [] {
      assert q.deferred + map[] == q.deferred;
    } else {
      hide ById, DeferOne, Restrict;
      var t, p := s[..|s| - 1], s[|s| - 1];
      ByIdLast(s);
      DeferClosed(l, q, t, scope, final);
      assert ById(t).Keys <= Ids(final);
      DeferClosedStep(l, q, ById(t), p, scope, final);
    }
  }

  // ---- the invariant of the queues ----

  ghost predicate Good(c: Platform, m: map<string, Proposal>) {
    Keyed(m) && forall id :: id in m ==> Formed(c, m[id])
  }

  /** Ready and deferred never share a proposal, what is ready stays within its limit in every scope, and no stamp is ahead. */
  ghost predicate QueuesOk(c: Platform, l: Limits, q: Queues) {
    && Good(c, q.pending) && Good(c, q.deferred) && q.pending.Keys !! q.deferred.Keys
    && (forall scope :: Count(q.pending, scope) <= l.maxPending)
    && (forall id :: id in q.last ==> q.last[id] <= q.cycle)
  }

  /** The backlog stays within its limit in every scope. */
  ghost predicate DeferredOk(l: Limits, q: Queues) { forall scope :: Count(q.deferred, scope) <= l.maxDeferred }

  /** What every caller of the planner hands it: canonical proposals of the scope. */
  ghost predicate Admissible(c: Platform, scope: string, incoming: seq<Proposal>) {
    forall p :: p in incoming ==> Formed(c, p) && ScopeOf(p) == scope
  }

  lemma {:induction false} CandidatesGood(c: Platform, l: Limits, q: Queues, scope: string, incoming: seq<Proposal>)
    requires QueuesOk(c, l, q) && Admissible(c, scope, incoming)
    ensures Good(c, Candidates(q, scope, incoming)) && AllInScope(Candidates(q, scope, incoming), scope)
  {
  }

  /**
   Every candidate that is not already pending lands in exactly one of scheduled, deferred and evicted; each of them
   is in order, and nothing evicted comes before anything kept.
   */
  lemma {:induction false} PlanConserves(c: Platform, l: Limits, q: Queues, scope: string, incoming: seq<Proposal>, cycle: nat)
    requires Sound(c) && QueuesOk(c, l, q) && Admissible(c, scope, incoming)
    ensures var plan, m := MakePlan(c, l, q, scope, incoming, cycle), Candidates(q, scope, incoming);
      && (forall p: Proposal :: p.id in m && m[p.id] == p && p.id !in q.pending <==>
            p in plan.scheduled || p in plan.deferred || p in plan.evicted)
      && (forall p :: !(p in plan.scheduled && p in plan.deferred) && !(p in plan.scheduled && p in plan.evicted)
            && !(p in plan.deferred && p in plan.evicted))
      && Ordered(c, plan.scheduled) && Ordered(c, plan.deferred)
      && (forall e, r :: e in plan.evicted && r in plan.deferred ==> Before(c, r, e))
      && (plan.evicted != [] ==> |plan.deferred| == l.maxDeferred)
  {
    hide Formed, Candidates, Select;
    CandidatesGood(c, l, q, scope, incoming);
    var m := Candidates(q, scope, incoming);
    var ordered := Listing(c, m);
    SelectSplits(c, l, q, Count(q.pending, scope), cycle, ordered);
    var back := Select(l, q, Count(q.pending, scope), cycle, ordered).1;
    SplitOrdered(c, back, if |back| <= l.maxDeferred then |back| else l.maxDeferred);
  }

  lemma {:induction false} SplitOrdered(c: Platform, s: seq<Proposal>, n: nat)
    requires Ordered(c, s) && n <= |s|
    ensures Ordered(c, s[..n]) && (forall p :: p in s <==> p in s[..n] || p in s[n..])
    ensures forall e, r :: e in s[n..] && r in s[..n] ==> Before(c, r, e)
    ensures forall p :: !(p in s[..n] && p in s[n..])
  {
    assert s == s[..n] + s[n..];
    forall e, r | e in s[n..] && r in s[..n] ensures Before(c, r, e) {
      var i :| 0 <= i < n && s[i] == r;
      var j :| 0 <= j < |s[n..]| && s[n..][j] == e;
      assert s[n + j] == e;
    }
  }

  /** The limits of one cycle. */
  lemma {:induction false} PlanWithinLimits(c: Platform, l: Limits, q: Queues, scope: string, incoming: seq<Proposal>, cycle: nat)
    requires Sound(c) && QueuesOk(c, l, q) && Admissible(c, scope, incoming)
    ensures var plan := MakePlan(c, l, q, scope, incoming, cycle);
      && |plan.scheduled| <= l.maxPerCycle && |plan.deferred| <= l.maxDeferred
      && Count(q.pending, scope) + |plan.scheduled| <= l.maxPending
      && (forall k :: KindCount(plan.scheduled, k) <= l.maxPerKind)
      && (forall p :: p in plan.scheduled ==> !Cooling(l, q.last, p.id, cycle))
  {
    hide Formed, Candidates, Select;
    CandidatesGood(c, l, q, scope, incoming);
    SelectSplits(c, l, q, Count(q.pending, scope), cycle, Listing(c, Candidates(q, scope, incoming)));
  }

  lemma {:induction false} NewInMembers(s: seq<Proposal>, m: map<string, Proposal>, p: Proposal)
    ensures p in NewIn(s, m) <==> p in s && !(p.id in m && m[p.id] == p)
    ensures |NewIn(s, m)| <= |s|
  {
    if s != [] {
      NewInMembers(s[..|s| - 1], m, p);
      assert s == s[..|s| - 1] + [s[|s| - 1]];
    }
  }

  function Outside(m: map<string, Proposal>, scope: string): map<string, Proposal> {
    map id | id in m && ScopeOf(m[id]) != scope :: m[id]
  }

  /** The three parts of a plan share no identity with each other or with what is pending. */
  lemma {:induction false} PlanIds(c: Platform, l: Limits, q: Queues, scope: string, incoming: seq<Proposal>, cycle: nat)
    requires Sound(c) && QueuesOk(c, l, q) && Admissible(c, scope, incoming)
    ensures var plan := MakePlan(c, l, q, scope, incoming, cycle);
      && DistinctIds(plan.scheduled) && DistinctIds(plan.deferred)
      && (forall p :: p in plan.scheduled || p in plan.deferred || p in plan.evicted ==>
            p.id !in q.pending && Formed(c, p) && ScopeOf(p) == scope)
      && (forall p, r :: p in plan.scheduled && r in plan.deferred ==> p.id != r.id)
  {
    hide Formed, Candidates, MakePlan;
    CandidatesGood(c, l, q, scope, incoming);
    PlanConserves(c, l, q, scope, incoming, cycle);
    var plan, m := MakePlan(c, l, q, scope, incoming, cycle), Candidates(q, scope, incoming);
    OrderedDistinct(c, plan.scheduled, m);
    OrderedDistinct(c, plan.deferred, m);
  }

  /** The same, on collections: `k` is kept, `n` the part of it that is new, `s` what leaves for the ready queue. */
  lemma {:induction false} BacklogMaps(b: map<string, Proposal>, scope: string, k: map<string, Proposal>, n: map<string, Proposal>, s: set<string>)
    requires (forall id :: id in n ==> id in k && n[id] == k[id])
    requires (forall id :: id in k && id !in n ==> id in b && b[id] == k[id])
    requires s !! k.Keys
    requires forall id :: id in b && ScopeOf(b[id]) != scope ==> id !in s && id !in k
    ensures ((b - (Restrict(b, scope).Keys - k.Keys)) - s) + n == Outside(b, scope) + k
  {
    var left := ((b - (Restrict(b, scope).Keys - k.Keys)) - s) + n;
    var right := Outside(b, scope) + k;
    assert left.Keys == right.Keys;
  }

  /** Removing, admitting and deferring a plan leaves exactly the plan's backlog in the scope. */
  lemma {:induction false} BacklogAfter(c: Platform, b: map<string, Proposal>, scope: string, scheduled: seq<Proposal>, kept: seq<Proposal>)
    requires Sound(c) && Good(c, b) && DistinctIds(kept)
    requires forall p :: p in scheduled || p in kept ==> Formed(c, p) && ScopeOf(p) == scope
    requires forall p, r :: p in scheduled && r in kept ==> p.id != r.id
    ensures ((b - (Restrict(b, scope).Keys - Ids(kept))) - Ids(scheduled)) + ById(NewIn(kept, b)) == Outside(b, scope) + ById(kept)
  {
    hide Formed, ById, Restrict, Outside;
    var k, n := ById(kept), ById(NewIn(kept, b));
    NewInDistinct(kept, b);
    ByIdHolds(kept);
    ByIdHolds(NewIn(kept, b));
    forall id | id in n ensures id in k && n[id] == k[id] {
      NewInMembers(kept, b, n[id]);
    }
    forall id | id in k && id !in n ensures id in b && b[id] == k[id] {
      NewInMembers(kept, b, k[id]);
    }
    forall id | id in b && ScopeOf(b[id]) != scope ensures id !in Ids(scheduled) && id !in k {
      ForeignIdsDiffer(c, b, id, scope, kept);
      ForeignIdsDiffer(c, b, id, scope, scheduled);
    }
    BacklogMaps(b, scope, k, n, Ids(scheduled));
  }

  lemma {:induction false} NewInDistinct(s: seq<Proposal>, m: map<string, Proposal>)
    requires DistinctIds(s)
    ensures DistinctIds(NewIn(s, m))
  {
    if s != [] {
      var t := s[..|s| - 1];
      NewInDistinct(t, m);
      forall r | r in NewIn(t, m) ensures r.id != s[|s| - 1].id {
        NewInMembers(t, m, r);
      }
    }
  }

  /** A stored proposal of another scope shares no identity with proposals of this one. */
  lemma {:induction false} ForeignIdsDiffer(c: Platform, m: map<string, Proposal>, id: string, scope: string, s: seq<Proposal>)
    requires Sound(c) && Good(c, m) && id in m
    requires forall p :: p in s ==> Formed(c, p) && ScopeOf(p) == scope
    ensures ScopeOf(m[id]) != scope ==> id !in Ids(s)
  {
    if id in Ids(s) {
      SameIdSameScope(c, m[id], ById(s)[id]);
    }
  }

  /** The queues right after a plan of the scope was applied. */
  ghost function Applied(c: Platform, l: Limits, q: Queues, scope: string, incoming: seq<Proposal>, cycle: nat): Queues
    requires Sound(c) && Keyed(q.deferred)
  {
    var plan := MakePlan(c, l, q, scope, incoming, cycle);
    Apply(l, q, cycle, plan.scheduled, plan.added, plan.removed)
  }

  lemma {:induction false} NotAmong(s: seq<Proposal>, id: string)
    requires forall p :: p in s ==> p.id != id
    ensures id !in Ids(s)
  {
  }

  /** With room on both sides, a delta removes, then admits, then defers. */
  lemma {:induction false} ApplyClosed(l: Limits, q: Queues, cycle: nat, scheduled: seq<Proposal>, added: seq<Proposal>, removed: set<string>,
                    scope: string, final: seq<Proposal>)
    requires DistinctIds(scheduled) && InScope(scheduled, scope) && InScope(added, scope) && q.cycle <= cycle
    requires forall p :: p in scheduled || p in added ==> p.id !in q.pending
    requires forall p, r :: p in scheduled && r in added ==> p.id != r.id
    requires Count(q.pending, scope) + |scheduled| <= l.maxPending && |final| <= l.maxDeferred
    requires Restrict((q.deferred - removed) - Ids(scheduled), scope).Keys <= Ids(final) && forall p :: p in added ==> p.id in Ids(final)
    ensures Apply(l, q, cycle, scheduled, added, removed) ==
            Queues(cycle, q.last + Stamp(Ids(scheduled), cycle), q.pending + ById(scheduled),
                   ((q.deferred - removed) - Ids(scheduled)) + ById(added))
  {
    hide ById, Admit, Defer, Stamp, Count, Restrict, DistinctIds;
    var q1 := q.(cycle := cycle, deferred := q.deferred - removed);
    AdmitClosed(l, q1, scheduled, cycle, scope);
    forall p | p in added ensures p.id !in Ids(scheduled) {
      NotAmong(scheduled, p.id);
    }
    DeferClosed(l, Admit(l, q1, scheduled, cycle), added, scope, final);
  }

  /** Queues may be longer under `wide` than under `l`. */
  predicate Wider(l: Limits, wide: Limits) { l.maxPending <= wide.maxPending && l.maxDeferred <= wide.maxDeferred }

  /** A plan's delta finds room under any limits that are no narrower than the ones it was made under. */
  lemma {:induction false} PlanFits(c: Platform, l: Limits, wide: Limits, q: Queues, scope: string, incoming: seq<Proposal>, cycle: nat)
    requires Sound(c) && QueuesOk(c, l, q) && Admissible(c, scope, incoming) && q.cycle <= cycle && Wider(l, wide)
    ensures var plan := MakePlan(c, l, q, scope, incoming, cycle);
      Apply(wide, q, cycle, plan.scheduled, plan.added, plan.removed) ==
      Queues(cycle, q.last + Stamp(Ids(plan.scheduled), cycle), q.pending + ById(plan.scheduled),
             ((q.deferred - plan.removed) - Ids(plan.scheduled)) + ById(plan.added))
  {
    hide Formed, ById, Restrict, Outside, Select, Apply, Stamp, Count, Sound, DistinctIds, KindCount, Cooling, Candidates;
    var plan := MakePlan(c, l, q, scope, incoming, cycle);
    PlanIds(c, l, q, scope, incoming, cycle);
    PlanWithinLimits(c, l, q, scope, incoming, cycle);
    forall p | p in plan.added ensures p in plan.deferred {
      NewInMembers(plan.deferred, q.deferred, p);
    }
    BacklogWithinPlan(q.deferred, scope, plan.deferred, Ids(plan.scheduled));
    ApplyClosed(wide, q, cycle, plan.scheduled, plan.added, plan.removed, scope, plan.deferred);
  }

  /** Applying a plan's delta stamps and queues what was scheduled, and makes the planned backlog the stored one. */
  lemma {:induction false} PlanApplied(c: Platform, l: Limits, q: Queues, scope: string, incoming: seq<Proposal>, cycle: nat)
    requires Sound(c) && QueuesOk(c, l, q) && Admissible(c, scope, incoming) && q.cycle <= cycle
    ensures var plan := MakePlan(c, l, q, scope, incoming, cycle);
      Applied(c, l, q, scope, incoming, cycle) ==
      Queues(cycle, q.last + Stamp(Ids(plan.scheduled), cycle), q.pending + ById(plan.scheduled),
             Outside(q.deferred, scope) + ById(plan.deferred))
  {
    hide Formed, ById, Restrict, Outside, Select, Apply, Stamp, Count, Sound, DistinctIds, Candidates;
    var plan := MakePlan(c, l, q, scope, incoming, cycle);
    PlanIds(c, l, q, scope, incoming, cycle);
    PlanFits(c, l, l, q, scope, incoming, cycle);
    BacklogAfter(c, q.deferred, scope, plan.scheduled, plan.deferred);
  }

  lemma {:induction false} BacklogWithinPlan(b: map<string, Proposal>, scope: string, kept: seq<Proposal>, s: set<string>)
    ensures Restrict((b - (Restrict(b, scope).Keys - Ids(kept))) - s, scope).Keys <= Ids(kept)
  {
    hide ById;
  }

  // ---- what a schedule keeps ----

  lemma {:induction false} GoodAdd(c: Platform, m: map<string, Proposal>, s: seq<Proposal>)
    requires Good(c, m) && forall p :: p in s ==> Formed(c, p)
    ensures Good(c, m + ById(s))
  {
    hide Formed, ById;
  }

  /** Restricting the new ready queue: the scope gains its scheduled proposals, other scopes nothing. */
  lemma {:induction false} PendingByScope(m: map<string, Proposal>, s: map<string, Proposal>, scope: string, other: string)
    requires AllInScope(s, scope) && m.Keys !! s.Keys
    ensures other != scope ==> Restrict(m + s, other) == Restrict(m, other)
    ensures Count(m + s, scope) == Count(m, scope) + |s|
  {
    CountAdd(m, s, scope);
  }

  /** Restricting a new backlog: the scope holds exactly `kept`, other scopes what they held. */
  lemma {:induction false} DeferredByScope(b: map<string, Proposal>, kept: map<string, Proposal>, scope: string, other: string)
    requires AllInScope(kept, scope) && forall id :: id in b && ScopeOf(b[id]) != scope ==> id !in kept
    ensures other != scope ==> Restrict(Outside(b, scope) + kept, other) == Restrict(b, other)
    ensures Restrict(Outside(b, scope) + kept, scope) == kept
  {
    if other != scope {
      RestrictOutside(b, kept, scope, other);
    }
  }

  lemma {:induction false} CountOf(m: map<string, Proposal>, scope: string)
    ensures Count(m, scope) == |Restrict(m, scope)|
  {
  }

  lemma {:induction false} RestrictOutside(b: map<string, Proposal>, kept: map<string, Proposal>, scope: string, other: string)
    requires AllInScope(kept, scope) && other != scope && forall id :: id in b && ScopeOf(b[id]) != scope ==> id !in kept
    ensures Restrict(Outside(b, scope) + kept, other) == Restrict(b, other)
  {
    hide ScopeOf;
    var left, right := Restrict(Outside(b, scope) + kept, other), Restrict(b, other);
    assert left.Keys == right.Keys;
  }

  /** A scope's queues after a schedule, and every other scope's. */
  lemma {:induction false} ScheduleByScope(c: Platform, l: Limits, q: Queues, scope: string, incoming: seq<Proposal>, cycle: nat, other: string)
    requires Sound(c) && QueuesOk(c, l, q) && Admissible(c, scope, incoming) && q.cycle <= cycle
    ensures var r, plan := Applied(c, l, q, scope, incoming, cycle), MakePlan(c, l, q, scope, incoming, cycle);
      && (other != scope ==> Restrict(r.pending, other) == Restrict(q.pending, other)
                             && Restrict(r.deferred, other) == Restrict(q.deferred, other))
      && Count(r.pending, scope) == Count(q.pending, scope) + |plan.scheduled|
      && Count(r.deferred, scope) == |plan.deferred|
      && Restrict(r.deferred, scope) == ById(plan.deferred)
  {
    hide Formed, ById, Restrict, Outside, MakePlan, Applied, Count, Stamp;
    var plan := MakePlan(c, l, q, scope, incoming, cycle);
    PlanIds(c, l, q, scope, incoming, cycle);
    PlanApplied(c, l, q, scope, incoming, cycle);
    ByIdHolds(plan.scheduled);
    PendingByScope(q.pending, ById(plan.scheduled), scope, other);
    ByIdHolds(plan.deferred);
    forall id | id in q.deferred && ScopeOf(q.deferred[id]) != scope ensures id !in ById(plan.deferred) {
      ForeignIdsDiffer(c, q.deferred, id, scope, plan.deferred);
    }
    DeferredByScope(q.deferred, ById(plan.deferred), scope, other);
    CountOf(Applied(c, l, q, scope, incoming, cycle).deferred, scope);
  }

  /** After the delta, the stored deferred queue of the scope is the one the plan returned. */
  lemma {:induction false} StoredBacklogIsReturned(c: Platform, l: Limits, q: Queues, scope: string, incoming: seq<Proposal>, cycle: nat)
    requires Sound(c) && QueuesOk(c, l, q) && Admissible(c, scope, incoming) && q.cycle <= cycle
    ensures var backlog, plan := Restrict(Applied(c, l, q, scope, incoming, cycle).deferred, scope), MakePlan(c, l, q, scope, incoming, cycle);
      backlog == ById(plan.deferred) && Listing(c, backlog) == plan.deferred
  {
    hide Formed, ById, Restrict, Outside, MakePlan, Applied, Count, Stamp, Sound;
    var plan := MakePlan(c, l, q, scope, incoming, cycle);
    PlanIds(c, l, q, scope, incoming, cycle);
    PlanConserves(c, l, q, scope, incoming, cycle);
    ScheduleByScope(c, l, q, scope, incoming, cycle, scope);
    ByIdHolds(plan.deferred);
    ListingIs(c, ById(plan.deferred), plan.deferred);
  }

  /** A schedule keeps the queues sound; it brings its own scope's backlog within the limit, and leaves the others' alone. */
  lemma {:induction false} ScheduleKeeps(c: Platform, l: Limits, q: Queues, scope: string, incoming: seq<Proposal>, cycle: nat)
    requires Sound(c) && QueuesOk(c, l, q) && Admissible(c, scope, incoming) && q.cycle <= cycle
    ensures var r := Applied(c, l, q, scope, incoming, cycle);
      QueuesOk(c, l, r) && Count(r.deferred, scope) <= l.maxDeferred && (DeferredOk(l, q) ==> DeferredOk(l, r))
  {
    hide Formed, ById, Restrict, MakePlan, Applied, Count, Sound, KindCount, Cooling, Outside;
    var plan, r := MakePlan(c, l, q, scope, incoming, cycle), Applied(c, l, q, scope, incoming, cycle);
    PlanIds(c, l, q, scope, incoming, cycle);
    PlanWithinLimits(c, l, q, scope, incoming, cycle);
    PlanApplied(c, l, q, scope, incoming, cycle);
    GoodAdd(c, q.pending, plan.scheduled);
    OutsideGood(c, q.deferred, scope);
    GoodAdd(c, Outside(q.deferred, scope), plan.deferred);
    forall other
      ensures Count(r.pending, other) <= l.maxPending
      ensures Count(r.deferred, other) <= if other == scope then l.maxDeferred else Count(q.deferred, other)
    {
      ScheduleCounts(c, l, q, scope, incoming, cycle, other);
    }
    hide Good;
    ReadyAndDeferredApart(c, q, scope, plan);
  }

  lemma {:induction false} ScheduleCounts(c: Platform, l: Limits, q: Queues, scope: string, incoming: seq<Proposal>, cycle: nat, other: string)
    requires Sound(c) && QueuesOk(c, l, q) && Admissible(c, scope, incoming) && q.cycle <= cycle
    ensures var r := Applied(c, l, q, scope, incoming, cycle);
      && Count(r.pending, other) <= l.maxPending
      && Count(r.deferred, other) <= if other == scope then l.maxDeferred else Count(q.deferred, other)
  {
    hide Formed, ById, Restrict, MakePlan, Applied, Count, Sound, KindCount, Cooling;
    var r := Applied(c, l, q, scope, incoming, cycle);
    PlanWithinLimits(c, l, q, scope, incoming, cycle);
    ScheduleByScope(c, l, q, scope, incoming, cycle, other);
    SameCount(q.pending, r.pending, other);
    SameCount(q.deferred, r.deferred, other);
  }

  lemma {:induction false} OutsideGood(c: Platform, m: map<string, Proposal>, scope: string)
    requires Good(c, m)
    ensures Good(c, Outside(m, scope)) && Outside(m, scope).Keys <= m.Keys
  {
    hide Formed;
  }

  lemma {:induction false} SameCount(a: map<string, Proposal>, b: map<string, Proposal>, scope: string)
    ensures Restrict(a, scope) == Restrict(b, scope) ==> Count(a, scope) == Count(b, scope)
  {
  }

  lemma {:induction false} ReadyAndDeferredApart(c: Platform, q: Queues, scope: string, plan: Plan)
    requires Sound(c) && Good(c, q.deferred) && q.pending.Keys !! q.deferred.Keys
    requires forall p :: p in plan.scheduled || p in plan.deferred ==> p.id !in q.pending && Formed(c, p) && ScopeOf(p) == scope
    requires forall p, r :: p in plan.scheduled && r in plan.deferred ==> p.id != r.id
    ensures (q.pending + ById(plan.scheduled)).Keys !! (Outside(q.deferred, scope) + ById(plan.deferred)).Keys
  {
    hide Formed, ById;
    forall id | id in q.deferred ensures ScopeOf(q.deferred[id]) != scope ==> id !in Ids(plan.scheduled) {
      ForeignIdsDiffer(c, q.deferred, id, scope, plan.scheduled);
    }
  }
}
