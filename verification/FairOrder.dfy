/**
 The scheduler's round-robin over scopes: one queue per scope, served in turns that start at a scope
 rotating with the cycle.
 */
module FairOrders {
  import opened NeedProposals

  type ScopeQueues = map<string, seq<Proposal>>

  /** The first proposal of each waiting scope, in turn order. */
  function Heads(turns: seq<string>, q: ScopeQueues): seq<Proposal> {
    if turns == [] then []
    else (if turns[0] in q && q[turns[0]] != [] then [q[turns[0]][0]] else []) + Heads(turns[1..], q)
  }

  function Tail(s: seq<Proposal>): seq<Proposal> { if s == [] then [] else s[1..] }

  /** The queues after the scopes in `served` have had their turn. */
  function Shifted(q: ScopeQueues, served: seq<string>): ScopeQueues {
    map s | s in q :: if s in served then Tail(q[s]) else q[s]
  }

  function Total(turns: seq<string>, q: ScopeQueues): nat {
    if turns == [] then 0 else (if turns[0] in q then |q[turns[0]]| else 0) + Total(turns[1..], q)
  }

  lemma {:induction false} TotalShifts(turns: seq<string>, q: ScopeQueues, served: seq<string>)
    requires forall t :: t in turns ==> t in served
    ensures Total(turns, Shifted(q, served)) == Total(turns, q) - |Heads(turns, q)|
  {
    if turns != [] {
      assert turns[0] in turns;
      TotalShifts(turns[1..], q, served);
    }
  }

  /** Rounds of heads until every queue is empty. */
  function RoundRobin(turns: seq<string>, q: ScopeQueues): seq<Proposal>
    decreases Total(turns, q)
  {
    var heads := Heads(turns, q);
    TotalShifts(turns, q, turns);
    if heads == [] then [] else heads + RoundRobin(turns, Shifted(q, turns))
  }

  // ---- what a scope is served ----

  /** The proposals of one scope, in the order they are served. */
  function Served(s: seq<Proposal>, scope: string): seq<Proposal> {
    if s == [] then [] else (if ScopeOf(s[0]) == scope then [s[0]] else []) + Served(s[1..], scope)
  }

  lemma {:induction false} ServedConcat(a: seq<Proposal>, b: seq<Proposal>, scope: string)
    ensures Served(a + b, scope) == Served(a, scope) + Served(b, scope)
  {
    if a == [] {
      assert a + b == b;
    } else {
      assert (a + b)[1..] == a[1..] + b;
      ServedConcat(a[1..], b, scope);
    }
  }

  lemma {:induction false} ServedMember(s: seq<Proposal>, p: Proposal)
    ensures p in s <==> p in Served(s, ScopeOf(p))
  {
    if s != [] {
      ServedMember(s[1..], p);
      assert s == [s[0]] + s[1..];
    }
  }

  predicate Distinct(turns: seq<string>) {
    forall i, j :: 0 <= i < j < |turns| ==> turns[i] != turns[j]
  }

  /** Every queue holds proposals of its own scope, and every queue has a turn. */
  ghost predicate Labelled(turns: seq<string>, q: ScopeQueues) {
    && Distinct(turns)
    && (forall s :: s in q ==> s in turns)
    && (forall s, p :: s in q && p in q[s] ==> ScopeOf(p) == s)
  }

  function HeadOf(q: ScopeQueues, scope: string): seq<Proposal> {
    if scope in q && q[scope] != [] then [q[scope][0]] else []
  }

  lemma {:induction false} HeadsServe(turns: seq<string>, q: ScopeQueues, scope: string)
    requires Distinct(turns) && forall s, p :: s in q && p in q[s] ==> ScopeOf(p) == s
    ensures Served(Heads(turns, q), scope) == if scope in turns then HeadOf(q, scope) else []
  {
    if turns != [] {
      HeadsServe(turns[1..], q, scope);
      var first := HeadOf(q, turns[0]);
      ServedConcat(first, Heads(turns[1..], q), scope);
      assert turns == [turns[0]] + turns[1..];
      if first != [] {
        assert first[0] in q[turns[0]];
      }
    }
  }

  lemma {:induction false} LabelledShifted(turns: seq<string>, q: ScopeQueues)
    requires Labelled(turns, q)
    ensures Labelled(turns, Shifted(q, turns))
  {
    var r := Shifted(q, turns);
    forall s, p | s in r && p in r[s] ensures ScopeOf(p) == s {
      assert p in q[s];
    }
  }

  /** One round serves a scope its head and leaves the rest of its queue. */
  lemma {:induction false} RoundServes(turns: seq<string>, q: ScopeQueues, scope: string)
    requires Labelled(turns, q)
    ensures scope !in q ==> Served(Heads(turns, q), scope) == [] && scope !in Shifted(q, turns)
    ensures scope in q ==> scope in Shifted(q, turns) && q[scope] == Served(Heads(turns, q), scope) + Shifted(q, turns)[scope]
    ensures scope in q && Heads(turns, q) == [] ==> q[scope] == []
  {
    HeadsServe(turns, q, scope);
  }

  lemma {:induction false} NothingServed(scope: string)
    ensures Served([], scope) == []
  {
  }

  /** Each scope is served its whole queue, in the queue's order. */
  lemma {:induction false} RoundRobinServesQueues(turns: seq<string>, q: ScopeQueues, scope: string)
    requires Labelled(turns, q)
    ensures Served(RoundRobin(turns, q), scope) == if scope in q then q[scope] else []
    decreases Total(turns, q)
  {
    hide RoundRobin, Heads, Shifted, Served, Labelled, Total;
    RoundServes(turns, q, scope);
    RoundRobinEnds(turns, q);
    if Heads(turns, q) == [] {
      NothingServed(scope);
    } else {
      TotalShifts(turns, q, turns);
      LabelledShifted(turns, q);
      RoundRobinServesQueues(turns, Shifted(q, turns), scope);
      ServedConcat(Heads(turns, q), RoundRobin(turns, Shifted(q, turns)), scope);
    }
  }

  /** How much of its queue a scope has been served after `n` proposals. */
  function ServedBy(turns: seq<string>, q: ScopeQueues, n: nat, scope: string): nat
    requires n <= |RoundRobin(turns, q)|
  {
    |Served(RoundRobin(turns, q)[..n], scope)|
  }

  /** Past the first round, a scope has been served its head and then what the later rounds give it. */
  lemma {:induction false} ServedPastRound(turns: seq<string>, q: ScopeQueues, n: nat, scope: string)
    requires Labelled(turns, q) && Heads(turns, q) != [] && |Heads(turns, q)| < n <= |RoundRobin(turns, q)|
    ensures n - |Heads(turns, q)| <= |RoundRobin(turns, Shifted(q, turns))|
    ensures ServedBy(turns, q, n, scope) ==
            (if scope in turns then |HeadOf(q, scope)| else 0) + ServedBy(turns, Shifted(q, turns), n - |Heads(turns, q)|, scope)
  {
    var heads, rest := Heads(turns, q), RoundRobin(turns, Shifted(q, turns));
    assert RoundRobin(turns, q) == heads + rest;
    assert (heads + rest)[..n] == heads + rest[..n - |heads|];
    ServedConcat(heads, rest[..n - |heads|], scope);
    HeadsServe(turns, q, scope);
  }

  /** Within the first round, no scope is served twice. */
  lemma {:induction false} ServedInRound(turns: seq<string>, q: ScopeQueues, n: nat, scope: string)
    requires Labelled(turns, q) && n <= |Heads(turns, q)| && n <= |RoundRobin(turns, q)|
    ensures ServedBy(turns, q, n, scope) <= 1
  {
    hide RoundRobin, Heads, Served;
    var heads := Heads(turns, q);
    HeadsServe(turns, q, scope);
    RoundRobinEnds(turns, q);
    assert RoundRobin(turns, q)[..n] == heads[..n] && heads == heads[..n] + heads[n..];
    ServedConcat(heads[..n], heads[n..], scope);
  }

  /**
   In any prefix, a scope has been served at most once more than another scope that is still waiting.
   */
  lemma {:induction false} RoundRobinIsFair(turns: seq<string>, q: ScopeQueues, n: nat, a: string, b: string)
    requires Labelled(turns, q) && n <= |RoundRobin(turns, q)| && b in q
    ensures ServedBy(turns, q, n, a) <= ServedBy(turns, q, n, b) + 1 || ServedBy(turns, q, n, b) == |q[b]|
    decreases Total(turns, q)
  {
    hide RoundRobin, Served, ServedBy;
    var heads, rest := Heads(turns, q), Shifted(q, turns);
    if q[b] == [] {
      NeverServed(turns, q, n, b);
    } else if n <= |heads| {
      ServedInRound(turns, q, n, a);
    } else {
      RoundRobinEnds(turns, q);
      ServedPastRound(turns, q, n, a);
      ServedPastRound(turns, q, n, b);
      TotalShifts(turns, q, turns);
      LabelledShifted(turns, q);
      RoundRobinIsFair(turns, rest, n - |heads|, a, b);
    }
  }

  lemma {:induction false} RoundRobinEnds(turns: seq<string>, q: ScopeQueues)
    ensures Heads(turns, q) == [] ==> RoundRobin(turns, q) == []
    ensures Heads(turns, q) != [] ==> RoundRobin(turns, q) == Heads(turns, q) + RoundRobin(turns, Shifted(q, turns))
  {
  }

  lemma {:induction false} NeverServed(turns: seq<string>, q: ScopeQueues, n: nat, b: string)
    requires Labelled(turns, q) && n <= |RoundRobin(turns, q)| && b in q && q[b] == []
    ensures ServedBy(turns, q, n, b) == 0
  {
    var out := RoundRobin(turns, q);
    RoundRobinServesQueues(turns, q, b);
    assert out == out[..n] + out[n..];
    ServedConcat(out[..n], out[n..], b);
  }

  // ---- the order of one cycle ----

  function Scopes(m: map<string, Proposal>): set<string> { set id | id in m :: ScopeOf(m[id]) }

  /** One sorted queue per scope. */
  ghost function QueuesOf(c: Platform, m: map<string, Proposal>): ScopeQueues
    requires Sound(c) && Keyed(m)
  {
    map s | s in Scopes(m) :: Listing(c, Restrict(m, s))
  }

  /** The scopes in their order. */
  ghost predicate SortedScopes(c: Platform, scopes: seq<string>, all: set<string>) {
    && (forall i, j :: 0 <= i < j < |scopes| ==> c.scopeRank(scopes[i]) < c.scopeRank(scopes[j]))
    && (forall s :: s in scopes <==> s in all)
  }

  function Offset(n: nat, cycle: nat): (o: nat)
    requires 0 < cycle
    ensures n > 0 ==> o < n
    ensures n == 0 ==> o == 0
  {
    if n == 0 then 0 else (cycle - 1) % n
  }

  function Rotate(scopes: seq<string>, cycle: nat): seq<string>
    requires 0 < cycle
  {
    scopes[Offset(|scopes|, cycle)..] + scopes[..Offset(|scopes|, cycle)]
  }

  /** `out` serves the queues of `m` round robin, beginning with the scope whose turn this cycle is. */
  ghost predicate IsFairOrder(c: Platform, m: map<string, Proposal>, cycle: nat, out: seq<Proposal>)
    requires Sound(c) && Keyed(m) && 0 < cycle
  {
    exists scopes :: SortedScopes(c, scopes, Scopes(m)) && out == RoundRobin(Rotate(scopes, cycle), QueuesOf(c, m))
  }

  lemma {:induction false} RotateMembers(a: seq<string>, b: seq<string>)
    requires Distinct(a + b)
    ensures Distinct(b + a) && forall s :: s in b + a <==> s in a + b
  {
    var u := a + b;
    forall i, j | 0 <= i < j < |b + a| ensures (b + a)[i] != (b + a)[j] {
      var x := if i < |b| then i + |a| else i - |b|;
      var y := if j < |b| then j + |a| else j - |b|;
      assert u[x] == (b + a)[i] && u[y] == (b + a)[j];
    }
  }

  lemma {:induction false} RotateLabelled(c: Platform, m: map<string, Proposal>, cycle: nat, scopes: seq<string>)
    requires Sound(c) && Keyed(m) && 0 < cycle && SortedScopes(c, scopes, Scopes(m))
    ensures Labelled(Rotate(scopes, cycle), QueuesOf(c, m))
  {
    var turns, q := Rotate(scopes, cycle), QueuesOf(c, m);
    var o := Offset(|scopes|, cycle);
    assert scopes == scopes[..o] + scopes[o..];
    DistinctScopes(c, scopes);
    RotateMembers(scopes[..o], scopes[o..]);
  }

  lemma {:induction false} DistinctScopes(c: Platform, scopes: seq<string>)
    requires forall i, j :: 0 <= i < j < |scopes| ==> c.scopeRank(scopes[i]) < c.scopeRank(scopes[j])
    ensures Distinct(scopes)
  {
    forall i, j | 0 <= i < j < |scopes| ensures scopes[i] != scopes[j] {
      assert c.scopeRank(scopes[i]) < c.scopeRank(scopes[j]);
    }
  }

  /** A scope's turn order keeps its priorities, nothing is lost or invented, and no waiting scope falls two behind. */
  lemma {:induction false} FairOrderServes(c: Platform, m: map<string, Proposal>, cycle: nat, out: seq<Proposal>)
    requires Sound(c) && Keyed(m) && 0 < cycle && IsFairOrder(c, m, cycle, out)
    ensures forall scope :: Served(out, scope) == Listing(c, Restrict(m, scope))
    ensures forall p :: p in out <==> p.id in m && m[p.id] == p
  {
    var scopes :| SortedScopes(c, scopes, Scopes(m)) && out == RoundRobin(Rotate(scopes, cycle), QueuesOf(c, m));
    RotateLabelled(c, m, cycle, scopes);
    forall scope ensures Served(out, scope) == Listing(c, Restrict(m, scope)) {
      RoundRobinServesQueues(Rotate(scopes, cycle), QueuesOf(c, m), scope);
      if scope !in Scopes(m) {
        assert Restrict(m, scope) == map[];
      }
    }
    forall p ensures p in out <==> p.id in m && m[p.id] == p {
      ServedMember(out, p);
      assert Served(out, ScopeOf(p)) == Listing(c, Restrict(m, ScopeOf(p)));
    }
  }

  /** A multiple of `n` that lies above `-n` and not above `n` is zero or `n`. */
  lemma {:induction false} SmallMultiple(n: int, d: int)
    requires 0 < n && -n < n * d <= n
    ensures n * d == 0 || n * d == n
  {
  }

  lemma {:induction false} NextOffset(n: nat, cycle: nat)
    requires 0 < n && 0 < cycle
    ensures Offset(n, 1) == 0
    ensures Offset(n, cycle + 1) == if Offset(n, cycle) + 1 == n then 0 else Offset(n, cycle) + 1
  {
    var q, o := (cycle - 1) / n, (cycle - 1) % n;
    var p, r := cycle / n, cycle % n;
    assert n * (p - q) == n * p - n * q == o + 1 - r;
    SmallMultiple(n, p - q);
  }

  /** The scopes take turns: in the first cycle they come in their order, and in each next one the first has become the last. */
  lemma {:induction false} ScopesTakeTurns(scopes: seq<string>, cycle: nat)
    requires 0 < cycle && scopes != []
    ensures Rotate(scopes, 1) == scopes
    ensures |Rotate(scopes, cycle)| == |scopes|
    ensures Rotate(scopes, cycle + 1) == Rotate(scopes, cycle)[1..] + [Rotate(scopes, cycle)[0]]
  {
    NextOffset(|scopes|, cycle);
    var o := Offset(|scopes|, cycle);
    assert scopes[o..][1..] == scopes[o + 1..];
    if o + 1 == |scopes| {
      assert scopes[..o] + [scopes[o]] == scopes;
    } else {
      assert scopes[..o + 1] == scopes[..o] + [scopes[o]];
    }
  }

  /** The scope whose turn it is is served first. */
  lemma {:induction false} LeaderIsServedFirst(c: Platform, m: map<string, Proposal>, cycle: nat, scopes: seq<string>)
    requires Sound(c) && Keyed(m) && 0 < cycle && m != map[] && SortedScopes(c, scopes, Scopes(m))
    ensures scopes != [] && |Rotate(scopes, cycle)| == |scopes|
    ensures var out := RoundRobin(Rotate(scopes, cycle), QueuesOf(c, m)); out != [] && ScopeOf(out[0]) == Rotate(scopes, cycle)[0]
  {
    hide RoundRobin, ScopeOf, SortedScopes, Rotate, Sound, Ordered;
    var id :| id in m;
    SomeScope(c, m, scopes, id);
    ScopesTakeTurns(scopes, cycle);
    RotateLabelled(c, m, cycle, scopes);
    var turns, q := Rotate(scopes, cycle), QueuesOf(c, m);
    RotateScopes(scopes, cycle);
    LeaderWaits(c, m, scopes, turns[0]);
    RoundRobinEnds(turns, q);
    assert q[turns[0]][0] in q[turns[0]];
  }

  lemma {:induction false} SomeScope(c: Platform, m: map<string, Proposal>, scopes: seq<string>, id: string)
    requires id in m && SortedScopes(c, scopes, Scopes(m))
    ensures ScopeOf(m[id]) in scopes
  {
    assert ScopeOf(m[id]) in Scopes(m);
  }

  lemma {:induction false} RotateScopes(scopes: seq<string>, cycle: nat)
    requires 0 < cycle
    ensures forall s :: s in Rotate(scopes, cycle) ==> s in scopes
  {
  }

  lemma {:induction false} LeaderWaits(c: Platform, m: map<string, Proposal>, scopes: seq<string>, s: string)
    requires Sound(c) && Keyed(m) && SortedScopes(c, scopes, Scopes(m)) && s in scopes
    ensures s in QueuesOf(c, m) && QueuesOf(c, m)[s] != []
  {
    var id :| id in m && ScopeOf(m[id]) == s;
    assert id in Restrict(m, s);
  }

  lemma {:induction false} FairOrderIsFair(c: Platform, m: map<string, Proposal>, cycle: nat, out: seq<Proposal>, n: nat, a: string, b: string)
    requires Sound(c) && Keyed(m) && 0 < cycle && IsFairOrder(c, m, cycle, out) && n <= |out| && b in Scopes(m)
    ensures |Served(out[..n], a)| <= |Served(out[..n], b)| + 1 || |Served(out[..n], b)| == |Restrict(m, b)|
  {
    var scopes :| SortedScopes(c, scopes, Scopes(m)) && out == RoundRobin(Rotate(scopes, cycle), QueuesOf(c, m));
    RotateLabelled(c, m, cycle, scopes);
    RoundRobinIsFair(Rotate(scopes, cycle), QueuesOf(c, m), n, a, b);
  }

  /** Within one scope, the fair order is the priority order. */
  lemma {:induction false} FairOrderOfOneScope(c: Platform, m: map<string, Proposal>, cycle: nat, out: seq<Proposal>, scope: string)
    requires Sound(c) && Keyed(m) && 0 < cycle && IsFairOrder(c, m, cycle, out)
    requires forall id :: id in m ==> ScopeOf(m[id]) == scope
    ensures out == Listing(c, m)
  {
    hide IsFairOrder, Served, ScopeOf, Sound;
    FairOrderServes(c, m, cycle, out);
    assert Restrict(m, scope) == m;
    assert Served(out, scope) == Listing(c, m);
    forall p | p in out ensures ScopeOf(p) == scope {
      assert m[p.id] == p;
    }
    ServedAll(out, scope);
  }

  lemma {:induction false} ServedAll(s: seq<Proposal>, scope: string)
    requires forall p :: p in s ==> ScopeOf(p) == scope
    ensures Served(s, scope) == s
  {
    if s != [] {
      assert s[0] in s;
      assert forall p :: p in s[1..] ==> p in s;
      ServedAll(s[1..], scope);
    }
  }

  // ---- the loop ----

  lemma {:induction false} HeadsConcat(a: seq<string>, b: seq<string>, q: ScopeQueues)
    ensures Heads(a + b, q) == Heads(a, q) + Heads(b, q)
  {
    if a == [] {
      assert a + b == b;
    } else {
      assert (a + b)[1..] == a[1..] + b;
      HeadsConcat(a[1..], b, q);
    }
  }

  /** One turn: the scope's head moves from its queue to the order. */
  lemma {:induction false} TurnShifts(turns: seq<string>, i: nat, q: ScopeQueues)
    requires Distinct(turns) && i < |turns| && turns[i] in q
    ensures turns[i] !in turns[..i]
    ensures Heads(turns[..i + 1], q) == Heads(turns[..i], q) + HeadOf(q, turns[i])
    ensures Shifted(q, turns[..i + 1]) == Shifted(q, turns[..i])[turns[i] := Tail(q[turns[i]])]
  {
    assert turns[..i + 1] == turns[..i] + [turns[i]];
    HeadsConcat(turns[..i], [turns[i]], q);
    assert [turns[i]][1..] == [];
  }

  /** Sorts one queue. */
  method SortQueue(c: Platform, s: seq<Proposal>) returns (t: seq<Proposal>)
    requires Sound(c) && DistinctIds(s)
    ensures Ordered(c, t) && forall p :: p in t <==> p in s
  {
    t := [];
    for i := 0 to |s|
      invariant Ordered(c, t) && forall p :: p in t <==> p in s[..i]
    {
      forall q | q in t ensures Before(c, s[i], q) || Before(c, q, s[i]) {
        assert q in s[..i];
      }
      InsertKeeps(c, t, s[i]);
      t := Insert(c, t, s[i]);
      assert s[..i + 1] == s[..i] + [s[i]];
    }
    assert s[..|s|] == s;
  }

  /** One round: every waiting scope's head moves, in turn order, from its queue to the end of the order. */
  method ServeRound(turns: seq<string>, start: ScopeQueues) returns (heads: seq<Proposal>, queues: ScopeQueues)
    requires Distinct(turns) && forall s :: s in turns ==> s in start
    ensures heads == Heads(turns, start) && queues == Shifted(start, turns)
  {
    heads, queues := [], start;
    assert turns[..0] == [] && turns[..|turns|] == turns;
    for i := 0 to |turns|
      invariant heads == Heads(turns[..i], start) && queues == Shifted(start, turns[..i])
    {
      TurnShifts(turns, i, start);
      var queue := queues[turns[i]];
      if queue != [] {
        heads := heads + [queue[0]];
        queues := queues[turns[i] := queue[1..]];
      }
    }
  }

  /** Serves the sorted queues until none has anything left. */
  method ServeInTurns(turns: seq<string>, initial: ScopeQueues) returns (out: seq<Proposal>)
    requires Labelled(turns, initial) && forall s :: s in turns ==> s in initial
    ensures out == RoundRobin(turns, initial)
  {
    hide RoundRobin, Heads, Labelled;
    LabelledDistinct(turns, initial);
    out := [];
    var queues := initial;
    var remaining := true;
    while remaining
      invariant Labelled(turns, queues) && queues.Keys == initial.Keys
      invariant out + RoundRobin(turns, queues) == RoundRobin(turns, initial)
      invariant !remaining ==> Heads(turns, queues) == []
      decreases Total(turns, queues) + if remaining then 1 else 0
    {
      ghost var start := queues;
      var heads;
      heads, queues := ServeRound(turns, queues);
      TotalShifts(turns, start, turns);
      LabelledShifted(turns, start);
      RoundEnds(turns, start, out, out + heads, queues);
      out := out + heads;
      remaining := heads != [];
    }
    RoundRobinEnds(turns, queues);
  }

  lemma {:induction false} LabelledDistinct(turns: seq<string>, q: ScopeQueues)
    requires Labelled(turns, q)
    ensures Distinct(turns)
  {
  }

  lemma {:induction false} RoundEnds(turns: seq<string>, start: ScopeQueues, before: seq<Proposal>, out: seq<Proposal>, queues: ScopeQueues)
    requires out == before + Heads(turns, start) && queues == Shifted(start, turns)
    ensures out + RoundRobin(turns, queues) == before + RoundRobin(turns, start)
    ensures Heads(turns, start) == [] ==> Heads(turns, queues) == []
  {
    var heads := Heads(turns, start);
    if heads == [] {
      EmptyStays(turns, start, turns);
      RoundRobinEnds(turns, queues);
    }
    assert before + heads + RoundRobin(turns, queues) == before + (heads + RoundRobin(turns, queues));
  }

  lemma {:induction false} EmptyStays(turns: seq<string>, q: ScopeQueues, served: seq<string>)
    requires Heads(turns, q) == []
    ensures Heads(turns, Shifted(q, served)) == []
  {
    if turns != [] {
      EmptyStays(turns[1..], q, served);
    }
  }

  /** Where a scope belongs among sorted ones. */
  method Position(c: Platform, scopes: seq<string>, s: string) returns (k: nat)
    requires forall i, j :: 0 <= i < j < |scopes| ==> c.scopeRank(scopes[i]) < c.scopeRank(scopes[j])
    ensures k <= |scopes|
    ensures forall i :: 0 <= i < k ==> c.scopeRank(scopes[i]) < c.scopeRank(s)
    ensures forall i :: k <= i < |scopes| ==> c.scopeRank(s) <= c.scopeRank(scopes[i])
  {
    k := 0;
    while k < |scopes| && c.scopeRank(scopes[k]) < c.scopeRank(s)
      invariant k <= |scopes|
      invariant forall i :: 0 <= i < k ==> c.scopeRank(scopes[i]) < c.scopeRank(s)
    {
      k := k + 1;
    }
  }

  lemma {:induction false} InsertScope(c: Platform, scopes: seq<string>, all: set<string>, s: string, k: nat)
    requires Sound(c) && SortedScopes(c, scopes, all) && s !in all && k <= |scopes|
    requires forall i :: 0 <= i < k ==> c.scopeRank(scopes[i]) < c.scopeRank(s)
    requires forall i :: k <= i < |scopes| ==> c.scopeRank(s) <= c.scopeRank(scopes[i])
    ensures SortedScopes(c, scopes[..k] + [s] + scopes[k..], all + {s})
  {
    var more := scopes[..k] + [s] + scopes[k..];
    forall i | 0 <= i < |scopes| ensures c.scopeRank(scopes[i]) != c.scopeRank(s) {
      assert scopes[i] in all;
    }
    assert forall i :: 0 <= i < |more| ==> more[i] == if i < k then scopes[i] else if i == k then s else scopes[i - 1];
    assert scopes == scopes[..k] + scopes[k..];
  }

  /** The scopes of the queues, sorted. */
  method SortScopes(c: Platform, all: set<string>) returns (scopes: seq<string>)
    requires Sound(c)
    ensures SortedScopes(c, scopes, all)
  {
    hide Sound;
    scopes := [];
    var left := all;
    while left != {}
      invariant left <= all && SortedScopes(c, scopes, all - left)
      decreases |left|
    {
      var s :| s in left;
      var k := Position(c, scopes, s);
      InsertScope(c, scopes, all - left, s, k);
      assert all - (left - {s}) == all - left + {s};
      scopes := scopes[..k] + [s] + scopes[k..];
      left := left - {s};
    }
  }

  lemma {:induction false} ServedMembers(s: seq<Proposal>, scope: string, p: Proposal)
    ensures p in Served(s, scope) <==> p in s && ScopeOf(p) == scope
  {
    if s != [] {
      ServedMembers(s[1..], scope, p);
      assert s == [s[0]] + s[1..];
    }
  }

  lemma {:induction false} ServedDistinct(s: seq<Proposal>, scope: string)
    requires DistinctIds(s)
    ensures DistinctIds(Served(s, scope))
  {
    if s != [] {
      ServedDistinct(s[1..], scope);
      var rest := Served(s[1..], scope);
      forall i | 0 <= i < |rest| ensures rest[i].id != s[0].id {
        ServedMembers(s[1..], scope, rest[i]);
      }
    }
  }

  /** Queues the proposals by scope. */
  method FillQueues(proposals: seq<Proposal>) returns (queues: ScopeQueues)
    ensures forall s :: s in queues <==> Served(proposals, s) != []
    ensures forall s :: s in queues ==> queues[s] == Served(proposals, s)
  {
    queues := map[];
    for i := 0 to |proposals|
      invariant forall s :: s in queues <==> Served(proposals[..i], s) != []
      invariant forall s :: s in queues ==> queues[s] == Served(proposals[..i], s)
    {
      var p := proposals[i];
      assert proposals[..i + 1] == proposals[..i] + [p];
      forall s ensures Served(proposals[..i + 1], s) == Served(proposals[..i], s) + if ScopeOf(p) == s then [p] else [] {
        ServedConcat(proposals[..i], [p], s);
        assert [p][1..] == [];
      }
      var queue := if ScopeOf(p) in queues then queues[ScopeOf(p)] else [];
      queues := queues[ScopeOf(p) := queue + [p]];
    }
    assert proposals[..|proposals|] == proposals;
  }

  /** Sorts every queue in place. */
  method SortQueues(c: Platform, filled: ScopeQueues) returns (queues: ScopeQueues)
    requires Sound(c) && forall s :: s in filled ==> DistinctIds(filled[s])
    ensures queues.Keys == filled.Keys
    ensures forall s :: s in queues ==> Ordered(c, queues[s]) && forall p :: p in queues[s] <==> p in filled[s]
  {
    hide Ordered, DistinctIds;
    queues := filled;
    var unsorted := queues.Keys;
    while unsorted != {}
      invariant unsorted <= queues.Keys == filled.Keys
      invariant forall s :: s in unsorted ==> queues[s] == filled[s]
      invariant forall s :: s in queues && s !in unsorted ==> Ordered(c, queues[s]) && forall p :: p in queues[s] <==> p in filled[s]
      decreases |unsorted|
    {
      var s :| s in unsorted;
      var sorted := SortQueue(c, queues[s]);
      queues := queues[s := sorted];
      unsorted := unsorted - {s};
    }
  }

  /** Queues the proposals by scope, sorts each queue, and serves the scopes in rotated turns. */
  method FairOrder(c: Platform, proposals: seq<Proposal>, cycle: nat) returns (out: seq<Proposal>)
    requires Sound(c) && DistinctIds(proposals) && 0 < cycle
    ensures IsFairOrder(c, ById(proposals), cycle, out)
  {
    hide Served, DistinctIds, Ordered, RoundRobin, Labelled, Sound;
    var filled := FillQueues(proposals);
    forall s | s in filled ensures DistinctIds(filled[s]) {
      ServedDistinct(proposals, s);
    }
    var queues := SortQueues(c, filled);
    QueuesAreListings(c, proposals, filled, queues);
    var scopes := SortScopes(c, queues.Keys);
    RotateLabelled(c, ById(proposals), cycle, scopes);
    var turns := Rotate(scopes, cycle);
    out := ServeInTurns(turns, queues);
  }

  /** A sorted queue of a scope's proposals is the scope's listing. */
  lemma {:induction false} QueueIsListing(c: Platform, proposals: seq<Proposal>, s: string, queue: seq<Proposal>)
    requires Sound(c) && DistinctIds(proposals) && Ordered(c, queue)
    requires forall p :: p in queue <==> p in Served(proposals, s)
    ensures queue == Listing(c, Restrict(ById(proposals), s))
  {
    hide Sound, Served, Ordered, ById, DistinctIds;
    ByIdHolds(proposals);
    var m := Restrict(ById(proposals), s);
    forall p ensures p in queue <==> p.id in m && m[p.id] == p {
      ServedMembers(proposals, s, p);
    }
    ListingIs(c, m, queue);
  }

  /** Queues filled by scope and then sorted are the listings of the scopes. */
  lemma {:induction false} QueuesAreListings(c: Platform, proposals: seq<Proposal>, filled: ScopeQueues, queues: ScopeQueues)
    requires Sound(c) && DistinctIds(proposals) && queues.Keys == filled.Keys
    requires forall s :: s in filled <==> Served(proposals, s) != []
    requires forall s :: s in filled ==> filled[s] == Served(proposals, s)
    requires forall s :: s in queues ==> Ordered(c, queues[s]) && forall p :: p in queues[s] <==> p in filled[s]
    ensures queues == QueuesOf(c, ById(proposals))
  {
    hide Sound, Served, Ordered, DistinctIds, ById, Scopes, Listing;
    var m := ById(proposals);
    forall s ensures s in queues <==> s in Scopes(m) {
      ScopeIsQueued(proposals, s);
    }
    forall s | s in queues ensures queues[s] == Listing(c, Restrict(m, s)) {
      QueueIsListing(c, proposals, s, queues[s]);
    }
  }

  lemma {:induction false} ScopeIsQueued(proposals: seq<Proposal>, s: string)
    requires DistinctIds(proposals)
    ensures s in Scopes(ById(proposals)) <==> Served(proposals, s) != []
  {
    ByIdHolds(proposals);
    var served := Served(proposals, s);
    if served != [] {
      ServedMembers(proposals, s, served[0]);
      assert served[0].id in ById(proposals) && ById(proposals)[served[0].id] == served[0];
    }
    if s in Scopes(ById(proposals)) {
      var id :| id in ById(proposals) && ScopeOf(ById(proposals)[id]) == s;
      ServedMembers(proposals, s, ById(proposals)[id]);
    }
  }
}
