/**
 Proposals of the need scheduler (src/autonomy/need_scheduler.ts): their scopes, identities and order,
 and the sorted listing of a keyed collection of them.
 */
module NeedProposals {
  import opened Prelude

  datatype NeedKind = Research | Rag | Skill | EvaluationData | Training

  datatype Proposal = Proposal(
    id: string, signalId: string, kind: NeedKind, subject: string, scopeId: Option<string>,
    goal: string, reason: string, priority: int, requiresOptIn: bool)

  /**
   What the platform supplies: URI component encoding, the locale's order of identifiers, and whether a text is trimmed
   and has no lone surrogate. An order of strings is given by an injective rank.
   */
  datatype Platform = Platform(encode: string -> string, idRank: string -> real, scopeRank: string -> real, tidy: string -> bool)

  /** Encoded text has no colon and determines its source; both orders are total. */
  ghost predicate Sound(c: Platform) {
    && (forall a :: ':' !in c.encode(a))
    && (forall a, b :: c.encode(a) == c.encode(b) ==> a == b)
    && (forall a, b :: c.idRank(a) == c.idRank(b) ==> a == b)
    && (forall a, b :: c.scopeRank(a) == c.scopeRank(b) ==> a == b)
  }

  function Priority(k: NeedKind): int {
    match k case Research => 100 case Rag => 90 case Skill => 70 case EvaluationData => 60 case Training => 20
  }

  function KindName(k: NeedKind): (s: string)
    ensures ':' !in s
  {
    match k case Research => "research" case Rag => "rag" case Skill => "skill"
    case EvaluationData => "evaluation-data" case Training => "training"
  }

  lemma {:induction false} KindNameInjective(j: NeedKind, k: NeedKind)
    requires KindName(j) == KindName(k)
    ensures j == k
  {
    assert KindName(j)[0] == KindName(k)[0] && |KindName(j)| == |KindName(k)|;
  }

  // ---- scopes and identities ----

  const N1: string := "n1"

  function TenantScope(t: string): string { "tenant:" + t }

  function ScopeName(scopeId: Option<string>): string {
    match scopeId case None => N1 case Some(t) => TenantScope(t)
  }

  function ScopeOf(p: Proposal): string { ScopeName(p.scopeId) }

  /** The part of an identity before its subject; it has a colon exactly in a tenant's scope. */
  function IdStem(c: Platform, scopeId: Option<string>, kind: NeedKind): (s: string)
    ensures ':' in s <==> scopeId.Some?
  {
    if scopeId.None? then KindName(kind)
    else
      var s := "scope:" + c.encode(scopeId.value) + ":" + KindName(kind);
      assert s[5] == ':';
      s
  }

  function ProposalId(c: Platform, scopeId: Option<string>, kind: NeedKind, subject: string): string {
    IdStem(c, scopeId, kind) + ":" + c.encode(subject)
  }

  /** An identity determines scope, kind and subject: scopes can never share one. */
  lemma {:induction false} IdDeterminesProposal(c: Platform, a: Option<string>, j: NeedKind, s: string, b: Option<string>, k: NeedKind, t: string)
    requires Sound(c) && ProposalId(c, a, j, s) == ProposalId(c, b, k, t)
    ensures a == b && j == k && s == t
  {
    LastColonSplits(IdStem(c, a, j), c.encode(s), IdStem(c, b, k), c.encode(t));
    if a.Some? {
      LastColonSplits("scope:" + c.encode(a.value), KindName(j), "scope:" + c.encode(b.value), KindName(k));
      assert c.encode(a.value) == ("scope:" + c.encode(a.value))[6..] == ("scope:" + c.encode(b.value))[6..] == c.encode(b.value);
    }
    KindNameInjective(j, k);
  }

  /** No control character. */
  predicate Printable(s: string) { forall i :: 0 <= i < |s| ==> ' ' <= s[i] && s[i] != '\U{7F}' }

  predicate ValidText(c: Platform, s: string, max: nat) {
    0 < |s| <= max && Printable(s) && c.tidy(s)
  }

  /** A proposal as the scheduler builds it: its identity, priority and opt-in mark follow from scope, kind and subject. */
  predicate Formed(c: Platform, p: Proposal) {
    && p.id == ProposalId(c, p.scopeId, p.kind, p.subject)
    && p.priority == Priority(p.kind)
    && p.requiresOptIn == p.kind.Training?
  }

  /** What journal decoding accepts as a proposal. */
  predicate Canonical(c: Platform, p: Proposal) {
    && ValidText(c, p.id, 4096) && ValidText(c, p.signalId, 1024) && ValidText(c, p.subject, 512)
    && ValidText(c, p.goal, 4096) && ValidText(c, p.reason, 4096)
    && (p.scopeId.Some? ==> ValidText(c, p.scopeId.value, 256))
    && Formed(c, p)
  }

  /** What each kind of proposal is called, ranks at, and whether it must be opted into. */
  lemma {:induction false} FormedMeans(c: Platform, p: Proposal)
    ensures Formed(c, p) <==>
      var (name, rank) := match p.kind
        case Research => ("research:", 100) case Rag => ("rag:", 90) case Skill => ("skill:", 70)
        case EvaluationData => ("evaluation-data:", 60) case Training => ("training:", 20);
      && p.id == (if p.scopeId.Some? then "scope:" + c.encode(p.scopeId.value) + ":" else "") + name + c.encode(p.subject)
      && p.priority == rank && (p.requiresOptIn <==> p.kind == Training)
  {
    var prefix := if p.scopeId.Some? then "scope:" + c.encode(p.scopeId.value) + ":" else "";
    assert ProposalId(c, p.scopeId, p.kind, p.subject) == prefix + (KindName(p.kind) + ":") + c.encode(p.subject);
    assert KindName(p.kind) + ":" == match p.kind
      case Research => "research:" case Rag => "rag:" case Skill => "skill:"
      case EvaluationData => "evaluation-data:" case Training => "training:";
  }

  lemma {:induction false} SameIdSameScope(c: Platform, p: Proposal, q: Proposal)
    requires Sound(c) && Formed(c, p) && Formed(c, q) && p.id == q.id
    ensures ScopeOf(p) == ScopeOf(q) && p.kind == q.kind
  {
    IdDeterminesProposal(c, p.scopeId, p.kind, p.subject, q.scopeId, q.kind, q.subject);
  }

  // ---- order ----

  /** Higher priority first, then by identifier. */
  predicate Before(c: Platform, p: Proposal, q: Proposal) {
    p.priority > q.priority || (p.priority == q.priority && c.idRank(p.id) < c.idRank(q.id))
  }

  /** Formed proposals come in the order of their kinds: research, rag, skill, evaluation data, training; then by identity. */
  lemma {:induction false} KindsComeInOrder(c: Platform, p: Proposal, q: Proposal)
    requires Formed(c, p) && Formed(c, q)
    ensures Before(c, p, q) <==>
      if p.kind == q.kind then c.idRank(p.id) < c.idRank(q.id)
      else
        || p.kind == Research || (p.kind == Rag && q.kind != Research)
        || (p.kind == Skill && q.kind in {EvaluationData, Training}) || (p.kind == EvaluationData && q.kind == Training)
  {
    hide ProposalId;
  }

  ghost predicate Ordered(c: Platform, s: seq<Proposal>) {
    forall i, j :: 0 <= i < j < |s| ==> Before(c, s[i], s[j])
  }

  // ---- collections keyed by identity ----

  ghost predicate Keyed(m: map<string, Proposal>) {
    forall id :: id in m ==> m[id].id == id
  }

  /** `s` holds exactly the proposals of `m`. */
  ghost predicate Holds(s: seq<Proposal>, m: map<string, Proposal>) {
    forall p :: p in s <==> p.id in m && m[p.id] == p
  }

  function Restrict(m: map<string, Proposal>, scope: string): map<string, Proposal> {
    map id | id in m && ScopeOf(m[id]) == scope :: m[id]
  }

  function Count(m: map<string, Proposal>, scope: string): nat { |Restrict(m, scope)| }

  /** The proposals of a sequence by identity; a later one replaces an earlier one. */
  function ById(s: seq<Proposal>): (m: map<string, Proposal>)
    ensures Keyed(m)
    ensures forall id :: id in m ==> m[id] in s
    ensures forall p :: p in s ==> p.id in m
  {
    if s == [] then map[]
    else
      var last := s[|s| - 1];
      var m := ById(s[..|s| - 1]);
      assert s == s[..|s| - 1] + [last];
      m[last.id := last]
  }

  function Ids(s: seq<Proposal>): set<string> { ById(s).Keys }

  ghost predicate DistinctIds(s: seq<Proposal>) {
    forall i, j :: 0 <= i < j < |s| ==> s[i].id != s[j].id
  }

  /** What appending one proposal does to the collection of a sequence. */
  lemma {:induction false} ByIdLast(s: seq<Proposal>)
    requires s != []
    ensures ById(s) == ById(s[..|s| - 1])[s[|s| - 1].id := s[|s| - 1]]
    ensures s[|s| - 1] in s && forall p :: p in s[..|s| - 1] ==> p in s
  {
  }

  lemma {:induction false} ByIdNone()
    ensures ById([]) == map[] && Holds([], ById([]))
  {
  }

  lemma {:induction false} LastDiffers(s: seq<Proposal>)
    requires DistinctIds(s) && s != []
    ensures s[|s| - 1].id !in Ids(s[..|s| - 1]) && DistinctIds(s[..|s| - 1])
  {
    var t := s[..|s| - 1];
    forall p | p in t ensures p.id != s[|s| - 1].id {
      var i :| 0 <= i < |t| && t[i] == p;
    }
  }

  lemma {:induction false} HoldsMore(t: seq<Proposal>, p: Proposal, m: map<string, Proposal>)
    requires Holds(t, m) && p.id !in m
    ensures Holds(t + [p], m[p.id := p]) && |m[p.id := p]| == |m| + 1
  {
  }

  /** With distinct identities, a sequence and its collection hold the same proposals. */
  lemma {:induction false} ByIdHolds(s: seq<Proposal>)
    requires DistinctIds(s)
    ensures Holds(s, ById(s)) && |ById(s)| == |s|
  {
    hide ById, Holds, DistinctIds;
    if s == [] {
      ByIdNone();
    } else {
      var t, last := s[..|s| - 1], s[|s| - 1];
      ByIdLast(s);
      LastDiffers(s);
      ByIdHolds(t);
      HoldsMore(t, last, ById(t));
      assert s == t + [last];
    }
  }

  lemma {:induction false} OrderedDistinct(c: Platform, s: seq<Proposal>, m: map<string, Proposal>)
    requires Ordered(c, s) && forall p :: p in s ==> p.id in m && m[p.id] == p
    ensures DistinctIds(s)
  {
    forall i, j | 0 <= i < j < |s| ensures s[i].id != s[j].id {
      assert s[i] in s && s[j] in s && Before(c, s[i], s[j]);
    }
  }

  // ---- the sorted listing ----

  function Insert(c: Platform, s: seq<Proposal>, p: Proposal): seq<Proposal> {
    if s == [] || Before(c, p, s[0]) then [p] + s else [s[0]] + Insert(c, s[1..], p)
  }

  lemma {:induction false} InsertKeeps(c: Platform, s: seq<Proposal>, p: Proposal)
    requires Ordered(c, s) && forall q :: q in s ==> Before(c, p, q) || Before(c, q, p)
    ensures Ordered(c, Insert(c, s, p)) && |Insert(c, s, p)| == |s| + 1
    ensures forall q :: q in Insert(c, s, p) <==> q in s || q == p
  {
    if s != [] && !Before(c, p, s[0]) {
      assert s[0] in s;
      forall q | q in s[1..] ensures q in s {
      }
      InsertKeeps(c, s[1..], p);
      var r := Insert(c, s[1..], p);
      assert Insert(c, s, p) == [s[0]] + r;
      forall q | q in r ensures Before(c, s[0], q) {
        if q in s[1..] {
          var i :| 0 <= i < |s[1..]| && s[1..][i] == q;
          assert Before(c, s[0], s[i + 1]);
        }
      }
      assert s == [s[0]] + s[1..];
    } else if s != [] {
      forall i | 0 <= i < |s| ensures Before(c, p, s[i]) {
        if i > 0 {
          assert Before(c, s[0], s[i]);
        }
      }
    }
  }

  /** The proposals of a collection, in order. */
  ghost function Listing(c: Platform, m: map<string, Proposal>): (s: seq<Proposal>)
    requires Sound(c) && Keyed(m)
    ensures Ordered(c, s) && Holds(s, m) && |s| == |m|
    decreases |m|
  {
    if m == map[] then []
    else
      var id :| id in m;
      var rest := m - {id};
      assert rest.Keys == m.Keys - {id};
      assert |rest.Keys| == |rest| && |m.Keys| == |m|;
      var t := Listing(c, rest);
      assert forall q :: q in t ==> Before(c, m[id], q) || Before(c, q, m[id]) by {
        forall q | q in t ensures Before(c, m[id], q) || Before(c, q, m[id]) {
          assert q.id in rest;
        }
      }
      InsertKeeps(c, t, m[id]);
      Insert(c, t, m[id])
  }

  /** A set of proposals has only one listing. */
  lemma {:induction false} ListingUnique(c: Platform, s: seq<Proposal>, t: seq<Proposal>)
    requires Ordered(c, s) && Ordered(c, t) && forall p :: p in s <==> p in t
    ensures s == t
  {
    FirstMember(c, s);
    FirstMember(c, t);
    if s != [] && t != [] {
      assert s[0] == t[0];
      forall p ensures p in s[1..] <==> p in t[1..] {
        TailMember(c, s, p);
        TailMember(c, t, p);
      }
      ListingUnique(c, s[1..], t[1..]);
      assert s == [s[0]] + s[1..] && t == [t[0]] + t[1..];
    }
  }

  /** The first of a listing comes before every other member. */
  lemma {:induction false} FirstMember(c: Platform, s: seq<Proposal>)
    requires Ordered(c, s)
    ensures s != [] ==> s[0] in s
    ensures forall p :: p in s ==> p == s[0] || Before(c, s[0], p)
  {
    forall p | p in s ensures p == s[0] || Before(c, s[0], p) {
      var i :| 0 <= i < |s| && s[i] == p;
      if i > 0 {
        assert Before(c, s[0], s[i]);
      }
    }
  }

  lemma {:induction false} TailMember(c: Platform, s: seq<Proposal>, p: Proposal)
    requires Ordered(c, s) && s != []
    ensures p in s[1..] <==> p in s && p != s[0]
  {
    if p in s[1..] {
      var i :| 0 <= i < |s[1..]| && s[1..][i] == p;
      assert Before(c, s[0], s[i + 1]);
    }
  }

  lemma {:induction false} ListingIs(c: Platform, m: map<string, Proposal>, s: seq<Proposal>)
    requires Sound(c) && Keyed(m) && Ordered(c, s) && Holds(s, m)
    ensures s == Listing(c, m)
  {
    ListingUnique(c, s, Listing(c, m));
  }

  /** Reads a collection out and sorts it, one insertion at a time. */
  method SortedValues(c: Platform, m: map<string, Proposal>) returns (s: seq<Proposal>)
    requires Sound(c) && Keyed(m)
    ensures s == Listing(c, m)
  {
    s := [];
    var ids := m.Keys;
    while ids != {}
      invariant ids <= m.Keys && Ordered(c, s)
      invariant forall p :: p in s <==> p.id in m && p.id !in ids && m[p.id] == p
      decreases |ids|
    {
      var id :| id in ids;
      forall q | q in s ensures Before(c, m[id], q) || Before(c, q, m[id]) {
      }
      InsertKeeps(c, s, m[id]);
      s := Insert(c, s, m[id]);
      ids := ids - {id};
    }
    ListingIs(c, m, s);
  }
}
