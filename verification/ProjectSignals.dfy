/**
 Resume signals: what a run remembers of them, and exactly when a waiting run can still be resumed.
 */
module ProjectSignals {
  import opened Prelude
  import opened ProjectStates
  import opened ProjectTransitions
  import opened ProjectChains

  lemma {:induction false} SignalAppends(cfg: Config, s: ProjectState, c: Cause)
    requires Next(cfg, s, c).Some?
    ensures Next(cfg, s, c).value.consumedSignals == s.consumedSignals + if Consumes(c) then [Text(c)] else []
  {
    hide Obey, NextStage, Text;
    if Accepted(c) {
      ObeyKeeps(cfg, Accept(Resumed(s), c.result), c.result, c.retryAt, c.permission);
    } else if Consumes(c) {
      SignalIsNew(cfg, s, c);
    }
  }

  /** Commit `i` consumed a signal with this text. */
  predicate ConsumedAt(h: seq<Commit>, k: nat, text: string, i: int)
    requires k < |h|
  {
    0 < i <= k && h[i].cause.Some? && Consumes(h[i].cause.value) && Text(h[i].cause.value) == text
  }

  /** A run remembers exactly the signals its transitions consumed. */
  lemma {:induction false} SignalsAreRemembered(cfg: Config, h: seq<Commit>, k: nat, text: string)
    requires Legal(cfg, h) && k < |h|
    ensures text in h[k].state.consumedSignals <==> exists i :: ConsumedAt(h, k, text, i)
  {
    hide Next, Text;
    if k > 0 {
      var s, c := h[k - 1].state, h[k].cause.value;
      assert LegalStep(cfg, s, h[k]);
      SignalAppends(cfg, s, c);
      SignalsAreRemembered(cfg, h, k - 1, text);
      if text in h[k].state.consumedSignals {
        if Consumes(c) && Text(c) == text {
          assert ConsumedAt(h, k, text, k);
        } else {
          var i :| ConsumedAt(h, k - 1, text, i);
          assert ConsumedAt(h, k, text, i);
        }
      }
      if i :| ConsumedAt(h, k, text, i) {
        assert i < k ==> ConsumedAt(h, k - 1, text, i);
      }
    } else {
      assert h[k].state.consumedSignals == [];
    }
  }

  /** Commit `i` consumed a signal whose text starts like this. */
  predicate StartedAt(h: seq<Commit>, k: nat, prefix: string, i: int)
    requires k < |h|
  {
    0 < i <= k && h[i].cause.Some? && Consumes(h[i].cause.value) && prefix <= Text(h[i].cause.value)
  }

  lemma {:induction false} SomeStartsWith(cfg: Config, h: seq<Commit>, k: nat, prefix: string)
    requires Legal(cfg, h) && k < |h|
    ensures AnyStartsWith(h[k].state.consumedSignals, prefix) <==> exists i :: StartedAt(h, k, prefix, i)
  {
    hide Next, Text;
    var signals := h[k].state.consumedSignals;
    if AnyStartsWith(signals, prefix) {
      var n :| 0 <= n < |signals| && prefix <= signals[n];
      SignalsAreRemembered(cfg, h, k, signals[n]);
      var i :| ConsumedAt(h, k, signals[n], i);
      assert StartedAt(h, k, prefix, i);
    }
    if i :| StartedAt(h, k, prefix, i) {
      assert ConsumedAt(h, k, Text(h[i].cause.value), i);
      SignalsAreRemembered(cfg, h, k, Text(h[i].cause.value));
      var n :| 0 <= n < |signals| && signals[n] == Text(h[i].cause.value);
    }
  }

  // ---- when a waiting run can be resumed ----

  /** The signals a resume call can carry. */
  predicate BySignal(c: Cause) {
    c.BudgetResume? || c.RetryDue? || c.CapabilityRecheck? || c.ApprovalDecision? || c.PolicyDecision? || c.Reconcile?
  }

  /** The transition is open, and the store takes its record. */
  predicate Takes(cfg: Config, s: ProjectState, c: Cause) { Next(cfg, s, c).Some? && Storable(cfg, s, c) }

  /** Some signal still resumes the run. */
  ghost predicate Signalled(cfg: Config, s: ProjectState) { exists c :: BySignal(c) && Takes(cfg, s, c) }

  /** Some resume call still resumes the run: by a signal, or with a prepared execution that the host admits. */
  ghost predicate Resumable(cfg: Config, s: ProjectState) { Signalled(cfg, s) || Takes(cfg, s, PreparedExecution) }

  /** The record has a next revision and room for one more signal. */
  predicate HasRoom(s: ProjectState) { s.revision < MAX_SAFE && |s.consumedSignals| < MAX_SIGNALS }

  /** A policy decision of the run that a decision on `policyId` is mistaken for: its own, or one whose identity continues it after a colon. */
  predicate PolicyDecided(h: seq<Commit>, k: nat, policyId: string, i: int)
    requires k < |h|
  {
    0 < i <= k && h[i].cause.Some? && h[i].cause.value.PolicyDecision? && policyId + ":" <= h[i].cause.value.policyId + ":"
  }

  predicate ApprovalDecided(h: seq<Commit>, k: nat, decisionId: string, i: int)
    requires k < |h|
  {
    0 < i <= k && h[i].cause.Some? && h[i].cause.value.ApprovalDecision? && decisionId + ":" <= h[i].cause.value.decisionId + ":"
  }

  /** A verdict has no colon, so a prefix that ends in one lies within the identity. */
  lemma {:induction false} PrefixWithinIdentity(p: string, q: string, verdict: string, kind: string)
    requires ':' !in verdict
    ensures kind + p + ":" <= kind + q + ":" + verdict <==> p + ":" <= q + ":"
  {
    var long := kind + q + ":" + verdict;
    var short := kind + p + ":";
    assert long[|kind|..] == q + ":" + verdict && short[|kind|..] == p + ":";
    if short <= long {
      assert long[|kind| + |p|] == short[|kind| + |p|] == ':';
      assert forall n :: |kind| + |q| < n < |long| ==> long[n] == verdict[n - |kind| - |q| - 1] && long[n] != ':';
      assert forall n :: 0 <= n <= |p| ==> (p + ":")[n] == short[|kind| + n] == long[|kind| + n] == (q + ":")[n];
    }
    if p + ":" <= q + ":" {
      assert forall n :: 0 <= n <= |p| ==> (q + ":")[n] == (p + ":")[n];
      assert forall n :: 0 <= n < |short| ==> short[n] == long[n];
    }
  }

  // ---- evidence that was not seen before ----

  function CapabilityPrefix(capability: string): string { "capability:" + capability + ":" }

  function ReconciliationPrefix(effectId: string): string { "reconciliation:" + effectId + ":" }

  /** A one-byte character behind the prefix that makes a signal not seen before. */
  predicate OneByteUnused(signals: seq<string>, prefix: string, n: int) {
    0 <= n < 0x80 && prefix + [n as char] !in signals
  }

  /** Behind the prefix there are two bytes left for evidence, or one byte and a character not used yet. */
  ghost predicate FreshFits(signals: seq<string>, prefix: string) {
    || Bytes(prefix) + 2 <= MAX_SIGNAL_BYTES
    || (Bytes(prefix) + 1 == MAX_SIGNAL_BYTES && exists n :: OneByteUnused(signals, prefix, n))
  }

  /** Evidence that makes a new signal of a size the record may hold. */
  predicate IsFresh(signals: seq<string>, prefix: string, e: string) {
    e != "" && Bytes(prefix + e) <= MAX_SIGNAL_BYTES && prefix + e !in signals
  }

  /** The `n`-th of 16,384 texts of two bytes. */
  function TwoBytes(n: nat): string
    requires n < 0x4000
  {
    [(n / 0x80) as char, (n % 0x80) as char]
  }

  lemma {:induction false} TwoBytesDiffer(prefix: string, m: nat, n: nat)
    requires m < 0x4000 && n < 0x4000 && prefix + TwoBytes(m) == prefix + TwoBytes(n)
    ensures m == n
  {
    var l := |prefix|;
    assert (prefix + TwoBytes(m))[l] == (prefix + TwoBytes(n))[l] && (prefix + TwoBytes(m))[l + 1] == (prefix + TwoBytes(n))[l + 1];
    assert m == m / 0x80 * 0x80 + m % 0x80 && n == n / 0x80 * 0x80 + n % 0x80;
  }

  /** The first `n` of them, behind a prefix. */
  ghost function Family(prefix: string, n: nat): set<string>
    requires n <= 0x4000
  {
    set m: nat | m < n :: prefix + TwoBytes(m)
  }

  lemma {:induction false} FamilySize(prefix: string, n: nat)
    requires n <= 0x4000
    ensures |Family(prefix, n)| == n
  {
    if n > 0 {
      FamilySize(prefix, n - 1);
      var last := prefix + TwoBytes(n - 1);
      if last in Family(prefix, n - 1) {
        var m: nat :| m < n - 1 && prefix + TwoBytes(m) == last;
        TwoBytesDiffer(prefix, m, n - 1);
      }
      assert Family(prefix, n) == Family(prefix, n - 1) + {last};
    }
  }

  ghost function Members(signals: seq<string>): set<string> { set x | x in signals }

  lemma {:induction false} MembersSize(signals: seq<string>)
    ensures |Members(signals)| <= |signals|
  {
    if signals != [] {
      MembersSize(signals[1..]);
      assert Members(signals) == Members(signals[1..]) + {signals[0]};
    }
  }

  lemma {:induction false} SubsetIsSmaller(a: set<string>, b: set<string>)
    requires a <= b
    ensures |a| <= |b|
    decreases |a|
  {
    if x :| x in a {
      SubsetIsSmaller(a - {x}, b - {x});
    }
  }

  /** Fewer signals than the family has members leave one of them unused. */
  lemma {:induction false} SomeUnused(signals: seq<string>, prefix: string) returns (n: nat)
    requires |signals| < MAX_SIGNALS
    ensures n < 0x4000 && prefix + TwoBytes(n) !in signals
  {
    FamilySize(prefix, 0x4000);
    MembersSize(signals);
    if Family(prefix, 0x4000) <= Members(signals) {
      SubsetIsSmaller(Family(prefix, 0x4000), Members(signals));
      assert false;
    }
    var x :| x in Family(prefix, 0x4000) && x !in Members(signals);
    n :| 0 <= n < 0x4000 && prefix + TwoBytes(n) == x;
  }

  lemma {:induction false} SmallTexts(e: string)
    ensures |e| <= Bytes(e)
    ensures e != "" && Bytes(e) <= 1 ==> |e| == 1 && e[0] as int < 0x80
  {
    if e != "" {
      SmallTexts(e[..|e| - 1]);
    }
  }

  lemma {:induction false} EvidenceFits(signals: seq<string>, prefix: string, e: string)
    requires IsFresh(signals, prefix, e)
    ensures FreshFits(signals, prefix)
  {
    BytesAdd(prefix, e);
    SmallTexts(e);
    if Bytes(prefix) + 2 > MAX_SIGNAL_BYTES {
      assert |e| == 1 && e == [(e[0] as int) as char];
      assert OneByteUnused(signals, prefix, e[0] as int);
    }
    hide Bytes;
  }

  lemma {:induction false} FindEvidence(signals: seq<string>, prefix: string) returns (e: string)
    requires |signals| < MAX_SIGNALS && FreshFits(signals, prefix)
    ensures IsFresh(signals, prefix, e)
  {
    if Bytes(prefix) + 2 <= MAX_SIGNAL_BYTES {
      var n := SomeUnused(signals, prefix);
      e := TwoBytes(n);
      AsciiBytes(e);
    } else {
      var n :| OneByteUnused(signals, prefix, n);
      e := [n as char];
      AsciiBytes(e);
    }
    BytesAdd(prefix, e);
  }

  // ---- waits for a capability, for news of an effect, for a retry and for budget ----

  /** A recovery wait whose retry limits are used up. */
  predicate Exhausted(cfg: Config, s: ProjectState)
    requires s.wait.Some? && s.wait.value.CapabilityWait?
  {
    && "recovery:" <= s.wait.value.capability
    && (s.retry.attemptsConsumed >= s.retry.runLimit || Attempts(s.retry, s.stage) >= cfg.retryPerStageLimit)
  }

  lemma {:induction false} OnlyRechecksResume(cfg: Config, s: ProjectState, d: Cause)
    requires Decodable(s) && s.status == WaitingCapability && BySignal(d)
    ensures Takes(cfg, s, d) <==>
      && d.CapabilityRecheck? && d.capability == s.wait.value.capability && !Exhausted(cfg, s) && HasRoom(s)
      && IsFresh(s.consumedSignals, CapabilityPrefix(d.capability), d.evidenceId)
  {
    hide Bytes, SignalsOk, NextStage;
    if d.CapabilityRecheck? {
      assert CapabilitySignal(d.capability, d.evidenceId) == CapabilityPrefix(d.capability) + d.evidenceId;
    }
  }

  /**
   A wait for a capability can be ended by a signal exactly while its retry limits last and the record has room for new
   evidence; an admitted prepared execution ends it in any case.
   */
  lemma {:induction false} CapabilityWaitsResume(cfg: Config, s: ProjectState)
    requires Decodable(s) && s.status == WaitingCapability
    ensures Signalled(cfg, s) <==>
      HasRoom(s) && !Exhausted(cfg, s) && FreshFits(s.consumedSignals, CapabilityPrefix(s.wait.value.capability))
    ensures Resumable(cfg, s) <==> s.revision < MAX_SAFE
  {
    var w := s.wait.value.capability;
    assert Takes(cfg, s, PreparedExecution) <==> s.revision < MAX_SAFE;
    hide Takes, SignalsOk, Exhausted, FreshFits, IsFresh;
    if c :| BySignal(c) && Takes(cfg, s, c) {
      OnlyRechecksResume(cfg, s, c);
      EvidenceFits(s.consumedSignals, CapabilityPrefix(w), c.evidenceId);
    }
    if HasRoom(s) && !Exhausted(cfg, s) && FreshFits(s.consumedSignals, CapabilityPrefix(w)) {
      var e := FindEvidence(s.consumedSignals, CapabilityPrefix(w));
      OnlyRechecksResume(cfg, s, CapabilityRecheck(w, e));
      assert BySignal(CapabilityRecheck(w, e));
    }
  }

  lemma {:induction false} OnlyReconciliationsResume(cfg: Config, s: ProjectState, d: Cause)
    requires Decodable(s) && s.status == WaitingReconciliation && (BySignal(d) || d.PreparedExecution?)
    ensures Takes(cfg, s, d) <==>
      && d.Reconcile? && d.effectId == s.wait.value.effectId && d.resolved && HasRoom(s)
      && IsFresh(s.consumedSignals, ReconciliationPrefix(d.effectId), d.evidenceId)
  {
    hide Bytes, SignalsOk, NextStage;
    if d.Reconcile? {
      assert ReconciliationSignal(d.effectId, d.evidenceId) == ReconciliationPrefix(d.effectId) + d.evidenceId;
    }
  }

  /** A wait for news of an effect can be resumed exactly while the record has room for new evidence about it. */
  lemma {:induction false} ReconciliationWaitsResume(cfg: Config, s: ProjectState)
    requires Decodable(s) && s.status == WaitingReconciliation
    ensures Resumable(cfg, s) <==> HasRoom(s) && FreshFits(s.consumedSignals, ReconciliationPrefix(s.wait.value.effectId))
  {
    var w := s.wait.value.effectId;
    OnlyReconciliationsResume(cfg, s, PreparedExecution);
    hide Takes, SignalsOk, FreshFits, IsFresh;
    if c :| BySignal(c) && Takes(cfg, s, c) {
      OnlyReconciliationsResume(cfg, s, c);
      EvidenceFits(s.consumedSignals, ReconciliationPrefix(w), c.evidenceId);
    }
    if HasRoom(s) && FreshFits(s.consumedSignals, ReconciliationPrefix(w)) {
      var e := FindEvidence(s.consumedSignals, ReconciliationPrefix(w));
      OnlyReconciliationsResume(cfg, s, Reconcile(w, true, e));
      assert BySignal(Reconcile(w, true, e));
    }
  }

  /** A wait for a retry resumes once it is due; a pause for budget resumes exactly while the budget can still grow. */
  lemma {:induction false} TimedWaitsResume(cfg: Config, s: ProjectState)
    requires Decodable(s) && s.status in {WaitingRetry, PausedBudget}
    ensures Resumable(cfg, s) <==> s.revision < MAX_SAFE && (s.status == PausedBudget ==> s.stepsRemaining < MAX_SAFE)
  {
    hide SignalsOk, Bytes, Text, NextStage;
    var c := if s.status == WaitingRetry then RetryDue(s.wait.value.resumeAt) else BudgetResume(1);
    assert BySignal(c);
    assert s.revision < MAX_SAFE && (s.status == PausedBudget ==> s.stepsRemaining < MAX_SAFE) ==> Takes(cfg, s, c);
  }

  // ---- waits for a decision ----

  /** The verdict with the fewest bytes still fits behind the identity. */
  predicate PolicyFits(policyId: string) { Bytes(PolicyPrefix(policyId)) + 4 <= MAX_SIGNAL_BYTES }

  predicate ApprovalFits(decisionId: string) { Bytes(ApprovalPrefix(decisionId)) + 8 <= MAX_SIGNAL_BYTES }

  /**
   A wait for a policy can be resumed exactly if the record has room for the decision and no earlier policy decision of
   the run is mistaken for it.
   */
  lemma {:induction false} PolicyWaitsResume(cfg: Config, h: seq<Commit>, k: nat)
    requires Legal(cfg, h) && k < |h| && h[k].state.status == WaitingPolicy
    ensures h[k].state.wait.Some? && h[k].state.wait.value.PolicyWait?
    ensures var id := h[k].state.wait.value.policyId;
      Resumable(cfg, h[k].state) <==> HasRoom(h[k].state) && PolicyFits(id) && !exists i :: PolicyDecided(h, k, id, i)
  {
    hide Legal, Next, Resumable, HasRoom, PolicyFits, Text;
    ChainSound(cfg, h, k);
    var s := h[k].state;
    var id := s.wait.value.policyId;
    SomeStartsWith(cfg, h, k, PolicyPrefix(id));
    forall i ensures StartedAt(h, k, PolicyPrefix(id), i) <==> PolicyDecided(h, k, id, i) {
      if 0 < i <= k && h[i].cause.Some? {
        PolicyText(h[i].cause.value, id);
      }
    }
    PolicyResumable(cfg, s);
  }

  lemma {:induction false} PolicyText(c: Cause, id: string)
    ensures Consumes(c) && PolicyPrefix(id) <= Text(c) <==> c.PolicyDecision? && id + ":" <= c.policyId + ":"
  {
    if c.PolicyDecision? {
      PrefixWithinIdentity(id, c.policyId, if c.proceed then "proceed" else "deny", "policy:");
    } else {
      assert PolicyPrefix(id)[0] == 'p';
      assert Consumes(c) ==> Text(c)[0] != 'p';
    }
  }

  lemma {:induction false} OnlyPoliciesResume(cfg: Config, s: ProjectState, c: Cause)
    requires Decodable(s) && s.status == WaitingPolicy && (BySignal(c) || c.PreparedExecution?)
    ensures Takes(cfg, s, c) <==>
      && c.PolicyDecision? && c.policyId == s.wait.value.policyId && HasRoom(s) && Bytes(Text(c)) <= MAX_SIGNAL_BYTES
      && !AnyStartsWith(s.consumedSignals, PolicyPrefix(c.policyId))
  {
    hide Bytes, SignalsOk, NextStage, Text, AnyStartsWith;
  }

  lemma {:induction false} VerdictBytes(prefix: string, verdict: string)
    requires verdict in {"proceed", "deny", "approved", "declined"}
    ensures Bytes(prefix + verdict) == Bytes(prefix) + |verdict|
  {
    BytesAdd(prefix, verdict);
    AsciiBytes(verdict);
  }

  lemma {:induction false} PolicyResumable(cfg: Config, s: ProjectState)
    requires Decodable(s) && s.status == WaitingPolicy
    ensures var id := s.wait.value.policyId;
      Resumable(cfg, s) <==> HasRoom(s) && PolicyFits(id) && !AnyStartsWith(s.consumedSignals, PolicyPrefix(id))
  {
    var id := s.wait.value.policyId;
    hide Takes, SignalsOk, Bytes, AnyStartsWith, HasRoom;
    var denied := PolicyDecision(id, false);
    VerdictBytes(PolicyPrefix(id), "deny");
    VerdictBytes(PolicyPrefix(id), "proceed");
    OnlyPoliciesResume(cfg, s, PreparedExecution);
    OnlyPoliciesResume(cfg, s, denied);
    assert BySignal(denied) && Text(denied) == PolicyPrefix(id) + "deny";
    if c :| BySignal(c) && Takes(cfg, s, c) {
      OnlyPoliciesResume(cfg, s, c);
      assert Text(c) == PolicyPrefix(id) + "deny" || Text(c) == PolicyPrefix(id) + "proceed";
    }
  }

  /** The same of a wait for an approval. */
  lemma {:induction false} ApprovalWaitsResume(cfg: Config, h: seq<Commit>, k: nat)
    requires Legal(cfg, h) && k < |h| && h[k].state.status == WaitingApproval
    ensures h[k].state.wait.Some? && h[k].state.wait.value.ApprovalWait?
    ensures var id := h[k].state.wait.value.decisionId;
      Resumable(cfg, h[k].state) <==> HasRoom(h[k].state) && ApprovalFits(id) && !exists i :: ApprovalDecided(h, k, id, i)
  {
    hide Legal, Next, Resumable, HasRoom, ApprovalFits, Text;
    ChainSound(cfg, h, k);
    var s := h[k].state;
    var id := s.wait.value.decisionId;
    SomeStartsWith(cfg, h, k, ApprovalPrefix(id));
    forall i ensures StartedAt(h, k, ApprovalPrefix(id), i) <==> ApprovalDecided(h, k, id, i) {
      if 0 < i <= k && h[i].cause.Some? {
        ApprovalText(h[i].cause.value, id);
      }
    }
    ApprovalResumable(cfg, s);
  }

  lemma {:induction false} ApprovalText(c: Cause, id: string)
    ensures Consumes(c) && ApprovalPrefix(id) <= Text(c) <==> c.ApprovalDecision? && id + ":" <= c.decisionId + ":"
  {
    if c.ApprovalDecision? {
      PrefixWithinIdentity(id, c.decisionId, if c.approved then "approved" else "declined", "approval:");
    } else {
      assert ApprovalPrefix(id)[0] == 'a';
      assert Consumes(c) ==> Text(c)[0] != 'a';
    }
  }

  lemma {:induction false} OnlyApprovalsResume(cfg: Config, s: ProjectState, c: Cause)
    requires Decodable(s) && s.status == WaitingApproval && (BySignal(c) || c.PreparedExecution?)
    ensures Takes(cfg, s, c) <==>
      && c.ApprovalDecision? && c.decisionId == s.wait.value.decisionId && HasRoom(s) && Bytes(Text(c)) <= MAX_SIGNAL_BYTES
      && !AnyStartsWith(s.consumedSignals, ApprovalPrefix(c.decisionId))
  {
    hide Bytes, SignalsOk, NextStage, Text, AnyStartsWith;
  }

  lemma {:induction false} ApprovalResumable(cfg: Config, s: ProjectState)
    requires Decodable(s) && s.status == WaitingApproval
    ensures var id := s.wait.value.decisionId;
      Resumable(cfg, s) <==> HasRoom(s) && ApprovalFits(id) && !AnyStartsWith(s.consumedSignals, ApprovalPrefix(id))
  {
    var id := s.wait.value.decisionId;
    hide Takes, SignalsOk, Bytes, AnyStartsWith, HasRoom;
    var declined := ApprovalDecision(id, false);
    VerdictBytes(ApprovalPrefix(id), "declined");
    VerdictBytes(ApprovalPrefix(id), "approved");
    OnlyApprovalsResume(cfg, s, PreparedExecution);
    OnlyApprovalsResume(cfg, s, declined);
    assert BySignal(declined) && Text(declined) == ApprovalPrefix(id) + "declined";
    if c :| BySignal(c) && Takes(cfg, s, c) {
      OnlyApprovalsResume(cfg, s, c);
      assert Text(c) == ApprovalPrefix(id) + "declined" || Text(c) == ApprovalPrefix(id) + "approved";
    }
  }

  // ---- runs that nothing can resume ----

  function Returning(control: Control): Cause {
    Returned(StageResult(Some("output"), control, PriorStage, None, None, WorkAuthority, None, None, None, Routine, false), 0, NoPolicyInstalled)
  }

  /**
   A stage that is held under its default policy identity, let go ahead, reworked and held again: the second hold carries
   the identity of the first, and no signal resumes the run any more.
   */
  lemma {:induction false} SecondPolicyHoldIsStuck(cfg: Config, runId: string, posture: Posture) returns (h: seq<Commit>)
    requires 3 <= cfg.stepBudget && SafeConfig(cfg) && 0 < cfg.maxRework
    ensures Legal(cfg, h) && h[|h| - 1].state.status == WaitingPolicy && !Resumable(cfg, h[|h| - 1].state)
  {
    h := HoldAndGoAhead(cfg, runId, posture);
    hide Legal;
    h := ReworkAndHold(cfg, h);
    assert PolicyDecided(h, |h| - 1, "policy:understand", 3);
    PolicyWaitsResume(cfg, h, |h| - 1);
  }

  lemma {:induction false} BytesAtMost(s: string)
    ensures Bytes(s) <= 4 * |s|
  {
    if s != "" {
      BytesAtMost(s[..|s| - 1]);
    }
  }

  lemma {:induction false} GoAheadFits()
    ensures Bytes(Text(PolicyDecision("policy:understand", true))) <= MAX_SIGNAL_BYTES
  {
    var c := PolicyDecision("policy:understand", true);
    assert |Text(c)| == 32;
    BytesAtMost(Text(c));
    hide Text, Bytes;
  }

  lemma {:induction false} HoldAndGoAhead(cfg: Config, runId: string, posture: Posture) returns (h: seq<Commit>)
    requires 3 <= cfg.stepBudget && SafeConfig(cfg) && 0 < cfg.maxRework
    ensures Legal(cfg, h) && |h| == 4 && h[3].cause == Some(PolicyDecision("policy:understand", true))
    ensures var s := h[3].state; s.status == Running && s.stage == Research && s.stepsRemaining >= 2 && s.reworkCount == 0
  {
    hide LegalStep;
    var held := FirstHold(cfg, runId, posture);
    GoAheadFits();
    hide Text, Bytes, Decodable, PolicyPrefix;
    h := Extend(cfg, held, PolicyDecision("policy:understand", true));
  }

  lemma {:induction false} FirstHold(cfg: Config, runId: string, posture: Posture) returns (h: seq<Commit>)
    requires 3 <= cfg.stepBudget && SafeConfig(cfg)
    ensures Legal(cfg, h) && |h| == 3
    ensures var s := h[2].state;
      && s.status == WaitingPolicy && s.wait == Some(PolicyWait(Understand, "policy:understand"))
      && s.stage == Understand && s.stepsRemaining >= 2 && s.reworkCount == 0 && s.consumedSignals == [] && s.revision == 2
  {
    hide LegalStep;
    var start := [Commit(None, InitialState(cfg, runId, posture))];
    assert Legal(cfg, start);
    assert "policy:" + StageName(Understand) == "policy:understand";
    h := Visit(cfg, start, PolicyHold);
  }

  lemma {:induction false} VisitOpen(cfg: Config, s: ProjectState, control: Control)
    requires CanVisit(s) && s.revision < 1_000 && (control.PolicyHold? || (control.Rework? && s.reworkCount == 0))
    ensures Next(cfg, s, Intent).Some? && Storable(cfg, s, Intent)
    ensures var n := Next(cfg, s, Intent).value; Next(cfg, n, Returning(control)).Some? && Storable(cfg, n, Returning(control))
  {
    hide Obey, NextStage;
  }

  /** Announces the current stage and stores what it returns. */
  lemma {:induction false} Visit(cfg: Config, h: seq<Commit>, control: Control) returns (g: seq<Commit>)
    requires Legal(cfg, h) && |h| < 100 && CanVisit(h[|h| - 1].state)
    requires control.PolicyHold? || (control.Rework? && h[|h| - 1].state.reworkCount == 0)
    ensures Legal(cfg, g) && |g| == |h| + 2 && h <= g
    ensures var s := h[|h| - 1].state;
      && Next(cfg, s, Intent).Some? && Next(cfg, Next(cfg, s, Intent).value, Returning(control)).Some?
      && g[|g| - 1].state == Next(cfg, Next(cfg, s, Intent).value, Returning(control)).value
  {
    ChainSound(cfg, h, |h| - 1);
    VisitOpen(cfg, h[|h| - 1].state, control);
    hide LegalStep, Next, Decodable, Storable;
    g := Extend(cfg, h, Intent);
    g := Extend(cfg, g, Returning(control));
  }

  lemma {:induction false} ReworkAndHold(cfg: Config, h: seq<Commit>) returns (g: seq<Commit>)
    requires Legal(cfg, h) && |h| < 90
    requires var s := h[|h| - 1].state; s.status == Running && s.stage == Research && s.stepsRemaining >= 2 && s.reworkCount == 0 < cfg.maxRework
    ensures Legal(cfg, g) && |g| == |h| + 4 && h <= g
    ensures var n := g[|g| - 1].state; n.status == WaitingPolicy && n.wait == Some(PolicyWait(Understand, "policy:understand"))
  {
    hide LegalStep;
    var back := Visit(cfg, h, Rework);
    assert back[|back| - 1].state.stage == Understand;
    assert "policy:" + StageName(Understand) == "policy:understand";
    g := Visit(cfg, back, PolicyHold);
  }

  /** The `i`-th of many rechecks of one capability. */
  function Recheck(i: nat): Cause { CapabilityRecheck("tool", Decimal(i)) }

  function RecheckTexts(n: nat): seq<string> { seq(n, i requires 0 <= i => Text(Recheck(i))) }

  lemma {:induction false} RecheckText(n: nat)
    ensures Text(Recheck(n)) == "capability:tool:" + Decimal(n) && |RecheckTexts(n)| == n
  {
    assert "capability:" + "tool" + ":" == "capability:tool:";
  }

  lemma {:induction false} SameRest(p: string, a: string, b: string)
    requires p + a == p + b
    ensures a == b
  {
    assert (p + a)[|p|..] == a && (p + b)[|p|..] == b;
  }

  lemma {:induction false} RecheckIsNew(n: nat)
    requires n < MAX_SIGNALS
    ensures Text(Recheck(n)) !in RecheckTexts(n) && Bytes(Text(Recheck(n))) <= MAX_SIGNAL_BYTES
  {
    var p := "capability:tool:";
    hide Text, Bytes, Decimal;
    forall i: nat | i < n ensures Text(Recheck(i)) != Text(Recheck(n)) {
      RecheckText(i);
      RecheckText(n);
      if p + Decimal(i) == p + Decimal(n) {
        SameRest(p, Decimal(i), Decimal(n));
        DecimalInjective(i, n);
      }
    }
    RecheckText(n);
    DecimalBytes(n);
    BytesAdd(p, Decimal(n));
    AsciiBytes(p);
  }

  /** One hold and one recheck. */
  lemma {:induction false} RecheckOnce(cfg: Config, h: seq<Commit>, n: nat) returns (g: seq<Commit>)
    requires Legal(cfg, h) && |h| == 1 + 2 * n && n < MAX_SIGNALS
    requires h[|h| - 1].state.status == Running && h[|h| - 1].state.consumedSignals == RecheckTexts(n)
    ensures Legal(cfg, g) && |g| == 3 + 2 * n
    ensures g[|g| - 1].state.status == Running && g[|g| - 1].state.consumedSignals == RecheckTexts(n + 1)
  {
    hide LegalStep, RecheckTexts, Text, Bytes;
    ChainSound(cfg, h, |h| - 1);
    RecheckIsNew(n);
    RecheckText(n);
    g := Extend(cfg, h, HoldCapability("tool", WorkAuthority));
    var s := g[|g| - 1].state;
    RecheckOpen(cfg, s, n);
    g := Extend(cfg, g, Recheck(n));
    SignalIsNew(cfg, s, Recheck(n));
    TextsMore(n);
  }

  lemma {:induction false} TextsMore(n: nat)
    ensures RecheckTexts(n + 1) == RecheckTexts(n) + [Text(Recheck(n))]
  {
  }

  lemma {:induction false} RecheckOpen(cfg: Config, s: ProjectState, n: nat)
    requires s.status == WaitingCapability && s.wait == Some(CapabilityWait(s.stage, "tool", WorkAuthority))
    requires Text(Recheck(n)) !in s.consumedSignals
    ensures Next(cfg, s, Recheck(n)).Some? && Next(cfg, s, Recheck(n)).value.status == Running
  {
    assert "tool"[0] != "recovery:"[0];
  }

  lemma {:induction false} RecheckOften(cfg: Config, runId: string, posture: Posture, n: nat) returns (h: seq<Commit>)
    requires SafeConfig(cfg) && n <= MAX_SIGNALS
    ensures Legal(cfg, h) && |h| == 1 + 2 * n
    ensures h[|h| - 1].state.status == Running && h[|h| - 1].state.consumedSignals == RecheckTexts(n)
  {
    if n == 0 {
      h := [Commit(None, InitialState(cfg, runId, posture))];
    } else {
      hide Legal, RecheckTexts;
      h := RecheckOften(cfg, runId, posture, n - 1);
      h := RecheckOnce(cfg, h, n - 1);
    }
  }

  /** In a run whose signals are all rechecks, every text that was consumed begins like a recheck's. */
  lemma {:induction false} AllRechecks(cfg: Config, h: seq<Commit>, k: nat, i: nat)
    requires Legal(cfg, h) && k < |h| && h[k].state.consumedSignals == RecheckTexts(MAX_SIGNALS)
    requires 0 < i <= k && h[i].cause.Some? && Consumes(h[i].cause.value)
    ensures Text(h[i].cause.value) != "" && Text(h[i].cause.value)[0] == 'c'
  {
    hide Text;
    var text := Text(h[i].cause.value);
    SignalsAreRemembered(cfg, h, k, text);
    assert ConsumedAt(h, k, text, i);
    var n :| 0 <= n < |RecheckTexts(MAX_SIGNALS)| && RecheckTexts(MAX_SIGNALS)[n] == text;
    RecheckText(n);
  }

  lemma {:induction false} TextOfPolicy(c: Cause)
    ensures c.PolicyDecision? ==> Text(c) != "" && Text(c)[0] == 'p'
  {
  }

  lemma {:induction false} OnlyRechecked(cfg: Config, h: seq<Commit>, k: nat, policyId: string, i: int)
    requires Legal(cfg, h) && k < |h| && h[k].state.consumedSignals == RecheckTexts(MAX_SIGNALS)
    ensures !PolicyDecided(h, k, policyId, i)
  {
    hide Legal, RecheckTexts;
    if 0 < i <= k && h[i].cause.Some? && Consumes(h[i].cause.value) {
      AllRechecks(cfg, h, k, i);
      TextOfPolicy(h[i].cause.value);
      hide Text;
    }
  }

  /** A run that has consumed ten thousand signals and is then held for a policy: no signal resumes it any more. */
  lemma {:induction false} FullRunIsStuck(cfg: Config, runId: string, posture: Posture, policyId: string)
    returns (h: seq<Commit>, k: nat)
    requires SafeConfig(cfg)
    ensures Legal(cfg, h) && |h| == k + 1 && h[k].state.status == WaitingPolicy && !Resumable(cfg, h[k].state)
    ensures !exists i :: PolicyDecided(h, k, policyId, i)
  {
    var g := RecheckOften(cfg, runId, posture, MAX_SIGNALS);
    h := HoldIt(cfg, g, policyId);
    k := |g|;
    hide Legal, Resumable, Next, RecheckTexts;
    PolicyWaitsResume(cfg, h, k);
    RecheckText(MAX_SIGNALS);
    forall i ensures !PolicyDecided(h, k, policyId, i) {
      OnlyRechecked(cfg, h, k, policyId, i);
    }
  }

  /** A policy hold under an identity too long for any verdict on it: no signal resumes the run. */
  lemma {:induction false} LongPolicyIsStuck(cfg: Config, runId: string, posture: Posture, policyId: string) returns (h: seq<Commit>)
    requires SafeConfig(cfg) && !PolicyFits(policyId)
    ensures Legal(cfg, h) && |h| == 2 && h[1].state.status == WaitingPolicy && !Resumable(cfg, h[1].state)
  {
    var g := [Commit(None, InitialState(cfg, runId, posture))];
    h := HoldIt(cfg, g, policyId);
    hide Legal, Resumable, Next;
    PolicyWaitsResume(cfg, h, 1);
  }

  lemma {:induction false} HoldIt(cfg: Config, g: seq<Commit>, policyId: string) returns (h: seq<Commit>)
    requires Legal(cfg, g) && |g| < 100_000
    ensures Legal(cfg, h) && |h| == |g| + 1 && g <= h && h[|g|].cause == Some(HoldPolicy(policyId))
    ensures var s := h[|g|].state;
      && s.status == WaitingPolicy && s.wait == Some(PolicyWait(g[|g| - 1].state.stage, policyId))
      && s.consumedSignals == g[|g| - 1].state.consumedSignals
  {
    hide LegalStep;
    ChainSound(cfg, g, |g| - 1);
    h := Extend(cfg, g, HoldPolicy(policyId));
  }
}
