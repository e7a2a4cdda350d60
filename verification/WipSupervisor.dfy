/**
 The supervisor's tick over the step system: one process working on one job, with its record in memory and on disk,
 while other jobs and late pushes act between any two of its steps.
 */
module WipSupervisors {
  import opened Prelude
  import opened WipJobs
  import opened WipRuns
  import opened WipTicks
  import D = WipDeltas

  datatype TickResult =
    | Clean
    | Coalesced(commit: Oid)
    | Verified(commit: Oid, snapshot: Snapshot)
    | Failed(firstFailure: string)

  class HourlyWipSupervisor {
    const job: nat
    const base: Oid
    const locale: string -> real
    var sys: Sys
    ghost var trace: seq<Action>

    /** The system is where the actions so far have brought it. */
    ghost predicate Valid()
      reads this
    {
      sys == Exec(Start(base, locale), trace)
    }

    constructor (j: nat, b: Oid, order: string -> real)
      ensures Valid() && job == j && base == b && locale == order && trace == []
    {
      job, base, locale, sys, trace := j, b, order, Start(b, order), [];
    }

    /** Performs one action. */
    method Do(a: Action)
      requires Valid()
      modifies this
      ensures Valid() && trace == old(trace) + [a] && sys == Step(old(sys), a)
    {
      hide Step, Start;
      sys := Step(sys, a);
      trace := trace + [a];
      assert trace[..|trace| - 1] == old(trace);
    }

    /** Lets others act; this job's record, its process and its pushes are out of their reach. */
    method Others(acts: seq<Action>)
      requires Valid() && NotOf(acts, job)
      modifies this
      ensures Valid() && trace == old(trace) + acts && sys == Exec(old(sys), acts)
      ensures OnDisk(sys, job) == old(OnDisk(sys, job)) && (job in sys.pcs <==> job in old(sys).pcs)
      ensures job in sys.pcs ==> sys.pcs[job] == old(sys).pcs[job]
      ensures Own(sys.sent, job) == Own(old(sys).sent, job) && sys.locale == old(sys).locale
    {
      hide Step, Start;
      for i := 0 to |acts|
        invariant Valid() && trace == old(trace) + acts[..i] && sys == Exec(old(sys), acts[..i])
        invariant OnDisk(sys, job) == old(OnDisk(sys, job)) && (job in sys.pcs <==> job in old(sys).pcs)
        invariant job in sys.pcs ==> sys.pcs[job] == old(sys).pcs[job]
        invariant Own(sys.sent, job) == Own(old(sys).sent, job) && sys.locale == old(sys).locale
      {
        assert acts[i] in acts;
        OtherStep(sys, acts[i], job);
        assert acts[..i + 1][..i] == acts[..i];
        Do(acts[i]);
      }
      assert acts[..|acts|] == acts;
    }

    /** Saves the record the process is about to write; what is in memory follows the fence's answer. */
    method Save(before: Option<Record>, next: Record, w: Write) returns (record: Option<Record>, ok: bool)
      requires Valid() && job in sys.pcs && Saves(sys.pcs[job], before, next)
      modifies this
      ensures Valid() && old(trace) <= trace && ok == w.Landed?
      ensures record == if w.Refused? then before else Some(next)
      ensures OnDisk(sys, job) == if w.Landed? || w.Late? then Some(next) else old(OnDisk(sys, job))
      ensures sys.sent == old(sys).sent
      ensures ok ==> sys == Landing(old(sys), job, next)
      ensures !ok ==> job in sys.pcs && sys.pcs[job] == Failing(record)
    {
      hide Start, Exec;
      Do(WipJobs.Save(job, w));
      record := if w.Refused? then before else Some(next);
      ok := w.Landed?;
    }

    /**
     Captures, prepares and publishes; no result means the attempt was cut short with `record` in memory. It ends clean
     exactly when a capture is due and finds nothing, and verified exactly when it succeeds.
     */
    method Attempt(loaded: Option<Record>, w: Weather) returns (record: Option<Record>, result: Option<TickResult>)
      requires Valid() && job !in sys.pcs && OnDisk(sys, job) == loaded && forall n :: NotOf(w.others(n), job)
      requires Open(loaded)
      modifies this
      ensures Valid() && old(trace) <= trace && FirstFailure(record) == FirstFailure(loaded)
      ensures Own(sys.sent, job) == Own(old(sys).sent, job) + Added(old(sys), job, loaded, w)
      ensures result.None? ==> job in sys.pcs && sys.pcs[job] == Failing(record)
      ensures result.Some? ==> job !in sys.pcs && (result.value.Clean? || result.value.Verified?)
      ensures result == Some(Clean) <==> MustCapture(loaded) && IsClean(w.capture)
      ensures result == Some(Clean) ==> OnDisk(sys, job) == loaded
      ensures (result.Some? && result.value.Verified?) <==> Succeeds(old(sys), job, loaded, w)
      ensures result.Some? && result.value.Verified? ==> Published(sys, job, Working(old(sys), job, loaded, w), result.value)
    {
      hide Step, Start, Exec, NotOf, AtFirstRead, CaptureSaved, PrepareSaved, PublishWell, Own, Loads, Already, PrepareWell, WithPrepared, Published, D.DistinctItems, D.Sorted;
      record := loaded;
      BeginStep(sys, job);
      Do(Begin(job));
      assert sys == Begun(old(sys), job, loaded);
      if MustCapture(loaded) {
        var ok;
        record, ok := CaptureAndSave(loaded, w);
        if IsClean(w.capture) {
          return record, Some(Clean);
        }
        if !ok {
          return record, None;
        }
      }
      assert sys == AfterCapture(old(sys), job, loaded, w) && record == Some(WithSnapshot(old(sys).locale, loaded, w));
      var ok;
      record, ok := Ready(record.value, w);
      if !ok {
        return record, None;
      }
      record, result := Publish(record.value, w);
    }

    /** Captures the worktree; unless it is clean, the snapshot is recorded, its files in the locale's order. */
    method CaptureAndSave(before: Option<Record>, w: Weather) returns (record: Option<Record>, ok: bool)
      requires Valid() && job in sys.pcs && sys.pcs[job] == Capturing(before) && forall n :: NotOf(w.others(n), job)
      requires MustCapture(before)
      modifies this
      ensures Valid() && old(trace) <= trace && FirstFailure(record) == FirstFailure(before)
      ensures Own(sys.sent, job) == Own(old(sys).sent, job)
      ensures ok <==> CaptureWell(before, w)
      ensures ok ==>
        && record == Some(WithSnapshot(old(sys).locale, before, w)) && sys == CaptureSaved(old(sys), job, before, w)
        && job in sys.pcs && sys.pcs[job] == Preparing(record.value)
      ensures IsClean(w.capture) ==> job !in sys.pcs && OnDisk(sys, job) == old(OnDisk(sys, job))
      ensures !IsClean(w.capture) && !ok ==> job in sys.pcs && sys.pcs[job] == Failing(record)
    {
      hide Step, Start, Exec, NotOf, D.Sorted, D.DistinctItems, Own;
      record, ok := before, false;
      Others(w.others(1));
      CaptureStep(sys, job, w.capture);
      var recorded := w.capture.Some? && w.capture.value.items != [] && D.DistinctItems(w.capture.value.items);
      Do(Capture(job, w.capture));
      if recorded {
        Others(w.others(2));
        record, ok := Save(record, CapturedRecord(record, sys.pcs[job].snapshot), w.captureSave);
      }
    }

    /** Sees to a prepared commit and its record, then lets others act before the first read-back. */
    method Ready(r: Record, w: Weather) returns (record: Option<Record>, ok: bool)
      requires Valid() && job in sys.pcs && forall n :: NotOf(w.others(n), job)
      requires sys.pcs[job] == if r.prepared.None? then Preparing(r) else Reconciling(r)
      modifies this
      ensures Valid() && old(trace) <= trace && FirstFailure(record) == FirstFailure(Some(r))
      ensures Own(sys.sent, job) == Own(old(sys).sent, job)
      ensures ok <==> PrepareWell(old(sys), r, w)
      ensures ok ==>
        && record == Some(WithPrepared(old(sys), r, w)) && sys == AtFirstRead(old(sys), job, r, w)
        && job in sys.pcs && sys.pcs[job] == Reconciling(record.value)
      ensures !ok ==> job in sys.pcs && sys.pcs[job] == Failing(record)
    {
      hide Step, Start, Exec, NotOf, Own, PrepareSaved, CanPrepare;
      record, ok := Some(r), true;
      if r.prepared.None? {
        record, ok := PrepareAndSave(r, w);
        if !ok {
          return record, ok;
        }
      }
      Others(w.others(5));
    }

    /** Prepares a commit on what the remote ref holds now and records it. */
    method PrepareAndSave(r: Record, w: Weather) returns (record: Option<Record>, ok: bool)
      requires Valid() && job in sys.pcs && sys.pcs[job] == Preparing(r) && forall n :: NotOf(w.others(n), job)
      requires r.prepared.None?
      modifies this
      ensures Valid() && old(trace) <= trace && FirstFailure(record) == FirstFailure(Some(r))
      ensures Own(sys.sent, job) == Own(old(sys).sent, job)
      ensures ok <==> PrepareWell(old(sys), r, w)
      ensures ok ==>
        && record == Some(WithPrepared(old(sys), r, w)) && sys == PrepareSaved(old(sys), job, r, w)
        && job in sys.pcs && sys.pcs[job] == Reconciling(record.value)
      ensures !ok ==> job in sys.pcs && sys.pcs[job] == Failing(record)
    {
      hide Step, Start, Exec, NotOf, Own, D.Verified;
      Others(w.others(3));
      record := Some(r);
      PreparedHasSnapshot(base, locale, trace, job);
      var oid := w.oid;
      if oid.Some? && oid.value in sys.commits && sys.commits[oid.value] != Commit(Some(Parent(sys)), r.snapshot) {
        oid := None;
      }
      PrepareStep(sys, job, oid);
      Do(Prepare(job, oid));
      if !sys.pcs[job].SavingPrepared? {
        return record, false;
      }
      var p := sys.pcs[job].publication;
      Others(w.others(4));
      record, ok := Save(record, r.(status := Prepared, prepared := Some(p)), w.preparedSave);
    }

    /** Reconciles with the remote, pushes if it has to, and confirms what the remote holds. */
    method Publish(r: Record, w: Weather) returns (record: Option<Record>, result: Option<TickResult>)
      requires Valid() && job in sys.pcs && sys.pcs[job] == Reconciling(r) && forall n :: NotOf(w.others(n), job)
      requires r.prepared.Some?
      modifies this
      ensures Valid() && old(trace) <= trace && FirstFailure(record) == FirstFailure(Some(r))
      ensures Own(sys.sent, job) ==
        Own(old(sys).sent, job) + if !Already(old(sys), r.prepared.value.commit, w) && w.sendAllowed then [PushOf(job, r)] else []
      ensures result.None? ==> job in sys.pcs && sys.pcs[job] == Failing(record)
      ensures result.Some? ==> job !in sys.pcs && result.value.Verified? && Published(sys, job, r, result.value)
      ensures result.Some? <==> PublishWell(old(sys), job, r, w)
    {
      hide Step, Start, Exec, NotOf, Matches, Own, Confirmed, Published;
      record := Some(r);
      ReadStep(sys, job, w.firstRead);
      MatchIsRef(base, locale, trace, job);
      var matches := w.firstRead && Matches(sys, r);
      Do(Read(job, w.firstRead));
      if !matches {
        matches := PushAndConfirm(r, w);
        if !matches {
          return record, None;
        }
      }
      record, result := Conclude(r, w);
    }

    /** Pushes what is prepared, once and exactly if the fence allows it, and reads it back. */
    method PushAndConfirm(r: Record, w: Weather) returns (matches: bool)
      requires Valid() && job in sys.pcs && sys.pcs[job] == Publishing(r) && forall n :: NotOf(w.others(n), job)
      requires r.prepared.Some?
      modifies this
      ensures Valid() && old(trace) <= trace
      ensures Own(sys.sent, job) ==
        Own(old(sys).sent, job) + if w.sendAllowed then [Push(job, r.prepared.value.commit, r.prepared.value.expected)] else []
      ensures matches <==> Confirmed(old(sys), job, r, w)
      ensures job in sys.pcs && sys.pcs[job] == if matches then Releasing(r) else Failing(Some(r))
    {
      hide Step, Start, Exec, NotOf, Matches, Own;
      Others(w.others(6));
      SendStep(sys, job, w.sendAllowed);
      OwnSnoc(sys.sent, PushOf(job, r), job);
      Do(Send(job, w.sendAllowed));
      if !w.sendAllowed {
        return false;
      }
      Others(w.others(7));
      ReturnStep(sys, job, w.returned);
      Do(Return(job, w.returned));
      if !sys.pcs[job].Confirming? {
        return false;
      }
      Others(w.others(8));
      ReadStep(sys, job, w.secondRead);
      MatchIsRef(base, locale, trace, job);
      matches := w.secondRead && Matches(sys, r);
      Do(Read(job, w.secondRead));
    }

    /** After a matching read-back: releases the prepared repository and records the verification. */
    method Conclude(r: Record, w: Weather) returns (record: Option<Record>, result: Option<TickResult>)
      requires Valid() && job in sys.pcs && sys.pcs[job] == Releasing(r) && forall n :: NotOf(w.others(n), job)
      requires r.prepared.Some?
      modifies this
      ensures Valid() && old(trace) <= trace && FirstFailure(record) == FirstFailure(Some(r))
      ensures Own(sys.sent, job) == Own(old(sys).sent, job)
      ensures result.None? ==> job in sys.pcs && sys.pcs[job] == Failing(record)
      ensures result.Some? ==> job !in sys.pcs && result.value.Verified? && Published(sys, job, r, result.value)
      ensures result.Some? <==> w.released && w.verifiedSave == Landed
    {
      hide Step, Start, Exec, NotOf, Own;
      record := Some(r);
      Others(w.others(9));
      ReleaseStep(sys, job, w.released);
      Do(Release(job, w.released));
      if !w.released {
        return record, None;
      }
      Others(w.others(10));
      VerifiedIsMatched(base, locale, trace, job);
      var ok;
      record, ok := Save(record, VerifiedRecord(r), w.verifiedSave);
      if !ok {
        return record, None;
      }
      return record, Some(Verified(r.prepared.value.commit, r.prepared.value.snapshot));
    }

    /**
     One tick of the job. A record that does not load ends it at once, with only others having acted; the failure that
     is then named is recorded nowhere. Otherwise the tick coalesces with an earlier verification, is clean, or is
     verified, each exactly in its own case, and fails in all others; its pushes are those of its attempt.
     */
    method Tick(w: Weather) returns (r: TickResult)
      requires Valid() && job !in sys.pcs && forall n :: NotOf(w.others(n), job)
      modifies this
      ensures Valid() && old(trace) <= trace && job !in sys.pcs
      ensures old(Unloadable(sys, job)) ==>
        r == Failed(INVALID_STATE) && OnDisk(sys, job) == old(OnDisk(sys, job)) && trace == old(trace) + w.others(0)
      ensures r.Coalesced? <==> !old(Unloadable(sys, job)) && !old(Open(OnDisk(sys, job)))
      ensures r.Coalesced? ==>
        OnDisk(sys, job) == old(OnDisk(sys, job)) && OnDisk(sys, job).Some? && OnDisk(sys, job).value.commit == Some(r.commit)
      ensures r.Clean? <==> old(Open(OnDisk(sys, job)) && MustCapture(OnDisk(sys, job))) && IsClean(w.capture)
      ensures r.Clean? ==> OnDisk(sys, job) == old(OnDisk(sys, job))
      ensures r.Verified? <==> old(Open(OnDisk(sys, job)) && Succeeds(Wait(sys, w, 0), job, OnDisk(sys, job), w))
      ensures r.Failed? <==> old(Unloadable(sys, job)) || old(FallsShort(Wait(sys, w, 0), job, OnDisk(sys, job), w))
      ensures r.Verified? ==> Published(sys, job, old(Working(Wait(sys, w, 0), job, OnDisk(sys, job), w)), r)
      ensures Own(sys.sent, job) == old(Own(sys.sent, job)) +
        if old(Open(OnDisk(sys, job))) then old(Added(Wait(sys, w, 0), job, OnDisk(sys, job), w)) else []
      ensures old(Open(OnDisk(sys, job))) && r.Failed? ==> r.firstFailure == old(FirstFailure(OnDisk(sys, job))).GetOr(w.error)
      ensures old(Open(OnDisk(sys, job))) && r.Failed? && (w.failSave.Landed? || w.failSave.Late?) ==>
        job in sys.disk && sys.disk[job].status.FailedVisible? && sys.disk[job].firstFailure == Some(r.firstFailure)
    {
      hide Step, Start, Exec, NotOf, FailedRecord, Loads, Own, Succeeds, Added, Working, MustCapture, Published;
      Others(w.others(0));
      var loaded := OnDisk(sys, job);
      if loaded.Some? && !Loads(loaded.value) {
        return Failed(INVALID_STATE);
      }
      if loaded.Some? && loaded.value.status.RemoteVerified? {
        VerifiedIsRecorded(base, locale, trace, job);
        return Coalesced(loaded.value.commit.value);
      }
      var record, result := Attempt(loaded, w);
      if result.Some? {
        return result.value;
      }
      Others(w.others(11));
      FailStep(sys, job, w.error, w.failSave);
      Do(Fail(job, w.error, w.failSave));
      FailedNames(record, w.error);
      return Failed(FailedRecord(record, w.error).firstFailure.value);
    }
  }

  const INVALID_STATE: string := "WIP durable job state is invalid"

  /** The record on disk does not load. */
  predicate Unloadable(s: Sys, j: nat) { j in s.disk && !Loads(s.disk[j]) }

  /**
   What a verified result says: it names the commit and the snapshot the record had prepared, the commit carries that
   snapshot and the ref has held it, a read-back agreed, and the durable record says so, the first failure kept.
   */
  ghost predicate Published(s: Sys, j: nat, r: Record, result: TickResult)
    requires r.prepared.Some?
  {
    var c, x := r.prepared.value.commit, r.prepared.value.snapshot;
    && result == Verified(c, x) && r.snapshot == Some(x)
    && c in s.commits && s.commits[c].snapshot == Some(x) && c in s.held && (j, c) in s.matched
    && OnDisk(s, j) == Some(Record(RemoteVerified, None, None, r.firstFailure, Some(c)))
  }

  /** The record a process is about to write, and what it holds if the write is refused. */
  predicate Saves(pc: Pc, before: Option<Record>, next: Record) {
    match pc
    case SavingCapture(r, d) => before == r && next == CapturedRecord(r, d)
    case SavingPrepared(r, p) => before == Some(r) && next == r.(status := Prepared, prepared := Some(p))
    case SavingVerified(r) => before == Some(r) && next == VerifiedRecord(r)
    case _ => false
  }

  /** The state once a write has landed. */
  function Landing(s: Sys, j: nat, next: Record): Sys
    requires j in s.pcs
  {
    var t := s.(disk := s.disk[j := next]);
    match s.pcs[j]
    case SavingCapture(_, _) => t.(pcs := t.pcs[j := Preparing(next)])
    case SavingPrepared(_, _) => t.(pcs := t.pcs[j := Reconciling(next)])
    case _ => t.(pcs := t.pcs - {j})
  }

  lemma {:induction false} OtherStep(s: Sys, a: Action, j: nat)
    requires a.Land? || a.job != j
    ensures var t := Step(s, a);
      && OnDisk(t, j) == OnDisk(s, j) && (j in t.pcs <==> j in s.pcs) && (j in t.pcs ==> t.pcs[j] == s.pcs[j])
      && Own(t.sent, j) == Own(s.sent, j) && t.locale == s.locale
  {
    if !a.Land? {
      hide Step, Own;
      StepLocal(s, a);
      StepExtends(s, a);
      StepSends(s, a);
      if Step(s, a).sent != s.sent {
        OwnSnoc(s.sent, Step(s, a).sent[|s.sent|], j);
      }
    }
  }

  // ---- the single steps of a tick ----

  lemma {:induction false} BeginStep(s: Sys, j: nat)
    requires j !in s.pcs && Open(OnDisk(s, j))
    ensures Step(s, Begin(j)) == Begun(s, j, OnDisk(s, j))
  {
    hide Loads;
  }

  lemma {:induction false} CaptureStep(s: Sys, j: nat, result: Option<Snapshot>)
    requires j in s.pcs && s.pcs[j].Capturing?
    ensures var t := Step(s, Capture(j, result));
      && t == s.(pcs := t.pcs)
      && (j in t.pcs <==> !IsClean(result))
      && (!IsClean(result) && !Found(result) ==> t.pcs[j] == Failing(s.pcs[j].record))
      && (Found(result) ==>
            t.pcs == s.pcs[j := SavingCapture(s.pcs[j].record, Snapshot(D.Sorted(s.locale, result.value.items), result.value.rest))])
  {
    hide D.Sorted, D.DistinctItems;
  }

  lemma {:induction false} PrepareStep(s: Sys, j: nat, oid: Option<Oid>)
    requires j in s.pcs && s.pcs[j].Preparing? && s.pcs[j].held.snapshot.Some?
    requires oid.Some? && oid.value in s.commits ==> s.commits[oid.value] == Next(s, s.pcs[j].held.snapshot.value)
    ensures var t, r := Step(s, Prepare(j, oid)), s.pcs[j].held;
      if oid.None? || !D.Verified(r.snapshot.value.items) then t == s.(pcs := s.pcs[j := Failing(Some(r))])
      else t == s.(commits := s.commits[oid.value := Next(s, r.snapshot.value)],
                   pcs := s.pcs[j := SavingPrepared(r, Publication(oid.value, Ref(s), r.snapshot.value))])
  {
    hide D.Verified;
  }

  lemma {:induction false} ReadStep(s: Sys, j: nat, ok: bool)
    requires j in s.pcs && (s.pcs[j].Reconciling? || s.pcs[j].Confirming?)
    ensures var t, r := Step(s, Read(j, ok)), s.pcs[j].held;
      && t.sent == s.sent && OnDisk(t, j) == OnDisk(s, j)
      && if ok && Matches(s, r) then j in t.pcs && t.pcs[j] == Releasing(r)
         else t == s.(pcs := s.pcs[j := if s.pcs[j].Reconciling? then Publishing(r) else Failing(Some(r))])
  {
    hide Matches;
  }

  lemma {:induction false} SendStep(s: Sys, j: nat, allowed: bool)
    requires j in s.pcs && s.pcs[j].Publishing? && s.pcs[j].held.prepared.Some?
    ensures var t, r := Step(s, Send(j, allowed)), s.pcs[j].held;
      if allowed then t == s.(sent := s.sent + [PushOf(j, r)], pcs := s.pcs[j := Pushing(r)])
      else t == s.(pcs := s.pcs[j := Failing(Some(r))])
  {
  }

  lemma {:induction false} ReturnStep(s: Sys, j: nat, ok: bool)
    requires j in s.pcs && s.pcs[j].Pushing? && s.pcs[j].held.prepared.Some?
    ensures var t, r := Step(s, Return(j, ok)), s.pcs[j].held;
      t == s.(pcs := s.pcs[j := if ok && r.prepared.value.commit in s.held then Confirming(r) else Failing(Some(r))])
  {
  }

  lemma {:induction false} ReleaseStep(s: Sys, j: nat, ok: bool)
    requires j in s.pcs && s.pcs[j].Releasing?
    ensures var t, r := Step(s, Release(j, ok)), s.pcs[j].held;
      t == s.(pcs := s.pcs[j := if ok then SavingVerified(r) else Failing(Some(r))])
  {
  }

  lemma {:induction false} FailStep(s: Sys, j: nat, error: string, w: Write)
    requires j in s.pcs && s.pcs[j].Failing?
    ensures var t := Step(s, Fail(j, error, w));
      && j !in t.pcs && t.sent == s.sent
      && OnDisk(t, j) == if w.Landed? || w.Late? then Some(FailedRecord(s.pcs[j].record, error)) else OnDisk(s, j)
  {
  }

  lemma {:induction false} FailedNames(r: Option<Record>, error: string)
    ensures FailedRecord(r, error).firstFailure == Some(FirstFailure(r).GetOr(error)) && FailedRecord(r, error).status.FailedVisible?
  {
  }

  // ---- what the invariant says at those steps ----

  lemma {:induction false} PreparedHasSnapshot(base: Oid, locale: string -> real, trace: seq<Action>, j: nat)
    requires var s := Exec(Start(base, locale), trace); j in s.pcs && s.pcs[j].Preparing?
    ensures Exec(Start(base, locale), trace).pcs[j].held.snapshot.Some?
  {
    hide Start, Step, Exec, PublicationOk;
    InvExec(base, locale, trace);
    assert PcOk(Exec(Start(base, locale), trace), j, Exec(Start(base, locale), trace).pcs[j]);
  }

  /** What was prepared is a commit with the record's snapshot, so the ref holds it exactly when it is at that commit. */
  lemma {:induction false} MatchIsRef(base: Oid, locale: string -> real, trace: seq<Action>, j: nat)
    requires var s := Exec(Start(base, locale), trace); j in s.pcs && (s.pcs[j].Reconciling? || s.pcs[j].Confirming?)
    ensures var s := Exec(Start(base, locale), trace);
      s.pcs[j].held.prepared.Some? && (Matches(s, s.pcs[j].held) <==> Ref(s) == Some(s.pcs[j].held.prepared.value.commit))
  {
    hide Start, Step, Exec, D.Verified, SnapshotOk;
    InvExec(base, locale, trace);
    assert PcOk(Exec(Start(base, locale), trace), j, Exec(Start(base, locale), trace).pcs[j]);
  }

  lemma {:induction false} VerifiedIsMatched(base: Oid, locale: string -> real, trace: seq<Action>, j: nat)
    requires var s := Exec(Start(base, locale), trace); j in s.pcs && s.pcs[j].SavingVerified?
    ensures var s := Exec(Start(base, locale), trace);
      && s.pcs[j].held.prepared.Some?
      && var c, x := s.pcs[j].held.prepared.value.commit, s.pcs[j].held.prepared.value.snapshot;
         && c in s.held && (j, c) in s.matched && c in s.commits
         && s.commits[c].snapshot == Some(x) && s.pcs[j].held.snapshot == Some(x)
  {
    hide Start, Step, Exec, D.Verified, SnapshotOk;
    InvExec(base, locale, trace);
    assert PcOk(Exec(Start(base, locale), trace), j, Exec(Start(base, locale), trace).pcs[j]);
  }

  lemma {:induction false} VerifiedIsRecorded(base: Oid, locale: string -> real, trace: seq<Action>, j: nat)
    requires var s := Exec(Start(base, locale), trace); j in s.disk && s.disk[j].status.RemoteVerified?
    ensures Exec(Start(base, locale), trace).disk[j].commit.Some?
  {
    VerifiedWasRead(base, locale, trace, j);
  }
}
