/**
 Hourly work-in-progress jobs as a step system: each job captures, prepares a commit, pushes it with a lease, reads it
 back and records every stage durably, while its process may fail or crash between any two steps, other jobs push to
 the same recovery ref, and a push may land long after it was sent.
 */
module WipJobs {
  import opened Prelude
  import D = WipDeltas

  type Oid = nat

  /** What a capture recorded: its files, and everything else the manifest covers. The manifest digest stands for all of it. */
  datatype Snapshot = Snapshot(items: seq<D.Item>, rest: nat)

  datatype Status = Captured | Prepared | FailedVisible | RemoteVerified

  datatype Publication = Publication(commit: Oid, expected: Option<Oid>, snapshot: Snapshot)

  datatype Record = Record(
    status: Status, snapshot: Option<Snapshot>, prepared: Option<Publication>, firstFailure: Option<string>, commit: Option<Oid>)

  /** The checks on a job record that do not look into its snapshot. */
  predicate ShapeOk(r: Record) {
    && (r.prepared.Some? ==> r.snapshot.Some? && r.prepared.value.snapshot == r.snapshot.value)
    && match r.status
       case Captured => r.snapshot.Some? && r.prepared.None? && r.commit.None?
       case Prepared => r.snapshot.Some? && r.prepared.Some? && r.commit.None?
       case FailedVisible => r.firstFailure.Some?
       case RemoteVerified => r.snapshot.None? && r.prepared.None? && r.commit.Some?
  }

  /** What loading a job record checks: its shape, and the files of its snapshot. */
  predicate Loads(r: Record) {
    ShapeOk(r) && (r.snapshot.Some? ==> D.Verified(r.snapshot.value.items))
  }

  /** The three stages of a sound record by what it holds, and the failure that may lie on any of them. */
  lemma {:induction false} ShapeMeans(r: Record)
    ensures ShapeOk(r) <==>
      && (r.prepared.Some? ==> r.snapshot == Some(r.prepared.value.snapshot))
      && (r.status != FailedVisible ==>
            && (r.snapshot.Some? <==> r.status != RemoteVerified)
            && (r.prepared.Some? <==> r.status == Prepared)
            && (r.commit.Some? <==> r.status == RemoteVerified))
      && (r.status == FailedVisible ==> r.firstFailure.Some?)
  {
  }

  /**
   A fenced write of the job record: refused before it starts, landed, lost (the process has the new record in memory
   but not on disk) or late (on disk, yet reported as failed, as when releasing the fence's lock fails).
   */
  datatype Write = Refused | Landed | Lost | Late

  /** Where a job's process stands, with the record it holds in memory. */
  datatype Pc =
    | Capturing(record: Option<Record>)
    | SavingCapture(record: Option<Record>, snapshot: Snapshot)
    | Preparing(held: Record)
    | SavingPrepared(held: Record, publication: Publication)
    | Reconciling(held: Record)
    | Publishing(held: Record)
    | Pushing(held: Record)
    | Confirming(held: Record)
    | Releasing(held: Record)
    | SavingVerified(held: Record)
    | Failing(record: Option<Record>)

  /** A commit's parent and the snapshot its tree carries. */
  datatype Commit = Commit(parent: Option<Oid>, snapshot: Option<Snapshot>)

  datatype Push = Push(job: nat, commit: Oid, expected: Option<Oid>)

  /**
   `held` lists the commits the recovery ref has held, newest last; `sent` the pushes ever issued and `matched` the
   read-backs that agreed with what was prepared.
   */
  datatype Sys = Sys(
    base: Oid,
    locale: string -> real,
    commits: map<Oid, Commit>,
    held: seq<Oid>,
    sent: seq<Push>,
    matched: set<(nat, Oid)>,
    disk: map<nat, Record>,
    pcs: map<nat, Pc>)

  datatype Action =
    | Begin(job: nat)
    | Capture(job: nat, result: Option<Snapshot>)
    | Save(job: nat, write: Write)
    | Prepare(job: nat, oid: Option<Oid>)
    | Read(job: nat, ok: bool)
    | Send(job: nat, allowed: bool)
    | Land(index: nat)
    | Return(job: nat, ok: bool)
    | Release(job: nat, ok: bool)
    | Fail(job: nat, error: string, write: Write)
    | Crash(job: nat)

  function Ref(s: Sys): Option<Oid> { if s.held == [] then None else Some(s.held[|s.held| - 1]) }

  function OnDisk(s: Sys, j: nat): Option<Record> { if j in s.disk then Some(s.disk[j]) else None }

  function At(s: Sys, j: nat, pc: Pc): Sys { s.(pcs := s.pcs[j := pc]) }

  function Ended(s: Sys, j: nat): Sys { s.(pcs := s.pcs - {j}) }

  /** A fenced write of `r`; it goes on at `next` or to the failure handler, with whatever is then in memory. */
  function Written(s: Sys, j: nat, before: Option<Record>, r: Record, next: Pc, w: Write): Sys {
    match w
    case Refused => At(s, j, Failing(before))
    case Landed => At(s.(disk := s.disk[j := r]), j, next)
    case Lost => At(s, j, Failing(Some(r)))
    case Late => At(s.(disk := s.disk[j := r]), j, Failing(Some(r)))
  }

  function FirstFailure(r: Option<Record>): Option<string> { if r.Some? then r.value.firstFailure else None }

  function CapturedRecord(r: Option<Record>, d: Snapshot): Record { Record(Captured, Some(d), None, FirstFailure(r), None) }

  function VerifiedRecord(r: Record): Record {
    Record(RemoteVerified, None, None, r.firstFailure, if r.prepared.Some? then Some(r.prepared.value.commit) else None)
  }

  function FailedRecord(r: Option<Record>, error: string): Record {
    match r
    case None => Record(FailedVisible, None, None, Some(error), None)
    case Some(v) => v.(status := FailedVisible, firstFailure := Some(v.firstFailure.GetOr(error)))
  }

  /** Where a process starts once it has loaded the job's record. */
  function Entry(r: Option<Record>): Pc {
    if r.None? || r.value.snapshot.None? || (r.value.status.FailedVisible? && r.value.prepared.None?) then Capturing(r)
    else if r.value.prepared.None? then Preparing(r.value)
    else Reconciling(r.value)
  }

  /** The remote ref is at the prepared commit, and that commit carries the captured snapshot. */
  predicate Matches(s: Sys, r: Record) {
    && r.prepared.Some? && Ref(s) == Some(r.prepared.value.commit)
    && r.prepared.value.commit in s.commits && s.commits[r.prepared.value.commit].snapshot == r.snapshot
  }

  function Parent(s: Sys): Oid { Ref(s).GetOr(s.base) }

  /** One step; an action that does not apply changes nothing. */
  function Step(s: Sys, a: Action): Sys {
    match a
    case Begin(j) =>
      if j in s.pcs then s
      else if j in s.disk && (!Loads(s.disk[j]) || s.disk[j].status.RemoteVerified?) then s
      else At(s, j, Entry(OnDisk(s, j)))
    case Capture(j, result) =>
      if !(j in s.pcs && s.pcs[j].Capturing?) then s
      else (match result
        case None => At(s, j, Failing(s.pcs[j].record))
        case Some(x) =>
          if x.items == [] then Ended(s, j)
          else if !D.DistinctItems(x.items) then At(s, j, Failing(s.pcs[j].record))
          else At(s, j, SavingCapture(s.pcs[j].record, Snapshot(D.Sorted(s.locale, x.items), x.rest))))
    case Save(j, w) =>
      if j !in s.pcs then s
      else (match s.pcs[j]
        case SavingCapture(r, d) =>
          var c := CapturedRecord(r, d);
          Written(s, j, r, c, Preparing(c), w)
        case SavingPrepared(r, p) =>
          var c := r.(status := Prepared, prepared := Some(p));
          Written(s, j, Some(r), c, Reconciling(c), w)
        case SavingVerified(r) =>
          if w.Landed? then Ended(s.(disk := s.disk[j := VerifiedRecord(r)]), j)
          else Written(s, j, Some(r), VerifiedRecord(r), Failing(None), w)
        case _ => s)
    case Prepare(j, oid) =>
      if !(j in s.pcs && s.pcs[j].Preparing?) then s
      else
        var r := s.pcs[j].held;
        if oid.None? || (r.snapshot.Some? && !D.Verified(r.snapshot.value.items)) then At(s, j, Failing(Some(r)))
        else
          var c := Commit(Some(Parent(s)), r.snapshot);
          if r.snapshot.None? || (oid.value in s.commits && s.commits[oid.value] != c) then s
          else At(s.(commits := s.commits[oid.value := c]), j,
                  SavingPrepared(r, Publication(oid.value, Ref(s), r.snapshot.value)))
    case Read(j, ok) =>
      if j !in s.pcs then s
      else (match s.pcs[j]
        case Reconciling(r) =>
          if ok && Matches(s, r) then At(s.(matched := s.matched + {(j, r.prepared.value.commit)}), j, Releasing(r))
          else At(s, j, Publishing(r))
        case Confirming(r) =>
          if ok && Matches(s, r) then At(s.(matched := s.matched + {(j, r.prepared.value.commit)}), j, Releasing(r))
          else At(s, j, Failing(Some(r)))
        case _ => s)
    case Send(j, allowed) =>
      if !(j in s.pcs && s.pcs[j].Publishing?) then s
      else
        var r := s.pcs[j].held;
        if !allowed || r.prepared.None? then At(s, j, Failing(Some(r)))
        else At(s.(sent := s.sent + [Push(j, r.prepared.value.commit, r.prepared.value.expected)]), j, Pushing(r))
    case Land(k) =>
      if k < |s.sent| && Ref(s) == s.sent[k].expected then s.(held := s.held + [s.sent[k].commit]) else s
    case Return(j, ok) =>
      if !(j in s.pcs && s.pcs[j].Pushing?) then s
      else
        var r := s.pcs[j].held;
        if ok && r.prepared.Some? && r.prepared.value.commit in s.held then At(s, j, Confirming(r)) else At(s, j, Failing(Some(r)))
    case Release(j, ok) =>
      if !(j in s.pcs && s.pcs[j].Releasing?) then s
      else if ok then At(s, j, SavingVerified(s.pcs[j].held)) else At(s, j, Failing(Some(s.pcs[j].held)))
    case Fail(j, error, w) =>
      if !(j in s.pcs && s.pcs[j].Failing?) then s
      else
        var r := FailedRecord(s.pcs[j].record, error);
        Ended(if w.Landed? || w.Late? then s.(disk := s.disk[j := r]) else s, j)
    case Crash(j) => Ended(s, j)
  }

  function Exec(s: Sys, acts: seq<Action>): Sys {
    if acts == [] then s else Step(Exec(s, acts[..|acts| - 1]), acts[|acts| - 1])
  }

  /** A fresh remote and no job records. */
  function Start(base: Oid, locale: string -> real): Sys {
    Sys(base, locale, map[base := Commit(None, None)], [], [], {}, map[], map[])
  }

  // ---- what every step keeps, whatever fails ----

  predicate PublicationOk(s: Sys, p: Publication) {
    && p.commit in s.commits && s.commits[p.commit] == Commit(Some(p.expected.GetOr(s.base)), Some(p.snapshot))
    && D.Verified(p.snapshot.items)
  }

  /** A captured snapshot lists different paths, in the locale's order. */
  predicate SnapshotOk(s: Sys, x: Snapshot) {
    x.items != [] && D.DistinctItems(x.items) && D.InOrder(s.locale, x.items)
  }

  predicate RecordOk(s: Sys, r: Record) {
    && ShapeOk(r) && (r.snapshot.Some? ==> SnapshotOk(s, r.snapshot.value))
    && (r.prepared.Some? ==> PublicationOk(s, r.prepared.value) && r.commit.None?)
  }

  /** A record in use for publishing. */
  predicate Publishable(s: Sys, j: nat, r: Record) {
    RecordOk(s, r) && r.prepared.Some? && OnDisk(s, j) == Some(r)
  }

  /** What a process holds in memory agrees with the disk, except when it is about to record a failure. */
  predicate PcOk(s: Sys, j: nat, pc: Pc) {
    match pc
    case Capturing(r) => OnDisk(s, j) == r && Entry(r) == pc
    case SavingCapture(r, d) => OnDisk(s, j) == r && Entry(r) == Capturing(r) && SnapshotOk(s, d)
    case Preparing(r) => OnDisk(s, j) == Some(r) && RecordOk(s, r) && Entry(Some(r)) == pc && r.commit.None?
    case SavingPrepared(r, p) =>
      && OnDisk(s, j) == Some(r) && RecordOk(s, r) && Entry(Some(r)) == Preparing(r) && r.commit.None?
      && PublicationOk(s, p) && r.snapshot == Some(p.snapshot)
    case Reconciling(r) => Publishable(s, j, r)
    case Publishing(r) => Publishable(s, j, r)
    case Pushing(r) => Publishable(s, j, r)
    case Confirming(r) => Publishable(s, j, r)
    case Releasing(r) => Publishable(s, j, r) && r.prepared.value.commit in s.held && (j, r.prepared.value.commit) in s.matched
    case SavingVerified(r) => Publishable(s, j, r) && r.prepared.value.commit in s.held && (j, r.prepared.value.commit) in s.matched
    case Failing(r) =>
      && (r.Some? ==> RecordOk(s, r.value))
      && (FirstFailure(OnDisk(s, j)).Some? ==> FirstFailure(r) == FirstFailure(OnDisk(s, j)))
  }

  predicate DiskOk(s: Sys, j: nat, r: Record) {
    && RecordOk(s, r)
    && (r.status.RemoteVerified? ==> r.commit.value in s.held && (j, r.commit.value) in s.matched)
  }

  /** Every push carries a commit whose parent is what the push expects the ref to hold. */
  predicate PushOk(s: Sys, p: Push) {
    p.commit in s.commits && s.commits[p.commit].parent == Some(p.expected.GetOr(s.base))
  }

  /** Each commit the ref held is the parent of the next. */
  predicate Chained(s: Sys) {
    && (forall i :: 0 <= i < |s.held| ==> s.held[i] in s.commits)
    && (s.held != [] ==> s.commits[s.held[0]].parent == Some(s.base))
    && (forall i :: 0 <= i < |s.held| - 1 ==> s.commits[s.held[i + 1]].parent == Some(s.held[i]))
  }

  ghost predicate Inv(s: Sys) {
    && Chained(s)
    && (forall p :: p in s.sent ==> PushOk(s, p))
    && (forall j :: j in s.disk ==> DiskOk(s, j, s.disk[j]))
    && (forall j :: j in s.pcs ==> PcOk(s, j, s.pcs[j]))
  }

  /** Commits and what the ref held are never lost. */
  ghost predicate Extends(s: Sys, t: Sys) {
    && t.base == s.base && t.locale == s.locale && s.held <= t.held && s.matched <= t.matched
    && (forall c :: c in s.commits ==> c in t.commits && t.commits[c] == s.commits[c])
  }

  lemma {:induction false} StepExtends(s: Sys, a: Action)
    ensures Extends(s, Step(s, a))
  {
    hide Written, Entry, FailedRecord, Matches;
    if a.Save? && a.job in s.pcs {
      WrittenExtends(s, a.job, a.write);
    }
  }

  lemma {:induction false} CaptureSorted(s: Sys, x: Snapshot)
    requires x.items != [] && D.DistinctItems(x.items)
    ensures SnapshotOk(s, Snapshot(D.Sorted(s.locale, x.items), x.rest))
  {
    D.SortedKeeps(s.locale, x.items);
  }

  lemma {:induction false} WrittenExtends(s: Sys, j: nat, w: Write)
    ensures forall before, r, next :: Extends(s, Written(s, j, before, r, next, w))
  {
  }

  /** What a job's process and record know stays true while others act. */
  lemma {:induction false} OthersKeep(s: Sys, t: Sys, j: nat)
    requires Extends(s, t) && OnDisk(t, j) == OnDisk(s, j)
    ensures j in s.pcs && PcOk(s, j, s.pcs[j]) ==> PcOk(t, j, s.pcs[j])
    ensures j in s.disk && DiskOk(s, j, s.disk[j]) ==> j in t.disk && DiskOk(t, j, t.disk[j])
  {
    PrefixMembers(s.held, t.held);
    hide ShapeOk, Entry;
    if j in s.disk {
      assert t.disk[j] == s.disk[j];
    }
  }

  lemma {:induction false} PrefixMembers(a: seq<Oid>, b: seq<Oid>)
    requires a <= b
    ensures forall x :: x in a ==> x in b
  {
    assert forall i :: 0 <= i < |a| ==> b[i] == a[i];
  }

  /** A record that is known to be sound stays so. */
  lemma {:induction false} RecordKeeps(s: Sys, t: Sys, r: Record)
    requires Extends(s, t) && RecordOk(s, r)
    ensures RecordOk(t, r)
  {
    hide ShapeOk;
  }

  /** The job that acted: its own record and place are sound again. */
  ghost predicate JobOk(s: Sys, j: nat) {
    (j in s.disk ==> DiskOk(s, j, s.disk[j])) && (j in s.pcs ==> PcOk(s, j, s.pcs[j]))
  }

  /** Only the acting job's record and place may change. */
  ghost predicate Local(s: Sys, t: Sys, j: nat) {
    && (forall i :: i != j ==> OnDisk(t, i) == OnDisk(s, i))
    && (forall i :: i != j ==> (i in t.pcs <==> i in s.pcs))
    && (forall i :: i != j && i in s.pcs ==> t.pcs[i] == s.pcs[i])
  }

  lemma {:induction false} InvFrom(s: Sys, t: Sys, j: nat)
    requires Inv(s) && Extends(s, t) && Local(s, t, j) && JobOk(t, j) && t.held == s.held
    requires forall p :: p in t.sent ==> p in s.sent || PushOk(t, p)
    ensures Inv(t)
  {
    hide PcOk, DiskOk;
    forall i | i in t.disk ensures DiskOk(t, i, t.disk[i]) {
      if i != j {
        assert OnDisk(t, i) == OnDisk(s, i);
        OthersKeep(s, t, i);
      }
    }
    forall i | i in t.pcs ensures PcOk(t, i, t.pcs[i]) {
      if i != j {
        OthersKeep(s, t, i);
      }
    }
  }

  /** A fenced write of a sound record keeps the job sound. */
  lemma {:induction false} WrittenOk(s: Sys, j: nat, before: Option<Record>, r: Record, next: Pc, w: Write)
    requires JobOk(s, j) && OnDisk(s, j) == before && (before.Some? ==> RecordOk(s, before.value))
    requires DiskOk(s, j, r) && PcOk(s.(disk := s.disk[j := r]), j, next)
    requires FirstFailure(before).Some? ==> r.firstFailure == FirstFailure(before)
    ensures JobOk(Written(s, j, before, r, next, w), j)
  {
    hide ShapeOk, Entry;
    var t := s.(disk := s.disk[j := r]);
    assert OnDisk(t, j) == Some(r);
    var u := Written(s, j, before, r, next, w);
    if w.Landed? {
      PcMoves(t, u, j, next);
    }
  }

  /** Where a process stands matters to its soundness only through disk, commits and ref. */
  lemma {:induction false} PcMoves(s: Sys, t: Sys, j: nat, pc: Pc)
    requires t.disk == s.disk && t.commits == s.commits && t.held == s.held && t.matched == s.matched && t.base == s.base && t.locale == s.locale
    ensures PcOk(t, j, pc) == PcOk(s, j, pc)
    ensures forall r :: DiskOk(t, j, r) == DiskOk(s, j, r)
  {
    hide ShapeOk, Entry;
  }

  lemma {:induction false} SaveKeeps(s: Sys, j: nat, w: Write)
    requires JobOk(s, j) && j in s.pcs
    ensures JobOk(Step(s, Save(j, w)), j)
  {
    match s.pcs[j]
    case SavingCapture(r, d) =>
      var c := CapturedRecord(r, d);
      WrittenOk(s, j, r, c, Preparing(c), w);
    case SavingPrepared(r, p) =>
      var c := r.(status := Prepared, prepared := Some(p));
      WrittenOk(s, j, Some(r), c, Reconciling(c), w);
    case SavingVerified(r) =>
      var c := VerifiedRecord(r);
      VerifiedSaved(s, j, r, w);
    case _ =>
  }

  lemma {:induction false} VerifiedSaved(s: Sys, j: nat, r: Record, w: Write)
    requires JobOk(s, j) && j in s.pcs && s.pcs[j] == SavingVerified(r)
    ensures JobOk(Step(s, Save(j, w)), j)
  {
    var c := VerifiedRecord(r);
    WrittenOk(s, j, Some(r), c, Failing(Some(c)), w);
  }

  lemma {:induction false} BeginKeeps(s: Sys, a: Action)
    requires (a.Begin? || a.Capture? || a.Crash?) && JobOk(s, a.job)
    ensures JobOk(Step(s, a), a.job)
  {
    hide ShapeOk;
    if a.Begin? && a.job !in s.pcs && !(a.job in s.disk && s.disk[a.job].status.RemoteVerified?) {
      EntryOk(s, a.job);
    }
    if a.Capture? && a.result.Some? && a.result.value.items != [] && D.DistinctItems(a.result.value.items) {
      CaptureSorted(s, a.result.value);
    }
  }

  lemma {:induction false} EntryOk(s: Sys, j: nat)
    requires JobOk(s, j) && !(j in s.disk && s.disk[j].status.RemoteVerified?)
    ensures PcOk(s, j, Entry(OnDisk(s, j)))
  {
  }

  lemma {:induction false} PrepareKeeps(s: Sys, a: Action)
    requires a.Prepare? && JobOk(s, a.job)
    ensures JobOk(Step(s, a), a.job)
  {
    var j, t := a.job, Step(s, a);
    StepExtends(s, a);
    if t != s && j in s.pcs && s.pcs[j].Preparing? {
      var r := s.pcs[j].held;
      RecordKeeps(s, t, r);
      hide ShapeOk;
      assert j in s.disk && t.disk == s.disk;
    }
  }

  lemma {:induction false} ReadKeeps(s: Sys, a: Action)
    requires a.Read? && JobOk(s, a.job)
    ensures JobOk(Step(s, a), a.job)
  {
    hide ShapeOk;
    if a.job in s.pcs && (s.pcs[a.job].Reconciling? || s.pcs[a.job].Confirming?) && Matches(s, s.pcs[a.job].held) {
      assert Ref(s).value in s.held;
    }
  }

  lemma {:induction false} SendKeeps(s: Sys, a: Action)
    requires (a.Send? || a.Return? || a.Release?) && JobOk(s, a.job)
    ensures JobOk(Step(s, a), a.job)
  {
    hide ShapeOk;
  }

  lemma {:induction false} FailKeeps(s: Sys, a: Action)
    requires a.Fail? && JobOk(s, a.job)
    ensures JobOk(Step(s, a), a.job)
  {
  }

  /** Everything a job does apart from its saves. */
  lemma {:induction false} MoveKeeps(s: Sys, a: Action)
    requires !a.Land? && !a.Save? && JobOk(s, a.job)
    ensures JobOk(Step(s, a), a.job)
  {
    hide Step, JobOk;
    match a
    case Prepare(_, _) => PrepareKeeps(s, a);
    case Read(_, _) => ReadKeeps(s, a);
    case Fail(_, _, _) => FailKeeps(s, a);
    case Begin(_) => BeginKeeps(s, a);
    case Capture(_, _) => BeginKeeps(s, a);
    case Crash(_) => BeginKeeps(s, a);
    case Send(_, _) => SendKeeps(s, a);
    case Return(_, _) => SendKeeps(s, a);
    case Release(_, _) => SendKeeps(s, a);
  }

  lemma {:induction false} StepLocal(s: Sys, a: Action)
    requires !a.Land?
    ensures Local(s, Step(s, a), a.job) && Step(s, a).held == s.held
  {
    hide Entry, Matches, ShapeOk, FailedRecord, CapturedRecord, VerifiedRecord, Written;
    if a.Save? {
      WrittenLocal(s, a.job, a.write);
    }
  }

  lemma {:induction false} WrittenLocal(s: Sys, j: nat, w: Write)
    ensures forall before, r, next ::
      Local(s, Written(s, j, before, r, next, w), j) && Written(s, j, before, r, next, w).held == s.held
  {
  }

  /** Only a send issues a push, and it pushes what is prepared. */
  lemma {:induction false} StepSends(s: Sys, a: Action)
    ensures var t := Step(s, a);
      t.sent == s.sent ||
      (&& a.Send? && a.job in s.pcs && s.pcs[a.job].Publishing? && s.pcs[a.job].held.prepared.Some?
       && var p := s.pcs[a.job].held.prepared.value;
          t.sent == s.sent + [Push(a.job, p.commit, p.expected)])
  {
    hide Entry, Matches, ShapeOk, FailedRecord, CapturedRecord, VerifiedRecord;
  }

  lemma {:induction false} LandKeeps(s: Sys, k: nat)
    requires Inv(s)
    ensures Inv(Step(s, Land(k)))
  {
    var t := Step(s, Land(k));
    if t != s {
      assert s.sent[k] in s.sent;
      forall i | 0 <= i < |t.held| - 1 ensures t.commits[t.held[i + 1]].parent == Some(t.held[i]) {
      }
      StepExtends(s, Land(k));
      forall j | j in t.disk ensures DiskOk(t, j, t.disk[j]) {
        OthersKeep(s, t, j);
      }
      forall j | j in t.pcs ensures PcOk(t, j, t.pcs[j]) {
        OthersKeep(s, t, j);
      }
    }
  }

  /** Every step keeps every job's record decodable and truthful, whichever writes fail and wherever processes crash. */
  lemma {:induction false} InvStep(s: Sys, a: Action)
    requires Inv(s)
    ensures Inv(Step(s, a))
  {
    hide Step, PcOk, DiskOk;
    if a.Land? {
      LandKeeps(s, a.index);
    } else {
      StepExtends(s, a);
      StepLocal(s, a);
      JobSound(s, a.job);
      if a.Save? {
        SaveKeepsAll(s, a);
      } else {
        MoveKeeps(s, a);
      }
      PushesKeep(s, a);
      InvFrom(s, Step(s, a), a.job);
    }
  }

  lemma {:induction false} JobSound(s: Sys, j: nat)
    requires Inv(s)
    ensures JobOk(s, j)
  {
  }

  lemma {:induction false} SaveKeepsAll(s: Sys, a: Action)
    requires a.Save? && JobOk(s, a.job)
    ensures JobOk(Step(s, a), a.job)
  {
    if a.job in s.pcs {
      hide Step, PcOk, DiskOk;
      SaveKeeps(s, a.job, a.write);
    }
  }

  lemma {:induction false} PushesKeep(s: Sys, a: Action)
    requires Inv(s) && !a.Land?
    ensures forall p :: p in Step(s, a).sent ==> p in s.sent || PushOk(Step(s, a), p)
  {
    hide Step, DiskOk, ShapeOk, Entry;
    StepSends(s, a);
    StepExtends(s, a);
  }

  lemma {:induction false} InvExec(base: Oid, locale: string -> real, acts: seq<Action>)
    ensures Inv(Exec(Start(base, locale), acts))
  {
    hide Inv, Step;
    if acts == [] {
      StartOk(base, locale);
    } else {
      InvExec(base, locale, acts[..|acts| - 1]);
      InvStep(Exec(Start(base, locale), acts[..|acts| - 1]), acts[|acts| - 1]);
    }
  }

  lemma {:induction false} StartOk(base: Oid, locale: string -> real)
    ensures Inv(Start(base, locale))
  {
  }
}
