/**
 What holds over every run of work-in-progress jobs: the recovery ref's history, what may be pushed, and what a durable
 verification means.
 */
module WipRuns {
  import opened Prelude
  import opened WipJobs
  import D = WipDeltas

  // ---- the recovery ref ----

  /** `a` is the `n`-th ancestor of `c`. */
  ghost predicate Ancestor(commits: map<Oid, Commit>, a: Oid, c: Oid, n: nat)
    decreases n
  {
    if n == 0 then a == c
    else c in commits && commits[c].parent.Some? && Ancestor(commits, a, commits[c].parent.value, n - 1)
  }

  lemma {:induction false} HeldAreAncestors(s: Sys, i: nat, k: nat)
    requires Chained(s) && i <= k < |s.held|
    ensures Ancestor(s.commits, s.held[i], s.held[k], k - i)
    decreases k
  {
    if i < k {
      HeldAreAncestors(s, i, k - 1);
      assert s.commits[s.held[k - 1 + 1]].parent == Some(s.held[k - 1]);
    }
  }

  lemma {:induction false} ExecExtends(s: Sys, acts: seq<Action>, n: nat)
    requires n <= |acts|
    ensures Extends(Exec(s, acts[..n]), Exec(s, acts))
    decreases |acts|
  {
    hide Step;
    if n == |acts| {
      assert acts[..n] == acts;
    } else {
      var most := acts[..|acts| - 1];
      assert most[..n] == acts[..n];
      ExecExtends(s, most, n);
      StepExtends(Exec(s, most), acts[|acts| - 1]);
      PrefixMembers(Exec(s, acts[..n]).held, Exec(s, most).held);
    }
  }

  /**
   Under any interleaving of jobs, crashes and late pushes, every commit the recovery ref ever held is an ancestor of
   the commit it holds now.
   */
  lemma {:induction false} HistoryOnlyGrows(base: Oid, locale: string -> real, acts: seq<Action>, n: nat, i: nat)
    requires n <= |acts| && i < |Exec(Start(base, locale), acts[..n]).held|
    ensures var s, t := Exec(Start(base, locale), acts[..n]), Exec(Start(base, locale), acts);
      i < |t.held| && Ref(t).Some? && Ancestor(t.commits, s.held[i], Ref(t).value, |t.held| - 1 - i)
  {
    hide Step, Start, PcOk, DiskOk, PushOk;
    ExecExtends(Start(base, locale), acts, n);
    InvExec(base, locale, acts);
    var t := Exec(Start(base, locale), acts);
    HeldAreAncestors(t, i, |t.held| - 1);
  }

  /** A push that takes effect replaces its commit's own parent, or starts the ref from the base. */
  lemma {:induction false} LandedOnParent(base: Oid, locale: string -> real, acts: seq<Action>, k: nat)
    requires var s := Exec(Start(base, locale), acts); Step(s, Land(k)) != s
    ensures var s, t := Exec(Start(base, locale), acts), Step(Exec(Start(base, locale), acts), Land(k));
      && Ref(t).Some? && Ref(t).value in t.commits && t.commits[Ref(t).value].parent == Some(Ref(s).GetOr(s.base))
  {
    hide Start, PcOk, DiskOk;
    InvExec(base, locale, acts);
    var s := Exec(Start(base, locale), acts);
    assert s.sent[k] in s.sent;
  }

  // ---- pushes and their records ----

  /** A push is only ever issued for a publication that is already in the job's durable record. */
  lemma {:induction false} PushesArePrepared(base: Oid, locale: string -> real, acts: seq<Action>, a: Action)
    requires var s := Exec(Start(base, locale), acts); Step(s, a).sent != s.sent
    ensures var s, t := Exec(Start(base, locale), acts), Step(Exec(Start(base, locale), acts), a);
      && |t.sent| == |s.sent| + 1
      && var p := t.sent[|s.sent|];
         p.job in s.disk && s.disk[p.job].status in {Prepared, FailedVisible}
         && s.disk[p.job].prepared == Some(Publication(p.commit, p.expected, s.disk[p.job].snapshot.GetOr(Snapshot([], 0))))
  {
    hide Step, Start, DiskOk;
    InvExec(base, locale, acts);
    StepSends(Exec(Start(base, locale), acts), a);
  }

  /** A read-back that finds the ref at `c`, with the snapshot that the job's process holds. */
  predicate ReadsMatch(s: Sys, a: Action, j: nat, c: Oid) {
    && a.Read? && a.job == j && Ref(s) == Some(c) && c in s.commits && j in s.pcs
    && (s.pcs[j].Reconciling? || s.pcs[j].Confirming?) && s.commits[c].snapshot == s.pcs[j].held.snapshot
  }

  /** A read-back only ever matches when the ref holds the prepared commit and that commit carries the snapshot. */
  lemma {:induction false} MatchesAreReal(s: Sys, a: Action, j: nat, c: Oid)
    requires (j, c) in Step(s, a).matched && (j, c) !in s.matched
    ensures ReadsMatch(s, a, j, c)
  {
    hide Written, Entry;
    if a.Save? && a.job in s.pcs {
      WrittenReads(s, a.job, a.write);
    }
  }

  lemma {:induction false} WrittenReads(s: Sys, j: nat, w: Write)
    ensures forall before, r, next :: Written(s, j, before, r, next, w).matched == s.matched
  {
  }

  lemma {:induction false} MatchesWereRead(base: Oid, locale: string -> real, acts: seq<Action>, j: nat, c: Oid)
    requires (j, c) in Exec(Start(base, locale), acts).matched
    ensures exists i :: 0 <= i < |acts| && ReadsMatch(Exec(Start(base, locale), acts[..i]), acts[i], j, c)
  {
    hide Step, ReadsMatch;
    if acts != [] {
      var n := |acts| - 1;
      var most := acts[..n];
      if (j, c) in Exec(Start(base, locale), most).matched {
        MatchesWereRead(base, locale, most, j, c);
        var i :| 0 <= i < n && ReadsMatch(Exec(Start(base, locale), most[..i]), most[i], j, c);
        assert most[..i] == acts[..i] && most[i] == acts[i];
      } else {
        MatchesAreReal(Exec(Start(base, locale), most), acts[n], j, c);
      }
    }
  }

  /**
   A durable verification names a commit that the ref held, and a read-back of the job found the ref at that commit,
   carrying the snapshot the job had prepared.
   */
  lemma {:induction false} VerifiedWasRead(base: Oid, locale: string -> real, acts: seq<Action>, j: nat)
    requires j in Exec(Start(base, locale), acts).disk && Exec(Start(base, locale), acts).disk[j].status.RemoteVerified?
    ensures var s := Exec(Start(base, locale), acts); s.disk[j].commit.Some? && s.disk[j].commit.value in s.held
    ensures var c := Exec(Start(base, locale), acts).disk[j].commit.value;
      exists i :: 0 <= i < |acts| && ReadsMatch(Exec(Start(base, locale), acts[..i]), acts[i], j, c)
  {
    hide Start, Step, PcOk, ReadsMatch;
    InvExec(base, locale, acts);
    MatchesWereRead(base, locale, acts, j, Exec(Start(base, locale), acts).disk[j].commit.value);
  }

  // ---- records that do not load ----

  /** The snapshot does not pass the checks made when the record is loaded. */
  predicate Misordered(r: Record) { r.snapshot.Some? && !D.Verified(r.snapshot.value.items) }

  lemma {:induction false} LocaleStays(base: Oid, locale: string -> real, acts: seq<Action>)
    ensures Exec(Start(base, locale), acts).locale == locale
  {
    hide Step;
    if acts != [] {
      LocaleStays(base, locale, acts[..|acts| - 1]);
      StepExtends(Exec(Start(base, locale), acts[..|acts| - 1]), acts[|acts| - 1]);
    }
  }

  /**
   A record on disk loads again exactly when the locale sorts its captured paths as their code units do (and every file
   carries a well-formed status): each capture is stored in the one order and checked in the other.
   */
  lemma {:induction false} RecordsLoad(base: Oid, locale: string -> real, acts: seq<Action>, j: nat)
    requires D.Separates(locale) && j in Exec(Start(base, locale), acts).disk
    ensures var r := Exec(Start(base, locale), acts).disk[j];
      Loads(r) <==> (r.snapshot.Some? ==>
        && D.SortedAlike(locale, r.snapshot.value.items)
        && forall i :: i in r.snapshot.value.items ==> D.StatusShape(i.status))
  {
    hide Start, Step, Exec, PcOk, ShapeOk, PublicationOk;
    InvExec(base, locale, acts);
    LocaleStays(base, locale, acts);
    var s := Exec(Start(base, locale), acts);
    assert DiskOk(s, j, s.disk[j]);
    if s.disk[j].snapshot.Some? {
      D.AlikeVerifies(locale, s.disk[j].snapshot.value.items);
    }
  }

  /** While a record that does not load is on disk, its process can only be about to prepare it or to record the failure. */
  predicate AtRest(s: Sys, j: nat) {
    j in s.disk && Misordered(s.disk[j]) && j in s.pcs ==>
      match s.pcs[j]
      case Preparing(r) => r == s.disk[j]
      case Failing(r) => r.Some? && r.value.snapshot == s.disk[j].snapshot
      case _ => false
  }

  lemma {:induction false} AtRestSave(s: Sys, a: Action)
    requires a.Save? && JobOk(s, a.job) && AtRest(s, a.job)
    ensures AtRest(Step(s, a), a.job)
    ensures a.job in s.disk && Misordered(s.disk[a.job]) ==> OnDisk(Step(s, a), a.job) == OnDisk(s, a.job)
  {
    hide PublicationOk, ShapeOk, SnapshotOk;
  }

  lemma {:induction false} AtRestMove(s: Sys, a: Action)
    requires !a.Land? && !a.Save? && JobOk(s, a.job) && AtRest(s, a.job)
    ensures AtRest(Step(s, a), a.job)
    ensures a.job in s.disk && Misordered(s.disk[a.job]) ==>
      a.job in Step(s, a).disk && Step(s, a).disk[a.job].snapshot == s.disk[a.job].snapshot
  {
    hide PublicationOk, SnapshotOk, Matches, ShapeOk;
  }

  lemma {:induction false} AtRestStep(s: Sys, a: Action, j: nat)
    requires Inv(s) && AtRest(s, j)
    ensures var t := Step(s, a);
      && AtRest(t, j)
      && (j in s.disk && Misordered(s.disk[j]) ==>
            && j in t.disk && t.disk[j].snapshot == s.disk[j].snapshot
            && forall p :: p in t.sent && p.job == j ==> p in s.sent)
  {
    JobSound(s, j);
    StepSends(s, a);
    if !a.Land? {
      hide Step, JobOk, Inv;
      if a.job != j {
        StepLocal(s, a);
        assert OnDisk(Step(s, a), j) == OnDisk(s, j);
      } else if a.Save? {
        AtRestSave(s, a);
      } else {
        AtRestMove(s, a);
      }
    }
  }

  lemma {:induction false} AtRestExec(base: Oid, locale: string -> real, acts: seq<Action>, j: nat)
    ensures AtRest(Exec(Start(base, locale), acts), j)
  {
    if acts != [] {
      hide Step, Inv, Start, AtRest;
      var most := acts[..|acts| - 1];
      AtRestExec(base, locale, most, j);
      InvExec(base, locale, most);
      AtRestStep(Exec(Start(base, locale), most), acts[|acts| - 1], j);
    }
  }

  /**
   Once a record that does not load is on disk, the job is stuck: whatever happens, its snapshot stays, the record never
   loads again and the job pushes nothing more.
   */
  lemma {:induction false} UnloadableStays(base: Oid, locale: string -> real, acts: seq<Action>, n: nat, j: nat)
    requires n <= |acts|
    requires j in Exec(Start(base, locale), acts[..n]).disk && !Loads(Exec(Start(base, locale), acts[..n]).disk[j])
    ensures var s, t := Exec(Start(base, locale), acts[..n]), Exec(Start(base, locale), acts);
      && j in t.disk && t.disk[j].snapshot == s.disk[j].snapshot && !Loads(t.disk[j])
      && forall p :: p in t.sent && p.job == j ==> p in s.sent
    decreases |acts|
  {
    hide Step, Start, PcOk, PushOk, ShapeOk, AtRest, PublicationOk, SnapshotOk;
    InvExec(base, locale, acts[..n]);
    if n == |acts| {
      assert acts[..n] == acts;
    } else {
      var most := acts[..|acts| - 1];
      assert most[..n] == acts[..n];
      UnloadableStays(base, locale, most, n, j);
      InvExec(base, locale, most);
      AtRestExec(base, locale, most, j);
      AtRestStep(Exec(Start(base, locale), most), acts[|acts| - 1], j);
    }
  }

  /** A tick whose capture is recorded, whose preparation fails and whose failure is recorded. */
  function UnpreparedTick(j: nat, x: Snapshot): seq<Action> {
    [Begin(j), Capture(j, Some(x)), Save(j, Landed), Prepare(j, Some(1)), Fail(j, "WIP snapshot is invalid", Landed)]
  }

  function Untracked(path: string): D.Item { D.Item(path, "??", Some(D.File(420, [])), None) }

  /**
   Two new files suffice: the locale puts `package.json` before `README.md`, the check wants them the other way round.
   The tick reports a failure, and the record it leaves never loads again.
   */
  lemma {:induction false} TwoNewFilesAreStuck(locale: string -> real, more: seq<Action>)
    requires locale("package.json") < locale("README.md")
    ensures var x := Snapshot([Untracked("README.md"), Untracked("package.json")], 0);
      var t := Exec(Start(0, locale), UnpreparedTick(0, x) + more);
      && 0 in t.disk && t.disk[0].snapshot == Some(Snapshot([Untracked("package.json"), Untracked("README.md")], 0))
      && !Loads(t.disk[0]) && forall p :: p in t.sent ==> p.job != 0
  {
    hide Step, D.Sorted, D.Verified, D.DistinctItems, Untracked;
    var x := Snapshot([Untracked("README.md"), Untracked("package.json")], 0);
    var acts := UnpreparedTick(0, x);
    TwoSorted(locale);
    NewCapture(Start(0, locale), 0, x);
    UnpreparedStays(Step(Step(Step(Start(0, locale), acts[0]), acts[1]), acts[2]), 0, 1, "WIP snapshot is invalid");
    ExecFive(Start(0, locale), acts);
    assert (acts + more)[..5] == acts;
    UnloadableStays(0, locale, acts + more, 5, 0);
  }

  lemma {:induction false} TwoSorted(locale: string -> real)
    requires locale("package.json") < locale("README.md")
    ensures var x := [Untracked("README.md"), Untracked("package.json")];
      D.DistinctItems(x) && D.Sorted(locale, x) == [Untracked("package.json"), Untracked("README.md")] && !D.Verified(D.Sorted(locale, x))
  {
    var a, b := Untracked("README.md"), Untracked("package.json");
    assert a.path[0] != b.path[0];
    assert [a, b][..1] == [a] && [a][..0] == [];
    assert D.Sorted(locale, [a]) == [a];
    assert D.Sorted(locale, [a, b]) == D.Insert(locale, [a], b);
    assert D.Insert(locale, [a], b) == [b] + [a] == [b, a];
    assert !D.CodeBefore("package.json", "README.md");
    assert !D.CodeBefore([b, a][0].path, [b, a][1].path);
  }

  /** A snapshot that cannot be prepared stays on disk with the failure that is recorded. */
  lemma {:induction false} UnpreparedStays(s: Sys, j: nat, oid: Oid, error: string)
    requires j in s.pcs && s.pcs[j].Preparing? && Misordered(s.pcs[j].held)
    ensures var t := Step(Step(s, Prepare(j, Some(oid))), Fail(j, error, Landed));
      j in t.disk && t.disk[j].snapshot == s.pcs[j].held.snapshot && t.sent == s.sent
  {
    hide D.Verified;
  }

  lemma {:induction false} ExecFive(s: Sys, a: seq<Action>)
    requires |a| == 5
    ensures Exec(s, a) == Step(Step(Step(Step(Step(s, a[0]), a[1]), a[2]), a[3]), a[4])
  {
    hide Step;
    assert a[..4][..3] == a[..3] && a[..3][..2] == a[..2] && a[..2][..1] == a[..1];
    assert Exec(s, a[..1]) == Step(s, a[0]);
    assert Exec(s, a[..2]) == Step(Exec(s, a[..1]), a[1]);
    assert Exec(s, a[..3]) == Step(Exec(s, a[..2]), a[2]);
    assert Exec(s, a[..4]) == Step(Exec(s, a[..3]), a[3]);
  }

  // ---- the first failure ----

  lemma {:induction false} FirstFailureSave(s: Sys, a: Action)
    requires a.Save? && JobOk(s, a.job) && FirstFailure(OnDisk(s, a.job)).Some?
    ensures FirstFailure(OnDisk(Step(s, a), a.job)) == FirstFailure(OnDisk(s, a.job))
  {
    hide ShapeOk, PublicationOk, Entry;
  }

  lemma {:induction false} FirstFailureMove(s: Sys, a: Action)
    requires !a.Land? && !a.Save? && JobOk(s, a.job) && FirstFailure(OnDisk(s, a.job)).Some?
    ensures FirstFailure(OnDisk(Step(s, a), a.job)) == FirstFailure(OnDisk(s, a.job))
  {
    hide ShapeOk, PublicationOk, Entry, Matches, Written;
  }

  lemma {:induction false} FirstFailureStep(s: Sys, a: Action, j: nat)
    requires Inv(s) && FirstFailure(OnDisk(s, j)).Some?
    ensures FirstFailure(OnDisk(Step(s, a), j)) == FirstFailure(OnDisk(s, j))
  {
    JobSound(s, j);
    if a.Land? {
    } else {
      hide Step, Inv, JobOk, FirstFailure;
      if a.job != j {
        StepLocal(s, a);
      } else if a.Save? {
        FirstFailureSave(s, a);
      } else {
        FirstFailureMove(s, a);
      }
    }
  }

  /** Once a durable record names a first failure, it never changes. */
  lemma {:induction false} FirstFailureStays(base: Oid, locale: string -> real, acts: seq<Action>, n: nat, j: nat)
    requires n <= |acts| && FirstFailure(OnDisk(Exec(Start(base, locale), acts[..n]), j)).Some?
    ensures FirstFailure(OnDisk(Exec(Start(base, locale), acts), j)) == FirstFailure(OnDisk(Exec(Start(base, locale), acts[..n]), j))
    decreases |acts|
  {
    hide Step, Start, Inv;
    if n == |acts| {
      assert acts[..n] == acts;
    } else {
      var most := acts[..|acts| - 1];
      assert most[..n] == acts[..n];
      FirstFailureStays(base, locale, most, n, j);
      InvExec(base, locale, most);
      FirstFailureStep(Exec(Start(base, locale), most), acts[|acts| - 1], j);
    }
  }

  // ---- one commit per job ----

  /** A verification save that changed the record in memory and yet reported a failure. */
  predicate Ambiguous(s: Sys, a: Action) {
    a.Save? && a.job in s.pcs && s.pcs[a.job].SavingVerified? && (a.write.Lost? || a.write.Late?)
  }

  ghost predicate NeverAmbiguous(base: Oid, locale: string -> real, acts: seq<Action>) {
    forall i :: 0 <= i < |acts| ==> !Ambiguous(Exec(Start(base, locale), acts[..i]), acts[i])
  }

  /** The commit a record stands for. */
  function Settled(r: Record): Option<Oid> {
    if r.prepared.Some? then Some(r.prepared.value.commit) else if r.status.RemoteVerified? then r.commit else None
  }

  /** Every push of the job carries the commit its record stands for, and a verified job is at rest. */
  ghost predicate OnceJob(s: Sys, j: nat) {
    && (forall p :: p in s.sent && p.job == j ==> j in s.disk && Settled(s.disk[j]) == Some(p.commit))
    && (j in s.pcs && s.pcs[j].Failing? && j in s.disk && s.disk[j].prepared.Some? ==> s.pcs[j].record == Some(s.disk[j]))
    && (j in s.disk && s.disk[j].status.RemoteVerified? ==> j !in s.pcs)
  }

  lemma {:induction false} OnceOthers(s: Sys, a: Action, j: nat)
    requires OnceJob(s, j) && (a.Land? || a.job != j)
    ensures OnceJob(Step(s, a), j)
  {
    if !a.Land? {
      hide Step, Settled;
      StepSends(s, a);
      StepLocal(s, a);
      var t := Step(s, a);
      assert OnDisk(t, j) == OnDisk(s, j);
      assert forall p :: p in t.sent && p.job == j ==> p in s.sent;
    }
  }

  lemma {:induction false} OnceSave(s: Sys, a: Action)
    requires a.Save? && OnceJob(s, a.job) && JobOk(s, a.job) && !Ambiguous(s, a)
    ensures OnceJob(Step(s, a), a.job)
  {
    hide PublicationOk;
  }

  lemma {:induction false} OnceFail(s: Sys, a: Action)
    requires a.Fail? && OnceJob(s, a.job) && JobOk(s, a.job)
    ensures OnceJob(Step(s, a), a.job)
  {
    hide PublicationOk, ShapeOk;
  }

  lemma {:induction false} OnceMove(s: Sys, a: Action)
    requires !a.Land? && !a.Save? && !a.Fail? && OnceJob(s, a.job) && JobOk(s, a.job)
    ensures OnceJob(Step(s, a), a.job)
  {
    hide PublicationOk, Matches, ShapeOk;
    StepSends(s, a);
  }

  lemma {:induction false} OnceStep(s: Sys, a: Action, j: nat)
    requires Inv(s) && OnceJob(s, j) && !Ambiguous(s, a)
    ensures OnceJob(Step(s, a), j)
  {
    JobSound(s, j);
    hide Step, Inv, JobOk, OnceJob;
    if a.Land? || a.job != j {
      OnceOthers(s, a, j);
    } else if a.Save? {
      OnceSave(s, a);
    } else if a.Fail? {
      OnceFail(s, a);
    } else {
      OnceMove(s, a);
    }
  }

  lemma {:induction false} OnceExec(base: Oid, locale: string -> real, acts: seq<Action>, j: nat)
    requires NeverAmbiguous(base, locale, acts)
    ensures OnceJob(Exec(Start(base, locale), acts), j)
  {
    if acts != [] {
      hide Step, Start, Inv, Ambiguous;
      var most := acts[..|acts| - 1];
      assert forall i :: 0 <= i < |most| ==> most[..i] == acts[..i];
      OnceExec(base, locale, most, j);
      InvExec(base, locale, most);
      OnceStep(Exec(Start(base, locale), most), acts[|acts| - 1], j);
    }
  }

  /** Without such a save, a job pushes at most one distinct commit, whatever crashes, retries or fences do. */
  lemma {:induction false} OneCommitPerJob(base: Oid, locale: string -> real, acts: seq<Action>, p: Push, q: Push)
    requires NeverAmbiguous(base, locale, acts) && p in Exec(Start(base, locale), acts).sent && q in Exec(Start(base, locale), acts).sent && p.job == q.job
    ensures p.commit == q.commit
  {
    hide Step, Start, NeverAmbiguous;
    OnceExec(base, locale, acts, p.job);
  }

  lemma {:induction false} VerifiedStep(s: Sys, a: Action, j: nat)
    requires j in s.disk && s.disk[j].status.RemoteVerified? && j !in s.pcs
    ensures j in Step(s, a).disk && Step(s, a).disk[j] == s.disk[j] && j !in Step(s, a).pcs
  {
    if !a.Land? && a.job != j {
      hide Step;
      StepLocal(s, a);
      assert OnDisk(Step(s, a), j) == OnDisk(s, j);
    }
  }

  /** Without such a save, a durable verification is final. */
  lemma {:induction false} VerifiedIsFinal(base: Oid, locale: string -> real, acts: seq<Action>, n: nat, j: nat)
    requires n <= |acts| && NeverAmbiguous(base, locale, acts[..n])
    requires j in Exec(Start(base, locale), acts[..n]).disk && Exec(Start(base, locale), acts[..n]).disk[j].status.RemoteVerified?
    ensures var s, t := Exec(Start(base, locale), acts[..n]), Exec(Start(base, locale), acts);
      j in t.disk && t.disk[j] == s.disk[j] && j !in t.pcs
    decreases |acts|
  {
    hide Step, Start, NeverAmbiguous;
    if n == |acts| {
      assert acts[..n] == acts;
      OnceExec(base, locale, acts, j);
    } else {
      var most := acts[..|acts| - 1];
      assert most[..n] == acts[..n];
      VerifiedIsFinal(base, locale, most, n, j);
      VerifiedStep(Exec(Start(base, locale), most), acts[|acts| - 1], j);
    }
  }

  /** The failure handler after a verification save: the verification stays on disk exactly unless it is overwritten. */
  lemma {:induction false} VerificationSurvives(s: Sys, j: nat, w: Write, error: string, v: Write)
    requires Inv(s) && j in s.pcs && s.pcs[j].SavingVerified?
    ensures var t := Step(Step(s, Save(j, w)), Fail(j, error, v));
      j in t.disk && (t.disk[j].status.RemoteVerified? <==> w.Landed? || (w.Late? && (v.Refused? || v.Lost?)))
  {
    hide PublicationOk;
    assert PcOk(s, j, s.pcs[j]);
  }

  // ---- an ambiguous save can end in a second commit ----

  /** A capture that will be prepared: some files, no path twice, sorted alike. */
  predicate Preparable(locale: string -> real, x: Snapshot) {
    x.items != [] && D.DistinctItems(x.items) && D.Verified(D.Sorted(locale, x.items))
  }

  /** A tick up to its push. */
  function PushingTick(j: nat, x: Snapshot, oid: Oid): seq<Action> {
    [Begin(j), Capture(j, Some(x)), Save(j, Landed), Prepare(j, Some(oid)), Save(j, Landed), Read(j, false), Send(j, true)]
  }

  /** The rest of a tick after its push, up to the verification save. */
  function ConfirmingTick(j: nat): seq<Action> { [Land(0), Return(j, true), Read(j, true), Release(j, true)] }

  /** The rest of a tick from an ambiguous save on, and the next tick up to its push. */
  function SecondTick(j: nat, w: Write, error: string, x: Snapshot, oid: Oid): seq<Action> {
    [Save(j, w), Fail(j, error, Landed)] + PushingTick(j, x, oid)
  }

  /** The job may start a capture. */
  predicate Captures(s: Sys, j: nat) {
    j !in s.pcs && (j in s.disk ==> s.disk[j].status.FailedVisible? && s.disk[j].prepared.None? && Loads(s.disk[j]))
  }

  lemma {:induction false} NewCapture(s: Sys, j: nat, x: Snapshot)
    requires Captures(s, j) && x.items != [] && D.DistinctItems(x.items)
    ensures var t := Step(Step(Step(s, Begin(j)), Capture(j, Some(x))), Save(j, Landed));
      && j in t.pcs && t.pcs[j].Preparing? && t.commits == s.commits && t.sent == s.sent && t.held == s.held
      && t.pcs[j].held.snapshot == Some(Snapshot(D.Sorted(s.locale, x.items), x.rest))
  {
    hide ShapeOk, D.Verified, D.DistinctItems, D.Sorted;
  }

  /** A job's process has pushed the commit it prepared, which carries its snapshot. */
  predicate Pushed(s: Sys, j: nat, oid: Oid) {
    && j in s.pcs && s.pcs[j].Pushing? && s.pcs[j].held.prepared.Some? && s.pcs[j].held.prepared.value.commit == oid
    && oid in s.commits && s.commits[oid].snapshot == s.pcs[j].held.snapshot
  }

  lemma {:induction false} NewPush(s: Sys, j: nat, oid: Oid)
    requires j in s.pcs && s.pcs[j].Preparing? && oid !in s.commits
    requires s.pcs[j].held.snapshot.Some? && D.Verified(s.pcs[j].held.snapshot.value.items)
    ensures var t := Step(Step(Step(Step(s, Prepare(j, Some(oid))), Save(j, Landed)), Read(j, false)), Send(j, true));
      && t.sent == s.sent + [Push(j, oid, Ref(s))] && t.held == s.held
      && Pushed(t, j, oid) && t.commits.Keys == s.commits.Keys + {oid}
  {
    hide D.Verified;
  }

  lemma {:induction false} NewTick(s: Sys, j: nat, x: Snapshot, oid: Oid)
    requires Captures(s, j) && Preparable(s.locale, x) && oid !in s.commits
    ensures var t := Exec(s, PushingTick(j, x, oid));
      && t.sent == s.sent + [Push(j, oid, Ref(s))] && t.held == s.held
      && Pushed(t, j, oid) && t.commits.Keys == s.commits.Keys + {oid}
  {
    hide Step, Captures, D.Verified, D.DistinctItems, D.Sorted;
    NewCapture(s, j, x);
    var s3 := Step(Step(Step(s, Begin(j)), Capture(j, Some(x))), Save(j, Landed));
    NewPush(s3, j, oid);
    ExecSeven(s, PushingTick(j, x, oid));
  }

  lemma {:induction false} OverwrittenVerification(s: Sys, j: nat, w: Write, error: string)
    requires Inv(s) && j in s.pcs && s.pcs[j].SavingVerified? && (w.Lost? || w.Late?)
    ensures var t := Step(Step(s, Save(j, w)), Fail(j, error, Landed));
      Captures(t, j) && j in t.disk && t.commits == s.commits && t.sent == s.sent && t.locale == s.locale
    ensures s.pcs[j].held.prepared.Some? && s.pcs[j].held.prepared.value.commit in s.commits
  {
    assert PcOk(s, j, s.pcs[j]);
    hide D.Verified, SnapshotOk;
  }

  /** From any point where a verification is being saved, an ambiguous save lets the job push a second commit. */
  lemma {:induction false} AmbiguityPushesAgain(s: Sys, j: nat, w: Write, error: string, x: Snapshot, oid: Oid)
    requires Inv(s) && j in s.pcs && s.pcs[j].SavingVerified? && (w.Lost? || w.Late?)
    requires oid !in s.commits && Preparable(s.locale, x)
    ensures var t := Exec(s, SecondTick(j, w, error, x, oid));
      |t.sent| == |s.sent| + 1 && s.sent <= t.sent && t.sent[|s.sent|].job == j && t.sent[|s.sent|].commit == oid
      && s.pcs[j].held.prepared.Some? && oid != s.pcs[j].held.prepared.value.commit
  {
    hide Step, Preparable, Captures, Inv;
    OverwrittenVerification(s, j, w, error);
    var acts := SecondTick(j, w, error, x, oid);
    var s2 := Exec(s, acts[..2]);
    assert acts[..2][..1] == acts[..1] && acts[..1][..0] == [];
    assert Exec(s, acts[..1]) == Step(s, Save(j, w));
    assert s2 == Step(Exec(s, acts[..1]), Fail(j, error, Landed));
    NewTick(s2, j, x, oid);
    ExecTail(s, acts, 2);
    assert acts[2..] == PushingTick(j, x, oid);
  }

  lemma {:induction false} LandAndReturn(s: Sys, j: nat, oid: Oid)
    requires s.sent == [Push(j, oid, None)] && s.held == [] && Pushed(s, j, oid)
    ensures var t := Step(Step(s, Land(0)), Return(j, true));
      t == s.(held := [oid], pcs := s.pcs[j := Confirming(s.pcs[j].held)])
  {
    var t := Step(s, Land(0));
    assert t.held == [oid] && oid in t.held;
  }

  lemma {:induction false} ReadAndRelease(s: Sys, j: nat, r: Record)
    requires j in s.pcs && s.pcs[j] == Confirming(r) && Matches(s, r)
    ensures var t := Step(Step(s, Read(j, true)), Release(j, true));
      t.sent == s.sent && t.commits == s.commits && t.locale == s.locale && j in t.pcs && t.pcs[j] == SavingVerified(r)
  {
    hide Matches;
  }

  /** A push that lands and is read back brings its job to the verification save. */
  lemma {:induction false} ConfirmingRuns(s: Sys, j: nat, oid: Oid)
    requires s.sent == [Push(j, oid, None)] && s.held == [] && Pushed(s, j, oid)
    ensures var t := Step(Step(Step(Step(s, Land(0)), Return(j, true)), Read(j, true)), Release(j, true));
      t.sent == s.sent && t.commits == s.commits && t.locale == s.locale && j in t.pcs && t.pcs[j] == SavingVerified(s.pcs[j].held)
  {
    hide Step;
    LandAndReturn(s, j, oid);
    ReadAndRelease(Step(Step(s, Land(0)), Return(j, true)), j, s.pcs[j].held);
  }

  lemma {:induction false} ExecFour(s: Sys, a: seq<Action>)
    requires |a| == 4
    ensures Exec(s, a) == Step(Step(Step(Step(s, a[0]), a[1]), a[2]), a[3])
  {
    hide Step;
    assert a[..3][..2] == a[..2] && a[..2][..1] == a[..1];
    assert Exec(s, a[..1]) == Step(s, a[0]);
    assert Exec(s, a[..2]) == Step(Exec(s, a[..1]), a[1]);
    assert Exec(s, a[..3]) == Step(Exec(s, a[..2]), a[2]);
  }

  /** The point where a verification is being saved is reached from the start, after one push. */
  lemma {:induction false} VerificationIsReached(base: Oid, locale: string -> real, j: nat, x: Snapshot, oid: Oid)
    requires Preparable(locale, x) && oid != base
    ensures var t := Exec(Start(base, locale), PushingTick(j, x, oid) + ConfirmingTick(j));
      && t.sent == [Push(j, oid, None)] && t.commits.Keys == {base, oid} && t.locale == locale
      && j in t.pcs && t.pcs[j].SavingVerified?
  {
    hide Step, Preparable;
    var s, first, last := Start(base, locale), PushingTick(j, x, oid), ConfirmingTick(j);
    NewTick(s, j, x, oid);
    var t := Exec(s, first);
    LocaleStays(base, locale, first);
    ConfirmingRuns(t, j, oid);
    ExecFour(t, last);
    ExecTail(s, first + last, 7);
    assert (first + last)[..7] == first && (first + last)[7..] == last;
  }

  /** From the start, one ambiguous save makes one job push two different commits. */
  lemma {:induction false} TwoCommitsForOneJob(base: Oid, locale: string -> real, j: nat, w: Write, error: string, x: Snapshot, y: Snapshot, a: Oid, b: Oid)
    requires Preparable(locale, x) && Preparable(locale, y) && (w.Lost? || w.Late?)
    requires a != base && b != base && a != b
    ensures var t := Exec(Start(base, locale), PushingTick(j, x, a) + ConfirmingTick(j) + SecondTick(j, w, error, y, b));
      |t.sent| == 2 && t.sent[0].job == j && t.sent[1].job == j && t.sent[0].commit == a && t.sent[1].commit == b
  {
    hide Step, Preparable, Start, PushingTick;
    var first, second := PushingTick(j, x, a) + ConfirmingTick(j), SecondTick(j, w, error, y, b);
    VerificationIsReached(base, locale, j, x, a);
    var s := Exec(Start(base, locale), first);
    InvExec(base, locale, first);
    AmbiguityPushesAgain(s, j, w, error, y, b);
    ExecTail(Start(base, locale), first + second, |first|);
    assert (first + second)[..|first|] == first && (first + second)[|first|..] == second;
  }

  lemma {:induction false} ExecSeven(s: Sys, a: seq<Action>)
    requires |a| == 7
    ensures Exec(s, a) == Step(Step(Step(Step(Step(Step(Step(s, a[0]), a[1]), a[2]), a[3]), a[4]), a[5]), a[6])
  {
    hide Step;
    assert a[..6][..5] == a[..5] && a[..5][..4] == a[..4] && a[..4][..3] == a[..3] && a[..3][..2] == a[..2] && a[..2][..1] == a[..1];
    assert Exec(s, a[..1]) == Step(s, a[0]);
    assert Exec(s, a[..2]) == Step(Exec(s, a[..1]), a[1]);
    assert Exec(s, a[..3]) == Step(Exec(s, a[..2]), a[2]);
    assert Exec(s, a[..4]) == Step(Exec(s, a[..3]), a[3]);
    assert Exec(s, a[..5]) == Step(Exec(s, a[..4]), a[4]);
    assert Exec(s, a[..6]) == Step(Exec(s, a[..5]), a[5]);
  }

  lemma {:induction false} ExecTail(s: Sys, acts: seq<Action>, n: nat)
    requires n <= |acts|
    ensures Exec(s, acts) == Exec(Exec(s, acts[..n]), acts[n..])
    decreases |acts|
  {
    hide Step;
    if n == |acts| {
      assert acts[..n] == acts;
    } else {
      var most := acts[..|acts| - 1];
      ExecTail(s, most, n);
      assert most[..n] == acts[..n] && acts[n..][..|acts| - n - 1] == most[n..];
    }
  }
}
