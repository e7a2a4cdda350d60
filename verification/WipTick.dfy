/**
 What one tick of a job comes to, said stage by stage over the states it passes through: which record it works on,
 what it prepares, whether it pushes, and when the remote confirms it.
 */
module WipTicks {
  import opened Prelude
  import opened WipJobs
  import D = WipDeltas

  /** How the outside world answers during one tick, and what others do before each of its steps. */
  datatype Weather = Weather(
    capture: Option<Snapshot>, captureSave: Write,
    oid: Option<Oid>, preparedSave: Write,
    firstRead: bool, sendAllowed: bool, returned: bool, secondRead: bool,
    released: bool, verifiedSave: Write,
    error: string, failSave: Write,
    others: nat -> seq<Action>)

  ghost predicate NotOf(acts: seq<Action>, j: nat) { forall a :: a in acts ==> a.Land? || a.job != j }

  /** The state once others have acted before the tick's step `n`. */
  ghost function Wait(s: Sys, w: Weather, n: nat): Sys { Exec(s, w.others(n)) }

  /** The record has no snapshot to go on with, or its attempt failed before anything was prepared. */
  predicate MustCapture(r: Option<Record>) {
    r.None? || r.value.snapshot.None? || (r.value.status == FailedVisible && r.value.prepared.None?)
  }

  /** The job's record lets an attempt begin: it loads and is not verified yet. */
  predicate Open(r: Option<Record>) { r.Some? ==> Loads(r.value) && r.value.status != RemoteVerified }

  /** A capture that found nothing to record. */
  predicate IsClean(capture: Option<Snapshot>) { capture.Some? && capture.value.items == [] }

  /** A capture that found files, no path twice. */
  predicate Found(capture: Option<Snapshot>) {
    capture.Some? && capture.value.items != [] && D.DistinctItems(capture.value.items)
  }

  /** A capture is not needed, or it finds files and its record is stored. */
  predicate CaptureWell(r: Option<Record>, w: Weather) { MustCapture(r) ==> Found(w.capture) && w.captureSave == Landed }

  /** The record once there is a snapshot: the captured files in the locale's order, the first failure kept. */
  function WithSnapshot(order: string -> real, r: Option<Record>, w: Weather): (c: Record)
    requires CaptureWell(r, w)
    ensures c.snapshot.Some?
  {
    if !MustCapture(r) then r.value
    else
      Record(Captured, Some(Snapshot(D.Sorted(order, w.capture.value.items), w.capture.value.rest)), None,
             if r.Some? then r.value.firstFailure else None, None)
  }

  /** The state in which the attempt begins. */
  function Begun(s: Sys, j: nat, r: Option<Record>): Sys {
    s.(pcs := s.pcs[j := if MustCapture(r) then Capturing(r)
                         else if r.value.prepared.None? then Preparing(r.value) else Reconciling(r.value)])
  }

  /** The state once the capture's record is stored. */
  ghost function CaptureSaved(s: Sys, j: nat, r: Option<Record>, w: Weather): Sys
    requires CaptureWell(r, w)
  {
    var c := WithSnapshot(s.locale, r, w);
    var t := Wait(s, w, 1);
    var u := Wait(t.(pcs := t.pcs[j := SavingCapture(r, c.snapshot.value)]), w, 2);
    u.(disk := u.disk[j := c], pcs := u.pcs[j := Preparing(c)])
  }

  ghost function AfterCapture(s: Sys, j: nat, r: Option<Record>, w: Weather): Sys
    requires CaptureWell(r, w)
  {
    if MustCapture(r) then CaptureSaved(Begun(s, j, r), j, r, w) else Begun(s, j, r)
  }

  /** The commit that carries `x` on what the ref holds now. */
  function Next(s: Sys, x: Snapshot): Commit { Commit(Some(Ref(s).GetOr(s.base)), Some(x)) }

  /**
   From state `s` the snapshot is prepared and recorded: its files pass verification, and the commit's identity names
   no other commit.
   */
  predicate CanPrepare(s: Sys, c: Record, w: Weather) {
    && w.oid.Some? && c.snapshot.Some? && D.Verified(c.snapshot.value.items)
    && (w.oid.value in s.commits ==> s.commits[w.oid.value] == Next(s, c.snapshot.value))
    && w.preparedSave == Landed
  }

  ghost predicate PrepareWell(s: Sys, c: Record, w: Weather) { c.prepared.None? ==> CanPrepare(Wait(s, w, 3), c, w) }

  /** The record once a commit is prepared: it is to be pushed over what the ref held then. */
  ghost function WithPrepared(s: Sys, c: Record, w: Weather): (p: Record)
    requires PrepareWell(s, c, w)
    ensures p.prepared.Some?
  {
    if c.prepared.Some? then c
    else Record(Prepared, c.snapshot, Some(Publication(w.oid.value, Ref(Wait(s, w, 3)), c.snapshot.value)), c.firstFailure, c.commit)
  }

  /** The state once the prepared commit's record is stored. */
  ghost function PrepareSaved(s: Sys, j: nat, c: Record, w: Weather): Sys
    requires PrepareWell(s, c, w) && c.prepared.None?
  {
    var p := WithPrepared(s, c, w);
    var t := Wait(s, w, 3);
    var u := Wait(t.(commits := t.commits[w.oid.value := Next(t, c.snapshot.value)],
                     pcs := t.pcs[j := SavingPrepared(c, p.prepared.value)]), w, 4);
    u.(disk := u.disk[j := p], pcs := u.pcs[j := Reconciling(p)])
  }

  /** The state in which the first read-back looks at the ref. */
  ghost function AtFirstRead(s: Sys, j: nat, c: Record, w: Weather): Sys
    requires PrepareWell(s, c, w)
  {
    Wait(if c.prepared.None? then PrepareSaved(s, j, c, w) else s, w, 5)
  }

  /** The ref is at the commit already, and the read-back says so. */
  predicate Already(s: Sys, c: Oid, w: Weather) { w.firstRead && Ref(s) == Some(c) }

  /** The push of what a record has prepared. */
  function PushOf(j: nat, r: Record): Push
    requires r.prepared.Some?
  {
    Push(j, r.prepared.value.commit, r.prepared.value.expected)
  }

  /** The state at the push's return, from the state in which publishing starts. */
  ghost function AtReturn(s: Sys, j: nat, r: Record, w: Weather): Sys
    requires r.prepared.Some?
  {
    var t := Wait(s, w, 6);
    Wait(t.(sent := t.sent + [PushOf(j, r)], pcs := t.pcs[j := Pushing(r)]), w, 7)
  }

  /** The state in which the second read-back looks at the ref. */
  ghost function AtSecondRead(s: Sys, j: nat, r: Record, w: Weather): Sys
    requires r.prepared.Some?
  {
    var t := AtReturn(s, j, r, w);
    Wait(t.(pcs := t.pcs[j := Confirming(r)]), w, 8)
  }

  /** The push is allowed, has landed when it returns, and the ref is at its commit when it is read back. */
  ghost predicate Confirmed(s: Sys, j: nat, r: Record, w: Weather)
    requires r.prepared.Some?
  {
    && w.sendAllowed && w.returned && r.prepared.value.commit in AtReturn(s, j, r, w).held
    && w.secondRead && Ref(AtSecondRead(s, j, r, w)) == Some(r.prepared.value.commit)
  }

  /** From its first read-back on: the ref holds the commit, at once or by the job's own push, and both last steps go well. */
  ghost predicate PublishWell(s: Sys, j: nat, r: Record, w: Weather)
    requires r.prepared.Some?
  {
    && (Already(s, r.prepared.value.commit, w) || Confirmed(s.(pcs := s.pcs[j := Publishing(r)]), j, r, w))
    && w.released && w.verifiedSave == Landed
  }

  /** An attempt that begins in state `s` gets as far as its first read-back. */
  ghost predicate Prepares(s: Sys, j: nat, r: Option<Record>, w: Weather) {
    CaptureWell(r, w) && PrepareWell(AfterCapture(s, j, r, w), WithSnapshot(s.locale, r, w), w)
  }

  /** The record it then works on. */
  ghost function Working(s: Sys, j: nat, r: Option<Record>, w: Weather): (p: Record)
    requires Prepares(s, j, r, w)
    ensures p.prepared.Some?
  {
    WithPrepared(AfterCapture(s, j, r, w), WithSnapshot(s.locale, r, w), w)
  }

  ghost function FirstRead(s: Sys, j: nat, r: Option<Record>, w: Weather): Sys
    requires Prepares(s, j, r, w)
  {
    AtFirstRead(AfterCapture(s, j, r, w), j, WithSnapshot(s.locale, r, w), w)
  }

  /** The attempt ends with the commit verified on the remote. */
  ghost predicate Succeeds(s: Sys, j: nat, r: Option<Record>, w: Weather) {
    Prepares(s, j, r, w) && PublishWell(FirstRead(s, j, r, w), j, Working(s, j, r, w), w)
  }

  /** An attempt begins, has something to publish or fails to find out, and does not get its commit verified. */
  ghost predicate FallsShort(s: Sys, j: nat, r: Option<Record>, w: Weather) {
    Open(r) && !(MustCapture(r) && IsClean(w.capture)) && !Succeeds(s, j, r, w)
  }

  /** The attempt issues a push. */
  ghost predicate Pushes(s: Sys, j: nat, r: Option<Record>, w: Weather) {
    && Prepares(s, j, r, w)
    && !Already(FirstRead(s, j, r, w), Working(s, j, r, w).prepared.value.commit, w)
    && w.sendAllowed
  }

  /** The pushes a job has issued. */
  function Own(sent: seq<Push>, j: nat): seq<Push> {
    if sent == [] then []
    else
      var p := sent[|sent| - 1];
      Own(sent[..|sent| - 1], j) + if p.job == j then [p] else []
  }

  lemma {:induction false} OwnSnoc(sent: seq<Push>, p: Push, j: nat)
    ensures Own(sent + [p], j) == Own(sent, j) + if p.job == j then [p] else []
  {
    assert (sent + [p])[..|sent + [p]| - 1] == sent;
  }

  /** The pushes an attempt adds. */
  ghost function Added(s: Sys, j: nat, r: Option<Record>, w: Weather): seq<Push> {
    if Pushes(s, j, r, w) then
      var p := Working(s, j, r, w).prepared.value;
      [Push(j, p.commit, p.expected)]
    else []
  }

  /** A process lost at any step leaves all else as it is, and the job's next attempt begins from the durable record alone. */
  lemma {:induction false} CrashedJobStartsOver(s: Sys, j: nat)
    requires Open(OnDisk(s, j))
    ensures Exec(s, [Crash(j)]) == s.(pcs := s.pcs - {j})
    ensures Exec(s, [Crash(j), Begin(j)]) == Begun(s, j, OnDisk(s, j))
  {
    hide Loads;
    ExecOne(s, Crash(j));
    assert [Crash(j), Begin(j)][..1] == [Crash(j)];
    var t := s.(pcs := s.pcs - {j});
    assert t.pcs[j := Begun(s, j, OnDisk(s, j)).pcs[j]] == Begun(s, j, OnDisk(s, j)).pcs;
    assert Step(t, Begin(j)) == Begun(s, j, OnDisk(s, j));
  }

  // ---- a tick nobody disturbs ----

  /** Everything the tick asks for goes well, nobody else acts, and its push lands before it returns. */
  ghost predicate Calm(s: Sys, w: Weather) {
    && Found(w.capture) && D.Verified(D.Sorted(s.locale, w.capture.value.items))
    && w.oid.Some? && w.oid.value !in s.commits
    && w.captureSave == Landed && w.preparedSave == Landed && w.verifiedSave == Landed
    && w.sendAllowed && w.returned && w.secondRead && w.released
    && forall n :: w.others(n) == if n == 7 then [Land(|s.sent|)] else []
  }

  /** Then an attempt that has to capture pushes once, over what the ref holds, and is verified. */
  lemma {:induction false} CalmAttemptSucceeds(s: Sys, j: nat, r: Option<Record>, w: Weather)
    requires Chained(s) && MustCapture(r) && Calm(s, w)
    ensures Succeeds(s, j, r, w) && Added(s, j, r, w) == [Push(j, w.oid.value, Ref(s))]
    ensures Working(s, j, r, w).snapshot == Some(Snapshot(D.Sorted(s.locale, w.capture.value.items), w.capture.value.rest))
  {
    hide D.Verified, D.Sorted, D.DistinctItems, Loads;
    var c := WithSnapshot(s.locale, r, w);
    var t := AfterCapture(s, j, r, w);
    assert t.held == s.held && t.commits == s.commits && t.sent == s.sent && t.base == s.base;
    var p := WithPrepared(t, c, w);
    var u := AtFirstRead(t, j, c, w);
    assert u.held == s.held && u.sent == s.sent && u.commits == s.commits[w.oid.value := Next(s, c.snapshot.value)];
    assert Ref(u) != Some(w.oid.value);
    CalmPushConfirms(u.(pcs := u.pcs[j := Publishing(p)]), j, p, w);
  }

  lemma {:induction false} ExecOne(s: Sys, a: Action)
    ensures Exec(s, [a]) == Step(s, a)
  {
    hide Step;
    assert [a][..0] == [];
    assert Exec(s, []) == s;
  }

  lemma {:induction false} CalmPushConfirms(s: Sys, j: nat, r: Record, w: Weather)
    requires r.prepared.Some? && r.prepared.value.expected == Ref(s)
    requires w.sendAllowed && w.returned && w.secondRead
    requires forall n :: w.others(n) == if n == 7 then [Land(|s.sent|)] else []
    ensures Confirmed(s, j, r, w)
  {
    var t := s.(sent := s.sent + [PushOf(j, r)], pcs := s.pcs[j := Pushing(r)]);
    assert Ref(t) == Ref(s) && t.sent[|s.sent|] == PushOf(j, r);
    ExecOne(t, Land(|s.sent|));
    assert Wait(s, w, 6) == s;
    assert AtReturn(s, j, r, w) == Exec(t, w.others(7));
    assert AtReturn(s, j, r, w) == Step(t, Land(|s.sent|));
    assert AtReturn(s, j, r, w).held == s.held + [r.prepared.value.commit];
  }
}
