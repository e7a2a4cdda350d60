/**
 The file checkpoint store (src/autonomy/project_checkpoint_store.ts): one run's directory of a published
 snapshot and revision markers, changed by any number of savers one filesystem call at a time — link the
 marker, rename over the snapshot, unlink the previous marker — any of which may stop in between.
 */
module FileCheckpointStores {
  import opened Prelude

  datatype Record = Record(revision: nat, data: string)

  datatype Name = Published | Marker(revision: nat)

  datatype LoadResult = Absent | Loaded(record: Record) | Conflicting(revision: nat)

  /** A save in progress: its checks passed, its marker is linked, its snapshot is published. */
  datatype Saver =
    | Ready(next: Record, expected: Option<nat>)
    | Linked(next: Record, expected: Option<nat>)
    | Renamed(next: Record, expected: Option<nat>)

  /**
   The directory and the savers at work. The rest is history: the first record linked at each revision,
   the records linked at a revision that had one already, and the records whose save returned normally.
   */
  datatype Store = Store(dir: map<Name, Record>, savers: map<nat, Saver>,
                         committed: seq<Record>, late: set<Record>, claimed: seq<Record>)

  const EMPTY: Store := Store(map[], map[], [], {}, [])

  datatype Action =
    | Open(p: nat, next: Record, expected: Option<nat>)   // load, then check the revision; what was loaded may be behind
    | Link(p: nat)
    | Rename(p: nat)
    | Unlink(p: nat, removed: bool)   // a marker that could not be removed stays, and the save returns all the same
    | Crash(p: nat)

  // ---- load ----

  /** A record of the highest revision among the candidates. */
  function Newest(cands: seq<Record>): (r: Record)
    requires cands != []
    ensures r in cands
    ensures forall c :: c in cands ==> c.revision <= r.revision
  {
    if |cands| == 1 then cands[0]
    else
      var r := Newest(cands[1..]);
      if cands[0].revision >= r.revision then cands[0] else r
  }

  /** What load answers for the candidates one directory read delivered. */
  function LoadFrom(cands: seq<Record>): (r: LoadResult)
    ensures r == Absent <==> cands == []
    ensures r.Loaded? ==> r.record in cands && forall c :: c in cands ==> c.revision < r.record.revision || c == r.record
    ensures r.Conflicting? ==>
      && (exists c, d :: c in cands && d in cands && c != d && c.revision == d.revision == r.revision)
      && (forall c :: c in cands ==> c.revision <= r.revision)
  {
    if cands == [] then Absent
    else
      var latest := Newest(cands);
      if exists i :: 0 <= i < |cands| && cands[i].revision == latest.revision && cands[i] != latest
      then Conflicting(latest.revision) else Loaded(latest)
  }

  /** The candidates are the records of the directory, in some order. */
  ghost predicate Lists(cands: seq<Record>, dir: map<Name, Record>) {
    forall c :: c in cands <==> c in dir.Values
  }

  /** The newest revision of the directory, found without reading order. */
  function Current(s: Store): Option<nat> {
    if s.committed == [] then None else Some(|s.committed| - 1)
  }

  // ---- the steps of save ----

  function Drop(s: Store, p: nat): Store { s.(savers := s.savers - {p}) }

  function RequiredRevision(expected: Option<nat>): nat {
    if expected.Some? then expected.value + 1 else 0
  }

  /** The store right after a link: at the next revision it commits the record, at an older one the record is late. */
  function AfterLink(s: Store, p: nat): Store
    requires p in s.savers && s.savers[p].Ready?
  {
    var next := s.savers[p].next;
    s.(dir := s.dir[Marker(next.revision) := next],
       savers := s.savers[p := Linked(next, s.savers[p].expected)],
       committed := if next.revision == |s.committed| then s.committed + [next] else s.committed,
       late := if next.revision == |s.committed| then s.late else s.late + {next})
  }

  /** One filesystem call; an action that is not enabled changes nothing. */
  function Step(s: Store, a: Action): Store {
    match a
    case Open(p, next, expected) =>
      if p !in s.savers && next.revision == RequiredRevision(expected) <= |s.committed|
      then s.(savers := s.savers[p := Ready(next, expected)]) else s
    case Link(p) =>
      if p in s.savers && s.savers[p].Ready? then
        var next := s.savers[p].next;
        if Marker(next.revision) in s.dir then Drop(s, p) else AfterLink(s, p)
      else s
    case Rename(p) =>
      if p in s.savers && s.savers[p].Linked? then
        s.(dir := s.dir[Published := s.savers[p].next], savers := s.savers[p := Renamed(s.savers[p].next, s.savers[p].expected)])
      else s
    case Unlink(p, removed) =>
      if p in s.savers && s.savers[p].Renamed? then
        s.(dir := if removed && s.savers[p].expected.Some? then s.dir - {Marker(s.savers[p].expected.value)} else s.dir,
           savers := s.savers - {p}, claimed := s.claimed + [s.savers[p].next])
      else s
    case Crash(p) => Drop(s, p)
  }

  function Exec(s: Store, actions: seq<Action>): Store
    decreases |actions|
  {
    if actions == [] then s else Exec(Step(s, actions[0]), actions[1..])
  }

  // ---- the invariant ----

  function Top(s: Store): Record
    requires s.committed != []
  {
    s.committed[|s.committed| - 1]
  }

  /** A directory entry is genuine, names its own revision and never disagrees with the newest record. */
  predicate EntryOk(s: Store, n: Name)
    requires n in s.dir
  {
    && Genuine(s, s.dir[n])
    && (n.Marker? ==> s.dir[n].revision == n.revision)
    && (s.dir[n].revision == |s.committed| - 1 ==> s.dir[n] == Top(s))
  }

  predicate SaverOk(s: Store, x: Saver) {
    && x.next.revision == RequiredRevision(x.expected)
    && x.next.revision <= |s.committed|
    && (!x.Ready? ==> Genuine(s, x.next) && (x.next.revision == |s.committed| - 1 ==> x.next == Top(s)))
  }

  /** The record is the content of its revision, or came late to one that had a content already. */
  predicate Genuine(s: Store, r: Record) {
    r.revision < |s.committed| && (s.committed[r.revision] == r || r in s.late)
  }

  predicate Inv(s: Store) {
    && (forall i :: 0 <= i < |s.committed| ==> s.committed[i].revision == i)
    && (s.committed != [] ==> Marker(|s.committed| - 1) in s.dir)
    && (forall n :: n in s.dir ==> EntryOk(s, n))
    && (forall p :: p in s.savers ==> SaverOk(s, s.savers[p]))
    && (forall c :: c in s.claimed ==> Genuine(s, c))
  }

  lemma {:induction false} LinkKeepsGenuine(s: Store, p: nat, r: Record)
    requires p in s.savers && s.savers[p].Ready? && Genuine(s, r)
    ensures Genuine(AfterLink(s, p), r)
  {
  }

  lemma {:induction false} LinkEntry(s: Store, p: nat, n: Name)
    requires Inv(s) && p in s.savers && s.savers[p].Ready? && Marker(s.savers[p].next.revision) !in s.dir
    requires n in AfterLink(s, p).dir
    ensures EntryOk(AfterLink(s, p), n)
  {
    assert SaverOk(s, s.savers[p]);
    if n != Marker(s.savers[p].next.revision) {
      assert EntryOk(s, n);
      LinkKeepsGenuine(s, p, s.dir[n]);
    }
    if s.committed != [] {
      assert Marker(|s.committed| - 1) in s.dir;
    }
    hide Inv;
  }

  lemma {:induction false} LinkSaver(s: Store, p: nat, q: nat)
    requires Inv(s) && p in s.savers && s.savers[p].Ready? && Marker(s.savers[p].next.revision) !in s.dir && q in s.savers
    ensures SaverOk(AfterLink(s, p), AfterLink(s, p).savers[q])
  {
    assert SaverOk(s, s.savers[p]) && SaverOk(s, s.savers[q]);
    if s.committed != [] {
      assert Marker(|s.committed| - 1) in s.dir;
    }
    hide Inv;
    if !s.savers[q].Ready? {
      LinkKeepsGenuine(s, p, s.savers[q].next);
    }
  }

  lemma {:induction false} InvLink(s: Store, p: nat)
    requires Inv(s) && p in s.savers && s.savers[p].Ready?
    ensures Inv(Step(s, Link(p)))
  {
    var t := Step(s, Link(p));
    assert SaverOk(s, s.savers[p]);
    if Marker(s.savers[p].next.revision) !in s.dir {
      assert t == AfterLink(s, p);
      hide EntryOk, SaverOk, Genuine;
      forall n | n in t.dir ensures EntryOk(t, n) {
        LinkEntry(s, p, n);
      }
      forall q | q in t.savers ensures SaverOk(t, t.savers[q]) {
        LinkSaver(s, p, q);
      }
      forall c | c in t.claimed ensures Genuine(t, c) {
        LinkKeepsGenuine(s, p, c);
      }
    }
  }

  lemma {:induction false} InvRename(s: Store, p: nat)
    requires Inv(s) && p in s.savers && s.savers[p].Linked?
    ensures Inv(Step(s, Rename(p)))
  {
    var t := Step(s, Rename(p));
    assert SaverOk(s, s.savers[p]);
    forall n | n in t.dir ensures EntryOk(t, n) {
      if n != Published {
        assert EntryOk(s, n);
      }
    }
  }

  lemma {:induction false} InvUnlink(s: Store, p: nat, removed: bool)
    requires Inv(s) && p in s.savers && s.savers[p].Renamed?
    ensures Inv(Step(s, Unlink(p, removed)))
  {
    var t := Step(s, Unlink(p, removed));
    assert SaverOk(s, s.savers[p]);
    forall n | n in t.dir ensures EntryOk(t, n) {
      assert EntryOk(s, n);
    }
  }

  lemma {:induction false} InvOpen(s: Store, p: nat, next: Record, expected: Option<nat>)
    requires Inv(s)
    ensures Inv(Step(s, Open(p, next, expected)))
  {
    var t := Step(s, Open(p, next, expected));
    forall q | q in t.savers ensures SaverOk(t, t.savers[q]) {
      if q in s.savers {
        assert SaverOk(s, s.savers[q]);
      }
    }
    forall n | n in t.dir ensures EntryOk(t, n) {
      assert EntryOk(s, n);
    }
  }

  lemma {:induction false} InvStep(s: Store, a: Action)
    requires Inv(s)
    ensures Inv(Step(s, a))
  {
    match a {
      case Link(p) => if p in s.savers && s.savers[p].Ready? { InvLink(s, p); }
      case Rename(p) => if p in s.savers && s.savers[p].Linked? { InvRename(s, p); }
      case Unlink(p, removed) => if p in s.savers && s.savers[p].Renamed? { InvUnlink(s, p, removed); }
      case Open(p, next, expected) => InvOpen(s, p, next, expected);
      case Crash(p) =>
    }
  }

  lemma {:induction false} InvExec(s: Store, actions: seq<Action>)
    requires Inv(s)
    ensures Inv(Exec(s, actions))
    decreases |actions|
  {
    if actions != [] {
      InvStep(s, actions[0]);
      InvExec(Step(s, actions[0]), actions[1..]);
    }
  }

  // ---- what every interleaving guarantees ----

  lemma {:induction false} FirstListed(cands: seq<Record>)
    requires cands != []
    ensures cands[0] in cands
  {
  }

  /** However the candidates are listed, load finds the newest committed record and never a conflict. */
  lemma {:induction false} LoadFindsTop(s: Store, cands: seq<Record>)
    requires Inv(s) && Lists(cands, s.dir)
    ensures LoadFrom(cands) == if s.committed == [] then Absent else Loaded(Top(s))
  {
    if s.committed == [] {
      assert s.dir.Values == {};
      if cands != [] {
        FirstListed(cands);
        assert false;
      }
    } else {
      var m := Marker(|s.committed| - 1);
      assert EntryOk(s, m) && s.dir[m] in s.dir.Values;
      forall c | c in cands ensures c.revision <= |s.committed| - 1 && (c.revision == |s.committed| - 1 ==> c == Top(s)) {
        var n :| n in s.dir && s.dir[n] == c;
        assert EntryOk(s, n);
      }
      assert Top(s) in cands;
    }
  }

  /** The committed history only grows, one revision at a time. */
  lemma {:induction false} HistoryGrows(s: Store, actions: seq<Action>)
    ensures s.committed <= Exec(s, actions).committed
    decreases |actions|
  {
    if actions != [] {
      HistoryGrows(Step(s, actions[0]), actions[1..]);
    }
  }

  /**
   From an empty directory, under any interleaving and any crashes: load never reports a conflict, what it
   reports never goes back to an older revision, and a revision that is reported twice is reported the same.
   */
  lemma {:induction false} LoadsAreMonotone(before: seq<Action>, after: seq<Action>, cands: seq<Record>, later: seq<Record>)
    requires Lists(cands, Exec(EMPTY, before).dir)
    requires Lists(later, Exec(Exec(EMPTY, before), after).dir)
    ensures !LoadFrom(cands).Conflicting? && !LoadFrom(later).Conflicting?
    ensures LoadFrom(cands).Loaded? ==>
      && LoadFrom(later).Loaded? && LoadFrom(cands).record.revision <= LoadFrom(later).record.revision
      && (LoadFrom(cands).record.revision == LoadFrom(later).record.revision ==> LoadFrom(cands) == LoadFrom(later))
  {
    var s := Exec(EMPTY, before);
    var t := Exec(s, after);
    InvExec(EMPTY, before);
    InvExec(s, after);
    LoadFindsTop(s, cands);
    LoadFindsTop(t, later);
    HistoryGrows(s, after);
  }

  /** The marker of the newest committed revision is never missing. */
  lemma {:induction false} NewestMarkerSurvives(actions: seq<Action>)
    ensures var s := Exec(EMPTY, actions);
      s.committed != [] ==> Marker(|s.committed| - 1) in s.dir && s.dir[Marker(|s.committed| - 1)] == Top(s)
  {
    InvExec(EMPTY, actions);
    var s := Exec(EMPTY, actions);
    if s.committed != [] {
      assert EntryOk(s, Marker(|s.committed| - 1));
    }
  }

  // ---- one success per revision: exactly when no link came late ----

  /** A successful link takes effect exactly when its expected revision was still the loadable one. */
  lemma {:induction false} LinkTakesEffect(s: Store, p: nat, cands: seq<Record>)
    requires Inv(s) && p in s.savers && s.savers[p].Ready? && Marker(s.savers[p].next.revision) !in s.dir
    requires Lists(cands, Step(s, Link(p)).dir)
    ensures LoadFrom(cands) == Loaded(s.savers[p].next) <==> Current(s) == s.savers[p].expected
    ensures s.savers[p].next in Step(s, Link(p)).late <==> Current(s) != s.savers[p].expected || s.savers[p].next in s.late
  {
    var next := s.savers[p].next;
    assert SaverOk(s, s.savers[p]);
    InvStep(s, Link(p));
    LoadFindsTop(Step(s, Link(p)), cands);
  }

  /** While no link has come late, every save that returned normally stored the one content of its revision. */
  lemma {:induction false} SuccessfulSavesAreCommitted(actions: seq<Action>, i: nat)
    ensures var s := Exec(EMPTY, actions);
      s.late == {} && i < |s.claimed| ==>
        s.claimed[i].revision < |s.committed| && s.committed[s.claimed[i].revision] == s.claimed[i]
  {
    var s := Exec(EMPTY, actions);
    InvExec(EMPTY, actions);
    if i < |s.claimed| {
      assert s.claimed[i] in s.claimed && Genuine(s, s.claimed[i]);
    }
  }

  /** All four calls of a save, uninterrupted. */
  function SaveSteps(p: nat, next: Record, expected: Option<nat>): seq<Action> {
    [Open(p, next, expected), Link(p), Rename(p), Unlink(p, true)]
  }

  lemma {:induction false} ExecConcat(s: Store, a: seq<Action>, b: seq<Action>)
    ensures Exec(s, a + b) == Exec(Exec(s, a), b)
    decreases |a|
  {
    if a == [] {
      assert a + b == b;
    } else {
      assert (a + b)[0] == a[0] && (a + b)[1..] == a[1..] + b;
      ExecConcat(Step(s, a[0]), a[1..], b);
    }
  }

  lemma {:induction false} SaveRuns(s: Store, p: nat, next: Record, expected: Option<nat>)
    requires Inv(s) && p !in s.savers && Current(s) == expected && next.revision == RequiredRevision(expected)
    ensures var t := Exec(s, SaveSteps(p, next, expected));
      && t.savers == s.savers && t.committed == s.committed + [next] && t.claimed == s.claimed + [next] && t.late == s.late
      && t.dir == (if expected.Some? then s.dir - {Marker(expected.value)} else s.dir)
                  [Marker(next.revision) := next][Published := next]
  {
    assert Marker(next.revision) in s.dir ==> EntryOk(s, Marker(next.revision));
    ExecFour(s, Open(p, next, expected), Link(p), Rename(p), Unlink(p, true));
    hide Exec, Inv, EntryOk;
  }

  lemma {:induction false} ExecFour(s: Store, a: Action, b: Action, c: Action, d: Action)
    ensures Exec(s, [a, b, c, d]) == Step(Step(Step(Step(s, a), b), c), d)
  {
    hide Step;
    var s1 := Step(s, a);
    var s2 := Step(s1, b);
    var s3 := Step(s2, c);
    assert [a, b, c, d][1..] == [b, c, d] && [b, c, d][1..] == [c, d] && [c, d][1..] == [d] && [d][1..] == [];
    assert Exec(s3, [d]) == Exec(Step(s3, d), []);
    assert Exec(s2, [c, d]) == Exec(s3, [d]);
    assert Exec(s1, [b, c, d]) == Exec(s2, [c, d]);
  }

  /** The saver that was checked first and acts last: its three calls. */
  function Finish(p: nat): seq<Action> { [Link(p), Rename(p), Unlink(p, true)] }

  lemma {:induction false} FinishRuns(s: Store, p: nat)
    requires p in s.savers && s.savers[p].Ready? && Marker(s.savers[p].next.revision) !in s.dir
    ensures Exec(s, Finish(p)).claimed == s.claimed + [s.savers[p].next]
  {
    assert Finish(p)[1..] == [Rename(p), Unlink(p, true)] && [Rename(p), Unlink(p, true)][1..] == [Unlink(p, true)] && [Unlink(p, true)][1..] == [];
    var s1 := Step(s, Link(p));
    var s2 := Step(s1, Rename(p));
    assert Exec(s2, [Unlink(p, true)]) == Exec(Step(s2, Unlink(p, true)), []);
    assert Exec(s1, [Rename(p), Unlink(p, true)]) == Exec(s2, [Unlink(p, true)]);
  }

  /** Two whole saves by one process, of revisions `r` and `r + 1`, remove the marker of revision `r`. */
  lemma {:induction false} TwoSavesRetire(s: Store, p: nat, x: Record, z: Record)
    requires Inv(s) && p !in s.savers && s.committed != []
    requires x.revision == |s.committed| && z.revision == |s.committed| + 1
    ensures var t := Exec(Exec(s, SaveSteps(p, x, Current(s))), SaveSteps(p, z, Some(x.revision)));
      t.savers == s.savers && t.claimed == s.claimed + [x, z] && Marker(x.revision) !in t.dir
  {
    SaveRuns(s, p, x, Current(s));
    InvExec(s, SaveSteps(p, x, Current(s)));
    var s1 := Exec(s, SaveSteps(p, x, Current(s)));
    SaveRuns(s1, p, z, Some(x.revision));
  }

  /**
   Two different saves of one revision can both return normally, from any store that holds a revision: a saver
   that was checked before the next revision existed links after the save of the revision beyond has removed
   the marker that would have stopped it.
   */
  lemma {:induction false} LateLinkSucceeds(s: Store, x: Record, y: Record, z: Record) returns (actions: seq<Action>)
    requires Inv(s) && s.savers == map[] && s.committed != []
    requires x.revision == y.revision == |s.committed| && x != y && z.revision == |s.committed| + 1
    ensures Exec(s, actions).claimed == s.claimed + [x, z, y]
  {
    hide Exec, SaveSteps, Finish;
    var open := [Open(0, y, Current(s))];
    var s1 := Exec(s, open);
    OpenRuns(s, 0, y);
    InvExec(s, open);
    var first, second := SaveSteps(1, x, Current(s)), SaveSteps(1, z, Some(x.revision));
    TwoSavesRetire(s1, 1, x, z);
    var s3 := Exec(Exec(s1, first), second);
    FinishRuns(s3, 0);
    actions := open + first + second + Finish(0);
    ExecConcat(s, open, first);
    ExecConcat(s, open + first, second);
    ExecConcat(s, open + first + second, Finish(0));
    assert s.claimed + [x, z] + [y] == s.claimed + [x, z, y];
  }

  lemma {:induction false} OpenRuns(s: Store, p: nat, y: Record)
    requires p !in s.savers && y.revision == RequiredRevision(Current(s))
    ensures Exec(s, [Open(p, y, Current(s))]) == s.(savers := s.savers[p := Ready(y, Current(s))])
  {
    assert [Open(p, y, Current(s))][1..] == [];
  }
}
