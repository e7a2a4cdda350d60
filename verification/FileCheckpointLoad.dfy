/**
 Loading from the directory while others change it (src/autonomy/project_checkpoint_store.ts): a load lists the names at
 one moment and opens the files one after the other, so its answer need not be the directory's at any moment.
 */
module FileCheckpointLoads {
  import opened Prelude
  import opened FileCheckpointStores

  /** The names of the directory, in some order. */
  ghost predicate Names(names: seq<Name>, dir: map<Name, Record>) { forall n :: n in names <==> n in dir }

  /** What a load reads when `acts[i]` happen before it opens the `i`-th name; a file that is gone is passed over. */
  function SlowReads(s: Store, names: seq<Name>, acts: seq<seq<Action>>): (r: (seq<Record>, Store))
    requires |acts| == |names|
  {
    if names == [] then ([], s)
    else
      var k := |names| - 1;
      var (cands, t) := SlowReads(s, names[..k], acts[..k]);
      var u := Exec(t, acts[k]);
      (cands + (if names[k] in u.dir then [u.dir[names[k]]] else []), u)
  }

  lemma {:induction false} SlowReadsLast(s: Store, names: seq<Name>, acts: seq<seq<Action>>)
    requires |acts| == |names| > 0
    ensures var k := |names| - 1;
      var (cands, t) := SlowReads(s, names[..k], acts[..k]);
      var u := Exec(t, acts[k]);
      SlowReads(s, names, acts) == (cands + (if names[k] in u.dir then [u.dir[names[k]]] else []), u)
  {
  }

  /** Nothing that was committed, came late or was claimed is ever lost. */
  ghost predicate Extends(s: Store, t: Store) {
    s.committed <= t.committed && s.late <= t.late && s.claimed <= t.claimed
  }

  lemma {:induction false} ExecExtends(s: Store, actions: seq<Action>)
    ensures Extends(s, Exec(s, actions))
    decreases |actions|
  {
    if actions != [] {
      ExecExtends(Step(s, actions[0]), actions[1..]);
      StepExtends(s, actions[0]);
      hide Step;
    }
  }

  lemma {:induction false} StepExtends(s: Store, a: Action)
    ensures Extends(s, Step(s, a))
  {
  }

  lemma {:induction false} GenuineStays(s: Store, t: Store, r: Record)
    requires Extends(s, t) && Genuine(s, r)
    ensures Genuine(t, r)
  {
  }

  lemma {:induction false} EntryGenuine(s: Store, n: Name)
    requires Inv(s) && n in s.dir
    ensures Genuine(s, s.dir[n]) && (s.dir[n].revision == |s.committed| - 1 ==> s.dir[n] == Top(s))
  {
    assert EntryOk(s, n);
  }

  // ---- what a load in the middle of other work can answer ----

  /** Everything a load reads was genuine when it was read, and still is when the load is done. */
  lemma {:induction false} SlowReadsGenuine(s: Store, names: seq<Name>, acts: seq<seq<Action>>)
    requires |acts| == |names| && Inv(s)
    ensures var (cands, t) := SlowReads(s, names, acts);
      Inv(t) && Extends(s, t) && forall c :: c in cands ==> Genuine(t, c)
  {
    hide Inv, Exec, Genuine;
    if names != [] {
      var k := |names| - 1;
      SlowReadsGenuine(s, names[..k], acts[..k]);
      var (cands, t) := SlowReads(s, names[..k], acts[..k]);
      var u := Exec(t, acts[k]);
      InvExec(t, acts[k]);
      ExecExtends(t, acts[k]);
      forall c | c in cands ensures Genuine(u, c) {
        GenuineStays(t, u, c);
      }
      if names[k] in u.dir {
        EntryGenuine(u, names[k]);
      }
    }
  }

  lemma {:induction false} LoadFromReads(cands: seq<Record>)
    ensures match LoadFrom(cands)
      case Absent => cands == []
      case Loaded(r) => r in cands && forall c :: c in cands ==> c.revision < r.revision || c == r
      case Conflicting(n) => exists c, d :: c in cands && d in cands && c.revision == d.revision && c != d
  {
    if cands != [] {
      var latest := Newest(cands);
      if i :| 0 <= i < |cands| && cands[i].revision == latest.revision && cands[i] != latest {
        assert cands[i] in cands;
      }
    }
  }

  /**
   Whatever happens while a load goes through its files, what it returns was linked at its revision; and while no link
   has come late, it is the one content of its revision and the load never reports a conflict.
   */
  lemma {:induction false} SlowLoadIsCommitted(s: Store, names: seq<Name>, acts: seq<seq<Action>>)
    requires |acts| == |names| && Inv(s)
    ensures var (cands, t) := SlowReads(s, names, acts); var r := LoadFrom(cands);
      && (r.Loaded? ==> Genuine(t, r.record))
      && (t.late == {} ==> !r.Conflicting? && (r.Loaded? ==> t.committed[r.record.revision] == r.record))
  {
    SlowReadsGenuine(s, names, acts);
    var (cands, t) := SlowReads(s, names, acts);
    LoadFromReads(cands);
    hide SlowReads, Inv, LoadFrom;
  }

  /** Every candidate is older than the newest record or is it, and is it if its marker is among the names. */
  ghost predicate Quiet(cands: seq<Record>, names: seq<Name>, top: Record) {
    && (forall c :: c in cands ==> c.revision < top.revision || c == top)
    && (Marker(top.revision) in names ==> top in cands)
  }

  lemma {:induction false} QuietMore(cands: seq<Record>, names: seq<Name>, u: Store, n: Name)
    requires Inv(u) && u.committed != [] && Quiet(cands, names, Top(u))
    ensures Quiet(cands + (if n in u.dir then [u.dir[n]] else []), names + [n], Top(u))
  {
    TopRevision(u);
    TopMarker(u);
    if n in u.dir {
      QuietEntry(u, n);
    }
    hide Inv;
  }

  /** This holds of what a load reads while nothing new is committed. */
  lemma {:induction false} QuietReads(s: Store, names: seq<Name>, acts: seq<seq<Action>>)
    requires |acts| == |names| && Inv(s) && SlowReads(s, names, acts).1.committed == s.committed != []
    ensures Quiet(SlowReads(s, names, acts).0, names, Top(s))
  {
    hide Inv, Exec, Genuine;
    if names != [] {
      SlowReadsLast(s, names, acts);
      hide SlowReads, Quiet;
      var k := |names| - 1;
      var (cands, t) := SlowReads(s, names[..k], acts[..k]);
      SlowReadsGenuine(s, names[..k], acts[..k]);
      InvExec(t, acts[k]);
      ExecExtends(t, acts[k]);
      Sandwich(s.committed, t.committed, Exec(t, acts[k]).committed);
      QuietReads(s, names[..k], acts[..k]);
      QuietMore(cands, names[..k], Exec(t, acts[k]), names[k]);
      assert names == names[..k] + [names[k]];
    }
  }

  lemma {:induction false} Sandwich(a: seq<Record>, b: seq<Record>, c: seq<Record>)
    requires a <= b <= c && a == c
    ensures a == b
  {
  }

  lemma {:induction false} QuietEntry(s: Store, n: Name)
    requires Inv(s) && n in s.dir && s.committed != []
    ensures s.dir[n].revision < |s.committed| - 1 || s.dir[n] == Top(s)
  {
    assert EntryOk(s, n);
  }

  lemma {:induction false} TopMarker(s: Store)
    requires Inv(s) && s.committed != []
    ensures Marker(|s.committed| - 1) in s.dir && s.dir[Marker(|s.committed| - 1)] == Top(s)
  {
    assert EntryOk(s, Marker(|s.committed| - 1));
  }

  lemma {:induction false} NothingCommitted(s: Store, names: seq<Name>, acts: seq<seq<Action>>)
    requires |acts| == |names| && Inv(s) && SlowReads(s, names, acts).1.committed == []
    ensures SlowReads(s, names, acts).0 == []
  {
    if names != [] {
      SlowReadsLast(s, names, acts);
      hide Inv, Exec, SlowReads, Genuine;
      var k := |names| - 1;
      var (cands, t) := SlowReads(s, names[..k], acts[..k]);
      SlowReadsGenuine(s, names[..k], acts[..k]);
      InvExec(t, acts[k]);
      ExecExtends(t, acts[k]);
      NothingCommitted(s, names[..k], acts[..k]);
      NothingThere(Exec(t, acts[k]));
    }
  }

  lemma {:induction false} NothingThere(s: Store)
    requires Inv(s) && s.committed == []
    ensures forall n :: n !in s.dir
  {
    assert forall n :: n in s.dir ==> EntryOk(s, n);
  }

  lemma {:induction false} LoadOfTop(cands: seq<Record>, top: Record)
    requires top in cands && forall c :: c in cands ==> c.revision < top.revision || c == top
    ensures LoadFrom(cands) == Loaded(top)
  {
    var latest := Newest(cands);
    assert latest == top;
  }

  /**
   Unless a new revision is committed while the load is going on, it returns exactly the newest record, whatever savers
   rename, remove, link late or leave unfinished meanwhile.
   */
  lemma {:induction false} QuietLoadFindsTop(s: Store, names: seq<Name>, acts: seq<seq<Action>>)
    requires |acts| == |names| && Inv(s) && Names(names, s.dir) && SlowReads(s, names, acts).1.committed == s.committed
    ensures LoadFrom(SlowReads(s, names, acts).0) == if s.committed == [] then Absent else Loaded(Top(s))
  {
    if s.committed == [] {
      NothingCommitted(s, names, acts);
    } else {
      QuietReads(s, names, acts);
      TopMarker(s);
      TopRevision(s);
      hide Inv, SlowReads, LoadFrom;
      LoadOfTop(SlowReads(s, names, acts).0, Top(s));
    }
  }

  lemma {:induction false} TopRevision(s: Store)
    requires Inv(s)
    ensures s.committed != [] ==> Top(s).revision == |s.committed| - 1
  {
  }

  // ---- a new revision can make a load fail to see the run at all ----

  /** The first two saves of a run, up to the link of the first; and the rest. */
  function FirstLinked(a: Record): seq<Action> { [Open(0, a, None), Link(0)] }

  function TwoFinished(b: Record): seq<Action> { [Rename(0), Unlink(0, true)] + SaveSteps(1, b, Some(0)) }

  /**
   A load that lists the directory while it holds only the first marker, and opens that after the next save has removed it,
   finds no record of a run that has one at every moment.
   */
  lemma {:induction false} LoadMissesTheRun(a: Record, b: Record)
    requires a.revision == 0 && b.revision == 1
    ensures var s := Exec(EMPTY, FirstLinked(a));
      && s.committed == [a] && Names([Marker(0)], s.dir)
      && LoadFrom(SlowReads(s, [Marker(0)], [TwoFinished(b)]).0) == Absent
  {
    var s := Exec(EMPTY, FirstLinked(a));
    FirstIsLinked(a);
    var s1 := Exec(s, [Rename(0), Unlink(0, true)]);
    FirstIsSaved(s, a);
    InvExec(EMPTY, FirstLinked(a));
    InvExec(s, [Rename(0), Unlink(0, true)]);
    SaveRuns(s1, 1, b, Some(0));
    ExecConcat(s, [Rename(0), Unlink(0, true)], SaveSteps(1, b, Some(0)));
    hide Exec, SaveSteps, Inv;
    assert [TwoFinished(b)][..0] == [] && [Marker(0)][..0] == [];
    assert Marker(0) !in Exec(s, TwoFinished(b)).dir;
  }

  lemma {:induction false} FirstIsLinked(a: Record)
    requires a.revision == 0
    ensures Exec(EMPTY, FirstLinked(a)) == Store(map[Marker(0) := a], map[0 := Linked(a, None)], [a], {}, [])
  {
    assert FirstLinked(a)[1..] == [Link(0)] && [Link(0)][1..] == [];
    var s1 := Step(EMPTY, Open(0, a, None));
    assert s1 == EMPTY.(savers := map[0 := Ready(a, None)]);
    var s2 := Step(s1, Link(0));
    assert Exec(s1, [Link(0)]) == Exec(s2, []);
  }

  lemma {:induction false} FirstIsSaved(s: Store, a: Record)
    requires s == Store(map[Marker(0) := a], map[0 := Linked(a, None)], [a], {}, [])
    ensures Exec(s, [Rename(0), Unlink(0, true)]) == Store(map[Marker(0) := a, Published := a], map[], [a], {}, [a])
  {
    assert [Rename(0), Unlink(0, true)][1..] == [Unlink(0, true)] && [Unlink(0, true)][1..] == [];
    var s1 := Step(s, Rename(0));
    var s2 := Step(s1, Unlink(0, true));
    assert Exec(s1, [Unlink(0, true)]) == Exec(s2, []);
    assert s1.dir == map[Marker(0) := a, Published := a];
  }
}
