/**
 The file store as an object: its load and its save, one filesystem call at a time, while other savers act in between.
 */
module FileCheckpointObjects {
  import opened Prelude
  import opened FileCheckpointStores
  import opened FileCheckpointLoads

  function Actor(a: Action): nat { a.p }

  /** The calls of savers other than `p`. */
  function Without(p: nat, actions: seq<Action>): seq<Action> {
    if actions == [] then []
    else Without(p, actions[..|actions| - 1]) + if Actor(actions[|actions| - 1]) == p then [] else [actions[|actions| - 1]]
  }

  /** The directory of a save that went through: its marker and snapshot are there, the marker before is not unless it had to stay. */
  function SavedDir(dir: map<Name, Record>, next: Record, expected: Option<nat>, removed: bool): map<Name, Record> {
    dir[Marker(next.revision) := next][Published := next] - (if removed && expected.Some? then {Marker(expected.value)} else {})
  }

  datatype SaveOutcome = Saved | Conflict | Unreadable

  /** The store at the moment a save that has loaded links its marker. */
  function AtLink(s: Store, p: nat, next: Record, expected: Option<nat>, others: nat -> seq<Action>): Store {
    Exec(Step(Exec(s, Without(p, others(0))), Open(p, next, expected)), Without(p, others(1)))
  }

  class FileProjectCheckpointStore {
    var store: Store

    constructor ()
      ensures Valid() && store == EMPTY
    {
      store := EMPTY;
    }

    ghost predicate Valid()
      reads this
    {
      Inv(store)
    }

    /** The names of the directory, in no particular order. */
    method ListNames() returns (names: seq<Name>)
      ensures Names(names, store.dir)
    {
      names := [];
      var left := store.dir.Keys;
      while left != {}
        invariant left <= store.dir.Keys
        invariant forall n :: n in names <==> n in store.dir && n !in left
        decreases |left|
      {
        var n :| n in left;
        names := names + [n];
        left := left - {n};
      }
    }

    /** The newest of the candidates, unless another of its revision disagrees. */
    static method Latest(cands: seq<Record>) returns (r: LoadResult)
      ensures r == LoadFrom(cands)
    {
      if cands == [] {
        return Absent;
      }
      var latest := cands[0];
      for i := 1 to |cands|
        invariant latest in cands
        invariant forall j :: 0 <= j < i ==> cands[j].revision <= latest.revision
      {
        if cands[i].revision > latest.revision {
          latest := cands[i];
        }
      }
      for i := 0 to |cands|
        invariant forall j :: 0 <= j < i && cands[j].revision == latest.revision ==> cands[j] == latest
      {
        if cands[i].revision == latest.revision && cands[i] != latest {
          assert Newest(cands).revision == latest.revision;
          return Conflicting(latest.revision);
        }
      }
      r := Loaded(latest);
    }

    /**
     Lists the names, then opens the files one by one while `others(k)` happens before the k-th of them; returns the newest
     record it read, unless two of its revision disagree.
     */
    method Load(p: nat, others: nat -> seq<Action>) returns (r: LoadResult, ghost names: seq<Name>, ghost acts: seq<seq<Action>>)
      requires Valid() && p !in store.savers
      modifies this
      ensures Valid() && p !in store.savers && Extends(old(store), store)
      ensures Names(names, old(store).dir) && |acts| == |names|
      ensures var (cands, t) := SlowReads(old(store), names, acts); r == LoadFrom(cands) && store == t
      ensures r.Loaded? ==> Genuine(store, r.record)
      ensures store.committed == old(store).committed ==> r == if store.committed == [] then Absent else Loaded(Top(store))
      ensures (forall k :: others(k) == []) ==> store == old(store)
    {
      hide Inv, Genuine, Exec, LoadFrom;
      var list := ListNames();
      names := list;
      var cands := [];
      acts := [];
      assert list[..|list|] == list;
      for i := 0 to |list|
        invariant Valid() && p !in store.savers && |acts| == i
        invariant SlowReads(old(store), list[..i], acts) == (cands, store)
        invariant (forall k :: others(k) == []) ==> store == old(store)
      {
        ghost var earlier := acts;
        ghost var done := Others(p, others(i));
        acts := acts + [done];
        assert acts[..i] == earlier && acts[i] == done;
        ReadsMore(old(store), list, acts, i);
        cands := cands + (if list[i] in store.dir then [store.dir[list[i]]] else []);
      }
      SlowReadsGenuine(old(store), names, acts);
      SlowLoadIsCommitted(old(store), names, acts);
      r := Latest(cands);
      if store.committed == old(store).committed {
        QuietLoadFindsTop(old(store), names, acts);
      }
    }

    /** Other savers make filesystem calls between two calls of saver `p`. */
    method Others(p: nat, actions: seq<Action>) returns (ghost done: seq<Action>)
      requires Valid()
      modifies this
      ensures Valid() && old(store).committed <= store.committed && old(store).claimed <= store.claimed
      ensures p in old(store).savers <==> p in store.savers
      ensures p in store.savers ==> store.savers[p] == old(store).savers[p]
      ensures done == Without(p, actions) && store == Exec(old(store), done) && (actions == [] ==> store == old(store))
    {
      hide Inv, Step, Exec;
      done := [];
      ExecNothing(store);
      for i := 0 to |actions|
        invariant Valid() && old(store).committed <= store.committed && old(store).claimed <= store.claimed
        invariant p in old(store).savers <==> p in store.savers
        invariant p in store.savers ==> store.savers[p] == old(store).savers[p]
        invariant done == Without(p, actions[..i]) && store == Exec(old(store), done) && (i == 0 ==> store == old(store))
      {
        assert actions[..i + 1][..i] == actions[..i];
        if Actor(actions[i]) != p {
          InvStep(store, actions[i]);
          OthersStep(store, actions[i], p);
          ExecOne(old(store), done, actions[i]);
          store := Step(store, actions[i]);
          done := done + [actions[i]];
        }
      }
      assert actions[..|actions|] == actions;
    }

    /**
     Saver `p` stores `next` over `expected`, while `reading(k)` happens as it loads, `others(k)` before its k-th step, and the
     marker before is removed or cannot be. A save that returns normally has stored the content of its revision, or came late;
     when nothing is stored as it loads, it succeeds exactly when `expected` is the newest revision, `next` is the one after
     it, and nobody has linked that revision by the time it does.
     */
    method Save(p: nat, next: Record, expected: Option<nat>, reading: nat -> seq<Action>, others: nat -> seq<Action>, removed: bool)
      returns (r: SaveOutcome)
      requires Valid() && p !in store.savers
      modifies this
      ensures Valid() && p !in store.savers
      ensures old(store).committed <= store.committed && old(store).claimed <= store.claimed
      ensures r == Saved ==> next in store.claimed && Genuine(store, next)
      ensures (forall k :: reading(k) == []) && (forall k :: others(k) == []) ==>
        && (r == Saved <==> Current(old(store)) == expected && next.revision == RequiredRevision(expected))
        && store.committed == old(store).committed + (if r == Saved then [next] else [])
        && store.dir == if r == Saved then SavedDir(old(store).dir, next, expected, removed) else old(store).dir
      ensures (forall k :: reading(k) == []) ==>
        (r == Saved <==>
           && Current(old(store)) == expected && next.revision == RequiredRevision(expected)
           && Marker(next.revision) !in AtLink(old(store), p, next, expected, others).dir)
    {
      hide Inv, Genuine, Step, SlowReads, LoadFrom, Exec, Names;
      var loaded, names, acts := Load(p, reading);
      if loaded.Conflicting? {
        return Unreadable;
      }
      var actual := if loaded.Loaded? then Some(loaded.record.revision) else None;
      TopRevision(store);
      if actual != expected || next.revision != RequiredRevision(expected) {
        return Conflict;
      }
      assert next.revision <= |store.committed| by {
        if loaded.Loaded? {
          GenuineIsOld(store, loaded.record);
        }
      }
      ghost var before := store;
      ghost var done := Others(p, others(0));
      StillOld(before, store);
      OpenStep(store, p, next, expected);
      Do(Open(p, next, expected));
      r := LinkAndPublish(p, next, expected, others, removed);
    }

    /** Link the marker, rename over the snapshot, unlink the marker before. */
    method LinkAndPublish(p: nat, next: Record, expected: Option<nat>, others: nat -> seq<Action>, removed: bool)
      returns (r: SaveOutcome)
      requires Valid() && p in store.savers && store.savers[p] == Ready(next, expected)
      modifies this
      ensures Valid() && p !in store.savers
      ensures old(store).committed <= store.committed && old(store).claimed <= store.claimed
      ensures r == Saved ==> next in store.claimed && Genuine(store, next)
      ensures r == Saved <==> Marker(next.revision) !in Exec(old(store), Without(p, others(1))).dir
      ensures r != Unreadable
      ensures others(1) == others(2) == others(3) == [] && next.revision == |old(store).committed| ==>
        && r == Saved && store.committed == old(store).committed + [next]
        && store.dir == SavedDir(old(store).dir, next, expected, removed)
    {
      hide Inv, Genuine, Step, Exec;
      ghost var first := Others(p, others(1));
      LinkStep(store, p);
      Do(Link(p));
      if p !in store.savers {
        return Conflict;
      }
      ghost var second := Others(p, others(2));
      RenameStep(store, p);
      Do(Rename(p));
      ghost var third := Others(p, others(3));
      UnlinkStep(store, p, removed);
      Do(Unlink(p, removed));
      ClaimsAreGenuine(store, next);
      r := Saved;
    }

    static lemma {:induction false} OthersStep(s: Store, a: Action, p: nat)
      requires Actor(a) != p
      ensures var t := Step(s, a);
        && s.committed <= t.committed && s.claimed <= t.claimed
        && (p in s.savers <==> p in t.savers) && (p in s.savers ==> t.savers[p] == s.savers[p])
    {
    }

    static lemma {:induction false} OpenStep(s: Store, p: nat, next: Record, expected: Option<nat>)
      requires p !in s.savers && next.revision == RequiredRevision(expected) <= |s.committed|
      ensures Step(s, Open(p, next, expected)) == s.(savers := s.savers[p := Ready(next, expected)])
    {
    }

    /** A link is refused only where its marker already exists, so never at a revision nobody has linked. */
    static lemma {:induction false} LinkStep(s: Store, p: nat)
      requires Inv(s) && p in s.savers && s.savers[p].Ready?
      ensures var t := Step(s, Link(p)); var next := s.savers[p].next;
        && (p in t.savers ==> t.savers[p] == Linked(next, s.savers[p].expected) && t.dir == s.dir[Marker(next.revision) := next])
        && (p in t.savers <==> Marker(next.revision) !in s.dir)
        && t.claimed == s.claimed
        && t.committed == s.committed + (if next.revision == |s.committed| then [next] else [])
        && (next.revision == |s.committed| ==> p in t.savers)
    {
      var m := Marker(s.savers[p].next.revision);
      if m in s.dir {
        assert EntryOk(s, m);
      }
    }

    static lemma {:induction false} RenameStep(s: Store, p: nat)
      requires p in s.savers && s.savers[p].Linked?
      ensures var t := Step(s, Rename(p));
        && t.savers == s.savers[p := Renamed(s.savers[p].next, s.savers[p].expected)]
        && t.committed == s.committed && t.claimed == s.claimed && t.dir == s.dir[Published := s.savers[p].next]
    {
    }

    static lemma {:induction false} UnlinkStep(s: Store, p: nat, removed: bool)
      requires p in s.savers && s.savers[p].Renamed?
      ensures var t := Step(s, Unlink(p, removed));
        && t.savers == s.savers - {p} && t.committed == s.committed && t.claimed == s.claimed + [s.savers[p].next]
        && t.dir == s.dir - (if removed && s.savers[p].expected.Some? then {Marker(s.savers[p].expected.value)} else {})
    {
    }

    static lemma {:induction false} GenuineIsOld(s: Store, r: Record)
      requires Genuine(s, r)
      ensures r.revision < |s.committed|
    {
    }

    static lemma {:induction false} StillOld(s: Store, t: Store)
      requires s.committed <= t.committed
      ensures |s.committed| <= |t.committed|
    {
    }

    static lemma {:induction false} ExecNothing(s: Store)
      ensures Exec(s, []) == s
    {
    }

    static lemma {:induction false} ExecOne(s: Store, done: seq<Action>, a: Action)
      ensures Exec(s, done + [a]) == Step(Exec(s, done), a)
    {
      ExecConcat(s, done, [a]);
      assert [a][1..] == [];
      hide Step;
      assert Exec(Exec(s, done), [a]) == Exec(Step(Exec(s, done), a), []);
    }

    /** Reading one more name. */
    static lemma {:induction false} ReadsMore(s: Store, names: seq<Name>, acts: seq<seq<Action>>, i: nat)
      requires i < |names| && |acts| == i + 1
      ensures var (cands, t) := SlowReads(s, names[..i], acts[..i]); var u := Exec(t, acts[i]);
        SlowReads(s, names[..i + 1], acts) == (cands + (if names[i] in u.dir then [u.dir[names[i]]] else []), u)
    {
      assert names[..i + 1][..i] == names[..i] && acts[..i] == acts[..|acts| - 1];
    }

    static lemma {:induction false} ClaimsAreGenuine(s: Store, c: Record)
      requires Inv(s) && c in s.claimed
      ensures Genuine(s, c)
    {
    }

    method Do(a: Action)
      requires Valid()
      modifies this
      ensures Valid() && store == Step(old(store), a)
    {
      InvStep(store, a);
      store := Step(store, a);
    }
  }
}
