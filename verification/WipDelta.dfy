/**
 Capturing what differs from a base commit and restoring it onto a checkout of that base: index and worktree as maps
 from path to content, Git status as their difference.
 */
module WipDeltas {
  import opened Prelude

  type Bytes = seq<bv8>

  /** A file as the object database sees it. */
  datatype Blob = Blob(executable: bool, bytes: Bytes)

  /** A file as the worktree holds it; the permission is the low twelve mode bits. */
  datatype File = File(perm: nat, bytes: Bytes)

  datatype Tree = Tree(base: map<string, Blob>, index: map<string, Blob>, work: map<string, File>)

  function Opt<V>(m: map<string, V>, p: string): Option<V> { if p in m then Some(m[p]) else None }

  predicate OwnerExecutes(perm: nat) { perm / 64 % 2 == 1 }

  predicate Special(perm: nat) { perm / 512 % 8 != 0 }

  function AsBlob(f: File): Blob { Blob(OwnerExecutes(f.perm), f.bytes) }

  // ---- Git status ----

  datatype Change = Change(status: string, path: string)

  function Staged(t: Tree, p: string): char {
    if p in t.base then (if p !in t.index then 'D' else if t.base[p] == t.index[p] then ' ' else 'M')
    else if p in t.index then 'A' else ' '
  }

  function Unstaged(t: Tree, p: string): char {
    if p !in t.index then ' ' else if p !in t.work then 'D' else if t.index[p] == AsBlob(t.work[p]) then ' ' else 'M'
  }

  predicate Changed(t: Tree, p: string) { Staged(t, p) != ' ' || Unstaged(t, p) != ' ' }

  predicate Untracked(t: Tree, p: string) { p in t.work && p !in t.index }

  const UNTRACKED: string := "??"

  /** The records Git reports: one for a tracked path that changed, one for an untracked file. */
  predicate Reports(t: Tree, c: Change) {
    || (Changed(t, c.path) && c.status == [Staged(t, c.path), Unstaged(t, c.path)])
    || (Untracked(t, c.path) && c.status == UNTRACKED)
  }

  /** Git's letters, read back: what each says of a path in base, index and worktree, by the owner's execution bit. */
  lemma {:induction false} ReportMeans(t: Tree, c: Change)
    ensures Reports(t, c) <==>
      || (c.status == ['?', '?'] && c.path in t.work && c.path !in t.index)
      || (exists x, y ::
            && c.status == [x, y] && !(x == ' ' && y == ' ') && x in {' ', 'A', 'D', 'M'} && y in {' ', 'D', 'M'}
            && (x == 'A' <==> c.path !in t.base && c.path in t.index)
            && (x == 'D' <==> c.path in t.base && c.path !in t.index)
            && (x == 'M' <==> c.path in t.base && c.path in t.index && t.base[c.path] != t.index[c.path])
            && (y == 'D' <==> c.path in t.index && c.path !in t.work)
            && (y == 'M' <==>
                  c.path in t.index && c.path in t.work
                  && (t.work[c.path].bytes != t.index[c.path].bytes || (t.work[c.path].perm % 128 >= 64) != t.index[c.path].executable)))
  {
    if c.path in t.work {
      OwnerBit(t.work[c.path].perm);
    }
    var x, y := Staged(t, c.path), Unstaged(t, c.path);
    assert [x, y] == c.status ==> c.status[0] == x && c.status[1] == y;
    assert c.status == UNTRACKED <==> c.status == ['?', '?'];
  }

  lemma {:induction false} OwnerBit(perm: nat)
    ensures OwnerExecutes(perm) <==> perm % 128 >= 64
  {
    var q, r := perm / 128, perm % 128;
    assert perm == 128 * q + r;
    assert perm / 64 == 2 * q + r / 64;
  }

  ghost predicate IsStatus(t: Tree, s: seq<Change>) {
    && (forall c :: c in s <==> Reports(t, c))
    && (forall i, j :: 0 <= i < j < |s| ==> s[i] != s[j])
  }

  predicate DistinctPaths(s: seq<Change>) {
    forall i, j :: 0 <= i < j < |s| ==> s[i].path != s[j].path
  }

  /** A staged deletion whose file is still there is reported twice. */
  lemma {:induction false} ReportedTwice(t: Tree, s: seq<Change>, p: string)
    requires IsStatus(t, s) && p in t.base && p in t.work && p !in t.index
    ensures !DistinctPaths(s)
  {
    var a, b := Change("D ", p), Change(UNTRACKED, p);
    assert a.status[0] != b.status[0];
    assert Reports(t, a) && Reports(t, b);
    var i :| 0 <= i < |s| && s[i] == a;
    var j :| 0 <= j < |s| && s[j] == b;
    assert i != j && s[i].path == s[j].path;
  }

  /** A path has two records exactly if its deletion is staged while the file is still there. */
  lemma {:induction false} TwoRecords(t: Tree, s: seq<Change>)
    requires IsStatus(t, s)
    ensures DistinctPaths(s) <==> forall p :: p in t.base && p in t.work ==> p in t.index
  {
    forall p | p in t.base && p in t.work ensures p !in t.index ==> !DistinctPaths(s) {
      if p !in t.index {
        ReportedTwice(t, s, p);
      }
    }
    if !DistinctPaths(s) {
      var i, j :| 0 <= i < j < |s| && s[i].path == s[j].path;
      assert Reports(t, s[i]) && Reports(t, s[j]);
      var p := s[i].path;
      assert Changed(t, p) && Untracked(t, p);
    }
  }

  function RecordsOf(t: Tree, p: string): seq<Change> {
    (if Changed(t, p) then [Change([Staged(t, p), Unstaged(t, p)], p)] else [])
    + if Untracked(t, p) then [Change(UNTRACKED, p)] else []
  }

  lemma {:induction false} RecordsAreReports(t: Tree, p: string)
    ensures forall c :: c in RecordsOf(t, p) <==> c.path == p && Reports(t, c)
    ensures DistinctChanges(RecordsOf(t, p))
  {
    assert [Staged(t, p), Unstaged(t, p)][0] != UNTRACKED[0];
  }

  ghost predicate DistinctChanges(s: seq<Change>) { forall i, j :: 0 <= i < j < |s| ==> s[i] != s[j] }

  /** `s` lists the records of the paths in `done`. */
  ghost predicate Listed(t: Tree, s: seq<Change>, done: set<string>) {
    DistinctChanges(s) && forall c :: c in s <==> c.path in done && Reports(t, c)
  }

  lemma {:induction false} DistinctConcat(a: seq<Change>, b: seq<Change>)
    requires DistinctChanges(a) && DistinctChanges(b) && forall c :: c in b ==> c !in a
    ensures DistinctChanges(a + b)
  {
    assert (forall i :: 0 <= i < |a| ==> a[i] in a) && forall j :: 0 <= j < |b| ==> b[j] in b;
  }

  lemma {:induction false} ListedMore(t: Tree, s: seq<Change>, done: set<string>, p: string)
    requires Listed(t, s, done) && p !in done
    ensures Listed(t, s + RecordsOf(t, p), done + {p})
  {
    hide RecordsOf, Reports, DistinctChanges;
    RecordsAreReports(t, p);
    DistinctConcat(s, RecordsOf(t, p));
  }

  lemma {:induction false} AllListed(t: Tree, s: seq<Change>)
    requires Listed(t, s, t.base.Keys + t.index.Keys + t.work.Keys)
    ensures IsStatus(t, s)
  {
  }

  /** Lists the records, path by path. */
  method Status(t: Tree) returns (s: seq<Change>)
    ensures IsStatus(t, s)
  {
    hide RecordsOf, Listed, IsStatus, Halves;
    s := [];
    var all := t.base.Keys + t.index.Keys + t.work.Keys;
    var left := all;
    ghost var done: set<string> := {};
    NoneListed(t);
    NoneMoved(all);
    while left != {}
      invariant Halves(done, left, all)
      invariant Listed(t, s, done)
      decreases |left|
    {
      var p :| p in left;
      MoveOne(done, left, all, p);
      ListedMore(t, s, done, p);
      s := s + RecordsOf(t, p);
      left := left - {p};
      done := done + {p};
    }
    AllMoved(done, all);
    AllListed(t, s);
  }

  /** Two parts of a set. */
  ghost predicate Halves(done: set<string>, left: set<string>, all: set<string>) { done !! left && done + left == all }

  lemma {:induction false} NoneMoved(all: set<string>)
    ensures Halves({}, all, all)
  {
  }

  lemma {:induction false} AllMoved(done: set<string>, all: set<string>)
    ensures Halves(done, {}, all) ==> done == all
  {
  }

  lemma {:induction false} MoveOne(done: set<string>, left: set<string>, all: set<string>, p: string)
    requires Halves(done, left, all) && p in left
    ensures Halves(done + {p}, left - {p}, all) && p !in done
  {
  }

  lemma {:induction false} NoneListed(t: Tree)
    ensures Listed(t, [], {})
  {
  }

  // ---- capture ----

  datatype Item = Item(path: string, status: string, work: Option<File>, index: Option<Blob>)

  /** Why a capture is refused: what was found first, in the order of the checks. */
  datatype Fault = TwoRecordsOfAPath | TooManyIgnored | VetoedPath | TooManyFiles | UnfitFile | TooLarge | IgnoredInside

  /** A refusal names its fault, and the change it was found at where it concerns one. */
  datatype Capture = Clean | Refused(fault: Fault, at: nat) | Captured(items: seq<Item>)

  datatype Limits = Limits(maxFiles: nat, maxFileBytes: nat, maxTotalBytes: nat)

  /** An ignored path: the class that excludes it, if any, and whether the allowlist covers it. */
  datatype Ignored = Ignored(excluded: Option<string>, allowed: bool)

  /** The paths and contents that are refused whatever their size, and the locale's order of paths. */
  datatype Rules = Rules(vetoedPath: string -> bool, vetoedContent: Item -> bool, locale: string -> real)

  /** What is recorded of a changed path: a deleted one has no file, an untracked one no index entry. */
  function ItemOf(t: Tree, c: Change): Item {
    Item(c.path, c.status, if 'D' in c.status then None else Opt(t.work, c.path),
         if c.status == UNTRACKED then None else Opt(t.index, c.path))
  }

  /** An item holds the file unless the change deletes it, and the index entry unless the path is untracked. */
  lemma {:induction false} ItemMeans(t: Tree, c: Change)
    ensures var i := ItemOf(t, c);
      && i.path == c.path && i.status == c.status
      && (i.work.Some? <==> c.path in t.work && forall k :: 0 <= k < |c.status| ==> c.status[k] != 'D')
      && (i.work.Some? ==> i.work.value == t.work[c.path])
      && (i.index.Some? <==> c.path in t.index && c.status != ['?', '?'])
      && (i.index.Some? ==> i.index.value == t.index[c.path])
  {
    assert UNTRACKED == ['?', '?'];
  }

  function Size(i: Item): nat {
    (if i.work.Some? then |i.work.value.bytes| else 0) + (if i.index.Some? then |i.index.value.bytes| else 0)
  }

  function Total(items: seq<Item>): nat {
    if items == [] then 0 else Total(items[..|items| - 1]) + Size(items[|items| - 1])
  }

  /** Content no capture records: refused by the rules, with a special permission bit, or too large a file. */
  predicate Unfit(l: Limits, rules: Rules, i: Item) {
    || rules.vetoedContent(i)
    || (i.work.Some? && (Special(i.work.value.perm) || |i.work.value.bytes| > l.maxFileBytes))
    || (i.index.Some? && |i.index.value.bytes| > l.maxFileBytes)
  }

  function ItemsOf(t: Tree, s: seq<Change>): seq<Item> {
    seq(|s|, i requires 0 <= i < |s| => ItemOf(t, s[i]))
  }

  /** The first fault of one change, once everything before it was recorded. */
  function FaultAt(t: Tree, s: seq<Change>, l: Limits, rules: Rules, i: nat): Option<Fault>
    requires i < |s|
  {
    if rules.vetoedPath(s[i].path) then Some(VetoedPath)
    else if i >= l.maxFiles then Some(TooManyFiles)
    else if Unfit(l, rules, ItemOf(t, s[i])) then Some(UnfitFile)
    else if Total(ItemsOf(t, s)[..i + 1]) > l.maxTotalBytes then Some(TooLarge)
    else None
  }

  /** No change and no ignored path stands in the way. */
  predicate Recordable(t: Tree, s: seq<Change>, ignored: seq<Ignored>, l: Limits, rules: Rules) {
    && DistinctPaths(s) && |ignored| <= l.maxFiles
    && (forall i :: 0 <= i < |s| ==> FaultAt(t, s, l, rules, i).None?)
    && (forall i :: 0 <= i < |ignored| ==> !(ignored[i].excluded.None? && ignored[i].allowed))
  }

  /** The fault and its place are what the checks meet first. */
  predicate FirstFault(t: Tree, s: seq<Change>, ignored: seq<Ignored>, l: Limits, rules: Rules, f: Fault, at: nat) {
    match f
    case TwoRecordsOfAPath => !DistinctPaths(s)
    case TooManyIgnored => DistinctPaths(s) && |ignored| > l.maxFiles
    case IgnoredInside =>
      && DistinctPaths(s) && |ignored| <= l.maxFiles
      && (forall i :: 0 <= i < |s| ==> FaultAt(t, s, l, rules, i).None?)
      && at < |ignored| && ignored[at].excluded.None? && ignored[at].allowed
      && (forall i :: 0 <= i < at ==> !(ignored[i].excluded.None? && ignored[i].allowed))
    case _ =>
      && DistinctPaths(s) && |ignored| <= l.maxFiles
      && at < |s| && FaultAt(t, s, l, rules, at) == Some(f)
      && (forall i :: 0 <= i < at ==> FaultAt(t, s, l, rules, i).None?)
  }

  // ---- the order of recorded files ----

  function Insert(locale: string -> real, s: seq<Item>, x: Item): seq<Item> {
    if s == [] || locale(x.path) < locale(s[0].path) then [x] + s else [s[0]] + Insert(locale, s[1..], x)
  }

  /** The items in the locale's order of their paths. */
  function Sorted(locale: string -> real, items: seq<Item>): seq<Item> {
    if items == [] then [] else Insert(locale, Sorted(locale, items[..|items| - 1]), items[|items| - 1])
  }

  predicate InOrder(locale: string -> real, s: seq<Item>) {
    forall i, j :: 0 <= i < j < |s| ==> locale(s[i].path) <= locale(s[j].path)
  }

  predicate DistinctItems(items: seq<Item>) {
    forall i, j :: 0 <= i < j < |items| ==> items[i].path != items[j].path
  }

  lemma {:induction false} InsertKeeps(locale: string -> real, s: seq<Item>, x: Item)
    requires InOrder(locale, s) && DistinctItems(s) && forall y :: y in s ==> y.path != x.path
    ensures var r := Insert(locale, s, x);
      && InOrder(locale, r) && DistinctItems(r) && |r| == |s| + 1 && forall y :: y in r <==> y in s || y == x
  {
    hide InOrder, DistinctItems, Insert;
    InsertStep(locale, s, x);
    if s == [] || locale(x.path) < locale(s[0].path) {
      FirstIsLeast(locale, s);
      ConsKeeps(locale, x, s);
    } else {
      var rest := s[1..];
      HeadIsLeast(locale, s);
      InsertKeeps(locale, rest, x);
      ConsKeeps(locale, s[0], Insert(locale, rest, x));
    }
  }

  lemma {:induction false} InsertStep(locale: string -> real, s: seq<Item>, x: Item)
    ensures Insert(locale, s, x) ==
            if s == [] || locale(x.path) < locale(s[0].path) then [x] + s else [s[0]] + Insert(locale, s[1..], x)
  {
  }

  /** The first of an ordered list is least, and its rest is ordered. */
  lemma {:induction false} HeadIsLeast(locale: string -> real, s: seq<Item>)
    requires InOrder(locale, s) && DistinctItems(s) && s != []
    ensures InOrder(locale, s[1..]) && DistinctItems(s[1..])
    ensures forall y :: y in s[1..] ==> locale(s[0].path) <= locale(y.path) && s[0].path != y.path
    ensures forall y :: y in s <==> y == s[0] || y in s[1..]
  {
    assert s == [s[0]] + s[1..];
  }

  lemma {:induction false} FirstIsLeast(locale: string -> real, s: seq<Item>)
    requires InOrder(locale, s)
    ensures s != [] ==> forall y :: y in s ==> locale(s[0].path) <= locale(y.path)
  {
    forall y | y in s ensures locale(s[0].path) <= locale(y.path) {
      var n :| 0 <= n < |s| && s[n] == y;
    }
  }

  lemma {:induction false} ConsKeeps(locale: string -> real, x: Item, s: seq<Item>)
    requires InOrder(locale, s) && DistinctItems(s)
    requires forall y :: y in s ==> locale(x.path) <= locale(y.path) && x.path != y.path
    ensures InOrder(locale, [x] + s) && DistinctItems([x] + s)
  {
    assert forall n :: 0 <= n < |s| ==> s[n] in s;
  }

  /** Sorting keeps exactly the items, and puts them in order. */
  lemma {:induction false} SortedKeeps(locale: string -> real, items: seq<Item>)
    requires DistinctItems(items)
    ensures var r := Sorted(locale, items);
      && InOrder(locale, r) && DistinctItems(r) && |r| == |items| && forall x :: x in r <==> x in items
  {
    hide InOrder, DistinctItems, Insert;
    if items == [] {
      EmptyInOrder(locale);
    } else {
      var rest, x := items[..|items| - 1], items[|items| - 1];
      LastIsNew(items);
      SortedKeeps(locale, rest);
      InsertKeeps(locale, Sorted(locale, rest), x);
    }
  }

  lemma {:induction false} EmptyInOrder(locale: string -> real)
    ensures InOrder(locale, []) && DistinctItems([])
  {
  }

  lemma {:induction false} LastIsNew(items: seq<Item>)
    requires DistinctItems(items) && items != []
    ensures var rest, x := items[..|items| - 1], items[|items| - 1];
      && DistinctItems(rest) && (forall y :: y in rest ==> y.path != x.path)
      && forall y :: y in items <==> y in rest || y == x
  {
    assert items == items[..|items| - 1] + [items[|items| - 1]];
  }

  /** The order of characters, first difference first. */
  predicate CodeBefore(a: string, b: string) {
    b != "" && (a == "" || a[0] < b[0] || (a[0] == b[0] && CodeBefore(a[1..], b[1..])))
  }

  lemma {:induction false} CodeBeforeOneWay(a: string, b: string)
    ensures !(CodeBefore(a, b) && CodeBefore(b, a))
  {
    if a != "" && b != "" && a[0] == b[0] {
      CodeBeforeOneWay(a[1..], b[1..]);
    }
  }

  /** Two status letters as a snapshot may carry them. */
  predicate StatusShape(s: string) {
    |s| == 2 && (forall i :: 0 <= i < 2 ==> s[i] in " MADRCU?!") && s != "  " && s != "!!"
  }

  /** A well-formed status is two of the nine letters, not both blank and not the mark of ignored paths. */
  lemma {:induction false} StatusShapeMeans(s: string)
    ensures StatusShape(s) <==>
      exists x, y ::
        && s == [x, y] && x in {' ', 'M', 'A', 'D', 'R', 'C', 'U', '?', '!'} && y in {' ', 'M', 'A', 'D', 'R', 'C', 'U', '?', '!'}
        && !(x == ' ' && y == ' ') && !(x == '!' && y == '!')
  {
    if |s| == 2 {
      assert s == [s[0], s[1]];
      assert s == "  " <==> s[0] == ' ' && s[1] == ' ';
      assert s == "!!" <==> s[0] == '!' && s[1] == '!';
      LetterMeans(s[0]);
      LetterMeans(s[1]);
    }
  }

  lemma {:induction false} LetterMeans(c: char)
    ensures c in " MADRCU?!" <==> c in {' ', 'M', 'A', 'D', 'R', 'C', 'U', '?', '!'}
  {
    var all := " MADRCU?!";
    assert all[0] == ' ' && all[1] == 'M' && all[2] == 'A' && all[3] == 'D' && all[4] == 'R' && all[5] == 'C' && all[6] == 'U'
        && all[7] == '?' && all[8] == '!' && |all| == 9;
  }

  /** What verifying a snapshot asks of its files: some, in the order of characters, with plain status letters. */
  predicate Verified(items: seq<Item>) {
    && items != []
    && (forall i, j :: 0 <= i < j < |items| ==> CodeBefore(items[i].path, items[j].path))
    && (forall i :: 0 <= i < |items| ==> StatusShape(items[i].status))
  }

  /** The locale orders the paths as their characters do. */
  predicate SortedAlike(locale: string -> real, items: seq<Item>) {
    forall i, j :: 0 <= i < |items| && 0 <= j < |items| && i != j ==>
      (locale(items[i].path) < locale(items[j].path) <==> CodeBefore(items[i].path, items[j].path))
  }

  /** A locale that tells any two paths apart. */
  ghost predicate Separates(locale: string -> real) { forall a, b :: locale(a) == locale(b) ==> a == b }

  lemma {:induction false} AlikeVerifies(locale: string -> real, items: seq<Item>)
    requires Separates(locale) && InOrder(locale, items) && DistinctItems(items)
    ensures (forall i, j :: 0 <= i < j < |items| ==> CodeBefore(items[i].path, items[j].path)) <==> SortedAlike(locale, items)
  {
    forall i, j | 0 <= i < j < |items|
      ensures locale(items[i].path) < locale(items[j].path) && !(locale(items[j].path) < locale(items[i].path))
      ensures !(CodeBefore(items[i].path, items[j].path) && CodeBefore(items[j].path, items[i].path))
    {
      assert items[i].path != items[j].path;
      CodeBeforeOneWay(items[i].path, items[j].path);
    }
  }

  /** Being sorted alike does not depend on how the items are listed. */
  lemma {:induction false} AlikeOfSame(locale: string -> real, a: seq<Item>, b: seq<Item>)
    requires DistinctItems(a) && DistinctItems(b) && (forall x :: x in a ==> x in b) && SortedAlike(locale, b)
    ensures SortedAlike(locale, a)
  {
    forall i, j | 0 <= i < |a| && 0 <= j < |a| && i != j
      ensures locale(a[i].path) < locale(a[j].path) <==> CodeBefore(a[i].path, a[j].path)
    {
      assert a[i] in b && a[j] in b && a[i].path != a[j].path;
      var m :| 0 <= m < |b| && b[m] == a[i];
      var n :| 0 <= n < |b| && b[n] == a[j];
    }
  }

  /**
   A captured snapshot passes verification exactly if it has plain status letters and its paths sort alike in the locale
   and by their characters.
   */
  lemma {:induction false} CapturedVerifies(locale: string -> real, items: seq<Item>)
    requires Separates(locale) && DistinctItems(items) && items != []
    ensures Verified(Sorted(locale, items)) <==>
            SortedAlike(locale, items) && forall i :: 0 <= i < |items| ==> StatusShape(items[i].status)
  {
    hide StatusShape, SortedAlike, InOrder;
    var r := Sorted(locale, items);
    SortedKeeps(locale, items);
    AlikeVerifies(locale, r);
    if SortedAlike(locale, r) {
      AlikeOfSame(locale, items, r);
    }
    if SortedAlike(locale, items) {
      AlikeOfSame(locale, r, items);
    }
    forall i | 0 <= i < |items| ensures exists k :: 0 <= k < |r| && r[k] == items[i] {
      assert items[i] in r;
    }
    forall k | 0 <= k < |r| ensures exists i :: 0 <= i < |items| && items[i] == r[k] {
      assert r[k] in items;
    }
  }

  // ---- how much a capture may hold ----

  /** Everything recorded of one path. */
  function Content(i: Item): Bytes {
    (if i.work.Some? then i.work.value.bytes else []) + (if i.index.Some? then i.index.value.bytes else [])
  }

  /** Everything a capture records, one content after the other. */
  function Everything(items: seq<Item>): Bytes {
    if items == [] then [] else Content(items[0]) + Everything(items[1..])
  }

  lemma {:induction false} EverythingAdd(a: seq<Item>, b: seq<Item>)
    ensures |Everything(a + b)| == |Everything(a)| + |Everything(b)|
  {
    hide Content;
    if a == [] {
      assert a + b == b;
    } else {
      assert (a + b)[0] == a[0] && (a + b)[1..] == a[1..] + b;
      EverythingAdd(a[1..], b);
    }
  }

  lemma {:induction false} EverythingOfOne(x: Item)
    ensures |Everything([x])| == |Content(x)|
  {
    assert [x][1..] == [];
  }

  lemma {:induction false} TotalIsEverything(items: seq<Item>)
    ensures Total(items) == |Everything(items)|
  {
    if items != [] {
      var rest, x := items[..|items| - 1], items[|items| - 1];
      assert items == rest + [x];
      TotalIsEverything(rest);
      EverythingAdd(rest, [x]);
      EverythingOfOne(x);
      hide Everything;
    }
  }

  lemma {:induction false} InsertEverything(locale: string -> real, s: seq<Item>, x: Item)
    ensures |Everything(Insert(locale, s, x))| == |Everything(s)| + |Content(x)|
  {
    hide Content;
    EverythingOfOne(x);
    EverythingAdd([x], s);
    if s != [] && !(locale(x.path) < locale(s[0].path)) {
      InsertEverything(locale, s[1..], x);
      EverythingOfOne(s[0]);
      EverythingAdd([s[0]], Insert(locale, s[1..], x));
    }
  }

  /** Sorting leaves the amount as it is. */
  lemma {:induction false} SortedEverything(locale: string -> real, items: seq<Item>)
    ensures |Everything(Sorted(locale, items))| == |Everything(items)|
  {
    hide Content, Insert, Everything;
    if items != [] {
      var rest, x := items[..|items| - 1], items[|items| - 1];
      assert items == rest + [x];
      SortedEverything(locale, rest);
      InsertEverything(locale, Sorted(locale, rest), x);
      EverythingAdd(rest, [x]);
      EverythingOfOne(x);
    }
  }

  /** What may be recorded of one path: nothing vetoed, no set-user, set-group or sticky bit, no content over the limit. */
  predicate Holdable(l: Limits, rules: Rules, i: Item) {
    && !rules.vetoedPath(i.path) && !rules.vetoedContent(i)
    && (i.work.Some? ==> i.work.value.perm / 512 % 8 == 0 && |i.work.value.bytes| <= l.maxFileBytes)
    && (i.index.Some? ==> |i.index.value.bytes| <= l.maxFileBytes)
  }

  lemma {:induction false} EverythingGrows(items: seq<Item>, i: nat)
    requires i <= |items|
    ensures |Everything(items[..i])| <= |Everything(items)|
  {
    assert items == items[..i] + items[i..];
    EverythingAdd(items[..i], items[i..]);
  }

  /** A change has no fault exactly if what is recorded of it may be, among few enough files and bytes so far. */
  lemma {:induction false} FaultlessAt(t: Tree, s: seq<Change>, l: Limits, rules: Rules, i: nat)
    requires i < |s|
    ensures FaultAt(t, s, l, rules, i).None? <==>
            Holdable(l, rules, ItemOf(t, s[i])) && i < l.maxFiles && |Everything(ItemsOf(t, s)[..i + 1])| <= l.maxTotalBytes
  {
    TotalIsEverything(ItemsOf(t, s)[..i + 1]);
    hide Everything, Total;
  }

  /**
   A capture is accepted exactly if no path is reported twice, there are few enough changed and ignored paths, each changed
   path may be recorded, all contents together stay within the limit, and no ignored path lies inside the allowlist.
   */
  lemma {:induction false} CaptureAccepts(t: Tree, s: seq<Change>, ignored: seq<Ignored>, l: Limits, rules: Rules)
    ensures Recordable(t, s, ignored, l, rules) <==>
      && DistinctPaths(s) && |ignored| <= l.maxFiles && |s| <= l.maxFiles
      && (forall i :: 0 <= i < |s| ==> Holdable(l, rules, ItemOf(t, s[i])))
      && |Everything(ItemsOf(t, s))| <= l.maxTotalBytes
      && (forall i :: 0 <= i < |ignored| && ignored[i].excluded.None? ==> !ignored[i].allowed)
  {
    hide Everything, Holdable, FaultAt, DistinctPaths, ItemOf;
    var items := ItemsOf(t, s);
    forall i | 0 <= i < |s|
      ensures FaultAt(t, s, l, rules, i).None? <==>
              Holdable(l, rules, ItemOf(t, s[i])) && i < l.maxFiles && |Everything(items[..i + 1])| <= l.maxTotalBytes
      ensures |Everything(items[..i + 1])| <= |Everything(items)|
    {
      FaultlessAt(t, s, l, rules, i);
      EverythingGrows(items, i + 1);
    }
    NothingIsNothing();
    assert items[..|s|] == items;
    if s == [] {
      assert items == [];
    } else {
      var last := |s| - 1;
      assert FaultAt(t, s, l, rules, last).None? ==> |Everything(items[..last + 1])| <= l.maxTotalBytes;
    }
  }

  lemma {:induction false} NothingIsNothing()
    ensures |Everything([])| == 0
  {
  }

  /** Few enough files, each of which may be recorded, and not too much in all. */
  predicate WithinLimits(l: Limits, rules: Rules, items: seq<Item>) {
    |items| <= l.maxFiles && (forall x :: x in items ==> Holdable(l, rules, x)) && |Everything(items)| <= l.maxTotalBytes
  }

  /** What a recorded capture holds stays within every limit. */
  lemma {:induction false} CapturedWithin(t: Tree, s: seq<Change>, ignored: seq<Ignored>, l: Limits, rules: Rules)
    requires Recordable(t, s, ignored, l, rules)
    ensures WithinLimits(l, rules, Sorted(rules.locale, ItemsOf(t, s)))
  {
    hide Everything, Holdable, FaultAt, ItemOf, Sorted, Recordable;
    CaptureAccepts(t, s, ignored, l, rules);
    SortedEverything(rules.locale, ItemsOf(t, s));
    RecordableDistinct(t, s, ignored, l, rules);
    SortedKeeps(rules.locale, ItemsOf(t, s));
  }

  lemma {:induction false} RecordableDistinct(t: Tree, s: seq<Change>, ignored: seq<Ignored>, l: Limits, rules: Rules)
    requires Recordable(t, s, ignored, l, rules)
    ensures DistinctItems(ItemsOf(t, s))
  {
    ItemsDistinct(t, s);
  }

  lemma {:induction false} ItemsDistinct(t: Tree, s: seq<Change>)
    requires DistinctPaths(s)
    ensures DistinctItems(ItemsOf(t, s))
  {
  }

  /**
   Nothing to capture when nothing changed; otherwise every change is recorded, in the locale's order, or the capture is
   refused with the fault that was met first.
   */
  method CaptureWip(t: Tree, status: seq<Change>, ignored: seq<Ignored>, l: Limits, rules: Rules) returns (r: Capture)
    ensures r.Clean? <==> status == []
    ensures r.Captured? <==> status != [] && Recordable(t, status, ignored, l, rules)
    ensures r.Captured? ==> r.items == Sorted(rules.locale, ItemsOf(t, status))
    ensures r.Captured? ==> WithinLimits(l, rules, r.items)
    ensures r.Refused? ==> FirstFault(t, status, ignored, l, rules, r.fault, r.at)
  {
    hide Unfit, DistinctPaths, Size, WithinLimits, Sorted, ItemOf;
    if status == [] {
      return Clean;
    }
    if !DistinctPaths(status) {
      return Refused(TwoRecordsOfAPath, 0);
    }
    if |ignored| > l.maxFiles {
      return Refused(TooManyIgnored, 0);
    }
    ghost var all := ItemsOf(t, status);
    var files: seq<Item> := [];
    var total := 0;
    for i := 0 to |status|
      invariant files == all[..i] && total == Total(files)
      invariant forall k :: 0 <= k < i ==> FaultAt(t, status, l, rules, k).None?
    {
      var item := ItemOf(t, status[i]);
      ghost var fault := FaultAt(t, status, l, rules, i);
      assert all[..i + 1][..i] == all[..i] && all[..i + 1][i] == item;
      if rules.vetoedPath(status[i].path) {
        return Refused(VetoedPath, i);
      }
      if |files| >= l.maxFiles {
        return Refused(TooManyFiles, i);
      }
      if Unfit(l, rules, item) {
        return Refused(UnfitFile, i);
      }
      total := total + Size(item);
      if total > l.maxTotalBytes {
        return Refused(TooLarge, i);
      }
      files := files + [item];
    }
    assert all[..|status|] == all;
    for i := 0 to |ignored|
      invariant forall k :: 0 <= k < i ==> !(ignored[k].excluded.None? && ignored[k].allowed)
    {
      if ignored[i].excluded.None? && ignored[i].allowed {
        return Refused(IgnoredInside, i);
      }
    }
    CapturedWithin(t, status, ignored, l, rules);
    return Captured(Sorted(rules.locale, files));
  }

  /** A recorded item says exactly what index and worktree hold for its path. */
  lemma {:induction false} ItemsAreExact(t: Tree, s: seq<Change>, i: nat)
    requires IsStatus(t, s) && DistinctPaths(s) && i < |s|
    ensures ItemOf(t, s[i]) == Item(s[i].path, s[i].status, Opt(t.work, s[i].path), Opt(t.index, s[i].path))
  {
    TwoRecords(t, s);
    assert Reports(t, s[i]);
    var p := s[i].path;
    assert [Staged(t, p), Unstaged(t, p)][0] != UNTRACKED[0];
    if s[i].status == UNTRACKED {
      assert Untracked(t, p);
    } else {
      assert s[i].status == [Staged(t, p), Unstaged(t, p)];
    }
  }

  // ---- restore ----

  function Put<V>(m: map<string, V>, p: string, v: Option<V>): map<string, V> { if v.Some? then m[p := v.value] else m - {p} }

  function RestoreOne(t: Tree, i: Item): Tree {
    t.(index := Put(t.index, i.path, i.index), work := Put(t.work, i.path, i.work))
  }

  function RestoreAll(t: Tree, items: seq<Item>): Tree {
    if items == [] then t else RestoreOne(RestoreAll(t, items[..|items| - 1]), items[|items| - 1])
  }

  /** A fresh checkout: the index is the base, and every file has the permission a checkout gives it. */
  function Checkout(base: map<string, Blob>, perm: bool -> nat): Tree {
    Tree(base, base, map p | p in base :: File(perm(base[p].executable), base[p].bytes))
  }

  /** Permissions a checkout gives that Git reads back as what it checked out. */
  ghost predicate Faithful(perm: bool -> nat) { OwnerExecutes(perm(true)) && !OwnerExecutes(perm(false)) }

  /** With distinct paths, restoring sets every recorded path and touches no other. */
  lemma {:induction false} RestoredAt(t: Tree, items: seq<Item>, p: string)
    requires DistinctItems(items)
    ensures var r := RestoreAll(t, items);
      && r.base == t.base
      && (forall i :: 0 <= i < |items| && items[i].path == p ==> Opt(r.index, p) == items[i].index && Opt(r.work, p) == items[i].work)
      && ((forall i :: 0 <= i < |items| ==> items[i].path != p) ==> Opt(r.index, p) == Opt(t.index, p) && Opt(r.work, p) == Opt(t.work, p))
  {
    if items != [] {
      RestoredAt(t, items[..|items| - 1], p);
    }
  }

  /** The items record every reported change of `t`, in some order. */
  ghost predicate Records(t: Tree, s: seq<Change>, items: seq<Item>) {
    DistinctItems(items) && |items| == |s| && forall x :: x in items <==> x in ItemsOf(t, s)
  }

  /** A capture records every reported change. */
  lemma {:induction false} CaptureRecords(t: Tree, s: seq<Change>, locale: string -> real)
    requires DistinctPaths(s)
    ensures Records(t, s, Sorted(locale, ItemsOf(t, s)))
  {
    ItemsDistinct(t, s);
    SortedKeeps(locale, ItemsOf(t, s));
  }

  /** What restoring a capture of `t` gives. */
  function Restored(t: Tree, items: seq<Item>, perm: bool -> nat): Tree { RestoreAll(Checkout(t.base, perm), items) }

  /** A path that Git does not report is the same in base, index and worktree, up to unobserved permission bits. */
  lemma {:induction false} UnreportedIsClean(t: Tree, s: seq<Change>, p: string)
    requires IsStatus(t, s) && forall i :: 0 <= i < |s| ==> s[i].path != p
    ensures Opt(t.index, p) == Opt(t.base, p)
    ensures if p in t.base then p in t.work && AsBlob(t.work[p]) == t.base[p] else p !in t.work
  {
    var c, u := Change([Staged(t, p), Unstaged(t, p)], p), Change(UNTRACKED, p);
    assert c !in s && u !in s;
    assert !Reports(t, c) && !Reports(t, u);
  }

  /** Path by path: a reported path is restored exactly, any other to its checkout. */
  lemma {:induction false} RoundTripAt(t: Tree, s: seq<Change>, items: seq<Item>, perm: bool -> nat, p: string)
    requires IsStatus(t, s) && DistinctPaths(s) && Records(t, s, items) && Faithful(perm)
    ensures var r := Restored(t, items, perm);
      && Opt(r.index, p) == Opt(t.index, p)
      && (p in r.work <==> p in t.work)
      && (p in t.work ==> AsBlob(r.work[p]) == AsBlob(t.work[p]))
      && (if exists i :: 0 <= i < |s| && s[i].path == p then Opt(r.work, p) == Opt(t.work, p)
          else p in t.work ==> r.work[p].perm == perm(OwnerExecutes(t.work[p].perm)))
  {
    hide IsStatus, DistinctPaths, OwnerExecutes, DistinctItems, RestoreAll;
    RestoredAt(Checkout(t.base, perm), items, p);
    if i :| 0 <= i < |s| && s[i].path == p {
      ItemsAreExact(t, s, i);
      assert ItemsOf(t, s)[i] == ItemOf(t, s[i]) && ItemsOf(t, s)[i] in items;
      var k :| 0 <= k < |items| && items[k] == ItemOf(t, s[i]);
    } else {
      forall k | 0 <= k < |items| ensures items[k].path != p {
        assert items[k] in ItemsOf(t, s);
        var i :| 0 <= i < |s| && ItemsOf(t, s)[i] == items[k];
      }
      UnreportedIsClean(t, s, p);
    }
  }

  /**
   Capture then restore: the index comes back exactly, every file comes back with its content and executable bit, and
   the worktree is the same in full exactly if every unreported file has the permission a checkout gives it.
   */
  lemma {:induction false} RoundTrip(t: Tree, s: seq<Change>, items: seq<Item>, perm: bool -> nat)
    requires IsStatus(t, s) && DistinctPaths(s) && Records(t, s, items) && Faithful(perm)
    ensures var r := Restored(t, items, perm);
      && r.base == t.base && r.index == t.index && r.work.Keys == t.work.Keys
      && (forall p :: p in t.work ==> AsBlob(r.work[p]) == AsBlob(t.work[p]))
      && (r.work == t.work <==>
          forall p :: p in t.work && (forall i :: 0 <= i < |s| ==> s[i].path != p) ==> t.work[p].perm == perm(OwnerExecutes(t.work[p].perm)))
  {
    hide IsStatus, DistinctPaths, OwnerExecutes, Faithful, Restored, AsBlob, ItemsOf;
    var r := Restored(t, items, perm);
    RestoredBase(t, items, perm);
    forall p
      ensures Opt(r.index, p) == Opt(t.index, p) && (p in r.work <==> p in t.work)
      ensures p in t.work ==> AsBlob(r.work[p]) == AsBlob(t.work[p])
      ensures p in t.work ==> (r.work[p] == t.work[p] <==>
        ((forall i :: 0 <= i < |s| ==> s[i].path != p) ==> t.work[p].perm == perm(OwnerExecutes(t.work[p].perm))))
    {
      RoundTripAt(t, s, items, perm, p);
      if p in t.work {
        SameBlobSameFile(r.work[p], t.work[p]);
      }
    }
    SameMaps(r.index, t.index);
    SameMapsIff(r.work, t.work);
  }

  lemma {:induction false} RestoredBase(t: Tree, items: seq<Item>, perm: bool -> nat)
    requires DistinctItems(items)
    ensures Restored(t, items, perm).base == t.base
  {
    RestoredAt(Checkout(t.base, perm), items, "");
  }

  lemma {:induction false} SameBlobSameFile(a: File, b: File)
    ensures AsBlob(a) == AsBlob(b) ==> (a == b <==> a.perm == b.perm)
  {
  }

  lemma {:induction false} SameMaps<V>(a: map<string, V>, b: map<string, V>)
    requires forall p :: Opt(a, p) == Opt(b, p)
    ensures a == b
  {
    forall p ensures p in a <==> p in b {
      assert Opt(a, p) == Opt(b, p);
    }
    forall p | p in a ensures a[p] == b[p] {
      assert Opt(a, p) == Opt(b, p);
    }
  }

  lemma {:induction false} SameMapsIff<V>(a: map<string, V>, b: map<string, V>)
    requires forall p :: p in a <==> p in b
    ensures a == b <==> forall p :: p in b ==> a[p] == b[p]
    ensures a.Keys == b.Keys
  {
  }

  // ---- the checks after restoring ----

  /** Git sees the restored tree as it saw the captured one. */
  lemma {:induction false} RestoredStatus(t: Tree, s: seq<Change>, items: seq<Item>, perm: bool -> nat, c: Change)
    requires IsStatus(t, s) && DistinctPaths(s) && Records(t, s, items) && Faithful(perm)
    ensures Reports(Restored(t, items, perm), c) <==> Reports(t, c)
  {
    RoundTrip(t, s, items, perm);
    hide RestoreAll, Restored, IsStatus, DistinctPaths, Records;
  }

  /** The largest file the check after a restore reads. */
  const RESTORE_LIMIT: nat := 4 * 1024 * 1024

  /** What the check finds at a path: nothing readable, or exactly what was recorded. */
  predicate Restorable(t: Tree, i: Item) {
    && Opt(t.work, i.path) == i.work && Opt(t.index, i.path) == i.index
    && (i.work.Some? ==> !Special(i.work.value.perm) && |i.work.value.bytes| <= RESTORE_LIMIT)
    && (i.index.Some? ==> |i.index.value.bytes| <= RESTORE_LIMIT)
  }

  /** What the final check asks of one restored path: the recorded contents and permission, plain, and within 4 MiB. */
  lemma {:induction false} RestorableMeans(t: Tree, i: Item)
    ensures Restorable(t, i) <==>
      && (i.path in t.work <==> i.work.Some?) && (i.path in t.index <==> i.index.Some?)
      && (i.work.Some? ==> t.work[i.path].bytes == i.work.value.bytes && t.work[i.path].perm == i.work.value.perm
                           && i.work.value.perm / 512 % 8 == 0 && |i.work.value.bytes| <= 4_194_304)
      && (i.index.Some? ==> t.index[i.path] == i.index.value && |i.index.value.bytes| <= 4_194_304)
  {
  }

  ghost predicate Passes(t: Tree, status: seq<Change>, items: seq<Item>) {
    && |status| == |items|
    && (forall c :: c in status ==> exists i :: 0 <= i < |items| && items[i].path == c.path && items[i].status == c.status)
    && (forall i :: 0 <= i < |items| ==> Restorable(t, items[i]))
  }

  /** Finds the recorded item of a path. */
  method Find(items: seq<Item>, path: string) returns (k: nat)
    ensures k <= |items|
    ensures k < |items| ==> items[k].path == path
    ensures k == |items| ==> forall i :: 0 <= i < |items| ==> items[i].path != path
  {
    k := 0;
    while k < |items| && items[k].path != path
      invariant k <= |items| && forall i :: 0 <= i < k ==> items[i].path != path
    {
      k := k + 1;
    }
  }

  /** Restores a capture onto a checkout of its base, then checks Git's status and every recorded content. */
  method RestoreWip(base: map<string, Blob>, perm: bool -> nat, items: seq<Item>) returns (t: Tree, ok: bool)
    requires DistinctItems(items)
    ensures t == RestoreAll(Checkout(base, perm), items)
    ensures ok <==> exists status :: IsStatus(t, status) && Passes(t, status, items)
  {
    hide IsStatus, Restorable;
    t := Checkout(base, perm);
    ghost var start := t;
    for i := 0 to |items|
      invariant t == RestoreAll(start, items[..i])
    {
      assert items[..i + 1][..i] == items[..i];
      var item := items[i];
      t := t.(index := Put(t.index, item.path, item.index));
      t := t.(work := Put(t.work, item.path, item.work));
    }
    assert items[..|items|] == items;
    var status := Status(t);
    ok := |status| == |items|;
    var i := 0;
    while ok && i < |status|
      invariant i <= |status|
      invariant ok ==> |status| == |items|
      invariant ok ==> forall k :: 0 <= k < i ==> exists n :: 0 <= n < |items| && items[n].path == status[k].path && items[n].status == status[k].status
      invariant !ok ==> !Passes(t, status, items)
      decreases |status| - i
    {
      var k := Find(items, status[i].path);
      assert status[i] in status;
      ok := k < |items| && items[k].status == status[i].status;
      i := i + 1;
    }
    i := 0;
    while ok && i < |items|
      invariant i <= |items|
      invariant ok ==> |status| == |items| && forall c :: c in status ==> exists n :: 0 <= n < |items| && items[n].path == c.path && items[n].status == c.status
      invariant ok ==> forall k :: 0 <= k < i ==> Restorable(t, items[k])
      invariant !ok ==> !Passes(t, status, items)
      decreases |items| - i
    {
      ok := Restorable(t, items[i]);
      i := i + 1;
    }
    assert ok <==> Passes(t, status, items);
    forall other | IsStatus(t, other) ensures Passes(t, other, items) ==> Passes(t, status, items) {
      SameStatus(t, status, other);
    }
  }

  lemma {:induction false} SameStatus(t: Tree, a: seq<Change>, b: seq<Change>)
    requires IsStatus(t, a) && IsStatus(t, b)
    ensures |a| == |b| && forall c :: c in a <==> c in b
  {
    StatusSizes(t, a, t, b);
  }

  lemma {:induction false} SizeOf(a: seq<Change>)
    requires forall i, j :: 0 <= i < j < |a| ==> a[i] != a[j]
    ensures |set c | c in a| == |a|
  {
    if a != [] {
      var rest, last := a[..|a| - 1], a[|a| - 1];
      SizeOf(rest);
      assert (set c | c in a) == (set c | c in rest) + {last};
      assert last !in rest;
    }
  }

  /** A restored capture passes the final check exactly if no recorded content is larger than the check reads. */
  lemma {:induction false} RestorePasses(t: Tree, s: seq<Change>, ignored: seq<Ignored>, items: seq<Item>, perm: bool -> nat,
                                         status: seq<Change>, l: Limits, rules: Rules)
    requires IsStatus(t, s) && Records(t, s, items) && Faithful(perm) && Recordable(t, s, ignored, l, rules)
    requires IsStatus(Restored(t, items, perm), status)
    ensures Passes(Restored(t, items, perm), status, items) <==> forall i :: 0 <= i < |items| ==> SmallEnough(items[i])
  {
    var r := Restored(t, items, perm);
    hide Restored, IsStatus, Faithful, DistinctPaths, Restorable, SmallEnough, FaultAt;
    forall c ensures c in status <==> c in s {
      RestoredStatus(t, s, items, perm, c);
      ReportsAre(t, s, c);
      ReportsAre(r, status, c);
    }
    StatusSizes(t, s, r, status);
    forall k | 0 <= k < |items| ensures Restorable(r, items[k]) <==> SmallEnough(items[k]) {
      RestorableAt(t, s, ignored, items, perm, l, rules, k);
    }
    forall c | c in status ensures exists k :: 0 <= k < |items| && items[k].path == c.path && items[k].status == c.status {
      var i :| 0 <= i < |s| && s[i] == c;
      assert ItemsOf(t, s)[i] == ItemOf(t, s[i]) && ItemsOf(t, s)[i] in items;
      var k :| 0 <= k < |items| && items[k] == ItemOf(t, s[i]);
    }
  }

  predicate SmallEnough(i: Item) {
    (i.work.Some? ==> |i.work.value.bytes| <= RESTORE_LIMIT) && (i.index.Some? ==> |i.index.value.bytes| <= RESTORE_LIMIT)
  }

  lemma {:induction false} ReportsAre(t: Tree, s: seq<Change>, c: Change)
    requires IsStatus(t, s)
    ensures c in s <==> Reports(t, c)
  {
  }

  lemma {:induction false} StatusSizes(t: Tree, a: seq<Change>, u: Tree, b: seq<Change>)
    requires IsStatus(t, a) && IsStatus(u, b) && forall c :: c in b <==> c in a
    ensures |a| == |b|
  {
    SizeOf(a);
    SizeOf(b);
    assert (set c | c in a) == (set c | c in b);
  }

  lemma {:induction false} RestorableAt(t: Tree, s: seq<Change>, ignored: seq<Ignored>, items: seq<Item>, perm: bool -> nat,
                                        l: Limits, rules: Rules, k: nat)
    requires IsStatus(t, s) && Records(t, s, items) && Faithful(perm) && Recordable(t, s, ignored, l, rules) && k < |items|
    ensures Restorable(Restored(t, items, perm), items[k]) <==> SmallEnough(items[k])
  {
    assert items[k] in ItemsOf(t, s);
    var i :| 0 <= i < |s| && ItemsOf(t, s)[i] == items[k];
    ItemsAreExact(t, s, i);
    RoundTripAt(t, s, items, perm, s[i].path);
    assert FaultAt(t, s, l, rules, i).None? && !Unfit(l, rules, ItemOf(t, s[i]));
    hide Restored, IsStatus, Faithful, DistinctPaths;
  }

  // ---- a capture that cannot be restored ----

  /** One untracked file, a byte larger than the check after a restore reads. */
  function LargeTree(): Tree { Tree(map[], map[], map["large" := File(420, seq(RESTORE_LIMIT + 1, _ => 0 as bv8))]) }

  /** A capture configured for larger files records it, and its restore fails the final check. */
  lemma {:induction false} LargeFilesDoNotRestore(locale: string -> real, perm: bool -> nat, status: seq<Change>)
    requires Faithful(perm)
    ensures var t, s, l := LargeTree(), [Change(UNTRACKED, "large")], Limits(1, 2 * RESTORE_LIMIT, 2 * RESTORE_LIMIT);
      var rules := Rules(_ => false, _ => false, locale);
      && IsStatus(t, s) && Recordable(t, s, [], l, rules)
      && var items := Sorted(locale, ItemsOf(t, s));
         IsStatus(Restored(t, items, perm), status) ==> !Passes(Restored(t, items, perm), status, items)
  {
    var t, s, l := LargeTree(), [Change(UNTRACKED, "large")], Limits(1, 2 * RESTORE_LIMIT, 2 * RESTORE_LIMIT);
    var rules := Rules(_ => false, _ => false, locale);
    LargeIsReported();
    LargeIsRecordable(l, rules);
    var items := Sorted(locale, ItemsOf(t, s));
    CaptureRecords(t, s, locale);
    assert ItemsOf(t, s)[0] in items;
    var k :| 0 <= k < |items| && items[k] == ItemOf(t, s[0]);
    assert !SmallEnough(items[k]);
    hide IsStatus, Recordable, Passes, Restored, Faithful;
    if IsStatus(Restored(t, items, perm), status) {
      RestorePasses(t, s, [], items, perm, status, l, rules);
    }
  }

  lemma {:induction false} LargeIsReported()
    ensures IsStatus(LargeTree(), [Change(UNTRACKED, "large")])
  {
    var t, s := LargeTree(), [Change(UNTRACKED, "large")];
    forall c ensures c in s <==> Reports(t, c) {
      assert !Changed(t, c.path);
    }
  }

  lemma {:induction false} LargeSize()
    ensures |LargeTree().work["large"].bytes| == RESTORE_LIMIT + 1 && !Special(LargeTree().work["large"].perm)
  {
  }

  lemma {:induction false} LargeIsRecordable(l: Limits, rules: Rules)
    requires l == Limits(1, 2 * RESTORE_LIMIT, 2 * RESTORE_LIMIT)
    requires (forall p :: !rules.vetoedPath(p)) && forall i :: !rules.vetoedContent(i)
    ensures Recordable(LargeTree(), [Change(UNTRACKED, "large")], [], l, rules)
  {
    var t, s := LargeTree(), [Change(UNTRACKED, "large")];
    assert 'D' !in UNTRACKED;
    assert ItemOf(t, s[0]) == Item("large", UNTRACKED, Some(t.work["large"]), None);
    var one := [ItemOf(t, s[0])];
    assert ItemsOf(t, s)[..1] == one && one[..|one| - 1] == [];
    assert Total(one) == Total([]) + Size(one[0]);
    LargeSize();
    assert !Unfit(l, rules, ItemOf(t, s[0]));
    assert FaultAt(t, s, l, rules, 0).None?;
  }
}
