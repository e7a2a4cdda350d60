/**
 Lexical path scope (src/authz/path_scope.ts): normalisation of dot and dot-dot segments, basename globs, and the
 test of a path against the entries of a scope.
 */
module PathScopes {

  // ---- segments ----

  /** The segments between slashes. */
  function Split(s: string): (r: seq<string>)
    ensures |r| > 0
  {
    if s == "" then [""]
    else if s[0] == '/' then [""] + Split(s[1..])
    else
      var r := Split(s[1..]);
      [[s[0]] + r[0]] + r[1..]
  }

  function Join(segs: seq<string>): string {
    if segs == [] then "" else if |segs| == 1 then segs[0] else segs[0] + "/" + Join(segs[1..])
  }

  predicate Slashless(segs: seq<string>) { forall i :: 0 <= i < |segs| ==> '/' !in segs[i] }

  lemma {:induction false} SplitAppend(a: string, b: string)
    ensures Split(a + "/" + b) == Split(a) + Split(b)
  {
    var whole := a + "/" + b;
    if a == "" {
      assert whole[0] == '/' && whole[1..] == b;
      assert Split(whole) == [""] + Split(b);
    } else {
      assert whole[0] == a[0] && whole[1..] == a[1..] + "/" + b;
      SplitAppend(a[1..], b);
      var x, y := Split(a[1..]), Split(b);
      assert [""] + (x + y) == [""] + x + y;
      assert [[a[0]] + x[0]] + (x + y)[1..] == [[a[0]] + x[0]] + x[1..] + y;
    }
  }

  lemma {:induction false} SplitSlashless(a: string)
    requires '/' !in a
    ensures Split(a) == [a]
  {
    if a != "" {
      assert '/' !in a[1..];
      SplitSlashless(a[1..]);
      var r := Split(a[1..]);
      assert [a[0]] + a[1..] == a && r[1..] == [];
    }
  }

  lemma {:induction false} SplitJoin(segs: seq<string>)
    requires segs != [] && Slashless(segs)
    ensures Split(Join(segs)) == segs
  {
    SplitSlashless(segs[0]);
    if |segs| > 1 {
      assert forall i :: 0 <= i < |segs[1..]| ==> segs[1..][i] == segs[i + 1];
      SplitJoin(segs[1..]);
      SplitAppend(segs[0], Join(segs[1..]));
    }
  }

  lemma {:induction false} JoinAppend(a: seq<string>, b: seq<string>)
    requires a != [] && b != []
    ensures Join(a + b) == Join(a) + "/" + Join(b)
  {
    assert (a + b)[1..] == a[1..] + b;
    if |a| > 1 {
      JoinAppend(a[1..], b);
    }
  }

  // ---- positions ----

  /** Where a path leads: absolute, or so many directories up and then down through names. */
  datatype Position = Position(absolute: bool, ups: nat, names: seq<string>)

  predicate Stays(seg: string) { seg == "" || seg == "." }

  /** One segment of a path. */
  function Move(p: Position, seg: string): Position {
    if Stays(seg) then p
    else if seg != ".." then p.(names := p.names + [seg])
    else if p.names != [] then p.(names := p.names[..|p.names| - 1])
    else if p.absolute then p
    else p.(ups := p.ups + 1)
  }

  function Walk(p: Position, segs: seq<string>): Position
    decreases |segs|
  {
    if segs == [] then p else Walk(Move(p, segs[0]), segs[1..])
  }

  predicate Absolute(path: string) { path != "" && path[0] == '/' }

  /** The normal form of a path. */
  function Normal(path: string): Position { Walk(Position(Absolute(path), 0, []), Split(path)) }

  predicate Name(s: string) { !Stays(s) && s != ".." && '/' !in s }

  predicate WellFormed(p: Position) {
    (p.absolute ==> p.ups == 0) && forall i :: 0 <= i < |p.names| ==> Name(p.names[i])
  }

  function Ups(n: nat): seq<string> { seq(n, _ => "..") }

  function Segments(p: Position): seq<string> { Ups(p.ups) + p.names }

  /** POSIX path normalisation, which keeps a trailing slash. */
  function Normalize(path: string): (r: string)
    ensures r != ""
  {
    if path == "" then "."
    else
      var core, trailing := Join(Segments(Normal(path))), path[|path| - 1] == '/';
      if core == "" then (if Absolute(path) then "/" else if trailing then "./" else ".")
      else (if Absolute(path) then "/" else "") + core + if trailing then "/" else ""
  }

  function CanonicalPath(path: string): string {
    var n := Normalize(path);
    if |n| > 1 && n[|n| - 1] == '/' then n[..|n| - 1] else n
  }

  /** How a position is written. */
  function Render(p: Position): string {
    if p.absolute then "/" + Join(p.names) else if Segments(p) == [] then "." else Join(Segments(p))
  }

  lemma {:induction false} WalkWellFormed(p: Position, segs: seq<string>)
    requires WellFormed(p) && Slashless(segs)
    ensures WellFormed(Walk(p, segs)) && Walk(p, segs).absolute == p.absolute
    decreases |segs|
  {
    if segs != [] {
      assert '/' !in segs[0];
      WalkWellFormed(Move(p, segs[0]), segs[1..]);
    }
  }

  lemma {:induction false} SplitIsSlashless(s: string)
    ensures Slashless(Split(s))
  {
    if s != "" {
      SplitIsSlashless(s[1..]);
    }
  }

  lemma {:induction false} NormalWellFormed(path: string)
    ensures WellFormed(Normal(path)) && Normal(path).absolute == Absolute(path)
  {
    SplitIsSlashless(path);
    WalkWellFormed(Position(Absolute(path), 0, []), Split(path));
  }

  lemma {:induction false} SegmentsSlashless(p: Position)
    requires WellFormed(p)
    ensures Slashless(Segments(p)) && forall i :: 0 <= i < |Segments(p)| ==> Segments(p)[i] != ""
  {
  }

  /** A join of nonempty slashless segments is empty only for none, and never ends or begins with a slash. */
  lemma {:induction false} JoinEnds(segs: seq<string>)
    requires Slashless(segs) && forall i :: 0 <= i < |segs| ==> segs[i] != ""
    ensures segs == [] <==> Join(segs) == ""
    ensures segs != [] ==> Join(segs)[0] == segs[0][0] && Join(segs)[|Join(segs)| - 1] != '/' && Join(segs)[0] != '/'
  {
    if |segs| > 1 {
      assert forall i :: 0 <= i < |segs[1..]| ==> segs[1..][i] == segs[i + 1];
      JoinEnds(segs[1..]);
    }
    if segs != [] {
      assert segs[0][0] in segs[0] && segs[0][|segs[0]| - 1] in segs[0];
    }
  }

  /** A trailing slash stays, and no other result but the root ends in one. */
  lemma {:induction false} TrailingSlashStays(path: string)
    requires path != ""
    ensures Normalize(path)[|Normalize(path)| - 1] == '/' <==> path[|path| - 1] == '/' || Normalize(path) == "/"
  {
    NormalWellFormed(path);
    SegmentsSlashless(Normal(path));
    JoinEnds(Segments(Normal(path)));
    hide Normal, Join, Segments, Absolute;
    LastOf(if Absolute(path) then "/" else "", Join(Segments(Normal(path))));
  }

  lemma {:induction false} LastOf(start: string, core: string)
    ensures core != "" ==> (start + core)[|start + core| - 1] == core[|core| - 1] && |start + core| >= 1
    ensures (start + core + "/")[|start + core|] == '/'
    ensures core != "" && core[|core| - 1] != '/' ==> start + core != "/"
  {
    if core != "" {
      assert (start + core)[|start + core| - 1] == core[|core| - 1];
    }
  }

  /** Normalising and dropping the trailing slash writes down the normal form. */
  lemma {:induction false} CanonicalIsRender(path: string)
    ensures CanonicalPath(path) == Render(Normal(path))
  {
    NormalWellFormed(path);
    var p := Normal(path);
    SegmentsSlashless(p);
    JoinEnds(Segments(p));
    if p.absolute {
      assert Segments(p) == p.names;
    }
    if path == "" {
      assert Split("") == [""];
    } else {
      hide Normal, Join, Segments;
      if Join(Segments(p)) != "" {
        NormalizeEnds(path);
      }
    }
  }

  /** The two ways a normalised path can end. */
  lemma {:induction false} NormalizeEnds(path: string)
    requires path != "" && Join(Segments(Normal(path))) != "" && Join(Segments(Normal(path)))[|Join(Segments(Normal(path)))| - 1] != '/'
    ensures CanonicalPath(path) == (if Absolute(path) then "/" else "") + Join(Segments(Normal(path)))
  {
    hide Normal, Join, Segments;
    var core := Join(Segments(Normal(path)));
    var start := if Absolute(path) then "/" else "";
    assert (start + core + "/")[..|start + core|] == start + core;
  }

  lemma {:induction false} WalkNames(p: Position, names: seq<string>)
    requires forall i :: 0 <= i < |names| ==> Name(names[i])
    ensures Walk(p, names) == p.(names := p.names + names)
    decreases |names|
  {
    if names == [] {
      assert p.names + names == p.names;
    } else {
      WalkNames(Move(p, names[0]), names[1..]);
      assert p.names + [names[0]] + names[1..] == p.names + names;
    }
  }

  lemma {:induction false} WalkUps(p: Position, n: nat, rest: seq<string>)
    requires !p.absolute && p.names == []
    ensures Walk(p, Ups(n) + rest) == Walk(p.(ups := p.ups + n), rest)
    decreases n
  {
    if n == 0 {
      assert Ups(0) + rest == rest;
    } else {
      assert (Ups(n) + rest)[0] == ".." && (Ups(n) + rest)[1..] == Ups(n - 1) + rest;
      WalkUps(Move(p, ".."), n - 1, rest);
    }
  }

  /** Reading what was written gives the position back. */
  lemma {:induction false} NormalOfRender(p: Position)
    requires WellFormed(p)
    ensures Normal(Render(p)) == p
  {
    var start := Position(p.absolute, 0, []);
    SegmentsSlashless(p);
    JoinEnds(Segments(p));
    WalkNames(start, p.names);
    WalkNames(start.(ups := p.ups), p.names);
    if p.absolute {
      assert Segments(p) == p.names;
      SplitAppend("", Join(p.names));
      assert "" + "/" + Join(p.names) == Render(p);
      assert Split("") == [""];
      assert ([""] + Split(Join(p.names)))[1..] == Split(Join(p.names));
      if p.names != [] {
        SplitJoin(p.names);
      } else {
        assert Split(Join(p.names)) == [""] && [""][1..] == [];
        assert Walk(start, [""]) == Walk(start, []) == start;
      }
    } else if Segments(p) == [] {
      assert p.ups == 0 && p.names == [];
      SplitSlashless(".");
      assert ["."][1..] == [];
    } else {
      SplitJoin(Segments(p));
      WalkUps(start, p.ups, p.names);
    }
  }

  /** Canonical paths are their own canonical form. */
  lemma {:induction false} CanonicalIsIdempotent(path: string)
    ensures CanonicalPath(CanonicalPath(path)) == CanonicalPath(path)
  {
    CanonicalIsRender(path);
    NormalWellFormed(path);
    NormalOfRender(Normal(path));
    CanonicalIsRender(Render(Normal(path)));
  }

  // ---- meaning ----

  /** Walking a path's segments from a directory, as a system without links does. */
  function Go(dir: seq<string>, segs: seq<string>): seq<string>
    decreases |segs|
  {
    if segs == [] then dir
    else if Stays(segs[0]) then Go(dir, segs[1..])
    else if segs[0] != ".." then Go(dir + [segs[0]], segs[1..])
    else Go(if dir == [] then [] else dir[..|dir| - 1], segs[1..])
  }

  /** Where a path leads from a directory. */
  function Resolve(dir: seq<string>, path: string): seq<string> { Go(if Absolute(path) then [] else dir, Split(path)) }

  /** Where a position is, seen from a directory. */
  function From(dir: seq<string>, p: Position): seq<string> {
    (if p.absolute || p.ups >= |dir| then [] else dir[..|dir| - p.ups]) + p.names
  }

  lemma {:induction false} GoIsWalk(dir: seq<string>, p: Position, segs: seq<string>)
    ensures Go(From(dir, p), segs) == From(dir, Walk(p, segs))
    decreases |segs|
  {
    if segs != [] {
      var here, seg := From(dir, p), segs[0];
      GoIsWalk(dir, Move(p, seg), segs[1..]);
      if Stays(seg) {
      } else if seg != ".." {
        assert From(dir, Move(p, seg)) == here + [seg];
      } else {
        assert From(dir, Move(p, seg)) == if here == [] then [] else here[..|here| - 1];
      }
    }
  }

  lemma {:induction false} ResolveIsNormal(dir: seq<string>, path: string)
    ensures Resolve(dir, path) == From(dir, Normal(path))
  {
    var p := Position(Absolute(path), 0, []);
    GoIsWalk(dir, p, Split(path));
    assert dir[..|dir|] == dir;
    assert From(dir, p) == if Absolute(path) then [] else dir;
    NormalWellFormed(path);
  }

  /** The canonical path leads to the same place from every directory. */
  lemma {:induction false} CanonicalKeepsMeaning(dir: seq<string>, path: string)
    ensures Resolve(dir, CanonicalPath(path)) == Resolve(dir, path)
  {
    CanonicalIsRender(path);
    NormalWellFormed(path);
    NormalOfRender(Normal(path));
    ResolveIsNormal(dir, path);
    ResolveIsNormal(dir, Render(Normal(path)));
  }

  /** A directory of `n` levels, all of one name. */
  function Deep(n: nat, name: string): seq<string> { seq(n, _ => name) }

  function Longer(names: seq<string>): (s: string)
    ensures forall i :: 0 <= i < |names| ==> |names[i]| < |s|
  {
    if names == [] then "x" else
      var rest := Longer(names[1..]);
      if |rest| > |names[0]| then rest else names[0] + "x"
  }

  /** How many of `n` directory levels a position keeps. */
  function Depth(p: Position, n: nat): nat
    requires p.ups < n
  {
    if p.absolute then 0 else n - p.ups
  }

  lemma {:induction false} FromDeep(p: Position, all: seq<string>, n: nat, k: nat)
    requires p.ups < n && k + |p.names| <= |all| && p.names == all[k..k + |p.names|]
    ensures var level, x := Longer(all), Depth(p, n); var a := From(Deep(n, level), p);
      && a == Deep(x, level) + p.names
      && (forall i :: 0 <= i < x ==> a[i] == level) && (forall i :: x <= i < |a| ==> a[i] != level)
  {
    var level, x := Longer(all), Depth(p, n);
    var a := From(Deep(n, level), p);
    assert Deep(n, level)[..x] == Deep(x, level);
    forall i | x <= i < |a| ensures a[i] != level {
      assert a[i] == p.names[i - x] == all[k + (i - x)];
    }
  }

  /** Positions that agree from every directory are the same. */
  lemma {:induction false} SameEverywhere(p: Position, q: Position)
    requires WellFormed(p) && WellFormed(q) && forall dir :: From(dir, p) == From(dir, q)
    ensures p == q
  {
    var level := Longer(p.names + q.names);
    var n := p.ups + q.ups + 1;
    var dir := Deep(n, level);
    var x, y := Depth(p, n), Depth(q, n);
    FromDeep(p, p.names + q.names, n, 0);
    FromDeep(q, p.names + q.names, n, |p.names|);
    assert From(dir, p) == From(dir, q);
    LevelsEnd(From(dir, p), x, y, level);
    assert From(dir, p)[x..] == p.names && From(dir, q)[y..] == q.names;
  }

  /** A run of one name that ends where other names begin has only one length. */
  lemma {:induction false} LevelsEnd(a: seq<string>, x: nat, y: nat, level: string)
    requires x <= |a| && y <= |a|
    requires (forall i :: 0 <= i < x ==> a[i] == level) && (forall i :: x <= i < |a| ==> a[i] != level)
    requires (forall i :: 0 <= i < y ==> a[i] == level) && (forall i :: y <= i < |a| ==> a[i] != level)
    ensures x == y
  {
    assert x < |a| ==> a[x] != level;
    assert y < |a| ==> a[y] != level;
  }

  /** Two paths have the same canonical form exactly if they lead to the same place from every directory. */
  lemma {:induction false} CanonicalIffSameMeaning(p: string, q: string)
    ensures CanonicalPath(p) == CanonicalPath(q) <==> forall dir :: Resolve(dir, p) == Resolve(dir, q)
  {
    if CanonicalPath(p) == CanonicalPath(q) {
      forall dir ensures Resolve(dir, p) == Resolve(dir, q) {
        CanonicalKeepsMeaning(dir, p);
        CanonicalKeepsMeaning(dir, q);
      }
    }
    if forall dir :: Resolve(dir, p) == Resolve(dir, q) {
      forall dir ensures From(dir, Normal(p)) == From(dir, Normal(q)) {
        ResolveIsNormal(dir, p);
        ResolveIsNormal(dir, q);
        assert Resolve(dir, p) == Resolve(dir, q);
      }
      NormalWellFormed(p);
      NormalWellFormed(q);
      SameEverywhere(Normal(p), Normal(q));
      CanonicalIsRender(p);
      CanonicalIsRender(q);
    }
  }

  // ---- globs ----

  /** A pattern without slash but with a star is matched against a path's last segment. */
  predicate BasenameGlob(pattern: string) { '/' !in pattern && '*' in pattern }

  /** A star matches any run of characters without slash; any other character matches itself. */
  function Matches(pattern: string, s: string): bool
    decreases |pattern| + |s|
  {
    if pattern == "" then s == ""
    else if pattern[0] == '*' then Matches(pattern[1..], s) || (s != "" && s[0] != '/' && Matches(pattern, s[1..]))
    else s != "" && s[0] == pattern[0] && Matches(pattern[1..], s[1..])
  }

  /** The literals between the stars of a pattern. */
  function Literals(pattern: string): (r: seq<string>)
    ensures |r| > 0
  {
    if pattern == "" then [""]
    else
      var r := Literals(pattern[1..]);
      if pattern[0] == '*' then [""] + r else [[pattern[0]] + r[0]] + r[1..]
  }

  /** Literals with a run between each two. */
  function Interleave(literals: seq<string>, runs: seq<string>): string
    requires |literals| == |runs| + 1
  {
    if runs == [] then literals[0] else literals[0] + runs[0] + Interleave(literals[1..], runs[1..])
  }

  lemma {:induction false} InterleaveLonger(c: char, literals: seq<string>, runs: seq<string>)
    requires |literals| == |runs| + 1
    ensures Interleave([[c] + literals[0]] + literals[1..], runs) == [c] + Interleave(literals, runs)
  {
    var longer := [[c] + literals[0]] + literals[1..];
    assert longer[1..] == literals[1..];
    if runs != [] {
      var rest := runs[0] + Interleave(literals[1..], runs[1..]);
      assert [c] + literals[0] + rest == [c] + (literals[0] + rest);
      assert literals[0] + runs[0] + Interleave(literals[1..], runs[1..]) == literals[0] + rest;
      assert [c] + literals[0] + runs[0] + Interleave(literals[1..], runs[1..]) == [c] + literals[0] + rest;
    }
  }

  /** A match comes from filling each star with a slashless run. */
  lemma {:induction false} MatchesFills(pattern: string, s: string) returns (runs: seq<string>)
    requires Matches(pattern, s)
    ensures |Literals(pattern)| == |runs| + 1 && Slashless(runs) && s == Interleave(Literals(pattern), runs)
    decreases |pattern| + |s|
  {
    if pattern == "" {
      runs := [];
    } else if pattern[0] != '*' {
      runs := MatchesFills(pattern[1..], s[1..]);
      InterleaveLonger(pattern[0], Literals(pattern[1..]), runs);
      assert s == [s[0]] + s[1..];
    } else if Matches(pattern[1..], s) {
      var rest := MatchesFills(pattern[1..], s);
      runs := [""] + rest;
      assert runs[1..] == rest && Literals(pattern)[1..] == Literals(pattern[1..]);
    } else {
      var rest := MatchesFills(pattern, s[1..]);
      runs := [[s[0]] + rest[0]] + rest[1..];
      RunLonger(s[0], Literals(pattern), rest);
      assert s == [s[0]] + s[1..];
    }
  }

  /** One more character in the run behind an empty first literal is one more character in front. */
  lemma {:induction false} RunLonger(c: char, literals: seq<string>, runs: seq<string>)
    requires |literals| == |runs| + 1 && runs != [] && literals[0] == "" && c != '/' && Slashless(runs)
    ensures var more := [[c] + runs[0]] + runs[1..];
      |more| == |runs| && Slashless(more) && Interleave(literals, more) == [c] + Interleave(literals, runs)
  {
    var more := [[c] + runs[0]] + runs[1..];
    assert more[1..] == runs[1..];
    var rest := Interleave(literals[1..], runs[1..]);
    assert literals[0] + more[0] + rest == [c] + (literals[0] + runs[0] + rest);
  }

  /** Filling the stars with slashless runs always matches. */
  lemma {:induction false} FilledMatches(pattern: string, runs: seq<string>)
    requires |Literals(pattern)| == |runs| + 1 && Slashless(runs)
    ensures Matches(pattern, Interleave(Literals(pattern), runs))
    decreases |pattern| + |Interleave(Literals(pattern), runs)|
  {
    var s := Interleave(Literals(pattern), runs);
    if pattern == "" {
    } else if pattern[0] != '*' {
      var r := Literals(pattern[1..]);
      InterleaveLonger(pattern[0], r, runs);
      assert s[1..] == Interleave(r, runs);
      FilledMatches(pattern[1..], runs);
    } else {
      assert Literals(pattern)[1..] == Literals(pattern[1..]);
      if runs[0] == "" {
        assert s == Interleave(Literals(pattern[1..]), runs[1..]);
        assert Slashless(runs[1..]);
        FilledMatches(pattern[1..], runs[1..]);
      } else {
        var fewer := [runs[0][1..]] + runs[1..];
        assert fewer[1..] == runs[1..] && runs[0][0] in runs[0];
        assert Slashless(fewer);
        assert s[1..] == Interleave(Literals(pattern), fewer);
        FilledMatches(pattern, fewer);
      }
    }
  }

  /** `s` is the pattern with its stars replaced by the runs, none of which has a slash. */
  predicate Fills(pattern: string, runs: seq<string>, s: string) {
    |Literals(pattern)| == |runs| + 1 && Slashless(runs) && s == Interleave(Literals(pattern), runs)
  }

  /** A string matches a glob exactly if it is the pattern with every star replaced by a run without slash. */
  lemma {:induction false} GlobMeaning(pattern: string, s: string)
    ensures Matches(pattern, s) <==> exists runs :: Fills(pattern, runs, s)
  {
    if Matches(pattern, s) {
      var runs := MatchesFills(pattern, s);
      assert Fills(pattern, runs, s);
    }
    if runs :| Fills(pattern, runs, s) {
      FilledMatches(pattern, runs);
    }
  }

  // ---- the scope test ----

  predicate StartsWith(s: string, prefix: string) { prefix <= s }

  /** What follows the last slash. */
  function Basename(s: string): string
    decreases |s|
  {
    if s == "" then "" else if s[|s| - 1] == '/' then "" else Basename(s[..|s| - 1]) + [s[|s| - 1]]
  }

  predicate EntryAdmits(raw: string, p: string) {
    if raw == "*" then true
    else if BasenameGlob(raw) then Matches(raw, Basename(p))
    else
      var prefix := CanonicalPath(raw);
      prefix == "." || p == prefix || StartsWith(p, if prefix != "" && prefix[|prefix| - 1] == '/' then prefix else prefix + "/")
  }

  predicate WithinScope(scope: seq<string>, path: string) {
    var p := CanonicalPath(path);
    !(p == ".." || StartsWith(p, "../")) && exists i :: 0 <= i < |scope| && EntryAdmits(scope[i], p)
  }

  /** The path leads above the root. */
  predicate Above(p: Position) { p.ups > 0 }

  /** `p` lies at or below `q`, segment by segment; the root of relative paths contains every path. */
  predicate Under(p: Position, q: Position) {
    q == Position(false, 0, []) || (p.absolute == q.absolute && p.ups == q.ups && q.names <= p.names)
  }

  lemma {:induction false} PrefixOfJoin(a: seq<string>, b: seq<string>, rest: string)
    requires a != [] && b != [] && Slashless(a) && Slashless(b) && Join(b) == Join(a) + "/" + rest
    ensures |a| < |b| && a <= b
  {
    SplitJoin(a);
    SplitJoin(b);
    hide Join, Split;
    SplitAppend(Join(a), rest);
    assert b == a + Split(rest);
  }

  lemma {:induction false} RestOf(s: string, prefix: string)
    requires StartsWith(s, prefix)
    ensures |prefix| <= |s| && s == prefix + s[|prefix|..]
  {
  }

  lemma {:induction false} JoinOfPrefix(a: seq<string>, b: seq<string>)
    requires a != [] && |a| < |b| && a <= b
    ensures StartsWith(Join(b), Join(a) + "/")
  {
    hide Join;
    var c := b[|a|..];
    assert b == a + c;
    JoinAppend(a, c);
  }

  /** One join is a proper prefix of another up to a slash exactly if its segments are. */
  lemma {:induction false} JoinPrefix(a: seq<string>, b: seq<string>)
    requires a != [] && b != [] && Slashless(a) && Slashless(b)
    ensures StartsWith(Join(b), Join(a) + "/") <==> |a| < |b| && a <= b
    ensures Join(a) == Join(b) <==> a == b
  {
    SplitJoin(a);
    SplitJoin(b);
    hide Join, Split, StartsWith;
    if StartsWith(Join(b), Join(a) + "/") {
      RestOf(Join(b), Join(a) + "/");
      PrefixOfJoin(a, b, Join(b)[|Join(a) + "/"|..]);
    }
    if |a| < |b| && a <= b {
      JoinOfPrefix(a, b);
    }
  }

  lemma {:induction false} RenderedUp(p: Position)
    requires WellFormed(p)
    ensures Render(p) == ".." || StartsWith(Render(p), "../") <==> Above(p)
  {
    var segs := Segments(p);
    SegmentsSlashless(p);
    JoinEnds(segs);
    if !p.absolute && segs != [] {
      assert Join([".."]) == "..";
      JoinPrefix([".."], segs);
      assert segs[0] == ".." <==> p.ups > 0;
      assert [".."] <= segs <==> segs[0] == "..";
    } else if p.absolute {
      assert Render(p)[0] == '/';
    }
  }

  lemma {:induction false} RenderAbsolute(p: Position)
    requires WellFormed(p)
    ensures p.absolute ==> Render(p) == "/" + Join(p.names)
    ensures p.absolute <==> Render(p)[0..] != "" && Render(p)[0] == '/'
    ensures Render(p) == "." <==> p == Position(false, 0, [])
    ensures Render(p) != "" && (Render(p)[|Render(p)| - 1] == '/' <==> Render(p) == "/")
  {
    var segs := Segments(p);
    SegmentsSlashless(p);
    JoinEnds(segs);
    JoinEnds(p.names);
    if !p.absolute && segs != [] {
      JoinPrefix(["."], segs);
      assert Join(["."]) == ".";
      DotIsNoSegment(p);
    }
  }

  lemma {:induction false} DotIsNoSegment(p: Position)
    requires WellFormed(p)
    ensures Segments(p) != ["."]
  {
    if p.ups == 0 && p.names != [] {
      assert Segments(p)[0] == p.names[0];
    } else if p.ups > 0 {
      assert Segments(p)[0] == "..";
    }
  }

  /** An entry without a star admits a path inside the root exactly if the path lies under it, segment by segment. */
  lemma {:induction false} PrefixIsUnder(p: Position, q: Position)
    requires WellFormed(p) && WellFormed(q) && !Above(p)
    ensures var s, t := Render(p), Render(q);
      (t == "." || s == t || StartsWith(s, if t != "" && t[|t| - 1] == '/' then t else t + "/")) <==> Under(p, q)
  {
    RenderAbsolute(p);
    RenderAbsolute(q);
    if q == Position(false, 0, []) {
    } else if p.absolute != q.absolute {
      assert Render(p)[0] != Render(q)[0];
    } else if p.absolute {
      AbsoluteUnder(p, q);
    } else {
      RelativeUnder(p, q);
    }
  }

  lemma {:induction false} AbsoluteUnder(p: Position, q: Position)
    requires WellFormed(p) && WellFormed(q) && p.absolute && q.absolute
    ensures var s, t := Render(p), Render(q);
      (s == t || StartsWith(s, if t[|t| - 1] == '/' then t else t + "/")) <==> q.names <= p.names
  {
    assert Segments(p) == p.names && Segments(q) == q.names;
    SegmentsSlashless(p);
    SegmentsSlashless(q);
    JoinEnds(p.names);
    JoinEnds(q.names);
    if q.names != [] && p.names != [] {
      JoinPrefix(q.names, p.names);
      SlashPrefix(Join(p.names), Join(q.names));
    }
  }

  lemma {:induction false} SlashPrefix(s: string, t: string)
    ensures StartsWith("/" + s, "/" + t + "/") <==> StartsWith(s, t + "/")
    ensures "/" + s == "/" + t <==> s == t
  {
    assert ("/" + s)[1..] == s && ("/" + t + "/")[1..] == t + "/" && ("/" + t)[1..] == t;
    if StartsWith(s, t + "/") {
      assert "/" + t + "/" == "/" + (t + "/");
    }
  }

  lemma {:induction false} RelativeUnder(p: Position, q: Position)
    requires WellFormed(p) && WellFormed(q) && !p.absolute && !q.absolute && !Above(p) && Segments(q) != []
    ensures var s, t := Render(p), Render(q);
      (s == t || StartsWith(s, t + "/")) <==> p.ups == q.ups && q.names <= p.names
  {
    SegmentsSlashless(p);
    SegmentsSlashless(q);
    JoinEnds(Segments(q));
    var a, b := Segments(q), Segments(p);
    assert b == p.names;
    if b == [] {
      assert |Render(q)| >= 1;
      DotIsNoSegment(q);
      JoinPrefix(a, ["."]);
      assert Join(["."]) == ".";
    } else {
      JoinPrefix(a, b);
    }
    if q.ups > 0 {
      assert a[0] == "..";
    } else {
      assert a == q.names;
    }
  }

  /** The basename is the last segment of what is written. */
  lemma {:induction false} BasenameIsLast(s: string)
    ensures Basename(s) == Split(s)[|Split(s)| - 1]
    decreases |s|
  {
    if s != "" {
      var t, c := s[..|s| - 1], s[|s| - 1];
      assert s == t + [c];
      BasenameIsLast(t);
      if c == '/' {
        assert s == t + "/" + "";
        SplitAppend(t, "");
      } else {
        SplitSnoc(t, c);
      }
    }
  }

  lemma {:induction false} SplitSnoc(t: string, c: char)
    requires c != '/'
    ensures var r := Split(t); Split(t + [c]) == r[..|r| - 1] + [r[|r| - 1] + [c]]
  {
    if t != "" {
      var more := t + [c];
      assert more[0] == t[0] && more[1..] == t[1..] + [c];
      SplitSnoc(t[1..], c);
      var u, w := Split(t[1..]), Split(t[1..] + [c]);
      if t[0] == '/' {
        assert ([""] + u)[..|u|] == [""] + u[..|u| - 1];
      } else if |u| == 1 {
        assert w == [u[0] + [c]] && w[1..] == [] && u[1..] == [];
        assert [t[0]] + (u[0] + [c]) == [t[0]] + u[0] + [c];
      } else {
        assert w[1..] == u[1..][..|u| - 2] + [u[|u| - 1] + [c]];
        assert ([[t[0]] + u[0]] + u[1..])[..|u| - 1] == [[t[0]] + u[0]] + u[1..][..|u| - 2];
      }
    } else {
      SplitSlashless(t + [c]);
    }
  }

  // ---- what a scope admits, in terms of characters and segments ----

  /** The last segment of a path that does not lead above the root. */
  function LastSegment(p: Position): string {
    if p.names != [] then p.names[|p.names| - 1] else if p.absolute then "" else "."
  }

  lemma {:induction false} BasenameOfRender(p: Position)
    requires WellFormed(p) && !Above(p)
    ensures Basename(Render(p)) == LastSegment(p)
  {
    hide Basename, Join, Name, Slashless;
    SegmentsSlashless(p);
    assert Segments(p) == p.names;
    if p.names != [] {
      BasenameOfNames(p.absolute, p.names);
      assert "" + Join(p.names) == Join(p.names);
    } else {
      SplitNothing();
      BasenameIsLast("/");
      BasenameIsLast(".");
      SplitAppend("", "");
      assert "" + "/" + "" == "/" && "/" + Join(p.names) == "/";
      assert Split("/") == ["", ""];
    }
  }

  lemma {:induction false} BasenameOfNames(absolute: bool, names: seq<string>)
    requires names != [] && Slashless(names)
    ensures Basename((if absolute then "/" else "") + Join(names)) == names[|names| - 1]
  {
    hide Basename, Join, Split, Slashless;
    SplitJoin(names);
    if absolute {
      BasenameIsLast("/" + Join(names));
      SplitAppend("", Join(names));
      SplitNothing();
      assert "" + "/" + Join(names) == "/" + Join(names);
    } else {
      BasenameIsLast(Join(names));
      assert "" + Join(names) == Join(names);
    }
  }

  lemma {:induction false} SplitNothing()
    ensures Join([]) == "" && Split("") == [""] && Split(".") == ["."]
  {
    SplitSlashless(".");
  }

  predicate HasChar(s: string, c: char) { exists i :: 0 <= i < |s| && s[i] == c }

  /**
   What an entry covers: the bare star everything, any other entry with a star and without a slash the paths whose last
   segment fills it, and an entry without star or with a slash the paths under it.
   */
  ghost predicate Covers(entry: string, path: Position) {
    if entry == "*" then true
    else if HasChar(entry, '*') && !HasChar(entry, '/') then exists runs :: Fills(entry, runs, LastSegment(path))
    else Under(path, Normal(entry))
  }

  /** A scope admits exactly the paths that do not lead above the root and that one of its entries covers. */
  lemma {:induction false} ScopeMeaning(scope: seq<string>, path: string)
    ensures WithinScope(scope, path) <==>
            !Above(Normal(path)) && exists i :: 0 <= i < |scope| && Covers(scope[i], Normal(path))
  {
    hide EntryAdmits, Covers, Above;
    NormalWellFormed(path);
    CanonicalIsRender(path);
    RenderedUp(Normal(path));
    if !Above(Normal(path)) {
      forall i | 0 <= i < |scope| ensures EntryAdmits(scope[i], CanonicalPath(path)) <==> Covers(scope[i], Normal(path)) {
        EntryMeaning(scope[i], path);
      }
    }
  }

  /** A single starred entry without a slash, other than the bare star. */
  lemma {:induction false} StarredEntry(entry: string, path: string)
    requires HasChar(entry, '*') && !HasChar(entry, '/') && entry != "*"
    ensures WithinScope([entry], path) <==>
            !Above(Normal(path)) && exists runs :: Fills(entry, runs, LastSegment(Normal(path)))
  {
    hide Fills, WithinScope, Above, LastSegment, Normal;
    ScopeMeaning([entry], path);
    assert [entry][0] == entry;
  }

  /** A single entry with a slash or without a star. */
  lemma {:induction false} PlainEntry(entry: string, path: string)
    requires !HasChar(entry, '*') || HasChar(entry, '/')
    ensures WithinScope([entry], path) <==> !Above(Normal(path)) && Under(Normal(path), Normal(entry))
  {
    hide Fills, WithinScope, Above, LastSegment, Normal, Under;
    ScopeMeaning([entry], path);
    assert [entry][0] == entry && (entry == "*" ==> entry[0] == '*' && |entry| == 1);
  }

  lemma {:induction false} EntryMeaning(entry: string, path: string)
    requires !Above(Normal(path))
    ensures EntryAdmits(entry, CanonicalPath(path)) <==> Covers(entry, Normal(path))
  {
    hide Matches, Under, Normal, CanonicalPath, Render, Split, Basename, Fills, LastSegment;
    NormalWellFormed(path);
    NormalWellFormed(entry);
    CanonicalIsRender(path);
    CanonicalIsRender(entry);
    BasenameOfRender(Normal(path));
    GlobMeaning(entry, LastSegment(Normal(path)));
    PrefixIsUnder(Normal(path), Normal(entry));
  }
}
