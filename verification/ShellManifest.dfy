/** The module-graph walk of the shell manifest (scripts/build-shell-manifest.mjs). */
module ShellManifest {
  import opened Text

  // ---------------------------------------------------------------------------
  // Specifiers
  // ---------------------------------------------------------------------------

  /** `s.split('/')`. */
  function Split(s: string): (parts: seq<string>)
    ensures parts != []
  {
    var i := IndexOf(s, '/');
    if i == |s| then [s] else [s[..i]] + Split(s[i + 1..])
  }

  /** `parts.join('/')`. */
  function Join(parts: seq<string>): string {
    if parts == [] then ""
    else if |parts| == 1 then parts[0]
    else parts[0] + "/" + Join(parts[1..])
  }

  function Directory(path: string): seq<string> {
    Split(path)[..|Split(path)| - 1]
  }

  function Climb(base: seq<string>, segments: seq<string>): seq<string>
    decreases |segments|
  {
    if segments == [] then base
    else if segments[0] == "." || segments[0] == "" then Climb(base, segments[1..])
    else if segments[0] == ".." then Climb(if base == [] then [] else base[..|base| - 1], segments[1..])
    else Climb(base + [segments[0]], segments[1..])
  }

  predicate RootRelative(path: string) {
    path != "" && path[0] == '/'
  }

  function Resolved(from: string, specifier: string): string {
    if RootRelative(specifier) then specifier else Join(Climb(Directory(from), Split(specifier)))
  }

  method ResolveImportPath(from: string, specifier: string) returns (path: string)
    ensures path == Resolved(from, specifier)
  {
    if RootRelative(specifier) {
      return specifier;
    }
    var baseParts := Directory(from);
    var segments := Split(specifier);
    for i := 0 to |segments|
      invariant Climb(baseParts, segments[i..]) == Climb(Directory(from), Split(specifier))
    {
      var segment := segments[i];
      assert segments[i..][1..] == segments[i + 1..];
      if segment == "." || segment == "" {
        continue;
      }
      if segment == ".." {
        if baseParts != [] {
          baseParts := baseParts[..|baseParts| - 1];
        }
      } else {
        baseParts := baseParts + [segment];
      }
    }
    assert segments[|segments|..] == [];
    return Join(baseParts);
  }

  /** From `depth` segments the climb never pops the first of them. */
  predicate KeepsRoot(depth: nat, segments: seq<string>)
    requires depth > 0
    decreases |segments|
  {
    if segments == [] then true
    else if segments[0] == "." || segments[0] == "" then KeepsRoot(depth, segments[1..])
    else if segments[0] == ".." then depth > 1 && KeepsRoot(depth - 1, segments[1..])
    else KeepsRoot(depth + 1, segments[1..])
  }

  predicate Plain(s: string) {
    s != "" && s[0] != '/'
  }

  predicate AllPlain(parts: seq<string>) {
    forall i :: 0 <= i < |parts| ==> Plain(parts[i])
  }

  predicate NoSlashes(parts: seq<string>) {
    forall i :: 0 <= i < |parts| ==> parts[i] == "" || Plain(parts[i])
  }

  lemma {:induction false} SplitHasNoSlashes(s: string)
    ensures NoSlashes(Split(s))
  {
    var i := IndexOf(s, '/');
    if i < |s| {
      SplitHasNoSlashes(s[i + 1..]);
    }
  }

  lemma {:induction false} ClimbPlain(base: seq<string>, segments: seq<string>)
    requires AllPlain(base) && NoSlashes(segments)
    ensures AllPlain(Climb(base, segments))
    decreases |segments|
  {
    if segments != [] {
      if segments[0] == "." || segments[0] == "" {
        ClimbPlain(base, segments[1..]);
      } else if segments[0] == ".." {
        ClimbPlain(if base == [] then [] else base[..|base| - 1], segments[1..]);
      } else {
        ClimbPlain(base + [segments[0]], segments[1..]);
      }
    }
  }

  /** The first segment survives, or everything left was pushed after it went. */
  lemma {:induction false} ClimbRoot(base: seq<string>, segments: seq<string>)
    requires base != [] && NoSlashes(segments)
    ensures if KeepsRoot(|base|, segments) then Climb(base, segments) != [] && Climb(base, segments)[0] == base[0]
            else AllPlain(Climb(base, segments))
    decreases |segments|
  {
    if segments != [] {
      if segments[0] == "." || segments[0] == "" {
        ClimbRoot(base, segments[1..]);
      } else if segments[0] == ".." {
        if |base| > 1 {
          ClimbRoot(base[..|base| - 1], segments[1..]);
        } else {
          ClimbPlain([], segments[1..]);
        }
      } else {
        ClimbRoot(base + [segments[0]], segments[1..]);
      }
    }
  }

  /**
   * From a root-relative path, a specifier resolves to a root-relative path exactly when it is
   * one itself, or never climbs above the root and leaves at least one segment below it.
   */
  lemma RootRelativeIff(from: string, specifier: string)
    requires RootRelative(from)
    ensures Directory(from) != []
    ensures RootRelative(Resolved(from, specifier)) <==>
      || RootRelative(specifier)
      || (KeepsRoot(|Directory(from)|, Split(specifier)) && |Climb(Directory(from), Split(specifier))| >= 2)
  {
    assert IndexOf(from, '/') == 0;
    assert Split(from) == [from[..0]] + Split(from[1..]);
    assert Directory(from)[0] == "";
    SplitHasNoSlashes(specifier);
    ClimbRoot(Directory(from), Split(specifier));
    var parts := Climb(Directory(from), Split(specifier));
    if |parts| == 1 {
      assert Join(parts) == parts[0];
    } else if |parts| > 1 {
      assert Join(parts) == parts[0] + "/" + Join(parts[1..]);
    }
  }

  // ---------------------------------------------------------------------------
  // The graph
  // ---------------------------------------------------------------------------

  /** What a readable file names: module specifiers, and `url()` references. */
  datatype Source = Source(imports: seq<string>, urls: seq<string>)

  /** The files that can be read, by the path they are asked for. */
  type Files = map<string, Source>

  predicate EndsWith(s: string, suffix: string) {
    |s| >= |suffix| && s[|s| - |suffix|..] == suffix
  }

  function ResolveAll(from: string, specifiers: seq<string>): (r: seq<string>)
    ensures |r| == |specifiers|
  {
    seq(|specifiers|, i requires 0 <= i < |specifiers| => Resolved(from, specifiers[i]))
  }

  /** The paths a walk of `path` follows. */
  function References(files: Files, path: string): seq<string> {
    if path !in files then []
    else
      var imports, urls := ResolveAll(path, files[path].imports), ResolveAll(path, files[path].urls);
      imports + if EndsWith(path, ".css") then urls else []
  }

  /** Every path some file names. */
  function Named(files: Files): set<string> {
    set path, i | path in files && 0 <= i < |References(files, path)| :: References(files, path)[i]
  }

  predicate AllNamed(files: Files, paths: seq<string>) {
    forall i :: 0 <= i < |paths| ==> paths[i] in Named(files)
  }

  /** The two loops of the walk go over the references of the file. */
  lemma PartsAreNamed(files: Files, path: string)
    requires path in files
    ensures
      var imports, urls := ResolveAll(path, files[path].imports), ResolveAll(path, files[path].urls);
      if EndsWith(path, ".css")
      then References(files, path) == imports + urls && AllNamed(files, imports) && AllNamed(files, urls)
      else References(files, path) == imports && AllNamed(files, imports)
  {
    var imports, urls := ResolveAll(path, files[path].imports), ResolveAll(path, files[path].urls);
    var refs := References(files, path);
    assert AllNamed(files, refs);
    if EndsWith(path, ".css") {
      assert forall i :: 0 <= i < |imports| ==> imports[i] == refs[i];
      assert forall i :: 0 <= i < |urls| ==> urls[i] == refs[|imports| + i];
    } else {
      assert refs == imports;
    }
  }

  ghost predicate Holds(visited: set<string>, paths: seq<string>) {
    forall i :: 0 <= i < |paths| ==> paths[i] in visited
  }

  /** Everything `visited` holds beyond `base` has its references in it too. */
  ghost predicate ClosedBeyond(files: Files, visited: set<string>, base: set<string>) {
    forall path :: path in visited && path !in base ==> Holds(visited, References(files, path))
  }

  ghost predicate Closure(files: Files, visited: set<string>, base: set<string>, needs: seq<string>) {
    base <= visited && Holds(visited, needs) && ClosedBeyond(files, visited, base)
  }

  /** The least set that holds `base` and `needs` and is closed beyond `base`. */
  ghost predicate LeastClosure(files: Files, visited: set<string>, base: set<string>, needs: seq<string>) {
    && Closure(files, visited, base, needs)
    && forall other: set<string> :: Closure(files, other, base, needs) ==> visited <= other
  }

  lemma NeedNothing(files: Files, base: set<string>)
    ensures LeastClosure(files, base, base, [])
  {
  }

  /** One walk after another. */
  lemma Compose(files: Files, base: set<string>, first: seq<string>, v1: set<string>,
                second: seq<string>, v2: set<string>)
    requires LeastClosure(files, v1, base, first) && LeastClosure(files, v2, v1, second)
    ensures LeastClosure(files, v2, base, first + second)
  {
    assert Closure(files, v2, base, first + second) by {
      forall path | path in v2 && path !in base ensures Holds(v2, References(files, path)) {
        if path in v1 {
          assert Holds(v1, References(files, path));
        }
      }
    }
    forall other: set<string> | Closure(files, other, base, first + second) ensures v2 <= other {
      HoldsParts(other, first, second);
      assert Closure(files, other, base, first);
      assert Closure(files, other, v1, second);
    }
  }

  lemma HoldsParts(visited: set<string>, first: seq<string>, second: seq<string>)
    ensures Holds(visited, first + second) <==> Holds(visited, first) && Holds(visited, second)
  {
    assert forall i :: 0 <= i < |first| ==> (first + second)[i] == first[i];
    assert forall i :: 0 <= i < |second| ==> (first + second)[|first| + i] == second[i];
  }

  /** Marking a node before walking it amounts to closing over it. */
  lemma MarkThenWalk(files: Files, base: set<string>, path: string, visited: set<string>)
    requires path !in base && LeastClosure(files, visited, base + {path}, References(files, path))
    ensures LeastClosure(files, visited, base, [path])
  {
    forall other: set<string> | Closure(files, other, base, [path]) ensures visited <= other {
      assert [path][0] in other;
      assert Closure(files, other, base + {path}, References(files, path));
    }
  }

  lemma AlreadyMarked(files: Files, base: set<string>, path: string)
    requires path in base
    ensures LeastClosure(files, base, base, [path])
  {
  }

  /** One pass of the loop over references: the next one was marked already, or is marked and walked. */
  lemma OneMorePath(files: Files, base: set<string>, paths: seq<string>, i: nat,
                    before: set<string>, after: set<string>)
    requires i < |paths| && LeastClosure(files, before, base, paths[..i])
    requires if paths[i] in before then after == before
             else LeastClosure(files, after, before + {paths[i]}, References(files, paths[i]))
    ensures LeastClosure(files, after, base, paths[..i + 1])
  {
    if paths[i] in before {
      AlreadyMarked(files, before, paths[i]);
    } else {
      MarkThenWalk(files, before, paths[i], after);
    }
    Compose(files, base, paths[..i], before, [paths[i]], after);
    assert paths[..i + 1] == paths[..i] + [paths[i]];
  }

  lemma LessRemains(files: Files, base: set<string>, before: set<string>, path: string)
    requires base <= before && path in Named(files) && path !in before
    ensures |Named(files) - (before + {path})| < |Named(files) - base|
  {
    RemainingShrinks(files, before, path);
    RemainingShrinksOn(files, base, before);
  }

  lemma RemainingShrinks(files: Files, before: set<string>, path: string)
    requires path in Named(files) && path !in before
    ensures |Named(files) - (before + {path})| < |Named(files) - before|
  {
    assert Named(files) - (before + {path}) == (Named(files) - before) - {path};
  }

  lemma {:induction false} RemainingShrinksOn(files: Files, before: set<string>, after: set<string>)
    requires before <= after
    ensures |Named(files) - after| <= |Named(files) - before|
  {
    var left, right := Named(files) - after, Named(files) - before;
    assert right == left + (right - left);
    assert |right| == |left| + |right - left|;
  }

  // ---------------------------------------------------------------------------
  // The walk
  // ---------------------------------------------------------------------------

  class Walker {
    const files: Files
    var visited: set<string>

    constructor (files: Files, seeds: set<string>)
      ensures this.files == files && visited == seeds
    {
      this.files := files;
      visited := seeds;
    }

    /** Adds what `entry` names and everything that leads to; cycles end at nodes already marked. */
    method WalkModuleGraph(entry: string)
      modifies this
      ensures LeastClosure(files, visited, old(visited), References(files, entry))
      decreases |Named(files) - visited|, 1
    {
      ghost var base := visited;
      if entry !in files {
        NeedNothing(files, base);
        return;
      }
      var imports := ResolveAll(entry, files[entry].imports);
      var urls := ResolveAll(entry, files[entry].urls);
      PartsAreNamed(files, entry);
      Follow(entry, imports);
      if EndsWith(entry, ".css") {
        ghost var middle := visited;
        RemainingShrinksOn(files, base, middle);
        Follow(entry, urls);
        Compose(files, base, imports, middle, urls, visited);
      }
    }

    /** The loop over the references of one file. */
    method Follow(from: string, paths: seq<string>)
      requires AllNamed(files, paths)
      modifies this
      ensures LeastClosure(files, visited, old(visited), paths)
      decreases |Named(files) - visited|, 0
    {
      ghost var base := visited;
      NeedNothing(files, base);
      for i := 0 to |paths|
        invariant LeastClosure(files, visited, base, paths[..i])
      {
        var resolved := paths[i];
        ghost var before := visited;
        if resolved !in visited {
          visited := visited + {resolved};
          LessRemains(files, base, before, resolved);
          WalkModuleGraph(resolved);
        }
        OneMorePath(files, base, paths, i, before, visited);
      }
      assert paths[..|paths|] == paths;
    }
  }

  // ---------------------------------------------------------------------------
  // The manifest
  // ---------------------------------------------------------------------------

  predicate IsShellScript(path: string) {
    && |path| >= 7 && path[..4] == "/js/" && EndsWith(path, ".js")
    && forall i :: 4 <= i < |path| - 3 ==> !IsLineEnd(path[i])
  }

  /** Seeds the walk starts from. */
  predicate Walkable(path: string) {
    IsShellScript(path) || path == "/sw.js" || EndsWith(path, ".css")
  }

  /** Files whose references belong in the manifest: all but the seeds that are not walked. */
  predicate Walked(seeds: seq<string>, path: string) {
    path in seeds ==> Walkable(path)
  }

  ghost predicate Complete(files: Files, seeds: seq<string>, paths: set<string>) {
    && (forall p :: p in seeds ==> p in paths)
    && forall p :: p in paths && Walked(seeds, p) ==> Holds(paths, References(files, p))
  }

  /** What the walkable ones of `seeds` name. */
  function Needs(files: Files, seeds: seq<string>): seq<string> {
    if seeds == [] then []
    else
      var last := seeds[|seeds| - 1];
      Needs(files, seeds[..|seeds| - 1]) + if Walkable(last) then References(files, last) else []
  }

  ghost predicate HoldsWalked(files: Files, seeds: seq<string>, paths: set<string>) {
    forall p :: p in seeds && Walkable(p) ==> Holds(paths, References(files, p))
  }

  lemma {:induction false} HoldsNeeds(files: Files, seeds: seq<string>, paths: set<string>)
    ensures Holds(paths, Needs(files, seeds)) <==> HoldsWalked(files, seeds, paths)
  {
    if seeds != [] {
      var before, last := seeds[..|seeds| - 1], seeds[|seeds| - 1];
      assert seeds == before + [last];
      HoldsNeeds(files, before, paths);
      HoldsOneMore(files, before, last, paths);
    }
  }

  lemma HoldsOneMore(files: Files, before: seq<string>, last: string, paths: set<string>)
    requires Holds(paths, Needs(files, before)) <==> HoldsWalked(files, before, paths)
    ensures Holds(paths, Needs(files, before + [last])) <==> HoldsWalked(files, before + [last], paths)
  {
    NeedsOneMore(files, before, last, paths);
    WalkedOneMore(files, before, last, paths);
  }

  lemma NeedsOneMore(files: Files, before: seq<string>, last: string, paths: set<string>)
    ensures Holds(paths, Needs(files, before + [last])) <==>
      Holds(paths, Needs(files, before)) && (Walkable(last) ==> Holds(paths, References(files, last)))
  {
    assert (before + [last])[..|before|] == before;
    if Walkable(last) {
      HoldsParts(paths, Needs(files, before), References(files, last));
    } else {
      assert Needs(files, before) + [] == Needs(files, before);
    }
  }

  lemma WalkedOneMore(files: Files, before: seq<string>, last: string, paths: set<string>)
    ensures HoldsWalked(files, before + [last], paths) <==>
      HoldsWalked(files, before, paths) && (Walkable(last) ==> Holds(paths, References(files, last)))
  {
    var seeds := before + [last];
    assert forall p :: p in seeds <==> p in before || p == last;
  }

  lemma CompleteIsClosure(files: Files, seeds: seq<string>, base: set<string>, paths: set<string>)
    requires base == set s | s in seeds
    ensures Complete(files, seeds, paths) <==> Closure(files, paths, base, Needs(files, seeds))
  {
    HoldsNeeds(files, seeds, paths);
    if Closure(files, paths, base, Needs(files, seeds)) {
      forall p | p in paths && Walked(seeds, p) ensures Holds(paths, References(files, p)) {
      }
    }
  }

  /**
   * The manifest's paths: the least set that holds the seeds and, for every file walked, all it
   * imports and, for a stylesheet, all it names by `url()`.
   */
  method BuildShellManifest(files: Files, seeds: seq<string>) returns (paths: set<string>)
    ensures Complete(files, seeds, paths)
    ensures forall other: set<string> :: Complete(files, seeds, other) ==> paths <= other
  {
    var base := set s | s in seeds;
    var walker := new Walker(files, base);
    NeedNothing(files, base);
    for i := 0 to |seeds|
      invariant walker.files == files
      invariant LeastClosure(files, walker.visited, base, Needs(files, seeds[..i]))
    {
      ghost var before := walker.visited;
      assert seeds[..i + 1][..i] == seeds[..i];
      if Walkable(seeds[i]) {
        walker.WalkModuleGraph(seeds[i]);
        Compose(files, base, Needs(files, seeds[..i]), before, References(files, seeds[i]), walker.visited);
      } else {
        assert Needs(files, seeds[..i + 1]) == Needs(files, seeds[..i]);
      }
    }
    assert seeds[..|seeds|] == seeds;
    paths := walker.visited;
    CompleteIsClosure(files, seeds, base, paths);
    forall other: set<string> | Complete(files, seeds, other) ensures paths <= other {
      CompleteIsClosure(files, seeds, base, other);
    }
  }

  // ---------------------------------------------------------------------------
  // What the manifest holds, told by the files and the seeds
  // ---------------------------------------------------------------------------

  /** A way from a seed along references of walked files. */
  predicate IsWay(files: Files, seeds: seq<string>, way: seq<string>) {
    && way != [] && way[0] in seeds
    && forall i :: 0 <= i < |way| - 1 ==> Walked(seeds, way[i]) && way[i + 1] in References(files, way[i])
  }

  ghost predicate Reached(files: Files, seeds: seq<string>, path: string) {
    exists way :: IsWay(files, seeds, way) && way[|way| - 1] == path
  }

  lemma {:induction false} WayIsHeld(files: Files, seeds: seq<string>, paths: set<string>, way: seq<string>)
    requires Complete(files, seeds, paths) && IsWay(files, seeds, way)
    ensures way[|way| - 1] in paths
  {
    if |way| > 1 {
      var before := way[..|way| - 1];
      WayIsHeld(files, seeds, paths, before);
      var last := before[|before| - 1];
      assert last == way[|way| - 2] && Walked(seeds, last);
      assert Holds(paths, References(files, last));
    }
  }

  lemma WayGoesOn(files: Files, seeds: seq<string>, path: string, next: string)
    requires Reached(files, seeds, path) && Walked(seeds, path) && next in References(files, path)
    ensures Reached(files, seeds, next)
  {
    var way :| IsWay(files, seeds, way) && way[|way| - 1] == path;
    var longer := way + [next];
    forall i | 0 <= i < |longer| - 1
      ensures Walked(seeds, longer[i]) && longer[i + 1] in References(files, longer[i])
    {
    }
    assert IsWay(files, seeds, longer) && longer[|longer| - 1] == next;
  }

  lemma SeedIsReached(files: Files, seeds: seq<string>, seed: string)
    requires seed in seeds
    ensures Reached(files, seeds, seed)
  {
    assert IsWay(files, seeds, [seed]) && [seed][0] == seed;
  }

  lemma ReachedIsComplete(files: Files, seeds: seq<string>, reached: set<string>)
    requires forall p :: p in reached <==> Reached(files, seeds, p)
    ensures Complete(files, seeds, reached)
  {
    forall p | p in seeds ensures p in reached {
      SeedIsReached(files, seeds, p);
    }
    forall p | p in reached && Walked(seeds, p) ensures Holds(reached, References(files, p)) {
      forall i | 0 <= i < |References(files, p)| ensures References(files, p)[i] in reached {
        WayGoesOn(files, seeds, p, References(files, p)[i]);
      }
    }
  }

  /** The manifest holds exactly what a way from a seed reaches through walked files. */
  lemma HoldsExactlyReached(files: Files, seeds: seq<string>, paths: set<string>)
    requires Complete(files, seeds, paths)
    requires forall other: set<string> :: Complete(files, seeds, other) ==> paths <= other
    ensures forall p :: p in paths <==> Reached(files, seeds, p)
  {
    forall p | Reached(files, seeds, p) ensures p in paths {
      var way :| IsWay(files, seeds, way) && way[|way| - 1] == p;
      WayIsHeld(files, seeds, paths, way);
    }
    var reached := set p | p in paths && Reached(files, seeds, p);
    ReachedIsComplete(files, seeds, reached);
  }

  /** A set with its references, all of them. */
  ghost predicate FullyClosed(files: Files, paths: set<string>) {
    forall p :: p in paths ==> Holds(paths, References(files, p))
  }

  /** All that a seed which is not walked names is reached some other way. */
  ghost predicate LosesNothing(files: Files, seeds: seq<string>) {
    forall seed, next :: seed in seeds && !Walkable(seed) && next in References(files, seed) ==>
      Reached(files, seeds, next)
  }

  /**
   * The manifest misses nothing exactly when all that the seeds outside the walk name is reached
   * through walked files; otherwise it is left out, even where a walked file imports that seed.
   */
  lemma FullyClosedIff(files: Files, seeds: seq<string>, paths: set<string>)
    requires Complete(files, seeds, paths)
    requires forall other: set<string> :: Complete(files, seeds, other) ==> paths <= other
    ensures FullyClosed(files, paths) <==> LosesNothing(files, seeds)
  {
    HoldsExactlyReached(files, seeds, paths);
    if FullyClosed(files, paths) {
      forall seed, next | seed in seeds && !Walkable(seed) && next in References(files, seed)
        ensures Reached(files, seeds, next)
      {
        assert seed in paths;
        assert Holds(paths, References(files, seed));
      }
    }
    if LosesNothing(files, seeds) {
      forall p | p in paths ensures Holds(paths, References(files, p)) {
        forall i | 0 <= i < |References(files, p)| ensures References(files, p)[i] in paths {
          ReferenceIsHeld(files, seeds, paths, p, References(files, p)[i]);
        }
      }
    }
  }

  lemma ReferenceIsHeld(files: Files, seeds: seq<string>, paths: set<string>, p: string, next: string)
    requires Complete(files, seeds, paths) && LosesNothing(files, seeds)
    requires forall q :: q in paths <==> Reached(files, seeds, q)
    requires p in paths && next in References(files, p)
    ensures next in paths
  {
    if Walked(seeds, p) {
      assert Holds(paths, References(files, p));
    }
  }

  /** A seed outside /js/ keeps its import out of the manifest although the worker imports it. */
  lemma UnwalkedSeedLosesImport()
    ensures var files: Files := map["/sw.js" := Source(["/lib.js"], []), "/lib.js" := Source(["/more.js"], [])];
      && Complete(files, ["/lib.js", "/sw.js"], {"/lib.js", "/sw.js"})
      && !FullyClosed(files, {"/lib.js", "/sw.js"})
  {
    var files: Files := map["/sw.js" := Source(["/lib.js"], []), "/lib.js" := Source(["/more.js"], [])];
    var lib := "/lib.js";
    assert lib[..4] == "/lib";
    assert !EndsWith(lib, ".css") by {
      assert lib[|lib| - 4] == 'b';
    }
    assert References(files, "/sw.js")[0] == "/lib.js";
    assert References(files, "/lib.js")[0] == "/more.js";
    assert |References(files, "/sw.js")| == 1 by {
      var sw := "/sw.js";
      assert !EndsWith(sw, ".css") by { assert sw[|sw| - 4] == 'w'; }
    }
    var paths := {"/lib.js", "/sw.js"};
    assert Holds(paths, References(files, "/sw.js"));
    assert !Holds(paths, References(files, "/lib.js"));
  }
}
