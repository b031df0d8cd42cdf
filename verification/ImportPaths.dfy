/** Where an import leads, told of the paths as text (scripts/build-shell-manifest.mjs). */
module ImportPaths {
  import opened Text
  import opened ShellManifest

  // ---------------------------------------------------------------------------
  // Paths as text
  // ---------------------------------------------------------------------------

  /** The name of a file or directory. */
  predicate IsName(s: string) {
    s != "" && s != "." && s != ".." && '/' !in s
  }

  predicate AllNames(names: seq<string>) {
    forall i :: 0 <= i < |names| ==> IsName(names[i])
  }

  /** `/a/b/c`; nothing for no names. */
  function Absolute(names: seq<string>): string {
    if names == [] then "" else "/" + names[0] + Absolute(names[1..])
  }

  /** `a/b/c`. */
  function Relative(names: seq<string>): string {
    if names == [] then "" else names[0] + Absolute(names[1..])
  }

  /** `n` times `../`. */
  function Ups(n: nat): string {
    if n == 0 then "" else "../" + Ups(n - 1)
  }

  // ---------------------------------------------------------------------------
  // Splitting and joining
  // ---------------------------------------------------------------------------

  lemma SplitFirst(first: string, rest: string)
    requires '/' !in first
    ensures Split(first + "/" + rest) == [first] + Split(rest)
  {
    var s := first + "/" + rest;
    forall j | 0 <= j < |first| ensures first[j] != '/' {
    }
    IndexOfAfter(first, '/', rest);
    assert first + ['/'] + rest == s;
    assert s[..|first|] == first && s[|first| + 1..] == rest;
  }

  lemma SplitNone(s: string)
    requires '/' !in s
    ensures Split(s) == [s]
  {
  }

  lemma {:induction false} SplitRelative(names: seq<string>)
    requires AllNames(names) && names != []
    ensures Split(Relative(names)) == names
  {
    var rest := names[1..];
    if rest == [] {
      assert Relative(names) == names[0];
      SplitNone(names[0]);
    } else {
      assert Absolute(rest) == "/" + Relative(rest);
      assert Relative(names) == names[0] + "/" + Relative(rest);
      SplitFirst(names[0], Relative(rest));
      SplitRelative(rest);
    }
    assert names == [names[0]] + rest;
  }

  lemma SplitAbsolute(names: seq<string>)
    requires AllNames(names) && names != []
    ensures Split(Absolute(names)) == [""] + names
  {
    var rest := Relative(names);
    assert Absolute(names) == "/" + rest;
    assert "" + "/" == "/";
    SplitFirst("", rest);
    SplitRelative(names);
  }

  lemma {:induction false} JoinNames(names: seq<string>)
    requires names != []
    ensures Join(names) == Relative(names)
  {
    if |names| > 1 {
      JoinNames(names[1..]);
      assert Absolute(names[1..]) == "/" + Relative(names[1..]);
    }
  }

  lemma JoinRooted(names: seq<string>)
    ensures Join([""] + names) == Absolute(names)
  {
    var parts := [""] + names;
    assert parts[1..] == names;
    JoinNames(parts);
    assert Relative(parts) == "" + Absolute(names);
  }

  function Repeat(s: string, n: nat): seq<string> {
    seq(n, _ => s)
  }

  lemma SplitUps(n: nat, names: seq<string>)
    requires AllNames(names) && names != []
    ensures Split(Ups(n) + Relative(names)) == Repeat("..", n) + names
  {
    SplitRelative(names);
    SplitPastUps(n, Relative(names), names);
  }

  lemma RepeatOnce(s: string, n: nat, rest: seq<string>)
    requires n > 0
    ensures Repeat(s, n) + rest == [s] + (Repeat(s, n - 1) + rest)
  {
  }

  lemma SplitOneUp(n: nat, rest: string)
    requires n > 0
    ensures Split(Ups(n) + rest) == [".."] + Split(Ups(n - 1) + rest)
  {
    OneUp(n, rest);
    SplitFirst("..", Ups(n - 1) + rest);
  }

  lemma {:induction false} SplitPastUps(n: nat, rest: string, segments: seq<string>)
    requires Split(rest) == segments
    ensures Split(Ups(n) + rest) == Repeat("..", n) + segments
  {
    if n == 0 {
      assert Ups(0) + rest == rest && Repeat("..", 0) + segments == segments;
    } else {
      SplitPastUps(n - 1, rest, segments);
      SplitOneUp(n, rest);
      RepeatOnce("..", n, segments);
    }
  }

  lemma OneUp(n: nat, rest: string)
    requires n > 0
    ensures Ups(n) + rest == ".." + "/" + (Ups(n - 1) + rest)
  {
    var more := Ups(n - 1);
    assert Ups(n) == "../" + more;
    assert "../" == ".." + "/";
    assert (".." + "/" + more) + rest == ".." + "/" + (more + rest);
  }

  lemma {:induction false} ClimbsInto(base: seq<string>, names: seq<string>)
    requires AllNames(names)
    ensures Climb(base, names) == base + names
    decreases |names|
  {
    if names != [] {
      ClimbsInto(base + [names[0]], names[1..]);
      assert names == [names[0]] + names[1..];
    }
  }

  lemma {:induction false} ClimbsUp(base: seq<string>, n: nat, names: seq<string>)
    requires AllNames(names)
    ensures Climb(base, Repeat("..", n) + names) == (if n <= |base| then base[..|base| - n] else []) + names
    decreases n
  {
    if n == 0 {
      assert Repeat("..", 0) + names == names && base[..|base|] == base;
      ClimbsInto(base, names);
    } else {
      var segments := Repeat("..", n) + names;
      assert segments[0] == ".." && segments[1..] == Repeat("..", n - 1) + names;
      ClimbsUp(if base == [] then [] else base[..|base| - 1], n - 1, names);
    }
  }

  // ---------------------------------------------------------------------------
  // Where an import leads
  // ---------------------------------------------------------------------------

  lemma NotRooted(names: seq<string>, prefix: string)
    requires AllNames(names) && names != [] && (prefix != "" ==> prefix[0] == '.')
    ensures !RootRelative(prefix + Relative(names))
  {
    assert names[0][0] in names[0];
    assert Relative(names)[0] == names[0][0];
    assert prefix != "" ==> (prefix + Relative(names))[0] == '.';
    assert prefix == "" ==> prefix + Relative(names) == Relative(names);
  }

  lemma DirectoryOf(dirs: seq<string>, name: string)
    requires AllNames(dirs) && IsName(name)
    ensures Directory(Absolute(dirs + [name])) == [""] + dirs
  {
    SplitAbsolute(dirs + [name]);
    assert [""] + (dirs + [name]) == ([""] + dirs) + [name];
  }

  /** From the segments of a specifier to the path it leads to. */
  lemma LeadsTo(dirs: seq<string>, name: string, specifier: string, segments: seq<string>, target: seq<string>)
    requires AllNames(dirs) && IsName(name) && !RootRelative(specifier) && Split(specifier) == segments
    requires Climb([""] + dirs, segments) == [""] + target
    ensures Resolved(Absolute(dirs + [name]), specifier) == Absolute(target)
  {
    DirectoryOf(dirs, name);
    JoinRooted(target);
  }

  lemma DotIsSkipped(base: seq<string>, segments: seq<string>)
    ensures Climb(base, ["."] + segments) == Climb(base, segments)
  {
    assert (["."] + segments)[1..] == segments;
  }

  lemma LeadsInto(dirs: seq<string>, name: string, specifier: string, names: seq<string>)
    requires AllNames(dirs) && IsName(name) && !RootRelative(specifier)
    requires Climb([""] + dirs, Split(specifier)) == ([""] + dirs) + names
    ensures Resolved(Absolute(dirs + [name]), specifier) == Absolute(dirs + names)
  {
    assert ([""] + dirs) + names == [""] + (dirs + names);
    LeadsTo(dirs, name, specifier, Split(specifier), dirs + names);
  }

  /** An import is looked up in the directory of the importing file. */
  lemma ResolvesInDirectory(dirs: seq<string>, name: string, names: seq<string>)
    requires AllNames(dirs) && IsName(name) && AllNames(names) && names != []
    ensures Resolved(Absolute(dirs + [name]), Relative(names)) == Absolute(dirs + names)
  {
    NotRooted(names, "");
    assert "" + Relative(names) == Relative(names);
    SplitRelative(names);
    ClimbsInto([""] + dirs, names);
    LeadsInto(dirs, name, Relative(names), names);
  }

  /** And so with `./` before it. */
  lemma DotResolvesInDirectory(dirs: seq<string>, name: string, names: seq<string>)
    requires AllNames(dirs) && IsName(name) && AllNames(names) && names != []
    ensures Resolved(Absolute(dirs + [name]), "./" + Relative(names)) == Absolute(dirs + names)
  {
    NotRooted(names, "./");
    DotSplits(names);
    DotIsSkipped([""] + dirs, names);
    ClimbsInto([""] + dirs, names);
    LeadsInto(dirs, name, "./" + Relative(names), names);
  }

  lemma DotSplits(names: seq<string>)
    requires AllNames(names) && names != []
    ensures Split("./" + Relative(names)) == ["."] + names
  {
    var rest := Relative(names);
    assert "./" == "." + "/";
    assert "./" + rest == "." + "/" + rest;
    SplitFirst(".", rest);
    SplitRelative(names);
  }

  /**
   * Each leading `../` drops the last directory; once they are used up one more drops the root,
   * and what remains is no root-relative path any more.
   */
  lemma ResolvesUpwards(dirs: seq<string>, name: string, n: nat, names: seq<string>)
    requires AllNames(dirs) && IsName(name) && AllNames(names) && names != []
    ensures Resolved(Absolute(dirs + [name]), Ups(n) + Relative(names)) ==
      if n <= |dirs| then Absolute(dirs[..|dirs| - n] + names) else Relative(names)
  {
    NotRooted(names, Ups(n));
    SplitUps(n, names);
    LeadsUp(dirs, name, n, Ups(n) + Relative(names), names);
  }

  lemma LeadsUp(dirs: seq<string>, name: string, n: nat, specifier: string, names: seq<string>)
    requires AllNames(dirs) && IsName(name) && AllNames(names) && names != []
    requires !RootRelative(specifier) && Split(specifier) == Repeat("..", n) + names
    ensures Resolved(Absolute(dirs + [name]), specifier) ==
      if n <= |dirs| then Absolute(dirs[..|dirs| - n] + names) else Relative(names)
  {
    var base := [""] + dirs;
    ClimbsUp(base, n, names);
    if n <= |dirs| {
      KeepsRooted(dirs, n, names);
      LeadsTo(dirs, name, specifier, Split(specifier), dirs[..|dirs| - n] + names);
    } else {
      assert [] + names == names;
      LeadsAbove(dirs, name, specifier, names);
    }
  }

  lemma KeepsRooted(dirs: seq<string>, n: nat, names: seq<string>)
    requires n <= |dirs|
    ensures var base := [""] + dirs; base[..|base| - n] + names == [""] + (dirs[..|dirs| - n] + names)
  {
    var base := [""] + dirs;
    assert base[..|base| - n] == [""] + dirs[..|dirs| - n];
  }

  lemma LeadsAbove(dirs: seq<string>, name: string, specifier: string, names: seq<string>)
    requires AllNames(dirs) && IsName(name) && !RootRelative(specifier) && names != []
    requires Climb([""] + dirs, Split(specifier)) == names
    ensures Resolved(Absolute(dirs + [name]), specifier) == Relative(names)
  {
    DirectoryOf(dirs, name);
    JoinNames(names);
  }

  /** A root-relative import leads where it says. */
  lemma ResolvesFromRoot(from: string, names: seq<string>)
    requires names != []
    ensures Resolved(from, Absolute(names)) == Absolute(names)
  {
  }

  /** `.` and empty segments change nothing, and `..` takes back the segment before it, anywhere in a specifier. */
  lemma DetoursCancel(base: seq<string>, before: seq<string>, name: string, after: seq<string>)
    requires AllNames(before) && IsName(name)
    ensures Climb(base, before + ([name, ".."] + after)) == Climb(base, before + after)
    ensures Climb(base, before + (["."] + after)) == Climb(base, before + after)
    ensures Climb(base, before + ([""] + after)) == Climb(base, before + after)
  {
    ClimbsOn(base, before, after);
    ClimbsOn(base, before, [name, ".."] + after);
    ThereAndBack(base + before, name, after);
    ClimbsOn(base, before, ["."] + after);
    DotIsSkipped(base + before, after);
    ClimbsOn(base, before, [""] + after);
    EmptyIsSkipped(base + before, after);
  }

  lemma EmptyIsSkipped(base: seq<string>, segments: seq<string>)
    ensures Climb(base, [""] + segments) == Climb(base, segments)
  {
    assert ([""] + segments)[1..] == segments;
  }

  lemma ThereAndBack(base: seq<string>, name: string, after: seq<string>)
    requires IsName(name)
    ensures Climb(base, [name, ".."] + after) == Climb(base, after)
  {
    assert ([name, ".."] + after)[1..] == [".."] + after && ([".."] + after)[1..] == after;
    assert (base + [name])[..|base|] == base;
  }

  lemma {:induction false} ClimbsOn(base: seq<string>, names: seq<string>, after: seq<string>)
    requires AllNames(names)
    ensures Climb(base, names + after) == Climb(base + names, after)
    decreases |names|
  {
    if names == [] {
      assert names + after == after && base + names == base;
    } else {
      assert (names + after)[1..] == names[1..] + after;
      ClimbsOn(base + [names[0]], names[1..], after);
      assert (base + [names[0]]) + names[1..] == base + names;
    }
  }

  // ---------------------------------------------------------------------------
  // Which files are walked
  // ---------------------------------------------------------------------------

  /** A file leads to what its imports resolve to and, if it is a stylesheet, to what its `url()`s do. */
  lemma ReferencesIff(files: Files, path: string, next: string)
    ensures next in References(files, path) <==>
      path in files &&
      ((exists i :: 0 <= i < |files[path].imports| && Resolved(path, files[path].imports[i]) == next) ||
       ((exists rest :: path == rest + ".css") &&
        exists i :: 0 <= i < |files[path].urls| && Resolved(path, files[path].urls[i]) == next))
  {
    StylesheetIff(path);
    if path in files {
      var imports, urls := ResolveAll(path, files[path].imports), ResolveAll(path, files[path].urls);
      var refs := References(files, path);
      assert forall i :: 0 <= i < |imports| ==> imports[i] == Resolved(path, files[path].imports[i]);
      assert forall i :: 0 <= i < |urls| ==> urls[i] == Resolved(path, files[path].urls[i]);
      assert next in imports + urls <==> next in imports || next in urls;
    }
  }

  lemma StylesheetIff(path: string)
    ensures EndsWith(path, ".css") <==> exists rest :: path == rest + ".css"
  {
    if EndsWith(path, ".css") {
      assert path == path[..|path| - 4] + ".css";
    }
    forall rest | path == rest + ".css" ensures EndsWith(path, ".css") {
      assert path[|path| - 4..] == ".css";
    }
  }

  predicate NoLineEnd(s: string) {
    forall i :: 0 <= i < |s| ==> !IsLineEnd(s[i])
  }

  /** Scripts below `/js/`, the service worker and stylesheets are walked, and nothing else. */
  lemma WalkableIff(path: string)
    ensures Walkable(path) <==>
      || (exists rest :: NoLineEnd(rest) && path == "/js/" + rest + ".js")
      || path == "/sw.js"
      || (exists rest :: path == rest + ".css")
  {
    if IsShellScript(path) {
      var rest := path[4..|path| - 3];
      assert path == "/js/" + rest + ".js";
      assert NoLineEnd(rest);
    }
    forall rest | NoLineEnd(rest) && path == "/js/" + rest + ".js" ensures IsShellScript(path) {
      assert path[..4] == "/js/" && path[|path| - 3..] == ".js";
      forall i | 4 <= i < |path| - 3 ensures !IsLineEnd(path[i]) {
        assert path[i] == rest[i - 4];
      }
    }
    StylesheetIff(path);
  }
}
