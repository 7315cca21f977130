/**
 * pkg/forge/hot_reload.go: what the hot reloader watches and how it
 * rebuilds.  The reloader's settings (mode, service name, entry point,
 * build and run commands), the directories it walks and adds to the file
 * watcher, the filter on change events, and the temporary binary's name.
 * Processes, timers and the watcher itself are left out; the directory
 * tree a walk sees and the operating system's name are inputs.
 */
module HotReload {
  import opened Str

  // ------------------------------------------------------------------ paths

  /** The elements of `parts` that are not empty. */
  function NonEmpty(parts: seq<string>): (r: seq<string>)
    ensures forall i :: 0 <= i < |r| ==> r[i] != ""
    ensures forall x :: x in r <==> x in parts && x != ""
  {
    if parts == [] then []
    else
      var init, last := parts[..|parts| - 1], parts[|parts| - 1];
      assert parts == init + [last];
      if last == "" then NonEmpty(init) else NonEmpty(init) + [last]
  }

  lemma NonEmptyOne(a: string)
    requires a != ""
    ensures NonEmpty([a]) == [a]
  {
    assert [a][..0] == [];
  }

  lemma NonEmptyTwo(a: string, b: string)
    requires a != "" && b != ""
    ensures NonEmpty([a, b]) == [a, b]
  {
    assert [a, b][..1] == [a];
    NonEmptyOne(a);
  }

  /** filepath.Join of two clean, non-empty elements. */
  lemma JoinTwo(a: string, b: string)
    requires a != "" && b != ""
    ensures JoinPath("", [a, b]) == a + "/" + b
    ensures JoinPath(".", [a, b]) == a + "/" + b
  {
    NonEmptyTwo(a, b);
    assert [a, b][1..] == [b];
  }

  /** filepath.Join of one clean, non-empty element to ".". */
  lemma JoinOne(a: string)
    requires a != ""
    ensures JoinPath(".", [a]) == a
  {
    NonEmptyOne(a);
  }

  /**
   * filepath.Join(root, parts...) for a clean root and clean elements: empty
   * elements are dropped, a "." root adds nothing in front, and with no
   * non-empty element the result is the root itself ("" when it is empty).
   */
  function JoinPath(root: string, parts: seq<string>): (r: string)
    ensures NonEmpty(parts) == [] ==> r == root
    ensures NonEmpty(parts) != [] && (root == "" || root == ".") ==> r == Join(NonEmpty(parts), "/")
    ensures NonEmpty(parts) != [] && root != "" && root != "." ==> r == root + "/" + Join(NonEmpty(parts), "/")
  {
    var rest := NonEmpty(parts);
    if rest == [] then root
    else if root == "" || root == "." then Join(rest, "/")
    else root + "/" + Join(rest, "/")
  }

  /** The index of the last '/' in `s`, or -1. */
  function LastSlash(s: string): (r: int)
    ensures -1 <= r < |s|
    ensures r >= 0 ==> s[r] == '/'
    ensures forall j :: r < j < |s| ==> s[j] != '/'
  {
    if s == [] then -1
    else if s[|s| - 1] == '/' then |s| - 1
    else LastSlash(s[..|s| - 1])
  }

  /** filepath.Dir for a clean path: what comes before the last '/', "/" for a top-level entry, "." without a '/'. */
  function Dir(path: string): (r: string)
    ensures LastSlash(path) == -1 ==> r == "."
    ensures LastSlash(path) >= 0 ==> HasPrefix(path, r) && (r == "/" || HasPrefix(path, r + "/"))
  {
    var i := LastSlash(path);
    if i == -1 then "."
    else if i == 0 then "/"
    else path[..i]
  }

  /** The directory of a path is the path up to its last element. */
  lemma DirOfChild(dir: string, file: string)
    requires dir != "" && '/' !in file
    ensures Dir(dir + "/" + file) == dir
  {
    var p := dir + "/" + file;
    assert p[|dir|] == '/';
    assert forall j :: |dir| < j < |p| ==> p[j] == file[j - |dir| - 1];
    LastSlashIs(p, |dir|);
    assert p[..|dir|] == dir;
  }

  lemma LastSlashIs(s: string, k: int)
    requires 0 <= k < |s| && s[k] == '/'
    requires forall j :: k < j < |s| ==> s[j] != '/'
    ensures LastSlash(s) == k
  {
  }

  // ---------------------------------------------------------------- settings

  datatype Mode = Monolith | Microservice

  /** getTempBinaryName: with a .exe suffix on Windows only. */
  function TempBinaryName(goos: string): (r: string)
    ensures HasPrefix(r, "tmp_flux_app")
    ensures goos == "windows" <==> r == "tmp_flux_app.exe"
    ensures goos != "windows" <==> r == "tmp_flux_app"
  {
    if goos == "windows" then "tmp_flux_app.exe" else "tmp_flux_app"
  }

  /** The entry point a service reloader builds: the given path, or cmd/<name>/main.go when none is given. */
  function EntryPoint(name: string, entrypointPath: string): (r: string)
    ensures entrypointPath != "" ==> r == entrypointPath
    ensures entrypointPath == "" && name != "" ==> r == "cmd/" + name + "/main.go"
    ensures entrypointPath == "" && name == "" ==> r == "cmd/main.go"
  {
    DefaultJoin(name);
    if entrypointPath != "" then entrypointPath
    else JoinPath("", ["cmd", name, "main.go"])
  }

  /** filepath.Join("cmd", name, "main.go"): the empty name drops out. */
  lemma DefaultJoin(name: string)
    ensures name != "" ==> JoinPath("", ["cmd", name, "main.go"]) == "cmd/" + name + "/main.go"
    ensures name == "" ==> JoinPath("", ["cmd", name, "main.go"]) == "cmd/main.go"
  {
    var parts := ["cmd", name, "main.go"];
    assert parts[..2] == ["cmd", name];
    if name == "" {
      assert ["cmd", name][..1] == ["cmd"];
      NonEmptyOne("cmd");
      assert NonEmpty(parts) == ["cmd", "main.go"];
      assert ["cmd", "main.go"][1..] == ["main.go"];
    } else {
      NonEmptyTwo("cmd", name);
      assert NonEmpty(parts) == parts;
      assert parts[1..] == [name, "main.go"];
      assert parts[1..][1..] == ["main.go"];
    }
  }

  class HotReloader {
    var mode: Mode
    var microservice: string
    /** The directory of the entry point. */
    var entrypoint: string
    var projectRoot: string
    var buildCommands: seq<string>
    var runCommands: seq<string>

    /** NewHotReloader: monolith mode at the project root, building and running the package ".". */
    constructor (goos: string)
      ensures mode == Monolith && microservice == "" && projectRoot == "." && entrypoint == "."
      ensures buildCommands == ["go", "build", "-o", TempBinaryName(goos), "."]
      ensures runCommands == ["go", "run", "."]
    {
      mode := Monolith;
      microservice := "";
      projectRoot := ".";
      entrypoint := ".";
      buildCommands := ["go", "build", "-o", TempBinaryName(goos), "."];
      runCommands := ["go", "run", "."];
    }

    /**
     * NewMicroserviceHotReloader: service mode for `name`; the entry point
     * defaults to cmd/<name>/main.go, the watched entry directory is its
     * directory, and both commands end with the entry point.
     */
    constructor ForService(name: string, entrypointPath: string, goos: string)
      ensures mode == Microservice && microservice == name && projectRoot == "."
      ensures entrypoint == Dir(EntryPoint(name, entrypointPath))
      ensures buildCommands == ["go", "build", "-o", TempBinaryName(goos), EntryPoint(name, entrypointPath)]
      ensures runCommands == ["go", "run", EntryPoint(name, entrypointPath)]
    {
      var path := EntryPoint(name, entrypointPath);
      mode := Microservice;
      microservice := name;
      projectRoot := ".";
      entrypoint := Dir(path);
      buildCommands := ["go", "build", "-o", TempBinaryName(goos), path];
      runCommands := ["go", "run", path];
    }

    method SetCustomBuildCommand(cmd: seq<string>)
      modifies this
      ensures buildCommands == cmd && runCommands == old(runCommands)
      ensures mode == old(mode) && microservice == old(microservice)
      ensures entrypoint == old(entrypoint) && projectRoot == old(projectRoot)
    {
      buildCommands := cmd;
    }

    method SetCustomRunCommand(cmd: seq<string>)
      modifies this
      ensures runCommands == cmd && buildCommands == old(buildCommands)
      ensures mode == old(mode) && microservice == old(microservice)
      ensures entrypoint == old(entrypoint) && projectRoot == old(projectRoot)
    {
      runCommands := cmd;
    }

    method SetProjectRoot(path: string)
      modifies this
      ensures projectRoot == path && buildCommands == old(buildCommands) && runCommands == old(runCommands)
      ensures mode == old(mode) && microservice == old(microservice) && entrypoint == old(entrypoint)
    {
      projectRoot := path;
    }

    /**
     * setupWatcher: each listed directory that exists in `fs` is walked,
     * missing ones are skipped, and every directory the walk keeps is
     * watched.  A listed directory whose own name the filter accepts is
     * watched; one whose name it rejects, such as the default root ".",
     * is skipped with everything below it.
     */
    method SetupWatcher(fs: map<string, DirTree>) returns (watched: seq<string>)
      ensures watched == WatchedDirs(DirsToWatch(), fs)
      ensures forall d :: d in DirsToWatch() && d in fs && !SkipDir(fs[d].name) ==> d in watched
      ensures WellNamed(fs) ==> forall d :: d in DirsToWatch() && d in fs && !SkipDir(Base(d)) ==> d in watched
    {
      var dirs := WatchRoots(mode, projectRoot, microservice);
      watched := [];
      for i := 0 to |dirs|
        invariant watched == WatchedDirs(dirs[..i], fs)
      {
        assert dirs[..i + 1][..i] == dirs[..i];
        var d := dirs[i];
        if d in fs {
          watched := watched + WalkAdd(d, fs[d]);
        }
      }
      assert dirs[..|dirs|] == dirs;
      forall d | d in dirs && d in fs && !SkipDir(fs[d].name)
        ensures d in watched
      {
        WatchedDirsKept(dirs, fs, d);
      }
    }

    /** The directories setupWatcher walks. */
    function DirsToWatch(): (r: seq<string>)
      reads this
      ensures |r| >= 5 && r[0] == projectRoot
      ensures mode == Microservice ==> |r| == (if microservice == "" then 5 else 8)
    {
      WatchRoots(mode, projectRoot, microservice)
    }
  }

  /** A service reloader without an explicit entry point watches cmd/<name> and builds and runs cmd/<name>/main.go. */
  lemma DefaultEntryPoint(name: string)
    requires name != "" && '/' !in name
    ensures EntryPoint(name, "") == "cmd/" + name + "/main.go"
    ensures Dir(EntryPoint(name, "")) == "cmd/" + name
  {
    assert "cmd/" + name + "/main.go" == ("cmd/" + name) + "/" + "main.go";
    DirOfChild("cmd/" + name, "main.go");
  }

  // -------------------------------------------------------------- watch list

  /**
   * The directories to walk: the root, api, cmd, internal and pkg for a
   * service, with cmd/<name>, api/<name> and internal/<name> when it has a
   * name; the root, cmd, pkg, control, plugins and app otherwise.
   */
  function WatchRoots(mode: Mode, root: string, name: string): (r: seq<string>)
    ensures mode == Monolith ==> |r| == 6
    ensures mode == Microservice ==> |r| == (if name == "" then 5 else 8)
    ensures r[0] == root
  {
    if mode == Microservice then
      [root, JoinPath(root, ["api"]), JoinPath(root, ["cmd"]), JoinPath(root, ["internal"]), JoinPath(root, ["pkg"])]
      + (if name != "" then [JoinPath(root, ["cmd", name]), JoinPath(root, ["api", name]), JoinPath(root, ["internal", name])] else [])
    else
      [root, JoinPath(root, ["cmd"]), JoinPath(root, ["pkg"]), JoinPath(root, ["control"]), JoinPath(root, ["plugins"]), JoinPath(root, ["app"])]
  }

  /** From the project root ".", the paths are plain relative ones. */
  lemma WatchRootsAtDot(name: string)
    ensures WatchRoots(Monolith, ".", name) == [".", "cmd", "pkg", "control", "plugins", "app"]
    ensures WatchRoots(Microservice, ".", "") == [".", "api", "cmd", "internal", "pkg"]
    ensures name != "" ==>
      WatchRoots(Microservice, ".", name)
      == [".", "api", "cmd", "internal", "pkg", "cmd/" + name, "api/" + name, "internal/" + name]
  {
    JoinOne("api");
    JoinOne("cmd");
    JoinOne("internal");
    JoinOne("pkg");
    JoinOne("control");
    JoinOne("plugins");
    JoinOne("app");
    assert WatchRoots(Microservice, ".", "") == [".", "api", "cmd", "internal", "pkg"] + [];
    if name != "" {
      JoinTwo("cmd", name);
      JoinTwo("api", name);
      JoinTwo("internal", name);
      assert "cmd" + "/" == "cmd/" && "api" + "/" == "api/" && "internal" + "/" == "internal/";
      assert WatchRoots(Microservice, ".", name)
        == [".", "api", "cmd", "internal", "pkg"] + ["cmd/" + name, "api/" + name, "internal/" + name];
    }
  }

  // --------------------------------------------------------------- the walk

  /** A directory as the walk sees it: its name and its subdirectories in lexical order (files play no part). */
  datatype DirTree = DirTree(name: string, subdirs: seq<DirTree>)

  /** `s` without its trailing slashes. */
  function TrimTrailingSlashes(s: string): (r: string)
    ensures |r| <= |s| && r == s[..|r|]
    ensures r == [] || r[|r| - 1] != '/'
    ensures forall j :: |r| <= j < |s| ==> s[j] == '/'
  {
    if s == [] || s[|s| - 1] != '/' then s else TrimTrailingSlashes(s[..|s| - 1])
  }

  /** `r` is the last element of `path`, starting at `k`: after a '/' or at the start, followed only by slashes. */
  predicate LastElementAt(path: string, r: string, k: int)
  {
    0 <= k && k + |r| <= |path| && path[k..k + |r|] == r
    && (k == 0 || path[k - 1] == '/') && (forall j :: k + |r| <= j < |path| ==> path[j] == '/')
  }

  /**
   * filepath.Base: trailing slashes are dropped and the part after the last
   * remaining '/' is the base; "." for the empty path and "/" for a path of
   * slashes only.
   */
  function Base(path: string): (r: string)
    ensures path == "" ==> r == "."
    ensures path != "" && (forall j :: 0 <= j < |path| ==> path[j] == '/') ==> r == "/"
    ensures (exists j :: 0 <= j < |path| && path[j] != '/') ==>
      r != "" && '/' !in r && exists k :: LastElementAt(path, r, k)
    ensures LastSlash(path) == -1 && path != "" ==> r == path
  {
    var p := TrimTrailingSlashes(path);
    if path == "" then "."
    else if p == "" then "/"
    else
      var k := LastSlash(p) + 1;
      assert p[|p| - 1] != '/';
      assert LastElementAt(path, p[k..], k) by {
        assert path[k..|p|] == p[k..];
      }
      p[k..]
  }

  /** Go's edge cases: the root directory is its own base, and a trailing slash is ignored. */
  lemma BaseEdgeCases()
    ensures Base("/") == "/" && Base("cmd/api/") == "api" && Base(".") == "."
  {
    assert "cmd/api/"[0] != '/';
    assert TrimTrailingSlashes("cmd/api/") == "cmd/api" by {
      assert "cmd/api/"[..7] == "cmd/api";
    }
    assert LastSlash("cmd/api") == 3 by {
      assert "cmd/api"[..6] == "cmd/ap" && "cmd/ap"[..5] == "cmd/a" && "cmd/a"[..4] == "cmd/";
    }
    assert "cmd/api"[4..] == "api";
    assert LastSlash(".") == -1;
  }

  /** The walk starts from os.Lstat(root), whose name is filepath.Base(root): each tree is named after its path's last element. */
  ghost predicate WellNamed(fs: map<string, DirTree>)
  {
    forall d :: d in fs ==> fs[d].name == Base(d)
  }

  /** The walk's filter, as written: hidden directories, vendor, node_modules and tmp are skipped with their contents. */
  predicate SkipDir(name: string)
  {
    HasPrefix(name, ".") || name == "vendor" || name == "node_modules" || name == "tmp"
  }

  /** The directories filepath.Walk adds to the watcher, as written: the filter applies to the walk's root too. */
  function WalkAdd(path: string, t: DirTree): (r: seq<string>)
    ensures SkipDir(t.name) <==> r == []
    ensures r != [] ==> r[0] == path
    decreases t, 1
  {
    if SkipDir(t.name) then [] else [path] + WalkChildren(path, t.subdirs, |t.subdirs|)
  }

  /** The walk of the first `n` subdirectories of the directory at `path`, in order. */
  function WalkChildren(path: string, subs: seq<DirTree>, n: nat): seq<string>
    requires n <= |subs|
    decreases subs, 0, n
  {
    if n == 0 then []
    else WalkChildren(path, subs, n - 1) + WalkAdd(JoinPath(path, [subs[n - 1].name]), subs[n - 1])
  }

  /** Walking "." as written skips everything: its name is ".", which starts with a dot. */
  lemma DotRootSkipped(subdirs: seq<DirTree>)
    ensures WalkAdd(".", DirTree(".", subdirs)) == []
  {
    assert HasPrefix(".", ".");
  }

  /** The walk as intended: the directory it starts from is always added, the filter applies below it. */
  function WalkAddFromRoot(path: string, t: DirTree): (r: seq<string>)
    ensures r != [] && r[0] == path
  {
    [path] + WalkChildren(path, t.subdirs, |t.subdirs|)
  }

  /** The intended walk agrees with the written one except on a skipped root, which it still adds. */
  lemma WalkAddFromRootAgrees(path: string, t: DirTree)
    ensures !SkipDir(t.name) ==> WalkAddFromRoot(path, t) == WalkAdd(path, t)
    ensures SkipDir(t.name) ==> WalkAdd(path, t) == [] && path in WalkAddFromRoot(path, t)
  {
  }

  /** The directories added when walking each of `roots` that exists in `fs`, in order, with the walk as written. */
  function WatchedDirs(roots: seq<string>, fs: map<string, DirTree>): seq<string>
  {
    if roots == [] then []
    else
      var d := roots[|roots| - 1];
      WatchedDirs(roots[..|roots| - 1], fs) + (if d in fs then WalkAdd(d, fs[d]) else [])
  }

  /** As written, an existing listed directory is watched when the filter accepts its own name. */
  lemma {:induction false} WatchedDirsKept(roots: seq<string>, fs: map<string, DirTree>, d: string)
    requires d in roots && d in fs && !SkipDir(fs[d].name)
    ensures d in WatchedDirs(roots, fs)
    decreases |roots|
  {
    var init := roots[..|roots| - 1];
    var last := roots[|roots| - 1];
    if last == d {
      assert WalkAdd(d, fs[d])[0] == d;
    } else {
      assert d in init by {
        var k :| 0 <= k < |roots| && roots[k] == d;
        assert init[k] == d;
      }
      WatchedDirsKept(init, fs, d);
    }
  }

  /** As written, a well-named project root "." adds nothing, whatever lies below it. */
  lemma DotRootWalksNothing(fs: map<string, DirTree>)
    requires WellNamed(fs) && "." in fs
    ensures WalkAdd(".", fs["."]) == []
  {
    assert Base(".") == ".";
    assert HasPrefix(".", ".");
  }

  /** The directories added when walking each of `roots` that exists in `fs`, with the intended walk. */
  function WatchedDirsIntended(roots: seq<string>, fs: map<string, DirTree>): seq<string>
  {
    if roots == [] then []
    else
      var d := roots[|roots| - 1];
      WatchedDirsIntended(roots[..|roots| - 1], fs) + (if d in fs then WalkAddFromRoot(d, fs[d]) else [])
  }

  /** With the intended walk, each existing directory on the list is watched. */
  lemma {:induction false} WatchedDirsCover(roots: seq<string>, fs: map<string, DirTree>, d: string)
    requires d in roots && d in fs
    ensures d in WatchedDirsIntended(roots, fs)
    decreases |roots|
  {
    var init := roots[..|roots| - 1];
    var last := roots[|roots| - 1];
    if last == d {
      assert WalkAddFromRoot(d, fs[d])[0] == d;
    } else {
      assert d in init by {
        var k :| 0 <= k < |roots| && roots[k] == d;
        assert init[k] == d;
      }
      WatchedDirsCover(init, fs, d);
    }
  }

  /** The project root "." on its own: as written nothing is watched, with the intended walk "." is. */
  lemma WatchedDirsAsWrittenLosesRoot(subdirs: seq<DirTree>)
    ensures WatchedDirs(["."], map["." := DirTree(".", subdirs)]) == []
    ensures "." in WatchedDirsIntended(["."], map["." := DirTree(".", subdirs)])
  {
    var fs := map["." := DirTree(".", subdirs)];
    DotRootSkipped(subdirs);
    assert ["."][..0] == [];
    WatchedDirsCover(["."], fs, ".");
  }

  // ------------------------------------------------------------ change events

  /** fsnotify's operation bits. */
  const OpCreate: bv32 := 1
  const OpWrite: bv32 := 2
  const OpRemove: bv32 := 4
  const OpRename: bv32 := 8
  const OpChmod: bv32 := 16

  /** The watch loop's filter: a Go source file that is not a test, changed by a write, create, remove or rename. */
  predicate TriggersReload(name: string, op: bv32)
  {
    !(!HasSuffix(name, ".go") || HasSuffix(name, ".tmp") || HasSuffix(name, "_test.go"))
    && op & (OpWrite | OpCreate | OpRemove | OpRename) != 0
  }

  /** A name ending in ".go" never ends in ".tmp": that test adds nothing. */
  lemma TmpTestRedundant(name: string)
    requires HasSuffix(name, ".go")
    ensures !HasSuffix(name, ".tmp")
  {
    assert name[|name| - 1] == ".go"[2] == 'o' != ".tmp"[3];
  }

  lemma MaskBits(op: bv32)
    ensures op & (OpWrite | OpCreate | OpRemove | OpRename) != 0
      <==> op & OpCreate != 0 || op & OpWrite != 0 || op & OpRemove != 0 || op & OpRename != 0
  {
  }

  /** An event reloads exactly for a non-test Go file with at least one of the four operations; chmod alone never does. */
  lemma TriggersReloadExactly(name: string, op: bv32)
    ensures TriggersReload(name, op)
      <==> HasSuffix(name, ".go") && !HasSuffix(name, "_test.go")
           && (op & OpCreate != 0 || op & OpWrite != 0 || op & OpRemove != 0 || op & OpRename != 0)
    ensures !TriggersReload(name, OpChmod)
  {
    MaskBits(op);
    MaskBits(OpChmod);
    if HasSuffix(name, ".go") {
      TmpTestRedundant(name);
    }
  }
}
