/**
 * `WindowsCommandResolver.Resolve` (ClaudeCodeCommandService.cs): find the
 * executable for a command name by probing `<dir>\<name>.exe` and then
 * `<dir>\<name>.cmd` in every directory of PATH, followed by the global npm
 * directory, with duplicate directories removed.
 *
 * The environment is a set of parameters: the PATH value, the roaming
 * application-data folder, and which directories and files exist.
 */
module Resolver {
  import opened Wrappers
  import opened Text

  const Extensions: seq<string> := [".exe", ".cmd"]

  /** The characters `Path.Combine` accepts as the end of a directory: the
      directory separator, the alternative separator and the volume separator. */
  predicate EndsWithSeparator(dir: string) {
    |dir| > 0 && (dir[|dir| - 1] == '\\' || dir[|dir| - 1] == '/' || dir[|dir| - 1] == ':')
  }

  /** `Path.IsPathRooted` on Windows: a leading separator, or a drive letter. */
  predicate IsRooted(p: string) {
    (|p| >= 1 && (p[0] == '\\' || p[0] == '/')) || (|p| >= 2 && p[1] == ':')
  }

  /** `Path.Combine(dir, file)`, past its argument check: an empty file name gives
      the directory, an empty directory or a rooted file name gives the file name. */
  function Combine(dir: string, file: string): string {
    if file == "" then dir
    else if IsRooted(file) || dir == "" then file
    else if EndsWithSeparator(dir) then dir + file
    else dir + "\\" + file
  }

  /** An empty file name leaves the directory as it is; a rooted file name, or one
      under the empty directory, is returned unchanged; otherwise the directory is
      followed by a separator (its own, or an added `\`) and then the file name. */
  lemma CombineFacts(dir: string, file: string)
    ensures var r := Combine(dir, file);
      && (file == "" ==> r == dir)
      && (file != "" && (IsRooted(file) || dir == "") ==> r == file)
      && (file != "" && !IsRooted(file) && dir != "" ==>
            && |r| > |dir| + |file| - 1 && r[..|dir|] == dir && r[|r| - |file|..] == file
            && EndsWithSeparator(r[..|r| - |file|])
            && (r == dir + file <==> EndsWithSeparator(dir)))
  {
  }

  /** The characters the .NET Framework's path check refuses: `"`, `<`, `>`, `|` and
      the control characters below U+0020. */
  predicate IsInvalidPathChar(c: char) {
    c == '"' || c == '<' || c == '>' || c == '|' || c < ' '
  }

  predicate HasInvalidPathChars(p: string) {
    exists i :: 0 <= i < |p| && IsInvalidPathChar(p[i])
  }

  /** `Path.Combine(dir, file)` with the argument check it makes first: `None` is the
      `ArgumentException` it throws when either argument holds an invalid character. */
  function PathCombine(dir: string, file: string): Option<string> {
    if HasInvalidPathChars(dir) || HasInvalidPathChars(file) then None else Some(Combine(dir, file))
  }

  /** `Path.Combine` throws exactly when an argument holds an invalid character, and
      what it returns holds none: the separator it may add is a valid character. */
  lemma PathCombineFacts(dir: string, file: string)
    ensures PathCombine(dir, file).None? <==> HasInvalidPathChars(dir) || HasInvalidPathChars(file)
    ensures PathCombine(dir, file).Some? ==> !HasInvalidPathChars(PathCombine(dir, file).value)
  {
    if PathCombine(dir, file).Some? {
      var r := Combine(dir, file);
      forall i | 0 <= i < |r|
        ensures !IsInvalidPathChar(r[i])
      {
        if file == "" || IsRooted(file) || dir == "" {
        } else if EndsWithSeparator(dir) {
          if i >= |dir| { assert r[i] == file[i - |dir|]; }
        } else {
          if i > |dir| { assert r[i] == file[i - |dir| - 1]; }
        }
      }
    }
  }

  predicate NoDuplicates(xs: seq<string>) {
    forall i, j :: 0 <= i < j < |xs| ==> xs[i] != xs[j]
  }

  /** `Distinct()` after the strings in `seen`: the first occurrence of each string
      not seen yet, in order. */
  function DistinctFrom(xs: seq<string>, seen: set<string>): (r: seq<string>)
    ensures |r| <= |xs|
  {
    if xs == [] then []
    else if xs[0] in seen then DistinctFrom(xs[1..], seen)
    else [xs[0]] + DistinctFrom(xs[1..], seen + {xs[0]})
  }

  /** The distinct list holds exactly the unseen elements, each once. */
  lemma {:induction false} DistinctFromFacts(xs: seq<string>, seen: set<string>)
    ensures var r := DistinctFrom(xs, seen);
      && (forall x :: x in r <==> x in xs && x !in seen)
      && NoDuplicates(r)
  {
    if xs != [] {
      var r := DistinctFrom(xs, seen);
      if xs[0] in seen {
        DistinctFromFacts(xs[1..], seen);
      } else {
        DistinctFromFacts(xs[1..], seen + {xs[0]});
        var rest := DistinctFrom(xs[1..], seen + {xs[0]});
        assert r == [xs[0]] + rest;
        forall i, j | 0 <= i < j < |r|
          ensures r[i] != r[j]
        {
          if i == 0 {
            assert r[j] == rest[j - 1];
          } else {
            assert r[i] == rest[i - 1] && r[j] == rest[j - 1];
          }
        }
      }
    }
  }

  function Elems(xs: seq<string>): set<string> {
    set x | x in xs
  }

  /** `Enumerable.Distinct` with ordinal string equality. */
  function Distinct(xs: seq<string>): seq<string> {
    DistinctFrom(xs, {})
  }

  /** The directories searched, in order: the PATH entries (when PATH is not blank),
      then `%APPDATA%\npm` when that directory exists; duplicates removed. `None` is the
      `ArgumentException` of combining the application-data folder with `npm`. */
  function SearchDirectories(envPath: Option<string>, appData: string, dirExists: string -> bool): Option<seq<string>> {
    var fromPath := if !IsNullOrWhiteSpace(envPath) then Split(envPath.value, ';') else [];
    match PathCombine(appData, "npm")
    case None => None
    case Some(npmBin) => Some(Distinct(fromPath + (if dirExists(npmBin) then [npmBin] else [])))
  }

  /** How a search ends: a file found, nothing found, or the `ArgumentException` of
      `Path.Combine`, which ends the search at once. */
  datatype Search = Hit(path: string) | Miss | Illegal

  /** One candidate: `Path.Combine(dir, name + ext)` and then `File.Exists`. */
  function Candidate(dir: string, name: string, ext: string, fileExists: string -> bool): Search {
    match PathCombine(dir, name + ext)
    case None => Illegal
    case Some(full) => if fileExists(full) then Hit(full) else Miss
  }

  /** The candidates of one directory, extension by extension, up to the first that
      is not a miss. */
  function Probe(dir: string, name: string, exts: seq<string>, fileExists: string -> bool): (r: Search)
    ensures r.Hit? ==> fileExists(r.path)
  {
    if exts == [] then Miss
    else
      var c := Candidate(dir, name, exts[0], fileExists);
      if c.Miss? then Probe(dir, name, exts[1..], fileExists) else c
  }

  /** The directories in order, up to the first whose probe is not a miss. */
  function Lookup(dirs: seq<string>, name: string, fileExists: string -> bool): (r: Search)
    ensures r.Hit? ==> fileExists(r.path)
  {
    if dirs == [] then Miss
    else
      var p := Probe(dirs[0], name, Extensions, fileExists);
      if p.Miss? then Lookup(dirs[1..], name, fileExists) else p
  }

  /** What `Resolve` returns: the first existing candidate, or the bare command name
      when there is none; `None` is the `ArgumentException` it lets escape. */
  function Resolution(commandName: string, envPath: Option<string>, appData: string,
                      dirExists: string -> bool, fileExists: string -> bool): Option<string>
  {
    match SearchDirectories(envPath, appData, dirExists)
    case None => None
    case Some(dirs) =>
      match Lookup(dirs, commandName, fileExists)
      case Hit(full) => Some(full)
      case Miss => Some(commandName)
      case Illegal => None
  }

  /** A probe ends with the first candidate that is not a miss (a hit, or a path
      `Path.Combine` refuses), and misses exactly when every candidate misses. */
  lemma {:induction false} ProbeFindsFirst(dir: string, name: string, exts: seq<string>, fileExists: string -> bool)
    ensures var r := Probe(dir, name, exts, fileExists);
      && (!r.Miss? ==>
            exists e :: 0 <= e < |exts| && Candidate(dir, name, exts[e], fileExists) == r
                        && forall e' :: 0 <= e' < e ==> Candidate(dir, name, exts[e'], fileExists).Miss?)
      && (r.Miss? <==> forall e :: 0 <= e < |exts| ==> Candidate(dir, name, exts[e], fileExists).Miss?)
    decreases |exts|
  {
    if exts != [] {
      ProbeFindsFirst(dir, name, exts[1..], fileExists);
      var r := Probe(dir, name, exts, fileExists);
      if Candidate(dir, name, exts[0], fileExists).Miss? && !r.Miss? {
        var e :| 0 <= e < |exts| - 1 && Candidate(dir, name, exts[1..][e], fileExists) == r
                 && forall e' :: 0 <= e' < e ==> Candidate(dir, name, exts[1..][e'], fileExists).Miss?;
        assert forall e' :: 0 <= e' < e + 1 ==> Candidate(dir, name, exts[e'], fileExists).Miss? by {
          forall e' | 0 < e' < e + 1
            ensures exts[e'] == exts[1..][e' - 1]
          {
          }
        }
        assert Candidate(dir, name, exts[e + 1], fileExists) == r;
      }
      if r.Miss? {
        forall e | 0 < e < |exts|
          ensures exts[e] == exts[1..][e - 1]
        {
        }
      }
    }
  }

  /** A lookup ends with the probe of the first directory that is not a miss, and
      misses exactly when every directory misses. */
  lemma {:induction false} LookupFindsFirst(dirs: seq<string>, name: string, fileExists: string -> bool)
    ensures var r := Lookup(dirs, name, fileExists);
      && (!r.Miss? ==>
            exists d :: 0 <= d < |dirs| && Probe(dirs[d], name, Extensions, fileExists) == r
                        && forall d' :: 0 <= d' < d ==> Probe(dirs[d'], name, Extensions, fileExists).Miss?)
      && (r.Miss? <==> forall d :: 0 <= d < |dirs| ==> Probe(dirs[d], name, Extensions, fileExists).Miss?)
    decreases |dirs|
  {
    if dirs != [] {
      LookupFindsFirst(dirs[1..], name, fileExists);
      var r := Lookup(dirs, name, fileExists);
      if Probe(dirs[0], name, Extensions, fileExists).Miss? && !r.Miss? {
        var d :| 0 <= d < |dirs| - 1 && Probe(dirs[1..][d], name, Extensions, fileExists) == r
                 && forall d' :: 0 <= d' < d ==> Probe(dirs[1..][d'], name, Extensions, fileExists).Miss?;
        assert forall d' :: 0 <= d' < d + 1 ==> Probe(dirs[d'], name, Extensions, fileExists).Miss? by {
          forall d' | 0 < d' < d + 1
            ensures dirs[d'] == dirs[1..][d' - 1]
          {
          }
        }
        assert Probe(dirs[d + 1], name, Extensions, fileExists) == r;
      }
      if r.Miss? {
        forall d | 0 < d < |dirs|
          ensures dirs[d] == dirs[1..][d - 1]
        {
        }
      }
    }
  }

  /** `Resolve`: the first existing candidate, or the bare command name when there is
      none; `None` when a `Path.Combine` throws. */
  method Resolve(commandName: string, envPath: Option<string>, appData: string,
                 dirExists: string -> bool, fileExists: string -> bool) returns (resolved: Option<string>)
    ensures resolved == Resolution(commandName, envPath, appData, dirExists, fileExists)
  {
    var paths: seq<string> := [];
    if !IsNullOrWhiteSpace(envPath) {
      paths := paths + Split(envPath.value, ';');
    }
    ghost var fromPath := paths;
    assert fromPath == if !IsNullOrWhiteSpace(envPath) then Split(envPath.value, ';') else [];
    var npm := PathCombine(appData, "npm");
    if npm.None? {
      return None;
    }
    var npmBin := npm.value;
    if dirExists(npmBin) {
      paths := paths + [npmBin];
    }
    assert paths == fromPath + (if dirExists(npmBin) then [npmBin] else []);
    paths := Distinct(paths);
    assert SearchDirectories(envPath, appData, dirExists) == Some(paths);

    var d := 0;
    while d < |paths|
      invariant 0 <= d <= |paths|
      invariant Lookup(paths, commandName, fileExists) == Lookup(paths[d..], commandName, fileExists)
    {
      var dir := paths[d];
      var e := 0;
      while e < |Extensions|
        invariant 0 <= e <= |Extensions|
        invariant Probe(dir, commandName, Extensions, fileExists) == Probe(dir, commandName, Extensions[e..], fileExists)
      {
        var full := PathCombine(dir, commandName + Extensions[e]);
        assert Extensions[e..][0] == Extensions[e];
        if full.None? {
          assert Probe(dir, commandName, Extensions, fileExists) == Illegal;
          assert paths[d..][0] == dir;
          return None;
        }
        if fileExists(full.value) {
          assert Probe(dir, commandName, Extensions, fileExists) == Hit(full.value);
          assert paths[d..][0] == dir;
          return full;
        }
        assert Extensions[e..][1..] == Extensions[e + 1..];
        e := e + 1;
      }
      assert Extensions[e..] == [];
      assert Probe(dir, commandName, Extensions, fileExists).Miss?;
      assert paths[d..][0] == dir && paths[d..][1..] == paths[d + 1..];
      d := d + 1;
    }
    return Some(commandName);
  }

  /** Removing duplicate directories never changes how the search ends: a repeated
      directory was already probed without a hit and without a refused path. */
  lemma {:induction false} LookupIgnoresDuplicates(dirs: seq<string>, seen: set<string>, name: string, fileExists: string -> bool)
    requires forall d :: d in seen ==> Probe(d, name, Extensions, fileExists).Miss?
    ensures Lookup(DistinctFrom(dirs, seen), name, fileExists) == Lookup(dirs, name, fileExists)
    decreases |dirs|
  {
    if dirs != [] {
      if dirs[0] in seen {
        LookupIgnoresDuplicates(dirs[1..], seen, name, fileExists);
      } else if Probe(dirs[0], name, Extensions, fileExists).Miss? {
        LookupIgnoresDuplicates(dirs[1..], seen + {dirs[0]}, name, fileExists);
      }
    }
  }

  /** The distinct list of a concatenation is the distinct list of the first part
      followed by what the second part adds: PATH entries keep their place ahead of
      the npm directory. */
  lemma {:induction false} DistinctAppend(a: seq<string>, b: seq<string>, seen: set<string>)
    ensures DistinctFrom(a + b, seen) == DistinctFrom(a, seen) + DistinctFrom(b, seen + Elems(a))
    decreases |a|
  {
    if a == [] {
      assert a + b == b;
      assert seen + Elems(a) == seen;
    } else {
      assert (a + b)[1..] == a[1..] + b;
      if a[0] in seen {
        DistinctAppend(a[1..], b, seen);
        assert seen + Elems(a[1..]) == seen + Elems(a);
      } else {
        DistinctAppend(a[1..], b, seen + {a[0]});
        assert seen + {a[0]} + Elems(a[1..]) == seen + Elems(a);
      }
    }
  }

  /** `Resolve` throws when the application-data folder cannot be combined with `npm`;
      otherwise its search ends as the search over the PATH entries as written
      (duplicates included) does, and only when that misses, the npm directory is
      probed. */
  lemma ResolveSearchesPathFirst(envPath: Option<string>, appData: string, dirExists: string -> bool,
                                 name: string, fileExists: string -> bool)
    ensures PathCombine(appData, "npm").None? ==> Resolution(name, envPath, appData, dirExists, fileExists).None?
    ensures PathCombine(appData, "npm").Some? ==>
      var fromPath := if !IsNullOrWhiteSpace(envPath) then Split(envPath.value, ';') else [];
      var npmBin := PathCombine(appData, "npm").value;
      var r := Lookup(SearchDirectories(envPath, appData, dirExists).value, name, fileExists);
      && (!Lookup(fromPath, name, fileExists).Miss? ==> r == Lookup(fromPath, name, fileExists))
      && (Lookup(fromPath, name, fileExists).Miss? ==>
            r == (if dirExists(npmBin) then Probe(npmBin, name, Extensions, fileExists) else Miss))
  {
    if PathCombine(appData, "npm").Some? {
      var fromPath := if !IsNullOrWhiteSpace(envPath) then Split(envPath.value, ';') else [];
      var npmBin := PathCombine(appData, "npm").value;
      var tail := if dirExists(npmBin) then [npmBin] else [];
      LookupIgnoresDuplicates(fromPath + tail, {}, name, fileExists);
      LookupAppend(fromPath, tail, name, fileExists);
    }
  }

  /** Looking up over a concatenation looks in the second part only after the first
      part missed everywhere. */
  lemma {:induction false} LookupAppend(a: seq<string>, b: seq<string>, name: string, fileExists: string -> bool)
    ensures Lookup(a + b, name, fileExists) ==
      if Lookup(a, name, fileExists).Miss? then Lookup(b, name, fileExists) else Lookup(a, name, fileExists)
    decreases |a|
  {
    if a != [] {
      assert (a + b)[1..] == a[1..] + b;
      LookupAppend(a[1..], b, name, fileExists);
    } else {
      assert a + b == b;
    }
  }

  /** A directory holding an invalid path character stops the search with the
      `ArgumentException` as soon as it is reached: no later directory is probed. */
  lemma InvalidEntryStopsSearch(dirs: seq<string>, k: int, name: string, fileExists: string -> bool)
    requires 0 <= k < |dirs| && HasInvalidPathChars(dirs[k])
    requires forall d :: 0 <= d < k ==> Probe(dirs[d], name, Extensions, fileExists).Miss?
    ensures Lookup(dirs, name, fileExists) == Illegal
  {
    assert Probe(dirs[k], name, Extensions, fileExists) == Illegal;
    LookupFindsFirst(dirs, name, fileExists);
    var r := Lookup(dirs, name, fileExists);
    if !r.Miss? {
      var d :| 0 <= d < |dirs| && Probe(dirs[d], name, Extensions, fileExists) == r
               && forall d' :: 0 <= d' < d ==> Probe(dirs[d'], name, Extensions, fileExists).Miss?;
      assert d == k;
    }
  }

  /** A PATH entry written in quotes, as in `"C:\Program Files\nodejs";C:\tools`, makes
      `Path.Combine` throw before `C:\tools` is probed, whatever files exist. */
  lemma QuotedPathEntryThrows(fileExists: string -> bool)
    ensures Lookup(["\"C:\\Program Files\\nodejs\"", "C:\\tools"], "claude", fileExists) == Illegal
  {
    var quoted := "\"C:\\Program Files\\nodejs\"";
    assert IsInvalidPathChar(quoted[0]);
    InvalidEntryStopsSearch([quoted, "C:\\tools"], 0, "claude", fileExists);
  }

  /** In one directory the `.exe` wins over the `.cmd`. */
  lemma ExePreferredOverCmd(dir: string, name: string, full: string, fileExists: string -> bool)
    requires PathCombine(dir, name + ".exe") == Some(full) && fileExists(full)
    ensures Probe(dir, name, Extensions, fileExists) == Hit(full)
  {
  }

  /** An empty PATH entry (as in `a;;b`) makes `Path.Combine` return the bare file
      name, so the current directory is probed. */
  lemma EmptyPathEntryProbesCurrentDirectory(name: string, fileExists: string -> bool)
    requires !HasInvalidPathChars(name + ".exe")
    requires !IsRooted(name + ".exe") && fileExists(name + ".exe")
    ensures Lookup([""], name, fileExists) == Hit(name + ".exe")
  {
  }
}
