/**
 * The Sass/SCSS compiler: its search-path builder, the one-level dependency
 * list, the normalisation of the engine's result and the importer callback
 * that looks up `@import`s in the search directories.
 */
module Sass {
  import opened Wrappers
  import opened ObjectSet
  import opened Strings
  import opened Platform
  import opened SearchPaths
  import opened CompilerBase
  import Js

  const MimeTypes: seq<string> := ["text/sass", "text/scss"]

  /** sass.js keeps its files under this virtual directory. */
  const SassRoot: string := "/sass/"

  /** `loc.replace(/^\/sass\//, '')`. */
  function StripSassRoot(loc: string): (r: string)
    ensures StartsWith(loc, SassRoot) ==> loc == SassRoot + r
    ensures !StartsWith(loc, SassRoot) ==> r == loc
  {
    if StartsWith(loc, SassRoot) then
      assert loc == loc[..|SassRoot|] + loc[|SassRoot|..];
      loc[|SassRoot|..]
    else loc
  }

  /** The module-level `resolve` of sass.js. */
  function ResolveLocation(p: Platform, loc: string): string {
    p.resolve([StripSassRoot(loc)])
  }

  /** `result.files || []`. */
  function Reported(files: Option<seq<string>>): seq<string> {
    if files.Some? then files.value else []
  }

  function ResolveAll(p: Platform, locs: seq<string>): (r: seq<string>)
    ensures |r| == |locs|
    ensures forall i :: 0 <= i < |locs| ==> r[i] == ResolveLocation(p, locs[i])
  {
    seq(|locs|, i requires 0 <= i < |locs| => ResolveLocation(p, locs[i]))
  }

  /** `dedupe(result.files || []).map(resolve).sort()`. */
  function Dependencies(p: Platform, files: Option<seq<string>>): seq<string> {
    Sort(ResolveAll(p, Dedupe(Reported(files))))
  }

  /**
   * The dependency list is sorted, has one entry per distinct reported
   * file, and holds exactly the resolved reported files.
   */
  lemma DependenciesSpec(p: Platform, files: Option<seq<string>>)
    ensures Sorted(Dependencies(p, files))
    ensures |Dependencies(p, files)| == |Dedupe(Reported(files))|
    ensures forall d :: d in Dependencies(p, files) <==>
      exists f :: f in Reported(files) && d == ResolveLocation(p, f)
  {
    var u := Dedupe(Reported(files));
    var m := ResolveAll(p, u);
    SortElements(m);
    forall d ensures d in m <==> exists f :: f in Reported(files) && d == ResolveLocation(p, f) {
      if d in m {
        var i :| 0 <= i < |m| && m[i] == d;
        assert u[i] in Reported(files);
      }
      if exists f :: f in Reported(files) && d == ResolveLocation(p, f) {
        var f :| f in Reported(files) && d == ResolveLocation(p, f);
        var i :| 0 <= i < |u| && u[i] == f;
        assert m[i] == d;
      }
    }
  }

  /**
   * `dedupe` runs before `resolve`, so the list is duplicate-free only when
   * no two distinct reported names resolve to the same path.
   */
  lemma DependenciesNoDups(p: Platform, files: Option<seq<string>>)
    requires forall f, g :: f in Reported(files) && g in Reported(files) && f != g ==>
      ResolveLocation(p, f) != ResolveLocation(p, g)
    ensures NoDups(Dependencies(p, files))
  {
    var u := Dedupe(Reported(files));
    var m := ResolveAll(p, u);
    forall i, j | 0 <= i < j < |m| ensures m[i] != m[j] {
      assert u[i] in Reported(files) && u[j] in Reported(files);
    }
    SortElements(m);
  }

  /**
   * The same file reported under its virtual name `/sass/name` and its
   * plain name `name` is listed twice.
   */
  lemma DependenciesVirtualAndPlainName(p: Platform, name: string)
    requires !StartsWith(name, SassRoot)
    ensures var deps := Dependencies(p, Some([SassRoot + name, name]));
      |deps| == 2 && deps[0] == deps[1] == p.resolve([name])
  {
    var virtual := SassRoot + name;
    assert virtual[..|SassRoot|] == SassRoot;
    assert virtual[|SassRoot|..] == name;
    var files := [virtual, name];
    assert NoDups(files);
    DedupeNoDups(files);
    var x := p.resolve([name]);
    var m := ResolveAll(p, files);
    assert m == [x, x];
    assert Dependencies(p, Some(files)) == Sort(m);
    LeRefl(x);
    assert Sorted(m);
    SortedUnique(Sort(m), m);
  }

  /** `if (!source) source = ' '`: an empty render becomes one space. */
  function Placeholder(text: Js.Value): (code: Js.Value)
    ensures Js.Truthy(code)
    ensures Js.Truthy(text) ==> code == text
    ensures !Js.Truthy(text) ==> code == Js.Str(" ")
  {
    if Js.Truthy(text) then text else Js.Str(" ")
  }

  /** What the sass.js engine hands to the `compile` callback. */
  datatype SassOutput = SassOutput(
    status: int,
    formatted: string,
    message: string,
    text: Js.Value,
    sourceMap: Js.Value,
    files: Option<seq<string>>)

  /** The result of `compile`/`compileSync` once the engine has answered. */
  function Finish(p: Platform, out: SassOutput): (r: Outcome<CompileResult>)
    ensures r.Failure? <==> out.status != 0
    ensures r.Failure? ==> r.error == EngineFailure(if out.formatted != "" then out.formatted else out.message)
    ensures r.Success? ==> r.value.code == Placeholder(out.text)
    ensures r.Success? ==> Js.Truthy(r.value.code) && (Js.Truthy(out.text) ==> r.value.code == out.text)
    ensures r.Success? ==> r.value.mimeType == "text/css" && r.value.sourceMaps == Js.Or(out.sourceMap, Js.Null)
    ensures r.Success? ==> r.value.dependencies == Some(Dependencies(p, out.files))
  {
    if out.status != 0 then
      Failure(EngineFailure(if out.formatted != "" then out.formatted else out.message))
    else
      Success(CompileResult(Placeholder(out.text), Js.Or(out.sourceMap, Js.Null), Some(Dependencies(p, out.files)), "text/css"))
  }

  function LowerAscii(c: char): char {
    if 'A' <= c <= 'Z' then (c as int + 32) as char else c
  }

  /** `filePath.match(/\.sass$/i)`: the matched suffix, or `null`. */
  function IndentedSyntax(filePath: string): (r: Js.Value)
    ensures Js.Truthy(r) <==>
      (|filePath| >= 5 && forall i :: 0 <= i < 5 ==> LowerAscii(filePath[|filePath| - 5 + i]) == ".sass"[i])
  {
    var n := |filePath|;
    if n >= 5 && forall i :: 0 <= i < 5 ==> LowerAscii(filePath[n - 5 + i]) == ".sass"[i]
    then Js.Arr([Js.Str(filePath[n - 5..])])
    else Js.Null
  }

  /** `{...this.compilerOptions, indentedSyntax, sourceMapRoot: filePath}`. */
  function RenderOptions(options: Js.Object, filePath: string): Js.Object {
    Js.Set(Js.Set(options, "indentedSyntax", IndentedSyntax(filePath)), "sourceMapRoot", Js.Str(filePath))
  }

  lemma RenderOptionsSpec(options: Js.Object, filePath: string)
    ensures Js.Get(RenderOptions(options, filePath), "indentedSyntax") == IndentedSyntax(filePath)
    ensures Js.Get(RenderOptions(options, filePath), "sourceMapRoot") == Js.Str(filePath)
    ensures forall k :: k != "indentedSyntax" && k != "sourceMapRoot" ==>
      Js.Get(RenderOptions(options, filePath), k) == Js.Get(options, k)
    ensures Js.Keys(RenderOptions(options, filePath)) == Insert(Insert(Js.Keys(options), "indentedSyntax"), "sourceMapRoot")
  {
    var o1 := Js.Set(options, "indentedSyntax", IndentedSyntax(filePath));
    Js.SetGet(options, "indentedSyntax", IndentedSyntax(filePath));
    Js.SetGetOther(o1, "sourceMapRoot", Js.Str(filePath), "indentedSyntax");
    Js.SetGet(o1, "sourceMapRoot", Js.Str(filePath));
    forall k | k != "indentedSyntax" && k != "sourceMapRoot"
      ensures Js.Get(RenderOptions(options, filePath), k) == Js.Get(options, k)
    {
      Js.SetGetOther(options, "indentedSyntax", IndentedSyntax(filePath), k);
      Js.SetGetOther(o1, "sourceMapRoot", Js.Str(filePath), k);
    }
    Js.SetKeys(options, "indentedSyntax", IndentedSyntax(filePath));
    Js.SetKeys(o1, "sourceMapRoot", Js.Str(filePath));
  }

  /** The `request` object sass.js passes to the importer; `file` is `""` when unset. */
  datatype ImportRequest = ImportRequest(file: string, resolved: string, previous: string)

  /** `done()` or `done({ path: file })`. */
  datatype ImportAnswer = NoResult | Found(path: string)

  /** A reducer value that a following `if (found)` takes as found. */
  predicate Present(found: Option<string>) {
    found.Some? && found.value != ""
  }

  /** An existing regular file (the file map never holds the empty path). */
  predicate IsFile(fs: FileSystem, path: string) {
    path in fs
  }

  /**
   * The body of `fixWindowsPath` for a path `_rest`: split on the
   * separator, put the underscore back in front of the last segment.
   */
  function MoveUnderscore(p: Platform, rest: string): string {
    var parts := Split(rest, p.sep);
    var dir := Join(parts[..|parts| - 1], p.sep);
    var fileName := parts[|parts| - 1];
    p.resolve([dir, "_" + fileName])
  }

  /** Without a separator the whole rest is the file name. */
  lemma MoveUnderscoreFlat(p: Platform, rest: string)
    requires p.sep !in rest
    ensures MoveUnderscore(p, rest) == p.resolve(["", "_" + rest])
  {
    var parts := Split(rest, p.sep);
    assert |parts| == 1;
    assert parts[..0] == [];
    assert Join(parts, p.sep) == parts[0];
  }

  /** Splitting at the last separator gives the directory and the file name. */
  lemma LastSegment(rest: string, sep: char)
    requires sep in rest
    ensures var parts := Split(rest, sep);
      var k := |Join(parts[..|parts| - 1], sep)|;
      && 0 <= k < |rest| && rest[k] == sep && sep !in rest[k + 1..]
      && rest[..k] == Join(parts[..|parts| - 1], sep) && rest[k + 1..] == parts[|parts| - 1]
  {
    var parts := Split(rest, sep);
    var n := |parts|;
    JoinLast(parts, sep);
    var dir := Join(parts[..n - 1], sep);
    var name := parts[n - 1];
    assert rest == dir + [sep] + name;
    var k := |dir|;
    assert rest[..k] == dir;
    assert rest[k + 1..] == name;
  }

  /** A string has at most one separator after which no other separator follows. */
  lemma LastSeparatorUnique(rest: string, sep: char, k: nat, k': nat)
    requires k < |rest| && rest[k] == sep && sep !in rest[k + 1..]
    requires k' < |rest| && rest[k'] == sep && sep !in rest[k' + 1..]
    ensures k == k'
  {
    forall j | k < j < |rest|
      ensures rest[j] != sep
    {
      assert rest[j] == rest[k + 1..][j - k - 1];
    }
    forall j | k' < j < |rest|
      ensures rest[j] != sep
    {
      assert rest[j] == rest[k' + 1..][j - k' - 1];
    }
  }

  /**
   * `_d/…/name` becomes `resolve(d/…, '_' + name)`: the underscore moves
   * from the front of the path to the front of its last segment, where
   * `k` is the position of the last separator.
   */
  lemma MoveUnderscoreNested(p: Platform, rest: string, k: nat)
    requires k < |rest| && rest[k] == p.sep && p.sep !in rest[k + 1..]
    ensures MoveUnderscore(p, rest) == p.resolve([rest[..k], "_" + rest[k + 1..]])
  {
    assert rest[k] in rest;
    var parts := Split(rest, p.sep);
    var dir := Join(parts[..|parts| - 1], p.sep);
    var name := parts[|parts| - 1];
    assert MoveUnderscore(p, rest) == p.resolve([dir, "_" + name]);
    LastSegment(rest, p.sep);
    LastSeparatorUnique(rest, p.sep, k, |dir|);
  }

  /** The answer for the first directory in which `probe` finds a file. */
  function FirstFound(probe: string -> Option<string>, dirs: seq<string>): ImportAnswer
    decreases |dirs|
  {
    if dirs == [] then NoResult
    else if Present(probe(dirs[0])) then Found(probe(dirs[0]).value)
    else FirstFound(probe, dirs[1..])
  }

  /** An answer comes exactly from the first directory that yields a file. */
  lemma {:induction false} FirstFoundSpec(probe: string -> Option<string>, dirs: seq<string>)
    ensures var answer := FirstFound(probe, dirs);
      && (answer.Found? <==> exists i :: 0 <= i < |dirs| && Present(probe(dirs[i])))
      && (answer.Found? ==>
            exists i :: 0 <= i < |dirs| && Present(probe(dirs[i])) && probe(dirs[i]) == Some(answer.path) &&
              forall j :: 0 <= j < i ==> !Present(probe(dirs[j])))
    decreases |dirs|
  {
    if dirs != [] && !Present(probe(dirs[0])) {
      FirstFoundSpec(probe, dirs[1..]);
      var answer := FirstFound(probe, dirs[1..]);
      forall i | 1 <= i < |dirs|
        ensures probe(dirs[i]) == probe(dirs[1..][i - 1])
      {
        assert dirs[i] == dirs[1..][i - 1];
      }
      if answer.Found? {
        var i :| 0 <= i < |dirs[1..]| && Present(probe(dirs[1..][i])) && probe(dirs[1..][i]) == Some(answer.path) &&
          forall j :: 0 <= j < i ==> !Present(probe(dirs[1..][j]));
        assert probe(dirs[i + 1]) == Some(answer.path);
      }
    }
  }

  class SassCompiler {
    const platform: Platform
    const libraryPaths: seq<string>
    const detectSass: string -> seq<string>
    const detectScss: string -> seq<string>
    const cabinet: (string, string, seq<string>) -> string
    var compilerOptions: Js.Object
    var seenFilePaths: seq<string>

    ghost predicate Valid()
      reads this
    {
      NoDups(seenFilePaths)
    }

    constructor(platform: Platform, detectSass: string -> seq<string>, detectScss: string -> seq<string>,
                cabinet: (string, string, seq<string>) -> string)
      ensures Valid()
      ensures compilerOptions == [("comments", Js.Bool(true)), ("sourceMapEmbed", Js.Bool(true)), ("sourceMapContents", Js.Bool(true))]
      ensures libraryPaths == Dedupe(platform.libraryRoots) && seenFilePaths == []
      ensures this.platform == platform && this.cabinet == cabinet
      ensures this.detectSass == detectSass && this.detectScss == detectScss
    {
      this.platform := platform;
      this.detectSass := detectSass;
      this.detectScss := detectScss;
      this.cabinet := cabinet;
      compilerOptions := [("comments", Js.Bool(true)), ("sourceMapEmbed", Js.Bool(true)), ("sourceMapContents", Js.Bool(true))];
      libraryPaths := Dedupe(platform.libraryRoots);
      seenFilePaths := [];
    }

    static function GetInputMimeTypes(): (r: seq<string>)
      ensures r == ["text/sass", "text/scss"]
    {
      MimeTypes
    }

    method DetermineImportPaths(filePath: string) returns (paths: seq<string>)
      requires Valid()
      modifies this`seenFilePaths
      ensures Valid()
      ensures seenFilePaths == Observe(platform.dirname, old(seenFilePaths), filePath)
      ensures paths == Tiers(seenFilePaths, UserPaths(compilerOptions), platform.cwd, libraryPaths)
    {
      if filePath != "" {
        var thisPath := platform.dirname(filePath);
        seenFilePaths := Insert(seenFilePaths, thisPath);
      }
      paths := seenFilePaths;
      var user := UserPaths(compilerOptions);
      if user.Some? {
        paths := paths + user.value;
      }
      paths := paths + [platform.cwd];
      paths := paths + libraryPaths;
    }

    function ShouldCompileFile(fileName: string): (r: bool)
      ensures r
    {
      true
    }

    function ShouldCompileFileSync(fileName: string): (r: bool)
      ensures r
    {
      true
    }

    /** detective-sass for a `.sass` file, detective-scss otherwise. */
    function Detect(sourceCode: string, filePath: string): seq<string> {
      if platform.extname(filePath) == ".sass" then detectSass(sourceCode) else detectScss(sourceCode)
    }

    method DetermineDependentFilesSync(sourceCode: string, filePath: string) returns (dependencies: seq<string>)
      ensures |dependencies| == |Detect(sourceCode, filePath)|
      ensures forall i :: 0 <= i < |dependencies| ==>
        dependencies[i] == cabinet(Detect(sourceCode, filePath)[i], filePath, [platform.dirname(filePath)])
    {
      var dependencyFilenames := Detect(sourceCode, filePath);
      dependencies := [];
      var i := 0;
      while i < |dependencyFilenames|
        invariant 0 <= i <= |dependencyFilenames|
        invariant |dependencies| == i
        invariant forall j :: 0 <= j < i ==>
          dependencies[j] == cabinet(dependencyFilenames[j], filePath, [platform.dirname(filePath)])
      {
        dependencies := dependencies + [cabinet(dependencyFilenames[i], filePath, [platform.dirname(filePath)])];
        i := i + 1;
      }
    }

    method DetermineDependentFiles(sourceCode: string, filePath: string) returns (dependencies: seq<string>)
      ensures |dependencies| == |Detect(sourceCode, filePath)|
      ensures forall i :: 0 <= i < |dependencies| ==>
        dependencies[i] == cabinet(Detect(sourceCode, filePath)[i], filePath, [platform.dirname(filePath)])
    {
      dependencies := DetermineDependentFilesSync(sourceCode, filePath);
    }

    /**
     * `engine` stands for sass.js: it renders the source with the options
     * and the importer built from the search paths.
     */
    method Compile(sourceCode: string, filePath: string, engine: (string, Js.Object, seq<string>) -> SassOutput)
      returns (r: Outcome<CompileResult>)
      requires Valid()
      modifies this`seenFilePaths
      ensures Valid()
      ensures seenFilePaths == Observe(platform.dirname, old(seenFilePaths), filePath)
      ensures r == Finish(platform, engine(sourceCode, RenderOptions(compilerOptions, filePath),
                                           Tiers(seenFilePaths, UserPaths(compilerOptions), platform.cwd, libraryPaths)))
    {
      var paths := DetermineImportPaths(filePath);
      var opts := RenderOptions(compilerOptions, filePath);
      var result := engine(sourceCode, opts, paths);
      r := Finish(platform, result);
    }

    method CompileSync(sourceCode: string, filePath: string, engine: (string, Js.Object, seq<string>) -> SassOutput)
      returns (r: Outcome<CompileResult>)
      requires Valid()
      modifies this`seenFilePaths
      ensures Valid()
      ensures seenFilePaths == Observe(platform.dirname, old(seenFilePaths), filePath)
      ensures r == Finish(platform, engine(sourceCode, RenderOptions(compilerOptions, filePath),
                                           Tiers(seenFilePaths, UserPaths(compilerOptions), platform.cwd, libraryPaths)))
    {
      var paths := DetermineImportPaths(filePath);
      var opts := RenderOptions(compilerOptions, filePath);
      var result := engine(sourceCode, opts, paths);
      if result.status != 0 {
        r := Failure(EngineFailure(if result.formatted != "" then result.formatted else result.message));
        return;
      }
      r := Finish(platform, result);
    }

    /** The path with its leading `/` removed on win32. */
    function Unslashed(file: string): (r: string)
      ensures platform.win32 && |file| > 0 && file[0] == '/' ==> file == "/" + r
      ensures !(platform.win32 && |file| > 0 && file[0] == '/') ==> r == file
    {
      if platform.win32 && |file| > 0 && file[0] == '/' then
        assert file == [file[0]] + file[1..];
        file[1..]
      else file
    }

    function FixWindowsPath(file: string): (r: string)
      ensures var f := Unslashed(file); !(|f| > 0 && f[0] == '_') ==> r == f
      ensures var f := Unslashed(file); |f| > 0 && f[0] == '_' ==> r == MoveUnderscore(platform, f[1..])
    {
      var f := Unslashed(file);
      if |f| > 0 && f[0] == '_' then MoveUnderscore(platform, f[1..]) else f
    }

    /** `importedFileReducer(found, path)`: keep what was found, else stat the path. */
    function ImportedFileReducer(fs: FileSystem, found: Option<string>, path: string): (r: Option<string>)
      ensures Present(found) ==> r == found
      ensures !Present(found) ==> (r == if IsFile(fs, path) then Some(path) else None)
    {
      if Present(found) then found
      else if IsFile(fs, path) then Some(path)
      else None
    }

    /** `variations.reduce(importedFileReducer, found)`. */
    function ReduceVariations(fs: FileSystem, found: Option<string>, variations: seq<string>): Option<string>
      decreases |variations|
    {
      if variations == [] then found
      else ReduceVariations(fs, ImportedFileReducer(fs, found, variations[0]), variations[1..])
    }

    /** Once something is found it is never replaced. */
    lemma {:induction false} ReduceKeepsFound(fs: FileSystem, found: Option<string>, variations: seq<string>)
      requires Present(found)
      ensures ReduceVariations(fs, found, variations) == found
      decreases |variations|
    {
      if variations != [] {
        ReduceKeepsFound(fs, found, variations[1..]);
      }
    }

    /** The fold yields the first variation that is an existing file, if any. */
    lemma {:induction false} ReduceFindsFirst(fs: FileSystem, found: Option<string>, variations: seq<string>)
      requires !Present(found)
      ensures var r := ReduceVariations(fs, found, variations);
        && (Present(r) <==> exists i :: 0 <= i < |variations| && IsFile(fs, variations[i]))
        && (Present(r) ==>
              exists i :: 0 <= i < |variations| && IsFile(fs, variations[i]) && r.value == variations[i] &&
                forall j :: 0 <= j < i ==> !IsFile(fs, variations[j]))
      decreases |variations|
    {
      if variations != [] {
        var v := variations[0];
        var next := ImportedFileReducer(fs, found, v);
        var tail := variations[1..];
        assert forall i :: 1 <= i < |variations| ==> variations[i] == tail[i - 1];
        if IsFile(fs, v) {
          ReduceKeepsFound(fs, next, tail);
        } else {
          ReduceFindsFirst(fs, next, tail);
          var r := ReduceVariations(fs, next, tail);
          if Present(r) {
            var i :| 0 <= i < |tail| && IsFile(fs, tail[i]) && r.value == tail[i] &&
              forall j :: 0 <= j < i ==> !IsFile(fs, tail[j]);
            assert variations[i + 1] == tail[i];
            assert forall j :: 1 <= j < i + 1 ==> variations[j] == tail[j - 1];
          }
        }
      }
    }

    /** `variations.map(fixWindowsPath)`. */
    function FixAll(variations: seq<string>): (r: seq<string>)
      ensures |r| == |variations|
      ensures forall k :: 0 <= k < |r| ==> r[k] == FixWindowsPath(variations[k])
    {
      seq(|variations|, k requires 0 <= k < |variations| => FixWindowsPath(variations[k]))
    }

    /** What the importer finds for the request path in one include directory. */
    function Probe(fs: FileSystem, variations: string -> seq<string>, dir: string, requestPath: string): Option<string> {
      ReduceVariations(fs, None, FixAll(variations(platform.resolve([dir, requestPath]))))
    }

    /** A file the importer finds in a directory exists. */
    lemma ProbeIsFile(fs: FileSystem, variations: string -> seq<string>, dir: string, requestPath: string)
      requires Present(Probe(fs, variations, dir, requestPath))
      ensures IsFile(fs, Probe(fs, variations, dir, requestPath).value)
    {
      ReduceFindsFirst(fs, None, FixAll(variations(platform.resolve([dir, requestPath]))));
    }

    /** `dirname(previous)` first unless the import comes from stdin, then the include paths. */
    function Candidates(includePaths: seq<string>, request: ImportRequest): (dirs: seq<string>)
      ensures request.previous != "stdin" ==>
        dirs == [platform.dirname(StripSassRoot(request.previous))] + includePaths
      ensures request.previous == "stdin" ==> dirs == includePaths
    {
      if request.previous != "stdin" then [platform.dirname(StripSassRoot(request.previous))] + includePaths
      else includePaths
    }

    /** `includePath => variations of resolve(includePath, requestPath), fixed and reduced`. */
    function ProbeIn(fs: FileSystem, variations: string -> seq<string>, requestPath: string): string -> Option<string> {
      dir => Probe(fs, variations, dir, requestPath)
    }

    /** The loop over `cleanedIncludes`. */
    function Search(fs: FileSystem, variations: string -> seq<string>, dirs: seq<string>, requestPath: string): ImportAnswer {
      FirstFound(ProbeIn(fs, variations, requestPath), dirs)
    }

    /**
     * The search answers exactly when some directory yields a file, with
     * the file of the first such directory, and that file exists.
     */
    lemma SearchSpec(fs: FileSystem, variations: string -> seq<string>, dirs: seq<string>, requestPath: string)
      ensures var answer := Search(fs, variations, dirs, requestPath);
        && (answer.Found? <==> exists i :: 0 <= i < |dirs| && Present(Probe(fs, variations, dirs[i], requestPath)))
        && (answer.Found? ==> IsFile(fs, answer.path))
        && (answer.Found? ==>
              exists i :: 0 <= i < |dirs| && Some(answer.path) == Probe(fs, variations, dirs[i], requestPath) &&
                forall j :: 0 <= j < i ==> !Present(Probe(fs, variations, dirs[j], requestPath)))
    {
      var probe := ProbeIn(fs, variations, requestPath);
      FirstFoundSpec(probe, dirs);
      var answer := FirstFound(probe, dirs);
      forall i | 0 <= i < |dirs|
        ensures probe(dirs[i]) == Probe(fs, variations, dirs[i], requestPath)
      {
      }
      if answer.Found? {
        var i :| 0 <= i < |dirs| && Present(probe(dirs[i])) && probe(dirs[i]) == Some(answer.path) &&
          forall j :: 0 <= j < i ==> !Present(probe(dirs[j]));
        ProbeIsFile(fs, variations, dirs[i], requestPath);
      }
    }

    /**
     * The callback of `buildImporterCallback(includePaths)`; `variations`
     * stands for `sass.getPathVariations`.
     */
    method Importer(includePaths: seq<string>, request: ImportRequest, fs: FileSystem, variations: string -> seq<string>)
      returns (answer: ImportAnswer)
      ensures request.file != "" ==> answer == NoResult
      ensures request.file == "" ==>
        answer == Search(fs, variations, Candidates(includePaths, request), StripSassRoot(request.resolved))
    {
      if request.file != "" {
        answer := NoResult;
        return;
      }
      var cleanedRequestPath := StripSassRoot(request.resolved);
      var cleanedPrevPath := StripSassRoot(request.previous);
      var cleanedIncludes := includePaths;
      if request.previous != "stdin" {
        cleanedIncludes := [platform.dirname(cleanedPrevPath)] + cleanedIncludes;
      }
      ghost var dirs := Candidates(includePaths, request);
      assert cleanedIncludes == dirs;
      var i := 0;
      while i < |cleanedIncludes|
        invariant 0 <= i <= |cleanedIncludes|
        invariant Search(fs, variations, dirs, cleanedRequestPath) == Search(fs, variations, cleanedIncludes[i..], cleanedRequestPath)
      {
        var filePath := platform.resolve([cleanedIncludes[i], cleanedRequestPath]);
        var file := ReduceVariations(fs, None, FixAll(variations(filePath)));
        if Present(file) {
          answer := Found(file.value);
          return;
        }
        assert cleanedIncludes[i..][1..] == cleanedIncludes[i + 1..];
        i := i + 1;
      }
      answer := NoResult;
    }
  }
}
