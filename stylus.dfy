/**
 * The Stylus compiler: search paths in reversed order, the option bag
 * handed to stylus (with the nib plugin appended to `use` when `nib` is
 * imported), the replay of the option bag onto the renderer, and a
 * one-level dependency list.
 */
module Stylus {
  import opened Wrappers
  import opened ObjectSet
  import opened Platform
  import opened SearchPaths
  import opened CompilerBase
  import Js

  const MimeTypes: seq<string> := ["text/stylus"]

  /** The value `nib()` returns: the nib plugin. */
  const NibPlugin: Js.Value := Js.Fun("nib")

  /** One call `stylus[name](...args)` on the renderer. */
  datatype Invocation = Invocation(name: string, args: seq<Js.Value>)

  /** The renderer `stylusjs(sourceCode, opts)`, seen through the calls made on it. */
  class Renderer {
    var calls: seq<Invocation>

    constructor()
      ensures calls == []
    {
      calls := [];
    }

    method Call(name: string, args: seq<Js.Value>)
      modifies this`calls
      ensures calls == old(calls) + [Invocation(name, args)]
    {
      calls := calls + [Invocation(name, args)];
    }
  }

  /** `opts.import`, wrapped in an array when it is truthy and not one already. */
  function WithImport(o: Js.Object): Js.Object {
    var imp := Js.Get(o, "import");
    if Js.Truthy(imp) && !imp.Arr? then Js.Set(o, "import", Js.Arr([imp])) else o
  }

  /** `opts.import && opts.import.indexOf('nib') >= 0` once `import` is wrapped. */
  predicate ImportsNib(o: Js.Object) {
    var imp := Js.Get(o, "import");
    Js.Truthy(imp) && imp.Arr? && Js.Str("nib") in imp.items
  }

  /** The plugins listed in `use` before nib is appended. */
  function UseBase(use: Js.Value): seq<Js.Value> {
    if !Js.Truthy(use) then [] else if use.Arr? then use.items else [use]
  }

  /**
   * `makeOpts(filePath)` on the compiler options `o`: the options for
   * stylus, and the compiler options afterwards. The spread copies only
   * the outer object, so pushing nib onto a `use` array that came from
   * the compiler options pushes it onto theirs too.
   */
  function Normalize(o: Js.Object, fileName: string): (r: (Js.Object, Js.Object)) {
    var o1 := WithImport(Js.Set(o, "filename", Js.Str(fileName)));
    if !ImportsNib(o1) then (o1, o)
    else
      var use := Js.Get(o1, "use");
      var use' := Js.Arr(UseBase(use) + [NibPlugin]);
      (Js.Set(o1, "use", use'), if Js.Truthy(use) && use.Arr? then Js.Set(o, "use", use') else o)
  }

  lemma NormalizeGetUse(o: Js.Object, fileName: string)
    ensures Js.Get(WithImport(Js.Set(o, "filename", Js.Str(fileName))), "use") == Js.Get(o, "use")
  {
    Js.SetGetOther(o, "filename", Js.Str(fileName), "use");
    Js.SetGetOther(Js.Set(o, "filename", Js.Str(fileName)), "import", Js.Arr([Js.Get(Js.Set(o, "filename", Js.Str(fileName)), "import")]), "use");
  }

  lemma NormalizeGetImport(o: Js.Object, fileName: string)
    ensures var imp := Js.Get(o, "import");
      Js.Get(WithImport(Js.Set(o, "filename", Js.Str(fileName))), "import") ==
        if Js.Truthy(imp) && !imp.Arr? then Js.Arr([imp]) else imp
  {
    var o0 := Js.Set(o, "filename", Js.Str(fileName));
    Js.SetGetOther(o, "filename", Js.Str(fileName), "import");
    Js.SetGet(o0, "import", Js.Arr([Js.Get(o0, "import")]));
  }

  /** `filename` is the base name and a truthy `import` is always an array. */
  lemma {:induction false} NormalizeFilenameImport(o: Js.Object, fileName: string)
    ensures var opts := Normalize(o, fileName).0;
      var imp := Js.Get(o, "import");
      && Js.Get(opts, "filename") == Js.Str(fileName)
      && (Js.Truthy(imp) && !imp.Arr? ==> Js.Get(opts, "import") == Js.Arr([imp]))
      && (!(Js.Truthy(imp) && !imp.Arr?) ==> Js.Get(opts, "import") == imp)
  {
    var o0 := Js.Set(o, "filename", Js.Str(fileName));
    var o1 := WithImport(o0);
    Js.SetGet(o, "filename", Js.Str(fileName));
    Js.SetGetOther(o0, "import", Js.Arr([Js.Get(o0, "import")]), "filename");
    NormalizeGetImport(o, fileName);
    if ImportsNib(o1) {
      var use' := Js.Arr(UseBase(Js.Get(o1, "use")) + [NibPlugin]);
      Js.SetGetOther(o1, "use", use', "filename");
      Js.SetGetOther(o1, "use", use', "import");
    }
  }

  /**
   * When nib is imported, `use` ends up an array holding the plugins it
   * held before (a lone plugin counts as one) followed by one nib; the
   * compiler options gain that nib as well exactly when their `use` was
   * already an array.
   */
  lemma {:induction false} NormalizeUse(o: Js.Object, fileName: string)
    ensures var (opts, shared) := Normalize(o, fileName);
      var o1 := WithImport(Js.Set(o, "filename", Js.Str(fileName)));
      var use := Js.Get(o, "use");
      && (ImportsNib(o1) ==> Js.Get(opts, "use") == Js.Arr(UseBase(use) + [NibPlugin]))
      && (!ImportsNib(o1) ==> Js.Get(opts, "use") == use && shared == o)
      && (ImportsNib(o1) && Js.Truthy(use) && use.Arr? ==> Js.Get(shared, "use") == Js.Get(opts, "use"))
      && (!(ImportsNib(o1) && Js.Truthy(use) && use.Arr?) ==> shared == o)
  {
    var o1 := WithImport(Js.Set(o, "filename", Js.Str(fileName)));
    NormalizeGetUse(o, fileName);
    if ImportsNib(o1) {
      var use' := Js.Arr(UseBase(Js.Get(o, "use")) + [NibPlugin]);
      Js.SetGet(o1, "use", use');
      Js.SetGet(o, "use", use');
    }
  }

  /** `makeOpts` touches no option besides `filename`, `import` and `use`, and never removes one. */
  lemma {:induction false} NormalizeOthers(o: Js.Object, fileName: string, k: string)
    requires k != "filename" && k != "import" && k != "use"
    ensures Js.Get(Normalize(o, fileName).0, k) == Js.Get(o, k)
    ensures Js.Get(Normalize(o, fileName).1, k) == Js.Get(o, k)
  {
    var o0 := Js.Set(o, "filename", Js.Str(fileName));
    var o1 := WithImport(o0);
    Js.SetGetOther(o, "filename", Js.Str(fileName), k);
    Js.SetGetOther(o0, "import", Js.Arr([Js.Get(o0, "import")]), k);
    if ImportsNib(o1) {
      var use' := Js.Arr(UseBase(Js.Get(o1, "use")) + [NibPlugin]);
      Js.SetGetOther(o1, "use", use', k);
      Js.SetGetOther(o, "use", use', k);
    }
  }

  /**
   * With `use` an array in the compiler options and nib imported, every
   * compile appends another nib to it: after two compiles it has two more.
   */
  lemma NibAccumulates(o: Js.Object, a: string, b: string, plugins: seq<Js.Value>)
    requires Js.Get(o, "use") == Js.Arr(plugins)
    requires ImportsNib(WithImport(Js.Set(o, "filename", Js.Str(a))))
    ensures var shared := Normalize(o, a).1;
      Js.Get(Normalize(shared, b).0, "use") == Js.Arr(plugins + [NibPlugin, NibPlugin])
  {
    NormalizeUse(o, a);
    var o1 := WithImport(Js.Set(o, "filename", Js.Str(a)));
    var use' := Js.Arr(plugins + [NibPlugin]);
    var shared := Normalize(o, a).1;
    NormalizeGetUse(o, a);
    assert shared == Js.Set(o, "use", use');
    Js.SetGetOther(o, "use", use', "import");
    NormalizeGetImport(o, a);
    NormalizeGetImport(shared, b);
    NormalizeUse(shared, b);
    assert plugins + [NibPlugin] + [NibPlugin] == plugins + [NibPlugin, NibPlugin];
  }

  /** The option keys `applyOpts` replays onto the renderer. */
  predicate Replayed(key: string) {
    key == "set" || key == "define" || key == "include" || key == "import" || key == "use"
  }

  /** `set`/`define` pass the entry's key and value, the other keys only the value. */
  function EntryCall(key: string, entry: (string, Js.Value)): Invocation {
    if key == "set" || key == "define" then Invocation(key, [Js.Str(entry.0), entry.1])
    else Invocation(key, [entry.1])
  }

  /** The calls for the entries of one option value, in enumeration order. */
  function EntryCalls(key: string, entries: seq<(string, Js.Value)>): (r: seq<Invocation>)
    ensures |r| == |entries|
    ensures forall i :: 0 <= i < |entries| ==> r[i] == EntryCall(key, entries[i])
  {
    if entries == [] then []
    else EntryCalls(key, entries[..|entries| - 1]) + [EntryCall(key, entries[|entries| - 1])]
  }

  function KeyCalls(key: string, val: Js.Value): seq<Invocation> {
    if Replayed(key) then EntryCalls(key, Js.ForIn(val)) else []
  }

  /** The calls `applyOpts` makes for the options, before it sets `paths`. */
  function OptionCalls(opts: Js.Object): seq<Invocation> {
    if opts == [] then []
    else OptionCalls(opts[..|opts| - 1]) + KeyCalls(opts[|opts| - 1].0, opts[|opts| - 1].1)
  }

  lemma {:induction false} OptionCallsAppend(a: Js.Object, b: Js.Object)
    ensures OptionCalls(a + b) == OptionCalls(a) + OptionCalls(b)
    decreases |b|
  {
    if b != [] {
      var n := |b|;
      assert (a + b)[..|a + b| - 1] == a + b[..n - 1];
      assert (a + b)[|a + b| - 1] == b[n - 1];
      OptionCallsAppend(a, b[..n - 1]);
      assert OptionCalls(a + b) == OptionCalls(a + b[..n - 1]) + KeyCalls(b[n - 1].0, b[n - 1].1);
    } else {
      assert a + b == a;
    }
  }

  lemma KeyCallsNames(key: string, val: Js.Value)
    ensures forall c :: c in KeyCalls(key, val) ==> Replayed(key) && c.name == key
  {
    if Replayed(key) {
      var r := KeyCalls(key, val);
      forall c | c in r ensures c.name == key {
        var j :| 0 <= j < |r| && r[j] == c;
      }
    }
  }

  lemma OptionCallsStep(opts: Js.Object, i: int)
    requires 0 <= i < |opts|
    ensures OptionCalls(opts[..i + 1]) == OptionCalls(opts[..i]) + KeyCalls(opts[i].0, opts[i].1)
  {
    assert opts[..i + 1][..i] == opts[..i];
    assert opts[..i + 1][i] == opts[i];
  }

  /** Only the five replayed keys reach the renderer, under their own names. */
  lemma {:induction false} OptionCallsNames(opts: Js.Object)
    ensures forall c :: c in OptionCalls(opts) ==> Replayed(c.name) && exists i :: 0 <= i < |opts| && opts[i].0 == c.name
    decreases |opts|
  {
    if opts != [] {
      var n := |opts|;
      var init := opts[..n - 1];
      OptionCallsNames(init);
      KeyCallsNames(opts[n - 1].0, opts[n - 1].1);
      forall c | c in OptionCalls(opts)
        ensures Replayed(c.name) && exists i :: 0 <= i < |opts| && opts[i].0 == c.name
      {
        if c in OptionCalls(init) {
          var i :| 0 <= i < |init| && init[i].0 == c.name;
          assert opts[i] == init[i];
        } else {
          assert opts[n - 1].0 == c.name;
        }
      }
    }
  }

  /** Every replayed entry of the options is passed to the renderer. */
  lemma KeyCallsIncluded(opts: Js.Object, i: int)
    requires 0 <= i < |opts|
    ensures forall c :: c in KeyCalls(opts[i].0, opts[i].1) ==> c in OptionCalls(opts)
  {
    assert opts == opts[..i] + [opts[i]] + opts[i + 1..];
    OptionCallsAppend(opts[..i] + [opts[i]], opts[i + 1..]);
    OptionCallsAppend(opts[..i], [opts[i]]);
    assert OptionCalls([opts[i]]) == KeyCalls(opts[i].0, opts[i].1) by {
      assert [opts[i]][..0] == [];
    }
  }

  lemma {:induction false} SetHolds(o: Js.Object, k: string, v: Js.Value)
    ensures exists i :: 0 <= i < |Js.Set(o, k, v)| && Js.Set(o, k, v)[i] == (k, v)
    decreases |o|
  {
    if o != [] && o[0].0 != k {
      SetHolds(o[1..], k, v);
      var i :| 0 <= i < |Js.Set(o[1..], k, v)| && Js.Set(o[1..], k, v)[i] == (k, v);
      assert Js.Set(o, k, v)[i + 1] == (k, v);
    } else {
      assert Js.Set(o, k, v)[0] == (k, v);
    }
  }

  /** When `nib` is imported, the renderer is told to use the nib plugin. */
  lemma NibApplied(o: Js.Object, fileName: string)
    requires ImportsNib(WithImport(Js.Set(o, "filename", Js.Str(fileName))))
    ensures Invocation("use", [NibPlugin]) in OptionCalls(Normalize(o, fileName).0)
  {
    var o1 := WithImport(Js.Set(o, "filename", Js.Str(fileName)));
    var use' := Js.Arr(UseBase(Js.Get(o1, "use")) + [NibPlugin]);
    var opts := Normalize(o, fileName).0;
    SetHolds(o1, "use", use');
    var i :| 0 <= i < |opts| && opts[i] == ("use", use');
    KeyCallsIncluded(opts, i);
    var entries := Js.ForIn(use');
    assert EntryCall("use", entries[|entries| - 1]) == Invocation("use", [NibPlugin]);
  }

  /** The last call of `applyOpts`: `stylus.set('paths', determineImportPaths())`. */
  function PathsCall(forward: seq<string>): Invocation {
    Invocation("set", [Js.Str("paths"), Js.StrArray(Reverse(forward))])
  }

  /**
   * The compile result from what the renderer produced; `nullMap` is the
   * `styl.sourcemap || null` of `compileSync`.
   */
  function Finish(out: Result<(string, Js.Value), string>, nullMap: bool): (r: Outcome<CompileResult>)
    ensures r.Failure? <==> out.Failure?
    ensures out.Failure? ==> r.error == EngineFailure(out.error)
    ensures r.Success? ==> r.value.code == Js.Str(out.value.0) && r.value.mimeType == "text/css"
    ensures r.Success? ==> r.value.dependencies == None
    ensures r.Success? && nullMap ==> r.value.sourceMaps == Js.Or(out.value.1, Js.Null)
    ensures r.Success? && !nullMap ==> r.value.sourceMaps == out.value.1
  {
    match out
    case Failure(e) => Failure(EngineFailure(e))
    case Success((css, sourceMap)) =>
      Success(CompileResult(Js.Str(css), if nullMap then Js.Or(sourceMap, Js.Null) else sourceMap, None, "text/css"))
  }

  /** `each(val, ...)` for one replayed option key. */
  method ReplayEntries(key: string, entries: seq<(string, Js.Value)>, styl: Renderer)
    modifies styl`calls
    ensures styl.calls == old(styl.calls) + EntryCalls(key, entries)
  {
    var j := 0;
    while j < |entries|
      invariant 0 <= j <= |entries|
      invariant styl.calls == old(styl.calls) + EntryCalls(key, entries[..j])
    {
      if key == "set" || key == "define" {
        styl.Call(key, [Js.Str(entries[j].0), entries[j].1]);
      } else {
        styl.Call(key, [entries[j].1]);
      }
      assert entries[..j + 1][..j] == entries[..j];
      j := j + 1;
    }
    assert entries[..j] == entries;
  }

  /** The `switch (key)` of `applyOpts` for one option. */
  method ReplayOption(key: string, val: Js.Value, styl: Renderer)
    modifies styl`calls
    ensures styl.calls == old(styl.calls) + KeyCalls(key, val)
  {
    if Replayed(key) {
      var entries := Js.ForIn(val);
      ReplayEntries(key, entries, styl);
    } else {
      assert styl.calls == old(styl.calls) + [];
    }
  }

  /** `each(opts, ...)`: every option in enumeration order. */
  method ReplayAll(opts: Js.Object, styl: Renderer)
    modifies styl`calls
    ensures styl.calls == old(styl.calls) + OptionCalls(opts)
  {
    // `for (k in opts)` visits the fields in insertion order (see `Js.ForIn`).
    var fields := opts;
    var i := 0;
    while i < |fields|
      invariant 0 <= i <= |fields|
      invariant styl.calls == old(styl.calls) + OptionCalls(fields[..i])
    {
      var key, val := fields[i].0, fields[i].1;
      ReplayOption(key, val, styl);
      OptionCallsStep(fields, i);
      assert styl.calls == old(styl.calls) + (OptionCalls(fields[..i]) + KeyCalls(key, val));
      i := i + 1;
    }
    assert fields[..i] == opts;
  }

  class StylusCompiler {
    const platform: Platform
    const libraryPaths: seq<string>
    const detect: string -> seq<string>
    const cabinet: (string, string, seq<string>) -> string
    var compilerOptions: Js.Object
    var seenFilePaths: seq<string>

    ghost predicate Valid()
      reads this
    {
      NoDups(seenFilePaths)
    }

    constructor(platform: Platform, detect: string -> seq<string>, cabinet: (string, string, seq<string>) -> string)
      ensures Valid()
      ensures compilerOptions == [("sourcemap", Js.Str("inline")), ("import", Js.Arr([Js.Str("nib")]))]
      ensures libraryPaths == Dedupe(platform.libraryRoots) && seenFilePaths == []
      ensures this.platform == platform && this.detect == detect && this.cabinet == cabinet
    {
      this.platform := platform;
      this.detect := detect;
      this.cabinet := cabinet;
      compilerOptions := [("sourcemap", Js.Str("inline")), ("import", Js.Arr([Js.Str("nib")]))];
      libraryPaths := Dedupe(platform.libraryRoots);
      seenFilePaths := [];
    }

    static function GetInputMimeTypes(): (r: seq<string>)
      ensures r == ["text/stylus"]
    {
      MimeTypes
    }

    /** The search paths in the order the other compilers use them. */
    function ForwardPaths(): seq<string>
      reads this
    {
      Tiers(seenFilePaths, UserPaths(compilerOptions), platform.cwd, libraryPaths)
    }

    /** The search paths, reversed: library roots first, seen directories last. */
    method DetermineImportPaths() returns (paths: seq<string>)
      ensures paths == Reverse(ForwardPaths())
    {
      var forward := seenFilePaths;
      var user := UserPaths(compilerOptions);
      if user.Some? {
        forward := forward + user.value;
      }
      forward := forward + [platform.cwd];
      forward := forward + libraryPaths;
      // paths.reverse()
      paths := [];
      var i := 0;
      while i < |forward|
        invariant 0 <= i <= |forward|
        invariant |paths| == i
        invariant forall k :: 0 <= k < i ==> paths[k] == forward[|forward| - 1 - k]
      {
        paths := paths + [forward[|forward| - 1 - i]];
        i := i + 1;
      }
    }

    function ShouldCompileFile(fileName: string): (r: bool)
      ensures r
    {
      true
    }

    function ShouldCompileFileSync(fileName: string): (r: bool)
      ensures r
    {
      true
    }

    /** One level only: each import resolved against the file's own directory. */
    method DetermineDependentFilesSync(sourceCode: string, filePath: string) returns (dependencies: seq<string>)
      ensures |dependencies| == |detect(sourceCode)|
      ensures forall i :: 0 <= i < |dependencies| ==>
        dependencies[i] == cabinet(detect(sourceCode)[i], filePath, [platform.dirname(filePath)])
    {
      var dependencyFilenames := detect(sourceCode);
      dependencies := [];
      var i := 0;
      while i < |dependencyFilenames|
        invariant 0 <= i <= |dependencyFilenames|
        invariant |dependencies| == i
        invariant forall j :: 0 <= j < i ==>
          dependencies[j] == cabinet(dependencyFilenames[j], filePath, [platform.dirname(filePath)])
      {
        dependencies := dependencies + [cabinet(dependencyFilenames[i], filePath, [platform.dirname(filePath)])];
        i := i + 1;
      }
    }

    method DetermineDependentFiles(sourceCode: string, filePath: string) returns (dependencies: seq<string>)
      ensures |dependencies| == |detect(sourceCode)|
      ensures forall i :: 0 <= i < |dependencies| ==>
        dependencies[i] == cabinet(detect(sourceCode)[i], filePath, [platform.dirname(filePath)])
    {
      dependencies := DetermineDependentFilesSync(sourceCode, filePath);
    }

    /** `makeOpts(filePath)`; it may grow the `use` array of the compiler options in place. */
    method MakeOpts(filePath: string) returns (opts: Js.Object)
      modifies this`compilerOptions
      ensures opts == Normalize(old(compilerOptions), platform.basename(filePath)).0
      ensures compilerOptions == Normalize(old(compilerOptions), platform.basename(filePath)).1
    {
      opts := Js.Set(compilerOptions, "filename", Js.Str(platform.basename(filePath)));
      var imp := Js.Get(opts, "import");
      if Js.Truthy(imp) && !imp.Arr? {
        opts := Js.Set(opts, "import", Js.Arr([imp]));
      }
      imp := Js.Get(opts, "import");
      if Js.Truthy(imp) && imp.Arr? && Js.Str("nib") in imp.items {
        var use := Js.Get(opts, "use");
        var shared := Js.Truthy(use) && use.Arr?;
        if !Js.Truthy(use) {
          use := Js.Arr([]);
        } else if !use.Arr? {
          use := Js.Arr([use]);
        }
        use := Js.Arr(use.items + [NibPlugin]);
        opts := Js.Set(opts, "use", use);
        if shared {
          compilerOptions := Js.Set(compilerOptions, "use", use);
        }
      }
    }

    /** Replays the options onto the renderer, then sets its `paths`. */
    method ApplyOpts(opts: Js.Object, styl: Renderer)
      modifies styl`calls
      ensures styl.calls == old(styl.calls) + OptionCalls(opts) + [PathsCall(ForwardPaths())]
    {
      ReplayAll(opts, styl);
      var paths := DetermineImportPaths();
      styl.Call("set", [Js.Str("paths"), Js.StrArray(paths)]);
    }

    /**
     * `applyOpts(opts, styl)` on the freshly created renderer `styl`: the
     * calls the renderer receives.
     */
    method RenderCalls(opts: Js.Object) returns (calls: seq<Invocation>)
      ensures calls == OptionCalls(opts) + [PathsCall(ForwardPaths())]
    {
      var styl := new Renderer();
      ApplyOpts(opts, styl);
      calls := styl.calls;
    }

    /**
     * `render` stands for stylus: given the source, the options and the
     * calls made on the renderer it yields the css and `styl.sourcemap`,
     * or the error passed to the render callback.
     */
    method Compile(sourceCode: string, filePath: string,
                   render: (string, Js.Object, seq<Invocation>) -> Result<(string, Js.Value), string>)
      returns (r: Outcome<CompileResult>)
      requires Valid()
      modifies this`seenFilePaths, this`compilerOptions
      ensures Valid()
      ensures seenFilePaths == Insert(old(seenFilePaths), platform.dirname(filePath))
      ensures compilerOptions == Normalize(old(compilerOptions), platform.basename(filePath)).1
      ensures var opts := Normalize(old(compilerOptions), platform.basename(filePath)).0;
        r == Finish(render(sourceCode, opts, OptionCalls(opts) + [PathsCall(ForwardPaths())]), false)
    {
      seenFilePaths := Insert(seenFilePaths, platform.dirname(filePath));
      var opts := MakeOpts(filePath);
      var calls := RenderCalls(opts);
      var out := render(sourceCode, opts, calls);
      r := Finish(out, false);
    }

    /** As `Compile`, except that a missing source map reads as `null`. */
    method CompileSync(sourceCode: string, filePath: string,
                       render: (string, Js.Object, seq<Invocation>) -> Result<(string, Js.Value), string>)
      returns (r: Outcome<CompileResult>)
      requires Valid()
      modifies this`seenFilePaths, this`compilerOptions
      ensures Valid()
      ensures seenFilePaths == Insert(old(seenFilePaths), platform.dirname(filePath))
      ensures compilerOptions == Normalize(old(compilerOptions), platform.basename(filePath)).1
      ensures var opts := Normalize(old(compilerOptions), platform.basename(filePath)).0;
        r == Finish(render(sourceCode, opts, OptionCalls(opts) + [PathsCall(ForwardPaths())]), true)
    {
      seenFilePaths := Insert(seenFilePaths, platform.dirname(filePath));
      var opts := MakeOpts(filePath);
      var calls := RenderCalls(opts);
      var out := render(sourceCode, opts, calls);
      r := Finish(out, true);
    }
  }
}
