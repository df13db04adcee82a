/**
 * The contract every compiler implements (`CompilerBase`) and the adapter
 * for compilers that only have a synchronous engine (`SimpleCompilerBase`).
 * The `compilerContext` argument of the contract is opaque to every
 * compiler modelled here and is left out of the signatures.
 */
module CompilerBase {
  import opened Wrappers
  import Js

  datatype Error =
    | NotImplemented           // new Error("Implement me!")
    | EngineFailure(message: string)
    | IOFailure(path: string)  // a file that could not be read

  function Message(e: Error): string {
    match e
    case NotImplemented => "Implement me!"
    case EngineFailure(m) => m
    case IOFailure(p) => "ENOENT: " + p
  }

  /** A call that returns a `T` or throws. */
  type Outcome<T> = Result<T, Error>

  /**
   * `{ code, sourceMaps, dependencies, mimeType }`; `dependencies` is `None`
   * for a compiler whose result has no such field.
   */
  datatype CompileResult = CompileResult(
    code: Js.Value,
    sourceMaps: Js.Value,
    dependencies: Option<seq<string>>,
    mimeType: string)

  /** The abstract base: each contract method throws "Implement me!". */
  class CompilerBase {
    var compilerOptions: Js.Object

    constructor()
      ensures compilerOptions == []
    {
      compilerOptions := [];
    }

    static function GetInputMimeTypes(): (r: Outcome<seq<string>>)
      ensures r.Failure? && Message(r.error) == "Implement me!"
    {
      Failure(NotImplemented)
    }

    function DetermineImportPaths(filePath: string): (r: Outcome<seq<string>>)
      ensures r.Failure? && Message(r.error) == "Implement me!"
    {
      Failure(NotImplemented)
    }

    function ShouldCompileFile(fileName: string): (r: Outcome<bool>)
      ensures r.Failure? && Message(r.error) == "Implement me!"
    {
      Failure(NotImplemented)
    }

    function DetermineDependentFiles(sourceCode: string, fileName: string): (r: Outcome<seq<string>>)
      ensures r.Failure? && Message(r.error) == "Implement me!"
    {
      Failure(NotImplemented)
    }

    function Compile(sourceCode: string, fileName: string): (r: Outcome<CompileResult>)
      ensures r.Failure? && Message(r.error) == "Implement me!"
    {
      Failure(NotImplemented)
    }

    function ShouldCompileFileSync(fileName: string): (r: Outcome<bool>)
      ensures r.Failure? && Message(r.error) == "Implement me!"
    {
      Failure(NotImplemented)
    }

    function DetermineDependentFilesSync(sourceCode: string, fileName: string): (r: Outcome<seq<string>>)
      ensures r.Failure? && Message(r.error) == "Implement me!"
    {
      Failure(NotImplemented)
    }

    function CompileSync(sourceCode: string, fileName: string): (r: Outcome<CompileResult>)
      ensures r.Failure? && Message(r.error) == "Implement me!"
    {
      Failure(NotImplemented)
    }

    function GetCompilerVersion(): (r: Outcome<string>)
      ensures r.Failure? && Message(r.error) == "Implement me!"
    {
      Failure(NotImplemented)
    }
  }

  /**
   * The synchronous adapter.  `compileSyncOverride` is the `compileSync` of
   * the concrete subclass, if it has one; without it the call reaches the
   * base and throws.
   */
  class SimpleCompilerBase {
    var compilerOptions: Js.Object
    const cwd: string
    const compileSyncOverride: Option<(string, string) -> Outcome<CompileResult>>

    constructor(cwd: string, compileSyncOverride: Option<(string, string) -> Outcome<CompileResult>>)
      ensures compilerOptions == []
      ensures this.cwd == cwd && this.compileSyncOverride == compileSyncOverride
    {
      compilerOptions := [];
      this.cwd := cwd;
      this.compileSyncOverride := compileSyncOverride;
    }

    function DetermineImportPaths(filePath: string): (r: seq<string>)
      ensures r == [cwd]
    {
      [cwd]
    }

    function ShouldCompileFile(fileName: string): (r: bool)
      ensures r
    {
      true
    }

    function ShouldCompileFileSync(fileName: string): (r: bool)
      ensures r
    {
      true
    }

    function DetermineDependentFiles(sourceCode: string, filePath: string): (r: seq<string>)
      ensures r == []
    {
      []
    }

    function DetermineDependentFilesSync(sourceCode: string, filePath: string): (r: seq<string>)
      ensures r == []
    {
      []
    }

    function CompileSync(sourceCode: string, filePath: string): (r: Outcome<CompileResult>)
      ensures compileSyncOverride.None? ==> r.Failure? && Message(r.error) == "Implement me!"
      ensures compileSyncOverride.Some? ==> r == compileSyncOverride.value(sourceCode, filePath)
    {
      match compileSyncOverride
      case None => Failure(NotImplemented)
      case Some(f) => f(sourceCode, filePath)
    }

    /** The asynchronous `compile` resolves to whatever `compileSync` returns or throws. */
    function Compile(sourceCode: string, filePath: string): (r: Outcome<CompileResult>)
      ensures r == CompileSync(sourceCode, filePath)
    {
      CompileSync(sourceCode, filePath)
    }

    function GetCompilerVersion(): (r: Outcome<string>)
      ensures r.Failure? && Message(r.error) == "Implement me!"
    {
      Failure(NotImplemented)
    }
  }
}
