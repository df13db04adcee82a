# electron-compilers: the CSS compilers, modelled in Dafny

This project models the stylesheet half of electron-compilers. It covers the
Sass/SCSS, Less and Stylus compilers and the base contract they share.

Each compiler instance keeps a few things:

- `compilerOptions`, an option bag.
- `seenFilePaths`, an insertion-ordered set of directories it has compiled
  files from.
- `libraryPaths`, the module-resolution roots, with duplicates dropped.

From these it builds a search path with four tiers, in this order:

1. seen directories;
2. the user's `paths` option;
3. the working directory;
4. library roots.

Stylus uses the tiers with the whole list reversed.

Each compiler hands that search path to its rendering engine, and Less also
uses it when it lists a file's dependencies. The Sass and Stylus dependency
lists resolve each import against the importing file's directory alone
(src/css/sass.js:138, src/css/stylus.js:153). Each compiler then normalises
the engine's answer into `{ code, sourceMaps, dependencies, mimeType }`.

## Layout

| file | module | what it holds |
|---|---|---|
| `wrappers.dfy` | `Wrappers` | `Option` and `Result` |
| `js.dfy` | `Js` | the JavaScript values the compilers inspect: truthiness, `\|\|`, objects as ordered key/value lists, `for..in` enumeration |
| `object_set.dfy` | `ObjectSet` | an object used as a set (`o[k] = true`, then `Object.keys`), and `dedupe` |
| `strings.dfy` | `Strings` | the default `Array.prototype.sort` order, `sort`, `split`/`join` |
| `platform.dfy` | `Platform` | the path functions, working directory, library roots and separator as values; the file system as a map from path to contents |
| `search_paths.dfy` | `SearchPaths` | the four tiers, how a directory enters the seen set, and the precedence lemmas |
| `compiler_base.dfy` | `CompilerBase` | `CompilerBase` (every method throws) and `SimpleCompilerBase` (constant defaults, async delegating to sync) |
| `sass.dfy` | `Sass` | `SassCompiler`, its dependency normalisation, the importer callback, `importedFileReducer` and `fixWindowsPath` |
| `less.dfy` | `Less` | `LessCompiler`, the recursive dependency walk over a shared `fileSet`, and result normalisation |
| `stylus.dfy` | `Stylus` | `StylusCompiler`, `makeOpts`, `applyOpts` replayed onto a recording renderer, and the reversed search path |

## How the model follows the code

- **State and mutation.** Where the source mutates an object, the model is a
  class with `modifies` clauses:
  - the compilers' `seenFilePaths` and `compilerOptions`;
  - Less's `fileSet`;
  - the Stylus renderer.

  Where the source loops, the model has a `while` loop with invariants:
  - the Sass importer's search over include paths;
  - the one-level dependency lists;
  - the Less walkers;
  - `applyOpts`;
  - the in-place `reverse()` of Stylus.
- **Less dependency walk.** The walk is tied to a ghost specification.
  `WalkFile` and `WalkImports` compute the seen directories, the collected
  files, and the first file that could not be read. The lemmas about the walk
  are proved on these functions.
- **No visited check.** The Less walk recurses into every resolved import
  without checking whether it has already visited it (src/css/less.js:77-78).
  A design in which a visited set guarantees termination on cyclic imports
  would be the natural reading of the walker. The code does not do that, so
  the model follows the code:
  - the walk requires a ghost rank that decreases along every import edge
    reachable from the root (`Less.ImportsRanked`), for whatever seen
    directories the search path is built from;
  - files the root cannot reach are not constrained, so a cycle elsewhere in
    the file map is allowed (`Less.LeafImportsRanked`);
  - `Less.CycleUnranked` shows that two reachable files importing each other
    admit no such rank.
- **External code as arguments.** Code outside the core enters as function
  values:
  - the import extractors (detective-sass, detective-scss, detective-less,
    detective-stylus);
  - filing-cabinet;
  - `sass.getPathVariations`;
  - the engines (`sass.compile`, `lessjs.render`, stylus `render`).
- **Paths and files.** `path.resolve`, `dirname`, `basename`, `extname`,
  `process.cwd()`, `process.platform` and `require.resolve.paths('')` are
  fields of a `Platform` value. The file system is a map from path to
  contents.
- **Errors.** A JavaScript exception or rejected promise becomes a `Failure`
  of the `Outcome` type.

## Model

| member | source | states |
|---|---|---|
| CompilerBase.CompilerBase.constructor | src/compiler-base.js:9-11 | a new compiler starts with empty `compilerOptions` |
| CompilerBase.CompilerBase.GetInputMimeTypes | src/compiler-base.js:23-25 | fails with "Implement me!" |
| CompilerBase.CompilerBase.DetermineImportPaths | src/compiler-base.js:37-39 | fails with "Implement me!" |
| CompilerBase.CompilerBase.ShouldCompileFile | src/compiler-base.js:53-55 | fails with "Implement me!" |
| CompilerBase.CompilerBase.DetermineDependentFiles | src/compiler-base.js:74-76 | fails with "Implement me!" |
| CompilerBase.CompilerBase.Compile | src/compiler-base.js:99-101 | fails with "Implement me!" |
| CompilerBase.CompilerBase.ShouldCompileFileSync | src/compiler-base.js:103-105 | fails with "Implement me!" |
| CompilerBase.CompilerBase.DetermineDependentFilesSync | src/compiler-base.js:107-109 | fails with "Implement me!" |
| CompilerBase.CompilerBase.CompileSync | src/compiler-base.js:111-113 | fails with "Implement me!" |
| CompilerBase.CompilerBase.GetCompilerVersion | src/compiler-base.js:126-128 | fails with "Implement me!" |
| CompilerBase.SimpleCompilerBase.constructor | src/compiler-base.js:143-145 | empty `compilerOptions`; the subclass's `compileSync` (if any) is recorded |
| CompilerBase.SimpleCompilerBase.DetermineImportPaths | src/compiler-base.js:147-149 | exactly `[cwd]`, whatever the file |
| CompilerBase.SimpleCompilerBase.ShouldCompileFile | src/compiler-base.js:151-153 | always true |
| CompilerBase.SimpleCompilerBase.DetermineDependentFiles | src/compiler-base.js:155-157 | always `[]` |
| CompilerBase.SimpleCompilerBase.Compile | src/compiler-base.js:159-161 | the async compile yields exactly what `compileSync` yields for the same arguments, failure included |
| CompilerBase.SimpleCompilerBase.ShouldCompileFileSync | src/compiler-base.js:163-165 | always true |
| CompilerBase.SimpleCompilerBase.DetermineDependentFilesSync | src/compiler-base.js:167-169 | always `[]` |
| CompilerBase.SimpleCompilerBase.CompileSync | src/compiler-base.js:111-113 | without a subclass `compileSync` the inherited one throws "Implement me!"; with one, its result |
| CompilerBase.SimpleCompilerBase.GetCompilerVersion | src/compiler-base.js:126-128 | inherited from the base class, so it fails with "Implement me!" |
| ObjectSet.Insert | src/css/sass.js:54-57 | `seen[d] = true`: `d` becomes a key; old keys keep their order and positions; at most one key is added, at the end; duplicate-freedom is kept |
| ObjectSet.InsertPresent | src/css/sass.js:45-46 | re-adding a directory that is already seen changes nothing, so the search order is kept |
| ObjectSet.InsertAbsent | src/css/sass.js:45-46 | a new directory goes last |
| ObjectSet.InsertCons | src/css/sass.js:54-57 | adding a key other than the first leaves the first key first |
| ObjectSet.InsertAll | src/css/sass.js:14-20 | the reduce into an object: keeps what was there, has exactly the old and the new elements, no duplicates |
| ObjectSet.Dedupe | src/css/sass.js:13-22 | `dedupe`: duplicate-free, exactly the same elements as its input, never longer |
| ObjectSet.InsertAllNoDups | src/css/sass.js:14-20 | on duplicate-free input the reduce appends in order |
| ObjectSet.DedupeNoDups | src/css/sass.js:13-22 | `dedupe` returns a duplicate-free list unchanged, order included |
| Strings.Sort | src/css/sass.js:121 | `.sort()`: the result is ordered by the default string order and is a permutation of its input |
| Strings.SortElements | src/css/sass.js:121 | sorting keeps length, elements and duplicate-freedom |
| Strings.SortedSameHead | src/css/less.js:81 | two sorted permutations of the same list start with the same string |
| Strings.SortedUnique | src/css/less.js:81 | two sorted permutations of the same list are equal, so the sorted result does not depend on how it is computed |
| Strings.LeTotal | src/css/sass.js:121 | the sort order is total |
| Strings.LeTrans | src/css/sass.js:121 | the sort order is transitive |
| Strings.LeAntisym | src/css/sass.js:121 | the sort order is antisymmetric |
| Strings.JoinExtendHead | src/css/sass.js:267 | putting a character in front of the first part puts it in front of the joined string |
| Strings.Split | src/css/sass.js:267 | `split(sep)`: at least one part, no part holds `sep`, joining the parts gives the input back, at least two parts exactly when `sep` occurs |
| Strings.JoinLast | src/css/sass.js:268-269 | joining all but the last part, then `sep`, then the last part, is the whole join |
| Js.Get | src/css/sass.js:88-92 | property read on an object: the value of the key, `undefined` when absent; its behaviour after an override is stated by `Js.SetGet` and `Js.SetGetOther` |
| Js.Set | src/css/sass.js:88-92 | `{...o, k: v}`: the definition that `Js.SetGet`, `Js.SetGetOther`, `Js.SetKeys` and `Js.SetWellFormed` are about |
| Js.Or | src/css/sass.js:118 | `a \|\| b` is `a` when `a` is truthy, otherwise `b` |
| Js.SetGet | src/css/sass.js:88-92 | after a spread-and-override, the overridden key reads back its new value |
| Js.SetGetOther | src/css/sass.js:88-92 | the other keys of a spread-and-override read as before |
| Js.SetKeys | src/css/sass.js:88-92 | an overridden key keeps its place among the keys; a new key goes last |
| Js.ForIn | src/css/stylus.js:12-16 | `for (k in v)` visits array and string indices in order, object entries in insertion order, and nothing for other values |
| SearchPaths.UserPaths | src/css/sass.js:63-65 | the user tier is present exactly when `compilerOptions.paths` is truthy |
| SearchPaths.Observe | src/css/sass.js:54-57 | a given file's directory becomes seen and an empty file name changes nothing; the old seen list is a prefix of the new one, at most one entry longer, still duplicate-free |
| SearchPaths.SearchOrder | src/css/sass.js:59-71 | precedence of the tiers: a seen directory that has the file wins; otherwise the working directory beats the libraries |
| SearchPaths.FirstMatchSpec | src/css/sass.js:59-71 | the first directory in the search list that has the file is found, and none before it has it |
| SearchPaths.ReversedSearchOrder | src/css/stylus.js:46-61 | for Stylus the precedence is turned round: libraries first, then the working directory, then user and seen directories with the most recent first |
| SearchPaths.ReverseAppend | src/css/stylus.js:58 | reversing a concatenation reverses and swaps the parts |
| SearchPaths.ReverseElements | src/css/stylus.js:58 | reversing keeps exactly the same directories |
| SearchPaths.ReverseTiers | src/css/stylus.js:46-61 | the reversed search path is the reversed libraries, then the working directory, then the reversed seen and user directories |
| Sass.StripSassRoot | src/css/sass.js:10 | a leading `/sass/` is removed; any other location is left as is |
| Sass.ResolveLocation | src/css/sass.js:10 | a reported location with `/sass/` stripped, then resolved |
| Sass.Dependencies | src/css/sass.js:119-121 | `dedupe(files \|\| []).map(resolve).sort()`, with `resolve` stripping `/sass/` first; its properties are `Sass.DependenciesSpec`, `Sass.DependenciesNoDups` and `Sass.DependenciesVirtualAndPlainName` |
| Sass.DependenciesSpec | src/css/sass.js:119-121 | the dependency list is sorted, has one entry per distinct reported file, and holds exactly the resolved reported files |
| Sass.DependenciesNoDups | src/css/sass.js:119-121 | the list is duplicate-free when no two distinct reported names resolve to the same path |
| Sass.DependenciesVirtualAndPlainName | src/css/sass.js:119-121 | for any name not under `/sass/`, reporting both `/sass/` + name and name lists the same resolved path twice, because `dedupe` runs before `resolve` |
| Sass.Placeholder | src/css/sass.js:112-114 | the code is `' '` when the rendered text is falsy, the text itself otherwise; it is always truthy |
| Sass.Finish | src/css/sass.js:94-123 | a non-zero status fails with `formatted`, or `message` when that is empty; otherwise the code is `Placeholder` of the text (so truthy), `sourceMaps` is `map \|\| null`, the dependencies are normalised and the type is `text/css` |
| Sass.IndentedSyntax | src/css/sass.js:90 | truthy exactly when the path ends in `.sass`, ignoring case |
| Sass.RenderOptions | src/css/sass.js:88-92 | the render options, stated by `Sass.RenderOptionsSpec` |
| Sass.RenderOptionsSpec | src/css/sass.js:88-92 | the render options are the compiler options plus `indentedSyntax` and `sourceMapRoot`; every other option reads as before and keys keep their order |
| Sass.MoveUnderscore | src/css/sass.js:266-271 | split, pop and join at the separator; its closed forms are `Sass.MoveUnderscoreFlat` and `Sass.MoveUnderscoreNested` |
| Sass.MoveUnderscoreFlat | src/css/sass.js:266-271 | `_name` without a separator becomes `resolve('', '_name')` |
| Sass.MoveUnderscoreNested | src/css/sass.js:266-271 | for `_` + rest with the last separator of rest at index k, the result is `resolve(rest[..k], '_' + rest[k+1..])` |
| Sass.LastSeparatorUnique | src/css/sass.js:267-269 | the last separator of a path is unique, so `split` and `pop` pick the same directory and name however they are found |
| Sass.SassCompiler.constructor | src/css/sass.js:28-47 | default options `comments`, `sourceMapEmbed` and `sourceMapContents`; the library roots deduplicated; nothing seen yet |
| Sass.SassCompiler.GetInputMimeTypes | src/css/sass.js:49-51 | `text/sass` and `text/scss` |
| Sass.SassCompiler.DetermineImportPaths | src/css/sass.js:53-72 | the seen set grows as `Observe` says; the result is seen directories ++ user paths ++ [cwd] ++ library roots |
| Sass.SassCompiler.ShouldCompileFile | src/css/sass.js:74-76 | always true |
| Sass.SassCompiler.ShouldCompileFileSync | src/css/sass.js:126-128 | always true |
| Sass.SassCompiler.DetermineDependentFilesSync | src/css/sass.js:130-143 | one resolved path per detected import, in order; detective-sass for `.sass` and detective-scss otherwise; each resolved against `dirname(filePath)` |
| Sass.SassCompiler.DetermineDependentFiles | src/css/sass.js:78-80 | the same list as the sync variant |
| Sass.SassCompiler.Compile | src/css/sass.js:82-124 | records the file's directory; renders with the render options and the search path as include paths; normalises the result with `Finish` |
| Sass.SassCompiler.CompileSync | src/css/sass.js:145-185 | the same as `Compile`; a non-zero status throws the engine's message |
| Sass.SassCompiler.Unslashed | src/css/sass.js:261-263 | a leading `/` is dropped on win32 only |
| Sass.SassCompiler.FixWindowsPath | src/css/sass.js:256-273 | a path not starting with `_` (after the win32 strip) comes back unchanged; one starting with `_` has the underscore moved |
| Sass.SassCompiler.ImportedFileReducer | src/css/sass.js:243-254 | a found file is kept; otherwise the path if it is an existing file, else null |
| Sass.SassCompiler.ReduceVariations | src/css/sass.js:222-224 | the fold of `importedFileReducer` over the variations, stated by `ReduceKeepsFound` and `ReduceFindsFirst` |
| Sass.SassCompiler.ReduceKeepsFound | src/css/sass.js:245 | once found, a file is never replaced by a later variation |
| Sass.SassCompiler.ReduceFindsFirst | src/css/sass.js:222-224 | the fold finds a file exactly when some variation is an existing file, and then finds the first such variation |
| Sass.SassCompiler.ProbeIsFile | src/css/sass.js:226-227 | a file the importer settles on exists, so reading it succeeds |
| Sass.SassCompiler.Candidates | src/css/sass.js:213-216 | `dirname(previous)` (with `/sass/` stripped) goes before the include paths unless the import comes from stdin |
| Sass.SassCompiler.Importer | src/css/sass.js:202-241 | a request with `file` set gets no result; otherwise the loop answers exactly as `Search` over the candidate directories for the request path with `/sass/` stripped |
| Sass.SassCompiler.Search | src/css/sass.js:218-238 | the loop over the candidate directories as a first-hit search, stated by `SearchSpec` |
| Sass.SassCompiler.SearchSpec | src/css/sass.js:218-238 | the search answers exactly when some candidate directory yields a file; the answer is that of the first such directory, no earlier one yields a file, and the answered file exists |
| Sass.FirstFoundSpec | src/css/sass.js:218-238 | the loop that stops at the first directory yielding a file: found exactly when one does, and then with that first directory's file |
| Less.KeySet.Add | src/css/less.js:77 | `fileSet[dep] = true` with object-set semantics |
| Less.WalkFile | src/css/less.js:119-135 | the walk of one file's imports from a given seen set and file set: the final seen directories, collected files and first unreadable file, stated by the `Less.Walk*` lemmas |
| Less.WalkImports | src/css/less.js:122-132 | the loop over the remaining imports, stopping at the first file that cannot be read |
| Less.WalkImportsCons | src/css/less.js:69-79 | the loop over the imports is the walk of the first import followed by the loop over the rest, from the state it leaves, unless it stopped at a missing file |
| Less.WalkImportsGrows | src/css/less.js:69-78 | the walk only appends to the seen directories and the file set, keeps both duplicate-free and adds only files that exist |
| Less.WalkFileGrows | src/css/less.js:66-82 | the same for a whole file |
| Less.WalkImportsComplete | src/css/less.js:69-78 | after a completed walk each root import is in the file set, resolved against search paths that start with everything seen before plus the root's directory |
| Less.WalkFirstResolved | src/css/less.js:70-78 | a completed walk over one import has that import's file in the file set, resolved against search paths that start with the directories seen before plus the importer's directory |
| Less.WalkFileComplete | src/css/less.js:119-135 | the same for a whole file |
| Less.WalkImportsClosed | src/css/less.js:77-78 | after a completed walk every added file has all of its own imports in the file set, each resolved with that file's directory in the search path |
| Less.WalkFileClosed | src/css/less.js:130-131 | the same for a whole file |
| Less.WalkImportsSound | src/css/less.js:69-78 | every added file is what an import of the root, or of a collected file, resolves to |
| Less.WalkFileSound | src/css/less.js:122-131 | the same for a whole file |
| Less.WalkResult | src/css/less.js:66-82 | a completed walk from a duplicate-free set returns exactly the collected files, sorted and duplicate-free; they contain every import of the root and of every collected file; the directory of the root and of every collected file with imports is seen; the root is listed only if something imports it |
| Less.CycleUnranked | src/css/less.js:77-78 | two files that the walk can reach and that import each other admit no rank, so the walk's precondition rules out the reachable cycles on which the recursion never ends |
| Less.LeafImportsRanked | src/css/less.js:119-135 | a root whose imports reach only files without imports meets the walk's precondition, whatever else the file map holds, cycles included |
| Less.RankedHead | src/css/less.js:122-131 | one step of the loop keeps the precondition: the first import's file, when it exists, has lower rank and ranked imports, and the remaining imports stay ranked |
| Less.RenderOptions | src/css/less.js:88-92 | the async render options, stated by `Less.RenderOptionsSpec` |
| Less.SyncRenderOptions | src/css/less.js:144-149 | the sync render options, stated by `Less.SyncRenderOptionsSpec` |
| Less.RenderOptionsSpec | src/css/less.js:88-92 | the options are the compiler options with `paths` set to the search path and `filename` to the base name; all else reads as before |
| Less.SyncRenderOptionsSpec | src/css/less.js:144-149 | the sync options add `fileAsync: false`, `async: false` and `syncImport: true` to those |
| Less.Code | src/css/less.js:101-103 | only the empty string becomes `' '`; every other value passes unchanged |
| Less.Dependencies | src/css/less.js:108-110 | `(imports \|\| []).map(resolve).sort()`, stated by `Less.DependenciesSpec` |
| Less.DependenciesSpec | src/css/less.js:108-110 | the dependencies are the resolved reported imports, sorted, one entry per import, repeats kept |
| Less.Finish | src/css/less.js:94-112 | a render error fails with its message; otherwise the code, `map \|\| null`, the sorted dependencies and `text/css` |
| Less.LessCompiler.constructor | src/css/less.js:18-35 | default option `sourceMap: {sourceMapFileInline: true}`; the library roots deduplicated; nothing seen yet |
| Less.LessCompiler.GetInputMimeTypes | src/css/less.js:37-39 | `text/less` |
| Less.LessCompiler.DetermineImportPaths | src/css/less.js:41-60 | the same set semantics and tiers as Sass |
| Less.LessCompiler.ShouldCompileFile | src/css/less.js:62-64 | always true |
| Less.LessCompiler.ShouldCompileFileSync | src/css/less.js:115-117 | always true |
| Less.LessCompiler.DetermineDependentFilesSync | src/css/less.js:119-135 | the seen set and the shared file set end as the walk says; the result is the sorted file set, or a failure naming the first file that could not be read |
| Less.LessCompiler.ImportOne | src/css/less.js:123-131 | one iteration of the loop: the seen set, the shared file set and the missing file (if any) are those of the walk over that single import |
| Less.LessCompiler.DetermineDependentFiles | src/css/less.js:66-82 | the same state and result as the sync walk |
| Less.LessCompiler.Compile | src/css/less.js:84-113 | records the file's directory; renders with `paths` and `filename`; normalises with `Finish` |
| Less.LessCompiler.CompileSync | src/css/less.js:137-184 | the same with the synchronous options; a render error is rethrown and no result is returned |
| Stylus.Renderer.Call | src/css/stylus.js:128 | a call on the renderer is recorded after the earlier ones |
| Stylus.Normalize | src/css/stylus.js:99-120 | the pair of render options and new compiler options of `makeOpts`, stated by the `Stylus.Normalize*` lemmas and `Stylus.NibAccumulates` |
| Stylus.NormalizeFilenameImport | src/css/stylus.js:99-107 | `filename` is the base name; a truthy non-array `import` is wrapped in a one-element array; any other `import` is left as is |
| Stylus.NormalizeUse | src/css/stylus.js:109-117 | with `nib` imported, `use` becomes its old plugins followed by exactly one nib, and stays untouched otherwise; the compiler options change only when their `use` was already an array |
| Stylus.NormalizeOthers | src/css/stylus.js:99-120 | no option besides `filename`, `import` and `use` changes, in the result or in the compiler options |
| Stylus.NibAccumulates | src/css/stylus.js:109-117 | when `use` is an array in the compiler options, each compile pushes one more nib into that shared array |
| Stylus.NibApplied | src/css/stylus.js:109-139 | with `nib` imported, the renderer is told to use the nib plugin |
| Stylus.OptionCalls | src/css/stylus.js:124-136 | the renderer calls of `applyOpts` for all options in insertion order, stated by `OptionCallsNames`, `KeyCallsIncluded` and `EntryCalls` |
| Stylus.OptionCallsNames | src/css/stylus.js:124-136 | only `set`, `define`, `include`, `import` and `use` reach the renderer, each under its own option's name |
| Stylus.KeyCallsIncluded | src/css/stylus.js:124-136 | every entry of a replayed option is passed to the renderer |
| Stylus.EntryCalls | src/css/stylus.js:128-133 | one call per enumerated entry, in order: `(k, v)` for `set`/`define`, `(v)` for the others |
| Stylus.ReplayEntries | src/css/stylus.js:128-133 | the inner loop appends to the renderer exactly the calls for the option's entries, in enumeration order |
| Stylus.ReplayOption | src/css/stylus.js:125-135 | only the replayed option names reach the renderer; each appends its entries' calls |
| Stylus.ReplayAll | src/css/stylus.js:124-136 | the outer loop appends the calls of every option in insertion order and nothing else |
| Stylus.Finish | src/css/stylus.js:84-96 | a render error fails; otherwise the css, the source map (`\|\| null` in the sync variant), no dependencies and `text/css` |
| Stylus.StylusCompiler.constructor | src/css/stylus.js:22-40 | default options `sourcemap: 'inline'` and `import: ['nib']`; nothing seen yet |
| Stylus.StylusCompiler.GetInputMimeTypes | src/css/stylus.js:42-44 | `text/stylus` |
| Stylus.StylusCompiler.DetermineImportPaths | src/css/stylus.js:46-61 | the exact reverse of seen ++ user ++ [cwd] ++ library; it changes nothing |
| Stylus.StylusCompiler.ShouldCompileFile | src/css/stylus.js:63-65 | always true |
| Stylus.StylusCompiler.ShouldCompileFileSync | src/css/stylus.js:141-143 | always true |
| Stylus.StylusCompiler.DetermineDependentFilesSync | src/css/stylus.js:145-158 | one resolved path per detected import, in order, each against `dirname(filePath)` |
| Stylus.StylusCompiler.DetermineDependentFiles | src/css/stylus.js:67-69 | the same list as the sync variant |
| Stylus.StylusCompiler.MakeOpts | src/css/stylus.js:99-120 | the options and the new compiler options are exactly those of `Normalize`, aliasing through a shared `use` array included |
| Stylus.StylusCompiler.ApplyOpts | src/css/stylus.js:123-139 | the renderer receives the replayed option calls in enumeration order, then `set('paths', …)` with the reversed search path |
| Stylus.StylusCompiler.RenderCalls | src/css/stylus.js:123-139 | a fresh renderer ends with the replayed option calls followed by `set('paths', …)` with the reversed search path |
| Stylus.StylusCompiler.Compile | src/css/stylus.js:71-97 | `dirname(filePath)` is added to the seen set unconditionally; the renderer gets the normalised options and the replayed calls; the result is normalised |
| Stylus.StylusCompiler.CompileSync | src/css/stylus.js:160-178 | the same, with a missing source map read as `null` |

## Left out

- The rendering engines (`sass.compile`, `lessjs.render`, stylus `render`) are function parameters whose output is taken as given.
- `toutSuite`, `getSass`, `getLess`, and the lazy `require` of sass.js, less, stylus and nib are left out. They are event-loop and module-loading machinery. Forcing a renderer synchronous is taken as working.
- The removal of sass.js's `unhandledRejection` listener is left out; it is process-global plumbing.
- `sass.writeFile` is left out. The Sass importer answers with the path once the file has been read.
- `sass.getPathVariations`, the detective extractors and filing-cabinet are function parameters; their insides are not modelled.
- `getCompilerVersion` of each compiler only reads a package.json and is not modelled. The base class's version is.
- The `compilerContext` argument is never inspected and is left out of every signature.
- `Object.keys` lists integer-like keys first. The model keeps pure insertion order and assumes directory names are not integer-like.
- `Strings.Sort` compares characters of Dafny strings. JavaScript's default sort compares UTF-16 code units; the two differ only outside the Basic Multilingual Plane.
- Js.ForIn enumerates a string by Dafny characters. JavaScript's `for..in` over a string yields one index per UTF-16 code unit, so the two differ only for characters outside the Basic Multilingual Plane.
- SearchPaths.UserPaths keeps only the string items of an array `paths` option. A string value is spread into its single characters, as JavaScript spreads it. Non-string items are dropped rather than passed to the engines.
- SearchPaths.UserPaths: a truthy `paths` that is not iterable (a number, `true`, a plain object, a function) makes `paths.push(...paths)` throw a TypeError in every `determineImportPaths` (src/css/sass.js:64, src/css/less.js:52, src/css/stylus.js:52). The model gives an empty user tier instead, so that error is not modelled in `determineImportPaths`, the compiles or the Less walk.
- The Sass and Stylus one-level dependency walkers pass `dirname(filePath)` to filing-cabinet as a string. The model passes it as a one-element directory list, which is the same as the walkers' own list type.
- Less.LessCompiler.DetermineDependentFilesSync: requires a ghost rank that decreases along every import edge reachable from the root under any seen directories. A reachable cycle, on which the source recurses until the stack overflows, is not modelled. An edge that appears only with seen directories the walk never builds still has to decrease, so a cycle made only of such edges is excluded although the source terminates on it. The same holds for `ImportOne` and `DetermineDependentFiles`.
- The async Less walker (`readFile` awaited in sequence) and the async compile methods are modelled as the same sequential computation as their sync counterparts. Interleaving with other calls on the same instance is not modelled.
- The test-asserted equality between `determineDependentFiles` and `compile().dependencies` depends on the real engines and cannot be stated here.
- `fs.readFileSync` failing on a file that `statSync` reported as existing (permissions, races) is not modelled. The file system is a fixed map. It never holds the empty path, because Node throws on `statSync('')` and `readFileSync('')`.
- Sass.SassCompiler.Importer: the answer is returned instead of passed to the `done` callback.
