/**
 * What the compilers take from Node's `path`, `process` and `fs` modules.
 * The path functions are given, not defined: the model holds for every
 * choice of them.
 */
module Platform {

  datatype Platform = Platform(
    cwd: string,                     // process.cwd()
    libraryRoots: seq<string>,       // require.resolve.paths('')
    dirname: string -> string,       // path.dirname
    basename: string -> string,      // path.basename
    extname: string -> string,       // path.extname
    resolve: seq<string> -> string,  // path.resolve(...segments)
    sep: char,                       // path.sep
    win32: bool)                     // process.platform === 'win32'

  /**
   * The regular files that exist, with their contents. The empty path is
   * never one: `statSync('')` and `readFileSync('')` both throw.
   */
  type FileSystem = fs: map<string, string> | "" !in fs witness map[]
}
