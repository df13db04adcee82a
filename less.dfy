/**
 * The Less compiler: the same search-path builder as Sass, a recursive
 * dependency walk that shares one `fileSet` across the whole import tree,
 * and the normalisation of the engine's result.
 */
module Less {
  import opened Wrappers
  import opened ObjectSet
  import opened Strings
  import opened Platform
  import opened SearchPaths
  import opened CompilerBase
  import Js

  const MimeTypes: seq<string> := ["text/less"]

  /**
   * The `fileSet` object of the dependency walk, passed by reference to
   * every recursive call; its keys in insertion order.
   */
  class KeySet {
    var keys: seq<string>

    constructor()
      ensures keys == []
    {
      keys := [];
    }

    /** `fileSet[k] = true`. */
    method Add(k: string)
      modifies this`keys
      ensures keys == Insert(old(keys), k)
    {
      keys := Insert(keys, k);
    }
  }

  /** What the dependency walk depends on besides its own state. */
  datatype WalkEnv = WalkEnv(
    detect: string -> seq<string>,                  // detective-less
    cabinet: (string, string, seq<string>) -> string, // filing-cabinet: partial, filename, directory
    fs: FileSystem,
    dirname: string -> string,
    user: Option<seq<string>>,
    cwd: string,
    lib: seq<string>)

  /** The `directory` handed to cabinet while walking the imports of `f`. */
  function Directory(e: WalkEnv, seen: seq<string>, f: string): seq<string> {
    Tiers(Observe(e.dirname, seen, f), e.user, e.cwd, e.lib)
  }

  /**
   * Every import among `imps` that the walk can resolve from `f` to an
   * existing file, under any seen directories, lands on a file of lower
   * rank whose own imports are ranked in turn. Only files reachable from
   * `f` are constrained, so a cycle elsewhere in the file map is allowed.
   */
  ghost predicate ImportsRanked(e: WalkEnv, rank: string -> nat, f: string, imps: seq<string>)
    decreases rank(f)
  {
    forall i, seen :: i in imps && e.cabinet(i, f, Directory(e, seen, f)) in e.fs ==>
      var d := e.cabinet(i, f, Directory(e, seen, f));
      rank(d) < rank(f) && ImportsRanked(e, rank, d, e.detect(e.fs[d]))
  }

  /**
   * Two files importing each other admit no rank once the walk can reach
   * them: the recursion from `a` would never end.
   */
  lemma CycleUnranked(e: WalkEnv, rank: string -> nat, a: string, b: string, i: string, j: string,
                      seen: seq<string>, seen': seq<string>)
    requires a in e.fs && b in e.fs && i in e.detect(e.fs[a]) && j in e.detect(e.fs[b])
    requires e.cabinet(i, a, Directory(e, seen, a)) == b && e.cabinet(j, b, Directory(e, seen', b)) == a
    ensures !ImportsRanked(e, rank, a, e.detect(e.fs[a]))
  {
  }

  /**
   * A root whose imports reach only files without imports is ranked,
   * whatever else the file map holds, cycles included.
   */
  lemma LeafImportsRanked(e: WalkEnv, f: string, imps: seq<string>)
    requires forall i, seen :: i in imps && e.cabinet(i, f, Directory(e, seen, f)) in e.fs ==>
      e.cabinet(i, f, Directory(e, seen, f)) != f && e.detect(e.fs[e.cabinet(i, f, Directory(e, seen, f))]) == []
    ensures ImportsRanked(e, g => if g == f then 1 else 0, f, imps)
  {
    var rank := (g: string) => if g == f then 1 else 0;
    forall i, seen | i in imps && e.cabinet(i, f, Directory(e, seen, f)) in e.fs
      ensures var d := e.cabinet(i, f, Directory(e, seen, f));
        rank(d) < rank(f) && ImportsRanked(e, rank, d, e.detect(e.fs[d]))
    {
      var d := e.cabinet(i, f, Directory(e, seen, f));
      assert e.detect(e.fs[d]) == [];
    }
  }

  /** The state after a walk: seen directories, collected files, the file that could not be read. */
  datatype Walk = Walk(seen: seq<string>, files: seq<string>, missing: Option<string>)

  /** `determineDependentFiles(src, f, ctx, fileSet)` on the state (`seen`, `files`). */
  ghost function WalkFile(e: WalkEnv, rank: string -> nat, src: string, f: string,
                          seen: seq<string>, files: seq<string>): Walk
    requires ImportsRanked(e, rank, f, e.detect(src))
    decreases rank(f), |e.detect(src)| + 1
  {
    WalkImports(e, rank, f, e.detect(src), seen, files)
  }

  /** The loop over the remaining imports `imps` of `f`. */
  ghost function WalkImports(e: WalkEnv, rank: string -> nat, f: string, imps: seq<string>,
                             seen: seq<string>, files: seq<string>): Walk
    requires ImportsRanked(e, rank, f, imps)
    decreases rank(f), |imps|
  {
    if imps == [] then Walk(seen, files, None)
    else
      var seen1 := Observe(e.dirname, seen, f);
      var dep := e.cabinet(imps[0], f, Directory(e, seen, f));
      RankedHead(e, rank, f, imps, seen);
      if dep !in e.fs then Walk(seen1, files, Some(dep))
      else
        var w := WalkFile(e, rank, e.fs[dep], dep, seen1, Insert(files, dep));
        if w.missing.Some? then w
        else WalkImports(e, rank, f, imps[1..], w.seen, w.files)
  }

  /** The first import, resolved against the current seen directories, and the rest are ranked. */
  lemma RankedHead(e: WalkEnv, rank: string -> nat, f: string, imps: seq<string>, seen: seq<string>)
    requires ImportsRanked(e, rank, f, imps) && imps != []
    ensures var dep := e.cabinet(imps[0], f, Directory(e, seen, f));
      dep in e.fs ==> rank(dep) < rank(f) && ImportsRanked(e, rank, dep, e.detect(e.fs[dep]))
    ensures ImportsRanked(e, rank, f, imps[1..]) && ImportsRanked(e, rank, f, [imps[0]])
  {
    var dep := e.cabinet(imps[0], f, Directory(e, seen, f));
    if dep in e.fs {
      assert imps[0] in imps;
      assert rank(dep) < rank(f) && ImportsRanked(e, rank, dep, e.detect(e.fs[dep]));
    }
    forall i: string, s: seq<string> | (i in imps[1..] || i in [imps[0]]) && e.cabinet(i, f, Directory(e, s, f)) in e.fs
      ensures var d := e.cabinet(i, f, Directory(e, s, f));
        rank(d) < rank(f) && ImportsRanked(e, rank, d, e.detect(e.fs[d]))
    {
      assert i in imps;
    }
  }

  /** The walk over `imps` is the walk over its first import followed by the walk over the others. */
  lemma WalkImportsCons(e: WalkEnv, rank: string -> nat, f: string, imps: seq<string>,
                        seen: seq<string>, files: seq<string>)
    requires ImportsRanked(e, rank, f, imps) && imps != []
    ensures ImportsRanked(e, rank, f, [imps[0]]) && ImportsRanked(e, rank, f, imps[1..])
    ensures var w := WalkImports(e, rank, f, [imps[0]], seen, files);
      WalkImports(e, rank, f, imps, seen, files) ==
        if w.missing.Some? then w else WalkImports(e, rank, f, imps[1..], w.seen, w.files)
  {
    RankedHead(e, rank, f, imps, seen);
    assert [imps[0]][1..] == [];
  }

  lemma PrefixIn(a: seq<string>, b: seq<string>, x: string)
    requires IsPrefix(a, b) && x in a
    ensures x in b
  {
    var i :| 0 <= i < |a| && a[i] == x;
    assert b[i] == a[i];
  }

  /** A walk only appends to the seen directories and to the collected files, and reads only existing files. */
  lemma {:induction false} WalkImportsGrows(e: WalkEnv, rank: string -> nat, f: string, imps: seq<string>,
                                            seen: seq<string>, files: seq<string>)
    requires ImportsRanked(e, rank, f, imps)
    ensures var w := WalkImports(e, rank, f, imps, seen, files);
      && IsPrefix(seen, w.seen) && IsPrefix(files, w.files)
      && (NoDups(seen) ==> NoDups(w.seen)) && (NoDups(files) ==> NoDups(w.files))
      && (forall x :: x in w.files && x !in files ==> x in e.fs)
    decreases rank(f), |imps|
  {
    if imps != [] {
      var seen1 := Observe(e.dirname, seen, f);
      var dep := e.cabinet(imps[0], f, Directory(e, seen, f));
      RankedHead(e, rank, f, imps, seen);
      if dep in e.fs {
        var files1 := Insert(files, dep);
        WalkFileGrows(e, rank, e.fs[dep], dep, seen1, files1);
        var w1 := WalkFile(e, rank, e.fs[dep], dep, seen1, files1);
        PrefixTrans(seen, seen1, w1.seen);
        PrefixTrans(files, files1, w1.files);
        if w1.missing.None? {
          WalkImportsGrows(e, rank, f, imps[1..], w1.seen, w1.files);
          var w := WalkImports(e, rank, f, imps[1..], w1.seen, w1.files);
          PrefixTrans(seen, w1.seen, w.seen);
          PrefixTrans(files, w1.files, w.files);
        }
      }
    }
  }

  lemma {:induction false} WalkFileGrows(e: WalkEnv, rank: string -> nat, src: string, f: string,
                                         seen: seq<string>, files: seq<string>)
    requires ImportsRanked(e, rank, f, e.detect(src))
    ensures var w := WalkFile(e, rank, src, f, seen, files);
      && IsPrefix(seen, w.seen) && IsPrefix(files, w.files)
      && (NoDups(seen) ==> NoDups(w.seen)) && (NoDups(files) ==> NoDups(w.files))
      && (forall x :: x in w.files && x !in files ==> x in e.fs)
    decreases rank(f), |e.detect(src)| + 1
  {
    WalkImportsGrows(e, rank, f, e.detect(src), seen, files);
  }

  /**
   * `imp`, imported by `g`, was resolved against search paths `s` that
   * extend `lo` and were later extended to `hi`, and the file it resolved
   * to is in `files`.
   */
  ghost predicate ResolvedFrom(e: WalkEnv, g: string, imp: string, lo: seq<string>, hi: seq<string>, files: seq<string>) {
    exists s :: IsPrefix(lo, s) && IsPrefix(s, hi) && e.cabinet(imp, g, Tiers(s, e.user, e.cwd, e.lib)) in files
  }

  lemma ResolvedFromLift(e: WalkEnv, g: string, imp: string, lo: seq<string>, hi: seq<string>, files: seq<string>,
                         lo': seq<string>, hi': seq<string>, files': seq<string>)
    requires ResolvedFrom(e, g, imp, lo, hi, files)
    requires IsPrefix(lo', lo) && IsPrefix(hi, hi') && IsPrefix(files, files')
    ensures ResolvedFrom(e, g, imp, lo', hi', files')
  {
    var s :| IsPrefix(lo, s) && IsPrefix(s, hi) && e.cabinet(imp, g, Tiers(s, e.user, e.cwd, e.lib)) in files;
    PrefixTrans(lo', lo, s);
    PrefixTrans(s, hi, hi');
    PrefixIn(files, files', e.cabinet(imp, g, Tiers(s, e.user, e.cwd, e.lib)));
  }

  /**
   * A walk that completes has collected every import of the root, each as
   * resolved against the search paths current at that import, which start
   * with everything seen before the walk and `dirname` of the root.
   */
  lemma {:induction false} WalkImportsComplete(e: WalkEnv, rank: string -> nat, f: string, imps: seq<string>,
                                               seen: seq<string>, files: seq<string>)
    requires ImportsRanked(e, rank, f, imps)
    ensures var w := WalkImports(e, rank, f, imps, seen, files);
      w.missing.None? ==>
        forall k :: 0 <= k < |imps| ==> ResolvedFrom(e, f, imps[k], Observe(e.dirname, seen, f), w.seen, w.files)
    decreases |imps|
  {
    var w := WalkImports(e, rank, f, imps, seen, files);
    if imps != [] && w.missing.None? {
      var seen1 := Observe(e.dirname, seen, f);
      WalkImportsCons(e, rank, f, imps, seen, files);
      var w0 := WalkImports(e, rank, f, [imps[0]], seen, files);
      WalkFirstResolved(e, rank, f, imps[0], seen, files);
      WalkImportsGrows(e, rank, f, imps[1..], w0.seen, w0.files);
      WalkImportsComplete(e, rank, f, imps[1..], w0.seen, w0.files);
      ResolvedFromLift(e, f, imps[0], seen1, w0.seen, w0.files, seen1, w.seen, w.files);
      PrefixTrans(seen1, w0.seen, Observe(e.dirname, w0.seen, f));
      ResolvedFromTail(e, f, imps, Observe(e.dirname, w0.seen, f), seen1, w.seen, w.files);
    }
  }

  /** A completed walk over one import has collected the file it resolved to. */
  lemma WalkFirstResolved(e: WalkEnv, rank: string -> nat, f: string, imp: string,
                          seen: seq<string>, files: seq<string>)
    requires ImportsRanked(e, rank, f, [imp])
    ensures var w := WalkImports(e, rank, f, [imp], seen, files);
      w.missing.None? ==>
        IsPrefix(Observe(e.dirname, seen, f), w.seen) && ResolvedFrom(e, f, imp, Observe(e.dirname, seen, f), w.seen, w.files)
  {
    var w := WalkImports(e, rank, f, [imp], seen, files);
    if w.missing.None? {
      var seen1 := Observe(e.dirname, seen, f);
      var dep := e.cabinet(imp, f, Directory(e, seen, f));
      RankedHead(e, rank, f, [imp], seen);
      var files1 := Insert(files, dep);
      assert dep in e.fs;
      WalkFileGrows(e, rank, e.fs[dep], dep, seen1, files1);
      var w1 := WalkFile(e, rank, e.fs[dep], dep, seen1, files1);
      assert [imp][1..] == [];
      assert w == if w1.missing.Some? then w1 else WalkImports(e, rank, f, [], w1.seen, w1.files);
      assert w1.missing.None? && w.seen == w1.seen && w.files == w1.files;
      PrefixIn(files1, w1.files, dep);
      assert IsPrefix(seen1, seen1) && Directory(e, seen, f) == Tiers(seen1, e.user, e.cwd, e.lib);
    }
  }

  /** The imports after the first, resolved from a later state, were also resolved from an earlier one. */
  lemma ResolvedFromTail(e: WalkEnv, f: string, imps: seq<string>, lo: seq<string>, lo': seq<string>,
                         hi: seq<string>, files: seq<string>)
    requires imps != [] && IsPrefix(lo', lo)
    requires forall k :: 0 <= k < |imps| - 1 ==> ResolvedFrom(e, f, imps[1..][k], lo, hi, files)
    ensures forall k :: 1 <= k < |imps| ==> ResolvedFrom(e, f, imps[k], lo', hi, files)
  {
    forall k | 1 <= k < |imps|
      ensures ResolvedFrom(e, f, imps[k], lo', hi, files)
    {
      assert imps[1..][k - 1] == imps[k];
      ResolvedFromLift(e, f, imps[k], lo, hi, files, lo', hi, files);
    }
  }

  lemma WalkFileComplete(e: WalkEnv, rank: string -> nat, src: string, f: string,
                         seen: seq<string>, files: seq<string>)
    requires ImportsRanked(e, rank, f, e.detect(src))
    ensures var w := WalkFile(e, rank, src, f, seen, files);
      w.missing.None? ==>
        forall k :: 0 <= k < |e.detect(src)| ==>
          ResolvedFrom(e, f, e.detect(src)[k], Observe(e.dirname, seen, f), w.seen, w.files)
  {
    WalkImportsComplete(e, rank, f, e.detect(src), seen, files);
  }

  /**
   * `imp`, imported by `g`, was resolved against search paths `s` that
   * already held `dirname(g)` and were later extended to `hi`; the file it
   * resolved to is in `files`.
   */
  ghost predicate Reached(e: WalkEnv, g: string, imp: string, hi: seq<string>, files: seq<string>) {
    exists s :: IsPrefix(s, hi) && (g != "" ==> e.dirname(g) in s) && e.cabinet(imp, g, Tiers(s, e.user, e.cwd, e.lib)) in files
  }

  lemma ReachedLift(e: WalkEnv, g: string, imp: string, hi: seq<string>, files: seq<string>,
                    hi': seq<string>, files': seq<string>)
    requires Reached(e, g, imp, hi, files)
    requires IsPrefix(hi, hi') && IsPrefix(files, files')
    ensures Reached(e, g, imp, hi', files')
  {
    var s :| IsPrefix(s, hi) && (g != "" ==> e.dirname(g) in s) && e.cabinet(imp, g, Tiers(s, e.user, e.cwd, e.lib)) in files;
    PrefixTrans(s, hi, hi');
    PrefixIn(files, files', e.cabinet(imp, g, Tiers(s, e.user, e.cwd, e.lib)));
  }

  lemma ResolvedFromReached(e: WalkEnv, g: string, imp: string, seen: seq<string>, hi: seq<string>, files: seq<string>)
    requires ResolvedFrom(e, g, imp, Observe(e.dirname, seen, g), hi, files)
    ensures Reached(e, g, imp, hi, files)
  {
    var lo := Observe(e.dirname, seen, g);
    var s :| IsPrefix(lo, s) && IsPrefix(s, hi) && e.cabinet(imp, g, Tiers(s, e.user, e.cwd, e.lib)) in files;
    if g != "" {
      PrefixIn(lo, s, e.dirname(g));
    }
  }

  /** `g` exists and every one of its imports was collected. */
  ghost predicate Closed(e: WalkEnv, g: string, hi: seq<string>, files: seq<string>) {
    && g in e.fs
    && forall k :: 0 <= k < |e.detect(e.fs[g])| ==> Reached(e, g, e.detect(e.fs[g])[k], hi, files)
  }

  lemma ClosedLift(e: WalkEnv, g: string, hi: seq<string>, files: seq<string>, hi': seq<string>, files': seq<string>)
    requires Closed(e, g, hi, files)
    requires IsPrefix(hi, hi') && IsPrefix(files, files')
    ensures Closed(e, g, hi', files')
  {
    forall k | 0 <= k < |e.detect(e.fs[g])| ensures Reached(e, g, e.detect(e.fs[g])[k], hi', files') {
      ReachedLift(e, g, e.detect(e.fs[g])[k], hi, files, hi', files');
    }
  }

  /**
   * A walk that completes leaves the collected files closed under import:
   * every file it added exists and has all its own imports collected.
   */
  lemma {:induction false} WalkImportsClosed(e: WalkEnv, rank: string -> nat, f: string, imps: seq<string>,
                                             seen: seq<string>, files: seq<string>)
    requires ImportsRanked(e, rank, f, imps)
    ensures var w := WalkImports(e, rank, f, imps, seen, files);
      w.missing.None? ==> forall g :: g in w.files && g !in files ==> Closed(e, g, w.seen, w.files)
    decreases rank(f), |imps|
  {
    var w := WalkImports(e, rank, f, imps, seen, files);
    if imps != [] && w.missing.None? {
      var seen1 := Observe(e.dirname, seen, f);
      var dep := e.cabinet(imps[0], f, Directory(e, seen, f));
      RankedHead(e, rank, f, imps, seen);
      var files1 := Insert(files, dep);
      var src := e.fs[dep];
      var w1 := WalkFile(e, rank, src, dep, seen1, files1);
      WalkFileGrows(e, rank, src, dep, seen1, files1);
      WalkImportsGrows(e, rank, f, imps[1..], w1.seen, w1.files);
      WalkFileClosed(e, rank, src, dep, seen1, files1);
      WalkImportsClosed(e, rank, f, imps[1..], w1.seen, w1.files);
      WalkFileComplete(e, rank, src, dep, seen1, files1);
      assert Closed(e, dep, w.seen, w.files) by {
        forall k | 0 <= k < |e.detect(src)| ensures Reached(e, dep, e.detect(src)[k], w.seen, w.files) {
          ResolvedFromReached(e, dep, e.detect(src)[k], seen1, w1.seen, w1.files);
          ReachedLift(e, dep, e.detect(src)[k], w1.seen, w1.files, w.seen, w.files);
        }
      }
      forall g | g in w.files && g !in files ensures Closed(e, g, w.seen, w.files) {
        if g != dep && g in w1.files {
          ClosedLift(e, g, w1.seen, w1.files, w.seen, w.files);
        }
      }
    }
  }

  lemma {:induction false} WalkFileClosed(e: WalkEnv, rank: string -> nat, src: string, f: string,
                                          seen: seq<string>, files: seq<string>)
    requires ImportsRanked(e, rank, f, e.detect(src))
    ensures var w := WalkFile(e, rank, src, f, seen, files);
      w.missing.None? ==> forall g :: g in w.files && g !in files ==> Closed(e, g, w.seen, w.files)
    decreases rank(f), |e.detect(src)| + 1
  {
    WalkImportsClosed(e, rank, f, e.detect(src), seen, files);
  }

  /** `x` is what one of `imps`, imported from `g`, resolves to under some search paths. */
  ghost predicate Imported(e: WalkEnv, g: string, imps: seq<string>, x: string) {
    exists imp, ds :: imp in imps && x == e.cabinet(imp, g, ds)
  }

  /**
   * Nothing enters the file set unless it is imported: by the root or by
   * a file the walk collected.
   */
  lemma {:induction false} WalkImportsSound(e: WalkEnv, rank: string -> nat, f: string, imps: seq<string>,
                                            seen: seq<string>, files: seq<string>)
    requires ImportsRanked(e, rank, f, imps)
    ensures var w := WalkImports(e, rank, f, imps, seen, files);
      forall x :: x in w.files && x !in files ==>
        Imported(e, f, imps, x) || exists g :: g in w.files && g in e.fs && Imported(e, g, e.detect(e.fs[g]), x)
    decreases rank(f), |imps|
  {
    var w := WalkImports(e, rank, f, imps, seen, files);
    if imps != [] {
      var seen1 := Observe(e.dirname, seen, f);
      var ds := Directory(e, seen, f);
      var dep := e.cabinet(imps[0], f, ds);
      RankedHead(e, rank, f, imps, seen);
      if dep in e.fs {
        var files1 := Insert(files, dep);
        var src := e.fs[dep];
        var w1 := WalkFile(e, rank, src, dep, seen1, files1);
        WalkFileGrows(e, rank, src, dep, seen1, files1);
        WalkFileSound(e, rank, src, dep, seen1, files1);
        assert Imported(e, f, imps, dep);
        PrefixIn(files1, w1.files, dep);
        if w1.missing.None? {
          WalkImportsGrows(e, rank, f, imps[1..], w1.seen, w1.files);
          WalkImportsSound(e, rank, f, imps[1..], w1.seen, w1.files);
        }
        forall x | x in w.files && x !in files
          ensures Imported(e, f, imps, x) || exists g :: g in w.files && g in e.fs && Imported(e, g, e.detect(e.fs[g]), x)
        {
          if x != dep && x in w1.files {
            if !Imported(e, dep, e.detect(src), x) {
              var g :| g in w1.files && g in e.fs && Imported(e, g, e.detect(e.fs[g]), x);
              PrefixIn(w1.files, w.files, g);
            } else {
              PrefixIn(w1.files, w.files, dep);
            }
          } else if x !in w1.files {
            if Imported(e, f, imps[1..], x) {
              var imp, ds' :| imp in imps[1..] && x == e.cabinet(imp, f, ds');
              assert imp in imps;
            }
          }
        }
      }
    }
  }

  lemma {:induction false} WalkFileSound(e: WalkEnv, rank: string -> nat, src: string, f: string,
                                         seen: seq<string>, files: seq<string>)
    requires ImportsRanked(e, rank, f, e.detect(src))
    ensures var w := WalkFile(e, rank, src, f, seen, files);
      forall x :: x in w.files && x !in files ==>
        Imported(e, f, e.detect(src), x) || exists g :: g in w.files && g in e.fs && Imported(e, g, e.detect(e.fs[g]), x)
    decreases rank(f), |e.detect(src)| + 1
  {
    WalkImportsSound(e, rank, f, e.detect(src), seen, files);
  }

  /** A file whose imports were resolved had its directory in the search paths. */
  lemma ReachedSeen(e: WalkEnv, g: string, imp: string, hi: seq<string>, files: seq<string>)
    requires Reached(e, g, imp, hi, files) && g != ""
    ensures e.dirname(g) in hi
  {
    var s :| IsPrefix(s, hi) && (g != "" ==> e.dirname(g) in s) && e.cabinet(imp, g, Tiers(s, e.user, e.cwd, e.lib)) in files;
    PrefixIn(s, hi, e.dirname(g));
  }

  /**
   * What a completed walk from a duplicate-free `fileSet` returns: a sorted,
   * duplicate-free list of exactly the collected files, which hold every
   * import of the root and of every collected file; the directories of the
   * root and of every collected file that has imports are in the seen
   * directories; and the root is listed only when something imports it.
   */
  lemma WalkResult(e: WalkEnv, rank: string -> nat, src: string, f: string, seen: seq<string>, files: seq<string>)
    requires ImportsRanked(e, rank, f, e.detect(src)) && NoDups(files)
    ensures var w := WalkFile(e, rank, src, f, seen, files);
      w.missing.None? ==>
        var list := Sort(w.files);
        && Sorted(list) && NoDups(list) && (forall x :: x in list <==> x in w.files)
        && (forall k :: 0 <= k < |e.detect(src)| ==> Reached(e, f, e.detect(src)[k], w.seen, w.files))
        && (forall g :: g in w.files && g !in files ==> Closed(e, g, w.seen, w.files))
        && (f != "" && |e.detect(src)| > 0 ==> e.dirname(f) in w.seen)
        && (forall g :: g in w.files && g !in files && g != "" && |e.detect(e.fs[g])| > 0 ==> e.dirname(g) in w.seen)
        && (f in w.files && f !in files ==>
              Imported(e, f, e.detect(src), f) || exists g :: g in w.files && g in e.fs && Imported(e, g, e.detect(e.fs[g]), f))
  {
    var w := WalkFile(e, rank, src, f, seen, files);
    WalkFileGrows(e, rank, src, f, seen, files);
    WalkFileComplete(e, rank, src, f, seen, files);
    WalkFileClosed(e, rank, src, f, seen, files);
    WalkFileSound(e, rank, src, f, seen, files);
    SortElements(w.files);
    if w.missing.None? {
      var imps := e.detect(src);
      forall k | 0 <= k < |imps| ensures Reached(e, f, imps[k], w.seen, w.files) {
        ResolvedFromReached(e, f, imps[k], seen, w.seen, w.files);
      }
      if f != "" && |imps| > 0 {
        ReachedSeen(e, f, imps[0], w.seen, w.files);
      }
      forall g | g in w.files && g !in files && g != "" && |e.detect(e.fs[g])| > 0
        ensures e.dirname(g) in w.seen
      {
        ReachedSeen(e, g, e.detect(e.fs[g])[0], w.seen, w.files);
      }
    }
  }

  /** What less hands back from `render`. */
  datatype LessOutput = LessOutput(css: Js.Value, sourceMap: Js.Value, imports: Option<seq<string>>)

  /** `{...compilerOptions, paths, filename}`. */
  function RenderOptions(options: Js.Object, paths: seq<string>, fileName: string): Js.Object {
    Js.Set(Js.Set(options, "paths", Js.StrArray(paths)), "filename", Js.Str(fileName))
  }

  /** The options of `compileSync`, which force less into synchronous mode. */
  function SyncRenderOptions(options: Js.Object, paths: seq<string>, fileName: string): Js.Object {
    Js.Set(Js.Set(Js.Set(RenderOptions(options, paths, fileName),
      "fileAsync", Js.Bool(false)), "async", Js.Bool(false)), "syncImport", Js.Bool(true))
  }

  lemma RenderOptionsSpec(options: Js.Object, paths: seq<string>, fileName: string)
    ensures Js.Get(RenderOptions(options, paths, fileName), "paths") == Js.StrArray(paths)
    ensures Js.Get(RenderOptions(options, paths, fileName), "filename") == Js.Str(fileName)
    ensures forall k :: k != "paths" && k != "filename" ==>
      Js.Get(RenderOptions(options, paths, fileName), k) == Js.Get(options, k)
    ensures Js.WellFormed(options) ==> Js.WellFormed(RenderOptions(options, paths, fileName))
  {
    var o1 := Js.Set(options, "paths", Js.StrArray(paths));
    Js.SetGet(options, "paths", Js.StrArray(paths));
    Js.SetGetOther(o1, "filename", Js.Str(fileName), "paths");
    Js.SetGet(o1, "filename", Js.Str(fileName));
    forall k | k != "paths" && k != "filename"
      ensures Js.Get(RenderOptions(options, paths, fileName), k) == Js.Get(options, k)
    {
      Js.SetGetOther(options, "paths", Js.StrArray(paths), k);
      Js.SetGetOther(o1, "filename", Js.Str(fileName), k);
    }
    if Js.WellFormed(options) {
      Js.SetWellFormed(options, "paths", Js.StrArray(paths));
      Js.SetWellFormed(o1, "filename", Js.Str(fileName));
    }
  }

  lemma SyncRenderOptionsSpec(options: Js.Object, paths: seq<string>, fileName: string)
    ensures var o := SyncRenderOptions(options, paths, fileName);
      && Js.Get(o, "fileAsync") == Js.Bool(false) && Js.Get(o, "async") == Js.Bool(false)
      && Js.Get(o, "syncImport") == Js.Bool(true)
      && forall k :: k != "fileAsync" && k != "async" && k != "syncImport" ==>
           Js.Get(o, k) == Js.Get(RenderOptions(options, paths, fileName), k)
  {
    var o0 := RenderOptions(options, paths, fileName);
    var o1 := Js.Set(o0, "fileAsync", Js.Bool(false));
    var o2 := Js.Set(o1, "async", Js.Bool(false));
    Js.SetGet(o0, "fileAsync", Js.Bool(false));
    Js.SetGetOther(o1, "async", Js.Bool(false), "fileAsync");
    Js.SetGetOther(o2, "syncImport", Js.Bool(true), "fileAsync");
    Js.SetGet(o1, "async", Js.Bool(false));
    Js.SetGetOther(o2, "syncImport", Js.Bool(true), "async");
    Js.SetGet(o2, "syncImport", Js.Bool(true));
    forall k | k != "fileAsync" && k != "async" && k != "syncImport"
      ensures Js.Get(SyncRenderOptions(options, paths, fileName), k) == Js.Get(o0, k)
    {
      Js.SetGetOther(o0, "fileAsync", Js.Bool(false), k);
      Js.SetGetOther(o1, "async", Js.Bool(false), k);
      Js.SetGetOther(o2, "syncImport", Js.Bool(true), k);
    }
  }

  /** Only an empty string becomes `' '`; any other value passes through as is. */
  function Code(css: Js.Value): (code: Js.Value)
    ensures css == Js.Str("") ==> code == Js.Str(" ")
    ensures css != Js.Str("") ==> code == css
    ensures css.Str? ==> code.Str? && Js.Truthy(code)
  {
    if css == Js.Str("") then Js.Str(" ") else css
  }

  function ResolveAll(p: Platform, locs: seq<string>): (r: seq<string>)
    ensures |r| == |locs|
    ensures forall i :: 0 <= i < |locs| ==> r[i] == p.resolve([locs[i]])
  {
    seq(|locs|, i requires 0 <= i < |locs| => p.resolve([locs[i]]))
  }

  /** `(imports || []).map(resolve).sort()`. */
  function Dependencies(p: Platform, imports: Option<seq<string>>): seq<string> {
    Sort(ResolveAll(p, if imports.Some? then imports.value else []))
  }

  /** One sorted entry per reported import, repeats included. */
  lemma DependenciesSpec(p: Platform, imports: Option<seq<string>>)
    ensures var xs := if imports.Some? then imports.value else [];
      && Sorted(Dependencies(p, imports))
      && multiset(Dependencies(p, imports)) == multiset(ResolveAll(p, xs))
      && |Dependencies(p, imports)| == |xs|
      && forall d :: d in Dependencies(p, imports) <==> exists i :: 0 <= i < |xs| && d == p.resolve([xs[i]])
  {
    var xs := if imports.Some? then imports.value else [];
    var m := ResolveAll(p, xs);
    SortElements(m);
    assert |multiset(Sort(m))| == |multiset(m)|;
    forall d ensures d in m <==> exists i :: 0 <= i < |xs| && d == p.resolve([xs[i]]) {
      if d in m {
        var i :| 0 <= i < |m| && m[i] == d;
      }
    }
  }

  /** The result of `compile`/`compileSync` once less has answered or failed. */
  function Finish(p: Platform, out: Result<LessOutput, string>): (r: Outcome<CompileResult>)
    ensures r.Failure? <==> out.Failure?
    ensures out.Failure? ==> r.error == EngineFailure(out.error)
    ensures r.Success? ==> r.value.code == Code(out.value.css) && r.value.mimeType == "text/css"
    ensures r.Success? ==> r.value.sourceMaps == Js.Or(out.value.sourceMap, Js.Null)
    ensures r.Success? ==> r.value.dependencies == Some(Dependencies(p, out.value.imports))
  {
    match out
    case Failure(msg) => Failure(EngineFailure(msg))
    case Success(o) =>
      Success(CompileResult(Code(o.css), Js.Or(o.sourceMap, Js.Null), Some(Dependencies(p, o.imports)), "text/css"))
  }

  class LessCompiler {
    const platform: Platform
    const libraryPaths: seq<string>
    const detect: string -> seq<string>
    const cabinet: (string, string, seq<string>) -> string
    var compilerOptions: Js.Object
    var seenFilePaths: seq<string>

    ghost predicate Valid()
      reads this
    {
      NoDups(seenFilePaths)
    }

    constructor(platform: Platform, detect: string -> seq<string>, cabinet: (string, string, seq<string>) -> string)
      ensures Valid()
      ensures compilerOptions == [("sourceMap", Js.Obj([("sourceMapFileInline", Js.Bool(true))]))]
      ensures libraryPaths == Dedupe(platform.libraryRoots) && seenFilePaths == []
      ensures this.platform == platform && this.detect == detect && this.cabinet == cabinet
    {
      this.platform := platform;
      this.detect := detect;
      this.cabinet := cabinet;
      compilerOptions := [("sourceMap", Js.Obj([("sourceMapFileInline", Js.Bool(true))]))];
      libraryPaths := Dedupe(platform.libraryRoots);
      seenFilePaths := [];
    }

    static function GetInputMimeTypes(): (r: seq<string>)
      ensures r == ["text/less"]
    {
      MimeTypes
    }

    method DetermineImportPaths(filePath: string) returns (paths: seq<string>)
      requires Valid()
      modifies this`seenFilePaths
      ensures Valid()
      ensures seenFilePaths == Observe(platform.dirname, old(seenFilePaths), filePath)
      ensures paths == Tiers(seenFilePaths, UserPaths(compilerOptions), platform.cwd, libraryPaths)
    {
      if filePath != "" {
        var thisPath := platform.dirname(filePath);
        seenFilePaths := Insert(seenFilePaths, thisPath);
      }
      paths := seenFilePaths;
      var user := UserPaths(compilerOptions);
      if user.Some? {
        paths := paths + user.value;
      }
      paths := paths + [platform.cwd];
      paths := paths + libraryPaths;
    }

    function ShouldCompileFile(fileName: string): (r: bool)
      ensures r
    {
      true
    }

    function ShouldCompileFileSync(fileName: string): (r: bool)
      ensures r
    {
      true
    }

    /** The environment of a walk over the file system `fs`. */
    function Env(fs: FileSystem): (e: WalkEnv)
      reads this
      ensures e.detect == detect && e.cabinet == cabinet && e.fs == fs && e.dirname == platform.dirname
      ensures e.user == UserPaths(compilerOptions) && e.cwd == platform.cwd && e.lib == libraryPaths
    {
      WalkEnv(detect, cabinet, fs, platform.dirname, UserPaths(compilerOptions), platform.cwd, libraryPaths)
    }

    /**
     * Each import is resolved against the current search paths, read, added
     * to `fileSet` and walked in turn; a file that cannot be read throws.
     * `rank` is a ghost witness that the imports reachable from the root
     * are acyclic: the source has no visited check and does not terminate
     * on a reachable cycle.
     */
    method DetermineDependentFilesSync(sourceCode: string, filePath: string, fileSet: KeySet,
                                       fs: FileSystem, ghost rank: string -> nat)
      returns (r: Outcome<seq<string>>)
      requires Valid() && ImportsRanked(Env(fs), rank, filePath, detect(sourceCode))
      modifies this`seenFilePaths, fileSet`keys
      ensures Valid()
      ensures var w := WalkFile(Env(fs), rank, sourceCode, filePath, old(seenFilePaths), old(fileSet.keys));
        && seenFilePaths == w.seen && fileSet.keys == w.files
        && r == (if w.missing.Some? then Failure(IOFailure(w.missing.value)) else Success(Sort(w.files)))
      decreases rank(filePath), 1
    {
      ghost var e := Env(fs);
      ghost var total := WalkImports(e, rank, filePath, detect(sourceCode), seenFilePaths, fileSet.keys);
      var dependencyFilenames := detect(sourceCode);
      var i := 0;
      while i < |dependencyFilenames|
        invariant 0 <= i <= |dependencyFilenames|
        invariant Valid()
        invariant ImportsRanked(e, rank, filePath, dependencyFilenames[i..])
        invariant WalkImports(e, rank, filePath, dependencyFilenames[i..], seenFilePaths, fileSet.keys) == total
      {
        ghost var rest := dependencyFilenames[i..];
        assert rest[0] == dependencyFilenames[i] && rest[1..] == dependencyFilenames[i + 1..];
        WalkImportsCons(e, rank, filePath, rest, seenFilePaths, fileSet.keys);
        var missing := ImportOne(dependencyFilenames[i], filePath, fileSet, fs, rank);
        if missing.Some? {
          r := Failure(IOFailure(missing.value));
          return;
        }
        i := i + 1;
      }
      r := Success(Sort(fileSet.keys));
    }

    /**
     * One pass of the loop body: resolve, read, add to `fileSet`, recurse.
     * The result is the file that could not be read, if any.
     */
    method ImportOne(dependencyName: string, filePath: string, fileSet: KeySet, fs: FileSystem, ghost rank: string -> nat)
      returns (missing: Option<string>)
      requires Valid() && ImportsRanked(Env(fs), rank, filePath, [dependencyName])
      modifies this`seenFilePaths, fileSet`keys
      ensures Valid()
      ensures var w := WalkImports(Env(fs), rank, filePath, [dependencyName], old(seenFilePaths), old(fileSet.keys));
        seenFilePaths == w.seen && fileSet.keys == w.files && missing == w.missing
      decreases rank(filePath), 0
    {
      ghost var e := Env(fs);
      ghost var seen0 := seenFilePaths;
      var directory := DetermineImportPaths(filePath);
      var dependencyFilepath := cabinet(dependencyName, filePath, directory);
      assert directory == Directory(e, seen0, filePath);
      RankedHead(e, rank, filePath, [dependencyName], seen0);
      if dependencyFilepath !in fs {
        missing := Some(dependencyFilepath);
        return;
      }
      var dependencySource := fs[dependencyFilepath];
      fileSet.Add(dependencyFilepath);
      var sub := DetermineDependentFilesSync(dependencySource, dependencyFilepath, fileSet, fs, rank);
      missing := if sub.Failure? then Some(sub.error.path) else None;
    }

    /** The asynchronous variant performs the same sequential walk. */
    method DetermineDependentFiles(sourceCode: string, filePath: string, fileSet: KeySet,
                                   fs: FileSystem, ghost rank: string -> nat)
      returns (r: Outcome<seq<string>>)
      requires Valid() && ImportsRanked(Env(fs), rank, filePath, detect(sourceCode))
      modifies this`seenFilePaths, fileSet`keys
      ensures Valid()
      ensures var w := WalkFile(Env(fs), rank, sourceCode, filePath, old(seenFilePaths), old(fileSet.keys));
        && seenFilePaths == w.seen && fileSet.keys == w.files
        && r == (if w.missing.Some? then Failure(IOFailure(w.missing.value)) else Success(Sort(w.files)))
    {
      r := DetermineDependentFilesSync(sourceCode, filePath, fileSet, fs, rank);
    }

    /** `engine` stands for `lessjs.render`; a rejection carries its message. */
    method Compile(sourceCode: string, filePath: string, engine: (string, Js.Object) -> Result<LessOutput, string>)
      returns (r: Outcome<CompileResult>)
      requires Valid()
      modifies this`seenFilePaths
      ensures Valid()
      ensures seenFilePaths == Observe(platform.dirname, old(seenFilePaths), filePath)
      ensures r == Finish(platform, engine(sourceCode, RenderOptions(compilerOptions,
        Tiers(seenFilePaths, UserPaths(compilerOptions), platform.cwd, libraryPaths), platform.basename(filePath))))
    {
      var paths := DetermineImportPaths(filePath);
      var opts := RenderOptions(compilerOptions, paths, platform.basename(filePath));
      var result := engine(sourceCode, opts);
      r := Finish(platform, result);
    }

    /** `engine` here is less forced into synchronous mode, answering through its callback. */
    method CompileSync(sourceCode: string, filePath: string, engine: (string, Js.Object) -> Result<LessOutput, string>)
      returns (r: Outcome<CompileResult>)
      requires Valid()
      modifies this`seenFilePaths
      ensures Valid()
      ensures seenFilePaths == Observe(platform.dirname, old(seenFilePaths), filePath)
      ensures r == Finish(platform, engine(sourceCode, SyncRenderOptions(compilerOptions,
        Tiers(seenFilePaths, UserPaths(compilerOptions), platform.cwd, libraryPaths), platform.basename(filePath))))
    {
      var paths := DetermineImportPaths(filePath);
      var opts := SyncRenderOptions(compilerOptions, paths, platform.basename(filePath));
      var result := engine(sourceCode, opts);
      if result.Failure? {
        r := Failure(EngineFailure(result.error));
        return;
      }
      var imports := Dependencies(platform, result.value.imports);
      r := Success(CompileResult(Code(result.value.css), Js.Or(result.value.sourceMap, Js.Null), Some(imports), "text/css"));
    }
  }
}
