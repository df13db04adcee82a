/**
 * The search-path list the CSS compilers hand to their resolvers: the
 * directories seen so far, then `compilerOptions.paths`, then the working
 * directory, then the library directories.
 */
module SearchPaths {
  import opened Wrappers
  import opened ObjectSet
  import Js

  /** The elements of `[...v]` for the value of `compilerOptions.paths`. */
  function Spread(v: Js.Value): seq<string>
    decreases v
  {
    match v
    case Arr(items) => StringItems(items)
    case Str(s) => seq(|s|, i requires 0 <= i < |s| => [s[i]])
    case _ => []
  }

  function StringItems(items: seq<Js.Value>): seq<string>
    decreases |items|
  {
    if items == [] then []
    else (if items[0].Str? then [items[0].s] else []) + StringItems(items[1..])
  }

  /** `this.compilerOptions.paths` when it is truthy. */
  function UserPaths(options: Js.Object): (r: Option<seq<string>>)
    ensures r.Some? <==> Js.Truthy(Js.Get(options, "paths"))
  {
    var v := Js.Get(options, "paths");
    if Js.Truthy(v) then Some(Spread(v)) else None
  }

  function UserList(user: Option<seq<string>>): seq<string> {
    if user.Some? then user.value else []
  }

  /** The four tiers, highest precedence first. */
  function Tiers(seen: seq<string>, user: Option<seq<string>>, cwd: string, lib: seq<string>): seq<string> {
    seen + UserList(user) + [cwd] + lib
  }

  /**
   * `if (filePath) this.seenFilePaths[path.dirname(filePath)] = true`: the
   * file's directory joins the seen set unless the path is empty.
   */
  function Observe(dirname: string -> string, seen: seq<string>, filePath: string): (r: seq<string>)
    ensures filePath != "" ==> dirname(filePath) in r
    ensures filePath == "" ==> r == seen
    ensures IsPrefix(seen, r) && |r| <= |seen| + 1
    ensures forall x :: x in r <==> x in seen || (filePath != "" && x == dirname(filePath))
    ensures NoDups(seen) ==> NoDups(r)
  {
    if filePath != "" then Insert(seen, dirname(filePath)) else seen
  }

  /**
   * A resolver that tries the directories in order and takes the first one
   * in which `has` finds the import.
   */
  function FirstMatch(dirs: seq<string>, has: string -> bool): Option<string>
    decreases |dirs|
  {
    if dirs == [] then None
    else if has(dirs[0]) then Some(dirs[0])
    else FirstMatch(dirs[1..], has)
  }

  lemma {:induction false} FirstMatchSpec(dirs: seq<string>, has: string -> bool)
    ensures FirstMatch(dirs, has).Some? <==> exists i :: 0 <= i < |dirs| && has(dirs[i])
    ensures FirstMatch(dirs, has).Some? ==>
      exists i :: 0 <= i < |dirs| && has(dirs[i]) && dirs[i] == FirstMatch(dirs, has).value &&
        forall j :: 0 <= j < i ==> !has(dirs[j])
    decreases |dirs|
  {
    if dirs != [] && !has(dirs[0]) {
      FirstMatchSpec(dirs[1..], has);
      assert forall i :: 1 <= i < |dirs| ==> dirs[i] == dirs[1..][i - 1];
      if FirstMatch(dirs, has).Some? {
        var i :| 0 <= i < |dirs[1..]| && has(dirs[1..][i]) && dirs[1..][i] == FirstMatch(dirs, has).value &&
          forall j :: 0 <= j < i ==> !has(dirs[1..][j]);
        assert dirs[i + 1] == dirs[1..][i];
        assert forall j :: 1 <= j < i + 1 ==> dirs[j] == dirs[1..][j - 1];
      }
    }
  }

  lemma {:induction false} FirstMatchAppend(a: seq<string>, b: seq<string>, has: string -> bool)
    ensures FirstMatch(a + b, has) == if FirstMatch(a, has).Some? then FirstMatch(a, has) else FirstMatch(b, has)
    decreases |a|
  {
    if a != [] {
      assert (a + b)[0] == a[0] && (a + b)[1..] == a[1..] + b;
      FirstMatchAppend(a[1..], b, has);
    } else {
      assert a + b == b;
    }
  }

  lemma FirstMatchIn(dirs: seq<string>, has: string -> bool)
    ensures FirstMatch(dirs, has).Some? ==> FirstMatch(dirs, has).value in dirs && has(FirstMatch(dirs, has).value)
  {
    FirstMatchSpec(dirs, has);
  }

  /**
   * The precedence the tiers encode: a seen directory that has the file
   * beats the user paths, the project directory and the libraries; the
   * project directory beats the libraries; the libraries are the last resort.
   */
  lemma SearchOrder(seen: seq<string>, user: Option<seq<string>>, cwd: string, lib: seq<string>, has: string -> bool)
    ensures var m := FirstMatch(Tiers(seen, user, cwd, lib), has);
      && ((exists s :: s in seen && has(s)) ==> m.Some? && m.value in seen)
      && ((forall s :: s in seen + UserList(user) ==> !has(s)) && has(cwd) ==> m == Some(cwd))
      && ((forall s :: s in seen + UserList(user) ==> !has(s)) && !has(cwd) ==> m == FirstMatch(lib, has))
  {
    var front := seen + UserList(user);
    assert Tiers(seen, user, cwd, lib) == seen + (UserList(user) + [cwd] + lib);
    FirstMatchAppend(seen, UserList(user) + [cwd] + lib, has);
    FirstMatchSpec(seen, has);
    FirstMatchIn(seen, has);
    assert Tiers(seen, user, cwd, lib) == front + ([cwd] + lib);
    FirstMatchAppend(front, [cwd] + lib, has);
    FirstMatchSpec(front, has);
    assert ([cwd] + lib)[0] == cwd && ([cwd] + lib)[1..] == lib;
  }

  function Reverse(s: seq<string>): (r: seq<string>)
    ensures |r| == |s|
    ensures forall k :: 0 <= k < |s| ==> r[k] == s[|s| - 1 - k]
    decreases |s|
  {
    if s == [] then [] else Reverse(s[1..]) + [s[0]]
  }

  lemma {:induction false} ReverseAppend(a: seq<string>, b: seq<string>)
    ensures Reverse(a + b) == Reverse(b) + Reverse(a)
  {
    var l, r := Reverse(a + b), Reverse(b) + Reverse(a);
    assert |l| == |r|;
    forall k | 0 <= k < |l| ensures l[k] == r[k] {
      if k < |b| {
        assert r[k] == Reverse(b)[k] == b[|b| - 1 - k];
      } else {
        assert r[k] == Reverse(a)[k - |b|] == a[|a| - 1 - (k - |b|)];
      }
    }
  }

  /** Reversing keeps the elements. */
  lemma ReverseElements(s: seq<string>)
    ensures forall x :: x in Reverse(s) <==> x in s
  {
    var r := Reverse(s);
    forall x ensures x in r <==> x in s {
      if x in s {
        var i :| 0 <= i < |s| && s[i] == x;
        assert r[|s| - 1 - i] == x;
      }
    }
  }

  /** The reversed list: the libraries reversed, then the project directory, then the rest reversed. */
  lemma ReverseTiers(seen: seq<string>, user: Option<seq<string>>, cwd: string, lib: seq<string>)
    ensures Reverse(Tiers(seen, user, cwd, lib)) == Reverse(lib) + ([cwd] + Reverse(seen + UserList(user)))
  {
    var front := seen + UserList(user);
    assert Tiers(seen, user, cwd, lib) == (front + [cwd]) + lib;
    ReverseAppend(front + [cwd], lib);
    ReverseAppend(front, [cwd]);
    assert Reverse([cwd]) == [cwd];
  }

  /**
   * With the list reversed the precedence turns round: a library directory
   * that has the file beats the project directory, which beats the user
   * paths and the seen directories; among these the last seen comes first.
   */
  lemma ReversedSearchOrder(seen: seq<string>, user: Option<seq<string>>, cwd: string, lib: seq<string>, has: string -> bool)
    ensures var m := FirstMatch(Reverse(Tiers(seen, user, cwd, lib)), has);
      && ((exists l :: l in lib && has(l)) ==> m.Some? && m.value in lib)
      && ((forall l :: l in lib ==> !has(l)) && has(cwd) ==> m == Some(cwd))
      && ((forall l :: l in lib ==> !has(l)) && !has(cwd) ==> m == FirstMatch(Reverse(seen + UserList(user)), has))
  {
    var rl := Reverse(lib);
    var rest := [cwd] + Reverse(seen + UserList(user));
    ReverseTiers(seen, user, cwd, lib);
    FirstMatchAppend(rl, rest, has);
    FirstMatchSpec(rl, has);
    FirstMatchIn(rl, has);
    ReverseElements(lib);
    assert rest[0] == cwd && rest[1..] == Reverse(seen + UserList(user));
  }
}
