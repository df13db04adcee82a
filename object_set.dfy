/**
 * A plain JavaScript object whose keys are set to `true` is how the compilers
 * keep an insertion-ordered set of strings (`seenFilePaths`, `libraryPaths`,
 * the dependency walker's `fileSet`, `dedupe`).  `Object.keys` of such an
 * object is modelled as a duplicate-free sequence in insertion order.
 */
module ObjectSet {

  predicate NoDups<T(==)>(s: seq<T>) {
    forall i, j :: 0 <= i < j < |s| ==> s[i] != s[j]
  }

  predicate IsPrefix<T(==)>(a: seq<T>, b: seq<T>) {
    |a| <= |b| && b[..|a|] == a
  }

  lemma PrefixTrans<T>(a: seq<T>, b: seq<T>, c: seq<T>)
    requires IsPrefix(a, b) && IsPrefix(b, c)
    ensures IsPrefix(a, c)
  {
    assert c[..|a|] == c[..|b|][..|a|];
  }

  /** `obj[k] = true` followed by `Object.keys(obj)`. */
  function Insert(keys: seq<string>, k: string): (r: seq<string>)
    ensures k in r
    ensures IsPrefix(keys, r)
    ensures forall x :: x in r <==> x in keys || x == k
    ensures |r| == if k in keys then |keys| else |keys| + 1
    ensures NoDups(keys) ==> NoDups(r)
  {
    if k in keys then keys else keys + [k]
  }

  /** A key that is already present keeps its position and nothing changes. */
  lemma InsertPresent(keys: seq<string>, k: string)
    requires k in keys
    ensures Insert(keys, k) == keys
  {
    var r := Insert(keys, k);
    assert r[..|keys|] == keys;
  }

  /** A key not yet present goes to the end and everything before stays. */
  lemma InsertAbsent(keys: seq<string>, k: string)
    requires k !in keys
    ensures Insert(keys, k) == keys + [k]
  {
    var r := Insert(keys, k);
    assert r == r[..|keys|] + [r[|keys|]];
  }

  /** Inserting behind a different first key leaves that key in front. */
  lemma InsertCons(h: string, keys: seq<string>, k: string)
    requires h != k
    ensures Insert([h] + keys, k) == [h] + Insert(keys, k)
  {
    if k in keys {
      InsertPresent(keys, k);
      InsertPresent([h] + keys, k);
    } else {
      InsertAbsent(keys, k);
      InsertAbsent([h] + keys, k);
      assert [h] + (keys + [k]) == ([h] + keys) + [k];
    }
  }

  /** The fold `arr.reduce((set, v) => { set[v] = true; return set; }, acc)`. */
  function InsertAll(acc: seq<string>, xs: seq<string>): (r: seq<string>)
    ensures IsPrefix(acc, r)
    ensures forall x :: x in r <==> x in acc || x in xs
    ensures NoDups(acc) ==> NoDups(r)
    ensures |r| <= |acc| + |xs|
    decreases |xs|
  {
    if xs == [] then acc
    else
      var r := InsertAll(Insert(acc, xs[0]), xs[1..]);
      PrefixTrans(acc, Insert(acc, xs[0]), r);
      r
  }

  /** `dedupe(arr)` of src/css/sass.js: keys of the object built from `arr`. */
  function Dedupe(xs: seq<string>): (r: seq<string>)
    ensures NoDups(r)
    ensures forall x :: x in r <==> x in xs
    ensures |r| <= |xs|
  {
    InsertAll([], xs)
  }

  /** A list that already has no duplicates comes out of `dedupe` unchanged. */
  lemma {:induction false} InsertAllNoDups(acc: seq<string>, xs: seq<string>)
    requires NoDups(acc + xs)
    ensures InsertAll(acc, xs) == acc + xs
    decreases |xs|
  {
    if xs != [] {
      forall i | 0 <= i < |acc| ensures acc[i] != xs[0] {
        assert (acc + xs)[i] == acc[i] && (acc + xs)[|acc|] == xs[0];
      }
      InsertAbsent(acc, xs[0]);
      assert acc + [xs[0]] + xs[1..] == acc + xs;
      InsertAllNoDups(acc + [xs[0]], xs[1..]);
    }
  }

  lemma DedupeNoDups(xs: seq<string>)
    requires NoDups(xs)
    ensures Dedupe(xs) == xs
  {
    assert [] + xs == xs;
    InsertAllNoDups([], xs);
  }
}
