/**
 * String helpers: the code-unit order that `Array.prototype.sort` uses by
 * default, a sort specified by that order, and `split`/`join` on one
 * separator character.
 */
module Strings {
  import opened ObjectSet

  /** `a <= b` in lexicographic order of characters. */
  predicate Le(a: string, b: string)
    decreases |a|
  {
    if a == [] then true
    else if b == [] then false
    else if a[0] != b[0] then a[0] < b[0]
    else Le(a[1..], b[1..])
  }

  lemma {:induction false} LeRefl(a: string)
    ensures Le(a, a)
    decreases |a|
  {
    if a != [] { LeRefl(a[1..]); }
  }

  lemma {:induction false} LeTotal(a: string, b: string)
    ensures Le(a, b) || Le(b, a)
    decreases |a|
  {
    if a != [] && b != [] && a[0] == b[0] {
      LeTotal(a[1..], b[1..]);
    }
  }

  lemma {:induction false} LeTrans(a: string, b: string, c: string)
    requires Le(a, b) && Le(b, c)
    ensures Le(a, c)
    decreases |a|
  {
    if a != [] && b != [] && c != [] && a[0] == b[0] && b[0] == c[0] {
      LeTrans(a[1..], b[1..], c[1..]);
    }
  }

  lemma {:induction false} LeAntisym(a: string, b: string)
    requires Le(a, b) && Le(b, a)
    ensures a == b
    decreases |a|
  {
    if a != [] && b != [] {
      LeAntisym(a[1..], b[1..]);
      assert a == [a[0]] + a[1..] && b == [b[0]] + b[1..];
    }
  }

  predicate Sorted(s: seq<string>) {
    forall i, j :: 0 <= i < j < |s| ==> Le(s[i], s[j])
  }

  function InsertSorted(x: string, s: seq<string>): seq<string>
    decreases |s|
  {
    if s == [] || Le(x, s[0]) then [x] + s
    else [s[0]] + InsertSorted(x, s[1..])
  }

  lemma {:induction false} InsertSortedSpec(x: string, s: seq<string>)
    requires Sorted(s)
    ensures Sorted(InsertSorted(x, s))
    ensures multiset(InsertSorted(x, s)) == multiset(s) + multiset{x}
    decreases |s|
  {
    var r := InsertSorted(x, s);
    if s == [] {
    } else if Le(x, s[0]) {
      forall j | 0 <= j < |s| ensures Le(x, s[j]) {
        if j > 0 { LeTrans(x, s[0], s[j]); }
      }
      assert r == [x] + s;
    } else {
      LeTotal(x, s[0]);
      var t := InsertSorted(x, s[1..]);
      InsertSortedSpec(x, s[1..]);
      assert s == [s[0]] + s[1..];
      assert r == [s[0]] + t;
      forall j | 0 <= j < |t| ensures Le(s[0], t[j]) {
        assert t[j] in multiset(t);
        if t[j] != x {
          assert t[j] in s[1..];
        }
      }
    }
  }

  lemma {:induction false} CountAtMostOne(a: seq<string>, x: string)
    requires NoDups(a)
    ensures multiset(a)[x] <= 1
    decreases |a|
  {
    if a != [] {
      assert a == [a[0]] + a[1..];
      CountAtMostOne(a[1..], x);
      assert a[0] !in a[1..];
    }
  }

  lemma CountTwice(b: seq<string>, i: int, j: int)
    requires 0 <= i < j < |b|
    ensures b[i] == b[j] ==> multiset(b)[b[i]] >= 2
  {
    assert b == b[..i] + [b[i]] + b[i + 1..j] + [b[j]] + b[j + 1..];
  }

  lemma MultisetNoDups(a: seq<string>, b: seq<string>)
    requires multiset(a) == multiset(b) && NoDups(a)
    ensures NoDups(b)
  {
    forall i, j | 0 <= i < j < |b| ensures b[i] != b[j] {
      CountTwice(b, i, j);
      CountAtMostOne(a, b[i]);
    }
  }

  /**
   * The default `Array.prototype.sort()`: a reordering of the input that is
   * sorted.
   */
  function Sort(s: seq<string>): (r: seq<string>)
    ensures Sorted(r)
    ensures multiset(r) == multiset(s)
    decreases |s|
  {
    if s == [] then []
    else
      var t := Sort(s[1..]);
      assert s == [s[0]] + s[1..];
      InsertSortedSpec(s[0], t);
      InsertSorted(s[0], t)
  }

  /** Sorting keeps the length, the elements and the absence of duplicates. */
  lemma SortElements(s: seq<string>)
    ensures |Sort(s)| == |s|
    ensures forall y :: y in Sort(s) <==> y in s
    ensures NoDups(s) ==> NoDups(Sort(s))
  {
    var r := Sort(s);
    assert |r| == |multiset(r)| == |multiset(s)| == |s|;
    forall y ensures y in r <==> y in s {
      assert y in r <==> y in multiset(r);
      assert y in s <==> y in multiset(s);
    }
    if NoDups(s) { MultisetNoDups(s, r); }
  }

  /** The first element of a sorted list is its least element. */
  lemma SortedHeadLeast(a: seq<string>, y: string)
    requires Sorted(a) && y in a
    ensures Le(a[0], y)
  {
    var i :| 0 <= i < |a| && a[i] == y;
    if i == 0 { LeRefl(y); }
  }

  lemma TailSpec(a: seq<string>)
    requires Sorted(a) && a != []
    ensures Sorted(a[1..])
    ensures multiset(a[1..]) == multiset(a) - multiset{a[0]}
  {
    assert a == [a[0]] + a[1..];
  }

  /** Two sorted lists with the same elements start with the same element. */
  lemma SortedSameHead(a: seq<string>, b: seq<string>)
    requires Sorted(a) && Sorted(b) && multiset(a) == multiset(b) && a != [] && b != []
    ensures a[0] == b[0]
  {
    assert a[0] in multiset(a) && b[0] in multiset(b);
    SortedHeadLeast(a, b[0]);
    SortedHeadLeast(b, a[0]);
    LeAntisym(a[0], b[0]);
  }

  /**
   * A sorted list is determined by its elements, so the sort order does not
   * depend on which sorting algorithm produced it.
   */
  lemma {:induction false} SortedUnique(a: seq<string>, b: seq<string>)
    requires Sorted(a) && Sorted(b) && multiset(a) == multiset(b)
    ensures a == b
    decreases |a|
  {
    if a != [] && b != [] {
      SortedSameHead(a, b);
      TailSpec(a);
      TailSpec(b);
      SortedUnique(a[1..], b[1..]);
      assert a == [a[0]] + a[1..] && b == [b[0]] + b[1..];
    } else {
      assert |multiset(a)| == |a| && |multiset(b)| == |b|;
    }
  }

  predicate StartsWith(s: string, prefix: string) {
    |prefix| <= |s| && s[..|prefix|] == prefix
  }

  /** `parts.join(sep)`. */
  function Join(parts: seq<string>, sep: char): string
    decreases |parts|
  {
    if |parts| == 0 then ""
    else if |parts| == 1 then parts[0]
    else parts[0] + [sep] + Join(parts[1..], sep)
  }

  /** `s.split(sep)` for a one-character separator. */
  function Split(s: string, sep: char): (parts: seq<string>)
    ensures |parts| >= 1
    ensures forall i :: 0 <= i < |parts| ==> sep !in parts[i]
    ensures Join(parts, sep) == s
    ensures sep in s <==> |parts| >= 2
    decreases |s|
  {
    if s == [] then [""]
    else
      var rest := Split(s[1..], sep);
      assert s == [s[0]] + s[1..];
      if s[0] == sep then
        [""] + rest
      else
        var parts := [[s[0]] + rest[0]] + rest[1..];
        JoinExtendHead(rest, sep, s[0]);
        assert forall i :: 1 <= i < |parts| ==> parts[i] == rest[i];
        parts
  }

  /** Prefixing the first part with `c` prefixes the joined string with `c`. */
  lemma JoinExtendHead(parts: seq<string>, sep: char, c: char)
    requires |parts| >= 1
    ensures Join([[c] + parts[0]] + parts[1..], sep) == [c] + Join(parts, sep)
  {
    var ext := [[c] + parts[0]] + parts[1..];
    assert ext[1..] == parts[1..];
    if |parts| >= 2 {
      assert Join(ext, sep) == [c] + parts[0] + [sep] + Join(parts[1..], sep);
    }
  }

  /** Joining all but the last part and then the last part gives the whole. */
  lemma {:induction false} JoinLast(parts: seq<string>, sep: char)
    requires |parts| >= 2
    ensures Join(parts, sep) == Join(parts[..|parts| - 1], sep) + [sep] + parts[|parts| - 1]
    decreases |parts|
  {
    if |parts| > 2 {
      JoinLast(parts[1..], sep);
      assert parts[1..][..|parts| - 2] == parts[..|parts| - 1][1..];
    }
  }
}
