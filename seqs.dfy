/**
 * Generic sequence operations that the application code performs through
 * JavaScript's array methods: order-preserving de-duplication (`[...new Set(xs)]`
 * and the `if (!xs.includes(x)) xs.push(x)` idiom), `filter` by a predicate,
 * `filter` by position, and `flatMap`.
 */
module Seqs {

  /** No element occurs twice. */
  predicate NoDup<T(==)>(s: seq<T>) {
    forall i, j :: 0 <= i < j < |s| ==> s[i] != s[j]
  }

  /** Position of the first occurrence of `x` in `s`. */
  function IndexOf<T(==)>(s: seq<T>, x: T): (i: nat)
    requires x in s
    ensures i < |s| && s[i] == x && x !in s[..i]
  {
    if s[0] == x then 0 else 1 + IndexOf(s[1..], x)
  }

  /**
   * Order-preserving de-duplication: the elements of `s` in the order of their
   * first occurrence. Defined by the last element, the way a loop that appends
   * an element only when it is not yet present builds its output.
   */
  function Dedup<T(==,!new)>(s: seq<T>): (r: seq<T>)
    ensures forall x :: x in r <==> x in s
    ensures |r| <= |s|
  {
    if s == [] then []
    else
      var d := Dedup(s[..|s| - 1]);
      if s[|s| - 1] in d then d else d + [s[|s| - 1]]
  }

  /** No element occurs twice in the output. */
  lemma {:induction false} DedupNoDup<T(!new)>(s: seq<T>)
    ensures NoDup(Dedup(s))
    decreases |s|
  {
    if s != [] {
      DedupNoDup(s[..|s| - 1]);
    }
  }

  /** Appending one element to the input extends the output by it exactly when it is new. */
  lemma DedupSnoc<T(!new)>(s: seq<T>, x: T)
    ensures Dedup(s + [x]) == if x in Dedup(s) then Dedup(s) else Dedup(s) + [x]
  {
    assert (s + [x])[..|s + [x]| - 1] == s;
  }

  /** De-duplicating a prefix of the input yields a prefix of the output. */
  lemma {:induction false} DedupPrefix<T(!new)>(s: seq<T>, n: nat)
    requires n <= |s|
    ensures Dedup(s[..n]) <= Dedup(s)
    decreases |s|
  {
    if n < |s| {
      var init := s[..|s| - 1];
      DedupPrefix(init, n);
      assert init[..n] == s[..n];
    } else {
      assert s[..n] == s;
    }
  }

  /** An input without duplicates is left unchanged. */
  lemma {:induction false} DedupOfNoDup<T(!new)>(s: seq<T>)
    requires NoDup(s)
    ensures Dedup(s) == s
    decreases |s|
  {
    if s != [] {
      var init := s[..|s| - 1];
      assert NoDup(init);
      DedupOfNoDup(init);
      assert s[|s| - 1] !in init;
      assert init + [s[|s| - 1]] == s;
    }
  }

  /**
   * The output keeps the order of first occurrences: an element whose first
   * occurrence in the input comes earlier also comes earlier in the output.
   */
  lemma DedupKeepsFirstOccurrenceOrder<T(!new)>(s: seq<T>, x: T, y: T)
    requires x in s && y in s
    requires IndexOf(s, x) < IndexOf(s, y)
    ensures IndexOf(Dedup(s), x) < IndexOf(Dedup(s), y)
  {
    var a := IndexOf(s, x);
    var b := IndexOf(s, y);
    var p := Dedup(s[..a + 1]);
    var d := Dedup(s);
    DedupPrefix(s, a + 1);
    assert x in s[..a + 1];
    assert y !in s[..a + 1] by {
      assert s[..a + 1] <= s[..b];
    }
    assert x in p && y !in p;
    assert d[..|p|] == p;
    IndexOfAtMost(d, x, IndexOf(p, x));
    IndexOfBeyondPrefix(d, y, |p|);
  }

  /** The first occurrence is no later than any occurrence. */
  lemma {:induction false} IndexOfAtMost<T>(s: seq<T>, x: T, k: nat)
    requires k < |s| && s[k] == x
    ensures IndexOf(s, x) <= k
    decreases k
  {
    if s[0] != x {
      IndexOfAtMost(s[1..], x, k - 1);
    }
  }

  /** An element missing from a prefix first occurs after it. */
  lemma {:induction false} IndexOfBeyondPrefix<T>(s: seq<T>, x: T, n: nat)
    requires x in s && n <= |s| && x !in s[..n]
    ensures IndexOf(s, x) >= n
    decreases n
  {
    if n > 0 {
      assert s[0] in s[..n];
      assert s[1..][..n - 1] <= s[1..n] && s[1..n] <= s[..n][1..];
      assert x !in s[1..][..n - 1] by {
        assert forall z :: z in s[1..][..n - 1] ==> z in s[..n];
      }
      IndexOfBeyondPrefix(s[1..], x, n - 1);
    }
  }

  /** The elements of `s` that satisfy `keep`, in their original order (`s.filter(keep)`). */
  function Filter<T(!new)>(keep: T -> bool, s: seq<T>): (r: seq<T>)
    ensures forall x :: x in r <==> x in s && keep(x)
    ensures |r| <= |s|
  {
    if s == [] then [] else (if keep(s[0]) then [s[0]] else []) + Filter(keep, s[1..])
  }

  /** Filtering distributes over concatenation (so it never reorders). */
  lemma {:induction false} FilterConcat<T(!new)>(keep: T -> bool, a: seq<T>, b: seq<T>)
    ensures Filter(keep, a + b) == Filter(keep, a) + Filter(keep, b)
    decreases |a|
  {
    if a != [] {
      FilterConcat(keep, a[1..], b);
      assert (a + b)[1..] == a[1..] + b;
    } else {
      assert a + b == b;
    }
  }

  /** When every element passes, filtering changes nothing. */
  lemma {:induction false} FilterKeepsAll<T(!new)>(keep: T -> bool, s: seq<T>)
    requires forall x :: x in s ==> keep(x)
    ensures Filter(keep, s) == s
    decreases |s|
  {
    if s != [] {
      FilterKeepsAll(keep, s[1..]);
    }
  }

  /** Filtering twice by the same predicate is filtering once. */
  lemma FilterIdempotent<T(!new)>(keep: T -> bool, s: seq<T>)
    ensures Filter(keep, Filter(keep, s)) == Filter(keep, s)
  {
    FilterKeepsAll(keep, Filter(keep, s));
  }

  /**
   * `s.filter((_, i) => i !== index)`: the elements whose position is not `index`.
   * `index` is any integer; one outside the sequence removes nothing.
   */
  function DropIndex<T>(s: seq<T>, index: int): (r: seq<T>)
  {
    if s == [] then [] else (if index == 0 then [] else [s[0]]) + DropIndex(s[1..], index - 1)
  }

  /** Dropping a position inside the sequence removes exactly that element; any other index removes nothing. */
  lemma {:induction false} DropIndexIsSlice<T>(s: seq<T>, index: int)
    ensures 0 <= index < |s| ==> DropIndex(s, index) == s[..index] + s[index + 1..]
    ensures !(0 <= index < |s|) ==> DropIndex(s, index) == s
    decreases |s|
  {
    if s != [] {
      var t := s[1..];
      var rest := DropIndex(t, index - 1);
      DropIndexIsSlice(t, index - 1);
      assert DropIndex(s, index) == (if index == 0 then [] else [s[0]]) + rest;
      if 0 < index < |s| {
        assert rest == t[..index - 1] + t[index..];
        assert s[..index] == [s[0]] + t[..index - 1];
        assert s[index + 1..] == t[index..];
        assert [s[0]] + (t[..index - 1] + t[index..]) == ([s[0]] + t[..index - 1]) + t[index..];
      } else if index != 0 {
        assert rest == t;
        assert [s[0]] + t == s;
      }
    }
  }

  /** `ss.flatMap(f)`: the concatenation of `f(x)` over the elements `x` of `ss`, in order. */
  function FlatMap<T, U>(f: T -> seq<U>, ss: seq<T>): (r: seq<U>)
    ensures forall i :: 0 <= i < |ss| ==> |f(ss[i])| <= |r|
  {
    if ss == [] then [] else f(ss[0]) + FlatMap(f, ss[1..])
  }

  /** An element occurs in the flattening exactly when it occurs in the image of some element. */
  lemma {:induction false} FlatMapMember<T, U>(f: T -> seq<U>, ss: seq<T>, y: U)
    ensures y in FlatMap(f, ss) <==> exists i :: 0 <= i < |ss| && y in f(ss[i])
    decreases |ss|
  {
    if ss != [] {
      FlatMapMember(f, ss[1..], y);
      if y in FlatMap(f, ss[1..]) {
        var i :| 0 <= i < |ss[1..]| && y in f(ss[1..][i]);
        assert y in f(ss[i + 1]);
      }
      if exists i :: 0 <= i < |ss| && y in f(ss[i]) {
        var i :| 0 <= i < |ss| && y in f(ss[i]);
        if i > 0 {
          assert y in f(ss[1..][i - 1]);
        }
      }
    }
  }

  /** Flattening distributes over concatenation. */
  lemma {:induction false} FlatMapConcat<T, U>(f: T -> seq<U>, a: seq<T>, b: seq<T>)
    ensures FlatMap(f, a + b) == FlatMap(f, a) + FlatMap(f, b)
    decreases |a|
  {
    if a != [] {
      FlatMapConcat(f, a[1..], b);
      assert (a + b)[1..] == a[1..] + b;
    } else {
      assert a + b == b;
    }
  }
}
