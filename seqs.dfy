/**
 * The array operations the dashboard builds everything from: `filter`,
 * `reduce` to a sum, `filter(...).length`, `find`/`findIndex` by id, removal by
 * id and `map` that rewrites the records carrying one id.
 */
module Seqs {
  import opened Wrappers

  /** `r` is `s` with some elements left out, the rest in their original order. */
  predicate IsSubsequence<T(==)>(r: seq<T>, s: seq<T>)
    decreases |s|
  {
    r == [] || (s != [] && ((r[0] == s[0] && IsSubsequence(r[1..], s[1..])) || IsSubsequence(r, s[1..])))
  }

  /** `s.filter(keep)`. */
  function Filter<T(==,!new)>(s: seq<T>, keep: T -> bool): (r: seq<T>)
    ensures |r| <= |s|
    ensures forall x :: x in r <==> x in s && keep(x)
  {
    if s == [] then []
    else if keep(s[0]) then [s[0]] + Filter(s[1..], keep)
    else Filter(s[1..], keep)
  }

  /** A filter keeps the elements it keeps in their original order. */
  lemma {:induction false} FilterIsSubsequence<T(!new)>(s: seq<T>, keep: T -> bool)
    ensures IsSubsequence(Filter(s, keep), s)
  {
    if s != [] {
      FilterIsSubsequence(s[1..], keep);
      if keep(s[0]) {
        assert Filter(s, keep)[1..] == Filter(s[1..], keep);
      }
    }
  }

  /** The complement of a predicate. */
  function Not<T>(p: T -> bool): T -> bool {
    x => !p(x)
  }

  /** A filter keeps everything exactly when every element passes. */
  lemma {:induction false} FilterKeepsAll<T(!new)>(s: seq<T>, keep: T -> bool)
    ensures Filter(s, keep) == s <==> forall x :: x in s ==> keep(x)
    ensures |Filter(s, keep)| == |s| <==> forall x :: x in s ==> keep(x)
  {
    if s != [] {
      FilterKeepsAll(s[1..], keep);
      if !keep(s[0]) {
        assert |Filter(s, keep)| < |s|;
      }
    }
  }

  /** Filtering distributes over concatenation. */
  lemma {:induction false} FilterAppend<T(!new)>(a: seq<T>, b: seq<T>, keep: T -> bool)
    ensures Filter(a + b, keep) == Filter(a, keep) + Filter(b, keep)
  {
    if a != [] {
      assert (a + b)[1..] == a[1..] + b;
      FilterAppend(a[1..], b, keep);
    } else {
      assert a + b == b;
    }
  }

  /**
   * Two predicates that split the elements between them (each element passes
   * exactly one) split the sequence: the two filters together hold every
   * element once.
   */
  lemma {:induction false} FilterPartition<T(!new)>(s: seq<T>, p: T -> bool, q: T -> bool)
    requires forall x :: x in s ==> p(x) != q(x)
    ensures |Filter(s, p)| + |Filter(s, q)| == |s|
    ensures multiset(Filter(s, p)) + multiset(Filter(s, q)) == multiset(s)
  {
    if s != [] {
      FilterPartition(s[1..], p, q);
      assert s == [s[0]] + s[1..];
    }
  }

  /** `s.filter(p).length`. */
  function Count<T(==,!new)>(s: seq<T>, p: T -> bool): nat {
    |Filter(s, p)|
  }

  /** `s.reduce((sum, x) => sum + f(x), 0)`. */
  function Sum<T>(s: seq<T>, f: T -> int): int {
    if s == [] then 0 else f(s[0]) + Sum(s[1..], f)
  }

  lemma {:induction false} SumAppend<T>(a: seq<T>, b: seq<T>, f: T -> int)
    ensures Sum(a + b, f) == Sum(a, f) + Sum(b, f)
  {
    if a == [] {
      assert a + b == b;
    } else {
      assert (a + b)[1..] == a[1..] + b;
      SumAppend(a[1..], b, f);
    }
  }

  /** The sum over the elements that pass `p` plus the sum over the others is the whole sum. */
  lemma {:induction false} SumSplit<T(!new)>(s: seq<T>, p: T -> bool, f: T -> int)
    ensures Sum(Filter(s, p), f) + Sum(Filter(s, Not(p)), f) == Sum(s, f)
  {
    if s != [] {
      SumSplit(s[1..], p, f);
    }
  }

  /** A sum of non-negative terms is non-negative. */
  lemma {:induction false} SumNonNegative<T>(s: seq<T>, f: T -> int)
    requires forall x :: x in s ==> f(x) >= 0
    ensures Sum(s, f) >= 0
  {
    if s != [] {
      SumNonNegative(s[1..], f);
    }
  }

  // ---------------------------------------------------------------------------
  // Records addressed by id

  /**
   * `s.findIndex(x => key(x) === id)`: the position of the first element with
   * that id, or -1 when none has it.
   */
  function IndexOfId<T>(s: seq<T>, key: T -> string, id: string): (i: int)
    ensures -1 <= i < |s|
    ensures i == -1 <==> forall j :: 0 <= j < |s| ==> key(s[j]) != id
    ensures 0 <= i ==> key(s[i]) == id && forall j :: 0 <= j < i ==> key(s[j]) != id
  {
    if s == [] then -1
    else if key(s[0]) == id then 0
    else
      var i := IndexOfId(s[1..], key, id);
      if i == -1 then -1 else i + 1
  }

  /** `x` is the element at the first position of `s` whose id is `id`. */
  ghost predicate IsFirstWithId<T>(s: seq<T>, key: T -> string, id: string, x: T) {
    exists i :: 0 <= i < |s| && x == s[i] && key(s[i]) == id && forall j :: 0 <= j < i ==> key(s[j]) != id
  }

  /** `s.find(x => key(x) === id)`: the first element with that id, if any. */
  function FindById<T>(s: seq<T>, key: T -> string, id: string): (r: Option<T>)
    ensures r.None? <==> forall x :: x in s ==> key(x) != id
    ensures r.Some? ==> r.value in s && key(r.value) == id && IsFirstWithId(s, key, id, r.value)
  {
    var i := IndexOfId(s, key, id);
    if i < 0 then None else Some(s[i])
  }

  /** The predicate "does not carry `id`" that removal by id filters with. */
  function IdIsNot<T>(key: T -> string, id: string): T -> bool {
    x => key(x) != id
  }

  /** `s.filter(x => key(x) !== id)`. */
  function RemoveById<T(==,!new)>(s: seq<T>, key: T -> string, id: string): (r: seq<T>)
    ensures forall x :: x in r <==> x in s && key(x) != id
    ensures IsSubsequence(r, s)
  {
    FilterIsSubsequence(s, IdIsNot(key, id));
    Filter(s, IdIsNot(key, id))
  }

  /**
   * Removal by id leaves the length unchanged exactly when no element has the
   * id, and then leaves the sequence itself unchanged.
   */
  lemma RemoveByIdUnchanged<T(!new)>(s: seq<T>, key: T -> string, id: string)
    ensures |RemoveById(s, key, id)| == |s| <==> forall x :: x in s ==> key(x) != id
    ensures (forall x :: x in s ==> key(x) != id) ==> RemoveById(s, key, id) == s
  {
    FilterKeepsAll(s, IdIsNot(key, id));
  }

  /** `s.map(x => key(x) === id ? update(x) : x)`. */
  function ReplaceById<T>(s: seq<T>, key: T -> string, id: string, update: T -> T): (r: seq<T>)
    ensures |r| == |s|
  {
    seq(|s|, i requires 0 <= i < |s| => if key(s[i]) == id then update(s[i]) else s[i])
  }

  /**
   * Rewriting by id touches exactly the elements with that id: they become
   * `update` of themselves and every other element stays where it was.
   */
  lemma ReplaceByIdSpec<T>(s: seq<T>, key: T -> string, id: string, update: T -> T)
    ensures forall i :: 0 <= i < |s| && key(s[i]) != id ==> ReplaceById(s, key, id, update)[i] == s[i]
    ensures forall i :: 0 <= i < |s| && key(s[i]) == id ==> ReplaceById(s, key, id, update)[i] == update(s[i])
    ensures (forall x :: x in s ==> key(x) != id) ==> ReplaceById(s, key, id, update) == s
  {
  }

  /**
   * When `update` keeps ids and applying it twice is applying it once,
   * rewriting by id twice is rewriting once.
   */
  lemma ReplaceByIdIdempotent<T>(s: seq<T>, key: T -> string, id: string, update: T -> T)
    requires forall x :: key(update(x)) == key(x) && update(update(x)) == update(x)
    ensures ReplaceById(ReplaceById(s, key, id, update), key, id, update) == ReplaceById(s, key, id, update)
  {
  }

  // ---------------------------------------------------------------------------
  // "all" or one value

  /** A select box offering 'all' or a single value. */
  datatype Choice<T(==)> = All | Only(value: T) {
    /** `choice === 'all' || x === choice`. */
    predicate Admits(x: T) {
      All? || value == x
    }
  }
}
