/**
 * The list operations the handlers build their next state from: JavaScript's
 * `Array.prototype.filter`, removal of every occurrence of a value, the
 * membership toggle of the multi-select controls and removal at an index.
 */
module Seqs {

  /** `s.filter(p)`: the elements satisfying `p`, in their original order. */
  function Filter<T>(s: seq<T>, p: T -> bool): (r: seq<T>)
    ensures |r| <= |s|
    ensures forall i :: 0 <= i < |r| ==> p(r[i])
  {
    if s == [] then [] else (if p(s[0]) then [s[0]] else []) + Filter(s[1..], p)
  }

  /** `a` can be obtained from `b` by deleting elements: same elements, same relative order. */
  predicate IsSubsequence<T(==)>(a: seq<T>, b: seq<T>)
    decreases |b|
  {
    a == [] ||
    (b != [] && ((a[0] == b[0] && IsSubsequence(a[1..], b[1..])) || IsSubsequence(a, b[1..])))
  }

  /** No value occurs twice. */
  predicate NoDuplicates<T(==)>(s: seq<T>) {
    forall i, j :: 0 <= i < j < |s| ==> s[i] != s[j]
  }

  lemma {:induction false} FilterMembership<T>(s: seq<T>, p: T -> bool, x: T)
    ensures x in Filter(s, p) <==> x in s && p(x)
  {
    if s != [] {
      FilterMembership(s[1..], p, x);
      assert s == [s[0]] + s[1..];
    }
  }

  lemma {:induction false} FilterIsSubsequence<T>(s: seq<T>, p: T -> bool)
    ensures IsSubsequence(Filter(s, p), s)
  {
    if s != [] {
      FilterIsSubsequence(s[1..], p);
      var r := Filter(s, p);
      if p(s[0]) {
        assert r[0] == s[0] && r[1..] == Filter(s[1..], p);
      } else {
        assert r == Filter(s[1..], p);
      }
    }
  }

  /** Filtering depends only on the predicate's verdicts on the list's elements. */
  lemma {:induction false} FilterSameVerdicts<T>(s: seq<T>, p: T -> bool, q: T -> bool)
    requires forall i :: 0 <= i < |s| ==> p(s[i]) == q(s[i])
    ensures Filter(s, p) == Filter(s, q)
  {
    if s != [] {
      FilterSameVerdicts(s[1..], p, q);
    }
  }

  /** Filtering with a predicate that every element satisfies returns the list itself. */
  lemma {:induction false} FilterKeepsAll<T>(s: seq<T>, p: T -> bool)
    requires forall i :: 0 <= i < |s| ==> p(s[i])
    ensures Filter(s, p) == s
  {
    if s != [] {
      FilterKeepsAll(s[1..], p);
    }
  }

  lemma {:induction false} FilterConcat<T>(a: seq<T>, b: seq<T>, p: T -> bool)
    ensures Filter(a + b, p) == Filter(a, p) + Filter(b, p)
  {
    if a == [] {
      assert a + b == b;
    } else {
      FilterConcat(a[1..], b, p);
      assert (a + b)[1..] == a[1..] + b;
    }
  }

  /** Each value keeps all its occurrences if it satisfies `p` and loses all of them otherwise. */
  lemma {:induction false} FilterCount<T>(s: seq<T>, p: T -> bool, x: T)
    ensures multiset(Filter(s, p))[x] == if p(x) then multiset(s)[x] else 0
  {
    if s != [] {
      FilterCount(s[1..], p, x);
      assert s == [s[0]] + s[1..];
    }
  }

  /** Two filters may be applied in either order. */
  lemma {:induction false} FilterCommutes<T>(s: seq<T>, p: T -> bool, q: T -> bool)
    ensures Filter(Filter(s, p), q) == Filter(Filter(s, q), p)
  {
    if s != [] {
      FilterCommutes(s[1..], p, q);
      var h := s[0];
      FilterConcat(if p(h) then [h] else [], Filter(s[1..], p), q);
      FilterConcat(if q(h) then [h] else [], Filter(s[1..], q), p);
    }
  }

  lemma {:induction false} FilterIdempotent<T>(s: seq<T>, p: T -> bool)
    ensures Filter(Filter(s, p), p) == Filter(s, p)
  {
    FilterKeepsAll(Filter(s, p), p);
  }

  lemma {:induction false} FilterNoDuplicates<T>(s: seq<T>, p: T -> bool)
    requires NoDuplicates(s)
    ensures NoDuplicates(Filter(s, p))
  {
    if s != [] {
      FilterNoDuplicates(s[1..], p);
      FilterMembership(s[1..], p, s[0]);
      assert s[0] !in s[1..] by {
        forall j | 0 <= j < |s[1..]| ensures s[1..][j] != s[0] {
          assert s[1..][j] == s[j + 1];
        }
      }
    }
  }

  /** The predicate "differs from `v`", the callback of `list.filter((item) => item !== v)`. */
  function DiffersFrom<T(==)>(v: T): T -> bool {
    x => x != v
  }

  /** `s.filter((item) => item !== v)`: every occurrence of `v` removed. */
  function RemoveAll<T(==)>(s: seq<T>, v: T): seq<T> {
    Filter(s, DiffersFrom(v))
  }

  /**
   * What removing a value does: `v` no longer occurs, every other value keeps
   * exactly its number of occurrences, and the order is preserved.
   */
  lemma RemoveAllSpec<T>(s: seq<T>, v: T)
    ensures v !in RemoveAll(s, v)
    ensures forall x :: x != v ==> multiset(RemoveAll(s, v))[x] == multiset(s)[x]
    ensures IsSubsequence(RemoveAll(s, v), s)
  {
    FilterMembership(s, DiffersFrom(v), v);
    forall x | x != v ensures multiset(RemoveAll(s, v))[x] == multiset(s)[x] {
      FilterCount(s, DiffersFrom(v), x);
    }
    FilterIsSubsequence(s, DiffersFrom(v));
  }

  lemma RemoveAllMembership<T>(s: seq<T>, v: T, x: T)
    ensures x in RemoveAll(s, v) <==> x in s && x != v
  {
    FilterMembership(s, DiffersFrom(v), x);
  }

  /** Removing a value that does not occur changes nothing. */
  lemma RemoveAllAbsent<T>(s: seq<T>, v: T)
    requires v !in s
    ensures RemoveAll(s, v) == s
  {
    forall i | 0 <= i < |s| ensures DiffersFrom(v)(s[i]) {
      assert s[i] in s;
    }
    FilterKeepsAll(s, DiffersFrom(v));
  }

  lemma RemoveAllIdempotent<T>(s: seq<T>, v: T)
    ensures RemoveAll(RemoveAll(s, v), v) == RemoveAll(s, v)
  {
    FilterIdempotent(s, DiffersFrom(v));
  }

  /**
   * The multi-select toggle: if `v` is selected, every occurrence is removed;
   * otherwise it is appended once at the end.
   */
  function Toggle<T(==)>(s: seq<T>, v: T): seq<T> {
    if v in s then RemoveAll(s, v) else s + [v]
  }

  lemma ToggleSpec<T>(s: seq<T>, v: T)
    ensures v in s ==> v !in Toggle(s, v) && IsSubsequence(Toggle(s, v), s)
    ensures v in s ==> forall x :: x != v ==> multiset(Toggle(s, v))[x] == multiset(s)[x]
    ensures v !in s ==> |Toggle(s, v)| == |s| + 1 && Toggle(s, v)[..|s|] == s && Toggle(s, v)[|s|] == v
  {
    if v in s {
      RemoveAllSpec(s, v);
    }
  }

  /** After a toggle, `x` is selected iff it was before, except `v`, whose selection flips. */
  lemma ToggleMembership<T>(s: seq<T>, v: T, x: T)
    ensures x in Toggle(s, v) <==> (if x == v then v !in s else x in s)
  {
    if v in s {
      RemoveAllMembership(s, v, x);
    }
  }

  lemma ToggleKeepsNoDuplicates<T>(s: seq<T>, v: T)
    requires NoDuplicates(s)
    ensures NoDuplicates(Toggle(s, v))
  {
    if v in s {
      FilterNoDuplicates(s, DiffersFrom(v));
    } else {
      var r := s + [v];
      forall i, j | 0 <= i < j < |r| ensures r[i] != r[j] {
        if j == |s| {
          assert r[i] == s[i] && s[i] in s;
        }
      }
    }
  }

  /** Toggling an unselected value twice restores the original selection. */
  lemma ToggleTwiceRestores<T>(s: seq<T>, v: T)
    requires v !in s
    ensures Toggle(Toggle(s, v), v) == s
  {
    assert v in s + [v];
    FilterConcat(s, [v], DiffersFrom(v));
    RemoveAllAbsent(s, v);
    assert Filter([v], DiffersFrom(v)) == [];
  }

  /**
   * `s.filter((_, i) => i !== index)`: drops the entry at position `index`
   * (counted from the front of `s`).
   */
  function RemoveAt<T>(s: seq<T>, index: int): seq<T> {
    if s == [] then [] else (if index == 0 then [] else [s[0]]) + RemoveAt(s[1..], index - 1)
  }

  /** An index in range drops exactly that entry and keeps the others in order; any other index changes nothing. */
  lemma {:induction false} RemoveAtSpec<T>(s: seq<T>, index: int)
    ensures 0 <= index < |s| ==> RemoveAt(s, index) == s[..index] + s[index + 1..]
    ensures !(0 <= index < |s|) ==> RemoveAt(s, index) == s
  {
    if s != [] {
      RemoveAtSpec(s[1..], index - 1);
      if 0 < index < |s| {
        assert s[1..][..index - 1] == s[1..index];
        assert s[1..][index - 1 + 1..] == s[index + 1..];
        assert [s[0]] + s[1..index] == s[..index];
      }
    }
  }

  lemma RemoveAtNoDuplicates<T>(s: seq<T>, index: int)
    requires NoDuplicates(s)
    ensures NoDuplicates(RemoveAt(s, index))
  {
    RemoveAtSpec(s, index);
    if 0 <= index < |s| {
      var r := RemoveAt(s, index);
      forall i, j | 0 <= i < j < |r| ensures r[i] != r[j] {
        var i' := if i < index then i else i + 1;
        var j' := if j < index then j else j + 1;
        assert r[i] == s[i'] && r[j] == s[j'];
      }
    }
  }
}
