/**
 * Sequence helpers shared by the models: the JavaScript and lodash list
 * operations the forum code relies on (`Array.prototype.filter`,
 * `Array.prototype.slice(0, end)`, `_.flatten`, `_.uniq`), stated once with
 * the properties the callers need.
 */
module Lists {

  datatype Option<+T> = None | Some(value: T)

  /** No element occurs twice. */
  predicate NoDup<T(==)>(s: seq<T>) {
    forall i, j :: 0 <= i < j < |s| ==> s[i] != s[j]
  }

  /** Order-preserving filter, as `Array.prototype.filter` with a predicate. */
  function Filter<T>(keep: T -> bool, s: seq<T>): (r: seq<T>)
    ensures |r| <= |s|
    ensures forall x :: x in r ==> x in s && keep(x)
    ensures forall x :: x in s && keep(x) ==> x in r
    ensures NoDup(s) ==> NoDup(r)
  {
    if s == [] then []
    else
      var rest := Filter(keep, s[1..]);
      assert forall x :: x in s[1..] ==> x in s;
      if keep(s[0]) then [s[0]] + rest else rest
  }

  /**
   * `s.slice(0, end)`: an undefined end keeps everything, a negative end
   * counts back from the length, a large end is clamped.
   */
  function SliceTo<T>(s: seq<T>, end: Option<int>): (r: seq<T>)
    ensures r <= s
    ensures end.Some? && 0 <= end.value ==> |r| == if end.value < |s| then end.value else |s|
    ensures end.Some? && end.value < 0 ==> |r| == if |s| + end.value < 0 then 0 else |s| + end.value
    ensures end.None? ==> r == s
  {
    match end
    case None => s
    case Some(e) =>
      var stop := if e < 0 then (if |s| + e < 0 then 0 else |s| + e)
                  else (if e < |s| then e else |s|);
      s[..stop]
  }

  /** `_.flatten` of a list of lists (one level). */
  function Flatten<T>(ss: seq<seq<T>>): (r: seq<T>)
    ensures forall x :: x in r ==> exists i :: 0 <= i < |ss| && x in ss[i]
    ensures forall i, x :: 0 <= i < |ss| && x in ss[i] ==> x in r
  {
    if ss == [] then []
    else
      var r := Flatten(ss[..|ss| - 1]) + ss[|ss| - 1];
      assert forall i :: 0 <= i < |ss| - 1 ==> ss[..|ss| - 1][i] == ss[i];
      r
  }

  /**
   * `_.uniq`: keeps the first occurrence of every element, in order.
   */
  function Uniq<T(==)>(s: seq<T>): (r: seq<T>)
    ensures NoDup(r)
    ensures forall x :: x in r ==> x in s
    ensures forall x :: x in s ==> x in r
    ensures |r| <= |s|
  {
    if s == [] then []
    else
      var u := Uniq(s[..|s| - 1]);
      assert forall x :: x in s[..|s| - 1] ==> x in s;
      assert s == s[..|s| - 1] + [s[|s| - 1]];
      if s[|s| - 1] in u then u else u + [s[|s| - 1]]
  }

  /** A duplicate-free list that is already `_.uniq`-ed stays as it is. */
  lemma {:induction false} UniqOfNoDup<T>(s: seq<T>)
    requires NoDup(s)
    ensures Uniq(s) == s
  {
    if s != [] {
      var init := s[..|s| - 1];
      assert NoDup(init);
      UniqOfNoDup(init);
      assert s[|s| - 1] !in init;
      assert s == init + [s[|s| - 1]];
    }
  }

  /** The number of distinct elements of a list is at most its length. */
  lemma {:induction false} DistinctCardinality<T>(s: seq<T>)
    ensures |set x | x in s| <= |s|
  {
    if s != [] {
      var init := s[..|s| - 1];
      DistinctCardinality(init);
      assert (set x | x in s) == (set x | x in init) + {s[|s| - 1]} by {
        assert s == init + [s[|s| - 1]];
      }
    }
  }

  /** Concatenation regroups; stated once so that proofs need not rebuild it elementwise. */
  lemma AppendAssociates<T>(a: seq<T>, b: seq<T>, c: seq<T>)
    ensures (a + b) + c == a + (b + c)
  {
  }
}
