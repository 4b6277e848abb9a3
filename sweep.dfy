/** What a reverse-index update-and-remove pass over a list leaves behind, stated once for
    every kind of entity: each element is moved, the ones that are gone are dropped, and the
    rest keep their order. */
module Sweep {

  /** The elements a pass keeps: each moved, those that are gone dropped, in their original order. */
  function Kept<T>(pending: seq<T>, move: T -> T, gone: T -> bool): (r: seq<T>)
    ensures |r| <= |pending|
    decreases |pending|
  {
    if pending == [] then []
    else
      var last := move(pending[|pending| - 1]);
      Kept(pending[..|pending| - 1], move, gone) + (if gone(last) then [] else [last])
  }

  /** How many elements satisfy hit once moved. */
  function Count<T>(pending: seq<T>, move: T -> T, hit: T -> bool): (n: nat)
    ensures n <= |pending|
    decreases |pending|
  {
    if pending == [] then 0
    else Count(pending[..|pending| - 1], move, hit) + (if hit(move(pending[|pending| - 1])) then 1 else 0)
  }

  /** The pass keeps exactly the moved elements that are not gone: every kept element is the
      moved form of an input element that is not gone, and the number dropped is the number gone. */
  lemma {:induction false} KeptExactly<T>(pending: seq<T>, move: T -> T, gone: T -> bool)
    ensures |Kept(pending, move, gone)| == |pending| - Count(pending, move, gone)
    ensures forall x :: x in Kept(pending, move, gone) <==>
      exists k :: 0 <= k < |pending| && x == move(pending[k]) && !gone(x)
    decreases |pending|
  {
    if pending != [] {
      var rest := pending[..|pending| - 1];
      KeptExactly(rest, move, gone);
      forall x
        ensures x in Kept(pending, move, gone) <==>
          exists k :: 0 <= k < |pending| && x == move(pending[k]) && !gone(x)
      {
        if exists k :: 0 <= k < |pending| && x == move(pending[k]) && !gone(x) {
          var k :| 0 <= k < |pending| && x == move(pending[k]) && !gone(x);
          if k < |pending| - 1 {
            assert rest[k] == pending[k];
          }
        }
        if x in Kept(rest, move, gone) {
          var k :| 0 <= k < |rest| && x == move(rest[k]) && !gone(x);
          assert pending[k] == rest[k];
        }
      }
    }
  }

  /** A property that every input element has and that moving preserves holds of every kept element. */
  lemma KeptPreserves<T>(pending: seq<T>, move: T -> T, gone: T -> bool, good: T -> bool)
    requires forall x :: x in pending ==> good(x)
    requires forall x :: good(x) ==> good(move(x))
    ensures forall x :: x in Kept(pending, move, gone) ==> good(x)
  {
    KeptExactly(pending, move, gone);
  }

  /** Halfway through a reverse pass the list reads pending[..i + 1] + done; the element at
      index i is pending[i], and replacing or removing it gives the list one step further on. */
  lemma SplitAt<T>(pending: seq<T>, done: seq<T>, i: int, x: T)
    requires 0 <= i < |pending|
    ensures (pending[..i + 1] + done)[i] == pending[i]
    ensures (pending[..i + 1] + done)[i := x] == pending[..i] + ([x] + done)
    ensures (pending[..i + 1] + done)[..i] + (pending[..i + 1] + done)[i + 1..] == pending[..i] + done
  {
    var views := pending[..i + 1] + done;
    assert views[..i] == pending[..i];
    assert views[i + 1..] == done;
  }

  /** All elements of a sequence are pairwise different: no object is listed twice. */
  predicate Distinct<T(==)>(s: seq<T>)
  {
    forall j, k :: 0 <= j < k < |s| ==> s[j] != s[k]
  }

  /** Two lists without repeats and without a common element make one without repeats. */
  lemma DistinctAppend<T>(s: seq<T>, t: seq<T>)
    requires Distinct(s) && Distinct(t)
    requires forall x :: x in t ==> x !in s
    ensures Distinct(s + t)
  {
    var u := s + t;
    forall j, k | 0 <= j < k < |u|
      ensures u[j] != u[k]
    {
      if k >= |s| {
        assert u[k] == t[k - |s|] && u[k] in t;
        if j >= |s| {
          assert u[j] == t[j - |s|];
        }
      }
    }
  }

  /** Dropping one element keeps the rest pairwise different. */
  lemma DistinctRemove<T>(s: seq<T>, i: int)
    requires 0 <= i < |s| && Distinct(s)
    ensures Distinct(s[..i] + s[i + 1..])
  {
    var t := s[..i] + s[i + 1..];
    forall j, k | 0 <= j < k < |t|
      ensures t[j] != t[k]
    {
      var j' := if j < i then j else j + 1;
      var k' := if k < i then k else k + 1;
      assert t[j] == s[j'] && t[k] == s[k'];
    }
  }
}
