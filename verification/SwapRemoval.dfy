/** Removing an element from a list by moving the last one into its place. */
module SwapRemoval {

  function SwapRemove<T>(a: seq<T>, index: nat): (b: seq<T>)
    requires index < |a|
    ensures |b| == |a| - 1
  {
    a[index := a[|a| - 1]][..|a| - 1]
  }

  ghost predicate Distinct<T>(a: seq<T>) {
    forall i, j :: 0 <= i < j < |a| ==> a[i] != a[j]
  }

  lemma Shape<T>(a: seq<T>, index: nat)
    requires index < |a| - 1
    ensures a == a[..index] + [a[index]] + a[index + 1..|a| - 1] + [a[|a| - 1]]
    ensures SwapRemove(a, index) == a[..index] + [a[|a| - 1]] + a[index + 1..|a| - 1]
  {
  }

  /** Exactly the one element goes; the order of the others may change. */
  lemma RemovesOne<T>(a: seq<T>, index: nat)
    requires index < |a|
    ensures multiset(SwapRemove(a, index)) + multiset{a[index]} == multiset(a)
  {
    hide SwapRemove;
    if index == |a| - 1 {
      LastRemoved(a);
    } else {
      Shape(a, index);
    }
  }

  lemma LastRemoved<T>(a: seq<T>)
    requires a != []
    ensures multiset(SwapRemove(a, |a| - 1)) + multiset{a[|a| - 1]} == multiset(a)
  {
    assert a == SwapRemove(a, |a| - 1) + [a[|a| - 1]];
  }

  /** In a list without repetitions, every other element stays and the list stays distinct. */
  lemma KeepsOthers<T>(a: seq<T>, index: nat)
    requires index < |a| && Distinct(a)
    ensures Distinct(SwapRemove(a, index))
    ensures forall x :: x in SwapRemove(a, index) <==> x in a && x != a[index]
  {
    var b := SwapRemove(a, index);
    forall x | x in a && x != a[index]
      ensures x in b
    {
      var k :| 0 <= k < |a| && a[k] == x;
      assert b[if k == |a| - 1 then index else k] == x;
    }
  }
}
