/** Go ranges over a map in an order of its own, a different one each time.  Such a range is modelled
    as any listing of the keys. */
module MapOrder {

  /** `order` lists each element of `s` once, and nothing else. */
  ghost predicate Lists(order: seq<int>, s: set<int>) {
    var lists :=
      && (forall i :: i in order <==> i in s)
      && (forall j, k :: 0 <= j < k < |order| ==> order[j] != order[k]);
    lists
  }

  /** What is left to walk has something to walk on to. */
  lemma SomeLeft<T>(left: set<T>)
    ensures left == {} || exists x :: x in left
  {
    assert (forall x :: x !in left) ==> left == {};
  }

  lemma Inhabited(s: set<int>)
    ensures s == {} || exists i :: i in s
  {
    assert (forall i :: i !in s) ==> s == {};
  }

  lemma ListsEmpty(order: seq<int>, s: set<int>)
    requires Lists(order, s)
    ensures order == [] <==> s == {}
  {
    if order != [] {
      assert order[0] in order;
    }
    Inhabited(s);
    assert forall i :: i in s ==> i in order;
  }

  lemma ListsButLast(order: seq<int>, s: set<int>)
    requires Lists(order, s) && s != {}
    ensures order != [] && order[|order| - 1] in s && Lists(order[..|order| - 1], s - {order[|order| - 1]})
  {
    ListsEmpty(order, s);
    var before, last := order[..|order| - 1], order[|order| - 1];
    assert order == before + [last];
    assert last in order && last !in before;
  }

  function Without(order: seq<int>, x: int): seq<int> {
    if order == [] then []
    else if order[|order| - 1] == x then order[..|order| - 1]
    else Without(order[..|order| - 1], x) + [order[|order| - 1]]
  }

  lemma {:induction false} WithoutLists(order: seq<int>, s: set<int>, x: int)
    requires Lists(order, s) && x in s
    ensures Lists(Without(order, x), s - {x})
  {
    var before, last := order[..|order| - 1], order[|order| - 1];
    ListsButLast(order, s);
    if last != x {
      WithoutLists(before, s - {last}, x);
      assert last !in Without(before, x);
      assert forall j :: 0 <= j < |Without(before, x)| ==> Without(before, x)[j] in Without(before, x);
    }
  }
}
