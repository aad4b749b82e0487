/** Iteration over a Go map visits its keys in an order the program cannot rely on;
    the model quantifies over every such order. */
module MapOrder {
  /** `order` lists every element of `s` exactly once: one iteration order of a Go map
      with key set `s`. */
  ghost predicate IsOrdering(order: seq<string>, s: set<string>) {
    (forall i, j :: 0 <= i < j < |order| ==> order[i] != order[j]) &&
    (forall x :: x in order <==> x in s)
  }

  /** Some ordering of every finite set of names. */
  lemma OrderingOf(s: set<string>) returns (order: seq<string>)
    ensures IsOrdering(order, s)
    decreases |s|
  {
    if s == {} {
      order := [];
    } else {
      var x :| x in s;
      var rest := OrderingOf(s - {x});
      order := [x] + rest;
      assert forall i :: 0 < i < |order| ==> order[i] == rest[i - 1];
    }
  }

  /** Two orderings of disjoint sets concatenate to an ordering of their union. */
  lemma OrderingAppend(a: seq<string>, sa: set<string>, b: seq<string>, sb: set<string>)
    requires IsOrdering(a, sa) && IsOrdering(b, sb) && sa !! sb
    ensures IsOrdering(a + b, sa + sb)
  {
    forall i, j | 0 <= i < j < |a + b|
      ensures (a + b)[i] != (a + b)[j]
    {
      if j < |a| {
        assert (a + b)[i] == a[i] && (a + b)[j] == a[j];
      } else if i >= |a| {
        assert (a + b)[i] == b[i - |a|] && (a + b)[j] == b[j - |a|];
      } else {
        assert (a + b)[i] == a[i] && (a + b)[j] == b[j - |a|];
        assert a[i] in sa && b[j - |a|] in sb;
      }
    }
  }

  /** Dropping the last element of an ordering. */
  lemma OrderingInit(order: seq<string>, s: set<string>)
    requires IsOrdering(order, s) && order != []
    ensures IsOrdering(order[..|order| - 1], s - {order[|order| - 1]})
  {
    var init, x := order[..|order| - 1], order[|order| - 1];
    forall y | y in init
      ensures y != x
    {
      var i :| 0 <= i < |init| && init[i] == y;
      assert order[i] == y;
    }
    forall y | y in s && y != x
      ensures y in init
    {
      var i :| 0 <= i < |order| && order[i] == y;
      assert i != |order| - 1;
      assert init[i] == y;
    }
  }
}
