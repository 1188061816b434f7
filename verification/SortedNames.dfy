/** Directory listings: backup names in their lexical order. */
module SortedNames {

  /** A backup file's name, as its place in the lexical order of names. */
  type Name = int

  predicate Ascending(order: seq<Name>) { forall i, j | 0 <= i < j < |order| :: order[i] < order[j] }

  function NamesIn(order: seq<Name>): set<Name> { set n | n in order }

  predicate LeastOf(m: Name, names: set<Name>) { m in names && forall n | n in names :: m <= n }

  lemma {:induction false} HasLeast(names: set<Name>)
    ensures names == {} || exists m :: LeastOf(m, names)
  {
    if names != {} {
      if forall k :: k !in names { assert false; }
      var k :| k in names;
      assert names == (names - {k}) + {k};
      HasLeast(names - {k});
      if l :| LeastOf(l, names - {k}) {
        assert LeastOf(if l < k then l else k, names);
      } else {
        assert LeastOf(k, names);
      }
    }
  }

  lemma NamesInAppend(order: seq<Name>, m: Name)
    ensures NamesIn(order + [m]) == NamesIn(order) + {m}
  {}

  /** The directory listing, sorted. */
  method Sorted(names: set<Name>) returns (order: seq<Name>)
    ensures Ascending(order) && NamesIn(order) == names
  {
    order := [];
    var rest := names;
    while |rest| > 0
      invariant Ascending(order)
      invariant NamesIn(order) == names - rest && rest <= names
      invariant forall i, n | 0 <= i < |order| && n in rest :: order[i] < n
      decreases |rest|
    {
      HasLeast(rest);
      var m :| LeastOf(m, rest);
      NamesInAppend(order, m);
      order, rest := order + [m], rest - {m};
    }
  }

  lemma {:induction false} CountAfter(order: seq<Name>)
    requires Ascending(order)
    ensures |NamesIn(order)| == |order|
  {
    if order == [] {
      assert NamesIn(order) == {};
    } else {
      CountAfter(order[1..]);
      assert NamesIn(order) == NamesIn(order[1..]) + {order[0]};
    }
  }
}
