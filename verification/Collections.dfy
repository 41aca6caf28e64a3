// Iteration orders of hash maps and hash sets.

module Collections {
  import opened GameData

  // The order in which a hash map happens to yield its keys.
  ghost predicate Enumerates(order: seq<Int32>, keys: set<Int32>) {
    && (forall i, j | 0 <= i < j < |order| :: order[i] != order[j])
    && (forall k :: k in order <==> k in keys)
  }

  lemma {:induction false} EnumerationLength(order: seq<Int32>, keys: set<Int32>)
    requires Enumerates(order, keys)
    ensures |order| == |keys|
  {
    if order == [] {
      assert keys == {};
    } else {
      var last := order[|order| - 1];
      var init := order[..|order| - 1];
      assert last in order;
      forall k ensures k in init <==> k in keys - {last} {
        if k in keys - {last} {
          var i :| 0 <= i < |order| && order[i] == k;
          assert init[i] == k;
        }
        if k in init { assert k in order; }
      }
      EnumerationLength(init, keys - {last});
    }
  }

  lemma EnumerateOneMore(order: seq<Int32>, keys: set<Int32>, k: Int32)
    requires k !in keys && Enumerates(order, keys)
    ensures Enumerates(order + [k], keys + {k})
  {
    forall x ensures x in order + [k] <==> x in keys + {k} {
      assert x in order + [k] <==> x in order || x == k;
    }
  }

  ghost predicate Known(order: seq<Int32>, keys: set<Int32>) {
    forall i | 0 <= i < |order| :: order[i] in keys
  }

  // A loop over a map has met `order` so far and still has to meet `todo`.
  ghost predicate Visiting(order: seq<Int32>, todo: set<Int32>, keys: set<Int32>) {
    todo <= keys && Enumerates(order, keys - todo) && Known(order, keys)
  }

  lemma StartVisiting(keys: set<Int32>)
    ensures Visiting([], keys, keys)
  {
  }

  lemma VisitOneMore(order: seq<Int32>, todo: set<Int32>, keys: set<Int32>, k: Int32)
    requires Visiting(order, todo, keys) && k in todo
    ensures k !in order && Visiting(order + [k], todo - {k}, keys)
  {
    EnumerateOneMore(order, keys - todo, k);
    assert keys - (todo - {k}) == keys - todo + {k};
  }

  lemma VisitedAll(order: seq<Int32>, keys: set<Int32>)
    requires Visiting(order, {}, keys)
    ensures Enumerates(order, keys)
  {
    assert keys - {} == keys;
  }

  // A loop over `todo` that looks for the elements of `keys` has met `order` so far.
  ghost predicate Searching(order: seq<Int32>, todo: set<Int32>, keys: set<Int32>) {
    Visiting(order, todo * keys, keys)
  }

  lemma StartSearching(todo: set<Int32>, keys: set<Int32>)
    requires keys <= todo
    ensures Searching([], todo, keys)
  {
    assert todo * keys == keys;
    StartVisiting(keys);
  }

  lemma SearchOneMore(order: seq<Int32>, todo: set<Int32>, keys: set<Int32>, k: Int32)
    requires Searching(order, todo, keys) && k in todo
    ensures Searching(if k in keys then order + [k] else order, todo - {k}, keys)
  {
    if k in keys {
      VisitOneMore(order, todo * keys, keys, k);
      assert (todo - {k}) * keys == todo * keys - {k};
    } else {
      assert (todo - {k}) * keys == todo * keys;
    }
  }

  lemma SearchedAll(order: seq<Int32>, keys: set<Int32>)
    requires Searching(order, {}, keys)
    ensures Enumerates(order, keys)
  {
    assert {} * keys == {};
    VisitedAll(order, keys);
  }

  function Elements(s: seq<Int32>): set<Int32> {
    set x | x in s
  }

  lemma ElementsOneMore(s: seq<Int32>, x: Int32)
    ensures Elements(s + [x]) == Elements(s) + {x}
  {
  }
}
