/** Sequences and sets: enumerations, sizes, and regrouping. */
module Collections {
  lemma Subset<T>(a: set<T>, b: set<T>)
    requires a <= b
    ensures |a| <= |b|
  {
    assert b == a + (b - a);
  }

  ghost function Elements<T>(s: seq<T>): set<T> {
    set x | x in s
  }

  /** Each of the items once. */
  ghost predicate Enumerates<T>(order: seq<T>, items: set<T>) {
    && Elements(order) == items
    && (forall i, j :: 0 <= i < j < |order| ==> order[i] != order[j])
  }

  lemma EnumeratesPush<T>(order: seq<T>, items: set<T>, x: T)
    requires Enumerates(order, items) && x !in items
    ensures Enumerates(order + [x], items + {x})
  {
  }

  lemma EnumeratesJoin<T>(a: seq<T>, x: set<T>, b: seq<T>, y: set<T>)
    requires Enumerates(a, x) && Enumerates(b, y) && x !! y
    ensures Enumerates(a + b, x + y)
  {
    assert forall i :: 0 <= i < |a| ==> a[i] in x;
    assert forall i :: 0 <= i < |b| ==> b[i] in y;
  }

  lemma ListOf<T>(items: set<T>) returns (order: seq<T>)
    ensures Enumerates(order, items)
  {
    if items == {} {
      order := [];
    } else {
      var x :| x in items;
      order := ListOf(items - {x});
      EnumeratesPush(order, items - {x}, x);
      assert items - {x} + {x} == items;
      order := order + [x];
    }
  }

  lemma Assoc<T>(a: seq<T>, b: seq<T>, c: seq<T>)
    ensures (a + b) + c == a + (b + c)
  {
  }
}
