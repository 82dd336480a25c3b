/** The least of a set of keys, for `sorted`. */
module Keys {
  lemma {:induction false} Member<T>(s: set<T>) returns (x: T)
    requires s != {}
    ensures x in s
  {
    x :| x in s;
  }

  ghost predicate IsLeast(k: int, keys: set<int>) {
    k in keys && forall j :: j in keys ==> k <= j
  }

  lemma {:induction false} LeastExists(keys: set<int>)
    requires |keys| > 0
    ensures exists k :: IsLeast(k, keys)
  {
    var x := Member(keys);
    var rest := keys - {x};
    if |rest| > 0 {
      LeastExists(rest);
      var y :| IsLeast(y, rest);
      assert forall j :: j in keys ==> j == x || j in rest;
      assert IsLeast(if x <= y then x else y, keys);
    } else {
      assert keys == {x};
      assert IsLeast(x, keys);
    }
  }
}
