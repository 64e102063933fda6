/** The orders in which Go may iterate over the keys of a map. */
module Orders {

  ghost predicate Distinct(s: seq<string>) {
    forall i, j :: 0 <= i < j < |s| ==> s[i] != s[j]
  }

  ghost predicate Permutes(order: seq<string>, keys: set<string>) {
    Distinct(order) && (forall k :: k in order <==> k in keys)
  }

  lemma PermutesNext(order: seq<string>, keys: set<string>, k: string)
    ensures order == [] && keys == {} ==> Permutes(order, keys)
    ensures Permutes(order, keys) && k !in keys ==> Permutes(order + [k], keys + {k})
  {
  }

  lemma PermutesButLast(order: seq<string>, keys: set<string>)
    requires Permutes(order, keys) && order != []
    ensures Permutes(order[..|order| - 1], keys - {order[|order| - 1]}) && order[|order| - 1] in keys
  {
    var rest, k := order[..|order| - 1], order[|order| - 1];
    forall j ensures j in rest <==> j in keys - {k} {
      assert j in order <==> j in rest || j == k;
    }
  }

  /** What has been visited can be followed by whatever is left. */
  lemma {:induction false} Completes(done: seq<string>, visited: set<string>, todo: set<string>)
    returns (rest: seq<string>)
    requires Permutes(done, visited) && visited !! todo
    ensures Permutes(done + rest, visited + todo)
    decreases todo
  {
    if todo == {} {
      rest := [];
      assert done + rest == done && visited + todo == visited;
    } else {
      var k :| k in todo;
      PermutesNext(done, visited, k);
      var more := Completes(done + [k], visited + {k}, todo - {k});
      rest := [k] + more;
      assert done + [k] + more == done + rest && visited + {k} + (todo - {k}) == visited + todo;
    }
  }

  /** Any key may come last. */
  lemma EndsIn(keys: set<string>, k: string) returns (order: seq<string>)
    requires k in keys
    ensures Permutes(order, keys) && order != [] && order[|order| - 1] == k
  {
    PermutesNext([], {}, k);
    var rest := Completes([], {}, keys - {k});
    assert [] + rest == rest && {} + (keys - {k}) == keys - {k};
    PermutesNext(rest, keys - {k}, k);
    assert keys - {k} + {k} == keys;
    order := rest + [k];
  }
}
