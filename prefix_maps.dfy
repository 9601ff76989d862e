/** The part of a map reached by the first `n` keys of an iteration order,
    and the facts that relate it to a loop that writes those keys one by one. */
module PrefixMaps {
  import opened Records

  /** The entries of `m` whose keys are among the first `n` keys of `order`. */
  function Collect<V>(order: seq<Id>, n: nat, m: map<Id, V>): (r: map<Id, V>)
    requires n <= |order|
    ensures r.Keys <= m.Keys
  {
    map k | k in order[..n] && k in m :: m[k]
  }

  lemma CollectNone<V>(order: seq<Id>, m: map<Id, V>)
    ensures Collect(order, 0, m) == map[]
  {
    assert order[..0] == [];
  }

  /** One more key of the order adds its entry, if `m` has one. */
  lemma CollectStep<V>(order: seq<Id>, n: nat, m: map<Id, V>)
    requires 0 < n <= |order|
    ensures var k := order[n - 1];
            Collect(order, n, m) ==
              if k in m then Collect(order, n - 1, m)[k := m[k]] else Collect(order, n - 1, m)
  {
    var k := order[n - 1];
    assert order[..n] == order[..n - 1] + [k];
    assert forall j :: j in order[..n] <==> j in order[..n - 1] || j == k;
  }

  /** An order that visits every key of `m` collects all of `m`. */
  lemma CollectAll<V>(order: seq<Id>, m: map<Id, V>)
    requires forall k :: k in m ==> k in order
    ensures Collect(order, |order|, m) == m
  {
    assert order[..|order|] == order;
  }

  /** A loop that writes the `n`-th key of the order exactly when `m` has it
      keeps its map equal to `a` overwritten by the visited keys' entries. */
  lemma CollectWrite<V>(a: map<Id, V>, order: seq<Id>, n: nat, m: map<Id, V>, before: map<Id, V>, after: map<Id, V>)
    requires 0 < n <= |order|
    requires before == a + Collect(order, n - 1, m)
    requires order[n - 1] in m ==> after == before[order[n - 1] := m[order[n - 1]]]
    requires order[n - 1] !in m ==> after == before
    ensures after == a + Collect(order, n, m)
  {
    CollectStep(order, n, m);
    var k := order[n - 1];
    if k in m {
      UpdateUnion(a, Collect(order, n - 1, m), k, m[k]);
    }
  }

  /** Writing a key after a union is writing it into the right operand. */
  lemma UpdateUnion<V>(a: map<Id, V>, b: map<Id, V>, k: Id, v: V)
    ensures (a + b)[k := v] == a + b[k := v]
  {
  }
}
