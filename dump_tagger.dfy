/** Step 7 of the build (dump mode only): label every datadump plant with
    whether it reached the canonical map, then add the CARMA plants whose ids
    Step 2.3 did not claim. */
module DumpTagger {
  import opened Records
  import opened PrefixMaps

  /** `idnr` becomes `id,Yes` for an id of the canonical map, `id,No` otherwise. */
  function Tag(id: Id, p: Plant, canonicalIds: set<Id>): Plant {
    p.(idnr := id + (if id in canonicalIds then ",Yes" else ",No"))
  }

  /** Step 7.1 on the whole datadump. */
  function Labelled(dump: map<Id, Plant>, canonicalIds: set<Id>): (r: map<Id, Plant>)
    ensures r.Keys == dump.Keys
    ensures forall k :: k in r ==> r[k].(idnr := dump[k].idnr) == dump[k]
  {
    map k | k in dump :: Tag(k, dump[k], canonicalIds)
  }

  /** How Step 7.2 stores an unclaimed CARMA plant. */
  function CarmaDumped(id: Id, p: Plant): Plant {
    p.(coordSource := CarmaLabel, idnr := id + ",No")
  }

  /** The loop of Step 7.2 after the first `n` CARMA plants. */
  function WithUnusedCarmaUpTo(dump: map<Id, Plant>, carma: Table<Plant>, used: seq<Id>, n: nat): (r: map<Id, Plant>)
    requires carma.WellOrdered() && n <= |carma.order|
    ensures dump.Keys <= r.Keys
  {
    if n == 0 then dump
    else
      var d := WithUnusedCarmaUpTo(dump, carma, used, n - 1);
      var id := carma.order[n - 1];
      if id in used then d else d[id := CarmaDumped(id, carma.entries[id])]
  }

  function WithUnusedCarma(dump: map<Id, Plant>, carma: Table<Plant>, used: seq<Id>): (r: map<Id, Plant>)
    requires carma.WellOrdered()
    ensures dump.Keys <= r.Keys
  {
    WithUnusedCarmaUpTo(dump, carma, used, |carma.order|)
  }

  /** Step 7.1 keeps the keys and every field but `idnr`, and `idnr` says
      whether the id is canonical. */
  lemma LabelledSaysAdmitted(dump: map<Id, Plant>, canonicalIds: set<Id>, k: Id)
    requires k in dump
    ensures Labelled(dump, canonicalIds).Keys == dump.Keys
    ensures Labelled(dump, canonicalIds)[k] == dump[k].(idnr := Labelled(dump, canonicalIds)[k].idnr)
    ensures Labelled(dump, canonicalIds)[k].idnr == k + ",Yes" <==> k in canonicalIds
    ensures Labelled(dump, canonicalIds)[k].idnr == k + ",No" <==> k !in canonicalIds
  {
    var yes, no := k + ",Yes", k + ",No";
    assert yes[|k| + 1] == 'Y' && no[|k| + 1] == 'N';
  }

  /** The CARMA plants whose ids were never claimed, as Step 7.2 stores them. */
  function Unclaimed(carma: Table<Plant>, used: seq<Id>): map<Id, Plant> {
    map k | k in carma.entries && k !in used :: CarmaDumped(k, carma.entries[k])
  }

  /** Step 7.2 overwrites (or adds) exactly the unclaimed CARMA ids and leaves
      every other datadump entry as it was. */
  lemma {:induction false} UnusedCarmaUpToEffect(dump: map<Id, Plant>, carma: Table<Plant>, used: seq<Id>, n: nat)
    requires carma.WellOrdered() && n <= |carma.order|
    ensures WithUnusedCarmaUpTo(dump, carma, used, n) == dump + Collect(carma.order, n, Unclaimed(carma, used))
  {
    var m := Unclaimed(carma, used);
    if n == 0 {
      CollectNone(carma.order, m);
    } else {
      var id := carma.order[n - 1];
      UnusedCarmaUpToEffect(dump, carma, used, n - 1);
      CollectStep(carma.order, n, m);
      if id !in used {
        assert id in m;
        UpdateUnion(dump, Collect(carma.order, n - 1, m), id, m[id]);
      }
    }
  }

  /** Step 7.2 as a whole: the datadump gains (or has overwritten) exactly the
      CARMA plants whose ids are not in `carma_id_used`. */
  lemma UnusedCarmaEffect(dump: map<Id, Plant>, carma: Table<Plant>, used: seq<Id>)
    requires carma.WellOrdered()
    ensures var r := WithUnusedCarma(dump, carma, used);
            && (forall k :: k in r <==> k in dump || (k in carma.order && k !in used))
            && (forall k :: k in carma.order && k !in used ==> r[k] == CarmaDumped(k, carma.entries[k]))
            && (forall k :: k in dump && (k !in carma.order || k in used) ==> r[k] == dump[k])
  {
    UnusedCarmaUpToEffect(dump, carma, used, |carma.order|);
    assert carma.order[..|carma.order|] == carma.order;
    assert forall k :: k in carma.order && k !in used ==> k in Unclaimed(carma, used);
  }
}
