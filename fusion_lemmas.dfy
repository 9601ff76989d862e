/** What Steps 1-4 do, proved about the folds of module Fusion: each step's
    effect on the canonical map and the datadump equals an overwrite by an
    independently defined map, and the admission rules (location validity,
    capacity gate, fallback order, CARMA claims, tallies) follow. */
module FusionLemmas {
  import opened Wrappers
  import opened Records
  import opened Tallies
  import opened Fusion
  import opened PrefixMaps

  predicate AllGated(db: map<Id, Plant>) {
    forall k :: k in db ==> Gated(db[k])
  }

  predicate AllLocated(db: map<Id, Plant>) {
    forall k :: k in db ==> ValidLocation(db[k].location)
  }

  // ---------------------------------------------------------------------------
  // Step 1

  /** After `n` plants of one national database, the canonical map is the old
      one overwritten by the admitted plants among them, and the datadump the
      old one overwritten by all of them. */
  lemma {:induction false} NationalPlantsEffect(s: Snapshot, countryName: string, t: Table<Plant>, n: nat)
    requires t.WellOrdered() && n <= |t.order|
    ensures NationalPlants(s, countryName, t, n).database ==
              s.database + Collect(t.order, n, NationalAdmitted(countryName, t))
    ensures NationalPlants(s, countryName, t, n).datadump ==
              s.datadump + Collect(t.order, n, NationalDump(countryName, t))
  {
    if n == 0 {
      CollectNone(t.order, NationalAdmitted(countryName, t));
      CollectNone(t.order, NationalDump(countryName, t));
    } else {
      NationalPlantsEffect(s, countryName, t, n - 1);
      NationalPlantsStep(s, countryName, t, n);
    }
  }

  lemma NationalPlantsStep(s: Snapshot, countryName: string, t: Table<Plant>, n: nat)
    requires t.WellOrdered() && 0 < n <= |t.order|
    requires NationalPlants(s, countryName, t, n - 1).database ==
               s.database + Collect(t.order, n - 1, NationalAdmitted(countryName, t))
    requires NationalPlants(s, countryName, t, n - 1).datadump ==
               s.datadump + Collect(t.order, n - 1, NationalDump(countryName, t))
    ensures NationalPlants(s, countryName, t, n).database ==
              s.database + Collect(t.order, n, NationalAdmitted(countryName, t))
    ensures NationalPlants(s, countryName, t, n).datadump ==
              s.datadump + Collect(t.order, n, NationalDump(countryName, t))
  {
    var id := t.order[n - 1];
    var prev, next := NationalPlants(s, countryName, t, n - 1), NationalPlants(s, countryName, t, n);
    assert next == NationalPlant(prev, countryName, id, t.entries[id]);
    CollectWrite(s.database, t.order, n, NationalAdmitted(countryName, t), prev.database, next.database);
    CollectWrite(s.datadump, t.order, n, NationalDump(countryName, t), prev.datadump, next.datadump);
  }

  /** One whole national database (a dictionary the loop visits key by key). */
  lemma NationalSourceEffect(s: Snapshot, source: NationalSource)
    requires source.plants.Enumerated()
    ensures NationalSourceStep(s, source).database ==
              s.database + NationalAdmitted(source.countryName, source.plants)
    ensures NationalSourceStep(s, source).datadump ==
              s.datadump + NationalDump(source.countryName, source.plants)
  {
    var t := source.plants;
    NationalPlantsEffect(s, source.countryName, t, |t.order|);
    CollectAll(t.order, NationalAdmitted(source.countryName, t));
    CollectAll(t.order, NationalDump(source.countryName, t));
  }

  /** One national source keeps the gate, keeps every datadump key and dumps
      every plant it visits. */
  lemma NationalSourceGated(s: Snapshot, source: NationalSource)
    requires source.plants.WellOrdered() && AllGated(s.database)
    ensures AllGated(NationalSourceStep(s, source).database)
    ensures s.datadump.Keys <= NationalSourceStep(s, source).datadump.Keys
    ensures forall k :: k in source.plants.order ==> k in NationalSourceStep(s, source).datadump
  {
    var t, name := source.plants, source.countryName;
    NationalPlantsEffect(s, name, t, |t.order|);
    assert t.order[..|t.order|] == t.order;
    assert forall k :: k in Collect(t.order, |t.order|, NationalAdmitted(name, t)) ==>
             k in NationalAdmitted(name, t);
  }

  /** Step 1 admits only plants of at least the minimum capacity with a valid
      location, and every national plant ends up in the datadump. */
  lemma {:induction false} NationalStepGated(s: Snapshot, nationals: seq<NationalSource>, c: nat)
    requires NationalsWellOrdered(nationals) && c <= |nationals|
    requires AllGated(s.database)
    ensures AllGated(NationalStep(s, nationals, c).database)
    ensures s.datadump.Keys <= NationalStep(s, nationals, c).datadump.Keys
    ensures forall i, k :: 0 <= i < c && k in nationals[i].plants.order ==>
              k in NationalStep(s, nationals, c).datadump
  {
    if c > 0 {
      NationalStepGated(s, nationals, c - 1);
      var prev := NationalStep(s, nationals, c - 1);
      var r := NationalStep(s, nationals, c);
      assert r == NationalSourceStep(prev, nationals[c - 1]);
      NationalSourceGated(prev, nationals[c - 1]);
      assert prev.datadump.Keys <= r.datadump.Keys;
    }
  }

  /** The counters of one Step-1 plant: an admission adds one plant and its
      capacity to its country's bucket; nothing else changes. */
  lemma NationalPlantTally(s: Snapshot, countryName: string, id: Id, p: Plant)
    ensures var r := NationalPlant(s, countryName, id, p);
            && (Gated(p) ==>
                  TallyOf(r.additions, countryName) ==
                    Tally(TallyOf(s.additions, countryName).count + 1,
                          TallyOf(s.additions, countryName).capacity + p.capacity.value))
            && (!Gated(p) ==> r.additions == s.additions)
            && (forall b :: b != countryName ==> TallyOf(r.additions, b) == TallyOf(s.additions, b))
  {
  }

  /** One Step-1 plant: it is dumped with its country's label, under its own
      canonical id when gated and under `<id>,No` otherwise; only a gated plant
      enters the canonical map, as its dumped form. */
  lemma NationalPlantOutcome(s: Snapshot, countryName: string, id: Id, p: Plant)
    ensures var r := NationalPlant(s, countryName, id, p);
            && id in r.datadump && r.datadump[id].coordSource == NationalLabel(countryName)
            && r.datadump[id].idnr == (if Gated(p) then p.idnr else id + ",No")
            && (Gated(p) ==> id in r.database && r.database[id] == r.datadump[id])
            && (!Gated(p) ==> r.database == s.database && r.additions == s.additions)
  {
  }

  // ---------------------------------------------------------------------------
  // Step 2

  /** After `n` WRI entries, the canonical map is the old one overwritten by
      the admitted entries, the datadump the old one overwritten by every
      entry that passed the four skip conditions (in its final form), and
      `carma_id_used` has gained the claimed CARMA ids in order. */
  lemma WriPlantsEffect(s: Snapshot, t: Table<WriRecord>, ctx: WriContext, n: nat)
    requires t.WellOrdered() && n <= |t.order|
    ensures WriPlants(s, t, ctx, n).database == s.database + Collect(t.order, n, WriAdmitted(t, ctx))
    ensures WriPlants(s, t, ctx, n).datadump == s.datadump + Collect(t.order, n, WriKept(t, ctx))
    ensures WriPlants(s, t, ctx, n).carmaIdUsed == s.carmaIdUsed + ClaimsUpTo(t, ctx, n)
  {
    WriPlantsDatabase(s, t, ctx, n);
    WriPlantsDatadump(s, t, ctx, n);
    WriPlantsClaims(s, t, ctx, n);
  }

  lemma {:induction false} WriPlantsDatabase(s: Snapshot, t: Table<WriRecord>, ctx: WriContext, n: nat)
    requires t.WellOrdered() && n <= |t.order|
    ensures WriPlants(s, t, ctx, n).database == s.database + Collect(t.order, n, WriAdmitted(t, ctx))
  {
    if n == 0 {
      CollectNone(t.order, WriAdmitted(t, ctx));
    } else {
      WriPlantsDatabase(s, t, ctx, n - 1);
      WriDatabaseStep(s, t, ctx, n);
    }
  }

  lemma WriDatabaseStep(s: Snapshot, t: Table<WriRecord>, ctx: WriContext, n: nat)
    requires t.WellOrdered() && 0 < n <= |t.order|
    requires WriPlants(s, t, ctx, n - 1).database == s.database + Collect(t.order, n - 1, WriAdmitted(t, ctx))
    ensures WriPlants(s, t, ctx, n).database == s.database + Collect(t.order, n, WriAdmitted(t, ctx))
  {
    var id := t.order[n - 1];
    WriEntryWrites(WriPlants(s, t, ctx, n - 1), id, t.entries[id], ctx);
    CollectWrite(s.database, t.order, n, WriAdmitted(t, ctx),
                 WriPlants(s, t, ctx, n - 1).database, WriPlants(s, t, ctx, n).database);
  }

  lemma {:induction false} WriPlantsDatadump(s: Snapshot, t: Table<WriRecord>, ctx: WriContext, n: nat)
    requires t.WellOrdered() && n <= |t.order|
    ensures WriPlants(s, t, ctx, n).datadump == s.datadump + Collect(t.order, n, WriKept(t, ctx))
  {
    if n == 0 {
      CollectNone(t.order, WriKept(t, ctx));
    } else {
      WriPlantsDatadump(s, t, ctx, n - 1);
      WriDatadumpStep(s, t, ctx, n);
    }
  }

  lemma WriDatadumpStep(s: Snapshot, t: Table<WriRecord>, ctx: WriContext, n: nat)
    requires t.WellOrdered() && 0 < n <= |t.order|
    requires WriPlants(s, t, ctx, n - 1).datadump == s.datadump + Collect(t.order, n - 1, WriKept(t, ctx))
    ensures WriPlants(s, t, ctx, n).datadump == s.datadump + Collect(t.order, n, WriKept(t, ctx))
  {
    var id := t.order[n - 1];
    WriEntryWrites(WriPlants(s, t, ctx, n - 1), id, t.entries[id], ctx);
    CollectWrite(s.datadump, t.order, n, WriKept(t, ctx),
                 WriPlants(s, t, ctx, n - 1).datadump, WriPlants(s, t, ctx, n).datadump);
  }

  /** What one WRI entry writes into the canonical map, the datadump and
      `carma_id_used`. */
  lemma WriEntryWrites(prev: Snapshot, id: Id, r: WriRecord, ctx: WriContext)
    ensures var o := WriTriage(id, r, ctx);
            var s' := WriPlant(prev, id, r, ctx);
            && s'.database == (if o.Admitted? then prev.database[id := o.plant] else prev.database)
            && s'.datadump == (if o.Skipped? then prev.datadump else prev.datadump[id := o.plant])
            && s'.carmaIdUsed == prev.carmaIdUsed + (if o.Admitted? then o.claimed.ToSeq() else [])
  {
  }

  lemma {:induction false} WriPlantsClaims(s: Snapshot, t: Table<WriRecord>, ctx: WriContext, n: nat)
    requires t.WellOrdered() && n <= |t.order|
    ensures WriPlants(s, t, ctx, n).carmaIdUsed == s.carmaIdUsed + ClaimsUpTo(t, ctx, n)
  {
    if n > 0 {
      WriPlantsClaims(s, t, ctx, n - 1);
      WriClaimsStep(s, t, ctx, n);
    }
  }

  lemma WriClaimsStep(s: Snapshot, t: Table<WriRecord>, ctx: WriContext, n: nat)
    requires t.WellOrdered() && 0 < n <= |t.order|
    requires WriPlants(s, t, ctx, n - 1).carmaIdUsed == s.carmaIdUsed + ClaimsUpTo(t, ctx, n - 1)
    ensures WriPlants(s, t, ctx, n).carmaIdUsed == s.carmaIdUsed + ClaimsUpTo(t, ctx, n)
  {
    var id := t.order[n - 1];
    var o := WriTriage(id, t.entries[id], ctx);
    var claimed := if o.Admitted? then o.claimed.ToSeq() else [];
    WriEntryWrites(WriPlants(s, t, ctx, n - 1), id, t.entries[id], ctx);
    assert ClaimsUpTo(t, ctx, n) == ClaimsUpTo(t, ctx, n - 1) + claimed;
    assert s.carmaIdUsed + ClaimsUpTo(t, ctx, n - 1) + claimed ==
           s.carmaIdUsed + (ClaimsUpTo(t, ctx, n - 1) + claimed);
  }

  /** `carma_id_used` holds a CARMA id exactly when some WRI entry took its
      location from that CARMA plant; nothing stops two entries from taking
      the same one. */
  lemma {:induction false} ClaimsMembership(t: Table<WriRecord>, ctx: WriContext, n: nat, c: Id)
    requires t.WellOrdered() && n <= |t.order|
    ensures c in ClaimsUpTo(t, ctx, n) <==>
              exists i :: 0 <= i < n && ClaimsCarma(t.order[i], t.entries[t.order[i]], ctx, c)
  {
    if n > 0 {
      ClaimsMembership(t, ctx, n - 1, c);
      var k := t.order[n - 1];
      var o := WriTriage(k, t.entries[k], ctx);
      var added := if o.Admitted? then o.claimed.ToSeq() else [];
      assert c in added <==> ClaimsCarma(k, t.entries[k], ctx, c);
      if c in ClaimsUpTo(t, ctx, n) && !(c in added) {
        assert c in ClaimsUpTo(t, ctx, n - 1);
      }
    }
  }

  /** Step 2 admits only plants of at least the minimum capacity with a valid location. */
  lemma WriStepGated(s: Snapshot, t: Table<WriRecord>, ctx: WriContext)
    requires t.WellOrdered() && AllGated(s.database)
    ensures AllGated(WriPlants(s, t, ctx, |t.order|).database)
  {
    WriPlantsEffect(s, t, ctx, |t.order|);
    assert forall k :: k in Collect(t.order, |t.order|, WriAdmitted(t, ctx)) ==> k in WriAdmitted(t, ctx);
  }

  /** A WRI entry that is not a plant, has an unknown country, or belongs to a
      country served by a national feed or by GEO changes neither map at its
      id: Step 2 never overwrites what Step 1 stored for such a plant. */
  lemma WriLeavesOtherTiers(s: Snapshot, t: Table<WriRecord>, ctx: WriContext, k: Id)
    requires t.WellOrdered()
    requires k !in t.entries || WriFiltered(t.entries[k], ctx.countries)
    ensures var r := WriPlants(s, t, ctx, |t.order|);
            && (k in r.database <==> k in s.database) && (k in s.database ==> r.database[k] == s.database[k])
            && (k in r.datadump <==> k in s.datadump) && (k in s.datadump ==> r.datadump[k] == s.datadump[k])
  {
    WriPlantsEffect(s, t, ctx, |t.order|);
    assert k !in WriKept(t, ctx) && k !in WriAdmitted(t, ctx);
  }

  /** The counters of one WRI entry: an admission adds one plant and its
      capacity to the bucket of the location source used; nothing else changes. */
  lemma WriPlantTally(s: Snapshot, id: Id, r: WriRecord, ctx: WriContext)
    ensures var o := WriTriage(id, r, ctx);
            var s' := WriPlant(s, id, r, ctx);
            && (o.Admitted? ==>
                  TallyOf(s'.additions, o.bucket) ==
                    Tally(TallyOf(s.additions, o.bucket).count + 1,
                          TallyOf(s.additions, o.bucket).capacity + r.plant.capacity.value)
                  && forall b :: b != o.bucket ==> TallyOf(s'.additions, b) == TallyOf(s.additions, b))
            && (!o.Admitted? ==> s'.additions == s.additions)
  {
  }

  /** Recording one triage outcome: a skipped entry touches neither map, any
      other is dumped as triaged, and only an admitted one enters the canonical
      map and records its CARMA claim; the log gains the outcome's event unless
      it was admitted. */
  lemma ApplyWriOutcome(s: Snapshot, id: Id, o: WriOutcome)
    requires o.Admitted? ==> o.plant.capacity.Some?
    ensures var r := ApplyWri(s, id, o);
            && (o.Skipped? ==> r.database == s.database && r.datadump == s.datadump)
            && (!o.Skipped? ==> id in r.datadump && r.datadump[id] == o.plant)
            && (o.Admitted? ==> id in r.database && r.database[id] == o.plant &&
                                r.carmaIdUsed == s.carmaIdUsed + o.claimed.ToSeq())
            && (!o.Admitted? ==> r.database == s.database && r.additions == s.additions &&
                                 r.carmaIdUsed == s.carmaIdUsed)
            && r.log == s.log + (if o.Admitted? then [] else o.event.ToSeq())
  {
  }

  /** A kept entry's outcome overwrites whatever the datadump held for it. */
  lemma ApplyWriOverwritesDump(s: Snapshot, id: Id, p: Plant, o: WriOutcome)
    requires !o.Skipped? && (o.Admitted? ==> o.plant.capacity.Some?)
    ensures ApplyWri(s.(datadump := s.datadump[id := p]), id, o) == ApplyWri(s, id, o)
  {
    assert s.datadump[id := p][id := o.plant] == s.datadump[id := o.plant];
  }

  /** One WRI entry: a filtered entry changes nothing but the log; any other
      is dumped with its own capacity; a newly canonical plant is gated and
      stored as dumped. */
  lemma WriPlantOutcome(s: Snapshot, id: Id, r: WriRecord, ctx: WriContext)
    ensures var s' := WriPlant(s, id, r, ctx);
            && (WriFiltered(r, ctx.countries) ==>
                  s'.database == s.database && s'.datadump == s.datadump &&
                  s'.additions == s.additions && s'.carmaIdUsed == s.carmaIdUsed)
            && (!WriFiltered(r, ctx.countries) ==>
                  id in s'.datadump && s'.datadump[id].capacity == r.plant.capacity)
            && (id in s'.database && id !in s.database ==>
                  Gated(s'.database[id]) && s'.database[id] == s'.datadump[id])
  {
  }

  // ---------------------------------------------------------------------------
  // Step 2: the fallback order of one WRI plant

  /** A WRI plant that passes the skip conditions and the capacity cutoff. */
  predicate WriCandidate(r: WriRecord, ctx: WriContext) {
    !WriFiltered(r, ctx.countries) && AtLeastMinimum(r.plant.capacity)
  }

  /** The skip conditions come first, then the capacity cutoff (after the
      plant has entered the datadump). */
  lemma WriSkipsAndCutoff(id: Id, r: WriRecord, ctx: WriContext)
    ensures WriTriage(id, r, ctx).Skipped? <==> WriFiltered(r, ctx.countries)
    ensures !WriFiltered(r, ctx.countries) && BelowMinimum(r.plant.capacity) ==>
              WriTriage(id, r, ctx) == DumpOnly(r.plant, None)
    ensures WriTriage(id, r, ctx).Admitted? ==> WriCandidate(r, ctx)
    ensures r.OtherObject? ==> WriTriage(id, r, ctx) == Skipped(Some(NotAPowerPlant(id)))
    ensures r.PowerPlant? && r.plant.country !in ctx.countries ==>
              WriTriage(id, r, ctx) == Skipped(Some(CountryNotRecognized(r.plant.country)))
    ensures r.PowerPlant? && r.plant.country in ctx.countries && WriFiltered(r, ctx.countries) ==>
              WriTriage(id, r, ctx) == Skipped(None)
  {
  }

  /** A plant with its own valid location is admitted with it, as WRI data,
      and no location is borrowed. */
  lemma WriOwnLocationFirst(id: Id, r: WriRecord, ctx: WriContext)
    requires WriCandidate(r, ctx) && ValidLocation(r.plant.location)
    ensures WriTriage(id, r, ctx) ==
              Admitted(r.plant.(idnr := id, coordSource := WriLabel), WriBucket, None)
  {
  }

  /** A matched GEO id missing from the GEO database ends the triage: the
      plant stays out of the canonical map whatever CARMA holds. */
  lemma WriMissingGeoStops(id: Id, r: WriRecord, ctx: WriContext, otherCarma: map<Id, Plant>)
    requires WriCandidate(r, ctx) && !ValidLocation(r.plant.location)
    requires id in ctx.concordance && PresentId(ctx.concordance[id].geoId)
    requires ctx.concordance[id].geoId.value !in ctx.geo
    ensures WriTriage(id, r, ctx) == DumpOnly(r.plant, Some(NoGeoLocation(id, ctx.concordance[id].geoId.value)))
    ensures WriTriage(id, r, ctx) == WriTriage(id, r, ctx.(carma := otherCarma))
  {
  }

  /** A matched GEO plant without a usable location hands the plant, now
      carrying that GEO location, on to the CARMA attempt. */
  lemma WriGeoFallsThrough(id: Id, r: WriRecord, ctx: WriContext)
    requires WriCandidate(r, ctx) && !ValidLocation(r.plant.location)
    requires id in ctx.concordance && PresentId(ctx.concordance[id].geoId)
    requires ctx.concordance[id].geoId.value in ctx.geo
    requires !HasLatLong(ctx.geo[ctx.concordance[id].geoId.value].location)
    ensures WriTriage(id, r, ctx) ==
              BorrowCarma(id, r.plant.(location := ctx.geo[ctx.concordance[id].geoId.value].location), ctx)
  {
  }

  /** A candidate without a valid location of its own, whose matched GEO plant
      exists with truthy coordinates, is admitted with that location as GEO data. */
  lemma WriGeoAdmission(id: Id, r: WriRecord, ctx: WriContext)
    requires WriCandidate(r, ctx) && !ValidLocation(r.plant.location)
    requires GeoMatchLocated(id, ctx)
    ensures WriTriage(id, r, ctx) ==
              Admitted(r.plant.(location := ctx.geo[ctx.concordance[id].geoId.value].location,
                                idnr := id, coordSource := GeoLabel),
                       WriGeoBucket, None)
  {
  }

  /** Without a GEO match, such a candidate goes straight to the CARMA attempt. */
  lemma WriNoGeoMatchTriesCarma(id: Id, r: WriRecord, ctx: WriContext)
    requires WriCandidate(r, ctx) && !ValidLocation(r.plant.location)
    requires !GeoMatched(id, ctx)
    ensures WriTriage(id, r, ctx) == BorrowCarma(id, r.plant, ctx)
  {
  }

  /** A candidate that gets no location from itself or from GEO (no GEO match,
      or a GEO plant without truthy coordinates), and whose matched CARMA plant
      exists with truthy coordinates, is admitted with the CARMA location and
      claims that CARMA id. */
  lemma WriCarmaAdmission(id: Id, r: WriRecord, ctx: WriContext)
    requires WriCandidate(r, ctx) && !ValidLocation(r.plant.location)
    requires !GeoMatched(id, ctx) ||
             (ctx.concordance[id].geoId.value in ctx.geo &&
              !HasLatLong(ctx.geo[ctx.concordance[id].geoId.value].location))
    requires CarmaMatchLocated(id, ctx)
    ensures WriTriage(id, r, ctx) ==
              Admitted(r.plant.(location := ctx.carma[ctx.concordance[id].carmaId.value].location,
                                idnr := id, coordSource := CarmaLabel),
                       WriCarmaBucket, ctx.concordance[id].carmaId)
  {
    if GeoMatched(id, ctx) {
      var moved := r.plant.(location := ctx.geo[ctx.concordance[id].geoId.value].location);
      assert WriTriage(id, r, ctx) == BorrowCarma(id, moved, ctx);
      assert moved.(location := ctx.carma[ctx.concordance[id].carmaId.value].location) ==
             r.plant.(location := ctx.carma[ctx.concordance[id].carmaId.value].location);
    } else {
      WriNoGeoMatchTriesCarma(id, r, ctx);
    }
  }

  /** Without a CARMA match, Step 2.3 leaves the plant, as it reached it, only
      in the datadump. */
  lemma WriNoCarmaMatch(id: Id, plant: Plant, ctx: WriContext)
    requires !(id in ctx.concordance && PresentId(ctx.concordance[id].carmaId))
    ensures BorrowCarma(id, plant, ctx) == DumpOnly(plant, None)
  {
  }

  /** A matched CARMA id missing from the CARMA database logs a matching error
      and leaves the plant, as it reached Step 2.3, only in the datadump. */
  lemma WriMissingCarmaStops(id: Id, plant: Plant, ctx: WriContext)
    requires id in ctx.concordance && PresentId(ctx.concordance[id].carmaId)
    requires ctx.concordance[id].carmaId.value !in ctx.carma
    ensures BorrowCarma(id, plant, ctx) ==
              DumpOnly(plant, Some(NoCarmaLocation(id, ctx.concordance[id].carmaId.value)))
  {
  }

  /** A matched CARMA plant without truthy coordinates leaves the plant only in
      the datadump, now carrying that CARMA location, and nothing is logged. */
  lemma WriCarmaWithoutLocation(id: Id, plant: Plant, ctx: WriContext)
    requires id in ctx.concordance && PresentId(ctx.concordance[id].carmaId)
    requires ctx.concordance[id].carmaId.value in ctx.carma
    requires !HasLatLong(ctx.carma[ctx.concordance[id].carmaId.value].location)
    ensures BorrowCarma(id, plant, ctx) ==
              DumpOnly(plant.(location := ctx.carma[ctx.concordance[id].carmaId.value].location), None)
  {
  }

  /** An admitted WRI plant carries the location of the record it was taken
      from, with the matching label and bucket. */
  lemma WriAdmissionProvenance(id: Id, r: WriRecord, ctx: WriContext)
    requires WriTriage(id, r, ctx).Admitted?
    ensures var o := WriTriage(id, r, ctx);
            || (&& o.bucket == WriBucket && o.plant.coordSource == WriLabel
                && o.plant.location == r.plant.location && o.claimed.None?)
            || (&& o.bucket == WriGeoBucket && o.plant.coordSource == GeoLabel
                && id in ctx.concordance && ctx.concordance[id].geoId.Some?
                && ctx.concordance[id].geoId.value in ctx.geo
                && o.plant.location == ctx.geo[ctx.concordance[id].geoId.value].location
                && o.claimed.None?)
            || (&& o.bucket == WriCarmaBucket && o.plant.coordSource == CarmaLabel
                && id in ctx.concordance && ctx.concordance[id].carmaId.Some?
                && ctx.concordance[id].carmaId.value in ctx.carma
                && o.plant.location == ctx.carma[ctx.concordance[id].carmaId.value].location
                && o.claimed == ctx.concordance[id].carmaId)
  {
  }

  // ---------------------------------------------------------------------------
  // Step 3

  /** After `n` GEO plants, the canonical map is the old one overwritten by the
      admitted ones and the datadump the old one overwritten by all of them. */
  lemma {:induction false} GeoPlantsEffect(s: Snapshot, t: Table<Plant>, countries: map<string, Country>, n: nat)
    requires t.WellOrdered() && n <= |t.order|
    ensures GeoPlants(s, t, countries, n).database == s.database + Collect(t.order, n, GeoAdmitted(t, countries))
    ensures GeoPlants(s, t, countries, n).datadump == s.datadump + Collect(t.order, n, GeoDump(t, countries))
  {
    if n == 0 {
      CollectNone(t.order, GeoAdmitted(t, countries));
      CollectNone(t.order, GeoDump(t, countries));
    } else {
      GeoPlantsEffect(s, t, countries, n - 1);
      GeoPlantsStep(s, t, countries, n);
    }
  }

  lemma GeoPlantsStep(s: Snapshot, t: Table<Plant>, countries: map<string, Country>, n: nat)
    requires t.WellOrdered() && 0 < n <= |t.order|
    requires GeoPlants(s, t, countries, n - 1).database == s.database + Collect(t.order, n - 1, GeoAdmitted(t, countries))
    requires GeoPlants(s, t, countries, n - 1).datadump == s.datadump + Collect(t.order, n - 1, GeoDump(t, countries))
    ensures GeoPlants(s, t, countries, n).database == s.database + Collect(t.order, n, GeoAdmitted(t, countries))
    ensures GeoPlants(s, t, countries, n).datadump == s.datadump + Collect(t.order, n, GeoDump(t, countries))
  {
    var id := t.order[n - 1];
    var prev, next := GeoPlants(s, t, countries, n - 1), GeoPlants(s, t, countries, n);
    assert next == GeoPlant(prev, id, t.entries[id], countries);
    CollectWrite(s.database, t.order, n, GeoAdmitted(t, countries), prev.database, next.database);
    CollectWrite(s.datadump, t.order, n, GeoDump(t, countries), prev.datadump, next.datadump);
  }

  /** The counters of one GEO plant: an admission always counts, and adds its
      capacity only when there is a number to add. */
  lemma GeoPlantTally(s: Snapshot, id: Id, p: Plant, countries: map<string, Country>)
    ensures var r := GeoPlant(s, id, p, countries);
            && (GeoAdmits(p, countries) ==>
                  && TallyOf(r.additions, GeoBucket).count == TallyOf(s.additions, GeoBucket).count + 1
                  && TallyOf(r.additions, GeoBucket).capacity ==
                       TallyOf(s.additions, GeoBucket).capacity + (if p.capacity.Some? then p.capacity.value else 0.0)
                  && (p.capacity.None? <==> r.log == s.log + [InvalidGeoCapacity(id)]))
            && (!GeoAdmits(p, countries) ==> r.additions == s.additions && r.log == s.log)
            && (forall b :: b != GeoBucket ==> TallyOf(r.additions, b) == TallyOf(s.additions, b))
  {
  }

  /** One Step-3 plant is always dumped; an admitted one enters the canonical
      map tagged as GEO, an unadmitted one is dumped as read; `carma_id_used`
      is untouched. */
  lemma GeoPlantOutcome(s: Snapshot, id: Id, p: Plant, countries: map<string, Country>)
    ensures var r := GeoPlant(s, id, p, countries);
            && r.carmaIdUsed == s.carmaIdUsed
            && id in r.datadump
            && (GeoAdmits(p, countries) ==> id in r.database && r.database[id] == GeoTagged(id, p) == r.datadump[id])
            && (!GeoAdmits(p, countries) ==> r.database == s.database && r.datadump[id] == p)
  {
  }

  // ---------------------------------------------------------------------------
  // Step 4

  /** The counters of one SourceWatch plant that does not stop the run: a
      located plant adds one plant and its capacity to the SourceWatch bucket,
      an unlocated one changes no counter, and no other bucket changes. */
  lemma SourceWatchPlantTally(s: Snapshot, id: Id, p: Plant)
    requires SourceWatchPlant(s, id, p).Success?
    ensures var r := SourceWatchPlant(s, id, p).value;
            && (ValidLocation(p.location) ==>
                  TallyOf(r.additions, SourceWatchBucket) ==
                    Tally(TallyOf(s.additions, SourceWatchBucket).count + 1,
                          TallyOf(s.additions, SourceWatchBucket).capacity + p.capacity.value))
            && (!ValidLocation(p.location) ==> r.additions == s.additions)
            && (forall b :: b != SourceWatchBucket ==> TallyOf(r.additions, b) == TallyOf(s.additions, b))
  {
  }

  /** One Step-4 plant stops the run, reporting its own id, exactly when it has
      a valid location and no capacity; otherwise it is dumped, and a located
      one overwrites the canonical entry tagged as SourceWatch, while
      `carma_id_used` and the log are untouched. */
  lemma SourceWatchPlantOutcome(s: Snapshot, id: Id, p: Plant)
    ensures var r := SourceWatchPlant(s, id, p);
            && (r.Failure? <==> StopsRun(p))
            && (r.Failure? ==> r.error == id)
            && (r.Success? ==> r.value.carmaIdUsed == s.carmaIdUsed && r.value.log == s.log && id in r.value.datadump)
            && (r.Success? && ValidLocation(p.location) ==>
                  id in r.value.database && r.value.database[id] == SourceWatchTagged(p) == r.value.datadump[id])
            && (r.Success? && !ValidLocation(p.location) ==>
                  r.value.database == s.database && r.value.datadump[id] == p)
  {
  }

  /** After `n` SourceWatch plants the run is still going exactly when none of
      them stopped it; then the canonical map is the old one overwritten by
      every located SourceWatch plant among them, and the datadump the old
      one overwritten by all of them. */
  lemma {:induction false} SourceWatchPlantsEffect(s: Snapshot, t: Table<Plant>, n: nat)
    requires t.WellOrdered() && n <= |t.order|
    ensures SourceWatchPlants(s, t, n).Success? <==> forall k :: k in t.order[..n] ==> !StopsRun(t.entries[k])
    ensures SourceWatchPlants(s, t, n).Success? ==>
              && SourceWatchPlants(s, t, n).value.database == s.database + Collect(t.order, n, SourceWatchAdmitted(t))
              && SourceWatchPlants(s, t, n).value.datadump == s.datadump + Collect(t.order, n, SourceWatchDump(t))
  {
    if n == 0 {
      CollectNone(t.order, SourceWatchAdmitted(t));
      CollectNone(t.order, SourceWatchDump(t));
    } else {
      SourceWatchPlantsEffect(s, t, n - 1);
      SourceWatchStopsStep(s, t, n);
      if SourceWatchPlants(s, t, n).Success? {
        SourceWatchMapsStep(s, t, n);
      }
    }
  }

  lemma SourceWatchStopsStep(s: Snapshot, t: Table<Plant>, n: nat)
    requires t.WellOrdered() && 0 < n <= |t.order|
    requires SourceWatchPlants(s, t, n - 1).Success? <==> forall k :: k in t.order[..n - 1] ==> !StopsRun(t.entries[k])
    ensures SourceWatchPlants(s, t, n).Success? <==> forall k :: k in t.order[..n] ==> !StopsRun(t.entries[k])
  {
    var id := t.order[n - 1];
    assert t.order[..n] == t.order[..n - 1] + [id];
    assert forall k :: k in t.order[..n] <==> k in t.order[..n - 1] || k == id;
  }

  lemma SourceWatchMapsStep(s: Snapshot, t: Table<Plant>, n: nat)
    requires t.WellOrdered() && 0 < n <= |t.order|
    requires SourceWatchPlants(s, t, n - 1).Success? ==>
               && SourceWatchPlants(s, t, n - 1).value.database == s.database + Collect(t.order, n - 1, SourceWatchAdmitted(t))
               && SourceWatchPlants(s, t, n - 1).value.datadump == s.datadump + Collect(t.order, n - 1, SourceWatchDump(t))
    requires SourceWatchPlants(s, t, n).Success?
    ensures SourceWatchPlants(s, t, n).value.database == s.database + Collect(t.order, n, SourceWatchAdmitted(t))
    ensures SourceWatchPlants(s, t, n).value.datadump == s.datadump + Collect(t.order, n, SourceWatchDump(t))
  {
    var id := t.order[n - 1];
    var prev, next := SourceWatchPlants(s, t, n - 1), SourceWatchPlants(s, t, n);
    assert prev.Success? && next == SourceWatchPlant(prev.value, id, t.entries[id]);
    CollectWrite(s.database, t.order, n, SourceWatchAdmitted(t), prev.value.database, next.value.database);
    CollectWrite(s.datadump, t.order, n, SourceWatchDump(t), prev.value.datadump, next.value.datadump);
  }

  /** Step 4 on the whole SourceWatch dictionary. */
  lemma SourceWatchEffect(s: Snapshot, t: Table<Plant>)
    requires t.Enumerated()
    ensures SourceWatchPlants(s, t, |t.order|).Success? <==> forall k :: k in t.entries ==> !StopsRun(t.entries[k])
    ensures SourceWatchPlants(s, t, |t.order|).Success? ==>
              && SourceWatchPlants(s, t, |t.order|).value.database == s.database + SourceWatchAdmitted(t)
              && SourceWatchPlants(s, t, |t.order|).value.datadump == s.datadump + SourceWatchDump(t)
  {
    SourceWatchPlantsEffect(s, t, |t.order|);
    CollectAll(t.order, SourceWatchAdmitted(t));
    CollectAll(t.order, SourceWatchDump(t));
    assert t.order[..|t.order|] == t.order;
  }

  /** Once a SourceWatch plant stops the run, later plants change nothing. */
  lemma {:induction false} FailureIsFinal(s: Snapshot, t: Table<Plant>, m: nat, n: nat)
    requires t.WellOrdered() && m <= n <= |t.order|
    requires SourceWatchPlants(s, t, m).Failure?
    ensures SourceWatchPlants(s, t, n) == SourceWatchPlants(s, t, m)
    decreases n - m
  {
    if m < n {
      FailureIsFinal(s, t, m, n - 1);
    }
  }

  // ---------------------------------------------------------------------------
  // CARMA ids are not reserved

  /** Two WRI plants of a country that is neither API- nor GEO-routed, with
      no location of their own and both matched to CARMA plant "C1". */
  function ReuseWri(): Table<WriRecord> {
    var p := Plant("Atlantis", Some(10.0), Location(None, None), "", "");
    Table(map["W1" := PowerPlant(p), "W2" := PowerPlant(p)], ["W1", "W2"])
  }

  function ReuseContext(): WriContext {
    WriContext(
      map["Atlantis" := Country("ATL", false, false)],
      map["W1" := Match(None, Some("C1")), "W2" := Match(None, Some("C1"))],
      map[],
      map["C1" := Plant("Atlantis", None, Location(Some(5.0), Some(7.0)), "", "")])
  }

  /** Step 2.3 never consults the ids already claimed: both plants take the
      coordinates of the same CARMA plant, and its id is recorded twice. */
  lemma CarmaIdClaimedTwice(s: Snapshot)
    ensures var r := WriPlants(s, ReuseWri(), ReuseContext(), 2);
            && "W1" in r.database && "W2" in r.database
            && r.database["W1"].location == Location(Some(5.0), Some(7.0))
            && r.database["W2"].location == Location(Some(5.0), Some(7.0))
            && r.carmaIdUsed == s.carmaIdUsed + ["C1", "C1"]
  {
    var t, ctx := ReuseWri(), ReuseContext();
    ReuseTriage();
    assert t.order[0] == "W1" && t.order[1] == "W2";
    assert Some("C1").ToSeq() == ["C1"];
    assert WriPlants(s, t, ctx, 0) == s;
    var r1 := WriPlants(s, t, ctx, 1);
    assert r1 == WriPlant(s, "W1", t.entries["W1"], ctx);
    WriEntryWrites(s, "W1", t.entries["W1"], ctx);
    assert WriPlants(s, t, ctx, 2) == WriPlant(r1, "W2", t.entries["W2"], ctx);
    WriEntryWrites(r1, "W2", t.entries["W2"], ctx);
  }

  /** Both plants of `ReuseWri` are admitted with the coordinates of "C1". */
  lemma ReuseTriage()
    ensures forall k :: k in ReuseWri().entries ==>
              var o := WriTriage(k, ReuseWri().entries[k], ReuseContext());
              o.Admitted? && o.claimed == Some("C1") && o.plant.location == Location(Some(5.0), Some(7.0))
  {
    var t, ctx := ReuseWri(), ReuseContext();
    assert t.entries.Keys == {"W1", "W2"};
    assert WriTriage("W1", t.entries["W1"], ctx).claimed == Some("C1");
    assert WriTriage("W2", t.entries["W2"], ctx).claimed == Some("C1");
  }
}
