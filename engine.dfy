/** The build as the source runs it: one object owning the dictionaries,
    list and counters that the module-level loops update in place, with one
    method per step. Each method is proved to leave the state that the
    corresponding fold of module Fusion describes. */
module Engine {
  import opened Wrappers
  import opened Records
  import opened Tallies
  import opened Fusion
  import DumpTagger
  import FusionLemmas

  class FusionEngine {
    var database: map<Id, Plant>
    var datadump: map<Id, Plant>
    var carmaIdUsed: seq<Id>
    var additions: map<string, Tally>
    var log: seq<LogEvent>

    /** The abstract value of the engine. */
    function State(): Snapshot
      reads this
    {
      Snapshot(database, datadump, carmaIdUsed, additions, log)
    }

    constructor (buckets: set<string>)
      ensures State() == Initial(buckets)
    {
      database := map[];
      datadump := map[];
      carmaIdUsed := [];
      additions := InitialTallies(buckets);
      log := [];
    }

    /** The body of the inner loop of Step 1, for one plant of one national database. */
    method AddNationalPlant(countryName: string, plantId: Id, source: Plant)
      modifies this
      ensures State() == NationalPlant(old(State()), countryName, plantId, source)
    {
      var plant := source.(coordSource := NationalLabel(countryName));
      datadump := datadump[plantId := plant];
      if AtLeastMinimum(plant.capacity) {
        if ValidLocation(plant.location) {
          database := database[plantId := plant];
          additions := Increment(additions, countryName);
          additions := AddCapacity(additions, countryName, plant.capacity.value);
        } else {
          // the datadump holds the same object, so it sees the new label
          plant := plant.(idnr := plantId + ",No");
          datadump := datadump[plantId := plant];
          assert datadump == old(datadump)[plantId := plant];
        }
      } else {
        plant := plant.(idnr := plantId + ",No");
        datadump := datadump[plantId := plant];
        assert datadump == old(datadump)[plantId := plant];
      }
    }

    /** Step 1: every plant of every national database enters the datadump;
        the ones of at least the minimum capacity with a valid location are
        admitted under their country's label. */
    method AddNationalSources(nationals: seq<NationalSource>)
      requires NationalsWellOrdered(nationals)
      modifies this
      ensures State() == NationalStep(old(State()), nationals, |nationals|)
    {
      for c := 0 to |nationals|
        invariant State() == NationalStep(old(State()), nationals, c)
      {
        var countryName := nationals[c].countryName;
        var plants := nationals[c].plants;
        ghost var before := State();
        for j := 0 to |plants.order|
          invariant State() == NationalPlants(before, countryName, plants, j)
        {
          var plantId := plants.order[j];
          AddNationalPlant(countryName, plantId, plants.entries[plantId]);
        }
      }
    }

    /** The body of the loop of Step 2, for one WRI entry; each `return` is a
        `continue` of the source. */
    method TriageWriPlant(plantId: Id, entry: WriRecord, ctx: WriContext)
      modifies this
      ensures State() == WriPlant(old(State()), plantId, entry, ctx)
    {
      // cases to skip
      if entry.OtherObject? {
        log := log + [NotAPowerPlant(plantId)];
        return;
      }
      var plant := entry.plant;
      if plant.country !in ctx.countries {
        log := log + [CountryNotRecognized(plant.country)];
        return;
      }
      if ctx.countries[plant.country].hasApi {
        return;
      }
      if ctx.countries[plant.country].useGeo {
        return;
      }

      datadump := datadump[plantId := plant];

      if BelowMinimum(plant.capacity) {
        return;
      }

      // Step 2.1: the plant's own location
      if ValidLocation(plant.location) {
        plant := plant.(idnr := plantId, coordSource := WriLabel);
        database := database[plantId := plant];
        datadump := datadump[plantId := plant];
        assert datadump == old(datadump)[plantId := plant];
        additions := Increment(additions, WriBucket);
        additions := AddCapacity(additions, WriBucket, plant.capacity.value);
        return;
      }
      assert WriTriage(plantId, entry, ctx) == BorrowGeo(plantId, plant, ctx);
      FusionLemmas.ApplyWriOverwritesDump(old(State()), plantId, plant, BorrowGeo(plantId, plant, ctx));
      TryGeoLocation(plantId, plant, ctx);
    }

    /** Step 2.2: the location of the matched GEO plant, else Step 2.3. */
    method TryGeoLocation(plantId: Id, plant: Plant, ctx: WriContext)
      requires AtLeastMinimum(plant.capacity)
      requires plantId in datadump && datadump[plantId] == plant
      modifies this
      ensures State() == ApplyWri(old(State()), plantId, BorrowGeo(plantId, plant, ctx))
    {
      ghost var wriPlant := plant;
      var plant := plant;
      if plantId in ctx.concordance {
        var matchingGeoId := ctx.concordance[plantId].geoId;
        if PresentId(matchingGeoId) {
          if matchingGeoId.value !in ctx.geo {
            log := log + [NoGeoLocation(plantId, matchingGeoId.value)];
            return;
          }
          plant := plant.(location := ctx.geo[matchingGeoId.value].location);
          datadump := datadump[plantId := plant];
          if HasLatLong(plant.location) {
            plant := plant.(idnr := plantId, coordSource := GeoLabel);
            database := database[plantId := plant];
            datadump := datadump[plantId := plant];
            assert datadump == old(datadump)[plantId := plant];
            additions := Increment(additions, WriGeoBucket);
            additions := AddCapacity(additions, WriGeoBucket, plant.capacity.value);
            return;
          }
          assert BorrowGeo(plantId, wriPlant, ctx) == BorrowCarma(plantId, plant, ctx);
          FusionLemmas.ApplyWriOverwritesDump(old(State()), plantId, plant, BorrowCarma(plantId, plant, ctx));
        }
      }
      TryCarmaLocation(plantId, plant, ctx);
    }

    /** Step 2.3: the location of the matched CARMA plant. */
    method TryCarmaLocation(plantId: Id, plant: Plant, ctx: WriContext)
      requires AtLeastMinimum(plant.capacity)
      requires plantId in datadump && datadump[plantId] == plant
      modifies this
      ensures State() == ApplyWri(old(State()), plantId, BorrowCarma(plantId, plant, ctx))
    {
      var plant := plant;
      if plantId in ctx.concordance {
        var matchingCarmaId := ctx.concordance[plantId].carmaId;
        if PresentId(matchingCarmaId) {
          if matchingCarmaId.value !in ctx.carma {
            log := log + [NoCarmaLocation(plantId, matchingCarmaId.value)];
            assert datadump == old(datadump)[plantId := plant];
            return;
          }
          plant := plant.(location := ctx.carma[matchingCarmaId.value].location);
          datadump := datadump[plantId := plant];
          if HasLatLong(plant.location) {
            plant := plant.(idnr := plantId, coordSource := CarmaLabel);
            database := database[plantId := plant];
            datadump := datadump[plantId := plant];
            carmaIdUsed := carmaIdUsed + [matchingCarmaId.value];
            additions := Increment(additions, WriCarmaBucket);
            additions := AddCapacity(additions, WriCarmaBucket, plant.capacity.value);
            assert datadump == old(datadump)[plantId := plant];
            return;
          }
        }
      }
      assert datadump == old(datadump)[plantId := plant];
    }

    /** Step 2: triage of the WRI database. */
    method AddWriPlants(wri: Table<WriRecord>, ctx: WriContext)
      requires wri.WellOrdered()
      modifies this
      ensures State() == WriPlants(old(State()), wri, ctx, |wri.order|)
    {
      for i := 0 to |wri.order|
        invariant State() == WriPlants(old(State()), wri, ctx, i)
      {
        var plantId := wri.order[i];
        TriageWriPlant(plantId, wri.entries[plantId], ctx);
      }
    }

    /** The body of the loop of Step 3, for one GEO plant. */
    method AddGeoPlant(plantId: Id, source: Plant, countries: map<string, Country>)
      modifies this
      ensures State() == GeoPlant(old(State()), plantId, source, countries)
    {
      var plant := source;
      datadump := datadump[plantId := plant];
      if plant.country !in countries {
        return;
      }
      if countries[plant.country].useGeo {
        if ValidLocation(plant.location) {
          plant := plant.(coordSource := GeoLabel, idnr := plantId);
          database := database[plantId := plant];
          datadump := datadump[plantId := plant];
          assert datadump == old(datadump)[plantId := plant];
          additions := Increment(additions, GeoBucket);
          if plant.capacity.Some? {
            additions := AddCapacity(additions, GeoBucket, plant.capacity.value);
          } else {
            log := log + [InvalidGeoCapacity(plantId)];
          }
        }
      }
    }

    /** Step 3: GEO plants of countries routed to GEO, with no capacity gate. */
    method AddGeoPlants(geo: Table<Plant>, countries: map<string, Country>)
      requires geo.WellOrdered()
      modifies this
      ensures State() == GeoPlants(old(State()), geo, countries, |geo.order|)
    {
      for i := 0 to |geo.order|
        invariant State() == GeoPlants(old(State()), geo, countries, i)
      {
        var plantId := geo.order[i];
        AddGeoPlant(plantId, geo.entries[plantId], countries);
      }
    }

    /** The body of the loop of Step 4, for one SourceWatch plant; `false`
        when adding its capacity raises the uncaught TypeError of `0 + None`. */
    method AddSourceWatchPlant(plantId: Id, source: Plant) returns (ok: bool)
      modifies this
      ensures ok <==> SourceWatchPlant(old(State()), plantId, source).Success?
      ensures ok ==> SourceWatchPlant(old(State()), plantId, source) == Success(State())
    {
      var plant := source;
      datadump := datadump[plantId := plant];
      if ValidLocation(plant.location) {
        plant := plant.(coordSource := SourceWatchLabel);
        datadump := datadump[plantId := plant];
        database := database[plantId := plant];
        additions := Increment(additions, SourceWatchBucket);
        if plant.capacity.None? {
          return false;
        }
        additions := AddCapacity(additions, SourceWatchBucket, plant.capacity.value);
        assert datadump == old(datadump)[plantId := SourceWatchTagged(source)];
      }
      return true;
    }

    /** Step 4: the SourceWatch overlay. Returns the id of the plant whose
        missing capacity stops the run, if there is one. */
    method AddSourceWatchPlants(sourcewatch: Table<Plant>) returns (crashedOn: Option<Id>)
      requires sourcewatch.WellOrdered()
      modifies this
      ensures crashedOn.None? ==>
                SourceWatchPlants(old(State()), sourcewatch, |sourcewatch.order|) == Success(State())
      ensures crashedOn.Some? ==>
                SourceWatchPlants(old(State()), sourcewatch, |sourcewatch.order|) == Failure(crashedOn.value)
    {
      for i := 0 to |sourcewatch.order|
        invariant SourceWatchPlants(old(State()), sourcewatch, i) == Success(State())
      {
        var plantId := sourcewatch.order[i];
        var ok := AddSourceWatchPlant(plantId, sourcewatch.entries[plantId]);
        if !ok {
          FusionLemmas.FailureIsFinal(old(State()), sourcewatch, i + 1, |sourcewatch.order|);
          return Some(plantId);
        }
      }
      return None;
    }

    /** Step 7.1: label every datadump plant with whether its id is a key of
        the canonical map. */
    method LabelDatadump()
      modifies this
      ensures datadump == DumpTagger.Labelled(old(datadump), database.Keys)
      ensures database == old(database) && carmaIdUsed == old(carmaIdUsed)
      ensures additions == old(additions) && log == old(log)
    {
      var pwIdnrs := database.Keys;
      ghost var original := datadump;
      var remaining := datadump.Keys;
      while remaining != {}
        invariant database == old(database) && carmaIdUsed == old(carmaIdUsed)
        invariant additions == old(additions) && log == old(log)
        invariant remaining <= original.Keys && datadump.Keys == original.Keys
        invariant forall k :: k in remaining ==> datadump[k] == original[k]
        invariant forall k :: k in original && k !in remaining ==>
                    datadump[k] == DumpTagger.Tag(k, original[k], pwIdnrs)
        decreases remaining
      {
        var plantId :| plantId in remaining;
        datadump := datadump[plantId := DumpTagger.Tag(plantId, datadump[plantId], pwIdnrs)];
        remaining := remaining - {plantId};
      }
    }

    /** Step 7.2: add every CARMA plant whose id was never claimed in Step 2.3. */
    method AddUnusedCarma(carma: Table<Plant>)
      requires carma.WellOrdered()
      modifies this
      ensures datadump == DumpTagger.WithUnusedCarma(old(datadump), carma, carmaIdUsed)
      ensures database == old(database) && carmaIdUsed == old(carmaIdUsed)
      ensures additions == old(additions) && log == old(log)
    {
      for i := 0 to |carma.order|
        invariant database == old(database) && carmaIdUsed == old(carmaIdUsed)
        invariant additions == old(additions) && log == old(log)
        invariant datadump == DumpTagger.WithUnusedCarmaUpTo(old(datadump), carma, carmaIdUsed, i)
      {
        var plantId := carma.order[i];
        var plant := carma.entries[plantId].(coordSource := CarmaLabel);
        if plantId in carmaIdUsed {
          continue;
        }
        plant := plant.(idnr := plantId + ",No");
        datadump := datadump[plantId := plant];
      }
    }
  }
}
