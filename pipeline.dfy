/** The whole build: Steps 1-4 in order, then (in dump mode) Step 7, and what
    the run as a whole guarantees about the canonical map and the datadump. */
module Pipeline {
  import opened Wrappers
  import opened Records
  import opened Tallies
  import opened Fusion
  import opened FusionLemmas
  import opened PrefixMaps
  import DumpTagger
  import Engine

  /** Everything the build loads before Step 1. */
  datatype Inputs = Inputs(
    countries: map<string, Country>,
    concordance: map<Id, Match>,
    nationals: seq<NationalSource>,
    wri: Table<WriRecord>,
    geo: Table<Plant>,
    carma: Table<Plant>,
    sourcewatch: Table<Plant>)
  {
    /** Each dictionary is iterated once over its keys; the national
        databases are keyed by distinct names of known countries (Step 1
        looks each name up in the country dictionary and would stop the run
        on an unknown one). */
    predicate WellFormed() {
      && (forall i :: 0 <= i < |nationals| ==> nationals[i].countryName in countries)
      && (forall i :: 0 <= i < |nationals| ==> nationals[i].plants.Enumerated())
      && (forall i, j :: 0 <= i < j < |nationals| ==> nationals[i].countryName != nationals[j].countryName)
      && wri.Enumerated() && geo.Enumerated() && carma.Enumerated() && sourcewatch.Enumerated()
    }

    function Context(): WriContext {
      WriContext(countries, concordance, geo.entries, carma.entries)
    }
  }

  /** What the build writes: the canonical map, the counters, the log and,
      in dump mode, the labelled datadump. */
  datatype Output = Output(
    database: map<Id, Plant>,
    additions: map<string, Tally>,
    log: seq<LogEvent>,
    datadump: Option<map<Id, Plant>>)

  function NationalNames(nationals: seq<NationalSource>): (names: set<string>)
    ensures forall i :: 0 <= i < |nationals| ==> nationals[i].countryName in names
  {
    set i | 0 <= i < |nationals| :: nationals[i].countryName
  }

  /** The keys of `database_additions`. */
  function Buckets(nationals: seq<NationalSource>): set<string> {
    NationalNames(nationals) + FixedBuckets()
  }

  // The state after each step.
  function AfterNational(inp: Inputs): Snapshot
    requires inp.WellFormed()
  {
    NationalStep(Initial(Buckets(inp.nationals)), inp.nationals, |inp.nationals|)
  }

  function AfterWri(inp: Inputs): Snapshot
    requires inp.WellFormed()
  {
    WriPlants(AfterNational(inp), inp.wri, inp.Context(), |inp.wri.order|)
  }

  function AfterGeo(inp: Inputs): Snapshot
    requires inp.WellFormed()
  {
    GeoPlants(AfterWri(inp), inp.geo, inp.countries, |inp.geo.order|)
  }

  /** Steps 1-4, or the SourceWatch plant whose missing capacity stops the run. */
  function Fused(inp: Inputs): Result<Snapshot, Id>
    requires inp.WellFormed()
  {
    SourceWatchPlants(AfterGeo(inp), inp.sourcewatch, |inp.sourcewatch.order|)
  }

  /** Step 7: label the datadump, then add the unclaimed CARMA plants. */
  function Dumped(s: Snapshot, carma: Table<Plant>): map<Id, Plant>
    requires carma.WellOrdered()
  {
    DumpTagger.WithUnusedCarma(DumpTagger.Labelled(s.datadump, s.database.Keys), carma, s.carmaIdUsed)
  }

  /** The run. Step 5 (generation estimates) is not modelled; it is assumed to
      neither add nor remove keys. */
  function Run(inp: Inputs, dumpMode: bool): (r: Result<Output, Id>)
    requires inp.WellFormed()
    ensures r.Failure? ==> r.error in inp.sourcewatch.entries && StopsRun(inp.sourcewatch.entries[r.error])
    ensures r.Success? ==> (r.value.datadump.Some? <==> dumpMode)
  {
    match Fused(inp)
    case Failure(id) => Failure(id)
    case Success(s) =>
      Success(Output(s.database, s.additions, s.log, if dumpMode then Some(Dumped(s, inp.carma)) else None))
  }

  /** The build, step by step on one engine object. */
  method BuildPowerWatch(inp: Inputs, dumpMode: bool) returns (result: Result<Output, Id>)
    requires inp.WellFormed()
    ensures result == Run(inp, dumpMode)
  {
    var engine := new Engine.FusionEngine(Buckets(inp.nationals));
    engine.AddNationalSources(inp.nationals);
    engine.AddWriPlants(inp.wri, inp.Context());
    engine.AddGeoPlants(inp.geo, inp.countries);
    var crashedOn := engine.AddSourceWatchPlants(inp.sourcewatch);
    if crashedOn.Some? {
      return Failure(crashedOn.value);
    }
    var database, additions, log := engine.database, engine.additions, engine.log;
    var datadump := None;
    if dumpMode {
      engine.LabelDatadump();
      engine.AddUnusedCarma(inp.carma);
      datadump := Some(engine.datadump);
    }
    result := Success(Output(database, additions, log, datadump));
  }

  // ---------------------------------------------------------------------------
  // What holds of every run

  /** The run stops exactly when some SourceWatch plant with a valid location
      has no numeric capacity. */
  lemma RunStopsExactly(inp: Inputs, dumpMode: bool)
    requires inp.WellFormed()
    ensures Run(inp, dumpMode).Failure? <==>
              exists k :: k in inp.sourcewatch.entries && StopsRun(inp.sourcewatch.entries[k])
  {
    SourceWatchEffect(AfterGeo(inp), inp.sourcewatch);
  }

  /** Steps 1 and 2 together leave only gated entries. */
  lemma AfterWriGated(inp: Inputs)
    requires inp.WellFormed()
    ensures AllGated(AfterWri(inp).database)
  {
    NationalStepGated(Initial(Buckets(inp.nationals)), inp.nationals, |inp.nationals|);
    WriStepGated(AfterNational(inp), inp.wri, inp.Context());
  }

  /** Every canonical entry passed the capacity gate of Steps 1 and 2, or is
      a GEO plant admitted by Step 3, or a SourceWatch plant written by Step 4:
      the only two steps without a capacity gate. */
  lemma RunCapacityGate(inp: Inputs, dumpMode: bool)
    requires inp.WellFormed() && Run(inp, dumpMode).Success?
    ensures var db := Run(inp, dumpMode).value.database;
            forall k :: k in db ==>
              || Gated(db[k])
              || (k in GeoAdmitted(inp.geo, inp.countries) && db[k] == GeoAdmitted(inp.geo, inp.countries)[k])
              || (k in SourceWatchAdmitted(inp.sourcewatch) && db[k] == SourceWatchAdmitted(inp.sourcewatch)[k])
  {
    AfterWriGated(inp);
    GeoPlantsEffect(AfterWri(inp), inp.geo, inp.countries, |inp.geo.order|);
    CollectAll(inp.geo.order, GeoAdmitted(inp.geo, inp.countries));
    SourceWatchEffect(AfterGeo(inp), inp.sourcewatch);
  }

  /** Every canonical entry has both coordinates present and non-zero. */
  lemma RunDatabaseLocated(inp: Inputs, dumpMode: bool)
    requires inp.WellFormed() && Run(inp, dumpMode).Success?
    ensures AllLocated(Run(inp, dumpMode).value.database)
  {
    RunCapacityGate(inp, dumpMode);
  }

  /** Every SourceWatch plant with a valid location ends up in the canonical
      map as SourceWatch data, whatever an earlier step stored under its id;
      the other ids keep what Steps 1-3 stored. */
  lemma RunSourceWatchOverride(inp: Inputs, dumpMode: bool)
    requires inp.WellFormed() && Run(inp, dumpMode).Success?
    ensures var db := Run(inp, dumpMode).value.database;
            && (forall k :: k in inp.sourcewatch.entries && ValidLocation(inp.sourcewatch.entries[k].location) ==>
                  k in db && db[k] == inp.sourcewatch.entries[k].(coordSource := SourceWatchLabel))
            && (forall k :: k in AfterGeo(inp).database && k !in SourceWatchAdmitted(inp.sourcewatch) ==>
                  k in db && db[k] == AfterGeo(inp).database[k])
  {
    SourceWatchEffect(AfterGeo(inp), inp.sourcewatch);
  }

  /** A GEO plant of a GEO-routed country with a valid location is admitted
      whatever its capacity, unless SourceWatch overwrites its id. */
  lemma RunGeoWithoutCapacityGate(inp: Inputs, dumpMode: bool, k: Id)
    requires inp.WellFormed() && Run(inp, dumpMode).Success?
    requires k in inp.geo.entries && GeoAdmits(inp.geo.entries[k], inp.countries)
    requires k !in SourceWatchAdmitted(inp.sourcewatch)
    ensures k in Run(inp, dumpMode).value.database
    ensures Run(inp, dumpMode).value.database[k] == GeoTagged(k, inp.geo.entries[k])
  {
    GeoPlantsEffect(AfterWri(inp), inp.geo, inp.countries, |inp.geo.order|);
    CollectAll(inp.geo.order, GeoAdmitted(inp.geo, inp.countries));
    SourceWatchEffect(AfterGeo(inp), inp.sourcewatch);
  }

  /** A WRI plant Step 2 admits stays canonical, in the form Step 2 gave it,
      unless a GEO plant of a GEO-routed country or a located SourceWatch
      plant has the same id. */
  lemma RunWriAdmission(inp: Inputs, dumpMode: bool, k: Id)
    requires inp.WellFormed() && Run(inp, dumpMode).Success?
    requires k in inp.wri.entries && WriTriage(k, inp.wri.entries[k], inp.Context()).Admitted?
    requires k !in GeoAdmitted(inp.geo, inp.countries) && k !in SourceWatchAdmitted(inp.sourcewatch)
    ensures k in Run(inp, dumpMode).value.database
    ensures Run(inp, dumpMode).value.database[k] == WriTriage(k, inp.wri.entries[k], inp.Context()).plant
  {
    WriPlantsEffect(AfterNational(inp), inp.wri, inp.Context(), |inp.wri.order|);
    CollectAll(inp.wri.order, WriAdmitted(inp.wri, inp.Context()));
    assert k in WriAdmitted(inp.wri, inp.Context());
    GeoPlantsEffect(AfterWri(inp), inp.geo, inp.countries, |inp.geo.order|);
    CollectAll(inp.geo.order, GeoAdmitted(inp.geo, inp.countries));
    SourceWatchEffect(AfterGeo(inp), inp.sourcewatch);
  }

  /** The counters keep exactly the buckets they started with: no step
      touches a bucket `database_additions` does not have. */
  lemma RunTallyBuckets(inp: Inputs, dumpMode: bool)
    requires inp.WellFormed() && Run(inp, dumpMode).Success?
    ensures Run(inp, dumpMode).value.additions.Keys == Buckets(inp.nationals)
  {
  }

  // ---------------------------------------------------------------------------
  // The datadump

  /** The datadump only grows, step by step, and each step adds the keys it
      dumps: every national plant, every WRI plant that passed the four skip
      conditions, every GEO plant (unrecognised countries included) and every
      SourceWatch plant. */
  lemma NationalDumpCoverage(inp: Inputs)
    requires inp.WellFormed()
    ensures forall i, k :: 0 <= i < |inp.nationals| && k in inp.nationals[i].plants.entries ==>
              k in AfterNational(inp).datadump
  {
    NationalStepGated(Initial(Buckets(inp.nationals)), inp.nationals, |inp.nationals|);
  }

  lemma WriDumpCoverage(inp: Inputs)
    requires inp.WellFormed()
    ensures AfterNational(inp).datadump.Keys <= AfterWri(inp).datadump.Keys
    ensures forall k :: k in inp.wri.entries && !WriFiltered(inp.wri.entries[k], inp.countries) ==>
              k in AfterWri(inp).datadump
  {
    WriPlantsEffect(AfterNational(inp), inp.wri, inp.Context(), |inp.wri.order|);
    CollectAll(inp.wri.order, WriKept(inp.wri, inp.Context()));
    forall k | k in inp.wri.entries && !WriFiltered(inp.wri.entries[k], inp.countries)
      ensures k in WriKept(inp.wri, inp.Context())
    {
      WriSkipsAndCutoff(k, inp.wri.entries[k], inp.Context());
    }
  }

  lemma GeoDumpCoverage(inp: Inputs)
    requires inp.WellFormed()
    ensures AfterWri(inp).datadump.Keys <= AfterGeo(inp).datadump.Keys
    ensures forall k :: k in inp.geo.entries ==> k in AfterGeo(inp).datadump
  {
    GeoPlantsEffect(AfterWri(inp), inp.geo, inp.countries, |inp.geo.order|);
    CollectAll(inp.geo.order, GeoDump(inp.geo, inp.countries));
  }

  lemma FusedDumpCoverage(inp: Inputs)
    requires inp.WellFormed() && Fused(inp).Success?
    ensures var dump := Fused(inp).value.datadump;
            && (forall i, k :: 0 <= i < |inp.nationals| && k in inp.nationals[i].plants.entries ==> k in dump)
            && (forall k :: k in inp.wri.entries && !WriFiltered(inp.wri.entries[k], inp.countries) ==> k in dump)
            && (forall k :: k in inp.geo.entries ==> k in dump)
            && (forall k :: k in inp.sourcewatch.entries ==> k in dump)
  {
    NationalDumpCoverage(inp);
    WriDumpCoverage(inp);
    GeoDumpCoverage(inp);
    SourceWatchEffect(AfterGeo(inp), inp.sourcewatch);
    assert AfterGeo(inp).datadump.Keys <= Fused(inp).value.datadump.Keys;
  }

  /** In dump mode the datadump holds an entry for the id of every national
      plant, every WRI plant that passed the four skip conditions, every GEO
      and SourceWatch plant and every CARMA plant whose id Step 2.3 did not
      claim (an id written by several sources keeps the last write). The
      unclaimed CARMA plants always say `id,No`; every other entry says
      `id,Yes` exactly for ids of the canonical map and `id,No` otherwise. */
  lemma RunDumpLabels(inp: Inputs)
    requires inp.WellFormed() && Run(inp, true).Success?
    ensures var out := Run(inp, true).value;
            var used := Fused(inp).value.carmaIdUsed;
            var dump := out.datadump.value;
            && (forall k :: k in inp.carma.entries && k !in used ==>
                  k in dump && dump[k] == DumpTagger.CarmaDumped(k, inp.carma.entries[k]))
            && (forall k :: k in dump && !(k in inp.carma.entries && k !in used) ==>
                  (dump[k].idnr == k + ",Yes" <==> k in out.database) &&
                  (dump[k].idnr == k + ",No" <==> k !in out.database))
            && (forall i, k :: 0 <= i < |inp.nationals| && k in inp.nationals[i].plants.entries ==> k in dump)
            && (forall k :: k in inp.wri.entries && !WriFiltered(inp.wri.entries[k], inp.countries) ==> k in dump)
            && (forall k :: k in inp.geo.entries ==> k in dump)
            && (forall k :: k in inp.sourcewatch.entries ==> k in dump)
  {
    var s := Fused(inp).value;
    FusedDumpCoverage(inp);
    var labelled := DumpTagger.Labelled(s.datadump, s.database.Keys);
    DumpTagger.UnusedCarmaEffect(labelled, inp.carma, s.carmaIdUsed);
    forall k | k in s.datadump
      ensures (labelled[k].idnr == k + ",Yes" <==> k in s.database)
      ensures (labelled[k].idnr == k + ",No" <==> k !in s.database)
    {
      DumpTagger.LabelledSaysAdmitted(s.datadump, s.database.Keys, k);
    }
  }
}
