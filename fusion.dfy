/** Steps 1-4 of the PowerWatch build as functions: the effect of one source
    plant on the build state, and folds of those effects over the first `n`
    keys of a source's iteration order (what the loops of the build have done
    after `n` iterations). */
module Fusion {
  import opened Wrappers
  import opened Records
  import opened Tallies

  /** Everything the build updates: the canonical map `powerwatch_database`,
      the audit map `powerwatch_datadump`, the list `carma_id_used`, the
      counters `database_additions` and the log file. */
  datatype Snapshot = Snapshot(
    database: map<Id, Plant>,
    datadump: map<Id, Plant>,
    carmaIdUsed: seq<Id>,
    additions: map<string, Tally>,
    log: seq<LogEvent>)

  /** The state before Step 1: empty maps, no claimed CARMA id, zero counters. */
  function Initial(buckets: set<string>): (s: Snapshot)
    ensures s.database == map[] && s.datadump == map[] && s.carmaIdUsed == [] && s.log == []
    ensures s.additions.Keys == buckets
  {
    Snapshot(map[], map[], [], InitialTallies(buckets), [])
  }

  // ---------------------------------------------------------------------------
  // Step 1: national databases

  /** The plant as Step 1 records it, with its national provenance label. */
  function NationalTagged(countryName: string, p: Plant): Plant {
    p.(coordSource := NationalLabel(countryName))
  }

  /** What Step 1 leaves in the datadump for a plant: a rejected one carries `id,No`. */
  function NationalDumped(countryName: string, id: Id, p: Plant): Plant {
    if Gated(p) then NationalTagged(countryName, p)
    else NationalTagged(countryName, p).(idnr := id + ",No")
  }

  /** The plants of one national database that Step 1 admits, as it stores them. */
  function NationalAdmitted(countryName: string, t: Table<Plant>): map<Id, Plant> {
    map k | k in t.entries && Gated(t.entries[k]) :: NationalTagged(countryName, t.entries[k])
  }

  /** Every plant of one national database, as Step 1 leaves it in the datadump. */
  function NationalDump(countryName: string, t: Table<Plant>): map<Id, Plant> {
    map k | k in t.entries :: NationalDumped(countryName, k, t.entries[k])
  }

  /** The body of Step 1's inner loop: every plant is dumped with the
      national label, and only a gated one becomes canonical. */
  function NationalPlant(s: Snapshot, countryName: string, id: Id, p: Plant): (r: Snapshot)
    ensures r.carmaIdUsed == s.carmaIdUsed && r.log == s.log
  {
    var s' := s.(datadump := s.datadump[id := NationalDumped(countryName, id, p)]);
    if Gated(p) then
      s'.(database := s.database[id := NationalTagged(countryName, p)],
          additions := Admit(s.additions, countryName, p.capacity.value))
    else s'
  }

  /** The inner loop of Step 1 after `n` plants of one national database. */
  function NationalPlants(s: Snapshot, countryName: string, t: Table<Plant>, n: nat): (r: Snapshot)
    requires t.WellOrdered() && n <= |t.order|
    ensures r.carmaIdUsed == s.carmaIdUsed && r.log == s.log
    ensures countryName in s.additions ==> r.additions.Keys == s.additions.Keys
    ensures forall b :: b != countryName ==> TallyOf(r.additions, b) == TallyOf(s.additions, b)
  {
    if n == 0 then s
    else
      var id := t.order[n - 1];
      NationalPlant(NationalPlants(s, countryName, t, n - 1), countryName, id, t.entries[id])
  }

  predicate NationalsWellOrdered(nationals: seq<NationalSource>) {
    forall i :: 0 <= i < |nationals| ==> nationals[i].plants.WellOrdered()
  }

  /** One iteration of Step 1's outer loop: a whole national database. */
  function NationalSourceStep(s: Snapshot, source: NationalSource): (r: Snapshot)
    requires source.plants.WellOrdered()
    ensures r.carmaIdUsed == s.carmaIdUsed && r.log == s.log
    ensures forall b :: b != source.countryName ==> TallyOf(r.additions, b) == TallyOf(s.additions, b)
  {
    NationalPlants(s, source.countryName, source.plants, |source.plants.order|)
  }

  /** Step 1 after the first `c` national databases. */
  function NationalStep(s: Snapshot, nationals: seq<NationalSource>, c: nat): (r: Snapshot)
    requires NationalsWellOrdered(nationals) && c <= |nationals|
    ensures r.carmaIdUsed == s.carmaIdUsed && r.log == s.log
    ensures (forall i :: 0 <= i < c ==> nationals[i].countryName in s.additions) ==>
              r.additions.Keys == s.additions.Keys
    ensures forall b :: (forall i :: 0 <= i < c ==> nationals[i].countryName != b) ==>
              TallyOf(r.additions, b) == TallyOf(s.additions, b)
  {
    if c == 0 then s
    else NationalSourceStep(NationalStep(s, nationals, c - 1), nationals[c - 1])
  }

  // ---------------------------------------------------------------------------
  // Step 2: the WRI database

  /** The read-only dictionaries Step 2 consults. */
  datatype WriContext = WriContext(
    countries: map<string, Country>,
    concordance: map<Id, Match>,
    geo: map<Id, Plant>,
    carma: map<Id, Plant>)

  /** What Step 2 does with one WRI entry: nothing but (maybe) a log line,
      record it in the datadump only, or admit it to a bucket (claiming a
      CARMA id when its location came from CARMA). */
  datatype WriOutcome =
    | Skipped(event: Option<LogEvent>)
    | DumpOnly(plant: Plant, event: Option<LogEvent>)
    | Admitted(plant: Plant, bucket: string, claimed: Option<Id>)

  /** The four skip conditions checked before the plant enters the datadump. */
  predicate WriFiltered(r: WriRecord, countries: map<string, Country>) {
    || r.OtherObject?
    || r.plant.country !in countries
    || countries[r.plant.country].hasApi
    || countries[r.plant.country].useGeo
  }

  /** WRI plant `id` has a GEO match in the concordance. */
  predicate GeoMatched(id: Id, ctx: WriContext) {
    id in ctx.concordance && PresentId(ctx.concordance[id].geoId)
  }

  /** ... and the matched GEO plant exists with truthy coordinates. */
  predicate GeoMatchLocated(id: Id, ctx: WriContext) {
    GeoMatched(id, ctx) && ctx.concordance[id].geoId.value in ctx.geo &&
    HasLatLong(ctx.geo[ctx.concordance[id].geoId.value].location)
  }

  /** WRI plant `id` has a CARMA match that exists with truthy coordinates. */
  predicate CarmaMatchLocated(id: Id, ctx: WriContext) {
    id in ctx.concordance && PresentId(ctx.concordance[id].carmaId) &&
    ctx.concordance[id].carmaId.value in ctx.carma &&
    HasLatLong(ctx.carma[ctx.concordance[id].carmaId.value].location)
  }

  /** Step 2.3: borrow the location of the concordance-matched CARMA plant. */
  function BorrowCarma(id: Id, plant: Plant, ctx: WriContext): (o: WriOutcome)
    ensures o.Admitted? ==> HasLatLong(o.plant.location) && o.bucket == WriCarmaBucket
    ensures o.Admitted? ==> id in ctx.concordance && o.claimed.Some? && o.claimed == ctx.concordance[id].carmaId
    ensures o.Admitted? <==> CarmaMatchLocated(id, ctx)
    ensures CarmaMatchLocated(id, ctx) ==>
              var c := ctx.concordance[id].carmaId;
              o == Admitted(plant.(location := ctx.carma[c.value].location, idnr := id, coordSource := CarmaLabel),
                            WriCarmaBucket, c)
    ensures !o.Skipped? && o.plant.country == plant.country && o.plant.capacity == plant.capacity
  {
    if id in ctx.concordance && PresentId(ctx.concordance[id].carmaId) then
      var carmaId := ctx.concordance[id].carmaId.value;
      if carmaId !in ctx.carma then DumpOnly(plant, Some(NoCarmaLocation(id, carmaId)))
      else
        var moved := plant.(location := ctx.carma[carmaId].location);
        if HasLatLong(moved.location) then
          Admitted(moved.(idnr := id, coordSource := CarmaLabel), WriCarmaBucket, Some(carmaId))
        else DumpOnly(moved, None)
    else DumpOnly(plant, None)
  }

  /** Step 2.2: borrow the location of the concordance-matched GEO plant, else try CARMA. */
  function BorrowGeo(id: Id, plant: Plant, ctx: WriContext): (o: WriOutcome)
    ensures o.Admitted? ==> HasLatLong(o.plant.location)
    ensures o.Admitted? ==> (o.bucket == WriCarmaBucket <==> o.claimed.Some?)
    ensures o.Admitted? && o.claimed.Some? ==> o.claimed.value in ctx.carma
    ensures GeoMatchLocated(id, ctx) ==>
              var g := ctx.concordance[id].geoId.value;
              o == Admitted(plant.(location := ctx.geo[g].location, idnr := id, coordSource := GeoLabel),
                            WriGeoBucket, None)
    ensures !GeoMatched(id, ctx) ==> o == BorrowCarma(id, plant, ctx)
    ensures !o.Skipped? && o.plant.country == plant.country && o.plant.capacity == plant.capacity
  {
    if id in ctx.concordance && PresentId(ctx.concordance[id].geoId) then
      var geoId := ctx.concordance[id].geoId.value;
      if geoId !in ctx.geo then DumpOnly(plant, Some(NoGeoLocation(id, geoId)))
      else
        var moved := plant.(location := ctx.geo[geoId].location);
        if HasLatLong(moved.location) then
          Admitted(moved.(idnr := id, coordSource := GeoLabel), WriGeoBucket, None)
        else BorrowCarma(id, moved, ctx)
    else BorrowCarma(id, plant, ctx)
  }

  /** The triage of one WRI entry, in the order of the source's checks. */
  function WriTriage(id: Id, r: WriRecord, ctx: WriContext): (o: WriOutcome)
    ensures o.Skipped? <==> WriFiltered(r, ctx.countries)
    ensures o.Admitted? ==>
              && ValidLocation(o.plant.location)
              && AtLeastMinimum(o.plant.capacity)
              && o.plant.idnr == id
              && o.bucket in {WriBucket, WriGeoBucket, WriCarmaBucket}
              && (o.bucket == WriCarmaBucket <==> o.claimed.Some?)
    ensures o.Admitted? && o.claimed.Some? ==> o.claimed.value in ctx.carma
    ensures !o.Skipped? ==> o.plant.country == r.plant.country && o.plant.capacity == r.plant.capacity
  {
    if r.OtherObject? then Skipped(Some(NotAPowerPlant(id)))
    else
      var plant := r.plant;
      if plant.country !in ctx.countries then Skipped(Some(CountryNotRecognized(plant.country)))
      else if ctx.countries[plant.country].hasApi then Skipped(None)
      else if ctx.countries[plant.country].useGeo then Skipped(None)
      else if BelowMinimum(plant.capacity) then DumpOnly(plant, None)
      else if ValidLocation(plant.location) then
        Admitted(plant.(idnr := id, coordSource := WriLabel), WriBucket, None)
      else
        var o := BorrowGeo(id, plant, ctx);
        LocationTestsAgree(if o.Admitted? then o.plant.location else plant.location, plant.capacity);
        o
  }

  /** The state after the outcome of one WRI entry: a kept plant is stored
      in the datadump (and, when admitted, in the canonical map) in its final
      form, since both maps hold the object the triage goes on editing. */
  function ApplyWri(s: Snapshot, id: Id, o: WriOutcome): (r: Snapshot)
    requires o.Admitted? ==> o.plant.capacity.Some?
  {
    match o
    case Skipped(e) => s.(log := s.log + e.ToSeq())
    case DumpOnly(p, e) => s.(datadump := s.datadump[id := p], log := s.log + e.ToSeq())
    case Admitted(p, bucket, claimed) =>
      s.(database := s.database[id := p],
         datadump := s.datadump[id := p],
         additions := Admit(s.additions, bucket, p.capacity.value),
         carmaIdUsed := s.carmaIdUsed + claimed.ToSeq())
  }

  /** The WRI plants Step 2 admits, as it stores them. */
  function WriAdmitted(t: Table<WriRecord>, ctx: WriContext): map<Id, Plant> {
    map k | k in t.entries && WriTriage(k, t.entries[k], ctx).Admitted? :: WriTriage(k, t.entries[k], ctx).plant
  }

  /** The WRI plants Step 2 puts in the datadump, in their final form. */
  function WriKept(t: Table<WriRecord>, ctx: WriContext): map<Id, Plant> {
    map k | k in t.entries && !WriTriage(k, t.entries[k], ctx).Skipped? :: WriTriage(k, t.entries[k], ctx).plant
  }

  /** WRI entry `k` has its location from CARMA plant `c`. */
  predicate ClaimsCarma(k: Id, r: WriRecord, ctx: WriContext, c: Id) {
    var o := WriTriage(k, r, ctx);
    o.Admitted? && o.claimed == Some(c)
  }

  /** The CARMA ids the first `n` WRI entries claim, in iteration order. */
  function ClaimsUpTo(t: Table<WriRecord>, ctx: WriContext, n: nat): (claims: seq<Id>)
    requires t.WellOrdered() && n <= |t.order|
    ensures |claims| <= n
    ensures forall i :: 0 <= i < |claims| ==> claims[i] in ctx.carma
  {
    if n == 0 then []
    else
      var k := t.order[n - 1];
      var o := WriTriage(k, t.entries[k], ctx);
      ClaimsUpTo(t, ctx, n - 1) + (if o.Admitted? then o.claimed.ToSeq() else [])
  }

  /** The body of Step 2's loop, for one WRI entry. */
  function WriPlant(s: Snapshot, id: Id, r: WriRecord, ctx: WriContext): (s': Snapshot)
  {
    ApplyWri(s, id, WriTriage(id, r, ctx))
  }

  /** Step 2 after the first `n` WRI entries. */
  function WriPlants(s: Snapshot, t: Table<WriRecord>, ctx: WriContext, n: nat): (r: Snapshot)
    requires t.WellOrdered() && n <= |t.order|
    ensures |s.carmaIdUsed| <= |r.carmaIdUsed| && r.carmaIdUsed[..|s.carmaIdUsed|] == s.carmaIdUsed
    ensures {WriBucket, WriGeoBucket, WriCarmaBucket} <= s.additions.Keys ==>
              r.additions.Keys == s.additions.Keys
    ensures forall b :: b !in {WriBucket, WriGeoBucket, WriCarmaBucket} ==>
              TallyOf(r.additions, b) == TallyOf(s.additions, b)
  {
    if n == 0 then s
    else
      var id := t.order[n - 1];
      var s' := WriPlants(s, t, ctx, n - 1);
      var r := WriPlant(s', id, t.entries[id], ctx);
      assert r.carmaIdUsed[..|s'.carmaIdUsed|] == s'.carmaIdUsed;
      r
  }

  // ---------------------------------------------------------------------------
  // Step 3: GEO plants of GEO-routed countries (no capacity gate)

  predicate GeoAdmits(p: Plant, countries: map<string, Country>) {
    p.country in countries && countries[p.country].useGeo && ValidLocation(p.location)
  }

  function GeoTagged(id: Id, p: Plant): Plant {
    p.(coordSource := GeoLabel, idnr := id)
  }

  /** The GEO plants Step 3 admits, as it stores them. */
  function GeoAdmitted(t: Table<Plant>, countries: map<string, Country>): map<Id, Plant> {
    map k | k in t.entries && GeoAdmits(t.entries[k], countries) :: GeoTagged(k, t.entries[k])
  }

  /** Every GEO plant, as Step 3 leaves it in the datadump. */
  function GeoDump(t: Table<Plant>, countries: map<string, Country>): map<Id, Plant> {
    map k | k in t.entries ::
      if GeoAdmits(t.entries[k], countries) then GeoTagged(k, t.entries[k]) else t.entries[k]
  }

  /** The body of Step 3's loop, for one GEO plant. */
  function GeoPlant(s: Snapshot, id: Id, p: Plant, countries: map<string, Country>): (r: Snapshot)
  {
    if GeoAdmits(p, countries) then
      var q := GeoTagged(id, p);
      s.(database := s.database[id := q],
         datadump := s.datadump[id := q],
         additions := if p.capacity.Some? then Admit(s.additions, GeoBucket, p.capacity.value)
                      else Increment(s.additions, GeoBucket),
         log := if p.capacity.Some? then s.log else s.log + [InvalidGeoCapacity(id)])
    else s.(datadump := s.datadump[id := p])
  }

  /** Step 3 after the first `n` GEO plants. */
  function GeoPlants(s: Snapshot, t: Table<Plant>, countries: map<string, Country>, n: nat): (r: Snapshot)
    requires t.WellOrdered() && n <= |t.order|
    ensures r.carmaIdUsed == s.carmaIdUsed
    ensures GeoBucket in s.additions ==> r.additions.Keys == s.additions.Keys
    ensures forall b :: b != GeoBucket ==> TallyOf(r.additions, b) == TallyOf(s.additions, b)
  {
    if n == 0 then s
    else
      var id := t.order[n - 1];
      GeoPlant(GeoPlants(s, t, countries, n - 1), id, t.entries[id], countries)
  }

  // ---------------------------------------------------------------------------
  // Step 4: SourceWatch overlay (overwrites, no capacity gate)

  function SourceWatchTagged(p: Plant): Plant {
    p.(coordSource := SourceWatchLabel)
  }

  /** What Step 4 leaves in the datadump for a SourceWatch plant. */
  function SourceWatchDumped(p: Plant): Plant {
    if ValidLocation(p.location) then SourceWatchTagged(p) else p
  }

  /** The SourceWatch plants Step 4 writes into the canonical map. */
  function SourceWatchAdmitted(t: Table<Plant>): map<Id, Plant> {
    map k | k in t.entries && ValidLocation(t.entries[k].location) :: SourceWatchTagged(t.entries[k])
  }

  /** Every SourceWatch plant, as Step 4 leaves it in the datadump. */
  function SourceWatchDump(t: Table<Plant>): map<Id, Plant> {
    map k | k in t.entries :: SourceWatchDumped(t.entries[k])
  }

  /** A SourceWatch plant whose capacity Step 4 cannot add. */
  predicate StopsRun(p: Plant) {
    ValidLocation(p.location) && p.capacity.None?
  }

  /** One SourceWatch plant; `Failure(id)` when adding its capacity raises the
      uncaught TypeError of `0 + None`, which ends the run. */
  function SourceWatchPlant(s: Snapshot, id: Id, p: Plant): (r: Result<Snapshot, Id>)
  {
    if !ValidLocation(p.location) then Success(s.(datadump := s.datadump[id := p]))
    else if StopsRun(p) then Failure(id)
    else
      var q := SourceWatchTagged(p);
      Success(s.(database := s.database[id := q],
                 datadump := s.datadump[id := q],
                 additions := Admit(s.additions, SourceWatchBucket, p.capacity.value)))
  }

  /** Step 4 after the first `n` SourceWatch plants. */
  function SourceWatchPlants(s: Snapshot, t: Table<Plant>, n: nat): (r: Result<Snapshot, Id>)
    requires t.WellOrdered() && n <= |t.order|
    ensures r.Success? ==> r.value.carmaIdUsed == s.carmaIdUsed && r.value.log == s.log
    ensures r.Success? && SourceWatchBucket in s.additions ==> r.value.additions.Keys == s.additions.Keys
    ensures r.Success? ==>
              forall b :: b != SourceWatchBucket ==> TallyOf(r.value.additions, b) == TallyOf(s.additions, b)
    ensures r.Failure? ==> r.error in t.order[..n] && StopsRun(t.entries[r.error])
  {
    if n == 0 then Success(s)
    else
      var id := t.order[n - 1];
      match SourceWatchPlants(s, t, n - 1)
      case Failure(e) => assert t.order[..n - 1] <= t.order[..n]; Failure(e)
      case Success(s') => SourceWatchPlant(s', id, t.entries[id])
  }
}
