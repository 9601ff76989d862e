# PowerWatch record fusion, modelled in Dafny

This project models the record-fusion core of `build_powerwatch.py`, which
builds the global PowerWatch database of power plants. The build merges
several sources into one canonical map from plant id to plant:

1. national databases with an automated API, kept at 1 MW and above and with a
   valid location;
2. the WRI internal database: WRI plants that are not in an API country or in a
   GEO-routed country, kept at 1 MW and above. A plant uses its own location
   first. Without one, it borrows the location of the GEO plant the
   concordance matches it to. Failing that, it borrows the location of the
   matched CARMA plant, and that CARMA id is recorded in `carma_id_used`;
3. the GEO database, for countries flagged `use_geo`;
4. SourceWatch plants (Chinese coal plants), which are written last and
   overwrite any entry with the same id.

Each step also counts the plants and the capacity it admits per source, in
`database_additions`, and writes errors to a log. In dump mode the build
labels every plant it has seen with `id,Yes` or `id,No`: `Yes` when the id
is in the canonical map. It then adds the CARMA plants whose ids were never
claimed.

The build is modelled the way it is written, as a sequence of loops that
change shared state. `Engine.FusionEngine` is a class whose fields are the
build's state: the canonical map, the datadump, `carma_id_used`, the
counters and the log. It has one method per step, and one per plant of
Steps 1-4. Each method is proved to leave exactly the state that a
specification function in `Fusion` (Steps 1-4) or `DumpTagger` (Step 7)
computes from the old state. The one exception is the per-plant methods of
Step 4 (`AddSourceWatchPlant`, `AddSourceWatchPlants`): on the path where a
plant stops the run they only report its id, as the build itself stops.
The per-source functions of Steps 1-4 and of Step 7.2 are folds over a
dictionary's iteration order, which is an input of the model. Step 7.1
(`DumpTagger.Labelled`) is a map comprehension and does not depend on any
order. `FusionLemmas` characterises the per-source folds of Steps 1-4 as the
old maps overwritten by a map comprehension over the source: what the step
admits and what it dumps. The per-plant functions are characterised by the
`...Outcome` lemmas. Step 1's outer loop over the national sources is
covered by `FusionLemmas.NationalStepGated` (gate, coverage, datadump keys).
`FusionLemmas` also proves the WRI fallback order in both directions.
`DumpTagger.UnusedCarmaEffect` characterises the Step 7.2 fold in the same
way, and `DumpTagger.LabelledSaysAdmitted` states what Step 7.1 writes. `Pipeline.BuildPowerWatch` runs the
whole build on one engine and is proved equal to `Pipeline.Run`. The
`Pipeline` lemmas state what every run guarantees.

Modelling conventions:

- A capacity is `Option<real>`, where `None` is Python's `None`. Under
  Python 2, `None >= 1` is false and `None < 1` is true. `0 + None` raises
  `TypeError`. Step 3 catches that error: the plant is counted, its capacity
  is not added, and the warning is logged. Step 4 does not catch it, so a
  SourceWatch plant with a valid location and no capacity stops the whole
  run. That is `Failure(id)` in `Fusion.SourceWatchPlants` and
  `Pipeline.Run`.
- A coordinate is `Option<real>`, and Python truthiness is "present and
  non-zero" (`Records.Truthy`).
- The canonical map and the datadump hold the same plant object, which the
  step goes on editing after storing it. The model therefore stores the
  plant's final form in both maps.
- A dictionary is a `Table`: its entries plus the order in which the build
  iterates over them. Later writes to the same id overwrite earlier ones, so
  results depend on that order. The lemmas state this with `Collect`, the
  entries of the first `n` keys.

Facts about the code that the model makes explicit:

- Step 2.3 (`build_databases/build_powerwatch.py:144-160`) never reads
  `carma_id_used`, so two WRI plants can borrow the same CARMA location,
  and the id is then recorded twice (`FusionLemmas.CarmaIdClaimedTwice`).
  The list is only read in Step 7.2.
- Step 3 writes every GEO plant to the datadump, including plants whose
  country is not recognised. It admits GEO plants without any capacity
  cutoff (`Pipeline.RunGeoWithoutCapacityGate`). Step 4 likewise admits
  SourceWatch plants without a capacity cutoff.
- Step 2.2 accepts a borrowed GEO location when both coordinates are truthy.
  It does not apply the separate non-zero test of Step 2.1, but the two tests
  coincide (`Records.LocationTestsAgree`).

## Model

| member | source | states |
|---|---|---|
| Records.LocationTestsAgree | build_databases/build_powerwatch.py:115-136 | the truthiness test of Steps 2.2/2.3 and the full location test of Steps 1/2.1 accept the same coordinates; for numbers other than NaN, and for `None` under Python 2, `capacity < 1` is exactly the negation of `capacity >= 1` |
| Tallies.InitialTallies | build_databases/build_powerwatch.py:72-75 | every source bucket starts at count 0 and capacity 0, and no other bucket exists |
| Tallies.Admit | build_databases/build_powerwatch.py:88-89 | one admission adds 1 to the bucket's count and the plant's capacity to its capacity; every other bucket is unchanged |
| Tallies.Increment | build_databases/build_powerwatch.py:176 | the GEO count goes up by one whether or not the capacity can be added; the other buckets are unchanged |
| Tallies.AddCapacity | build_databases/build_powerwatch.py:177-178 | adds the capacity to the bucket and leaves its count and the other buckets alone |
| Fusion.Initial | build_databases/build_powerwatch.py:43-75 | before Step 1 both maps, `carma_id_used` and the log are empty, and the counters have exactly the given buckets |
| Fusion.NationalPlants | build_databases/build_powerwatch.py:82-93 | one national source changes neither `carma_id_used` nor the log, adds no counter bucket, and touches no bucket but its own country's |
| Fusion.NationalPlant | build_databases/build_powerwatch.py:83-93 | one national plant changes neither `carma_id_used` nor the log |
| FusionLemmas.NationalPlantOutcome | build_databases/build_powerwatch.py:83-93 | one national plant is always dumped with the national label; its `idnr` is kept when it is at 1 MW and above with a valid location, and the plant is then canonical in the same form as in the datadump; otherwise `idnr` is `id,No` and neither the canonical map nor the counters change |
| Fusion.NationalSourceStep | build_databases/build_powerwatch.py:82-93 | one iteration of Step 1's outer loop changes neither `carma_id_used` nor the log, and no bucket but the source's own country's |
| Fusion.NationalStep | build_databases/build_powerwatch.py:78-93 | Step 1 changes neither `carma_id_used` nor the log; only the national countries' buckets change |
| Fusion.BorrowCarma | build_databases/build_powerwatch.py:144-160 | the CARMA attempt admits exactly when the concordance names a CARMA plant that exists with truthy coordinates; it then admits the plant with that location, labelled CARMA data with `idnr` its id, in the CARMA bucket, claiming that CARMA id; the plant's country and capacity are never changed |
| Fusion.BorrowGeo | build_databases/build_powerwatch.py:127-160 | a matched GEO plant that exists with truthy coordinates gives an admission with its location as GEO data, in the GEO bucket, with no claim; without a GEO match the CARMA attempt decides; any admission has truthy coordinates and claims a CARMA id of the CARMA database exactly in the CARMA bucket |
| Fusion.WriTriage | build_databases/build_powerwatch.py:97-160 | a WRI entry is skipped exactly when it is not a plant or its country is unknown, API-routed or GEO-routed; an admitted plant is at least 1 MW, has a valid location and `idnr` equal to its id, and goes to one of the three WRI buckets, claiming a CARMA id of the CARMA database exactly in the CARMA bucket |
| FusionLemmas.ApplyWriOutcome | build_databases/build_powerwatch.py:98-160 | a skipped entry changes neither map; any other outcome dumps its plant; an admission makes the plant canonical and appends its CARMA claim, if any, to `carma_id_used`; anything short of admission leaves the canonical map, the counters and `carma_id_used` alone and appends its logged event, if any |
| FusionLemmas.WriPlantOutcome | build_databases/build_powerwatch.py:98-160 | an entry that meets a skip condition changes neither map, the counters nor `carma_id_used`; any other entry is dumped with its capacity unchanged; an id that becomes canonical is at 1 MW and above with a valid location, in the same form as in the datadump |
| Fusion.ClaimsUpTo | build_databases/build_powerwatch.py:157 | the first `n` WRI entries claim at most `n` CARMA ids, each of them a key of the CARMA database |
| Fusion.WriPlants | build_databases/build_powerwatch.py:97-160 | Step 2 only appends to `carma_id_used`, adds no counter bucket, and touches only the three WRI buckets |
| Fusion.GeoPlants | build_databases/build_powerwatch.py:165-180 | Step 3 leaves `carma_id_used` alone, adds no counter bucket, and touches only the GEO bucket |
| Fusion.SourceWatchPlants | build_databases/build_powerwatch.py:183-189 | when Step 4 completes, `carma_id_used`, the log and every bucket but SourceWatch are as before; when it stops, it stops on a plant of the source with a valid location and no capacity |
| FusionLemmas.NationalPlantsEffect | build_databases/build_powerwatch.py:82-93 | after the first `n` plants of a national source, the canonical map is the old one overwritten by the plants at 1 MW and above with a valid location, tagged with the national label; the datadump is the old one overwritten by every plant, with the rejected ones marked `id,No` |
| FusionLemmas.NationalSourceEffect | build_databases/build_powerwatch.py:82-93 | the same for a whole national source |
| FusionLemmas.NationalSourceGated | build_databases/build_powerwatch.py:82-93 | one national source keeps every canonical entry at 1 MW and above with a valid location, never removes a datadump key, and dumps every plant it visits |
| FusionLemmas.NationalStepGated | build_databases/build_powerwatch.py:78-93 | Step 1 keeps every canonical entry at 1 MW and above with a valid location, never removes a datadump key, and dumps every plant of every national source |
| FusionLemmas.NationalPlantTally | build_databases/build_powerwatch.py:85-89 | an admitted national plant adds 1 and its capacity to its country's bucket; a rejected one changes no counter |
| FusionLemmas.WriPlantsEffect | build_databases/build_powerwatch.py:97-160 | after the first `n` WRI entries, the canonical map is the old one overwritten by the admitted plants and the datadump the old one overwritten by every plant that passed the skip conditions, in its final form; `carma_id_used` has gained the claimed CARMA ids in iteration order |
| FusionLemmas.WriPlantsDatabase | build_databases/build_powerwatch.py:97-160 | after the first `n` WRI entries the canonical map is the old one overwritten by the admitted plants |
| FusionLemmas.WriPlantsDatadump | build_databases/build_powerwatch.py:97-160 | after the first `n` WRI entries the datadump is the old one overwritten by every plant that passed the skip conditions |
| FusionLemmas.WriPlantsClaims | build_databases/build_powerwatch.py:97-160 | after the first `n` WRI entries `carma_id_used` has gained the claimed CARMA ids in iteration order |
| FusionLemmas.ClaimsMembership | build_databases/build_powerwatch.py:157 | a CARMA id is in the claims of the first `n` entries exactly when one of those entries was admitted with that CARMA plant's location |
| FusionLemmas.WriStepGated | build_databases/build_powerwatch.py:97-160 | Step 2 keeps every canonical entry at 1 MW and above with a valid location |
| FusionLemmas.WriLeavesOtherTiers | build_databases/build_powerwatch.py:99-110 | an id with no WRI entry, or whose entry is skipped, keeps its canonical and datadump entries through Step 2 |
| FusionLemmas.WriPlantTally | build_databases/build_powerwatch.py:118-160 | an admitted WRI plant adds 1 and its capacity to the bucket of the location source it used and to no other; any other outcome changes no counter |
| FusionLemmas.WriSkipsAndCutoff | build_databases/build_powerwatch.py:99-116 | the four skip conditions come first: a non-plant entry logs `NotAPowerPlant`, an unknown country logs `CountryNotRecognized` for that country, and an API- or GEO-routed country is skipped with nothing logged; a plant that passes them but is below 1 MW lands in the datadump unchanged and not in the canonical map; only plants of 1 MW and above are admitted |
| FusionLemmas.WriOwnLocationFirst | build_databases/build_powerwatch.py:118-125 | a candidate with a valid location of its own is admitted with it, as WRI data, with `idnr` set to its id, and claims no CARMA id |
| FusionLemmas.WriMissingGeoStops | build_databases/build_powerwatch.py:128-135 | a matched GEO id missing from the GEO database logs a matching error and ends the triage, with the plant only in the datadump, whatever the CARMA data holds |
| FusionLemmas.WriGeoFallsThrough | build_databases/build_powerwatch.py:127-160 | when the matched GEO plant has no usable location, the plant goes on to the CARMA attempt carrying that GEO location |
| FusionLemmas.WriGeoAdmission | build_databases/build_powerwatch.py:127-142 | a candidate without a valid location of its own whose matched GEO plant exists with truthy coordinates is admitted with that location, labelled GEO data, with `idnr` its id, in the GEO bucket |
| FusionLemmas.WriNoGeoMatchTriesCarma | build_databases/build_powerwatch.py:127-160 | a candidate without a valid location and without a GEO match goes straight to the CARMA attempt, unchanged |
| FusionLemmas.WriCarmaAdmission | build_databases/build_powerwatch.py:127-160 | a candidate that gets no location from itself or from GEO, and whose matched CARMA plant exists with truthy coordinates, is admitted with the CARMA location, labelled CARMA data, in the CARMA bucket, claiming that CARMA id |
| FusionLemmas.WriNoCarmaMatch | build_databases/build_powerwatch.py:144-147 | without a CARMA match the plant is left, as it reached Step 2.3, only in the datadump, and nothing is logged |
| FusionLemmas.WriMissingCarmaStops | build_databases/build_powerwatch.py:146-152 | a matched CARMA id missing from the CARMA database logs a matching error and leaves the plant unchanged, only in the datadump |
| FusionLemmas.WriCarmaWithoutLocation | build_databases/build_powerwatch.py:146-153 | a matched CARMA plant without truthy coordinates leaves the plant only in the datadump, carrying that CARMA location, with nothing logged |
| FusionLemmas.WriAdmissionProvenance | build_databases/build_powerwatch.py:118-160 | an admitted WRI plant has its own location with the WRI label, or the matched GEO plant's location with the GEO label, or the matched CARMA plant's location with the CARMA label, the bucket to match, and a claim exactly in the CARMA case |
| FusionLemmas.CarmaIdClaimedTwice | build_databases/build_powerwatch.py:144-160 | two WRI plants matched to the same CARMA plant both take its location, and its id is recorded twice: earlier claims are never consulted |
| FusionLemmas.GeoPlantsEffect | build_databases/build_powerwatch.py:165-180 | after the first `n` GEO plants, the canonical map is the old one overwritten by the located plants of GEO-routed countries, tagged as GEO data with `idnr` set to their id; the datadump is the old one overwritten by every GEO plant |
| FusionLemmas.GeoPlantOutcome | build_databases/build_powerwatch.py:166-180 | one GEO plant is always dumped and never changes `carma_id_used`; a located plant of a GEO-routed country becomes canonical, tagged as GEO data, in the same form as in the datadump; any other is dumped unchanged and leaves the canonical map alone |
| FusionLemmas.GeoPlantTally | build_databases/build_powerwatch.py:176-180 | an admitted GEO plant always adds 1 to the GEO count and adds its capacity only when it has one; a missing capacity is logged exactly then |
| FusionLemmas.SourceWatchPlantOutcome | build_databases/build_powerwatch.py:184-189 | one SourceWatch plant stops the run, reporting its id, exactly when it has a valid location and no capacity; otherwise it is dumped, `carma_id_used` and the log stay as they were, and a located plant becomes canonical as SourceWatch data in the same form as in the datadump while an unlocated one is dumped unchanged and leaves the canonical map alone |
| FusionLemmas.SourceWatchPlantTally | build_databases/build_powerwatch.py:185-189 | a located SourceWatch plant that does not stop the run adds 1 and its capacity to the SourceWatch bucket; an unlocated one changes no counter; no other bucket changes |
| FusionLemmas.SourceWatchPlantsEffect | build_databases/build_powerwatch.py:183-189 | the first `n` SourceWatch plants let the run go on exactly when none of them has a valid location and no capacity; then the canonical map is the old one overwritten by the located ones and the datadump the old one overwritten by all of them |
| FusionLemmas.SourceWatchEffect | build_databases/build_powerwatch.py:183-189 | the same for the whole SourceWatch database |
| FusionLemmas.FailureIsFinal | build_databases/build_powerwatch.py:189 | once a SourceWatch plant stops the run, later plants change nothing |
| DumpTagger.Labelled | build_databases/build_powerwatch.py:214-219 | Step 7.1 keeps the datadump's keys and changes no field but `idnr` |
| DumpTagger.WithUnusedCarma | build_databases/build_powerwatch.py:222-228 | Step 7.2 keeps every datadump key |
| DumpTagger.WithUnusedCarmaUpTo | build_databases/build_powerwatch.py:222-228 | Step 7.2 never removes a datadump entry |
| DumpTagger.LabelledSaysAdmitted | build_databases/build_powerwatch.py:214-219 | Step 7.1 keeps every key and every field but `idnr`; `idnr` becomes `id,Yes` exactly for canonical ids and `id,No` exactly for the others |
| DumpTagger.UnusedCarmaUpToEffect | build_databases/build_powerwatch.py:222-228 | after the first `n` CARMA plants, the datadump is the old one overwritten by the unclaimed ones among them, labelled CARMA data with `idnr` `id,No` |
| DumpTagger.UnusedCarmaEffect | build_databases/build_powerwatch.py:222-228 | Step 7.2 adds or overwrites exactly the CARMA ids not in `carma_id_used` and leaves every other datadump entry as it was |
| Engine.FusionEngine.constructor | build_databases/build_powerwatch.py:72-75 | the new engine's state is `Fusion.Initial` of the buckets |
| Engine.FusionEngine.AddNationalPlant | build_databases/build_powerwatch.py:83-93 | leaves the state `Fusion.NationalPlant` computes |
| Engine.FusionEngine.AddNationalSources | build_databases/build_powerwatch.py:78-93 | leaves the state `Fusion.NationalStep` computes |
| Engine.FusionEngine.TriageWriPlant | build_databases/build_powerwatch.py:98-160 | leaves the state `Fusion.WriPlant` computes, for one WRI entry |
| Engine.FusionEngine.TryGeoLocation | build_databases/build_powerwatch.py:127-160 | for a plant already in the datadump, leaves the state of applying `Fusion.BorrowGeo` |
| Engine.FusionEngine.TryCarmaLocation | build_databases/build_powerwatch.py:144-160 | for a plant already in the datadump, leaves the state of applying `Fusion.BorrowCarma` |
| Engine.FusionEngine.AddWriPlants | build_databases/build_powerwatch.py:97-160 | leaves the state `Fusion.WriPlants` computes |
| Engine.FusionEngine.AddGeoPlant | build_databases/build_powerwatch.py:166-180 | leaves the state `Fusion.GeoPlant` computes |
| Engine.FusionEngine.AddGeoPlants | build_databases/build_powerwatch.py:165-180 | leaves the state `Fusion.GeoPlants` computes |
| Engine.FusionEngine.AddSourceWatchPlant | build_databases/build_powerwatch.py:184-189 | reports success exactly when `Fusion.SourceWatchPlant` does, and then leaves its state |
| Engine.FusionEngine.AddSourceWatchPlants | build_databases/build_powerwatch.py:183-189 | reports the plant that stops the run exactly when `Fusion.SourceWatchPlants` fails on it; otherwise leaves its state |
| Engine.FusionEngine.LabelDatadump | build_databases/build_powerwatch.py:214-219 | the datadump becomes `DumpTagger.Labelled` of the old one over the canonical ids; the other fields are unchanged |
| Engine.FusionEngine.AddUnusedCarma | build_databases/build_powerwatch.py:222-228 | the datadump becomes `DumpTagger.WithUnusedCarma` of the old one; the other fields are unchanged |
| Pipeline.Run | build_databases/build_powerwatch.py:72-228 | a run fails only on a SourceWatch plant with a valid location and no capacity; a run that completes yields a datadump exactly in dump mode |
| Pipeline.BuildPowerWatch | build_databases/build_powerwatch.py:72-228 | running Steps 1-4, then Step 7 in dump mode, on one engine gives exactly `Pipeline.Run` |
| Pipeline.RunStopsExactly | build_databases/build_powerwatch.py:183-189 | a run fails exactly when some SourceWatch plant has a valid location and no capacity |
| Pipeline.AfterWriGated | build_databases/build_powerwatch.py:78-160 | after Steps 1 and 2 every canonical entry is at 1 MW and above with a valid location |
| Pipeline.RunCapacityGate | build_databases/build_powerwatch.py:77-189 | every canonical entry passed the 1 MW cutoff with a valid location, or is a GEO plant admitted by Step 3, or a SourceWatch plant written by Step 4 |
| Pipeline.RunDatabaseLocated | build_databases/build_powerwatch.py:77-189 | every canonical entry has both coordinates present and non-zero |
| Pipeline.RunSourceWatchOverride | build_databases/build_powerwatch.py:183-189 | every SourceWatch plant with a valid location ends up in the canonical map as SourceWatch data, whatever under its id before; every other id keeps its entry from Steps 1-3 |
| Pipeline.RunGeoWithoutCapacityGate | build_databases/build_powerwatch.py:171-180 | a located GEO plant of a GEO-routed country is canonical, tagged as GEO data, whatever its capacity, unless SourceWatch overwrites its id |
| Pipeline.RunWriAdmission | build_databases/build_powerwatch.py:97-189 | a WRI plant that Step 2 admits is canonical at the end of the run, in the form Step 2 gave it, unless a GEO-routed GEO plant or a located SourceWatch plant has the same id |
| Pipeline.RunTallyBuckets | build_databases/build_powerwatch.py:72-189 | the counters end with exactly the buckets they started with: no step touches a bucket that does not exist |
| Pipeline.NationalDumpCoverage | build_databases/build_powerwatch.py:84 | after Step 1 every plant of every national source is in the datadump |
| Pipeline.WriDumpCoverage | build_databases/build_powerwatch.py:112 | Step 2 keeps every datadump key and adds every WRI plant that passed the four skip conditions |
| Pipeline.GeoDumpCoverage | build_databases/build_powerwatch.py:167 | Step 3 keeps every datadump key and adds every GEO plant |
| Pipeline.FusedDumpCoverage | build_databases/build_powerwatch.py:78-189 | before Step 7 the datadump holds every national, GEO and SourceWatch plant and every WRI plant that passed the skip conditions |
| Pipeline.RunDumpLabels | build_databases/build_powerwatch.py:78-228 | in dump mode every unclaimed CARMA plant is in the datadump labelled CARMA data with `id,No`; every other entry says `id,Yes` exactly when its id is canonical and `id,No` otherwise; the ids of every national plant, every WRI plant that passed the skip conditions and every GEO and SourceWatch plant are there |

## Left out

- Step 0, the loading of the national, WRI, GEO, CARMA and SourceWatch databases, of the country dictionary and of the plant concordance (`load_database`, `make_country_dictionary`, `make_plant_concordance`, `make_file_path`), is not modelled: their results are inputs (`Pipeline.Inputs`). The support library these functions live in is not part of this model.
- Command-line parsing and the file paths are left out. Dump mode is a boolean input of `Pipeline.Run`.
- Pipeline.Run: when Step 4 stops the run, the result is only `Failure(id)`. The log lines that the build had already written to its log file (opened at `build_databases/build_powerwatch.py:33`) are not part of that result.
- Console output (`print`, including the unknown-country message of Step 3) is not modelled. Log-file writes are modelled as `LogEvent`s in the order written; the log's opening and closing are not.
- Step 5 (`estimate_generation`) and the writing of the CSV file and of the datadump (Steps 6 and 8) are not modelled: they call code that is not part of this model. The model assumes that `estimate_generation` neither adds nor removes canonical entries; its code is not part of this model.
- Pipeline.Inputs.WellFormed: requires every national source's name to be a known country. Step 0 (`build_databases/build_powerwatch.py:55-59`) builds the national databases only under keys of the country dictionary, so this holds for every input the build constructs and the lookup in Step 1 cannot fail.
- Floating-point capacities and coordinates are exact reals, so NaN is not modelled: a NaN capacity fails both `>= 1` and `< 1`, so Step 2 would let it past its cutoff while Step 1 rejects it; NaN coordinates are truthy and non-zero. Capacities of other Python types (strings, sentinels) are not modelled; a capacity is a number or `None`.
- The mutation through shared objects is modelled only within a step. The model stores each plant's final form in both maps. Objects shared across steps or sources are not modelled: Step 7's `idnr` edits happen after the canonical map has been written, and the model applies them to the datadump only. The `coord_source` that Step 7.2 gives CARMA plants whose ids were claimed is not modelled, because no output holds those plants.
- The dictionaries' iteration order is an input (`Table.order`). The model does not reproduce Python 2's hash order.
