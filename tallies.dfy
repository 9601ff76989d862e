/** The per-source addition counters `database_additions`: for every bucket
    (one per national database, plus five fixed buckets) a count of admitted
    plants and their summed capacity. */
module Tallies {

  datatype Tally = Tally(count: nat, capacity: real)

  const WriBucket: string := "WRI"
  const GeoBucket: string := "GEO"
  const SourceWatchBucket: string := "SourceWatch"
  const WriGeoBucket: string := "WRI with GEO lat/long data"
  const WriCarmaBucket: string := "WRI with CARMA lat/long data"

  function FixedBuckets(): set<string> {
    {WriBucket, GeoBucket, SourceWatchBucket, WriGeoBucket, WriCarmaBucket}
  }

  /** The counters before the first step: every bucket at zero. */
  function InitialTallies(buckets: set<string>): (t: map<string, Tally>)
    ensures t.Keys == buckets
    ensures forall b :: b in t ==> t[b].count == 0 && t[b].capacity == 0.0
  {
    map b | b in buckets :: Tally(0, 0.0)
  }

  /** The counters of one bucket (zero for a bucket the map does not hold). */
  function TallyOf(t: map<string, Tally>, bucket: string): Tally {
    if bucket in t then t[bucket] else Tally(0, 0.0)
  }

  /** `database_additions[bucket]['count'] += 1`. */
  function Increment(t: map<string, Tally>, bucket: string): (r: map<string, Tally>)
    ensures r.Keys == t.Keys + {bucket}
    ensures TallyOf(r, bucket).count == TallyOf(t, bucket).count + 1
    ensures TallyOf(r, bucket).capacity == TallyOf(t, bucket).capacity
    ensures forall b :: b != bucket ==> TallyOf(r, b) == TallyOf(t, b)
  {
    var old_ := TallyOf(t, bucket);
    t[bucket := old_.(count := old_.count + 1)]
  }

  /** `database_additions[bucket]['capacity'] += mw`. */
  function AddCapacity(t: map<string, Tally>, bucket: string, mw: real): (r: map<string, Tally>)
    ensures r.Keys == t.Keys + {bucket}
    ensures TallyOf(r, bucket).count == TallyOf(t, bucket).count
    ensures TallyOf(r, bucket).capacity == TallyOf(t, bucket).capacity + mw
    ensures forall b :: b != bucket ==> TallyOf(r, b) == TallyOf(t, b)
  {
    var old_ := TallyOf(t, bucket);
    t[bucket := old_.(capacity := old_.capacity + mw)]
  }

  /** One admission to `bucket` of a plant of `mw` megawatts. */
  function Admit(t: map<string, Tally>, bucket: string, mw: real): (r: map<string, Tally>)
    ensures r.Keys == t.Keys + {bucket}
    ensures TallyOf(r, bucket) == Tally(TallyOf(t, bucket).count + 1, TallyOf(t, bucket).capacity + mw)
    ensures forall b :: b != bucket ==> TallyOf(r, b) == TallyOf(t, b)
  {
    AddCapacity(Increment(t, bucket), bucket, mw)
  }
}
