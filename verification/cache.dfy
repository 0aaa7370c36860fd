/** The cache keys of the engine's batched fetches (`RegionEntry`), the shared
    cache they go through, and what a `fetch_multi` over them returns, computes
    and stores. */
module ReportCache {
  import opened ReportTypes

  /** The engine operation that builds a key (Ruby's `__method__`). */
  datatype MetricName =
    | MonthlyRegistrationsByUser
    | HypertensionFollowUps
    | BpMeasuresByUser
    | OverdueCallsByUser

  /** A cache key: two keys are equal iff all four parts are. */
  datatype RegionEntry = RegionEntry(region: Region, metric: MetricName, groupBy: Option<string>, periodType: PeriodType)

  /** `regions.map { |region| RegionEntry.new(region, __method__, group_by:, period_type:) }` */
  function CacheKeys(regions: seq<Region>, metric: MetricName, groupBy: Option<string>, periodType: PeriodType): (keys: seq<RegionEntry>)
    ensures |keys| == |regions|
    ensures forall i | 0 <= i < |regions| :: keys[i].region == regions[i]
    ensures forall k | k in keys :: k.metric == metric && k.groupBy == groupBy && k.periodType == periodType
  {
    if regions == [] then []
    else [RegionEntry(regions[0], metric, groupBy, periodType)] + CacheKeys(regions[1..], metric, groupBy, periodType)
  }

  /** Keys built for two requests coincide only when both requests name the same
      metric, grouping and period type and share the region: one metric never
      reads or overwrites another's cached series. */
  lemma CacheKeysSeparateRequests(
    regions1: seq<Region>, metric1: MetricName, groupBy1: Option<string>, type1: PeriodType,
    regions2: seq<Region>, metric2: MetricName, groupBy2: Option<string>, type2: PeriodType,
    i: int, j: int)
    requires 0 <= i < |regions1| && 0 <= j < |regions2|
    requires CacheKeys(regions1, metric1, groupBy1, type1)[i] == CacheKeys(regions2, metric2, groupBy2, type2)[j]
    ensures regions1[i] == regions2[j] && metric1 == metric2 && groupBy1 == groupBy2 && type1 == type2
  {
    var k := CacheKeys(regions1, metric1, groupBy1, type1)[i];
    assert k in CacheKeys(regions1, metric1, groupBy1, type1);
    assert k in CacheKeys(regions2, metric2, groupBy2, type2);
  }

  /** A region has a key in a request exactly when it is one of its regions. */
  lemma KeyInCacheKeys(regions: seq<Region>, region: Region, metric: MetricName, groupBy: Option<string>, periodType: PeriodType)
    ensures RegionEntry(region, metric, groupBy, periodType) in CacheKeys(regions, metric, groupBy, periodType) <==> region in regions
  {
    var keys := CacheKeys(regions, metric, groupBy, periodType);
    if region in regions {
      var i :| 0 <= i < |regions| && regions[i] == region;
      assert keys[i] in keys;
    }
  }

  /** Keys of concatenated regions are the concatenated keys. */
  lemma {:induction false} CacheKeysAppend(a: seq<Region>, b: seq<Region>, metric: MetricName, groupBy: Option<string>, periodType: PeriodType)
    ensures CacheKeys(a + b, metric, groupBy, periodType) == CacheKeys(a, metric, groupBy, periodType) + CacheKeys(b, metric, groupBy, periodType)
  {
    if a == [] {
      assert a + b == b;
    } else {
      assert (a + b)[1..] == a[1..] + b;
      CacheKeysAppend(a[1..], b, metric, groupBy, periodType);
    }
  }

  /** The hash `fetch_multi` returns holds each distinct key once, at its first
      occurrence: for one request these are the keys of the distinct regions,
      in the same order. */
  lemma {:induction false} DistinctCacheKeys(regions: seq<Region>, metric: MetricName, groupBy: Option<string>, periodType: PeriodType)
    ensures Distinct(CacheKeys(regions, metric, groupBy, periodType)) == CacheKeys(Distinct(regions), metric, groupBy, periodType)
  {
    if regions != [] {
      var init := regions[..|regions| - 1];
      var region := regions[|regions| - 1];
      var key := RegionEntry(region, metric, groupBy, periodType);
      assert regions == init + [region];
      CacheKeysAppend(init, [region], metric, groupBy, periodType);
      var keys := CacheKeys(regions, metric, groupBy, periodType);
      assert CacheKeys([region], metric, groupBy, periodType) == [key];
      assert keys[..|keys| - 1] == CacheKeys(init, metric, groupBy, periodType);
      DistinctCacheKeys(init, metric, groupBy, periodType);
      var visited := Distinct(init);
      KeyInCacheKeys(visited, region, metric, groupBy, periodType);
      if region !in visited {
        CacheKeysAppend(visited, [region], metric, groupBy, periodType);
      }
    }
  }

  /** The value a batch fetch yields for one key: the stored value on an
      unforced hit, otherwise a fresh computation. */
  function FetchedValue(store: map<RegionEntry, Series>, key: RegionEntry, force: bool, compute: RegionEntry -> Series): Series
  {
    if !force && key in store then store[key] else compute(key)
  }

  /** The hash `fetch_multi(*keys, force:)` returns for a cache holding `store`. */
  function Fetched(store: map<RegionEntry, Series>, keys: seq<RegionEntry>, force: bool, compute: RegionEntry -> Series): map<RegionEntry, Series>
  {
    map k | k in keys :: FetchedValue(store, k, force, compute)
  }

  /** The keys the compute block is called for, in call order: every key when
      forced, otherwise every key missing from the store (once per occurrence). */
  function Misses(store: map<RegionEntry, Series>, keys: seq<RegionEntry>, force: bool): seq<RegionEntry>
  {
    if keys == [] then []
    else
      var last := keys[|keys| - 1];
      Misses(store, keys[..|keys| - 1], force) + (if force || last !in store then [last] else [])
  }

  /** A key is computed iff it is requested and either the fetch is forced or
      the cache does not hold it. */
  lemma {:induction false} MissesMembers(store: map<RegionEntry, Series>, keys: seq<RegionEntry>, force: bool, k: RegionEntry)
    ensures k in Misses(store, keys, force) <==> k in keys && (force || k !in store)
  {
    if keys != [] {
      var init := keys[..|keys| - 1];
      assert keys == init + [keys[|keys| - 1]];
      MissesMembers(store, init, force, k);
    }
  }

  /** Cache busting: a forced fetch calls the compute block for every key, in
      order, and the store afterwards holds the fresh value of every key. */
  lemma {:induction false} ForcedFetchRecomputes(store: map<RegionEntry, Series>, keys: seq<RegionEntry>, compute: RegionEntry -> Series)
    ensures Misses(store, keys, true) == keys
    ensures forall k | k in keys :: (store + Fetched(store, keys, true, compute))[k] == compute(k)
  {
    if keys != [] {
      var init := keys[..|keys| - 1];
      ForcedFetchRecomputes(store, init, compute);
      assert keys == init + [keys[|keys| - 1]];
    }
  }

  /** Fetching the same keys again, unforced, from the store a fetch left behind
      returns the same values and computes nothing. */
  lemma RefetchIsIdempotent(store: map<RegionEntry, Series>, keys: seq<RegionEntry>, force: bool, compute: RegionEntry -> Series)
    ensures var after := store + Fetched(store, keys, force, compute);
            && Fetched(after, keys, false, compute) == Fetched(store, keys, force, compute)
            && Misses(after, keys, false) == []
  {
    var first := Fetched(store, keys, force, compute);
    var after := store + first;
    var misses := Misses(after, keys, false);
    if misses != [] {
      MissesMembers(after, keys, false, misses[0]);
      assert false;
    }
  }

  /** Extending the requested keys by one extends the fetched hash by that key. */
  lemma FetchedSnoc(store: map<RegionEntry, Series>, keys: seq<RegionEntry>, i: nat, force: bool, compute: RegionEntry -> Series)
    requires i < |keys|
    ensures Fetched(store, keys[..i + 1], force, compute)
         == Fetched(store, keys[..i], force, compute)[keys[i] := FetchedValue(store, keys[i], force, compute)]
  {
    assert keys[..i + 1] == keys[..i] + [keys[i]];
  }

  /** Extending the requested keys by one appends that key to the computed keys
      when it is forced or missing. */
  lemma MissesSnoc(store: map<RegionEntry, Series>, keys: seq<RegionEntry>, i: nat, force: bool)
    requires i < |keys|
    ensures Misses(store, keys[..i + 1], force)
         == Misses(store, keys[..i], force) + (if force || keys[i] !in store then [keys[i]] else [])
  {
    assert keys[..i + 1][..i] == keys[..i];
  }

  /** `writes` holds the computed part of `result`; every other value of
      `result` was read from `store`. */
  ghost predicate WritesCover(store: map<RegionEntry, Series>, result: map<RegionEntry, Series>, writes: map<RegionEntry, Series>)
  {
    && writes.Keys <= result.Keys
    && (forall k | k in writes :: writes[k] == result[k])
    && (forall k | k in result && k !in writes :: k in store && result[k] == store[k])
  }

  /** A key found by read_multi extends the fetched hash with the stored value
      and leaves the writes covering it. */
  lemma ReadStep(store: map<RegionEntry, Series>, keys: seq<RegionEntry>, i: nat, force: bool, compute: RegionEntry -> Series,
                 result: map<RegionEntry, Series>, writes: map<RegionEntry, Series>)
    requires i < |keys| && !force && keys[i] in store
    requires result == Fetched(store, keys[..i], force, compute) && WritesCover(store, result, writes)
    ensures result[keys[i] := store[keys[i]]] == Fetched(store, keys[..i + 1], force, compute)
    ensures WritesCover(store, result[keys[i] := store[keys[i]]], writes)
  {
    FetchedSnoc(store, keys, i, force, compute);
  }

  /** A key the block computes extends both the fetched hash and the writes
      with the computed value. */
  lemma ComputeStep(store: map<RegionEntry, Series>, keys: seq<RegionEntry>, i: nat, force: bool, compute: RegionEntry -> Series,
                    result: map<RegionEntry, Series>, writes: map<RegionEntry, Series>)
    requires i < |keys| && (force || keys[i] !in store)
    requires result == Fetched(store, keys[..i], force, compute) && WritesCover(store, result, writes)
    ensures result[keys[i] := compute(keys[i])] == Fetched(store, keys[..i + 1], force, compute)
    ensures WritesCover(store, result[keys[i] := compute(keys[i])], writes[keys[i] := compute(keys[i])])
  {
    FetchedSnoc(store, keys, i, force, compute);
  }

  /** Writing back only the computed values leaves the store as if every fetched
      value had been written: the values read were already there. */
  lemma WriteBackAgrees(store: map<RegionEntry, Series>, result: map<RegionEntry, Series>, writes: map<RegionEntry, Series>)
    requires WritesCover(store, result, writes)
    ensures store + writes == store + result
  {
    assert (store + writes).Keys == (store + result).Keys;
  }

  /** The loop of fetch_multi over a store it does not change: each key is read
      from the store (never when forced) or else computed, and the computed
      values are collected for the write-back. `ran` lists the keys the block
      ran for. */
  method ReadThrough(store: map<RegionEntry, Series>, keys: seq<RegionEntry>, force: bool, compute: RegionEntry -> Series)
    returns (result: map<RegionEntry, Series>, writes: map<RegionEntry, Series>, ghost ran: seq<RegionEntry>)
    ensures result == Fetched(store, keys, force, compute)
    ensures WritesCover(store, result, writes)
    ensures ran == Misses(store, keys, force)
  {
    // read_multi: nothing is read when the fetch is forced
    var hits: map<RegionEntry, Series> := if force then map[] else store;
    writes := map[];
    result := map[];
    ran := [];
    var i := 0;
    while i < |keys|
      invariant 0 <= i <= |keys|
      invariant result == Fetched(store, keys[..i], force, compute)
      invariant WritesCover(store, result, writes)
      invariant ran == Misses(store, keys[..i], force)
    {
      var key := keys[i];
      MissesSnoc(store, keys, i, force);
      if key in hits {
        ReadStep(store, keys, i, force, compute, result, writes);
        result := result[key := hits[key]];
      } else {
        ComputeStep(store, keys, i, force, compute, result, writes);
        var value := compute(key);
        ran := ran + [key];
        writes := writes[key := value];
        result := result[key := value];
      }
      i := i + 1;
    }
    assert keys[..i] == keys;
  }

  /** Every key of `keys` has an entry in `entries`. */
  ghost predicate AllStored(keys: seq<RegionEntry>, entries: map<RegionEntry, Series>)
  {
    forall key | key in keys :: key in entries
  }

  /** The process-wide cache (Rails.cache) as far as the engine uses it. */
  class SharedCache {
    var entries: map<RegionEntry, Series>
    /** Every key the compute block of a fetch ran for, in call order. */
    ghost var computed: seq<RegionEntry>

    constructor ()
      ensures entries == map[] && computed == []
    {
      entries := map[];
      computed := [];
    }

    /** `fetch_multi(*keys, force:) { |key| compute(key) }`: reads the keys
        (nothing when forced), calls the block for each key it did not read,
        writes those values back, and returns key -> value for every key. */
    method FetchMulti(keys: seq<RegionEntry>, force: bool, compute: RegionEntry -> Series) returns (result: map<RegionEntry, Series>)
      modifies this
      ensures result == Fetched(old(entries), keys, force, compute)
      ensures entries == old(entries) + result
      ensures computed == old(computed) + Misses(old(entries), keys, force)
    {
      var writes;
      ghost var ran;
      result, writes, ran := ReadThrough(entries, keys, force, compute);
      computed := computed + ran;
      WriteBackAgrees(entries, result, writes);
      entries := entries + writes;
    }
  }
}
