/** Reports::Repository: the aggregation engine bound to a fixed set of regions
    and a month range. It delegates the rate and count catalog to its schema,
    fetches per-user and follow-up series per region through the shared cache
    (one key per region, re-keyed by slug), memoizes those fetches per
    instance, and computes each region's period window. */
module Reports {
  import opened ReportTypes
  import opened ReportCache
  import opened ReportCatalog
  import opened FollowUpGroups
  import opened PeriodWindows

  /** `Period#to_hash`: an opaque description of one period. */
  type PeriodMeta = map<string, string>

  /** The collaborators the engine calls but does not define. */
  datatype Queries = Queries(
    /** RegisteredPatientsQuery#count(region, period_type, group_by:) */
    registeredPatients: (Region, PeriodType, Option<string>) -> Series,
    /** BPMeasuresQuery#count(region, period_type, group_by:) */
    bpMeasures: (Region, PeriodType, Option<string>) -> Series,
    /** FollowUpsQuery#hypertension(region, period_type, group_by:) */
    followUps: (Region, PeriodType, Option<string>) -> Series,
    /** OverdueCallsQuery#count(region, period_type, group_by:) */
    overdueCalls: (Region, PeriodType, Option<string>) -> Series,
    /** PatientFollowUp rows of these facilities grouped by a column and by period, counted */
    patientFollowUpsGrouped: (seq<FacilityId>, GroupField, PeriodType) -> map<(string, Period), nat>,
    /** PatientFollowUp rows of these facilities grouped by period, distinct patients counted */
    patientFollowUpsDistinct: (seq<FacilityId>, PeriodType) -> map<Period, nat>,
    /** SchemaV2's rates, `with_ltfu:` as the flag */
    schemaRate: (seq<Region>, PeriodRange, RateName, bool) -> BySlug,
    /** SchemaV2's counts */
    schemaCount: (seq<Region>, PeriodRange, CountName) -> BySlug,
    /** SchemaV2#earliest_patient_recorded_at */
    earliestRecordedAt: (seq<Region>, PeriodRange) -> map<Slug, int>,
    /** SchemaV2#earliest_patient_recorded_at_period */
    earliestRecordedAtPeriod: (seq<Region>, PeriodRange) -> map<Slug, Period>,
    /** Period#to_hash */
    periodMeta: Period -> PeriodMeta)

  /** The `regions` argument: one region or a list (`Array(regions)`). */
  datatype RegionsArg = OneRegion(region: Region) | RegionList(regions: seq<Region>)

  /** The `periods:` argument: one period or a range. */
  datatype PeriodsArg = OnePeriod(period: Period) | PeriodSpan(range: PeriodRange)

  /** The instance state `initialize` sets before it may raise. */
  datatype Config = Config(regions: seq<Region>, periods: PeriodRange, periodType: PeriodType, followUpsV2: bool)

  /** The argument checks of `initialize`: a single period becomes the range
      `period..period`, a range is kept; the period type is that of the range's
      first period, and anything but a month is an ArgumentError. */
  function Configure(regionsArg: RegionsArg, periodsArg: PeriodsArg, followUpsV2: bool): (r: Result<Config, Error>)
    ensures periodsArg.OnePeriod? ==> (r.Success? <==> periodsArg.period.kind == Month)
    ensures periodsArg.PeriodSpan? ==> (r.Success? <==> periodsArg.range.first.kind == Month)
    ensures r.Failure? ==> r.error == ArgumentError("Quarter periods not supported")
    ensures r.Success? && periodsArg.OnePeriod? ==> r.value.periods == PeriodRange(periodsArg.period, periodsArg.period)
    ensures r.Success? && periodsArg.PeriodSpan? ==> r.value.periods == periodsArg.range
    ensures r.Success? ==> r.value.periodType == Month == r.value.periods.first.kind && r.value.followUpsV2 == followUpsV2
    ensures r.Success? ==> r.value.regions == if regionsArg.OneRegion? then [regionsArg.region] else regionsArg.regions
  {
    var regions := match regionsArg
      case OneRegion(region) => [region]
      case RegionList(list) => list;
    var periods := match periodsArg
      case OnePeriod(period) => PeriodRange(period, period)
      case PeriodSpan(range) => range;
    var periodType := periods.first.kind;
    if periodType != Month then Failure(ArgumentError("Quarter periods not supported"))
    else Success(Config(regions, periods, periodType, followUpsV2))
  }

  /** The group_by the per-user cached fetches pass to their query and key. */
  const ByUserGroup: Option<string> := Some("user_id")

  /** The group_by of `monthly_registrations_by_user`. */
  const RegistrationsGroup: Option<string> := Some("registration_user_id")

  /** A Memery table key: the memoized method and its argument. */
  datatype MemoKey = MemoKey(metric: MetricName, groupBy: Option<string>)

  /** The memo entries warm_cache leaves behind. */
  function WarmedMemoKeys(allFacility: bool): set<MemoKey>
  {
    {MemoKey(MetricName.HypertensionFollowUps, None)}
    + if allFacility then
        {MemoKey(MetricName.HypertensionFollowUps, Some(UserFollowUpsGroup)),
         MemoKey(MetricName.BpMeasuresByUser, None),
         MemoKey(MetricName.MonthlyRegistrationsByUser, None)}
      else {}
  }

  /** `results.each_with_object({}) { |(entry, counts), hsh| hsh[entry.region.slug] = counts }`:
      the fetched values re-keyed by slug, visiting `keys` (the hash's keys, of
      `regions` in turn) in order, so the last of them with a slug wins. */
  method ReKeyBySlug(regions: seq<Region>, keys: seq<RegionEntry>, fetched: map<RegionEntry, Series>) returns (bySlug: BySlug)
    requires |keys| == |regions|
    requires forall i | 0 <= i < |keys| :: keys[i].region == regions[i] && keys[i] in fetched
    ensures bySlug.Keys == Slugs(regions)
    ensures forall j | LastWithSlug(regions, j, |regions|) :: bySlug[regions[j].slug] == fetched[keys[j]]
    ensures forall s | s in bySlug :: bySlug[s] == fetched[keys[LastRegionWithSlug(regions, |regions|, s)]]
  {
    bySlug := map[];
    ghost var values: seq<Series> := [];
    var i := 0;
    while i < |keys|
      invariant 0 <= i <= |keys| && |values| == i
      invariant forall k | 0 <= k < i :: values[k] == fetched[keys[k]]
      invariant KeyedBySlug(regions, values, bySlug, i)
    {
      KeyedBySlugStep(regions, values, bySlug, fetched[keys[i]]);
      bySlug := bySlug[keys[i].region.slug := fetched[keys[i]]];
      values := values + [fetched[keys[i]]];
      i := i + 1;
    }
  }

  /** Memery never drops or replaces a stored result. */
  ghost predicate MemoExtends(before: map<MemoKey, BySlug>, after: map<MemoKey, BySlug>)
  {
    forall key | key in before :: key in after && after[key] == before[key]
  }

  /** MemoExtends is transitive. */
  lemma MemoExtendsTrans(a: map<MemoKey, BySlug>, b: map<MemoKey, BySlug>, c: map<MemoKey, BySlug>)
    requires MemoExtends(a, b) && MemoExtends(b, c)
    ensures MemoExtends(a, c)
  {
  }

  /** Stored keys stay stored when the cache only gains keys. */
  lemma AllStoredKept(keys: seq<RegionEntry>, before: map<RegionEntry, Series>, after: map<RegionEntry, Series>)
    requires AllStored(keys, before) && before.Keys <= after.Keys
    ensures AllStored(keys, after)
  {
  }

  /** The group_by a memoized fetch passes to its query and puts in its cache keys. */
  function FetchGroup(key: MemoKey): Option<string>
  {
    match key.metric
    case MonthlyRegistrationsByUser => RegistrationsGroup
    case HypertensionFollowUps => key.groupBy
    case BpMeasuresByUser => ByUserGroup
    case OverdueCallsByUser => ByUserGroup
  }

  /** What memoized fetches leave behind, from the memo and cache contents
      `memo0`, `entries0` to `memo1`, `entries1`: the memo gains exactly the
      keys `added` and keeps every result it held, the cache keeps every key,
      and each added key that was not memoized before and is fetched through
      the cache (everything but the direct follow-ups) has one stored entry per
      region. */
  ghost predicate Warmed(regions: seq<Region>, periodType: PeriodType, followUpsV2: bool,
                         memo0: map<MemoKey, BySlug>, entries0: map<RegionEntry, Series>,
                         memo1: map<MemoKey, BySlug>, entries1: map<RegionEntry, Series>, added: set<MemoKey>)
  {
    && memo1.Keys == memo0.Keys + added
    && MemoExtends(memo0, memo1)
    && entries0.Keys <= entries1.Keys
    && forall key | key in added && key !in memo0 && !(followUpsV2 && key.metric.HypertensionFollowUps?) ::
         AllStored(CacheKeys(regions, key.metric, FetchGroup(key), periodType), entries1)
  }

  /** A memo hit, or a raised error, leaves memo and cache as they were. */
  lemma WarmedUnchanged(regions: seq<Region>, periodType: PeriodType, followUpsV2: bool,
                        memo0: map<MemoKey, BySlug>, entries0: map<RegionEntry, Series>, added: set<MemoKey>)
    requires added <= memo0.Keys
    ensures Warmed(regions, periodType, followUpsV2, memo0, entries0, memo0, entries0, added)
  {
  }

  /** A memo miss stores its result under its key; a fetch through the cache
      must have stored one entry per region. */
  lemma WarmedMiss(regions: seq<Region>, periodType: PeriodType, followUpsV2: bool,
                   memo0: map<MemoKey, BySlug>, entries0: map<RegionEntry, Series>, entries1: map<RegionEntry, Series>,
                   key: MemoKey, value: BySlug)
    requires key !in memo0 && entries0.Keys <= entries1.Keys
    requires !(followUpsV2 && key.metric.HypertensionFollowUps?) ==>
      AllStored(CacheKeys(regions, key.metric, FetchGroup(key), periodType), entries1)
    ensures Warmed(regions, periodType, followUpsV2, memo0, entries0, memo0[key := value], entries1, {key})
  {
  }

  /** Two rounds of memoized fetches are one round that adds both key sets. */
  lemma WarmedTrans(regions: seq<Region>, periodType: PeriodType, followUpsV2: bool,
                    memo0: map<MemoKey, BySlug>, entries0: map<RegionEntry, Series>,
                    memo1: map<MemoKey, BySlug>, entries1: map<RegionEntry, Series>,
                    memo2: map<MemoKey, BySlug>, entries2: map<RegionEntry, Series>,
                    added1: set<MemoKey>, added2: set<MemoKey>)
    requires Warmed(regions, periodType, followUpsV2, memo0, entries0, memo1, entries1, added1)
    requires Warmed(regions, periodType, followUpsV2, memo1, entries1, memo2, entries2, added2)
    ensures Warmed(regions, periodType, followUpsV2, memo0, entries0, memo2, entries2, added1 + added2)
  {
    MemoExtendsTrans(memo0, memo1, memo2);
    forall key | key in added1 + added2 && key !in memo0 && !(followUpsV2 && key.metric.HypertensionFollowUps?)
      ensures AllStored(CacheKeys(regions, key.metric, FetchGroup(key), periodType), entries2)
    {
      if key in added1 {
        AllStoredKept(CacheKeys(regions, key.metric, FetchGroup(key), periodType), entries1, entries2);
      }
    }
  }

  /** Three memoized fetches made in turn are `Warmed` by their three keys. */
  lemma WarmedInTurn(regions: seq<Region>, periodType: PeriodType, followUpsV2: bool,
                     memo0: map<MemoKey, BySlug>, entries0: map<RegionEntry, Series>,
                     memo1: map<MemoKey, BySlug>, entries1: map<RegionEntry, Series>,
                     memo2: map<MemoKey, BySlug>, entries2: map<RegionEntry, Series>,
                     memo3: map<MemoKey, BySlug>, entries3: map<RegionEntry, Series>,
                     a: MemoKey, b: MemoKey, c: MemoKey)
    requires Warmed(regions, periodType, followUpsV2, memo0, entries0, memo1, entries1, {a})
    requires Warmed(regions, periodType, followUpsV2, memo1, entries1, memo2, entries2, {b})
    requires Warmed(regions, periodType, followUpsV2, memo2, entries2, memo3, entries3, {c})
    ensures Warmed(regions, periodType, followUpsV2, memo0, entries0, memo3, entries3, {a, b, c})
  {
    WarmedTrans(regions, periodType, followUpsV2, memo0, entries0, memo1, entries1, memo2, entries2, {a}, {b});
    WarmedTrans(regions, periodType, followUpsV2, memo0, entries0, memo2, entries2, memo3, entries3, {a} + {b}, {c});
    assert {a} + {b} + {c} == {a, b, c};
  }

  /** One turn of the rate loop, logged after the turns before it, extends
      the log by that rate's calls. */
  lemma TracedRate(i: nat, trace0: seq<Call>, before: seq<Call>, after: seq<Call>)
    requires i < |DelegatedRates| && before == trace0 + RateCalls(DelegatedRates[..i])
    requires after == if HasLtfuVariant(DelegatedRates[i])
                      then before + [RateCall(DelegatedRates[i], false)] + [RateCall(DelegatedRates[i], true)]
                      else before + [RateCall(DelegatedRates[i], false)]
    ensures after == trace0 + RateCalls(DelegatedRates[..i + 1])
  {
    assert DelegatedRates[..i + 1][..i] == DelegatedRates[..i];
  }

  /** Three calls logged one after the other are the three logged at once. */
  lemma TracedInTurn(trace0: seq<Call>, trace1: seq<Call>, trace2: seq<Call>, trace3: seq<Call>, a: Call, b: Call, c: Call)
    requires trace1 == trace0 + [a] && trace2 == trace1 + [b] && trace3 == trace2 + [c]
    ensures trace3 == trace0 + [a, b, c]
  {
  }

  /** The rate loop, the ungrouped follow-ups and, for facility regions, the
      per-user block, logged in turn, are warm_cache's plan. */
  lemma TracedPlan(trace0: seq<Call>, trace1: seq<Call>, trace2: seq<Call>, trace3: seq<Call>, allFacility: bool)
    requires trace1 == trace0 + RateCalls(DelegatedRates) && trace2 == trace1 + [FollowUpsCall(None)]
    requires trace3 == if allFacility then trace2 + [FollowUpsCall(Some(UserFollowUpsGroup)), BpMeasuresByUserCall, MonthlyRegistrationsByUserCall] else trace2
    ensures trace3 == trace0 + WarmCachePlan(allFacility)
  {
  }

  class Repository {
    const regions: seq<Region>
    const periods: PeriodRange
    const periodType: PeriodType
    const followUpsV2: bool
    const queries: Queries
    /** Rails.cache, shared with every other engine instance. */
    const cache: SharedCache
    /** Memery's per-instance table of memoized results. */
    var memo: map<MemoKey, BySlug>
    /** The schema and cache-reading engine methods called so far, in order. */
    ghost var trace: seq<Call>

    /** A constructed engine works on months, and every memoized result is
        keyed by exactly the regions' slugs. */
    ghost predicate Valid()
      reads this
    {
      && periodType == Month
      && periods.first.kind == periodType
      && forall key | key in memo :: memo[key].Keys == Slugs(regions)
    }

    constructor (config: Config, queries: Queries, cache: SharedCache)
      requires config.periodType == Month && config.periods.first.kind == Month
      ensures Valid() && memo == map[] && trace == []
      ensures regions == config.regions && periods == config.periods
      ensures periodType == config.periodType && followUpsV2 == config.followUpsV2
      ensures this.queries == queries && this.cache == cache
    {
      regions := config.regions;
      periods := config.periods;
      periodType := config.periodType;
      followUpsV2 := config.followUpsV2;
      this.queries := queries;
      this.cache := cache;
      memo := map[];
      trace := [];
    }

    /** `Repository.new(regions, periods:, follow_ups_v2:)`: raises before any
        collaborator is built when the period type is not a month, so a
        rejected engine leaves the cache untouched. */
    static method New(regionsArg: RegionsArg, periodsArg: PeriodsArg, followUpsV2: bool, queries: Queries, cache: SharedCache)
      returns (r: Result<Repository, Error>)
      ensures r.Failure? <==> Configure(regionsArg, periodsArg, followUpsV2).Failure?
      ensures r.Failure? ==> r.error == Configure(regionsArg, periodsArg, followUpsV2).error && unchanged(cache)
      ensures r.Success? ==> var config := Configure(regionsArg, periodsArg, followUpsV2).value;
        && fresh(r.value) && r.value.Valid() && r.value.memo == map[] && r.value.trace == []
        && r.value.regions == config.regions && r.value.periods == config.periods
        && r.value.periodType == config.periodType && r.value.followUpsV2 == config.followUpsV2
        && r.value.queries == queries && r.value.cache == cache
    {
      var config := Configure(regionsArg, periodsArg, followUpsV2);
      if config.Failure? {
        return Failure(config.error);
      }
      var engine := new Repository(config.value, queries, cache);
      r := Success(engine);
    }

    /** The delegated rates (DELEGATED_RATES). */
    function Rate(name: RateName, withLtfu: bool): BySlug
    {
      queries.schemaRate(regions, periods, name, withLtfu)
    }

    /** The delegated counts (DELEGATED_COUNTS). */
    function Count(name: CountName): BySlug
    {
      queries.schemaCount(regions, periods, name)
    }

    /** `adjusted_patients` is an alias of `adjusted_patients_without_ltfu`. */
    function AdjustedPatients(): BySlug
    {
      Count(AdjustedPatientsWithoutLtfu)
    }

    function EarliestPatientRecordedAt(): map<Slug, int>
    {
      queries.earliestRecordedAt(regions, periods)
    }

    function EarliestPatientRecordedAtPeriod(): map<Slug, Period>
    {
      queries.earliestRecordedAtPeriod(regions, periods)
    }

    /** `follow_ups_v2?`: the strategy flag fixed at construction. */
    predicate FollowUpsV2Enabled()
    {
      followUpsV2
    }

    /** The block each cached fetch hands to fetch_multi. */
    function Compute(metric: MetricName, groupBy: Option<string>): RegionEntry -> Series
    {
      match metric
      case MonthlyRegistrationsByUser => (entry: RegionEntry) => queries.registeredPatients(entry.region, periodType, groupBy)
      case HypertensionFollowUps => (entry: RegionEntry) => queries.followUps(entry.region, periodType, groupBy)
      case BpMeasuresByUser => (entry: RegionEntry) => queries.bpMeasures(entry.region, periodType, groupBy)
      case OverdueCallsByUser => (entry: RegionEntry) => queries.overdueCalls(entry.region, periodType, groupBy)
    }

    /** What one cached fetch did, given the cache it started from: it fetched
        one key per region with `force: bust`, stored the fetched values, ran
        the block for exactly the missed keys, and returned the values keyed by
        the regions' slugs. The re-keying visits the hash `fetch_multi`
        returns, which holds each distinct key once at its first occurrence,
        so the last of the distinct regions with a slug wins. */
    ghost predicate CachedFetch(r: BySlug, metric: MetricName, groupBy: Option<string>, bust: bool,
                                before: map<RegionEntry, Series>, computedBefore: seq<RegionEntry>)
      reads cache
    {
      var keys := CacheKeys(regions, metric, groupBy, periodType);
      var fetched := Fetched(before, keys, bust, Compute(metric, groupBy));
      var visited := Distinct(regions);
      var order := CacheKeys(visited, metric, groupBy, periodType);
      && cache.entries == before + fetched
      && cache.computed == computedBefore + Misses(before, keys, bust)
      && r.Keys == Slugs(regions)
      && forall j | LastWithSlug(visited, j, |visited|) :: order[j] in fetched && r[visited[j].slug] == fetched[order[j]]
    }

    /** `Warmed` from the given memo and cache contents to the current ones. */
    ghost predicate WarmedSince(memo0: map<MemoKey, BySlug>, entries0: map<RegionEntry, Series>, added: set<MemoKey>)
      reads this, cache
    {
      Warmed(regions, periodType, followUpsV2, memo0, entries0, memo, cache.entries, added)
    }

    /** With distinct slugs, every region's slug holds that region's own
        series: the stored one when its key was cached and the fetch was not
        forced, otherwise the one its collaborator computes. */
    lemma CachedFetchPerRegion(r: BySlug, metric: MetricName, groupBy: Option<string>, bust: bool,
                               before: map<RegionEntry, Series>, computedBefore: seq<RegionEntry>)
      requires CachedFetch(r, metric, groupBy, bust, before, computedBefore)
      requires UniqueSlugs(regions)
      ensures forall i | 0 <= i < |regions| ::
        && regions[i].slug in r
        && r[regions[i].slug] == if !bust && RegionEntry(regions[i], metric, groupBy, periodType) in before
                                 then before[RegionEntry(regions[i], metric, groupBy, periodType)]
                                 else Compute(metric, groupBy)(RegionEntry(regions[i], metric, groupBy, periodType))
    {
      UniqueSlugsDistinct(regions);
      var keys := CacheKeys(regions, metric, groupBy, periodType);
      var fetched := Fetched(before, keys, bust, Compute(metric, groupBy));
      assert forall j | LastWithSlug(regions, j, |regions|) :: keys[j] in fetched && r[regions[j].slug] == fetched[keys[j]];
      forall i | 0 <= i < |regions|
        ensures regions[i].slug in r
        ensures r[regions[i].slug] == if !bust && RegionEntry(regions[i], metric, groupBy, periodType) in before
                                      then before[RegionEntry(regions[i], metric, groupBy, periodType)]
                                      else Compute(metric, groupBy)(RegionEntry(regions[i], metric, groupBy, periodType))
      {
        assert LastWithSlug(regions, i, |regions|);
        assert keys[i] in keys;
        assert keys[i] == RegionEntry(regions[i], metric, groupBy, periodType);
      }
    }

    /** A region repeated after another region with its slug keeps its key's
        first place in the hash `fetch_multi` returns, so the other region's
        series wins: over regions `[a, b, a]`, the slug holds b's series. */
    lemma RepeatedRegionKeepsFirstPlace(r: BySlug, metric: MetricName, groupBy: Option<string>, bust: bool,
                                        before: map<RegionEntry, Series>, computedBefore: seq<RegionEntry>, a: Region, b: Region)
      requires CachedFetch(r, metric, groupBy, bust, before, computedBefore)
      requires regions == [a, b, a] && a != b && a.slug == b.slug
      ensures a.slug in r
      ensures r[a.slug] == FetchedValue(before, RegionEntry(b, metric, groupBy, periodType), bust, Compute(metric, groupBy))
    {
      DistinctRepeat(a, b);
      assert LastWithSlug([a, b], 1, 2);
      var order := CacheKeys([a, b], metric, groupBy, periodType);
      assert order[1] in order;
      assert order[1] == RegionEntry(b, metric, groupBy, periodType);
    }

    /** The shared body of the cached fetches: build the keys, fetch_multi
        them, and re-key the result by `region.slug`. */
    method CachedBySlug(metric: MetricName, groupBy: Option<string>, bust: bool) returns (bySlug: BySlug)
      modifies cache
      ensures CachedFetch(bySlug, metric, groupBy, bust, old(cache.entries), old(cache.computed))
      ensures old(cache.entries).Keys <= cache.entries.Keys
      ensures AllStored(CacheKeys(regions, metric, groupBy, periodType), cache.entries)
    {
      var keys := CacheKeys(regions, metric, groupBy, periodType);
      var fetched := cache.FetchMulti(keys, bust, Compute(metric, groupBy));
      DistinctCacheKeys(regions, metric, groupBy, periodType);
      SlugsOfDistinct(regions);
      bySlug := ReKeyBySlug(Distinct(regions), Distinct(keys), fetched);
    }

    /** `monthly_registrations_by_user`, memoized. */
    method MonthlyRegistrationsByUser(bust: bool) returns (r: BySlug)
      requires Valid()
      modifies this, cache
      ensures Valid()
      ensures trace == old(trace) + [MonthlyRegistrationsByUserCall]
      ensures WarmedSince(old(memo), old(cache.entries), {MemoKey(MetricName.MonthlyRegistrationsByUser, None)})
      ensures MemoKey(MetricName.MonthlyRegistrationsByUser, None) in old(memo) ==>
        r == old(memo)[MemoKey(MetricName.MonthlyRegistrationsByUser, None)] && memo == old(memo) && unchanged(cache)
      ensures MemoKey(MetricName.MonthlyRegistrationsByUser, None) !in old(memo) ==>
        && memo == old(memo)[MemoKey(MetricName.MonthlyRegistrationsByUser, None) := r]
        && CachedFetch(r, MetricName.MonthlyRegistrationsByUser, RegistrationsGroup, bust, old(cache.entries), old(cache.computed))
    {
      trace := trace + [MonthlyRegistrationsByUserCall];
      var key := MemoKey(MetricName.MonthlyRegistrationsByUser, None);
      if key in memo {
        WarmedUnchanged(regions, periodType, followUpsV2, memo, cache.entries, {key});
        return memo[key];
      }
      ghost var entries0 := cache.entries;
      r := CachedBySlug(MetricName.MonthlyRegistrationsByUser, RegistrationsGroup, bust);
      WarmedMiss(regions, periodType, followUpsV2, memo, entries0, cache.entries, key, r);
      memo := memo[key := r];
    }

    /** The series the direct strategy computes for one region: distinct
        patients per period when ungrouped, otherwise the pivot of the
        (group, period) counts. */
    ghost predicate DirectCounts(s: Series, region: Region, field: Option<GroupField>)
    {
      match field
      case None => s == Flat(queries.patientFollowUpsDistinct(region.facilityIds, periodType))
      case Some(f) => s.Grouped? && IsPivotOf(s.groups, queries.patientFollowUpsGrouped(region.facilityIds, f, periodType))
    }

    /** The outcome of `follow_ups_v2_query(group_by:)`: the grouping error,
        raised before any region is queried, or one series per slug. */
    ghost predicate DirectOutcome(groupBy: Option<string>, r: Result<BySlug, Error>)
    {
      match GroupFieldFor(groupBy)
      case Failure(e) => r == Failure(e)
      case Success(field) =>
        && r.Success?
        && r.value.Keys == Slugs(regions)
        && forall j | LastWithSlug(regions, j, |regions|) :: DirectCounts(r.value[regions[j].slug], regions[j], field)
    }

    /** `follow_ups_v2_query(group_by:)`: the direct, uncached strategy. */
    method FollowUpsV2Query(groupBy: Option<string>) returns (r: Result<BySlug, Error>)
      ensures DirectOutcome(groupBy, r)
    {
      var field := GroupFieldFor(groupBy);
      if field.Failure? {
        return Failure(field.error);
      }
      var results: BySlug := map[];
      ghost var values: seq<Series> := [];
      var i := 0;
      while i < |regions|
        invariant 0 <= i <= |regions| && |values| == i
        invariant forall k | 0 <= k < i :: DirectCounts(values[k], regions[k], field.value)
        invariant KeyedBySlug(regions, values, results, i)
      {
        var region := regions[i];
        var counts: Series;
        match field.value {
          case Some(f) =>
            var pivot := PivotGroupedCounts(queries.patientFollowUpsGrouped(region.facilityIds, f, periodType));
            counts := Grouped(pivot);
          case None =>
            counts := Flat(queries.patientFollowUpsDistinct(region.facilityIds, periodType));
        }
        KeyedBySlugStep(regions, values, results, counts);
        results := results[region.slug := counts];
        values := values + [counts];
        i := i + 1;
      }
      r := Success(results);
    }

    /** `hypertension_follow_ups(group_by:)`, memoized: the direct strategy when
        the flag fixed at construction is set, otherwise the cached one. A
        raised error is not memoized. */
    method HypertensionFollowUps(groupBy: Option<string>, bust: bool) returns (r: Result<BySlug, Error>)
      requires Valid()
      modifies this, cache
      ensures Valid()
      ensures trace == old(trace) + [FollowUpsCall(groupBy)]
      ensures GroupFieldFor(groupBy).Success? ==> r.Success?
      ensures WarmedSince(old(memo), old(cache.entries), if r.Success? then {MemoKey(MetricName.HypertensionFollowUps, groupBy)} else {})
      ensures MemoKey(MetricName.HypertensionFollowUps, groupBy) in old(memo) ==>
        r == Success(old(memo)[MemoKey(MetricName.HypertensionFollowUps, groupBy)]) && memo == old(memo) && unchanged(cache)
      ensures MemoKey(MetricName.HypertensionFollowUps, groupBy) !in old(memo) && followUpsV2 ==>
        && DirectOutcome(groupBy, r)
        && unchanged(cache)
        && memo == if r.Success? then old(memo)[MemoKey(MetricName.HypertensionFollowUps, groupBy) := r.value] else old(memo)
      ensures MemoKey(MetricName.HypertensionFollowUps, groupBy) !in old(memo) && !followUpsV2 ==>
        && r.Success?
        && memo == old(memo)[MemoKey(MetricName.HypertensionFollowUps, groupBy) := r.value]
        && CachedFetch(r.value, MetricName.HypertensionFollowUps, groupBy, bust, old(cache.entries), old(cache.computed))
    {
      trace := trace + [FollowUpsCall(groupBy)];
      var key := MemoKey(MetricName.HypertensionFollowUps, groupBy);
      if key in memo {
        WarmedUnchanged(regions, periodType, followUpsV2, memo, cache.entries, {key});
        return Success(memo[key]);
      }
      ghost var entries0 := cache.entries;
      if FollowUpsV2Enabled() {
        r := FollowUpsV2Query(groupBy);
      } else {
        var bySlug := CachedBySlug(MetricName.HypertensionFollowUps, groupBy, bust);
        r := Success(bySlug);
      }
      if r.Success? {
        WarmedMiss(regions, periodType, followUpsV2, memo, entries0, cache.entries, key, r.value);
        memo := memo[key := r.value];
      } else {
        WarmedUnchanged(regions, periodType, followUpsV2, memo, cache.entries, {});
      }
    }

    /** `bp_measures_by_user`, memoized. */
    method BpMeasuresByUser(bust: bool) returns (r: BySlug)
      requires Valid()
      modifies this, cache
      ensures Valid()
      ensures trace == old(trace) + [BpMeasuresByUserCall]
      ensures WarmedSince(old(memo), old(cache.entries), {MemoKey(MetricName.BpMeasuresByUser, None)})
      ensures MemoKey(MetricName.BpMeasuresByUser, None) in old(memo) ==>
        r == old(memo)[MemoKey(MetricName.BpMeasuresByUser, None)] && memo == old(memo) && unchanged(cache)
      ensures MemoKey(MetricName.BpMeasuresByUser, None) !in old(memo) ==>
        && memo == old(memo)[MemoKey(MetricName.BpMeasuresByUser, None) := r]
        && CachedFetch(r, MetricName.BpMeasuresByUser, ByUserGroup, bust, old(cache.entries), old(cache.computed))
    {
      trace := trace + [BpMeasuresByUserCall];
      var key := MemoKey(MetricName.BpMeasuresByUser, None);
      if key in memo {
        WarmedUnchanged(regions, periodType, followUpsV2, memo, cache.entries, {key});
        return memo[key];
      }
      ghost var entries0 := cache.entries;
      r := CachedBySlug(MetricName.BpMeasuresByUser, ByUserGroup, bust);
      WarmedMiss(regions, periodType, followUpsV2, memo, entries0, cache.entries, key, r);
      memo := memo[key := r];
    }

    /** `overdue_calls_by_user`, memoized. */
    method OverdueCallsByUser(bust: bool) returns (r: BySlug)
      requires Valid()
      modifies this, cache
      ensures Valid()
      ensures trace == old(trace) + [OverdueCallsByUserCall]
      ensures WarmedSince(old(memo), old(cache.entries), {MemoKey(MetricName.OverdueCallsByUser, None)})
      ensures MemoKey(MetricName.OverdueCallsByUser, None) in old(memo) ==>
        r == old(memo)[MemoKey(MetricName.OverdueCallsByUser, None)] && memo == old(memo) && unchanged(cache)
      ensures MemoKey(MetricName.OverdueCallsByUser, None) !in old(memo) ==>
        && memo == old(memo)[MemoKey(MetricName.OverdueCallsByUser, None) := r]
        && CachedFetch(r, MetricName.OverdueCallsByUser, ByUserGroup, bust, old(cache.entries), old(cache.computed))
    {
      trace := trace + [OverdueCallsByUserCall];
      var key := MemoKey(MetricName.OverdueCallsByUser, None);
      if key in memo {
        WarmedUnchanged(regions, periodType, followUpsV2, memo, cache.entries, {key});
        return memo[key];
      }
      ghost var entries0 := cache.entries;
      r := CachedBySlug(MetricName.OverdueCallsByUser, ByUserGroup, bust);
      WarmedMiss(regions, periodType, followUpsV2, memo, entries0, cache.entries, key, r);
      memo := memo[key := r];
    }

    /** `period_info(region)`: each period of the region's window, in
        ascending order, with its description. */
    method PeriodInfo(region: Region) returns (info: seq<(Period, PeriodMeta)>)
      ensures var window := Window(Lookup(EarliestPatientRecordedAtPeriod(), region.slug), periods);
        && |info| == |window|
        && forall i | 0 <= i < |window| :: info[i] == (window[i], queries.periodMeta(window[i]))
    {
      var start := WindowStart(Lookup(EarliestPatientRecordedAtPeriod(), region.slug), periods.first);
      info := [];
      var period := start;
      while period.ordinal <= periods.last.ordinal
        invariant period == Period(start.kind, start.ordinal + |info|)
        invariant info == [] || period.ordinal <= periods.last.ordinal + 1
        invariant forall i | 0 <= i < |info| ::
          info[i] == (Period(start.kind, start.ordinal + i), queries.periodMeta(Period(start.kind, start.ordinal + i)))
        decreases periods.last.ordinal - period.ordinal
      {
        info := info + [(period, queries.periodMeta(period))];
        period := Period(period.kind, period.ordinal + 1);
      }
      PeriodsFromExact(start, periods.last);
    }

    /** A delegated rate, `public_send(rate)` or `public_send(rate, with_ltfu: true)`. */
    method CallRate(name: RateName, withLtfu: bool) returns (r: BySlug)
      modifies this
      ensures r == Rate(name, withLtfu)
      ensures trace == old(trace) + [RateCall(name, withLtfu)] && memo == old(memo)
    {
      trace := trace + [RateCall(name, withLtfu)];
      r := Rate(name, withLtfu);
    }

    /** The `DELEGATED_RATES.each` loop of warm_cache: every rate, and its
        with_ltfu variant where it has one, in declaration order. */
    method WarmRates()
      modifies this
      ensures trace == old(trace) + RateCalls(DelegatedRates) && memo == old(memo)
    {
      var i := 0;
      while i < |DelegatedRates|
        invariant 0 <= i <= |DelegatedRates|
        invariant trace == old(trace) + RateCalls(DelegatedRates[..i]) && memo == old(memo)
      {
        var name := DelegatedRates[i];
        ghost var before := trace;
        var plain := CallRate(name, false);
        if HasLtfuVariant(name) {
          var withLtfu := CallRate(name, true);
        }
        TracedRate(i, old(trace), before, trace);
        i := i + 1;
      }
      assert DelegatedRates[..i] == DelegatedRates;
    }

    /** The facility-only part of warm_cache: per-user follow-ups, BP measures
        and registrations, each memoized. */
    method WarmPerUser(bust: bool)
      requires Valid()
      modifies this, cache
      ensures Valid()
      ensures trace == old(trace) + [FollowUpsCall(Some(UserFollowUpsGroup)), BpMeasuresByUserCall, MonthlyRegistrationsByUserCall]
      ensures WarmedSince(old(memo), old(cache.entries),
                          {MemoKey(MetricName.HypertensionFollowUps, Some(UserFollowUpsGroup)),
                           MemoKey(MetricName.BpMeasuresByUser, None),
                           MemoKey(MetricName.MonthlyRegistrationsByUser, None)})
    {
      GroupFieldForExamples();
      ghost var byUserKey, bpKey, registrationsKey :=
        MemoKey(MetricName.HypertensionFollowUps, Some(UserFollowUpsGroup)),
        MemoKey(MetricName.BpMeasuresByUser, None),
        MemoKey(MetricName.MonthlyRegistrationsByUser, None);
      ghost var memo0, entries0, trace0 := memo, cache.entries, trace;
      var byUser := HypertensionFollowUps(Some(UserFollowUpsGroup), bust);
      ghost var memo1, entries1, trace1 := memo, cache.entries, trace;
      assert Warmed(regions, periodType, followUpsV2, memo0, entries0, memo1, entries1, {byUserKey});
      var bpMeasures := BpMeasuresByUser(bust);
      ghost var memo2, entries2, trace2 := memo, cache.entries, trace;
      assert Warmed(regions, periodType, followUpsV2, memo1, entries1, memo2, entries2, {bpKey});
      var registrations := MonthlyRegistrationsByUser(bust);
      assert Warmed(regions, periodType, followUpsV2, memo2, entries2, memo, cache.entries, {registrationsKey});
      WarmedInTurn(regions, periodType, followUpsV2, memo0, entries0, memo1, entries1, memo2, entries2, memo, cache.entries,
                   byUserKey, bpKey, registrationsKey);
      TracedInTurn(trace0, trace1, trace2, trace, FollowUpsCall(Some(UserFollowUpsGroup)), BpMeasuresByUserCall, MonthlyRegistrationsByUserCall);
    }

    /** `warm_cache`: the calls it makes, in order. The memo keeps every result
        it held and gains exactly the warmed keys, the cache keeps every key,
        and every warmed fetch that goes through the cache and was not memoized
        before has stored one entry per region. */
    method WarmCache(bust: bool)
      requires Valid()
      modifies this, cache
      ensures Valid()
      ensures trace == old(trace) + WarmCachePlan(AllFacilityRegions(regions))
      ensures WarmedSince(old(memo), old(cache.entries), WarmedMemoKeys(AllFacilityRegions(regions)))
    {
      WarmRates();
      GroupFieldForExamples();
      ghost var memo0, entries0, trace1 := memo, cache.entries, trace;
      var followUps := HypertensionFollowUps(None, bust);
      ghost var memo1, entries1, trace2 := memo, cache.entries, trace;
      assert Warmed(regions, periodType, followUpsV2, memo0, entries0, memo1, entries1, {MemoKey(MetricName.HypertensionFollowUps, None)});
      if AllFacilityRegions(regions) {
        WarmPerUser(bust);
        WarmedTrans(regions, periodType, followUpsV2, memo0, entries0, memo1, entries1, memo, cache.entries,
                    {MemoKey(MetricName.HypertensionFollowUps, None)},
                    {MemoKey(MetricName.HypertensionFollowUps, Some(UserFollowUpsGroup)),
                     MemoKey(MetricName.BpMeasuresByUser, None),
                     MemoKey(MetricName.MonthlyRegistrationsByUser, None)});
      } else {
        assert WarmedMemoKeys(false) == {MemoKey(MetricName.HypertensionFollowUps, None)};
      }
      TracedPlan(old(trace), trace1, trace2, trace, AllFacilityRegions(regions));
    }
  }
}
