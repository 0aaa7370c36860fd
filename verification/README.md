# Reports::Repository in Dafny

This project models the report aggregation engine `Reports::Repository`. The engine is bound to a fixed list of
regions and a month-period range. It turns them into per-region metric series, keyed by region slug:

- rates and counts are delegated to the schema;
- per-user and follow-up series are fetched through the shared Rails cache, one key per region, with `force:` set
  by the cache-busting flag, and each fetch is memoized on the engine instance;
- a flag fixed at construction switches follow-ups to a direct, uncached query that validates its grouping and
  pivots `(group, period) -> count` into `period -> group -> count`;
- `period_info` walks a region's period window;
- `warm_cache` runs a fixed call plan over the rate catalog.

Modules, one per concern:

- `ReportTypes` (`types.dfy`): the shared value types.
  - Periods are a type plus a month ordinal (`year * 12 + month - 1`). They compare by that ordinal.
  - Also here: regions, the per-period series, and the `Result`/`Error` used for `ArgumentError`.
- `ReportCache` (`cache.dfy`): cache keys and the shared cache.
  - `RegionEntry` is the cache key.
  - `SharedCache` is a class whose `FetchMulti` follows Rails' `fetch_multi`: read the stored keys unless forced, run the block once per missed key in key order, and write back only the values the block computed. Its ghost `computed` log records which keys the block ran for.
  - `Fetched` and `Misses` are the functions that specify `FetchMulti`.
- `FollowUpGroups` (`follow_ups.dfy`): the direct strategy's grouping `case` and its pivot.
- `ReportCatalog` (`catalog.dfy`): the rate and count catalog, and the `warm_cache` call plan.
- `PeriodWindows` (`windows.dfy`): the start-period clamp and the inclusive window of `period_info`.
- `Reports` (`repository.dfy`): argument normalisation and the `Repository` class.
  - The class holds the instance fields, the Memery table as a `memo` map, and the memoized fetch methods.
  - A ghost `trace` logs, in order, each call of a delegated rate and of a memoized method, so `warm_cache` is specified by the calls it makes.
  - `Warmed` states what memoized fetches leave behind. The memo gains the given keys and keeps every result it held. The cache keeps every key. Each newly memoized fetch that goes through the cache has stored one entry per region.
  - The engine's collaborators are function values in a `Queries` record: the query objects, the schema and `Period#to_hash`.

Repeated regions and shared slugs are handled as Ruby handles them. A hash filled with `hsh[slug] = value` keeps
the value of the last entry with a slug it visits (`LastWithSlug`). The direct follow-up query visits the regions
themselves. The cached methods visit the hash `fetch_multi` returns, which holds each distinct key once, at its
first occurrence (`Distinct`). So they keep the value of the last of the distinct regions with a slug.
- Over regions `[a, b, a]` where `a` and `b` share a slug, that value is `b`'s (`RepeatedRegionKeepsFirstPlace`).
- `CachedFetchPerRegion` specialises the cached contract to distinct slugs, where every region is its own entry.

## Model

| member | source | states |
|---|---|---|
| Reports.Configure | app/models/reports/repository.rb:16-25 | A single period becomes the range `period..period` and a range is kept. The period type is that of the range's first period. The result is an ArgumentError "Quarter periods not supported" exactly when that type is not a month. |
| Reports.Repository.New | app/models/reports/repository.rb:16-31 | Construction fails exactly when `Configure` does, with its error. On success: a fresh, valid engine with the normalised fields, the given collaborators, an empty memo and an empty trace. The collaborators are parameters here, so the order of lines 25-26 (raise before `SchemaV2.new`) is not shown. `unchanged(cache)` on failure holds because no method of the engine runs. |
| Reports.Repository.constructor | app/models/reports/repository.rb:17-30 | Sets the instance fields from a month configuration and starts with an empty memo. |
| ReportCache.CacheKeys | app/models/reports/repository.rb:85 | One key per region, in region order. Each key carries its region, the calling method's name, its group_by and the engine's period type. |
| ReportCache.CacheKeysSeparateRequests | app/models/reports/repository.rb:122 | Equal keys come from the same region, method, group_by and period type, so different requests never share an entry. |
| ReportCache.SharedCache.FetchMulti | app/models/reports/repository.rb:86-88 | Returns, for every key, the stored value unless forced, and otherwise the block's value. Stores all returned values. Runs the block for exactly the missed keys, in order. |
| ReportCache.ReadThrough | app/models/reports/repository.rb:86-88 | The read-or-compute loop returns every key's fetched value. Only computed values are kept for the write-back, and the block runs for exactly the missed keys. |
| ReportCache.MissesMembers | app/models/reports/repository.rb:86 | A key is recomputed exactly when the fetch is forced or the key is not stored. |
| ReportCache.ForcedFetchRecomputes | app/models/reports/repository.rb:86 | With `force: true`, every key is recomputed and the cache then holds the fresh values. |
| ReportCache.RefetchIsIdempotent | app/models/reports/repository.rb:86-88 | An unforced fetch right after a fetch of the same keys recomputes nothing and returns the same values. |
| ReportTypes.LastRegionWithSlug | app/models/reports/repository.rb:89-91 | Every slug of the regions has a last region carrying it. `ReKeyBySlug` states through it which fetched value each slug holds. |
| ReportTypes.KeyedBySlugStep | app/models/reports/repository.rb:113 | Each `hsh[region.slug] = value` keeps the hash keyed by exactly the slugs seen so far, each holding its last region's value. |
| ReportTypes.Distinct | app/models/reports/repository.rb:86-89 | The keys of a hash filled from a sequence: exactly its elements, each once. Built in first-occurrence order. |
| ReportTypes.DistinctOfUnique | app/models/reports/repository.rb:86-89 | A sequence without repeats is the key order of the hash filled from it. |
| ReportCache.DistinctCacheKeys | app/models/reports/repository.rb:85-89 | The distinct keys of one request, in first-occurrence order, are the keys of the distinct regions in that order. This is the order in which the re-keying visits the hash `fetch_multi` returns. |
| Reports.ReKeyBySlug | app/models/reports/repository.rb:89-91 | Given the visited keys and their regions, the result's keys are exactly those regions' slugs. Each slug holds the fetched value of `LastRegionWithSlug`, the last visited region carrying it. |
| Reports.Repository.CachedBySlug | app/models/reports/repository.rb:122-128 | One key per region is fetched with `force:` set to the bust flag, and the cache ends up holding the fetched values. It keeps every key it had and stores every requested key. Returns those values by slug, visiting the distinct keys in first-occurrence order. |
| Reports.Repository.CachedFetchPerRegion | app/models/reports/repository.rb:85-91 | With distinct slugs, each region's slug holds the stored series when it was cached and not busted, and otherwise its collaborator's series. |
| Reports.Repository.RepeatedRegionKeepsFirstPlace | app/models/reports/repository.rb:85-91 | Over regions `[a, b, a]` with `a` and `b` sharing a slug, the slug holds `b`'s fetched series, because `a`'s key keeps its first place in the returned hash. |
| Reports.Repository.MonthlyRegistrationsByUser | app/models/reports/repository.rb:84-92 | Memoized. Every call is logged in the trace. A repeated call returns the stored result and touches neither memo nor cache. A first call does the cached fetch grouped by `registration_user_id`, stores its result and leaves one cache entry per region (`Warmed`). No other memo entry changes. |
| Reports.Repository.BpMeasuresByUser | app/models/reports/repository.rb:136-144 | The same as above, with the BP measures query grouped by `user_id`, logged as its own call. |
| Reports.Repository.OverdueCallsByUser | app/models/reports/repository.rb:146-154 | The same as above, with the overdue calls query grouped by `user_id`, logged as its own call. |
| FollowUpGroups.GroupFieldFor | app/models/reports/repository.rb:95-100 | Suffix `user_id` gives user id and suffix `gender` gives patient gender, each as an if-and-only-if. nil gives no grouping. Anything else gives an ArgumentError naming the value. |
| FollowUpGroups.SuffixesExclusive | app/models/reports/repository.rb:96-97 | No value ends with both suffixes, so the order of the `when` arms does not matter. |
| FollowUpGroups.GroupFieldForExamples | app/models/reports/repository.rb:72 | The value warm_cache passes, `blood_pressures.user_id`, groups by user. `patient_gender` groups by gender. `region` is rejected. |
| FollowUpGroups.PivotGroupedCounts | app/models/reports/repository.rb:105-109 | `result[period][group] == count` for every input pair. Every period comes from the input, and no group is absent from the input. |
| FollowUpGroups.PivotIsUnique | app/models/reports/repository.rb:105-109 | Those conditions fix the pivot, so the order in which the pairs are visited does not matter. |
| FollowUpGroups.UnpivotRecoversCounts | app/models/reports/repository.rb:105-109 | Flattening the pivot gives back the grouped counts exactly: nothing is lost or merged. |
| Reports.Repository.FollowUpsV2Query | app/models/reports/repository.rb:94-115 | A bad grouping is the ArgumentError, with no region processed. Otherwise the keys are exactly the slugs. Each slug holds its last region's distinct-patient series, or the pivot of its grouped counts. |
| Reports.Repository.HypertensionFollowUps | app/models/reports/repository.rb:118-134 | Memoized, and every call is logged with its group_by. The direct path is taken exactly when the construction flag is set, and it leaves the cache unchanged. Otherwise the cached fetch is done with the given group_by and leaves one cache entry per region. It fails only on a bad grouping. A failure is not memoized, and no other memo entry changes. |
| PeriodWindows.WindowStart | app/models/reports/repository.rb:157 | The start is at or after both the range start and the earliest period, and is one of them. It is the range start when there is no earliest period. |
| PeriodWindows.PeriodsFromExact | app/models/reports/repository.rb:158 | `start..last` holds `last - start + 1` periods, or none when start is after last, and the i-th is i months after start. |
| PeriodWindows.WindowExact | app/models/reports/repository.rb:157-159 | The window is exactly the periods from `max(earliest, begin)` to `end`, strictly ascending, and none precedes either bound. |
| PeriodWindows.WindowExample | app/models/reports/repository.rb:157-159 | Earliest March 2023 over January to June 2023 gives March, April, May and June. |
| Reports.Repository.PeriodInfo | app/models/reports/repository.rb:156-160 | The i-th entry is the i-th period of the region's window, paired with that period's description. |
| ReportCatalog.RateCallsMembers | app/models/reports/repository.rb:66-69 | The rate loop makes exactly the rate calls: each listed rate plain, and with `with_ltfu` exactly when it has that variant. |
| ReportCatalog.PlanMember | app/models/reports/repository.rb:66-75 | A call is in the warm_cache plan exactly when it is a rate call the loop makes, the ungrouped follow-ups, or, for facility regions, one of the three per-user calls. |
| ReportCatalog.WarmCachePlanCalls | app/models/reports/repository.rb:66-75 | Every rate is warmed plain. Every rate except `ltfu_rates` and `missed_visits_with_ltfu_rates` is also warmed with `with_ltfu`. Ungrouped follow-ups are always warmed. Per-user follow-ups, BP measures and registrations are warmed exactly when all regions are facility regions. Overdue calls are never warmed. |
| Reports.Repository.CallRate | app/models/reports/repository.rb:67-68 | A `public_send` of a delegated rate returns the schema's rate and logs that one call, leaving the memo as it was. |
| Reports.Repository.WarmRates | app/models/reports/repository.rb:66-69 | The rate loop logs exactly the catalog's rate calls, in declaration order, and leaves the memo as it was. |
| Reports.WarmedTrans | app/models/reports/repository.rb:70-75 | Memoized fetches made one after another are `Warmed` by the union of their keys. |
| Reports.Repository.WarmPerUser | app/models/reports/repository.rb:72-74 | The facility-only block logs per-user follow-ups, BP measures and registrations, in that order. The memo gains exactly those three keys and keeps every result it held. Each of the three fetched through the cache and not memoized before leaves one cache entry per region. |
| Reports.Repository.WarmCache | app/models/reports/repository.rb:65-76 | The calls logged are exactly the plan above, in order. The memo gains exactly the ungrouped follow-ups and, for facility regions, the three per-user results, and keeps every result it held. The cache keeps every key. Every warmed fetch that goes through the cache and was not memoized before leaves one cache entry per region. |

`follow_ups_v2?` is `Reports.Repository.FollowUpsV2Enabled`, the flag stored at construction. The schema
delegation (`delegate(*DELEGATED_COUNTS)` and `delegate(*DELEGATED_RATES)`, lines 78-79) is
`Reports.Repository.Rate`, `Count`, `EarliestPatientRecordedAt` and `EarliestPatientRecordedAtPeriod`. Their
behaviour is the collaborator's by definition, so they carry no contract of their own. The alias
`adjusted_patients` (line 81) is `Reports.Repository.AdjustedPatients`, defined as
`Count(AdjustedPatientsWithoutLtfu)`. `ReportCatalog.EveryRateDelegated` shows that `DELEGATED_RATES` (lines 35-43)
names every rate, which `PlanMember` uses.

## Left out

- FetchMulti: the block never raises. A collaborator that raises midway, and the cache state it would leave, are not modelled.
- HypertensionFollowUps, MonthlyRegistrationsByUser, BpMeasuresByUser and OverdueCallsByUser: the query collaborators never raise, so the only error is the grouping ArgumentError. A collaborator's exception, its propagation out of `warm_cache`, and the memo and cache state after it are not modelled.
- The ghost trace logs the delegated rates and the memoized methods only. Calls the schema makes internally, and calls of `earliest_patient_recorded_at*` and `period_info`, are not logged.
- The SQL inside the direct follow-up query (lines 102-104 and 111). The grouped and distinct counts are opaque functions of the region's facility ids, the grouping column and the period type.
- The schema's rate and count formulas and the registered-patients, BP-measures, follow-ups and overdue-calls queries. Their code is not part of this model, so they are uninterpreted functions in `Queries`.
- `Period#to_hash` and `Period.formatter`: opaque labels, modelled as the function `periodMeta`.
- Rails cache internals: expiry, serialisation, and races with other processes sharing the cache. The cache is a map, and one fetch runs to completion without interference.
- The `Flipper` default for `follow_ups_v2:`. The flag is a plain constructor argument.
- The `Scientist` mixin, which this file does not use, and Memery's own implementation. The memo is a map from method and argument to result.
- `bust_cache?` (the `BustCache` mixin) is not part of this model. Its value is the `bust` parameter of each fetching method.
- `Array(regions).map(&:region)`: each argument is taken to be its own region.
- The keys of the memo do not distinguish a call without arguments from an explicit `group_by: nil`. Both map to the same memo entry.
- Ruby's Symbol/String distinction for `group_by` values: every group_by is a string.
- Ruby's error objects: an ArgumentError is a `Failure` carrying its message.
- `fetch_multi` returns an ordered hash. The model returns a map and visits its keys in the order `Distinct` gives, which is the hash's insertion order.
- The order in which the pivot visits the grouped counts is unspecified. `PivotIsUnique` shows that the result does not depend on it.
- `period_info` returns its hash as an ordered sequence of (period, description) pairs. The periods are distinct, so the insertion order of Ruby's hash is the order of the sequence.
- Month arithmetic is on the month ordinal. Calendar formatting of periods is not modelled.
- Quarter periods are only ever rejected at construction, as in the source. No quarter arithmetic is modelled.
