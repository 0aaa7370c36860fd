/** Value types shared by the report engine: periods, regions, the per-period
    series the collaborators return, and the engine's one error. */
module ReportTypes {

  datatype Option<+T> = None | Some(value: T)

  datatype Result<+T, +E> = Success(value: T) | Failure(error: E)

  /** Ruby's ArgumentError, with its message. */
  datatype Error = ArgumentError(message: string)

  /** Ruby's `hash[key]`: nil when the key is absent. */
  function Lookup<K, V>(m: map<K, V>, key: K): Option<V>
  {
    if key in m then Some(m[key]) else None
  }

  datatype PeriodType = Month | Quarter

  /** A time bucket: its type and its place on the calendar, counted in months
      (year * 12 + month - 1 of the bucket's first month). Periods compare by
      `ordinal`, and the successor of a period is the one a month later. */
  datatype Period = Period(kind: PeriodType, ordinal: int)

  function MonthPeriod(year: int, month: int): Period
  {
    Period(Month, year * 12 + month - 1)
  }

  /** An inclusive Ruby range `first..last` of periods. */
  datatype PeriodRange = PeriodRange(first: Period, last: Period)

  type Slug = string

  type FacilityId = string

  /** An organisational unit: its stable slug, the facilities it covers and
      whether it is a single-facility region (`facility_region?`). */
  datatype Region = Region(slug: Slug, facilityIds: seq<FacilityId>, facilityRegion: bool)

  /** What a counter returns for one region: period -> count, or
      period -> group value -> count. */
  datatype Series =
    | Flat(counts: map<Period, nat>)
    | Grouped(groups: map<Period, map<string, nat>>)

  /** A result re-keyed by region slug. */
  type BySlug = map<Slug, Series>

  /** The slugs of the first `n` regions. */
  function SlugsBefore(regions: seq<Region>, n: nat): set<Slug>
    requires n <= |regions|
  {
    set i | 0 <= i < n :: regions[i].slug
  }

  /** One more region adds its slug. */
  lemma SlugsBeforeSnoc(regions: seq<Region>, n: nat)
    requires n < |regions|
    ensures SlugsBefore(regions, n + 1) == SlugsBefore(regions, n) + {regions[n].slug}
  {
    forall s | s in SlugsBefore(regions, n + 1) ensures s in SlugsBefore(regions, n) + {regions[n].slug} {
      var i :| 0 <= i < n + 1 && regions[i].slug == s;
      if i < n { assert s in SlugsBefore(regions, n); }
    }
  }

  function Slugs(regions: seq<Region>): set<Slug>
  {
    SlugsBefore(regions, |regions|)
  }

  /** The distinct elements of `xs` in the order of their first occurrence:
      the keys, in iteration order, of a Ruby hash filled from `xs`
      (`xs.index_with { ... }`), where a repeated key keeps its first place. */
  function Distinct<T(==,!new)>(xs: seq<T>): (ys: seq<T>)
    ensures forall x :: x in ys <==> x in xs
    ensures forall i, j | 0 <= i < j < |ys| :: ys[i] != ys[j]
  {
    if xs == [] then []
    else
      var init := xs[..|xs| - 1];
      assert xs == init + [xs[|xs| - 1]];
      var seen := Distinct(init);
      if xs[|xs| - 1] in seen then seen else seen + [xs[|xs| - 1]]
  }

  /** A sequence without repeats is its own set of distinct elements. */
  lemma {:induction false} DistinctOfUnique<T(!new)>(xs: seq<T>)
    requires forall i, j | 0 <= i < j < |xs| :: xs[i] != xs[j]
    ensures Distinct(xs) == xs
  {
    if xs != [] {
      var init := xs[..|xs| - 1];
      DistinctOfUnique(init);
      assert xs[|xs| - 1] !in init;
      assert xs == init + [xs[|xs| - 1]];
    }
  }

  /** A repeat keeps the place of the first occurrence. */
  lemma DistinctRepeat<T(!new)>(a: T, b: T)
    requires a != b
    ensures Distinct([a, b, a]) == [a, b]
  {
    assert [a][..0] == [];
    assert Distinct([a]) == [a];
    assert [a, b][..1] == [a];
    assert Distinct([a, b]) == [a, b];
    assert [a, b, a][..2] == [a, b];
  }

  /** Dropping repeated regions keeps the set of slugs. */
  lemma SlugsOfDistinct(regions: seq<Region>)
    ensures Slugs(Distinct(regions)) == Slugs(regions)
  {
    var visited := Distinct(regions);
    forall s | s in Slugs(regions) ensures s in Slugs(visited) {
      var i :| 0 <= i < |regions| && regions[i].slug == s;
      assert regions[i] in visited;
      var k :| 0 <= k < |visited| && visited[k] == regions[i];
    }
    forall s | s in Slugs(visited) ensures s in Slugs(regions) {
      var k :| 0 <= k < |visited| && visited[k].slug == s;
      assert visited[k] in regions;
      var i :| 0 <= i < |regions| && regions[i] == visited[k];
    }
  }

  /** Regions with distinct slugs are distinct regions. */
  lemma UniqueSlugsDistinct(regions: seq<Region>)
    requires UniqueSlugs(regions)
    ensures Distinct(regions) == regions
  {
    DistinctOfUnique(regions);
  }

  /** regions[j] is the last of regions[..n] that carries its slug: a Ruby hash
      filled in region order with `hsh[region.slug] = ...` keeps its value. */
  ghost predicate LastWithSlug(regions: seq<Region>, j: int, n: int)
  {
    && 0 <= j < n <= |regions|
    && forall k | j < k < n :: regions[k].slug != regions[j].slug
  }

  ghost predicate UniqueSlugs(regions: seq<Region>)
  {
    forall i, j | 0 <= i < j < |regions| :: regions[i].slug != regions[j].slug
  }

  /** `regions.all? { |region| region.facility_region? }` (true when empty). */
  predicate AllFacilityRegions(regions: seq<Region>)
  {
    forall r | r in regions :: r.facilityRegion
  }

  /** The index of the last of the first `n` regions that carries slug `s`:
      the region whose value a hash filled in region order keeps, so such a
      hash is fixed by the values of these regions. */
  function LastRegionWithSlug(regions: seq<Region>, n: nat, s: Slug): (j: nat)
    requires n <= |regions| && s in SlugsBefore(regions, n)
    ensures LastWithSlug(regions, j, n) && regions[j].slug == s
  {
    if regions[n - 1].slug == s then n - 1
    else
      SlugsBeforeSnoc(regions, n - 1);
      LastRegionWithSlug(regions, n - 1, s)
  }

  /** `bySlug` is the hash `hsh[regions[k].slug] = values[k]` leaves after the
      first `n` regions, visited in order: its keys are their slugs, and each
      holds the value of the last region carrying it. */
  ghost predicate KeyedBySlug(regions: seq<Region>, values: seq<Series>, bySlug: BySlug, n: nat)
    requires n <= |regions| && n <= |values|
  {
    && bySlug.Keys == SlugsBefore(regions, n)
    && forall j | LastWithSlug(regions, j, n) :: regions[j].slug in bySlug && bySlug[regions[j].slug] == values[j]
  }

  /** One more assignment `hsh[regions[n].slug] = value` keeps KeyedBySlug. */
  lemma KeyedBySlugStep(regions: seq<Region>, values: seq<Series>, bySlug: BySlug, value: Series)
    requires |values| < |regions|
    requires KeyedBySlug(regions, values, bySlug, |values|)
    ensures KeyedBySlug(regions, values + [value], bySlug[regions[|values|].slug := value], |values| + 1)
  {
    var n := |values|;
    var next := bySlug[regions[n].slug := value];
    var extended := values + [value];
    SlugsBeforeSnoc(regions, n);
    assert next.Keys == SlugsBefore(regions, n + 1);
    forall j | LastWithSlug(regions, j, n + 1)
      ensures regions[j].slug in next && next[regions[j].slug] == extended[j]
    {
      if j < n {
        assert LastWithSlug(regions, j, n);
        assert regions[j].slug != regions[n].slug;
        assert extended[j] == values[j];
      } else {
        assert extended[j] == value;
      }
    }
  }
}
