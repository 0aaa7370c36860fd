/** The window calculator behind `period_info`: a region's periods run from the
    later of its earliest recorded period and the engine's first period, to the
    engine's last period. */
module PeriodWindows {
  import opened ReportTypes

  /** `[earliest, range_begin].compact.max`: the range start when the region
      has no earliest period, otherwise the later of the two (the earliest
      period on a tie, as Array#max keeps the first maximum). */
  function WindowStart(earliest: Option<Period>, first: Period): (start: Period)
    ensures start.ordinal >= first.ordinal
    ensures earliest.Some? ==> start.ordinal >= earliest.value.ordinal
    ensures start == first || (earliest.Some? && start == earliest.value)
    ensures earliest.None? ==> start == first
  {
    match earliest
    case None => first
    case Some(e) => if first.ordinal > e.ordinal then first else e
  }

  /** The periods of the inclusive range `start..last`, each the successor of
      the one before; empty when start comes after last. */
  function PeriodsFrom(start: Period, last: Period): seq<Period>
    decreases last.ordinal - start.ordinal
  {
    if start.ordinal > last.ordinal then []
    else [start] + PeriodsFrom(Period(start.kind, start.ordinal + 1), last)
  }

  /** The keys of `period_info`, in order. */
  function Window(earliest: Option<Period>, range: PeriodRange): seq<Period>
  {
    PeriodsFrom(WindowStart(earliest, range.first), range.last)
  }

  /** `start..last` holds last - start + 1 periods, the i-th being i months
      after start. */
  lemma {:induction false} PeriodsFromExact(start: Period, last: Period)
    ensures |PeriodsFrom(start, last)| == if start.ordinal <= last.ordinal then last.ordinal - start.ordinal + 1 else 0
    ensures forall i | 0 <= i < |PeriodsFrom(start, last)| :: PeriodsFrom(start, last)[i] == Period(start.kind, start.ordinal + i)
    decreases last.ordinal - start.ordinal
  {
    if start.ordinal <= last.ordinal {
      var next := Period(start.kind, start.ordinal + 1);
      PeriodsFromExact(next, last);
      var rest := PeriodsFrom(next, last);
      assert PeriodsFrom(start, last) == [start] + rest;
      forall i | 0 < i < |PeriodsFrom(start, last)|
        ensures PeriodsFrom(start, last)[i] == Period(start.kind, start.ordinal + i)
      {
        assert PeriodsFrom(start, last)[i] == rest[i - 1];
      }
    }
  }

  /** The window holds exactly the periods of the start's type from
      max(earliest, range start) to the range end, in strictly ascending order;
      none precedes the range start or the region's earliest period. */
  lemma WindowExact(earliest: Option<Period>, range: PeriodRange)
    ensures var w := Window(earliest, range);
            var start := WindowStart(earliest, range.first);
            && (forall p :: p in w <==> p.kind == start.kind && start.ordinal <= p.ordinal <= range.last.ordinal)
            && (forall i, j | 0 <= i < j < |w| :: w[i].ordinal < w[j].ordinal)
            && (forall p | p in w :: range.first.ordinal <= p.ordinal)
            && (forall p | p in w :: earliest.Some? ==> earliest.value.ordinal <= p.ordinal)
  {
    var start := WindowStart(earliest, range.first);
    var w := Window(earliest, range);
    PeriodsFromExact(start, range.last);
    forall p: Period | p.kind == start.kind && start.ordinal <= p.ordinal <= range.last.ordinal
      ensures p in w
    {
      assert w[p.ordinal - start.ordinal] == p;
    }
  }

  /** A region first recorded in March 2023, viewed over January to June 2023,
      gets March, April, May and June, in that order. */
  lemma WindowExample()
    ensures Window(Some(MonthPeriod(2023, 3)), PeriodRange(MonthPeriod(2023, 1), MonthPeriod(2023, 6)))
         == [MonthPeriod(2023, 3), MonthPeriod(2023, 4), MonthPeriod(2023, 5), MonthPeriod(2023, 6)]
  {
    var w := Window(Some(MonthPeriod(2023, 3)), PeriodRange(MonthPeriod(2023, 1), MonthPeriod(2023, 6)));
    PeriodsFromExact(MonthPeriod(2023, 3), MonthPeriod(2023, 6));
    assert |w| == 4;
  }
}
