/** The named catalog the engine delegates to its schema, and the fixed call
    plan of `warm_cache` over it. */
module ReportCatalog {
  import opened ReportTypes

  /** DELEGATED_RATES. */
  datatype RateName =
    | ControlledRates
    | LtfuRates
    | MissedVisitsRate
    | MissedVisitsWithLtfuRates
    | MissedVisitsWithoutLtfuRates
    | UncontrolledRates
    | VisitedWithoutBpTakenRates

  /** DELEGATED_COUNTS whose value is a per-period series; the two
      `earliest_patient_recorded_at*` counts have their own members. */
  datatype CountName =
    | AdjustedPatientsWithLtfu
    | AdjustedPatientsWithoutLtfu
    | AssignedPatients
    | CompleteMonthlyRegistrations
    | Controlled
    | CumulativeAssignedPatients
    | CumulativeRegistrations
    | Ltfu
    | MissedVisits
    | MissedVisitsWithLtfu
    | MissedVisitsWithoutLtfu
    | MonthlyRegistrations
    | Uncontrolled
    | VisitedWithoutBpTaken
    | MonthlyOverdueCalls

  /** DELEGATED_RATES in declaration order: the order warm_cache visits them. */
  const DelegatedRates: seq<RateName> := [
    ControlledRates,
    LtfuRates,
    MissedVisitsRate,
    MissedVisitsWithLtfuRates,
    MissedVisitsWithoutLtfuRates,
    UncontrolledRates,
    VisitedWithoutBpTakenRates
  ]

  /** One call of an engine method that reads the schema or the cache. */
  datatype Call =
    | RateCall(name: RateName, withLtfu: bool)
    | FollowUpsCall(groupBy: Option<string>)
    | BpMeasuresByUserCall
    | MonthlyRegistrationsByUserCall
    | OverdueCallsByUserCall

  /** The group_by warm_cache passes for per-user follow-ups. */
  const UserFollowUpsGroup := "blood_pressures.user_id"

  /** Every rate except these two is also warmed with `with_ltfu: true`. */
  predicate HasLtfuVariant(name: RateName)
  {
    name != LtfuRates && name != MissedVisitsWithLtfuRates
  }

  /** The calls for one rate: plain, then with_ltfu unless it has no variant. */
  function CallsForRate(name: RateName): seq<Call>
  {
    [RateCall(name, false)] + (if HasLtfuVariant(name) then [RateCall(name, true)] else [])
  }

  /** The calls of the `DELEGATED_RATES.each` loop over `rates`, in order. */
  function RateCalls(rates: seq<RateName>): seq<Call>
  {
    if rates == [] then [] else RateCalls(rates[..|rates| - 1]) + CallsForRate(rates[|rates| - 1])
  }

  /** The whole warm_cache call sequence; `allFacility` is whether every
      region is a facility region. */
  function WarmCachePlan(allFacility: bool): seq<Call>
  {
    RateCalls(DelegatedRates)
    + [FollowUpsCall(None)]
    + (if allFacility then [FollowUpsCall(Some(UserFollowUpsGroup)), BpMeasuresByUserCall, MonthlyRegistrationsByUserCall] else [])
  }

  /** The rate loop makes exactly the rate calls: each listed rate without
      options, and with with_ltfu exactly when it has that variant. */
  lemma {:induction false} RateCallsMembers(rates: seq<RateName>, c: Call)
    ensures c in RateCalls(rates) <==> c.RateCall? && c.name in rates && (c.withLtfu ==> HasLtfuVariant(c.name))
  {
    if rates != [] {
      var init := rates[..|rates| - 1];
      assert rates == init + [rates[|rates| - 1]];
      RateCallsMembers(init, c);
    }
  }

  /** DELEGATED_RATES lists every rate, so warm_cache visits each one. */
  lemma EveryRateDelegated(n: RateName)
    ensures n in DelegatedRates
  {
    match n
    case ControlledRates => assert DelegatedRates[0] == n;
    case LtfuRates => assert DelegatedRates[1] == n;
    case MissedVisitsRate => assert DelegatedRates[2] == n;
    case MissedVisitsWithLtfuRates => assert DelegatedRates[3] == n;
    case MissedVisitsWithoutLtfuRates => assert DelegatedRates[4] == n;
    case UncontrolledRates => assert DelegatedRates[5] == n;
    case VisitedWithoutBpTakenRates => assert DelegatedRates[6] == n;
  }

  /** One call is in the warm_cache plan exactly when it is a rate call the
      rate loop makes, the ungrouped follow-ups, or, for facility regions, one
      of the three per-user calls. */
  lemma PlanMember(allFacility: bool, c: Call)
    ensures c in WarmCachePlan(allFacility) <==>
      || (c.RateCall? && (!c.withLtfu || HasLtfuVariant(c.name)))
      || c == FollowUpsCall(None)
      || (allFacility && (c == FollowUpsCall(Some(UserFollowUpsGroup)) || c == BpMeasuresByUserCall || c == MonthlyRegistrationsByUserCall))
  {
    RateCallsMembers(DelegatedRates, c);
    if c.RateCall? {
      EveryRateDelegated(c.name);
    }
  }

  /** The warm_cache plan: every delegated rate plain; every rate but
      ltfu_rates and missed_visits_with_ltfu_rates also with with_ltfu;
      ungrouped follow-ups always; per-user follow-ups, BP measures and
      registrations exactly when all regions are facility regions; never the
      overdue calls. */
  lemma WarmCachePlanCalls(allFacility: bool)
    ensures forall n: RateName :: RateCall(n, false) in WarmCachePlan(allFacility)
    ensures forall n: RateName :: RateCall(n, true) in WarmCachePlan(allFacility) <==> n != LtfuRates && n != MissedVisitsWithLtfuRates
    ensures FollowUpsCall(None) in WarmCachePlan(allFacility)
    ensures forall g: string :: FollowUpsCall(Some(g)) in WarmCachePlan(allFacility) <==> allFacility && g == UserFollowUpsGroup
    ensures BpMeasuresByUserCall in WarmCachePlan(allFacility) <==> allFacility
    ensures MonthlyRegistrationsByUserCall in WarmCachePlan(allFacility) <==> allFacility
    ensures OverdueCallsByUserCall !in WarmCachePlan(allFacility)
  {
    forall n: RateName, w: bool
      ensures RateCall(n, w) in WarmCachePlan(allFacility) <==> !w || HasLtfuVariant(n)
    {
      PlanMember(allFacility, RateCall(n, w));
    }
    forall g: string
      ensures FollowUpsCall(Some(g)) in WarmCachePlan(allFacility) <==> allFacility && g == UserFollowUpsGroup
    {
      PlanMember(allFacility, FollowUpsCall(Some(g)));
    }
    PlanMember(allFacility, FollowUpsCall(None));
    PlanMember(allFacility, BpMeasuresByUserCall);
    PlanMember(allFacility, MonthlyRegistrationsByUserCall);
    PlanMember(allFacility, OverdueCallsByUserCall);
  }
}
