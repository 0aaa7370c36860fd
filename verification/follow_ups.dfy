/** The direct ("v2") follow-up strategy's own logic: which grouping column a
    `group_by` value selects, and the pivot of `(group, period) -> count` into
    `period -> group -> count`. */
module FollowUpGroups {
  import opened ReportTypes

  /** The columns the direct follow-up query can group by. */
  datatype GroupField = UserId | PatientGender

  /** The regular expression `/suffix\z/`: `s` ends with `suffix`. */
  predicate EndsWith(s: string, suffix: string)
  {
    |suffix| <= |s| && s[|s| - |suffix|..] == suffix
  }

  /** No string ends with both "user_id" and "gender". */
  lemma SuffixesExclusive(s: string)
    ensures !(EndsWith(s, "user_id") && EndsWith(s, "gender"))
  {
    if EndsWith(s, "user_id") && 6 <= |s| {
      assert s[|s| - 1] == s[|s| - 7..][6] == 'd';
      assert s[|s| - 6..][5] != "gender"[5];
    }
  }

  /** The `case group_by` of `follow_ups_v2_query`: a value ending in "user_id"
      groups by user, one ending in "gender" by patient gender, nil does not
      group, and anything else is an ArgumentError naming the value. */
  function GroupFieldFor(groupBy: Option<string>): (r: Result<Option<GroupField>, Error>)
    ensures r == Success(None) <==> groupBy.None?
    ensures r == Success(Some(UserId)) <==> groupBy.Some? && EndsWith(groupBy.value, "user_id")
    ensures r == Success(Some(PatientGender)) <==> groupBy.Some? && EndsWith(groupBy.value, "gender")
    ensures r.Failure? <==> groupBy.Some? && !EndsWith(groupBy.value, "user_id") && !EndsWith(groupBy.value, "gender")
    ensures r.Failure? ==> r.error == ArgumentError("unknown group for follow ups " + groupBy.value)
  {
    match groupBy
    case Some(g) =>
      SuffixesExclusive(g);
      if EndsWith(g, "user_id") then Success(Some(UserId))
      else if EndsWith(g, "gender") then Success(Some(PatientGender))
      else Failure(ArgumentError("unknown group for follow ups " + g))
    case None => Success(None)
  }

  /** The group_by values the engine itself passes, and a dimension outside the
      closed set. */
  lemma GroupFieldForExamples()
    ensures GroupFieldFor(Some("blood_pressures.user_id")) == Success(Some(UserId))
    ensures GroupFieldFor(Some("patient_gender")) == Success(Some(PatientGender))
    ensures GroupFieldFor(Some("region")).Failure?
  {
    assert EndsWith("blood_pressures.user_id", "user_id");
    assert EndsWith("patient_gender", "gender");
    assert !EndsWith("region", "gender") by { assert "region"[0] != "gender"[0]; }
  }

  /** `pivot` is `grouped` turned into period -> group -> count: every input
      entry is found under its period and group, every period of the result
      comes from the input, and no group appears that the input lacks. */
  ghost predicate IsPivotOf(pivot: map<Period, map<string, nat>>, grouped: map<(string, Period), nat>)
  {
    && pivot.Keys == (set key | key in grouped :: key.1)
    && (forall key | key in grouped :: key.1 in pivot && key.0 in pivot[key.1] && pivot[key.1][key.0] == grouped[key])
    && (forall p, g | p in pivot && g in pivot[p] :: (g, p) in grouped)
  }

  /** The `each_with_object` over the grouped counts:
      `result[period] ||= {}; result[period][group] = count`. */
  method PivotGroupedCounts(grouped: map<(string, Period), nat>) returns (pivot: map<Period, map<string, nat>>)
    ensures IsPivotOf(pivot, grouped)
  {
    pivot := map[];
    var pending := grouped.Keys;
    while pending != {}
      invariant pending <= grouped.Keys
      invariant pivot.Keys == (set key | key in grouped.Keys - pending :: key.1)
      invariant forall key | key in grouped.Keys - pending ::
                  key.1 in pivot && key.0 in pivot[key.1] && pivot[key.1][key.0] == grouped[key]
      invariant forall p, g | p in pivot && g in pivot[p] :: (g, p) in grouped.Keys - pending
      decreases pending
    {
      var key :| key in pending;
      var (group, period) := key;
      var counts := if period in pivot then pivot[period] else map[];
      pivot := pivot[period := counts[group := grouped[key]]];
      ghost var done := grouped.Keys - pending;
      pending := pending - {key};
      assert grouped.Keys - pending == done + {key};
      assert (set k | k in done + {key} :: k.1) == (set k | k in done :: k.1) + {period};
    }
  }

  /** Two pivots of the same counts are equal: the three conditions of
      IsPivotOf fix the result. */
  lemma PivotIsUnique(a: map<Period, map<string, nat>>, b: map<Period, map<string, nat>>, grouped: map<(string, Period), nat>)
    requires IsPivotOf(a, grouped) && IsPivotOf(b, grouped)
    ensures a == b
  {
    forall p | p in a
      ensures a[p] == b[p]
    {
      assert a[p].Keys == b[p].Keys by {
        forall g | g in a[p] ensures g in b[p] { assert (g, p) in grouped; }
        forall g | g in b[p] ensures g in a[p] { assert (g, p) in grouped; }
      }
      forall g | g in a[p] ensures a[p][g] == b[p][g] { assert (g, p) in grouped; }
    }
  }

  /** Flattens period -> group -> count back into (group, period) -> count. */
  function Unpivot(pivot: map<Period, map<string, nat>>): map<(string, Period), nat>
  {
    var keys := set p, g | p in pivot && g in pivot[p] :: (g, p);
    map key | key in keys && key.1 in pivot && key.0 in pivot[key.1] :: pivot[key.1][key.0]
  }

  /** The pivot loses nothing: flattening it gives back the grouped counts. */
  lemma UnpivotRecoversCounts(pivot: map<Period, map<string, nat>>, grouped: map<(string, Period), nat>)
    requires IsPivotOf(pivot, grouped)
    ensures Unpivot(pivot) == grouped
  {
    var flat := Unpivot(pivot);
    forall key | key in grouped ensures key in flat && flat[key] == grouped[key] {
      var (g, p) := key;
      assert p in pivot && g in pivot[p];
    }
    assert flat.Keys == grouped.Keys;
  }
}
