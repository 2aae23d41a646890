/** The 7-day strip: daily periods grouped into days, each a daytime period with the night period
    that directly follows it. */
module ForecastStrip {
  import opened Optional
  import opened Forecast

  /** One day of the strip. */
  datatype DayEntry = DayEntry(day: Period, night: Option<Period>)

  const MaxDays := 7

  /** Entry `i` of the list is a (non-null) daytime period. */
  predicate IsDay(periods: PeriodList, i: int)
  {
    0 <= i < |periods| && periods[i].Some? && periods[i].value.isDaytime
  }

  /** The night of the period at `i`: the next entry, when there is one, it is not null and it is not
      a daytime period. */
  function NightAfter(periods: PeriodList, i: nat): (night: Option<Period>)
    requires i < |periods|
    ensures night.Some? <==> i + 1 < |periods| && periods[i + 1].Some? && !periods[i + 1].value.isDaytime
    ensures night.Some? ==> night == periods[i + 1]
  {
    if i + 1 < |periods| && periods[i + 1].Some? && !periods[i + 1].value.isDaytime then periods[i + 1] else None
  }

  function EntryAt(periods: PeriodList, i: nat): DayEntry
    requires IsDay(periods, i)
  {
    DayEntry(periods[i].value, NightAfter(periods, i))
  }

  /** The positions of the daytime periods among the first `n` entries: in increasing order, and
      every daytime position below `n` is one of them. */
  function DayIndices(periods: PeriodList, n: nat): (idx: seq<nat>)
    requires n <= |periods|
    ensures forall k :: 0 <= k < |idx| ==> idx[k] < n && IsDay(periods, idx[k])
    ensures forall k, j :: 0 <= k < j < |idx| ==> idx[k] < idx[j]
    ensures forall i :: 0 <= i < n && IsDay(periods, i) ==> i in idx
  {
    if n == 0 then []
    else
      var before := DayIndices(periods, n - 1);
      if IsDay(periods, n - 1) then before + [n - 1] else before
  }

  /** Every daytime period among the first `n` entries, with its night, in input order. */
  function Entries(periods: PeriodList, n: nat): (days: seq<DayEntry>)
    requires n <= |periods|
    ensures |days| == |DayIndices(periods, n)|
    ensures forall k :: 0 <= k < |days| ==> days[k] == EntryAt(periods, DayIndices(periods, n)[k])
  {
    if n == 0 then []
    else if IsDay(periods, n - 1) then Entries(periods, n - 1) + [EntryAt(periods, n - 1)]
    else Entries(periods, n - 1)
  }

  /** The entries of a shorter prefix begin the entries of a longer one. */
  lemma {:induction false} EntriesGrow(periods: PeriodList, m: nat, n: nat)
    requires m <= n <= |periods|
    ensures |Entries(periods, m)| <= |Entries(periods, n)|
    ensures Entries(periods, n)[..|Entries(periods, m)|] == Entries(periods, m)
  {
    if m < n {
      EntriesGrow(periods, m, n - 1);
      var short, mid := Entries(periods, m), Entries(periods, n - 1);
      assert Entries(periods, n)[..|mid|] == mid;
      assert Entries(periods, n)[..|short|] == mid[..|short|];
    }
  }

  /** The strip: the entries of the whole list, at most seven of them. */
  function Strip(periods: PeriodList): (days: seq<DayEntry>)
  {
    var all := Entries(periods, |periods|);
    if |all| <= MaxDays then all else all[..MaxDays]
  }

  /** `renderForecastStrip`'s grouping loop over `data.dailyPeriods || []`: it walks the list while
      fewer than seven days are collected, skips null entries and night periods, and pairs each
      daytime period with the night that follows it. */
  method GroupDays(data: CityData) returns (days: seq<DayEntry>)
    ensures days == Strip(data.dailyPeriods.GetOr([]))
  {
    var periods := data.dailyPeriods.GetOr([]);
    days := [];
    var i := 0;
    while i < |periods| && |days| < MaxDays
      invariant 0 <= i <= |periods|
      invariant days == Entries(periods, i)
      invariant |days| <= MaxDays
    {
      var p := periods[i];
      if p.Some? {
        if p.value.isDaytime {
          var night := if i + 1 < |periods| && periods[i + 1].Some? && !periods[i + 1].value.isDaytime
                       then periods[i + 1] else None;
          days := days + [DayEntry(p.value, night)];
        }
      }
      i := i + 1;
    }
    EntriesGrow(periods, i, |periods|);
  }

  /** What the strip holds: at most seven days, as many as there are daytime periods up to that
      bound, each a daytime period of the list (so a leading night period is dropped) with its night
      exactly the entry after it when that one is a night period, in the order of the list. */
  lemma StripShape(periods: PeriodList)
    ensures var days, idx := Strip(periods), DayIndices(periods, |periods|);
            && |days| == (if |idx| <= MaxDays then |idx| else MaxDays)
            && (forall k :: 0 <= k < |days| ==> days[k].day.isDaytime && periods[idx[k]] == Some(days[k].day))
            && (forall k :: 0 <= k < |days| ==> days[k].night == NightAfter(periods, idx[k]))
            && (forall k, j :: 0 <= k < j < |days| ==> idx[k] < idx[j])
  {
  }

  /** Pairing at work: a day followed by its night gives one entry holding both. */
  lemma DayThenNight(day: Period, night: Period)
    requires day.isDaytime && !night.isDaytime
    ensures Strip([Some(day), Some(night)]) == [DayEntry(day, Some(night))]
  {
    var periods := [Some(day), Some(night)];
    assert IsDay(periods, 0) && !IsDay(periods, 1);
    assert NightAfter(periods, 0) == Some(night);
    assert Entries(periods, 0) == [];
    assert Entries(periods, 1) == [DayEntry(day, Some(night))];
    assert Entries(periods, 2) == Entries(periods, 1);
  }

  /** A night at the front has no day to belong to and is dropped. */
  lemma LeadingNightDropped(night: Period, day: Period)
    requires !night.isDaytime && day.isDaytime
    ensures Strip([Some(night), Some(day)]) == [DayEntry(day, None)]
  {
    var periods := [Some(night), Some(day)];
    assert !IsDay(periods, 0) && IsDay(periods, 1);
    assert NightAfter(periods, 1) == None;
    assert Entries(periods, 1) == Entries(periods, 0) == [];
    assert Entries(periods, 2) == [DayEntry(day, None)];
  }
}
