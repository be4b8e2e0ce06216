/** Which date the tee-time agent inspects: the day exactly `lookahead_days` after today,
    kept only when it falls on a Friday, Saturday or Sunday. */
module DateWindow {
  import opened Wrappers
  import opened Calendar

  /** `WEEKDAY_NAMES`, keyed by `date.weekday()`. */
  const WeekdayNames: map<int, string> :=
    map[0 := "Monday", 1 := "Tuesday", 2 := "Wednesday", 3 := "Thursday",
        4 := "Friday", 5 := "Saturday", 6 := "Sunday"]

  /** `WEEKEND_INDICES`: Friday counts as part of the weekend. */
  const WeekendIndices: set<int> := {4, 5, 6}

  /** The booking window opens this many days ahead. */
  const DefaultLookahead: int := 10

  /** A calendar date the agent should inspect. */
  datatype TargetDate = TargetDate(value: Ordinal) {

    /** `TargetDate.iso`. */
    function Iso(): (s: string)
      ensures |s| == 10 && Calendar.ParseIso(s) == Some(value)
    {
      Calendar.ParseIsoIso(value);
      Calendar.Iso(value)
    }

    /** `TargetDate.day_name`: the lookup never misses, since the table covers every
        weekday, and it agrees with the name `strftime("%A")` prints. */
    function DayName(): (s: string)
      ensures s == Calendar.DayNames[Weekday(value)]
      ensures s in WeekdayNames.Values
    {
      WeekdayNames[Weekday(value)]
    }

    /** `TargetDate.is_weekend`. */
    predicate IsWeekend()
    {
      Weekday(value) in WeekendIndices
    }
  }

  /** `is_weekend` holds exactly on the days named Friday, Saturday and Sunday. */
  lemma WeekendByName(t: TargetDate)
    ensures t.IsWeekend() <==> t.DayName() in {"Friday", "Saturday", "Sunday"}
  {
  }

  /** `compute_target_dates(today, lookahead_days=k)`: `today` falls back to the clock's
      date (a parameter here), and adding the days may overflow the calendar. */
  function ComputeTargetDates(today: Option<Ordinal>, clock: Ordinal, lookaheadDays: int)
    : (r: Result<seq<TargetDate>>)
    ensures r.Success? <==> AddDays(today.GetOr(clock), lookaheadDays).Success?
    ensures r.Success? ==> |r.value| <= 1
    ensures r.Success? ==> forall t :: t in r.value ==> t.value == today.GetOr(clock) + lookaheadDays
    ensures r.Success? ==> (|r.value| == 1 <==> Weekday(today.GetOr(clock) + lookaheadDays) in {4, 5, 6})
  {
    var base := today.GetOr(clock);
    match AddDays(base, lookaheadDays)
    case Failure(e) => Failure(e)
    case Success(v) =>
      var target := TargetDate(v);
      Success(if target.IsWeekend() then [target] else [])
  }

  /** `compute_target_dates()` as called without arguments: ten days after the clock's date. */
  function DefaultTargetDates(clock: Ordinal): (r: Result<seq<TargetDate>>)
    ensures r.Success? <==> clock + 10 <= MaxOrdinal
    ensures r.Success? ==> (r.value == [] || r.value == [TargetDate(clock + 10)])
  {
    ComputeTargetDates(None, clock, DefaultLookahead)
  }

  /** A target for lookahead `n` exists exactly when one for `n + 7` does, for backward
      lookaheads too, as long as both targets are valid dates. */
  lemma WeeklyPeriod(today: Ordinal, n: int)
    requires -999999999 <= n && n + 7 <= 999999999 && 1 <= today + n && today + n + 7 <= MaxOrdinal
    ensures ComputeTargetDates(Some(today), today, n).Success?
    ensures ComputeTargetDates(Some(today), today, n + 7).Success?
    ensures |ComputeTargetDates(Some(today), today, n).value|
            == |ComputeTargetDates(Some(today), today, n + 7).value|
  {
    WeekdayShift(today + n, 7);
  }

  /** Whether lookahead `k` yields a target: 1 if so, 0 if not. */
  function HasTarget(today: Ordinal, k: int): (c: nat)
    requires 0 <= k <= 999999999 && today + k <= MaxOrdinal
    ensures c == if Weekday(today + k) in WeekendIndices then 1 else 0
  {
    |ComputeTargetDates(Some(today), today, k).value|
  }

  /** How many of the lookaheads `n`, `n + 1`, ..., `n + len - 1` yield a target. */
  function TargetCount(today: Ordinal, n: int, len: nat): (c: nat)
    requires 0 <= n && today + n + len <= MaxOrdinal + 1 && n + len <= 1000000000
    ensures c <= len
    decreases len
  {
    if len == 0 then 0 else HasTarget(today, n) + TargetCount(today, n + 1, len - 1)
  }

  /** 1 for a weekday number that is a weekend day, 0 otherwise. */
  function WeekendFlag(w: int): nat {
    if w % 7 in WeekendIndices then 1 else 0
  }

  /** Of any seven consecutive lookaheads, exactly three yield a target. */
  lemma {:induction false} ThreeInEveryWeek(today: Ordinal, n: int)
    requires 0 <= n && today + n + 7 <= MaxOrdinal + 1 && n + 7 <= 1000000000
    ensures TargetCount(today, n, 7) == 3
  {
    WeekFlags(today, n);
    TargetCountWeek(today, n);
    WeekendResidues(Weekday(today + n));
  }

  /** The seven lookaheads of a week, each flagged by its weekday. */
  lemma WeekFlags(today: Ordinal, n: int)
    requires 0 <= n && today + n + 7 <= MaxOrdinal + 1 && n + 7 <= 1000000000
    ensures var w := Weekday(today + n);
            HasTarget(today, n) == WeekendFlag(w + 0) && HasTarget(today, n + 1) == WeekendFlag(w + 1)
            && HasTarget(today, n + 2) == WeekendFlag(w + 2) && HasTarget(today, n + 3) == WeekendFlag(w + 3)
            && HasTarget(today, n + 4) == WeekendFlag(w + 4) && HasTarget(today, n + 5) == WeekendFlag(w + 5)
            && HasTarget(today, n + 6) == WeekendFlag(w + 6)
  {
    DayFlag(today, n, 0);
    DayFlag(today, n, 1);
    DayFlag(today, n, 2);
    DayFlag(today, n, 3);
    DayFlag(today, n, 4);
    DayFlag(today, n, 5);
    DayFlag(today, n, 6);
  }

  /** Lookahead `n + i` yields a target when the weekday `i` days after that of `n` is a
      weekend day. */
  lemma DayFlag(today: Ordinal, n: int, i: int)
    requires 0 <= n && 0 <= i < 7 && today + n + 7 <= MaxOrdinal + 1 && n + 7 <= 1000000000
    ensures HasTarget(today, n + i) == WeekendFlag(Weekday(today + n) + i)
  {
    WeekdayShift(today + n, i);
  }

  /** The count over a week, written out day by day. */
  lemma TargetCountWeek(today: Ordinal, n: int)
    requires 0 <= n && today + n + 7 <= MaxOrdinal + 1 && n + 7 <= 1000000000
    ensures TargetCount(today, n, 7)
         == HasTarget(today, n) + HasTarget(today, n + 1) + HasTarget(today, n + 2)
          + HasTarget(today, n + 3) + HasTarget(today, n + 4) + HasTarget(today, n + 5)
          + HasTarget(today, n + 6)
  {
    assert TargetCount(today, n + 6, 1) == HasTarget(today, n + 6);
    assert TargetCount(today, n + 4, 3) == HasTarget(today, n + 4) + TargetCount(today, n + 5, 2);
    assert TargetCount(today, n + 2, 5) == HasTarget(today, n + 2) + TargetCount(today, n + 3, 4);
  }

  /** Starting from any weekday, three of the next seven weekdays are weekend days. */
  lemma WeekendResidues(w: int)
    requires 0 <= w <= 6
    ensures WeekendFlag(w + 0) + WeekendFlag(w + 1) + WeekendFlag(w + 2) + WeekendFlag(w + 3)
          + WeekendFlag(w + 4) + WeekendFlag(w + 5) + WeekendFlag(w + 6) == 3
  {
  }
}
