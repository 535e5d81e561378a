/**
  Daily streaks as the core service computes them, from timestamps: CalculateStreak rebuilds UTC
  midnights from calendar fields, which for every date Date.UTC does not remap is the same as
  counting days, so the whole-history claims of StreakDays hold of it.
  */
module Streak {
  import opened Wrappers
  import opened Calendar
  import opened Numbers
  import StreakDays

  datatype StreakState = StreakState(currentStreak: int, longestStreak: int, lastActivityDate: Option<int>)

  datatype Update = Update(currentStreak: int, longestStreak: int, lastActivityDate: int, incremented: bool)

  function Midnight(t: int): int { DateUtc(UtcFullYear(t), UtcMonth(t), UtcDate(t)) }

  function DayDiff(act: int, last: int): int { Round((Midnight(act) - Midnight(last)) as real / MS_PER_DAY as real) }

  /** The cases of the update, by the difference in days to the last activity. */
  function UpdateBy(state: StreakState, act: int, last: int, dayDiff: int): Update {
    var kept := if state.currentStreak > 0 then state.currentStreak else 1;
    if dayDiff == 0 then Update(kept, Max(state.longestStreak, kept), act, false)
    else if dayDiff == 1 then
      var next := (if state.currentStreak > 0 then state.currentStreak else 0) + 1;
      Update(next, Max(state.longestStreak, next), act, true)
    else if dayDiff > 1 then Update(1, Max(state.longestStreak, 1), act, true)
    else Update(kept, Max(state.longestStreak, kept), last, false)
  }

  function CalculateStreak(state: StreakState, act: int): Update {
    if state.lastActivityDate.None? then Update(1, Max(state.longestStreak, 1), act, true)
    else UpdateBy(state, act, state.lastActivityDate.value, DayDiff(act, state.lastActivityDate.value))
  }

  /** A date before the year 0 or after the year 99. */
  predicate Datable(t: int) { Day(t) < DayFromYear(0) || DayFromYear(100) <= Day(t) }

  /** Those are the dates that Date.UTC does not remap. */
  lemma DatableExactly(t: int)
    ensures Datable(t) <==> !(0 <= UtcFullYear(t) <= 99)
  {
    var y := UtcFullYear(t);
    if y < 0 { YearsIncrease(y + 1, 0); }
    if 0 <= y <= 99 {
      YearsIncrease(0, y);
      YearsIncrease(y + 1, 100);
    }
    if y > 99 { YearsIncrease(100, y); }
  }

  lemma RoundWhole(n: int)
    ensures Round((n * MS_PER_DAY) as real / MS_PER_DAY as real) == n
  {
    assert (n * MS_PER_DAY) as real / MS_PER_DAY as real == n as real;
  }

  /** `dayDiff` is the difference of the two day numbers exactly when Date.UTC moves both dates alike. */
  lemma DayDiffExactly(act: int, last: int)
    ensures DayDiff(act, last) == Day(act) - Day(last) + (RemapDays(act) - RemapDays(last))
    ensures DayDiff(act, last) == Day(act) - Day(last) <==> RemapDays(act) == RemapDays(last)
  {
    RebuiltMidnight(act);
    RebuiltMidnight(last);
    RoundWhole(Day(act) - Day(last) + (RemapDays(act) - RemapDays(last)));
  }

  /** So it is for any two dates that are not moved. */
  lemma DayDiffIsDayDifference(act: int, last: int)
    requires Datable(act) && Datable(last)
    ensures DayDiff(act, last) == Day(act) - Day(last)
  {
    DatableExactly(act);
    DatableExactly(last);
    DayDiffExactly(act, last);
  }

  /** New Year's Day of the year 100 does not continue a streak from the day before. */
  lemma RemappingBreaksAStreak()
    ensures
      var last, act := MakeDay(99, 11, 31) * MS_PER_DAY, MakeDay(100, 0, 1) * MS_PER_DAY;
      && Day(act) == Day(last) + 1
      && CalculateStreak(StreakState(5, 5, Some(last)), act) == Update(5, 5, last, false)
  {
    var last, act := MakeDay(99, 11, 31) * MS_PER_DAY, MakeDay(100, 0, 1) * MS_PER_DAY;
    MakeDayReadsBack(99, 11, 31);
    MakeDayReadsBack(100, 0, 1);
    DayDiffExactly(act, last);
  }

  /** The stored state, in days. */
  function InDays(s: StreakState): StreakDays.Summary {
    StreakDays.Summary(s.currentStreak, s.longestStreak,
                       if s.lastActivityDate.None? then None else Some(Day(s.lastActivityDate.value)))
  }

  function Stored(u: Update): StreakState { StreakState(u.currentStreak, u.longestStreak, Some(u.lastActivityDate)) }

  lemma UpdateByIsStep(s: StreakState, act: int, last: int)
    requires s.lastActivityDate == Some(last)
    ensures
      var u := UpdateBy(s, act, last, Day(act) - Day(last));
      (InDays(Stored(u)), u.incremented) == StreakDays.Step(InDays(s), Day(act))
  {}

  /** One update by timestamps is one step by days. */
  lemma UpdateIsStep(s: StreakState, act: int)
    requires Datable(act) && (s.lastActivityDate.Some? ==> Datable(s.lastActivityDate.value))
    ensures
      var u := CalculateStreak(s, act);
      (InDays(Stored(u)), u.incremented) == StreakDays.Step(InDays(s), Day(act))
  {
    if s.lastActivityDate.Some? {
      DayDiffIsDayDifference(act, s.lastActivityDate.value);
      UpdateByIsStep(s, act, s.lastActivityDate.value);
    }
  }

  /**
    What one update does to any stored state, counts of zero or less included: a later day counts, and
    continues the streak if it is the next one; an activity of the same or a later day becomes the last.
    */
  lemma UpdateExactly(s: StreakState, act: int, last: int)
    requires Datable(act) && Datable(last) && s.lastActivityDate == Some(last)
    ensures
      var u, days := CalculateStreak(s, act), Day(act) - Day(last);
      && u.incremented == (days >= 1) && u.lastActivityDate == (if days >= 0 then act else last)
      && u.currentStreak == (if days == 1 then Max(s.currentStreak, 0) + 1 else if days > 1 then 1
                             else Max(s.currentStreak, 1))
      && u.longestStreak == Max(s.longestStreak, u.currentStreak)
  {
    DayDiffIsDayDifference(act, last);
  }

  /** The stored state after a history of activity times, in the order they are processed. */
  function After(acts: seq<int>): StreakState {
    if acts == [] then StreakState(0, 0, None)
    else Stored(CalculateStreak(After(acts[..|acts| - 1]), acts[|acts| - 1]))
  }

  function Days(acts: seq<int>): seq<int> { seq(|acts|, i requires 0 <= i < |acts| => Day(acts[i])) }

  predicate AllDatable(acts: seq<int>) { forall i :: 0 <= i < |acts| ==> Datable(acts[i]) }

  /** The last activity date is one of the activity times. */
  lemma {:induction false} LastIsAnActivity(acts: seq<int>)
    ensures After(acts).lastActivityDate.Some? <==> acts != []
    ensures acts != [] ==> After(acts).lastActivityDate.value in acts
  {
    if acts != [] { LastIsAnActivity(acts[..|acts| - 1]); }
  }

  lemma LastIsDatable(acts: seq<int>)
    requires AllDatable(acts)
    ensures After(acts).lastActivityDate.Some? ==> Datable(After(acts).lastActivityDate.value)
  {
    LastIsAnActivity(acts);
  }

  lemma StepMatchesFold(s: StreakState, act: int, days: seq<int>)
    requires Datable(act) && (s.lastActivityDate.Some? ==> Datable(s.lastActivityDate.value))
    requires InDays(s) == StreakDays.Fold(days)
    ensures InDays(Stored(CalculateStreak(s, act))) == StreakDays.Fold(days + [Day(act)])
  {
    UpdateIsStep(s, act);
    assert (days + [Day(act)])[..|days|] == days;
  }

  lemma DaysAppend(acts: seq<int>, act: int)
    ensures Days(acts + [act]) == Days(acts) + [Day(act)]
  {}

  lemma DaysSplit(acts: seq<int>)
    requires acts != []
    ensures Days(acts) == Days(acts[..|acts| - 1]) + [Day(acts[|acts| - 1])]
  {}

  lemma {:induction false} AfterIsFold(acts: seq<int>)
    requires AllDatable(acts)
    ensures InDays(After(acts)) == StreakDays.Fold(Days(acts))
  {
    if acts != [] {
      var before, act := acts[..|acts| - 1], acts[|acts| - 1];
      AfterIsFold(before);
      LastIsDatable(before);
      StepMatchesFold(After(before), act, Days(before));
      DaysSplit(acts);
    }
  }

  /**
    For every history of activity times, in any order: the last activity is on the latest day, the
    current streak is the consecutive run of record days that ends there, and the longest streak is
    the longest such run.
    */
  lemma FoldSummarizesHistory(acts: seq<int>)
    requires acts != [] && AllDatable(acts)
    ensures
      var s, records := After(acts), StreakDays.RecordDays(Days(acts));
      && s.lastActivityDate.Some? && StreakDays.LatestIs(records, Day(s.lastActivityDate.value))
      && StreakDays.RunEndingAt(records, Day(s.lastActivityDate.value), s.currentStreak)
      && StreakDays.LongestRun(records, s.longestStreak)
  {
    AfterIsFold(acts);
    StreakDays.FoldSummarizes(Days(acts));
  }

  lemma NextUpdateIsStep(acts: seq<int>, act: int)
    requires AllDatable(acts) && Datable(act)
    ensures CalculateStreak(After(acts), act).incremented == StreakDays.Step(StreakDays.Fold(Days(acts)), Day(act)).1
  {
    AfterIsFold(acts);
    LastIsDatable(acts);
    UpdateIsStep(After(acts), act);
  }

  /** Over every history `incremented` is reported exactly once for each record day. */
  lemma IncrementedOncePerRecordDay(acts: seq<int>, act: int)
    requires AllDatable(acts) && Datable(act)
    ensures
      var before, after := StreakDays.RecordDays(Days(acts)), StreakDays.RecordDays(Days(acts + [act]));
      CalculateStreak(After(acts), act).incremented <==> Day(act) !in before && Day(act) in after
  {
    NextUpdateIsStep(acts, act);
    DaysAppend(acts, act);
    StreakDays.IncrementedOncePerRecordDay(Days(acts), Day(act));
  }

  /** The last activity date never goes back a day, whatever order activities arrive in. */
  lemma LastDayNeverGoesBack(acts: seq<int>, act: int)
    requires acts != [] && AllDatable(acts) && Datable(act)
    ensures InDays(After(acts)).last.Some?
    ensures InDays(After(acts + [act])).last == Some(Max(InDays(After(acts)).last.value, Day(act)))
  {
    AfterIsFold(acts);
    AfterIsFold(acts + [act]);
    DaysAppend(acts, act);
    StreakDays.LastIsLatest(Days(acts), Day(act));
  }
}
