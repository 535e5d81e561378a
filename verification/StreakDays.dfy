/**
  Streaks in terms of day numbers alone: the update by the difference of two days, and the summary
  of a whole history that folding it amounts to.
  */
module StreakDays {
  import opened Numbers
  import opened Wrappers

  datatype Summary = Summary(current: int, longest: int, last: Option<int>)

  /** The new summary, and whether the streak counts as incremented. */
  function Step(s: Summary, day: int): (Summary, bool) {
    if s.last.None? then (Summary(1, Max(s.longest, 1), Some(day)), true)
    else
      var diff, kept := day - s.last.value, Max(s.current, 1);
      if diff == 0 then (Summary(kept, Max(s.longest, kept), Some(day)), false)
      else if diff == 1 then
        var next := Max(s.current, 0) + 1;
        (Summary(next, Max(s.longest, next), Some(day)), true)
      else if diff > 1 then (Summary(1, Max(s.longest, 1), Some(day)), true)
      else (Summary(kept, Max(s.longest, kept), s.last), false)
  }

  function Fold(days: seq<int>): Summary {
    if days == [] then Summary(0, 0, None) else Step(Fold(days[..|days| - 1]), days[|days| - 1]).0
  }

  /** The days that were later than every day before them. */
  function RecordDays(days: seq<int>): set<int> {
    if days == [] then {}
    else
      var before, d := RecordDays(days[..|days| - 1]), days[|days| - 1];
      if forall r :: r in before ==> r < d then before + {d} else before
  }

  /** All of the `n` days from `d` on are in `days`. */
  ghost predicate RunIn(days: set<int>, d: int, n: int) { forall i :: d <= i < d + n ==> i in days }

  ghost predicate LatestIs(days: set<int>, latest: int) { latest in days && forall r :: r in days ==> r <= latest }

  /** `n` is the length of the consecutive-day run that ends at `latest`. */
  ghost predicate RunEndingAt(days: set<int>, latest: int, n: int) {
    n >= 1 && RunIn(days, latest - n + 1, n) && latest - n !in days
  }

  /** `n` is the length of the longest consecutive-day run. */
  ghost predicate LongestRun(days: set<int>, n: int) {
    (exists d :: RunIn(days, d, n)) && forall d, m :: RunIn(days, d, m) ==> m <= n
  }

  ghost predicate Summarizes(s: Summary, days: set<int>) {
    && s.last.Some? && LatestIs(days, s.last.value)
    && RunEndingAt(days, s.last.value, s.current) && LongestRun(days, s.longest)
  }

  lemma RunWithNewDay(days: set<int>, latest: int, current: int, d: int, current': int, f: int, m: int)
    requires LatestIs(days, latest) && RunEndingAt(days, latest, current) && d > latest
    requires current' == if d == latest + 1 then current + 1 else 1
    requires RunIn(days + {d}, f, m) && f <= d < f + m
    ensures m <= current'
  {
    assert d + 1 !in days + {d} && d - current' !in days + {d};
  }

  lemma LongestWithNewDay(days: set<int>, latest: int, current: int, longest: int, d: int, current': int)
    requires LatestIs(days, latest) && RunEndingAt(days, latest, current) && LongestRun(days, longest) && d > latest
    requires current' == if d == latest + 1 then current + 1 else 1
    ensures RunEndingAt(days + {d}, d, current') && LongestRun(days + {d}, Max(longest, current'))
  {
    var days' := days + {d};
    assert RunIn(days', d - current' + 1, current');
    var e :| RunIn(days, e, longest);
    assert RunIn(days', e, longest);
    forall f, m | RunIn(days', f, m) ensures m <= Max(longest, current') {
      if f <= d < f + m {
        RunWithNewDay(days, latest, current, d, current', f, m);
      } else {
        assert RunIn(days, f, m);
      }
    }
  }

  lemma StepSummarizes(s: Summary, days: set<int>, day: int)
    requires Summarizes(s, days)
    ensures
      var isRecord := day > s.last.value;
      Summarizes(Step(s, day).0, if isRecord then days + {day} else days) && Step(s, day).1 == isRecord
  {
    assert RunIn(days, s.last.value - s.current + 1, s.current);
    if day > s.last.value {
      var current' := if day == s.last.value + 1 then s.current + 1 else 1;
      LongestWithNewDay(days, s.last.value, s.current, s.longest, day, current');
    }
  }

  lemma OneDayRun(days: set<int>, day: int, d: int, m: int)
    requires (forall r :: r in days ==> r == day) && RunIn(days, d, m)
    ensures m <= 1
  {
    assert d in days && d + 1 in days ==> false;
  }

  lemma FirstSummarizes(day: int)
    ensures Summarizes(Summary(1, 1, Some(day)), {day})
  {
    assert RunIn({day}, day, 1);
    forall d, m | RunIn({day}, d, m) ensures m <= 1 { OneDayRun({day}, day, d, m); }
  }

  /** For every history, in any order, the fold summarizes its record days, the last of which is the latest day. */
  lemma {:induction false} FoldSummarizes(days: seq<int>)
    requires days != []
    ensures Summarizes(Fold(days), RecordDays(days))
    ensures forall d :: d in days ==> d <= Fold(days).last.value
  {
    var before, day := days[..|days| - 1], days[|days| - 1];
    if before == [] {
      FirstSummarizes(day);
      assert RecordDays(days) == {day};
    } else {
      FoldSummarizes(before);
      StepSummarizes(Fold(before), RecordDays(before), day);
      assert days == before + [day];
    }
  }

  /** A step reports an increment exactly when its day is a new record, so once for each record day. */
  lemma IncrementedOncePerRecordDay(days: seq<int>, day: int)
    ensures Step(Fold(days), day).1 <==> day !in RecordDays(days) && day in RecordDays(days + [day])
    ensures |RecordDays(days + [day])| == |RecordDays(days)| + if Step(Fold(days), day).1 then 1 else 0
  {
    assert (days + [day])[..|days|] == days;
    if days != [] {
      FoldSummarizes(days);
    }
  }

  /** The last day is the latest one, whatever order days arrive in. */
  lemma LastIsLatest(days: seq<int>, day: int)
    requires days != []
    ensures Fold(days).last.Some? && Fold(days + [day]).last == Some(Max(Fold(days).last.value, day))
  {
    assert (days + [day])[..|days|] == days;
    FoldSummarizes(days);
  }

  /** A record day is one that some entry reaches before any other entry equals or passes it. */
  lemma {:induction false} RecordDaysAre(days: seq<int>, d: int)
    ensures d in RecordDays(days) <==>
        exists i :: 0 <= i < |days| && days[i] == d && forall j :: 0 <= j < i ==> days[j] < d
  {
    if days != [] {
      var n := |days| - 1;
      var before := days[..n];
      RecordDaysAre(before, d);
      if before != [] { FoldSummarizes(before); }
      assert (forall r :: r in RecordDays(before) ==> r < days[n])
        <==> (forall j :: 0 <= j < n ==> days[j] < days[n]) by {
        forall r | r in RecordDays(before) ensures exists j :: 0 <= j < n && days[j] == r { RecordDaysAre(before, r); }
        assert forall j :: 0 <= j < n ==> days[j] == before[j] && before[j] in before;
      }
    }
  }
}
