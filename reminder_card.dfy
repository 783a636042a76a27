/** The reminder card: the day-list label, the completion figures and the
    badges under the title. */
module ReminderCard {
  import opened Wrappers
  import opened Types
  import opened Seqs
  import Js

  /** Sunday first, as `Date.getDay()` numbers them. */
  const DayNames: seq<string> := ["일", "월", "화", "수", "목", "금", "토"]

  const Everyday: string := "매일"
  const Weekdays: string := "평일"
  const Weekend: string := "주말"

  /** `dayNames[d]`, where an index outside 0..6 is `undefined` and `join`
      renders it as the empty string. */
  function DayName(d: int): string {
    if 0 <= d < |DayNames| then DayNames[d] else ""
  }

  function DayNamesOf(days: seq<int>): (names: seq<string>)
    ensures |names| == |days|
    ensures forall i :: 0 <= i < |days| ==> names[i] == DayName(days[i])
  {
    seq(|days|, i requires 0 <= i < |days| => DayName(days[i]))
  }

  predicate IsWeekdaySet(days: seq<int>) {
    |days| == 5 && forall i :: 0 <= i < |days| ==> 1 <= days[i] <= 5
  }

  predicate IsWeekendPair(days: seq<int>) {
    |days| == 2 && 0 in days && 6 in days
  }

  /** `getDaysText`: seven entries read as every day, five weekdays as
      weekdays, Sunday with Saturday as the weekend, anything else as the day
      names in list order. */
  function DaysText(days: seq<int>): string {
    if |days| == 7 then Everyday
    else if IsWeekdaySet(days) then Weekdays
    else if IsWeekendPair(days) then Weekend
    else Js.Join(DayNamesOf(days))
  }

  /** The position of a day name, when it is one. */
  function DayOfName(name: string): Option<int> {
    if name in DayNames then Some(IndexOf(DayNames, name)) else None
  }

  function IndexOf(names: seq<string>, name: string): (i: nat)
    requires name in names
    ensures i < |names| && names[i] == name
    ensures forall j :: 0 <= j < i ==> names[j] != name
  {
    if names[0] == name then 0 else 1 + IndexOf(names[1..], name)
  }

  function DaysOfNames(names: seq<string>): seq<Option<int>> {
    seq(|names|, i requires 0 <= i < |names| => DayOfName(names[i]))
  }

  /** Outside the three special cases, the label lists one name per entry:
      splitting it at `, ` and reading the names back gives the days again. */
  lemma DaysTextListsEachDay(days: seq<int>)
    requires |days| > 0 && |days| != 7 && !IsWeekdaySet(days) && !IsWeekendPair(days)
    requires forall i :: 0 <= i < |days| ==> 0 <= days[i] < 7
    ensures DaysOfNames(Js.Split(DaysText(days))) == seq(|days|, i requires 0 <= i < |days| => Some(days[i]))
  {
    var names := DayNamesOf(days);
    assert DaysText(days) == Js.Join(names);
    forall i | 0 <= i < |names|
      ensures Js.NoComma(names[i]) && DayOfName(names[i]) == Some(days[i])
    {
      NameOfDay(days[i]);
    }
    Js.SplitJoin(names);
  }

  /** Each day's name is free of commas and reads back as that day. */
  lemma NameOfDay(d: int)
    requires 0 <= d < 7
    ensures Js.NoComma(DayName(d))
    ensures DayOfName(DayName(d)) == Some(d)
  {
    var name := DayName(d);
    assert |name| == 1 && name[0] != ',';
    assert name == DayNames[d] && name in DayNames;
    assert forall i, j :: 0 <= i < j < 7 ==> DayNames[i][0] != DayNames[j][0];
  }

  /** Every special case is recognised whatever the order of the days: a
      permutation of the list gives the same label. */
  lemma DaysTextOrderFree(days: seq<int>, other: seq<int>)
    requires multiset(days) == multiset(other)
    requires |days| == 7 || IsWeekdaySet(days) || IsWeekendPair(days)
    ensures DaysText(other) == DaysText(days)
  {
    assert |days| == |multiset(days)| == |multiset(other)| == |other|;
    if IsWeekdaySet(days) {
      forall i | 0 <= i < |other|
        ensures 1 <= other[i] <= 5
      {
        assert other[i] in multiset(other);
        assert other[i] in days;
      }
    }
    if IsWeekendPair(days) {
      assert 0 in multiset(days) && 6 in multiset(days);
      assert 0 in multiset(other) && 6 in multiset(other);
    }
  }

  // ---------------------------------------------------------------------------
  // Completion figures

  /** A checklist is complete exactly when every item is counted as completed. */
  lemma {:induction false} CompletedCountFullIffAllCompleted(checklist: seq<ChecklistItem>)
    ensures CompletedCount(checklist) == |checklist| <==> AllCompleted(checklist)
    decreases |checklist|
  {
    if checklist != [] {
      CompletedCountFullIffAllCompleted(checklist[1..]);
      assert AllCompleted(checklist) <==> checklist[0].completed && AllCompleted(checklist[1..]) by {
        if checklist[0].completed && AllCompleted(checklist[1..]) {
          forall i | 0 <= i < |checklist|
            ensures checklist[i].completed
          {
            if i > 0 {
              assert checklist[i] == checklist[1..][i - 1];
            }
          }
        }
      }
    }
  }

  /** `totalShown > 0 ? Math.round(completionCount / totalShown * 100) : 0`. */
  function CompletionRate(r: Reminder): (p: nat)
    ensures r.totalShown == 0 ==> p == 0
    ensures r.totalShown > 0 ==>
      2 * r.totalShown * p <= 200 * r.completionCount + r.totalShown < 2 * r.totalShown * p + 2 * r.totalShown
    ensures r.completionCount <= r.totalShown ==> p <= 100
  {
    Js.RoundPercent(r.completionCount, r.totalShown)
  }

  // ---------------------------------------------------------------------------
  // Badges

  /** The badges shown under the title: the time for a time-only reminder
      with a time, the place and direction for a location-only reminder with
      a location, and the day label for a non-empty day list. */
  function Badges(r: Reminder): seq<string> {
    (if r.trigger == OnTime && TruthyText(r.time) then [r.time.value] else []) +
    (if r.trigger == OnLocation && r.location.Some? then
       [r.location.value.name + " (" + (if r.location.value.triggerType == Leave then "떠날 때" else "도착 시") + ")"]
     else []) +
    (if r.days.Some? && |r.days.value| > 0 then [DaysText(r.days.value)] else [])
  }

  /** There is a day badge exactly when the day list is present and non-empty:
      the badge count is one more than without it. */
  lemma DaysBadgeOnlyForNonEmptyDays(r: Reminder)
    ensures |Badges(r)| == |Badges(r.(days := None))| + (if r.days.Some? && |r.days.value| > 0 then 1 else 0)
    ensures r.days.Some? && |r.days.value| > 0 ==> Badges(r)[|Badges(r)| - 1] == DaysText(r.days.value)
  {
  }
}
