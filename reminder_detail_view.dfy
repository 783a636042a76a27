/** The reminder detail view: its day label (which also covers a missing or
    empty day list) and the "next reminder" line. The completion figures are
    the card's (`ReminderCard.CompletionRate`, `Types.CompletedCount`). */
module ReminderDetailView {
  import opened Wrappers
  import opened Types
  import ReminderCard

  const NotSet: string := "설정 안 됨"
  const OnLeave: string := "떠날 때"
  const OnArrive: string := "도착 시"

  /** `getDaysText(days?)`: no days at all reads as every day. */
  function DaysText(days: Option<seq<int>>): string {
    if days.None? || |days.value| == 0 then ReminderCard.Everyday
    else ReminderCard.DaysText(days.value)
  }

  /** `getNextReminderText`. */
  function NextReminderText(r: Reminder): string {
    if r.trigger == OnLocation && r.location.Some? then
      r.location.value.name + " " + (if r.location.value.triggerType == Leave then OnLeave else OnArrive)
    else if TruthyText(r.time) then
      DaysText(r.days) + " " + r.time.value
    else NotSet
  }

  /** A missing or empty day list reads as every day; otherwise the card's
      label is used. */
  lemma DaysTextDefaultsToEveryday(days: Option<seq<int>>)
    ensures (days.None? || days.value == []) ==> DaysText(days) == "매일"
    ensures days.Some? && days.value != [] ==> DaysText(days) == ReminderCard.DaysText(days.value)
  {
  }

  /** A location-only reminder with a location names the place, then the
      direction. */
  lemma NextReminderForPlace(r: Reminder)
    requires r.trigger == OnLocation && r.location.Some?
    ensures var name := r.location.value.name;
      var text := NextReminderText(r);
      text[..|name|] == name &&
      text[|name|..] == " " + (if r.location.value.triggerType == Leave then OnLeave else OnArrive)
  {
    var name := r.location.value.name;
    var direction := if r.location.value.triggerType == Leave then OnLeave else OnArrive;
    assert NextReminderText(r) == name + (" " + direction);
  }

  /** Otherwise a set time gives the day label, a space and the time (for
      `both` triggers too). */
  lemma NextReminderForTime(r: Reminder)
    requires !(r.trigger == OnLocation && r.location.Some?)
    requires r.time.Some? && r.time.value != ""
    ensures var text := NextReminderText(r);
      var time := r.time.value;
      |text| > |time| && text[|text| - |time|..] == time &&
      text[..|text| - |time|] == DaysText(r.days) + " "
  {
    var time := r.time.value;
    assert NextReminderText(r) == (DaysText(r.days) + " ") + time;
  }

  /** Without a usable place or time the line reads "not set". */
  lemma NextReminderNotSet(r: Reminder)
    requires !(r.trigger == OnLocation && r.location.Some?)
    requires r.time.None? || r.time.value == ""
    ensures NextReminderText(r) == "설정 안 됨"
  {
  }
}
