/** The group detail screen: which reminders belong to the group, the summed
    counters and completion rate shown in its header, and the split of the
    group's reminders into "in progress" and "done". */
module GroupDetail {
  import opened Wrappers
  import opened Types
  import opened Seqs
  import Js

  /** `r => group.reminderIds.includes(r.id)`. */
  function InGroup(ids: seq<string>): Reminder -> bool {
    (r: Reminder) => r.id in ids
  }

  /** `groupReminders`: the reminders whose id the group lists, in the order
      of the reminder list (not of the group's ids). */
  function GroupReminders(group: ReminderGroup, reminders: seq<Reminder>): seq<Reminder> {
    Filter(reminders, InGroup(group.reminderIds))
  }

  function Shown(r: Reminder): nat {
    r.totalShown
  }

  function Completions(r: Reminder): nat {
    r.completionCount
  }

  /** The header figures: number of reminders, summed `totalShown`, summed
      `completionCount` and the rounded completion percentage. */
  datatype Stats = Stats(count: nat, shown: nat, completed: nat, rate: nat)

  function GroupStats(group: ReminderGroup, reminders: seq<Reminder>): Stats {
    var rs := GroupReminders(group, reminders);
    var shown, completed := Sum(rs, Shown), Sum(rs, Completions);
    Stats(|rs|, shown, completed, if shown > 0 then Js.RoundPercent(completed, shown) else 0)
  }

  /** "진행 중": not every checklist item is completed. */
  predicate IsActive(r: Reminder) {
    !AllCompleted(r.checklist)
  }

  /** "완료됨": every item is completed and there is at least one. */
  predicate IsDone(r: Reminder) {
    AllCompleted(r.checklist) && |r.checklist| > 0
  }

  function ActiveReminders(group: ReminderGroup, reminders: seq<Reminder>): seq<Reminder> {
    Filter(GroupReminders(group, reminders), IsActive)
  }

  function DoneReminders(group: ReminderGroup, reminders: seq<Reminder>): seq<Reminder> {
    Filter(GroupReminders(group, reminders), IsDone)
  }

  /** A reminder of the list is shown in the group exactly when its id is one
      of the group's ids, and nothing else is shown. */
  lemma GroupMembership(group: ReminderGroup, reminders: seq<Reminder>)
    ensures forall i :: 0 <= i < |reminders| ==>
      (reminders[i] in GroupReminders(group, reminders) <==> reminders[i].id in group.reminderIds)
    ensures forall r :: r in GroupReminders(group, reminders) ==> r in reminders && r.id in group.reminderIds
  {
  }

  /** The group's reminders keep the list's order: the reminders taken from
      a list split in two are those of the first part, then those of the
      second. */
  lemma GroupKeepsListOrder(group: ReminderGroup, first: seq<Reminder>, second: seq<Reminder>)
    ensures GroupReminders(group, first + second) == GroupReminders(group, first) + GroupReminders(group, second)
  {
    FilterAppend(first, second, InGroup(group.reminderIds));
  }

  /** The header figures add up over a list split in two: counts, shown and
      completed totals of the whole list are the sums of the parts'. */
  lemma {:induction false} StatsAdd(group: ReminderGroup, first: seq<Reminder>, second: seq<Reminder>)
    ensures var all, a, b := GroupStats(group, first + second), GroupStats(group, first), GroupStats(group, second);
      all.count == a.count + b.count && all.shown == a.shown + b.shown && all.completed == a.completed + b.completed
  {
    var a, b := GroupReminders(group, first), GroupReminders(group, second);
    GroupKeepsListOrder(group, first, second);
    SumAppend(a, b, Shown);
    SumAppend(a, b, Completions);
  }

  /** The rate is 0 when nothing of the group was shown, and otherwise the
      percentage of completions among showings, rounded to the nearest
      integer; when no reminder was completed more often than it was shown,
      it is at most 100. */
  lemma {:induction false} GroupRate(group: ReminderGroup, reminders: seq<Reminder>)
    ensures var st := GroupStats(group, reminders);
      (st.shown == 0 ==> st.rate == 0) &&
      (st.shown > 0 ==> 2 * st.shown * st.rate <= 200 * st.completed + st.shown < 2 * st.shown * st.rate + 2 * st.shown)
    ensures (forall r :: r in reminders ==> r.completionCount <= r.totalShown) ==>
      GroupStats(group, reminders).completed <= GroupStats(group, reminders).shown &&
      GroupStats(group, reminders).rate <= 100
  {
    var rs := GroupReminders(group, reminders);
    if forall r :: r in reminders ==> r.completionCount <= r.totalShown {
      SumMonotone(rs, Completions, Shown);
    }
  }

  /** An active reminder has an incomplete item; a done one has items and
      all are complete. So no reminder is both, and one without checklist
      items is neither. */
  lemma ActiveAndDone(r: Reminder)
    ensures IsActive(r) <==> exists i :: 0 <= i < |r.checklist| && !r.checklist[i].completed
    ensures IsDone(r) <==> |r.checklist| > 0 && forall i :: 0 <= i < |r.checklist| ==> r.checklist[i].completed
    ensures !(IsActive(r) && IsDone(r))
    ensures r.checklist == [] ==> !IsActive(r) && !IsDone(r)
    ensures r.checklist != [] ==> IsActive(r) != IsDone(r)
  {
  }

  /** The two sections share no reminder, both list only the group's
      reminders, and every group reminder with checklist items appears in
      one of them. */
  lemma SectionsSplitGroup(group: ReminderGroup, reminders: seq<Reminder>)
    ensures var active, done := ActiveReminders(group, reminders), DoneReminders(group, reminders);
      (forall r :: r in active ==> r !in done) &&
      (forall r :: r in active || r in done ==> r in GroupReminders(group, reminders) && r.checklist != []) &&
      (forall r :: r in GroupReminders(group, reminders) && r.checklist != [] ==> r in active || r in done)
  {
    var rs := GroupReminders(group, reminders);
    forall r | r in rs && r.checklist != []
      ensures r in ActiveReminders(group, reminders) || r in DoneReminders(group, reminders)
    {
      ActiveAndDone(r);
      var i :| 0 <= i < |rs| && rs[i] == r;
    }
  }
}
