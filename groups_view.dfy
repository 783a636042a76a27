/** The groups list: preset groups and the user's own in two sections, and
    per group the reminder-count badge and the completion rate. */
module GroupsList {
  import opened Wrappers
  import opened Types
  import opened Seqs
  import Js
  import GroupDetail

  predicate IsPreset(g: ReminderGroup) {
    g.isPreset
  }

  predicate IsCustom(g: ReminderGroup) {
    !g.isPreset
  }

  /** `presetGroups`. */
  function PresetGroups(groups: seq<ReminderGroup>): seq<ReminderGroup> {
    Filter(groups, IsPreset)
  }

  /** `customGroups`. */
  function CustomGroups(groups: seq<ReminderGroup>): seq<ReminderGroup> {
    Filter(groups, IsCustom)
  }

  /** `getGroupReminderCount`: the number of listed ids, whether or not a
      reminder with that id exists. */
  function ReminderCount(group: ReminderGroup): nat {
    |group.reminderIds|
  }

  /** `getGroupCompletionRate`: 0 without matching reminders or without any
      showing; otherwise the rounded percentage. */
  function CompletionRate(group: ReminderGroup, reminders: seq<Reminder>): nat {
    var rs := GroupDetail.GroupReminders(group, reminders);
    if |rs| == 0 then 0
    else
      var shown := Sum(rs, GroupDetail.Shown);
      var completed := Sum(rs, GroupDetail.Completions);
      if shown > 0 then Js.RoundPercent(completed, shown) else 0
  }

  /** The two sections partition the group list: each group appears in
      exactly one, as often as in the list, and the sections keep its order
      within themselves. */
  lemma SectionsPartition(groups: seq<ReminderGroup>)
    ensures multiset(PresetGroups(groups)) + multiset(CustomGroups(groups)) == multiset(groups)
    ensures |PresetGroups(groups)| + |CustomGroups(groups)| == |groups|
    ensures forall g :: g in PresetGroups(groups) ==> g.isPreset
    ensures forall g :: g in CustomGroups(groups) ==> !g.isPreset
  {
    FilterSplit(groups, IsPreset, IsCustom);
  }

  /** Appending a group puts it at the end of its own section and leaves the
      other section alone. */
  lemma {:induction false} NewGroupGoesLast(groups: seq<ReminderGroup>, g: ReminderGroup)
    ensures g.isPreset ==> PresetGroups(groups + [g]) == PresetGroups(groups) + [g] &&
                           CustomGroups(groups + [g]) == CustomGroups(groups)
    ensures !g.isPreset ==> CustomGroups(groups + [g]) == CustomGroups(groups) + [g] &&
                            PresetGroups(groups + [g]) == PresetGroups(groups)
  {
    FilterAppend(groups, [g], IsPreset);
    FilterAppend(groups, [g], IsCustom);
  }

  /** The list's rate is the detail screen's rate: the extra early return
      for a group without matching reminders gives the same 0. */
  lemma RateMatchesDetail(group: ReminderGroup, reminders: seq<Reminder>)
    ensures CompletionRate(group, reminders) == GroupDetail.GroupStats(group, reminders).rate
  {
  }

  /** The rate is 0 when no reminder matches the group's ids or when nothing
      was shown; otherwise it is the rounded percentage, at most 100 when no
      reminder was completed more often than shown. */
  lemma RateCases(group: ReminderGroup, reminders: seq<Reminder>)
    ensures (forall r :: r in reminders ==> r.id !in group.reminderIds) ==> CompletionRate(group, reminders) == 0
    ensures var st := GroupDetail.GroupStats(group, reminders);
      st.shown > 0 ==>
        2 * st.shown * CompletionRate(group, reminders) <= 200 * st.completed + st.shown <
        2 * st.shown * CompletionRate(group, reminders) + 2 * st.shown
    ensures (forall r :: r in reminders ==> r.completionCount <= r.totalShown) ==> CompletionRate(group, reminders) <= 100
  {
    GroupDetail.GroupMembership(group, reminders);
    GroupDetail.GroupRate(group, reminders);
  }

  /** When reminder ids are unique, the badge never shows fewer reminders
      than the group screen lists; it shows more when some listed id has no
      reminder (or is listed twice). */
  lemma {:induction false} CountAtLeastShown(group: ReminderGroup, reminders: seq<Reminder>)
    requires forall i, j :: 0 <= i < j < |reminders| ==> reminders[i].id != reminders[j].id
    ensures |GroupDetail.GroupReminders(group, reminders)| <= ReminderCount(group)
  {
    var rs := GroupDetail.GroupReminders(group, reminders);
    var ids := Ids(rs);
    assert Distinct(ids) by {
      IdsOfFilteredDistinct(reminders, GroupDetail.InGroup(group.reminderIds));
    }
    DistinctElements(ids);
    assert (set x | x in ids) <= (set x | x in group.reminderIds) by {
      forall x | x in ids ensures x in group.reminderIds {
        var k :| 0 <= k < |ids| && ids[k] == x;
        assert rs[k] in rs;
      }
    }
    ElementsAtMost(group.reminderIds);
    assert |set x | x in ids| == |rs|;
    SubsetSmaller(set x | x in ids, set x | x in group.reminderIds);
  }

  /** A subset is no larger than its superset. */
  lemma {:induction false} SubsetSmaller(a: set<string>, b: set<string>)
    requires a <= b
    ensures |a| <= |b|
    decreases |b|
  {
    if a != {} {
      var x :| x in a;
      SubsetSmaller(a - {x}, b - {x});
    }
  }

  /** The ids of a list of reminders. */
  function Ids(rs: seq<Reminder>): (ids: seq<string>)
    ensures |ids| == |rs|
    ensures forall k :: 0 <= k < |rs| ==> ids[k] == rs[k].id
  {
    if rs == [] then [] else [rs[0].id] + Ids(rs[1..])
  }

  /** Filtering a list of reminders with unique ids keeps the ids unique. */
  lemma {:induction false} IdsOfFilteredDistinct(reminders: seq<Reminder>, p: Reminder -> bool)
    requires forall i, j :: 0 <= i < j < |reminders| ==> reminders[i].id != reminders[j].id
    ensures Distinct(Ids(Filter(reminders, p)))
  {
    if reminders != [] {
      var tail := reminders[1..];
      IdsOfFilteredDistinct(tail, p);
      var rest := Filter(tail, p);
      if p(reminders[0]) {
        var ids := Ids([reminders[0]] + rest);
        forall i, j | 0 <= i < j < |ids| ensures ids[i] != ids[j] {
          assert ids[j] == rest[j - 1].id;
          if i == 0 {
            assert rest[j - 1] in tail;
          } else {
            assert ids[i] == Ids(rest)[i - 1] && ids[j] == Ids(rest)[j - 1];
          }
        }
      }
    }
  }

  /** A group listing an id no reminder has still counts it: one dangling id
      gives a badge of 1 over an empty group screen with rate 0. */
  lemma DanglingIdCounted(group: ReminderGroup)
    requires group.reminderIds == ["missing"]
    ensures ReminderCount(group) == 1
    ensures GroupDetail.GroupReminders(group, []) == [] && CompletionRate(group, []) == 0
  {
  }
}
