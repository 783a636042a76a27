/** The application's store: the reminder list, the group list and the user
    statistics, with the handlers that replace them. Each handler's new lists
    are computed by a pure function over the old ones; the class `Store` holds
    the lists in fields and its methods are proved to follow those functions. */
module AppStore {
  import opened Wrappers
  import opened Types
  import opened Seqs
  import Js

  // ---------------------------------------------------------------------------
  // Priority tabs

  /** `reminders.filter(r => r.priority === p)`. */
  function WithPriority(reminders: seq<Reminder>, p: Priority): seq<Reminder> {
    Filter(reminders, (r: Reminder) => r.priority == p)
  }

  /** The urgent, week and routine lists together hold every reminder exactly
      once. */
  lemma {:induction false} PriorityListsPartition(reminders: seq<Reminder>)
    ensures multiset(WithPriority(reminders, Urgent)) + multiset(WithPriority(reminders, Week)) +
            multiset(WithPriority(reminders, Routine)) == multiset(reminders)
    ensures |WithPriority(reminders, Urgent)| + |WithPriority(reminders, Week)| +
            |WithPriority(reminders, Routine)| == |reminders|
    decreases |reminders|
  {
    if reminders != [] {
      PriorityListsPartition(reminders[1..]);
      assert reminders == [reminders[0]] + reminders[1..];
    }
  }

  // ---------------------------------------------------------------------------
  // toggleChecklistItem

  /** The checklist with the `completed` flag of every item with id `itemId` flipped. */
  function ToggleItems(checklist: seq<ChecklistItem>, itemId: string): (r: seq<ChecklistItem>)
    ensures |r| == |checklist|
    ensures forall i :: 0 <= i < |r| ==>
      r[i].id == checklist[i].id && r[i].text == checklist[i].text &&
      r[i].completed == (if checklist[i].id == itemId then !checklist[i].completed else checklist[i].completed)
  {
    seq(|checklist|, i requires 0 <= i < |checklist| =>
      if checklist[i].id == itemId then checklist[i].(completed := !checklist[i].completed) else checklist[i])
  }

  /** Toggling the same item twice restores the checklist. */
  lemma ToggleItemsTwice(checklist: seq<ChecklistItem>, itemId: string)
    ensures ToggleItems(ToggleItems(checklist, itemId), itemId) == checklist
  {
    var twice := ToggleItems(ToggleItems(checklist, itemId), itemId);
    assert forall i :: 0 <= i < |checklist| ==> twice[i] == checklist[i];
  }

  /** A toggle that takes a non-empty checklist from not-all-done to all-done. */
  predicate CompletesChecklist(before: seq<ChecklistItem>, after: seq<ChecklistItem>) {
    AllCompleted(after) && |after| > 0 && !AllCompleted(before)
  }

  /** The matching reminder after a toggle at time `now`: its checklist is
      toggled, `lastCompleted` becomes `now` whenever every item is done (the
      empty checklist included), and `completionCount` rises by one only on the
      not-all-done→all-done edge. */
  function ToggledReminder(r: Reminder, itemId: string, now: Timestamp): Reminder {
    var updated := ToggleItems(r.checklist, itemId);
    var allCompleted := AllCompleted(updated);
    r.(checklist := updated,
       lastCompleted := if allCompleted then Some(now) else r.lastCompleted,
       completionCount :=
         if allCompleted && |updated| > 0 then r.completionCount + (if AllCompleted(r.checklist) then 0 else 1)
         else r.completionCount)
  }

  function ToggleInList(reminders: seq<Reminder>, reminderId: string, itemId: string, now: Timestamp): (rs: seq<Reminder>)
    ensures |rs| == |reminders|
  {
    seq(|reminders|, i requires 0 <= i < |reminders| =>
      if reminders[i].id == reminderId then ToggledReminder(reminders[i], itemId, now) else reminders[i])
  }

  /** Number of reminders the toggle completes (each one bumps `totalCompletions`). */
  function CompletionsGained(reminders: seq<Reminder>, reminderId: string, itemId: string): nat
    decreases |reminders|
  {
    if reminders == [] then 0
    else
      var r := reminders[0];
      (if r.id == reminderId && CompletesChecklist(r.checklist, ToggleItems(r.checklist, itemId)) then 1 else 0) +
      CompletionsGained(reminders[1..], reminderId, itemId)
  }

  function AfterToggleStats(stats: UserStats, gained: nat): UserStats {
    stats.(totalCompletions := stats.totalCompletions + gained)
  }

  /** Only the matching item of the matching reminder flips; every other item
      and every other reminder is unchanged, and the matching reminder keeps
      everything but its checklist, `lastCompleted` and `completionCount`. */
  lemma ToggleChangesOnlyTheItem(reminders: seq<Reminder>, reminderId: string, itemId: string, now: Timestamp, i: nat, j: nat)
    requires i < |reminders|
    ensures var after := ToggleInList(reminders, reminderId, itemId, now)[i];
      var before := reminders[i];
      (before.id != reminderId ==> after == before) &&
      after == before.(checklist := after.checklist, lastCompleted := after.lastCompleted,
                       completionCount := after.completionCount)
    ensures var after := ToggleInList(reminders, reminderId, itemId, now)[i];
      var before := reminders[i];
      j < |before.checklist| ==>
        (|after.checklist| == |before.checklist| &&
         (after.checklist[j].completed != before.checklist[j].completed <==>
            before.id == reminderId && before.checklist[j].id == itemId))
  {
  }

  /** `completionCount` rises by exactly one when the toggle completes a
      non-empty checklist that was not already complete, and is unchanged
      otherwise. */
  lemma CompletionCountOnEdgeOnly(reminders: seq<Reminder>, reminderId: string, itemId: string, now: Timestamp, i: nat)
    requires i < |reminders|
    ensures var before := reminders[i];
      var after := ToggleInList(reminders, reminderId, itemId, now)[i];
      after.completionCount ==
        before.completionCount +
        (if before.id == reminderId && CompletesChecklist(before.checklist, ToggleItems(before.checklist, itemId)) then 1 else 0)
  {
  }

  /** The completions added to the statistics are exactly the completions added
      to the reminders' counters. */
  lemma {:induction false} GainedMatchesCounters(reminders: seq<Reminder>, reminderId: string, itemId: string, now: Timestamp)
    ensures Sum(ToggleInList(reminders, reminderId, itemId, now), (r: Reminder) => r.completionCount) ==
            Sum(reminders, (r: Reminder) => r.completionCount) + CompletionsGained(reminders, reminderId, itemId)
    decreases |reminders|
  {
    if reminders != [] {
      var after := ToggleInList(reminders, reminderId, itemId, now);
      assert after[1..] == ToggleInList(reminders[1..], reminderId, itemId, now);
      GainedMatchesCounters(reminders[1..], reminderId, itemId, now);
      CompletionCountOnEdgeOnly(reminders, reminderId, itemId, now, 0);
    }
  }

  // ---------------------------------------------------------------------------
  // handleAddReminder

  /** `{ ...draft, id: `r-${now}`, createdAt: now, completionCount: 0, totalShown: 0 }`. */
  function NewReminder(draft: ReminderDraft, now: Timestamp): Reminder {
    Reminder("r-" + Js.NatToString(now), draft.title, draft.description, draft.icon, draft.priority,
             draft.groupId, draft.trigger, draft.time, draft.days, draft.location, draft.checklist,
             0, 0, None, now)
  }

  /** `{ ...r, ...draft }`: the draft has all ten form fields (undefined ones
      included), so each of them is overwritten. */
  function ApplyDraft(r: Reminder, draft: ReminderDraft): Reminder {
    r.(title := draft.title, description := draft.description, icon := draft.icon,
       priority := draft.priority, trigger := draft.trigger, time := draft.time, days := draft.days,
       location := draft.location, groupId := draft.groupId, checklist := draft.checklist)
  }

  function EditInList(reminders: seq<Reminder>, editingId: string, draft: ReminderDraft): (rs: seq<Reminder>)
    ensures |rs| == |reminders|
  {
    seq(|reminders|, i requires 0 <= i < |reminders| =>
      if reminders[i].id == editingId then ApplyDraft(reminders[i], draft) else reminders[i])
  }

  /** A new reminder is appended after the existing ones, with the draft's
      form fields, fresh counters and the id `r-<now>`. */
  lemma AddAppends(reminders: seq<Reminder>, draft: ReminderDraft, now: Timestamp)
    ensures var rs := reminders + [NewReminder(draft, now)];
      rs[..|reminders|] == reminders && |rs| == |reminders| + 1 &&
      DraftOf(rs[|reminders|]) == draft &&
      rs[|reminders|].completionCount == 0 && rs[|reminders|].totalShown == 0 &&
      rs[|reminders|].createdAt == now && rs[|reminders|].lastCompleted.None? &&
      rs[|reminders|].id == "r-" + Js.NatToString(now)
  {
    assert (reminders + [NewReminder(draft, now)])[..|reminders|] == reminders;
  }

  /** Ids drawn at distinct times differ. */
  lemma NewIdsDistinct(draft1: ReminderDraft, draft2: ReminderDraft, t1: Timestamp, t2: Timestamp)
    requires t1 != t2
    ensures NewReminder(draft1, t1).id != NewReminder(draft2, t2).id
  {
    var a, b := NewReminder(draft1, t1).id, NewReminder(draft2, t2).id;
    if a == b {
      assert a[2..] == Js.NatToString(t1);
      assert b[2..] == Js.NatToString(t2);
      Js.NatToStringInjective(t1, t2);
    }
  }

  /** Editing gives the reminder with the editing id exactly the draft's form
      fields and keeps its id, creation time, counters and `lastCompleted`;
      every other reminder is unchanged. */
  lemma EditOverwritesFormFields(reminders: seq<Reminder>, editingId: string, draft: ReminderDraft, i: nat)
    requires i < |reminders|
    ensures var before, after := reminders[i], EditInList(reminders, editingId, draft)[i];
      (before.id == editingId ==>
        DraftOf(after) == draft && after.id == before.id && after.createdAt == before.createdAt &&
        after.completionCount == before.completionCount && after.totalShown == before.totalShown &&
        after.lastCompleted == before.lastCompleted) &&
      (before.id != editingId ==> after == before)
  {
  }

  /** Saving a reminder's own form fields back changes nothing. */
  lemma EditWithOwnDraftIsIdentity(reminders: seq<Reminder>, i: nat)
    requires i < |reminders|
    requires forall j :: 0 <= j < |reminders| && reminders[j].id == reminders[i].id ==> j == i
    ensures EditInList(reminders, reminders[i].id, DraftOf(reminders[i])) == reminders
  {
    var rs := EditInList(reminders, reminders[i].id, DraftOf(reminders[i]));
    assert forall j :: 0 <= j < |reminders| ==> rs[j] == reminders[j];
  }

  // ---------------------------------------------------------------------------
  // handleDeleteReminder

  function DeleteReminder(reminders: seq<Reminder>, id: string): seq<Reminder> {
    Filter(reminders, (r: Reminder) => r.id != id)
  }

  /** Deleting removes every reminder with the id and keeps all others, in order. */
  lemma {:induction false} DeleteReminderKeepsOthers(reminders: seq<Reminder>, id: string)
    ensures forall r :: r in DeleteReminder(reminders, id) ==> r.id != id
    ensures DeleteReminder(reminders, id) == reminders <==> forall i :: 0 <= i < |reminders| ==> reminders[i].id != id
    ensures forall i :: 0 <= i < |reminders| && reminders[i].id != id ==> reminders[i] in DeleteReminder(reminders, id)
  {
    var rs := DeleteReminder(reminders, id);
    if forall i :: 0 <= i < |reminders| ==> reminders[i].id != id {
      FilterAll(reminders, (r: Reminder) => r.id != id);
    } else {
      var k :| 0 <= k < |reminders| && reminders[k].id == id;
      assert reminders[k] !in rs;
    }
  }

  // ---------------------------------------------------------------------------
  // handleSaveGroup

  /** The group list with the target group's name, icon and ids replaced. */
  function SaveGroupGroups(groups: seq<ReminderGroup>, groupId: string, name: string, icon: string, ids: seq<string>): (gs: seq<ReminderGroup>)
    ensures |gs| == |groups|
  {
    seq(|groups|, i requires 0 <= i < |groups| =>
      if groups[i].id == groupId then groups[i].(name := name, icon := icon, reminderIds := ids) else groups[i])
  }

  /** One reminder after the group's membership is saved: a former member no
      longer listed leaves the group, a listed reminder joins it. */
  function Reassign(r: Reminder, groupId: string, ids: seq<string>): Reminder {
    if r.groupId == Some(groupId) && r.id !in ids then r.(groupId := None)
    else if r.id in ids then r.(groupId := Some(groupId))
    else r
  }

  function SaveGroupReminders(reminders: seq<Reminder>, groupId: string, ids: seq<string>): (rs: seq<Reminder>)
    ensures |rs| == |reminders|
  {
    seq(|reminders|, i requires 0 <= i < |reminders| => Reassign(reminders[i], groupId, ids))
  }

  /** After saving, a reminder is in the group exactly when its id is listed;
      a former member left out of the list loses its group altogether; a
      reminder neither listed nor in the group keeps its group (and
      everything else); only `groupId` ever changes. */
  lemma SaveGroupMembership(reminders: seq<Reminder>, groupId: string, ids: seq<string>, i: nat)
    requires i < |reminders|
    ensures var before, after := reminders[i], SaveGroupReminders(reminders, groupId, ids)[i];
      (after.groupId == Some(groupId) <==> before.id in ids) &&
      (before.id !in ids && before.groupId != Some(groupId) ==> after == before) &&
      (before.id !in ids && before.groupId == Some(groupId) ==> after.groupId.None?) &&
      after == before.(groupId := after.groupId)
  {
  }

  /** Only the target group's name, icon and ids change. */
  lemma SaveGroupChangesOnlyTarget(groups: seq<ReminderGroup>, groupId: string, name: string, icon: string, ids: seq<string>, i: nat)
    requires i < |groups|
    ensures var before, after := groups[i], SaveGroupGroups(groups, groupId, name, icon, ids)[i];
      (before.id != groupId ==> after == before) &&
      (before.id == groupId ==>
        after == ReminderGroup(before.id, name, icon, before.isPreset, ids))
  {
  }

  // ---------------------------------------------------------------------------
  // handleDeleteGroup

  /** `groups.find(g => g.id === groupId)`. */
  function FindGroup(groups: seq<ReminderGroup>, groupId: string): (found: Option<ReminderGroup>)
    ensures found.Some? ==> found.value in groups && found.value.id == groupId
    ensures found.None? ==> forall i :: 0 <= i < |groups| ==> groups[i].id != groupId
    decreases |groups|
  {
    if groups == [] then None
    else if groups[0].id == groupId then Some(groups[0])
    else FindGroup(groups[1..], groupId)
  }

  /** Whether `handleDeleteGroup` goes ahead: the group exists and is not a preset. */
  predicate MayDeleteGroup(groups: seq<ReminderGroup>, groupId: string) {
    var found := FindGroup(groups, groupId);
    found.Some? && !found.value.isPreset
  }

  function DeleteGroupGroups(groups: seq<ReminderGroup>, groupId: string): seq<ReminderGroup> {
    if MayDeleteGroup(groups, groupId) then Filter(groups, (g: ReminderGroup) => g.id != groupId) else groups
  }

  function ClearGroup(r: Reminder, groupId: string): Reminder {
    if r.groupId == Some(groupId) then r.(groupId := None) else r
  }

  function DeleteGroupReminders(groups: seq<ReminderGroup>, reminders: seq<Reminder>, groupId: string): (rs: seq<Reminder>)
    ensures |rs| == |reminders|
  {
    if MayDeleteGroup(groups, groupId) then
      seq(|reminders|, i requires 0 <= i < |reminders| => ClearGroup(reminders[i], groupId))
    else reminders
  }

  /** Deleting an unknown or preset group changes nothing. Otherwise no group
      with the id remains, no reminder is left in it, and exactly the reminders
      that were in it lose their group. */
  lemma DeleteGroupEffect(groups: seq<ReminderGroup>, reminders: seq<Reminder>, groupId: string)
    ensures !MayDeleteGroup(groups, groupId) ==>
      DeleteGroupGroups(groups, groupId) == groups && DeleteGroupReminders(groups, reminders, groupId) == reminders
    ensures MayDeleteGroup(groups, groupId) ==>
      (forall g :: g in DeleteGroupGroups(groups, groupId) ==> g.id != groupId) &&
      (forall i :: 0 <= i < |groups| && groups[i].id != groupId ==> groups[i] in DeleteGroupGroups(groups, groupId)) &&
      (forall i :: 0 <= i < |reminders| ==>
        var after := DeleteGroupReminders(groups, reminders, groupId)[i];
        after.groupId != Some(groupId) &&
        (reminders[i].groupId == Some(groupId) ==> after.groupId.None?) &&
        (reminders[i].groupId != Some(groupId) ==> after == reminders[i]) &&
        after == reminders[i].(groupId := after.groupId))
  {
  }

  /** A preset group is never deleted. */
  lemma PresetGroupSurvives(groups: seq<ReminderGroup>, reminders: seq<Reminder>, groupId: string, i: nat)
    requires i < |groups| && groups[i].id == groupId && groups[i].isPreset
    requires forall j :: 0 <= j < i ==> groups[j].id != groupId
    ensures DeleteGroupGroups(groups, groupId) == groups
    ensures DeleteGroupReminders(groups, reminders, groupId) == reminders
  {
    FindFirst(groups, groupId, i);
  }

  lemma {:induction false} FindFirst(groups: seq<ReminderGroup>, groupId: string, i: nat)
    requires i < |groups| && groups[i].id == groupId
    requires forall j :: 0 <= j < i ==> groups[j].id != groupId
    ensures FindGroup(groups, groupId) == Some(groups[i])
    decreases i
  {
    if i > 0 {
      FindFirst(groups[1..], groupId, i - 1);
    }
  }

  // ---------------------------------------------------------------------------
  // The store

  class Store {
    var reminders: seq<Reminder>
    var groups: seq<ReminderGroup>
    var stats: UserStats
    /** The reminder being edited, if any (`editingReminder`). */
    var editing: Option<Reminder>

    constructor (reminders: seq<Reminder>, groups: seq<ReminderGroup>, stats: UserStats)
      ensures this.reminders == reminders && this.groups == groups && this.stats == stats
      ensures editing.None?
    {
      this.reminders := reminders;
      this.groups := groups;
      this.stats := stats;
      editing := None;
    }

    method ToggleChecklistItem(reminderId: string, itemId: string, now: Timestamp)
      modifies this
      ensures reminders == ToggleInList(old(reminders), reminderId, itemId, now)
      ensures stats == AfterToggleStats(old(stats), CompletionsGained(old(reminders), reminderId, itemId))
      ensures groups == old(groups) && editing == old(editing)
    {
      var gained := CompletionsGained(reminders, reminderId, itemId);
      reminders := ToggleInList(reminders, reminderId, itemId, now);
      stats := stats.(totalCompletions := stats.totalCompletions + gained);
    }

    /** Opens the form on an existing reminder (`handleEditReminder`). */
    method StartEditing(r: Reminder)
      modifies this
      ensures editing == Some(r)
      ensures reminders == old(reminders) && groups == old(groups) && stats == old(stats)
    {
      editing := Some(r);
    }

    /** `handleAddReminder`: edits the reminder being edited, else appends a new one. */
    method AddReminder(draft: ReminderDraft, now: Timestamp)
      modifies this
      ensures old(editing).Some? ==>
        reminders == EditInList(old(reminders), old(editing).value.id, draft) && editing.None?
      ensures old(editing).None? ==>
        reminders == old(reminders) + [NewReminder(draft, now)] && editing.None?
      ensures groups == old(groups) && stats == old(stats)
    {
      if editing.Some? {
        reminders := EditInList(reminders, editing.value.id, draft);
        editing := None;
      } else {
        reminders := reminders + [NewReminder(draft, now)];
      }
    }

    /** `handleDeleteReminder` on the selected reminder. */
    method DeleteSelected(selected: Option<Reminder>)
      modifies this
      ensures selected.Some? ==> reminders == DeleteReminder(old(reminders), selected.value.id)
      ensures selected.None? ==> reminders == old(reminders)
      ensures groups == old(groups) && stats == old(stats) && editing == old(editing)
    {
      if selected.None? {
        return;
      }
      reminders := DeleteReminder(reminders, selected.value.id);
    }

    method SaveGroup(groupId: string, name: string, icon: string, ids: seq<string>)
      modifies this
      ensures groups == SaveGroupGroups(old(groups), groupId, name, icon, ids)
      ensures reminders == SaveGroupReminders(old(reminders), groupId, ids)
      ensures stats == old(stats) && editing == old(editing)
    {
      groups := SaveGroupGroups(groups, groupId, name, icon, ids);
      reminders := SaveGroupReminders(reminders, groupId, ids);
    }

    method DeleteGroup(groupId: string)
      modifies this
      ensures groups == DeleteGroupGroups(old(groups), groupId)
      ensures reminders == DeleteGroupReminders(old(groups), old(reminders), groupId)
      ensures stats == old(stats) && editing == old(editing)
    {
      var group := FindGroup(groups, groupId);
      if group.None? {
        return;
      }
      if group.value.isPreset {
        return;
      }
      reminders := DeleteGroupReminders(groups, reminders, groupId);
      groups := Filter(groups, (g: ReminderGroup) => g.id != groupId);
    }
  }
}
