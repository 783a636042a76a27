/** Editing a group's name, icon and members, as the edit dialog and the
    full-screen edit view both do: the membership toggle, the lock on
    reminders that belong to another group, and the request `handleSave`
    passes on. */
module GroupEditing {
  import opened Wrappers
  import opened Types
  import opened Seqs
  import Js

  const DefaultIcon: string := "📋"

  /** `toggleReminder`: a selected id is removed (every copy), any other id
      is appended. */
  function ToggleId(ids: seq<string>, id: string): seq<string> {
    if id in ids then Filter(ids, Other(id)) else ids + [id]
  }

  /** `x => x !== id`. */
  function Other(id: string): string -> bool {
    x => x != id
  }

  /** `reminder.groupId && reminder.groupId !== group.id`. */
  predicate InOtherGroup(r: Reminder, groupId: string) {
    TruthyText(r.groupId) && r.groupId.value != groupId
  }

  /** A click on a reminder's row: locked rows ignore it. */
  function Clicked(ids: seq<string>, r: Reminder, groupId: string): seq<string> {
    if InOtherGroup(r, groupId) then ids else ToggleId(ids, r.id)
  }

  /** The arguments of `onSave(group.id, { name, icon, reminderIds })`. */
  datatype SaveRequest = SaveRequest(groupId: string, name: string, icon: string, reminderIds: seq<string>)

  /** `handleSave`'s guard: nothing without a group or with a blank name;
      otherwise the trimmed name, the icon and the selection. */
  function Request(group: Option<ReminderGroup>, name: string, icon: string, selected: seq<string>): Option<SaveRequest> {
    if group.None? || Js.Trim(name) == "" then None
    else Some(SaveRequest(group.value.id, Js.Trim(name), icon, selected))
  }

  /** After a toggle the id is selected exactly when it was not before, and
      every other id keeps its membership. */
  lemma ToggleFlipsMembership(ids: seq<string>, id: string, other: string)
    ensures id in ToggleId(ids, id) <==> id !in ids
    ensures other != id ==> (other in ToggleId(ids, id) <==> other in ids)
  {
  }

  /** Toggling an id that is not selected, twice, gives the list back. */
  lemma {:induction false} ToggleAbsentTwice(ids: seq<string>, id: string)
    requires id !in ids
    ensures ToggleId(ToggleId(ids, id), id) == ids
  {
    assert id in ids + [id];
    FilterAppend(ids, [id], Other(id));
    FilterAll(ids, Other(id));
    assert Filter([id], Other(id)) == [];
  }

  /** Toggling a selected id twice does not give the list back when it was
      not last: it moves to the end. */
  lemma {:induction false} TogglePresentTwiceMovesToEnd(ids: seq<string>, id: string)
    requires id in ids
    ensures ToggleId(ToggleId(ids, id), id) == Filter(ids, Other(id)) + [id]
  {
    var removed := Filter(ids, Other(id));
    assert id !in removed;
  }

  /** A toggle keeps a list free of duplicates. */
  lemma ToggleKeepsDistinct(ids: seq<string>, id: string)
    requires Distinct(ids)
    ensures Distinct(ToggleId(ids, id))
  {
    var r := ToggleId(ids, id);
    if id in ids {
      FilterDistinct(ids, Other(id));
    } else {
      forall i, j | 0 <= i < j < |r|
        ensures r[i] != r[j]
      {
        if j == |ids| {
          assert r[i] == ids[i];
        }
      }
    }
  }

  /** A reminder in another group is locked: clicking it changes nothing. A
      reminder in no group or in this one toggles. */
  lemma LockedRowsIgnored(ids: seq<string>, r: Reminder, groupId: string)
    ensures InOtherGroup(r, groupId) ==> Clicked(ids, r, groupId) == ids
    ensures (r.groupId.None? || r.groupId.value == "" || r.groupId.value == groupId) ==>
      Clicked(ids, r, groupId) == ToggleId(ids, r.id)
  {
  }

  /** Clicks cannot add a locked reminder: any selection reached by clicking
      rows, starting from one without it, still lacks it. */
  lemma {:induction false} ClicksNeverSelectLocked(ids: seq<string>, clicks: seq<Reminder>, groupId: string, locked: Reminder)
    requires InOtherGroup(locked, groupId) && locked.id !in ids
    requires forall i :: 0 <= i < |clicks| ==> clicks[i].id == locked.id ==> InOtherGroup(clicks[i], groupId)
    ensures locked.id !in ClickAll(ids, clicks, groupId)
    decreases |clicks|
  {
    if clicks != [] {
      var next := Clicked(ids, clicks[0], groupId);
      assert locked.id !in next by {
        if clicks[0].id != locked.id {
          ToggleFlipsMembership(ids, clicks[0].id, locked.id);
        }
      }
      ClicksNeverSelectLocked(next, clicks[1..], groupId, locked);
    }
  }

  /** The selection after a series of clicks. */
  function ClickAll(ids: seq<string>, clicks: seq<Reminder>, groupId: string): seq<string>
    decreases |clicks|
  {
    if clicks == [] then ids else ClickAll(Clicked(ids, clicks[0], groupId), clicks[1..], groupId)
  }

  /** A save goes through exactly with a group and a non-blank name; it
      carries the group's id, the trimmed name, the icon and the selection. */
  lemma RequestShape(group: Option<ReminderGroup>, name: string, icon: string, selected: seq<string>)
    ensures Request(group, name, icon, selected).Some? <==> group.Some? && !Js.AllWhitespace(name)
    ensures Request(group, name, icon, selected).Some? ==>
      var q := Request(group, name, icon, selected).value;
      q.groupId == group.value.id && q.name == Js.Trim(name) && q.name != "" &&
      q.icon == icon && q.reminderIds == selected
  {
    Js.TrimBlankIff(name);
  }

  /** Saving straight after opening a group whose name is already trimmed and
      non-empty asks for the group as it is. */
  lemma SaveUnchangedGroup(group: ReminderGroup)
    requires group.name != "" && !Js.IsWhitespace(group.name[0]) && !Js.IsWhitespace(group.name[|group.name| - 1])
    ensures Request(Some(group), group.name, group.icon, group.reminderIds) ==
      Some(SaveRequest(group.id, group.name, group.icon, group.reminderIds))
  {
    Js.TrimTrimmed(group.name);
  }

  // ---------------------------------------------------------------------------
  // The dialog (EditGroupDialog)

  class GroupDialog {
    var name: string
    var icon: string
    var selected: seq<string>
    var open: bool

    constructor ()
      ensures name == "" && icon == DefaultIcon && selected == [] && !open
    {
      name, icon, selected, open := "", DefaultIcon, [], false;
    }

    /** The effect on `group` and `open`: the group's fields, or blank ones. */
    method Init(group: Option<ReminderGroup>, isOpen: bool)
      modifies this
      ensures open == isOpen
      ensures group.Some? ==> name == group.value.name && icon == group.value.icon && selected == group.value.reminderIds
      ensures group.None? ==> name == "" && icon == DefaultIcon && selected == []
    {
      open := isOpen;
      if group.Some? {
        name := group.value.name;
        icon := group.value.icon;
        selected := group.value.reminderIds;
      } else {
        name := "";
        icon := DefaultIcon;
        selected := [];
      }
    }

    /** A click on a row (the rows exist only with a group). */
    method ClickReminder(group: ReminderGroup, r: Reminder)
      modifies this
      ensures selected == Clicked(old(selected), r, group.id)
      ensures name == old(name) && icon == old(icon) && open == old(open)
    {
      if !InOtherGroup(r, group.id) {
        selected := ToggleId(selected, r.id);
      }
    }

    /** "모두 제거". */
    method RemoveAll()
      modifies this
      ensures selected == [] && name == old(name) && icon == old(icon) && open == old(open)
    {
      selected := [];
    }

    /** `handleSave`: returns the request passed to `onSave`, and closes the
        dialog when there is one. */
    method Save(group: Option<ReminderGroup>) returns (request: Option<SaveRequest>)
      modifies this
      ensures request == Request(group, old(name), old(icon), old(selected))
      ensures name == old(name) && icon == old(icon) && selected == old(selected)
      ensures open == (if request.Some? then false else old(open))
    {
      if group.None? || Js.Trim(name) == "" {
        return None;
      }
      request := Some(SaveRequest(group.value.id, Js.Trim(name), icon, selected));
      open := false;
    }
  }

  // ---------------------------------------------------------------------------
  // The full-screen view (EditGroupView)

  class GroupView {
    var name: string
    var icon: string
    var selected: seq<string>

    constructor (group: ReminderGroup)
      ensures name == group.name && icon == group.icon && selected == group.reminderIds
    {
      name, icon, selected := group.name, group.icon, group.reminderIds;
    }

    /** The effect on `group`: every field is reset from it. */
    method OnGroupChanged(group: ReminderGroup)
      modifies this
      ensures name == group.name && icon == group.icon && selected == group.reminderIds
    {
      name := group.name;
      icon := group.icon;
      selected := group.reminderIds;
    }

    method ClickReminder(group: ReminderGroup, r: Reminder)
      modifies this
      ensures selected == Clicked(old(selected), r, group.id)
      ensures name == old(name) && icon == old(icon)
    {
      if !InOtherGroup(r, group.id) {
        selected := ToggleId(selected, r.id);
      }
    }

    method RemoveAll()
      modifies this
      ensures selected == [] && name == old(name) && icon == old(icon)
    {
      selected := [];
    }

    /** `handleSave`: `onSave` with the request, then `onBack`; nothing on a
        blank name. Returns the request and whether `onBack` ran. */
    method Save(group: ReminderGroup) returns (request: Option<SaveRequest>, back: bool)
      ensures request == Request(Some(group), name, icon, selected)
      ensures back <==> request.Some?
    {
      if Js.Trim(name) == "" {
        return None, false;
      }
      request := Some(SaveRequest(group.id, Js.Trim(name), icon, selected));
      back := true;
    }
  }
}
