/** The add/edit reminder form: its fields, the load-and-reset effect, the
    checklist and day editors, and the record `handleSave` builds.

    `FormState` is the value of all form fields together; the pure functions
    give each handler's new state, and the class `ReminderDialog` keeps the
    fields and follows them. */
module ReminderForm {
  import opened Wrappers
  import opened Types
  import opened Seqs
  import Js
  import Days

  /** A checklist entry in the form: an item without its id. */
  datatype FormItem = FormItem(text: string, completed: bool)

  datatype FormState = FormState(
    title: string,
    description: string,
    icon: string,
    priority: Priority,
    trigger: Trigger,
    time: string,
    selectedDays: seq<int>,
    location: Option<Location>,
    selectedGroup: string,
    checklist: seq<FormItem>,
    newChecklistItem: string)

  const DefaultIcon: string := "📌"
  const DefaultTime: string := "09:00"
  /** The group selector's value for "no group". */
  const NoGroup: string := "none"

  /** `handleReset` (and the initial state). */
  const Blank: FormState :=
    FormState("", "", DefaultIcon, Routine, OnTime, DefaultTime, [], None, NoGroup, [], "")

  // ---------------------------------------------------------------------------
  // Loading

  /** The load effect: an edited reminder fills every field but the pending
      checklist input; without one the form is reset. */
  function Load(st: FormState, editing: Option<Reminder>): FormState {
    if editing.None? then Blank
    else
      var r := editing.value;
      st.(title := r.title,
          description := if TruthyText(r.description) then r.description.value else "",
          icon := r.icon,
          priority := r.priority,
          trigger := r.trigger,
          time := if TruthyText(r.time) then r.time.value else DefaultTime,
          selectedDays := if r.days.Some? then r.days.value else [],
          location := r.location,
          selectedGroup := if TruthyText(r.groupId) then r.groupId.value else NoGroup,
          checklist := FormItems(r.checklist))
  }

  /** The checklist as the form holds it: texts and flags, without ids. */
  function FormItems(items: seq<ChecklistItem>): (f: seq<FormItem>)
    ensures |f| == |items|
    ensures forall i :: 0 <= i < |items| ==> f[i] == FormItem(items[i].text, items[i].completed)
  {
    seq(|items|, i requires 0 <= i < |items| => FormItem(items[i].text, items[i].completed))
  }

  // ---------------------------------------------------------------------------
  // Checklist editing

  /** `handleAddChecklistItem`: a blank input is ignored; otherwise the trimmed
      text is appended, not completed, and the input is cleared. */
  function WithItemAdded(st: FormState): FormState {
    var text := Js.Trim(st.newChecklistItem);
    if text == [] then st
    else st.(checklist := st.checklist + [FormItem(text, false)], newChecklistItem := "")
  }

  /** `checklist.filter((_, i) => i !== index)`. */
  function RemoveAt<T>(s: seq<T>, index: int): (r: seq<T>)
    ensures 0 <= index < |s| ==> |r| == |s| - 1
    ensures !(0 <= index < |s|) ==> r == s
  {
    if 0 <= index < |s| then s[..index] + s[index + 1..] else s
  }

  function WithItemRemoved(st: FormState, index: int): FormState {
    st.(checklist := RemoveAt(st.checklist, index))
  }

  function WithDayToggled(st: FormState, day: int): FormState {
    st.(selectedDays := Days.ToggleDay(st.selectedDays, day))
  }

  // ---------------------------------------------------------------------------
  // Saving

  /** The id of the checklist item at `index`: the edited reminder's item id at
      the same position when it is non-empty, else `temp-<clock>-<index>`. */
  function ItemId(editing: Option<Reminder>, index: nat, clock: nat -> nat): string {
    if editing.Some? && index < |editing.value.checklist| && editing.value.checklist[index].id != "" then
      editing.value.checklist[index].id
    else
      "temp-" + Js.NatToString(clock(index)) + "-" + Js.NatToString(index)
  }

  /** The record `handleSave` passes on, or `None` when the trimmed title is
      blank. `clock(i)` is the time read while building item `i`. */
  function BuildDraft(st: FormState, editing: Option<Reminder>, clock: nat -> nat): Option<ReminderDraft> {
    var title := Js.Trim(st.title);
    if title == [] then None
    else
      var description := Js.Trim(st.description);
      Some(ReminderDraft(
        title,
        if description == [] then None else Some(description),
        st.icon,
        st.priority,
        st.trigger,
        if UsesTime(st.trigger) then Some(st.time) else None,
        if |st.selectedDays| > 0 then Some(st.selectedDays) else None,
        if UsesLocation(st.trigger) then st.location else None,
        if st.selectedGroup != NoGroup then Some(st.selectedGroup) else None,
        SavedItems(st.checklist, editing, clock)))
  }

  /** The checklist `handleSave` builds: each form item with its id. */
  function SavedItems(items: seq<FormItem>, editing: Option<Reminder>, clock: nat -> nat): (s: seq<ChecklistItem>)
    ensures |s| == |items|
    ensures forall i :: 0 <= i < |items| ==>
      s[i] == ChecklistItem(ItemId(editing, i, clock), items[i].text, items[i].completed)
  {
    seq(|items|, i requires 0 <= i < |items| => ChecklistItem(ItemId(editing, i, clock), items[i].text, items[i].completed))
  }

  /** The form after a save: a new-reminder form is reset, an edit form kept. */
  function AfterSave(st: FormState, editing: Option<Reminder>, clock: nat -> nat): FormState {
    if BuildDraft(st, editing, clock).Some? && editing.None? then Blank else st
  }

  // ---------------------------------------------------------------------------
  // Properties

  /** A blank title saves nothing; otherwise the record has the trimmed title,
      the form's `time` only for time triggers, the form's `location` only for
      location triggers, the selected days unless none is selected, the
      selected group unless it is `none`, and the trimmed description unless
      it is blank. */
  lemma SaveConditionalFields(st: FormState, editing: Option<Reminder>, clock: nat -> nat)
    ensures Js.AllWhitespace(st.title) <==> BuildDraft(st, editing, clock).None?
    ensures BuildDraft(st, editing, clock).Some? ==>
      var d := BuildDraft(st, editing, clock).value;
      d.title == Js.Trim(st.title) && d.title != [] &&
      (d.time.Some? <==> st.trigger == OnTime || st.trigger == OnBoth) &&
      (d.time.Some? ==> d.time.value == st.time) &&
      (!(st.trigger == OnLocation || st.trigger == OnBoth) ==> d.location.None?) &&
      (UsesLocation(st.trigger) ==> d.location == st.location) &&
      (d.days.None? <==> st.selectedDays == []) &&
      (st.selectedDays != [] ==> d.days == Some(st.selectedDays)) &&
      (d.groupId.None? <==> st.selectedGroup == NoGroup) &&
      (st.selectedGroup != NoGroup ==> d.groupId == Some(st.selectedGroup)) &&
      (d.description.None? <==> Js.AllWhitespace(st.description)) &&
      (!Js.AllWhitespace(st.description) ==> d.description == Some(Js.Trim(st.description))) &&
      d.icon == st.icon && d.priority == st.priority && d.trigger == st.trigger
  {
    Js.TrimBlankIff(st.title);
    Js.TrimBlankIff(st.description);
  }

  /** The saved checklist has the form's texts and flags in order; item `i`
      reuses the edited reminder's id at `i` when there is a non-empty one,
      else gets a `temp-` id. */
  lemma SaveChecklistIds(st: FormState, editing: Option<Reminder>, clock: nat -> nat, i: nat)
    requires BuildDraft(st, editing, clock).Some? && i < |st.checklist|
    ensures var items := BuildDraft(st, editing, clock).value.checklist;
      |items| == |st.checklist| &&
      items[i].text == st.checklist[i].text && items[i].completed == st.checklist[i].completed &&
      (editing.Some? && i < |editing.value.checklist| && editing.value.checklist[i].id != "" ==>
         items[i].id == editing.value.checklist[i].id) &&
      (!(editing.Some? && i < |editing.value.checklist| && editing.value.checklist[i].id != "") ==>
         items[i].id[..5] == "temp-")
  {
  }

  /** Temporary ids of a new reminder's items are pairwise distinct, whatever
      the clock reads. */
  lemma TempIdsDistinct(clock: nat -> nat, i: nat, j: nat)
    requires i != j
    ensures ItemId(None, i, clock) != ItemId(None, j, clock)
  {
    var a, b := ItemId(None, i, clock), ItemId(None, j, clock);
    if a == b {
      var ci, cj := Js.NatToString(clock(i)), Js.NatToString(clock(j));
      var si, sj := Js.NatToString(i), Js.NatToString(j);
      assert Js.AllDigits(ci) && Js.AllDigits(cj);
      // The last '-' separates the clock reading from the index.
      var ti := "temp-" + ci + "-";
      var tj := "temp-" + cj + "-";
      assert a == ti + si && b == tj + sj;
      assert |si| == |sj| by {
        if |si| != |sj| {
          Js.DigitsAfterLastDash(ti, si, tj, sj);
        }
      }
      assert si == a[|a| - |si|..] && sj == b[|b| - |sj|..];
      Js.NatToStringInjective(i, j);
    }
  }

  /** A non-blank input is appended trimmed and unchecked and the input cleared;
      a blank one changes nothing. */
  lemma AddChecklistItemEffect(st: FormState)
    ensures Js.AllWhitespace(st.newChecklistItem) ==> WithItemAdded(st) == st
    ensures !Js.AllWhitespace(st.newChecklistItem) ==>
      var after := WithItemAdded(st);
      after.checklist == st.checklist + [FormItem(Js.Trim(st.newChecklistItem), false)] &&
      after.newChecklistItem == "" && after == st.(checklist := after.checklist, newChecklistItem := "")
  {
    Js.TrimBlankIff(st.newChecklistItem);
  }

  /** Removing by index drops exactly that position and keeps the others in
      order. */
  lemma RemoveAtKeepsOrder<T>(s: seq<T>, index: int, k: nat)
    requires 0 <= index < |s| && k < |s| - 1
    ensures RemoveAt(s, index)[k] == if k < index then s[k] else s[k + 1]
  {
  }

  /** Loading a reminder and saving it unchanged gives back its own form
      fields, provided they are ones the form can produce: a trimmed non-blank
      title, a description that is absent or trimmed and non-blank, a time
      exactly for time triggers, no location for a time-only trigger, days that
      are absent or non-empty, a group other than `none`, and non-empty item ids. */
  lemma LoadThenSave(st: FormState, r: Reminder, clock: nat -> nat)
    requires r.title != [] && Js.Trim(r.title) == r.title
    requires r.description.None? || (r.description.value != [] && Js.Trim(r.description.value) == r.description.value)
    requires r.time.Some? <==> UsesTime(r.trigger)
    requires r.time.Some? ==> r.time.value != ""
    requires !UsesLocation(r.trigger) ==> r.location.None?
    requires r.days.None? || r.days.value != []
    requires r.groupId.None? || (r.groupId.value != "" && r.groupId.value != NoGroup)
    requires forall i :: 0 <= i < |r.checklist| ==> r.checklist[i].id != ""
    ensures BuildDraft(Load(st, Some(r)), Some(r), clock) == Some(DraftOf(r))
  {
    var loaded := Load(st, Some(r));
    assert loaded.title == r.title;
    assert Js.Trim(loaded.description) == if r.description.Some? then r.description.value else "" by {
      if r.description.None? {
        Js.TrimTrimmed("");
      }
    }
    LoadedChecklistSaves(r, clock);
  }

  lemma LoadedChecklistSaves(r: Reminder, clock: nat -> nat)
    requires forall i :: 0 <= i < |r.checklist| ==> r.checklist[i].id != ""
    ensures SavedItems(FormItems(r.checklist), Some(r), clock) == r.checklist
  {
  }

  // ---------------------------------------------------------------------------
  // The dialog

  class ReminderDialog {
    var title: string
    var description: string
    var icon: string
    var priority: Priority
    var trigger: Trigger
    var time: string
    var selectedDays: seq<int>
    var location: Option<Location>
    var selectedGroup: string
    var checklist: seq<FormItem>
    var newChecklistItem: string

    function State(): FormState
      reads this
    {
      FormState(title, description, icon, priority, trigger, time, selectedDays, location,
                selectedGroup, checklist, newChecklistItem)
    }

    constructor ()
      ensures State() == Blank
    {
      title, description, icon, priority := "", "", DefaultIcon, Routine;
      trigger, time, selectedDays, location := OnTime, DefaultTime, [], None;
      selectedGroup, checklist, newChecklistItem := NoGroup, [], "";
    }

    method Reset()
      modifies this
      ensures State() == Blank
    {
      title, description, icon, priority := "", "", DefaultIcon, Routine;
      trigger, time, selectedDays, location := OnTime, DefaultTime, [], None;
      selectedGroup, checklist, newChecklistItem := NoGroup, [], "";
    }

    /** The effect run when the dialog opens or the edited reminder changes. */
    method OnOpen(editing: Option<Reminder>)
      modifies this
      ensures State() == Load(old(State()), editing)
    {
      if editing.Some? {
        LoadFields(editing.value);
      } else {
        Reset();
      }
    }

    /** Copies an existing reminder into the form's fields; the pending item text is kept. */
    method LoadFields(r: Reminder)
      modifies this
      ensures State() == Load(old(State()), Some(r))
    {
      var next := Load(State(), Some(r));
      title, description, icon, priority := next.title, next.description, next.icon, next.priority;
      trigger, time, selectedDays, location := next.trigger, next.time, next.selectedDays, next.location;
      selectedGroup, checklist := next.selectedGroup, next.checklist;
    }

    method AddChecklistItem()
      modifies this
      ensures State() == WithItemAdded(old(State()))
    {
      var text := Js.Trim(newChecklistItem);
      if text != [] {
        checklist := checklist + [FormItem(text, false)];
        newChecklistItem := "";
      }
    }

    method RemoveChecklistItem(index: int)
      modifies this
      ensures State() == WithItemRemoved(old(State()), index)
    {
      checklist := RemoveAt(checklist, index);
    }

    method ToggleDay(day: int)
      modifies this
      ensures State() == WithDayToggled(old(State()), day)
    {
      if day in selectedDays {
        selectedDays := Filter(selectedDays, (d: int) => d != day);
      } else {
        selectedDays := Days.Sort(selectedDays + [day]);
      }
    }

    /** `handleSave`: returns the record passed to `onSave`, if any. */
    method Save(editing: Option<Reminder>, clock: nat -> nat) returns (saved: Option<ReminderDraft>)
      modifies this
      ensures saved == BuildDraft(old(State()), editing, clock)
      ensures State() == AfterSave(old(State()), editing, clock)
    {
      saved := BuildDraft(State(), editing, clock);
      if saved.None? {
        return;
      }
      if editing.None? {
        Reset();
      }
    }
  }
}
