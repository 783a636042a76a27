/** The JSON import dialog: the ordered validation in `handleParse`, the
    record `handleImport` builds from the accepted value, and the dialog's own
    state (input, preview, error, busy flags). */
module ImportDialog {
  import opened Wrappers
  import opened Types
  import opened Json
  import Js

  const TitleMessage: string := "제목(title)이 필요합니다"
  const IconMessage: string := "아이콘(icon)이 필요합니다"
  const PriorityMessage: string := "올바른 우선순위(priority)가 필요합니다"
  const TriggerMessage: string := "올바른 알림 타입(trigger)이 필요합니다"
  const ChecklistMessage: string := "체크리스트(checklist)가 배열이어야 합니다"
  /** Shown when the thrown error has an empty message. */
  const FallbackMessage: string := "JSON 파싱 실패"

  const PriorityNames: seq<string> := ["urgent", "week", "routine"]
  const TriggerNames: seq<string> := ["time", "location", "both"]

  function ParsePriority(s: string): Option<Priority> {
    if s == "urgent" then Some(Urgent) else if s == "week" then Some(Week)
    else if s == "routine" then Some(Routine) else None
  }

  function ParseTrigger(s: string): Option<Trigger> {
    if s == "time" then Some(OnTime) else if s == "location" then Some(OnLocation)
    else if s == "both" then Some(OnBoth) else None
  }

  // ---------------------------------------------------------------------------
  // handleParse: the validation chain

  /** The checks of `handleParse`, in order: the first that fails throws its
      message; reading a property of `null` throws a `TypeError`. */
  function Validate(parsed: Json): Result<Json, string> {
    if parsed == JNull then Err(NullAccessMessage)
    else
      var title, icon := Get(parsed, "title").value, Get(parsed, "icon").value;
      var priority, trigger := Get(parsed, "priority").value, Get(parsed, "trigger").value;
      var checklist := Get(parsed, "checklist").value;
      if !IsTruthy(title) || !IsString(title) then Err(TitleMessage)
      else if !IsTruthy(icon) || !IsString(icon) then Err(IconMessage)
      else if !IsTruthy(priority) || !IsOneOf(priority, PriorityNames) then Err(PriorityMessage)
      else if !IsTruthy(trigger) || !IsOneOf(trigger, TriggerNames) then Err(TriggerMessage)
      else if !IsArray(checklist) then Err(ChecklistMessage)
      else Ok(parsed)
  }

  /** `err.message || 'JSON 파싱 실패'`. */
  function ErrorText(message: string): (text: string)
    ensures text != ""
    ensures message != "" ==> text == message
    ensures message == "" ==> text == FallbackMessage
  {
    if message == "" then FallbackMessage else message
  }

  /** A value `handleParse` accepts: an object with a non-empty string title
      and icon, a known priority and trigger, and an array checklist. */
  predicate Acceptable(parsed: Json) {
    parsed.JObj? &&
    "title" in parsed.fields && parsed.fields["title"].JStr? && parsed.fields["title"].s != "" &&
    "icon" in parsed.fields && parsed.fields["icon"].JStr? && parsed.fields["icon"].s != "" &&
    "priority" in parsed.fields && parsed.fields["priority"].JStr? &&
      ParsePriority(parsed.fields["priority"].s).Some? &&
    "trigger" in parsed.fields && parsed.fields["trigger"].JStr? &&
      ParseTrigger(parsed.fields["trigger"].s).Some? &&
    "checklist" in parsed.fields && parsed.fields["checklist"].JArr?
  }

  /** The chain accepts exactly the acceptable values, and gives them back
      unchanged. */
  lemma ValidateAcceptsExactly(parsed: Json)
    ensures Validate(parsed).Ok? <==> Acceptable(parsed)
    ensures Validate(parsed).Ok? ==> Validate(parsed).value == parsed
  {
  }

  /** Only the first failing check is reported: a bad title hides every later
      problem, a bad icon hides the priority, trigger and checklist, and so on. */
  lemma FirstFailureReported(parsed: Json)
    requires parsed.JObj?
    ensures var f := parsed.fields;
      var titleOk := "title" in f && f["title"].JStr? && f["title"].s != "";
      var iconOk := "icon" in f && f["icon"].JStr? && f["icon"].s != "";
      var priorityOk := "priority" in f && f["priority"].JStr? && f["priority"].s in PriorityNames;
      var triggerOk := "trigger" in f && f["trigger"].JStr? && f["trigger"].s in TriggerNames;
      (!titleOk ==> Validate(parsed) == Err(TitleMessage)) &&
      (titleOk && !iconOk ==> Validate(parsed) == Err(IconMessage)) &&
      (titleOk && iconOk && !priorityOk ==> Validate(parsed) == Err(PriorityMessage)) &&
      (titleOk && iconOk && priorityOk && !triggerOk ==> Validate(parsed) == Err(TriggerMessage)) &&
      (titleOk && iconOk && priorityOk && triggerOk && !("checklist" in f && f["checklist"].JArr?) ==>
         Validate(parsed) == Err(ChecklistMessage))
  {
  }

  /** Arrays, strings, numbers and booleans have no `title`, so they fail the
      first check; `null` throws on the property read. */
  lemma NonObjectsRejected(parsed: Json)
    requires !parsed.JObj?
    ensures parsed == JNull ==> Validate(parsed) == Err(NullAccessMessage)
    ensures parsed != JNull ==> Validate(parsed) == Err(TitleMessage)
  {
  }

  // ---------------------------------------------------------------------------
  // handleImport: normalisation

  /** An imported checklist item; its `text` is whatever the input held. */
  datatype ImportedItem = ImportedItem(id: string, text: Option<Json>, completed: bool)

  /** The record `handleImport` passes on. Fields the chain does not check keep
      the input's JSON value, whatever its type. */
  datatype ImportedReminder = ImportedReminder(
    title: string,
    description: Option<Json>,
    icon: string,
    priority: Priority,
    trigger: Trigger,
    time: Option<Json>,
    days: Option<Json>,
    location: Option<Json>,
    groupId: Option<string>,
    checklist: seq<ImportedItem>)

  /** `imported-<clock>-<index>`. */
  function ImportedId(clock: nat -> nat, index: nat): string {
    "imported-" + Js.NatToString(clock(index)) + "-" + Js.NatToString(index)
  }

  /** `checklist.map((item, index) => ({ id, text: item.text, completed: false }))`,
      which throws at the first `null` item. */
  function ImportItems(items: seq<Json>, clock: nat -> nat, start: nat): (r: Result<seq<ImportedItem>, string>)
    ensures r.Err? <==> exists i :: 0 <= i < |items| && items[i] == JNull
    ensures r.Ok? ==> |r.value| == |items|
    decreases |items|
  {
    if items == [] then Ok([])
    else
      match Get(items[0], "text")
      case Err(e) => Err(e)
      case Ok(text) =>
        match ImportItems(items[1..], clock, start + 1)
        case Err(e) => assert items[1..][0] == items[1]; Err(e)
        case Ok(rest) =>
          assert forall i :: 1 <= i < |items| ==> items[i] == items[1..][i - 1];
          Ok([ImportedItem(ImportedId(clock, start), text, false)] + rest)
  }

  /** The record built from an accepted value, or the `TypeError` thrown by a
      `null` checklist item. */
  function ImportRecord(preview: Json, clock: nat -> nat): Result<ImportedReminder, string>
    requires Acceptable(preview)
  {
    var f := preview.fields;
    match ImportItems(f["checklist"].items, clock, 0)
    case Err(e) => Err(e)
    case Ok(items) =>
      Ok(ImportedReminder(
        f["title"].s,
        if "description" in f then Some(f["description"]) else None,
        f["icon"].s,
        ParsePriority(f["priority"].s).value,
        ParseTrigger(f["trigger"].s).value,
        if "time" in f then Some(f["time"]) else None,
        if "days" in f then Some(f["days"]) else None,
        if "location" in f then Some(f["location"]) else None,
        None,
        items))
  }

  /** Each imported item takes the input item's `text`, is not completed, and
      has the id `imported-<clock>-<index>`. */
  lemma {:induction false} ImportItemsShape(items: seq<Json>, clock: nat -> nat, start: nat, i: nat)
    requires ImportItems(items, clock, start).Ok? && i < |items|
    ensures var out := ImportItems(items, clock, start).value;
      out[i] == ImportedItem(ImportedId(clock, start + i), Get(items[i], "text").value, false)
    decreases |items|
  {
    if i > 0 {
      assert items[1..][i - 1] == items[i];
      ImportItemsShape(items[1..], clock, start + 1, i - 1);
    }
  }

  /** An accepted value with no `null` item imports with its title, icon,
      priority, trigger and other fields copied, no group, and a checklist of
      the same length and texts, all unchecked, with `imported-` ids. */
  lemma ImportCopiesFields(preview: Json, clock: nat -> nat)
    requires Acceptable(preview)
    requires forall i :: 0 <= i < |preview.fields["checklist"].items| ==> preview.fields["checklist"].items[i] != JNull
    ensures ImportRecord(preview, clock).Ok?
    ensures var f, r := preview.fields, ImportRecord(preview, clock).value;
      var items := f["checklist"].items;
      r.title == f["title"].s && r.icon == f["icon"].s &&
      Some(r.priority) == ParsePriority(f["priority"].s) && r.trigger == ParseTrigger(f["trigger"].s).value &&
      r.groupId.None? &&
      (r.description.Some? <==> "description" in f) && (r.time.Some? <==> "time" in f) &&
      (r.days.Some? <==> "days" in f) && (r.location.Some? <==> "location" in f) &&
      ("description" in f ==> r.description == Some(f["description"])) &&
      ("time" in f ==> r.time == Some(f["time"])) &&
      ("days" in f ==> r.days == Some(f["days"])) &&
      ("location" in f ==> r.location == Some(f["location"])) &&
      |r.checklist| == |items| &&
      forall i :: 0 <= i < |items| ==>
        r.checklist[i].text == Get(items[i], "text").value && !r.checklist[i].completed &&
        r.checklist[i].id == ImportedId(clock, i)
  {
    var items := preview.fields["checklist"].items;
    forall i | 0 <= i < |items|
      ensures ImportItems(items, clock, 0).value[i] == ImportedItem(ImportedId(clock, i), Get(items[i], "text").value, false)
    {
      ImportItemsShape(items, clock, 0, i);
    }
  }

  /** The imported ids are pairwise distinct, whatever the clock reads. */
  lemma ImportedIdsDistinct(clock: nat -> nat, i: nat, j: nat)
    requires i != j
    ensures ImportedId(clock, i) != ImportedId(clock, j)
  {
    var a, b := ImportedId(clock, i), ImportedId(clock, j);
    if a == b {
      var ti := "imported-" + Js.NatToString(clock(i)) + "-";
      var tj := "imported-" + Js.NatToString(clock(j)) + "-";
      var si, sj := Js.NatToString(i), Js.NatToString(j);
      assert a == ti + si && b == tj + sj;
      Js.DigitsAfterLastDash(ti, si, tj, sj);
      assert si == a[|a| - |si|..] && sj == b[|b| - |sj|..];
      Js.NatToStringInjective(i, j);
    }
  }

  // ---------------------------------------------------------------------------
  // A null checklist item

  /** A value the chain accepts whose checklist holds `null`. */
  const NullItemInput: Json := JObj(map[
    "title" := JStr("a"), "icon" := JStr("b"), "priority" := JStr("urgent"),
    "trigger" := JStr("time"), "checklist" := JArr([JNull])])

  /** As written, the chain accepts a checklist holding `null`, and the import
      then throws: nothing is imported and the dialog stays busy. */
  lemma NullChecklistItemAcceptedThenThrows(clock: nat -> nat)
    ensures Validate(NullItemInput).Ok?
    ensures ImportRecord(NullItemInput, clock).Err?
  {
    assert NullItemInput.fields["checklist"].items[0] == JNull;
  }

  /** The chain with the intended extra check: every checklist item must be an
      object. */
  function ValidateCorrected(parsed: Json): Result<Json, string> {
    match Validate(parsed)
    case Err(e) => Err(e)
    case Ok(v) =>
      var items := v.fields["checklist"].items;
      if exists i :: 0 <= i < |items| && !items[i].JObj? then Err(ChecklistMessage) else Ok(v)
  }

  /** Whatever the corrected chain accepts imports without throwing. */
  lemma CorrectedAcceptedImports(parsed: Json, clock: nat -> nat)
    requires ValidateCorrected(parsed).Ok?
    ensures Acceptable(parsed)
    ensures ImportRecord(parsed, clock).Ok?
  {
  }

  // ---------------------------------------------------------------------------
  // The dialog

  class ImportForm {
    var jsonInput: string
    var previewData: Option<Json>
    var error: Option<string>
    var isParsing: bool
    var isImporting: bool

    /** Whatever is previewed passed the chain. */
    predicate Valid()
      reads this
    {
      previewData.Some? ==> Acceptable(previewData.value)
    }

    constructor ()
      ensures Valid()
      ensures jsonInput == "" && previewData.None? && error.None? && !isParsing && !isImporting
    {
      jsonInput, previewData, error := "", None, None;
      isParsing, isImporting := false, false;
    }

    method Reset()
      modifies this
      ensures Valid()
      ensures jsonInput == "" && previewData.None? && error.None? && !isParsing && !isImporting
    {
      jsonInput := "";
      previewData := None;
      error := None;
      isParsing := false;
      isImporting := false;
    }

    /** `handleParse`, given what `JSON.parse(jsonInput)` returned or the
        message of what it threw. */
    method HandleParse(parsed: Result<Json, string>)
      modifies this
      ensures Valid()
      ensures !isParsing && jsonInput == old(jsonInput) && isImporting == old(isImporting)
      ensures parsed.Ok? && Validate(parsed.value).Ok? ==>
        previewData == Some(parsed.value) && error.None?
      ensures parsed.Ok? && Validate(parsed.value).Err? ==>
        previewData.None? && error == Some(ErrorText(Validate(parsed.value).error))
      ensures parsed.Err? ==> previewData.None? && error == Some(ErrorText(parsed.error))
    {
      isParsing := true;
      error := None;
      var outcome := if parsed.Err? then Err(parsed.error) else Validate(parsed.value);
      if outcome.Ok? {
        ValidateAcceptsExactly(parsed.value);
        previewData := Some(outcome.value);
        error := None;
      } else {
        error := Some(ErrorText(outcome.error));
        previewData := None;
      }
      isParsing := false;
    }

    /** `handleImport`: returns the record passed to `onImport`, if any. A
        throwing import leaves the dialog busy with its preview. */
    method HandleImport(clock: nat -> nat) returns (imported: Option<ImportedReminder>)
      requires Valid()
      modifies this
      ensures Valid()
      ensures old(previewData).None? ==> imported.None? && unchanged(this)
      ensures old(previewData).Some? && ImportRecord(old(previewData).value, clock).Ok? ==>
        imported == Some(ImportRecord(old(previewData).value, clock).value) &&
        jsonInput == "" && previewData.None? && error.None? && !isParsing && !isImporting
      ensures old(previewData).Some? && ImportRecord(old(previewData).value, clock).Err? ==>
        imported.None? && isImporting &&
        jsonInput == old(jsonInput) && previewData == old(previewData) && error == old(error) &&
        isParsing == old(isParsing)
    {
      if previewData.None? {
        return None;
      }
      isImporting := true;
      var record := ImportRecord(previewData.value, clock);
      if record.Err? {
        return None;
      }
      imported := Some(record.value);
      Reset();
    }
  }
}
