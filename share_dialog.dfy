/** The share dialog: the plain-text rendering of a reminder, built line by
    line, and the JSON export mapping, whose output the import dialog reads
    back. The day label is the card's (`ReminderCard.DaysText`); the dialog
    carries an identical copy of it. */
module ShareDialog {
  import opened Wrappers
  import opened Types
  import opened Json
  import Js
  import ReminderCard
  import ImportDialog

  const NotSet: string := "설정 안 됨"
  const CheckMark: string := " ✓"
  const ChecklistHeading: string := "\n✓ 체크리스트:\n"
  const RatePrefix: string := "\n📊 완료율: "

  /** The string a priority is stored as. */
  function PriorityName(p: Priority): string {
    match p
    case Urgent => "urgent"
    case Week => "week"
    case Routine => "routine"
  }

  /** The string a trigger is stored as. */
  function TriggerName(t: Trigger): string {
    match t
    case OnTime => "time"
    case OnLocation => "location"
    case OnBoth => "both"
  }

  function TriggerTypeName(t: TriggerType): string {
    if t == Arrive then "arrive" else "leave"
  }

  /** `getPriorityText`: a label for the three priorities, anything else as is. */
  function PriorityText(name: string): string {
    if name == "urgent" then "🔴 긴급"
    else if name == "week" then "🟡 이번 주"
    else if name == "routine" then "🟢 루틴"
    else name
  }

  /** Unknown names pass through unchanged; a known name is always replaced by
      its label. */
  lemma PriorityTextPassesUnknown(name: string)
    ensures ImportDialog.ParsePriority(name).None? <==> PriorityText(name) == name
  {
  }

  /** The three labels are distinct: the text names the priority unambiguously. */
  lemma PriorityTextDistinguishes(p: Priority, q: Priority)
    ensures PriorityText(PriorityName(p)) == PriorityText(PriorityName(q)) <==> p == q
  {
    assert "🔴 긴급"[0] != "🟡 이번 주"[0] && "🔴 긴급"[0] != "🟢 루틴"[0];
    assert "🟡 이번 주"[0] != "🟢 루틴"[0];
  }

  // ---------------------------------------------------------------------------
  // generateTextFormat

  function Header(r: Reminder): string {
    "📌 " + r.title + "\n"
  }

  function DescriptionBlock(r: Reminder): string {
    if TruthyText(r.description) then "\n" + r.description.value + "\n" else ""
  }

  function PriorityLine(r: Reminder): string {
    "\n우선순위: " + PriorityText(PriorityName(r.priority)) + "\n"
  }

  function TimeLine(r: Reminder): string {
    if UsesTime(r.trigger) then
      "⏰ 시간: " + (if TruthyText(r.time) then r.time.value else NotSet) +
      (if r.days.Some? && |r.days.value| > 0 then " (" + ReminderCard.DaysText(r.days.value) + ")" else "") +
      "\n"
    else ""
  }

  function LocationLine(r: Reminder): string {
    if UsesLocation(r.trigger) then
      "📍 위치: " + (if r.location.Some? && r.location.value.name != "" then r.location.value.name else NotSet) +
      (if r.location.Some? then " (" + (if r.location.value.triggerType == Arrive then "도착 시" else "떠날 때") + ")"
       else "") +
      "\n"
    else ""
  }

  /** The line of the item at `index`, numbered from 1. */
  function ItemLine(index: nat, item: ChecklistItem): string {
    Js.NatToString(index + 1) + ". " + item.text + (if item.completed then CheckMark else "") + "\n"
  }

  /** The lines of all items, in list order. */
  function ItemLines(items: seq<ChecklistItem>): string
    decreases |items|
  {
    if items == [] then ""
    else ItemLines(items[..|items| - 1]) + ItemLine(|items| - 1, items[|items| - 1])
  }

  function ChecklistBlock(r: Reminder): string {
    if |r.checklist| > 0 then ChecklistHeading + ItemLines(r.checklist) else ""
  }

  /** `(completionCount/totalShown)`, which closes the text. */
  function CountsSuffix(r: Reminder): string {
    " (" + Js.NatToString(r.completionCount) + "/" + Js.NatToString(r.totalShown) + ")"
  }

  function RateLine(r: Reminder): string {
    RatePrefix + Js.NatToString(ReminderCard.CompletionRate(r)) + "%" + CountsSuffix(r)
  }

  /** The blocks after the title and description. */
  function Rest(r: Reminder): string {
    PriorityLine(r) + TimeLine(r) + LocationLine(r) + ChecklistBlock(r) + RateLine(r)
  }

  /** The shared text, block by block. */
  function TextFormat(r: Reminder): string {
    Header(r) + DescriptionBlock(r) + Rest(r)
  }

  /** `generateTextFormat`, appending to the text as it goes. */
  method GenerateTextFormat(r: Reminder) returns (text: string)
    ensures text == TextFormat(r)
  {
    text := Header(r);
    if TruthyText(r.description) {
      text := text + DescriptionBlock(r);
    }
    ghost var head := Header(r) + DescriptionBlock(r);
    assert text == head;
    text := text + PriorityLine(r);
    ghost var rest := PriorityLine(r);
    text := text + TimeLine(r);
    assert text == head + (rest + TimeLine(r)) by { AppendAssoc(head, rest, TimeLine(r)); }
    rest := rest + TimeLine(r);
    text := text + LocationLine(r);
    assert text == head + (rest + LocationLine(r)) by { AppendAssoc(head, rest, LocationLine(r)); }
    rest := rest + LocationLine(r);
    if |r.checklist| > 0 {
      text := AppendItemLines(text + ChecklistHeading, r.checklist);
      assert text == head + rest + ChecklistBlock(r) by {
        AppendAssoc(head + rest, ChecklistHeading, ItemLines(r.checklist));
      }
    }
    assert text == head + (rest + ChecklistBlock(r)) by { AppendAssoc(head, rest, ChecklistBlock(r)); }
    rest := rest + ChecklistBlock(r);
    text := text + RateLine(r);
    assert text == head + (rest + RateLine(r)) by { AppendAssoc(head, rest, RateLine(r)); }
  }

  lemma AppendAssoc(a: string, b: string, c: string)
    ensures (a + b) + c == a + (b + c)
  {
  }

  /** The `forEach` over the checklist: one numbered line per item, in order. */
  method AppendItemLines(prefix: string, items: seq<ChecklistItem>) returns (text: string)
    ensures text == prefix + ItemLines(items)
  {
    text := prefix;
    var i := 0;
    while i < |items|
      invariant i <= |items|
      invariant text == prefix + ItemLines(items[..i])
    {
      assert items[..i + 1][..i] == items[..i];
      text := text + ItemLine(i, items[i]);
      i := i + 1;
    }
    assert items[..i] == items;
  }

  /** The text opens with the pin, the title and a line break. */
  lemma TextStartsWithTitle(r: Reminder)
    ensures var head := "📌 " + r.title + "\n";
      |TextFormat(r)| >= |head| && TextFormat(r)[..|head|] == head
  {
    AppendAssoc(Header(r), DescriptionBlock(r), Rest(r));
  }

  /** The text closes with the counters; with nothing shown yet the rate reads
      0%. */
  lemma TextEndsWithCounts(r: Reminder)
    ensures var tail := CountsSuffix(r);
      |TextFormat(r)| >= |tail| && TextFormat(r)[|TextFormat(r)| - |tail|..] == tail
    ensures r.totalShown == 0 ==>
      var tail := "\n📊 완료율: 0% (" + Js.NatToString(r.completionCount) + "/0)";
      |TextFormat(r)| >= |tail| && TextFormat(r)[|TextFormat(r)| - |tail|..] == tail
  {
    var front := Header(r) + DescriptionBlock(r);
    var lines := PriorityLine(r) + TimeLine(r) + LocationLine(r) + ChecklistBlock(r);
    var rate := RatePrefix + Js.NatToString(ReminderCard.CompletionRate(r)) + "%";
    assert TextFormat(r) == front + (lines + (rate + CountsSuffix(r)));
    EndsWith(front, lines, rate, CountsSuffix(r));
    if r.totalShown == 0 {
      ZeroRateTail(r);
    }
  }

  /** With nothing shown, the rate and the counters read `0% (c/0)`. */
  lemma ZeroRateTail(r: Reminder)
    requires r.totalShown == 0
    ensures RatePrefix + Js.NatToString(ReminderCard.CompletionRate(r)) + "%" + CountsSuffix(r) ==
      "\n📊 완료율: 0% (" + Js.NatToString(r.completionCount) + "/0)"
  {
    assert Js.NatToString(0) == "0";
  }

  /** A string built as `a + (b + (c + d))` ends with `d`, and with `c + d`. */
  lemma EndsWith(a: string, b: string, c: string, d: string)
    ensures var s := a + (b + (c + d));
      |s| >= |c + d| && s[|s| - |c + d|..] == c + d && s[|s| - |d|..] == d
  {
    var s := a + (b + (c + d));
    assert s == (a + b) + (c + d);
    assert s == (a + b + c) + d;
  }

  /** Every block but the description is the same with or without it. */
  lemma OtherBlocksIgnoreDescription(r: Reminder)
    ensures var r0 := r.(description := None);
      TextFormat(r0) == Header(r) + Rest(r)
  {
    var r0 := r.(description := None);
    assert PriorityLine(r0) == PriorityLine(r);
    assert TimeLine(r0) == TimeLine(r);
    assert LocationLine(r0) == LocationLine(r);
    assert ChecklistBlock(r0) == ChecklistBlock(r);
    assert RateLine(r0) == RateLine(r);
    assert Header(r0) + DescriptionBlock(r0) == Header(r);
  }

  /** The description block sits right after the title line when the
      description is non-empty, and is absent otherwise. */
  lemma DescriptionOnlyWhenPresent(r: Reminder)
    ensures !TruthyText(r.description) ==> TextFormat(r) == TextFormat(r.(description := None))
    ensures TruthyText(r.description) ==>
      var without := TextFormat(r.(description := None));
      TextFormat(r) == Header(r) + ("\n" + r.description.value + "\n") + without[|Header(r)|..]
  {
    var rest := Rest(r);
    OtherBlocksIgnoreDescription(r);
    assert TextFormat(r) == Header(r) + DescriptionBlock(r) + rest;
    assert (Header(r) + rest)[|Header(r)|..] == rest;
  }

  /** The time line appears only for `time` and `both` reminders: otherwise
      neither the time nor the days show in the text. */
  lemma TimeLineOnlyForTimeTriggers(r: Reminder, time: Option<string>, days: Option<seq<int>>)
    requires !UsesTime(r.trigger)
    ensures TextFormat(r.(time := time, days := days)) == TextFormat(r)
  {
    var r1 := r.(time := time, days := days);
    assert Header(r1) + DescriptionBlock(r1) == Header(r) + DescriptionBlock(r);
    assert PriorityLine(r1) == PriorityLine(r) && TimeLine(r1) == TimeLine(r) && LocationLine(r1) == LocationLine(r);
    assert ChecklistBlock(r1) == ChecklistBlock(r) && RateLine(r1) == RateLine(r);
  }

  /** The location line appears only for `location` and `both` reminders. */
  lemma LocationLineOnlyForLocationTriggers(r: Reminder, location: Option<Location>)
    requires !UsesLocation(r.trigger)
    ensures TextFormat(r.(location := location)) == TextFormat(r)
  {
    var r1 := r.(location := location);
    assert Header(r1) + DescriptionBlock(r1) == Header(r) + DescriptionBlock(r);
    assert PriorityLine(r1) == PriorityLine(r) && TimeLine(r1) == TimeLine(r) && LocationLine(r1) == LocationLine(r);
    assert ChecklistBlock(r1) == ChecklistBlock(r) && RateLine(r1) == RateLine(r);
  }

  /** The time line shows "not set" without a time, and the day label in
      parentheses exactly when the day list is non-empty. */
  lemma TimeLineContents(r: Reminder)
    requires UsesTime(r.trigger)
    ensures var shown := if TruthyText(r.time) then r.time.value else "설정 안 됨";
      var head := "⏰ 시간: " + shown;
      |TimeLine(r)| > |head| && TimeLine(r)[..|head|] == head &&
      (r.days.None? || r.days.value == [] ==> TimeLine(r) == head + "\n") &&
      (r.days.Some? && r.days.value != [] ==>
         TimeLine(r)[|head|..] == " (" + ReminderCard.DaysText(r.days.value) + ")\n")
  {
    var shown := if TruthyText(r.time) then r.time.value else NotSet;
    var days := if r.days.Some? && |r.days.value| > 0 then " (" + ReminderCard.DaysText(r.days.value) + ")" else "";
    assert TimeLine(r) == ("⏰ 시간: " + shown) + (days + "\n");
  }

  /** The location line names the place ("not set" for a missing or empty
      name); `arrive` reads "도착 시" and `leave` reads "떠날 때". */
  lemma LocationLineContents(r: Reminder)
    requires UsesLocation(r.trigger)
    ensures var shown := if r.location.Some? && r.location.value.name != "" then r.location.value.name else "설정 안 됨";
      var head := "📍 위치: " + shown;
      |LocationLine(r)| > |head| && LocationLine(r)[..|head|] == head &&
      (r.location.None? ==> LocationLine(r) == head + "\n") &&
      (r.location.Some? && r.location.value.triggerType == Arrive ==> LocationLine(r)[|head|..] == " (도착 시)\n") &&
      (r.location.Some? && r.location.value.triggerType == Leave ==> LocationLine(r)[|head|..] == " (떠날 때)\n")
  {
    var shown := if r.location.Some? && r.location.value.name != "" then r.location.value.name else NotSet;
    var direction := if r.location.Some? then " (" + (if r.location.value.triggerType == Arrive then "도착 시" else "떠날 때") + ")" else "";
    assert LocationLine(r) == ("📍 위치: " + shown) + (direction + "\n");
  }

  // ---------------------------------------------------------------------------
  // The checklist lines

  /** The lines of a prefix of the list are a prefix of the lines of the list. */
  lemma {:induction false} ItemLinesPrefix(items: seq<ChecklistItem>, k: nat)
    requires k <= |items|
    ensures |ItemLines(items[..k])| <= |ItemLines(items)|
    ensures ItemLines(items)[..|ItemLines(items[..k])|] == ItemLines(items[..k])
    decreases |items| - k
  {
    if k < |items| {
      var n := |items|;
      assert items[..n] == items;
      var front := items[..n - 1];
      assert front[..k] == items[..k];
      ItemLinesPrefix(front, k);
      assert ItemLines(items) == ItemLines(front) + ItemLine(n - 1, items[n - 1]);
    } else {
      assert items[..k] == items;
    }
  }

  /** Item `k`'s line follows the lines of the items before it: it is numbered
      `k + 1` and carries item `k`'s text, with the check mark exactly when the
      item is completed. */
  lemma ItemLineAt(items: seq<ChecklistItem>, k: nat)
    requires k < |items|
    ensures var start := |ItemLines(items[..k])|;
      var line := ItemLine(k, items[k]);
      start + |line| <= |ItemLines(items)| &&
      ItemLines(items)[start..start + |line|] == line
  {
    var before := items[..k];
    var upTo := items[..k + 1];
    assert upTo[..k] == before;
    assert ItemLines(upTo) == ItemLines(before) + ItemLine(k, items[k]);
    ItemLinesPrefix(items, k + 1);
  }

  /** An item's line: its number, a dot, its text, and ` ✓` exactly when the
      item is completed. */
  lemma ItemLineShape(index: nat, item: ChecklistItem)
    ensures var head := Js.NatToString(index + 1) + ". " + item.text;
      ItemLine(index, item)[..|head|] == head &&
      (item.completed ==> ItemLine(index, item)[|head|..] == " ✓\n") &&
      (!item.completed ==> ItemLine(index, item)[|head|..] == "\n")
  {
    var head := Js.NatToString(index + 1) + ". " + item.text;
    assert ItemLine(index, item) == head + ((if item.completed then CheckMark else "") + "\n");
  }

  /** Number of line breaks in a string. */
  function LineBreaks(s: string): nat
    decreases |s|
  {
    if s == [] then 0 else LineBreaks(s[..|s| - 1]) + (if s[|s| - 1] == '\n' then 1 else 0)
  }

  lemma {:induction false} LineBreaksAppend(a: string, b: string)
    ensures LineBreaks(a + b) == LineBreaks(a) + LineBreaks(b)
    decreases |b|
  {
    if b != [] {
      var b0 := b[..|b| - 1];
      assert (a + b)[..|a + b| - 1] == a + b0;
      LineBreaksAppend(a, b0);
    } else {
      assert a + b == a;
    }
  }

  lemma {:induction false} NoLineBreaks(s: string)
    requires forall i :: 0 <= i < |s| ==> s[i] != '\n'
    ensures LineBreaks(s) == 0
    decreases |s|
  {
    if s != [] {
      NoLineBreaks(s[..|s| - 1]);
    }
  }

  /** With item texts free of line breaks, the checklist takes exactly one
      line per item. */
  lemma {:induction false} OneLinePerItem(items: seq<ChecklistItem>)
    requires forall i :: 0 <= i < |items| ==> '\n' !in items[i].text
    ensures LineBreaks(ItemLines(items)) == |items|
    decreases |items|
  {
    if items != [] {
      var n := |items|;
      var item := items[n - 1];
      OneLinePerItem(items[..n - 1]);
      var head := Js.NatToString(n) + ". " + item.text + (if item.completed then CheckMark else "");
      NoLineBreaks(head);
      LineBreaksAppend(head, "\n");
      assert LineBreaks("\n") == 1 by {
        assert "\n"[..0] == "";
      }
      LineBreaksAppend(ItemLines(items[..n - 1]), ItemLine(n - 1, item));
    }
  }

  // ---------------------------------------------------------------------------
  // generateJSONFormat

  /** Adds a key with its value, or nothing for an `undefined` value (which
      `JSON.stringify` leaves out). */
  function With(fields: map<string, Json>, key: string, value: Option<Json>): (m: map<string, Json>)
    ensures key in m <==> key in fields || value.Some?
    ensures value.Some? ==> m[key] == value.value
    ensures forall k :: k != key ==> (k in m <==> k in fields)
    ensures forall k :: k != key && k in fields ==> m[k] == fields[k]
  {
    if value.Some? then fields[key := value.value] else fields
  }

  function NumberJson(x: Option<real>): Option<Json> {
    if x.Some? then Some(JNum(x.value)) else None
  }

  function DaysJson(days: seq<int>): Json {
    JArr(seq(|days|, i requires 0 <= i < |days| => JNum(days[i] as real)))
  }

  function LocationJson(l: Location): Json {
    var fields := map["name" := JStr(l.name), "triggerType" := JStr(TriggerTypeName(l.triggerType))];
    JObj(With(With(With(fields, "latitude", NumberJson(l.latitude)), "longitude", NumberJson(l.longitude)),
              "radius", NumberJson(l.radius)))
  }

  /** An exported item: its text, never completed. */
  function ItemJson(item: ChecklistItem): Json {
    JObj(map["text" := JStr(item.text), "completed" := JBool(false)])
  }

  function ItemsJson(items: seq<ChecklistItem>): (j: Json)
    ensures j.JArr? && |j.items| == |items|
    ensures forall i :: 0 <= i < |items| ==> j.items[i] == ItemJson(items[i])
  {
    JArr(seq(|items|, i requires 0 <= i < |items| => ItemJson(items[i])))
  }

  /** The fields the export always has. */
  function RequiredFields(r: Reminder): map<string, Json> {
    map["title" := JStr(r.title), "icon" := JStr(r.icon),
        "priority" := JStr(PriorityName(r.priority)), "trigger" := JStr(TriggerName(r.trigger)),
        "checklist" := ItemsJson(r.checklist)]
  }

  /** The object `generateJSONFormat` stringifies. */
  function ExportJson(r: Reminder): Json {
    var withText := With(With(RequiredFields(r), "description", OptStr(r.description)), "time", OptStr(r.time));
    JObj(With(With(withText, "days", if r.days.Some? then Some(DaysJson(r.days.value)) else None),
              "location", if r.location.Some? then Some(LocationJson(r.location.value)) else None))
  }

  /** The export's keys are pairwise distinct strings. */
  lemma ExportKeysDistinct()
    ensures "title" != "description" && "title" != "icon" && "title" != "priority" && "title" != "trigger" &&
      "title" != "time" && "title" != "days" && "title" != "location" && "title" != "checklist" &&
      "description" != "icon" && "description" != "priority" && "description" != "trigger" &&
      "description" != "time" && "description" != "days" && "description" != "location" &&
      "description" != "checklist" && "icon" != "priority" && "icon" != "trigger" && "icon" != "time" &&
      "icon" != "days" && "icon" != "location" && "icon" != "checklist" && "priority" != "trigger" &&
      "priority" != "time" && "priority" != "days" && "priority" != "location" &&
      "priority" != "checklist" && "trigger" != "time" && "trigger" != "days" && "trigger" != "location" &&
      "trigger" != "checklist" && "time" != "days" && "time" != "location" && "time" != "checklist" &&
      "days" != "location" && "days" != "checklist" && "location" != "checklist"
  {
    assert "icon"[0] != "time"[0] && "icon"[0] != "days"[0] && "time"[0] != "days"[0];
    assert "priority"[0] != "location"[0];
  }

  /** What each key of the export holds. */
  lemma ExportFields(r: Reminder)
    ensures var f := ExportJson(r).fields;
      f.Keys <= {"title", "description", "icon", "priority", "trigger", "time", "days", "location", "checklist"} &&
      "title" in f && f["title"] == JStr(r.title) &&
      "icon" in f && f["icon"] == JStr(r.icon) &&
      "priority" in f && f["priority"] == JStr(PriorityName(r.priority)) &&
      "trigger" in f && f["trigger"] == JStr(TriggerName(r.trigger)) &&
      "checklist" in f && f["checklist"] == ItemsJson(r.checklist) &&
      ("description" in f <==> r.description.Some?) &&
      (r.description.Some? ==> f["description"] == JStr(r.description.value)) &&
      ("time" in f <==> r.time.Some?) &&
      (r.time.Some? ==> f["time"] == JStr(r.time.value)) &&
      ("days" in f <==> r.days.Some?) &&
      (r.days.Some? ==> f["days"] == DaysJson(r.days.value)) &&
      ("location" in f <==> r.location.Some?) &&
      (r.location.Some? ==> f["location"] == LocationJson(r.location.value))
  {
    var m0 := RequiredFields(r);
    assert m0.Keys == {"title", "icon", "priority", "trigger", "checklist"};
    var days := if r.days.Some? then Some(DaysJson(r.days.value)) else None;
    var location := if r.location.Some? then Some(LocationJson(r.location.value)) else None;
    OptionalFields(m0, OptStr(r.description), OptStr(r.time), days, location);
    assert ExportJson(r).fields ==
      With(With(With(With(m0, "description", OptStr(r.description)), "time", OptStr(r.time)), "days", days),
           "location", location);
  }

  /** Adding the four optional fields to the five required ones: each
      optional key is present exactly when its value is defined, and the
      required fields are kept. */
  lemma OptionalFields(m0: map<string, Json>, description: Option<Json>, time: Option<Json>,
                       days: Option<Json>, location: Option<Json>)
    requires m0.Keys == {"title", "icon", "priority", "trigger", "checklist"}
    ensures var f := With(With(With(With(m0, "description", description), "time", time), "days", days),
                          "location", location);
      f.Keys <= {"title", "description", "icon", "priority", "trigger", "time", "days", "location", "checklist"} &&
      (forall k :: k in m0 ==> k in f && f[k] == m0[k]) &&
      ("description" in f <==> description.Some?) && (description.Some? ==> f["description"] == description.value) &&
      ("time" in f <==> time.Some?) && (time.Some? ==> f["time"] == time.value) &&
      ("days" in f <==> days.Some?) &&
      ("location" in f <==> location.Some?)
  {
    ExportKeysDistinct();
    var m2 := With(With(m0, "description", description), "time", time);
    TwoFields(m0, "description", description, "time", time);
    TwoFields(m2, "days", days, "location", location);
    forall k | k in m0
      ensures k != "description" && k != "time" && k != "days" && k != "location"
    {
    }
  }

  /** Adding two fields under distinct keys: the keys present are the old ones
      and each new key whose value is defined; the other entries are kept. */
  lemma TwoFields(m: map<string, Json>, k1: string, v1: Option<Json>, k2: string, v2: Option<Json>)
    requires k1 != k2
    ensures var f := With(With(m, k1, v1), k2, v2);
      f.Keys == m.Keys + (if v1.Some? then {k1} else {}) + (if v2.Some? then {k2} else {}) &&
      (forall k :: k in m && k != k1 && k != k2 ==> f[k] == m[k]) &&
      (v1.Some? ==> f[k1] == v1.value) && (v2.Some? ==> f[k2] == v2.value)
  {
  }

  /** The export holds only the form fields: no id, group, counters or dates,
      and every checklist item is reset to not completed. */
  lemma ExportOmitsIdentityAndProgress(r: Reminder)
    ensures ExportJson(r).fields.Keys <=
      {"title", "description", "icon", "priority", "trigger", "time", "days", "location", "checklist"}
    ensures var items := ExportJson(r).fields["checklist"].items;
      |items| == |r.checklist| &&
      forall i :: 0 <= i < |items| ==>
        items[i].JObj? && items[i].fields.Keys == {"text", "completed"} &&
        items[i].fields["text"] == JStr(r.checklist[i].text) && items[i].fields["completed"] == JBool(false)
  {
    ExportFields(r);
  }

  lemma NamesParseBack(p: Priority, t: Trigger)
    ensures ImportDialog.ParsePriority(PriorityName(p)) == Some(p)
    ensures ImportDialog.ParseTrigger(TriggerName(t)) == Some(t)
  {
  }

  /** The import dialog's checks accept an export exactly when its title and
      icon are non-empty. */
  lemma ExportAccepted(r: Reminder)
    ensures ImportDialog.Acceptable(ExportJson(r)) <==> r.title != "" && r.icon != ""
  {
    ExportFields(r);
    NamesParseBack(r.priority, r.trigger);
  }

  /** Exporting and importing again: the import dialog accepts the export
      exactly when the title and icon are non-empty, and then recovers the
      title, icon, priority, trigger, description and time, holds the days
      and location as exported, drops the group, and rebuilds the checklist
      with the same texts, all unchecked. */
  lemma ExportThenImport(r: Reminder, clock: nat -> nat)
    ensures ImportDialog.Validate(ExportJson(r)).Ok? <==> r.title != "" && r.icon != ""
    ensures r.title != "" && r.icon != "" ==>
      ImportDialog.Acceptable(ExportJson(r)) &&
      ImportDialog.ImportRecord(ExportJson(r), clock).Ok? &&
      var rec := ImportDialog.ImportRecord(ExportJson(r), clock).value;
      rec.title == r.title && rec.icon == r.icon && rec.priority == r.priority && rec.trigger == r.trigger &&
      rec.description == (if r.description.Some? then Some(JStr(r.description.value)) else None) &&
      rec.time == (if r.time.Some? then Some(JStr(r.time.value)) else None) &&
      rec.days == (if r.days.Some? then Some(DaysJson(r.days.value)) else None) &&
      rec.location == (if r.location.Some? then Some(LocationJson(r.location.value)) else None) &&
      rec.groupId.None? &&
      |rec.checklist| == |r.checklist| &&
      forall i :: 0 <= i < |r.checklist| ==>
        rec.checklist[i].text == Some(JStr(r.checklist[i].text)) && !rec.checklist[i].completed
  {
    ImportDialog.ValidateAcceptsExactly(ExportJson(r));
    ExportAccepted(r);
    if r.title != "" && r.icon != "" {
      ImportOfExport(r, clock);
    }
  }

  /** The record imported from an acceptable export. */
  lemma ImportOfExport(r: Reminder, clock: nat -> nat)
    requires ImportDialog.Acceptable(ExportJson(r))
    ensures ImportDialog.ImportRecord(ExportJson(r), clock).Ok?
    ensures var rec := ImportDialog.ImportRecord(ExportJson(r), clock).value;
      rec.title == r.title && rec.icon == r.icon && rec.priority == r.priority && rec.trigger == r.trigger &&
      rec.description == (if r.description.Some? then Some(JStr(r.description.value)) else None) &&
      rec.time == (if r.time.Some? then Some(JStr(r.time.value)) else None) &&
      rec.days == (if r.days.Some? then Some(DaysJson(r.days.value)) else None) &&
      rec.location == (if r.location.Some? then Some(LocationJson(r.location.value)) else None) &&
      rec.groupId.None? &&
      |rec.checklist| == |r.checklist| &&
      forall i :: 0 <= i < |r.checklist| ==>
        rec.checklist[i].text == Some(JStr(r.checklist[i].text)) && !rec.checklist[i].completed
  {
    var e := ExportJson(r);
    ExportFields(r);
    NamesParseBack(r.priority, r.trigger);
    var items := e.fields["checklist"].items;
    assert |items| == |r.checklist|;
    forall i | 0 <= i < |items|
      ensures items[i] != JNull && Get(items[i], "text").value == Some(JStr(r.checklist[i].text))
    {
      ItemTextReadBack(r.checklist[i]);
    }
    ImportDialog.ImportCopiesFields(e, clock);
  }

  /** Reading `text` from an exported item gives the item's text. */
  lemma ItemTextReadBack(item: ChecklistItem)
    ensures ItemJson(item) != JNull
    ensures Get(ItemJson(item), "text") == Ok(Some(JStr(item.text)))
  {
    assert "text" != "completed";
  }
}
