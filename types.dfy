/** The records the application passes around: reminders, their checklist
    items and locations, groups, saved locations and user statistics. */
module Types {
  import opened Wrappers
  import opened Seqs

  /** Milliseconds since the epoch (`Date.now()`, `new Date()`). */
  type Timestamp = nat

  datatype Priority = Urgent | Week | Routine

  /** How a reminder fires: at a time, at a place, or both. */
  datatype Trigger = OnTime | OnLocation | OnBoth

  datatype TriggerType = Arrive | Leave

  datatype ChecklistItem = ChecklistItem(id: string, text: string, completed: bool)

  /** A place with an optional centre and radius (metres). */
  datatype Location = Location(
    name: string,
    latitude: Option<real>,
    longitude: Option<real>,
    radius: Option<real>,
    triggerType: TriggerType)

  datatype Reminder = Reminder(
    id: string,
    title: string,
    description: Option<string>,
    icon: string,
    priority: Priority,
    groupId: Option<string>,
    trigger: Trigger,
    time: Option<string>,
    days: Option<seq<int>>,
    location: Option<Location>,
    checklist: seq<ChecklistItem>,
    completionCount: nat,
    totalShown: nat,
    lastCompleted: Option<Timestamp>,
    createdAt: Timestamp)

  datatype ReminderGroup = ReminderGroup(
    id: string,
    name: string,
    icon: string,
    isPreset: bool,
    reminderIds: seq<string>)

  datatype Badge = Badge(id: string, name: string, description: string, icon: string, unlockedAt: Option<Timestamp>)

  datatype UserStats = UserStats(
    currentStreak: nat,
    longestStreak: nat,
    totalCompletions: nat,
    weeklyCompletionRate: int,
    badges: seq<Badge>)

  /** A location kept in the user's list of places (always with coordinates). */
  datatype SavedLocation = SavedLocation(
    id: string,
    name: string,
    icon: string,
    latitude: real,
    longitude: real,
    radius: real,
    address: Option<string>,
    createdAt: Timestamp)

  /** The fields a reminder form produces: a reminder without its id, creation
      time and counters. */
  datatype ReminderDraft = ReminderDraft(
    title: string,
    description: Option<string>,
    icon: string,
    priority: Priority,
    trigger: Trigger,
    time: Option<string>,
    days: Option<seq<int>>,
    location: Option<Location>,
    groupId: Option<string>,
    checklist: seq<ChecklistItem>)

  /** The form fields of a reminder. */
  function DraftOf(r: Reminder): ReminderDraft {
    ReminderDraft(r.title, r.description, r.icon, r.priority, r.trigger, r.time, r.days,
                  r.location, r.groupId, r.checklist)
  }

  /** JavaScript truthiness of an optional number: present and not 0. */
  predicate Truthy(x: Option<real>) {
    x.Some? && x.value != 0.0
  }

  /** JavaScript truthiness of an optional string: present and not empty. */
  predicate TruthyText(x: Option<string>) {
    x.Some? && x.value != ""
  }

  predicate UsesTime(t: Trigger) {
    t == OnTime || t == OnBoth
  }

  predicate UsesLocation(t: Trigger) {
    t == OnLocation || t == OnBoth
  }

  predicate IsCompleted(item: ChecklistItem) {
    item.completed
  }

  /** `checklist.every(item => item.completed)` (true of the empty list). */
  predicate AllCompleted(checklist: seq<ChecklistItem>) {
    Every(checklist, IsCompleted)
  }

  /** Number of completed items (`checklist.filter(item => item.completed).length`). */
  function CompletedCount(checklist: seq<ChecklistItem>): (n: nat)
    ensures n <= |checklist|
  {
    Count(checklist, IsCompleted)
  }
}
