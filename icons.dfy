/**
 * The activity emoji of the UI. WeeklyReportModal and ReminderList look the
 * type up in an object literal and fall back with `emojiMap[type] || '🏃‍♂️'`;
 * ActivityCard writes the same table as a `switch` with a `default`.
 */
module Icons {
  const Runner: string := "\U{1F3C3}\U{200D}\U{2642}\U{FE0F}"
  const Cyclist: string := "\U{1F6B4}\U{200D}\U{2642}\U{FE0F}"
  const Swimmer: string := "\U{1F3CA}\U{200D}\U{2642}\U{FE0F}"
  const Biceps: string := "\U{1F4AA}"
  const Yoga: string := "\U{1F9D8}\U{200D}\U{2640}\U{FE0F}"
  const Walker: string := "\U{1F6B6}\U{200D}\U{2642}\U{FE0F}"

  /** `emojiMap[type] || '🏃‍♂️'`: a missing (or empty) entry falls back to the runner. */
  function EmojiFor(table: map<string, string>, kind: string): (e: string)
    ensures kind in table && table[kind] != "" ==> e == table[kind]
    ensures kind !in table ==> e == Runner
  {
    if kind in table && table[kind] != "" then table[kind] else Runner
  }

  /** The table of WeeklyReportModal. */
  const WorkoutEmoji: map<string, string> :=
    map["run" := Runner, "ride" := Cyclist, "swim" := Swimmer, "workout" := Biceps]

  /** The table of ReminderList: the workout table plus yoga and walking. */
  const ReminderEmoji: map<string, string> :=
    WorkoutEmoji["yoga" := Yoga]["walk" := Walker]

  /** The reminder table agrees with the workout table on every workout type. */
  lemma ReminderEmojiExtends(kind: string)
    requires kind in WorkoutEmoji
    ensures EmojiFor(ReminderEmoji, kind) == EmojiFor(WorkoutEmoji, kind)
  {
  }

  /** Yoga and walking have their own emoji in the reminder list only. */
  lemma YogaAndWalking()
    ensures EmojiFor(ReminderEmoji, "yoga") == Yoga && EmojiFor(ReminderEmoji, "walk") == Walker
    ensures EmojiFor(WorkoutEmoji, "yoga") == Runner && EmojiFor(WorkoutEmoji, "walk") == Runner
  {
  }
}
