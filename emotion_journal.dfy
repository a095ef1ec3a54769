/** The emotion journal of `useEmotionJournal`: a list of entries with at most
    one entry per calendar day (a later entry on the same day replaces the
    earlier one), a seven-day window over it, and the emoji and colour lookups
    with their defaults. Calendar arithmetic is not modelled: a `Date` carries
    its timestamp, its local calendar-day number and its month and day of
    month as given values. */
module EmotionJournal {
  import opened Wrappers
  import opened Text

  /** Month (0-based, as `getMonth()`) and day of month (as `getDate()`). */
  datatype MonthDay = MonthDay(month: nat, dayOfMonth: nat)

  /** A JavaScript `Date`: milliseconds since the epoch, the number of the
      local calendar day it falls on, and that day's month and day of month. */
  datatype Date = Date(time: int, day: int, calendar: MonthDay)

  datatype EmotionEntry = EmotionEntry(id: string, date: Date, emotion: string, note: Option<string>)

  /** One of the configured emotion choices (the table itself is app data). */
  datatype EmotionOption = EmotionOption(emoji: string, labelText: string, color: string)

  const DefaultEmoji := "😐"
  const DefaultColor := "bg-gray-100 text-gray-800"

  /** Number of days in the recent-emotions window. */
  const WindowDays: nat := 7

  /** `i` is the first index of an entry dated on calendar day `day`. */
  predicate IsFirstOnDay(entries: seq<EmotionEntry>, day: int, i: int) {
    && 0 <= i < |entries|
    && entries[i].date.day == day
    && forall k :: 0 <= k < i ==> entries[k].date.day != day
  }

  predicate NoneOnDay(entries: seq<EmotionEntry>, day: int) {
    forall k :: 0 <= k < |entries| ==> entries[k].date.day != day
  }

  /** The journal's invariant: no two entries on the same calendar day. */
  predicate AtMostOnePerDay(entries: seq<EmotionEntry>) {
    forall p, q :: 0 <= p < q < |entries| ==> entries[p].date.day != entries[q].date.day
  }

  /** The index `findIndex` returns for day `day`, as a value. */
  function FirstOnDay(entries: seq<EmotionEntry>, day: int): (r: Option<nat>)
    ensures r.Some? ==> IsFirstOnDay(entries, day, r.value)
    ensures r.None? ==> NoneOnDay(entries, day)
  {
    if entries == [] then None
    else if entries[0].date.day == day then Some(0)
    else match FirstOnDay(entries[1..], day)
      case None => None
      case Some(i) => Some(i + 1)
  }

  /** `entries.find(...)` for day `day`: the first entry of that day, if any. */
  function EntryOnDay(entries: seq<EmotionEntry>, day: int): (r: Option<EmotionEntry>)
    ensures r.None? <==> NoneOnDay(entries, day)
    ensures r.Some? ==> r.value.date.day == day && exists i :: IsFirstOnDay(entries, day, i) && r.value == entries[i]
  {
    match FirstOnDay(entries, day)
    case None => None
    case Some(i) => Some(entries[i])
  }

  /** The stored note: the trimmed note, or none when nothing but whitespace
      was typed (`emotionNote.trim() || undefined`). */
  function NoteOf(raw: string): (r: Option<string>)
    ensures r.None? <==> AllSpace(raw)
    ensures r.Some? ==> r.value == Trim(raw) && r.value != []
  {
    TrimEmptyIffAllSpace(raw);
    if Trim(raw) == [] then None else Some(Trim(raw))
  }

  /** The same-day upsert of `addEmotionEntry`: replace the first entry on the
      new entry's day, or append when that day has none. */
  function Upserted(entries: seq<EmotionEntry>, e: EmotionEntry): (r: seq<EmotionEntry>)
    ensures e in r
    ensures |r| == |entries| + 1 <==> NoneOnDay(entries, e.date.day)
    ensures |r| == |entries| || |r| == |entries| + 1
    ensures forall x :: x in entries && x.date.day != e.date.day ==> x in r
  {
    match FirstOnDay(entries, e.date.day)
    case Some(i) =>
      var r := entries[i := e];
      assert r[i] == e;
      assert forall k :: 0 <= k < |entries| && entries[k].date.day != e.date.day ==> r[k] == entries[k];
      r
    case None => entries + [e]
  }

  /** With an entry on the same day, only the first such entry is replaced:
      the length is unchanged and every other entry is untouched. */
  lemma UpsertReplacesFirstSameDay(entries: seq<EmotionEntry>, e: EmotionEntry, i: int)
    requires IsFirstOnDay(entries, e.date.day, i)
    ensures |Upserted(entries, e)| == |entries|
    ensures Upserted(entries, e)[i] == e
    ensures forall k :: 0 <= k < |entries| && k != i ==> Upserted(entries, e)[k] == entries[k]
  {
    var j := FirstOnDay(entries, e.date.day).value;
    assert !(j < i) && !(i < j);
  }

  /** Without an entry on that day, the new entry is appended at the end. */
  lemma UpsertAppendsNewDay(entries: seq<EmotionEntry>, e: EmotionEntry)
    requires NoneOnDay(entries, e.date.day)
    ensures Upserted(entries, e) == entries + [e]
  {
  }

  /** After an upsert, the new entry is the journal's entry for its day, and
      the entries of every other day are still found as before. */
  lemma UpsertThenFind(entries: seq<EmotionEntry>, e: EmotionEntry, day: int)
    requires AtMostOnePerDay(entries)
    ensures EntryOnDay(Upserted(entries, e), e.date.day) == Some(e)
    ensures day != e.date.day ==> EntryOnDay(Upserted(entries, e), day) == EntryOnDay(entries, day)
  {
    var r := Upserted(entries, e);
    match FirstOnDay(entries, e.date.day)
    case Some(i) =>
      UpsertReplacesFirstSameDay(entries, e, i);
      FirstOnDayUnique(r, e.date.day, i);
      if day != e.date.day {
        match FirstOnDay(entries, day)
        case Some(j) =>
          FirstOnDayUnique(r, day, j);
        case None =>
          assert NoneOnDay(r, day);
      }
    case None =>
      UpsertAppendsNewDay(entries, e);
      FirstOnDayUnique(r, e.date.day, |entries|);
      if day != e.date.day {
        match FirstOnDay(entries, day)
        case Some(j) =>
          FirstOnDayUnique(r, day, j);
        case None =>
          assert NoneOnDay(r, day);
      }
  }

  /** `FirstOnDay` finds exactly the first index of the day. */
  lemma FirstOnDayUnique(entries: seq<EmotionEntry>, day: int, i: int)
    requires IsFirstOnDay(entries, day, i)
    ensures FirstOnDay(entries, day) == Some(i)
  {
    var r := FirstOnDay(entries, day);
    if r.Some? {
      assert !(r.value < i) && !(i < r.value);
    }
  }

  /** The upsert keeps "at most one entry per calendar day". */
  lemma UpsertKeepsOnePerDay(entries: seq<EmotionEntry>, e: EmotionEntry)
    requires AtMostOnePerDay(entries)
    ensures AtMostOnePerDay(Upserted(entries, e))
  {
    match FirstOnDay(entries, e.date.day)
    case Some(i) =>
      var r := Upserted(entries, e);
      forall p, q | 0 <= p < q < |r|
        ensures r[p].date.day != r[q].date.day
      {
        if p == i {
          assert entries[i].date.day == e.date.day;
        } else if q == i {
          assert entries[i].date.day == e.date.day;
        }
      }
    case None =>
  }

  /** The `findIndex` loop of `addEmotionEntry`: the first index of an entry
      on calendar day `day`, or -1. */
  method FindDayIndex(entries: seq<EmotionEntry>, day: int) returns (index: int)
    ensures index == -1 || IsFirstOnDay(entries, day, index)
    ensures index == -1 <==> NoneOnDay(entries, day)
  {
    index := 0;
    while index < |entries|
      invariant 0 <= index <= |entries|
      invariant forall k :: 0 <= k < index ==> entries[k].date.day != day
    {
      if entries[index].date.day == day {
        return;
      }
      index := index + 1;
    }
    index := -1;
  }

  /** `getRecentEmotions`: seven slots for the days from six days ago up to
      today, oldest first; each holds the first entry of its day, or nothing. */
  method GetRecentEmotions(entries: seq<EmotionEntry>, today: int) returns (recent: seq<Option<EmotionEntry>>)
    ensures |recent| == WindowDays
    ensures forall k :: 0 <= k < WindowDays ==>
      (recent[k].None? <==> NoneOnDay(entries, today - (WindowDays - 1) + k))
    ensures forall k :: 0 <= k < WindowDays && recent[k].Some? ==>
      exists i :: IsFirstOnDay(entries, today - (WindowDays - 1) + k, i) && recent[k].value == entries[i]
    ensures recent[WindowDays - 1] == EntryOnDay(entries, today)
  {
    recent := [];
    for i := WindowDays downto 0
      invariant |recent| == WindowDays - i
      invariant forall k :: 0 <= k < |recent| ==> recent[k] == EntryOnDay(entries, today - (WindowDays - 1) + k)
    {
      var day := today - i;
      var index := FindDayIndex(entries, day);
      var entry := if index >= 0 then Some(entries[index]) else None;
      FirstOnDayFindIndex(entries, day, index);
      recent := recent + [entry];
    }
  }

  /** The index the `findIndex` loop returns agrees with `FirstOnDay`. */
  lemma FirstOnDayFindIndex(entries: seq<EmotionEntry>, day: int, index: int)
    requires index == -1 || IsFirstOnDay(entries, day, index)
    requires index == -1 <==> NoneOnDay(entries, day)
    ensures EntryOnDay(entries, day) == if index >= 0 then Some(entries[index]) else None
  {
    if index >= 0 {
      FirstOnDayUnique(entries, day, index);
    }
  }

  /** The first option with the given label, as `emotionOptions.find(...)`. */
  function FindOption(options: seq<EmotionOption>, emotionLabel: string): (r: Option<EmotionOption>)
    ensures r.None? <==> forall k :: 0 <= k < |options| ==> options[k].labelText != emotionLabel
    ensures r.Some? ==> exists k :: 0 <= k < |options| && options[k] == r.value && r.value.labelText == emotionLabel
                          && forall j :: 0 <= j < k ==> options[j].labelText != emotionLabel
  {
    if options == [] then None
    else if options[0].labelText == emotionLabel then Some(options[0])
    else
      FindOption(options[1..], emotionLabel)
  }

  /** `getEmotionEmoji`: the emoji of the first option with that label, or the
      neutral face for an unknown label. */
  function EmotionEmoji(options: seq<EmotionOption>, emotionLabel: string): (r: string)
    ensures (forall k :: 0 <= k < |options| ==> options[k].labelText != emotionLabel) ==> r == DefaultEmoji
    ensures forall k :: (0 <= k < |options| && options[k].labelText == emotionLabel
                         && forall j :: 0 <= j < k ==> options[j].labelText != emotionLabel) ==> r == options[k].emoji
  {
    match FindOption(options, emotionLabel)
    case Some(option) => option.emoji
    case None => DefaultEmoji
  }

  /** `getEmotionColor`: the colour classes of the first option with that
      label, or grey for an unknown label. */
  function EmotionColor(options: seq<EmotionOption>, emotionLabel: string): (r: string)
    ensures (forall k :: 0 <= k < |options| ==> options[k].labelText != emotionLabel) ==> r == DefaultColor
    ensures forall k :: (0 <= k < |options| && options[k].labelText == emotionLabel
                         && forall j :: 0 <= j < k ==> options[j].labelText != emotionLabel) ==> r == options[k].color
  {
    match FindOption(options, emotionLabel)
    case Some(option) => option.color
    case None => DefaultColor
  }

  /** The hook's state: the journal and the entry form. */
  class JournalState {
    var entries: seq<EmotionEntry>
    var selectedEmotion: string
    var emotionNote: string
    var isAddingEntry: bool

    constructor ()
      ensures entries == [] && selectedEmotion == "" && emotionNote == "" && !isAddingEntry
    {
      entries, selectedEmotion, emotionNote, isAddingEntry := [], "", "", false;
    }

    /** `addEmotionEntry` at the instant `now`: nothing without a selected
        emotion; otherwise the same-day upsert of a new entry carrying the
        selected emotion and the trimmed note, then the form is cleared. */
    method AddEmotionEntry(now: Date)
      modifies this
      ensures old(selectedEmotion) == "" ==>
        entries == old(entries) && selectedEmotion == old(selectedEmotion)
        && emotionNote == old(emotionNote) && isAddingEntry == old(isAddingEntry)
      ensures old(selectedEmotion) != "" ==>
        && entries == Upserted(old(entries), EmotionEntry("emotion-" + IntToString(now.time), now,
                                                         old(selectedEmotion), NoteOf(old(emotionNote))))
        && selectedEmotion == "" && emotionNote == "" && !isAddingEntry
    {
      if selectedEmotion == "" {
        return;
      }
      var newEntry := EmotionEntry("emotion-" + IntToString(now.time), now, selectedEmotion, NoteOf(emotionNote));
      var existingEntryIndex := FindDayIndex(entries, now.day);
      if existingEntryIndex >= 0 {
        FirstOnDayUnique(entries, now.day, existingEntryIndex);
        entries := entries[existingEntryIndex := newEntry];
      } else {
        entries := entries + [newEntry];
      }
      selectedEmotion := "";
      emotionNote := "";
      isAddingEntry := false;
    }
  }
}
