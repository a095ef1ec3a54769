/** The logic of the journal view (`EmotionJournal.tsx`): the relative date
    label of an entry, the labels under the seven-day chart, and the
    newest-first ordering of the history list. */
module JournalView {
  import opened Text
  import opened EmotionJournal

  const MillisPerDay: int := 1000 * 60 * 60 * 24

  /** Whole days from `date` to `now`, rounded down (`Math.floor` of the
      millisecond difference over one day); negative for a future date. */
  function DiffDays(now: Date, date: Date): (d: int)
    ensures d * MillisPerDay <= now.time - date.time < (d + 1) * MillisPerDay
  {
    (now.time - date.time) / MillisPerDay
  }

  /** `${month + 1}/${day}`. */
  function MonthDayText(md: MonthDay): (r: string)
    ensures r != [] && '0' <= r[|r| - 1] <= '9'
    ensures '/' in r && r[0] != '0'
  {
    NatToString(md.month + 1) + "/" + NatToString(md.dayOfMonth)
  }

  /** The month/day label is two decimal numbers around a single slash: the
      month counted from 1, then the day of the month, neither written with a
      leading zero ("3/5", never "03/05"). */
  lemma MonthDayTextParses(md: MonthDay)
    ensures var r := MonthDayText(md);
      && '/' in r && r[0] != '0'
      && forall k :: 0 <= k < |r| && r[k] == '/' ==>
           && IsDecimal(r[..k]) && DigitsValue(r[..k]) == md.month + 1
           && IsDecimal(r[k + 1..]) && DigitsValue(r[k + 1..]) == md.dayOfMonth
           && (r[k + 1] == '0' ==> r[k + 1..] == "0")
  {
    var month := NatToString(md.month + 1);
    var day := NatToString(md.dayOfMonth);
    var r := MonthDayText(md);
    assert r[|month|] == '/';
    forall k | 0 <= k < |r| && r[k] == '/'
      ensures k == |month|
    {
    }
    assert r[..|month|] == month && r[|month| + 1..] == day;
  }

  /** Which whole-day band the millisecond difference falls in. */
  lemma DiffDaysBands(now: Date, date: Date)
    ensures var d, diff := DiffDays(now, date), now.time - date.time;
      && (d == 0 <==> 0 <= diff < MillisPerDay)
      && (d == 1 <==> MillisPerDay <= diff < 2 * MillisPerDay)
      && (d < 0 <==> diff < 0)
      && (2 <= d < 7 <==> 2 * MillisPerDay <= diff < 7 * MillisPerDay)
      && (d >= 7 <==> diff >= 7 * MillisPerDay)
  {
    var d, diff := DiffDays(now, date), now.time - date.time;
    if d >= 7 {
      assert d * MillisPerDay >= 7 * MillisPerDay;
    } else if d < 0 {
      assert (d + 1) * MillisPerDay <= 0;
    } else {
      assert 0 <= d < 7;
    }
  }

  /** `formatDate`: "today", "yesterday", "n days ago" for any other
      difference below a week (negative ones included), else month/day. */
  function FormatDate(now: Date, date: Date): (r: string)
    ensures r == "今天" <==> 0 <= now.time - date.time < MillisPerDay
    ensures r == "昨天" <==> MillisPerDay <= now.time - date.time < 2 * MillisPerDay
    ensures now.time - date.time >= 7 * MillisPerDay <==> r == MonthDayText(date.calendar)
    ensures r != []
    ensures r[|r| - 1] == '前' <==> now.time - date.time < 0 || 2 * MillisPerDay <= now.time - date.time < 7 * MillisPerDay
    ensures r[|r| - 1] == '前' ==> r == IntToString(DiffDays(now, date)) + "天前"
  {
    var diffDays := DiffDays(now, date);
    DiffDaysBands(now, date);
    if diffDays == 0 then "今天"
    else if diffDays == 1 then "昨天"
    else if diffDays < 7 then
      var ago := IntToString(diffDays) + "天前";
      assert |ago| >= 3 && ago[|ago| - 1] == '前';
      ago
    else
      var monthDay := MonthDayText(date.calendar);
      assert monthDay != "今天" && monthDay != "昨天" && monthDay[|monthDay| - 1] != '前';
      monthDay
  }

  /** `getDayLabels`: month/day labels for the seven days ending today, oldest
      first; `calendar` gives the month and day of a calendar-day number. */
  method GetDayLabels(today: int, calendar: int -> MonthDay) returns (labels: seq<string>)
    ensures |labels| == WindowDays
    ensures forall k :: 0 <= k < WindowDays ==> labels[k] == MonthDayText(calendar(today - (WindowDays - 1) + k))
    ensures labels[WindowDays - 1] == MonthDayText(calendar(today))
  {
    labels := [];
    for i := WindowDays downto 0
      invariant |labels| == WindowDays - i
      invariant forall k :: 0 <= k < |labels| ==> labels[k] == MonthDayText(calendar(today - (WindowDays - 1) + k))
    {
      var date := calendar(today - i);
      labels := labels + [MonthDayText(date)];
    }
  }

  /** Newest first: timestamps never increase along the list. */
  predicate NewestFirst(s: seq<EmotionEntry>) {
    forall p, q :: 0 <= p < q < |s| ==> s[p].date.time >= s[q].date.time
  }

  /** Exchanges two elements of `a`; the same elements remain. */
  method Swap(a: array<EmotionEntry>, i: int, j: int)
    requires 0 <= i < a.Length && 0 <= j < a.Length
    modifies a
    ensures a[..] == old(a[..])[i := old(a[j])][j := old(a[i])]
    ensures multiset(a[..]) == multiset(old(a[..]))
  {
    a[i], a[j] := a[j], a[i];
  }

  /** The history list's `entries.sort((a, b) => b.date - a.date)`, which
      reorders the entries in place: afterwards they are newest first and are
      the same entries as before. */
  method SortNewestFirst(a: array<EmotionEntry>)
    modifies a
    ensures NewestFirst(a[..])
    ensures multiset(a[..]) == multiset(old(a[..]))
  {
    if a.Length == 0 {
      return;
    }
    var i := 1;
    while i < a.Length
      invariant 1 <= i <= a.Length
      invariant forall p, q :: 0 <= p < q < i ==> a[p].date.time >= a[q].date.time
      invariant multiset(a[..]) == multiset(old(a[..]))
    {
      var j := i;
      while j > 0 && a[j - 1].date.time < a[j].date.time
        invariant 0 <= j <= i
        invariant forall p, q :: 0 <= p < q <= i && q != j ==> a[p].date.time >= a[q].date.time
        invariant multiset(a[..]) == multiset(old(a[..]))
      {
        Swap(a, j - 1, j);
        j := j - 1;
      }
      i := i + 1;
    }
  }

  /** The history list sorts the very array the hook returns, so the journal
      itself is reordered in place, without `setEntries`: afterwards the
      hook's entries are newest first, they are the same entries, and the
      entry form is untouched. */
  method SortJournal(journal: JournalState)
    modifies journal
    ensures NewestFirst(journal.entries)
    ensures multiset(journal.entries) == multiset(old(journal.entries))
    ensures journal.selectedEmotion == old(journal.selectedEmotion) && journal.emotionNote == old(journal.emotionNote)
    ensures journal.isAddingEntry == old(journal.isAddingEntry)
  {
    var s := journal.entries;
    var a := new EmotionEntry[|s|](i requires 0 <= i < |s| => s[i]);
    assert a[..] == s;
    SortNewestFirst(a);
    journal.entries := a[..];
  }

  /** A journal with no two entries on a day holds each entry once. */
  lemma {:induction false} OnePerDayNoRepeats(s: seq<EmotionEntry>, x: EmotionEntry)
    requires AtMostOnePerDay(s)
    ensures multiset(s)[x] <= 1
  {
    if s != [] {
      var init, last := s[..|s| - 1], s[|s| - 1];
      assert s == init + [last];
      OnePerDayNoRepeats(init, x);
      if last == x {
        assert x !in init by {
          forall k | 0 <= k < |init|
            ensures init[k] != x
          {
            assert s[k].date.day != s[|s| - 1].date.day;
          }
        }
      }
    }
  }

  /** Reordering keeps the one-entry-per-day invariant, so the in-place sort
      leaves a journal that later upserts still treat correctly. */
  lemma OnePerDayUnderPermutation(s: seq<EmotionEntry>, t: seq<EmotionEntry>)
    requires AtMostOnePerDay(s) && multiset(s) == multiset(t)
    ensures AtMostOnePerDay(t)
  {
    forall p, q | 0 <= p < q < |t|
      ensures t[p].date.day != t[q].date.day
    {
      if t[p] == t[q] {
        assert t == t[..q] + t[q..];
        assert t[p] in t[..q] && t[q] in t[q..];
        assert multiset(t)[t[q]] >= 2;
        OnePerDayNoRepeats(s, t[q]);
      } else {
        assert t[p] in multiset(s) && t[q] in multiset(s);
        var i :| 0 <= i < |s| && s[i] == t[p];
        var j :| 0 <= j < |s| && s[j] == t[q];
        assert i != j;
      }
    }
  }
}
