/**
 * The dashboard's quick-mood ledger and its statistics.
 *
 * A quick check-in stores the text 'happy', 'neutral' or 'sad' under the key
 * "mood_<id>_<date string>", one key per calendar day. On mount the page
 * rebuilds its four figures by scanning the keys of the last 30 days; a
 * check-in then patches them in place, but only for the first mood of the
 * day. The date strings of the 30 days and the random minute increments are
 * parameters (`days[0]` is today).
 */
module Dashboard {
  import opened Wrappers
  import opened Storage
  import opened Text
  import opened Rounding
  import MoodTracker

  const LookbackDays := 30
  const ZeroStats := Stats(0, 0, 0, 0)

  function MoodKey(id: string, day: string): string {
    "mood_" + id + "_" + day
  }

  function StatsKey(id: string): string {
    "stats_" + id
  }

  /** Two days of one user never share a quick-mood key. */
  lemma MoodKeyInjective(id: string, a: string, b: string)
    ensures MoodKey(id, a) == MoodKey(id, b) ==> a == b
  {
    var n := |"mood_" + id + "_"|;
    assert MoodKey(id, a)[n..] == a;
    assert MoodKey(id, b)[n..] == b;
  }

  /** The score of a quick-check mood. */
  function MoodValue(mood: string): (v: nat)
    ensures v == 8 <==> mood == "happy"
    ensures v == 5 <==> mood == "neutral"
    ensures v == 2 <==> mood != "happy" && mood != "neutral"
  {
    if mood == "happy" then 8 else if mood == "neutral" then 5 else 2
  }

  // ----- the 30-day rebuild, as functions of the stored keys -----

  /** The day's key holds a mood that JavaScript counts as present (non-empty text). */
  predicate Logged(items: map<string, Value>, id: string, day: string) {
    var m := TextAt(items, MoodKey(id, day));
    m.Some? && m.value != ""
  }

  function LoggedMood(items: map<string, Value>, id: string, day: string): string
    requires Logged(items, id, day)
  {
    TextAt(items, MoodKey(id, day)).value
  }

  /** How many of `days` hold a mood. */
  function LoggedCount(items: map<string, Value>, id: string, days: seq<string>): nat {
    if days == [] then 0
    else
      var last := days[|days| - 1];
      LoggedCount(items, id, days[..|days| - 1]) + (if Logged(items, id, last) then 1 else 0)
  }

  /** The sum of the scores of the moods held by `days`. */
  function ScoreTotal(items: map<string, Value>, id: string, days: seq<string>): nat {
    if days == [] then 0
    else
      var last := days[|days| - 1];
      ScoreTotal(items, id, days[..|days| - 1])
        + (if Logged(items, id, last) then MoodValue(LoggedMood(items, id, last)) else 0)
  }

  /** The minutes drawn for the days that hold a mood (`draws[i]` belongs to `days[i]`). */
  function MinuteTotal(items: map<string, Value>, id: string, days: seq<string>, draws: seq<nat>): nat
    requires |draws| == |days|
  {
    if days == [] then 0
    else
      var last := days[|days| - 1];
      MinuteTotal(items, id, days[..|days| - 1], draws[..|draws| - 1])
        + (if Logged(items, id, last) then draws[|draws| - 1] else 0)
  }

  /** What the mount effect's scan computes. */
  function ScanStats(items: map<string, Value>, id: string, days: seq<string>, draws: seq<nat>): (s: Stats)
    requires |draws| == |days|
    ensures s.sessionsCompleted == s.streakDays == LoggedCount(items, id, days)
  {
    var n := LoggedCount(items, id, days);
    if n > 0 then
      Stats(RoundHalfUp(10 * ScoreTotal(items, id, days), n), n, n, MinuteTotal(items, id, days, draws))
    else ZeroStats
  }

  /** Every random draw is `Math.floor(Math.random() * 2) + 1`: 1 or 2. */
  ghost predicate DrawsInRange(draws: seq<nat>) {
    forall i :: 0 <= i < |draws| ==> 1 <= draws[i] <= 2
  }

  /** The scan's running totals stay within what its count allows. */
  lemma {:induction false} ScanTotalsBounded(items: map<string, Value>, id: string, days: seq<string>, draws: seq<nat>)
    requires |draws| == |days| && DrawsInRange(draws)
    ensures LoggedCount(items, id, days) <= |days|
    ensures 2 * LoggedCount(items, id, days) <= ScoreTotal(items, id, days) <= 8 * LoggedCount(items, id, days)
    ensures LoggedCount(items, id, days) <= MinuteTotal(items, id, days, draws) <= 2 * LoggedCount(items, id, days)
  {
    if days != [] {
      ScanTotalsBounded(items, id, days[..|days| - 1], draws[..|draws| - 1]);
    }
  }

  /**
   * The rebuilt figures: sessions and streak both equal the number of the days
   * that hold a mood, and all four figures are zero exactly when no day
   * does; otherwise the average is the mean score rounded to a tenth, between
   * 2.0 and 8.0, and the minutes lie between one and two per day.
   */
  lemma ScanStatsShape(items: map<string, Value>, id: string, days: seq<string>, draws: seq<nat>)
    requires |draws| == |days| && DrawsInRange(draws)
    ensures var s := ScanStats(items, id, days, draws);
            var n := LoggedCount(items, id, days);
            && s.sessionsCompleted == n && s.streakDays == n && n <= |days|
            && (s == ZeroStats <==> n == 0)
            && (n > 0 ==>
                  && 2 * n * s.averageTenths <= 20 * ScoreTotal(items, id, days) + n
                  && 20 * ScoreTotal(items, id, days) + n < 2 * n * (s.averageTenths + 1)
                  && 20 <= s.averageTenths <= 80
                  && n <= s.totalMinutes <= 2 * n)
  {
    var n := LoggedCount(items, id, days);
    ScanTotalsBounded(items, id, days, draws);
    if n > 0 {
      RoundHalfUpBetween(10 * ScoreTotal(items, id, days), n, 20, 80);
    }
  }

  // ----- the incremental patch -----

  /** The figures after the first quick mood of a day, scored `v`, adding `extra` minutes. */
  function IncorporateMood(s: Stats, v: nat, extra: nat): (r: Stats)
    ensures r.sessionsCompleted == s.sessionsCompleted + 1 && r.streakDays == s.streakDays + 1
    ensures r.totalMinutes == s.totalMinutes + extra
    ensures r.averageTenths == RoundHalfUp(s.averageTenths * s.sessionsCompleted + 10 * v, s.sessionsCompleted + 1)
  {
    var n := s.sessionsCompleted + 1;
    var average :=
      if n == 1 then (RoundHalfUpExact(10 * v, 1); 10 * v)
      else RoundHalfUp(s.averageTenths * s.sessionsCompleted + 10 * v, n);
    Stats(average, n, s.streakDays + 1, s.totalMinutes + extra)
  }

  /**
   * The first mood of a day adds one session, one streak day and its minutes;
   * the new average is the old one weighted by the old count, plus the new
   * score, rounded to a tenth; and an average within 2.0..8.0 stays there.
   */
  lemma IncorporateMoodShape(s: Stats, mood: string, extra: nat)
    ensures var r := IncorporateMood(s, MoodValue(mood), extra);
            var v := MoodValue(mood);
            var n := s.sessionsCompleted;
            && r.sessionsCompleted == n + 1 && r.streakDays == s.streakDays + 1
            && r.totalMinutes == s.totalMinutes + extra
            && (n == 0 ==> r.averageTenths == 10 * v)
            && 2 * (n + 1) * r.averageTenths <= 2 * (s.averageTenths * n + 10 * v) + n + 1
            && 2 * (s.averageTenths * n + 10 * v) + n + 1 < 2 * (n + 1) * (r.averageTenths + 1)
            && (n == 0 || 20 <= s.averageTenths <= 80 ==> 20 <= r.averageTenths <= 80)
  {
    var v := MoodValue(mood);
    var n := s.sessionsCompleted;
    var total := s.averageTenths * n + 10 * v;
    if n == 0 {
      assert total == 10 * v;
    } else if 20 <= s.averageTenths <= 80 {
      MulMonotone(20, s.averageTenths, n);
      MulMonotone(s.averageTenths, 80, n);
      RoundHalfUpBetween(total, n + 1, 20, 80);
    }
  }

  lemma MulMonotone(a: nat, b: nat, n: nat)
    requires a <= b
    ensures a * n <= b * n
  {
  }

  /** Storing a mood for a day that had none adds one to the scan's count and the score to its total. */
  lemma {:induction false} ScanAfterNewMood(items: map<string, Value>, id: string, days: seq<string>,
                                            today: string, mood: string)
    requires forall i, j :: 0 <= i < j < |days| ==> days[i] != days[j]
    requires today in days && !Logged(items, id, today) && mood != ""
    ensures var items' := items[MoodKey(id, today) := Text(mood)];
            && LoggedCount(items', id, days) == LoggedCount(items, id, days) + 1
            && ScoreTotal(items', id, days) == ScoreTotal(items, id, days) + MoodValue(mood)
  {
    var items' := items[MoodKey(id, today) := Text(mood)];
    var init, last := days[..|days| - 1], days[|days| - 1];
    forall d | d != today ensures Logged(items', id, d) == Logged(items, id, d)
                             && (Logged(items, id, d) ==> LoggedMood(items', id, d) == LoggedMood(items, id, d))
    {
      MoodKeyInjective(id, d, today);
    }
    if last == today {
      assert today !in init;
      ScanUnaffected(items, items', id, init, today);
    } else {
      assert today in init;
      ScanAfterNewMood(items, id, init, today, mood);
    }
  }

  /** Days other than `today` scan the same in two stores that agree on them. */
  lemma {:induction false} ScanUnaffected(items: map<string, Value>, items': map<string, Value>, id: string,
                                          days: seq<string>, today: string)
    requires today !in days
    requires forall d :: d != today ==>
      (Logged(items', id, d) == Logged(items, id, d)
       && (Logged(items, id, d) ==> LoggedMood(items', id, d) == LoggedMood(items, id, d)))
    ensures LoggedCount(items', id, days) == LoggedCount(items, id, days)
    ensures ScoreTotal(items', id, days) == ScoreTotal(items, id, days)
  {
    if days != [] {
      ScanUnaffected(items, items', id, days[..|days| - 1], today);
    }
  }

  /**
   * The incremental patch and a rebuild agree on sessions and streak: when the
   * figures came from a scan and today had no mood, a rebuild after the first
   * check-in counts exactly the patched sessions and streak days.
   */
  lemma QuickPatchAgreesWithRescan(items: map<string, Value>, id: string, days: seq<string>,
                                   draws: seq<nat>, draws': seq<nat>, mood: string, extra: nat)
    requires |days| > 0 && |draws| == |days| && |draws'| == |days|
    requires forall i, j :: 0 <= i < j < |days| ==> days[i] != days[j]
    requires !Logged(items, id, days[0]) && mood != ""
    ensures var patched := IncorporateMood(ScanStats(items, id, days, draws), MoodValue(mood), extra);
            var rebuilt := ScanStats(items[MoodKey(id, days[0]) := Text(mood)], id, days, draws');
            && patched.sessionsCompleted == rebuilt.sessionsCompleted
            && patched.streakDays == rebuilt.streakDays
  {
    ScanAfterNewMood(items, id, days, days[0], mood);
  }

  /**
   * The two paths can disagree on the average, because the patch starts from an
   * average that was already rounded: six sad days and one neutral day average
   * 2.4; a neutral check-in today patches it to 2.7, while a rebuild of the same
   * eight days gives 2.8.
   */
  lemma IncrementalAverageCanDrift()
    ensures RoundHalfUp(10 * (6 * 2 + 5), 7) == 24
    ensures IncorporateMood(Stats(24, 7, 7, 7), MoodValue("neutral"), 1).averageTenths == 27
    ensures RoundHalfUp(10 * (6 * 2 + 5 + 5), 8) == 28
  {
  }

  // ----- reset -----

  /** The storage after `clearAllData`: every key that includes the id is gone. */
  function KeepUnrelated(items: map<string, Value>, id: string): (r: map<string, Value>)
    ensures r.Keys <= items.Keys
    ensures forall k :: k in r ==> r[k] == items[k] && !Includes(k, id)
  {
    map k | k in items && !Includes(k, id) :: items[k]
  }

  /**
   * A reset removes the user's quick moods and stats snapshot, keeps every key
   * that does not include the id with its value, and with an empty id (no
   * signed-in user) removes every key.
   */
  lemma KeepUnrelatedShape(items: map<string, Value>, id: string, day: string)
    ensures MoodKey(id, day) !in KeepUnrelated(items, id)
    ensures StatsKey(id) !in KeepUnrelated(items, id)
    ensures MoodTracker.EntriesKey(Some(id)) !in KeepUnrelated(items, id)
    ensures forall k :: k in items && !Includes(k, id) ==> k in KeepUnrelated(items, id) && KeepUnrelated(items, id)[k] == items[k]
    ensures id == "" ==> KeepUnrelated(items, id) == map[]
  {
    IncludesInfix("mood_", id, "_" + day);
    assert "mood_" + id + ("_" + day) == MoodKey(id, day);
    IncludesInfix("stats_", id, "");
    assert "stats_" + id + "" == StatsKey(id);
    IncludesInfix("mood_entries_", id, "");
    assert "mood_entries_" + id + "" == MoodTracker.EntriesKey(Some(id));
    if id == "" {
      forall k | k in items ensures Includes(k, id) {
        IncludesInfix("", "", k);
        assert "" + "" + k == k;
      }
    }
  }

  /** After a reset, a rebuild finds no mood and gives all-zero figures. */
  lemma {:induction false} ScanAfterReset(items: map<string, Value>, id: string, days: seq<string>, draws: seq<nat>)
    requires |draws| == |days|
    ensures LoggedCount(KeepUnrelated(items, id), id, days) == 0
    ensures ScanStats(KeepUnrelated(items, id), id, days, draws) == ZeroStats
  {
    if days != [] {
      KeepUnrelatedShape(items, id, days[|days| - 1]);
      ScanAfterReset(items, id, days[..|days| - 1], draws[..|draws| - 1]);
    }
  }

  // ----- display formatting -----

  /** `formatTime`: minutes shown as "Nm", "Hh" or "Hh Mm". */
  function FormatTime(minutes: nat): (r: string)
    ensures |r| >= 2 && (r[|r| - 1] == 'm' || r[|r| - 1] == 'h')
  {
    if minutes == 0 then "0m"
    else if minutes < 60 then NatToString(minutes) + "m"
    else
      var hours := minutes / 60;
      var remaining := minutes % 60;
      if remaining > 0 then NatToString(hours) + "h " + NatToString(remaining) + "m"
      else NatToString(hours) + "h"
  }

  /** Reads a `FormatTime` string back: the leading number, in hours when an 'h' follows it. */
  function ParseTime(s: string): nat {
    var k := DigitRun(s);
    var lead := ParseNat(s[..k]);
    if k < |s| && s[k] == 'h' then
      if k + 2 <= |s| then 60 * lead + LeadingNat(s[k + 2..]) else 60 * lead
    else lead
  }

  /** Every shown time reads back as the minutes it shows, so distinct minutes show differently. */
  lemma FormatTimeRoundTrip(minutes: nat)
    ensures ParseTime(FormatTime(minutes)) == minutes
  {
    if minutes < 60 {
      MinutesRoundTrip(minutes);
    } else if minutes % 60 > 0 {
      HoursMinutesRoundTrip(minutes);
    } else {
      WholeHoursRoundTrip(minutes);
    }
  }

  lemma MinutesRoundTrip(minutes: nat)
    requires minutes < 60
    ensures ParseTime(FormatTime(minutes)) == minutes
  {
    if minutes > 0 {
      assert FormatTime(minutes) == NatToString(minutes) + "m";
    }
    LeadingNatOfNumeral(minutes, "m");
  }

  lemma HoursMinutesRoundTrip(minutes: nat)
    requires minutes >= 60 && minutes % 60 > 0
    ensures ParseTime(FormatTime(minutes)) == minutes
  {
    var hours, remaining := minutes / 60, minutes % 60;
    var h := NatToString(hours);
    var tail := NatToString(remaining) + "m";
    var s := FormatTime(minutes);
    assert s == h + ("h " + tail);
    LeadingNatOfNumeral(hours, "h " + tail);
    var k := DigitRun(s);
    assert k == |h| && s[k] == 'h' && k + 2 <= |s|;
    assert s[..k] == h;
    assert s[k + 2..] == tail;
    LeadingNatOfNumeral(remaining, "m");
    assert ParseTime(s) == 60 * hours + remaining;
  }

  lemma WholeHoursRoundTrip(minutes: nat)
    requires minutes >= 60 && minutes % 60 == 0
    ensures ParseTime(FormatTime(minutes)) == minutes
  {
    var hours := minutes / 60;
    assert FormatTime(minutes) == NatToString(hours) + "h";
    LeadingNatOfNumeral(hours, "h");
  }

  lemma FormatTimeInjective(a: nat, b: nat)
    ensures FormatTime(a) == FormatTime(b) ==> a == b
  {
    FormatTimeRoundTrip(a);
    FormatTimeRoundTrip(b);
  }

  /** `formatStreak`: "0 days", "1 day", "N days". */
  function FormatStreak(days: nat): (r: string)
    ensures |r| >= 5
    ensures r[|r| - 1] == 's' <==> days != 1
  {
    if days == 0 then "0 days"
    else NatToString(days) + " " + (if days == 1 then "day" else "days")
  }

  /**
   * The special case for zero says what the general rule says; the singular
   * is used for one day alone; and the shown number is the streak.
   */
  lemma FormatStreakShape(days: nat)
    ensures FormatStreak(days) == NatToString(days) + (if days == 1 then " day" else " days")
    ensures LeadingNat(FormatStreak(days)) == days
  {
    var unit := if days == 1 then " day" else " days";
    assert FormatStreak(days) == NatToString(days) + unit;
    LeadingNatOfNumeral(days, unit);
  }

  /** `formatAverageMood`: "--" for no average, otherwise "X.Y/10". */
  function FormatAverageMood(averageTenths: nat): (r: string)
    ensures r == "--" <==> averageTenths == 0
    ensures averageTenths > 0 ==> |r| >= 6 && r[|r| - 3..] == "/10"
  {
    if averageTenths == 0 then "--"
    else NatToString(averageTenths / 10) + "." + [DigitChar(averageTenths % 10)] + "/10"
  }

  /** Reads a `FormatAverageMood` string back into tenths. */
  function ParseAverageMood(s: string): nat {
    var k := DigitRun(s);
    if s == "--" || k + 1 >= |s| || !IsDigit(s[k + 1]) then 0
    else 10 * ParseNat(s[..k]) + DigitValue(s[k + 1])
  }

  /** Every shown average reads back as its tenths: the display loses nothing. */
  lemma FormatAverageMoodRoundTrip(averageTenths: nat)
    ensures ParseAverageMood(FormatAverageMood(averageTenths)) == averageTenths
  {
    if averageTenths > 0 {
      var whole, tenth := averageTenths / 10, averageTenths % 10;
      var rest := "." + [DigitChar(tenth)] + "/10";
      assert FormatAverageMood(averageTenths) == NatToString(whole) + rest;
      LeadingNatOfNumeral(whole, rest);
      var s := NatToString(whole) + rest;
      assert s[|NatToString(whole)| + 1] == DigitChar(tenth);
    }
  }

  // ----- the page -----

  class DashboardPage {
    const storage: LocalStorage
    /** `user?.id`: None when nobody is signed in. */
    const userId: Option<string>
    var todayMood: Option<string>
    var weeklyStats: Stats

    /** `user?.id` is truthy. */
    predicate SignedIn() {
      userId.Some? && userId.value != ""
    }

    constructor (storage: LocalStorage, userId: Option<string>)
      ensures this.storage == storage && this.userId == userId
      ensures todayMood == None && weeklyStats == ZeroStats
    {
      this.storage := storage;
      this.userId := userId;
      todayMood := None;
      weeklyStats := ZeroStats;
    }

    /** The mount effect: loads today's mood and rebuilds the figures from the last 30 days. */
    method Mount(days: seq<string>, draws: seq<nat>)
      requires |days| == LookbackDays && |draws| == LookbackDays && DrawsInRange(draws)
      modifies this, storage
      ensures !SignedIn() ==>
        todayMood == old(todayMood) && weeklyStats == old(weeklyStats) && storage.items == old(storage.items)
      ensures SignedIn() ==>
        && todayMood == (if Logged(old(storage.items), userId.value, days[0])
                         then Some(LoggedMood(old(storage.items), userId.value, days[0]))
                         else old(todayMood))
        && weeklyStats == ScanStats(old(storage.items), userId.value, days, draws)
        && storage.items == old(storage.items)[StatsKey(userId.value) := StatsRecord(weeklyStats)]
    {
      if !SignedIn() {
        return;
      }
      var id := userId.value;
      var storedMood := TextAt(storage.items, MoodKey(id, days[0]));
      if storedMood.Some? && storedMood.value != "" {
        todayMood := storedMood;
      }
      var dayCount, totalMoodValue, totalMinutes := 0, 0, 0;
      for i := 0 to LookbackDays
        invariant storage.items == old(storage.items)
        invariant dayCount == LoggedCount(storage.items, id, days[..i])
        invariant totalMoodValue == ScoreTotal(storage.items, id, days[..i])
        invariant totalMinutes == MinuteTotal(storage.items, id, days[..i], draws[..i])
      {
        assert days[..i + 1][..i] == days[..i];
        assert draws[..i + 1][..i] == draws[..i];
        var moodEntry := TextAt(storage.items, MoodKey(id, days[i]));
        if moodEntry.Some? && moodEntry.value != "" {
          dayCount := dayCount + 1;
          totalMoodValue := totalMoodValue + MoodValue(moodEntry.value);
          totalMinutes := totalMinutes + draws[i];
        }
      }
      assert days[..LookbackDays] == days && draws[..LookbackDays] == draws;
      var initialStats := ZeroStats;
      if dayCount > 0 {
        initialStats := Stats(RoundHalfUp(10 * totalMoodValue, dayCount), dayCount, dayCount, totalMinutes);
      }
      weeklyStats := initialStats;
      storage.SetItem(StatsKey(id), StatsRecord(initialStats));
    }

    /**
     * A quick check-in. Today's mood is always replaced and stored; the figures
     * move only for the first mood of the day.
     */
    method QuickMoodUpdate(mood: string, today: string, extraMinutes: nat)
      requires 1 <= extraMinutes <= 2
      modifies this, storage
      ensures !SignedIn() ==>
        todayMood == old(todayMood) && weeklyStats == old(weeklyStats) && storage.items == old(storage.items)
      ensures SignedIn() ==> todayMood == Some(mood)
      ensures SignedIn() && FirstMoodToday(old(todayMood)) ==>
        && weeklyStats == IncorporateMood(old(weeklyStats), MoodValue(mood), extraMinutes)
        && storage.items == old(storage.items)[MoodKey(userId.value, today) := Text(mood)]
                                              [StatsKey(userId.value) := StatsRecord(weeklyStats)]
      ensures SignedIn() && !FirstMoodToday(old(todayMood)) ==>
        && weeklyStats == old(weeklyStats)
        && storage.items == old(storage.items)[MoodKey(userId.value, today) := Text(mood)]
    {
      if !SignedIn() {
        return;
      }
      var id := userId.value;
      var wasFirstMoodToday := FirstMoodToday(todayMood);
      todayMood := Some(mood);
      storage.SetItem(MoodKey(id, today), Text(mood));
      var moodValue := MoodValue(mood);
      if wasFirstMoodToday {
        var newStats := IncorporateMood(weeklyStats, moodValue, extraMinutes);
        weeklyStats := newStats;
        storage.SetItem(StatsKey(id), StatsRecord(newStats));
      }
    }

    /** `clearAllData`, after the confirmation dialog has answered `confirmed`. */
    method ClearAllData(confirmed: bool)
      modifies this, storage
      ensures !confirmed ==>
        todayMood == old(todayMood) && weeklyStats == old(weeklyStats) && storage.items == old(storage.items)
      ensures confirmed ==>
        && storage.items == KeepUnrelated(old(storage.items), userId.GetOr(""))
        && todayMood == None && weeklyStats == ZeroStats
    {
      if !confirmed {
        return;
      }
      var id := userId.GetOr("");
      var keys := storage.items.Keys;
      while keys != {}
        invariant keys <= old(storage.items).Keys
        invariant storage.items == map k | k in old(storage.items) && (k in keys || !Includes(k, id)) :: old(storage.items)[k]
        decreases keys
      {
        var key :| key in keys;
        if Includes(key, id) {
          storage.RemoveItem(key);
        }
        keys := keys - {key};
      }
      todayMood := None;
      weeklyStats := ZeroStats;
    }
  }

  /** `!todayMood`: no mood yet today (an empty string also counts as none). */
  predicate FirstMoodToday(todayMood: Option<string>) {
    todayMood.None? || todayMood.value == ""
  }
}
