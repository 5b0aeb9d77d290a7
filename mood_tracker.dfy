/**
 * The detailed mood ledger: one entry per day (score 1-10, a note, emotion
 * tags), stored as one list under "mood_entries_<id>", with the page's
 * derived views (average, the seven most recent days, the streak shown) and
 * the threshold classifiers that colour and annotate a score.
 */
module MoodTracker {
  import opened Wrappers
  import opened Storage
  import opened Rounding

  const RecentLimit := 7

  /** The storage key of the ledger; without a user, `${user?.id}` renders "undefined". */
  function EntriesKey(userId: Option<string>): (r: string)
    ensures |r| >= 13 && r[..13] == "mood_entries_"
    ensures r[13..] == userId.GetOr("undefined")
  {
    "mood_entries_" + userId.GetOr("undefined")
  }

  // ----- saving: upsert by date -----

  /** `entries.filter(entry => entry.date !== date)`. */
  function WithoutDate(entries: seq<MoodEntry>, date: int): seq<MoodEntry> {
    if entries == [] then []
    else (if entries[0].date != date then [entries[0]] else []) + WithoutDate(entries[1..], date)
  }

  /** `[...entries.filter(entry => entry.date !== e.date), e]`. */
  function Upsert(entries: seq<MoodEntry>, e: MoodEntry): (r: seq<MoodEntry>)
    ensures |r| > 0 && r[|r| - 1] == e
    ensures |r| == |entries| - CountDate(entries, e.date) + 1
    ensures forall x :: x in r ==> x == e || x in entries
  {
    WithoutDateShape(entries, e.date);
    WithoutDate(entries, e.date) + [e]
  }

  /** How many entries carry the date. */
  function CountDate(entries: seq<MoodEntry>, date: int): nat {
    if entries == [] then 0
    else (if entries[0].date == date then 1 else 0) + CountDate(entries[1..], date)
  }

  /** At most one entry per day. */
  ghost predicate DatesUnique(entries: seq<MoodEntry>) {
    forall i, j :: 0 <= i < j < |entries| ==> entries[i].date != entries[j].date
  }

  /**
   * Filtering a date out removes exactly the entries with that date: none is
   * left, every other entry stays, and the length drops by their number.
   */
  lemma {:induction false} WithoutDateShape(entries: seq<MoodEntry>, date: int)
    ensures forall x :: x in WithoutDate(entries, date) ==> x.date != date
    ensures forall x :: x in entries && x.date != date ==> x in WithoutDate(entries, date)
    ensures forall x :: x in WithoutDate(entries, date) ==> x in entries
    ensures |WithoutDate(entries, date)| == |entries| - CountDate(entries, date)
    ensures CountDate(entries, date) == 0 ==> WithoutDate(entries, date) == entries
    ensures CountDate(WithoutDate(entries, date), date) == 0
  {
    if entries != [] {
      WithoutDateShape(entries[1..], date);
      CountDateAppend(if entries[0].date != date then [entries[0]] else [], WithoutDate(entries[1..], date), date);
      assert entries == [entries[0]] + entries[1..];
    }
  }

  /** Filtering distributes over concatenation. */
  lemma {:induction false} WithoutDateAppend(a: seq<MoodEntry>, b: seq<MoodEntry>, date: int)
    ensures WithoutDate(a + b, date) == WithoutDate(a, date) + WithoutDate(b, date)
  {
    if a != [] {
      assert (a + b)[1..] == a[1..] + b;
      WithoutDateAppend(a[1..], b, date);
    } else {
      assert a + b == b;
    }
  }

  /** In a ledger with one entry per day, a date occurs at most once. */
  lemma {:induction false} CountDateAtMostOne(entries: seq<MoodEntry>, date: int)
    requires DatesUnique(entries)
    ensures CountDate(entries, date) <= 1
    ensures CountDate(entries, date) == 1 <==> exists i :: 0 <= i < |entries| && entries[i].date == date
  {
    if entries != [] {
      CountDateAtMostOne(entries[1..], date);
      if entries[0].date == date {
        assert forall i :: 0 <= i < |entries[1..]| ==> entries[1..][i].date != date by {
          forall i | 0 <= i < |entries[1..]| ensures entries[1..][i].date != date {
            assert entries[1..][i] == entries[i + 1];
          }
        }
      }
      if exists i :: 0 <= i < |entries| && entries[i].date == date {
        var i :| 0 <= i < |entries| && entries[i].date == date;
        if i > 0 {
          assert entries[1..][i - 1].date == date;
        }
      }
    }
  }

  /**
   * After a save the ledger holds exactly one entry for the saved date, the new
   * one, at the end; the entries of every other date are kept in their order.
   */
  lemma UpsertShape(entries: seq<MoodEntry>, e: MoodEntry)
    ensures var r := Upsert(entries, e);
            && |r| > 0 && r[|r| - 1] == e
            && CountDate(r, e.date) == 1
            && (forall i :: 0 <= i < |r| - 1 ==> r[i].date != e.date)
            && WithoutDate(r, e.date) == WithoutDate(entries, e.date)
  {
    var kept := WithoutDate(entries, e.date);
    var r := Upsert(entries, e);
    WithoutDateShape(entries, e.date);
    WithoutDateShape(kept, e.date);
    WithoutDateAppend(kept, [e], e.date);
    assert WithoutDate([e], e.date) == [];
    CountDateAppend(kept, [e], e.date);
    assert CountDate([e], e.date) == 1;
    forall i | 0 <= i < |r| - 1 ensures r[i].date != e.date {
      assert r[i] == kept[i];
      assert kept[i] in kept;
    }
  }

  lemma {:induction false} CountDateAppend(a: seq<MoodEntry>, b: seq<MoodEntry>, date: int)
    ensures CountDate(a + b, date) == CountDate(a, date) + CountDate(b, date)
  {
    if a != [] {
      assert (a + b)[1..] == a[1..] + b;
      CountDateAppend(a[1..], b, date);
    } else {
      assert a + b == b;
    }
  }

  /**
   * With one entry per day, a save keeps it so; the ledger keeps its length when
   * the date was already there and grows by one otherwise.
   */
  lemma UpsertKeepsDatesUnique(entries: seq<MoodEntry>, e: MoodEntry)
    requires DatesUnique(entries)
    ensures DatesUnique(Upsert(entries, e))
    ensures (exists i :: 0 <= i < |entries| && entries[i].date == e.date) ==> |Upsert(entries, e)| == |entries|
    ensures (forall i :: 0 <= i < |entries| ==> entries[i].date != e.date) ==> |Upsert(entries, e)| == |entries| + 1
  {
    CountDateAtMostOne(entries, e.date);
    WithoutDateShape(entries, e.date);
    WithoutDateUnique(entries, e.date);
    var kept := WithoutDate(entries, e.date);
    var r := Upsert(entries, e);
    forall i, j | 0 <= i < j < |r| ensures r[i].date != r[j].date {
      if j == |r| - 1 {
        assert r[i] == kept[i] && kept[i] in kept;
      } else {
        assert r[i] == kept[i] && r[j] == kept[j];
      }
    }
  }

  /** Filtering keeps one entry per day. */
  lemma {:induction false} WithoutDateUnique(entries: seq<MoodEntry>, date: int)
    requires DatesUnique(entries)
    ensures DatesUnique(WithoutDate(entries, date))
  {
    if entries != [] {
      var tail := entries[1..];
      assert DatesUnique(tail) by {
        forall i, j | 0 <= i < j < |tail| ensures tail[i].date != tail[j].date {
          assert tail[i] == entries[i + 1] && tail[j] == entries[j + 1];
        }
      }
      WithoutDateUnique(tail, date);
      var rest := WithoutDate(tail, date);
      if entries[0].date != date {
        WithoutDateShape(tail, date);
        forall y | y in rest ensures y.date != entries[0].date {
          var k :| 0 <= k < |tail| && tail[k] == y;
          assert tail[k] == entries[k + 1];
        }
        PrependUnique(entries[0], rest);
      } else {
        assert WithoutDate(entries, date) == rest;
      }
    }
  }

  /** An entry whose day is new keeps a one-per-day ledger so when put in front. */
  lemma PrependUnique(x: MoodEntry, s: seq<MoodEntry>)
    requires DatesUnique(s)
    requires forall y :: y in s ==> y.date != x.date
    ensures DatesUnique([x] + s)
  {
    var r := [x] + s;
    forall i, j | 0 <= i < j < |r| ensures r[i].date != r[j].date {
      assert r[j] == s[j - 1];
      if i > 0 {
        assert r[i] == s[i - 1];
      }
    }
  }

  // ----- emotion tags -----

  /** `emotions.filter(e => e !== emotion)`. */
  function RemoveAll(emotions: seq<string>, emotion: string): seq<string> {
    if emotions == [] then []
    else (if emotions[0] != emotion then [emotions[0]] else []) + RemoveAll(emotions[1..], emotion)
  }

  /** `toggleEmotion`: removes every occurrence if present, appends it otherwise. */
  function Toggled(emotions: seq<string>, emotion: string): (r: seq<string>)
    ensures emotion in r <==> emotion !in emotions
  {
    RemoveAllShape(emotions, emotion);
    if emotion in emotions then RemoveAll(emotions, emotion) else emotions + [emotion]
  }

  /** Removal takes out exactly the one tag; with the tag absent it changes nothing. */
  lemma {:induction false} RemoveAllShape(emotions: seq<string>, emotion: string)
    ensures forall x :: x in RemoveAll(emotions, emotion) <==> x in emotions && x != emotion
    ensures emotion !in emotions ==> RemoveAll(emotions, emotion) == emotions
  {
    if emotions != [] {
      RemoveAllShape(emotions[1..], emotion);
      assert emotions == [emotions[0]] + emotions[1..];
    }
  }

  /**
   * Toggling flips the membership of that one tag and leaves every other tag's
   * membership alone; toggling twice restores membership, and restores the
   * list itself when the tag was absent.
   */
  lemma ToggledShape(emotions: seq<string>, emotion: string)
    ensures emotion in Toggled(emotions, emotion) <==> emotion !in emotions
    ensures forall x :: x != emotion ==> (x in Toggled(emotions, emotion) <==> x in emotions)
    ensures forall x :: x in Toggled(Toggled(emotions, emotion), emotion) <==> x in emotions
    ensures emotion !in emotions ==> Toggled(Toggled(emotions, emotion), emotion) == emotions
  {
    RemoveAllShape(emotions, emotion);
    var once := Toggled(emotions, emotion);
    RemoveAllShape(once, emotion);
    if emotion !in emotions {
      RemoveAllAppended(emotions, emotion);
    } else {
      assert emotion !in once;
      assert Toggled(once, emotion) == once + [emotion];
    }
  }

  lemma RemoveAllAppended(emotions: seq<string>, emotion: string)
    requires emotion !in emotions
    ensures RemoveAll(emotions + [emotion], emotion) == emotions
  {
    RemoveAllConcat(emotions, [emotion], emotion);
    RemoveAllShape(emotions, emotion);
    assert RemoveAll([emotion], emotion) == [];
  }

  lemma {:induction false} RemoveAllConcat(a: seq<string>, b: seq<string>, emotion: string)
    ensures RemoveAll(a + b, emotion) == RemoveAll(a, emotion) + RemoveAll(b, emotion)
  {
    if a != [] {
      assert (a + b)[1..] == a[1..] + b;
      RemoveAllConcat(a[1..], b, emotion);
    } else {
      assert a + b == b;
    }
  }

  // ----- the average -----

  function SumMoods(entries: seq<MoodEntry>): nat {
    if entries == [] then 0 else entries[0].mood + SumMoods(entries[1..])
  }

  /** `getAverageMood`, in tenths: 0 for an empty ledger, else the mean to one decimal. */
  function AverageTenths(entries: seq<MoodEntry>): (r: nat)
    ensures r == 0 <==> entries == []
    ensures entries != [] ==> 10 <= r <= 100
  {
    if |entries| == 0 then 0
    else
      SumMoodsBounded(entries);
      RoundHalfUpBetween(10 * SumMoods(entries), |entries|, 10, 100);
      RoundHalfUp(10 * SumMoods(entries), |entries|)
  }

  lemma {:induction false} SumMoodsBounded(entries: seq<MoodEntry>)
    ensures |entries| <= SumMoods(entries) <= 10 * |entries|
  {
    if entries != [] {
      SumMoodsBounded(entries[1..]);
    }
  }

  /**
   * The average is 0 exactly for an empty ledger (no division by zero);
   * otherwise it is the mean score rounded to a tenth, between 1.0 and 10.0.
   */
  lemma AverageShape(entries: seq<MoodEntry>)
    ensures AverageTenths(entries) == 0 <==> entries == []
    ensures entries != [] ==>
      var n, r := |entries|, AverageTenths(entries);
      && 2 * n * r <= 20 * SumMoods(entries) + n < 2 * n * (r + 1)
      && 10 <= r <= 100
  {
    if entries != [] {
      SumMoodsBounded(entries);
      RoundHalfUpBetween(10 * SumMoods(entries), |entries|, 10, 100);
    }
  }

  // ----- the recent view -----

  ghost predicate SortedByDateDesc(s: seq<MoodEntry>) {
    forall i, j :: 0 <= i < j < |s| ==> s[i].date >= s[j].date
  }

  /** Places `e` before the first entry that is not newer, so equal dates keep their order. */
  function InsertByDate(e: MoodEntry, sorted: seq<MoodEntry>): seq<MoodEntry> {
    if sorted == [] || sorted[0].date <= e.date then [e] + sorted
    else [sorted[0]] + InsertByDate(e, sorted[1..])
  }

  /** The array `sort` with comparator `b.date - a.date`: newest first, stable. */
  function SortByDateDesc(s: seq<MoodEntry>): (r: seq<MoodEntry>)
    ensures multiset(r) == multiset(s)
  {
    if s == [] then []
    else
      var rest := SortByDateDesc(s[1..]);
      InsertByDateElements(s[0], rest);
      assert s == [s[0]] + s[1..];
      InsertByDate(s[0], rest)
  }

  lemma {:induction false} InsertByDateElements(e: MoodEntry, sorted: seq<MoodEntry>)
    ensures multiset(InsertByDate(e, sorted)) == multiset(sorted) + multiset{e}
  {
    if sorted != [] && sorted[0].date > e.date {
      InsertByDateElements(e, sorted[1..]);
      assert sorted == [sorted[0]] + sorted[1..];
    }
  }

  lemma {:induction false} InsertByDateShape(e: MoodEntry, sorted: seq<MoodEntry>)
    requires SortedByDateDesc(sorted)
    ensures SortedByDateDesc(InsertByDate(e, sorted))
    ensures multiset(InsertByDate(e, sorted)) == multiset(sorted) + multiset{e}
  {
    InsertByDateElements(e, sorted);
    if sorted != [] && sorted[0].date > e.date {
      var tail := sorted[1..];
      assert SortedByDateDesc(tail) by {
        forall i, j | 0 <= i < j < |tail| ensures tail[i].date >= tail[j].date {
          assert tail[i] == sorted[i + 1] && tail[j] == sorted[j + 1];
        }
      }
      InsertByDateShape(e, tail);
      var ins := InsertByDate(e, tail);
      InsertByDateElements(e, tail);
      forall x | x in ins ensures sorted[0].date >= x.date {
        assert x in multiset(ins);
        if x != e {
          assert x in multiset(tail);
          var k :| 0 <= k < |tail| && tail[k] == x;
          assert tail[k] == sorted[k + 1];
        }
      }
      PrependSorted(sorted[0], ins);
    }
  }

  /** An entry at two positions occurs at least twice. */
  lemma TwoPositionsTwice(s: seq<MoodEntry>, i: int, j: int)
    requires 0 <= i < j < |s| && s[i] == s[j]
    ensures multiset(s)[s[i]] >= 2
  {
    assert s == s[..i] + [s[i]] + s[i + 1..j] + [s[j]] + s[j + 1..];
  }

  /** An entry occurring at least twice sits at two positions. */
  lemma TwiceTwoPositions(s: seq<MoodEntry>, x: MoodEntry)
    requires multiset(s)[x] >= 2
    ensures exists p, q :: 0 <= p < q < |s| && s[p] == x && s[q] == x
  {
    assert x in multiset(s);
    var p :| 0 <= p < |s| && s[p] == x;
    var rest := s[..p] + s[p + 1..];
    assert s == s[..p] + [s[p]] + s[p + 1..];
    assert multiset(rest)[x] >= 1;
    assert x in multiset(rest);
    var k :| 0 <= k < |rest| && rest[k] == x;
    if k < p {
      assert s[k] == rest[k];
    } else {
      assert s[k + 1] == rest[k];
    }
  }

  /** Two entries of one day in a list are two entries of one day in any reordering of it. */
  lemma SharedDateTransfers(a: seq<MoodEntry>, b: seq<MoodEntry>, i: int, j: int)
    requires multiset(a) == multiset(b)
    requires 0 <= i < j < |b| && b[i].date == b[j].date
    ensures exists p, q :: 0 <= p < q < |a| && a[p].date == a[q].date
  {
    if b[i] == b[j] {
      TwoPositionsTwice(b, i, j);
      TwiceTwoPositions(a, b[i]);
    } else {
      assert b[i] in multiset(a) && b[j] in multiset(a);
      var p :| 0 <= p < |a| && a[p] == b[i];
      var q :| 0 <= q < |a| && a[q] == b[j];
      if p < q {
        assert a[p].date == a[q].date;
      } else {
        assert a[q].date == a[p].date;
      }
    }
  }

  /** Reordering a ledger neither creates nor removes a second entry for a day. */
  lemma PermutationKeepsDatesUnique(a: seq<MoodEntry>, b: seq<MoodEntry>)
    requires multiset(a) == multiset(b)
    ensures DatesUnique(a) <==> DatesUnique(b)
  {
    if !DatesUnique(b) {
      var i, j :| 0 <= i < j < |b| && b[i].date == b[j].date;
      SharedDateTransfers(a, b, i, j);
    }
    if !DatesUnique(a) {
      var i, j :| 0 <= i < j < |a| && a[i].date == a[j].date;
      SharedDateTransfers(b, a, i, j);
    }
  }

  /** A head no older than every later entry keeps a sorted list sorted. */
  lemma PrependSorted(x: MoodEntry, s: seq<MoodEntry>)
    requires SortedByDateDesc(s)
    requires forall y :: y in s ==> x.date >= y.date
    ensures SortedByDateDesc([x] + s)
  {
    var r := [x] + s;
    forall i, j | 0 <= i < j < |r| ensures r[i].date >= r[j].date {
      assert r[j] == s[j - 1];
      if i > 0 {
        assert r[i] == s[i - 1];
      }
    }
  }

  /** The sort yields the same entries, newest first. */
  lemma {:induction false} SortByDateDescShape(s: seq<MoodEntry>)
    ensures SortedByDateDesc(SortByDateDesc(s))
    ensures multiset(SortByDateDesc(s)) == multiset(s)
    ensures |SortByDateDesc(s)| == |s|
  {
    if s != [] {
      SortByDateDescShape(s[1..]);
      InsertByDateShape(s[0], SortByDateDesc(s[1..]));
      assert s == [s[0]] + s[1..];
    }
    assert |multiset(SortByDateDesc(s))| == |multiset(s)|;
  }

  /** `.slice(0, 7)` of the sorted ledger. */
  function Recent(sorted: seq<MoodEntry>): (r: seq<MoodEntry>)
    ensures r <= sorted && |r| <= RecentLimit
    ensures |sorted| <= RecentLimit ==> r == sorted
  {
    if |sorted| <= RecentLimit then sorted else sorted[..RecentLimit]
  }

  /**
   * The recent view holds at most seven entries, newest first, all from the
   * ledger, and none older than an entry it leaves out.
   */
  lemma RecentShape(entries: seq<MoodEntry>)
    ensures var sorted := SortByDateDesc(entries);
            var r := Recent(sorted);
            && |r| == (if |entries| < RecentLimit then |entries| else RecentLimit)
            && SortedByDateDesc(r)
            && (forall x :: x in r ==> x in entries)
            && (forall i, j :: 0 <= i < |r| <= j < |sorted| ==> r[i].date >= sorted[j].date)
  {
    var sorted := SortByDateDesc(entries);
    SortByDateDescShape(entries);
    forall x | x in Recent(sorted) ensures x in entries {
      assert x in sorted;
      assert x in multiset(sorted);
    }
  }

  /** The streak the page shows: `length > 0 ? Math.min(length, 7) : 0`. */
  function StreakShown(entries: seq<MoodEntry>): (r: nat)
    ensures r <= RecentLimit && r <= |entries|
    ensures r == 0 <==> entries == []
  {
    if |entries| > 0 then (if |entries| < RecentLimit then |entries| else RecentLimit) else 0
  }

  /** The streak shown is the number of days in the recent view. */
  lemma StreakShownIsRecentLength(entries: seq<MoodEntry>)
    ensures StreakShown(entries) == |Recent(SortByDateDesc(entries))|
    ensures StreakShown(entries) <= RecentLimit
  {
    SortByDateDescShape(entries);
  }

  /** `todayEntry`: the first entry dated today. */
  function FindByDate(entries: seq<MoodEntry>, date: int): (r: Option<MoodEntry>)
    ensures r.Some? ==> r.value in entries && r.value.date == date
    ensures r.Some? ==> exists k :: 0 <= k < |entries| && entries[k] == r.value
                                   && forall j :: 0 <= j < k ==> entries[j].date != date
    ensures r.None? <==> forall x :: x in entries ==> x.date != date
  {
    if entries == [] then None
    else if entries[0].date == date then Some(entries[0])
    else FindByDate(entries[1..], date)
  }

  /** Right after a save, the entry found for that day is the one just saved. */
  lemma FindAfterUpsert(entries: seq<MoodEntry>, e: MoodEntry)
    ensures FindByDate(Upsert(entries, e), e.date) == Some(e)
  {
    UpsertShape(entries, e);
    var r := Upsert(entries, e);
    var f := FindByDate(r, e.date);
    assert f.Some?;
    var k :| 0 <= k < |r| && r[k] == f.value;
    assert k == |r| - 1;
  }

  // ----- score classifiers -----

  datatype Color = Green | Yellow | Orange | Red
  datatype Icon = Smile | Meh | Frown
  datatype Tip = Great | DoingWell | NeutralDay | ToughTime

  /** `getMoodColor`: the bar colour of a score. */
  function MoodColor(mood: int): (r: Color)
    ensures r == Green <==> mood >= 8
    ensures r == Red <==> mood < 4
  {
    if mood >= 8 then Green else if mood >= 6 then Yellow else if mood >= 4 then Orange else Red
  }

  /** `getMoodIcon`: the face shown for a score. */
  function MoodIcon(mood: int): (r: Icon)
    ensures r == Meh <==> 4 <= mood < 8
  {
    if mood >= 8 then Smile else if mood >= 4 then Meh else Frown
  }

  /** `getMoodTip`: which of the four tips a score gets. */
  function MoodTip(mood: int): (r: Tip)
    ensures r == Great <==> mood >= 8
    ensures r == ToughTime <==> mood < 4
  {
    if mood >= 8 then Great else if mood >= 6 then DoingWell else if mood >= 4 then NeutralDay else ToughTime
  }

  /** A colour's place from worst (0) to best (3). */
  function ColorRank(c: Color): nat {
    match c
    case Red => 0
    case Orange => 1
    case Yellow => 2
    case Green => 3
  }

  /**
   * The colour partitions the scores at 8, 6 and 4, and a better score never
   * gets a worse colour.
   */
  lemma MoodColorPartition(mood: int, better: int)
    ensures MoodColor(mood) == Green <==> mood >= 8
    ensures MoodColor(mood) == Yellow <==> 6 <= mood < 8
    ensures MoodColor(mood) == Orange <==> 4 <= mood < 6
    ensures MoodColor(mood) == Red <==> mood < 4
    ensures mood <= better ==> ColorRank(MoodColor(mood)) <= ColorRank(MoodColor(better))
  {
  }

  /**
   * The tip uses the colour's thresholds, one tip per colour; the icon merges
   * the two middle colours into one face.
   */
  lemma ClassifiersAgree(mood: int)
    ensures MoodTip(mood) == Great <==> MoodColor(mood) == Green
    ensures MoodTip(mood) == DoingWell <==> MoodColor(mood) == Yellow
    ensures MoodTip(mood) == NeutralDay <==> MoodColor(mood) == Orange
    ensures MoodTip(mood) == ToughTime <==> MoodColor(mood) == Red
    ensures MoodIcon(mood) == Smile <==> MoodColor(mood) == Green
    ensures MoodIcon(mood) == Meh <==> MoodColor(mood) in {Yellow, Orange}
    ensures MoodIcon(mood) == Frown <==> MoodColor(mood) == Red
  {
  }

  // ----- the page -----

  class MoodTrackerPage {
    const storage: LocalStorage
    const userId: Option<string>
    var selectedDate: int
    var currentMood: Score
    var moodNote: string
    var selectedEmotions: seq<string>
    var moodEntries: seq<MoodEntry>
    var showAddEntry: bool

    /** The page as first rendered on day `today`: slider at 5, empty form, empty ledger. */
    constructor (storage: LocalStorage, userId: Option<string>, today: int)
      ensures this.storage == storage && this.userId == userId
      ensures selectedDate == today && currentMood == 5 && moodNote == "" && selectedEmotions == []
      ensures moodEntries == [] && !showAddEntry
    {
      this.storage := storage;
      this.userId := userId;
      selectedDate := today;
      currentMood := 5;
      moodNote := "";
      selectedEmotions := [];
      moodEntries := [];
      showAddEntry := false;
    }

    /** The mount effect: loads the stored ledger when there is one. */
    method LoadEntries()
      modifies this
      ensures var key := EntriesKey(userId);
              moodEntries == if key in storage.items && storage.items[key].Entries?
                             then storage.items[key].entries else old(moodEntries)
      ensures selectedDate == old(selectedDate) && currentMood == old(currentMood)
      ensures moodNote == old(moodNote) && selectedEmotions == old(selectedEmotions)
      ensures showAddEntry == old(showAddEntry)
    {
      var key := EntriesKey(userId);
      if key in storage.items && storage.items[key].Entries? {
        moodEntries := storage.items[key].entries;
      }
    }

    /**
     * `saveMoodEntry`: replaces the entry of the selected day, stores the
     * ledger, and clears and closes the form.
     */
    method SaveMoodEntry()
      modifies this, storage
      ensures var e := MoodEntry(old(selectedDate), old(currentMood), old(moodNote), old(selectedEmotions));
              && moodEntries == Upsert(old(moodEntries), e)
              && storage.items == old(storage.items)[EntriesKey(userId) := Entries(moodEntries)]
      ensures DatesUnique(old(moodEntries)) ==> DatesUnique(moodEntries)
      ensures moodNote == "" && selectedEmotions == [] && !showAddEntry
      ensures selectedDate == old(selectedDate) && currentMood == old(currentMood)
    {
      var newEntry := MoodEntry(selectedDate, currentMood, moodNote, selectedEmotions);
      var updatedEntries := Upsert(moodEntries, newEntry);
      if DatesUnique(moodEntries) {
        UpsertKeepsDatesUnique(moodEntries, newEntry);
      }
      moodEntries := updatedEntries;
      storage.SetItem(EntriesKey(userId), Entries(updatedEntries));
      moodNote := "";
      selectedEmotions := [];
      showAddEntry := false;
    }

    method ToggleEmotion(emotion: string)
      modifies this
      ensures selectedEmotions == Toggled(old(selectedEmotions), emotion)
      ensures moodEntries == old(moodEntries) && moodNote == old(moodNote)
      ensures selectedDate == old(selectedDate) && currentMood == old(currentMood)
      ensures showAddEntry == old(showAddEntry)
    {
      selectedEmotions := Toggled(selectedEmotions, emotion);
    }

    /**
     * `getRecentEntries`: sorts the ledger itself newest first (the page's
     * state array is sorted in place) and returns its first seven entries.
     */
    method RecentEntries() returns (recent: seq<MoodEntry>)
      modifies this
      ensures moodEntries == SortByDateDesc(old(moodEntries))
      ensures multiset(moodEntries) == multiset(old(moodEntries))
      ensures DatesUnique(moodEntries) <==> DatesUnique(old(moodEntries))
      ensures recent == Recent(moodEntries)
      ensures selectedDate == old(selectedDate) && currentMood == old(currentMood)
      ensures moodNote == old(moodNote) && selectedEmotions == old(selectedEmotions)
      ensures showAddEntry == old(showAddEntry)
    {
      SortByDateDescShape(moodEntries);
      PermutationKeepsDatesUnique(moodEntries, SortByDateDesc(moodEntries));
      moodEntries := SortByDateDesc(moodEntries);
      recent := Recent(moodEntries);
    }
  }
}
