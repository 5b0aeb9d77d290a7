/**
 * Browser storage as the pages share it: one key/value object whose keys are
 * strings. The browser keeps JSON text under each key; the model keeps the
 * decoded record directly, tagged by its shape (a `Value`).
 */
module Storage {
  import opened Wrappers

  /** A registered account as the registry holds it (password kept in plain text). */
  datatype Account = Account(
    id: string,
    name: string,
    email: string,
    password: string,
    isVerified: bool,
    profilePicture: Option<string>,
    createdAt: string)

  /** The signed-in user as the session snapshot and the pages see it. */
  datatype User = User(
    id: string,
    email: string,
    name: string,
    isVerified: bool,
    profilePicture: Option<string>)

  /** The dashboard's derived figures; the average is kept in tenths (7.5 is 75). */
  datatype Stats = Stats(
    averageTenths: nat,
    sessionsCompleted: nat,
    streakDays: nat,
    totalMinutes: nat)

  /** A score on the mood slider, which runs from 1 to 10. */
  type Score = x: int | 1 <= x <= 10 witness 1

  /** One day of the detailed mood ledger; `date` is the day number of its ISO date. */
  datatype MoodEntry = MoodEntry(
    date: int,
    mood: Score,
    note: string,
    emotions: seq<string>)

  /** What one storage key holds. */
  datatype Value =
    | Text(text: string)
    | Accounts(accounts: seq<Account>)
    | Profile(user: User)
    | StatsRecord(stats: Stats)
    | Entries(entries: seq<MoodEntry>)

  /** The plain text under `key`, if the key is present and holds text. */
  function TextAt(items: map<string, Value>, key: string): (r: Option<string>)
    ensures r.Some? <==> key in items && items[key].Text?
    ensures r.Some? ==> items[key] == Text(r.value)
  {
    if key in items && items[key].Text? then Some(items[key].text) else None
  }

  /** The browser's storage object, shared by reference between the pages. */
  class LocalStorage {
    var items: map<string, Value>

    constructor (initial: map<string, Value>)
      ensures items == initial
    {
      items := initial;
    }

    /** `setItem`: stores `v` under `key`, replacing what was there. */
    method SetItem(key: string, v: Value)
      modifies this
      ensures items == old(items)[key := v]
    {
      items := items[key := v];
    }

    /** `removeItem`: drops `key`; removing an absent key changes nothing. */
    method RemoveItem(key: string)
      modifies this
      ensures items == old(items) - {key}
    {
      items := items - {key};
    }
  }
}
