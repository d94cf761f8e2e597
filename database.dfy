/**
 * The store. `users` is the users table of database/db.py, held as a map from
 * user id to row. The other fields stand for the store methods the services
 * call but whose code is not part of this model: each holds only what the call
 * sites imply (a call log for the marks, an append-only event list, key-value
 * maps for settings and for the valuation cache).
 */
module Db {
  import opened Wrappers
  import opened PyText
  import opened Models
  import Logic

  /** A row of the users table; `language` may be NULL. `joinDate` is in microseconds. */
  datatype UserRow = UserRow(language: Option<string>, joinDate: int)

  /** The column default of `language`. */
  const DefaultLanguage: string := "en"

  /** `language` is a VARCHAR(5): a longer value is refused by the database. */
  const LanguageWidth: nat := 5

  // ---------------------------------------------------------------------------
  // The users table as a map
  // ---------------------------------------------------------------------------

  /** `INSERT ... ON CONFLICT DO NOTHING`: a new row with the column defaults, or nothing. */
  function InsertIfAbsent(users: map<int, UserRow>, userId: int, now: int): (r: map<int, UserRow>)
    ensures r.Keys == users.Keys + {userId}
    ensures userId in users ==> r == users
    ensures userId !in users ==> r[userId] == UserRow(Some(DefaultLanguage), now)
    ensures forall u :: u in users ==> r[u] == users[u]
  {
    if userId in users then users else users[userId := UserRow(Some(DefaultLanguage), now)]
  }

  /** `UPDATE users SET language = lang WHERE user_id = userId`. */
  function UpdateLanguage(users: map<int, UserRow>, userId: int, lang: string): (r: map<int, UserRow>)
    ensures r.Keys == users.Keys
    ensures userId in users ==> r[userId] == users[userId].(language := Some(lang))
    ensures forall u :: u in users && u != userId ==> r[u] == users[u]
  {
    if userId in users then users[userId := users[userId].(language := Some(lang))] else users
  }

  /** `result if result else "en"` over `SELECT language ... WHERE user_id = userId`. */
  function LanguageOf(users: map<int, UserRow>, userId: int): (r: string)
    ensures r != ""
    ensures userId !in users ==> r == DefaultLanguage
    ensures userId in users && Truthy(users[userId].language) ==> r == users[userId].language.value
    ensures userId in users && !Truthy(users[userId].language) ==> r == DefaultLanguage
  {
    if userId in users && Truthy(users[userId].language) then users[userId].language.value
    else DefaultLanguage
  }

  /** A second `add_user` is a no-op, whatever the clock says. */
  lemma AddUserIdempotent(users: map<int, UserRow>, userId: int, t1: int, t2: int)
    ensures InsertIfAbsent(InsertIfAbsent(users, userId, t1), userId, t2) == InsertIfAbsent(users, userId, t1)
  {
  }

  /** `add_user` keeps the language of a user who is already there. */
  lemma AddUserKeepsLanguage(users: map<int, UserRow>, userId: int, v: int, now: int)
    requires userId in users
    ensures LanguageOf(InsertIfAbsent(users, v, now), userId) == LanguageOf(users, userId)
  {
  }

  /** A newly inserted user reads back as 'en'. */
  lemma NewUserSpeaksDefault(users: map<int, UserRow>, userId: int, now: int)
    requires userId !in users
    ensures LanguageOf(InsertIfAbsent(users, userId, now), userId) == "en"
  {
  }

  /**
   * After `set_language` on a known user the read gives the new language when
   * it is non-empty ('en' otherwise), and every other user reads as before.
   */
  lemma SetThenGet(users: map<int, UserRow>, userId: int, lang: string, other: int)
    requires userId in users
    ensures LanguageOf(UpdateLanguage(users, userId, lang), userId) == (if lang != "" then lang else "en")
    ensures other != userId ==> LanguageOf(UpdateLanguage(users, userId, lang), other) == LanguageOf(users, other)
  {
  }

  /** `set_language` on an unknown user changes nothing. */
  lemma SetUnknownNoop(users: map<int, UserRow>, userId: int, lang: string)
    requires userId !in users
    ensures UpdateLanguage(users, userId, lang) == users
  {
  }

  // ---------------------------------------------------------------------------
  // Window counts
  // ---------------------------------------------------------------------------

  /** The events of `events` of the given type with a timestamp in [start, end]. */
  function EventCount(events: seq<Event>, eventType: string, start: int, end: int): (n: nat)
    ensures n <= |events|
  {
    if events == [] then 0
    else
      var e := events[|events| - 1];
      EventCount(events[..|events| - 1], eventType, start, end)
        + (if e.eventType == eventType && start <= e.timestamp <= end then 1 else 0)
  }

  /** Appending an event adds one to exactly the counts whose type and window it matches. */
  lemma EventCountAppend(events: seq<Event>, e: Event, eventType: string, start: int, end: int)
    ensures EventCount(events + [e], eventType, start, end)
      == EventCount(events, eventType, start, end) + (if e.eventType == eventType && start <= e.timestamp <= end then 1 else 0)
  {
    assert (events + [e])[..|events|] == events;
  }

  /** A count is zero when no event of that type lies in the window, and only then. */
  lemma {:induction false} EventCountZero(events: seq<Event>, eventType: string, start: int, end: int)
    ensures EventCount(events, eventType, start, end) == 0
      <==> forall i :: 0 <= i < |events| ==> !(events[i].eventType == eventType && start <= events[i].timestamp <= end)
  {
    if events != [] {
      var k := |events| - 1;
      EventCountZero(events[..k], eventType, start, end);
      assert forall i :: 0 <= i < k ==> events[..k][i] == events[i];
    }
  }

  /** The ids of the users whose join date lies in [start, end]. */
  function JoinedBetween(users: map<int, UserRow>, start: int, end: int): (r: set<int>)
    ensures forall u :: u in r <==> u in users && start <= users[u].joinDate <= end
  {
    set u | u in users && start <= users[u].joinDate <= end
  }

  /** The settings dictionary of an admin: the stored one, or the dictionary with no key. */
  function SettingsFor(settings: map<int, SettingsDict>, adminId: int): (r: SettingsDict)
    ensures adminId !in settings ==> r == EmptySettings
    ensures adminId in settings ==> r == settings[adminId]
  {
    if adminId in settings then settings[adminId] else EmptySettings
  }

  /** The key under which a valuation is cached: the handle without leading '@', lower-cased. */
  function CacheKey(handle: string): (k: string)
    ensures |k| == |Logic.CleanHandle(handle)|
    ensures forall i :: 0 <= i < |k| ==> k[i] == LowerChar(Logic.CleanHandle(handle)[i])
    ensures k == [] || k[0] != '@'
  {
    LowerAscii(Logic.CleanHandle(handle))
  }

  /** A leading '@' makes no difference to the key. */
  lemma {:induction false} CacheKeyIgnoresLeadingAt(handle: string)
    ensures CacheKey("@" + handle) == CacheKey(handle)
  {
    LStripCharPrefix(handle, '@');
    assert "@" + handle == ['@'] + handle;
  }

  /** Two handles that differ only in the case of ASCII letters share a key. */
  lemma {:induction false} CacheKeyIgnoresCase(a: string, b: string)
    requires LowerAscii(a) == LowerAscii(b)
    ensures CacheKey(a) == CacheKey(b)
  {
    LStripCharLower(a, '@');
    LStripCharLower(b, '@');
    LowerAsciiIdempotent(Logic.CleanHandle(a));
    LowerAsciiIdempotent(Logic.CleanHandle(b));
  }

  // ---------------------------------------------------------------------------
  // The store object
  // ---------------------------------------------------------------------------

  class Database {
    /** The users table. */
    var users: map<int, UserRow>
    /** Every `mark_user_blocked(user_id)` call, in order. */
    var blockedMarks: seq<int>
    /** Every `mark_reminder_sent(user_id)` call, in order. */
    var reminderMarks: seq<int>
    /** The event log, oldest first. */
    var events: seq<Event>
    /** The usernames recorded by `update_user_info`. */
    var usernames: map<int, string>
    /** The `system_settings` key-value table. */
    var systemSettings: map<string, string>
    /** The notification settings dictionary of each admin that has one. */
    var notificationSettings: map<int, SettingsDict>
    /** The valuation cache, keyed by `CacheKey`. */
    var valuations: map<string, Logic.Report>

    constructor()
      ensures users == map[] && blockedMarks == [] && reminderMarks == [] && events == []
      ensures usernames == map[] && systemSettings == map[] && notificationSettings == map[]
      ensures valuations == map[]
    {
      users := map[];
      blockedMarks := [];
      reminderMarks := [];
      events := [];
      usernames := map[];
      systemSettings := map[];
      notificationSettings := map[];
      valuations := map[];
    }

    /** `add_user(user_id)`; `now` is the database clock that fills `join_date`. */
    method AddUser(userId: int, now: int)
      modifies this`users
      ensures users == InsertIfAbsent(old(users), userId, now)
    {
      if userId !in users {
        users := users[userId := UserRow(Some(DefaultLanguage), now)];
      }
    }

    /**
     * `set_language(user_id, lang)`. Returns false when the database refuses
     * the update (a known user and a value wider than the column); the table is
     * then unchanged.
     */
    method SetLanguage(userId: int, lang: string) returns (ok: bool)
      modifies this`users
      ensures ok <==> userId !in old(users) || |lang| <= LanguageWidth
      ensures ok ==> users == UpdateLanguage(old(users), userId, lang)
      ensures !ok ==> users == old(users)
    {
      if userId in users {
        if |lang| > LanguageWidth {
          return false;
        }
        users := users[userId := users[userId].(language := Some(lang))];
      }
      ok := true;
    }

    /** `get_language(user_id)`. */
    function GetLanguage(userId: int): (r: string)
      reads this`users
      ensures r != ""
    {
      LanguageOf(users, userId)
    }

    /** `get_total_users()`. */
    function TotalUsers(): nat
      reads this`users
    {
      |users|
    }

    /** `get_new_users(start, end)`: the users who joined inside the window. */
    function NewUsers(start: int, end: int): nat
      reads this`users
    {
      |JoinedBetween(users, start, end)|
    }

    /** `get_event_count(event_type, start, end)`. */
    function GetEventCount(eventType: string, start: int, end: int): nat
      reads this`events
    {
      EventCount(events, eventType, start, end)
    }

    /** `get_system_setting(key)`: None when the key is absent. */
    function GetSystemSetting(key: string): (r: Option<string>)
      reads this`systemSettings
      ensures r.Some? <==> key in systemSettings
    {
      if key in systemSettings then Some(systemSettings[key]) else None
    }

    /** `get_notification_settings(admin_id)`. */
    function GetNotificationSettings(adminId: int): (r: SettingsDict)
      reads this`notificationSettings
      ensures r == SettingsFor(notificationSettings, adminId)
    {
      if adminId in notificationSettings then notificationSettings[adminId] else EmptySettings
    }

    /** `get_valuation(username)`: the cached report, if any. */
    function GetValuation(handle: string): (r: Option<Logic.Report>)
      reads this`valuations
      ensures r.Some? <==> CacheKey(handle) in valuations
    {
      var k := CacheKey(handle);
      if k in valuations then Some(valuations[k]) else None
    }

    /**
     * `save_valuation(data)`: the report is cached under the key of its own
     * `username`, write-once: a key already cached keeps its first report.
     */
    method SaveValuation(report: Logic.Report)
      modifies this`valuations
      ensures CacheKey(report.username) in old(valuations) ==> valuations == old(valuations)
      ensures CacheKey(report.username) !in old(valuations) ==> valuations == old(valuations)[CacheKey(report.username) := report]
    {
      var k := CacheKey(report.username);
      if k !in valuations {
        valuations := valuations[k := report];
      }
    }

    /** `set_system_setting(key, value)`. */
    method SetSystemSetting(key: string, value: string)
      modifies this`systemSettings
      ensures systemSettings == old(systemSettings)[key := value]
    {
      systemSettings := systemSettings[key := value];
    }

    /** `mark_reminder_sent(user_id)`. */
    method MarkReminderSent(userId: int)
      modifies this`reminderMarks
      ensures reminderMarks == old(reminderMarks) + [userId]
    {
      reminderMarks := reminderMarks + [userId];
    }

    /** `mark_user_blocked(user_id)`. */
    method MarkUserBlocked(userId: int)
      modifies this`blockedMarks
      ensures blockedMarks == old(blockedMarks) + [userId]
    {
      blockedMarks := blockedMarks + [userId];
    }

    /**
     * `add_event(user_id, event_type, metadata)`; the row gets the next serial id
     * and the database clock `now` as its timestamp.
     */
    method AddEvent(userId: int, eventType: string, metadata: Metadata, now: int)
      modifies this`events
      ensures events == old(events) + [Event(Some(|old(events)| + 1), userId, eventType, now, metadata)]
    {
      events := events + [Event(Some(|events| + 1), userId, eventType, now, metadata)];
    }

    /** `update_user_info(user_id, username)`. */
    method UpdateUserInfo(userId: int, username: string)
      modifies this`usernames
      ensures usernames == old(usernames)[userId := username]
    {
      usernames := usernames[userId := username];
    }
  }
}
