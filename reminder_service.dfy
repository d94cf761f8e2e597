/**
 * services/reminder_service.py: reminders to users who left a checkout. The
 * store query `get_users_for_reminder(delay)` is a parameter, the locale files
 * are a parameter mapping a language to its texts, and each Telegram send
 * ends with the outcome the environment gives for that recipient.
 */
module Reminders {
  import opened Wrappers
  import opened PyText
  import opened Telegram
  import opened Db

  /** The system setting holding the delay, and the fallback delay. */
  const DelayKey: string := "reminder_delay_minutes"
  const DefaultDelayText: string := "15"
  const DefaultDelay: int := 15

  /** The text key of the reminder in a locale file. */
  const ReminderKey: string := "reminder_message"

  /** `{'total': .., 'sent': .., 'failed': ..}` */
  datatype ReminderStats = ReminderStats(total: nat, sent: nat, failed: nat)

  /**
   * The delay `check_pending_reminders` uses: `int()` of the stored setting
   * (default '15'), or 15 when `int()` raises ValueError.
   */
  function DelayMinutes(setting: Option<string>): (d: int)
    ensures PyInt(setting.GetOr(DefaultDelayText)).Some? ==> d == PyInt(setting.GetOr(DefaultDelayText)).value
    ensures PyInt(setting.GetOr(DefaultDelayText)).None? ==> d == DefaultDelay
  {
    match PyInt(setting.GetOr(DefaultDelayText))
    case Some(v) => v
    case None => DefaultDelay
  }

  /** An absent setting gives 15. */
  lemma DelayDefault()
    ensures DelayMinutes(None) == 15
  {
    assert IntToString(15) == "15";
    PyIntOfIntToString(15);
  }

  /** A setting written as `str(n)` gives back n. */
  lemma DelayRoundTrip(n: int)
    ensures DelayMinutes(Some(IntToString(n))) == n
  {
    PyIntOfIntToString(n);
  }

  /** A setting with no digit at all falls back to 15. */
  lemma DelayFallback(s: string)
    requires forall i :: 0 <= i < |s| ==> !IsDigit(s[i])
    ensures DelayMinutes(Some(s)) == 15
  {
    PyIntNeedsDigit(s);
  }

  /** `texts.get('reminder_message', '')` */
  function ReminderText(texts: map<string, string>): string {
    if ReminderKey in texts then texts[ReminderKey] else ""
  }

  /** `get_language(user_id) or 'en'` */
  function ReminderLanguage(users: map<int, UserRow>, userId: int): (lang: string)
    ensures lang == LanguageOf(users, userId)
  {
    var stored := LanguageOf(users, userId);
    if stored != "" then stored else "en"
  }

  /** The messages `process_reminders` sends: one per pending user, in list order. */
  function ReminderMessages(pending: seq<int>, users: map<int, UserRow>, locales: string -> map<string, string>): (r: seq<Outgoing>)
    ensures |r| == |pending|
  {
    if pending == [] then []
    else
      var u := pending[|pending| - 1];
      ReminderMessages(pending[..|pending| - 1], users, locales)
        + [TextMessage(u, ReminderText(locales(ReminderLanguage(users, u))))]
  }

  /** The i-th message goes to the i-th pending user, with the reminder text of that user's language. */
  lemma {:induction false} ReminderMessagesAt(pending: seq<int>, users: map<int, UserRow>, locales: string -> map<string, string>)
    ensures forall i :: 0 <= i < |pending| ==>
      ReminderMessages(pending, users, locales)[i]
        == TextMessage(pending[i], ReminderText(locales(ReminderLanguage(users, pending[i]))))
  {
    if pending != [] {
      var k := |pending| - 1;
      ReminderMessagesAt(pending[..k], users, locales);
    }
  }

  /** One more pending user adds that user's message at the end. */
  lemma ReminderMessagesAppend(pending: seq<int>, u: int, users: map<int, UserRow>, locales: string -> map<string, string>)
    ensures ReminderMessages(pending + [u], users, locales)
      == ReminderMessages(pending, users, locales) + [TextMessage(u, ReminderText(locales(ReminderLanguage(users, u))))]
  {
    assert (pending + [u])[..|pending|] == pending;
  }

  /**
   * What one more iteration of the reminder loop adds: after logs that already
   * hold the records of the first i users, the records of user i extend them to
   * the records of the first i + 1 users.
   */
  lemma RemindStep(pending: seq<int>, i: nat, users: map<int, UserRow>, locales: string -> map<string, string>,
                   outcomes: int -> SendOutcome, sent0: seq<Outgoing>, marked0: seq<int>, blocked0: seq<int>)
    requires i < |pending|
    ensures var u := pending[i];
      && sent0 + ReminderMessages(pending[..i], users, locales) + [TextMessage(u, ReminderText(locales(ReminderLanguage(users, u))))]
        == sent0 + ReminderMessages(pending[..i + 1], users, locales)
      && |DeliveredTo(pending[..i + 1], outcomes)| == |DeliveredTo(pending[..i], outcomes)| + (if outcomes(u).Delivered? then 1 else 0)
      && marked0 + DeliveredTo(pending[..i], outcomes) + (if outcomes(u).Delivered? then [u] else [])
        == marked0 + DeliveredTo(pending[..i + 1], outcomes)
      && blocked0 + ForbiddenTo(pending[..i], outcomes) + (if outcomes(u).Forbidden? then [u] else [])
        == blocked0 + ForbiddenTo(pending[..i + 1], outcomes)
  {
    var u := pending[i];
    assert pending[..i + 1] == pending[..i] + [u];
    OutcomesStep(pending, i, outcomes, marked0, blocked0);
    ReminderMessagesAppend(pending[..i], u, users, locales);
    var m := [TextMessage(u, ReminderText(locales(ReminderLanguage(users, u))))];
    assert sent0 + ReminderMessages(pending[..i], users, locales) + m == sent0 + (ReminderMessages(pending[..i], users, locales) + m);
  }

  /** The stats of a run over `pending`: `sent` counts the delivered sends. */
  function ExpectedStats(pending: seq<int>, outcomes: int -> SendOutcome): (s: ReminderStats)
    ensures s.sent + s.failed == s.total == |pending|
    ensures pending == [] ==> s == ReminderStats(0, 0, 0)
  {
    var sent := |DeliveredTo(pending, outcomes)|;
    ReminderStats(|pending|, sent, |pending| - sent)
  }

  /** A run over no pending user sends nothing and marks nobody. */
  lemma NoPendingNoMessages(users: map<int, UserRow>, locales: string -> map<string, string>, outcomes: int -> SendOutcome)
    ensures ExpectedStats([], outcomes) == ReminderStats(0, 0, 0)
    ensures ReminderMessages([], users, locales) == []
    ensures DeliveredTo([], outcomes) == [] && ForbiddenTo([], outcomes) == []
  {
  }

  /** The failures of a run are the blocked users plus the other errors. */
  lemma FailedSplit(pending: seq<int>, outcomes: int -> SendOutcome)
    ensures ExpectedStats(pending, outcomes).failed
      == |ForbiddenTo(pending, outcomes)| + OtherFailures(pending, outcomes)
  {
    OutcomesPartition(pending, outcomes);
  }

  /**
   * The stats of a run of `process_reminders` as line 52 is written:
   * keyboards/builders.py defines no `get_manager_keyboard`, so every
   * `send_reminder` fails at the import and every pending user counts as failed.
   */
  function AsWrittenStats(pending: seq<int>): ReminderStats {
    ReminderStats(|pending|, 0, |pending|)
  }

  /** As written, a run reports what a run with the import fixed reports only when no send would have been delivered. */
  lemma {:induction false} AsWrittenLosesDeliveries(pending: seq<int>, outcomes: int -> SendOutcome)
    ensures AsWrittenStats(pending) == ExpectedStats(pending, outcomes) <==> DeliveredTo(pending, outcomes) == []
  {
  }

  /** One pending user whose reminder would be delivered: as written it is counted failed, not sent. */
  lemma AsWrittenCounterexample(u: int, outcomes: int -> SendOutcome)
    requires outcomes(u).Delivered?
    ensures AsWrittenStats([u]) == ReminderStats(1, 0, 1)
    ensures ExpectedStats([u], outcomes) == ReminderStats(1, 1, 0)
  {
    OutcomeMembers([u], outcomes);
    assert u in DeliveredTo([u], outcomes);
  }

  class ReminderService {
    const db: Database

    constructor(db: Database)
      ensures this.db == db
    {
      this.db := db;
    }

    /** `check_pending_reminders()`; `query` answers `get_users_for_reminder(delay)`. */
    method CheckPendingReminders(query: int -> seq<int>) returns (pending: seq<int>)
      ensures pending == query(DelayMinutes(db.GetSystemSetting(DelayKey)))
    {
      var delayText := db.GetSystemSetting(DelayKey).GetOr(DefaultDelayText);
      var delay := DefaultDelay;
      var parsed := PyInt(delayText);
      if parsed.Some? {
        delay := parsed.value;
      }
      pending := query(delay);
    }

    /**
     * `send_reminder(bot, user_id, texts)` as evidently intended, with a
     * manager keyboard that can be imported: true iff the message was delivered;
     * only then is the reminder marked sent, and only a block marks the user.
     */
    method SendReminder(bot: Bot, userId: int, texts: map<string, string>, outcome: SendOutcome) returns (success: bool)
      modifies db`reminderMarks, db`blockedMarks, bot
      ensures success <==> outcome.Delivered?
      ensures bot.attempts == old(bot.attempts) + [TextMessage(userId, ReminderText(texts))]
      ensures db.reminderMarks == old(db.reminderMarks) + (if outcome.Delivered? then [userId] else [])
      ensures db.blockedMarks == old(db.blockedMarks) + (if outcome.Forbidden? then [userId] else [])
    {
      var text := if ReminderKey in texts then texts[ReminderKey] else "";
      var r := bot.Send(TextMessage(userId, text), outcome);
      match r
      case Delivered =>
        db.MarkReminderSent(userId);
        success := true;
      case Forbidden =>
        db.MarkUserBlocked(userId);
        success := false;
      case BadRequest(_) =>
        success := false;
      case OtherError(_) =>
        success := false;
    }

    /**
     * `send_reminder` as line 52 is written: the import of the missing
     * `get_manager_keyboard` raises ImportError inside the `try`, and the final
     * `except Exception` returns False before any send or store call, so the
     * bot and the store are left as they were.
     */
    method SendReminderAsWritten(bot: Bot, userId: int, texts: map<string, string>, outcome: SendOutcome) returns (success: bool)
      ensures !success
    {
      success := false;
    }

    /** `process_reminders` over `SendReminderAsWritten`: nobody is reminded and every pending user fails. */
    method ProcessRemindersAsWritten(bot: Bot, query: int -> seq<int>, locales: string -> map<string, string>, outcomes: int -> SendOutcome)
      returns (stats: ReminderStats)
      ensures stats == AsWrittenStats(query(DelayMinutes(db.GetSystemSetting(DelayKey))))
    {
      var pending := CheckPendingReminders(query);
      stats := RemindAllAsWritten(bot, pending, locales, outcomes);
    }

    /** Lines 91-124 over `SendReminderAsWritten`. */
    method RemindAllAsWritten(bot: Bot, pending: seq<int>, locales: string -> map<string, string>, outcomes: int -> SendOutcome)
      returns (stats: ReminderStats)
      ensures stats == AsWrittenStats(pending)
    {
      if pending == [] {
        return ReminderStats(0, 0, 0);
      }
      var sent, failed := 0, 0;
      var i := 0;
      while i < |pending|
        invariant 0 <= i <= |pending|
        invariant sent == 0 && failed == i
      {
        var userId := pending[i];
        var stored := db.GetLanguage(userId);
        var lang := if stored != "" then stored else "en";
        var success := SendReminderAsWritten(bot, userId, locales(lang), outcomes(userId));
        if success {
          sent := sent + 1;
        } else {
          failed := failed + 1;
        }
        i := i + 1;
      }
      stats := ReminderStats(|pending|, sent, failed);
    }

    /**
     * `process_reminders(bot)`: one attempt per pending user in list order, the
     * delivered users marked sent, the blocked ones marked blocked, and
     * `sent + failed == total == len(pending)`.
     */
    method ProcessReminders(bot: Bot, query: int -> seq<int>, locales: string -> map<string, string>, outcomes: int -> SendOutcome)
      returns (stats: ReminderStats)
      modifies db`reminderMarks, db`blockedMarks, bot
      ensures stats == ExpectedStats(query(DelayMinutes(old(db.GetSystemSetting(DelayKey)))), outcomes)
      ensures bot.attempts
        == old(bot.attempts) + ReminderMessages(query(DelayMinutes(old(db.GetSystemSetting(DelayKey)))), db.users, locales)
      ensures db.reminderMarks
        == old(db.reminderMarks) + DeliveredTo(query(DelayMinutes(old(db.GetSystemSetting(DelayKey)))), outcomes)
      ensures db.blockedMarks
        == old(db.blockedMarks) + ForbiddenTo(query(DelayMinutes(old(db.GetSystemSetting(DelayKey)))), outcomes)
    {
      var pending := CheckPendingReminders(query);
      stats := RemindAll(bot, pending, locales, outcomes);
    }

    /** Lines 91-124 of `process_reminders`: nothing happens for an empty list, else every pending user is reminded. */
    method RemindAll(bot: Bot, pending: seq<int>, locales: string -> map<string, string>, outcomes: int -> SendOutcome)
      returns (stats: ReminderStats)
      modifies db`reminderMarks, db`blockedMarks, bot
      ensures stats == ExpectedStats(pending, outcomes)
      ensures bot.attempts == old(bot.attempts) + ReminderMessages(pending, db.users, locales)
      ensures db.reminderMarks == old(db.reminderMarks) + DeliveredTo(pending, outcomes)
      ensures db.blockedMarks == old(db.blockedMarks) + ForbiddenTo(pending, outcomes)
    {
      if pending == [] {
        NoPendingNoMessages(db.users, locales, outcomes);
        return ReminderStats(0, 0, 0);
      }
      var sent, failed := 0, 0;
      var i := 0;
      while i < |pending|
        invariant 0 <= i <= |pending|
        invariant sent == |DeliveredTo(pending[..i], outcomes)| && sent + failed == i
        invariant bot.attempts == old(bot.attempts) + ReminderMessages(pending[..i], db.users, locales)
        invariant db.reminderMarks == old(db.reminderMarks) + DeliveredTo(pending[..i], outcomes)
        invariant db.blockedMarks == old(db.blockedMarks) + ForbiddenTo(pending[..i], outcomes)
      {
        var userId := pending[i];
        var stored := db.GetLanguage(userId);
        var lang := if stored != "" then stored else "en";
        var success := SendReminder(bot, userId, locales(lang), outcomes(userId));
        if success {
          sent := sent + 1;
        } else {
          failed := failed + 1;
        }
        RemindStep(pending, i, db.users, locales, outcomes, old(bot.attempts), old(db.reminderMarks), old(db.blockedMarks));
        i := i + 1;
      }
      assert pending[..i] == pending;
      stats := ReminderStats(|pending|, sent, failed);
    }
  }
}
