/**
 * services/notifications.py: alerts to the admins listed in the configuration.
 * Each admin's settings dictionary decides which alerts they get; the daily
 * report ignores the settings. The texts are HTML, built line by line.
 */
module Notifications {
  import opened Wrappers
  import opened PyText
  import opened Models
  import opened Telegram
  import opened Db
  import opened Analytics
  import Formatters

  // ---------------------------------------------------------------------------
  // Texts
  // ---------------------------------------------------------------------------

  /** The head the notifications put before a bare user id (lines 57 and 75). */
  const NoticeIdHead: string := "ID: "

  /** The new-user alert. */
  function NewUserText(userId: int, username: Option<string>): string {
    "🆕 <b>Новый пользователь</b>\n\n" + Formatters.Display(NoticeIdHead, userId, username)
  }

  /** The first line of the order alert, and the heads of the lines after it. */
  const OrderTitle: string := "💰 <b>Заказ оформлен!</b>"
  const UserHead: string := "👤 Пользователь: "
  const NickHead: string := "📝 Ник: "
  const PriceHead: string := "💵 Цена: $"

  /** The lines of the order alert, in order; the nickname and price lines are optional. */
  function OrderLines(userId: int, username: Option<string>, nickname: Option<string>, price: Option<int>): seq<string> {
    [OrderTitle + "\n\n", UserHead + Formatters.Display(NoticeIdHead, userId, username) + "\n"]
      + (if Truthy(nickname) then [NickHead + nickname.value + "\n"] else [])
      + (if TruthyInt(price) then [PriceHead + WithThousands(price.value) + "\n"] else [])
  }

  /** The order alert, as the `+=` steps of lines 76-82 leave it. */
  function OrderText(userId: int, username: Option<string>, nickname: Option<string>, price: Option<int>): string {
    Concat(OrderLines(userId, username, nickname, price))
  }

  /** Some line of `lines` starts with `head`. */
  predicate HasLine(lines: seq<string>, head: string) {
    exists k :: 0 <= k < |lines| && StartsWith(lines[k], head)
  }

  /** A line whose first character differs from the head's does not start with it. */
  lemma NotStartsWith(line: string, head: string)
    requires |line| > 0 && |head| > 0 && line[0] != head[0]
    ensures !StartsWith(line, head)
  {
    if |head| <= |line| {
      assert line[..|head|][0] != head[0];
    }
  }

  /** The first two lines of the order alert start with neither optional head. */
  lemma OrderFixedLines(userId: int, username: Option<string>)
    ensures !StartsWith(OrderTitle + "\n\n", NickHead) && !StartsWith(OrderTitle + "\n\n", PriceHead)
    ensures var l1 := UserHead + Formatters.Display(NoticeIdHead, userId, username) + "\n";
      !StartsWith(l1, NickHead) && !StartsWith(l1, PriceHead)
  {
    var l0 := OrderTitle + "\n\n";
    var l1 := UserHead + Formatters.Display(NoticeIdHead, userId, username) + "\n";
    assert l0[0] == '💰' && l1[0] == '👤';
    assert NickHead[0] == '📝' && PriceHead[0] == '💵';
    NotStartsWith(l0, NickHead);
    NotStartsWith(l1, NickHead);
    NotStartsWith(l0, PriceHead);
    NotStartsWith(l1, PriceHead);
  }

  /** The order alert has a nickname line iff the nickname is truthy. */
  lemma {:induction false} OrderNickLine(userId: int, username: Option<string>, nickname: Option<string>, price: Option<int>)
    ensures HasLine(OrderLines(userId, username, nickname, price), NickHead) <==> Truthy(nickname)
  {
    var lines := OrderLines(userId, username, nickname, price);
    OrderFixedLines(userId, username);
    var nick := if Truthy(nickname) then [NickHead + nickname.value + "\n"] else [];
    var cost := if TruthyInt(price) then [PriceHead + WithThousands(price.value) + "\n"] else [];
    assert lines == [OrderTitle + "\n\n", UserHead + Formatters.Display(NoticeIdHead, userId, username) + "\n"] + nick + cost;
    if Truthy(nickname) {
      assert (NickHead + nickname.value + "\n")[..|NickHead|] == NickHead;
      assert StartsWith(lines[2], NickHead);
    }
    if TruthyInt(price) {
      assert (PriceHead + WithThousands(price.value) + "\n")[0] == '💵';
      NotStartsWith(lines[|lines| - 1], NickHead);
    }
  }

  /**
   * The order alert has a price line iff the price is truthy (a price of 0
   * has none); the price line, when there, is the last one and shows the
   * price with thousands separators.
   */
  lemma {:induction false} OrderPriceLine(userId: int, username: Option<string>, nickname: Option<string>, price: Option<int>)
    ensures HasLine(OrderLines(userId, username, nickname, price), PriceHead) <==> TruthyInt(price)
    ensures var lines := OrderLines(userId, username, nickname, price);
      TruthyInt(price) ==> lines[|lines| - 1] == PriceHead + WithThousands(price.value) + "\n"
  {
    var lines := OrderLines(userId, username, nickname, price);
    OrderFixedLines(userId, username);
    var nick := if Truthy(nickname) then [NickHead + nickname.value + "\n"] else [];
    var cost := if TruthyInt(price) then [PriceHead + WithThousands(price.value) + "\n"] else [];
    assert lines == [OrderTitle + "\n\n", UserHead + Formatters.Display(NoticeIdHead, userId, username) + "\n"] + nick + cost;
    if Truthy(nickname) {
      assert (NickHead + nickname.value + "\n")[0] == '📝';
      NotStartsWith(lines[2], PriceHead);
    }
    if TruthyInt(price) {
      assert (PriceHead + WithThousands(price.value) + "\n")[..|PriceHead|] == PriceHead;
      assert StartsWith(lines[|lines| - 1], PriceHead);
    }
  }

  /** A price of 0 is left out exactly like a missing price. */
  lemma OrderZeroPriceOmitted(userId: int, username: Option<string>, nickname: Option<string>)
    ensures OrderText(userId, username, nickname, Some(0)) == OrderText(userId, username, nickname, None)
  {
  }

  /** The abandoned-checkout alert for one admin, quoting that admin's threshold. */
  function AlertText(count: int, threshold: int): string {
    "⚠️ <b>Внимание!</b>\n\n"
      + "<b>" + IntToString(count) + "</b> брошенных оформлений за последний час\n"
      + "Это выше порога (" + IntToString(threshold) + ")"
  }

  /** The daily report. */
  function ReportText(stats: map<StatKey, int>): string {
    "📊 <b>Дневной отчёт</b>\n\n"
      + "👥 Всего пользователей: " + IntToString(StatOr0(stats, TotalUsersKey)) + "\n"
      + "🆕 Новых за 24 часа: " + IntToString(StatOr0(stats, NewUsersKey)) + "\n"
      + "🔁 Запусков сегодня: " + IntToString(StatOr0(stats, RestartsKey)) + "\n\n"
      + "👣 <b>Переходы:</b>\n"
      + "• В группу: " + IntToString(StatOr0(stats, GroupVisitsKey)) + "\n"
      + "• К менеджеру: " + IntToString(StatOr0(stats, ManagerContactsKey)) + "\n\n"
      + "💰 <b>Действия:</b>\n"
      + "• Проверок ника: " + IntToString(StatOr0(stats, NicknameChecksKey)) + "\n"
      + "• Начали оформление: " + IntToString(StatOr0(stats, CheckoutStartsKey)) + "\n"
      + "• Успешные заказы: " + IntToString(StatOr0(stats, SuccessfulOrdersKey)) + "\n"
      + "• Брошенные оформления: " + IntToString(StatOr0(stats, AbandonedCheckoutsKey)) + "\n"
  }

  /** A report of a dictionary whose counters are all 0 or missing reads like one of the empty dictionary. */
  lemma ReportMissingKeysAreZero(stats: map<StatKey, int>)
    requires forall k :: k in stats ==> stats[k] == 0
    ensures ReportText(stats) == ReportText(map[])
  {
    assert forall k: StatKey :: StatOr0(stats, k) == 0;
  }

  // ---------------------------------------------------------------------------
  // Who gets what
  // ---------------------------------------------------------------------------

  /** The three alerts that consult the settings, with what they are about. */
  datatype Notice =
    | NewUserNotice(userId: int, username: Option<string>)
    | OrderNotice(userId: int, username: Option<string>, nickname: Option<string>, price: Option<int>)
    | AlertNotice(count: int)

  /** Whether an admin with these settings gets the notice (lines 54, 72, 90-95). */
  predicate Wants(s: SettingsDict, n: Notice) {
    match n
    case NewUserNotice(_, _) => s.NotifyNewUsers()
    case OrderNotice(_, _, _, _) => s.NotifyOrders()
    case AlertNotice(count) => s.NotifyAbandoned() && count > s.Threshold()
  }

  /** The text an admin with these settings receives. */
  function NoticeText(s: SettingsDict, n: Notice): string {
    match n
    case NewUserNotice(u, name) => NewUserText(u, name)
    case OrderNotice(u, name, nick, price) => OrderText(u, name, nick, price)
    case AlertNotice(count) => AlertText(count, s.Threshold())
  }

  /** The alert an admin receives quotes that admin's own threshold. */
  lemma AlertNoticeText(s: SettingsDict, count: int)
    ensures NoticeText(s, AlertNotice(count)) == AlertText(count, s.Threshold())
  {
  }

  /** The admins of `admins` who get the notice, in order. */
  function Recipients(admins: seq<int>, settings: map<int, SettingsDict>, n: Notice): (r: seq<int>)
    ensures |r| <= |admins|
  {
    if admins == [] then []
    else
      var a := admins[|admins| - 1];
      Recipients(admins[..|admins| - 1], settings, n) + (if Wants(SettingsFor(settings, a), n) then [a] else [])
  }

  /** An admin is among the recipients iff they are listed and their settings ask for the notice. */
  lemma {:induction false} RecipientsMembers(admins: seq<int>, settings: map<int, SettingsDict>, n: Notice)
    ensures forall a :: a in Recipients(admins, settings, n) <==> a in admins && Wants(SettingsFor(settings, a), n)
  {
    if admins != [] {
      var k := |admins| - 1;
      RecipientsMembers(admins[..k], settings, n);
      assert admins == admins[..k] + [admins[k]];
    }
  }

  /** One message per recipient, each with the text for that recipient's settings. */
  function NoticeMessages(recipients: seq<int>, settings: map<int, SettingsDict>, n: Notice): (r: seq<Outgoing>)
    ensures |r| == |recipients|
  {
    if recipients == [] then []
    else
      var a := recipients[|recipients| - 1];
      NoticeMessages(recipients[..|recipients| - 1], settings, n) + [TextMessage(a, NoticeText(SettingsFor(settings, a), n))]
  }

  /** What the loop of a notify method sends to `admins`. */
  function Notified(admins: seq<int>, settings: map<int, SettingsDict>, n: Notice): seq<Outgoing> {
    NoticeMessages(Recipients(admins, settings, n), settings, n)
  }

  /** One more admin adds themselves to the recipients iff they want the notice. */
  lemma RecipientsStep(admins: seq<int>, i: nat, settings: map<int, SettingsDict>, n: Notice)
    requires i < |admins|
    ensures Recipients(admins[..i + 1], settings, n)
      == Recipients(admins[..i], settings, n) + (if Wants(SettingsFor(settings, admins[i]), n) then [admins[i]] else [])
  {
    assert admins[..i + 1][..i] == admins[..i];
  }

  /** One more recipient adds their message at the end. */
  lemma NoticeMessagesAppend(r: seq<int>, a: int, settings: map<int, SettingsDict>, n: Notice)
    ensures NoticeMessages(r + [a], settings, n)
      == NoticeMessages(r, settings, n) + [TextMessage(a, NoticeText(SettingsFor(settings, a), n))]
  {
    assert (r + [a])[..|r|] == r;
  }

  /** The messages for the first i + 1 admins extend those for the first i by admin i's message, if any. */
  lemma NotifiedAppend(admins: seq<int>, i: nat, settings: map<int, SettingsDict>, n: Notice)
    requires i < |admins|
    ensures var a := admins[i];
      Notified(admins[..i + 1], settings, n) == Notified(admins[..i], settings, n)
        + (if Wants(SettingsFor(settings, a), n) then [TextMessage(a, NoticeText(SettingsFor(settings, a), n))] else [])
  {
    var a := admins[i];
    var r := Recipients(admins[..i], settings, n);
    RecipientsStep(admins, i, settings, n);
    assert Notified(admins[..i], settings, n) == NoticeMessages(r, settings, n);
    if Wants(SettingsFor(settings, a), n) {
      NoticeMessagesAppend(r, a, settings, n);
      assert Notified(admins[..i + 1], settings, n) == NoticeMessages(r + [a], settings, n);
    } else {
      assert r + [] == r;
      assert Recipients(admins[..i + 1], settings, n) == r;
      assert Notified(admins[..i + 1], settings, n) == NoticeMessages(r, settings, n);
      assert NoticeMessages(r, settings, n) + [] == NoticeMessages(r, settings, n);
    }
  }

  /** Appending to a log in two steps or in one. */
  lemma LogAssoc(log0: seq<Outgoing>, before: seq<Outgoing>, extra: seq<Outgoing>)
    ensures log0 + before + extra == log0 + (before + extra)
  {
  }

  /** One more admin of the loop adds their message iff they want the notice. */
  lemma NotifiedStep(admins: seq<int>, i: nat, settings: map<int, SettingsDict>, n: Notice, log0: seq<Outgoing>)
    requires i < |admins|
    ensures var a := admins[i];
      log0 + Notified(admins[..i], settings, n)
        + (if Wants(SettingsFor(settings, a), n) then [TextMessage(a, NoticeText(SettingsFor(settings, a), n))] else [])
      == log0 + Notified(admins[..i + 1], settings, n)
  {
    var a := admins[i];
    NotifiedAppend(admins, i, settings, n);
    LogAssoc(log0, Notified(admins[..i], settings, n),
      if Wants(SettingsFor(settings, a), n) then [TextMessage(a, NoticeText(SettingsFor(settings, a), n))] else []);
  }

  /** Every admin is attempted once, with the same text. */
  function SameTextTo(admins: seq<int>, text: string): (r: seq<Outgoing>)
    ensures |r| == |admins|
  {
    if admins == [] then [] else SameTextTo(admins[..|admins| - 1], text) + [TextMessage(admins[|admins| - 1], text)]
  }

  /** One more admin adds one message. */
  lemma SameTextStep(admins: seq<int>, i: nat, text: string, log0: seq<Outgoing>)
    requires i < |admins|
    ensures log0 + SameTextTo(admins[..i], text) + [TextMessage(admins[i], text)] == log0 + SameTextTo(admins[..i + 1], text)
  {
    assert admins[..i + 1][..i] == admins[..i];
    var m := [TextMessage(admins[i], text)];
    assert log0 + SameTextTo(admins[..i], text) + m == log0 + (SameTextTo(admins[..i], text) + m);
  }

  /**
   * The alert reaches an admin only above that admin's own threshold (default
   * 10): at `count == threshold` nothing is sent to them.
   */
  lemma AlertStrictlyAboveThreshold(admins: seq<int>, settings: map<int, SettingsDict>, count: int, a: int)
    ensures a in Recipients(admins, settings, AlertNotice(count))
      <==> a in admins && SettingsFor(settings, a).NotifyAbandoned() && count > SettingsFor(settings, a).Threshold()
    ensures a !in settings && count <= 10 ==> a !in Recipients(admins, settings, AlertNotice(count))
  {
    RecipientsMembers(admins, settings, AlertNotice(count));
  }

  /** An absent `notify_new_users` key counts as on: an admin without settings gets every new-user alert. */
  lemma NewUserDefaultOn(admins: seq<int>, settings: map<int, SettingsDict>, userId: int, username: Option<string>, a: int)
    requires a in admins && a !in settings
    ensures a in Recipients(admins, settings, NewUserNotice(userId, username))
  {
    RecipientsMembers(admins, settings, NewUserNotice(userId, username));
  }

  /**
   * With the default threshold, `check_abandoned_checkouts_alert` fires exactly
   * when an admin without settings would get the alert: both compare strictly
   * against 10.
   */
  lemma AlertAgreesWithAdminFilter(admins: seq<int>, settings: map<int, SettingsDict>, count: int, a: int)
    requires a in admins && a !in settings
    ensures AlertCount(count, DefaultThreshold).Some? <==> a in Recipients(admins, settings, AlertNotice(count))
  {
    RecipientsMembers(admins, settings, AlertNotice(count));
  }

  // ---------------------------------------------------------------------------
  // The service
  // ---------------------------------------------------------------------------

  class NotificationService {
    const db: Database
    const bot: Bot
    /** `ADMIN_IDS` from the configuration. */
    const adminIds: seq<int>

    constructor(db: Database, bot: Bot, adminIds: seq<int>)
      ensures this.db == db && this.bot == bot && this.adminIds == adminIds
    {
      this.db := db;
      this.bot := bot;
      this.adminIds := adminIds;
    }

    /** `_send_to_admin(admin_id, text)`: never raises; true iff delivered. */
    method SendToAdmin(adminId: int, text: string, outcome: SendOutcome) returns (ok: bool)
      modifies bot
      ensures ok <==> outcome.Delivered?
      ensures bot.attempts == old(bot.attempts) + [TextMessage(adminId, text)]
    {
      var r := bot.Send(TextMessage(adminId, text), outcome);
      ok := r.Delivered?;
    }

    /**
     * `_send_to_admins(text, check_settings)`: every admin is attempted, and
     * the result is the number of deliveries; `check_settings` is not read.
     */
    method SendToAdmins(text: string, checkSettings: bool, outcomes: int -> SendOutcome) returns (sentCount: nat)
      modifies bot
      ensures sentCount == |DeliveredTo(adminIds, outcomes)| && sentCount <= |adminIds|
      ensures bot.attempts == old(bot.attempts) + SameTextTo(adminIds, text)
    {
      sentCount := 0;
      var i := 0;
      while i < |adminIds|
        invariant 0 <= i <= |adminIds|
        invariant sentCount == |DeliveredTo(adminIds[..i], outcomes)|
        invariant bot.attempts == old(bot.attempts) + SameTextTo(adminIds[..i], text)
      {
        var ok := SendToAdmin(adminIds[i], text, outcomes(adminIds[i]));
        if ok {
          sentCount := sentCount + 1;
        }
        OutcomesStep(adminIds, i, outcomes, [], []);
        SameTextStep(adminIds, i, text, old(bot.attempts));
        i := i + 1;
      }
      assert adminIds[..i] == adminIds;
    }

    /** `notify_new_user(user_id, username)`: skips exactly the admins who turned new-user alerts off. */
    method NotifyNewUser(userId: int, username: Option<string>, outcomes: int -> SendOutcome)
      modifies bot
      ensures bot.attempts
        == old(bot.attempts) + Notified(adminIds, db.notificationSettings, NewUserNotice(userId, username))
    {
      var n := NewUserNotice(userId, username);
      var i := 0;
      while i < |adminIds|
        invariant 0 <= i <= |adminIds|
        invariant bot.attempts == old(bot.attempts) + Notified(adminIds[..i], db.notificationSettings, n)
      {
        var adminId := adminIds[i];
        var settings := db.GetNotificationSettings(adminId);
        NotifiedStep(adminIds, i, db.notificationSettings, n, old(bot.attempts));
        if settings.NotifyNewUsers() {
          var _ := SendToAdmin(adminId, NewUserText(userId, username), outcomes(adminId));
        }
        i := i + 1;
      }
      assert adminIds[..i] == adminIds;
    }

    /** `notify_successful_order(user_id, username, nickname, price)`. */
    method NotifySuccessfulOrder(userId: int, username: Option<string>, nickname: Option<string>, price: Option<int>,
                                 outcomes: int -> SendOutcome)
      modifies bot
      ensures bot.attempts
        == old(bot.attempts) + Notified(adminIds, db.notificationSettings, OrderNotice(userId, username, nickname, price))
    {
      var n := OrderNotice(userId, username, nickname, price);
      var i := 0;
      while i < |adminIds|
        invariant 0 <= i <= |adminIds|
        invariant bot.attempts == old(bot.attempts) + Notified(adminIds[..i], db.notificationSettings, n)
      {
        var adminId := adminIds[i];
        var settings := db.GetNotificationSettings(adminId);
        NotifiedStep(adminIds, i, db.notificationSettings, n, old(bot.attempts));
        if settings.NotifyOrders() {
          var text := OrderText(userId, username, nickname, price);
          var _ := SendToAdmin(adminId, text, outcomes(adminId));
        }
        i := i + 1;
      }
      assert adminIds[..i] == adminIds;
    }

    /**
     * `notify_abandoned_checkouts_alert(count)`: an admin is alerted iff their
     * toggle is on and `count` is strictly above their own threshold.
     */
    method NotifyAbandonedCheckoutsAlert(count: int, outcomes: int -> SendOutcome)
      modifies bot
      ensures bot.attempts == old(bot.attempts) + Notified(adminIds, db.notificationSettings, AlertNotice(count))
    {
      var n := AlertNotice(count);
      var i := 0;
      while i < |adminIds|
        invariant 0 <= i <= |adminIds|
        invariant bot.attempts == old(bot.attempts) + Notified(adminIds[..i], db.notificationSettings, n)
      {
        var adminId := adminIds[i];
        var settings := db.GetNotificationSettings(adminId);
        NotifiedStep(adminIds, i, db.notificationSettings, n, old(bot.attempts));
        if settings.NotifyAbandoned() {
          var threshold := settings.Threshold();
          if count > threshold {
            AlertNoticeText(settings, count);
            var _ := SendToAdmin(adminId, AlertText(count, threshold), outcomes(adminId));
          }
        }
        i := i + 1;
      }
      assert adminIds[..i] == adminIds;
    }

    /** `send_daily_report(stats)`: every admin is attempted with the same report, whatever their settings. */
    method SendDailyReport(stats: map<StatKey, int>, outcomes: int -> SendOutcome)
      modifies bot
      ensures bot.attempts == old(bot.attempts) + SameTextTo(adminIds, ReportText(stats))
    {
      var text := ReportText(stats);
      var _ := SendToAdmins(text, false, outcomes);
    }
  }
}
