/**
 * keyboards/admin_keyboards.py: the inline keyboards of the admin panel, as
 * rows of (text, callback data) buttons. Every callback carries the `admin_`
 * prefix, so the admin gate stands in front of every button.
 */
module AdminKeyboards {
  import opened Wrappers
  import opened PyText
  import opened Models
  import AdminGate
  import Notifications

  datatype Button = Button(text: string, callbackData: string)

  /** The rows of an inline keyboard, top to bottom. */
  type Keyboard = seq<seq<Button>>

  /** `admin_main` */
  const MainCallback: string := AdminGate.CallbackPrefix + "main"
  /** `admin_users_list:` */
  const UsersListPrefix: string := AdminGate.CallbackPrefix + "users_list:"
  /** `admin_event_` */
  const EventPrefix: string := AdminGate.CallbackPrefix + "event_"

  /** `f"admin_users_list:{page}"` */
  function UsersListCallback(page: int): (c: string)
    ensures StartsWith(c, UsersListPrefix)
  {
    assert (UsersListPrefix + IntToString(page))[..|UsersListPrefix|] == UsersListPrefix;
    UsersListPrefix + IntToString(page)
  }

  /** What the users-list handler reads back from the callback: the number after the prefix. */
  function PageOf(callbackData: string): (r: Option<int>)
    ensures r.Some? ==> StartsWith(callbackData, UsersListPrefix)
  {
    if StartsWith(callbackData, UsersListPrefix) then PyInt(callbackData[|UsersListPrefix|..]) else None
  }

  /** A page callback names the page it was built for. */
  lemma PageCallbackRoundTrip(page: int)
    ensures PageOf(UsersListCallback(page)) == Some(page)
  {
    var c := UsersListCallback(page);
    assert c[|UsersListPrefix|..] == IntToString(page);
    PyIntOfIntToString(page);
  }

  // ---------------------------------------------------------------------------
  // get_users_pagination
  // ---------------------------------------------------------------------------

  const PrevText: string := "⬅️"
  const NextText: string := "➡️"
  const CurrentCallback: string := AdminGate.CallbackPrefix + "users_current"
  const BackToMenu: Button := Button("🔙 Назад в меню", MainCallback)

  /** `f"{page}/{total_pages}"` */
  function PageIndicator(page: int, totalPages: int): Button {
    Button(IntToString(page) + "/" + IntToString(totalPages), CurrentCallback)
  }

  /**
   * `get_users_pagination(page, total_pages)`: one navigation row (previous
   * when there is a page before, the indicator, next when there is a page
   * after) and the back row.
   */
  method UsersPagination(page: int, totalPages: int) returns (k: Keyboard)
    ensures |k| == 2 && k[1] == [BackToMenu]
    ensures |k[0]| == 1 + (if page > 1 then 1 else 0) + (if page < totalPages then 1 else 0)
    ensures page > 1 <==> k[0][0].text == PrevText
    ensures page > 1 ==> k[0][0] == Button(PrevText, UsersListCallback(page - 1))
    ensures k[0][if page > 1 then 1 else 0] == PageIndicator(page, totalPages)
    ensures page < totalPages <==> k[0][|k[0]| - 1].text == NextText
    ensures page < totalPages ==> k[0][|k[0]| - 1] == Button(NextText, UsersListCallback(page + 1))
  {
    var buttons: seq<Button> := [];
    if page > 1 {
      buttons := buttons + [Button(PrevText, UsersListCallback(page - 1))];
    }
    buttons := buttons + [PageIndicator(page, totalPages)];
    if page < totalPages {
      buttons := buttons + [Button(NextText, UsersListCallback(page + 1))];
    }
    assert PrevText[0] != IntToString(page)[0] && NextText[0] != IntToString(totalPages)[0];
    assert PrevText != NextText by { assert PrevText[0] != NextText[0]; }
    k := [buttons, [BackToMenu]];
  }

  /** From a page inside 1..total, the arrows lead to pages inside 1..total. */
  lemma ArrowsStayInRange(page: int, totalPages: int)
    requires 1 <= page <= totalPages
    ensures page > 1 ==> 1 <= page - 1 <= totalPages
    ensures page < totalPages ==> 1 <= page + 1 <= totalPages
  {
  }

  // ---------------------------------------------------------------------------
  // get_events_menu
  // ---------------------------------------------------------------------------

  /** The event buttons, top to bottom: label and kind. `exit_without_action` has none. */
  const EventEntries: seq<(string, EventType)> := [
    ("🎉 Первые запуски", FirstStart),
    ("🔄 Повторные запуски", BotRestart),
    ("👥 Переходы в группу", GoToGroup),
    ("💬 Обращения к менеджеру", ContactManager),
    ("🔍 Проверки ника", CheckNickname),
    ("🛒 Начало оформления", StartCheckout),
    ("✅ Успешные заказы", SuccessfulOrder),
    ("⚠️ Брошенные оформления", AbandonedCheckout)
  ]

  const BackButton: Button := Button("🔙 Назад", MainCallback)

  /** One row per (label, kind) entry, then the back row. */
  function MenuOf(entries: seq<(string, EventType)>): (k: Keyboard)
    ensures |k| == |entries| + 1 && k[|entries|] == [BackButton]
    ensures forall i :: 0 <= i < |entries| ==> k[i] == [Button(entries[i].0, EventPrefix + entries[i].1.Name())]
  {
    seq(|entries|, i requires 0 <= i < |entries| => [Button(entries[i].0, EventPrefix + entries[i].1.Name())])
      + [[BackButton]]
  }

  /** `get_events_menu()` */
  function EventsMenu(): (k: Keyboard)
    ensures |k| == 9
    ensures forall i :: 0 <= i < |EventEntries| ==> k[i] == [Button(EventEntries[i].0, EventPrefix + EventEntries[i].1.Name())]
  {
    MenuOf(EventEntries)
  }

  /** Every kind but `exit_without_action` has a button, and that one has none. */
  lemma EventsMenuCovers(t: EventType)
    ensures t != ExitWithoutAction <==> exists i :: 0 <= i < |EventEntries| && EventEntries[i].1 == t
  {
    match t
    case FirstStart => assert EventEntries[0].1 == t;
    case BotRestart => assert EventEntries[1].1 == t;
    case GoToGroup => assert EventEntries[2].1 == t;
    case ContactManager => assert EventEntries[3].1 == t;
    case CheckNickname => assert EventEntries[4].1 == t;
    case ExitWithoutAction =>
    case StartCheckout => assert EventEntries[5].1 == t;
    case SuccessfulOrder => assert EventEntries[6].1 == t;
    case AbandonedCheckout => assert EventEntries[7].1 == t;
  }

  /** The event handler recovers the kind from a button's callback by dropping the prefix. */
  lemma EventCallbackNamesKind(i: nat)
    requires i < |EventEntries|
    ensures var c := EventsMenu()[i][0].callbackData;
      StartsWith(c, EventPrefix) && ParseEventType(c[|EventPrefix|..]) == Some(EventEntries[i].1)
  {
    var t := EventEntries[i].1;
    var c := EventPrefix + t.Name();
    assert c[..|EventPrefix|] == EventPrefix && c[|EventPrefix|..] == t.Name();
    ParseName(t);
  }

  // ---------------------------------------------------------------------------
  // get_notifications_settings_keyboard
  // ---------------------------------------------------------------------------

  /** `"✅" if flag else "❌"` */
  function StatusMark(flag: bool): (m: string)
    ensures |m| == 1
  {
    if flag then "✅" else "❌"
  }

  const NewUsersLabel: string := " Новые пользователи"
  const OrdersLabel: string := " Заказы"
  const AbandonedLabel: string := " Брошенные оформления"
  const ThresholdLabel: string := "Порог: "

  /**
   * `get_notifications_settings_keyboard(settings)`: three toggles whose mark
   * reads the setting with default True, the threshold with default 10, and
   * the back row.
   */
  function NotificationsKeyboard(s: SettingsDict): (k: Keyboard)
    ensures |k| == 5 && forall i :: 0 <= i < 5 ==> |k[i]| == 1
    ensures k[0][0] == Button(StatusMark(s.NotifyNewUsers()) + NewUsersLabel, AdminGate.CallbackPrefix + "notif_toggle_new_users")
    ensures k[1][0] == Button(StatusMark(s.NotifyOrders()) + OrdersLabel, AdminGate.CallbackPrefix + "notif_toggle_orders")
    ensures k[2][0] == Button(StatusMark(s.NotifyAbandoned()) + AbandonedLabel, AdminGate.CallbackPrefix + "notif_toggle_abandoned")
    ensures k[3][0] == Button(ThresholdLabel + IntToString(s.Threshold()), AdminGate.CallbackPrefix + "notif_threshold")
    ensures k[4] == [BackButton]
  {
    [
      [Button(StatusMark(s.NotifyNewUsers()) + NewUsersLabel, AdminGate.CallbackPrefix + "notif_toggle_new_users")],
      [Button(StatusMark(s.NotifyOrders()) + OrdersLabel, AdminGate.CallbackPrefix + "notif_toggle_orders")],
      [Button(StatusMark(s.NotifyAbandoned()) + AbandonedLabel, AdminGate.CallbackPrefix + "notif_toggle_abandoned")],
      [Button(ThresholdLabel + IntToString(s.Threshold()), AdminGate.CallbackPrefix + "notif_threshold")],
      [BackButton]
    ]
  }

  /**
   * The keyboard shows what the notifier does: a toggle is ticked exactly when
   * the admin receives that kind of notice, and the threshold shown is the
   * one an alert count must exceed.
   */
  lemma {:induction false} KeyboardShowsNotifierSettings(s: SettingsDict, userId: int, username: Option<string>,
                                                         nickname: Option<string>, price: Option<int>, count: int)
    ensures var k := NotificationsKeyboard(s);
      && (k[0][0].text[0] == '✅' <==> Notifications.Wants(s, Notifications.NewUserNotice(userId, username)))
      && (k[1][0].text[0] == '✅' <==> Notifications.Wants(s, Notifications.OrderNotice(userId, username, nickname, price)))
      && PyInt(k[3][0].text[|ThresholdLabel|..]) == Some(s.Threshold())
      && (s.NotifyAbandoned() ==> (Notifications.Wants(s, Notifications.AlertNotice(count)) <==> count > s.Threshold()))
  {
    var k: Keyboard := NotificationsKeyboard(s);
    assert k[3][0].text[|ThresholdLabel|..] == IntToString(s.Threshold());
    PyIntOfIntToString(s.Threshold());
  }

  /** With no stored settings every toggle is ticked and the threshold reads 10. */
  lemma EmptySettingsKeyboard()
    ensures var k := NotificationsKeyboard(EmptySettings);
      k[0][0].text[0] == '✅' && k[1][0].text[0] == '✅' && k[2][0].text[0] == '✅'
      && k[3][0].text == ThresholdLabel + IntToString(10)
  {
  }

  // ---------------------------------------------------------------------------
  // Every button is behind the admin gate
  // ---------------------------------------------------------------------------

  /** The callbacks of a keyboard all start with `admin_`. */
  predicate Gated(k: Keyboard) {
    forall i, j :: 0 <= i < |k| && 0 <= j < |k[i]| ==> StartsWith(k[i][j].callbackData, AdminGate.CallbackPrefix)
  }

  /** A callback built on the `admin_` prefix starts with it. */
  lemma PrefixedStarts(rest: string)
    ensures StartsWith(AdminGate.CallbackPrefix + rest, AdminGate.CallbackPrefix)
  {
    assert (AdminGate.CallbackPrefix + rest)[..|AdminGate.CallbackPrefix|] == AdminGate.CallbackPrefix;
  }

  /** Every button of an events menu is an admin action: a non-admin who presses one is turned away by the gate. */
  lemma {:induction false} MenuGated(entries: seq<(string, EventType)>)
    ensures Gated(MenuOf(entries))
  {
    var k: Keyboard := MenuOf(entries);
    PrefixedStarts("main");
    forall i, j | 0 <= i < |k| && 0 <= j < |k[i]| ensures StartsWith(k[i][j].callbackData, AdminGate.CallbackPrefix) {
      if i < |entries| {
        var name := entries[i].1.Name();
        assert EventPrefix + name == AdminGate.CallbackPrefix + ("event_" + name);
        PrefixedStarts("event_" + name);
      }
    }
  }

  lemma EventsMenuGated()
    ensures Gated(EventsMenu())
  {
    MenuGated(EventEntries);
  }

  /** Every button of the settings keyboard is an admin action too. */
  lemma {:induction false} NotificationsKeyboardGated(s: SettingsDict)
    ensures Gated(NotificationsKeyboard(s))
  {
    PrefixedStarts("main");
    PrefixedStarts("notif_toggle_new_users");
    PrefixedStarts("notif_toggle_orders");
    PrefixedStarts("notif_toggle_abandoned");
    PrefixedStarts("notif_threshold");
  }

  /** And every button of the pagination keyboard. */
  lemma {:induction false} UsersPaginationGated(k: Keyboard, page: int, totalPages: int)
    requires |k| == 2 && k[1] == [BackToMenu]
    requires forall j :: 0 <= j < |k[0]| ==>
      k[0][j] in {Button(PrevText, UsersListCallback(page - 1)), PageIndicator(page, totalPages), Button(NextText, UsersListCallback(page + 1))}
    ensures Gated(k)
  {
    PrefixedStarts("main");
    PrefixedStarts("users_current");
    PageCallbackGated(page - 1);
    PageCallbackGated(page + 1);
  }

  /** A page callback starts with `admin_`. */
  lemma PageCallbackGated(page: int)
    ensures StartsWith(UsersListCallback(page), AdminGate.CallbackPrefix)
  {
    var c := UsersListCallback(page);
    assert c[..|AdminGate.CallbackPrefix|] == UsersListPrefix[..|AdminGate.CallbackPrefix|];
  }
}
