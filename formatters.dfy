/**
 * utils/formatters.py: the HTML texts of the admin panel. Each formatter
 * builds its text by repeated `+=`; the model gives each text as the list of
 * segments appended, in order, and each method builds the concatenation.
 * Dates and times arrive already rendered by `strftime`.
 */
module Formatters {
  import opened Wrappers
  import opened PyText
  import opened Models
  import opened Analytics
  import EventLog

  /**
   * `f"@{username}" if username else f"{head}{user_id}"`: how a user is shown.
   * The formatters write the head "ID " (lines 106 and 191-194), the admin
   * notifications "ID: ".
   */
  function Display(idHead: string, userId: int, username: Option<string>): (r: string)
    ensures Truthy(username) ==> r == "@" + username.value
    ensures !Truthy(username) ==> r == idHead + IntToString(userId)
  {
    if Truthy(username) then "@" + username.value else idHead + IntToString(userId)
  }

  /** The head the formatters put before a bare user id. */
  const IdHead: string := "ID "

  /** The display starts with '@' exactly when there is a username to show. */
  lemma DisplayTag(idHead: string, userId: int, username: Option<string>)
    requires idHead != [] && idHead[0] != '@'
    ensures Display(idHead, userId, username)[0] == '@' <==> Truthy(username)
  {
  }

  // ---------------------------------------------------------------------------
  // format_main_stats
  // ---------------------------------------------------------------------------

  /** `format_main_stats(stats)`: every counter read with default 0. */
  function MainStatsText(stats: map<StatKey, int>): string {
    "📊 <b>Статистика бота</b>\n\n"
      + "👥 Всего пользователей: <b>" + IntToString(StatOr0(stats, TotalUsersKey)) + "</b>\n"
      + "🆕 Новых за 24 часа: <b>" + IntToString(StatOr0(stats, NewUsersKey)) + "</b>\n"
      + "🔁 Запусков сегодня: <b>" + IntToString(StatOr0(stats, RestartsKey)) + "</b>\n\n"
      + "👣 <b>Переходы:</b>\n"
      + "• В группу: " + IntToString(StatOr0(stats, GroupVisitsKey)) + "\n"
      + "• К менеджеру: " + IntToString(StatOr0(stats, ManagerContactsKey)) + "\n\n"
      + "💰 <b>Действия:</b>\n"
      + "• Проверили стоимость ника: " + IntToString(StatOr0(stats, NicknameChecksKey)) + "\n"
      + "• Начали оформление: " + IntToString(StatOr0(stats, CheckoutStartsKey)) + "\n"
      + "• Успешные заказы: " + IntToString(StatOr0(stats, SuccessfulOrdersKey)) + "\n"
      + "• Брошенные оформления: " + IntToString(StatOr0(stats, AbandonedCheckoutsKey))
  }

  method FormatMainStats(stats: map<StatKey, int>) returns (text: string)
    ensures text == MainStatsText(stats)
  {
    text := "📊 <b>Статистика бота</b>\n\n";
    text := text + "👥 Всего пользователей: <b>" + IntToString(StatOr0(stats, TotalUsersKey)) + "</b>\n";
    text := text + "🆕 Новых за 24 часа: <b>" + IntToString(StatOr0(stats, NewUsersKey)) + "</b>\n";
    text := text + "🔁 Запусков сегодня: <b>" + IntToString(StatOr0(stats, RestartsKey)) + "</b>\n\n";
    text := text + "👣 <b>Переходы:</b>\n";
    text := text + "• В группу: " + IntToString(StatOr0(stats, GroupVisitsKey)) + "\n";
    text := text + "• К менеджеру: " + IntToString(StatOr0(stats, ManagerContactsKey)) + "\n\n";
    text := text + "💰 <b>Действия:</b>\n";
    text := text + "• Проверили стоимость ника: " + IntToString(StatOr0(stats, NicknameChecksKey)) + "\n";
    text := text + "• Начали оформление: " + IntToString(StatOr0(stats, CheckoutStartsKey)) + "\n";
    text := text + "• Успешные заказы: " + IntToString(StatOr0(stats, SuccessfulOrdersKey)) + "\n";
    text := text + "• Брошенные оформления: " + IntToString(StatOr0(stats, AbandonedCheckoutsKey));
  }

  /** A missing counter is shown as 0: leaving a key out reads like storing 0 under it. */
  lemma MainStatsMissingIsZero(stats: map<StatKey, int>, k: StatKey)
    requires k !in stats
    ensures MainStatsText(stats) == MainStatsText(stats[k := 0])
  {
    assert forall j: StatKey :: StatOr0(stats, j) == StatOr0(stats[k := 0], j);
  }

  // ---------------------------------------------------------------------------
  // format_event_type_stats
  // ---------------------------------------------------------------------------

  /** The context line added for three of the kinds (lines 222-227). */
  function ContextLine(eventType: string): string {
    if eventType == SuccessfulOrder.Name() then "\n💰 Это успешно завершённые заказы"
    else if eventType == AbandonedCheckout.Name() then "\n⚠️ Пользователи начали, но не завершили оформление"
    else if eventType == CheckNickname.Name() then "\n🔍 Проверки стоимости никнеймов"
    else ""
  }

  /** The context line is there for successful orders, abandoned checkouts and nickname checks, and only for them. */
  lemma ContextLineKinds(eventType: string)
    ensures ContextLine(eventType) != "" <==>
      eventType in {SuccessfulOrder.Name(), AbandonedCheckout.Name(), CheckNickname.Name()}
  {
  }

  /** `format_event_type_stats(stats, event_type)` */
  function EventTypeStatsText(stats: map<string, int>, eventType: string): string {
    GetEmoji(eventType) + " <b>Статистика: " + eventType + "</b>\n\n"
      + "Всего событий: <b>" + IntToString(if eventType in stats then stats[eventType] else 0) + "</b>\n"
      + ContextLine(eventType)
  }

  method FormatEventTypeStats(stats: map<string, int>, eventType: string) returns (text: string)
    ensures text == EventTypeStatsText(stats, eventType)
  {
    var emoji := GetEmoji(eventType);
    var count := if eventType in stats then stats[eventType] else 0;
    text := emoji + " <b>Статистика: " + eventType + "</b>\n\n";
    text := text + "Всего событий: <b>" + IntToString(count) + "</b>\n";
    if eventType == SuccessfulOrder.Name() {
      text := text + "\n💰 Это успешно завершённые заказы";
    } else if eventType == AbandonedCheckout.Name() {
      text := text + "\n⚠️ Пользователи начали, но не завершили оформление";
    } else if eventType == CheckNickname.Name() {
      text := text + "\n🔍 Проверки стоимости никнеймов";
    }
  }

  /** A kind missing from the dictionary is shown with a count of 0 (line 216). */
  lemma EventTypeMissingIsZero(stats: map<string, int>, eventType: string)
    requires eventType !in stats
    ensures EventTypeStatsText(stats, eventType) == EventTypeStatsText(stats[eventType := 0], eventType)
  {
  }

  // ---------------------------------------------------------------------------
  // Loops that append one line per item
  // ---------------------------------------------------------------------------

  /** The segments that `for x in xs: text += f(x)` appends, in order. */
  function Lines<T>(f: T --> string, xs: seq<T>): (r: seq<string>)
    requires forall i :: 0 <= i < |xs| ==> f.requires(xs[i])
    ensures |r| == |xs|
  {
    if xs == [] then [] else Lines(f, xs[..|xs| - 1]) + [f(xs[|xs| - 1])]
  }

  /** Segment i is the line of item i. */
  lemma {:induction false} LinesAt<T>(f: T --> string, xs: seq<T>, i: nat)
    requires forall j :: 0 <= j < |xs| ==> f.requires(xs[j])
    requires i < |xs|
    ensures Lines(f, xs)[i] == f(xs[i])
  {
    var n := |xs| - 1;
    if i < n {
      LinesAt(f, xs[..n], i);
      assert xs[..n][i] == xs[i];
    }
  }

  /** After a prefix, the line of item i sits right after the prefix and i earlier lines. */
  lemma LinesAtOffset<T>(f: T --> string, prefix: seq<string>, xs: seq<T>, i: nat)
    requires forall j :: 0 <= j < |xs| ==> f.requires(xs[j])
    requires i < |xs|
    ensures (prefix + Lines(f, xs))[|prefix| + i] == f(xs[i])
  {
    LinesAt(f, xs, i);
  }

  /** Over the first k items, the line of item i is still at position i. */
  lemma TakeLinesAt<T>(f: T --> string, xs: seq<T>, k: nat, i: nat)
    requires i < k <= |xs|
    requires forall j :: 0 <= j < k ==> f.requires(xs[j])
    ensures Lines(f, xs[..k])[i] == f(xs[i])
  {
    LinesAt(f, xs[..k], i);
    assert xs[..k][i] == xs[i];
  }

  /** One more turn of the loop appends the next item's line to the text. */
  lemma AppendLine<T>(f: T --> string, prefix: seq<string>, xs: seq<T>, i: nat)
    requires forall j :: 0 <= j < |xs| ==> f.requires(xs[j])
    requires i < |xs|
    ensures Concat(prefix + Lines(f, xs[..i + 1])) == Concat(prefix + Lines(f, xs[..i])) + f(xs[i])
  {
    assert xs[..i + 1][..i] == xs[..i];
    assert prefix + Lines(f, xs[..i + 1]) == (prefix + Lines(f, xs[..i])) + [f(xs[i])];
    ConcatAppend(prefix + Lines(f, xs[..i]), f(xs[i]));
  }

  /** Before the loop's first turn the text is the prefix alone. */
  lemma LoopStart<T>(f: T --> string, prefix: seq<string>, xs: seq<T>)
    ensures Concat(prefix + Lines(f, xs[..0])) == Concat(prefix)
  {
    assert prefix + Lines(f, xs[..0]) == prefix;
  }

  /** A text of one segment is that segment. */
  lemma ConcatOne(s: string)
    ensures Concat([s]) == s
  {
    ConcatAppend([], s);
    assert [] + [s] == [s];
  }


  /** A loop `for x in xs: text += f(x)` that starts from the text of `prefix`. */
  method AppendAll<T>(start: string, ghost prefix: seq<string>, f: T --> string, xs: seq<T>) returns (text: string)
    requires forall j :: 0 <= j < |xs| ==> f.requires(xs[j])
    requires start == Concat(prefix)
    ensures text == Concat(prefix + Lines(f, xs))
  {
    text := start;
    LoopStart(f, prefix, xs);
    var i := 0;
    while i < |xs|
      invariant 0 <= i <= |xs|
      invariant text == Concat(prefix + Lines(f, xs[..i]))
    {
      AppendLine(f, prefix, xs, i);
      text := text + f(xs[i]);
      i := i + 1;
    }
    assert xs[..i] == xs;
  }

  /** The segments that `for x in xs: text += f(x); text += g(x)` appends, in order. */
  function LinePairs<T>(f: T -> string, g: T -> string, xs: seq<T>): (r: seq<string>)
    ensures |r| == 2 * |xs|
  {
    if xs == [] then [] else LinePairs(f, g, xs[..|xs| - 1]) + [f(xs[|xs| - 1]), g(xs[|xs| - 1])]
  }

  /** Item i owns segments 2i and 2i + 1. */
  lemma {:induction false} LinePairsAt<T>(f: T -> string, g: T -> string, xs: seq<T>, i: nat)
    requires i < |xs|
    ensures LinePairs(f, g, xs)[2 * i] == f(xs[i]) && LinePairs(f, g, xs)[2 * i + 1] == g(xs[i])
  {
    var n := |xs| - 1;
    if i < n {
      LinePairsAt(f, g, xs[..n], i);
      assert xs[..n][i] == xs[i];
    }
  }

  /** After a prefix, item i owns the two segments that follow the prefix and 2i earlier ones. */
  lemma LinePairsAtOffset<T>(f: T -> string, g: T -> string, prefix: seq<string>, xs: seq<T>, i: nat)
    requires i < |xs|
    ensures (prefix + LinePairs(f, g, xs))[|prefix| + 2 * i] == f(xs[i])
    ensures (prefix + LinePairs(f, g, xs))[|prefix| + 2 * i + 1] == g(xs[i])
  {
    LinePairsAt(f, g, xs, i);
  }

  /** A loop `for x in xs: text += f(x); text += g(x)` that starts from the text of `prefix`. */
  method AppendPairs<T>(start: string, ghost prefix: seq<string>, f: T -> string, g: T -> string, xs: seq<T>)
    returns (text: string)
    requires start == Concat(prefix)
    ensures text == Concat(prefix + LinePairs(f, g, xs))
  {
    text := start;
    assert prefix + LinePairs(f, g, xs[..0]) == prefix;
    var i := 0;
    while i < |xs|
      invariant 0 <= i <= |xs|
      invariant text == Concat(prefix + LinePairs(f, g, xs[..i]))
    {
      ghost var before := prefix + LinePairs(f, g, xs[..i]);
      assert xs[..i + 1][..i] == xs[..i];
      assert prefix + LinePairs(f, g, xs[..i + 1]) == before + [f(xs[i])] + [g(xs[i])];
      ConcatAppend(before, f(xs[i]));
      ConcatAppend(before + [f(xs[i])], g(xs[i]));
      text := text + f(xs[i]);
      text := text + g(xs[i]);
      i := i + 1;
    }
    assert xs[..i] == xs;
  }

  // ---------------------------------------------------------------------------
  // format_user_card
  // ---------------------------------------------------------------------------

  /** `s.upper()` on ASCII letters; other characters are kept. */
  function UpperAscii(s: string): (r: string)
    ensures |r| == |s|
    ensures forall i :: 0 <= i < |s| ==> r[i] == (if 'a' <= s[i] <= 'z' then (s[i] as int - 32) as char else s[i])
  {
    if s == [] then []
    else [if 'a' <= s[0] <= 'z' then (s[0] as int - 32) as char else s[0]] + UpperAscii(s[1..])
  }

  /**
   * The user dictionary of the card: missing keys are None, `event_counts`
   * is its items in order; the two dates come rendered.
   */
  datatype UserCard = UserCard(
    userId: Option<int>,
    username: Option<string>,
    firstSeenText: string,
    lastActivityText: string,
    language: Option<string>,
    eventCounts: seq<(string, int)>)

  /** The five fixed lines of the card, with the defaults user id 0 and language "en". */
  function CardHead(card: UserCard): string {
    var userId := card.userId.GetOr(0);
    "👤 <b>Пользователь:</b> " + Display(IdHead, userId, card.username) + "\n"
      + "🆔 <b>ID:</b> <code>" + IntToString(userId) + "</code>\n"
      + "📅 <b>Регистрация:</b> " + card.firstSeenText + "\n"
      + "⏰ <b>Последняя активность:</b> " + card.lastActivityText + "\n"
      + "🌍 <b>Язык:</b> " + UpperAscii(card.language.GetOr("en")) + "\n\n"
  }

  const CountsHeader: string := "<b>📊 Статистика действий:</b>\n"

  /** `f"{emoji} {event_type}: {count}\n"` */
  function CountLine(item: (string, int)): string {
    GetEmoji(item.0) + " " + item.0 + ": " + IntToString(item.1) + "\n"
  }

  /** The fixed lines, then the section header when there are counts to show. */
  function CardPrefix(card: UserCard): seq<string> {
    if card.eventCounts != [] then [CardHead(card), CountsHeader] else [CardHead(card)]
  }

  /** `format_user_card(user_data)`, segment by segment. */
  function CardSegments(card: UserCard): seq<string> {
    CardPrefix(card) + Lines(CountLine, card.eventCounts)
  }

  method FormatUserCard(card: UserCard) returns (text: string)
    ensures text == Concat(CardSegments(card))
  {
    var userId := card.userId.GetOr(0);
    var userDisplay := Display(IdHead, userId, card.username);
    text := "👤 <b>Пользователь:</b> " + userDisplay + "\n";
    text := text + "🆔 <b>ID:</b> <code>" + IntToString(userId) + "</code>\n";
    text := text + "📅 <b>Регистрация:</b> " + card.firstSeenText + "\n";
    text := text + "⏰ <b>Последняя активность:</b> " + card.lastActivityText + "\n";
    text := text + "🌍 <b>Язык:</b> " + UpperAscii(card.language.GetOr("en")) + "\n\n";
    ConcatOne(CardHead(card));
    var items := card.eventCounts;
    if items != [] {
      ConcatAppend([CardHead(card)], CountsHeader);
      assert [CardHead(card)] + [CountsHeader] == CardPrefix(card);
      text := text + CountsHeader;
      text := AppendAll(text, CardPrefix(card), CountLine, items);
    } else {
      LoopStart(CountLine, CardPrefix(card), items);
      assert items[..0] == items;
    }
  }

  /**
   * The action-statistics section is there iff `event_counts` is non-empty:
   * the card is the fixed lines alone, or those, the section header and one
   * line per item (`CardCountLine`).
   */
  lemma CardSection(card: UserCard)
    ensures card.eventCounts == [] ==> CardSegments(card) == [CardHead(card)]
    ensures card.eventCounts != [] ==>
      |CardSegments(card)| == 2 + |card.eventCounts| && CardSegments(card)[1] == CountsHeader
  {
    if card.eventCounts == [] {
      assert Lines(CountLine, card.eventCounts) == [];
    }
  }

  /** Item i of `event_counts` has line i of the section, with its emoji, kind and count. */
  lemma CardCountLine(card: UserCard, i: nat)
    requires i < |card.eventCounts|
    ensures CardSegments(card)[2 + i] == CountLine(card.eventCounts[i])
  {
    assert |CardPrefix(card)| == 2;
    LinesAtOffset(CountLine, CardPrefix(card), card.eventCounts, i);
  }

  // ---------------------------------------------------------------------------
  // format_user_history
  // ---------------------------------------------------------------------------

  /** An event dictionary of the history: a missing `event_type` is None; the time comes rendered. */
  datatype HistoryEvent = HistoryEvent(timeText: string, eventType: Option<string>, metadata: Metadata)

  const EmptyHistory: string := "История действий пуста"
  const HistoryHeader: string := "<b>История действий:</b>\n\n"
  /** `events[:20]` */
  const HistoryLimit: nat := 20

  /** `f"{value}"` of a metadata value. */
  function Show(v: MetaValue): string {
    match v
    case Text(s) => s
    case Number(n) => IntToString(n)
  }

  /** `format(price, ',')` works on numbers only; a text price raises. */
  predicate PriceIsNumber(m: Metadata) {
    "price" in m ==> m["price"].Number?
  }

  /** The part of the line after the kind (lines 146-154). */
  function Extra(eventType: string, m: Metadata): string
    requires eventType == SuccessfulOrder.Name() ==> PriceIsNumber(m)
  {
    if eventType == CheckNickname.Name() && "nickname" in m then " (" + Show(m["nickname"]) + ")"
    else if eventType == SuccessfulOrder.Name() then
      (if "nickname" in m then " (" + Show(m["nickname"]) + ")" else "")
        + (if "price" in m then " $" + WithThousands(m["price"].number) else "")
    else ""
  }

  /** The kind shown: `event.get('event_type', 'unknown')`. */
  function KindOf(e: HistoryEvent): string {
    e.eventType.GetOr("unknown")
  }

  /** What the history needs of an event to render it: a numeric price on an order. */
  predicate Renderable(e: HistoryEvent) {
    KindOf(e) == SuccessfulOrder.Name() ==> PriceIsNumber(e.metadata)
  }

  /** `f"{emoji} {time_str} — {event_type}{extra_info}\n"` */
  function HistoryLine(e: HistoryEvent): string
    requires Renderable(e)
  {
    var t := KindOf(e);
    GetEmoji(t) + " " + e.timeText + " — " + t + Extra(t, e.metadata) + "\n"
  }


  /** How many events the history shows. */
  function Shown(n: nat): (k: nat)
    ensures k <= HistoryLimit && k <= n
    ensures k == n || k == HistoryLimit
  {
    if n < HistoryLimit then n else HistoryLimit
  }

  /** `f"\n<i>... и ещё {n} событий</i>"` */
  function MoreLine(n: int): string {
    "\n<i>... и ещё " + IntToString(n) + " событий</i>"
  }

  /** The events the history renders must be renderable; the rest are not looked at. */
  predicate HistoryRenderable(events: seq<HistoryEvent>) {
    forall i :: 0 <= i < Shown(|events|) ==> Renderable(events[i])
  }

  /** The closing line, present only when some events were not shown. */
  function More(n: nat): seq<string> {
    if n > HistoryLimit then [MoreLine(n - HistoryLimit)] else []
  }

  /** `format_user_history(events)`, segment by segment. */
  function HistorySegments(events: seq<HistoryEvent>): seq<string>
    requires HistoryRenderable(events)
  {
    if events == [] then [EmptyHistory]
    else [HistoryHeader] + Lines(HistoryLine, events[..Shown(|events|)]) + More(|events|)
  }

  method FormatUserHistory(events: seq<HistoryEvent>) returns (text: string)
    requires HistoryRenderable(events)
    ensures text == Concat(HistorySegments(events))
  {
    if events == [] {
      ConcatOne(EmptyHistory);
      return EmptyHistory;
    }
    text := HistoryHeader;
    ConcatOne(HistoryHeader);
    var shown := events[..Shown(|events|)];
    text := AppendAll(text, [HistoryHeader], HistoryLine, shown);
    if |events| > HistoryLimit {
      ConcatAppend([HistoryHeader] + Lines(HistoryLine, shown), MoreLine(|events| - HistoryLimit));
      text := text + MoreLine(|events| - HistoryLimit);
    } else {
      NothingAppended([HistoryHeader] + Lines(HistoryLine, shown));
    }
  }

  /** Appending no segments leaves the text as it is. */
  lemma NothingAppended(segs: seq<string>)
    ensures Concat(segs + []) == Concat(segs)
  {
    assert segs + [] == segs;
  }

  /**
   * The shape of a non-empty history: the header, one line for each of the
   * first min(n, 20) events (`HistoryLineAt`), and the "and N more" line
   * exactly when n > 20, with N = n - 20; so every event is either shown or
   * counted.
   */
  lemma HistoryShape(events: seq<HistoryEvent>)
    requires HistoryRenderable(events) && events != []
    ensures var segs := HistorySegments(events);
      var k := Shown(|events|);
      && k <= HistoryLimit
      && segs[0] == HistoryHeader
      && |segs| == 1 + k + (if |events| > HistoryLimit then 1 else 0)
      && (|events| > HistoryLimit ==> segs[|segs| - 1] == MoreLine(|events| - HistoryLimit))
      && k + (if |events| > HistoryLimit then |events| - HistoryLimit else 0) == |events|
  {
  }

  /** Event i, among the first 20, has line i of the history. */
  lemma HistoryLineAt(events: seq<HistoryEvent>, i: nat)
    requires HistoryRenderable(events) && i < Shown(|events|)
    ensures HistorySegments(events)[1 + i] == HistoryLine(events[i])
  {
    TakeLinesAt(HistoryLine, events, Shown(|events|), i);
  }

  /** A history of no events is the one fixed sentence. */
  lemma HistoryEmpty()
    ensures Concat(HistorySegments([])) == EmptyHistory
  {
    ConcatOne(EmptyHistory);
  }

  /** Only nickname checks and orders get extra information. */
  lemma ExtraOnlyForTwoKinds(eventType: string, m: Metadata)
    requires eventType != CheckNickname.Name() && eventType != SuccessfulOrder.Name()
    ensures Extra(eventType, m) == ""
  {
  }

  /** A nickname check as the event logger records it shows its nickname in brackets. */
  lemma LoggedCheckShowsNickname(nickname: string, priceRange: Option<(int, int)>)
    ensures Extra(CheckNickname.Name(), EventLog.CheckNicknameMetadata(nickname, priceRange)) == " (" + nickname + ")"
  {
  }

  /**
   * An order as the event logger records it shows the nickname when it was
   * truthy and the price, with thousands separators, when it was truthy.
   */
  lemma LoggedOrderShowsNicknameAndPrice(nickname: Option<string>, price: Option<int>)
    ensures var m := EventLog.SuccessfulOrderMetadata(nickname, price);
      && PriceIsNumber(m)
      && Extra(SuccessfulOrder.Name(), m)
        == (if Truthy(nickname) then " (" + nickname.value + ")" else "")
         + (if TruthyInt(price) then " $" + WithThousands(price.value) else "")
  {
    assert SuccessfulOrder.Name() != CheckNickname.Name() by {
      assert SuccessfulOrder.Name()[0] != CheckNickname.Name()[0];
    }
  }

  // ---------------------------------------------------------------------------
  // format_users_list
  // ---------------------------------------------------------------------------

  /** The users dictionary of the list; missing keys are None. */
  datatype UsersData = UsersData(users: Option<seq<UserEntry>>, page: Option<int>, totalPages: Option<int>, totalCount: Option<int>)

  /** The dictionary `get_users_list` returns, as the list reads it. */
  function FromPage(p: UsersPage): (d: UsersData)
    ensures d.users == Some(p.users) && d.page == Some(p.page)
    ensures d.totalPages == Some(p.totalPages) && d.totalCount == Some(p.totalCount)
  {
    UsersData(Some(p.users), Some(p.page), Some(p.totalPages), Some(p.totalCount))
  }

  const NoUsers: string := "Пользователей не найдено"

  /** The two header lines, with the defaults page 1 of 1 and a total of 0. */
  function UsersHeader(d: UsersData): string {
    "👥 <b>Список пользователей</b>\n"
      + "<i>Страница " + IntToString(d.page.GetOr(1)) + " из " + IntToString(d.totalPages.GetOr(1))
      + " (всего: " + IntToString(d.totalCount.GetOr(0)) + ")</i>\n\n"
  }

  /** `f"• {user_display}\n"` */
  function DisplayLine(u: UserEntry): string {
    "• " + Display(IdHead, u.userId.GetOr(0), u.username) + "\n"
  }

  /** `f"  └ Активность: {activity_str} | События: {total_events}\n"` */
  function ActivityLine(u: UserEntry): string {
    "  └ Активность: " + u.activityText + " | События: " + IntToString(u.totalEvents.GetOr(0)) + "\n"
  }

  /** `format_users_list(users_data)`, segment by segment: two lines per user. */
  function UsersSegments(d: UsersData): seq<string> {
    UsersPrefix(d) + LinePairs(DisplayLine, ActivityLine, d.users.GetOr([]))
  }

  /** The header, then the "no users" line when there is nobody to list. */
  function UsersPrefix(d: UsersData): seq<string> {
    if d.users.GetOr([]) == [] then [UsersHeader(d), NoUsers] else [UsersHeader(d)]
  }

  method FormatUsersList(d: UsersData) returns (text: string)
    ensures text == Concat(UsersSegments(d))
  {
    var users := d.users.GetOr([]);
    text := "👥 <b>Список пользователей</b>\n";
    text := text + "<i>Страница " + IntToString(d.page.GetOr(1)) + " из " + IntToString(d.totalPages.GetOr(1))
      + " (всего: " + IntToString(d.totalCount.GetOr(0)) + ")</i>\n\n";
    ConcatOne(UsersHeader(d));
    if users == [] {
      ConcatAppend([UsersHeader(d)], NoUsers);
      assert UsersSegments(d) == [UsersHeader(d)] + [NoUsers];
      return text + NoUsers;
    }
    text := AppendPairs(text, UsersPrefix(d), DisplayLine, ActivityLine, users);
  }

  /** An empty list is the header and the "no users" line. */
  lemma UsersListEmpty(d: UsersData)
    requires d.users.GetOr([]) == []
    ensures UsersSegments(d) == [UsersHeader(d), NoUsers]
  {
    assert LinePairs(DisplayLine, ActivityLine, d.users.GetOr([])) == [];
  }

  /** A non-empty list is the header and two lines per user (`UserLinesAt`). */
  lemma UsersListShape(d: UsersData)
    requires d.users.GetOr([]) != []
    ensures UsersSegments(d)[0] == UsersHeader(d)
    ensures |UsersSegments(d)| == 1 + 2 * |d.users.GetOr([])|
  {
  }

  /** User i of the list, in order, has lines 2i + 1 and 2i + 2: its display line, then its activity line. */
  lemma UserLinesAt(d: UsersData, i: nat)
    requires i < |d.users.GetOr([])|
    ensures UsersSegments(d)[1 + 2 * i] == DisplayLine(d.users.GetOr([])[i])
    ensures UsersSegments(d)[2 + 2 * i] == ActivityLine(d.users.GetOr([])[i])
  {
    assert |UsersPrefix(d)| == 1;
    LinePairsAtOffset(DisplayLine, ActivityLine, UsersPrefix(d), d.users.GetOr([]), i);
  }

  /** The display line of user i shows "@username", or "ID <id>" when there is no username. */
  lemma UserDisplayAt(d: UsersData, i: nat)
    requires i < |d.users.GetOr([])|
    ensures var u := d.users.GetOr([])[i];
      UsersSegments(d)[1 + 2 * i] == "• " + Display(IdHead, u.userId.GetOr(0), u.username) + "\n"
  {
    UserLinesAt(d, i);
  }
}
