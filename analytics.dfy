/**
 * services/analytics.py: counts over the event log and the users table.
 * Timestamps are microseconds; a date is a day number, day d covering the
 * timestamps from d * DayUs (00:00) to d * DayUs + DayUs - 1 (23:59:59.999999).
 */
module Analytics {
  import opened Wrappers
  import opened Models
  import opened Db

  const HourUs: int := 3_600_000_000
  const DayUs: int := 86_400_000_000

  /** `datetime.combine(day, datetime.min.time())` */
  function DayStart(day: int): int {
    day * 86_400_000_000
  }

  /** `datetime.combine(day, datetime.max.time())` */
  function DayEnd(day: int): int {
    day * 86_400_000_000 + 86_400_000_000 - 1
  }

  /** The window of a date holds exactly the timestamps that fall on that date. */
  lemma WholeDay(day: int, ts: int)
    ensures DayStart(day) <= ts <= DayEnd(day) <==> ts / DayUs == day
  {
    var q := ts / DayUs;
    assert q * 86_400_000_000 <= ts < q * 86_400_000_000 + 86_400_000_000;
    if q < day {
      assert q * 86_400_000_000 + 86_400_000_000 <= day * 86_400_000_000;
    } else if q > day {
      assert day * 86_400_000_000 + 86_400_000_000 <= q * 86_400_000_000;
    }
  }

  /** The next day starts right after the end of this one. */
  lemma DaysAdjacent(day: int)
    ensures DayEnd(day) + 1 == DayStart(day + 1)
    ensures DayStart(day) <= DayEnd(day)
  {
  }

  /** The start of the day `now` falls on: `now.replace(hour=0, minute=0, second=0, microsecond=0)`. */
  function TodayStart(now: int): (r: int)
    ensures r <= now < r + DayUs
  {
    WholeDay(now / DayUs, now);
    DayStart(now / DayUs)
  }

  // ---------------------------------------------------------------------------
  // Counts over windows
  // ---------------------------------------------------------------------------

  /** A wider window counts at least as many events. */
  lemma {:induction false} EventCountMonotone(events: seq<Event>, eventType: string, s1: int, e1: int, s2: int, e2: int)
    requires s2 <= s1 && e1 <= e2
    ensures EventCount(events, eventType, s1, e1) <= EventCount(events, eventType, s2, e2)
  {
    if events != [] {
      EventCountMonotone(events[..|events| - 1], eventType, s1, e1, s2, e2);
    }
  }

  /** A window cut in two counts the events of both halves. */
  lemma {:induction false} EventCountSplit(events: seq<Event>, eventType: string, a: int, b: int, c: int)
    requires a <= b + 1 && b <= c
    ensures EventCount(events, eventType, a, c) == EventCount(events, eventType, a, b) + EventCount(events, eventType, b + 1, c)
  {
    if events != [] {
      EventCountSplit(events[..|events| - 1], eventType, a, b, c);
    }
  }

  /** The events of a type counted day by day over the days [first, last]. */
  function DailyTotal(events: seq<Event>, eventType: string, first: int, last: int): nat
    decreases last - first
  {
    if last < first then 0
    else DailyTotal(events, eventType, first, last - 1) + EventCount(events, eventType, DayStart(last), DayEnd(last))
  }

  /**
   * The count of a period equals the sum of the counts of its days: period
   * stats aggregate date stats, with no timestamp lost between two days.
   */
  lemma {:induction false} PeriodIsSumOfDays(events: seq<Event>, eventType: string, first: int, last: int)
    requires first <= last
    ensures EventCount(events, eventType, DayStart(first), DayEnd(last)) == DailyTotal(events, eventType, first, last)
    decreases last - first
  {
    if first < last {
      PeriodIsSumOfDays(events, eventType, first, last - 1);
      DaysAdjacent(last - 1);
      EventCountSplit(events, eventType, DayStart(first), DayEnd(last - 1), DayEnd(last));
    } else {
      assert DailyTotal(events, eventType, first, last - 1) == 0;
    }
  }

  /** A period whose end date is before its start date counts nothing. */
  lemma ReversedPeriodEmpty(events: seq<Event>, eventType: string, first: int, last: int)
    requires last < first
    ensures EventCount(events, eventType, DayStart(first), DayEnd(last)) == 0
  {
    assert DayEnd(last) < DayStart(first);
    EventCountZero(events, eventType, DayStart(first), DayEnd(last));
  }

  // ---------------------------------------------------------------------------
  // Stats dictionaries
  // ---------------------------------------------------------------------------

  /** A value of a stats dictionary: a date, or a count. */
  datatype StatValue = DayValue(day: int) | CountValue(count: nat)

  /** The keys the date and period dictionaries add before the event counts. */
  lemma FixedKeysAreNoTypes()
    ensures "date" !in AllTypes() && "new_users" !in AllTypes()
    ensures "start_date" !in AllTypes() && "end_date" !in AllTypes()
  {
    ParseUnknown("date");
    ParseUnknown("new_users");
    ParseUnknown("start_date");
    ParseUnknown("end_date");
  }

  /** `offset = (page - 1) * page_size` */
  function PageOffset(page: int, pageSize: int): int {
    (page - 1) * pageSize
  }

  /** Python's `//`: the floor of the quotient, for either sign of the divisor. */
  function FloorDiv(a: int, b: int): int
    requires b != 0
  {
    if b > 0 then a / b else (-a) / (-b)
  }

  /** `//` is the floor: the quotient times the divisor is the last multiple not past `a`. */
  lemma FloorDivIsFloor(a: int, b: int)
    requires b != 0
    ensures b > 0 ==> FloorDiv(a, b) * b <= a < (FloorDiv(a, b) + 1) * b
    ensures b < 0 ==> (FloorDiv(a, b) + 1) * b < a <= FloorDiv(a, b) * b
  {
    if b < 0 {
      var q, r := (-a) / (-b), (-a) % (-b);
      assert q * (-b) + r == -a;
      assert (q + 1) * b == q * b + b;
    } else {
      var q, r := a / b, a % b;
      assert q * b + r == a;
      assert (q + 1) * b == q * b + b;
    }
  }

  /** `(total_count + page_size - 1) // page_size` */
  function PageCount(total: int, pageSize: int): int
    requires pageSize != 0
  {
    FloorDiv(total + pageSize - 1, pageSize)
  }

  /**
   * For a positive page size the page count is the ceiling of
   * total / page_size: the pages hold every user and the last page is not empty.
   */
  lemma PageCountIsCeiling(total: nat, pageSize: int)
    requires pageSize > 0
    ensures var p := PageCount(total, pageSize);
      && (p - 1) * pageSize < total <= p * pageSize
      && (p == 0 <==> total == 0)
      && p >= 0
  {
    var n := total + pageSize - 1;
    var p := n / pageSize;
    var r := n % pageSize;
    assert p * pageSize + r == n;
    assert (p - 1) * pageSize == p * pageSize - pageSize;
  }

  /** A row of `get_users_list` as the formatter reads it; each key may be missing. */
  datatype UserEntry = UserEntry(userId: Option<int>, username: Option<string>, activityText: string, totalEvents: Option<int>)

  /** `{'users': .., 'total_count': .., 'page': .., 'page_size': .., 'total_pages': ..}` */
  datatype UsersPage = UsersPage(users: seq<UserEntry>, totalCount: int, page: int, pageSize: int, totalPages: int)

  /** The error `//` raises for a page size of 0. */
  const ZeroDivision: string := "ZeroDivisionError"

  /** `check_abandoned_checkouts_alert`'s decision: the count when it is strictly above the threshold. */
  function AlertCount(count: int, threshold: int): (r: Option<int>)
    ensures r == Some(count) <==> count > threshold
    ensures r == None <==> count <= threshold
  {
    if count > threshold then Some(count) else None
  }

  /** The keys of the `get_main_stats` dictionary. */
  datatype StatKey =
    | TotalUsersKey | NewUsersKey | RestartsKey | GroupVisitsKey | ManagerContactsKey
    | NicknameChecksKey | CheckoutStartsKey | SuccessfulOrdersKey | AbandonedCheckoutsKey
  {
    /** The key as spelled in the dictionary. */
    function Name(): string {
      match this
      case TotalUsersKey => "total_users"
      case NewUsersKey => "new_users_24h"
      case RestartsKey => "restarts_today"
      case GroupVisitsKey => "group_visits"
      case ManagerContactsKey => "manager_contacts"
      case NicknameChecksKey => "nickname_checks"
      case CheckoutStartsKey => "checkout_starts"
      case SuccessfulOrdersKey => "successful_orders"
      case AbandonedCheckoutsKey => "abandoned_checkouts"
    }
  }

  /** The nine keys. */
  const AllStatKeys: set<StatKey> := {
    TotalUsersKey, NewUsersKey, RestartsKey, GroupVisitsKey, ManagerContactsKey,
    NicknameChecksKey, CheckoutStartsKey, SuccessfulOrdersKey, AbandonedCheckoutsKey
  }

  /** The set lists every key. */
  lemma StatKeysComplete()
    ensures forall k: StatKey :: k in AllStatKeys
  {
    forall k: StatKey ensures k in AllStatKeys {
      match k
      case TotalUsersKey =>
      case NewUsersKey =>
      case RestartsKey =>
      case GroupVisitsKey =>
      case ManagerContactsKey =>
      case NicknameChecksKey =>
      case CheckoutStartsKey =>
      case SuccessfulOrdersKey =>
      case AbandonedCheckoutsKey =>
    }
  }

  /** `stats.get(key, 0)` */
  function StatOr0(stats: map<StatKey, int>, key: StatKey): (r: int)
    ensures key !in stats ==> r == 0
    ensures key in stats ==> r == stats[key]
  {
    if key in stats then stats[key] else 0
  }

  class AnalyticsService {
    const db: Database

    constructor(db: Database)
      ensures this.db == db
    {
      this.db := db;
    }

    /** Lines 91-93 and 111-113: one count per event type over [start, end], added to `stats0`. */
    method AddTypeCounts(stats0: map<string, StatValue>, start: int, end: int) returns (stats: map<string, StatValue>)
      ensures forall k :: k in stats <==> k in stats0 || k in AllTypes()
      ensures forall t :: t in AllTypes() ==> stats[t] == CountValue(EventCount(db.events, t, start, end))
      ensures forall k :: k in stats0 && k !in AllTypes() ==> stats[k] == stats0[k]
    {
      var types := AllTypes();
      stats := stats0;
      var i := 0;
      while i < |types|
        invariant 0 <= i <= |types|
        invariant forall k :: k in stats <==> k in stats0 || k in types[..i]
        invariant forall t :: t in types[..i] ==> stats[t] == CountValue(EventCount(db.events, t, start, end))
        invariant forall k :: k in stats0 && k !in types[..i] ==> stats[k] == stats0[k]
      {
        var count := db.GetEventCount(types[i], start, end);
        stats := stats[types[i] := CountValue(count)];
        assert types[..i + 1] == types[..i] + [types[i]];
        i := i + 1;
      }
      assert types[..i] == types;
    }

    /**
     * `get_stats_by_date(day)`: the date, the users who joined that day, and one
     * count per event type, all over the whole day.
     */
    method GetStatsByDate(day: int) returns (stats: map<string, StatValue>)
      ensures forall k :: k in stats <==> k == "date" || k == "new_users" || k in AllTypes()
      ensures stats["date"] == DayValue(day)
      ensures stats["new_users"] == CountValue(|JoinedBetween(db.users, DayStart(day), DayEnd(day))|)
      ensures forall t :: t in AllTypes() ==> stats[t] == CountValue(EventCount(db.events, t, DayStart(day), DayEnd(day)))
    {
      var start, end := DayStart(day), DayEnd(day);
      var newUsers := db.NewUsers(start, end);
      FixedKeysAreNoTypes();
      stats := AddTypeCounts(map["date" := DayValue(day), "new_users" := CountValue(newUsers)], start, end);
    }

    /**
     * `get_stats_for_period(first, last)`: both dates, the users who joined in
     * the period, and one count per event type, from the start of `first` to
     * the end of `last`.
     */
    method GetStatsForPeriod(first: int, last: int) returns (stats: map<string, StatValue>)
      ensures forall k :: k in stats <==> k == "start_date" || k == "end_date" || k == "new_users" || k in AllTypes()
      ensures stats["start_date"] == DayValue(first) && stats["end_date"] == DayValue(last)
      ensures stats["new_users"] == CountValue(|JoinedBetween(db.users, DayStart(first), DayEnd(last))|)
      ensures forall t :: t in AllTypes() ==> stats[t] == CountValue(EventCount(db.events, t, DayStart(first), DayEnd(last)))
    {
      var start, end := DayStart(first), DayEnd(last);
      var newUsers := db.NewUsers(start, end);
      FixedKeysAreNoTypes();
      stats := AddTypeCounts(map["start_date" := DayValue(first), "end_date" := DayValue(last), "new_users" := CountValue(newUsers)], start, end);
    }

    /**
     * `get_users_list(page, page_size)`; `listing(limit, offset)` answers the
     * store query. A page size of 0 raises at the ceiling division.
     */
    function GetUsersList(page: int, pageSize: int, listing: (int, int) -> seq<UserEntry>): (r: Result<UsersPage, string>)
      reads db
      ensures r.Failure? <==> pageSize == 0
      ensures r.Failure? ==> r.error == ZeroDivision
      ensures r.Success? ==> r.value.users == listing(pageSize, (page - 1) * pageSize)
      ensures r.Success? ==> r.value.totalCount == |db.users| && r.value.page == page && r.value.pageSize == pageSize
      ensures r.Success? && pageSize > 0 ==>
        (r.value.totalPages - 1) * pageSize < r.value.totalCount <= r.value.totalPages * pageSize
      ensures r.Success? && pageSize < 0 ==>
        (r.value.totalPages + 1) * pageSize < r.value.totalCount + pageSize - 1 <= r.value.totalPages * pageSize
    {
      var users := listing(pageSize, PageOffset(page, pageSize));
      var totalCount := db.TotalUsers();
      if pageSize == 0 then Failure(ZeroDivision)
      else if pageSize < 0 then
        FloorDivIsFloor(totalCount + pageSize - 1, pageSize);
        Success(UsersPage(users, totalCount, page, pageSize, PageCount(totalCount, pageSize)))
      else
        PageCountIsCeiling(totalCount, pageSize);
        Success(UsersPage(users, totalCount, page, pageSize, PageCount(totalCount, pageSize)))
    }

    /** `check_abandoned_checkouts_alert(threshold)` over the hour before `now`. */
    function CheckAbandonedCheckoutsAlert(threshold: int, now: int): (r: Option<int>)
      reads db
      ensures var count := EventCount(db.events, AbandonedCheckout.Name(), now - HourUs, now);
        && (r == Some(count) <==> count > threshold)
        && (r == None <==> count <= threshold)
    {
      AlertCount(db.GetEventCount(AbandonedCheckout.Name(), now - HourUs, now), threshold)
    }

    /**
     * The value `get_main_stats()` stores under a key at time `now`: the users
     * count, the users who joined in the last 24 hours, or the events of the
     * key's type since midnight.
     */
    function MainStat(k: StatKey, now: int): int
      reads db
    {
      var today := TodayStart(now);
      match k
      case TotalUsersKey => db.TotalUsers()
      case NewUsersKey => db.NewUsers(now - 24 * HourUs, now)
      case RestartsKey => db.GetEventCount(BotRestart.Name(), today, now)
      case GroupVisitsKey => db.GetEventCount(GoToGroup.Name(), today, now)
      case ManagerContactsKey => db.GetEventCount(ContactManager.Name(), today, now)
      case NicknameChecksKey => db.GetEventCount(CheckNickname.Name(), today, now)
      case CheckoutStartsKey => db.GetEventCount(StartCheckout.Name(), today, now)
      case SuccessfulOrdersKey => db.GetEventCount(SuccessfulOrder.Name(), today, now)
      case AbandonedCheckoutsKey => db.GetEventCount(AbandonedCheckout.Name(), today, now)
    }

    /** `get_main_stats()` at time `now`: every one of the nine keys, with its value. */
    function GetMainStats(now: int): (r: map<StatKey, int>)
      reads db
      ensures forall k: StatKey :: k in r && r[k] == MainStat(k, now)
    {
      StatKeysComplete();
      map k | k in AllStatKeys :: MainStat(k, now)
    }

    /** Reading the main stats with `stats.get(key, 0)` never falls back on the default. */
    lemma MainStatsNeedNoDefault(now: int, k: StatKey)
      ensures StatOr0(GetMainStats(now), k) == MainStat(k, now)
    {
    }
  }
}
