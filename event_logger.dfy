/**
 * services/event_logger.py: every user action becomes one row of the event
 * log, with a metadata dictionary built from the optional arguments. Store
 * exceptions are an input: `log_event` catches them, so no caller ever sees one.
 */
module EventLog {
  import opened Wrappers
  import opened PyText
  import opened Models
  import opened Db

  /** Which store call, if any, raises during one `log_event`. */
  datatype StoreOutcome = StoreOk | AddEventRaises | UpdateInfoRaises

  /** The event log after one `log_event`: unchanged when `add_event` raised, else one row longer. */
  function Logged(events: seq<Event>, userId: int, eventType: string, metadata: Metadata, now: int, store: StoreOutcome): (r: seq<Event>)
    ensures store.AddEventRaises? ==> r == events
    ensures !store.AddEventRaises? ==> |r| == |events| + 1 && r[..|events|] == events
    ensures !store.AddEventRaises? ==>
      && r[|events|].userId == userId && r[|events|].eventType == eventType
      && r[|events|].metadata == metadata && r[|events|].timestamp == now
  {
    if store.AddEventRaises? then events
    else events + [Event(Some(|events| + 1), userId, eventType, now, metadata)]
  }

  /** The usernames after one `log_event`: updated only when a username is given and both store calls went through. */
  function Renamed(usernames: map<int, string>, userId: int, username: Option<string>, store: StoreOutcome): (r: map<int, string>)
    ensures store.StoreOk? && Truthy(username) ==> r == usernames[userId := username.value]
    ensures !(store.StoreOk? && Truthy(username)) ==> r == usernames
  {
    if store.StoreOk? && Truthy(username) then usernames[userId := username.value] else usernames
  }

  // ---------------------------------------------------------------------------
  // Metadata of each convenience method
  // ---------------------------------------------------------------------------

  /** `{key: value}` when `value` is truthy, else `{}`. */
  function OptionalText(key: string, value: Option<string>): (m: Metadata)
    ensures key in m <==> Truthy(value)
    ensures Truthy(value) ==> m == map[key := Text(value.value)]
    ensures !Truthy(value) ==> m == map[]
  {
    if Truthy(value) then map[key := Text(value.value)] else map[]
  }

  /** Lines 72-75: the nickname always, the price bounds only for a price range. */
  function CheckNicknameMetadata(nickname: string, priceRange: Option<(int, int)>): (m: Metadata)
    ensures "nickname" in m && m["nickname"] == Text(nickname)
    ensures "price_low" in m <==> priceRange.Some?
    ensures "price_high" in m <==> priceRange.Some?
    ensures priceRange.Some? ==> m["price_low"] == Number(priceRange.value.0) && m["price_high"] == Number(priceRange.value.1)
    ensures m.Keys <= {"nickname", "price_low", "price_high"}
  {
    var m := map["nickname" := Text(nickname)];
    if priceRange.Some? then m["price_low" := Number(priceRange.value.0)]["price_high" := Number(priceRange.value.1)]
    else m
  }

  /** Lines 103-107: the nickname when truthy, the price when truthy (so never a price of 0). */
  function SuccessfulOrderMetadata(nickname: Option<string>, price: Option<int>): (m: Metadata)
    ensures "nickname" in m <==> Truthy(nickname)
    ensures "price" in m <==> TruthyInt(price)
    ensures Truthy(nickname) ==> m["nickname"] == Text(nickname.value)
    ensures TruthyInt(price) ==> m["price"] == Number(price.value)
    ensures m.Keys <= {"nickname", "price"}
  {
    var m := OptionalText("nickname", nickname);
    if TruthyInt(price) then m["price" := Number(price.value)] else m
  }

  /** A price of 0 is recorded exactly like no price. */
  lemma ZeroPriceNotRecorded(nickname: Option<string>)
    ensures SuccessfulOrderMetadata(nickname, Some(0)) == SuccessfulOrderMetadata(nickname, None)
  {
  }

  class EventLogger {
    const db: Database

    constructor(db: Database)
      ensures this.db == db
    {
      this.db := db;
    }

    /**
     * `log_event(user_id, event_type, metadata, username)`: one event with
     * `metadata or {}`, then the username when it is truthy; `store` says which
     * store call raised, and the exception goes no further.
     */
    method LogEvent(userId: int, eventType: string, metadata: Option<Metadata>, username: Option<string>, now: int, store: StoreOutcome)
      modifies db`events, db`usernames
      ensures db.events == Logged(old(db.events), userId, eventType, metadata.GetOr(map[]), now, store)
      ensures db.usernames == Renamed(old(db.usernames), userId, username, store)
    {
      if store.AddEventRaises? {
        return;
      }
      var stored := if metadata.Some? && metadata.value != map[] then metadata.value else map[];
      db.AddEvent(userId, eventType, stored, now);
      if username.Some? && username.value != "" {
        if store.UpdateInfoRaises? {
          return;
        }
        db.UpdateUserInfo(userId, username.value);
      }
    }

    /** `log_first_start(user_id, username)`: the username goes into the metadata only, never to `update_user_info`. */
    method LogFirstStart(userId: int, username: Option<string>, now: int, store: StoreOutcome)
      modifies db`events, db`usernames
      ensures db.events == Logged(old(db.events), userId, FirstStart.Name(), OptionalText("username", username), now, store)
      ensures db.usernames == old(db.usernames)
    {
      var metadata: Metadata := map[];
      if username.Some? && username.value != "" {
        metadata := metadata["username" := Text(username.value)];
      }
      LogEvent(userId, FirstStart.Name(), Some(metadata), None, now, store);
    }

    /** `log_bot_restart(user_id)`: no metadata. */
    method LogBotRestart(userId: int, now: int, store: StoreOutcome)
      modifies db`events, db`usernames
      ensures db.events == Logged(old(db.events), userId, BotRestart.Name(), map[], now, store)
      ensures db.usernames == old(db.usernames)
    {
      LogEvent(userId, BotRestart.Name(), None, None, now, store);
    }

    /** `log_go_to_group(user_id, group_url)` */
    method LogGoToGroup(userId: int, groupUrl: Option<string>, now: int, store: StoreOutcome)
      modifies db`events, db`usernames
      ensures db.events == Logged(old(db.events), userId, GoToGroup.Name(), OptionalText("group_url", groupUrl), now, store)
      ensures db.usernames == old(db.usernames)
    {
      var metadata: Metadata := map[];
      if groupUrl.Some? && groupUrl.value != "" {
        metadata := metadata["group_url" := Text(groupUrl.value)];
      }
      LogEvent(userId, GoToGroup.Name(), Some(metadata), None, now, store);
    }

    /** `log_contact_manager(user_id, manager_username)` */
    method LogContactManager(userId: int, managerUsername: Option<string>, now: int, store: StoreOutcome)
      modifies db`events, db`usernames
      ensures db.events
        == Logged(old(db.events), userId, ContactManager.Name(), OptionalText("manager_username", managerUsername), now, store)
      ensures db.usernames == old(db.usernames)
    {
      var metadata: Metadata := map[];
      if managerUsername.Some? && managerUsername.value != "" {
        metadata := metadata["manager_username" := Text(managerUsername.value)];
      }
      LogEvent(userId, ContactManager.Name(), Some(metadata), None, now, store);
    }

    /** `log_check_nickname(user_id, nickname, price_range)`; a pair is always truthy. */
    method LogCheckNickname(userId: int, nickname: string, priceRange: Option<(int, int)>, now: int, store: StoreOutcome)
      modifies db`events, db`usernames
      ensures db.events
        == Logged(old(db.events), userId, CheckNickname.Name(), CheckNicknameMetadata(nickname, priceRange), now, store)
      ensures db.usernames == old(db.usernames)
    {
      var metadata: Metadata := map["nickname" := Text(nickname)];
      if priceRange.Some? {
        metadata := metadata["price_low" := Number(priceRange.value.0)];
        metadata := metadata["price_high" := Number(priceRange.value.1)];
      }
      LogEvent(userId, CheckNickname.Name(), Some(metadata), None, now, store);
    }

    /** `log_exit_without_action(user_id)`: no metadata. */
    method LogExitWithoutAction(userId: int, now: int, store: StoreOutcome)
      modifies db`events, db`usernames
      ensures db.events == Logged(old(db.events), userId, ExitWithoutAction.Name(), map[], now, store)
      ensures db.usernames == old(db.usernames)
    {
      LogEvent(userId, ExitWithoutAction.Name(), None, None, now, store);
    }

    /** `log_start_checkout(user_id, nickname)` */
    method LogStartCheckout(userId: int, nickname: Option<string>, now: int, store: StoreOutcome)
      modifies db`events, db`usernames
      ensures db.events == Logged(old(db.events), userId, StartCheckout.Name(), OptionalText("nickname", nickname), now, store)
      ensures db.usernames == old(db.usernames)
    {
      var metadata: Metadata := map[];
      if nickname.Some? && nickname.value != "" {
        metadata := metadata["nickname" := Text(nickname.value)];
      }
      LogEvent(userId, StartCheckout.Name(), Some(metadata), None, now, store);
    }

    /** `log_abandoned_checkout(user_id, nickname)` */
    method LogAbandonedCheckout(userId: int, nickname: Option<string>, now: int, store: StoreOutcome)
      modifies db`events, db`usernames
      ensures db.events
        == Logged(old(db.events), userId, AbandonedCheckout.Name(), OptionalText("nickname", nickname), now, store)
      ensures db.usernames == old(db.usernames)
    {
      var metadata: Metadata := map[];
      if nickname.Some? && nickname.value != "" {
        metadata := metadata["nickname" := Text(nickname.value)];
      }
      LogEvent(userId, AbandonedCheckout.Name(), Some(metadata), None, now, store);
    }

    /** `log_successful_order(user_id, nickname, price)` */
    method LogSuccessfulOrder(userId: int, nickname: Option<string>, price: Option<int>, now: int, store: StoreOutcome)
      modifies db`events, db`usernames
      ensures db.events
        == Logged(old(db.events), userId, SuccessfulOrder.Name(), SuccessfulOrderMetadata(nickname, price), now, store)
      ensures db.usernames == old(db.usernames)
    {
      var metadata: Metadata := map[];
      if nickname.Some? && nickname.value != "" {
        metadata := metadata["nickname" := Text(nickname.value)];
      }
      if price.Some? && price.value != 0 {
        metadata := metadata["price" := Number(price.value)];
      }
      LogEvent(userId, SuccessfulOrder.Name(), Some(metadata), None, now, store);
    }
  }

  /**
   * A logged event is counted by the analytics window that holds its
   * timestamp: logging adds exactly one to that count and nothing elsewhere.
   */
  lemma LoggedEventCounted(events: seq<Event>, userId: int, t: EventType, metadata: Metadata, now: int,
                           u: EventType, start: int, end: int)
    ensures EventCount(Logged(events, userId, t.Name(), metadata, now, StoreOk), u.Name(), start, end)
      == EventCount(events, u.Name(), start, end) + (if u == t && start <= now <= end then 1 else 0)
  {
    var e := Event(Some(|events| + 1), userId, t.Name(), now, metadata);
    EventCountAppend(events, e, u.Name(), start, end);
    if t.Name() == u.Name() {
      NameInjective(t, u);
    }
  }
}
