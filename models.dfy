/**
 * The records and the closed event catalogue of database/models.py: events and
 * their metadata, per-admin notification settings with their defaults, and the
 * nine event types with their display emoji.
 */
module Models {
  import opened Wrappers

  // ---------------------------------------------------------------------------
  // Events
  // ---------------------------------------------------------------------------

  /** One value of an event's JSON metadata. */
  datatype MetaValue = Text(text: string) | Number(number: int)

  /** An event's metadata dictionary. */
  type Metadata = map<string, MetaValue>

  /** A stored event; `id` is None until the store assigns one. Timestamps are microseconds. */
  datatype Event = Event(id: Option<int>, userId: int, eventType: string, timestamp: int, metadata: Metadata)

  /** A row of the events table, column by column. */
  datatype EventRow = EventRow(id: Option<int>, userId: int, eventType: string, timestamp: int, metadata: Metadata)

  /** `Event.from_row`: every column is copied into the field of the same name. */
  function EventFromRow(row: EventRow): (e: Event)
    ensures e.id == row.id && e.userId == row.userId && e.eventType == row.eventType
    ensures e.timestamp == row.timestamp && e.metadata == row.metadata
  {
    Event(row.id, row.userId, row.eventType, row.timestamp, row.metadata)
  }

  /** The row an event is stored as. */
  function EventToRow(e: Event): EventRow {
    EventRow(e.id, e.userId, e.eventType, e.timestamp, e.metadata)
  }

  /** Reading a row into an event loses nothing: writing it back gives the same row. */
  lemma EventRowRoundTrip(row: EventRow, e: Event)
    ensures EventToRow(EventFromRow(row)) == row
    ensures EventFromRow(EventToRow(e)) == e
  {
  }

  // ---------------------------------------------------------------------------
  // Notification settings
  // ---------------------------------------------------------------------------

  /** The NotificationSettings record of one admin. */
  datatype NotificationSettings = NotificationSettings(
    adminId: int,
    notifyNewUsers: bool,
    notifyOrders: bool,
    notifyAbandonedCheckouts: bool,
    abandonedThreshold: int,
    updatedAt: Option<int>)

  const DefaultThreshold: int := 10

  /** A NotificationSettings built with every field but `admin_id` left at its default. */
  function DefaultNotificationSettings(adminId: int): (s: NotificationSettings)
    ensures s.adminId == adminId
    ensures s.notifyNewUsers && s.notifyOrders && s.notifyAbandonedCheckouts
    ensures s.abandonedThreshold == 10 && s.updatedAt == None
  {
    NotificationSettings(adminId, true, true, true, DefaultThreshold, None)
  }

  /**
   * The settings dictionary the store hands out for an admin: each key may be
   * missing. Readers apply `dict.get(key, default)` with the same defaults as the
   * record above.
   */
  datatype SettingsDict = SettingsDict(
    newUsers: Option<bool>,
    orders: Option<bool>,
    abandoned: Option<bool>,
    threshold: Option<int>)
  {
    /** `settings.get('notify_new_users', True)` */
    predicate NotifyNewUsers() { newUsers.GetOr(true) }

    /** `settings.get('notify_orders', True)` */
    predicate NotifyOrders() { orders.GetOr(true) }

    /** `settings.get('notify_abandoned_checkouts', True)` */
    predicate NotifyAbandoned() { abandoned.GetOr(true) }

    /** `settings.get('abandoned_threshold', 10)` */
    function Threshold(): int { threshold.GetOr(DefaultThreshold) }
  }

  /** The dictionary with no key at all. */
  const EmptySettings: SettingsDict := SettingsDict(None, None, None, None)

  /** The dictionary form of a settings record: every key present. */
  function SettingsToDict(s: NotificationSettings): (d: SettingsDict)
    ensures d.NotifyNewUsers() == s.notifyNewUsers && d.NotifyOrders() == s.notifyOrders
    ensures d.NotifyAbandoned() == s.notifyAbandonedCheckouts && d.Threshold() == s.abandonedThreshold
  {
    SettingsDict(Some(s.notifyNewUsers), Some(s.notifyOrders), Some(s.notifyAbandonedCheckouts), Some(s.abandonedThreshold))
  }

  /**
   * The record defaults and the `dict.get` defaults agree: an admin without a
   * settings row is treated exactly like one whose row holds the record defaults.
   */
  lemma DefaultsAgree(adminId: int)
    ensures var d := SettingsToDict(DefaultNotificationSettings(adminId));
      && d.NotifyNewUsers() == EmptySettings.NotifyNewUsers() == true
      && d.NotifyOrders() == EmptySettings.NotifyOrders() == true
      && d.NotifyAbandoned() == EmptySettings.NotifyAbandoned() == true
      && d.Threshold() == EmptySettings.Threshold() == 10
  {
  }

  // ---------------------------------------------------------------------------
  // The event catalogue
  // ---------------------------------------------------------------------------

  /** The closed set of event kinds. */
  datatype EventType =
    | FirstStart | BotRestart | GoToGroup | ContactManager | CheckNickname
    | ExitWithoutAction | StartCheckout | AbandonedCheckout | SuccessfulOrder
  {
    /** The string constant stored in the events table. */
    function Name(): string {
      match this
      case FirstStart => "first_start"
      case BotRestart => "bot_restart"
      case GoToGroup => "go_to_group"
      case ContactManager => "contact_manager"
      case CheckNickname => "check_nickname"
      case ExitWithoutAction => "exit_without_action"
      case StartCheckout => "start_checkout"
      case AbandonedCheckout => "abandoned_checkout"
      case SuccessfulOrder => "successful_order"
    }

    /** The display glyph of the emoji map. */
    function Emoji(): string {
      match this
      case FirstStart => "🎉"
      case BotRestart => "🔄"
      case GoToGroup => "👥"
      case ContactManager => "💬"
      case CheckNickname => "🔍"
      case ExitWithoutAction => "🚪"
      case StartCheckout => "🛒"
      case AbandonedCheckout => "⚠️"
      case SuccessfulOrder => "✅"
    }
  }

  /** The glyph of any string that is not an event type. */
  const DefaultEmoji: string := "📌"

  /** The order in which `all_types` lists the kinds. */
  const Catalogue: seq<EventType> := [
    FirstStart, BotRestart, GoToGroup, ContactManager, CheckNickname,
    ExitWithoutAction, StartCheckout, AbandonedCheckout, SuccessfulOrder
  ]

  /** Every kind is in the catalogue. */
  lemma CatalogueComplete(t: EventType)
    ensures t in Catalogue
  {
    match t
    case FirstStart => assert Catalogue[0] == t;
    case BotRestart => assert Catalogue[1] == t;
    case GoToGroup => assert Catalogue[2] == t;
    case ContactManager => assert Catalogue[3] == t;
    case CheckNickname => assert Catalogue[4] == t;
    case ExitWithoutAction => assert Catalogue[5] == t;
    case StartCheckout => assert Catalogue[6] == t;
    case AbandonedCheckout => assert Catalogue[7] == t;
    case SuccessfulOrder => assert Catalogue[8] == t;
  }

  /** The string of a kind determines the kind. */
  lemma NameInjective(t: EventType, u: EventType)
    requires t.Name() == u.Name()
    ensures t == u
  {
    assert ParseEventType(t.Name()) == Some(t);
    assert ParseEventType(u.Name()) == Some(u);
  }

  /** `EventType.all_types()`: the nine names, pairwise distinct, in catalogue order. */
  function AllTypes(): (r: seq<string>)
    ensures |r| == |Catalogue| == 9
    ensures forall i :: 0 <= i < |r| ==> r[i] == Catalogue[i].Name()
    ensures forall i, j :: 0 <= i < j < |r| ==> r[i] != r[j]
    ensures forall t: EventType :: t.Name() in r
  {
    var r := seq(|Catalogue|, i requires 0 <= i < |Catalogue| => Catalogue[i].Name());
    forall i, j | 0 <= i < j < |r| ensures r[i] != r[j] {
      if r[i] == r[j] {
        NameInjective(Catalogue[i], Catalogue[j]);
      }
    }
    forall t: EventType ensures t.Name() in r {
      CatalogueComplete(t);
      var k :| 0 <= k < |Catalogue| && Catalogue[k] == t;
      assert r[k] == t.Name();
    }
    r
  }

  /** The kind a string names, if any. */
  function ParseEventType(s: string): (r: Option<EventType>)
    ensures r.Some? ==> r.value.Name() == s
  {
    if s == "first_start" then Some(FirstStart)
    else if s == "bot_restart" then Some(BotRestart)
    else if s == "go_to_group" then Some(GoToGroup)
    else if s == "contact_manager" then Some(ContactManager)
    else if s == "check_nickname" then Some(CheckNickname)
    else if s == "exit_without_action" then Some(ExitWithoutAction)
    else if s == "start_checkout" then Some(StartCheckout)
    else if s == "abandoned_checkout" then Some(AbandonedCheckout)
    else if s == "successful_order" then Some(SuccessfulOrder)
    else None
  }

  /** Parsing inverts `Name`. */
  lemma ParseName(t: EventType)
    ensures ParseEventType(t.Name()) == Some(t)
  {
    match t
    case FirstStart =>
    case BotRestart =>
    case GoToGroup =>
    case ContactManager =>
    case CheckNickname =>
    case ExitWithoutAction =>
    case StartCheckout =>
    case AbandonedCheckout =>
    case SuccessfulOrder =>
  }

  /** A string that parses to no kind is no kind's name. */
  lemma ParseUnknown(s: string)
    ensures ParseEventType(s) == None ==> s !in AllTypes()
  {
    if s in AllTypes() {
      var i :| 0 <= i < |AllTypes()| && AllTypes()[i] == s;
      ParseName(Catalogue[i]);
    }
  }

  /**
   * `EventType.get_emoji`: total over strings; a kind's name gets that kind's
   * glyph, any other string gets the pin.
   */
  function GetEmoji(s: string): (r: string)
    ensures forall t: EventType :: t.Name() == s ==> r == t.Emoji()
    ensures ParseEventType(s).None? ==> r == DefaultEmoji
  {
    match ParseEventType(s)
    case Some(t) =>
      assert forall u: EventType :: u.Name() == s ==> u == t by {
        forall u: EventType | u.Name() == s ensures u == t {
          NameInjective(u, t);
        }
      }
      t.Emoji()
    case None =>
      assert forall u: EventType :: u.Name() != s by {
        forall u: EventType ensures u.Name() != s {
          ParseName(u);
        }
      }
      DefaultEmoji
  }

  /** The nine glyphs are pairwise distinct and none of them is the fallback pin. */
  lemma EmojiDistinct(t: EventType, u: EventType)
    ensures t.Emoji() != DefaultEmoji
    ensures t != u ==> t.Emoji() != u.Emoji()
  {
  }

  /** A string gets the fallback pin exactly when it is not in `all_types()`. */
  lemma EmojiFallbackIff(s: string)
    ensures GetEmoji(s) == DefaultEmoji <==> s !in AllTypes()
  {
    match ParseEventType(s)
    case Some(t) =>
      EmojiDistinct(t, t);
    case None =>
      ParseUnknown(s);
  }
}
