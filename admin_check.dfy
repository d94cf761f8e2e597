/**
 * middleware/admin_check.py: the gate in front of the admin handlers. An
 * update is an admin action when a message's text starts with `/admin` or
 * `/stats`, or a callback's data starts with `admin_`; an admin action from a
 * user outside `ADMIN_IDS` is answered with a denial and goes no further.
 * Every other update reaches the handler with `data['is_admin']` set.
 */
module AdminGate {
  import opened Wrappers
  import opened PyText

  /** The update the middleware sees; `text` and `data` may be None. */
  datatype Update =
    | MessageUpdate(userId: int, text: Option<string>)
    | CallbackUpdate(userId: int, data: Option<string>)

  const AdminPrefix: string := "/admin"
  const StatsPrefix: string := "/stats"
  const CallbackPrefix: string := "admin_"

  /** `s.startswith(p)` on an optional string that is known to be truthy. */
  predicate TextStarts(o: Option<string>, p: string) {
    Truthy(o) && StartsWith(o.value, p)
  }

  /** Lines 25-30 as evidently intended: a truthy text or data with one of the admin prefixes. */
  predicate IsAdminAction(u: Update) {
    match u
    case MessageUpdate(_, text) => TextStarts(text, AdminPrefix) || TextStarts(text, StatsPrefix)
    case CallbackUpdate(_, data) => TextStarts(data, CallbackPrefix)
  }

  /**
   * Line 26 as written: `a and b or c` groups as `(a and b) or c`, so
   * `text.startswith('/stats')` runs whenever the first test fails, even when
   * `text` is None. None means the call raised AttributeError.
   */
  function IsAdminActionAsWritten(u: Update): (r: Option<bool>)
    ensures u.CallbackUpdate? ==> r == Some(IsAdminAction(u))
  {
    match u
    case MessageUpdate(_, text) =>
      if TextStarts(text, AdminPrefix) then Some(true)
      else if text.None? then None
      else Some(StartsWith(text.value, StatsPrefix))
    case CallbackUpdate(_, data) => Some(TextStarts(data, CallbackPrefix))
  }

  /** A message without text (a photo, a sticker) makes the written test raise. */
  lemma {:induction false} NoTextRaises(userId: int)
    ensures IsAdminActionAsWritten(MessageUpdate(userId, None)) == None
    ensures !IsAdminAction(MessageUpdate(userId, None))
  {
  }

  /** Everywhere else the written test gives the intended answer. */
  lemma {:induction false} AsWrittenAgreesWithText(u: Update)
    requires !(u.MessageUpdate? && u.text.None?)
    ensures IsAdminActionAsWritten(u) == Some(IsAdminAction(u))
  {
    if u.MessageUpdate? && u.text == Some("") {
      assert !StartsWith("", StatsPrefix);
    }
  }

  /** What the middleware does with an update. */
  datatype Verdict =
      /** The update is answered with a denial and dropped. */
    | Rejected(answer: Answer)
      /** The handler runs with `is_admin` set to `isAdmin`. */
    | Passed(isAdmin: bool)

  /** A denial: a message reply, or a callback answer shown as an alert. */
  datatype Answer = Answer(userId: int, text: string, showAlert: bool)

  const MessageDenial: string := "❌ У вас нет доступа к этой команде"
  const CallbackDenial: string := "❌ У вас нет доступа"

  /** The denial for the kind of update. */
  function DenialFor(u: Update): (a: Answer)
    ensures a.userId == u.userId && a.showAlert == u.CallbackUpdate?
  {
    match u
    case MessageUpdate(userId, _) => Answer(userId, MessageDenial, false)
    case CallbackUpdate(userId, _) => Answer(userId, CallbackDenial, true)
  }

  /** Lines 33-41: reject an admin action from a non-admin, else pass with the membership flag. */
  function Decide(adminIds: set<int>, u: Update): (v: Verdict)
    ensures v.Rejected? <==> IsAdminAction(u) && u.userId !in adminIds
    ensures v.Rejected? ==> v.answer == DenialFor(u)
    ensures v.Passed? ==> v.isAdmin == (u.userId in adminIds)
  {
    if IsAdminAction(u) && u.userId !in adminIds then Rejected(DenialFor(u))
    else Passed(u.userId in adminIds)
  }

  /** An admin is never stopped, whatever the update. */
  lemma AdminsAlwaysPass(adminIds: set<int>, u: Update)
    requires u.userId in adminIds
    ensures Decide(adminIds, u) == Passed(true)
  {
  }

  /** An update that is not an admin action always passes, flagged by membership. */
  lemma OrdinaryUpdatesPass(adminIds: set<int>, u: Update)
    requires !IsAdminAction(u)
    ensures Decide(adminIds, u) == Passed(u.userId in adminIds)
  {
  }

  /** `/stats` and `/admin` commands and `admin_` callbacks from non-admins are rejected. */
  lemma {:induction false} AdminCommandsFromOthersRejected(adminIds: set<int>, userId: int, rest: string)
    requires userId !in adminIds
    ensures Decide(adminIds, MessageUpdate(userId, Some(AdminPrefix + rest))).Rejected?
    ensures Decide(adminIds, MessageUpdate(userId, Some(StatsPrefix + rest))).Rejected?
    ensures Decide(adminIds, CallbackUpdate(userId, Some(CallbackPrefix + rest))) == Rejected(Answer(userId, CallbackDenial, true))
  {
    assert (AdminPrefix + rest)[..|AdminPrefix|] == AdminPrefix;
    assert (StatsPrefix + rest)[..|StatsPrefix|] == StatsPrefix;
    assert (CallbackPrefix + rest)[..|CallbackPrefix|] == CallbackPrefix;
  }

  /** The `data` dictionary handed along; only its `is_admin` entry is modelled. */
  class HandlerData {
    var isAdmin: Option<bool>

    constructor()
      ensures isAdmin == None
    {
      isAdmin := None;
    }
  }

  class AdminCheckMiddleware {
    const adminIds: set<int>
    /** Every denial sent, oldest first. */
    var answers: seq<Answer>
    /** Every handler call, with the `is_admin` flag it was given. */
    var handled: seq<(Update, bool)>

    constructor(adminIds: set<int>)
      ensures this.adminIds == adminIds && answers == [] && handled == []
    {
      this.adminIds := adminIds;
      answers := [];
      handled := [];
    }

    /** `__call__(handler, event, data)`; returns whether the handler ran. */
    method Call(u: Update, data: HandlerData) returns (ran: bool)
      modifies this`answers, this`handled, data
      ensures var v := Decide(adminIds, u);
        && (ran <==> v.Passed?)
        && (v.Rejected? ==> answers == old(answers) + [v.answer] && handled == old(handled) && data.isAdmin == old(data.isAdmin))
        && (v.Passed? ==> answers == old(answers) && handled == old(handled) + [(u, v.isAdmin)] && data.isAdmin == Some(v.isAdmin))
    {
      var userId := u.userId;
      var isAdminAction := false;
      match u {
        case MessageUpdate(_, text) =>
          if (text.Some? && text.value != "" && StartsWith(text.value, AdminPrefix))
            || (text.Some? && text.value != "" && StartsWith(text.value, StatsPrefix)) {
            isAdminAction := true;
          }
        case CallbackUpdate(_, cbData) =>
          if cbData.Some? && cbData.value != "" && StartsWith(cbData.value, CallbackPrefix) {
            isAdminAction := true;
          }
      }
      if isAdminAction && userId !in adminIds {
        answers := answers + [DenialFor(u)];
        return false;
      }
      data.isAdmin := Some(userId in adminIds);
      handled := handled + [(u, userId in adminIds)];
      ran := true;
    }
  }
}
