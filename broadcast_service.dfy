/**
 * services/broadcast_service.py: one message, with an optional photo, sent to
 * every user of the list the store hands out before the loop starts. Each send
 * ends in one of three buckets: success, blocked or failed.
 */
module Broadcast {
  import opened Wrappers
  import opened PyText
  import opened Telegram
  import opened Db

  /** The `(success, error_message)` pair `send_broadcast_message` returns. */
  datatype SendResult = SendResult(success: bool, error: Option<string>)

  /** The counter a send result increments in `execute_broadcast`. */
  datatype Bucket = SuccessBucket | BlockedBucket | FailedBucket

  /** `{'total': .., 'success': .., 'blocked': .., 'failed': ..}` */
  datatype BroadcastStats = BroadcastStats(total: nat, success: nat, blocked: nat, failed: nat)

  const BlockedError: string := "blocked"
  const BadRequestPrefix: string := "bad_request: "
  const ErrorPrefix: string := "error: "

  /** The message for one user: a photo with the text as caption when a photo is given, else plain text. */
  function BroadcastMessage(userId: int, text: string, photo: Option<string>): (m: Outgoing)
    ensures Truthy(photo) ==> m == PhotoMessage(userId, photo.value, text)
    ensures !Truthy(photo) ==> m == TextMessage(userId, text)
  {
    if Truthy(photo) then PhotoMessage(userId, photo.value, text) else TextMessage(userId, text)
  }

  /** The pair returned for each send outcome. */
  function ResultOf(outcome: SendOutcome): (r: SendResult)
    ensures r.success <==> outcome.Delivered?
    ensures r.success <==> r.error.None?
    ensures r.error == Some(BlockedError) <==> outcome.Forbidden?
    ensures outcome.BadRequest? ==> r.error == Some(BadRequestPrefix + outcome.description)
    ensures outcome.OtherError? ==> r.error == Some(ErrorPrefix + outcome.description)
  {
    match outcome
    case Delivered => SendResult(true, None)
    case Forbidden => SendResult(false, Some(BlockedError))
    case BadRequest(e) =>
      assert (BadRequestPrefix + e)[1] != BlockedError[1];
      SendResult(false, Some(BadRequestPrefix + e))
    case OtherError(e) =>
      assert (ErrorPrefix + e)[0] != BlockedError[0];
      SendResult(false, Some(ErrorPrefix + e))
  }

  /** Lines 99-104: success first, then the exact error "blocked", everything else failed. */
  function Classify(r: SendResult): Bucket {
    if r.success then SuccessBucket
    else if r.error == Some(BlockedError) then BlockedBucket
    else FailedBucket
  }

  /**
   * A send is counted as success iff it was delivered, as blocked iff the user
   * had blocked the bot, and as failed iff Telegram refused it for any other
   * reason: prefixed error texts never read as "blocked".
   */
  lemma ClassifyOutcome(outcome: SendOutcome)
    ensures Classify(ResultOf(outcome)) == SuccessBucket <==> outcome.Delivered?
    ensures Classify(ResultOf(outcome)) == BlockedBucket <==> outcome.Forbidden?
    ensures Classify(ResultOf(outcome)) == FailedBucket <==> outcome.BadRequest? || outcome.OtherError?
  {
  }

  /** The messages of a broadcast to `users`, one per user, in list order. */
  function BroadcastMessages(users: seq<int>, text: string, photo: Option<string>): (r: seq<Outgoing>)
    ensures |r| == |users|
  {
    if users == [] then []
    else BroadcastMessages(users[..|users| - 1], text, photo) + [BroadcastMessage(users[|users| - 1], text, photo)]
  }

  /** The i-th message goes to the i-th user of the list. */
  lemma {:induction false} BroadcastMessagesAt(users: seq<int>, text: string, photo: Option<string>)
    ensures forall i :: 0 <= i < |users| ==> BroadcastMessages(users, text, photo)[i] == BroadcastMessage(users[i], text, photo)
  {
    if users != [] {
      BroadcastMessagesAt(users[..|users| - 1], text, photo);
    }
  }

  /** The stats a broadcast to `users` ends with. */
  function ExpectedStats(users: seq<int>, outcomes: int -> SendOutcome): (s: BroadcastStats)
    ensures s.total == |users|
    ensures s.success + s.blocked + s.failed == s.total
  {
    OutcomesPartition(users, outcomes);
    BroadcastStats(|users|, |DeliveredTo(users, outcomes)|, |ForbiddenTo(users, outcomes)|, OtherFailures(users, outcomes))
  }

  /** One more iteration of the broadcast loop extends the message log by this user's message. */
  lemma BroadcastStep(users: seq<int>, i: nat, text: string, photo: Option<string>, sent0: seq<Outgoing>)
    requires i < |users|
    ensures sent0 + BroadcastMessages(users[..i], text, photo) + [BroadcastMessage(users[i], text, photo)]
      == sent0 + BroadcastMessages(users[..i + 1], text, photo)
  {
    assert users[..i + 1][..i] == users[..i];
    var m := [BroadcastMessage(users[i], text, photo)];
    assert sent0 + BroadcastMessages(users[..i], text, photo) + m == sent0 + (BroadcastMessages(users[..i], text, photo) + m);
  }

  class BroadcastService {
    const db: Database

    constructor(db: Database)
      ensures this.db == db
    {
      this.db := db;
    }

    /** `send_broadcast_message(bot, user_id, text, photo)`: only a block marks the user. */
    method SendBroadcastMessage(bot: Bot, userId: int, text: string, photo: Option<string>, outcome: SendOutcome)
      returns (r: SendResult)
      modifies db`blockedMarks, bot
      ensures r == ResultOf(outcome)
      ensures bot.attempts == old(bot.attempts) + [BroadcastMessage(userId, text, photo)]
      ensures db.blockedMarks == old(db.blockedMarks) + (if outcome.Forbidden? then [userId] else [])
    {
      var sent: SendOutcome;
      if photo.Some? && photo.value != "" {
        sent := bot.Send(PhotoMessage(userId, photo.value, text), outcome);
      } else {
        sent := bot.Send(TextMessage(userId, text), outcome);
      }
      match sent
      case Delivered =>
        r := SendResult(true, None);
      case Forbidden =>
        db.MarkUserBlocked(userId);
        r := SendResult(false, Some(BlockedError));
      case BadRequest(e) =>
        r := SendResult(false, Some(BadRequestPrefix + e));
      case OtherError(e) =>
        r := SendResult(false, Some(ErrorPrefix + e));
    }

    /**
     * `execute_broadcast(bot, text, photo)` over the list `users` that
     * `get_active_users()` returned once, before the loop: every user gets one
     * attempt in list order, the blocked ones are marked, and the three
     * counters add up to `total == len(users)`.
     */
    method ExecuteBroadcast(bot: Bot, users: seq<int>, text: string, photo: Option<string>, outcomes: int -> SendOutcome)
      returns (stats: BroadcastStats)
      modifies db`blockedMarks, bot
      ensures stats == ExpectedStats(users, outcomes)
      ensures bot.attempts == old(bot.attempts) + BroadcastMessages(users, text, photo)
      ensures db.blockedMarks == old(db.blockedMarks) + ForbiddenTo(users, outcomes)
    {
      var total := |users|;
      var success, blocked, failed := 0, 0, 0;
      var i := 0;
      while i < |users|
        invariant 0 <= i <= |users|
        invariant success == |DeliveredTo(users[..i], outcomes)|
        invariant blocked == |ForbiddenTo(users[..i], outcomes)|
        invariant failed == OtherFailures(users[..i], outcomes)
        invariant bot.attempts == old(bot.attempts) + BroadcastMessages(users[..i], text, photo)
        invariant db.blockedMarks == old(db.blockedMarks) + ForbiddenTo(users[..i], outcomes)
      {
        var userId := users[i];
        var r := SendBroadcastMessage(bot, userId, text, photo, outcomes(userId));
        ClassifyOutcome(outcomes(userId));
        match Classify(r) {
          case SuccessBucket => success := success + 1;
          case BlockedBucket => blocked := blocked + 1;
          case FailedBucket => failed := failed + 1;
        }
        OutcomesStep(users, i, outcomes, [], old(db.blockedMarks));
        BroadcastStep(users, i, text, photo, old(bot.attempts));
        i := i + 1;
      }
      assert users[..i] == users;
      stats := BroadcastStats(total, success, blocked, failed);
    }
  }
}
