/**
 * The part of the Telegram Bot API the services use. A send is not performed:
 * its outcome is a value chosen by the environment for each recipient, and the
 * bot only records, in order, every message it was asked to send.
 */
module Telegram {
  /** How one `send_message` / `send_photo` call ended. */
  datatype SendOutcome =
    | Delivered
      /** The user blocked the bot (`TelegramForbiddenError`). */
    | Forbidden
      /** `TelegramBadRequest`, with the error's text. */
    | BadRequest(description: string)
      /** Any other exception, with its text. */
    | OtherError(description: string)

  /** A message the bot was asked to send. */
  datatype Outgoing =
    | TextMessage(chatId: int, text: string)
    | PhotoMessage(chatId: int, photo: string, caption: string)

  /** The bot object shared by the services. */
  class Bot {
    /** Every send attempted so far, oldest first. */
    var attempts: seq<Outgoing>

    constructor()
      ensures attempts == []
    {
      attempts := [];
    }

    /** Attempts one send; `outcome` is what the Telegram server answers. */
    method Send(m: Outgoing, outcome: SendOutcome) returns (r: SendOutcome)
      modifies this
      ensures attempts == old(attempts) + [m]
      ensures r == outcome
    {
      attempts := attempts + [m];
      r := outcome;
    }
  }

  // ---------------------------------------------------------------------------
  // Recipients sorted by outcome
  // ---------------------------------------------------------------------------

  /** The recipients of `ids` whose send was delivered, in order. */
  function DeliveredTo(ids: seq<int>, outcomes: int -> SendOutcome): (r: seq<int>)
    ensures |r| <= |ids|
  {
    if ids == [] then []
    else
      var last := ids[|ids| - 1];
      DeliveredTo(ids[..|ids| - 1], outcomes) + (if outcomes(last).Delivered? then [last] else [])
  }

  /** The recipients of `ids` who had blocked the bot, in order. */
  function ForbiddenTo(ids: seq<int>, outcomes: int -> SendOutcome): (r: seq<int>)
    ensures |r| <= |ids|
  {
    if ids == [] then []
    else
      var last := ids[|ids| - 1];
      ForbiddenTo(ids[..|ids| - 1], outcomes) + (if outcomes(last).Forbidden? then [last] else [])
  }

  /** The number of recipients of `ids` whose send failed for a reason other than a block. */
  function OtherFailures(ids: seq<int>, outcomes: int -> SendOutcome): (n: nat)
    ensures n <= |ids|
  {
    if ids == [] then 0
    else
      var last := ids[|ids| - 1];
      OtherFailures(ids[..|ids| - 1], outcomes)
        + (if outcomes(last).BadRequest? || outcomes(last).OtherError? then 1 else 0)
  }

  /** The delivered group holds exactly the recipients whose send was delivered, and likewise the blocked group. */
  lemma {:induction false} OutcomeMembers(ids: seq<int>, outcomes: int -> SendOutcome)
    ensures forall u :: u in DeliveredTo(ids, outcomes) <==> u in ids && outcomes(u).Delivered?
    ensures forall u :: u in ForbiddenTo(ids, outcomes) <==> u in ids && outcomes(u).Forbidden?
  {
    if ids != [] {
      var k := |ids| - 1;
      OutcomeMembers(ids[..k], outcomes);
      assert ids == ids[..k] + [ids[k]];
    }
  }

  /** Every recipient lands in exactly one of the three groups. */
  lemma {:induction false} OutcomesPartition(ids: seq<int>, outcomes: int -> SendOutcome)
    ensures |DeliveredTo(ids, outcomes)| + |ForbiddenTo(ids, outcomes)| + OtherFailures(ids, outcomes) == |ids|
  {
    if ids != [] {
      OutcomesPartition(ids[..|ids| - 1], outcomes);
    }
  }

  /** Appending one recipient to the list extends each group by at most that recipient. */
  lemma OutcomesAppend(ids: seq<int>, u: int, outcomes: int -> SendOutcome)
    ensures DeliveredTo(ids + [u], outcomes) == DeliveredTo(ids, outcomes) + (if outcomes(u).Delivered? then [u] else [])
    ensures ForbiddenTo(ids + [u], outcomes) == ForbiddenTo(ids, outcomes) + (if outcomes(u).Forbidden? then [u] else [])
    ensures OtherFailures(ids + [u], outcomes)
      == OtherFailures(ids, outcomes) + (if outcomes(u).BadRequest? || outcomes(u).OtherError? then 1 else 0)
  {
    assert (ids + [u])[..|ids|] == ids;
  }

  /**
   * One more recipient, seen from a loop over `ids`: the groups of the first
   * i + 1 recipients extend those of the first i, also after any earlier log.
   */
  lemma OutcomesStep(ids: seq<int>, i: nat, outcomes: int -> SendOutcome, delivered0: seq<int>, forbidden0: seq<int>)
    requires i < |ids|
    ensures var u := ids[i];
      && var d := if outcomes(u).Delivered? then [u] else [];
      && var f := if outcomes(u).Forbidden? then [u] else [];
      && DeliveredTo(ids[..i + 1], outcomes) == DeliveredTo(ids[..i], outcomes) + d
      && ForbiddenTo(ids[..i + 1], outcomes) == ForbiddenTo(ids[..i], outcomes) + f
      && OtherFailures(ids[..i + 1], outcomes)
        == OtherFailures(ids[..i], outcomes) + (if outcomes(u).BadRequest? || outcomes(u).OtherError? then 1 else 0)
      && delivered0 + DeliveredTo(ids[..i], outcomes) + d == delivered0 + DeliveredTo(ids[..i + 1], outcomes)
      && forbidden0 + ForbiddenTo(ids[..i], outcomes) + f == forbidden0 + ForbiddenTo(ids[..i + 1], outcomes)
  {
    var u := ids[i];
    assert ids[..i + 1] == ids[..i] + [u];
    OutcomesAppend(ids[..i], u, outcomes);
    var d := if outcomes(u).Delivered? then [u] else [];
    assert delivered0 + DeliveredTo(ids[..i], outcomes) + d == delivered0 + (DeliveredTo(ids[..i], outcomes) + d);
    var f := if outcomes(u).Forbidden? then [u] else [];
    assert forbidden0 + ForbiddenTo(ids[..i], outcomes) + f == forbidden0 + (ForbiddenTo(ids[..i], outcomes) + f);
  }
}
