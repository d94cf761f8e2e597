/**
 * handlers/valuation.py: the username validator and the valuation flow of
 * `process_username`. The existence check against Telegram and the random
 * draws of the generator are inputs; the locale texts are left as the kind of
 * reply, tagged with the language they are looked up in.
 */
module Valuation {
  import opened Wrappers
  import opened PyText
  import opened Db
  import Logic

  // ---------------------------------------------------------------------------
  // The pattern ^@?[a-zA-Z][a-zA-Z0-9_]{3,31}$
  // ---------------------------------------------------------------------------

  predicate IsAsciiLetter(c: char) {
    'a' <= c <= 'z' || 'A' <= c <= 'Z'
  }

  /** A character of the class [a-zA-Z0-9_]. */
  predicate IsWordChar(c: char) {
    IsAsciiLetter(c) || '0' <= c <= '9' || c == '_'
  }

  /** A handle body: a letter, then 3 to 31 word characters. */
  predicate IsHandle(s: string) {
    && 4 <= |s| <= 32
    && IsAsciiLetter(s[0])
    && forall i :: 1 <= i < |s| ==> IsWordChar(s[i])
  }

  /** The pattern up to `$`: an optional '@', then a handle body. */
  predicate MatchesUpToEnd(s: string) {
    IsHandle(s) || (|s| > 0 && s[0] == '@' && IsHandle(s[1..]))
  }

  /**
   * What `re.match` of the whole pattern accepts: `$` matches at the end of the
   * text and also just before a newline that ends it.
   */
  predicate PatternMatches(text: string) {
    MatchesUpToEnd(text) || (|text| > 0 && text[|text| - 1] == '\n' && MatchesUpToEnd(text[..|text| - 1]))
  }

  /** The number of word characters in the run that starts at `i`. */
  function WordRun(s: string, i: nat): (n: nat)
    requires i <= |s|
    ensures i + n <= |s|
    ensures forall k :: i <= k < i + n ==> IsWordChar(s[k])
    ensures i + n == |s| || !IsWordChar(s[i + n])
    decreases |s| - i
  {
    if i == |s| || !IsWordChar(s[i]) then 0 else 1 + WordRun(s, i + 1)
  }

  /**
   * `is_valid_username(text)`, the way the matcher runs: skip one optional '@',
   * take a letter, take the run of word characters (at most 31 fit), then `$`
   * must hold where the run stops.
   */
  function IsValidUsername(text: string): (b: bool) {
    var start := if |text| > 0 && text[0] == '@' then 1 else 0;
    if start < |text| && IsAsciiLetter(text[start]) then
      var stop := start + 1 + WordRun(text, start + 1);
      3 <= stop - start - 1 <= 31 && (stop == |text| || (stop == |text| - 1 && text[stop] == '\n'))
    else false
  }

  /** The matcher accepts exactly the texts the pattern describes. */
  lemma IsValidUsernameMatchesPattern(text: string)
    ensures IsValidUsername(text) <==> PatternMatches(text)
  {
    var start := if |text| > 0 && text[0] == '@' then 1 else 0;
    if IsValidUsername(text) {
      var stop := start + 1 + WordRun(text, start + 1);
      var body := text[start..stop];
      assert forall i :: 1 <= i < |body| ==> body[i] == text[start + i];
      assert IsHandle(body);
      if stop == |text| {
        assert start == 1 ==> text[1..] == body;
        assert start == 0 ==> text == body;
      } else {
        var t := text[..|text| - 1];
        assert start == 1 ==> t[1..] == body && t[0] == '@';
        assert start == 0 ==> t == body;
      }
    } else if PatternMatches(text) {
      assert false;
    }
  }

  /** A text is refused when its first character after any '@' is a digit or an underscore. */
  lemma DigitOrUnderscoreStartRejected(text: string)
    requires |text| > 0
    requires var s := if text[0] == '@' then text[1..] else text;
      |s| > 0 && ('0' <= s[0] <= '9' || s[0] == '_')
    ensures !IsValidUsername(text)
  {
  }

  /** Two leading '@'s are refused. */
  lemma DoubleAtRejected(rest: string)
    ensures !IsValidUsername("@@" + rest)
  {
  }

  /** What is accepted has a body of 4 to 32 characters after any '@' and any final newline. */
  lemma {:induction false} AcceptedLengths(text: string)
    requires IsValidUsername(text)
    ensures var s := if text[0] == '@' then text[1..] else text;
      var body := if s[|s| - 1] == '\n' then s[..|s| - 1] else s;
      4 <= |body| <= 32
  {
  }

  /** Examples: "abcd" and "@abcd" are accepted, and so is "abcd\n"; "abc" and "@@abcd" are not. */
  lemma Examples()
    ensures IsValidUsername("abcd") && IsValidUsername("@abcd") && IsValidUsername("abcd\n")
    ensures !IsValidUsername("abc") && !IsValidUsername("@@abcd") && !IsValidUsername("1abcd")
  {
    assert WordRun("abcd", 4) == 0;
    assert WordRun("@abcd", 5) == 0;
    assert WordRun("abcd\n", 4) == 0;
    assert WordRun("abc", 3) == 0;
  }

  /** Stripped input never ends in a newline, so the newline alternative of `$` never applies to it. */
  lemma StrippedInput(text: string)
    ensures IsValidUsername(Strip(text)) <==> MatchesUpToEnd(Strip(text))
  {
    IsValidUsernameMatchesPattern(Strip(text));
    var s := Strip(text);
    if |s| > 0 {
      assert IsSpace('\n');
    }
  }

  // ---------------------------------------------------------------------------
  // process_username
  // ---------------------------------------------------------------------------

  /** The locale text a reply is taken from; the texts themselves are left out. */
  datatype ReplyKind =
    | ErrorFormat
    | Evaluating(username: string)
      /** The "evaluating" message edited into `error_not_found`. */
    | ErrorNotFound(username: string)
    | ResultTemplate(report: Logic.Report)

  /** A reply, with the language of the texts it is looked up in. */
  datatype Reply = Reply(lang: string, kind: ReplyKind)

  /** The cached report is saved under the key its lookups use. */
  lemma SavedUnderLookupKey(username: string, d: Logic.Draws)
    requires Logic.ValidDraws(d)
    ensures CacheKey(Logic.GetValuationData(username, d).username) == CacheKey(username)
  {
    var c := Logic.CleanHandle(username);
    Logic.CleanIdempotent(username);
    LStripCharPrefix(c, '@');
    assert "@" + c == ['@'] + c;
  }

  /** What one `process_username` call sends, leaves in the FSM data and leaves in the cache. */
  datatype Step = Step(sent: seq<Reply>, last: Option<string>, cache: map<string, Logic.Report>)

  /**
   * `process_username` for a user whose language is `lang`, on the stripped
   * text `u`: `u` is validated; a valid handle is checked for existence
   * (`exists_` is Telegram's answer); a cached report is used as it is, else
   * one is generated from the draws `d` and cached; the handle goes into the
   * FSM data.
   */
  function Process(lang: string, u: string, exists_: bool, d: Logic.Draws, last: Option<string>, cache: map<string, Logic.Report>): (r: Step)
    requires Logic.ValidDraws(d)
    ensures !IsValidUsername(u) <==> r.sent == [Reply(lang, ErrorFormat)]
    ensures r.last != last ==> r.last == Some(u) && IsValidUsername(u) && exists_
    ensures IsValidUsername(u) && exists_ ==>
      && CacheKey(u) in r.cache
      && r.sent == [Reply(lang, Evaluating(u)), Reply(lang, ResultTemplate(r.cache[CacheKey(u)]))]
      && r.last == Some(u)
    ensures IsValidUsername(u) && !exists_ ==> r.sent == [Reply(lang, Evaluating(u)), Reply(lang, ErrorNotFound(u))]
  {
    if !IsValidUsername(u) then Step([Reply(lang, ErrorFormat)], last, cache)
    else if !exists_ then Step([Reply(lang, Evaluating(u)), Reply(lang, ErrorNotFound(u))], last, cache)
    else if CacheKey(u) in cache then
      Step([Reply(lang, Evaluating(u)), Reply(lang, ResultTemplate(cache[CacheKey(u)]))], Some(u), cache)
    else
      var data := Logic.GetValuationData(u, d);
      Step([Reply(lang, Evaluating(u)), Reply(lang, ResultTemplate(data))], Some(u), cache[CacheKey(u) := data])
  }

  /** A call never removes or overwrites a cached report. */
  lemma ProcessOnlyAddsItsKey(lang: string, u: string, exists_: bool, d: Logic.Draws, last: Option<string>, cache: map<string, Logic.Report>)
    requires Logic.ValidDraws(d)
    ensures var r := Process(lang, u, exists_, d, last, cache);
      forall k :: k in cache ==> k in r.cache && r.cache[k] == cache[k]
  {
  }

  /** The only key a call may add is the handle's own, and only for an existing valid handle. */
  lemma ProcessNewKey(lang: string, u: string, exists_: bool, d: Logic.Draws, last: Option<string>, cache: map<string, Logic.Report>)
    requires Logic.ValidDraws(d)
    ensures var r := Process(lang, u, exists_, d, last, cache);
      forall k :: k in r.cache && k !in cache ==> k == CacheKey(u) && IsValidUsername(u) && exists_
  {
  }

  /** A handle already cached gets the cached report, whatever the draws; nothing is saved. */
  lemma CacheHitIgnoresDraws(lang: string, u: string, d1: Logic.Draws, d2: Logic.Draws, last: Option<string>, cache: map<string, Logic.Report>)
    requires Logic.ValidDraws(d1) && Logic.ValidDraws(d2)
    requires CacheKey(u) in cache
    ensures Process(lang, u, true, d1, last, cache) == Process(lang, u, true, d2, last, cache)
    ensures Process(lang, u, true, d1, last, cache).cache == cache
  {
  }

  /** Asking twice gives the same report the second time, and the second call saves nothing. */
  lemma {:induction false} RepeatIsCacheHit(lang: string, u: string, d1: Logic.Draws, d2: Logic.Draws, last: Option<string>, cache: map<string, Logic.Report>)
    requires Logic.ValidDraws(d1) && Logic.ValidDraws(d2)
    requires IsValidUsername(u)
    ensures var first := Process(lang, u, true, d1, last, cache);
      var second := Process(lang, u, true, d2, first.last, first.cache);
      second.sent == first.sent && second.cache == first.cache
  {
  }

  /** The valuation conversation of one user. */
  class ValuationHandler {
    const db: Database
    /** Every reply sent to the user, oldest first. */
    var replies: seq<Reply>
    /** `last_username` in the FSM data, if stored. */
    var lastUsername: Option<string>

    constructor(db: Database)
      ensures this.db == db && replies == [] && lastUsername == None
    {
      this.db := db;
      replies := [];
      lastUsername := None;
    }

    /**
     * `process_username(message, state)` for the user `userId`. A message
     * without text (a photo, a sticker) makes `message.text.strip()` raise
     * AttributeError before anything is sent or cached: `raised` is then true.
     */
    method ProcessUsername(userId: int, text: Option<string>, exists_: bool, d: Logic.Draws) returns (raised: bool)
      requires Logic.ValidDraws(d)
      modifies this`replies, this`lastUsername, db`valuations
      ensures raised <==> text.None?
      ensures text.None? ==>
        replies == old(replies) && lastUsername == old(lastUsername) && db.valuations == old(db.valuations)
      ensures text.Some? ==>
        var r := Process(db.GetLanguage(userId), Strip(text.value), exists_, d, old(lastUsername), old(db.valuations));
        replies == old(replies) + r.sent && lastUsername == r.last && db.valuations == r.cache
    {
      if text.None? {
        return true;
      }
      raised := false;
      var lang := db.GetLanguage(userId);
      Respond(lang, Strip(text.value), exists_, d);
    }

    /** Lines 43-89: the replies to the stripped text `username`, in the language `lang`. */
    method Respond(lang: string, username: string, exists_: bool, d: Logic.Draws)
      requires Logic.ValidDraws(d)
      modifies this`replies, this`lastUsername, db`valuations
      ensures var r := Process(lang, username, exists_, d, old(lastUsername), old(db.valuations));
        replies == old(replies) + r.sent && lastUsername == r.last && db.valuations == r.cache
    {
      if !IsValidUsername(username) {
        replies := replies + [Reply(lang, ErrorFormat)];
        return;
      }
      var evaluating := Reply(lang, Evaluating(username));
      if !exists_ {
        replies := replies + [evaluating, Reply(lang, ErrorNotFound(username))];
        return;
      }
      var data := CachedOrGenerated(username, d);
      lastUsername := Some(username);
      replies := replies + [evaluating, Reply(lang, ResultTemplate(data))];
    }

    /** Lines 58-68: the cached report, or a generated one that is then cached. */
    method CachedOrGenerated(username: string, d: Logic.Draws) returns (data: Logic.Report)
      requires Logic.ValidDraws(d)
      modifies db`valuations
      ensures CacheKey(username) in old(db.valuations) ==> data == old(db.valuations)[CacheKey(username)] && db.valuations == old(db.valuations)
      ensures CacheKey(username) !in old(db.valuations) ==>
        data == Logic.GetValuationData(username, d) && db.valuations == old(db.valuations)[CacheKey(username) := data]
    {
      var cached := db.GetValuation(username);
      if cached.Some? {
        data := cached.value;
      } else {
        data := Logic.GetValuationData(username, d);
        SavedUnderLookupKey(username, d);
        db.SaveValuation(data);
      }
    }

    /** `callback_sell_current`: the handle named in the sell text. */
    function SellUsername(): (r: string)
      reads this
      ensures lastUsername.Some? ==> r == lastUsername.value
      ensures lastUsername.None? ==> r == "your handle"
    {
      lastUsername.GetOr("your handle")
    }
  }

  /** A second valuation of the same handle is a cache hit and returns the same report. */
  lemma SecondLookupHits(valuations: map<string, Logic.Report>, username: string, d: Logic.Draws)
    requires Logic.ValidDraws(d)
    ensures var r := Logic.GetValuationData(username, d);
      var after := valuations[CacheKey(r.username) := r];
      CacheKey(username) in after && after[CacheKey(username)] == r
  {
    SavedUnderLookupKey(username, d);
  }
}
