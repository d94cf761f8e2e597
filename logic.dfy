/**
 * The valuation report of services/logic.py. The generator's random draws are
 * parameters, so the report is a function of the handle and the draws.
 */
module Logic {
  import opened PyText

  const Categories: seq<string> := [
    "Premium Real Word", "Crypto Native", "Corporate Brand",
    "Luxury Personal", "Web3 Identity", "Short & Concise",
    "Tech Startup", "Global Asset", "Visual Symmetric", "Investment Grade"
  ]
  const Rarities: seq<string> := [
    "High", "Very High", "Ultra Rare", "Exclusive",
    "Collector's Item", "Legendary", "Blue Chip", "Top Tier"
  ]
  const Demands: seq<string> := [
    "Strong", "Very High", "Aggressive", "Trending Up",
    "Peak Interest", "Institutional", "Hot Market"
  ]
  const Brandings: seq<string> := [
    "Excellent", "Global", "Elite", "Unicorn Status",
    "International", "Corporate Grade", "Iconic"
  ]

  const LowDrawMin: int := 1100
  const LowDrawMax: int := 3500
  const OffsetMin: int := 500
  const OffsetMax: int := 1500
  const PriceCeiling: int := 4500
  const CappedPrice: int := 4200

  /** The report dictionary, key by key. */
  datatype Report = Report(
    username: string,
    structure: string,
    category: string,
    rarity: string,
    demand: string,
    score: string,
    branding: string,
    priceLow: int,
    priceHigh: int)

  /**
   * The values one call draws: the two `randint` results, the indices
   * `random.choice` picks, and the score already rendered by `str(round(x, 1))`.
   */
  datatype Draws = Draws(
    score: string,
    lowDraw: int,
    offsetDraw: int,
    categoryIndex: nat,
    rarityIndex: nat,
    demandIndex: nat,
    brandingIndex: nat)

  /** The draws the random module can produce for this generator. */
  predicate ValidDraws(d: Draws) {
    && LowDrawMin <= d.lowDraw <= LowDrawMax
    && OffsetMin <= d.offsetDraw <= OffsetMax
    && d.categoryIndex < |Categories| && d.rarityIndex < |Rarities|
    && d.demandIndex < |Demands| && d.brandingIndex < |Brandings|
  }

  /**
   * Python's `round(n, -1)` on an integer: the nearest multiple of ten, a tie
   * going to the multiple whose tens digit is even.
   */
  function RoundTens(n: int): (r: int)
    ensures r % 10 == 0
    ensures n - 5 <= r <= n + 5
    ensures (r == n - 5 || r == n + 5) ==> (r / 10) % 2 == 0
  {
    var q, m := n / 10, n % 10;
    if m < 5 then 10 * q
    else if m > 5 then 10 * (q + 1)
    else if q % 2 == 0 then 10 * q
    else 10 * (q + 1)
  }

  /** The rounded low price stays a multiple of ten inside the draw range. */
  lemma RoundTensInRange(n: int)
    requires LowDrawMin <= n <= LowDrawMax
    ensures LowDrawMin <= RoundTens(n) <= LowDrawMax
  {
    var r := RoundTens(n);
    var k := r / 10;
    assert r == 10 * k;
    assert 109 < k < 351;
  }

  /** The handle with every leading '@' removed. */
  function CleanHandle(username: string): string {
    LStripChar(username, '@')
  }

  /** Cleaning a clean handle changes nothing. */
  lemma CleanIdempotent(username: string)
    ensures CleanHandle(CleanHandle(username)) == CleanHandle(username)
  {
    var c := CleanHandle(username);
    assert c == [] || c[0] != '@';
  }

  /** `get_valuation_data(username)` for the given draws. */
  function GetValuationData(username: string, d: Draws): (r: Report)
    requires ValidDraws(d)
    ensures r.username == "@" + CleanHandle(username) && CleanHandle(r.username[1..]) == r.username[1..]
    ensures r.structure == IntToString(|CleanHandle(username)|) + " characters"
    ensures r.priceLow == RoundTens(d.lowDraw)
    ensures r.priceHigh == (if r.priceLow + d.offsetDraw > PriceCeiling then CappedPrice else r.priceLow + d.offsetDraw)
    ensures r.priceLow % 10 == 0 && 1100 <= r.priceLow <= 3500
    ensures r.priceLow + 500 <= r.priceHigh <= 4500
    ensures r.category == Categories[d.categoryIndex] && r.rarity == Rarities[d.rarityIndex]
    ensures r.demand == Demands[d.demandIndex] && r.branding == Brandings[d.brandingIndex]
    ensures r.category in Categories && r.rarity in Rarities
    ensures r.demand in Demands && r.branding in Brandings
    ensures r.score == d.score
  {
    var clean := CleanHandle(username);
    var low := RoundTens(d.lowDraw);
    RoundTensInRange(d.lowDraw);
    assert ("@" + clean)[1..] == clean;
    CleanIdempotent(username);
    var high := if low + d.offsetDraw > PriceCeiling then CappedPrice else low + d.offsetDraw;
    Report(
      "@" + clean,
      IntToString(|clean|) + " characters",
      Categories[d.categoryIndex],
      Rarities[d.rarityIndex],
      Demands[d.demandIndex],
      d.score,
      Brandings[d.brandingIndex],
      low,
      high)
  }

  /** Leading '@'s make no difference: "@@x" and "x" give the same report. */
  lemma {:induction false} ReportIgnoresLeadingAt(username: string, d: Draws)
    requires ValidDraws(d)
    ensures GetValuationData("@" + username, d) == GetValuationData(username, d)
  {
    LStripCharPrefix(username, '@');
  }
}
