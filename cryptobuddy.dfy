// CryptoBuddy: a rule-based advisor that answers a few fixed questions about a
// four-coin table. Every query is a pure function of the table; `Reply` routes
// a free-text question to one of them by keyword.
module CryptoBuddy {
  import opened Optional
  import opened Text
  import opened Scan

  // ------------------------------------------------------------- labels

  /** A `price_trend` text other than the three the advisor knows. */
  type TrendWord = s: string | s != "rising" && s != "stable" && s != "falling" witness ""

  datatype Trend = Rising | Stable | Falling | OtherTrend(word: TrendWord)

  /** A `market_cap` or `energy_use` text other than the three known levels. */
  type TierWord = s: string | s != "low" && s != "medium" && s != "high" witness ""

  datatype Tier = Low | Medium | High | OtherTier(word: TierWord)

  function TrendLabel(t: Trend): string {
    match t
    case Rising => "rising"
    case Stable => "stable"
    case Falling => "falling"
    case OtherTrend(w) => w
  }

  function ParseTrend(s: string): Trend {
    if s == "rising" then Rising
    else if s == "stable" then Stable
    else if s == "falling" then Falling
    else OtherTrend(s)
  }

  function TierLabel(t: Tier): string {
    match t
    case Low => "low"
    case Medium => "medium"
    case High => "high"
    case OtherTier(w) => w
  }

  function ParseTier(s: string): Tier {
    if s == "low" then Low
    else if s == "medium" then Medium
    else if s == "high" then High
    else OtherTier(s)
  }

  /** The enumerations lose nothing of the label texts, and add nothing. */
  lemma LabelsRoundTrip(t: Trend, v: Tier, s: string)
    ensures ParseTrend(TrendLabel(t)) == t && TrendLabel(ParseTrend(s)) == s
    ensures ParseTier(TierLabel(v)) == v && TierLabel(ParseTier(s)) == s
  {
  }

  // -------------------------------------------------------------- table

  /** One entry of the coin table: its key and its record. `score` is the
      sustainability score counted in tenths (3/10 is 3). */
  datatype Coin = Coin(name: string, symbol: string, trend: Trend, cap: Tier, energy: Tier, score: nat)

  const Bitcoin := Coin("Bitcoin", "BTC", Rising, High, High, 3)
  const Ethereum := Coin("Ethereum", "ETH", Stable, High, Medium, 6)
  const Cardano := Coin("Cardano", "ADA", Rising, Medium, Low, 8)
  const Algorand := Coin("Algorand", "ALGO", Falling, Low, Low, 9)

  /** `crypto_db`, in the dictionary's insertion order. */
  const CryptoDb: seq<Coin> := [Bitcoin, Ethereum, Cardano, Algorand]

  /** A coin whose texts hold no line break, so its listing line is one line. */
  predicate SingleLine(c: Coin) {
    '\n' !in c.name && '\n' !in c.symbol && '\n' !in TrendLabel(c.trend) && '\n' !in TierLabel(c.cap)
  }

  /** The table's keys are distinct, its scores lie in [0, 1] and every entry lists on one line. */
  lemma TableIsWellFormed()
    ensures forall i, j :: 0 <= i < j < |CryptoDb| ==> CryptoDb[i].name != CryptoDb[j].name
    ensures forall c :: c in CryptoDb ==> c.score <= 10 && SingleLine(c)
  {
  }

  // ------------------------------------------------------------ scoring

  predicate IsRising(c: Coin) {
    c.trend == Rising
  }

  /** `trend_score.get(d["price_trend"], 0)`, in tenths. */
  function TrendWeight(t: Trend): nat {
    match t
    case Rising => 20
    case Stable => 10
    case Falling => 0
    case OtherTrend(_) => 0
  }

  /** `market_score.get(d["market_cap"], 0)`, in tenths. */
  function CapWeight(t: Tier): nat {
    match t
    case Low => 5
    case Medium => 10
    case High => 15
    case OtherTier(_) => 0
  }

  /** `coin_score`, in tenths. */
  function CoinScore(c: Coin): nat {
    TrendWeight(c.trend) + c.score + CapWeight(c.cap)
  }

  /** A trend or market cap the weight tables do not know adds nothing to the score,
      and the known ones order the score as their labels suggest. */
  lemma CoinScoreWeights(c: Coin)
    ensures c.trend.OtherTrend? ==> CoinScore(c) == c.score + CapWeight(c.cap)
    ensures c.cap.OtherTier? ==> CoinScore(c) == TrendWeight(c.trend) + c.score
    ensures TrendWeight(Falling) < TrendWeight(Stable) < TrendWeight(Rising)
    ensures CapWeight(Low) < CapWeight(Medium) < CapWeight(High)
    ensures CapRank(Low) < CapRank(Medium) < CapRank(High)
  {
  }

  /** `mapping` = {"low": 1, "medium": 2, "high": 3}. A coin with another
      market-cap text has no rank: looking it up raises KeyError, so the 0 here
      is never compared (see `TopCapRising`). */
  function CapRank(t: Tier): (r: int)
    ensures r == 0 <==> t.OtherTier?
  {
    match t
    case Low => 1
    case Medium => 2
    case High => 3
    case OtherTier(_) => 0
  }

  // ---------------------------------------------------------- selections

  /** The sustainability scores, in table order. */
  function Sustainabilities(db: seq<Coin>): (keys: seq<int>)
    ensures |keys| == |db|
    ensures forall j :: 0 <= j < |db| ==> keys[j] == db[j].score
  {
    seq(|db|, j requires 0 <= j < |db| => db[j].score as int)
  }

  /** The `coin_score`s, in table order. */
  function Scores(db: seq<Coin>): (keys: seq<int>)
    ensures |keys| == |db|
    ensures forall j :: 0 <= j < |db| ==> keys[j] == CoinScore(db[j])
  {
    seq(|db|, j requires 0 <= j < |db| => CoinScore(db[j]) as int)
  }

  /** `db[i]` is what `max(db, key=sustainability_score)` returns: no coin scores
      higher, and every earlier coin scores lower. */
  ghost predicate MostSustainableAt(db: seq<Coin>, i: int) {
    IsFirstMax(Sustainabilities(db), i)
  }

  /** `db[i]` is the rising coin `max(rising, key=mapping[market_cap])` returns:
      no rising coin ranks higher, and every earlier rising coin ranks lower. */
  ghost predicate TopCapAt(db: seq<Coin>, i: int) {
    && 0 <= i < |db| && IsRising(db[i])
    && (forall j :: 0 <= j < |db| && IsRising(db[j]) ==> CapRank(db[j].cap) <= CapRank(db[i].cap))
    && (forall j :: 0 <= j < i && IsRising(db[j]) ==> CapRank(db[j].cap) < CapRank(db[i].cap))
  }

  /** `db[i]` is the first rising coin whose market cap `mapping` lacks: the
      element on which `max` raises. */
  ghost predicate FirstUnrankableAt(db: seq<Coin>, i: int) {
    0 <= i < |db| && Unrankable(db[i]) && forall j :: 0 <= j < i ==> !Unrankable(db[j])
  }

  /** `db[i]` is `candidates[0]` of the long-term branch. */
  ghost predicate FirstCandidateAt(db: seq<Coin>, i: int) {
    0 <= i < |db| && LongTermCandidate(db[i]) && forall j :: 0 <= j < i ==> !LongTermCandidate(db[j])
  }

  /** `db[i]` is what `max(crypto_db, key=coin_score)` returns. */
  ghost predicate BestScoreAt(db: seq<Coin>, i: int) {
    IsFirstMax(Scores(db), i)
  }

  /** `max(crypto_db, key=sustainability_score)` */
  function SustainableIndex(db: seq<Coin>): (i: nat)
    requires |db| > 0
    ensures MostSustainableAt(db, i)
  {
    FirstMax(Sustainabilities(db))
  }

  /** What `max(rising, key=lambda c: mapping[...["market_cap"]])` does after the
      rising coins are collected: no rising coin at all, a rising coin whose
      market cap has no rank (the KeyError of `mapping[...]`), or the pick. */
  datatype CapPick = NoneRising | Unranked(index: nat) | Picked(index: nat)

  /** The market-cap ranks of the selected positions, in order. */
  function RanksAt(db: seq<Coin>, rising: seq<nat>): (keys: seq<int>)
    requires forall n :: 0 <= n < |rising| ==> rising[n] < |db|
    ensures |keys| == |rising|
    ensures forall n :: 0 <= n < |rising| ==> keys[n] == CapRank(db[rising[n]].cap)
  {
    seq(|rising|, n requires 0 <= n < |rising| => CapRank(db[rising[n]].cap))
  }

  /** The first maximum among the rising coins' ranks is the first rising coin
      of highest rank in the whole table. */
  lemma TopOfRising(db: seq<Coin>, rising: seq<nat>, m: nat)
    requires Selects(db, IsRising, 0, rising)
    requires IsFirstMax(RanksAt(db, rising), m)
    ensures rising[m] < |db| && IsRising(db[rising[m]])
    ensures forall j :: 0 <= j < |db| && IsRising(db[j]) ==> CapRank(db[j].cap) <= CapRank(db[rising[m]].cap)
    ensures forall j :: 0 <= j < rising[m] && IsRising(db[j]) ==> CapRank(db[j].cap) < CapRank(db[rising[m]].cap)
  {
    var keys := RanksAt(db, rising);
    forall j | 0 <= j < |db| && IsRising(db[j]) ensures CapRank(db[j].cap) <= keys[m] {
      var n :| 0 <= n < |rising| && rising[n] == j;
      assert keys[n] == CapRank(db[j].cap);
    }
    forall j | 0 <= j < rising[m] && IsRising(db[j]) ensures CapRank(db[j].cap) < keys[m] {
      WhereSkipped(db, IsRising, rising, m, j);
      var n :| 0 <= n < m && rising[n] == j;
      assert keys[n] == CapRank(db[j].cap);
    }
  }

  /** The rising coin with the largest market-cap rank, the first one on ties. */
  function TopCapRising(db: seq<Coin>): (r: CapPick)
    ensures r == NoneRising <==> forall j :: 0 <= j < |db| ==> !IsRising(db[j])
    ensures r.Unranked? ==> FirstUnrankableAt(db, r.index)
    ensures r.Picked? ==> TopCapAt(db, r.index) && forall j :: 0 <= j < |db| ==> !Unrankable(db[j])
  {
    var rising := Where(db, IsRising);
    if rising == [] then
      assert forall j :: 0 <= j < |db| ==> !IsRising(db[j]);
      NoneRising
    else
      var unranked := Where(db, Unrankable);
      if unranked != [] then
        assert forall j :: 0 <= j < unranked[0] && Unrankable(db[j]) ==> j in unranked;
        Unranked(unranked[0])
      else
        assert forall j :: 0 <= j < |db| ==> !Unrankable(db[j]);
        var m := FirstMax(RanksAt(db, rising));
        TopOfRising(db, rising, m);
        Picked(rising[m])
  }

  /** A rising coin whose market cap `mapping` has no entry for. */
  predicate Unrankable(c: Coin) {
    IsRising(c) && c.cap.OtherTier?
  }

  /** Rising, with a sustainability score above 7/10. */
  predicate LongTermCandidate(c: Coin) {
    IsRising(c) && c.score > 7
  }

  /** `candidates[0]` of the long-term branch: the first candidate in table order. */
  function FirstLongTerm(db: seq<Coin>): (r: Option<nat>)
    ensures r == None <==> forall j :: 0 <= j < |db| ==> !LongTermCandidate(db[j])
    ensures r.Some? ==> FirstCandidateAt(db, r.value)
  {
    var candidates := Where(db, LongTermCandidate);
    if candidates == [] then
      assert forall j :: 0 <= j < |db| ==> !LongTermCandidate(db[j]);
      None
    else
      assert forall j :: 0 <= j < candidates[0] && LongTermCandidate(db[j]) ==> j in candidates;
      Some(candidates[0])
  }

  /** `max(crypto_db, key=lambda c: coin_score(crypto_db[c]))` */
  function DefaultIndex(db: seq<Coin>): (i: nat)
    requires |db| > 0
    ensures BestScoreAt(db, i)
  {
    FirstMax(Scores(db))
  }

  // ------------------------------------------------------------- answers

  /** The advisor's answers, by template; `Render` gives each one's text. */
  datatype Answer =
    | Sustainable(coin: Coin)
    | Trending(coin: Coin)
    | NoRising
    | LongTermPick(coin: Coin)
    | LongTermFallback(coin: Coin)
    | NoLongTermCandidate
    | SimplePick(coin: Coin)
    | Help
    | Listing(coins: seq<Coin>)
    | NotUnderstood
  {
    /** The answers that put one coin forward. */
    predicate NamesCoin() {
      Sustainable? || Trending? || LongTermPick? || LongTermFallback? || SimplePick?
    }
  }

  /** The exceptions a query can raise: `mapping[...]` on an unknown market cap,
      and `max()` of an empty table. */
  datatype PyError = KeyError(key: string) | EmptyMax

  datatype Response = Says(answer: Answer) | Raises(error: PyError)

  /** `_most_sustainable` */
  function MostSustainable(db: seq<Coin>): (r: Response)
    ensures r.Raises? <==> db == []
    ensures r.Raises? ==> r.error == EmptyMax
    ensures r.Says? ==> r.answer.Sustainable? && exists i :: MostSustainableAt(db, i) && r.answer.coin == db[i]
  {
    if db == [] then Raises(EmptyMax) else Says(Sustainable(db[SustainableIndex(db)]))
  }

  /** `_trending_up` */
  function TrendingUp(db: seq<Coin>): (r: Response)
    ensures r == Says(NoRising) <==> forall c :: c in db ==> !IsRising(c)
    ensures r.Raises? <==> exists c :: c in db && Unrankable(c)
    ensures r.Raises? ==> exists i :: FirstUnrankableAt(db, i) && r.error == KeyError(db[i].cap.word)
    ensures r.Says? && r.answer != NoRising ==>
      r.answer.Trending? && exists i :: TopCapAt(db, i) && r.answer.coin == db[i]
  {
    match TopCapRising(db)
    case NoneRising => Says(NoRising)
    case Unranked(i) => Raises(KeyError(TierLabel(db[i].cap)))
    case Picked(i) => Says(Trending(db[i]))
  }

  /** The long-term fallback is `_trending_up`'s choice in other words. */
  function AsLongTermFallback(t: Response): Response {
    match t
    case Says(Trending(c)) => Says(LongTermFallback(c))
    case Says(NoRising) => Says(NoLongTermCandidate)
    case _ => t
  }

  /** `_recommend_for_investment`; `q` is the already normalised query. */
  function RecommendForInvestment(db: seq<Coin>, q: string): (r: Response)
    ensures Contains(q, "long") && (exists i :: 0 <= i < |db| && LongTermCandidate(db[i])) ==>
      exists i :: FirstCandidateAt(db, i) && r == Says(LongTermPick(db[i]))
    ensures Contains(q, "long") && (forall c :: c in db ==> !LongTermCandidate(c)) ==>
      r == AsLongTermFallback(TrendingUp(db))
    ensures !Contains(q, "long") ==> (r == Raises(EmptyMax) <==> db == [])
    ensures !Contains(q, "long") && db != [] ==>
      exists i :: BestScoreAt(db, i) && r == Says(SimplePick(db[i]))
  {
    LongTermTestIsLong(q);
    if Contains(q, "long") || Contains(q, "long-term") then
      match FirstLongTerm(db)
      case Some(i) => Says(LongTermPick(db[i]))
      case None =>
        match TopCapRising(db)
        case NoneRising => Says(NoLongTermCandidate)
        case Unranked(i) => Raises(KeyError(TierLabel(db[i].cap)))
        case Picked(i) => Says(LongTermFallback(db[i]))
    else if db == [] then Raises(EmptyMax)
    else Says(SimplePick(db[DefaultIndex(db)]))
  }

  /** The `or "long-term" in q` half of the long-term test adds nothing. */
  lemma LongTermTestIsLong(q: string)
    ensures Contains(q, "long-term") ==> Contains(q, "long")
  {
    assert OccursAt("long-term", "long", 0);
    if Contains(q, "long-term") {
      ContainsTransitive(q, "long-term", "long");
    }
  }

  // -------------------------------------------------------------- router

  const SustainWords: seq<string> := ["sustain", "eco", "green", "environment"]
  const TrendWords: seq<string> := ["trend", "trending", "up", "rising", "growth", "grow"]
  const InvestWords: seq<string> := ["buy", "recommend", "should i", "invest"]
  const HelpWords: seq<string> := ["help", "how"]
  const ListWords: seq<string> := ["list", "show", "coins"]

  /** `any(x in q for x in words)` */
  predicate Mentions(q: string, words: seq<string>) {
    exists w | w in words :: Contains(q, w)
  }

  datatype Intent = AskSustainable | AskTrend | AskInvest | AskHelp | AskList | Unrecognised

  /** The keyword tests of `reply`, in the order it makes them. */
  function Classify(q: string): Intent {
    if Mentions(q, SustainWords) then AskSustainable
    else if Mentions(q, TrendWords) then AskTrend
    else if Mentions(q, InvestWords) then AskInvest
    else if Contains(q, "help") || Contains(q, "how") then AskHelp
    else if Contains(q, "list") || Contains(q, "show") || Contains(q, "coins") then AskList
    else Unrecognised
  }

  /** `user_query.lower().strip()`: the lower-cased input with its surrounding whitespace
      cut off, so it holds no capital letter and no surrounding whitespace. */
  function Normalize(input: string): (q: string)
    ensures forall i :: 0 <= i < |q| ==> !('A' <= q[i] <= 'Z')
    ensures q == [] || (!IsSpace(q[0]) && !IsSpace(q[|q| - 1]))
    ensures IsStrip(Lower(input), q)
  {
    var lower := Lower(input);
    StripKeepsLowercase(lower);
    Strip(lower)
  }

  /** A normalised query is its own normal form, so normalising is idempotent. */
  lemma NormalizeIdempotent(input: string)
    ensures Normalize(Normalize(input)) == Normalize(input)
  {
    var q := Normalize(input);
    if q != [] {
      assert forall c :: c in q ==> !('A' <= c <= 'Z');
      LowerOfLowercase(q);
      StripUnpadded(q);
    }
  }

  /** `CryptoBuddy.reply`, over the coin table `db`. */
  function Reply(db: seq<Coin>, input: string): (r: Response)
    ensures AnswersFrom(db, r)
  {
    Route(db, Normalize(input))
  }

  /** Every coin a reply puts forward or lists is a coin of the table, and the
      only exceptions are `max()` of an empty table and the KeyError of a rising
      coin whose market cap has no rank. */
  ghost predicate AnswersFrom(db: seq<Coin>, r: Response) {
    && (r.Says? && r.answer.NamesCoin() ==> r.answer.coin in db)
    && (r.Says? && r.answer.Listing? ==> r.answer.coins == db)
    && (r == Raises(EmptyMax) ==> db == [])
    && (r.Raises? && r.error.KeyError? ==> exists c :: c in db && Unrankable(c) && r.error.key == TierLabel(c.cap))
  }

  /** The dispatch of `reply` once the query `q` is normalised. */
  function Route(db: seq<Coin>, q: string): (r: Response)
    ensures AnswersFrom(db, r)
  {
    match Classify(q)
    case AskSustainable => MostSustainable(db)
    case AskTrend => TrendingUp(db)
    case AskInvest => RecommendForInvestment(db, q)
    case AskHelp => Says(Help)
    case AskList => Says(Listing(db))
    case Unrecognised => Says(NotUnderstood)
  }

  /** The router as an ordered table of keyword groups. */
  const Rules: seq<(seq<string>, Intent)> :=
    [(SustainWords, AskSustainable), (TrendWords, AskTrend), (InvestWords, AskInvest),
     (HelpWords, AskHelp), (ListWords, AskList)]

  /** The intent of the first group of `rules` that the query mentions. */
  function FirstMatch(rules: seq<(seq<string>, Intent)>, q: string): Intent {
    if rules == [] then Unrecognised
    else if Mentions(q, rules[0].0) then rules[0].1
    else FirstMatch(rules[1..], q)
  }

  /** The group that decides is the earliest one the query mentions. */
  lemma {:induction false} FirstMatchIsEarliest(rules: seq<(seq<string>, Intent)>, q: string, m: nat)
    requires m < |rules| && Mentions(q, rules[m].0)
    requires forall n :: 0 <= n < m ==> !Mentions(q, rules[n].0)
    ensures FirstMatch(rules, q) == rules[m].1
  {
    if m > 0 {
      assert !Mentions(q, rules[0].0);
      FirstMatchIsEarliest(rules[1..], q, m - 1);
    }
  }

  /** With no group mentioned, nothing matches. */
  lemma {:induction false} FirstMatchNone(rules: seq<(seq<string>, Intent)>, q: string)
    requires forall n :: 0 <= n < |rules| ==> !Mentions(q, rules[n].0)
    ensures FirstMatch(rules, q) == Unrecognised
  {
    if rules != [] {
      assert !Mentions(q, rules[0].0);
      FirstMatchNone(rules[1..], q);
    }
  }

  /** `reply` is the first-match-wins router over `Rules`. */
  lemma ClassifyFollowsRules(q: string)
    ensures Classify(q) == FirstMatch(Rules, q)
  {
    assert Mentions(q, HelpWords) == (Contains(q, "help") || Contains(q, "how")) by {
      assert "help" in HelpWords && "how" in HelpWords;
    }
    assert Mentions(q, ListWords) == (Contains(q, "list") || Contains(q, "show") || Contains(q, "coins")) by {
      assert "list" in ListWords && "show" in ListWords && "coins" in ListWords;
    }
    var groups := [SustainWords, TrendWords, InvestWords, HelpWords, ListWords];
    assert forall n :: 0 <= n < |Rules| ==> Rules[n].0 == groups[n];
    if Mentions(q, SustainWords) {
      FirstMatchIsEarliest(Rules, q, 0);
    } else if Mentions(q, TrendWords) {
      FirstMatchIsEarliest(Rules, q, 1);
    } else if Mentions(q, InvestWords) {
      FirstMatchIsEarliest(Rules, q, 2);
    } else if Mentions(q, HelpWords) {
      FirstMatchIsEarliest(Rules, q, 3);
    } else if Mentions(q, ListWords) {
      FirstMatchIsEarliest(Rules, q, 4);
    } else {
      FirstMatchNone(Rules, q);
    }
  }

  /** A query containing "recommend" also contains "eco", so it is answered
      with the most sustainable coin: the investment test never sees it. */
  lemma RecommendMeansSustainable(db: seq<Coin>, input: string)
    requires Contains(Normalize(input), "recommend")
    ensures Reply(db, input) == MostSustainable(db)
  {
    RecommendMentionsEco(Normalize(input));
    RoutesToSustainable(db, Normalize(input));
  }

  lemma RecommendMentionsEco(q: string)
    requires Contains(q, "recommend")
    ensures Mentions(q, SustainWords)
  {
    assert OccursAt("recommend", "eco", 1);
    ContainsTransitive(q, "recommend", "eco");
    assert "eco" in SustainWords;
  }

  /** A query containing "show" also contains "how", so unless an earlier group
      claims it, it gets the help text and never the listing. */
  lemma ShowMeansHelp(q: string)
    requires Contains(q, "show")
    ensures Classify(q) != AskList && Classify(q) != Unrecognised
    ensures !Mentions(q, SustainWords) && !Mentions(q, TrendWords) && !Mentions(q, InvestWords) ==>
      Classify(q) == AskHelp
  {
    assert OccursAt("show", "how", 1);
    ContainsTransitive(q, "show", "how");
  }

  /** A trend keyword outranks every investment keyword. */
  lemma TrendOutranksInvest(q: string, w: string)
    requires w in TrendWords && Contains(q, w) && !Mentions(q, SustainWords)
    ensures Classify(q) == AskTrend
  {
  }

  /** Upper or lower case in the question makes no difference. */
  lemma IgnoresCase(db: seq<Coin>, a: string, b: string)
    requires Lower(a) == Lower(b)
    ensures Reply(db, a) == Reply(db, b)
  {
  }

  /** Whitespace around the question makes no difference. */
  lemma IgnoresSurroundingSpace(db: seq<Coin>, w1: string, x: string, w2: string)
    requires AllSpace(w1) && AllSpace(w2)
    ensures Reply(db, w1 + x + w2) == Reply(db, x)
  {
    NormalizeIgnoresPadding(w1, x, w2);
  }

  lemma NormalizeIgnoresPadding(w1: string, x: string, w2: string)
    requires AllSpace(w1) && AllSpace(w2)
    ensures Normalize(w1 + x + w2) == Normalize(x)
  {
    LowerAppend(w1 + x, w2);
    LowerAppend(w1, x);
    LowerKeepsSpace(w1);
    LowerKeepsSpace(w2);
    StripIgnoresPadding(Lower(w1), Lower(x), Lower(w2));
  }

  // ---------------------------------------------------------------- text

  const Disclaimer := "I am a simple rule-based advisor. Crypto is risky\U{2014}always do your own research. "
    + "This is not financial advice."

  const HelpText := "I can answer: 'Which crypto is trending up?', 'What's the most sustainable coin?', "
    + "'Which coin should I buy?', 'List coins'. Try: 'Which crypto should I buy for long-term growth?'"

  const NotUnderstoodText := "Sorry, I didn't understand. Try asking: 'Which crypto is trending up?' "
    + "or 'What's the most sustainable coin?'"

  const ListHeader := "Coins in my dataset:"

  /** One line of `_list_coins`. */
  function CoinLine(c: Coin): string {
    c.name + " (" + c.symbol + "): trend=" + TrendLabel(c.trend) + ", market_cap=" + TierLabel(c.cap)
      + ", sustainability=" + FormatTenths(c.score) + "/10"
  }

  function ListLines(coins: seq<Coin>): (lines: seq<string>)
    ensures |lines| == |coins|
    ensures forall i :: 0 <= i < |coins| ==> lines[i] == CoinLine(coins[i])
  {
    seq(|coins|, i requires 0 <= i < |coins| => CoinLine(coins[i]))
  }

  /** The text the advisor prints for an answer. */
  function Render(a: Answer): string {
    match a
    case Sustainable(c) =>
      "\U{1F331} Most sustainable: " + c.name + " (" + c.symbol + "). Sustainability score: "
        + FormatTenths(c.score) + "/10. Energy use: " + TierLabel(c.energy) + ". " + Disclaimer
    case Trending(c) =>
      "\U{1F680} Trending: " + c.name + " (" + c.symbol + ") is trending up with market cap "
        + TierLabel(c.cap) + ". Energy use: " + TierLabel(c.energy) + ". " + Disclaimer
    case NoRising => "No coins are currently marked as 'rising' in my dataset."
    case LongTermPick(c) =>
      c.name + " (" + c.symbol + ") is a good long-term pick: rising trend and sustainability score "
        + FormatTenths(c.score) + "/10. " + Disclaimer
    case LongTermFallback(c) =>
      c.name + " (" + c.symbol + ") is trending and may suit long-term growth. Sustainability score: "
        + FormatTenths(c.score) + "/10. " + Disclaimer
    case NoLongTermCandidate => "I don't have a clear long-term candidate. Try asking about sustainability or trend."
    case SimplePick(c) =>
      "My simple pick: " + c.name + " (" + c.symbol + "). Trend: " + TrendLabel(c.trend) + ", market cap: "
        + TierLabel(c.cap) + ", sustainability: " + FormatTenths(c.score) + "/10. " + Disclaimer
    case Help => HelpText
    case Listing(coins) => ListHeader + "\n" + JoinLines(ListLines(coins))
    case NotUnderstood => NotUnderstoodText
  }

  lemma EndsWithAppended(p: string, d: string)
    ensures EndsWith(p + d, d)
  {
    assert (p + d)[|p + d| - |d|..] == d;
  }

  /** The disclaimer closes exactly the answers that put a coin forward. */
  lemma DisclaimerOnlyOnPicks(a: Answer)
    ensures EndsWith(Render(a), Disclaimer) <==> a.NamesCoin()
  {
    if a.NamesCoin() {
      PicksEndWithDisclaimer(a);
    } else if a.Listing? {
      ListingLacksDisclaimer(a.coins);
    } else {
      FixedTextsLackDisclaimer(a);
    }
  }

  lemma PicksEndWithDisclaimer(a: Answer)
    requires a.NamesCoin()
    ensures EndsWith(Render(a), Disclaimer)
  {
    match a
    case Sustainable(c) => SustainableEndsWithDisclaimer(c);
    case Trending(c) => TrendingEndsWithDisclaimer(c);
    case LongTermPick(c) => LongTermPickEndsWithDisclaimer(c);
    case LongTermFallback(c) => LongTermFallbackEndsWithDisclaimer(c);
    case SimplePick(c) => SimplePickEndsWithDisclaimer(c);
  }

  lemma SustainableEndsWithDisclaimer(c: Coin)
    ensures EndsWith(Render(Sustainable(c)), Disclaimer)
  {
    EndsWithAppended("\U{1F331} Most sustainable: " + c.name + " (" + c.symbol + "). Sustainability score: "
      + FormatTenths(c.score) + "/10. Energy use: " + TierLabel(c.energy) + ". ", Disclaimer);
  }

  lemma TrendingEndsWithDisclaimer(c: Coin)
    ensures EndsWith(Render(Trending(c)), Disclaimer)
  {
    EndsWithAppended("\U{1F680} Trending: " + c.name + " (" + c.symbol + ") is trending up with market cap "
      + TierLabel(c.cap) + ". Energy use: " + TierLabel(c.energy) + ". ", Disclaimer);
  }

  lemma LongTermPickEndsWithDisclaimer(c: Coin)
    ensures EndsWith(Render(LongTermPick(c)), Disclaimer)
  {
    EndsWithAppended(c.name + " (" + c.symbol + ") is a good long-term pick: rising trend and sustainability score "
      + FormatTenths(c.score) + "/10. ", Disclaimer);
  }

  lemma LongTermFallbackEndsWithDisclaimer(c: Coin)
    ensures EndsWith(Render(LongTermFallback(c)), Disclaimer)
  {
    EndsWithAppended(c.name + " (" + c.symbol + ") is trending and may suit long-term growth. Sustainability score: "
      + FormatTenths(c.score) + "/10. ", Disclaimer);
  }

  lemma SimplePickEndsWithDisclaimer(c: Coin)
    ensures EndsWith(Render(SimplePick(c)), Disclaimer)
  {
    EndsWithAppended("My simple pick: " + c.name + " (" + c.symbol + "). Trend: " + TrendLabel(c.trend) + ", market cap: "
      + TierLabel(c.cap) + ", sustainability: " + FormatTenths(c.score) + "/10. ", Disclaimer);
  }

  /** The fixed texts end otherwise than the disclaimer: in a quote, or too short. */
  lemma FixedTextsLackDisclaimer(a: Answer)
    requires a.NoRising? || a.NoLongTermCandidate? || a.Help? || a.NotUnderstood?
    ensures !EndsWith(Render(a), Disclaimer)
  {
    if a.Help? {
      HelpTextLacksDisclaimer();
    } else if a.NotUnderstood? {
      NotUnderstoodLacksDisclaimer();
    } else if a.NoRising? {
      NoRisingLacksDisclaimer();
    } else {
      NoCandidateLacksDisclaimer();
    }
  }

  lemma NoRisingLacksDisclaimer()
    ensures !EndsWith(Render(NoRising), Disclaimer)
  {
    assert |Render(NoRising)| < |Disclaimer|;
  }

  lemma NoCandidateLacksDisclaimer()
    ensures !EndsWith(Render(NoLongTermCandidate), Disclaimer)
  {
    assert |Render(NoLongTermCandidate)| < |Disclaimer|;
  }

  lemma HelpTextLacksDisclaimer()
    ensures !EndsWith(HelpText, Disclaimer)
  {
    LastCharacterDiffers("I can answer: 'Which crypto is trending up?', 'What's the most sustainable coin?', ",
      "'Which coin should I buy?', 'List coins'. Try: 'Which crypto should I buy for long-term growth?'",
      "I am a simple rule-based advisor. Crypto is risky\U{2014}always do your own research. ",
      "This is not financial advice.");
  }

  lemma NotUnderstoodLacksDisclaimer()
    ensures !EndsWith(NotUnderstoodText, Disclaimer)
  {
    LastCharacterDiffers("Sorry, I didn't understand. Try asking: 'Which crypto is trending up?' ",
      "or 'What's the most sustainable coin?'",
      "I am a simple rule-based advisor. Crypto is risky\U{2014}always do your own research. ",
      "This is not financial advice.");
  }

  lemma LastCharacterDiffers(p: string, t: string, p': string, t': string)
    requires t != [] && t' != [] && t[|t| - 1] != t'[|t'| - 1]
    ensures !EndsWith(p + t, p' + t')
  {
    var s := p + t;
    var d := p' + t';
    assert s[|s| - 1] == t[|t| - 1] && d[|d| - 1] == t'[|t'| - 1];
    if |d| <= |s| {
      assert s[|s| - |d|..][|d| - 1] == s[|s| - 1];
    }
  }

  /** The listing ends in a newline or in the last line's "/10". */
  lemma ListingLacksDisclaimer(coins: seq<Coin>)
    ensures !EndsWith(Render(Listing(coins)), Disclaimer)
  {
    var d := Disclaimer;
    assert d[|d| - 1] == '.';
    ListingText(coins);
    var s := Render(Listing(coins));
    var body := JoinLines(ListLines(coins));
    if coins == [] {
      assert s[|s| - 1] == '\n';
    } else {
      ListingBodyEnd(coins);
      assert s[|s| - 1] == body[|body| - 1];
    }
  }

  /** The lines of a non-empty listing end in the last coin's "/10". */
  lemma ListingBodyEnd(coins: seq<Coin>)
    requires coins != []
    ensures var body := JoinLines(ListLines(coins)); |body| > 0 && body[|body| - 1] == '0'
  {
    var lines := ListLines(coins);
    CoinLineEnd(coins[|coins| - 1]);
    JoinLinesLast(lines);
  }

  lemma CoinLineEnd(c: Coin)
    ensures |CoinLine(c)| > 0 && CoinLine(c)[|CoinLine(c)| - 1] == '0'
  {
  }

  /** The listing is the header line followed by one line per coin, in table order
      (an empty table leaves one empty line after the header). */
  lemma ListingLayout(coins: seq<Coin>)
    requires forall c :: c in coins ==> SingleLine(c)
    ensures SplitLines(Render(Listing(coins))) ==
      [ListHeader] + if coins == [] then [""] else ListLines(coins)
  {
    ListingText(coins);
    ListingTextLayout(coins);
  }

  lemma ListingText(coins: seq<Coin>)
    ensures Render(Listing(coins)) == ListHeader + "\n" + JoinLines(ListLines(coins))
  {
  }

  lemma ListingTextLayout(coins: seq<Coin>)
    requires forall c :: c in coins ==> SingleLine(c)
    ensures SplitLines(ListHeader + "\n" + JoinLines(ListLines(coins))) ==
      [ListHeader] + if coins == [] then [""] else ListLines(coins)
  {
    var lines := ListLines(coins);
    SplitSingleLine(ListHeader, JoinLines(lines));
    if coins != [] {
      ListLinesAreSingle(coins);
      SplitJoinLines(lines);
    }
  }

  lemma ListLinesAreSingle(coins: seq<Coin>)
    requires forall c :: c in coins ==> SingleLine(c)
    ensures forall m :: 0 <= m < |coins| ==> '\n' !in ListLines(coins)[m]
  {
    forall m | 0 <= m < |coins| ensures '\n' !in ListLines(coins)[m] {
      CoinLineIsOneLine(coins[m]);
    }
  }

  lemma CoinLineIsOneLine(c: Coin)
    requires SingleLine(c)
    ensures '\n' !in CoinLine(c)
  {
    var f := FormatTenths(c.score);
    assert '\n' !in f by {
      assert forall i :: 0 <= i < |f| ==> f[i] != '\n';
    }
  }

  // ------------------------------------------------------ the fixed table

  /** `_list_coins` on `crypto_db`: the header, then one line per coin. */
  lemma TableListingLayout()
    ensures SplitLines(Render(Listing(CryptoDb))) == [ListHeader] + ListLines(CryptoDb)
  {
    TableIsWellFormed();
    ListingLayout(CryptoDb);
  }

  /** `_most_sustainable` on `crypto_db` names Algorand, whose 9/10 no coin matches. */
  lemma TableMostSustainable()
    ensures MostSustainable(CryptoDb) == Says(Sustainable(Algorand))
  {
    var s := SustainableIndex(CryptoDb);
    assert s == 0 || s == 1 || s == 2 || s == 3;
    assert CryptoDb[s].score >= CryptoDb[3].score;
  }

  /** Bitcoin and Cardano are the rising coins, and Bitcoin's market cap ranks higher. */
  lemma TableTrendingUp()
    ensures TrendingUp(CryptoDb) == Says(Trending(Bitcoin))
  {
    var db := CryptoDb;
    var t := TopCapRising(db);
    assert IsRising(db[0]);
    assert forall j :: 0 <= j < |db| ==> !db[j].cap.OtherTier?;
    assert t.Picked?;
    assert t.index == 0;
    assert CapRank(db[t.index].cap) >= CapRank(db[0].cap);
  }

  /** Cardano, rising with 8/10 > 7/10, is the first and only long-term candidate. */
  lemma TableLongTerm()
    ensures FirstLongTerm(CryptoDb) == Some(2) && CryptoDb[2] == Cardano
  {
    var l := FirstLongTerm(CryptoDb);
    assert LongTermCandidate(CryptoDb[2]);
    assert l.value == 0 || l.value == 1 || l.value == 2;
  }

  /** `coin_score` ties Bitcoin (2 + 0.3 + 1.5) with Cardano (2 + 0.8 + 1) at 3.8,
      and `max` keeps Bitcoin, the earlier of the two in the table. */
  lemma TableDefaultPick()
    ensures CoinScore(Bitcoin) == CoinScore(Cardano) == 38
    ensures CoinScore(Ethereum) == 31 && CoinScore(Algorand) == 14
    ensures DefaultIndex(CryptoDb) == 0 && CryptoDb[0] == Bitcoin
  {
    var p := DefaultIndex(CryptoDb);
    assert p == 0 || p == 1 || p == 2 || p == 3;
    assert CoinScore(CryptoDb[p]) >= CoinScore(CryptoDb[0]);
  }

  /** `_recommend_for_investment` on `crypto_db`: Cardano for a long-term question,
      Bitcoin otherwise. */
  lemma TableInvestment(q: string)
    ensures Contains(q, "long") ==> RecommendForInvestment(CryptoDb, q) == Says(LongTermPick(Cardano))
    ensures !Contains(q, "long") ==> RecommendForInvestment(CryptoDb, q) == Says(SimplePick(Bitcoin))
  {
    TableLongTerm();
    TableDefaultPick();
  }

  // ------------------------------------------------- questions, worked out

  lemma RoutesToSustainable(db: seq<Coin>, q: string)
    requires Mentions(q, SustainWords)
    ensures Route(db, q) == MostSustainable(db)
  {
  }

  lemma RoutesToTrend(db: seq<Coin>, q: string)
    requires !Mentions(q, SustainWords) && Mentions(q, TrendWords)
    ensures Route(db, q) == TrendingUp(db)
  {
  }

  lemma RoutesToInvest(db: seq<Coin>, q: string)
    requires !Mentions(q, SustainWords) && !Mentions(q, TrendWords) && Mentions(q, InvestWords)
    ensures Route(db, q) == RecommendForInvestment(db, q)
  {
  }

  lemma RoutesToList(db: seq<Coin>, q: string)
    requires !Mentions(q, SustainWords) && !Mentions(q, TrendWords) && !Mentions(q, InvestWords)
    requires !Contains(q, "help") && !Contains(q, "how") && Contains(q, "list")
    ensures Route(db, q) == Says(Listing(db))
  {
  }

  lemma RoutesToNothing(db: seq<Coin>, q: string)
    requires !Mentions(q, SustainWords) && !Mentions(q, TrendWords) && !Mentions(q, InvestWords)
    requires !Contains(q, "help") && !Contains(q, "how")
    requires !Contains(q, "list") && !Contains(q, "show") && !Contains(q, "coins")
    ensures Route(db, q) == Says(NotUnderstood)
  {
  }

  /** No word of `words` occurs in `q`: `missing[n]` is a character of the
      n-th word that `q` lacks. */
  lemma MentionsNone(q: string, words: seq<string>, missing: string)
    requires |missing| == |words|
    requires forall n :: 0 <= n < |words| ==> missing[n] in words[n] && missing[n] !in q
    ensures !Mentions(q, words)
  {
    forall n | 0 <= n < |words| ensures !Contains(q, words[n]) {
      AbsentCharacter(q, words[n], missing[n]);
    }
  }

  /** A query without capitals or surrounding blanks is its own normal form. */
  lemma NormalizeLowercase(input: string)
    requires forall c :: c in input ==> !('A' <= c <= 'Z')
    requires input != [] && !IsSpace(input[0]) && !IsSpace(input[|input| - 1])
    ensures Normalize(input) == input
  {
    LowerOfLowercase(input);
    StripUnpadded(input);
  }

  /** A query whose lower case has no surrounding blanks normalises to that lower case. */
  lemma NormalizeFrom(input: string, lower: string)
    requires Lower(input) == lower
    requires lower != [] && !IsSpace(lower[0]) && !IsSpace(lower[|lower| - 1])
    ensures Normalize(input) == lower
  {
    StripUnpadded(lower);
  }

  /** The sustainability question the help text suggests, as `reply` sees it after lower(). */
  lemma AskSustainableCoin()
    ensures Reply(CryptoDb, "what's the most sustainable coin?") == Says(Sustainable(Algorand))
  {
    NormalizeSustainableCoin("what's the most sustainable coin?");
    RouteSustainableCoin("what's the most sustainable coin?");
  }

  lemma NormalizeSustainableCoin(input: string)
    requires input == "what's the most sustainable coin?"
    ensures Normalize(input) == "what's the most sustainable coin?"
  {
    NormalizeLowercase(input);
  }

  lemma SustainableCoinWords(q: string)
    requires q == "what's the most sustainable coin?"
    ensures Mentions(q, SustainWords)
  {
    assert OccursAt(q, "sustain", 16);
    assert "sustain" in SustainWords;
  }

  lemma RouteSustainableCoin(q: string)
    requires q == "what's the most sustainable coin?"
    ensures Route(CryptoDb, q) == Says(Sustainable(Algorand))
  {
    SustainableCoinWords(q);
    RoutesToSustainable(CryptoDb, q);
    TableMostSustainable();
  }

  /** The buying question the help text suggests gets the default pick. */
  lemma AskWhichToBuy()
    ensures Reply(CryptoDb, "which coin should i buy?") == Says(SimplePick(Bitcoin))
  {
    NormalizeWhichToBuy("which coin should i buy?");
    RouteWhichToBuy("which coin should i buy?");
  }

  lemma NormalizeWhichToBuy(input: string)
    requires input == "which coin should i buy?"
    ensures Normalize(input) == "which coin should i buy?"
  {
    NormalizeLowercase(input);
  }

  lemma WhichToBuyGroups(q: string)
    requires q == "which coin should i buy?"
    ensures !Mentions(q, SustainWords) && !Mentions(q, TrendWords)
  {
    MentionsNone(q, SustainWords, "aeee");
    MentionsNone(q, TrendWords, "ttprgg");
  }

  lemma WhichToBuyWords(q: string)
    requires q == "which coin should i buy?"
    ensures Mentions(q, InvestWords) && !Contains(q, "long")
  {
    assert OccursAt(q, "buy", 20);
    assert "buy" in InvestWords;
    AbsentCharacter(q, "long", 'g');
  }

  lemma RouteWhichToBuy(q: string)
    requires q == "which coin should i buy?"
    ensures Route(CryptoDb, q) == Says(SimplePick(Bitcoin))
  {
    WhichToBuyGroups(q);
    WhichToBuyWords(q);
    RoutesToInvest(CryptoDb, q);
    TableInvestment(q);
  }

  /** An investment question that mentions "long" gets the long-term pick,
      whatever its capitals. */
  lemma AskInvestLong()
    ensures Reply(CryptoDb, "Invest long") == Says(LongTermPick(Cardano))
  {
    NormalizeInvestLong("Invest long");
    RouteInvestLong("invest long");
  }

  lemma NormalizeInvestLong(input: string)
    requires input == "Invest long"
    ensures Normalize(input) == "invest long"
  {
    LowerInvestLong(input);
    NormalizeFrom(input, "invest long");
  }

  lemma LowerInvestLong(input: string)
    requires input == "Invest long"
    ensures Lower(input) == "invest long"
  {
    LowerAppend(['I'], "nvest long");
    LowerOfLowercase("nvest long");
    assert Lower(['I']) == ['i'];
  }

  lemma InvestLongWords(q: string)
    requires q == "invest long"
    ensures !Mentions(q, SustainWords) && !Mentions(q, TrendWords) && Mentions(q, InvestWords)
    ensures Contains(q, "long")
  {
    MentionsNone(q, SustainWords, "acrr");
    MentionsNone(q, TrendWords, "rrurrr");
    assert OccursAt(q, "invest", 0);
    assert "invest" in InvestWords;
    assert OccursAt(q, "long", 7);
  }

  lemma RouteInvestLong(q: string)
    requires q == "invest long"
    ensures Route(CryptoDb, q) == Says(LongTermPick(Cardano))
  {
    InvestLongWords(q);
    RoutesToInvest(CryptoDb, q);
    TableInvestment(q);
  }

  /** The listing question the help text suggests. */
  lemma AskListCoins()
    ensures Reply(CryptoDb, "List coins") == Says(Listing(CryptoDb))
  {
    NormalizeListCoins("List coins");
    RouteListCoins("list coins");
  }

  lemma NormalizeListCoins(input: string)
    requires input == "List coins"
    ensures Normalize(input) == "list coins"
  {
    LowerListCoins(input);
    NormalizeFrom(input, "list coins");
  }

  lemma LowerListCoins(input: string)
    requires input == "List coins"
    ensures Lower(input) == "list coins"
  {
    LowerAppend(['L'], "ist coins");
    LowerOfLowercase("ist coins");
    assert Lower(['L']) == ['l'];
  }

  lemma ListCoinsWords(q: string)
    requires q == "list coins"
    ensures !Mentions(q, SustainWords) && !Mentions(q, TrendWords) && !Mentions(q, InvestWords)
    ensures !Contains(q, "help") && !Contains(q, "how") && Contains(q, "list")
  {
    MentionsNone(q, SustainWords, "ueee");
    MentionsNone(q, TrendWords, "eeurrr");
    MentionsNone(q, InvestWords, "behe");
    AbsentCharacter(q, "help", 'h');
    AbsentCharacter(q, "how", 'h');
    assert OccursAt(q, "list", 0);
  }

  lemma RouteListCoins(q: string)
    requires q == "list coins"
    ensures Route(CryptoDb, q) == Says(Listing(CryptoDb))
  {
    ListCoinsWords(q);
    RoutesToList(CryptoDb, q);
  }

  /** A question with no keyword at all gets the fallback message. */
  lemma AskNothingKnown()
    ensures Reply(CryptoDb, "hello there") == Says(NotUnderstood)
  {
    NormalizeNothingKnown("hello there");
    RouteNothingKnown("hello there");
  }

  lemma NormalizeNothingKnown(input: string)
    requires input == "hello there"
    ensures Normalize(input) == "hello there"
  {
    NormalizeLowercase(input);
  }

  lemma NothingKnownGroups(q: string)
    requires q == "hello there"
    ensures !Mentions(q, SustainWords) && !Mentions(q, TrendWords) && !Mentions(q, InvestWords)
  {
    MentionsNone(q, SustainWords, "acgv");
    MentionsNone(q, TrendWords, "dduigg");
    MentionsNone(q, InvestWords, "bcsi");
  }

  lemma NothingKnownWords(q: string)
    requires q == "hello there"
    ensures !Contains(q, "help") && !Contains(q, "how")
    ensures !Contains(q, "list") && !Contains(q, "show") && !Contains(q, "coins")
  {
    AbsentCharacter(q, "help", 'p');
    AbsentCharacter(q, "how", 'w');
    AbsentCharacter(q, "list", 'i');
    AbsentCharacter(q, "show", 's');
    AbsentCharacter(q, "coins", 'c');
  }

  lemma RouteNothingKnown(q: string)
    requires q == "hello there"
    ensures Route(CryptoDb, q) == Says(NotUnderstood)
  {
    NothingKnownGroups(q);
    NothingKnownWords(q);
    RoutesToNothing(CryptoDb, q);
  }

  /** A question about buying for long-term growth contains "growth", a trend
      keyword, so it gets the trending coin and never reaches the long-term branch;
      the help text's own long-term suggestion is such a question. */
  lemma AskBuyForGrowth()
    ensures Reply(CryptoDb, "buy for long-term growth") == Says(Trending(Bitcoin))
  {
    NormalizeBuyForGrowth("buy for long-term growth");
    RouteBuyForGrowth("buy for long-term growth");
  }

  lemma NormalizeBuyForGrowth(input: string)
    requires input == "buy for long-term growth"
    ensures Normalize(input) == "buy for long-term growth"
  {
    NormalizeLowercase(input);
  }

  lemma BuyForGrowthWords(q: string)
    requires q == "buy for long-term growth"
    ensures !Mentions(q, SustainWords) && Mentions(q, TrendWords)
  {
    BuyForGrowthParts(q);
    GrowthWithoutSustainWords(q, "buy for long", "term growth", 18);
  }

  lemma BuyForGrowthParts(q: string)
    requires q == "buy for long-term growth"
    ensures q == "buy for long" + ['-'] + "term growth" && q[18..24] == "growth"
  {
  }

  lemma RouteBuyForGrowth(q: string)
    requires q == "buy for long-term growth"
    ensures Route(CryptoDb, q) == Says(Trending(Bitcoin))
  {
    BuyForGrowthWords(q);
    RoutesToTrend(CryptoDb, q);
    TableTrendingUp();
  }

  /** The long-term question the help text itself suggests, as `reply` sees it
      after lower(): "growth" sends it to the trending coin. */
  lemma AskHelpSuggestion(q: string)
    requires q == "which crypto should i buy for long-term growth?"
    ensures Classify(q) == AskTrend
    ensures Route(CryptoDb, q) == Says(Trending(Bitcoin))
  {
    HelpSuggestionWords(q);
    RoutesToTrend(CryptoDb, q);
    TableTrendingUp();
  }

  lemma HelpSuggestionWords(q: string)
    requires q == "which crypto should i buy for long-term growth?"
    ensures !Mentions(q, SustainWords) && Mentions(q, TrendWords)
  {
    HelpSuggestionParts(q);
    HelpSuggestionFront("which crypto should i buy for long");
    HelpSuggestionRest("term growth?");
    GrowthWithoutSustainWords(q, "which crypto should i buy for long", "term growth?", 40);
  }

  lemma HelpSuggestionFront(front: string)
    requires front == "which crypto should i buy for long"
    ensures 'a' !in front && 'v' !in front && 'e' !in front
  {
  }

  lemma HelpSuggestionRest(rest: string)
    requires rest == "term growth?"
    ensures 'a' !in rest && 'v' !in rest && 'c' !in rest && 'n' !in rest
  {
  }

  lemma HelpSuggestionParts(q: string)
    requires q == "which crypto should i buy for long-term growth?"
    ensures q == "which crypto should i buy for long" + ['-'] + "term growth?" && q[40..46] == "growth"
  {
  }

  /** "growth" at position `at`, and no sustainability keyword: "eco" and "green"
      would have to straddle the '-' between `front` and `rest`. */
  lemma GrowthWithoutSustainWords(q: string, front: string, rest: string, at: nat)
    requires q == front + ['-'] + rest
    requires 'a' !in q && 'v' !in q && 'e' !in front && 'c' !in rest && 'n' !in rest
    requires at + 6 <= |q| && q[at..at + 6] == "growth"
    ensures !Mentions(q, SustainWords) && Mentions(q, TrendWords)
  {
    AbsentCharacter(q, "sustain", 'a');
    AbsentCharacter(q, "environment", 'v');
    AbsentCharacter(front, "eco", 'e');
    AbsentCharacter(rest, "eco", 'c');
    AbsentAcross(front, '-', rest, "eco");
    AbsentCharacter(front, "green", 'e');
    AbsentCharacter(rest, "green", 'n');
    AbsentAcross(front, '-', rest, "green");
    assert OccursAt(q, "growth", at);
    assert "growth" in TrendWords;
  }
}
