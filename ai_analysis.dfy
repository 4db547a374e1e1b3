/**
 * The AI analysis service: two aggregations on the [-1, 1] scale, one over
 * the sentiment models (Ollama and the news feed) and one over the four
 * market models (Ollama, DeepSeek, Anthropic, OpenAI), each mapped to five
 * levels with the thresholds 0.7 and 0.4. Adapter replies are inputs: the
 * number the adapter parsed, or `None` when the request or parsing threw.
 */
module AiAnalysis {
  import opened Wrappers
  import opened Advisors
  import Indicators

  /** The five-valued answer of this service. */
  datatype Level = StrongBuy | Buy | Hold | Sell | StrongSell

  /** The threshold chain shared by `analyzeSentiment` and `analyzeMarketWithMultipleAI`. */
  function LevelOf(averageScore: real): (level: Level)
    ensures level == StrongBuy <==> averageScore > 0.7
    ensures level == StrongSell <==> averageScore < -0.7
    ensures level == Hold <==> -0.4 <= averageScore <= 0.4
  {
    if averageScore > 0.7 then StrongBuy
    else if averageScore > 0.4 then Buy
    else if averageScore < -0.7 then StrongSell
    else if averageScore < -0.4 then Sell
    else Hold
  }

  /** Levels ordered from most bearish (0) to most bullish (4). */
  function Rank(l: Level): (r: nat)
    ensures r <= 4
  {
    match l
    case StrongSell => 0
    case Sell => 1
    case Hold => 2
    case Buy => 3
    case StrongBuy => 4
  }

  /** Each level is taken on exactly one score band, and a higher score never gives a lower level. */
  lemma LevelBands(x: real, y: real)
    ensures LevelOf(x) == StrongBuy <==> x > 0.7
    ensures LevelOf(x) == Buy <==> 0.4 < x <= 0.7
    ensures LevelOf(x) == Hold <==> -0.4 <= x <= 0.4
    ensures LevelOf(x) == Sell <==> -0.7 <= x < -0.4
    ensures LevelOf(x) == StrongSell <==> x < -0.7
    ensures x <= y ==> Rank(LevelOf(x)) <= Rank(LevelOf(y))
  {
  }

  /** 'Positif' scores 1, 'Negatif' scores -1, any other string 0. */
  function ConvertSentimentToScore(sentiment: string): (score: real)
    ensures score == 1.0 <==> sentiment == "Positif"
    ensures score == -1.0 <==> sentiment == "Negatif"
    ensures score == 0.0 <==> sentiment != "Positif" && sentiment != "Negatif"
  {
    if sentiment == "Positif" then 1.0
    else if sentiment == "Negatif" then -1.0
    else 0.0
  }

  /** The clamped scores of the articles, all of which were scored. */
  function ArticleScores(articles: seq<Option<real>>): (scores: seq<real>)
    requires forall i :: 0 <= i < |articles| ==> articles[i].Some?
    ensures |scores| == |articles|
    ensures forall i :: 0 <= i < |articles| ==> scores[i] == Clamp(articles[i].value)
  {
    seq(|articles|, i requires 0 <= i < |articles| => Clamp(articles[i].value))
  }

  /**
   * `fetchNewsSentiment`: 'Netral' when the request fails or finds no
   * article, and also when scoring any one article throws (Promise.all
   * rejects); otherwise 'Positif' when the mean article score is above 0
   * and 'Negatif' when it is not.
   */
  function NewsSentiment(articles: Option<seq<Option<real>>>): (s: string)
    ensures s in {"Positif", "Negatif", "Netral"}
  {
    match articles
    case None => "Netral"
    case Some(list) =>
      if |list| == 0 then "Netral"
      else if exists i :: 0 <= i < |list| && list[i].None? then "Netral"
      else
        var scores := ArticleScores(list);
        var averageSentiment := Indicators.Sum(scores) / |scores| as real;
        if averageSentiment > 0.0 then "Positif" else "Negatif"
  }

  /** The news verdict is 'Positif' exactly when every article was scored and the clamped scores sum above 0; a zero mean reads as 'Negatif'. */
  lemma NewsSentimentPositiveIff(articles: seq<Option<real>>)
    ensures NewsSentiment(Some(articles)) == "Positif" <==>
      && |articles| > 0
      && (forall i :: 0 <= i < |articles| ==> articles[i].Some?)
      && Indicators.Sum(ArticleScores(articles)) > 0.0
    ensures NewsSentiment(Some(articles)) == "Netral" <==>
      |articles| == 0 || exists i :: 0 <= i < |articles| && articles[i].None?
  {
    if |articles| > 0 && forall i :: 0 <= i < |articles| ==> articles[i].Some? {
      var total := Indicators.Sum(ArticleScores(articles));
      var n := |articles| as real;
      assert (total / n) * n == total;
      if total / n > 0.0 {
        assert total > 0.0 by { MulPositive(total / n, n); }
      }
      if total > 0.0 {
        assert total / n > 0.0 by {
          if total / n <= 0.0 { MulNonPositive(total / n, n); }
        }
      }
    }
  }

  lemma MulNonPositive(a: real, b: real)
    requires a <= 0.0 && b > 0.0
    ensures a * b <= 0.0
  {
  }

  /** The outcomes of `['ollama', 'news']`; the news model never throws, its verdict is converted to a score. */
  function SentimentOutcomes(ollama: Option<real>, articles: Option<seq<Option<real>>>): (os: seq<Outcome>)
    ensures |os| == 2 && InRange(os)
  {
    [AdapterOutcome(ollama), Scored(ConvertSentimentToScore(NewsSentiment(articles)))]
  }

  /** The outcomes of `['ollama', 'deepseek', 'anthropic', 'openai']`, each adapter clamping its own score. */
  function MarketOutcomes(ollama: Option<real>, deepseek: Option<real>,
                          anthropic: Option<real>, openai: Option<real>): (os: seq<Outcome>)
    ensures |os| == 4 && InRange(os)
    ensures forall i :: 0 <= i < 4 ==> os[i].Scored? || os[i].Failed?
  {
    [AdapterOutcome(ollama), AdapterOutcome(deepseek), AdapterOutcome(anthropic), AdapterOutcome(openai)]
  }

  /** The loop both methods run: sum and count the non-zero scores, then average (0 with none). */
  method AverageScore(outcomes: seq<Outcome>) returns (averageScore: real)
    ensures averageScore == MeanScore(outcomes)
    ensures InRange(outcomes) ==> -1.0 <= averageScore <= 1.0
  {
    var totalScore := 0.0;
    var modelCount := 0;
    var i := 0;
    while i < |outcomes|
      invariant 0 <= i <= |outcomes|
      invariant totalScore == RawTotal(outcomes[..i])
      invariant modelCount == CountOf(outcomes[..i])
    {
      assert outcomes[..i + 1][..i] == outcomes[..i];
      match outcomes[i] {
        case Scored(sentimentScore) =>
          if sentimentScore != 0.0 {
            totalScore := totalScore + sentimentScore;
            modelCount := modelCount + 1;
          }
        case Failed =>   // the catch block logs the error and moves on
        case Skipped =>  // `continue`
      }
      i := i + 1;
    }
    assert outcomes[..i] == outcomes;
    averageScore := if modelCount > 0 then totalScore / modelCount as real else 0.0;
    if InRange(outcomes) {
      MeanScoreBounded(outcomes);
    }
  }

  /** `analyzeSentiment`: never throws; every model failure is absorbed into the average. */
  method AnalyzeSentiment(ollama: Option<real>, articles: Option<seq<Option<real>>>) returns (level: Level)
    ensures level == LevelOf(MeanScore(SentimentOutcomes(ollama, articles)))
  {
    var averageScore := AverageScore(SentimentOutcomes(ollama, articles));
    level := LevelOf(averageScore);
  }

  /** `analyzeMarketWithMultipleAI` of this service. */
  method AnalyzeMarketWithMultipleAI(ollama: Option<real>, deepseek: Option<real>,
                                     anthropic: Option<real>, openai: Option<real>) returns (level: Level)
    ensures level == LevelOf(MeanScore(MarketOutcomes(ollama, deepseek, anthropic, openai)))
  {
    var averageScore := AverageScore(MarketOutcomes(ollama, deepseek, anthropic, openai));
    level := LevelOf(averageScore);
  }

  /** With no counted model the average is 0 and the level HOLD. */
  lemma NoContributorHolds(os: seq<Outcome>)
    requires CountOf(os) == 0
    ensures MeanScore(os) == 0.0 && LevelOf(MeanScore(os)) == Hold
  {
  }

  /** Reordering the models never changes the level. */
  lemma LevelIndependentOfOrder(a: seq<Outcome>, b: seq<Outcome>)
    requires multiset(a) == multiset(b)
    ensures LevelOf(MeanScore(a)) == LevelOf(MeanScore(b))
  {
    MeanScorePermutation(a, b);
  }

  /**
   * A sentiment run whose Ollama call fails follows the news verdict alone:
   * STRONG_BUY on 'Positif', STRONG_SELL on 'Negatif', HOLD on 'Netral'.
   */
  lemma SentimentFollowsNewsWhenOllamaFails(articles: Option<seq<Option<real>>>)
    ensures var level := LevelOf(MeanScore(SentimentOutcomes(None, articles)));
      && (NewsSentiment(articles) == "Positif" ==> level == StrongBuy)
      && (NewsSentiment(articles) == "Negatif" ==> level == StrongSell)
      && (NewsSentiment(articles) == "Netral" ==> level == Hold)
  {
    var os := SentimentOutcomes(None, articles);
    assert os[..1] == [Failed];
    assert [Failed][..0] == [];
    assert os[..|os| - 1] == [Failed];
    assert CountOf([Failed]) == 0 && RawTotal([Failed]) == 0.0;
    var score := ConvertSentimentToScore(NewsSentiment(articles));
    assert os[1] == Scored(score);
    assert CountOf(os) == (if score != 0.0 then 1 else 0);
    assert RawTotal(os) == (if score != 0.0 then score else 0.0);
  }
}
