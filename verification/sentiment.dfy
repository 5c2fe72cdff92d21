/**
 * News sentiment: classifying one text by its polarity, aggregating the
 * classifications of a list of articles, and turning the aggregate into a
 * market outlook. The language model that scores a text (TextBlob) is a
 * parameter: it maps a text to its polarity and subjectivity, or to None
 * when it raises.
 */
module Sentiment {
  import opened Common

  datatype Category = Positive | Negative | Neutral

  /** What the language model reports for a text. */
  datatype Blob = Blob(polarity: real, subjectivity: real)

  /** The dictionary `analyze_text` returns. */
  datatype Score = Score(polarity: real, subjectivity: real, sentiment: Category, confidence: real)

  /** The characters `str.strip()` removes (ASCII whitespace). */
  predicate IsSpace(c: char) {
    c == ' ' || c == '\t' || c == '\n' || c == '\r' || c == '\U{000B}' || c == '\U{000C}'
  }

  /** `not text or text.strip() == ""` */
  predicate IsBlank(text: string) {
    forall i :: 0 <= i < |text| ==> IsSpace(text[i])
  }

  /** Polarities beyond +/-0.1 lean one way; the band in between, ends included, is neutral. */
  function Classify(polarity: real): (c: Category)
    ensures c == Positive <==> polarity > 0.1
    ensures c == Negative <==> polarity < -0.1
    ensures c == Neutral <==> -0.1 <= polarity <= 0.1
  {
    if polarity > 0.1 then Positive
    else if polarity < -0.1 then Negative
    else Neutral
  }

  /**
   * `analyze_text`: a blank text scores zero without consulting the model;
   * otherwise the model's polarity decides the category and its magnitude
   * is the confidence. None when the model raises.
   */
  function AnalyzeText(text: string, nlp: string -> Option<Blob>): (r: Option<Score>)
    ensures IsBlank(text) ==> r == Some(Score(0.0, 0.0, Neutral, 0.0))
    ensures !IsBlank(text) ==> (r.None? <==> nlp(text).None?)
    ensures !IsBlank(text) && r.Some? ==>
      r.value.polarity == nlp(text).value.polarity &&
      r.value.subjectivity == nlp(text).value.subjectivity &&
      r.value.sentiment == Classify(r.value.polarity) &&
      r.value.confidence == Abs(r.value.polarity)
    ensures r.Some? ==> r.value.confidence >= 0.0
  {
    if IsBlank(text) then Some(Score(0.0, 0.0, Neutral, 0.0))
    else
      match nlp(text)
      case None => None
      case Some(b) => Some(Score(b.polarity, b.subjectivity, Classify(b.polarity), Abs(b.polarity)))
  }

  /** A news article; a missing key is None. */
  datatype Article = Article(title: Option<string>, description: Option<string>)

  /** The text scored for an article: title and description joined by one space, a missing one read as empty. */
  function ArticleText(a: Article): (text: string)
    ensures |text| == |a.title.GetOr("")| + 1 + |a.description.GetOr("")|
    ensures text[|a.title.GetOr("")|] == ' '
  {
    a.title.GetOr("") + " " + a.description.GetOr("")
  }

  /** An article with neither title nor description is scored as blank text. */
  lemma EmptyArticleIsNeutral(nlp: string -> Option<Blob>)
    ensures AnalyzeText(ArticleText(Article(None, None)), nlp) == Some(Score(0.0, 0.0, Neutral, 0.0))
  {
    assert ArticleText(Article(None, None)) == " ";
  }

  // ------------------------------------------------------------ aggregation

  /** The scores of the articles the model could score, in article order. */
  function ScoresOf(articles: seq<Article>, nlp: string -> Option<Blob>): (scores: seq<Score>)
    ensures |scores| <= |articles|
  {
    if articles == [] then []
    else
      var prefix := ScoresOf(articles[..|articles| - 1], nlp);
      match AnalyzeText(ArticleText(Last(articles)), nlp)
      case None => prefix
      case Some(s) => prefix + [s]
  }

  function CategoriesOf(scores: seq<Score>): (cs: seq<Category>)
    ensures |cs| == |scores|
    ensures forall i :: 0 <= i < |scores| ==> cs[i] == scores[i].sentiment
  {
    seq(|scores|, i requires 0 <= i < |scores| => scores[i].sentiment)
  }

  function PolaritiesOf(scores: seq<Score>): (ps: seq<real>)
    ensures |ps| == |scores|
    ensures forall i :: 0 <= i < |scores| ==> ps[i] == scores[i].polarity
  {
    seq(|scores|, i requires 0 <= i < |scores| => scores[i].polarity)
  }

  /** `list.count(c)` */
  function CountOf(cs: seq<Category>, c: Category): (n: nat)
    ensures n <= |cs|
  {
    if cs == [] then 0
    else CountOf(cs[..|cs| - 1], c) + (if Last(cs) == c then 1 else 0)
  }

  /** A category wins outright only with strictly more votes than each other one; any tie is Neutral. */
  function Overall(positive: nat, negative: nat, neutral: nat): (c: Category)
    ensures c == Positive <==> positive > negative && positive > neutral
    ensures c == Negative <==> negative > positive && negative > neutral
    ensures c == Neutral <==> !(positive > negative && positive > neutral) &&
                              !(negative > positive && negative > neutral)
  {
    if positive > negative && positive > neutral then Positive
    else if negative > positive && negative > neutral then Negative
    else Neutral
  }

  /** The aggregate dictionary of `analyze_news_articles`. */
  datatype Aggregate = Aggregate(overallSentiment: Category, avgPolarity: real,
                                 positiveCount: nat, negativeCount: nat, neutralCount: nat,
                                 totalArticles: nat,
                                 positivePercent: real, negativePercent: real, neutralPercent: real)

  /** `count / total * 100` */
  function Share(count: nat, total: nat): real
    requires total > 0
  {
    (count as real) / (total as real) * 100.0
  }

  /** Shares of counts that partition the total add up to 100. */
  lemma SharesSumTo100(a: nat, b: nat, c: nat, total: nat)
    requires total > 0 && a + b + c == total
    ensures Share(a, total) + Share(b, total) + Share(c, total) == 100.0
  {
    var t := total as real;
    ShareScales(a, total);
    ShareScales(b, total);
    ShareScales(c, total);
    var x, y, z := Share(a, total), Share(b, total), Share(c, total);
    calc {
      (x + y + z) * t;
      x * t + y * t + z * t;
      (a as real) * 100.0 + (b as real) * 100.0 + (c as real) * 100.0;
      ((a + b + c) as real) * 100.0;
      100.0 * t;
    }
    CancelPositive(x + y + z, 100.0, t);
  }

  /** A share times the total gives back the count, in percent. */
  lemma ShareScales(count: nat, total: nat)
    requires total > 0
    ensures Share(count, total) * (total as real) == (count as real) * 100.0
  {
  }

  /** The whole is 100 percent of itself. */
  lemma ShareOfWhole(total: nat)
    requires total > 0
    ensures Share(total, total) == 100.0
  {
  }

  /** A share above 60 percent is more than any other part of a three-way partition. */
  lemma ShareAbove60IsMajority(x: nat, y: nat, z: nat, total: nat)
    requires total > 0 && x + y + z == total && Share(x, total) > 60.0
    ensures x > y && x > z
  {
    var t := total as real;
    assert (x as real) / t * 100.0 > 60.0;
    assert (x as real) * 100.0 > 60.0 * t;
  }

  /** The aggregate of a list of already scored articles. */
  function AggregateOfScores(scores: seq<Score>, totalArticles: nat): (r: Aggregate)
    requires scores != []
    ensures r.totalArticles == totalArticles
    ensures r.positiveCount == CountOf(CategoriesOf(scores), Positive)
    ensures r.negativeCount == CountOf(CategoriesOf(scores), Negative)
    ensures r.neutralCount == CountOf(CategoriesOf(scores), Neutral)
    ensures r.overallSentiment == Overall(r.positiveCount, r.negativeCount, r.neutralCount)
    ensures r.avgPolarity == Mean(PolaritiesOf(scores))
    ensures r.positivePercent == Share(r.positiveCount, |scores|)
    ensures r.negativePercent == Share(r.negativeCount, |scores|)
    ensures r.neutralPercent == Share(r.neutralCount, |scores|)
  {
    var cats := CategoriesOf(scores);
    var p, ng, u := CountOf(cats, Positive), CountOf(cats, Negative), CountOf(cats, Neutral);
    Aggregate(Overall(p, ng, u), Mean(PolaritiesOf(scores)), p, ng, u, totalArticles,
              Share(p, |scores|), Share(ng, |scores|), Share(u, |scores|))
  }

  /** What `analyze_news_articles` reports: None for no articles or when none could be scored. */
  function AggregateOf(articles: seq<Article>, nlp: string -> Option<Blob>): (r: Option<Aggregate>)
    ensures r.None? <==> articles == [] || ScoresOf(articles, nlp) == []
    ensures r.Some? ==> r.value == AggregateOfScores(ScoresOf(articles, nlp), |articles|)
  {
    if articles == [] then None
    else
      var scores := ScoresOf(articles, nlp);
      if scores == [] then None else Some(AggregateOfScores(scores, |articles|))
  }

  /**
   * `analyze_news_articles`: score each article in turn, keeping the
   * category and polarity of those the model could score, then aggregate.
   */
  method AnalyzeNewsArticles(articles: seq<Article>, nlp: string -> Option<Blob>)
    returns (r: Option<Aggregate>)
    ensures r == AggregateOf(articles, nlp)
  {
    if articles == [] {
      return None;
    }
    var sentiments: seq<Category> := [];
    var polarities: seq<real> := [];
    var i := 0;
    while i < |articles|
      invariant 0 <= i <= |articles|
      invariant sentiments == CategoriesOf(ScoresOf(articles[..i], nlp))
      invariant polarities == PolaritiesOf(ScoresOf(articles[..i], nlp))
    {
      assert articles[..i + 1][..i] == articles[..i];
      var result := AnalyzeText(ArticleText(articles[i]), nlp);
      if result.Some? {
        sentiments := sentiments + [result.value.sentiment];
        polarities := polarities + [result.value.polarity];
      }
      i := i + 1;
    }
    assert articles[..i] == articles;
    if sentiments == [] {
      return None;
    }
    var avgPolarity := Mean(polarities);
    var positiveCount := CountOf(sentiments, Positive);
    var negativeCount := CountOf(sentiments, Negative);
    var neutralCount := CountOf(sentiments, Neutral);
    var overall := Overall(positiveCount, negativeCount, neutralCount);
    r := Some(Aggregate(overall, avgPolarity, positiveCount, negativeCount, neutralCount, |articles|,
                        Share(positiveCount, |sentiments|),
                        Share(negativeCount, |sentiments|),
                        Share(neutralCount, |sentiments|)));
  }

  /** Every category is one of the three, so the three counts partition the list. */
  lemma {:induction false} CountsPartition(cs: seq<Category>)
    ensures CountOf(cs, Positive) + CountOf(cs, Negative) + CountOf(cs, Neutral) == |cs|
  {
    if cs != [] {
      CountsPartition(cs[..|cs| - 1]);
    }
  }

  /** The three counts of an aggregate add up to the number of scored articles. */
  lemma AggregateCountsSum(articles: seq<Article>, nlp: string -> Option<Blob>)
    requires AggregateOf(articles, nlp).Some?
    ensures var a := AggregateOf(articles, nlp).value;
      a.positiveCount + a.negativeCount + a.neutralCount == |ScoresOf(articles, nlp)| &&
      |ScoresOf(articles, nlp)| <= a.totalArticles
  {
    CountsPartition(CategoriesOf(ScoresOf(articles, nlp)));
  }

  /** The three percentages of an aggregate add up to 100. */
  lemma AggregatePercentsSumTo100(articles: seq<Article>, nlp: string -> Option<Blob>)
    requires AggregateOf(articles, nlp).Some?
    ensures var a := AggregateOf(articles, nlp).value;
      a.positivePercent + a.negativePercent + a.neutralPercent == 100.0
  {
    var a := AggregateOf(articles, nlp).value;
    AggregateCountsSum(articles, nlp);
    SharesSumTo100(a.positiveCount, a.negativeCount, a.neutralCount, |ScoresOf(articles, nlp)|);
  }

  lemma {:induction false} CountOfConstant(cs: seq<Category>, c: Category)
    requires forall i :: 0 <= i < |cs| ==> cs[i] == c
    ensures CountOf(cs, c) == |cs|
  {
    if cs != [] {
      CountOfConstant(cs[..|cs| - 1], c);
    }
  }

  /** When every scored article is Positive, the overall sentiment is Positive at 100 percent. */
  lemma AllPositiveIsPositive(articles: seq<Article>, nlp: string -> Option<Blob>)
    requires AggregateOf(articles, nlp).Some?
    requires forall s :: s in ScoresOf(articles, nlp) ==> s.sentiment == Positive
    ensures AggregateOf(articles, nlp).value.overallSentiment == Positive
    ensures AggregateOf(articles, nlp).value.positivePercent == 100.0
  {
    var scores := ScoresOf(articles, nlp);
    var cats := CategoriesOf(scores);
    assert forall i :: 0 <= i < |cats| ==> scores[i] in scores;
    CountOfConstant(cats, Positive);
    CountsPartition(cats);
    ShareOfWhole(|scores|);
    var a := AggregateOfScores(scores, |articles|);
    assert a.negativeCount == 0 && a.neutralCount == 0 && a.positiveCount == |scores|;
  }

  // --------------------------------------------------------- recommendation

  datatype Outlook = Bullish | ModeratelyBullish | Bearish | ModeratelyBearish | NeutralOutlook

  datatype Recommendation = Recommendation(recommendation: Outlook, color: string)

  /**
   * `get_sentiment_recommendation`: a Positive (Negative) overall sentiment
   * above 60 percent is Bullish (Bearish), below that Moderately so;
   * anything else is Neutral. None without data.
   */
  function Recommend(data: Option<Aggregate>): (r: Option<Recommendation>)
    ensures r.None? <==> data.None?
    ensures r.Some? ==> (r.value.recommendation == Bullish <==>
      data.value.overallSentiment == Positive && data.value.positivePercent > 60.0)
    ensures r.Some? ==> (r.value.recommendation == ModeratelyBullish <==>
      data.value.overallSentiment == Positive && data.value.positivePercent <= 60.0)
    ensures r.Some? ==> (r.value.recommendation == Bearish <==>
      data.value.overallSentiment == Negative && data.value.negativePercent > 60.0)
    ensures r.Some? ==> (r.value.recommendation == ModeratelyBearish <==>
      data.value.overallSentiment == Negative && data.value.negativePercent <= 60.0)
    ensures r.Some? ==> (r.value.recommendation == NeutralOutlook <==>
      data.value.overallSentiment == Neutral)
    ensures r.Some? ==> r.value.color == match r.value.recommendation
      case Bullish => "green"
      case ModeratelyBullish => "lightgreen"
      case Bearish => "red"
      case ModeratelyBearish => "orange"
      case NeutralOutlook => "gray"
  {
    match data
    case None => None
    case Some(a) =>
      if a.overallSentiment == Positive && a.positivePercent > 60.0 then Some(Recommendation(Bullish, "green"))
      else if a.overallSentiment == Positive then Some(Recommendation(ModeratelyBullish, "lightgreen"))
      else if a.overallSentiment == Negative && a.negativePercent > 60.0 then Some(Recommendation(Bearish, "red"))
      else if a.overallSentiment == Negative then Some(Recommendation(ModeratelyBearish, "orange"))
      else assert a.overallSentiment == Neutral; Some(Recommendation(NeutralOutlook, "gray"))
  }

  /**
   * More than 60 percent positive coverage is an outright majority, so the
   * overall sentiment is Positive and the outlook Bullish.
   */
  lemma StrongPositiveCoverageIsBullish(articles: seq<Article>, nlp: string -> Option<Blob>)
    requires AggregateOf(articles, nlp).Some?
    requires AggregateOf(articles, nlp).value.positivePercent > 60.0
    ensures Recommend(AggregateOf(articles, nlp)).value.recommendation == Bullish
  {
    var a := AggregateOf(articles, nlp).value;
    AggregateCountsSum(articles, nlp);
    ShareAbove60IsMajority(a.positiveCount, a.negativeCount, a.neutralCount, |ScoresOf(articles, nlp)|);
  }

  /** More than 60 percent negative coverage makes the outlook Bearish. */
  lemma StrongNegativeCoverageIsBearish(articles: seq<Article>, nlp: string -> Option<Blob>)
    requires AggregateOf(articles, nlp).Some?
    requires AggregateOf(articles, nlp).value.negativePercent > 60.0
    ensures Recommend(AggregateOf(articles, nlp)).value.recommendation == Bearish
  {
    var a := AggregateOf(articles, nlp).value;
    AggregateCountsSum(articles, nlp);
    ShareAbove60IsMajority(a.negativeCount, a.positiveCount, a.neutralCount, |ScoresOf(articles, nlp)|);
  }

}
