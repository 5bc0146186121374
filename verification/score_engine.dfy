/**
 * The score engine: a closed-form heuristic that rates a post on seven integer
 * dimensions and averages them. The overall score is kept in tenths (an integer),
 * which is what rounding the mean to one decimal produces.
 */
module ScoreEngine {
  import opened Wrappers
  import opened Text
  import opened Listing

  function Min(a: int, b: int): int { if a <= b then a else b }
  function Max(a: int, b: int): int { if a >= b then a else b }
  function Abs(a: int): int { if a < 0 then -a else a }

  /** Python's `a // b` for a positive divisor: the largest `q` with `q * b <= a`. */
  function FloorDiv(a: int, b: int): (q: int)
    requires b > 0
    ensures q * b <= a < q * b + b
  {
    a / b
  }

  // ---------------------------------------------------------------------------
  // Sentiment

  const PositiveWords: map<string, int> :=
    map["great" := 3, "amazing" := 3, "happy" := 2, "love" := 3, "good" := 2]
  const NegativeWords: map<string, int> :=
    map["bad" := -3, "terrible" := -3, "hate" := -3, "sad" := -2, "awful" := -3]

  /** `sum(lexicon.get(w, 0) for w in tokens if w in lexicon)`. */
  function LexiconSum(tokens: seq<string>, lexicon: map<string, int>): (r: int)
    ensures (forall w :: w in lexicon ==> lexicon[w] > 0) ==> r >= 0
    ensures (forall w :: w in lexicon ==> lexicon[w] < 0) ==> r <= 0
    ensures (forall k :: 0 <= k < |tokens| ==> tokens[k] !in lexicon) ==> r == 0
    ensures ((exists k :: 0 <= k < |tokens| && tokens[k] in lexicon)
      && (forall w :: w in lexicon ==> lexicon[w] > 0)) ==> r > 0
  {
    if tokens == [] then 0
    else (if tokens[0] in lexicon then lexicon[tokens[0]] else 0) + LexiconSum(tokens[1..], lexicon)
  }

  /** The weight of one token in the two lexicons together; every other token weighs 0. */
  function Weight(w: string): (r: int)
    ensures -3 <= r <= 3
    ensures r > 0 <==> w in PositiveWords
    ensures r < 0 <==> w in NegativeWords
  {
    if w in PositiveWords then PositiveWords[w]
    else if w in NegativeWords then NegativeWords[w]
    else 0
  }

  function WeightSum(tokens: seq<string>): int
  {
    if tokens == [] then 0 else Weight(tokens[0]) + WeightSum(tokens[1..])
  }

  /** The raw lexicon sum over the lower-cased whitespace tokens of the body. */
  function RawSentiment(selftext: string): (r: int)
    ensures r == WeightSum(Words(Lower(selftext)))
    ensures -3 * WordCount(selftext) <= r <= 3 * WordCount(selftext)
  {
    var tokens := Words(Lower(selftext));
    LexiconSumsCombine(tokens);
    WeightSumBounds(tokens);
    WordCountLower(selftext);
    LexiconSum(tokens, PositiveWords) + LexiconSum(tokens, NegativeWords)
  }

  /** `max(0, min(10, 5 + raw // 5))`. */
  function NormalizedSentiment(raw: int): (r: int)
    ensures 0 <= r <= 10
    ensures 0 < r ==> 5 * (r - 5) <= raw
    ensures r < 10 ==> raw < 5 * (r - 4)
  {
    Max(0, Min(10, 5 + FloorDiv(raw, 5)))
  }

  /** The normalised sentiment of a body; a body without words is neutral. */
  function Sentiment(selftext: string): (r: int)
    ensures 0 <= r <= 10
    ensures 0 < r ==> 5 * (r - 5) <= RawSentiment(selftext)
    ensures r < 10 ==> RawSentiment(selftext) < 5 * (r - 4)
    ensures WordCount(selftext) == 0 ==> r == 5
  {
    NormalizedSentiment(RawSentiment(selftext))
  }

  /** The two per-lexicon sums of the source add up to one sum over the combined weights. */
  lemma {:induction false} LexiconSumsCombine(tokens: seq<string>)
    ensures LexiconSum(tokens, PositiveWords) + LexiconSum(tokens, NegativeWords) == WeightSum(tokens)
  {
    if tokens != [] {
      LexiconSumsCombine(tokens[1..]);
      assert !(tokens[0] in PositiveWords && tokens[0] in NegativeWords);
    }
  }

  lemma {:induction false} WeightSumBounds(tokens: seq<string>)
    ensures -3 * |tokens| <= WeightSum(tokens) <= 3 * |tokens|
  {
    if tokens != [] {
      WeightSumBounds(tokens[1..]);
    }
  }

  lemma {:induction false} WeightSumOutsideLexicon(tokens: seq<string>)
    requires forall k :: 0 <= k < |tokens| ==> tokens[k] !in PositiveWords && tokens[k] !in NegativeWords
    ensures WeightSum(tokens) == 0
  {
    if tokens != [] {
      WeightSumOutsideLexicon(tokens[1..]);
    }
  }

  /** A body none of whose lower-cased words is in a lexicon is neutral: sentiment 5. */
  lemma NeutralWithoutLexiconWords(selftext: string)
    requires forall k :: 0 <= k < |Words(Lower(selftext))| ==>
      Words(Lower(selftext))[k] !in PositiveWords && Words(Lower(selftext))[k] !in NegativeWords
    ensures RawSentiment(selftext) == 0
    ensures Sentiment(selftext) == 5
  {
    LexiconSumsCombine(Words(Lower(selftext)));
    WeightSumOutsideLexicon(Words(Lower(selftext)));
  }

  // ---------------------------------------------------------------------------
  // The seven dimensions

  /** `min(10, 6 + (word_count > 1000 and 2 or 0))`. */
  function StoryQuality(wordCount: int): (r: int)
    ensures r == 6 || r == 8
    ensures r == 8 <==> wordCount > 1000
  {
    Min(10, 6 + (if wordCount > 1000 then 2 else 0))
  }

  /** `min(10, 6 + (votes > 10000 and 2 or 0))`. */
  function ViralPotential(votes: int): (r: int)
    ensures r == 6 || r == 8
    ensures r == 8 <==> votes > 10000
  {
    Min(10, 6 + (if votes > 10000 then 2 else 0))
  }

  /** `min(10, 6 + (comments > 800 and 2 or 0))`. */
  function AudienceEngagement(comments: int): (r: int)
    ensures r == 6 || r == 8
    ensures r == 8 <==> comments > 800
  {
    Min(10, 6 + (if comments > 800 then 2 else 0))
  }

  /** `min(10, 7 + (abs(sentiment - 5) > 2 and 1 or 0))`: 8 for a sentiment far from neutral. */
  function DramaLevel(sentiment: int): (r: int)
    ensures r == 7 || r == 8
    ensures r == 8 <==> sentiment < 3 || sentiment > 7
  {
    Min(10, 7 + (if Abs(sentiment - 5) > 2 then 1 else 0))
  }

  /** `min(10, 7 + sentiment // 2)`. */
  function SatisfactionScore(sentiment: int): (r: int)
    ensures r <= 10
    ensures r == 10 <==> sentiment >= 6
    ensures r < 10 ==> 2 * (r - 7) <= sentiment < 2 * (r - 6)
    ensures 0 <= sentiment ==> 7 <= r
    ensures 0 <= sentiment ==> (r == 7 <==> sentiment <= 1)
  {
    Min(10, 7 + FloorDiv(sentiment, 2))
  }

  /** No sample, or an empty one, gives 5; otherwise 7 exactly for more than 50 comments. */
  function CommentEngagement(commentsData: Option<seq<string>>): (r: int)
    ensures r == 5 || r == 7
    ensures r == 7 <==> commentsData.Some? && |commentsData.value| > 50
  {
    if commentsData.None? || commentsData.value == [] then 5
    else Min(10, 5 + (if |commentsData.value| > 50 then 2 else 0))
  }

  /** `any('great' in c.lower() for c in comments)`. */
  function MentionsGreat(comments: seq<string>): (b: bool)
    ensures b <==> exists k :: 0 <= k < |comments| && Occurs("great", Lower(comments[k]))
  {
    if comments == [] then false
    else
      ContainsIffOccurs(Lower(comments[0]), "great");
      Contains(Lower(comments[0]), "great") || MentionsGreat(comments[1..])
  }

  /** No sample, or an empty one, gives 5; otherwise 7 exactly when some comment says "great" in any case. */
  function CommentSentiment(commentsData: Option<seq<string>>): (r: int)
    ensures r == 5 || r == 7
    ensures r == 7 <==> (commentsData.Some? &&
      exists k :: 0 <= k < |commentsData.value| && Occurs("great", Lower(commentsData.value[k])))
  {
    if commentsData.None? || commentsData.value == [] then 5
    else Min(10, 5 + (if MentionsGreat(commentsData.value) then 2 else 0))
  }

  // ---------------------------------------------------------------------------
  // The breakdown and the overall score

  datatype ScoreBreakdown = ScoreBreakdown(
    storyQuality: int,
    viralPotential: int,
    audienceEngagement: int,
    dramaLevel: int,
    commentEngagement: int,
    commentSentiment: int,
    satisfactionScore: int,
    overallTenths: int   // overall_score * 10
  )

  function DimensionSum(b: ScoreBreakdown): int
  {
    b.storyQuality + b.viralPotential + b.audienceEngagement + b.dramaLevel
    + b.commentEngagement + b.commentSentiment + b.satisfactionScore
  }

  predicate DimensionsInRange(b: ScoreBreakdown)
  {
    && 0 <= b.storyQuality <= 10 && 0 <= b.viralPotential <= 10
    && 0 <= b.audienceEngagement <= 10 && 0 <= b.dramaLevel <= 10
    && 0 <= b.commentEngagement <= 10 && 0 <= b.commentSentiment <= 10
    && 0 <= b.satisfactionScore <= 10
  }

  /**
   * `round(total / 7, 1)` in tenths: the integer nearest to `10 * total / 7`.
   * The distance is strictly below one half, so there is never a tie to break.
   */
  function MeanTenths(total: int): (t: int)
    ensures -7 < 14 * t - 20 * total < 7
  {
    var t := FloorDiv(20 * total + 7, 14);
    assert 14 * t - 20 * total != 7 by {
      var x := 7 * t - 10 * total;
      assert 14 * t - 20 * total == 2 * x;
    }
    t
  }

  /** `calculate_ai_score(post, comments_data)`. */
  function CalculateAiScore(post: RawPost, commentsData: Option<seq<string>>): (b: ScoreBreakdown)
    ensures DimensionsInRange(b)
    ensures b.storyQuality == (if WordCount(post.selftext) > 1000 then 8 else 6)
    ensures b.viralPotential == (if post.score > 10000 then 8 else 6)
    ensures b.audienceEngagement == (if post.numComments > 800 then 8 else 6)
    ensures b.dramaLevel == (if Sentiment(post.selftext) < 3 || Sentiment(post.selftext) > 7 then 8 else 7)
    ensures b.commentEngagement == CommentEngagement(commentsData)
    ensures b.commentSentiment == CommentSentiment(commentsData)
    ensures b.satisfactionScore == SatisfactionScore(Sentiment(post.selftext))
    ensures 7 <= b.satisfactionScore <= 10
    ensures b.satisfactionScore == 10 <==> Sentiment(post.selftext) >= 6
    ensures b.satisfactionScore == 7 <==> Sentiment(post.selftext) <= 1
    ensures 43 <= DimensionSum(b) <= 56
    ensures -7 < 14 * b.overallTenths - 20 * DimensionSum(b) < 7
    ensures 61 <= b.overallTenths <= 80
  {
    var votes := post.score;
    var comments := post.numComments;
    var content := Lower(post.selftext);
    var wordCount := WordCount(content);
    var tokens := Words(content);
    var sentiment := NormalizedSentiment(LexiconSum(tokens, PositiveWords) + LexiconSum(tokens, NegativeWords));
    var b := ScoreBreakdown(
      StoryQuality(wordCount),
      ViralPotential(votes),
      AudienceEngagement(comments),
      DramaLevel(sentiment),
      CommentEngagement(commentsData),
      CommentSentiment(commentsData),
      SatisfactionScore(sentiment),
      0);
    WordCountLower(post.selftext);
    b.(overallTenths := MeanTenths(DimensionSum(b)))
  }
}
