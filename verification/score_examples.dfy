/** Worked examples of the score engine on concrete posts. */
module ScoreExamples {
  import opened Wrappers
  import opened Text
  import opened Listing
  import opened ScoreEngine

  lemma ExampleJoin()
    ensures Join(" ", ["this", "is", "a", "great", "and", "amazing", "story"]) == "this is a great and amazing story"
  {
    var ws := ["this", "is", "a", "great", "and", "amazing", "story"];
    assert ws[6..] == ["story"];
    assert ws[5..] == ["amazing"] + ws[6..];
    assert ws[4..] == ["and"] + ws[5..];
    assert ws[3..] == ["great"] + ws[4..];
    assert ws[2..] == ["a"] + ws[3..];
    assert ws[1..] == ["is"] + ws[2..];
    calc {
      Join(" ", ws);
      "this" + " " + Join(" ", ws[1..]);
      "this" + " " + ("is" + " " + Join(" ", ws[2..]));
      "this" + " " + ("is" + " " + ("a" + " " + Join(" ", ws[3..])));
      "this" + " " + ("is" + " " + ("a" + " " + ("great" + " " + Join(" ", ws[4..]))));
      "this" + " " + ("is" + " " + ("a" + " " + ("great" + " " + ("and" + " " + Join(" ", ws[5..])))));
      "this" + " " + ("is" + " " + ("a" + " " + ("great" + " " + ("and" + " " + ("amazing" + " " + Join(" ", ws[6..]))))));
      "this" + " " + ("is" + " " + ("a" + " " + ("great" + " " + ("and" + " " + ("amazing" + " " + "story")))));
      "this is a great and amazing story";
    }
  }

  lemma ExampleIsLowerCase()
    ensures Lower("this is a great and amazing story") == "this is a great and amazing story"
  {
    LowerOfLower("this is a great and amazing story");
  }

  lemma ExampleAreWords(ws: seq<string>)
    requires ws == ["this", "is", "a", "great", "and", "amazing", "story"]
    ensures forall k :: 0 <= k < |ws| ==> IsWord(ws[k])
  {
  }

  lemma ExampleWeights(ws: seq<string>)
    requires ws == ["this", "is", "a", "great", "and", "amazing", "story"]
    ensures WeightSum(ws) == 6
  {
    assert WeightSum(ws[6..]) == 0;
    assert WeightSum(ws[5..]) == 3;
    assert WeightSum(ws[4..]) == 3;
    assert WeightSum(ws[3..]) == 6;
    assert WeightSum(ws[2..]) == 6;
    assert WeightSum(ws[1..]) == 6;
  }

  /** A worked example: two positive words out of seven give sentiment 6. */
  lemma SentimentExample()
    ensures RawSentiment("this is a great and amazing story") == 6
    ensures Sentiment("this is a great and amazing story") == 6
  {
    var ws := ["this", "is", "a", "great", "and", "amazing", "story"];
    ExampleIsLowerCase();
    ExampleJoin();
    ExampleAreWords(ws);
    ExampleWeights(ws);
    WordsOfJoin(ws);
    LexiconSumsCombine(ws);
  }

  /** A post with empty body, no votes, no comments and no comment sample scores 6.3 overall. */
  lemma EmptyPostExample()
    ensures CalculateAiScore(RawPost("", "", 0, 0, ""), None)
         == ScoreBreakdown(6, 6, 6, 7, 5, 5, 9, 63)
  {
  }

  /** The lower bound 43 of the dimension sum is reached: a body "bad bad" scores 6.1 overall. */
  lemma LowestOverallExample(post: RawPost)
    requires post == RawPost("", "bad bad", 0, 0, "")
    ensures Sentiment(post.selftext) == 3
    ensures DimensionSum(CalculateAiScore(post, None)) == 43
    ensures CalculateAiScore(post, None).overallTenths == 61
  {
    BadBadSentiment(post.selftext);
    BadBadWords();
    var b := CalculateAiScore(post, None);
    assert b.storyQuality == 6 && b.viralPotential == 6 && b.audienceEngagement == 6;
    assert b.commentEngagement == 5 && b.commentSentiment == 5;
    assert b.dramaLevel == 7 && b.satisfactionScore == SatisfactionScore(3) == 8;
  }

  lemma BadBadSentiment(body: string)
    requires body == "bad bad"
    ensures RawSentiment(body) == -6
    ensures Sentiment(body) == 3
  {
    BadBadWords();
    assert WeightSum(["bad", "bad"]) == -6;
  }

  lemma BadBadWords()
    ensures WordCount("bad bad") == 2
    ensures Words(Lower("bad bad")) == ["bad", "bad"]
  {
    LowerOfLower("bad bad");
    assert "bad bad" == "bad" + " " + "bad";
    WordsSpaced("bad", "bad");
    WordsOfWord("bad");
  }
}
