/**
 * The orchestrator `fetch_stories`: walk the fetched listing in order, keep the
 * posts that meet the three engagement thresholds, score each kept post and
 * generate its metadata, then cut the list to `limit` stories.
 *
 * The listing is an input (`None` when the fetch failed), and so is everything
 * the source takes from the clock or the random generator for one post (`Draw`).
 */
module Stories {
  import opened Wrappers
  import opened Text
  import opened Listing
  import opened ScoreEngine
  import opened Seo

  const SiteUrl: string := "https://www.reddit.com"

  /** The request's thresholds and the maximum number of stories to return. */
  datatype Criteria = Criteria(minVotes: int, minComments: int, minWords: int, limit: int)

  /**
   * What the source draws from outside for one post: `random.randint(10, 60)`
   * synthetic comments, the random choices of the metadata generator, and the
   * `datetime.now().isoformat()` reading.
   */
  datatype Draw = Draw(commentCount: nat, seo: SeoChoices, fetchedDate: string)

  predicate ValidDraw(d: Draw) {
    10 <= d.commentCount <= 60 && ValidChoices(d.seo)
  }

  predicate ValidDraws(draws: seq<Draw>) {
    forall k :: 0 <= k < |draws| ==> ValidDraw(draws[k])
  }

  /** One assembled story record. */
  datatype Story = Story(
    title: string,
    score: int,
    comments: int,
    url: string,
    content: string,
    wordCount: nat,
    fetchedDate: string,
    aiScoring: ScoreBreakdown,
    category: string,
    youtubeSeo: SeoMetadata
  )

  /** `f"Comment {i} by user"`. */
  function DummyComment(i: nat): string {
    "Comment " + NatToString(i) + " by user"
  }

  /** The synthetic comment sample handed to the score engine. */
  function DummyComments(n: nat): (cs: seq<string>)
    ensures |cs| == n
    ensures forall i :: 0 <= i < n ==> cs[i] == DummyComment(i)
  {
    seq(n, i requires 0 <= i < n => DummyComment(i))
  }

  /** The inclusive thresholds of the filter. */
  predicate Qualifies(p: RawPost, c: Criteria) {
    p.score >= c.minVotes && p.numComments >= c.minComments && WordCount(p.selftext) >= c.minWords
  }

  /** The story the source assembles for a kept post. */
  function MakeStory(p: RawPost, category: string, d: Draw): Story
    requires ValidDraw(d)
  {
    Story(
      p.title, p.score, p.numComments, SiteUrl + p.permalink, p.selftext, WordCount(p.selftext),
      d.fetchedDate,
      CalculateAiScore(p, Some(DummyComments(d.commentCount))),
      category,
      GenerateYoutubeSeo(p.title, category, d.seo))
  }

  /** Every story kept from the first `|posts|` posts, before the cut to `limit`. */
  function Assembled(posts: seq<RawPost>, draws: seq<Draw>, category: string, c: Criteria): seq<Story>
    requires |draws| == |posts| && ValidDraws(draws)
    decreases |posts|
  {
    if posts == [] then []
    else
      var n := |posts| - 1;
      Assembled(posts[..n], draws[..n], category, c)
      + (if Qualifies(posts[n], c) then [MakeStory(posts[n], category, draws[n])] else [])
  }

  /** The positions of the qualifying posts, in listing order. */
  function QualifyingIndices(posts: seq<RawPost>, c: Criteria): seq<nat>
    decreases |posts|
  {
    if posts == [] then []
    else
      var n := |posts| - 1;
      QualifyingIndices(posts[..n], c) + (if Qualifies(posts[n], c) then [n] else [])
  }

  /** Python's `s[:limit]`, a negative `limit` counting from the end. */
  function SliceTo<T>(s: seq<T>, limit: int): (r: seq<T>)
    ensures r <= s
    ensures limit >= 0 ==> |r| == Min(limit, |s|)
    ensures limit < 0 ==> |r| == Max(0, |s| + limit)
  {
    if limit >= 0 then (if limit <= |s| then s[..limit] else s)
    else if -limit <= |s| then s[..|s| + limit] else []
  }

  /**
   * The qualifying positions are exactly the positions of qualifying posts,
   * each once, in increasing order.
   */
  lemma {:induction false} QualifyingIndicesExact(posts: seq<RawPost>, c: Criteria)
    ensures forall k :: 0 <= k < |QualifyingIndices(posts, c)| ==>
      QualifyingIndices(posts, c)[k] < |posts| && Qualifies(posts[QualifyingIndices(posts, c)[k]], c)
    ensures forall k, l :: 0 <= k < l < |QualifyingIndices(posts, c)| ==>
      QualifyingIndices(posts, c)[k] < QualifyingIndices(posts, c)[l]
    ensures forall j :: 0 <= j < |posts| && Qualifies(posts[j], c) ==> j in QualifyingIndices(posts, c)
    decreases |posts|
  {
    if posts != [] {
      var n := |posts| - 1;
      var front := QualifyingIndices(posts[..n], c);
      var tail: seq<nat> := if Qualifies(posts[n], c) then [n] else [];
      QualifyingIndicesExact(posts[..n], c);
      assert QualifyingIndices(posts, c) == front + tail;
      assert forall j :: 0 <= j < n ==> posts[..n][j] == posts[j];
      assert forall k :: 0 <= k < |front| ==> front[k] < n;
    }
  }

  /** The k-th assembled story is the story of the k-th qualifying post. */
  lemma {:induction false} AssembledFollowsIndices(posts: seq<RawPost>, draws: seq<Draw>, category: string, c: Criteria)
    requires |draws| == |posts| && ValidDraws(draws)
    ensures |Assembled(posts, draws, category, c)| == |QualifyingIndices(posts, c)|
    ensures forall k :: 0 <= k < |QualifyingIndices(posts, c)| ==>
      QualifyingIndices(posts, c)[k] < |posts| &&
      Assembled(posts, draws, category, c)[k]
        == MakeStory(posts[QualifyingIndices(posts, c)[k]], category, draws[QualifyingIndices(posts, c)[k]])
    decreases |posts|
  {
    if posts != [] {
      var n := |posts| - 1;
      AssembledFollowsIndices(posts[..n], draws[..n], category, c);
      QualifyingIndicesExact(posts[..n], c);
    }
  }

  /** The record fields copied or derived from the post and the category. */
  predicate StoryOfPost(s: Story, p: RawPost, category: string) {
    && s.title == p.title && s.score == p.score && s.comments == p.numComments
    && s.url == SiteUrl + p.permalink && s.content == p.selftext
    && s.wordCount == WordCount(p.selftext) && s.category == category
  }

  /** What can be read off every returned record alone: its scores agree with its own fields. */
  predicate ConsistentStory(s: Story) {
    && DimensionsInRange(s.aiScoring)
    && (s.aiScoring.storyQuality == 8 <==> s.wordCount > 1000)
    && (s.aiScoring.viralPotential == 8 <==> s.score > 10000)
    && (s.aiScoring.audienceEngagement == 8 <==> s.comments > 800)
    && (s.aiScoring.commentEngagement == 5 || s.aiScoring.commentEngagement == 7)
    && s.aiScoring.commentSentiment == 5
    && 61 <= s.aiScoring.overallTenths <= 80
    && |s.youtubeSeo.title| <= TitleLimit
    && |s.youtubeSeo.description| <= DescriptionLimit
    && |s.youtubeSeo.tags| == 7
    && s.youtubeSeo.tags[1] == "r/" + s.category
  }

  predicate NoLetterG(s: string) {
    forall i :: 0 <= i < |s| ==> s[i] != 'g' && s[i] != 'G'
  }

  lemma DummyCommentHasNoG(i: nat)
    ensures NoLetterG(DummyComment(i))
  {
    var digits := NatToString(i);
    assert NoLetterG("Comment ") && NoLetterG(" by user") && NoLetterG(digits);
    var s := "Comment " + digits + " by user";
    forall k | 0 <= k < |s|
      ensures s[k] != 'g' && s[k] != 'G'
    {
      if k < 8 {
        assert s[k] == "Comment "[k];
      } else if k < 8 + |digits| {
        assert s[k] == digits[k - 8];
      } else {
        assert s[k] == " by user"[k - 8 - |digits|];
      }
    }
  }

  /** None of the synthetic comments says "great", so they never lift the comment sentiment. */
  lemma DummyCommentsNeverGreat(n: nat)
    ensures CommentSentiment(Some(DummyComments(n))) == 5
  {
    var cs := DummyComments(n);
    forall k | 0 <= k < n
      ensures !Occurs("great", Lower(cs[k]))
    {
      DummyCommentHasNoG(k);
      AbsentCharNotContained(Lower(cs[k]), "great");
      ContainsIffOccurs(Lower(cs[k]), "great");
    }
  }

  /** The assembled record carries the post's own fields, and its scores agree with them. */
  lemma MakeStoryConsistent(p: RawPost, category: string, d: Draw)
    requires ValidDraw(d)
    ensures StoryOfPost(MakeStory(p, category, d), p, category)
    ensures ConsistentStory(MakeStory(p, category, d))
    ensures MakeStory(p, category, d).aiScoring.commentEngagement == (if d.commentCount > 50 then 7 else 5)
  {
    DummyCommentsNeverGreat(d.commentCount);
  }

  /**
   * The cut list holds the stories of the first `limit` qualifying posts, in
   * listing order, each assembled from its own post and consistent with it.
   */
  lemma FirstQualifyingStories(posts: seq<RawPost>, draws: seq<Draw>, category: string, c: Criteria)
    requires |draws| == |posts| && ValidDraws(draws)
    ensures var r := SliceTo(Assembled(posts, draws, category, c), c.limit);
      && |r| <= |QualifyingIndices(posts, c)|
      && (c.limit >= 0 ==> |r| == Min(c.limit, |QualifyingIndices(posts, c)|))
      && forall k :: 0 <= k < |r| ==>
        var j := QualifyingIndices(posts, c)[k];
        && j < |posts|
        && Qualifies(posts[j], c)
        && r[k] == MakeStory(posts[j], category, draws[j])
        && StoryOfPost(r[k], posts[j], category)
        && ConsistentStory(r[k])
  {
    var all := Assembled(posts, draws, category, c);
    var r := SliceTo(all, c.limit);
    var q := QualifyingIndices(posts, c);
    AssembledFollowsIndices(posts, draws, category, c);
    QualifyingIndicesExact(posts, c);
    forall k | 0 <= k < |r|
      ensures q[k] < |posts| && Qualifies(posts[q[k]], c) && r[k] == MakeStory(posts[q[k]], category, draws[q[k]])
      ensures StoryOfPost(r[k], posts[q[k]], category) && ConsistentStory(r[k])
    {
      assert r[k] == all[k];
      MakeStoryConsistent(posts[q[k]], category, draws[q[k]]);
    }
  }

  /** One more post extends the assembled list by its story when it qualifies. */
  lemma AssembledStep(posts: seq<RawPost>, draws: seq<Draw>, category: string, c: Criteria, i: nat)
    requires |draws| == |posts| && ValidDraws(draws) && i < |posts|
    ensures Assembled(posts[..i + 1], draws[..i + 1], category, c)
      == Assembled(posts[..i], draws[..i], category, c)
         + (if Qualifies(posts[i], c) then [MakeStory(posts[i], category, draws[i])] else [])
  {
    assert posts[..i + 1][..i] == posts[..i];
    assert draws[..i + 1][..i] == draws[..i];
  }

  /** `fetch_stories` over a listing that was already fetched (or not). */
  method FetchStories(listing: Option<seq<RawPost>>, category: string, c: Criteria, draws: seq<Draw>)
    returns (stories: seq<Story>)
    requires listing.Some? ==> |draws| == |listing.value| && ValidDraws(draws)
    ensures listing.None? || listing.value == [] ==> stories == []
    ensures listing.Some? ==> stories == SliceTo(Assembled(listing.value, draws, category, c), c.limit)
    ensures c.limit >= 0 ==> |stories| <= c.limit
    ensures listing.Some? && c.limit >= 0 ==>
      |stories| == Min(c.limit, |QualifyingIndices(listing.value, c)|)
    ensures listing.Some? ==> |stories| <= |QualifyingIndices(listing.value, c)|
    ensures listing.Some? ==> forall k :: 0 <= k < |stories| ==>
      var j := QualifyingIndices(listing.value, c)[k];
      && j < |listing.value|
      && Qualifies(listing.value[j], c)
      && stories[k] == MakeStory(listing.value[j], category, draws[j])
      && StoryOfPost(stories[k], listing.value[j], category)
    ensures forall k :: 0 <= k < |stories| ==> ConsistentStory(stories[k])
  {
    if listing.None? {
      return [];
    }
    var posts := listing.value;
    var kept: seq<Story> := [];
    for i := 0 to |posts|
      invariant kept == Assembled(posts[..i], draws[..i], category, c)
    {
      var p := posts[i];
      var content := p.selftext;
      var wordCount := WordCount(content);
      if p.score >= c.minVotes && p.numComments >= c.minComments && wordCount >= c.minWords {
        var dummyComments := DummyComments(draws[i].commentCount);
        var scoreData := CalculateAiScore(p, Some(dummyComments));
        var seoData := GenerateYoutubeSeo(p.title, category, draws[i].seo);
        var story := Story(
          p.title, p.score, p.numComments, SiteUrl + p.permalink, content, wordCount,
          draws[i].fetchedDate, scoreData, category, seoData);
        kept := kept + [story];
      }
      AssembledStep(posts, draws, category, c, i);
    }
    assert posts[..|posts|] == posts;
    assert draws[..|draws|] == draws;
    stories := SliceTo(kept, c.limit);
    FirstQualifyingStories(posts, draws, category, c);
  }
}
