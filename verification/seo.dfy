/**
 * The metadata generator: a video title, description and tag list for one story,
 * built from the post title and the subreddit name around a fixed keyword pool.
 * The random draws of the source are explicit inputs (`SeoChoices`), so the
 * generator is a function of the title, the category and those choices.
 */
module Seo {
  import opened Text

  const Keywords: seq<string> :=
    ["story", "reddit", "real", "drama", "life", "true", "tale", "shocking", "amazing", "2025"]

  /** Platform limits and excerpt lengths used by the generator. */
  const TitleLimit: nat := 100
  const DescriptionLimit: nat := 5000
  const TitleExcerpt: nat := 60
  const SlugLimit: nat := 50

  /**
   * The outcomes of the random draws of one call, in the order the source makes
   * them: two `random.choice(keywords)` for the title templates, `random.sample(keywords, 5)`
   * and `random.choice(keywords)` for the description, `random.sample(keywords, 3)`
   * for the tags, and `random.choice(title_variations)`. Keywords are given by position.
   */
  datatype SeoChoices = SeoChoices(
    firstKeyword: nat,
    secondKeyword: nat,
    descriptionSample: seq<nat>,
    hashtagKeyword: nat,
    tagSample: seq<nat>,
    titleVariant: nat
  )

  /** What `random.sample(keywords, k)` can return: `k` distinct positions of the pool. */
  predicate IsSample(ix: seq<nat>, k: nat) {
    && |ix| == k
    && (forall i :: 0 <= i < |ix| ==> ix[i] < |Keywords|)
    && (forall i, j :: 0 <= i < j < |ix| ==> ix[i] != ix[j])
  }

  predicate ValidChoices(c: SeoChoices) {
    && c.firstKeyword < |Keywords|
    && c.secondKeyword < |Keywords|
    && IsSample(c.descriptionSample, 5)
    && c.hashtagKeyword < |Keywords|
    && IsSample(c.tagSample, 3)
    && c.titleVariant < 3
  }

  function PickKeywords(ix: seq<nat>): (ws: seq<string>)
    requires forall i :: 0 <= i < |ix| ==> ix[i] < |Keywords|
    ensures |ws| == |ix|
    ensures forall i :: 0 <= i < |ix| ==> ws[i] == Keywords[ix[i]]
  {
    seq(|ix|, i requires 0 <= i < |ix| => Keywords[ix[i]])
  }

  datatype SeoMetadata = SeoMetadata(title: string, description: string, tags: seq<string>)

  /**
   * The three title templates, each around the first 60 characters of the post title.
   * The first and the third always fit the title limit; only the second, which
   * names the subreddit, can be cut.
   */
  function TitleVariations(title: string, category: string, c: SeoChoices): (vs: seq<string>)
    requires ValidChoices(c)
    ensures |vs| == 3
    ensures Take(title, TitleExcerpt) <= vs[0] && |vs[0]| <= TitleLimit
    ensures Take(title, TitleExcerpt) <= vs[2] && |vs[2]| <= TitleLimit
    ensures MatchAt(Take(title, TitleExcerpt), vs[1], 7 + |Keywords[c.secondKeyword]|)
  {
    var excerpt := Take(title, TitleExcerpt);
    KeywordsShort();
    var at := |"Real " + Keywords[c.secondKeyword] + ": "|;
    var second := "Real " + Keywords[c.secondKeyword] + ": " + excerpt + " from r/" + category;
    assert second[at..at + |excerpt|] == excerpt;
    [ excerpt + " | Shocking Reddit " + Keywords[c.firstKeyword] + " Story!",
      "Real " + Keywords[c.secondKeyword] + ": " + excerpt + " from r/" + category,
      excerpt + " - Best Reddit Tale 2025" ]
  }

  const DescriptionOpening: string := "Explore the gripping story '"

  /**
   * The description before it is cut to the platform limit: it opens with the
   * title excerpt and is at most 254 characters longer than twice the category name.
   */
  function FullDescription(title: string, category: string, c: SeoChoices): (d: string)
    requires ValidChoices(c)
    ensures DescriptionOpening + Take(title, TitleExcerpt) <= d
    ensures |d| <= 254 + 2 * |category|
  {
    KeywordsShort();
    JoinedKeywordsLength(PickKeywords(c.descriptionSample));
    DescriptionOpening + Take(title, TitleExcerpt) + "' from r/" + category + "! "
    + "Loaded with real drama and twists. Subscribe for more! "
    + "\n\nKeywords: " + Join(", ", PickKeywords(c.descriptionSample)) + "\n"
    + "#Reddit #Storytime #Drama #" + category + " #" + Keywords[c.hashtagKeyword]
  }

  /** `title.replace(' ', '-').lower()[:50]`. */
  function Slug(title: string): (s: string)
    ensures |s| == if |title| <= SlugLimit then |title| else SlugLimit
    ensures forall i :: 0 <= i < |s| ==> s[i] == if title[i] == ' ' then '-' else LowerChar(title[i])
    ensures forall i :: 0 <= i < |s| ==> s[i] != ' '
  {
    Take(Lower(ReplaceChar(title, ' ', '-')), SlugLimit)
  }

  /** No keyword of the pool appears twice. */
  lemma KeywordsDistinct()
    ensures forall i, j :: 0 <= i < j < |Keywords| ==> Keywords[i] != Keywords[j]
  {
  }

  lemma KeywordsShort()
    ensures forall i :: 0 <= i < |Keywords| ==> |Keywords[i]| <= 8
  {
  }

  /** Joining `n` keywords with ", " takes at most ten characters per keyword. */
  lemma {:induction false} JoinedKeywordsLength(ws: seq<string>)
    requires forall i :: 0 <= i < |ws| ==> |ws[i]| <= 8
    ensures |Join(", ", ws)| <= 10 * |ws|
  {
    if |ws| > 1 {
      JoinedKeywordsLength(ws[1..]);
    }
  }

  /** The description opens with the title excerpt, and the cut to 5000 never bites for a category of up to 2000 characters. */
  lemma DescriptionShape(title: string, category: string, c: SeoChoices)
    requires ValidChoices(c)
    ensures |Take(FullDescription(title, category, c), DescriptionLimit)| <= DescriptionLimit
    ensures DescriptionOpening + Take(title, TitleExcerpt) <= Take(FullDescription(title, category, c), DescriptionLimit)
    ensures |category| <= 2000 ==>
      Take(FullDescription(title, category, c), DescriptionLimit) == FullDescription(title, category, c)
  {
    var d := FullDescription(title, category, c);
    var head := DescriptionOpening + Take(title, TitleExcerpt);
    assert |head| <= 88;
  }

  /** The tag list: slug, subreddit, two fixed tags, then three distinct pool keywords. */
  lemma TagsShape(title: string, category: string, c: SeoChoices)
    requires ValidChoices(c)
    ensures var tags := [Slug(title), "r/" + category, "reddit-story", "real-story"] + PickKeywords(c.tagSample);
      && |tags| == 7
      && (forall k :: 4 <= k < 7 ==> tags[k] in Keywords)
      && (forall k, l :: 4 <= k < l < 7 ==> tags[k] != tags[l])
  {
    KeywordsDistinct();
    var tags := [Slug(title), "r/" + category, "reddit-story", "real-story"] + PickKeywords(c.tagSample);
    forall k | 4 <= k < 7
      ensures tags[k] == Keywords[c.tagSample[k - 4]]
    {
    }
  }

  /** `generate_youtube_seo(title, category)` under the given random choices. */
  function GenerateYoutubeSeo(title: string, category: string, c: SeoChoices): (m: SeoMetadata)
    requires ValidChoices(c)
    ensures |m.title| <= TitleLimit
    ensures Occurs(Take(title, TitleExcerpt), m.title)
    ensures c.titleVariant != 1 ==> Take(title, TitleExcerpt) <= m.title
    ensures |m.description| <= DescriptionLimit
    ensures DescriptionOpening + Take(title, TitleExcerpt) <= m.description
    ensures |category| <= 2000 ==> m.description == FullDescription(title, category, c)
    ensures |m.tags| == 7
    ensures m.tags[0] == Slug(title)
    ensures m.tags[1] == "r/" + category
    ensures m.tags[2] == "reddit-story" && m.tags[3] == "real-story"
    ensures forall k :: 4 <= k < 7 ==> m.tags[k] in Keywords
    ensures forall k, l :: 4 <= k < l < 7 ==> m.tags[k] != m.tags[l]
  {
    var variations := TitleVariations(title, category, c);
    var description := FullDescription(title, category, c);
    var tags := [Slug(title), "r/" + category, "reddit-story", "real-story"] + PickKeywords(c.tagSample);
    var m := SeoMetadata(Take(variations[c.titleVariant], TitleLimit), Take(description, DescriptionLimit), tags);
    TitleKeepsExcerpt(title, category, c);
    DescriptionShape(title, category, c);
    TagsShape(title, category, c);
    m
  }

  /** Whichever template is chosen, the 60-character excerpt of the post title survives the cut to 100. */
  lemma TitleKeepsExcerpt(title: string, category: string, c: SeoChoices)
    requires ValidChoices(c)
    ensures Occurs(Take(title, TitleExcerpt), Take(TitleVariations(title, category, c)[c.titleVariant], TitleLimit))
    ensures c.titleVariant != 1 ==>
      Take(title, TitleExcerpt) <= Take(TitleVariations(title, category, c)[c.titleVariant], TitleLimit)
  {
    var excerpt := Take(title, TitleExcerpt);
    var v := TitleVariations(title, category, c)[c.titleVariant];
    var cut := Take(v, TitleLimit);
    KeywordsShort();
    if c.titleVariant == 1 {
      var at := |"Real " + Keywords[c.secondKeyword] + ": "|;
      assert v[at..at + |excerpt|] == excerpt;
      assert cut[at..at + |excerpt|] == excerpt;
      assert MatchAt(excerpt, cut, at);
    } else {
      assert v[..|excerpt|] == excerpt;
      assert cut[..|excerpt|] == excerpt;
      assert MatchAt(excerpt, cut, 0);
    }
  }
}
