# reddit-story-app: scoring-and-metadata pipeline in Dafny

This project models the core of a small web app. The app fetches the "hot" listing
of a subreddit and keeps the posts that reach three engagement thresholds. It scores
each kept post with a seven-dimension heuristic and generates video metadata for it:
a title, a description and tags. All of this logic lives in `main.py`.

The model has six modules, one per component:

- `Wrappers` (wrappers.dfy): the `Option` type. A listing whose fetch failed is `None`.
- `Text` (text.dfy): the string operations the source uses.
  - `str.lower` on ASCII letters.
  - `str.split()` as `Words`, with its word count.
  - Substring search (`'great' in s`), `s[:n]`, single-character `replace`, `join`.
  - The decimal rendering of a number inside an f-string.
- `Listing` (listing.dfy): `RawPost`, the fields of one listing child that the pipeline reads.
- `ScoreEngine` (score_engine.dfy): `calculate_ai_score`.
  - The lexicon sentiment, normalised with floor division and a clamp to [0, 10].
  - The seven threshold dimensions.
  - The overall score. It is kept as an integer number of tenths.
- `ScoreExamples` (score_examples.dfy): the score engine on three concrete posts.
- `Seo` (seo.dfy): `generate_youtube_seo`. Every random draw is an explicit `SeoChoices` input.
- `Stories` (stories.dfy): `fetch_stories` as a method with a loop.
  - The method is proved against the function `Assembled`, the list of kept stories before the cut.
  - It is also proved against `QualifyingIndices`, the positions of the qualifying posts.
  - Finally it applies Python's `[:limit]` cut (`SliceTo`).

How the model represents the source:

- **Overall score.** `overall_score` is `round(sum / 7, 1)` over floats. The model
  keeps `overallTenths`, the integer nearest to `10 * sum / 7` (`MeanTenths`). No
  sum ever lies exactly halfway between two tenths, because `20 * sum + 7` is odd.
  So neither round-half-even nor the tiny float error can pick a different tenth.
- **Dimension sum.** The dimension sum is at least 43, not 42. A satisfaction
  score of 7 needs a sentiment of at most 1, and such a sentiment raises drama to 8.
  `LowestOverallExample` shows that 43 is reached. So `overall_score` always lies
  in [6.1, 8.0].
- **Worked values.** An empty post with no comment sample scores 6, 6, 6, 7, 5, 5, 9,
  which adds up to 44 and gives an overall score of 6.3 (`EmptyPostExample`).
- **Response cache.** `requests_cache.install_cache` (main.py:8) keeps HTTP responses
  for 300 seconds. The caching is done by that library; `main.py` holds no cache
  logic of its own.
- **Order of filter and cut.** `fetch_stories` scores every qualifying post and only
  then applies `[:limit]` (main.py:112). The model does the same, and proves the
  result equal to the first `limit` qualifying posts (for a non-negative `limit`).
- **Comment sample.** `fetch_stories` makes up `randint(10, 60)` comments of the form
  "Comment i by user" (main.py:96). The model keeps these comments and takes only
  their count as an input. None of them contains "great", so in the pipeline
  `comment_sentiment` is always 5.

## Model

| member | source | states |
|---|---|---|
| Text.Words | main.py:35 | every token of `split()` is non-empty and holds no whitespace |
| Text.WordCount | main.py:35 | `len(content.split()) if content else 0` is just the number of split tokens (the empty-string guard changes nothing) |
| Text.WordsKeepText | main.py:35 | the tokens, glued together, are exactly the non-whitespace characters of the text, in order |
| Text.WordsCountStarts | main.py:94 | the word count equals the number of places where a run of non-whitespace begins |
| Text.Join | main.py:76 | `sep.join(parts)`; `WordsOfJoin` and `Seo.JoinedKeywordsLength` state its properties |
| Text.WordsOfJoin | main.py:35 | round trip: splitting non-empty whitespace-free words joined by single blanks gives the same words back |
| Text.WordsLower | main.py:34-35 | lower-casing commutes with splitting: the tokens of the lowered text are the lowered tokens |
| Text.WordCountLower | main.py:34-35 | the word count of the lowered body (used for scoring) equals that of the raw body (stored in the story) |
| Text.Lower | main.py:34 | the lowered text has the same length, and each character is lowered on its own (ASCII letters only) |
| Text.Take | main.py:69-81 | `s[:n]` has length `min(n, len(s))` and is a prefix of `s` |
| Text.ReplaceChar | main.py:78 | `replace` of one character by another keeps the length and changes exactly the matching positions |
| Text.WordOffsets | main.py:35 | the position where each token of `split()` begins; `WordsAreRuns` states what these positions are |
| Text.WordsAreRuns | main.py:35 | `split()` cuts only at whitespace: the k-th token stands in the text at an increasing position, opens a run of non-whitespace there and ends where that run ends; every run of non-whitespace is a token |
| Text.Contains | main.py:50 | the left-to-right search of `'great' in s`; `ContainsIffOccurs` states what it finds |
| Text.ContainsIffOccurs | main.py:50 | the left-to-right substring search succeeds exactly when the pattern occurs at some position |
| Text.AbsentCharNotContained | main.py:50 | a text lacking the pattern's first character never contains the pattern |
| ScoreEngine.FloorDiv | main.py:42 | `a // b` for a positive divisor is the largest `q` with `q * b <= a`, also for negative `a` |
| ScoreEngine.NormalizedSentiment | main.py:42 | the normalised sentiment lies in [0, 10] and is pinned by `5 * (r - 5) <= raw < 5 * (r - 4)`, clamped at 0 and 10 |
| ScoreEngine.LexiconSumsCombine | main.py:38-41 | the source's positive and negative sums add up to one sum of lexicon weights over all tokens |
| ScoreEngine.LexiconSum | main.py:40-41 | a lexicon of positive weights gives a non-negative sum, positive as soon as one token is in it; a lexicon of negative weights gives a non-positive sum; tokens outside the lexicon add nothing |
| ScoreEngine.RawSentiment | main.py:34-41 | the raw sum over the lower-cased tokens equals the combined weight sum, and each word moves it by at most 3, so it lies within plus or minus 3 times the word count |
| ScoreEngine.Sentiment | main.py:38-42 | the body's sentiment lies in [0, 10], is pinned to the raw sum as in `NormalizedSentiment`, and is 5 for a body without words |
| ScoreEngine.NeutralWithoutLexiconWords | main.py:38-42 | a body with no lower-cased token in either lexicon has raw sum 0 and sentiment 5 |
| ScoreEngine.StoryQuality | main.py:44 | 8 exactly when the word count exceeds 1000, otherwise 6 |
| ScoreEngine.ViralPotential | main.py:45 | 8 exactly when the votes exceed 10000, otherwise 6 |
| ScoreEngine.AudienceEngagement | main.py:46 | 8 exactly when the comment count exceeds 800, otherwise 6 |
| ScoreEngine.DramaLevel | main.py:47 | 8 exactly when the sentiment is below 3 or above 7, otherwise 7 |
| ScoreEngine.CommentEngagement | main.py:49 | 7 exactly when a sample is present and has more than 50 comments, otherwise 5 (also for no sample or an empty one) |
| ScoreEngine.MentionsGreat | main.py:50 | true exactly when some comment, lower-cased, contains "great" |
| ScoreEngine.CommentSentiment | main.py:50 | 7 exactly when a sample is present and some comment contains "great" in any case, otherwise 5 |
| ScoreEngine.SatisfactionScore | main.py:52 | 10 exactly from sentiment 6 up; below that it is pinned by `2 * (r - 7) <= sentiment < 2 * (r - 6)`, so 7 for 0 or 1, 8 for 2 or 3, 9 for 4 or 5 |
| ScoreEngine.MeanTenths | main.py:53-54 | the overall score in tenths is strictly within half a tenth of `sum / 7`, so rounding never meets a tie |
| ScoreEngine.CalculateAiScore | main.py:31-64 | every dimension in [0, 10] and tied to its input as above (drama and satisfaction through the body's `Sentiment`); the dimension sum lies in [43, 56]; the overall score is the rounded mean and lies in [6.1, 8.0] |
| ScoreExamples.SentimentExample | main.py:38-42 | "this is a great and amazing story" has raw sum 6 and sentiment 6 |
| ScoreExamples.EmptyPostExample | main.py:31-64 | an empty post with no comment sample scores 6, 6, 6, 7, 5, 5, 9, overall 6.3 |
| ScoreExamples.LowestOverallExample | main.py:42-54 | the body "bad bad" has sentiment 3, dimension sum 43 and overall 6.1, the least possible |
| Seo.Slug | main.py:78 | the first tag has at most 50 characters; each one is the title's character lower-cased, with a blank turned into '-'; it holds no blank |
| Seo.KeywordsDistinct | main.py:68 | the ten pool keywords are pairwise different |
| Seo.TitleVariations | main.py:69-73 | three templates; the first and third open with the 60-character title excerpt and always fit in 100 characters; the second holds the excerpt right after "Real <keyword>: " |
| Seo.JoinedKeywordsLength | main.py:76 | keywords joined with ", " take at most ten characters per keyword |
| Seo.FullDescription | main.py:74-77 | the uncut description opens with the title excerpt and is at most 254 characters longer than twice the category name |
| Seo.DescriptionShape | main.py:74-81 | the cut description has at most 5000 characters and opens with the title excerpt; it is not cut at all for a category of up to 2000 characters |
| Seo.TagsShape | main.py:78 | the tag list has 7 entries, and its last three are three distinct pool keywords |
| Seo.TitleKeepsExcerpt | main.py:69-80 | whichever template is chosen, the first 60 characters of the post title survive the cut to 100 (at the front for templates 1 and 3) |
| Seo.GenerateYoutubeSeo | main.py:67-83 | title at most 100 characters and containing the title excerpt; description at most 5000 characters and opening with the excerpt; 7 tags: slug, `r/<category>`, "reddit-story", "real-story", then three distinct pool keywords |
| Stories.Qualifies | main.py:95 | the filter's test: all three thresholds are inclusive (`>=`); `QualifyingIndicesExact` shows that a post is kept exactly when it passes |
| Stories.DummyComments | main.py:96 | `n` comments, the i-th being "Comment i by user" |
| Stories.MakeStory | main.py:96-110 | the record built for a kept post; `MakeStoryConsistent` states its fields and scores |
| Stories.QualifyingIndices | main.py:91-95 | the positions of qualifying posts, in listing order; `QualifyingIndicesExact` states that they are exactly these, increasing |
| Stories.Assembled | main.py:91-111 | the list the loop builds before the cut; `AssembledFollowsIndices` ties its k-th story to the k-th qualifying post |
| Stories.SliceTo | main.py:112 | `s[:limit]` is a prefix of `s` of length `min(limit, len(s))`, or `len(s) + limit` clamped at 0 for a negative limit |
| Stories.QualifyingIndicesExact | main.py:91-95 | the kept positions are strictly increasing, each within the listing, and each post there meets all three inclusive thresholds; every post that meets them is kept |
| Stories.AssembledFollowsIndices | main.py:91-111 | the k-th assembled story is the story of the k-th qualifying post, with that post's draws |
| Stories.DummyCommentsNeverGreat | main.py:96-97 | the synthetic "Comment i by user" sample never lifts `comment_sentiment` above 5 |
| Stories.MakeStoryConsistent | main.py:96-111 | a story copies title, score and comment count from its post; its URL is the site prefix plus the permalink; its word count is the body's and its category the subreddit; its scores agree with these fields; `comment_engagement` is 7 exactly for more than 50 synthetic comments |
| Stories.FetchStories | main.py:86-112 | a failed fetch or an empty listing gives no stories; otherwise the result is the first `limit` qualifying posts, in listing order, each assembled from its own post and self-consistent; for a non-negative limit its length is `min(limit, number qualifying)` |

## Left out

- `fetch_reddit_data` (main.py:13-28) is not modelled: HTTP, JSON decoding and exception handling. Its result is the `Option<seq<RawPost>>` input of `FetchStories`, and the `limit` it puts into the URL has no effect in the model.
- `requests_cache.install_cache` (main.py:8) is a foreign library that caches HTTP responses for 300 seconds. The source holds no cache logic to model.
- The Flask app and the `index` route (main.py:10, 114-130) are not modelled: form parsing, template rendering, the error message and `app.run`.
- `datetime.now().isoformat()` (main.py:106) is a clock reading. It is an opaque string input, one per post (`Draw.fetchedDate`).
- The `random` module (main.py:70-71, 76-78, 80, 96) is replaced by explicit inputs: keyword positions, samples of distinct positions, the template index and the comment count in [10, 60]. The generator itself is not modelled.
- Float division and `round(..., 1)` (main.py:53-54, 63) are modelled with exact integer arithmetic in tenths. This is exact for this source, because no tie can occur.
- `str.lower()` and `str.split()` are modelled on ASCII only. Non-ASCII letters are not lower-cased, and non-ASCII whitespace (such as U+00A0 or U+2028) does not separate words.
- Missing keys are not modelled. `calculate_ai_score` falls back to 0 and '' through `.get`, and `fetch_stories` raises `KeyError` on a post without `score`, `num_comments`, `title` or `permalink`. Every `RawPost` carries all of these fields.
- `Seo.GenerateYoutubeSeo`: the exact description text is stated only for a category of up to 2000 characters. For a longer category only the 5000-character bound and the opening are stated.
