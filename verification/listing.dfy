/**
 * One post of the subreddit listing (`data.children[i].data` of the JSON the
 * listing endpoint returns), reduced to the fields the pipeline reads.
 */
module Listing {

  datatype RawPost = RawPost(
    title: string,
    selftext: string,    // the body text; empty for link posts
    score: int,          // net votes
    numComments: int,
    permalink: string    // site-relative path, starting with "/r/..."
  )
}
