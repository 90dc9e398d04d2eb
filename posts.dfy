/** A news post as the search API returns it (the `hits` entries). */
module Posts {
  /** `tags` holds the API's `_tags` list; `url` is taken as always present. */
  datatype Post = Post(title: string, author: string, url: string, createdAt: string, tags: seq<string>)
}
