/** `formatPostDetails` of the detail screen: a post as labelled paragraphs,
    the tags joined by ", ". */
module PostDetails {
  import opened Posts
  import opened Text

  const TITLE_LABEL: string := "Title: "
  const AUTHOR_LABEL: string := "\n\nAuthor: "
  const URL_LABEL: string := "\n\nURL: "
  const CREATED_AT_LABEL: string := "\n\nCreated At: "
  const TAGS_LABEL: string := "\n\nTags: "
  const TAG_SEPARATOR: string := ", "

  /** The characters the template adds around the fields. */
  const TEMPLATE_OVERHEAD: nat := 46

  function FormatPostDetails(post: Post): (r: string)
    ensures TITLE_LABEL <= r
    ensures post.tags == [] ==> |r| >= 6 && r[|r| - 6..] == "Tags: "
  {
    TITLE_LABEL + post.title + AUTHOR_LABEL + post.author + URL_LABEL + post.url +
    CREATED_AT_LABEL + post.createdAt + TAGS_LABEL + Join(post.tags, TAG_SEPARATOR)
  }

  /** The layout of the text: each label, then its field, in the fixed order
      Title, Author, URL, Created At, Tags, so every field can be read back
      from its offset. */
  lemma FormatLayout(post: Post)
    ensures var r := FormatPostDetails(post);
            var t, a, u, c := |post.title|, |post.author|, |post.url|, |post.createdAt|;
            |r| >= TEMPLATE_OVERHEAD + t + a + u + c &&
            r[0..7] == TITLE_LABEL &&
            r[7..7 + t] == post.title &&
            r[7 + t..17 + t] == AUTHOR_LABEL &&
            r[17 + t..17 + t + a] == post.author &&
            r[17 + t + a..24 + t + a] == URL_LABEL &&
            r[24 + t + a..24 + t + a + u] == post.url &&
            r[24 + t + a + u..38 + t + a + u] == CREATED_AT_LABEL &&
            r[38 + t + a + u..38 + t + a + u + c] == post.createdAt &&
            r[38 + t + a + u + c..46 + t + a + u + c] == TAGS_LABEL &&
            r[46 + t + a + u + c..] == Join(post.tags, TAG_SEPARATOR)
  {
  }

  /** The length is the template's overhead, the four text fields, the tags
      and one separator between each two tags. */
  lemma FormatLength(post: Post)
    ensures |FormatPostDetails(post)| ==
            TEMPLATE_OVERHEAD + |post.title| + |post.author| + |post.url| + |post.createdAt| +
            TotalLength(post.tags) +
            (if post.tags == [] then 0 else (|post.tags| - 1) * |TAG_SEPARATOR|)
  {
    JoinLength(post.tags, TAG_SEPARATOR);
  }

  /** A single tag is printed as it is, with no separator. */
  lemma FormatSingleTag(post: Post, tag: string)
    requires post.tags == [tag]
    ensures var r := FormatPostDetails(post);
            |r| >= |TAGS_LABEL| + |tag| &&
            r[|r| - |tag| - |TAGS_LABEL|..] == TAGS_LABEL + tag
  {
  }
}
