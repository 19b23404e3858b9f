/**
 * The inputs every route handler receives: blog post records from the
 * content store, tag objects, the site configuration, and the behaviour of
 * the platform (clock formatting, URL resolution, markdown rendering) that
 * the handlers call but that is not part of this model.
 */
module Content {
  import opened Wrappers

  /**
   * A blog post. Timestamps are milliseconds since the epoch. `mod` is
   * `modDatetime`, `tags` and `ogImage` are the optional frontmatter fields,
   * `body` is the raw markdown.
   */
  datatype Post = Post(
    id: string,
    title: string,
    description: string,
    pub: int,
    mod: Option<int>,
    tags: Option<seq<string>>,
    ogImage: Option<string>,
    body: string)

  /** An element of the tag list: the URL slug and its display name. */
  datatype TagObj = TagObj(tag: string, tagName: string)

  /** The fields of the site configuration the handlers read. */
  datatype Site = Site(website: string, author: string, title: string, desc: string)

  /**
   * Library behaviour the handlers depend on, taken as given functions:
   * `Date.prototype.toISOString`, `Date.prototype.toUTCString`,
   * `Date.prototype.getFullYear`, `new URL(path, base).href`, and
   * `sanitizeHtml(marked.parse(body))`.
   */
  datatype Platform = Platform(
    iso: int -> string,
    utc: int -> string,
    fullYear: int -> int,
    resolve: (string, string) -> string,
    render: string -> string)

  /**
   * The date a post is dated by: `modDatetime || pubDatetime` in the
   * sitemaps and `modDatetime ?? pubDatetime` in the feed. A Date object is
   * always truthy, so both pick `modDatetime` exactly when it is present.
   */
  function EffectiveDate(p: Post): int {
    match p.mod
    case Some(m) => m
    case None => p.pub
  }
}
