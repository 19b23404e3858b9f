/**
 * The per-post and per-tag `<url>` entries. The combined sitemap, the
 * posts sitemap and the tags sitemap each build these entries with the
 * same template, so the model defines each entry once and all three
 * documents use it.
 */
module SitemapEntries {
  import opened Content
  import opened SitemapProtocol

  /** A post's entry: its page under `posts/`, dated by its effective date, weekly, 0.8. */
  function PostUrl(website: string, platform: Platform, p: Post): Url {
    Url(website + "posts/" + p.id + "/", platform.iso(EffectiveDate(p)), "weekly", "0.8")
  }

  /** A tag's entry: its page under `tags/`, dated by the build time, weekly, 0.6. `tagName` is unused. */
  function TagUrl(website: string, lastModified: string, t: TagObj): Url {
    Url(website + "tags/" + t.tag + "/", lastModified, "weekly", "0.6")
  }

  function PostUrls(website: string, platform: Platform, posts: seq<Post>): (us: seq<Url>)
    ensures |us| == |posts|
  {
    seq(|posts|, i requires 0 <= i < |posts| => PostUrl(website, platform, posts[i]))
  }

  function TagUrls(website: string, lastModified: string, tags: seq<TagObj>): (us: seq<Url>)
    ensures |us| == |tags|
  {
    seq(|tags|, i requires 0 <= i < |tags| => TagUrl(website, lastModified, tags[i]))
  }

  /**
   * What the round-trip lemmas need of the inputs: no '<' in the base URL,
   * the post ids, the tag slugs or the formatted dates. The handlers do not
   * escape any of them.
   */
  predicate CleanInputs(website: string, platform: Platform, lastModified: string, posts: seq<Post>, tags: seq<TagObj>) {
    && Clean(website)
    && Clean(lastModified)
    && (forall i :: 0 <= i < |posts| ==> Clean(posts[i].id) && Clean(platform.iso(EffectiveDate(posts[i]))))
    && (forall j :: 0 <= j < |tags| ==> Clean(tags[j].tag))
  }

  lemma CleanPostUrls(website: string, platform: Platform, lastModified: string, posts: seq<Post>, tags: seq<TagObj>)
    requires CleanInputs(website, platform, lastModified, posts, tags)
    ensures CleanUrls(PostUrls(website, platform, posts))
    ensures CleanUrls(TagUrls(website, lastModified, tags))
  {
  }
}
