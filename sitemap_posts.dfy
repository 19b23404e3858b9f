/** `GET /sitemap-posts.xml`: a `<urlset>` of one entry per post. */
module PostsSitemap {
  import opened Wrappers
  import opened Content
  import opened SitemapProtocol
  import opened SitemapEntries

  /** The declaration and `<urlset>`, the joined post entries on their own lines, `</urlset>`. */
  function Sitemap(website: string, platform: Platform, sortedPosts: seq<Post>): string {
    UrlsetOpen + "\n" + UrlsXml(PostUrls(website, platform, sortedPosts)) + "\n" + UrlsetClose
  }

  /**
   * One entry per element of `sortedPosts`, in the same order: the post's
   * page under `posts/`, dated by `modDatetime` when it is set and by
   * `pubDatetime` otherwise, weekly, priority 0.8.
   */
  lemma SitemapContents(website: string, platform: Platform, sortedPosts: seq<Post>)
    requires CleanInputs(website, platform, "", sortedPosts, [])
    ensures ParseUrlset(Sitemap(website, platform, sortedPosts)).Some?
    ensures var us := ParseUrlset(Sitemap(website, platform, sortedPosts)).value;
      && |us| == |sortedPosts|
      && forall i :: 0 <= i < |sortedPosts| ==>
           us[i] == Url(website + "posts/" + sortedPosts[i].id + "/",
                        platform.iso(if sortedPosts[i].mod.Some? then sortedPosts[i].mod.value else sortedPosts[i].pub),
                        "weekly", "0.8")
  {
    CleanPostUrls(website, platform, "", sortedPosts, []);
    ParseOneSection(PostUrls(website, platform, sortedPosts));
  }

  /** With no posts the document is a `<urlset>` with an empty line and no entries. */
  lemma SitemapOfNoPosts(website: string, platform: Platform)
    ensures Sitemap(website, platform, []) == UrlsetOpen + "\n\n" + UrlsetClose
    ensures ParseUrlset(Sitemap(website, platform, [])) == Some([])
  {
    ParseOneSection([]);
  }
}
