/**
 * Relations between the documents.
 *
 * The posts sitemap repeats the combined sitemap's post entries, character
 * for character. The tags sitemap repeats its tag entries character for
 * character only for one build time shared by both documents. The handlers
 * read the clock separately, and with two clock reads the entries agree in
 * `loc`, `changefreq` and `priority` only.
 *
 * The sitemap index dates the posts sitemap by one of that sitemap's
 * entries only when two things hold: the index's collection and the posts
 * sitemap's list hold the same posts, and one of them is dated at or after
 * the epoch. Otherwise the date can come from a post the posts sitemap
 * leaves out, or be the epoch itself.
 */
module Consistency {
  import opened Text
  import opened Content
  import opened SitemapProtocol
  import opened SitemapEntries
  import CombinedSitemap
  import PostsSitemap
  import TagsSitemap
  import SitemapMaster

  /**
   * The joined post entries appear verbatim in both the combined and the
   * posts sitemap. That the two handlers use the same entry template
   * (src/pages/sitemap-index.xml.ts:61-66 and src/pages/sitemap-posts.xml.ts:16-21)
   * is read off the source: both models build the entries with `PostUrls`,
   * and this lemma locates that text inside each document.
   */
  lemma PostEntriesShared(website: string, platform: Platform, now: int, sortedPosts: seq<Post>, tags: seq<TagObj>)
    ensures var entries := UrlsXml(PostUrls(website, platform, sortedPosts));
      && Contains(CombinedSitemap.Sitemap(website, platform, now, sortedPosts, tags), entries)
      && Contains(PostsSitemap.Sitemap(website, platform, sortedPosts), entries)
  {
    var lastModified := platform.iso(now);
    var a := UrlsXml(CombinedSitemap.StaticPages(website, lastModified));
    var entries := UrlsXml(PostUrls(website, platform, sortedPosts));
    var c := UrlsXml(TagUrls(website, lastModified, tags));
    FrameMiddle(UrlsetOpen, a, entries, c, UrlsetClose);
    ContainsMiddle(UrlsetOpen + "\n" + a + "\n", entries, "\n" + c + "\n" + UrlsetClose);
    Assoc(UrlsetOpen + "\n" + entries, "\n", UrlsetClose);
    ContainsMiddle(UrlsetOpen + "\n", entries, "\n" + UrlsetClose);
  }

  /**
   * For one build time `now` shared by both documents, the joined tag
   * entries appear verbatim in both the combined and the tags sitemap. As for the posts, the shared
   * template (src/pages/sitemap-index.xml.ts:71-76 and src/pages/sitemap-tags.xml.ts:21-26)
   * is read off the source, so both models use `TagUrls`; this lemma locates
   * that text inside each document.
   */
  lemma TagEntriesShared(website: string, platform: Platform, now: int, sortedPosts: seq<Post>, tags: seq<TagObj>)
    ensures var entries := UrlsXml(TagUrls(website, platform.iso(now), tags));
      && Contains(CombinedSitemap.Sitemap(website, platform, now, sortedPosts, tags), entries)
      && Contains(TagsSitemap.Sitemap(website, platform, now, tags), entries)
  {
    var lastModified := platform.iso(now);
    var entries := UrlsXml(TagUrls(website, lastModified, tags));
    var head := UrlsetOpen + "\n" + UrlsXml(CombinedSitemap.StaticPages(website, lastModified)) + "\n"
      + UrlsXml(PostUrls(website, platform, sortedPosts)) + "\n";
    Assoc(head + entries, "\n", UrlsetClose);
    ContainsMiddle(head, entries, "\n" + UrlsetClose);
    var head2 := UrlsetOpen + "\n" + UrlXml(TagsSitemap.TagsIndexUrl(website, lastModified)) + "\n";
    Assoc(head2 + entries, "\n", UrlsetClose);
    ContainsMiddle(head2, entries, "\n" + UrlsetClose);
  }

  /** Reading the documents back, the posts sitemap's entries are the combined sitemap's entries after the five static pages. */
  lemma PostEntriesSlice(website: string, platform: Platform, now: int, sortedPosts: seq<Post>, tags: seq<TagObj>)
    requires CleanInputs(website, platform, platform.iso(now), sortedPosts, tags)
    ensures var all := ParseUrlset(CombinedSitemap.Sitemap(website, platform, now, sortedPosts, tags));
      var posts := ParseUrlset(PostsSitemap.Sitemap(website, platform, sortedPosts));
      && all.Some? && posts.Some?
      && |all.value| == 5 + |sortedPosts| + |tags|
      && all.value[5..5 + |sortedPosts|] == posts.value
  {
    var lastModified := platform.iso(now);
    CombinedSitemap.SitemapReadsBack(website, platform, now, sortedPosts, tags);
    CleanPostUrls(website, platform, lastModified, sortedPosts, tags);
    ParseOneSection(PostUrls(website, platform, sortedPosts));
    var st := CombinedSitemap.StaticPages(website, lastModified);
    var ps := PostUrls(website, platform, sortedPosts);
    var ts := TagUrls(website, lastModified, tags);
    assert (st + ps + ts)[5..5 + |ps|] == ps;
  }

  /**
   * For one build time `now` shared by both documents, reading them back,
   * the tags sitemap's entries after its first are the combined sitemap's
   * last entries.
   */
  lemma TagEntriesSuffix(website: string, platform: Platform, now: int, sortedPosts: seq<Post>, tags: seq<TagObj>)
    requires CleanInputs(website, platform, platform.iso(now), sortedPosts, tags)
    ensures var all := ParseUrlset(CombinedSitemap.Sitemap(website, platform, now, sortedPosts, tags));
      var ts := ParseUrlset(TagsSitemap.Sitemap(website, platform, now, tags));
      && all.Some? && ts.Some?
      && |all.value| == 5 + |sortedPosts| + |tags| && |ts.value| == 1 + |tags|
      && all.value[5 + |sortedPosts|..] == ts.value[1..]
  {
    var lastModified := platform.iso(now);
    CombinedSitemap.SitemapReadsBack(website, platform, now, sortedPosts, tags);
    CleanPostUrls(website, platform, lastModified, sortedPosts, tags);
    TagsSitemap.SitemapReadsBack(website, platform, now, tags);
    var first := [TagsSitemap.TagsIndexUrl(website, lastModified)];
    var tu := TagUrls(website, lastModified, tags);
    var st := CombinedSitemap.StaticPages(website, lastModified);
    var ps := PostUrls(website, platform, sortedPosts);
    assert (st + ps + tu)[5 + |ps|..] == tu;
    assert (first + tu)[1..] == tu;
  }

  /**
   * Each handler reads the clock itself, so the served files are built at
   * two instants `now1` and `now2`. Read back, the combined sitemap's tag
   * entries and the tags sitemap's entries after its first still agree in
   * `loc`, `changefreq` and `priority`, one by one; each `lastmod` is its own
   * document's build time.
   */
  lemma TagEntriesTwoClocks(website: string, platform: Platform, now1: int, now2: int,
                            sortedPosts: seq<Post>, tags: seq<TagObj>)
    requires CleanInputs(website, platform, platform.iso(now1), sortedPosts, tags)
    requires Clean(platform.iso(now2))
    ensures var all := ParseUrlset(CombinedSitemap.Sitemap(website, platform, now1, sortedPosts, tags));
      var ts := ParseUrlset(TagsSitemap.Sitemap(website, platform, now2, tags));
      && all.Some? && ts.Some?
      && |all.value| == 5 + |sortedPosts| + |tags| && |ts.value| == 1 + |tags|
      && var a, b := all.value[5 + |sortedPosts|..], ts.value[1..];
        forall j :: 0 <= j < |tags| ==>
          && a[j].loc == b[j].loc && a[j].changefreq == b[j].changefreq && a[j].priority == b[j].priority
          && a[j].lastmod == platform.iso(now1) && b[j].lastmod == platform.iso(now2)
  {
    var m1, m2 := platform.iso(now1), platform.iso(now2);
    CombinedSitemap.SitemapReadsBack(website, platform, now1, sortedPosts, tags);
    TagsSitemap.SitemapReadsBack(website, platform, now2, tags);
    var st := CombinedSitemap.StaticPages(website, m1);
    var ps := PostUrls(website, platform, sortedPosts);
    var tu1 := TagUrls(website, m1, tags);
    var tu2 := TagUrls(website, m2, tags);
    var first := [TagsSitemap.TagsIndexUrl(website, m2)];
    assert (st + ps + tu1)[5 + |ps|..] == tu1;
    assert (first + tu2)[1..] == tu2;
  }

  /**
   * When the collection the index folds over holds the same posts as the
   * posts sitemap, and one of them is dated at or after the epoch, the date
   * the index gives the posts sitemap is the `lastmod` of one of its entries.
   */
  lemma IndexDatesPostsSitemap(website: string, platform: Platform, posts: seq<Post>, sortedPosts: seq<Post>, k: int)
    requires multiset(posts) == multiset(sortedPosts)
    requires 0 <= k < |posts| && EffectiveDate(posts[k]) >= 0
    ensures exists i :: (0 <= i < |sortedPosts| &&
      PostUrls(website, platform, sortedPosts)[i].lastmod == platform.iso(SitemapMaster.LatestPostDate(posts)))
  {
    assert posts[k] in multiset(sortedPosts);
    var k2 :| 0 <= k2 < |sortedPosts| && sortedPosts[k2] == posts[k];
    SitemapMaster.LatestPostDateOrderFree(posts, sortedPosts);
    SitemapMaster.LatestIsAPostDate(sortedPosts, k2);
    var i :| 0 <= i < |sortedPosts| && SitemapMaster.LatestPostDate(sortedPosts) == EffectiveDate(sortedPosts[i]);
    assert PostUrls(website, platform, sortedPosts)[i].lastmod == platform.iso(EffectiveDate(sortedPosts[i]));
  }

  /**
   * Without the hypotheses of `IndexDatesPostsSitemap` the two documents can
   * disagree: the index folds the whole collection, while the posts sitemap
   * lists `getSortedPosts` of it. When that listing leaves out a post (here:
   * all of them), the index still dates the posts child by that post, and
   * the posts sitemap has no entry carrying the date.
   */
  lemma IndexDatesUnlistedPost(website: string, platform: Platform, p: Post)
    requires EffectiveDate(p) >= 0
    ensures SitemapMaster.LatestPostDate([p]) == EffectiveDate(p)
    ensures PostUrls(website, platform, []) == []
  {
  }
}
