/**
 * `GET /sitemap-index.xml`: despite its name a `<urlset>`, not a sitemap
 * index. It lists five static pages, then every post, then every tag.
 * `lastModified` is the build time formatted once, shared by the static and
 * the tag entries.
 */
module CombinedSitemap {
  import opened Wrappers
  import opened Text
  import opened Content
  import opened SitemapProtocol
  import opened SitemapEntries

  /** The `staticPages` table: home, about, search, tags index, archives. */
  function StaticPages(website: string, lastModified: string): seq<Url> {
    [ Url(website, lastModified, "daily", "1.0"),
      Url(website + "about/", lastModified, "monthly", "0.8"),
      Url(website + "search/", lastModified, "weekly", "0.7"),
      Url(website + "tags/", lastModified, "weekly", "0.7"),
      Url(website + "archives/", lastModified, "weekly", "0.7") ]
  }

  /**
   * The document: the XML declaration and `<urlset>` on two lines, then the
   * static, post and tag sections, each joined by line breaks and each on
   * its own line (an empty section leaves an empty line), then `</urlset>`.
   */
  function Sitemap(website: string, platform: Platform, now: int, sortedPosts: seq<Post>, tags: seq<TagObj>): string {
    var lastModified := platform.iso(now);
    UrlsetOpen + "\n"
      + UrlsXml(StaticPages(website, lastModified)) + "\n"
      + UrlsXml(PostUrls(website, platform, sortedPosts)) + "\n"
      + UrlsXml(TagUrls(website, lastModified, tags)) + "\n"
      + UrlsetClose
  }

  /** All entries in document order. */
  function Urls(website: string, platform: Platform, now: int, sortedPosts: seq<Post>, tags: seq<TagObj>): seq<Url> {
    var lastModified := platform.iso(now);
    StaticPages(website, lastModified) + PostUrls(website, platform, sortedPosts) + TagUrls(website, lastModified, tags)
  }

  /**
   * The combined sitemap lists, in this order, the five static pages with
   * their fixed change frequencies and priorities, one entry per post of
   * `sortedPosts` dated by its effective date, and one entry per tag; every
   * static and tag entry carries the same build time.
   */
  lemma SitemapContents(website: string, platform: Platform, now: int, sortedPosts: seq<Post>, tags: seq<TagObj>)
    requires CleanInputs(website, platform, platform.iso(now), sortedPosts, tags)
    ensures ParseUrlset(Sitemap(website, platform, now, sortedPosts, tags)).Some?
    ensures var us := ParseUrlset(Sitemap(website, platform, now, sortedPosts, tags)).value;
      && |us| == 5 + |sortedPosts| + |tags|
      && us[0] == Url(website, platform.iso(now), "daily", "1.0")
      && us[1] == Url(website + "about/", platform.iso(now), "monthly", "0.8")
      && us[2] == Url(website + "search/", platform.iso(now), "weekly", "0.7")
      && us[3] == Url(website + "tags/", platform.iso(now), "weekly", "0.7")
      && us[4] == Url(website + "archives/", platform.iso(now), "weekly", "0.7")
      && (forall i :: 0 <= i < |sortedPosts| ==>
            us[5 + i] == Url(website + "posts/" + sortedPosts[i].id + "/",
                             platform.iso(if sortedPosts[i].mod.Some? then sortedPosts[i].mod.value else sortedPosts[i].pub),
                             "weekly", "0.8"))
      && (forall j :: 0 <= j < |tags| ==>
            us[5 + |sortedPosts| + j] == Url(website + "tags/" + tags[j].tag + "/", platform.iso(now), "weekly", "0.6"))
  {
    SitemapReadsBack(website, platform, now, sortedPosts, tags);
    UrlsInOrder(website, platform, now, sortedPosts, tags);
  }

  /** The entries in document order, one by one. */
  lemma UrlsInOrder(website: string, platform: Platform, now: int, sortedPosts: seq<Post>, tags: seq<TagObj>)
    ensures var us := Urls(website, platform, now, sortedPosts, tags);
      && |us| == 5 + |sortedPosts| + |tags|
      && us[..5] == StaticPages(website, platform.iso(now))
      && (forall i :: 0 <= i < |sortedPosts| ==> us[5 + i] == PostUrl(website, platform, sortedPosts[i]))
      && (forall j :: 0 <= j < |tags| ==> us[5 + |sortedPosts| + j] == TagUrl(website, platform.iso(now), tags[j]))
  {
    var us := Urls(website, platform, now, sortedPosts, tags);
    var st := StaticPages(website, platform.iso(now));
    var ps := PostUrls(website, platform, sortedPosts);
    var ts := TagUrls(website, platform.iso(now), tags);
    assert us == st + ps + ts;
    forall i | 0 <= i < |sortedPosts|
      ensures us[5 + i] == PostUrl(website, platform, sortedPosts[i])
    {
      assert us[5 + i] == ps[i];
    }
    forall j | 0 <= j < |tags|
      ensures us[5 + |sortedPosts| + j] == TagUrl(website, platform.iso(now), tags[j])
    {
      assert us[5 + |sortedPosts| + j] == ts[j];
    }
  }

  lemma CleanStaticPages(website: string, lastModified: string)
    requires Clean(website) && Clean(lastModified)
    ensures CleanUrls(StaticPages(website, lastModified))
  {
    CleanConcat(website, "about/");
    CleanConcat(website, "search/");
    CleanConcat(website, "tags/");
    CleanConcat(website, "archives/");
    var ps := StaticPages(website, lastModified);
    assert CleanUrl(ps[0]) && CleanUrl(ps[1]);
    assert CleanUrl(ps[2]) && CleanUrl(ps[3]) && CleanUrl(ps[4]);
  }

  /** The document reads back as exactly its entries, in document order. */
  lemma SitemapReadsBack(website: string, platform: Platform, now: int, sortedPosts: seq<Post>, tags: seq<TagObj>)
    requires CleanInputs(website, platform, platform.iso(now), sortedPosts, tags)
    ensures ParseUrlset(Sitemap(website, platform, now, sortedPosts, tags)) == Some(Urls(website, platform, now, sortedPosts, tags))
  {
    var lastModified := platform.iso(now);
    CleanPostUrls(website, platform, lastModified, sortedPosts, tags);
    CleanStaticPages(website, lastModified);
    ParseThreeSections(StaticPages(website, lastModified), PostUrls(website, platform, sortedPosts), TagUrls(website, lastModified, tags));
  }

  /**
   * Whatever the inputs, the document opens with the XML declaration and the
   * `<urlset>` tag in the protocol's namespace, on lines of their own, and
   * its last line is `</urlset>`.
   */
  lemma SitemapFrame(website: string, platform: Platform, now: int, sortedPosts: seq<Post>, tags: seq<TagObj>)
    ensures var doc := Sitemap(website, platform, now, sortedPosts, tags);
      && StartsWith(doc, UrlsetOpen + "\n")
      && |doc| >= |UrlsetClose| + 1
      && doc[|doc| - |UrlsetClose| - 1..] == "\n" + UrlsetClose
  {
    var lastModified := platform.iso(now);
    var a := UrlsXml(StaticPages(website, lastModified));
    var b := UrlsXml(PostUrls(website, platform, sortedPosts));
    var c := UrlsXml(TagUrls(website, lastModified, tags));
    FrameLines(UrlsetOpen, a, b, c, UrlsetClose);
    Framed(UrlsetOpen + "\n", a + "\n" + b + "\n" + c, "\n" + UrlsetClose);
  }

  /** The tags' display names never reach the document: only their slugs do. */
  lemma TagNamesUnused(website: string, platform: Platform, now: int, sortedPosts: seq<Post>, tags: seq<TagObj>, renamed: seq<TagObj>)
    requires |renamed| == |tags|
    requires forall j :: 0 <= j < |tags| ==> renamed[j].tag == tags[j].tag
    ensures Sitemap(website, platform, now, sortedPosts, renamed) == Sitemap(website, platform, now, sortedPosts, tags)
  {
    assert TagUrls(website, platform.iso(now), renamed) == TagUrls(website, platform.iso(now), tags);
  }
}
