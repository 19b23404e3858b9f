/** `GET /sitemap-tags.xml`: a `<urlset>` of the tags index page and one entry per tag. */
module TagsSitemap {
  import opened Wrappers
  import opened Content
  import opened SitemapProtocol
  import opened SitemapEntries

  /** The fixed first entry: the tags index page, weekly, priority 0.7. */
  function TagsIndexUrl(website: string, lastModified: string): Url {
    Url(website + "tags/", lastModified, "weekly", "0.7")
  }

  /** The declaration and `<urlset>`, the fixed entry, the joined tag entries, `</urlset>`. */
  function Sitemap(website: string, platform: Platform, now: int, tags: seq<TagObj>): string {
    var lastModified := platform.iso(now);
    UrlsetOpen + "\n" + UrlXml(TagsIndexUrl(website, lastModified)) + "\n"
      + UrlsXml(TagUrls(website, lastModified, tags)) + "\n" + UrlsetClose
  }

  /**
   * The tags index entry first, then one entry per tag in order, each at
   * its page under `tags/`, weekly, priority 0.6; every entry carries the
   * one build time.
   */
  lemma SitemapContents(website: string, platform: Platform, now: int, tags: seq<TagObj>)
    requires CleanInputs(website, platform, platform.iso(now), [], tags)
    ensures ParseUrlset(Sitemap(website, platform, now, tags)).Some?
    ensures var us := ParseUrlset(Sitemap(website, platform, now, tags)).value;
      && |us| == 1 + |tags|
      && us[0] == Url(website + "tags/", platform.iso(now), "weekly", "0.7")
      && (forall j :: 0 <= j < |tags| ==>
            us[1 + j] == Url(website + "tags/" + tags[j].tag + "/", platform.iso(now), "weekly", "0.6"))
      && (forall k :: 0 <= k < |us| ==> us[k].lastmod == platform.iso(now))
  {
    var lastModified := platform.iso(now);
    SitemapReadsBack(website, platform, now, tags);
    var ts := TagUrls(website, lastModified, tags);
    var us := [TagsIndexUrl(website, lastModified)] + ts;
    assert us[0] == TagsIndexUrl(website, lastModified);
    forall j | 0 <= j < |tags|
      ensures us[1 + j] == TagUrl(website, lastModified, tags[j])
    {
      assert us[1 + j] == ts[j];
    }
    forall k | 0 <= k < |us|
      ensures us[k].lastmod == lastModified
    {
      if k > 0 {
        assert us[k] == ts[k - 1];
      }
    }
  }

  lemma CleanIndexUrl(website: string, lastModified: string)
    requires Clean(website) && Clean(lastModified)
    ensures CleanUrls([TagsIndexUrl(website, lastModified)])
  {
    CleanConcat(website, "tags/");
    assert CleanUrl(TagsIndexUrl(website, lastModified));
  }

  /** The document reads back as the tags index entry followed by the tag entries. */
  lemma SitemapReadsBack(website: string, platform: Platform, now: int, tags: seq<TagObj>)
    requires CleanInputs(website, platform, platform.iso(now), [], tags)
    ensures ParseUrlset(Sitemap(website, platform, now, tags))
         == Some([TagsIndexUrl(website, platform.iso(now))] + TagUrls(website, platform.iso(now), tags))
  {
    var lastModified := platform.iso(now);
    var first := [TagsIndexUrl(website, lastModified)];
    CleanPostUrls(website, platform, lastModified, [], tags);
    CleanIndexUrl(website, lastModified);
    assert UrlsXml(first) == UrlXml(TagsIndexUrl(website, lastModified));
    ParseTwoSections(first, TagUrls(website, lastModified, tags));
  }
}
