/**
 * `GET /sitemap-master.xml`: the `<sitemapindex>` pointing at the three
 * sub-sitemaps. The posts sitemap is dated by the latest effective date of
 * any post (epoch 0 when there are none), the other two by the build time.
 */
module SitemapMaster {
  import opened Wrappers
  import opened Content
  import opened SitemapProtocol

  /**
   * `posts.reduce((latest, post) => postDate > latest ? postDate : latest, latest)`:
   * the largest of `latest` and the posts' effective dates.
   */
  function LatestFrom(latest: int, posts: seq<Post>): (r: int)
    ensures r >= latest
    ensures forall i :: 0 <= i < |posts| ==> r >= EffectiveDate(posts[i])
    ensures r == latest || exists i :: 0 <= i < |posts| && r == EffectiveDate(posts[i])
    decreases |posts|
  {
    if |posts| == 0 then latest
    else
      var postDate := EffectiveDate(posts[0]);
      var r := LatestFrom(if postDate > latest then postDate else latest, posts[1..]);
      assert forall i :: 1 <= i < |posts| ==> posts[i] == posts[1..][i - 1];
      r
  }

  /**
   * `latestPostDate`, folded from `new Date(0)`: no earlier than the epoch or
   * than any post, and equal to the epoch or to some post's effective date.
   */
  function LatestPostDate(posts: seq<Post>): (r: int)
    ensures r >= 0
    ensures forall i :: 0 <= i < |posts| ==> r >= EffectiveDate(posts[i])
    ensures r == 0 || exists i :: 0 <= i < |posts| && r == EffectiveDate(posts[i])
    ensures |posts| == 0 ==> r == 0
  {
    LatestFrom(0, posts)
  }

  /** The fold is a maximum, so the (unordered) collection's order does not matter. */
  lemma LatestPostDateOrderFree(a: seq<Post>, b: seq<Post>)
    requires multiset(a) == multiset(b)
    ensures LatestPostDate(a) == LatestPostDate(b)
  {
    AtMost(a, b);
    AtMost(b, a);
  }

  lemma AtMost(a: seq<Post>, b: seq<Post>)
    requires multiset(a) == multiset(b)
    ensures LatestPostDate(b) <= LatestPostDate(a)
  {
    var y := LatestPostDate(b);
    if y != 0 {
      var j :| 0 <= j < |b| && y == EffectiveDate(b[j]);
      assert b[j] in multiset(a);
      var i :| 0 <= i < |a| && a[i] == b[j];
    }
  }

  /**
   * When some post is dated at or after the epoch, the fold's result is the
   * effective date of a post: the epoch seed only survives when no post is
   * later than it.
   */
  lemma LatestIsAPostDate(posts: seq<Post>, k: int)
    requires 0 <= k < |posts| && EffectiveDate(posts[k]) >= 0
    ensures exists i :: 0 <= i < |posts| && LatestPostDate(posts) == EffectiveDate(posts[i])
  {
    if LatestPostDate(posts) == 0 {
      assert LatestPostDate(posts) == EffectiveDate(posts[k]);
    }
  }

  /** The three children, in order: static pages, posts, tags. */
  function Children(website: string, platform: Platform, now: int, posts: seq<Post>): seq<SitemapRef> {
    var lastModified := platform.iso(now);
    [ SitemapRef(website + "sitemap-0.xml", lastModified),
      SitemapRef(website + "sitemap-posts.xml", platform.iso(LatestPostDate(posts))),
      SitemapRef(website + "sitemap-tags.xml", lastModified) ]
  }

  function SitemapIndex(website: string, platform: Platform, now: int, posts: seq<Post>): string {
    SitemapIndexXml(Children(website, platform, now, posts))
  }

  /** The index lists exactly three sitemaps under the site's base URL, dated as described above. */
  lemma SitemapIndexContents(website: string, platform: Platform, now: int, posts: seq<Post>)
    requires Clean(website) && Clean(platform.iso(now)) && Clean(platform.iso(LatestPostDate(posts)))
    ensures ParseSitemapIndex(SitemapIndex(website, platform, now, posts)) ==
      Some([ SitemapRef(website + "sitemap-0.xml", platform.iso(now)),
             SitemapRef(website + "sitemap-posts.xml", platform.iso(LatestPostDate(posts))),
             SitemapRef(website + "sitemap-tags.xml", platform.iso(now)) ])
  {
    CleanChildren(website, platform, now, posts);
    ParseSitemapIndexXml(Children(website, platform, now, posts));
  }

  lemma CleanChildren(website: string, platform: Platform, now: int, posts: seq<Post>)
    requires Clean(website) && Clean(platform.iso(now)) && Clean(platform.iso(LatestPostDate(posts)))
    ensures CleanRefs(Children(website, platform, now, posts))
  {
    CleanConcat(website, "sitemap-0.xml");
    CleanConcat(website, "sitemap-posts.xml");
    CleanConcat(website, "sitemap-tags.xml");
    var cs := Children(website, platform, now, posts);
    assert CleanRef(cs[0]) && CleanRef(cs[1]) && CleanRef(cs[2]);
  }
}
