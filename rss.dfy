/**
 * `GET /rss.xml`: the records handed to the RSS library. One item per post,
 * in the order of `sortedPosts`, and a channel `customData` block. The
 * library's own RSS 2.0 serialisation is not part of this model.
 */
module Rss {
  import opened Wrappers
  import opened Text
  import opened Decimal
  import opened Content
  import opened SitemapProtocol
  import opened SitemapEntries

  /** The item object built for one post. `pubDate` is a timestamp. */
  datatype Item = Item(
    link: string,
    title: string,
    description: string,
    pubDate: int,
    content: string,
    author: string,
    categories: seq<string>,
    customData: string)

  /** The options object passed to the RSS library. */
  datatype Feed = Feed(
    title: string,
    description: string,
    site: string,
    items: seq<Item>,
    customData: string,
    stylesheet: string)

  // ------------------------------------------------------------------- items

  /** `data.ogImage ? ... : ''`: an absent or empty image name adds no media element. */
  predicate HasImage(p: Post) {
    p.ogImage.Some? && p.ogImage.value != ""
  }

  /** The image's URL: `/posts/<id>/<ogImage>` resolved against the site. */
  function ImageUrl(website: string, platform: Platform, p: Post): string
    requires HasImage(p)
  {
    platform.resolve("/posts/" + p.id + "/" + p.ogImage.value, website)
  }

  const MediaTag: string := "<media:content"

  function MediaContent(url: string): string {
    MediaTag + " url=\"" + url + "\" medium=\"image\" />"
  }

  const Language: string := "<language>zh-cn</language>"

  /** The line before and the lines after the optional media element. */
  const ItemDataOpen: string := "\n            "
  const ItemDataClose: string := "\n            " + Language + "\n          "

  function ItemCustomData(website: string, platform: Platform, p: Post): string {
    var media := if HasImage(p) then MediaContent(ImageUrl(website, platform, p)) else "";
    ItemDataOpen + media + ItemDataClose
  }

  /** The item for one post, as the `sortedPosts.map` callback builds it. */
  function ToItem(site: Site, platform: Platform, p: Post): Item {
    Item(
      "posts/" + p.id + "/",
      p.title,
      p.description,
      EffectiveDate(p),
      platform.render(p.body),
      site.author,
      p.tags.GetOr([]),
      ItemCustomData(site.website, platform, p))
  }

  function Items(site: Site, platform: Platform, posts: seq<Post>): (items: seq<Item>)
    ensures |items| == |posts|
  {
    seq(|posts|, i requires 0 <= i < |posts| => ToItem(site, platform, posts[i]))
  }

  // ----------------------------------------------------------------- channel

  const UrlOpen: string := "<url>"
  const UrlClose: string := "</url>"
  const CopyrightOpen: string := "<copyright>Copyright "
  const CopyrightClose: string := "</copyright>"
  const Ttl: string := "<ttl>60</ttl>"
  /** The lines after the copyright: the time to live, then the closing indentation. */
  const TtlLines: string := "\n      " + Ttl + "\n    "

  /** The channel block's text around its five interpolated values. */
  const ChannelChunks: seq<string> := [
    "\n      " + Language + "\n      <lastBuildDate>",
    "</lastBuildDate>\n      <image>\n        " + UrlOpen,
    UrlClose + "\n        <title>",
    "</title>\n        <link>",
    "</link>\n      </image>\n      " + CopyrightOpen,
    CopyrightClose + TtlLines
  ]

  /** `${year} ${author}`, the copyright notice after the word `Copyright`. */
  function Notice(year: int, author: string): string {
    IntToString(year) + " " + author
  }

  /**
   * The values of the channel block: the build time as an RFC 1123 date
   * string, the logo's URL, the site title, the site URL and the notice.
   * `buildTime` and `yearTime` are the two separate `new Date()` reads.
   */
  function ChannelValues(site: Site, platform: Platform, buildTime: int, yearTime: int): seq<string> {
    [ platform.utc(buildTime),
      platform.resolve("/logo.png", site.website),
      site.title,
      site.website,
      Notice(platform.fullYear(yearTime), site.author) ]
  }

  function ChannelCustomData(site: Site, platform: Platform, buildTime: int, yearTime: int): string {
    Fill(ChannelChunks, ChannelValues(site, platform, buildTime, yearTime))
  }

  function RssFeed(site: Site, platform: Platform, buildTime: int, yearTime: int, sortedPosts: seq<Post>): Feed {
    Feed(
      site.title,
      site.desc,
      site.website,
      Items(site, platform, sortedPosts),
      ChannelCustomData(site, platform, buildTime, yearTime),
      "/rss/styles.xsl")
  }

  // ------------------------------------------------------------------ lemmas

  /**
   * The feed carries the site's title, description and URL and the fixed
   * stylesheet, and one item per post in the same order: a link relative to
   * the site, the post's own title and description, dated by `modDatetime`
   * when set and `pubDatetime` otherwise, by the site's author, with the
   * post's tags (none when the post has no tag list) as categories.
   */
  lemma FeedContents(site: Site, platform: Platform, buildTime: int, yearTime: int, sortedPosts: seq<Post>)
    ensures var f := RssFeed(site, platform, buildTime, yearTime, sortedPosts);
      && f.title == site.title && f.description == site.desc && f.site == site.website
      && f.stylesheet == "/rss/styles.xsl"
      && |f.items| == |sortedPosts|
      && forall i :: 0 <= i < |sortedPosts| ==>
           var p := sortedPosts[i];
           var it := f.items[i];
           && it.link == "posts/" + p.id + "/"
           && it.title == p.title && it.description == p.description
           && it.pubDate == (if p.mod.Some? then p.mod.value else p.pub)
           && it.content == platform.render(p.body)
           && it.author == site.author
           && it.categories == (if p.tags.Some? then p.tags.value else [])
  {
  }

  /**
   * Each item points at the same page, with the same date, as the post's
   * entry in the sitemaps: the site URL followed by the item's link is the
   * entry's `loc`, and the item's date formatted as ISO 8601 is its `lastmod`.
   */
  lemma ItemsMatchSitemap(site: Site, platform: Platform, sortedPosts: seq<Post>, i: int)
    requires 0 <= i < |sortedPosts|
    ensures var it := Items(site, platform, sortedPosts)[i];
      var u := PostUrls(site.website, platform, sortedPosts)[i];
      site.website + it.link == u.loc && platform.iso(it.pubDate) == u.lastmod
  {
    var p := sortedPosts[i];
    assert site.website + ("posts/" + p.id + "/") == site.website + "posts/" + p.id + "/";
  }

  /** The item data: the media element exactly when the post names an image, then the language. */
  lemma ItemCustomDataShape(website: string, platform: Platform, p: Post)
    ensures HasImage(p) ==> (ItemCustomData(website, platform, p) ==
      ItemDataOpen + MediaContent(platform.resolve("/posts/" + p.id + "/" + p.ogImage.value, website)) + ItemDataClose)
    ensures !HasImage(p) ==> ItemCustomData(website, platform, p) == ItemDataOpen + ItemDataClose
  {
    assert ItemDataOpen + "" == ItemDataOpen;
  }

  lemma OccursWithin(s: string, part: string, i: int, j: int)
    requires OccursAt(s, part, i) && 0 <= j < |part|
    ensures s[i + j] == part[j]
  {
    assert s[i..i + |part|][j] == part[j];
  }

  /** The item data holds a `media:content` element exactly when the post names an image. */
  lemma MediaIffImage(website: string, platform: Platform, p: Post)
    ensures Contains(ItemCustomData(website, platform, p), MediaTag) <==> HasImage(p)
  {
    var s := ItemCustomData(website, platform, p);
    ItemCustomDataShape(website, platform, p);
    if HasImage(p) {
      var url := ImageUrl(website, platform, p);
      var x := " url=\"";
      ContainsMiddle("", MediaTag, x);
      assert "" + MediaTag + x == MediaTag + x;
      ContainsLeft(MediaTag + x, url, MediaTag);
      ContainsLeft(MediaTag + x + url, "\" medium=\"image\" />", MediaTag);
      ContainsRight(ItemDataOpen, MediaContent(url), MediaTag);
      ContainsLeft(ItemDataOpen + MediaContent(url), ItemDataClose, MediaTag);
    } else {
      assert ':' !in ItemDataOpen && ':' !in "\n            " && ':' !in Language && ':' !in "\n          ";
      assert ':' !in s;
      if Contains(s, MediaTag) {
        var i :| OccursAt(s, MediaTag, i);
        OccursWithin(s, MediaTag, i, 6);
      }
    }
  }

  /** The item data always declares the language. */
  lemma ItemLanguage(website: string, platform: Platform, p: Post)
    ensures Contains(ItemCustomData(website, platform, p), Language)
  {
    var media := if HasImage(p) then MediaContent(ImageUrl(website, platform, p)) else "";
    ContainsMiddle("\n            ", Language, "\n          ");
    ContainsRight(ItemDataOpen + media, ItemDataClose, Language);
  }

  lemma ChannelDelimited()
    ensures Delimited(ChannelChunks)
  {
    var c := ChannelChunks;
    assert c[1][0] == '<' by { assert c[1] == "</lastBuildDate>\n      <image>\n        " + UrlOpen; }
    assert c[2][0] == '<' by { assert c[2] == UrlClose + "\n        <title>"; }
    assert c[4][0] == '<' by { assert c[4] == "</link>\n      </image>\n      " + CopyrightOpen; }
    assert c[5][0] == '<' by { assert c[5] == CopyrightClose + "\n      " + Ttl + "\n    "; }
  }

  /**
   * The channel block reads back into its values when they hold no '<':
   * the build date, the logo URL (`/logo.png` resolved against the site), the
   * site title, the site URL and the copyright notice.
   */
  lemma ChannelReadsBack(site: Site, platform: Platform, buildTime: int, yearTime: int)
    requires Clean(platform.utc(buildTime)) && Clean(platform.resolve("/logo.png", site.website))
    requires Clean(site.title) && Clean(site.website) && Clean(site.author)
    ensures ReadFill(ChannelCustomData(site, platform, buildTime, yearTime), ChannelChunks) ==
      Some(([ platform.utc(buildTime), platform.resolve("/logo.png", site.website), site.title, site.website,
              Notice(platform.fullYear(yearTime), site.author) ], ""))
  {
    var vs := ChannelValues(site, platform, buildTime, yearTime);
    NoticeClean(platform.fullYear(yearTime), site.author);
    ChannelDelimited();
    ReadFillFill(ChannelChunks, vs, "");
    assert ChannelCustomData(site, platform, buildTime, yearTime) + "" == ChannelCustomData(site, platform, buildTime, yearTime);
  }

  lemma NoSign(n: int)
    ensures '<' !in IntToString(n) && ' ' !in IntToString(n)
  {
    if n < 0 {
      assert IntToString(n) == "-" + NatToString(-n);
      assert AllDigits(NatToString(-n));
    } else {
      assert AllDigits(NatToString(n));
    }
  }

  lemma NoticeClean(year: int, author: string)
    requires Clean(author)
    ensures Clean(Notice(year, author))
  {
    NoSign(year);
  }

  /** The notice starts with the year, which reads back as the year the clock gave. */
  lemma NoticeYear(year: int, author: string)
    ensures TakeUntil(Notice(year, author), ' ') == (IntToString(year), " " + author)
    ensures ParseInt(TakeUntil(Notice(year, author), ' ').0) == Some(year)
  {
    NoSign(year);
    assert Notice(year, author) == IntToString(year) + (" " + author);
    TakeUntilConcat(IntToString(year), " " + author, ' ');
    IntToStringRoundTrip(year);
  }

  /** The channel text from its last value on. */
  lemma ChannelTail(c: seq<string>, v: seq<string>, k: nat)
    requires |c| == |v| + 1 && k < |v|
    ensures Fill(c[k..], v[k..]) == c[k] + v[k] + Fill(c[k + 1..], v[k + 1..])
  {
    assert c[k..][1..] == c[k + 1..] && v[k..][1..] == v[k + 1..];
  }

  /** What the channel block holds at position `k` it holds as a whole. */
  lemma {:induction false} ContainsFromChunk(c: seq<string>, v: seq<string>, k: nat, part: string)
    requires |c| == |v| + 1 && k <= |v|
    requires Contains(Fill(c[k..], v[k..]), part)
    ensures Contains(Fill(c, v), part)
    decreases k
  {
    if k > 0 {
      ChannelTail(c, v, k - 1);
      ContainsRight(c[k - 1] + v[k - 1], Fill(c[k..], v[k..]), part);
      ContainsFromChunk(c, v, k - 1, part);
    } else {
      assert c[0..] == c && v[0..] == v;
    }
  }

  /** The channel block declares the language first and a 60-minute time to live. */
  lemma ChannelFixedParts(site: Site, platform: Platform, buildTime: int, yearTime: int)
    ensures StartsWith(ChannelCustomData(site, platform, buildTime, yearTime), "\n      " + Language)
    ensures Contains(ChannelCustomData(site, platform, buildTime, yearTime), Ttl)
  {
    var c := ChannelChunks;
    var v := ChannelValues(site, platform, buildTime, yearTime);
    FillStartsWith(c, v);
    var lead := "\n      " + Language;
    var s := ChannelCustomData(site, platform, buildTime, yearTime);
    assert s[..|c[0]|] == c[0];
    assert c[0][..|lead|] == lead;
    assert s[..|lead|] == lead;
    assert Fill(c[5..], v[5..]) == c[5];
    ContainsMiddle("\n      ", Ttl, "\n    ");
    ContainsRight(CopyrightClose, TtlLines, Ttl);
    ContainsFromChunk(c, v, 5, Ttl);
  }

  /** The filled text from chunk `k` on starts with whatever chunk `k` starts with. */
  lemma FillFrom(c: seq<string>, v: seq<string>, k: nat, close: string, post: string) returns (t: string)
    requires |c| == |v| + 1 && k < |c|
    requires c[k] == close + post
    ensures Fill(c[k..], v[k..]) == close + t
  {
    if k < |v| {
      ChannelTail(c, v, k);
      t := post + v[k] + Fill(c[k + 1..], v[k + 1..]);
    } else {
      assert c[k..] == [c[k]] && v[k..] == [];
      t := post;
    }
  }

  /**
   * A value whose chunk before ends with `open` and whose chunk after
   * starts with `close` appears wrapped in them in the filled text.
   */
  lemma ContainsWrapped(c: seq<string>, v: seq<string>, k: nat, pre: string, open: string, close: string, post: string)
    requires |c| == |v| + 1 && k < |v|
    requires c[k] == pre + open && c[k + 1] == close + post
    ensures Contains(Fill(c, v), open + v[k] + close)
  {
    ChannelTail(c, v, k);
    var t := FillFrom(c, v, k + 1, close, post);
    assert Fill(c[k..], v[k..]) == pre + open + v[k] + (close + t);
    ContainsSpan(pre, open, v[k], close, t);
    ContainsFromChunk(c, v, k, open + v[k] + close);
  }

  /** The channel block names the logo: `/logo.png` resolved against the site, inside `<url>`. */
  lemma ChannelLogo(site: Site, platform: Platform, buildTime: int, yearTime: int)
    ensures Contains(ChannelCustomData(site, platform, buildTime, yearTime),
      UrlOpen + platform.resolve("/logo.png", site.website) + UrlClose)
  {
    ContainsWrapped(ChannelChunks, ChannelValues(site, platform, buildTime, yearTime), 1,
      "</lastBuildDate>\n      <image>\n        ", UrlOpen, UrlClose, "\n        <title>");
  }

  /** The channel block holds `<copyright>Copyright <year> <author></copyright>`. */
  lemma ChannelCopyright(site: Site, platform: Platform, buildTime: int, yearTime: int)
    ensures Contains(ChannelCustomData(site, platform, buildTime, yearTime),
      CopyrightOpen + Notice(platform.fullYear(yearTime), site.author) + CopyrightClose)
  {
    ContainsWrapped(ChannelChunks, ChannelValues(site, platform, buildTime, yearTime), 4,
      "</link>\n      </image>\n      ", CopyrightOpen, CopyrightClose, TtlLines);
  }
}
