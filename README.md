# Discovery documents of an Astro blog, in Dafny

The blog publishes six machine-readable documents at build time. Each one is a
route handler that turns the post collection and the site configuration into
text:

- `sitemap-index.xml`: despite its name a `<urlset>`. It holds five static pages,
  then one entry per post, then one entry per tag.
- `sitemap-posts.xml`: a `<urlset>` with one entry per post.
- `sitemap-tags.xml`: a `<urlset>` with the tags index page, then one entry per tag.
- `sitemap-master.xml`: a `<sitemapindex>` with three children. The posts child
  is dated by the latest post date.
- `robots.txt`: fixed crawler groups and one `Sitemap:` record.
- `rss.xml`: the item records (one per post) and the channel `customData`
  block, both handed to the RSS library.

The model is purely functional, as the handlers are. Each handler is a Dafny
function that builds the same text from the same pieces. Each document has a
partner that reads it back:

- a parser for `<urlset>` and `<sitemapindex>` documents (Sitemap protocol 0.9,
  sitemaps.org);
- a record and group reader for robots.txt, following RFC 9309, sections
  2.1 and 2.2;
- a reader for filled templates and a decimal parser, for the RSS channel
  block.

The lemmas state what each document says: its entries, their order, their
dates, change frequencies and priorities, and its groups and records. Round
trips from document to entries need fields without `<` (or, in robots.txt,
without line breaks and `#`), because the handlers escape nothing.

Modules:

- `Wrappers`: `Option` and `Result`.
- `Text`: joining, splitting, template filling and reading it back.
- `Decimal`: integer printing and parsing.
- `Content`: posts, tags, site settings, and `Platform`. `Platform` bundles the
  date formatters, the URL resolver and the Markdown renderer, which the model
  takes as parameters.
- `SitemapProtocol`: the XML shapes and their parsers.
- `SitemapEntries`: the shared per-post and per-tag entries.
- One module per document: `CombinedSitemap`, `PostsSitemap`, `TagsSitemap`,
  `SitemapMaster`, `Robots` and `Rss`.
- `Consistency`: facts that tie several documents together.

Despite its name, `sitemap-index.xml`, which the `Sitemap:` line of robots.txt
points at, is the combined `<urlset>`, not the `<sitemapindex>` (that one is
served as `sitemap-master.xml`). The model follows the code here, not the
file's name.

## Model

| member | source | states |
|---|---|---|
| Content.EffectiveDate | src/pages/sitemap-index.xml.ts:60 | a post's date: `modDatetime` when set, else `pubDatetime` (also src/pages/rss.xml.ts:25). Its uses are stated by PostsSitemap.SitemapContents and Rss.FeedContents |
| SitemapEntries.PostUrl | src/pages/sitemap-index.xml.ts:59-66 | one post's `<url>` entry; its fields are stated by CombinedSitemap.SitemapContents and PostsSitemap.SitemapContents |
| SitemapEntries.TagUrl | src/pages/sitemap-index.xml.ts:70-76 | one tag's `<url>` entry; its fields are stated by CombinedSitemap.SitemapContents and TagsSitemap.SitemapContents |
| CombinedSitemap.StaticPages | src/pages/sitemap-index.xml.ts:14-46 | the five static pages; stated by CombinedSitemap.SitemapContents |
| CombinedSitemap.Sitemap | src/pages/sitemap-index.xml.ts:12-79 | the combined `<urlset>` text; what it says is stated by CombinedSitemap.SitemapContents, SitemapReadsBack and SitemapFrame |
| PostsSitemap.Sitemap | src/pages/sitemap-posts.xml.ts:7-24 | the posts `<urlset>` text; stated by PostsSitemap.SitemapContents and SitemapOfNoPosts |
| TagsSitemap.Sitemap | src/pages/sitemap-tags.xml.ts:9-29 | the tags `<urlset>` text; stated by TagsSitemap.SitemapContents and SitemapReadsBack |
| SitemapMaster.Children | src/pages/sitemap-master.xml.ts:17-28 | the three child references; stated by SitemapMaster.SitemapIndexContents |
| SitemapMaster.SitemapIndex | src/pages/sitemap-master.xml.ts:5-29 | the `<sitemapindex>` text; stated by SitemapMaster.SitemapIndexContents |
| Robots.RobotsTxt | src/pages/robots.txt.ts:3-29 | the robots.txt text for a sitemap URL; stated by Robots.ReadRobotsTxt, RobotsLines, RobotsTxtShape and OnlySitemapLine |
| Rss.ToItem | src/pages/rss.xml.ts:21-36 | one post's feed item; its fields are stated by Rss.FeedContents and ItemsMatchSitemap |
| Rss.ItemCustomData | src/pages/rss.xml.ts:32-35 | an item's `customData`; stated by Rss.ItemCustomDataShape, MediaIffImage and ItemLanguage |
| Rss.ChannelCustomData | src/pages/rss.xml.ts:40-50 | the channel `customData`; stated by Rss.ChannelReadsBack, ChannelFixedParts, ChannelLogo and ChannelCopyright |
| Rss.RssFeed | src/pages/rss.xml.ts:12-52 | the record handed to the RSS library; stated by Rss.FeedContents |
| SitemapEntries.PostUrls | src/pages/sitemap-index.xml.ts:58-68 | one entry per post, in order |
| SitemapEntries.TagUrls | src/pages/sitemap-index.xml.ts:69-78 | one entry per tag, in order |
| CombinedSitemap.SitemapContents | src/pages/sitemap-index.xml.ts:12-79 | the combined sitemap reads back as 5 + posts + tags entries. The five static pages come first in fixed order (daily/1.0, monthly/0.8, weekly/0.7 ×3), all dated by the one build time. Then each post at `posts/<id>/`, dated by modDatetime if present else pubDatetime, weekly/0.8. Then each tag at `tags/<tag>/`, build time, weekly/0.6 |
| CombinedSitemap.SitemapReadsBack | src/pages/sitemap-index.xml.ts:48-79 | parsing the document gives exactly its static, post and tag entries, in that order |
| CombinedSitemap.SitemapFrame | src/pages/sitemap-index.xml.ts:48-79 | for every input, the document opens with the XML declaration and `<urlset>` in the 0.9 namespace and ends with a line `</urlset>` |
| CombinedSitemap.TagNamesUnused | src/pages/sitemap-index.xml.ts:69-76 | tags that differ only in `tagName` give the same document |
| PostsSitemap.SitemapContents | src/pages/sitemap-posts.xml.ts:11-24 | the posts sitemap reads back as one entry per post in order: loc `posts/<id>/`, lastmod the effective date, weekly/0.8 |
| PostsSitemap.SitemapOfNoPosts | src/pages/sitemap-posts.xml.ts:11-24 | with no posts the document is the urlset with an empty line inside and no entries, and it reads back as none |
| TagsSitemap.SitemapContents | src/pages/sitemap-tags.xml.ts:9-29 | the tags sitemap reads back as 1 + tags entries. First the tags index weekly/0.7, then each tag at `tags/<tag>/` weekly/0.6, every lastmod the one build time |
| TagsSitemap.SitemapReadsBack | src/pages/sitemap-tags.xml.ts:11-29 | parsing the document gives exactly the tags index entry followed by the tag entries |
| SitemapMaster.LatestFrom | src/pages/sitemap-master.xml.ts:10-13 | the fold result is at least the start value and every post's effective date, and it is the start value or some post's date |
| SitemapMaster.LatestPostDate | src/pages/sitemap-master.xml.ts:10-13 | the latest post date is ≥ epoch 0 and ≥ every effective date. It is 0 or some post's date, and exactly 0 for no posts |
| SitemapMaster.LatestPostDateOrderFree | src/pages/sitemap-master.xml.ts:6-13 | collections holding the same posts in any order give the same latest date |
| SitemapMaster.LatestIsAPostDate | src/pages/sitemap-master.xml.ts:10-13 | when some post is dated at or after the epoch, the latest date is one of the posts' dates |
| SitemapMaster.SitemapIndexContents | src/pages/sitemap-master.xml.ts:15-29 | the sitemapindex reads back as exactly three children, in order: `sitemap-0.xml` and `sitemap-tags.xml` dated by the build time, and `sitemap-posts.xml` dated by the latest post date |
| SitemapProtocol.UrlXml | src/pages/sitemap-index.xml.ts:61-66 | one `<url>` block (the same template at lines 51-56 and 71-76, src/pages/sitemap-posts.xml.ts:16-21 and src/pages/sitemap-tags.xml.ts:13-18, 21-26); read back by SitemapProtocol.ParseUrlsJoin |
| SitemapProtocol.UrlsXml | src/pages/sitemap-index.xml.ts:58-68 | the `.map(...).join("\n")` of entries; read back by SitemapProtocol.ParseUrlsJoin and ParseThreeSections |
| SitemapProtocol.RefXml | src/pages/sitemap-master.xml.ts:17-20 | one `<sitemap>` block; read back by SitemapProtocol.ParseSitemapIndexXml |
| SitemapProtocol.SitemapIndexXml | src/pages/sitemap-master.xml.ts:15-29 | the `<sitemapindex>` text around the blocks; read back by SitemapProtocol.ParseSitemapIndexXml |
| Decimal.IntToString | src/pages/rss.xml.ts:48 | the decimal text of the year; parsed back by Decimal.IntToStringRoundTrip |
| Rss.MediaContent | src/pages/rss.xml.ts:33 | the `<media:content>` element; placed by Rss.ItemCustomDataShape |
| SitemapProtocol.ParseSitemapIndexXml | src/pages/sitemap-master.xml.ts:15-29 | a sitemapindex of '<'-free children reads back as those children |
| SitemapProtocol.ParseThreeSections | src/pages/sitemap-index.xml.ts:48-79 | a urlset of three sections, each joined by line breaks, reads back as the concatenated entries |
| SitemapProtocol.ParseOneSection | src/pages/sitemap-posts.xml.ts:11-24 | a urlset of one joined section reads back as its entries |
| SitemapProtocol.ParseTwoSections | src/pages/sitemap-tags.xml.ts:11-29 | a urlset of a fixed entry and a joined section reads back as the fixed entry then the section |
| Consistency.PostEntriesShared | src/pages/sitemap-posts.xml.ts:13-23 | the joined post entries occur verbatim in both the combined and the posts sitemap. This holds by how both documents are assembled and is a step towards Consistency.PostEntriesSlice, which states the per-entry equality of the parsed documents |
| Consistency.TagEntriesShared | src/pages/sitemap-tags.xml.ts:19-28 | for one build time `now` shared by both documents, the joined tag entries occur verbatim in both the combined and the tags sitemap. This holds by how both documents are assembled and is a step towards Consistency.TagEntriesSuffix, which states the per-entry equality of the parsed documents |
| Consistency.PostEntriesSlice | src/pages/sitemap-index.xml.ts:58-68 | the combined sitemap's entries 5 to 5 + posts are exactly the posts sitemap's entries |
| Consistency.TagEntriesSuffix | src/pages/sitemap-index.xml.ts:69-78 | for one build time `now` shared by both documents, the combined sitemap's entries after the posts are exactly the tags sitemap's entries after its first |
| Consistency.TagEntriesTwoClocks | src/pages/sitemap-tags.xml.ts:9-28 | with the two handlers' separate clock reads `now1` and `now2`, the combined sitemap's tag entries and the tags sitemap's entries after its first agree one by one in loc, changefreq and priority; each lastmod is its own document's build time |
| Consistency.IndexDatesPostsSitemap | src/pages/sitemap-master.xml.ts:21-24 | if the collection the index folds holds the same posts as the list the posts sitemap shows (equal as multisets), and one post is dated at or after the epoch, then the sitemapindex dates its posts child by the lastmod of some entry of the posts sitemap |
| Consistency.IndexDatesUnlistedPost | src/pages/sitemap-master.xml.ts:6-13 | the index folds the whole collection: a post dated at or after the epoch that the posts sitemap leaves out still dates the posts child, and an empty listing has no entries to carry that date |
| Robots.Get | src/pages/robots.txt.ts:31-34 | fails exactly when no site is configured. Otherwise it is the document for `sitemap-index.xml` resolved against the site |
| Robots.RobotsLines | src/pages/robots.txt.ts:3-29 | for an href without line breaks, the document's lines are the fixed preamble, `Sitemap: <href>` and a final empty line |
| Robots.RobotsTxtShape | src/pages/robots.txt.ts:3-29 | the document is the constant preamble text, then `Sitemap: ` + href and a newline; nothing else depends on the input |
| Robots.OnlySitemapLine | src/pages/robots.txt.ts:27-29 | for an href without line breaks, exactly one line starts with `Sitemap:`: the next-to-last line, `Sitemap: ` + href |
| Robots.ReadRobotsTxt | src/pages/robots.txt.ts:3-29 | read as RFC 9309 records, the document holds four groups and the one sitemap href. The groups: `*` with Allow / and Disallow /admin/, /draft/, /api/, /*? in order; Googlebot and Bingbot with Allow / and Crawl-delay 1; Baiduspider with Allow / and Crawl-delay 2 |
| Robots.GetReads | src/pages/robots.txt.ts:31-34 | with a site whose resolved `sitemap-index.xml` URL has no line break, `#` or padding, the handler succeeds, and its text reads as those four groups and that one sitemap URL |
| Robots.GroupsFromEmitAll | src/pages/robots.txt.ts:7-25 | grouping is the inverse of writing groups out as User-agent lines followed by rule lines |
| Robots.KeyValueLine | src/pages/robots.txt.ts:7-28 | a `key: value` line parses as that key's record, when the key holds no `#` and no `:` and the key and value hold no `#` and are unpadded (no leading or trailing space) |
| Robots.CommentLine | src/pages/robots.txt.ts:4-5 | a line starting with `#` carries no record |
| Rss.Items | src/pages/rss.xml.ts:16-37 | one item per post |
| Rss.FeedContents | src/pages/rss.xml.ts:12-52 | the feed has the site's title, description and URL and the stylesheet `/rss/styles.xsl`. Item i is post i with: link `posts/<id>/`; title and description verbatim; pubDate modDatetime if present else pubDatetime; content the rendered body; author the site author; categories the tags or none |
| Rss.ItemsMatchSitemap | src/pages/rss.xml.ts:22-25 | the site URL plus an item's link is the post's sitemap `loc`, and its pubDate formatted is the sitemap `lastmod` |
| Rss.ItemCustomDataShape | src/pages/rss.xml.ts:32-35 | item data holds the media element for `/posts/<id>/<ogImage>` resolved against the site exactly when the image is set and non-empty, then the language line |
| Rss.MediaIffImage | src/pages/rss.xml.ts:33 | the item data mentions `<media:content` if and only if the post has a non-empty ogImage |
| Rss.ItemLanguage | src/pages/rss.xml.ts:34 | the item data always holds `<language>zh-cn</language>` |
| Rss.ChannelReadsBack | src/pages/rss.xml.ts:40-50 | with '<'-free values, the channel block reads back as its five values: lastBuildDate, logo URL, site title, site URL and copyright notice |
| Rss.ChannelFixedParts | src/pages/rss.xml.ts:40-50 | the channel block starts with the language line and contains `<ttl>60</ttl>` |
| Rss.ChannelLogo | src/pages/rss.xml.ts:43-47 | the channel block holds `<url>` + `/logo.png` resolved against the site + `</url>` |
| Rss.ChannelCopyright | src/pages/rss.xml.ts:48 | the channel block holds `<copyright>Copyright ` + year + ` ` + author + `</copyright>` |
| Rss.NoticeYear | src/pages/rss.xml.ts:48 | the copyright notice splits at its first space into the year, which parses back to the year, and the author |
| Decimal.IntToStringRoundTrip | src/pages/rss.xml.ts:48 | printing a year in decimal and parsing it back gives the year |
| Text.SplitJoin | src/pages/robots.txt.ts:3-29 | splitting at line breaks undoes joining lines that hold none |
| Text.ReadFillFill | src/pages/rss.xml.ts:40-50 | reading a filled template gives back its values when the template's chunks are delimited and the values hold no `<` |

## Left out

- I/O and plumbing: `getCollection`, `Response` and its headers, `async`, `Promise.all`. The model takes the collection as an argument and returns the text.
- `getSortedPosts` and `getUniqueTags` (src/utils/ is not part of this model). Their results are arbitrary input sequences; the model relies on no order, stability or uniqueness.
- Clock and date formatting: `new Date()`, `toISOString`, `toUTCString` and `getFullYear` are parameters. Timestamps are integers, and the RSS route's two separate clock reads are two parameters.
- WHATWG URL resolution (`new URL`): a parameter. Only the missing `site` in the robots route is modelled as a failure; a malformed URL is not.
- `marked.parse` and `sanitizeHtml`: one opaque rendering parameter; no sanitisation property is claimed.
- The RSS 2.0 serialisation by `@astrojs/rss`: it is not part of this model. Only the feed, item and channel records handed to it are modelled.
- XML escaping: the handlers escape nothing, so no well-formedness is claimed. Read-back lemmas require fields without `<`.
- Configuration constants (`SITE.website`, `title`, `desc`, `author`): they are parameters.
- `ogImage` is modelled as an optional string; image objects are not modelled.
- Robots.Classify: matches record keys in the exact spelling the document uses. It does not model the case-insensitive matching RFC 9309 allows, and its trimming strips only spaces, not tabs.
- Consistency.TagEntriesShared / TagEntriesSuffix: stated for one build time shared by both documents. The two handlers read the clock separately (src/pages/sitemap-index.xml.ts:12 and src/pages/sitemap-tags.xml.ts:9), so the served files agree in loc, changefreq and priority but not necessarily in lastmod; Consistency.TagEntriesTwoClocks states that case.
- Consistency.IndexDatesPostsSitemap: requires the index's collection and the posts sitemap's list to hold the same posts, and one post dated at or after the epoch. The source does not promise the first: the index folds `getCollection("blog")` (src/pages/sitemap-master.xml.ts:6,10), while the posts sitemap lists `getSortedPosts` of it (src/pages/sitemap-posts.xml.ts:8-9), and that helper is not part of this model; if it drops posts, the index can date the posts child by a post the posts sitemap does not list (Consistency.IndexDatesUnlistedPost). With no posts at all the child is dated by the epoch, which no entry carries.
- Robots.ReadRobotsTxt: requires an href without line breaks, `#` or leading and trailing spaces. Other hrefs would change the line structure.
- `src/utils/animations.js`: UI behaviour, outside the document serialisers.
