/**
 * The XML shapes of the Sitemap protocol 0.9 (sitemaps.org, "XML tag
 * definitions") exactly as the route handlers lay them out: a `<urlset>` of
 * `<url>` entries and a `<sitemapindex>` of `<sitemap>` entries, each entry
 * on its own indented lines. Beside each serialiser is a parser that reads
 * the entries back; the round-trip lemmas show that a document says what
 * its entries say, provided no field contains '<' (nothing is escaped).
 */
module SitemapProtocol {
  import opened Wrappers
  import opened Text

  const XmlDeclaration := "<?xml version=\"1.0\" encoding=\"UTF-8\"?>"
  const Namespace := "http://www.sitemaps.org/schemas/sitemap/0.9"
  const UrlsetOpen := XmlDeclaration + "\n<urlset xmlns=\"" + Namespace + "\">"
  const UrlsetClose := "</urlset>"
  const SitemapIndexOpen := XmlDeclaration + "\n<sitemapindex xmlns=\"" + Namespace + "\">"
  const SitemapIndexClose := "</sitemapindex>"

  /** One `<url>` entry. */
  datatype Url = Url(loc: string, lastmod: string, changefreq: string, priority: string)

  /** One `<sitemap>` entry of a sitemap index. */
  datatype SitemapRef = SitemapRef(loc: string, lastmod: string)

  /** Text that cannot end an element early: it holds no '<'. */
  predicate Clean(s: string) {
    '<' !in s
  }

  lemma CleanConcat(a: string, b: string)
    requires Clean(a) && Clean(b)
    ensures Clean(a + b)
  {
  }

  predicate CleanUrl(u: Url) {
    Clean(u.loc) && Clean(u.lastmod) && Clean(u.changefreq) && Clean(u.priority)
  }

  predicate CleanUrls(us: seq<Url>) {
    forall i :: 0 <= i < |us| ==> CleanUrl(us[i])
  }

  predicate CleanRef(r: SitemapRef) {
    Clean(r.loc) && Clean(r.lastmod)
  }

  predicate CleanRefs(rs: seq<SitemapRef>) {
    forall i :: 0 <= i < |rs| ==> CleanRef(rs[i])
  }

  /** The template of one `<url>` entry, six lines, around its four values. */
  const UrlChunks: seq<string> := [
    "  <url>\n    <loc>",
    "</loc>\n    <lastmod>",
    "</lastmod>\n    <changefreq>",
    "</changefreq>\n    <priority>",
    "</priority>\n  </url>"
  ]

  /** The template of one `<sitemap>` entry, four lines, around its two values. */
  const RefChunks: seq<string> := [
    "  <sitemap>\n    <loc>",
    "</loc>\n    <lastmod>",
    "</lastmod>\n  </sitemap>"
  ]

  function UrlValues(u: Url): seq<string> {
    [u.loc, u.lastmod, u.changefreq, u.priority]
  }

  function UrlXml(u: Url): string {
    Fill(UrlChunks, UrlValues(u))
  }

  /** `entries.map(UrlXml).join("\n")`: the entries' texts, one line break between neighbours. */
  function UrlsXml(us: seq<Url>): string
    decreases |us|
  {
    if |us| == 0 then ""
    else if |us| == 1 then UrlXml(us[0])
    else UrlXml(us[0]) + "\n" + UrlsXml(us[1..])
  }

  function RefXml(r: SitemapRef): string {
    Fill(RefChunks, [r.loc, r.lastmod])
  }

  function RefsXml(rs: seq<SitemapRef>): string
    decreases |rs|
  {
    if |rs| == 0 then ""
    else if |rs| == 1 then RefXml(rs[0])
    else RefXml(rs[0]) + "\n" + RefsXml(rs[1..])
  }

  /** A whole sitemap index listing `rs`. */
  function SitemapIndexXml(rs: seq<SitemapRef>): string {
    SitemapIndexOpen + "\n" + RefsXml(rs) + "\n" + SitemapIndexClose
  }

  // ---------------------------------------------------------------------
  // Reading documents back

  /** Reads one `<url>` entry off the front of `s`. */
  function ParseUrl(s: string): (r: Option<(Url, string)>)
    ensures r.Some? ==> |r.value.1| < |s|
  {
    var f :- ReadFill(s, UrlChunks);
    Some((Url(f.0[0], f.0[1], f.0[2], f.0[3]), f.1))
  }

  /** Reads entries, skipping line breaks, up to a closing `</urlset>` that ends the text. */
  function ParseUrls(s: string): Option<seq<Url>>
    decreases |s|
  {
    if |s| > 0 && s[0] == '\n' then ParseUrls(s[1..])
    else if StartsWith(s, UrlChunks[0]) then
      var entry :- ParseUrl(s);
      var more :- ParseUrls(entry.1);
      Some([entry.0] + more)
    else if |s| == |UrlsetClose| && StartsWith(s, UrlsetClose) then Some([])
    else None
  }

  /** The `<url>` entries of a `<urlset>` document, or None if it is not one. */
  function ParseUrlset(doc: string): Option<seq<Url>> {
    var body :- Consume(doc, UrlsetOpen);
    ParseUrls(body)
  }

  /** Reads one `<sitemap>` entry off the front of `s`. */
  function ParseRef(s: string): (r: Option<(SitemapRef, string)>)
    ensures r.Some? ==> |r.value.1| < |s|
  {
    var f :- ReadFill(s, RefChunks);
    Some((SitemapRef(f.0[0], f.0[1]), f.1))
  }

  function ParseRefs(s: string): Option<seq<SitemapRef>>
    decreases |s|
  {
    if |s| > 0 && s[0] == '\n' then ParseRefs(s[1..])
    else if StartsWith(s, RefChunks[0]) then
      var entry :- ParseRef(s);
      var more :- ParseRefs(entry.1);
      Some([entry.0] + more)
    else if |s| == |SitemapIndexClose| && StartsWith(s, SitemapIndexClose) then Some([])
    else None
  }

  /** The `<sitemap>` entries of a `<sitemapindex>` document. */
  function ParseSitemapIndex(doc: string): Option<seq<SitemapRef>> {
    var body :- Consume(doc, SitemapIndexOpen);
    ParseRefs(body)
  }

  // ---------------------------------------------------------------------
  // Round trips

  lemma ParseUrlXml(u: Url, t: string)
    requires CleanUrl(u)
    ensures ParseUrl(UrlXml(u) + t) == Some((u, t))
  {
    ReadFillFill(UrlChunks, UrlValues(u), t);
  }

  lemma ParseUrlsSkip(t: string)
    ensures ParseUrls("\n" + t) == ParseUrls(t)
  {
    assert ("\n" + t)[1..] == t;
  }

  lemma ParseUrlsEntry(u: Url, t: string)
    requires CleanUrl(u)
    requires ParseUrls(t).Some?
    ensures ParseUrls(UrlXml(u) + t) == Some([u] + ParseUrls(t).value)
  {
    var s := UrlXml(u) + t;
    FillStartsWith(UrlChunks, UrlValues(u));
    assert s[..|UrlChunks[0]|] == UrlXml(u)[..|UrlChunks[0]|];
    assert s[0] == ' ';
    ParseUrlXml(u, t);
  }

  /**
   * Entries joined by line breaks, then a line break and more text, read
   * back as those entries followed by whatever the rest reads as.
   */
  lemma {:induction false} ParseUrlsJoin(us: seq<Url>, t: string)
    requires CleanUrls(us)
    requires ParseUrls(t).Some?
    ensures ParseUrls(UrlsXml(us) + "\n" + t) == Some(us + ParseUrls(t).value)
    decreases |us|
  {
    if |us| == 0 {
      ParseUrlsJoinNil(t);
      EmptyAppend(us, ParseUrls(t).value);
    } else if |us| == 1 {
      ParseUrlsJoinOne(us[0], t);
      assert [us[0]] == us;
    } else {
      ParseUrlsJoin(us[1..], t);
      ParseUrlsJoinCons(us, t);
    }
  }

  lemma ParseUrlsJoinNil(t: string)
    ensures ParseUrls(UrlsXml([]) + "\n" + t) == ParseUrls(t)
  {
    assert UrlsXml([]) + "\n" + t == "\n" + t;
    ParseUrlsSkip(t);
  }

  lemma ParseUrlsJoinOne(x: Url, t: string)
    requires CleanUrl(x)
    requires ParseUrls(t).Some?
    ensures ParseUrls(UrlsXml([x]) + "\n" + t) == Some([x] + ParseUrls(t).value)
  {
    assert UrlsXml([x]) == UrlXml(x);
    Assoc(UrlXml(x), "\n", t);
    ParseUrlsSkip(t);
    ParseUrlsEntry(x, "\n" + t);
  }

  lemma UrlsXmlUnfold(us: seq<Url>)
    requires |us| > 1
    ensures UrlsXml(us) == UrlXml(us[0]) + "\n" + UrlsXml(us[1..])
  {
  }

  lemma UrlsXmlCons(us: seq<Url>, t: string)
    requires |us| > 1
    ensures UrlsXml(us) + "\n" + t == UrlXml(us[0]) + ("\n" + (UrlsXml(us[1..]) + "\n" + t))
  {
    UrlsXmlUnfold(us);
    Regroup(UrlXml(us[0]), "\n", UrlsXml(us[1..]), t);
  }

  lemma ParseUrlsJoinCons(us: seq<Url>, t: string)
    requires |us| > 1 && CleanUrl(us[0])
    requires ParseUrls(t).Some?
    requires ParseUrls(UrlsXml(us[1..]) + "\n" + t) == Some(us[1..] + ParseUrls(t).value)
    ensures ParseUrls(UrlsXml(us) + "\n" + t) == Some(us + ParseUrls(t).value)
  {
    var rest := UrlsXml(us[1..]) + "\n" + t;
    ParseUrlsSkip(rest);
    ParseUrlsEntry(us[0], "\n" + rest);
    UrlsXmlCons(us, t);
    ConsAppend(us, ParseUrls(t).value);
  }


  lemma ParseUrlsClose()
    ensures ParseUrls(UrlsetClose) == Some([])
  {
  }

  /** A `<urlset>` document reads as what its body after the opening line reads as. */
  lemma ParseUrlsetBody(body: string)
    ensures ParseUrlset(UrlsetOpen + "\n" + body) == ParseUrls(body)
  {
    assert UrlsetOpen + "\n" + body == UrlsetOpen + ("\n" + body);
    ConsumePrefix(UrlsetOpen, "\n" + body);
    ParseUrlsSkip(body);
  }

  /** A `<urlset>` of three sections, each on its own lines, reads back as their entries in order. */
  lemma ParseThreeSections(a: seq<Url>, b: seq<Url>, c: seq<Url>)
    requires CleanUrls(a) && CleanUrls(b) && CleanUrls(c)
    ensures ParseUrlset(UrlsetOpen + "\n" + UrlsXml(a) + "\n" + UrlsXml(b) + "\n" + UrlsXml(c) + "\n" + UrlsetClose)
         == Some(a + b + c)
  {
    var x3 := UrlsXml(c) + "\n" + UrlsetClose;
    var x2 := UrlsXml(b) + "\n" + x3;
    var x1 := UrlsXml(a) + "\n" + x2;
    ParseUrlsClose();
    ParseUrlsJoin(c, UrlsetClose);
    ParseUrlsJoin(b, x3);
    ParseUrlsJoin(a, x2);
    RegroupLines5(UrlsetOpen, UrlsXml(a), UrlsXml(b), UrlsXml(c), UrlsetClose);
    ParseUrlsetBody(x1);
    Append3(a, b, c);
  }

  /** A `<urlset>` of two sections. */
  lemma ParseTwoSections(a: seq<Url>, b: seq<Url>)
    requires CleanUrls(a) && CleanUrls(b)
    ensures ParseUrlset(UrlsetOpen + "\n" + UrlsXml(a) + "\n" + UrlsXml(b) + "\n" + UrlsetClose)
         == Some(a + b)
  {
    var x2 := UrlsXml(b) + "\n" + UrlsetClose;
    var x1 := UrlsXml(a) + "\n" + x2;
    ParseUrlsClose();
    ParseUrlsJoin(b, UrlsetClose);
    ParseUrlsJoin(a, x2);
    RegroupLines4(UrlsetOpen, UrlsXml(a), UrlsXml(b), UrlsetClose);
    ParseUrlsetBody(x1);
    Append2(a, b);
  }

  /** A `<urlset>` of one section. */
  lemma ParseOneSection(a: seq<Url>)
    requires CleanUrls(a)
    ensures ParseUrlset(UrlsetOpen + "\n" + UrlsXml(a) + "\n" + UrlsetClose) == Some(a)
  {
    var x1 := UrlsXml(a) + "\n" + UrlsetClose;
    ParseUrlsClose();
    ParseUrlsJoin(a, UrlsetClose);
    assert UrlsetOpen + "\n" + UrlsXml(a) + "\n" + UrlsetClose == UrlsetOpen + "\n" + x1;
    ParseUrlsetBody(x1);
    EmptyAppend([], a);
    assert a + [] == a;
  }

  lemma ParseRefXml(r: SitemapRef, t: string)
    requires CleanRef(r)
    ensures ParseRef(RefXml(r) + t) == Some((r, t))
  {
    ReadFillFill(RefChunks, [r.loc, r.lastmod], t);
  }

  lemma ParseRefsSkip(t: string)
    ensures ParseRefs("\n" + t) == ParseRefs(t)
  {
    assert ("\n" + t)[1..] == t;
  }

  lemma ParseRefsEntry(r: SitemapRef, t: string)
    requires CleanRef(r)
    requires ParseRefs(t).Some?
    ensures ParseRefs(RefXml(r) + t) == Some([r] + ParseRefs(t).value)
  {
    var s := RefXml(r) + t;
    FillStartsWith(RefChunks, [r.loc, r.lastmod]);
    assert s[..|RefChunks[0]|] == RefXml(r)[..|RefChunks[0]|];
    assert s[0] == ' ';
    ParseRefXml(r, t);
  }

  lemma {:induction false} ParseRefsJoin(rs: seq<SitemapRef>, t: string)
    requires CleanRefs(rs)
    requires ParseRefs(t).Some?
    ensures ParseRefs(RefsXml(rs) + "\n" + t) == Some(rs + ParseRefs(t).value)
    decreases |rs|
  {
    if |rs| == 0 {
      ParseRefsJoinNil(t);
      EmptyAppend(rs, ParseRefs(t).value);
    } else if |rs| == 1 {
      ParseRefsJoinOne(rs[0], t);
      assert [rs[0]] == rs;
    } else {
      ParseRefsJoin(rs[1..], t);
      ParseRefsJoinCons(rs, t);
    }
  }

  lemma ParseRefsJoinNil(t: string)
    ensures ParseRefs(RefsXml([]) + "\n" + t) == ParseRefs(t)
  {
    assert RefsXml([]) + "\n" + t == "\n" + t;
    ParseRefsSkip(t);
  }

  lemma ParseRefsJoinOne(x: SitemapRef, t: string)
    requires CleanRef(x)
    requires ParseRefs(t).Some?
    ensures ParseRefs(RefsXml([x]) + "\n" + t) == Some([x] + ParseRefs(t).value)
  {
    assert RefsXml([x]) == RefXml(x);
    Assoc(RefXml(x), "\n", t);
    ParseRefsSkip(t);
    ParseRefsEntry(x, "\n" + t);
  }

  lemma RefsXmlUnfold(rs: seq<SitemapRef>)
    requires |rs| > 1
    ensures RefsXml(rs) == RefXml(rs[0]) + "\n" + RefsXml(rs[1..])
  {
  }

  lemma RefsXmlCons(rs: seq<SitemapRef>, t: string)
    requires |rs| > 1
    ensures RefsXml(rs) + "\n" + t == RefXml(rs[0]) + ("\n" + (RefsXml(rs[1..]) + "\n" + t))
  {
    RefsXmlUnfold(rs);
    Regroup(RefXml(rs[0]), "\n", RefsXml(rs[1..]), t);
  }

  lemma ParseRefsJoinCons(rs: seq<SitemapRef>, t: string)
    requires |rs| > 1 && CleanRef(rs[0])
    requires ParseRefs(t).Some?
    requires ParseRefs(RefsXml(rs[1..]) + "\n" + t) == Some(rs[1..] + ParseRefs(t).value)
    ensures ParseRefs(RefsXml(rs) + "\n" + t) == Some(rs + ParseRefs(t).value)
  {
    var rest := RefsXml(rs[1..]) + "\n" + t;
    ParseRefsSkip(rest);
    ParseRefsEntry(rs[0], "\n" + rest);
    RefsXmlCons(rs, t);
    ConsAppend(rs, ParseRefs(t).value);
  }


  /** A sitemap index reads back as exactly the entries it lists. */
  lemma ParseSitemapIndexXml(rs: seq<SitemapRef>)
    requires CleanRefs(rs)
    ensures ParseSitemapIndex(SitemapIndexXml(rs)) == Some(rs)
  {
    var body := RefsXml(rs) + "\n" + SitemapIndexClose;
    assert SitemapIndexXml(rs) == SitemapIndexOpen + ("\n" + body);
    ConsumePrefix(SitemapIndexOpen, "\n" + body);
    ParseRefsSkip(body);
    assert ParseRefs(SitemapIndexClose) == Some([]);
    ParseRefsJoin(rs, SitemapIndexClose);
    assert rs + [] == rs;
  }
}
