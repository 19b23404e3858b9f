/**
 * `GET /robots.txt`: a fixed set of crawler groups followed by one
 * `Sitemap:` record pointing at `sitemap-index.xml` resolved against the
 * site's base URL.
 *
 * The partner of the document is a reader for the record syntax of RFC 9309
 * (section 2.2): every line is a `key: value` record, a comment or blank;
 * consecutive `User-agent` records open a group (section 2.1) whose
 * following records are its rules; `Sitemap` is one of the "other records"
 * of section 2.2.4 and belongs to no group.
 */
module Robots {
  import opened Wrappers
  import opened Text
  import opened Content

  // ---------------------------------------------------------------- document

  /** The banner comments, between blank lines (the template opens with a line break). */
  const HeaderLines: seq<string> := ["", "# robots.txt for Assistant Hub", "# https://celery94.github.io/", ""]

  /** A `key: value` line of the template. */
  function RecordLine(key: string, value: string): string {
    key + ": " + value
  }

  const WildcardLines: seq<string> := [
    RecordLine("User-agent", "*"), RecordLine("Allow", "/"), RecordLine("Disallow", "/admin/"),
    RecordLine("Disallow", "/draft/"), RecordLine("Disallow", "/api/"), RecordLine("Disallow", "/*?"), ""]

  /** A named bot's group: its `User-agent`, `Allow: /` and a `Crawl-delay`, then a blank line. */
  function BotLines(bot: string, delay: string): seq<string> {
    [RecordLine("User-agent", bot), RecordLine("Allow", "/"), RecordLine("Crawl-delay", delay), ""]
  }

  /** The banner, the wildcard group and the comment introducing the named bots. */
  const OpeningLines: seq<string> :=
    HeaderLines + WildcardLines + ["# Allow specific bots with custom rules"]

  /** The three named bots' groups and the comment introducing the `Sitemap:` line. */
  const BotGroupLines: seq<string> :=
    BotLines("Googlebot", "1") + BotLines("Bingbot", "1") + BotLines("Baiduspider", "2") + ["# Sitemap"]

  /** The template's lines before the `Sitemap:` line, in order. */
  const Preamble: seq<string> := OpeningLines + BotGroupLines

  /** All lines of the document: the preamble, the `Sitemap:` line, and the empty line after the final newline. */
  function Lines(href: string): seq<string> {
    Preamble + [RecordLine("Sitemap", href), ""]
  }

  /** `getRobotsTxt(sitemapURL)`, given `sitemapURL.href`. */
  function RobotsTxt(href: string): string {
    Join("\n", Lines(href))
  }

  /**
   * `GET`: `new URL("sitemap-index.xml", site)` throws when Astro supplies no
   * `site`; otherwise the document names the resolved URL.
   */
  function Get(site: Option<string>, platform: Platform): (r: Result<string>)
    ensures site.None? <==> r.Err?
    ensures site.Some? ==> r == Ok(RobotsTxt(platform.resolve("sitemap-index.xml", site.value)))
  {
    match site
    case None => Err("TypeError: Invalid URL")
    case Some(base) => Ok(RobotsTxt(platform.resolve("sitemap-index.xml", base)))
  }

  // ------------------------------------------------------------ record reader

  datatype Record =
    | UserAgent(product: string)
    | Allow(path: string)
    | Disallow(path: string)
    | Other(key: string, value: string)

  /** A group: the user agents it applies to and the records that follow them. */
  datatype Group = Group(agents: seq<string>, rules: seq<Record>)

  /** What a crawler reads from a robots.txt file. */
  datatype RobotsFile = RobotsFile(groups: seq<Group>, sitemaps: seq<string>)

  function TrimStart(s: string): string
    decreases |s|
  {
    if |s| > 0 && s[0] == ' ' then TrimStart(s[1..]) else s
  }

  function TrimEnd(s: string): string
    decreases |s|
  {
    if |s| > 0 && s[|s| - 1] == ' ' then TrimEnd(s[..|s| - 1]) else s
  }

  function Trim(s: string): string {
    TrimEnd(TrimStart(s))
  }

  /** The record a key names, given the trimmed key and value. */
  function Classify(key: string, value: string): Record {
    if key == "User-agent" then UserAgent(value)
    else if key == "Allow" then Allow(value)
    else if key == "Disallow" then Disallow(value)
    else Other(key, value)
  }

  /** The part of a line before any `#` comment. */
  function Uncommented(line: string): string {
    TakeUntil(line, '#').0
  }

  /**
   * Scans a line's key up to the first `:`; `key` is what has been read so
   * far. A line whose comment or end comes before any `:` carries no record.
   */
  function ReadKey(rest: string, key: string): Option<Record>
    decreases |rest|
  {
    if |rest| == 0 || rest[0] == '#' then None
    else if rest[0] == ':' then Some(Classify(Trim(key), Trim(Uncommented(rest[1..]))))
    else ReadKey(rest[1..], key + [rest[0]])
  }

  /** A line's record: none for a blank or comment line or one without a `:`. */
  function ParseLine(line: string): Option<Record> {
    ReadKey(line, "")
  }

  /** Each line's record, or `None` for a line that carries none. */
  function ParseLines(lines: seq<string>): (ps: seq<Option<Record>>)
    ensures |ps| == |lines|
  {
    seq(|lines|, i requires 0 <= i < |lines| => ParseLine(lines[i]))
  }

  /** The values of the `Some` entries, in order. */
  function Present<T>(os: seq<Option<T>>): seq<T>
    decreases |os|
  {
    if |os| == 0 then []
    else os[0].ToSeq() + Present(os[1..])
  }

  /** The records of a file's lines, in order. */
  function Records(lines: seq<string>): seq<Record> {
    Present(ParseLines(lines))
  }

  predicate IsSitemap(r: Record) {
    r.Other? && r.key == "Sitemap"
  }

  /** The records that take part in grouping: all but `Sitemap`. */
  function GroupRecords(rs: seq<Record>): seq<Record>
    decreases |rs|
  {
    if |rs| == 0 then []
    else (if IsSitemap(rs[0]) then [] else [rs[0]]) + GroupRecords(rs[1..])
  }

  function SitemapUrls(rs: seq<Record>): seq<string>
    decreases |rs|
  {
    if |rs| == 0 then []
    else (if IsSitemap(rs[0]) then [rs[0].value] else []) + SitemapUrls(rs[1..])
  }

  /**
   * Groups the records, `cur` being the group still open. A `User-agent`
   * right after another joins its group; after a rule it closes the group
   * and opens a new one. Rules before the first `User-agent` are dropped.
   */
  function GroupsFrom(rs: seq<Record>, cur: Option<Group>): seq<Group>
    decreases |rs|
  {
    if |rs| == 0 then cur.ToSeq()
    else if rs[0].UserAgent? then
      if cur.Some? && |cur.value.rules| == 0 then
        GroupsFrom(rs[1..], Some(Group(cur.value.agents + [rs[0].product], [])))
      else
        cur.ToSeq() + GroupsFrom(rs[1..], Some(Group([rs[0].product], [])))
    else if cur.Some? then
      GroupsFrom(rs[1..], Some(Group(cur.value.agents, cur.value.rules + [rs[0]])))
    else
      GroupsFrom(rs[1..], None)
  }

  function Read(text: string): RobotsFile {
    var rs := Records(Split(text, '\n'));
    RobotsFile(GroupsFrom(GroupRecords(rs), None), SitemapUrls(rs))
  }

  // ------------------------------------------------------------ line lemmas

  /** No padding spaces at either end. */
  predicate Unpadded(s: string) {
    |s| == 0 || (s[0] != ' ' && s[|s| - 1] != ' ')
  }

  lemma TrimUnpadded(s: string)
    requires Unpadded(s)
    ensures TrimStart(s) == s && TrimEnd(s) == s && Trim(s) == s
  {
  }

  lemma TrimOneSpace(v: string)
    requires Unpadded(v)
    ensures Trim(" " + v) == v
  {
    assert (" " + v)[1..] == v;
    assert TrimStart(" " + v) == TrimStart(v);
    TrimUnpadded(v);
  }

  lemma NoComment(line: string)
    requires '#' !in line
    ensures Uncommented(line) == line
  {
    TakeUntilConcat(line, [], '#');
    assert line + [] == line;
  }

  lemma {:induction false} ReadKeyValue(key: string, acc: string, value: string)
    requires '#' !in key && ':' !in key && '#' !in value
    ensures ReadKey(key + ": " + value, acc) == Some(Classify(Trim(acc + key), Trim(" " + value)))
    decreases |key|
  {
    if |key| == 0 {
      assert key + ": " + value == [':'] + (" " + value);
      assert (key + ": " + value)[1..] == " " + value;
      assert acc + key == acc;
      NoComment(" " + value);
    } else {
      var line := key + ": " + value;
      assert line[0] == key[0];
      assert line[1..] == key[1..] + ": " + value;
      ReadKeyValue(key[1..], acc + [key[0]], value);
      assert acc + [key[0]] + key[1..] == acc + key;
    }
  }

  /** A `key: value` line reads as the record its key names. */
  lemma KeyValueLine(key: string, value: string)
    requires '#' !in key && '#' !in value && ':' !in key
    requires Unpadded(key) && Unpadded(value)
    ensures ParseLine(RecordLine(key, value)) == Some(Classify(key, value))
  {
    ReadKeyValue(key, "", value);
    assert "" + key == key;
    TrimOneSpace(value);
    TrimUnpadded(key);
  }

  /** A comment line carries no record. */
  lemma CommentLine(line: string)
    requires |line| > 0 && line[0] == '#'
    ensures ParseLine(line) == None
  {
  }

  lemma BlankLine()
    ensures ParseLine("") == None
  {
  }

  /** The keys the template uses, and the records they name. */
  lemma ClassifyKeys(v: string)
    ensures Classify("User-agent", v) == UserAgent(v)
    ensures Classify("Allow", v) == Allow(v)
    ensures Classify("Disallow", v) == Disallow(v)
    ensures Classify("Crawl-delay", v) == Other("Crawl-delay", v)
    ensures Classify("Sitemap", v) == Other("Sitemap", v)
  {
    assert |"Crawl-delay"| == 11 && |"Sitemap"| == 7;
    assert "Sitemap" != "Allow" by { assert "Sitemap"[0] != "Allow"[0]; }
  }

  lemma {:induction false} PresentAppend<T>(a: seq<Option<T>>, b: seq<Option<T>>)
    ensures Present(a + b) == Present(a) + Present(b)
    decreases |a|
  {
    if |a| == 0 {
      assert a + b == b;
    } else {
      var head := a[0].ToSeq();
      assert (a + b)[0] == a[0];
      assert (a + b)[1..] == a[1..] + b;
      PresentAppend(a[1..], b);
      assert Present(a + b) == head + (Present(a[1..]) + Present(b));
      assert head + (Present(a[1..]) + Present(b)) == (head + Present(a[1..])) + Present(b);
    }
  }

  lemma PresentCons<T>(o: Option<T>, rest: seq<Option<T>>)
    ensures Present([o] + rest) == o.ToSeq() + Present(rest)
  {
    assert ([o] + rest)[1..] == rest;
  }

  lemma ParseLinesAppend(a: seq<string>, b: seq<string>)
    ensures ParseLines(a + b) == ParseLines(a) + ParseLines(b)
  {
  }

  lemma RecordsAppend(a: seq<string>, b: seq<string>)
    ensures Records(a + b) == Records(a) + Records(b)
  {
    ParseLinesAppend(a, b);
    PresentAppend(ParseLines(a), ParseLines(b));
  }

  /** Line `i` of `lines` is a `key: value` record. */
  lemma RecordAt(lines: seq<string>, i: int, key: string, value: string)
    requires 0 <= i < |lines| && lines[i] == RecordLine(key, value)
    requires '#' !in key && '#' !in value && ':' !in key
    requires Unpadded(key) && Unpadded(value)
    ensures ParseLines(lines)[i] == Some(Classify(key, value))
  {
    KeyValueLine(key, value);
  }

  /** Line `i` of `lines` is blank or a comment. */
  lemma NoRecordAt(lines: seq<string>, i: int)
    requires 0 <= i < |lines| && (lines[i] == "" || lines[i][0] == '#')
    ensures ParseLines(lines)[i] == None
  {
    if lines[i] == "" {
      BlankLine();
    } else {
      CommentLine(lines[i]);
    }
  }

  lemma Seq4<T>(s: seq<T>, a: T, b: T, c: T, d: T)
    requires |s| == 4 && s[0] == a && s[1] == b && s[2] == c && s[3] == d
    ensures s == [a, b, c, d]
  {
  }

  lemma Seq7<T>(s: seq<T>, a: T, b: T, c: T, d: T, e: T, f: T, g: T)
    requires |s| == 7 && s[0] == a && s[1] == b && s[2] == c && s[3] == d
    requires s[4] == e && s[5] == f && s[6] == g
    ensures s == [a, b, c, d, e, f, g]
  {
  }

  /** Reads off the values of a 4-entry option sequence. */
  lemma Present4<T>(a: Option<T>, b: Option<T>, c: Option<T>, d: Option<T>)
    ensures Present([a, b, c, d]) == a.ToSeq() + b.ToSeq() + c.ToSeq() + d.ToSeq()
  {
    var s := [a, b, c, d];
    assert s[1..] == [b, c, d];
    assert s[1..][1..] == [c, d];
    assert s[1..][1..][1..] == [d];
    assert [d][1..] == [];
    var x, y, z, w := a.ToSeq(), b.ToSeq(), c.ToSeq(), d.ToSeq();
    assert Present([d]) == w + [];
    assert Present([c, d]) == z + w;
    assert Present([b, c, d]) == y + (z + w);
    assert Present(s) == x + (y + (z + w));
    assert x + (y + (z + w)) == x + y + z + w;
  }

  lemma BotParse(bot: string, delay: string)
    requires '#' !in bot && Unpadded(bot) && '#' !in delay && Unpadded(delay)
    ensures ParseLines(BotLines(bot, delay)) ==
      [Some(UserAgent(bot)), Some(Allow("/")), Some(Other("Crawl-delay", delay)), None]
  {
    var ls := BotLines(bot, delay);
    RecordAt(ls, 0, "User-agent", bot);
    RecordAt(ls, 1, "Allow", "/");
    RecordAt(ls, 2, "Crawl-delay", delay);
    NoRecordAt(ls, 3);
    ClassifyKeys(bot);
    ClassifyKeys("/");
    ClassifyKeys(delay);
    Seq4(ParseLines(ls), Some(UserAgent(bot)), Some(Allow("/")), Some(Other("Crawl-delay", delay)), None);
  }

  /** The records of a bot's four lines: its `User-agent`, `Allow: /` and `Crawl-delay`. */
  lemma BotRecords(bot: string, delay: string)
    requires '#' !in bot && Unpadded(bot) && '#' !in delay && Unpadded(delay)
    ensures Records(BotLines(bot, delay)) == BotRecordList(bot, delay)
  {
    BotParse(bot, delay);
    Present4(Some(UserAgent(bot)), Some(Allow("/")), Some(Other("Crawl-delay", delay)), None);
  }

  lemma HeaderRecords()
    ensures Records(HeaderLines) == []
  {
    var h := HeaderLines;
    NoRecordAt(h, 0);
    NoRecordAt(h, 1);
    NoRecordAt(h, 2);
    NoRecordAt(h, 3);
    Seq4(ParseLines(h), None, None, None, None);
    Present4<Record>(None, None, None, None);
  }

  const WildcardRecordList: seq<Record> :=
    [UserAgent("*"), Allow("/"), Disallow("/admin/"), Disallow("/draft/"), Disallow("/api/"), Disallow("/*?")]

  lemma WildcardParse()
    ensures ParseLines(WildcardLines) ==
      [Some(UserAgent("*")), Some(Allow("/")), Some(Disallow("/admin/")), Some(Disallow("/draft/")),
       Some(Disallow("/api/")), Some(Disallow("/*?")), None]
  {
    var w := WildcardLines;
    RecordAt(w, 0, "User-agent", "*");
    RecordAt(w, 1, "Allow", "/");
    RecordAt(w, 2, "Disallow", "/admin/");
    RecordAt(w, 3, "Disallow", "/draft/");
    RecordAt(w, 4, "Disallow", "/api/");
    RecordAt(w, 5, "Disallow", "/*?");
    NoRecordAt(w, 6);
    ClassifyKeys("*");
    ClassifyKeys("/");
    ClassifyKeys("/admin/");
    ClassifyKeys("/draft/");
    ClassifyKeys("/api/");
    ClassifyKeys("/*?");
    Seq7(ParseLines(w), Some(UserAgent("*")), Some(Allow("/")), Some(Disallow("/admin/")), Some(Disallow("/draft/")),
         Some(Disallow("/api/")), Some(Disallow("/*?")), None);
  }

  lemma WildcardHead(ps: seq<Option<Record>>)
    requires ps == ParseLines(WildcardLines)
    ensures Present(ps[..4]) == [UserAgent("*"), Allow("/"), Disallow("/admin/"), Disallow("/draft/")]
  {
    WildcardParse();
    Seq4(ps[..4], Some(UserAgent("*")), Some(Allow("/")), Some(Disallow("/admin/")), Some(Disallow("/draft/")));
    Present4(Some(UserAgent("*")), Some(Allow("/")), Some(Disallow("/admin/")), Some(Disallow("/draft/")));
  }

  lemma WildcardTail(ps: seq<Option<Record>>)
    requires ps == ParseLines(WildcardLines)
    ensures Present(ps[4..]) == [Disallow("/api/"), Disallow("/*?")]
  {
    WildcardParse();
    var t := ps[4..];
    assert t == [Some(Disallow("/api/")), Some(Disallow("/*?")), None];
    Present4(Some(Disallow("/api/")), Some(Disallow("/*?")), None, None);
    PresentCons<Record>(None, []);
    assert [Some(Disallow("/api/")), Some(Disallow("/*?")), None, None] == t + [None];
    PresentAppend(t, [None]);
  }

  lemma WildcardRecords()
    ensures Records(WildcardLines) == WildcardRecordList
  {
    var ps := ParseLines(WildcardLines);
    assert ps == ps[..4] + ps[4..];
    PresentAppend(ps[..4], ps[4..]);
    WildcardHead(ps);
    WildcardTail(ps);
  }

  /** A comment line alone carries no record. */
  lemma CommentRecords(line: string)
    requires |line| > 0 && line[0] == '#'
    ensures Records([line]) == []
  {
    NoRecordAt([line], 0);
    var none: Option<Record> := None;
    assert ParseLines([line]) == [none];
    PresentCons(none, []);
    assert [none] + [] == [none];
  }

  /** The records of a named bot's group, in order. */
  function BotRecordList(bot: string, delay: string): seq<Record> {
    [UserAgent(bot), Allow("/"), Other("Crawl-delay", delay)]
  }

  /** The records of the template's lines before the `Sitemap:` line. */
  const PreambleRecords: seq<Record> :=
    WildcardRecordList + BotRecordList("Googlebot", "1") + BotRecordList("Bingbot", "1")
    + BotRecordList("Baiduspider", "2")

  lemma OpeningReads()
    ensures Records(OpeningLines) == WildcardRecordList
  {
    var comment := "# Allow specific bots with custom rules";
    var hw := HeaderLines + WildcardLines;
    HeaderRecords();
    WildcardRecords();
    RecordsAppend(HeaderLines, WildcardLines);
    EmptyAppend([], WildcardRecordList);
    assert Records(hw) == WildcardRecordList;
    CommentRecords(comment);
    RecordsAppend(hw, [comment]);
    assert WildcardRecordList + [] == WildcardRecordList;
  }

  /** The records of the three named bots' lines. */
  lemma NamedBotRecords()
    ensures Records(BotLines("Googlebot", "1")) == BotRecordList("Googlebot", "1")
    ensures Records(BotLines("Bingbot", "1")) == BotRecordList("Bingbot", "1")
    ensures Records(BotLines("Baiduspider", "2")) == BotRecordList("Baiduspider", "2")
  {
    BotRecords("Googlebot", "1");
    BotRecords("Bingbot", "1");
    BotRecords("Baiduspider", "2");
  }

  lemma BotGroupsRead()
    ensures Records(BotGroupLines) ==
      BotRecordList("Googlebot", "1") + BotRecordList("Bingbot", "1") + BotRecordList("Baiduspider", "2")
  {
    var a := BotLines("Googlebot", "1") + BotLines("Bingbot", "1");
    var b := a + BotLines("Baiduspider", "2");
    var r := BotRecordList("Googlebot", "1") + BotRecordList("Bingbot", "1") + BotRecordList("Baiduspider", "2");
    NamedBotRecords();
    RecordsAppend(BotLines("Googlebot", "1"), BotLines("Bingbot", "1"));
    RecordsAppend(a, BotLines("Baiduspider", "2"));
    assert Records(b) == r;
    CommentRecords("# Sitemap");
    RecordsAppend(b, ["# Sitemap"]);
    assert r + [] == r;
  }

  lemma PreambleReads()
    ensures Records(Preamble) == PreambleRecords
  {
    OpeningReads();
    BotGroupsRead();
    RecordsAppend(OpeningLines, BotGroupLines);
  }
  // --------------------------------------------------------- document lemmas

  /** The groups of RFC 9309 section 2.1 the document declares, in order. */
  const Groups: seq<Group> := [
    Group(["*"], [Allow("/"), Disallow("/admin/"), Disallow("/draft/"), Disallow("/api/"), Disallow("/*?")]),
    Group(["Googlebot"], [Allow("/"), Other("Crawl-delay", "1")]),
    Group(["Bingbot"], [Allow("/"), Other("Crawl-delay", "1")]),
    Group(["Baiduspider"], [Allow("/"), Other("Crawl-delay", "2")])
  ]

  /** No line of `ls` holds a line break. */
  predicate SingleLines(ls: seq<string>) {
    forall i :: 0 <= i < |ls| ==> '\n' !in ls[i]
  }

  lemma SingleLinesAppend(a: seq<string>, b: seq<string>)
    requires SingleLines(a) && SingleLines(b)
    ensures SingleLines(a + b)
  {
    forall i | 0 <= i < |a + b|
      ensures '\n' !in (a + b)[i]
    {
      if i >= |a| {
        assert (a + b)[i] == b[i - |a|];
      }
    }
  }

  lemma RecordSingle(key: string, value: string)
    requires '\n' !in key && '\n' !in value
    ensures '\n' !in RecordLine(key, value)
  {
  }

  lemma BotSingle(bot: string, delay: string)
    requires '\n' !in bot && '\n' !in delay
    ensures SingleLines(BotLines(bot, delay))
  {
    RecordSingle("User-agent", bot);
    RecordSingle("Allow", "/");
    RecordSingle("Crawl-delay", delay);
  }

  lemma HeaderSingle()
    ensures SingleLines(HeaderLines)
  {
  }

  lemma WildcardSingle()
    ensures SingleLines(WildcardLines)
  {
    RecordSingle("User-agent", "*");
    RecordSingle("Allow", "/");
    RecordSingle("Disallow", "/admin/");
    RecordSingle("Disallow", "/draft/");
    RecordSingle("Disallow", "/api/");
    RecordSingle("Disallow", "/*?");
  }

  lemma OpeningSingle()
    ensures SingleLines(OpeningLines)
  {
    HeaderSingle();
    WildcardSingle();
    SingleLinesAppend(HeaderLines, WildcardLines);
    SingleLinesAppend(HeaderLines + WildcardLines, ["# Allow specific bots with custom rules"]);
  }

  lemma BotGroupsSingle()
    ensures SingleLines(BotGroupLines)
  {
    BotSingle("Googlebot", "1");
    BotSingle("Bingbot", "1");
    BotSingle("Baiduspider", "2");
    SingleLinesAppend(BotLines("Googlebot", "1"), BotLines("Bingbot", "1"));
    SingleLinesAppend(BotLines("Googlebot", "1") + BotLines("Bingbot", "1"), BotLines("Baiduspider", "2"));
    SingleLinesAppend(BotLines("Googlebot", "1") + BotLines("Bingbot", "1") + BotLines("Baiduspider", "2"), ["# Sitemap"]);
  }

  /** The document splits back into its lines when the URL has no line break. */
  lemma RobotsLines(href: string)
    requires '\n' !in href
    ensures Split(RobotsTxt(href), '\n') == Lines(href)
  {
    OpeningSingle();
    BotGroupsSingle();
    SingleLinesAppend(OpeningLines, BotGroupLines);
    RecordSingle("Sitemap", href);
    SingleLinesAppend(Preamble, [RecordLine("Sitemap", href), ""]);
    SplitJoin(Lines(href), '\n');
  }

  // ------------------------------------------------------- records and groups

  /** No record of `rs` is a `Sitemap` record. */
  predicate NoSitemap(rs: seq<Record>) {
    forall i :: 0 <= i < |rs| ==> !IsSitemap(rs[i])
  }

  lemma NoSitemapConcat(a: seq<Record>, b: seq<Record>)
    requires NoSitemap(a) && NoSitemap(b)
    ensures NoSitemap(a + b)
  {
    forall i | 0 <= i < |a + b|
      ensures !IsSitemap((a + b)[i])
    {
      if i >= |a| {
        assert (a + b)[i] == b[i - |a|];
      }
    }
  }

  lemma BotNoSitemap(bot: string, delay: string)
    ensures NoSitemap(BotRecordList(bot, delay))
  {
    assert |"Crawl-delay"| == 11 && |"Sitemap"| == 7;
  }

  lemma PreambleNoSitemap()
    ensures NoSitemap(PreambleRecords)
  {
    assert NoSitemap(WildcardRecordList);
    BotNoSitemap("Googlebot", "1");
    BotNoSitemap("Bingbot", "1");
    BotNoSitemap("Baiduspider", "2");
    NoSitemapConcat(WildcardRecordList, BotRecordList("Googlebot", "1"));
    NoSitemapConcat(WildcardRecordList + BotRecordList("Googlebot", "1"), BotRecordList("Bingbot", "1"));
    NoSitemapConcat(WildcardRecordList + BotRecordList("Googlebot", "1") + BotRecordList("Bingbot", "1"),
                    BotRecordList("Baiduspider", "2"));
  }

  /** A trailing `Sitemap` record after records that hold none: it is the only sitemap, and grouping skips it. */
  lemma {:induction false} TrailingSitemap(rs: seq<Record>, href: string)
    requires NoSitemap(rs)
    ensures GroupRecords(rs + [Other("Sitemap", href)]) == rs
    ensures SitemapUrls(rs + [Other("Sitemap", href)]) == [href]
    decreases |rs|
  {
    var all := rs + [Other("Sitemap", href)];
    if |rs| == 0 {
      assert all == [Other("Sitemap", href)];
      assert all[1..] == [];
    } else {
      assert all[0] == rs[0];
      assert all[1..] == rs[1..] + [Other("Sitemap", href)];
      TrailingSitemap(rs[1..], href);
      assert [rs[0]] + rs[1..] == rs;
    }
  }

  /** The `Sitemap:` line and the empty line after the final newline carry one `Sitemap` record. */
  lemma ReadLastLines(href: string)
    requires '#' !in href && Unpadded(href)
    ensures Records([RecordLine("Sitemap", href), ""]) == [Other("Sitemap", href)]
  {
    var ls := [RecordLine("Sitemap", href), ""];
    RecordAt(ls, 0, "Sitemap", href);
    NoRecordAt(ls, 1);
    ClassifyKeys(href);
    var some := Some(Other("Sitemap", href));
    var none: Option<Record> := None;
    assert ParseLines(ls) == [some, none];
    PresentCons(some, [none]);
    PresentCons(none, []);
  }

  /** The records of the whole document: the preamble's, then the one `Sitemap` record. */
  lemma DocumentRecords(href: string)
    requires '#' !in href && Unpadded(href)
    ensures Records(Lines(href)) == PreambleRecords + [Other("Sitemap", href)]
  {
    PreambleReads();
    ReadLastLines(href);
    RecordsAppend(Preamble, [RecordLine("Sitemap", href), ""]);
  }

  /** The `User-agent` records naming `agents`, in order. */
  function AgentRecords(agents: seq<string>): (rs: seq<Record>)
    ensures |rs| == |agents|
    ensures forall i :: 0 <= i < |agents| ==> rs[i] == UserAgent(agents[i])
  {
    seq(|agents|, i requires 0 <= i < |agents| => UserAgent(agents[i]))
  }

  /** A group written out: its `User-agent` lines, then its rules. */
  function Emit(g: Group): seq<Record> {
    AgentRecords(g.agents) + g.rules
  }

  /** Groups written out one after another. */
  function EmitAll(gs: seq<Group>): seq<Record>
    decreases |gs|
  {
    if |gs| == 0 then [] else Emit(gs[0]) + EmitAll(gs[1..])
  }

  /** A group a reader can recover: at least one agent, at least one rule, no `User-agent` among the rules. */
  predicate WellFormed(g: Group) {
    |g.agents| > 0 && |g.rules| > 0 && forall i :: 0 <= i < |g.rules| ==> !g.rules[i].UserAgent?
  }

  lemma {:induction false} AgentsStep(agents: seq<string>, pre: seq<string>, rest: seq<Record>)
    requires |pre| > 0
    ensures GroupsFrom(AgentRecords(agents) + rest, Some(Group(pre, []))) ==
      GroupsFrom(rest, Some(Group(pre + agents, [])))
    decreases |agents|
  {
    if |agents| == 0 {
      assert AgentRecords(agents) + rest == rest;
      assert pre + agents == pre;
    } else {
      var rs := AgentRecords(agents) + rest;
      assert rs[0] == UserAgent(agents[0]);
      assert rs[1..] == AgentRecords(agents[1..]) + rest;
      AgentsStep(agents[1..], pre + [agents[0]], rest);
      assert pre + [agents[0]] + agents[1..] == pre + agents;
    }
  }

  lemma {:induction false} RulesStep(rules: seq<Record>, g: Group, rest: seq<Record>)
    requires forall i :: 0 <= i < |rules| ==> !rules[i].UserAgent?
    ensures GroupsFrom(rules + rest, Some(g)) == GroupsFrom(rest, Some(Group(g.agents, g.rules + rules)))
    decreases |rules|
  {
    if |rules| == 0 {
      assert rules + rest == rest;
      assert g.rules + rules == g.rules;
    } else {
      var rs := rules + rest;
      assert rs[0] == rules[0];
      assert rs[1..] == rules[1..] + rest;
      RulesStep(rules[1..], Group(g.agents, g.rules + [rules[0]]), rest);
      assert g.rules + [rules[0]] + rules[1..] == g.rules + rules;
    }
  }

  /** A `User-agent` record after a group holding rules, or before any group, opens a new group. */
  lemma NewGroup(agent: string, rest: seq<Record>, cur: Option<Group>)
    requires cur.None? || |cur.value.rules| > 0
    ensures GroupsFrom([UserAgent(agent)] + rest, cur) == cur.ToSeq() + GroupsFrom(rest, Some(Group([agent], [])))
  {
    var rs := [UserAgent(agent)] + rest;
    assert rs[0] == UserAgent(agent) && rs[1..] == rest;
  }

  /** A written-out group's records: its first agent, then the other agents, its rules and `rest`. */
  lemma EmitSplit(g: Group, rest: seq<Record>)
    requires |g.agents| > 0
    ensures Emit(g) + rest == [UserAgent(g.agents[0])] + (AgentRecords(g.agents[1..]) + (g.rules + rest))
  {
    assert AgentRecords(g.agents) == [UserAgent(g.agents[0])] + AgentRecords(g.agents[1..]);
    Assoc(AgentRecords(g.agents), g.rules, rest);
    Assoc([UserAgent(g.agents[0])], AgentRecords(g.agents[1..]), g.rules + rest);
  }

  /** Reading a written-out group closes the open one and opens it, holding all of its agents and rules. */
  lemma OneGroup(g: Group, rest: seq<Record>, cur: Option<Group>)
    requires WellFormed(g)
    requires cur.None? || |cur.value.rules| > 0
    ensures GroupsFrom(Emit(g) + rest, cur) == cur.ToSeq() + GroupsFrom(rest, Some(g))
  {
    var first := g.agents[0];
    EmitSplit(g, rest);
    NewGroup(first, AgentRecords(g.agents[1..]) + (g.rules + rest), cur);
    AgentsStep(g.agents[1..], [first], g.rules + rest);
    assert [first] + g.agents[1..] == g.agents;
    RulesStep(g.rules, Group(g.agents, []), rest);
    assert [] + g.rules == g.rules;
  }

  /**
   * Grouping is the inverse of writing well-formed groups out one after
   * another; `cur` is a group already open and holding rules.
   */
  lemma {:induction false} GroupsFromEmitAll(gs: seq<Group>, cur: Option<Group>)
    requires forall i :: 0 <= i < |gs| ==> WellFormed(gs[i])
    requires cur.None? || |cur.value.rules| > 0
    ensures GroupsFrom(EmitAll(gs), cur) == cur.ToSeq() + gs
    decreases |gs|
  {
    var prior := cur.ToSeq();
    if |gs| == 0 {
      assert prior + gs == prior;
    } else {
      OneGroup(gs[0], EmitAll(gs[1..]), cur);
      GroupsFromEmitAll(gs[1..], Some(gs[0]));
      assert [gs[0]] + gs[1..] == gs;
      assert prior + ([gs[0]] + gs[1..]) == prior + gs;
    }
  }

  lemma EmitBot(bot: string, delay: string)
    ensures Emit(Group([bot], [Allow("/"), Other("Crawl-delay", delay)])) == BotRecordList(bot, delay)
  {
  }

  /** The preamble's records are the four groups written out. */
  lemma PreambleIsEmitted()
    ensures PreambleRecords == EmitAll(Groups)
  {
    var g := Groups;
    assert Emit(g[0]) == WildcardRecordList;
    EmitBot("Googlebot", "1");
    EmitBot("Bingbot", "1");
    EmitBot("Baiduspider", "2");
    assert g[1..][1..][1..][1..] == [];
    assert EmitAll(g) == Emit(g[0]) + (Emit(g[1]) + (Emit(g[2]) + (Emit(g[3]) + [])));
  }

  lemma GroupPreamble()
    ensures GroupsFrom(PreambleRecords, None) == Groups
  {
    PreambleIsEmitted();
    GroupsFromEmitAll(Groups, None);
    assert Option<Group>.None.ToSeq() + Groups == Groups;
  }

  /**
   * A crawler reading the document finds the four groups of `Groups`, in
   * order, and exactly one sitemap: `href`. The URL needs no line break or
   * `#` and no padding spaces, which a resolved URL's `href` does not have.
   */
  lemma ReadRobotsTxt(href: string)
    requires '\n' !in href && '#' !in href && Unpadded(href)
    ensures Read(RobotsTxt(href)) == RobotsFile(Groups, [href])
  {
    RobotsLines(href);
    DocumentRecords(href);
    PreambleNoSitemap();
    TrailingSitemap(PreambleRecords, href);
    GroupPreamble();
  }

  /**
   * With a `site`, the handler serves a document that reads as the four
   * groups and one sitemap, `sitemap-index.xml` resolved against the site.
   */
  lemma GetReads(base: string, platform: Platform)
    requires var href := platform.resolve("sitemap-index.xml", base);
      '\n' !in href && '#' !in href && Unpadded(href)
    ensures Get(Some(base), platform).Ok?
    ensures Read(Get(Some(base), platform).value) ==
      RobotsFile(Groups, [platform.resolve("sitemap-index.xml", base)])
  {
    ReadRobotsTxt(platform.resolve("sitemap-index.xml", base));
  }

  lemma RobotsTxtShape(href: string)
    ensures RobotsTxt(href) == Join("\n", Preamble) + "\nSitemap: " + href + "\n"
  {
    var last := [RecordLine("Sitemap", href), ""];
    JoinAppend("\n", Preamble, last);
    assert last[1..] == [""];
    assert Join("\n", last) == RecordLine("Sitemap", href) + "\n" + "";
  }

  /** The first character of every preamble line, if it has one, is not `S`. */
  lemma PreambleInitials()
    ensures forall i :: 0 <= i < |Preamble| ==> |Preamble[i]| == 0 || Preamble[i][0] != 'S'
  {
    assert forall i :: 0 <= i < |OpeningLines| ==> |OpeningLines[i]| == 0 || OpeningLines[i][0] != 'S';
    assert forall i :: 0 <= i < |BotGroupLines| ==> |BotGroupLines[i]| == 0 || BotGroupLines[i][0] != 'S';
    forall i | 0 <= i < |Preamble|
      ensures |Preamble[i]| == 0 || Preamble[i][0] != 'S'
    {
      if i < |OpeningLines| {
        assert Preamble[i] == OpeningLines[i];
      } else {
        assert Preamble[i] == BotGroupLines[i - |OpeningLines|];
      }
    }
  }

  /** A record line starts with its key and the colon. */
  lemma KeyPrefix(key: string, value: string)
    ensures StartsWith(RecordLine(key, value), key + ":")
  {
    assert RecordLine(key, value) == (key + ":") + (" " + value);
  }

  /** A line that is empty or does not start with `S` does not start with `Sitemap:`. */
  lemma NotSitemapPrefix(line: string)
    requires |line| == 0 || line[0] != 'S'
    ensures !StartsWith(line, "Sitemap" + ":")
  {
    var p := "Sitemap" + ":";
    assert p[0] == 'S';
    if |p| <= |line| {
      assert line[..|p|][0] == line[0];
    }
  }

  /**
   * With a URL free of line breaks, the document has the preamble's lines,
   * `Sitemap: <href>` and the empty line after the final newline, and the
   * `Sitemap:` line is the only line starting with `Sitemap:`.
   */
  lemma OnlySitemapLine(href: string)
    requires '\n' !in href
    ensures var ls := Split(RobotsTxt(href), '\n');
      forall i :: 0 <= i < |ls| ==> (StartsWith(ls[i], "Sitemap" + ":") <==> i == |Preamble|)
    ensures |Split(RobotsTxt(href), '\n')| == |Preamble| + 2
    ensures Split(RobotsTxt(href), '\n')[|Preamble|] == RecordLine("Sitemap", href)
  {
    RobotsLines(href);
    SitemapLineOfLines(href);
  }

  lemma SitemapLineOfLines(href: string)
    ensures var ls := Lines(href);
      forall i :: 0 <= i < |ls| ==> (StartsWith(ls[i], "Sitemap" + ":") <==> i == |Preamble|)
  {
    PreambleInitials();
    var ls := Lines(href);
    forall i | 0 <= i < |ls|
      ensures StartsWith(ls[i], "Sitemap" + ":") <==> i == |Preamble|
    {
      if i < |Preamble| {
        assert ls[i] == Preamble[i];
        NotSitemapPrefix(ls[i]);
      } else if i == |Preamble| {
        KeyPrefix("Sitemap", href);
      } else {
        NotSitemapPrefix(ls[i]);
      }
    }
  }
}
