/** The formatting helpers of main.go (writeLink, writeSummary, favicon) and
    the per-item rendering done inside `main`: the Hacker News comment
    badge, the Instapaper badge, the title fallback and the summary. */
module Render {
  import opened GoStrings
  import opened Strconv

  /** The two output encodings selected by `terminal_mode`. */
  datatype Mode = Terminal | Markdown

  /** The run's settings (the globals `terminal_mode`, `instapaper` and
      `currentDate`) and the collaborators whose code is not part of this
      model, as functions: `termlink.Link`, `stripHtmlRegex`,
      `getSummaryFromLink` and `url.Parse(..).Hostname()`. */
  datatype Env = Env(
    mode: Mode,
    instapaper: bool,
    currentDate: Str,
    termLink: (Str, Str) -> Str,
    stripHtml: Str -> Str,
    summaryOf: Str -> Str,
    hostname: Str -> Str)

  const Newline := Ascii("\n")
  const LinkOpen := Ascii("[")
  const LinkMid := Ascii("](")
  const LinkClose := Ascii(")")

  /** writeLink: a terminal hyperlink or a markdown link `[title](url)`,
      with an optional trailing newline. */
  function WriteLink(env: Env, title: Str, url: Str, newline: bool): (r: Str)
    ensures env.mode == Markdown ==> |r| == |title| + |url| + 4 + (if newline then 1 else 0)
    ensures env.mode == Markdown ==> r[..1] == LinkOpen && r[1..1 + |title|] == title
  {
    var content :=
      if env.mode == Terminal then env.termLink(title, url)
      else LinkOpen + title + LinkMid + url + LinkClose;
    if newline then content + Newline else content
  }

  /** The newline flag only appends "\n", in both modes. */
  lemma WriteLinkNewline(env: Env, title: Str, url: Str)
    ensures WriteLink(env, title, url, true) == WriteLink(env, title, url, false) + Newline
    ensures WriteLink(env, title, url, false) == (if env.mode == Terminal then env.termLink(title, url) else LinkOpen + title + LinkMid + url + LinkClose)
  {
  }

  /** Reads a markdown link `[title](url)` back into its title and url; the
      title ends at the first "](". */
  function ParseMarkdownLink(s: Str): (r: Option<(Str, Str)>)
    ensures r.Some? ==> |r.value.0| + |r.value.1| + 4 == |s|
  {
    if |s| < 4 || s[..1] != LinkOpen || s[|s| - 1..] != LinkClose then None
    else
      var k := IndexOf(s, LinkMid);
      if k < 1 || k + 2 > |s| - 1 then None
      else Some((s[1..k], s[k + 2..|s| - 1]))
  }

  /** In `[title](url)` with a title free of "](", no "](" starts before
      the one that closes the title. */
  lemma {:induction false} NoLinkMidBeforeUrl(title: Str, url: Str)
    requires !Contains(title, LinkMid)
    ensures var s := LinkOpen + title + LinkMid + url + LinkClose;
            forall i :: 0 <= i < 1 + |title| ==> !OccursAt(s, LinkMid, i)
  {
    var s := LinkOpen + title + LinkMid + url + LinkClose;
    var k := 1 + |title|;
    assert LinkOpen == [91] && LinkMid == [93, 40];
    assert s[0] == 91 && s[k] == 93;
    forall i | 0 <= i < k
      ensures !OccursAt(s, LinkMid, i)
    {
      if 0 < i < k - 1 {
        assert s[i..i + 2] == title[i - 1..i + 1];
        assert !OccursAt(title, LinkMid, i - 1);
      } else if i == k - 1 {
        assert s[i..i + 2][1] == s[k];
      }
    }
  }

  /** A markdown link is read back exactly, for every title that does not
      itself contain "](" and every url. */
  lemma MarkdownLinkRoundTrip(env: Env, title: Str, url: Str)
    requires env.mode == Markdown && !Contains(title, LinkMid)
    ensures ParseMarkdownLink(WriteLink(env, title, url, false)) == Some((title, url))
  {
    var s := LinkOpen + title + LinkMid + url + LinkClose;
    var k := 1 + |title|;
    assert WriteLink(env, title, url, false) == s;
    assert s[k..k + 2] == LinkMid;
    NoLinkMidBeforeUrl(title, url);
    IndexOfFirst(s, LinkMid, k);
    assert s[1..k] == title;
    assert s[k + 2..|s| - 1] == url;
  }

  const TerminalBreak := Ascii("\n")
  const MarkdownBreak := Ascii("  \n\n")

  /** writeSummary: an empty summary renders as nothing; otherwise the
      summary, followed, when `newline` is set, by "\n" in terminal mode or
      a markdown hard break and paragraph break "  \n\n". */
  function WriteSummary(env: Env, content: Str, newline: bool): (r: Str)
    ensures content == [] ==> r == []
    ensures |r| >= |content| && r[..|content|] == content
    ensures r == content <==> content == [] || !newline
    ensures content != [] && newline ==>
              r[|content|..] == (if env.mode == Terminal then TerminalBreak else MarkdownBreak)
  {
    if content == [] then content
    else if env.mode == Terminal then
      (if newline then content + TerminalBreak else content)
    else
      (if newline then content + MarkdownBreak else content)
  }

  const TeaCup: Str := [0xF0, 0x9F, 0x8D, 0xB5]   // U+1F375 in UTF-8
  const HackerNews := Ascii("Hacker News")
  const HackerNewsIcon := Ascii("https://news.ycombinator.com/favicon.ico")
  const FaviconService := Ascii("https://www.google.com/s2/favicons?sz=32&domain=")

  /** The html image tag that favicon returns for an icon url. */
  function ImageTag(src: Str): Str
  {
    Ascii("<img src=\"") + src + Ascii("\" width=\"32\" height=\"32\" />")
  }

  /** favicon: nothing in terminal mode; the tea cup for a feed without a
      feed link; otherwise an image tag, of the Hacker News icon when the
      feed title names Hacker News and of the favicon service's icon for
      the feed link's host name otherwise. */
  function Favicon(env: Env, feedTitle: Str, feedLink: Str): (r: Str)
    ensures r == [] <==> env.mode == Terminal
    ensures env.mode == Markdown && feedLink == [] ==> r == TeaCup
    ensures env.mode == Markdown && feedLink != [] ==>
              r == ImageTag(if Contains(feedTitle, HackerNews) then HackerNewsIcon
                            else FaviconService + env.hostname(feedLink))
  {
    if env.mode == Terminal then []
    else if feedLink == [] then TeaCup
    else
      var src := FaviconService + env.hostname(feedLink);
      var src' := if Contains(feedTitle, HackerNews) then HackerNewsIcon else src;
      ImageTag(src')
  }

  // The Hacker News comment badge (main.go:184-198).  The comments url is
  // read as the 45 bytes that start 23 bytes after the first
  // "Comments URL", the count as everything from 10 bytes after the first
  // "Comments:" to the end, with every "</p>\n" removed.

  const CommentsUrlLabel := Ascii("Comments URL")
  const CommentsLabel := Ascii("Comments:")
  const ParagraphEnd := Ascii("</p>\n")
  const UrlOffset := 23
  const UrlLength := 45
  const CountOffset := 10
  const SpeechBalloon: Str := [0xF0, 0x9F, 0x92, 0xAC, 0x20]   // U+1F4AC then " "
  const Fire: Str := [0xF0, 0x9F, 0x94, 0xA5, 0x20]            // U+1F525 then " "

  function UrlStart(desc: Str): int
  {
    IndexOf(desc, CommentsUrlLabel) + UrlOffset
  }

  function CountStart(desc: Str): int
  {
    IndexOf(desc, CommentsLabel) + CountOffset
  }

  /** Both slices of the badge code are within the description; when one is
      not, Go panics with "slice bounds out of range". */
  predicate BadgeInBounds(desc: Str)
  {
    UrlStart(desc) + UrlLength <= |desc| && CountStart(desc) <= |desc|
  }

  function CommentsUrl(desc: Str): (r: Str)
    requires BadgeInBounds(desc)
    ensures |r| == UrlLength
  {
    desc[UrlStart(desc)..UrlStart(desc) + UrlLength]
  }

  /** The url read is the 45 bytes found 23 bytes after the first
      "Comments URL", whatever lies around them. */
  lemma CommentsUrlReads(desc: Str, pre: Str, gap: Str, u: Str, rest: Str)
    requires desc == pre + CommentsUrlLabel + gap + u + rest
    requires |gap| == UrlOffset - |CommentsUrlLabel| && |u| == UrlLength
    requires forall i :: 0 <= i < |pre| ==> !OccursAt(desc, CommentsUrlLabel, i)
    requires CountStart(desc) <= |desc|
    ensures BadgeInBounds(desc) && CommentsUrl(desc) == u
  {
    var k := |pre|;
    assert desc[k..k + |CommentsUrlLabel|] == CommentsUrlLabel;
    IndexOfFirst(desc, CommentsUrlLabel, k);
    assert UrlStart(desc) == k + UrlOffset;
    assert desc[k + UrlOffset..k + UrlOffset + UrlLength] == u;
  }

  /** The count read, in int64's range whatever the description holds. */
  function CommentsCount(desc: Str): (r: int)
    requires BadgeInBounds(desc)
    ensures MinInt64 <= r <= MaxInt64
  {
    Atoi(RemoveAll(desc[CountStart(desc)..], ParagraphEnd))
  }

  /** Neither badge icon contains "](", so a badge is a well-formed
      markdown link. */
  lemma IconsWithoutLinkMid()
    ensures !Contains(SpeechBalloon, LinkMid) && !Contains(Fire, LinkMid)
  {
    assert LinkMid[0] == 93;
    NoFirstByte(SpeechBalloon, LinkMid);
    NoFirstByte(Fire, LinkMid);
  }

  /** The badge: a link to the comments, the fire when the count is at
      least 100 and the speech balloon otherwise. In markdown it reads back
      as the link from that icon to the comments url. */
  function CommentBadge(env: Env, desc: Str): (r: Str)
    requires BadgeInBounds(desc)
    ensures env.mode == Markdown ==>
              |r| == UrlLength + 9 &&
              ParseMarkdownLink(r) == Some((if CommentsCount(desc) < 100 then SpeechBalloon else Fire, CommentsUrl(desc)))
    ensures env.mode == Terminal ==>
              r == env.termLink(if CommentsCount(desc) < 100 then SpeechBalloon else Fire, CommentsUrl(desc))
  {
    var url := CommentsUrl(desc);
    var count := CommentsCount(desc);
    var icon := if count < 100 then SpeechBalloon else Fire;
    IconsWithoutLinkMid();
    if env.mode == Markdown then
      MarkdownLinkRoundTrip(env, icon, url);
      WriteLink(env, icon, url, false)
    else WriteLink(env, icon, url, false)
  }

  /** A description whose count field holds the decimal digits of `n`,
      closed by "</p>\n", yields `n` and the badge that `n` calls for. */
  lemma CommentBadgeReadsCount(env: Env, desc: Str, n: nat)
    requires BadgeInBounds(desc) && n <= MaxInt64
    requires desc[CountStart(desc)..] == Decimal(n) + ParagraphEnd
    ensures CommentsCount(desc) == n
    ensures CommentBadge(env, desc) == WriteLink(env, if n < 100 then SpeechBalloon else Fire, CommentsUrl(desc), false)
  {
    var digits := Decimal(n);
    forall i | 0 <= i < |digits|
      ensures digits[i] != ParagraphEnd[0]
    {
      assert IsDigit(digits[i]);
    }
    RemoveAllKeepsPrefix(digits, ParagraphEnd, ParagraphEnd);
    assert ParagraphEnd[..|ParagraphEnd|] == ParagraphEnd;
    assert RemoveAll(ParagraphEnd[|ParagraphEnd|..], ParagraphEnd) == [];
    assert digits + [] == digits;
    AtoiDecimal(n);
  }

  /** A count field that does not start with a number (after an optional
      sign and once "</p>\n" is removed) fails to parse, reads as 0 and
      gives the speech balloon. */
  lemma CommentBadgeUnparsedCount(env: Env, desc: Str)
    requires BadgeInBounds(desc)
    requires var c := RemoveAll(desc[CountStart(desc)..], ParagraphEnd);
             var body := if c != [] && (c[0] == Plus || c[0] == Minus) then c[1..] else c;
             body == [] || !IsDigit(body[0])
    ensures CommentsCount(desc) == 0
    ensures CommentBadge(env, desc) == WriteLink(env, SpeechBalloon, CommentsUrl(desc), false)
  {
    AtoiNonNumeric(RemoveAll(desc[CountStart(desc)..], ParagraphEnd));
  }

  const ParagraphClose := Ascii("</p>")

  /** Only "</p>\n" is removed from the count field: a count closed by a
      bare "</p>", as in "Comments: 150</p>", does not parse, reads as 0
      and gives the speech balloon whatever the number. */
  lemma CountWithoutNewlineReadsZero(env: Env, desc: Str, n: nat)
    requires BadgeInBounds(desc) && n <= MaxInt64
    requires desc[CountStart(desc)..] == Decimal(n) + ParagraphClose
    ensures CommentsCount(desc) == 0
    ensures CommentBadge(env, desc) == WriteLink(env, SpeechBalloon, CommentsUrl(desc), false)
  {
    var digits := Decimal(n);
    forall i | 0 <= i < |digits|
      ensures digits[i] != ParagraphEnd[0]
    {
      assert IsDigit(digits[i]);
    }
    RemoveAllKeepsPrefix(digits, ParagraphClose, ParagraphEnd);
    assert RemoveAll(ParagraphClose, ParagraphEnd) == ParagraphClose;
    var c := digits + ParagraphClose;
    assert IsDigit(c[0]);
    ScanDecimal(n);
    ScanAppend(digits, ParagraphClose, 0);
    assert !IsDigit(ParagraphClose[0]);
    assert ParseUint(c) == SyntaxError;
  }

  /** The "save to Instapaper" link appended in markdown mode: an icon
      linking to Instapaper's save page for the item's link. */
  function InstapaperBadge(link: Str): (r: Str)
    ensures |r| == |InstapaperLinkStart| + |link| + 1
    ensures r[|r| - 1 - |link|..] == link + LinkClose
  {
    Ascii(InstapaperLinkStart) + link + LinkClose
  }

  const InstapaperLinkStart: string :=
    "[<img height=\"16\" src=\"https://staticinstapaper.s3.dualstack.us-west-2.amazonaws.com/img/favicon.png\">](https://www.instapaper.com/hello2?url="

  datatype Item = Item(title: Str, link: Str, description: Str)

  /** The title written for an item: its own, or for an untitled item (such
      as a Mastodon post) its description with the html stripped. */
  function DisplayTitle(env: Env, item: Item): (r: Str)
    ensures item.title != [] ==> r == item.title
    ensures item.title == [] ==> r == env.stripHtml(item.description)
  {
    if item.title == [] then env.stripHtml(item.description) else item.title
  }

  /** The badges written before the item's link. */
  function Badges(env: Env, feedTitle: Str, item: Item): (r: Str)
    requires Contains(feedTitle, HackerNews) ==> BadgeInBounds(item.description)
    ensures Contains(feedTitle, HackerNews) ==>
              |r| >= |CommentBadge(env, item.description)| &&
              r[..|CommentBadge(env, item.description)|] == CommentBadge(env, item.description)
    ensures env.instapaper && env.mode == Markdown ==>
              |r| >= |InstapaperBadge(item.link)| &&
              r[|r| - |InstapaperBadge(item.link)|..] == InstapaperBadge(item.link)
    ensures !Contains(feedTitle, HackerNews) ==>
              r == (if env.instapaper && env.mode == Markdown then InstapaperBadge(item.link) else [])
    ensures !(env.instapaper && env.mode == Markdown) ==>
              r == (if Contains(feedTitle, HackerNews) then CommentBadge(env, item.description) else [])
  {
    (if Contains(feedTitle, HackerNews) then CommentBadge(env, item.description) else [])
      + (if env.instapaper && env.mode == Markdown then InstapaperBadge(item.link) else [])
  }

  /** Everything appended to a feed's `items` for one item that is not
      skipped, or None when the comment badge slices past the end of the
      description (a Go panic). */
  function RenderItem(env: Env, feedTitle: Str, summarize: bool, item: Item, summary: Str): (r: Option<Str>)
    ensures r.None? <==> Contains(feedTitle, HackerNews) && !BadgeInBounds(item.description)
    ensures r.Some? ==>
              r.value == Badges(env, feedTitle, item)
                         + WriteLink(env, DisplayTitle(env, item), item.link, true)
                         + (if summarize then WriteSummary(env, summary, true) else [])
  {
    if Contains(feedTitle, HackerNews) && !BadgeInBounds(item.description) then None
    else
      Some(Badges(env, feedTitle, item)
           + WriteLink(env, DisplayTitle(env, item), item.link, true)
           + (if summarize then WriteSummary(env, summary, true) else []))
  }

  /** Without `summarize` the summary leaves no trace in the output, and
      with it an empty summary adds nothing either. */
  lemma RenderIgnoresSummary(env: Env, feedTitle: Str, summarize: bool, item: Item, s1: Str, s2: Str)
    requires !summarize || (s1 == [] && s2 == [])
    ensures RenderItem(env, feedTitle, summarize, item, s1) == RenderItem(env, feedTitle, summarize, item, s2)
  {
  }

  /** In markdown mode an item of a feed that is not Hacker News ends with
      its link `[title](link)` and a newline, followed by the summary text
      when there is one. */
  lemma RenderedLinkPosition(env: Env, feedTitle: Str, item: Item, summary: Str)
    requires env.mode == Markdown && !Contains(feedTitle, HackerNews) && !env.instapaper
    ensures RenderItem(env, feedTitle, false, item, summary)
            == Some(LinkOpen + DisplayTitle(env, item) + LinkMid + item.link + LinkClose + Newline)
  {
    assert Badges(env, feedTitle, item) == [];
    var line := WriteLink(env, DisplayTitle(env, item), item.link, true);
    assert [] + line + [] == line;
  }
}
