/** The body of `main` (main.go:134-219): for each configured feed, the loop
    over its items that consults and extends the `seen` table and builds
    the feed's `items` text, and the section written for a feed whose text
    is not empty.

    Each loop is specified by a function that folds one step over a prefix
    of its input (`Fold`, `RunFold`); the methods `ProcessFeed` and `Run`
    are proved equal to them, and the properties of the pipeline are proved
    about the functions in module DigestProperties. */
module Digest {
  import opened GoStrings
  import opened Render
  import opened Seen

  /** A parsed feed: its title, its feed link and its items in fetch order. */
  datatype Feed = Feed(title: Str, feedLink: Str, items: seq<Item>)

  /** An entry of the configuration (`RSS`): a negative limit never equals
      an index, so it does not cap the items. */
  datatype Rss = Rss(url: Str, limit: int, summarize: bool)

  /** A configured feed with what `parseFeedURL` returned for it: None when
      fetching or parsing failed, and the feed is then skipped. */
  datatype Source = Source(rss: Rss, fetched: Option<Feed>)

  /** The items the loop reaches before `index == rss.limit` breaks it. */
  function Considered(items: seq<Item>, limit: int): (r: seq<Item>)
    ensures limit >= 0 ==> |r| == (if limit < |items| then limit else |items|)
    ensures limit < 0 ==> r == items
    ensures r == items[..|r|]
  {
    if 0 <= limit < |items| then items[..limit] else items
  }

  /** State of one feed's loop: the `seen` rows, the `items` text built so
      far, and whether the program has panicked. */
  datatype FeedState = FeedState(rows: map<Str, Record>, items: Str, panicked: bool)

  /** Appending the rendering of an item that is not skipped. */
  function Emit(env: Env, feedTitle: Str, rss: Rss, rows: map<Str, Record>, items: Str, item: Item, summary: Str): (r: FeedState)
    ensures r.rows == rows
    ensures !r.panicked ==> |r.items| > |items| && r.items[..|items|] == items
  {
    match RenderItem(env, feedTitle, rss.summarize, item, summary)
    case None => FeedState(rows, items, true)
    case Some(text) =>
      WriteLinkNotEmpty(env, DisplayTitle(env, item), item.link);
      FeedState(rows, items + text, false)
  }

  lemma WriteLinkNotEmpty(env: Env, title: Str, url: Str)
    ensures |WriteLink(env, title, url, true)| > 0
  {
    WriteLinkNewline(env, title, url);
  }

  /** The summary an item that is new gets: fetched when the feed asks for
      summaries, "" otherwise (main.go:171-175). */
  function NewSummary(env: Env, rss: Rss, link: Str): (r: Str)
    ensures !rss.summarize ==> r == []
    ensures rss.summarize ==> r == env.summaryOf(link)
  {
    if rss.summarize then env.summaryOf(link) else []
  }

  /** One iteration of the item loop (main.go:146-210). Once the program
      has panicked nothing further happens. */
  function Step(env: Env, feedTitle: Str, rss: Rss, st: FeedState, item: Item): (r: FeedState)
    ensures InsertOnly(st.rows, r.rows)
    ensures r.rows.Keys <= st.rows.Keys + {item.link}
    ensures st.panicked ==> r == st
    ensures !r.panicked ==> |r.items| >= |st.items| && r.items[..|st.items|] == st.items
  {
    if st.panicked then st
    else
      match Classify(item.link, Get(st.rows, item.link), env.currentDate)
      case StaleSkip => st
      case FreshRepeat(cached) => Emit(env, feedTitle, rss, st.rows, st.items, item, cached)
      case FreshNew =>
        var summary := NewSummary(env, rss, item.link);
        if item.link in st.rows then FeedState(st.rows, st.items, true)
        else Emit(env, feedTitle, rss, st.rows[item.link := Record(env.currentDate, Some(summary))], st.items, item, summary)
  }

  /** The item loop run over `xs` from state `st`: once panicked it stays
      as it was, and otherwise the text only grows at its end. */
  function Fold(env: Env, feedTitle: Str, rss: Rss, st: FeedState, xs: seq<Item>): (r: FeedState)
    ensures st.panicked ==> r == st
    ensures !r.panicked ==> |r.items| >= |st.items| && r.items[..|st.items|] == st.items
    decreases |xs|
  {
    if xs == [] then st
    else Step(env, feedTitle, rss, Fold(env, feedTitle, rss, st, xs[..|xs| - 1]), xs[|xs| - 1])
  }

  /** One feed's loop, from the table's rows and an empty `items`; it keeps
      every row it starts with. */
  function FeedRun(env: Env, feed: Feed, rss: Rss, rows: map<Str, Record>): (r: FeedState)
    ensures InsertOnly(rows, r.rows)
  {
    FoldInsertOnly(env, feed, rss, FeedState(rows, [], false), Considered(feed.items, rss.limit));
    Fold(env, feed.title, rss, FeedState(rows, [], false), Considered(feed.items, rss.limit))
  }

  /** Once the loop has panicked at the item `k`, the later items change
      nothing. */
  lemma {:induction false} FoldStopsAtPanic(env: Env, feed: Feed, rss: Rss, st: FeedState, xs: seq<Item>, k: nat)
    requires k <= |xs| && Fold(env, feed.title, rss, st, xs[..k]).panicked
    ensures Fold(env, feed.title, rss, st, xs) == Fold(env, feed.title, rss, st, xs[..k])
    decreases |xs| - k
  {
    if k < |xs| {
      assert xs[..k + 1][..k] == xs[..k];
      FoldStopsAtPanic(env, feed, rss, st, xs, k + 1);
    } else {
      assert xs[..k] == xs;
    }
  }

  const SectionStart := Ascii("\n### ")
  const TitleGap := Ascii("  ")

  /** The section header of main.go:214: "\n### ", the favicon, two
      spaces, the feed's title and a newline. */
  function Header(env: Env, feed: Feed): (r: Str)
    ensures |r| == 8 + |Favicon(env, feed.title, feed.feedLink)| + |feed.title|
    ensures r[..5] == SectionStart
    ensures r[|r| - 1 - |feed.title|..] == feed.title + Newline
    ensures env.mode == Terminal ==> r == SectionStart + TitleGap + feed.title + Newline
  {
    SectionStart + Favicon(env, feed.title, feed.feedLink) + TitleGap + feed.title + Newline
  }

  /** State of the loop over the configured feeds: the rows, the strings
      handed to writeToMarkdown so far, and whether the program panicked. */
  datatype RunState = RunState(rows: map<Str, Record>, writes: seq<Str>, panicked: bool)

  /** One iteration of the loop over the configuration (main.go:135-216):
      a feed that was fetched and did not panic gets its section, the header
      and then its text, exactly when that text is not empty. */
  function RunStep(env: Env, rs: RunState, src: Source): (r: RunState)
    ensures InsertOnly(rs.rows, r.rows)
    ensures rs.panicked || src.fetched.None? ==> r == rs
    ensures !rs.panicked && src.fetched.Some? ==>
              var fs := FeedRun(env, src.fetched.value, src.rss, rs.rows);
              r.rows == fs.rows && r.panicked == fs.panicked &&
              (!fs.panicked ==>
                 r.writes == rs.writes + (if fs.items == [] then [] else [Header(env, src.fetched.value), fs.items]))
    ensures !r.panicked ==> r.writes == rs.writes || (|r.writes| == |rs.writes| + 2 && r.writes[..|rs.writes|] == rs.writes && r.writes[|rs.writes| + 1] != [])
  {
    if rs.panicked then rs
    else
      match src.fetched
      case None => rs
      case Some(feed) =>
        var fs := FeedRun(env, feed, src.rss, rs.rows);
        if fs.panicked then RunState(fs.rows, rs.writes, true)
        else if fs.items == [] then RunState(fs.rows, rs.writes, false)
        else RunState(fs.rows, rs.writes + [Header(env, feed), fs.items], false)
  }

  /** The rows only grow, whatever the items. */
  lemma {:induction false} FoldInsertOnly(env: Env, feed: Feed, rss: Rss, st: FeedState, xs: seq<Item>)
    ensures InsertOnly(st.rows, Fold(env, feed.title, rss, st, xs).rows)
    decreases |xs|
  {
    if xs != [] {
      FoldInsertOnly(env, feed, rss, st, xs[..|xs| - 1]);
      InsertOnlyTransitive(st.rows, Fold(env, feed.title, rss, st, xs[..|xs| - 1]).rows, Fold(env, feed.title, rss, st, xs).rows);
    }
  }

  /** The loop over the configuration run over `sources` from `rs`: once
      panicked it stays as it was; otherwise it keeps every row and only
      appends to the writes. */
  function RunFold(env: Env, rs: RunState, sources: seq<Source>): (r: RunState)
    ensures rs.panicked ==> r == rs
    ensures InsertOnly(rs.rows, r.rows)
    ensures |r.writes| >= |rs.writes| && r.writes[..|rs.writes|] == rs.writes
    decreases |sources|
  {
    if sources == [] then rs
    else
      var mid := RunFold(env, rs, sources[..|sources| - 1]);
      var r := RunStep(env, mid, sources[|sources| - 1]);
      InsertOnlyTransitive(rs.rows, mid.rows, r.rows);
      r
  }

  /** The whole run over the configured sources, from the table's rows. */
  function RunAll(env: Env, rows: map<Str, Record>, sources: seq<Source>): (r: RunState)
    ensures InsertOnly(rows, r.rows)
    ensures sources == [] ==> r == RunState(rows, [], false)
  {
    RunFold(env, RunState(rows, [], false), sources)
  }

  lemma {:induction false} RunFoldStopsAtPanic(env: Env, rs: RunState, sources: seq<Source>, k: nat)
    requires k <= |sources| && RunFold(env, rs, sources[..k]).panicked
    ensures RunFold(env, rs, sources) == RunFold(env, rs, sources[..k])
    decreases |sources| - k
  {
    if k < |sources| {
      assert sources[..k + 1][..k] == sources[..k];
      RunFoldStopsAtPanic(env, rs, sources, k + 1);
    } else {
      assert sources[..k] == sources;
    }
  }

  /** The appends of main.go:184-210 for an item that is not skipped:
      the badges, the link and the summary; `panicked` when the comment
      badge slices past the end of the description. */
  method AppendItem(env: Env, feed: Feed, rss: Rss, item: Item, summaryValue: Str, items: Str)
    returns (items': Str, panicked: bool)
    ensures panicked <==> RenderItem(env, feed.title, rss.summarize, item, summaryValue).None?
    ensures panicked ==> items' == items
    ensures !panicked ==> items' == items + RenderItem(env, feed.title, rss.summarize, item, summaryValue).value
  {
    items', panicked := items, false;
    ghost var rendered: Str := [];
    if Contains(feed.title, HackerNews) {
      if !BadgeInBounds(item.description) {
        panicked := true;
        return;
      }
      items' := items' + CommentBadge(env, item.description);
      rendered := CommentBadge(env, item.description);
    }
    if env.instapaper && env.mode == Markdown {
      AppendAssoc(items, rendered, InstapaperBadge(item.link));
      items' := items' + InstapaperBadge(item.link);
      rendered := rendered + InstapaperBadge(item.link);
    }
    assert rendered == Badges(env, feed.title, item);
    assert items' == items + rendered;
    ghost var badges := rendered;
    var title := item.title;
    if title == [] {
      title := env.stripHtml(item.description);
    }
    assert title == DisplayTitle(env, item);
    AppendAssoc(items, rendered, WriteLink(env, title, item.link, true));
    items' := items' + WriteLink(env, title, item.link, true);
    rendered := rendered + WriteLink(env, title, item.link, true);
    if rss.summarize {
      AppendAssoc(items, rendered, WriteSummary(env, summaryValue, true));
      items' := items' + WriteSummary(env, summaryValue, true);
      rendered := rendered + WriteSummary(env, summaryValue, true);
    } else {
      assert rendered + [] == rendered;
    }
    assert items' == items + rendered;
    assert rendered == badges + WriteLink(env, DisplayTitle(env, item), item.link, true)
                       + (if rss.summarize then WriteSummary(env, summaryValue, true) else []);
    assert RenderItem(env, feed.title, rss.summarize, item, summaryValue) == Some(rendered);
  }

  lemma AppendAssoc(a: Str, b: Str, c: Str)
    ensures a + b + c == a + (b + c)
  {
  }

  /** One iteration of the item loop (main.go:146-210) against the `seen`
      table: `items` is the feed's text so far. */
  method ProcessItem(store: SeenStore, env: Env, feed: Feed, rss: Rss, item: Item, items: Str)
    returns (items': Str, panicked: bool)
    modifies store
    ensures FeedState(store.rows, items', panicked) == Step(env, feed.title, rss, FeedState(old(store.rows), items, false), item)
  {
    var found := store.Lookup(item.link);
    assert found == Get(store.rows, item.link);
    var decision := Classify(item.link, found, env.currentDate);
    if decision == StaleSkip {
      return items, false;
    }
    var summaryValue := if decision.FreshRepeat? then decision.cached else [];
    if decision == FreshNew {
      summaryValue := NewSummary(env, rss, item.link);
      var ok := store.Insert(item.link, env.currentDate, summaryValue);
      if !ok {
        return items, true;
      }
    }
    items', panicked := AppendItem(env, feed, rss, item, summaryValue, items);
  }

  /** The loop over one feed's items, against the `seen` table
      (main.go:141-211). */
  method ProcessFeed(store: SeenStore, env: Env, feed: Feed, rss: Rss) returns (items: Str, panicked: bool)
    modifies store
    ensures FeedState(store.rows, items, panicked) == FeedRun(env, feed, rss, old(store.rows))
    ensures InsertOnly(old(store.rows), store.rows)
  {
    ghost var start := FeedState(store.rows, [], false);
    items, panicked := [], false;
    var index := 0;
    while index < |feed.items|
      invariant 0 <= index <= |feed.items|
      invariant rss.limit < 0 || index <= rss.limit
      invariant FeedState(store.rows, items, false) == Fold(env, feed.title, rss, start, feed.items[..index])
    {
      if index == rss.limit {
        break;
      }
      assert feed.items[..index + 1][..index] == feed.items[..index];
      items, panicked := ProcessItem(store, env, feed, rss, feed.items[index], items);
      ghost var considered := Considered(feed.items, rss.limit);
      assert considered[..index + 1] == feed.items[..index + 1];
      if panicked {
        FoldStopsAtPanic(env, feed, rss, start, considered, index + 1);
        FoldInsertOnly(env, feed, rss, start, considered);
        return;
      }
      index := index + 1;
    }
    assert feed.items[..index] == Considered(feed.items, rss.limit);
    FoldInsertOnly(env, feed, rss, start, feed.items[..index]);
  }

  /** The loop over the configured feeds (main.go:134-219). `writes` are the
      strings handed to writeToMarkdown, in order. */
  method Run(store: SeenStore, env: Env, sources: seq<Source>) returns (writes: seq<Str>, panicked: bool)
    modifies store
    ensures RunState(store.rows, writes, panicked) == RunAll(env, old(store.rows), sources)
  {
    ghost var start := RunState(store.rows, [], false);
    writes, panicked := [], false;
    var i := 0;
    while i < |sources|
      invariant 0 <= i <= |sources|
      invariant RunState(store.rows, writes, false) == RunFold(env, start, sources[..i])
    {
      var src := sources[i];
      assert sources[..i + 1][..i] == sources[..i];
      if src.fetched.Some? {
        var feed := src.fetched.value;
        var items, p := ProcessFeed(store, env, feed, src.rss);
        if p {
          panicked := true;
          RunFoldStopsAtPanic(env, start, sources, i + 1);
          return;
        }
        if items != [] {
          writes := writes + [Header(env, feed), items];
        }
      }
      i := i + 1;
    }
    assert sources[..i] == sources;
  }
}
