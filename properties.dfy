/** Properties of the digest pipeline, proved about the functions that
    specify its loops (module Digest). */
module DigestProperties {
  import opened GoStrings
  import opened Render
  import opened Seen
  import opened Digest

  /** The summary a row carries for rendering: NULL reads as "". */
  function CachedSummary(rec: Record): Str
  {
    if rec.summary.Some? then rec.summary.value else []
  }

  /** The three outcomes of an item, by what the table holds (a row for
      the empty link is covered by EmptyLinkPanicsOnRepeat):
      no row — exactly one row is added, dated today, with the new summary,
      and the item is rendered with that summary; a row dated today — the
      table is unchanged and the item is rendered with the stored summary;
      a row of another day — nothing changes and nothing is written. */
  lemma StepByLookup(env: Env, feed: Feed, rss: Rss, st: FeedState, item: Item)
    requires !st.panicked
    ensures var r := Step(env, feed.title, rss, st, item);
            item.link !in st.rows ==>
              r.rows == st.rows[item.link := Record(env.currentDate, Some(NewSummary(env, rss, item.link)))] &&
              (r.panicked <==> RenderItem(env, feed.title, rss.summarize, item, NewSummary(env, rss, item.link)).None?) &&
              (!r.panicked ==> r.items == st.items + RenderItem(env, feed.title, rss.summarize, item, NewSummary(env, rss, item.link)).value)
    ensures var r := Step(env, feed.title, rss, st, item);
            item.link != [] && item.link in st.rows && st.rows[item.link].date == env.currentDate ==>
              r.rows == st.rows &&
              (r.panicked <==> RenderItem(env, feed.title, rss.summarize, item, CachedSummary(st.rows[item.link])).None?) &&
              (!r.panicked ==> r.items == st.items + RenderItem(env, feed.title, rss.summarize, item, CachedSummary(st.rows[item.link])).value)
    ensures item.link != [] && item.link in st.rows && st.rows[item.link].date != env.currentDate ==>
              Step(env, feed.title, rss, st, item) == st
  {
  }

  /** main.go tests the url read back from the row, not the lookup's
      outcome, so an item whose link is "" is always taken as new; once a
      row for "" exists, its INSERT is refused and `check` panics. */
  lemma EmptyLinkPanicsOnRepeat(env: Env, feed: Feed, rss: Rss, st: FeedState, item: Item)
    requires !st.panicked && item.link == [] && [] in st.rows
    ensures Step(env, feed.title, rss, st, item) == FeedState(st.rows, st.items, true)
  {
  }

  /** After an item that is not skipped (and did not panic), the table
      holds its link dated today, so a later item with the same link in
      the same run is a repeat, not new. */
  lemma StepRecordsToday(env: Env, feed: Feed, rss: Rss, st: FeedState, item: Item)
    requires !st.panicked
    requires Classify(item.link, Get(st.rows, item.link), env.currentDate) != StaleSkip
    ensures var r := Step(env, feed.title, rss, st, item);
            !r.panicked ==> item.link in r.rows && r.rows[item.link].date == env.currentDate
    ensures var r := Step(env, feed.title, rss, st, item);
            !r.panicked && item.link != [] ==>
              Classify(item.link, Get(r.rows, item.link), env.currentDate).FreshRepeat?
  {
  }

  /** Every row of the table after the loop is dated today or was already
      there, unchanged. */
  ghost predicate DatedToday(before: map<Str, Record>, after: map<Str, Record>, today: Str)
  {
    forall url :: url in after ==> after[url].date == today || (url in before && after[url] == before[url])
  }

  lemma {:induction false} FoldDatesNewRows(env: Env, feed: Feed, rss: Rss, st: FeedState, xs: seq<Item>)
    ensures DatedToday(st.rows, Fold(env, feed.title, rss, st, xs).rows, env.currentDate)
    decreases |xs|
  {
    if xs != [] {
      var mid := Fold(env, feed.title, rss, st, xs[..|xs| - 1]);
      FoldDatesNewRows(env, feed, rss, st, xs[..|xs| - 1]);
      var r := Step(env, feed.title, rss, mid, xs[|xs| - 1]);
      forall url | url in r.rows
        ensures r.rows[url].date == env.currentDate || (url in st.rows && r.rows[url] == st.rows[url])
      {
        if url in mid.rows {
          assert r.rows[url] == mid.rows[url];
        }
      }
    }
  }

  lemma {:induction false} FoldRecordsLinks(env: Env, feed: Feed, rss: Rss, st: FeedState, xs: seq<Item>)
    requires !Fold(env, feed.title, rss, st, xs).panicked
    ensures forall i :: 0 <= i < |xs| ==> xs[i].link in Fold(env, feed.title, rss, st, xs).rows
    decreases |xs|
  {
    if xs != [] {
      var ys := xs[..|xs| - 1];
      var mid := Fold(env, feed.title, rss, st, ys);
      var x := xs[|xs| - 1];
      assert !mid.panicked;
      FoldRecordsLinks(env, feed, rss, st, ys);
      if Classify(x.link, Get(mid.rows, x.link), env.currentDate) != StaleSkip {
        StepRecordsToday(env, feed, rss, mid, x);
      }
      assert forall i :: 0 <= i < |ys| ==> xs[i] == ys[i];
    }
  }

  /** After a feed's loop that did not panic, every item it considered has
      a row: dated today, or the row of an earlier day that it had before
      the run (the item was skipped as stale). */
  lemma ConsideredItemsRecorded(env: Env, feed: Feed, rss: Rss, rows: map<Str, Record>)
    requires !FeedRun(env, feed, rss, rows).panicked
    ensures var r := FeedRun(env, feed, rss, rows).rows;
            forall x :: x in Considered(feed.items, rss.limit) ==>
              x.link in r && (r[x.link].date == env.currentDate ||
                              (x.link in rows && r[x.link] == rows[x.link] && rows[x.link].date != env.currentDate))
  {
    var xs := Considered(feed.items, rss.limit);
    var st := FeedState(rows, [], false);
    FoldRecordsLinks(env, feed, rss, st, xs);
    FoldDatesNewRows(env, feed, rss, st, xs);
  }

  /** A limit of 0 gives no items and leaves the table alone. */
  lemma LimitZero(env: Env, feed: Feed, rss: Rss, rows: map<Str, Record>)
    requires rss.limit == 0
    ensures FeedRun(env, feed, rss, rows) == FeedState(rows, [], false)
  {
    assert Considered(feed.items, rss.limit) == [];
  }

  /** With a limit n >= 0 the items from index n on play no part: two feeds
      that agree on their first n items give the same table and text. */
  lemma LimitIgnoresLaterItems(env: Env, feed: Feed, more: seq<Item>, rss: Rss, rows: map<Str, Record>)
    requires 0 <= rss.limit <= |feed.items|
    ensures FeedRun(env, feed, rss, rows) ==
            FeedRun(env, Feed(feed.title, feed.feedLink, feed.items[..rss.limit] + more), rss, rows)
  {
    var longer := feed.items[..rss.limit] + more;
    assert Considered(longer, rss.limit) == feed.items[..rss.limit];
    assert Considered(feed.items, rss.limit) == feed.items[..rss.limit];
  }

  /** A negative limit never stops the loop: every item is considered. */
  lemma NegativeLimitTakesAll(env: Env, feed: Feed, rss: Rss, rows: map<Str, Record>)
    requires rss.limit < 0
    ensures FeedRun(env, feed, rss, rows) == Fold(env, feed.title, rss, FeedState(rows, [], false), feed.items)
  {
  }

  /** The rows after the first k items are all kept to the end of the loop. */
  lemma {:induction false} FoldPrefixInsertOnly(env: Env, feed: Feed, rss: Rss, st: FeedState, xs: seq<Item>, k: nat)
    requires k <= |xs|
    ensures InsertOnly(Fold(env, feed.title, rss, st, xs[..k]).rows, Fold(env, feed.title, rss, st, xs).rows)
    decreases |xs| - k
  {
    if k < |xs| {
      assert xs[..k + 1][..k] == xs[..k];
      FoldPrefixInsertOnly(env, feed, rss, st, xs, k + 1);
      InsertOnlyTransitive(Fold(env, feed.title, rss, st, xs[..k]).rows,
                           Fold(env, feed.title, rss, st, xs[..k + 1]).rows,
                           Fold(env, feed.title, rss, st, xs).rows);
    } else {
      assert xs[..k] == xs;
    }
  }

  /** An item met again against a table that already holds every row the
      first pass had after it: no row is added and the same text is
      appended, since a new item has become a repeat with the summary just
      stored for it. */
  lemma StepRerun(env: Env, feedTitle: Str, rss: Rss, a: FeedState, x: Item, rows: map<Str, Record>)
    requires !a.panicked && x.link != []
    requires !Step(env, feedTitle, rss, a, x).panicked
    requires InsertOnly(Step(env, feedTitle, rss, a, x).rows, rows)
    ensures Step(env, feedTitle, rss, FeedState(rows, a.items, false), x) ==
            FeedState(rows, Step(env, feedTitle, rss, a, x).items, false)
  {
    var a' := Step(env, feedTitle, rss, a, x);
    match Classify(x.link, Get(a.rows, x.link), env.currentDate)
    case StaleSkip =>
      assert rows[x.link] == a.rows[x.link];
    case FreshRepeat(c) =>
      assert rows[x.link] == a.rows[x.link];
    case FreshNew =>
      assert rows[x.link] == a'.rows[x.link];
  }

  /** The second pass, run against the table the first pass left, goes
      through the same states except that its table is already final. */
  lemma {:induction false} RerunPrefix(env: Env, feed: Feed, rss: Rss, rows: map<Str, Record>, xs: seq<Item>, k: nat)
    requires k <= |xs|
    requires forall i :: 0 <= i < |xs| ==> xs[i].link != []
    requires !Fold(env, feed.title, rss, FeedState(rows, [], false), xs).panicked
    ensures var first := Fold(env, feed.title, rss, FeedState(rows, [], false), xs);
            Fold(env, feed.title, rss, FeedState(first.rows, [], false), xs[..k]) ==
            FeedState(first.rows, Fold(env, feed.title, rss, FeedState(rows, [], false), xs[..k]).items, false)
    decreases k
  {
    var s0 := FeedState(rows, [], false);
    var first := Fold(env, feed.title, rss, s0, xs);
    var t0 := FeedState(first.rows, [], false);
    if k == 0 {
      assert xs[..0] == [];
    } else {
      RerunPrefix(env, feed, rss, rows, xs, k - 1);
      var x := xs[k - 1];
      assert xs[..k][..k - 1] == xs[..k - 1] && xs[..k][k - 1] == x;
      var a := Fold(env, feed.title, rss, s0, xs[..k - 1]);
      var a' := Fold(env, feed.title, rss, s0, xs[..k]);
      assert a' == Step(env, feed.title, rss, a, x);
      if a'.panicked {
        FoldStopsAtPanic(env, feed, rss, s0, xs, k);
        assert false;
      }
      FoldPrefixInsertOnly(env, feed, rss, s0, xs, k);
      StepRerun(env, feed.title, rss, a, x, first.rows);
    }
  }

  /** Running a feed a second time on the same day, against the table the
      first run left, adds no row and writes exactly the same text: items
      first seen are now repeats rendered with the summary stored for them.
      This needs every considered item to have a link (an empty link panics
      the second time) and the first run not to have panicked. */
  lemma SameDayRerun(env: Env, feed: Feed, rss: Rss, rows: map<Str, Record>)
    requires forall x :: x in Considered(feed.items, rss.limit) ==> x.link != []
    requires !FeedRun(env, feed, rss, rows).panicked
    ensures var first := FeedRun(env, feed, rss, rows);
            FeedRun(env, feed, rss, first.rows) == first
  {
    var xs := Considered(feed.items, rss.limit);
    RerunPrefix(env, feed, rss, rows, xs, |xs|);
    assert xs[..|xs|] == xs;
  }

  /** A feed all of whose considered items were seen on an earlier day
      leaves the table as it was and writes nothing. */
  lemma {:induction false} AllStaleFold(env: Env, feed: Feed, rss: Rss, st: FeedState, xs: seq<Item>)
    requires !st.panicked
    requires forall i :: 0 <= i < |xs| ==>
               xs[i].link != [] && xs[i].link in st.rows && st.rows[xs[i].link].date != env.currentDate
    ensures Fold(env, feed.title, rss, st, xs) == st
    decreases |xs|
  {
    if xs != [] {
      AllStaleFold(env, feed, rss, st, xs[..|xs| - 1]);
    }
  }

  /** ... so no section is written for it. */
  lemma AllStaleNoSection(env: Env, rs: RunState, src: Source)
    requires !rs.panicked && src.fetched.Some?
    requires forall x :: x in Considered(src.fetched.value.items, src.rss.limit) ==>
               x.link != [] && x.link in rs.rows && rs.rows[x.link].date != env.currentDate
    ensures RunStep(env, rs, src) == rs
  {
    var feed := src.fetched.value;
    var xs := Considered(feed.items, src.rss.limit);
    AllStaleFold(env, feed, src.rss, FeedState(rs.rows, [], false), xs);
  }

  /** The writes of a run come in pairs: a header "\n### ..." and the
      feed's non-empty text. */
  ghost predicate Sections(writes: seq<Str>)
  {
    |writes| % 2 == 0 &&
    forall i :: 0 <= i < |writes| ==>
      (i % 2 == 0 ==> |writes[i]| >= 5 && writes[i][..5] == SectionStart) &&
      (i % 2 == 1 ==> writes[i] != [])
  }

  /** Appending a header and a non-empty text keeps the pairing. */
  lemma SectionsAppend(writes: seq<Str>, h: Str, t: Str)
    requires Sections(writes)
    requires |h| >= 5 && h[..5] == SectionStart && t != []
    ensures Sections(writes + [h, t])
  {
    var w := writes + [h, t];
    forall i | 0 <= i < |w|
      ensures (i % 2 == 0 ==> |w[i]| >= 5 && w[i][..5] == SectionStart) &&
              (i % 2 == 1 ==> w[i] != [])
    {
      if i < |writes| {
        assert w[i] == writes[i];
      }
    }
  }

  lemma {:induction false} RunFoldSections(env: Env, rs: RunState, sources: seq<Source>)
    requires Sections(rs.writes)
    ensures Sections(RunFold(env, rs, sources).writes)
    decreases |sources|
  {
    if sources != [] {
      var mid := RunFold(env, rs, sources[..|sources| - 1]);
      RunFoldSections(env, rs, sources[..|sources| - 1]);
      var src := sources[|sources| - 1];
      if !mid.panicked && src.fetched.Some? {
        var feed := src.fetched.value;
        var fs := FeedRun(env, feed, src.rss, mid.rows);
        if !fs.panicked && fs.items != [] {
          SectionsAppend(mid.writes, Header(env, feed), fs.items);
        }
      }
    }
  }

  /** A whole run writes a header and a non-empty text per feed that
      produced text (that it keeps every row is RunAll's own contract). */
  lemma RunAllSections(env: Env, rows: map<Str, Record>, sources: seq<Source>)
    ensures Sections(RunAll(env, rows, sources).writes)
  {
    RunFoldSections(env, RunState(rows, [], false), sources);
  }
}
