# matcha digest pipeline, in Dafny

matcha polls a configured list of RSS/Atom feeds and writes a daily digest,
either to the terminal or appended to a markdown file named after the
current date. This project models the core of `main.go`: the per-item
decision against the `seen` table, the rendering of each item, and the
per-feed section writer.

- `seen` is a table keyed by url holding the date an item was first
  processed and its summary. For every item of a feed, up to the feed's
  limit, the pipeline looks the item's link up:
  - with no row, it fetches a summary when the feed asks for one and
    inserts a row dated today;
  - with a row dated today, it renders the item again with the stored
    summary and inserts nothing;
  - with a row of another day, it skips the item.
- A rendered item is made of these parts, in order:
  - a comment badge for Hacker News feeds (💬 under 100 comments, 🔥 from
    100 on), read at fixed byte offsets from the description;
  - an Instapaper link in markdown mode when enabled;
  - the item's link, titled by its title or, when that is empty, by its
    description with the html stripped;
  - the summary, when the feed asks for summaries.
- A feed whose text is not empty gets a section: a header
  `"\n### " + favicon + "  " + title + "\n"` followed by the text.

Layout:

- `gostrings.dfy` (module `GoStrings`): byte strings. Go strings are bytes,
  and every offset in `main.go` counts bytes. Also models `strings.Index`,
  `strings.Contains` and `strings.Replace(s, pat, "", -1)`.
- `strconv.dfy` (module `Strconv`): `strconv.Atoi` for a 64-bit `int`.
  - A syntax error yields 0.
  - A range error yields the saturated extreme.
  - A uint64 overflow stops the scan before it sees a later non-digit.
- `render.dfy` (module `Render`): `writeLink`, `writeSummary`, `favicon`,
  the two badges, the title fallback, and the text of one item.
- `seen.dfy` (module `Seen`): the row type, the three-way `Classify`
  decision, and the `SeenStore` class. The class holds the table as a
  `map` and offers only `Lookup` and `Insert`.
- `digest.dfy` (module `Digest`): the two loops of `main`.
  - `ProcessItem` is one iteration over a feed's items.
  - `ProcessFeed` is the loop over a feed's items.
  - `Run` is the loop over the configured feeds.
  - Each method is proved equal to a function that folds one step over a
    prefix (`Step`/`Fold`, `RunStep`/`RunFold`).
- `properties.dfy` (module `DigestProperties`): properties of those
  functions. Among them: the three outcomes, the table only growing, the
  limit, a same-day rerun changing nothing, and sections only for non-empty
  feeds.

Globals and collaborators are explicit parameters, bundled in `Render.Env`:

- the globals `terminal_mode` (as `Mode`), `instapaper` and `currentDate`;
- the functions for `termlink.Link`, `stripHtmlRegex`,
  `getSummaryFromLink` and `url.Parse(..).Hostname()`.

A Go panic is an outcome of the model (`panicked`), not a precondition.
After a panic the run stops, and the table keeps the rows inserted before
it. Two kinds are modelled:

- the out-of-range slices of the comment badge;
- `check` on an INSERT refused by the table's primary key.

Behaviours of `main.go` that the model keeps as written:

- The comment fields are read at fixed offsets: the url is the 45 bytes
  starting 23 bytes after the first "Comments URL"
  (`Render.CommentsUrlReads`), and the count runs from 10 bytes after the
  first "Comments:" to the end. A missing label gives `-1` from
  `strings.Index`, so the reads start at offsets 22 and 9. The url is then
  arbitrary bytes, or the program panics when the description is too
  short (`Render.BadgeInBounds`).
- Only "</p>\n" is removed from the count field. A count closed by a bare
  "</p>", such as "Comments: 150</p>", does not parse, reads as 0 and gets
  the speech balloon (`Render.CountWithoutNewlineReadsZero`).
- A refused INSERT reaches `check` and panics. This can only happen for an
  item whose link is empty: `main.go` tests `url != ""` rather than the
  lookup's result, so an empty link is always new
  (`DigestProperties.EmptyLinkPanicsOnRepeat`).
- A second item with the same link in one run is a repeat and is rendered
  again (`DigestProperties.StepRecordsToday`).
- A negative limit never equals an index, so it imposes no cap
  (`DigestProperties.NegativeLimitTakesAll`).

## Model

| member | source | states |
|---|---|---|
| GoStrings.IndexOf | main.go:186-189 | `strings.Index`: the result is -1 exactly when the pattern occurs nowhere; otherwise the pattern occurs there and at no earlier offset |
| GoStrings.ContainsIff | main.go:184 | `strings.Contains` holds exactly when the pattern occurs at some offset |
| GoStrings.RemoveAllAbsent | main.go:191 | removing "</p>\n" from a string without an occurrence leaves it unchanged |
| GoStrings.RemoveAllKeepsPrefix | main.go:191 | a prefix that cannot start the pattern passes through the removal untouched |
| GoStrings.RemoveAll | main.go:191 | `strings.Replace(s, pat, "", -1)` with a non-empty pattern never lengthens its input |
| Strconv.Atoi | main.go:192 | the parsed count always lies in the int64 range |
| Strconv.AtoiNonNumeric | main.go:192 | text that does not start with a digit (after an optional sign) parses as 0 |
| Strconv.ScanAppend | main.go:192 | scanning a concatenation is scanning the first part, then the second from where the first stopped |
| Strconv.AtoiDecimal | main.go:192 | every count in 0..2^63-1 is read back exactly from its decimal digits |
| Strconv.AtoiSaturates | main.go:192 | a count in 2^63..2^64-1 is read as the int64 maximum, not wrapped |
| Render.WriteLink | main.go:41-55 | in markdown mode the link has the length of `[title](url)` plus the optional newline, and starts with "[" and the title |
| Render.WriteLinkNewline | main.go:41-55 | the newline flag appends exactly "\n" in both modes; without it the result is `termlink.Link(title, url)` or `[title](url)` |
| Render.ParseMarkdownLink | main.go:48-52 | a parsed link accounts for every byte of its input except the four markup bytes |
| Render.MarkdownLinkRoundTrip | main.go:48-52 | a markdown link parses back to its title and url, for every url and every title without "](" |
| Render.WriteSummary | main.go:57-71 | an empty summary gives ""; otherwise the summary is kept as a prefix, and the result differs from it exactly when `newline` is set, by "\n" (terminal) or "  \n\n" (markdown) |
| Render.Favicon | main.go:73-96 | "" exactly in terminal mode; the tea cup for an empty feed link; otherwise the image tag of the Hacker News icon for titles containing "Hacker News", else of the favicon service for the feed's host |
| Render.CommentsUrl | main.go:186-187 | the comments url is 45 bytes long |
| Render.CommentsUrlReads | main.go:186-187 | for a description `pre + "Comments URL" + 11 bytes + u + rest` with no earlier label, the url read is exactly the 45 bytes `u` |
| Render.CommentsCount | main.go:189-192 | the count read from the description always lies in the int64 range |
| Render.CommentBadge | main.go:193-197 | in markdown the badge is a 54-byte link that parses back to the icon (💬 below 100 comments, 🔥 from 100 on) and the comments url; in the terminal it is `termlink.Link` of the same icon and url |
| Render.CommentBadgeReadsCount | main.go:184-198 | when the count field holds the decimal digits of n followed by "</p>\n", the count read is n, and the badge is 💬 for n < 100 and 🔥 otherwise |
| Render.CommentBadgeUnparsedCount | main.go:189-197 | a count field that does not parse reads as 0 and gives 💬 |
| Render.CountWithoutNewlineReadsZero | main.go:189-197 | a count field of digits closed by a bare "</p>" reads as 0 and gives 💬, whatever the number |
| Render.InstapaperBadge | main.go:199-201 | the badge is the fixed Instapaper prefix followed by the item's link and ")" |
| Render.Badges | main.go:184-201 | the comment badge comes first exactly for feeds whose title contains "Hacker News"; the Instapaper badge comes last exactly when Instapaper is on in markdown mode; without either condition its badge is absent, and with neither the badges are empty |
| Render.DisplayTitle | main.go:203-206 | the title is the item's own when it is non-empty, else its description with the html stripped |
| Render.RenderItem | main.go:184-210 | the item fails (Go panic) exactly for a Hacker News feed whose description is too short for the badge slices; otherwise its text is the badges, then the link with a newline, then the summary only when the feed summarizes |
| Render.RenderIgnoresSummary | main.go:208-209 | without `summarize` the summary does not affect the item's text |
| Render.RenderedLinkPosition | main.go:199-207 | for a markdown feed that is not Hacker News and without Instapaper, an item without summaries is exactly `[title](link)\n` |
| Seen.Classify | main.go:154-170 | for a non-empty link: new exactly when there is no row; repeat exactly when the row is dated today, with the stored summary (NULL as ""); skip only for a row of another day. An empty link is always new |
| Seen.InsertOnlyTransitive | main.go:164-182 | keeping every row is transitive across successive steps |
| Seen.SeenStore.Lookup | main.go:154-162 | the SELECT finds a row exactly when the url has one, and returns that row |
| Seen.SeenStore.Insert | main.go:176-181 | the INSERT succeeds exactly when the url has no row; it then adds exactly that row dated with the given date and summary, and otherwise changes nothing; every earlier row is kept |
| Digest.Considered | main.go:142-145 | a limit n >= 0 keeps the first min(n, count) items in fetch order; a negative limit keeps all of them |
| Digest.Step | main.go:146-210 | one item keeps every existing row, adds at most the item's own link, does nothing once panicked, and only appends to the feed's text |
| Digest.NewSummary | main.go:171-175 | a new item's summary is fetched for its link when the feed summarizes, and is "" otherwise |
| Digest.Fold | main.go:141-211 | the item loop over any items: a panicked state stays unchanged, and otherwise the text only grows at its end |
| Digest.FeedRun | main.go:141-211 | one feed's loop from an empty text keeps every row it starts with |
| Digest.FoldStopsAtPanic | main.go:187-191 | a loop that panics at item k ends in the state it had there |
| Digest.FoldInsertOnly | main.go:164-182 | over any sequence of items the table only grows: every earlier row survives unchanged |
| Digest.RunStep | main.go:134-216 | a skipped or unfetched feed changes nothing; a fetched feed takes the rows and panic of its loop, and when it does not panic the writes gain `Header(feed)` then the feed's text exactly when that text is not empty; every row is kept |
| Digest.Header | main.go:214 | the header starts with "\n### ", ends with the feed title and "\n", has the favicon's length plus the title's plus 8, and in the terminal is "\n###   " + title + "\n" |
| Digest.RunFold | main.go:134-216 | the feed loop over any configured feeds: a panicked state stays unchanged; otherwise every row is kept and the writes are only appended to |
| Digest.RunAll | main.go:134-219 | a whole run keeps every row it started with, and with no feeds writes nothing |
| Digest.AppendItem | main.go:184-210 | the appends for one item produce exactly the item's rendered text, or report the panic of the badge slices |
| Digest.ProcessItem | main.go:146-210 | one iteration against the table equals `Step`: lookup, decision, insert of a new item (a refused insert panics), then the appends |
| Digest.ProcessFeed | main.go:141-211 | the item loop with its `index == limit` break equals `FeedRun`, the fold of `Step` over the considered items, and keeps every earlier row |
| Digest.Run | main.go:134-219 | the loop over the configured feeds equals `RunAll`: failed fetches are skipped and a header plus text is written for each feed with text |
| DigestProperties.StepByLookup | main.go:154-182 | no row (empty link included): exactly one row (link, today, new summary) is added and the item is rendered with that summary; for a non-empty link, a row dated today: the table is unchanged and the stored summary is rendered; a row of another day: nothing changes and nothing is written |
| DigestProperties.EmptyLinkPanicsOnRepeat | main.go:164-179 | an empty link with a row for "" is taken as new, and its refused INSERT panics |
| DigestProperties.StepRecordsToday | main.go:164-182 | after an item that is not skipped, its link has a row dated today, so the same link later in the run is a repeat |
| DigestProperties.FoldDatesNewRows | main.go:176-181 | every row after the loop is dated today or was already there, unchanged |
| DigestProperties.FoldRecordsLinks | main.go:154-182 | after a loop that did not panic every item's link has a row |
| DigestProperties.ConsideredItemsRecorded | main.go:142-182 | after a feed's loop every considered item has a row, either dated today or its earlier row from before the run, left untouched |
| DigestProperties.LimitZero | main.go:143-145 | a limit of 0 gives no text and leaves the table unchanged |
| DigestProperties.LimitIgnoresLaterItems | main.go:142-145 | with a limit n >= 0, items from index n on affect neither the table nor the text |
| DigestProperties.NegativeLimitTakesAll | main.go:143-145 | a negative limit processes every item |
| DigestProperties.FoldPrefixInsertOnly | main.go:164-182 | the rows present after the first k items survive to the end of the loop |
| DigestProperties.StepRerun | main.go:154-182 | an item met again against a table holding every row the first pass had after it adds no row and appends the same text |
| DigestProperties.RerunPrefix | main.go:154-182 | on a second pass against the final table, every prefix gives the first pass's text with no new row |
| DigestProperties.SameDayRerun | main.go:154-182 | running a feed again the same day, against the table the first run left, adds no row and writes the same text (items with links, first run without panic) |
| DigestProperties.AllStaleFold | main.go:167-169 | items all seen on earlier days leave the loop's state unchanged |
| DigestProperties.AllStaleNoSection | main.go:213-216 | a feed whose considered items were all seen on earlier days writes no section and changes no row |
| DigestProperties.RunFoldSections | main.go:213-216 | the writes come in pairs of a "\n### " header and a non-empty text |
| DigestProperties.RunAllSections | main.go:134-219 | a whole run writes header/text pairs with non-empty texts |

## Left out

- Output: `writeToMarkdown` (main.go:98-114) is file and terminal I/O. The
  model returns the sequence of strings handed to it, in order. The file
  name, the append mode, and `Println`'s extra newline are not modelled.
- Fetching: `parseFeedURL` and gofeed (main.go:116-122) do network access
  and parsing. Each configured feed comes with its fetched result, None for
  a failed fetch.
- The SQL driver: the table is a `map` held in `Seen.SeenStore`. A
  prepared statement that fails (`check` at main.go:177) is not modelled.
- The lookup error path: a SELECT error other than "no rows"
  (main.go:155-157) only prints and falls through to the insert. It is
  not modelled.
- A NULL `date` column is not modelled; a NULL `summary` is.
- Primary key: the key on `url` is assumed. The schema lives in
  `bootstrapConfig`, which is not part of this model.
- Collaborators: `getSummaryFromLink`, `stripHtmlRegex`, `termlink.Link`
  and `url.Parse(..).Hostname()` are parameters (`Render.Env`). Their code
  is not part of this model.
  - `getSummaryFromLink` is taken to return the same text for the same
    link.
  - A failing call is not distinguished from one that returns text.
- Favicon: does not model a `url.Parse` failure, where the nil URL makes
  `u.Hostname()` panic.
- Weather: `getWeather` and its lat/lon floats (main.go:129-131) are left
  out, as are `bootstrapConfig`, `time.Now` (main.go:22) and
  `defer db.Close` (main.go:217).
- GoStrings.RemoveAll: models `strings.Replace` only for a non-empty
  pattern, the only way main.go calls it.
- Strconv.Atoi: returns the value only. main.go drops the error.
