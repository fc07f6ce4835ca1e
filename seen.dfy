/** The `seen` table of main.go and the three-way decision taken for every
    feed item against it (main.go:154-182). */
module Seen {
  import opened GoStrings

  /** A row of `seen`: the date the url was first processed ("2006-01-02"
      layout) and its summary column, which may be NULL. */
  datatype Record = Record(date: Str, summary: Option<Str>)

  /** What the pipeline does with an item. */
  datatype Decision =
    | FreshNew                  // never seen: record it, then render it
    | FreshRepeat(cached: Str)  // recorded today: render again with the cached summary
    | StaleSkip                 // recorded on another day: `continue`

  /** The decision of main.go:154-170 for an item whose link is `link`,
      given the row the SELECT found. Go reads the row into `url` and
      `date`, which stay "" when there is no row, and tests `url != ""`;
      an empty link is therefore always new, even when a row for "" exists. */
  function Classify(link: Str, found: Option<Record>, today: Str): (d: Decision)
    ensures link != [] ==> (d == FreshNew <==> found.None?)
    ensures link != [] && found.Some? ==>
              (d.FreshRepeat? <==> found.value.date == today)
    ensures d.FreshRepeat? ==>
              found.Some? && found.value.date == today &&
              d.cached == (if found.value.summary.Some? then found.value.summary.value else [])
    ensures d == StaleSkip ==> found.Some? && found.value.date != today
    ensures link == [] ==> d == FreshNew
  {
    var url := if found.Some? then link else [];
    var date := if found.Some? then found.value.date else [];
    var summaryValue := if found.Some? && found.value.summary.Some? then found.value.summary.value else [];
    if url != [] && date == today then FreshRepeat(summaryValue)
    else if url != [] && date != today then StaleSkip
    else FreshNew
  }

  function Get(rows: map<Str, Record>, url: Str): Option<Record>
  {
    if url in rows then Some(rows[url]) else None
  }

  /** Every row of `before` is in `after`, unchanged. */
  ghost predicate InsertOnly(before: map<Str, Record>, after: map<Str, Record>)
  {
    forall url :: url in before ==> url in after && after[url] == before[url]
  }

  lemma InsertOnlyTransitive(a: map<Str, Record>, b: map<Str, Record>, c: map<Str, Record>)
    requires InsertOnly(a, b) && InsertOnly(b, c)
    ensures InsertOnly(a, c)
  {
  }

  /** The `seen` table, keyed by url (its primary key). The pipeline only
      ever selects and inserts rows. */
  class SeenStore {
    var rows: map<Str, Record>

    constructor (initial: map<Str, Record>)
      ensures rows == initial
    {
      rows := initial;
    }

    /** SELECT url, date, summary FROM seen WHERE url = ? */
    method Lookup(url: Str) returns (found: Option<Record>)
      ensures found.Some? <==> url in rows
      ensures found.Some? ==> found.value == rows[url]
    {
      found := if url in rows then Some(rows[url]) else None;
    }

    /** INSERT INTO seen(url, date, summary) values(?,?,?); refused when a
        row for `url` exists (the primary key), which `check` turns into a
        panic. */
    method Insert(url: Str, date: Str, summary: Str) returns (ok: bool)
      modifies this
      ensures ok <==> url !in old(rows)
      ensures ok ==> rows == old(rows)[url := Record(date, Some(summary))]
      ensures !ok ==> rows == old(rows)
      ensures InsertOnly(old(rows), rows)
    {
      ok := url !in rows;
      if ok {
        rows := rows[url := Record(date, Some(summary))];
      }
    }
  }
}
