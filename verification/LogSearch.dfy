/**
 * Searching the `logs` table page by page, and what retention does to the pages
 * (internal/telemetry/repository.go, internal/telemetry/search.go, internal/ai/handler.go).
 */
module LogSearch {
  import opened Prelude

  type Pos = x: int | 0 < x witness 1

  /** `id` is the UUID as the number that orders it. */
  datatype LogRow = LogRow(id: nat, orgId: string, serviceId: string, timestamp: int, severity: string, message: string)

  datatype Filters = Filters(orgId: string, serviceIds: seq<string>, severities: seq<string>,
                             from: Option<int>, to: Option<int>, query: string, page: Pos, limit: Pos)

  /** Full-text matching of a message against a query. */
  type TextMatch = (string, string) -> bool

  /** The WHERE clause; an empty list or query does not restrict. */
  predicate Matches(f: Filters, text: TextMatch, r: LogRow) {
    && r.orgId == f.orgId
    && (f.serviceIds == [] || r.serviceId in f.serviceIds)
    && (f.severities == [] || r.severity in f.severities)
    && (f.from.Some? ==> r.timestamp >= f.from.value)
    && (f.to.Some? ==> r.timestamp <= f.to.value)
    && (f.query == "" || text(r.message, f.query))
  }

  /** `ORDER BY timestamp DESC, id DESC`. */
  predicate Before(a: LogRow, b: LogRow) {
    a.timestamp > b.timestamp || (a.timestamp == b.timestamp && a.id > b.id)
  }

  ghost predicate Ordered(rows: seq<LogRow>) {
    forall i, j :: 0 <= i < j < |rows| ==> Before(rows[i], rows[j])
  }

  /** The primary key. */
  ghost predicate Keyed(table: seq<LogRow>) {
    forall i, j :: 0 <= i < j < |table| ==> table[i].id != table[j].id
  }

  function Select(wanted: LogRow -> bool, rows: seq<LogRow>): seq<LogRow> {
    if rows == [] then []
    else (if wanted(rows[0]) then [rows[0]] else []) + Select(wanted, rows[1..])
  }

  function Matching(f: Filters, text: TextMatch, table: seq<LogRow>): seq<LogRow> {
    Select((r: LogRow) => Matches(f, text, r), table)
  }

  /** What `DELETE ... WHERE timestamp < cutoff` leaves, and what it removes. */
  function Kept(cutoff: int, table: seq<LogRow>): seq<LogRow> {
    Select((r: LogRow) => r.timestamp >= cutoff, table)
  }

  function Removed(cutoff: int, table: seq<LogRow>): seq<LogRow> {
    Select((r: LogRow) => r.timestamp < cutoff, table)
  }

  function InsertOrdered(r: LogRow, rows: seq<LogRow>): (s: seq<LogRow>)
    ensures multiset(s) == multiset{r} + multiset(rows)
  {
    if rows == [] || Before(r, rows[0]) then [r] + rows
    else
      assert rows == [rows[0]] + rows[1..];
      [rows[0]] + InsertOrdered(r, rows[1..])
  }

  function Sort(rows: seq<LogRow>): (s: seq<LogRow>)
    ensures multiset(s) == multiset(rows)
  {
    if rows == [] then []
    else
      assert rows == [rows[0]] + rows[1..];
      InsertOrdered(rows[0], Sort(rows[1..]))
  }

  lemma {:induction false} InsertKeepsOrder(r: LogRow, rows: seq<LogRow>)
    requires Ordered(rows) && forall k :: k in rows ==> k.id != r.id
    ensures Ordered(InsertOrdered(r, rows))
  {
    if rows != [] && !Before(r, rows[0]) {
      InsertKeepsOrder(r, rows[1..]);
      var tail := InsertOrdered(r, rows[1..]);
      forall k | k in tail
        ensures Before(rows[0], k)
      {
        assert k in multiset(tail);
        assert k == r || k in rows[1..];
      }
    }
  }

  lemma {:induction false} SortIsOrdered(rows: seq<LogRow>)
    requires Keyed(rows)
    ensures Ordered(Sort(rows))
  {
    if rows != [] {
      SortIsOrdered(rows[1..]);
      forall k | k in Sort(rows[1..])
        ensures k.id != rows[0].id
      {
        assert k in multiset(Sort(rows[1..]));
      }
      InsertKeepsOrder(rows[0], Sort(rows[1..]));
    }
  }

  lemma Members(a: seq<LogRow>)
    ensures forall r :: r in multiset(a) <==> r in a
    ensures |multiset(a)| == |a|
  {
  }

  /** All rows a search would return, without paging. */
  function Found(f: Filters, text: TextMatch, table: seq<LogRow>): (rows: seq<LogRow>)
    ensures multiset(rows) == multiset(Matching(f, text, table))
  {
    Sort(Matching(f, text, table))
  }

  lemma FoundSize(f: Filters, text: TextMatch, table: seq<LogRow>)
    ensures |Found(f, text, table)| == |Matching(f, text, table)|
  {
    Members(Found(f, text, table));
    Members(Matching(f, text, table));
  }

  /** `LIMIT limit OFFSET (page - 1) * limit`. */
  function Page(rows: seq<LogRow>, page: Pos, limit: Pos): seq<LogRow> {
    var offset := (page - 1) * limit;
    if offset >= |rows| then [] else rows[offset..Min(offset + limit, |rows|)]
  }

  function TotalPages(total: nat, limit: Pos): nat {
    if total > 0 then (total + limit - 1) / limit else 0
  }

  /** The first n pages, one after the other. */
  function FirstPages(rows: seq<LogRow>, limit: Pos, n: nat): seq<LogRow> {
    if n == 0 then [] else FirstPages(rows, limit, n - 1) + Page(rows, n, limit)
  }

  lemma {:induction false} PagesConcatenate(rows: seq<LogRow>, limit: Pos, n: nat)
    ensures FirstPages(rows, limit, n) == rows[..Min(n * limit, |rows|)]
  {
    if n > 0 {
      PagesConcatenate(rows, limit, n - 1);
      assert n * limit == (n - 1) * limit + limit;
    }
  }

  /** The page count is the least number of pages that holds everything. */
  lemma TotalPagesLeast(total: nat, limit: Pos, n: nat)
    ensures total <= n * limit <==> TotalPages(total, limit) <= n
  {
    var t := TotalPages(total, limit);
    if total > 0 {
      assert total + limit - 1 == limit * t + (total + limit - 1) % limit;
      if t <= n { MulMonotone(t, n, limit); }
      if n < t { MulMonotone(n + 1, t, limit); }
    }
  }

  lemma MulMonotone(a: nat, b: nat, w: Pos)
    requires a <= b
    ensures a * w <= b * w
  {
  }

  lemma {:induction false} SelectMembers(wanted: LogRow -> bool, rows: seq<LogRow>, r: LogRow)
    ensures r in Select(wanted, rows) <==> r in rows && wanted(r)
  {
    if rows != [] {
      SelectMembers(wanted, rows[1..], r);
      assert r in rows <==> r == rows[0] || r in rows[1..];
    }
  }

  lemma {:induction false} SelectKeyed(wanted: LogRow -> bool, rows: seq<LogRow>)
    requires Keyed(rows)
    ensures Keyed(Select(wanted, rows))
  {
    if rows != [] {
      SelectKeyed(wanted, rows[1..]);
      forall r | r in Select(wanted, rows[1..])
        ensures r.id != rows[0].id
      {
        SelectMembers(wanted, rows[1..], r);
      }
    }
  }

  /** The search finds the matching rows of the table, each once, in strictly descending order of time and ID. */
  lemma FoundExactly(f: Filters, text: TextMatch, table: seq<LogRow>)
    requires Keyed(table)
    ensures Ordered(Found(f, text, table))
    ensures forall r :: r in Found(f, text, table) <==> r in table && Matches(f, text, r)
  {
    SelectKeyed((r: LogRow) => Matches(f, text, r), table);
    SortIsOrdered(Matching(f, text, table));
    forall r
      ensures r in Found(f, text, table) <==> r in table && Matches(f, text, r)
    {
      SelectMembers((k: LogRow) => Matches(f, text, k), table, r);
      assert r in Found(f, text, table) <==> r in multiset(Found(f, text, table));
      assert r in Matching(f, text, table) <==> r in multiset(Matching(f, text, table));
    }
  }

  /**
   * What the filters mean: the search finds exactly the rows of the organisation asked for that are within the time
   * range, both ends included, of a listed service and severity if any are listed, and match the query if there is one.
   */
  lemma FoundMeans(f: Filters, text: TextMatch, table: seq<LogRow>)
    requires Keyed(table)
    ensures forall r :: r in Found(f, text, table) <==>
              && r in table && r.orgId == f.orgId
              && (f.from == None || f.from.value <= r.timestamp) && (f.to == None || r.timestamp <= f.to.value)
              && (f.serviceIds == [] || r.serviceId in f.serviceIds)
              && (f.severities == [] || r.severity in f.severities)
              && (f.query == "" || text(r.message, f.query))
  {
    FoundExactly(f, text, table);
  }

  /** The rows a page shows, by what is asked for; each row comes before older ones and before smaller IDs. */
  ghost predicate Shows(f: Filters, text: TextMatch, table: seq<LogRow>, logs: seq<LogRow>) {
    && (forall r :: r in logs ==> r in table && r.orgId == f.orgId)
    && (forall r :: r in logs && f.from.Some? ==> f.from.value <= r.timestamp)
    && (forall r :: r in logs && f.to.Some? ==> r.timestamp <= f.to.value)
    && (forall r :: r in logs && f.serviceIds != [] ==> r.serviceId in f.serviceIds)
    && (forall r :: r in logs && f.severities != [] ==> r.severity in f.severities)
    && (forall r :: r in logs && f.query != "" ==> text(r.message, f.query))
    && (forall i, j :: 0 <= i < j < |logs| ==>
          || logs[i].timestamp > logs[j].timestamp
          || (logs[i].timestamp == logs[j].timestamp && logs[i].id > logs[j].id))
  }

  lemma PageShows(f: Filters, text: TextMatch, table: seq<LogRow>)
    requires Keyed(table)
    ensures Shows(f, text, table, Page(Found(f, text, table), f.page, f.limit))
  {
    FoundExactly(f, text, table);
    FoundMeans(f, text, table);
  }

  /** The different rows that are wanted. */
  ghost function Wanted(f: Filters, text: TextMatch, table: seq<LogRow>): set<LogRow> {
    set r | && r in table && r.orgId == f.orgId
            && (f.from == None || f.from.value <= r.timestamp) && (f.to == None || r.timestamp <= f.to.value)
            && (f.serviceIds == [] || r.serviceId in f.serviceIds)
            && (f.severities == [] || r.severity in f.severities)
            && (f.query == "" || text(r.message, f.query))
  }

  lemma {:induction false} SetOfKeyed(rows: seq<LogRow>)
    requires Keyed(rows)
    ensures |set r | r in rows| == |rows|
    decreases |rows|
  {
    if rows != [] {
      var last := |rows| - 1;
      SetOfKeyed(rows[..last]);
      assert (set r | r in rows) == (set r | r in rows[..last]) + {rows[last]};
    }
  }

  /** Total is their number, since the search finds each of them once. */
  lemma TotalCounts(f: Filters, text: TextMatch, table: seq<LogRow>)
    requires Keyed(table)
    ensures |Found(f, text, table)| == |Wanted(f, text, table)|
  {
    var rows := Found(f, text, table);
    FoundMeans(f, text, table);
    FoundExactly(f, text, table);
    forall i, j | 0 <= i < j < |rows|
      ensures rows[i].id != rows[j].id
    {
      assert rows[i] in table && rows[j] in table && rows[i] != rows[j];
    }
    SetOfKeyed(rows);
    assert (set r | r in rows) == Wanted(f, text, table);
  }

  /**
   * Organisations do not see each other: two tables that hold the same rows of one organisation, whatever rows of
   * others are added, removed or changed, give it the same result and so the same Total and pages.
   */
  lemma OthersUnseen(f: Filters, text: TextMatch, a: seq<LogRow>, b: seq<LogRow>)
    requires Keyed(a) && Keyed(b)
    requires forall r: LogRow :: r.orgId == f.orgId ==> (r in a <==> r in b)
    ensures Found(f, text, a) == Found(f, text, b)
  {
    FoundMeans(f, text, a);
    FoundMeans(f, text, b);
    FoundExactly(f, text, a);
    FoundExactly(f, text, b);
    OrderIsUnique(Found(f, text, a), Found(f, text, b));
  }

  lemma EmptyIff(rows: seq<LogRow>)
    ensures rows == [] <==> forall r :: r !in rows
  {
    if rows != [] { assert rows[0] in rows; }
  }

  /**
   * In a strict order no row comes twice, and there is only one way to order a set of rows, so the search result is
   * determined by which rows there are.
   */
  lemma {:induction false} OrderIsUnique(a: seq<LogRow>, b: seq<LogRow>)
    requires Ordered(a) && Ordered(b) && forall r :: r in a <==> r in b
    ensures a == b
    decreases |a|
  {
    EmptyIff(a);
    EmptyIff(b);
    if a != [] {
      assert a[0] in b && b[0] in a;
      assert a == [a[0]] + a[1..] && b == [b[0]] + b[1..];
      assert forall r :: r in a[1..] ==> Before(a[0], r);
      assert forall r :: r in b[1..] ==> Before(b[0], r);
      assert a[0] == b[0];
      forall r
        ensures r in a[1..] <==> r in b[1..]
      {
        assert r in a <==> r == a[0] || r in a[1..];
        assert r in b <==> r == b[0] || r in b[1..];
      }
      OrderIsUnique(a[1..], b[1..]);
    }
  }

  /** And a search for nothing in particular shows an organisation, over all pages, exactly its own rows. */
  lemma PagesShowOrganisation(f: Filters, text: TextMatch, table: seq<LogRow>)
    requires Keyed(table)
    requires f.serviceIds == [] && f.severities == [] && f.from == None && f.to == None && f.query == ""
    ensures var rows := Found(f, text, table);
            forall r :: r in FirstPages(rows, f.limit, TotalPages(|rows|, f.limit)) <==>
              r in table && r.orgId == f.orgId
  {
    FoundMeans(f, text, table);
    PagesTile(Found(f, text, table), f.limit, 1);
  }

  lemma PageEmpty(rows: seq<LogRow>, page: Pos, limit: Pos)
    ensures Page(rows, page, limit) == [] <==> |rows| <= (page - 1) * limit
    ensures |Page(rows, page, limit)| <= limit
  {
  }

  /**
   * Pages tile the result: the pages up to TotalPages, one after the other, are the whole result; and a page
   * is empty exactly when it lies beyond.
   */
  lemma PagesTile(rows: seq<LogRow>, limit: Pos, page: Pos)
    ensures FirstPages(rows, limit, TotalPages(|rows|, limit)) == rows
    ensures Page(rows, page, limit) == [] <==> page > TotalPages(|rows|, limit)
    ensures |Page(rows, page, limit)| <= limit
  {
    PagesConcatenate(rows, limit, TotalPages(|rows|, limit));
    TotalPagesLeast(|rows|, limit, TotalPages(|rows|, limit));
    TotalPagesLeast(|rows|, limit, page - 1);
    PageEmpty(rows, page, limit);
  }

  lemma SelectCons(wanted: LogRow -> bool, head: LogRow, tail: seq<LogRow>)
    ensures Select(wanted, [head] + tail) == (if wanted(head) then [head] else []) + Select(wanted, tail)
  {
    assert ([head] + tail)[1..] == tail;
  }

  /** Whatever is wanted of a table is wanted of what a deletion keeps or of what it removes. */
  lemma {:induction false} SelectSplits(wanted: LogRow -> bool, kept: LogRow -> bool, removed: LogRow -> bool,
                                        rows: seq<LogRow>)
    requires forall r :: kept(r) <==> !removed(r)
    ensures multiset(Select(wanted, rows)) ==
            multiset(Select(wanted, Select(kept, rows))) + multiset(Select(wanted, Select(removed, rows)))
  {
    if rows != [] {
      var head, tail := rows[0], rows[1..];
      SelectSplits(wanted, kept, removed, tail);
      var k, r := Select(kept, tail), Select(removed, tail);
      SelectCons(wanted, head, k);
      SelectCons(wanted, head, r);
      assert Select(kept, rows) == if kept(head) then [head] + k else k;
      assert Select(removed, rows) == if removed(head) then [head] + r else r;
    }
  }

  /** A search finds what it finds among the rows retention keeps, followed by what it finds among those it removes. */
  lemma FoundSplits(f: Filters, text: TextMatch, table: seq<LogRow>, cutoff: int)
    requires Keyed(table)
    ensures Found(f, text, table) == Found(f, text, Kept(cutoff, table)) + Found(f, text, Removed(cutoff, table))
    ensures forall r :: r in Found(f, text, Kept(cutoff, table)) ==> r.timestamp >= cutoff
    ensures forall r :: r in Found(f, text, Removed(cutoff, table)) ==> r.timestamp < cutoff
  {
    var wanted, kept, removed := (r: LogRow) => Matches(f, text, r),
                                 (r: LogRow) => r.timestamp >= cutoff, (r: LogRow) => r.timestamp < cutoff;
    FoundExactly(f, text, table);
    FoundWithin(f, text, kept, table);
    FoundWithin(f, text, removed, table);
    SelectSplits(wanted, kept, removed, table);
    var before, after, gone := Found(f, text, table), Found(f, text, Kept(cutoff, table)),
                               Found(f, text, Removed(cutoff, table));
    ConcatOrdered(after, gone, cutoff);
    Members(before);
    Members(after + gone);
    OrderIsUnique(before, after + gone);
  }

  /** A row is kept or removed, by its time alone. */
  lemma {:induction false} KeptRows(cutoff: int, table: seq<LogRow>)
    ensures |Kept(cutoff, table)| + |Removed(cutoff, table)| == |table|
    ensures forall r :: r in Kept(cutoff, table) <==> r in table && r.timestamp >= cutoff
    ensures forall r :: r in Removed(cutoff, table) <==> r in table && r.timestamp < cutoff
  {
    if table != [] {
      KeptRows(cutoff, table[1..]);
      assert table == [table[0]] + table[1..];
    }
  }

  lemma ConcatOrdered(after: seq<LogRow>, gone: seq<LogRow>, cutoff: int)
    requires Ordered(after) && Ordered(gone)
    requires forall r :: r in after ==> r.timestamp >= cutoff
    requires forall r :: r in gone ==> r.timestamp < cutoff
    ensures Ordered(after + gone)
    ensures multiset(after + gone) == multiset(after) + multiset(gone)
  {
  }

  lemma FoundWithin(f: Filters, text: TextMatch, part: LogRow -> bool, table: seq<LogRow>)
    requires Keyed(table)
    ensures Ordered(Found(f, text, Select(part, table)))
    ensures forall r :: r in Found(f, text, Select(part, table)) ==> part(r)
  {
    SelectKeyed(part, table);
    FoundExactly(f, text, Select(part, table));
    forall r
      ensures r in Select(part, table) ==> part(r)
    {
      SelectMembers(part, table, r);
    }
  }

  /**
   * Retention only truncates searches: for every filter the result before the deletion is the result after it
   * followed by the matching rows deleted, so Total drops by exactly those, and every page whose rows are all
   * at or after the cutoff is unchanged.
   */
  lemma RetentionTruncates(f: Filters, text: TextMatch, table: seq<LogRow>, cutoff: int, page: Pos)
    requires Keyed(table)
    ensures var before, after := Found(f, text, table), Found(f, text, Kept(cutoff, table));
            && before == after + Found(f, text, Removed(cutoff, table))
            && |before| - |after| == |Matching(f, text, Removed(cutoff, table))|
            && ((forall r :: r in Page(before, page, f.limit) ==> r.timestamp >= cutoff) ==>
                  Page(after, page, f.limit) == Page(before, page, f.limit))
  {
    FoundSplits(f, text, table, cutoff);
    var after, gone := Found(f, text, Kept(cutoff, table)), Found(f, text, Removed(cutoff, table));
    FoundSize(f, text, Removed(cutoff, table));
    if forall r :: r in Page(after + gone, page, f.limit) ==> r.timestamp >= cutoff {
      PageKept(after, gone, cutoff, page, f.limit);
    }
  }

  lemma PageKept(after: seq<LogRow>, gone: seq<LogRow>, cutoff: int, page: Pos, limit: Pos)
    requires forall r :: r in gone ==> r.timestamp < cutoff
    requires forall r :: r in Page(after + gone, page, limit) ==> r.timestamp >= cutoff
    ensures Page(after, page, limit) == Page(after + gone, page, limit)
  {
    var before, offset := after + gone, (page - 1) * limit;
    if offset < |before| {
      var end := Min(offset + limit, |before|);
      assert before[end - 1] == Page(before, page, limit)[end - 1 - offset];
      assert before[end - 1] in Page(before, page, limit);
      assert forall k :: |after| <= k < |before| ==> before[k] == gone[k - |after|];
    }
  }
}

/** The search endpoints: validating page and limit, and answering from the table. */
module SearchService {
  import opened Prelude
  import opened LogSearch

  const DEFAULT_LIMIT: Pos := 100
  const MAX_LIMIT: Pos := 1000

  /** A query parameter after trimming and `strconv.Atoi`. */
  datatype Param = Absent | NotANumber | Number(value: int)

  datatype Answer = Answer(logs: seq<LogRow>, page: Pos, limit: Pos, total: nat, totalPages: nat)

  /** `ParseSearchFilters`: page and limit are accepted exactly when in range, and then are as given or the default. */
  method ParsePaging(page: Param, limit: Param) returns (r: Result<(Pos, Pos), string>)
    ensures r == Err("page must be a positive integer") <==> page.NotANumber? || (page.Number? && page.value < 1)
    ensures r == Err("limit must be a positive integer") <==>
            (page.Number? ==> page.value >= 1) && !page.NotANumber? &&
            (limit.NotANumber? || (limit.Number? && limit.value < 1))
    ensures r == Err("limit cannot exceed 1000") <==>
            (page.Number? ==> page.value >= 1) && !page.NotANumber? && limit.Number? && limit.value > 1000
    ensures r.Ok? <==> !page.NotANumber? && !limit.NotANumber? &&
                       (page.Number? ==> page.value >= 1) && (limit.Number? ==> 1 <= limit.value <= 1000)
    ensures r.Ok? ==> r.value.0 == (if page.Number? then page.value else 1)
    ensures r.Ok? ==> r.value.1 == (if limit.Number? then limit.value else 100)
  {
    var p: Pos, l: Pos := 1, DEFAULT_LIMIT;
    if !page.Absent? {
      if page.NotANumber? || page.value < 1 {
        return Err("page must be a positive integer");
      }
      p := page.value;
    }
    if !limit.Absent? {
      if limit.NotANumber? || limit.value < 1 {
        return Err("limit must be a positive integer");
      }
      if limit.value > MAX_LIMIT {
        return Err("limit cannot exceed 1000");
      }
      l := limit.value;
    }
    return Ok((p, l));
  }

  /** The natural-language path: page and limit are positive, but the limit has no upper bound there. */
  method NlqPaging(page: int, limit: int, aiLimit: int) returns (p: Pos, l: Pos)
    ensures p == Max(page, 1)
    ensures l == if limit > 0 then limit else if aiLimit > 0 then aiLimit else 100
  {
    p, l := 1, DEFAULT_LIMIT;
    if page > 0 {
      p := page;
    }
    if limit > 0 {
      l := limit;
    } else if aiLimit > 0 {
      l := aiLimit;
    }
  }

  /** Only one number of pages holds the total without an empty page. */
  lemma PagesUnique(total: nat, limit: Pos, pages: nat)
    requires total <= pages * limit && (pages > 0 ==> (pages - 1) * limit < total)
    ensures pages == TotalPages(total, limit)
  {
    TotalPagesLeast(total, limit, pages);
    if pages > 0 { TotalPagesLeast(total, limit, pages - 1); }
  }

  class LogRepository {
    /** Rows in storage order. */
    var table: seq<LogRow>

    ghost predicate Valid()
      reads this
    {
      Keyed(table)
    }

    constructor ()
      ensures Valid() && table == []
    {
      table := [];
    }

    /**
     * The count sees the table as it is, the select the table `later`. `scanned` is how many rows can be read before
     * reading fails.
     */
    method SearchLogs(f: Filters, text: TextMatch, later: seq<LogRow>, countOk: bool, selectOk: bool, scanned: nat)
      returns (r: Result<Answer, string>)
      requires Valid() && Keyed(later)
      ensures r.Ok? <==> countOk && selectOk && |Page(Found(f, text, later), f.page, f.limit)| <= scanned
      ensures r.Ok? ==> r.value == Answer(Page(Found(f, text, later), f.page, f.limit), f.page, f.limit,
                                          |Found(f, text, table)|, TotalPages(|Found(f, text, table)|, f.limit))
      ensures r.Ok? ==> Shows(f, text, later, r.value.logs) && r.value.total == |Wanted(f, text, table)|
    {
      PageShows(f, text, later);
      TotalCounts(f, text, table);
      if !countOk {
        return Err("count");
      }
      var total := |Matching(f, text, table)|;
      FoundSize(f, text, table);
      if !selectOk {
        return Err("select");
      }
      var logs := ScanRows(Page(Found(f, text, later), f.page, f.limit), scanned);
      if logs.Err? {
        return Err(logs.error);
      }
      var totalPages := PageCount(total, f.limit);
      PagesUnique(total, f.limit, totalPages);
      return Ok(Answer(logs.value, f.page, f.limit, total, totalPages));
    }

    /** The pages hold the total, and without the last one they would not. */
    method PageCount(total: nat, limit: Pos) returns (totalPages: nat)
      ensures total <= totalPages * limit
      ensures totalPages > 0 ==> (totalPages - 1) * limit < total
    {
      totalPages := 0;
      if total > 0 {
        totalPages := (total + limit - 1) / limit;
        assert total + limit - 1 == limit * totalPages + (total + limit - 1) % limit;
      }
    }

    /** The row loop. */
    method ScanRows(rows: seq<LogRow>, scanned: nat) returns (r: Result<seq<LogRow>, string>)
      ensures r.Ok? <==> |rows| <= scanned
      ensures r.Ok? ==> r.value == rows
    {
      var logs := [];
      var i := 0;
      while i < |rows|
        invariant 0 <= i <= |rows| && i <= scanned && logs == rows[..i]
      {
        if i == scanned {
          return Err("scan");
        }
        logs := logs + [rows[i]];
        i := i + 1;
      }
      return Ok(logs);
    }

    method DeleteOlderThan(cutoff: int) returns (deleted: nat)
      requires Valid()
      modifies this
      ensures Valid() && table == Kept(cutoff, old(table))
      ensures deleted == |Removed(cutoff, old(table))|
      ensures forall r :: r in table <==> r in old(table) && r.timestamp >= cutoff
      ensures deleted == |old(table)| - |table|
    {
      KeptRows(cutoff, table);
      SelectKeyed((r: LogRow) => r.timestamp >= cutoff, table);
      deleted := |Removed(cutoff, table)|;
      table := Kept(cutoff, table);
    }
  }
}
