/**
 * The event table read from the SQLite partitions: one query per partition
 * file of the window, a row counter running across all of them, and the rows
 * whose number falls within [start, end]. Executing a query is the parameter
 * `run`, from a partition path and the SQL text to the rows it returns.
 */
module TableSQLService {
  import opened Wrappers
  import opened Strings
  import opened LogLevels
  import opened SortedMap
  import opened SuperService
  import opened SuperSQLService

  /** SELECT_LOG_EVENTS, written in pieces short enough for the verifier to read character by character. */
  const SelectLogEvents: string := "SELECT datetime, " + "level, event, " + "log FROM logevents "
  const SelectText: string := "SELECT docid FROM logtext WHERE text MATCH "

  /** One result row: the datetime, level, event and log text columns. */
  datatype SqlRow = SqlRow(date: string, level: string, event: string, text: string)

  /** The full-text search condition for a keyword. */
  function KeywordIn(keyword: string): (c: string)
  {
    "id in(" + SelectText + "'" + keyword + "')"
  }

  /**
   * The query of partition `cont` of `n`: its date condition, the levels
   * shown, the configured events, and the keyword search when there is one.
   */
  function EventsQuery(n: nat, cont: nat, init: string, end: string, levels: string, events: string, keyword: string)
    : (q: string)
    ensures Contains(q, "WHERE")
  {
    var q0 := SelectLogEvents + DatePredicate("datetime", BoundFor(n, cont), init, end);
    var q2 := AddCondition(AddCondition(q0, LevelsIn(levels)), EventsIn(events));
    if keyword != "" then AddCondition(q2, KeywordIn(keyword)) else q2
  }

  /**
   * The assembled query: the date condition, then the level and event
   * lists, then the keyword search; the level list opens the WHERE only in a
   * partition without a date condition, and everything after is joined by AND.
   */
  lemma EventsQueryShape(n: nat, cont: nat, init: string, end: string, levels: string, events: string, keyword: string)
    ensures var pred := DatePredicate("datetime", BoundFor(n, cont), init, end);
      EventsQuery(n, cont, init, end, levels, events, keyword) ==
        SelectLogEvents + pred + (if pred == "" then " WHERE " else " AND ") + LevelsIn(levels) +
        " AND " + EventsIn(events) + (if keyword != "" then " AND " + KeywordIn(keyword) else "")
  {
    var pred := DatePredicate("datetime", BoundFor(n, cont), init, end);
    SelectHasNoW();
    ConditionsChain(SelectLogEvents, pred, LevelsIn(levels), EventsIn(events));
    var q2 := AddCondition(AddCondition(SelectLogEvents + pred, LevelsIn(levels)), EventsIn(events));
    if keyword != "" {
      assert AddCondition(q2, KeywordIn(keyword)) == q2 + (" AND " + KeywordIn(keyword));
    } else {
      assert q2 + "" == q2;
    }
  }

  lemma SelectHasNoW()
    ensures 'W' !in SelectLogEvents
  {
  }

  /** The rows numbered from 1 that fall within [start, end], in order. */
  function InWindow(rows: seq<SqlRow>, start: int, end: int): (w: seq<SqlRow>)
  {
    if rows == [] then []
    else InWindow(rows[..|rows| - 1], start, end) + (if start <= |rows| <= end then [rows[|rows| - 1]] else [])
  }

  function Clamp(x: int, lo: int, hi: int): (c: int)
    requires lo <= hi
    ensures lo <= c <= hi
  {
    if x < lo then lo else if x > hi then hi else x
  }

  /** The window is one contiguous run of the rows: rows start..end, cut to those that exist. */
  lemma {:induction false} InWindowSlice(rows: seq<SqlRow>, start: int, end: int)
    ensures var lo := Clamp(start - 1, 0, |rows|);
      InWindow(rows, start, end) == rows[lo..Clamp(end, lo, |rows|)]
  {
    if rows != [] {
      var n := |rows|;
      var p := rows[..n - 1];
      InWindowSlice(p, start, end);
      var lo := Clamp(start - 1, 0, n);
      var hi := Clamp(end, lo, n);
      var lo' := Clamp(start - 1, 0, n - 1);
      var hi' := Clamp(end, lo', n - 1);
      if start <= n <= end {
        assert lo == lo' && hi == n && hi' == n - 1;
        assert rows[lo..n] == p[lo..n - 1] + [rows[n - 1]];
      } else if n < start {
        assert lo == n && hi == n && lo' == n - 1 && hi' == n - 1;
      } else {
        assert lo == lo' && hi == hi' && hi <= n - 1;
        assert rows[lo..hi] == p[lo..hi] by {
          assert |rows[lo..hi]| == |p[lo..hi]|;
          forall k | 0 <= k < hi - lo
            ensures rows[lo..hi][k] == p[lo..hi][k]
          {
          }
        }
      }
    }
  }

  /** The levels of the rows. */
  function LevelsOf(rows: seq<SqlRow>): (levels: set<string>)
  {
    set i | 0 <= i < |rows| :: rows[i].level
  }

  /** The events of the rows, in order. */
  function EventsOf(rows: seq<SqlRow>): (events: seq<string>)
    ensures |events| == |rows|
  {
    seq(|rows|, i requires 0 <= i < |rows| => rows[i].event)
  }

  /** Reading one more row: its level and event are recorded, and it is kept when its number is in the window. */
  lemma RowSnoc(rows: seq<SqlRow>, row: SqlRow, start: int, end: int)
    ensures InWindow(rows + [row], start, end) ==
      InWindow(rows, start, end) + (if start <= |rows| + 1 <= end then [row] else [])
    ensures LevelsOf(rows + [row]) == LevelsOf(rows) + {row.level}
    ensures Observed(EventsOf(rows + [row])) == AddAppEvent(Entry(row.event, row.event), Observed(EventsOf(rows)))
  {
    var all := rows + [row];
    assert all[..|all| - 1] == rows;
    assert EventsOf(all)[..|rows|] == EventsOf(rows);
    forall x | x in LevelsOf(all) ensures x in LevelsOf(rows) + {row.level} {
      var i :| 0 <= i < |all| && all[i].level == x;
      if i < |rows| {
        assert rows[i] == all[i];
      }
    }
    forall x | x in LevelsOf(rows) ensures x in LevelsOf(all) {
      var i :| 0 <= i < |rows| && rows[i].level == x;
      assert all[i] == rows[i];
    }
    assert all[|rows|] == row;
  }

  const CsvHeader: string := "Date, Level, Event, Text"

  /** One row as a CSV record of its four columns. */
  function CsvLine(r: SqlRow): (line: string)
  {
    r.date + "," + r.level + "," + r.event + "," + r.text
  }

  function CsvBody(rows: seq<SqlRow>): (body: string)
  {
    if rows == [] then [] else CsvLine(rows[0]) + "\n" + CsvBody(rows[1..])
  }

  /** The CSV document: the header line, then one record per row. */
  function Csv(rows: seq<SqlRow>): (csv: string)
  {
    CsvHeader + "\n" + CsvBody(rows)
  }

  function CsvLines(rows: seq<SqlRow>): (lines: seq<string>)
    ensures |lines| == |rows|
  {
    seq(|rows|, i requires 0 <= i < |rows| => CsvLine(rows[i]))
  }

  lemma {:induction false} CsvBodyJoin(rows: seq<SqlRow>)
    ensures CsvBody(rows) == Join(CsvLines(rows) + [""], '\n')
  {
    if rows != [] {
      CsvBodyJoin(rows[1..]);
      var ls := CsvLines(rows) + [""];
      assert ls[1..] == CsvLines(rows[1..]) + [""];
      assert ls[0] == CsvLine(rows[0]);
    } else {
      assert CsvLines(rows) + [""] == [""];
    }
  }

  /**
   * When no column holds a newline, splitting the CSV at newlines gives the
   * header, one record per row in order, and the empty text after the last newline.
   */
  lemma CsvLinesRoundTrip(rows: seq<SqlRow>)
    requires forall i :: 0 <= i < |rows| ==>
      '\n' !in rows[i].date && '\n' !in rows[i].level && '\n' !in rows[i].event && '\n' !in rows[i].text
    ensures Fields(Csv(rows), '\n') == [CsvHeader] + CsvLines(rows) + [""]
  {
    CsvBodyJoin(rows);
    var ls := [CsvHeader] + CsvLines(rows) + [""];
    assert ls[1..] == CsvLines(rows) + [""];
    assert Join(ls, '\n') == CsvHeader + "\n" + CsvBody(rows);
    forall i | 0 <= i < |ls| ensures '\n' !in ls[i] {
      if 1 <= i <= |rows| {
        var r := rows[i - 1];
        assert ls[i] == CsvLine(r);
        assert ls[i] == r.date + [','] + r.level + [','] + r.event + [','] + r.text;
      }
    }
    FieldsJoin(ls, '\n');
  }

  const HtmlHead: string := "<html><body>" + "<table border='1' width='100%'>" +
    "<tr><th>Date</th><th>Level</th><th>Event</th><th>Text</th></tr>" + "<tbody>"
  const HtmlTail: string := "</tbody>" + "</table>" + "</body></html>"

  /** One row as an HTML table row of four cells. */
  function HtmlRow(r: SqlRow): (tr: string)
  {
    "<tr><td>" + r.date + "</td><td>" + r.level + "</td><td>" + r.event + "</td><td>" + r.text + "</td></tr>"
  }

  function HtmlBody(rows: seq<SqlRow>): (body: string)
  {
    if rows == [] then [] else HtmlRow(rows[0]) + HtmlBody(rows[1..])
  }

  /** The HTML page: the table head, one table row per row, the closing tags. */
  function Html(rows: seq<SqlRow>): (html: string)
  {
    HtmlHead + HtmlBody(rows) + HtmlTail
  }

  lemma {:induction false} HtmlBodyAppend(a: seq<SqlRow>, b: seq<SqlRow>)
    ensures HtmlBody(a + b) == HtmlBody(a) + HtmlBody(b)
  {
    if a != [] {
      HtmlBodyAppend(a[1..], b);
      assert (a + b)[1..] == a[1..] + b;
    } else {
      assert a + b == b;
    }
  }

  lemma HtmlBodyRowAt(rows: seq<SqlRow>, k: nat)
    requires k < |rows|
    ensures OccursAt(HtmlBody(rows), HtmlRow(rows[k]), |HtmlBody(rows[..k])|)
  {
    var tail := [rows[k]] + rows[k + 1..];
    assert rows == rows[..k] + tail;
    HtmlBodyAppend(rows[..k], tail);
    assert tail[1..] == rows[k + 1..];
    var r := HtmlRow(rows[k]);
    assert OccursAt(r, r, 0);
    OccursShift(HtmlBody(rows[k + 1..]), r, r, 0);
    OccursShift(HtmlBody(rows[..k]), r + HtmlBody(rows[k + 1..]), r, 0);
  }

  /** Row k is rendered, in order, right after the head and the rows before it. */
  lemma HtmlRowsInOrder(rows: seq<SqlRow>, k: nat)
    requires k < |rows|
    ensures OccursAt(Html(rows), HtmlRow(rows[k]), |HtmlHead| + |HtmlBody(rows[..k])|)
  {
    var r, body, at := HtmlRow(rows[k]), HtmlBody(rows), |HtmlBody(rows[..k])|;
    HtmlBodyRowAt(rows, k);
    OccursShift(HtmlHead, body, r, at);
    OccursShift(HtmlTail, HtmlHead + body, r, |HtmlHead| + at);
    assert Html(rows) == (HtmlHead + body) + HtmlTail;
  }

  /** The queries of all `n` partitions of one window. */
  function PartitionQueries(n: nat, init: string, end: string, levels: string, events: string, keyword: string)
    : (queries: seq<string>)
    ensures |queries| == n
  {
    seq(n, cont requires 0 <= cont < n => EventsQuery(n, cont, init, end, levels, events, keyword))
  }

  class TableSQL {
    /** The SuperService part of the object. */
    const cfg: Service
    /** timedivision */
    var division: TimeDivision
    /** logLevels: the levels of every row the last getEventsData read */
    var logLevels: set<string>
    /** appEvents: the events of every row the last getEventsData read, each as its own value */
    var appEvents: Entries
    /** keyword: "" stands for the Java null, which searches for nothing as "" does */
    var keyword: string
    var rowCounter: int

    /**
     * TableSQLService(defaultNumberDates, maxNumberOfDates, timedivision):
     * WEEK only when the argument is exactly "WEEK", MONTH otherwise.
     */
    constructor (defaultNumberDates: int, maxNumberOfDates: int, now: int, timedivision: Option<string>)
      ensures fresh(cfg) && cfg.Valid()
      ensures cfg.endDate == now + MillisPerDay && cfg.initDate == cfg.endDate - defaultNumberDates * MillisPerDay
      ensures cfg.maxNumberOfDates == maxNumberOfDates && cfg.available == [] && cfg.appEvents == []
      ensures cfg.initCal == None && cfg.endCal == None
      ensures division == WEEK <==> timedivision == Some("WEEK")
      ensures logLevels == {} && appEvents == [] && keyword == "" && rowCounter == 0
    {
      cfg := new Service(defaultNumberDates, maxNumberOfDates, now);
      if timedivision == Some(DivisionName(WEEK)) {
        division := WEEK;
      } else {
        division := MONTH;
      }
      logLevels := {};
      appEvents := [];
      keyword := "";
      rowCounter := 0;
    }

    /** The window has both calendars; getDBFilepaths throws otherwise. */
    predicate Windowed()
      reads cfg
    {
      cfg.initCal.Some? && cfg.endCal.Some?
    }

    /** A window whose start calendar's field is a period of the division: month 0-11, week 1-52. */
    predicate Enumerable()
      reads this`division, cfg
    {
      Windowed() && ValidPeriod(division, Period(division, cfg.initCal.value))
    }

    /**
     * The partition files of the window, every period from the start
     * calendar's to the end calendar's, across years (GetWindowFilepaths).
     */
    function Paths(base: string): (paths: seq<string>)
      reads this`division, cfg
      requires Enumerable()
    {
      WindowPartitions(base, division, Period(division, cfg.initCal.value), cfg.initCal.value.year,
                       Period(division, cfg.endCal.value), cfg.endCal.value.year)
    }

    /** The query of each partition, the dates formatted by `format`. */
    function Queries(n: nat, format: int -> string): (queries: seq<string>)
      reads this`keyword, cfg
      ensures |queries| == n
    {
      PartitionQueries(n, format(cfg.initDate), format(cfg.endDate),
        QuotedList(LevelTokens(cfg.available)), QuotedList(Names(cfg.appEvents)), keyword)
    }

    /** Every row the partitions' queries return, partition after partition. */
    function Fetched(base: string, format: int -> string, run: (string, string) -> seq<SqlRow>): (rows: seq<SqlRow>)
      reads this`division, this`keyword, cfg
      requires Enumerable()
    {
      var paths := Paths(base);
      Fetch(run, paths, Queries(|paths|, format), |paths|)
    }

    /**
     * getEventsData: every partition is queried in order; every row read
     * records its level and event and counts one, and is kept when its
     * number is in [start, end]. The level argument is not used.
     */
    method GetEventsData(base: string, format: int -> string, run: (string, string) -> seq<SqlRow>,
                         level: Option<Level>, start: int, end: int) returns (r: Result<seq<SqlRow>>)
      requires Windowed() ==> Enumerable()
      modifies this
      ensures division == old(division) && keyword == old(keyword)
      ensures !Windowed() ==> r.Err? && unchanged(this)
      ensures Windowed() ==> (r.Ok? &&
        var all := Fetched(base, format, run);
        r.value == InWindow(all, start, end) && rowCounter == 1 + |all| &&
        logLevels == LevelsOf(all) && appEvents == Observed(EventsOf(all)))
    {
      if cfg.initCal.None? || cfg.endCal.None? {
        return Err("NullPointerException");
      }
      var paths := GetWindowFilepaths(base, division, cfg.initCal.value, cfg.endCal.value);
      var dataset := ReadPartitions(paths, format, run, start, end);
      return Ok(dataset);
    }

    /**
     * The loop of getEventsData over the partition files: the recorded levels
     * and events and the row counter start afresh, then every file's query
     * result is read in order.
     */
    method ReadPartitions(paths: seq<string>, format: int -> string, run: (string, string) -> seq<SqlRow>,
                          start: int, end: int) returns (dataset: seq<SqlRow>)
      modifies this
      ensures division == old(division) && keyword == old(keyword)
      ensures var all := Fetch(run, paths, Queries(|paths|, format), |paths|);
        dataset == InWindow(all, start, end) && rowCounter == 1 + |all| &&
        logLevels == LevelsOf(all) && appEvents == Observed(EventsOf(all))
    {
      logLevels := {};
      appEvents := [];
      var n := |paths|;
      ghost var queries := PartitionQueries(n, format(cfg.initDate), format(cfg.endDate),
        QuotedList(LevelTokens(cfg.available)), QuotedList(Names(cfg.appEvents)), keyword);
      rowCounter := 1;
      dataset := [];
      ghost var all: seq<SqlRow> := [];
      var cont := 0;
      while cont < n
        invariant 0 <= cont <= n
        invariant division == old(division) && keyword == old(keyword)
        invariant all == Fetch(run, paths, queries, cont)
        invariant dataset == InWindow(all, start, end) && rowCounter == 1 + |all|
        invariant logLevels == LevelsOf(all) && appEvents == Observed(EventsOf(all))
      {
        var sqlQuery := BuildQuery(n, cont, format);
        var rows := run(paths[cont], sqlQuery);
        dataset := ReadRows(rows, start, end, dataset, all);
        FetchStep(run, paths, queries, cont, rows);
        all := all + rows;
        cont := cont + 1;
      }
    }

    /** The query text getEventsData builds for partition `cont` of `n`. */
    method BuildQuery(n: nat, cont: nat, format: int -> string) returns (sqlQuery: string)
      ensures cont < n ==> sqlQuery == EventsQuery(n, cont, format(cfg.initDate), format(cfg.endDate),
        QuotedList(LevelTokens(cfg.available)), QuotedList(Names(cfg.appEvents)), keyword)
    {
      var levels := cfg.SkipLogLevelsCommaSeparated();
      var names := cfg.AppEventsListAsString();
      sqlQuery := SelectLogEvents + DatePredicate("datetime", BoundFor(n, cont), format(cfg.initDate), format(cfg.endDate));
      sqlQuery := AddCondition(sqlQuery, LevelsIn(levels));
      sqlQuery := AddCondition(sqlQuery, EventsIn(names));
      if keyword != "" {
        sqlQuery := AddCondition(sqlQuery, KeywordIn(keyword));
      }
    }

    /** What getEventsData does with the rows of one partition, `read` being the rows before them. */
    method ReadRows(rows: seq<SqlRow>, start: int, end: int, dataset: seq<SqlRow>, ghost read: seq<SqlRow>)
      returns (dataset': seq<SqlRow>)
      requires dataset == InWindow(read, start, end) && rowCounter == 1 + |read|
      requires logLevels == LevelsOf(read) && appEvents == Observed(EventsOf(read))
      modifies this
      ensures dataset' == InWindow(read + rows, start, end) && rowCounter == 1 + |read + rows|
      ensures logLevels == LevelsOf(read + rows) && appEvents == Observed(EventsOf(read + rows))
      ensures division == old(division) && keyword == old(keyword)
    {
      dataset' := dataset;
      ghost var done := read;
      SliceSnoc(read, rows, 0);
      for j := 0 to |rows|
        invariant done == read + rows[..j]
        invariant division == old(division) && keyword == old(keyword)
        invariant dataset' == InWindow(done, start, end) && rowCounter == 1 + |done|
        invariant logLevels == LevelsOf(done) && appEvents == Observed(EventsOf(done))
      {
        dataset' := ReadRow(rows[j], start, end, dataset', done);
        SliceSnoc(read, rows, j + 1);
        done := done + [rows[j]];
      }
      SliceSnoc(read, rows, |rows|);
    }

    /** What getEventsData does with one result row, `read` being the rows before it. */
    method ReadRow(row: SqlRow, start: int, end: int, dataset: seq<SqlRow>, ghost read: seq<SqlRow>)
      returns (dataset': seq<SqlRow>)
      requires dataset == InWindow(read, start, end) && rowCounter == 1 + |read|
      requires logLevels == LevelsOf(read) && appEvents == Observed(EventsOf(read))
      modifies this
      ensures dataset' == InWindow(read + [row], start, end) && rowCounter == 1 + |read + [row]|
      ensures logLevels == LevelsOf(read + [row]) && appEvents == Observed(EventsOf(read + [row]))
      ensures division == old(division) && keyword == old(keyword)
    {
      RowSnoc(read, row, start, end);
      appEvents := AddAppEvent(Entry(row.event, row.event), appEvents);
      if row.level !in logLevels {
        logLevels := logLevels + {row.level};
      }
      dataset' := dataset;
      if rowCounter >= start && rowCounter <= end {
        dataset' := dataset + [row];
      }
      rowCounter := rowCounter + 1;
    }

    /** setKeyword: a given keyword is stored trimmed and lower-cased; None leaves it. */
    method SetKeyword(keywordArg: Option<string>)
      modifies this
      ensures keyword == if keywordArg.Some? then Lower(Trim(keywordArg.value)) else old(keyword)
      ensures division == old(division) && logLevels == old(logLevels) && appEvents == old(appEvents)
      ensures rowCounter == old(rowCounter)
    {
      if keywordArg.Some? {
        keyword := Lower(Trim(keywordArg.value));
      }
    }

    /** getEventsCSV */
    method GetEventsCSV(dataset: seq<SqlRow>) returns (csv: string)
      ensures csv == Csv(dataset)
    {
      csv := CsvHeader + "\n";
      for i := 0 to |dataset|
        invariant csv + CsvBody(dataset[i..]) == Csv(dataset)
      {
        var row := CsvLine(dataset[i]);
        assert dataset[i..] == [dataset[i]] + dataset[i + 1..];
        assert CsvBody(dataset[i..]) == row + "\n" + CsvBody(dataset[i + 1..]);
        assert csv + (row + "\n" + CsvBody(dataset[i + 1..])) == (csv + (row + "\n")) + CsvBody(dataset[i + 1..]);
        csv := csv + (row + "\n");
      }
      assert dataset[|dataset|..] == [];
    }

    /** getEventsHTML */
    method GetEventsHTML(dataset: seq<SqlRow>) returns (html: string)
      ensures html == Html(dataset)
    {
      html := HtmlHead;
      for i := 0 to |dataset|
        invariant html + HtmlBody(dataset[i..]) == HtmlHead + HtmlBody(dataset)
      {
        var row := HtmlRow(dataset[i]);
        assert dataset[i..] == [dataset[i]] + dataset[i + 1..];
        assert HtmlBody(dataset[i..]) == row + HtmlBody(dataset[i + 1..]);
        assert html + (row + HtmlBody(dataset[i + 1..])) == (html + row) + HtmlBody(dataset[i + 1..]);
        html := html + row;
      }
      assert dataset[|dataset|..] == [];
      html := html + "</tbody>";
      html := html + "</table>";
      html := html + "</body></html>";
    }
  }
}
