/**
 * Statistics over the SQLite partitions: the number of events per date, the
 * per-level totals, and the (date, level, event) table, each gathered by one
 * grouped query per partition file of the window.
 */
module StatisticsSQLService {
  import opened Wrappers
  import opened Strings
  import opened LogLevels
  import opened SortedMap
  import opened SuperService
  import opened SuperSQLService
  import StatisticsService

  /** SELECT_EVENTS_PER_DATE, written in pieces short enough for the verifier to read character by character. */
  const SelectEventsPerDate: string := "SELECT count(*) " + "as num, date " + "FROM logevents "
  /** SELECT_APP_EVENTS */
  const SelectAppEvents: string := "SELECT count(*) " + "as num, date, " + "level, event " + "FROM logevents "
  /** The condition that keeps the rows marked for charts. */
  const ChartOnly: string := "chart='1'"
  const GroupByDate: string := " GROUP BY date"
  const GroupByEvent: string := " GROUP BY date, " + "level, event"

  lemma SelectsHaveNoW()
    ensures 'W' !in SelectEventsPerDate && 'W' !in SelectAppEvents
  {
  }

  /** The condition on a single level: its token, quoted. */
  function LevelIs(l: Level): (c: string)
  {
    "level='" + Token(l) + "'"
  }

  /** The level condition of getNEventsPerDate: the given level, or else every level shown. */
  function LevelCondition(level: Option<Level>, levels: string): (c: string)
  {
    if level.Some? then LevelIs(level.value) else LevelsIn(levels)
  }

  /** The query getNEventsPerDate sends to partition `cont` of `n`. */
  function PerDateQuery(n: nat, cont: nat, init: string, end: string, level: Option<Level>, levels: string,
                        showChart: bool): (q: string)
  {
    var q1 := AddCondition(SelectEventsPerDate + DatePredicate("date", BoundFor(n, cont), init, end),
      LevelCondition(level, levels));
    (if showChart then AddCondition(q1, ChartOnly) else q1) + GroupByDate
  }

  /**
   * The assembled per-date query: the date condition, then the level
   * condition, which opens the WHERE only where there is no date condition,
   * then the chart condition exactly when charts are asked for.
   */
  lemma PerDateQueryShape(n: nat, cont: nat, init: string, end: string, level: Option<Level>, levels: string,
                          showChart: bool)
    ensures var pred := DatePredicate("date", BoundFor(n, cont), init, end);
      PerDateQuery(n, cont, init, end, level, levels, showChart) ==
        SelectEventsPerDate + pred + (if pred == "" then " WHERE " else " AND ") + LevelCondition(level, levels) +
        (if showChart then " AND " + ChartOnly else "") + GroupByDate
  {
    var pred := DatePredicate("date", BoundFor(n, cont), init, end);
    var c := LevelCondition(level, levels);
    SelectsHaveNoW();
    ConditionsChain(SelectEventsPerDate, pred, c, ChartOnly);
    var q1 := AddCondition(SelectEventsPerDate + pred, c);
    if showChart {
      assert AddCondition(q1, ChartOnly) + GroupByDate == q1 + (" AND " + ChartOnly) + GroupByDate;
    } else {
      assert q1 + GroupByDate == q1 + "" + GroupByDate;
    }
  }

  /** The queries of all `n` partitions. */
  function PerDateQueries(n: nat, init: string, end: string, level: Option<Level>, levels: string, showChart: bool)
    : (queries: seq<string>)
    ensures |queries| == n
  {
    seq(n, cont requires 0 <= cont < n => PerDateQuery(n, cont, init, end, level, levels, showChart))
  }

  /** The query getAppEventsTableData sends to partition `cont` of `n`. */
  function AppEventsQuery(n: nat, cont: nat, init: string, end: string, levels: string, filter: Option<string>)
    : (q: string)
  {
    var q1 := AddCondition(SelectAppEvents + DatePredicate("date", BoundFor(n, cont), init, end), LevelsIn(levels));
    var q2 := if filter.Some? then AddCondition(q1, EventsIn(filter.value)) else q1;
    AddCondition(q2, ChartOnly) + GroupByEvent
  }

  /**
   * The assembled table query: the date condition, the levels shown, the
   * event filter when one is given, and always the chart condition.
   */
  lemma AppEventsQueryShape(n: nat, cont: nat, init: string, end: string, levels: string, filter: Option<string>)
    ensures var pred := DatePredicate("date", BoundFor(n, cont), init, end);
      AppEventsQuery(n, cont, init, end, levels, filter) ==
        SelectAppEvents + pred + (if pred == "" then " WHERE " else " AND ") + LevelsIn(levels) +
        (if filter.Some? then " AND " + EventsIn(filter.value) else "") + " AND " + ChartOnly + GroupByEvent
  {
    var pred := DatePredicate("date", BoundFor(n, cont), init, end);
    var head := SelectAppEvents + pred + (if pred == "" then " WHERE " else " AND ") + LevelsIn(levels);
    SelectsHaveNoW();
    ConditionsChain(SelectAppEvents, pred, LevelsIn(levels), ChartOnly);
    if filter.Some? {
      FilteredTail(AddCondition(SelectAppEvents + pred, LevelsIn(levels)), EventsIn(filter.value));
    } else {
      assert head + "" == head;
    }
  }

  /** After the level condition, the event filter and the chart condition are both joined by AND. */
  lemma FilteredTail(q1: string, events: string)
    requires Contains(q1, "WHERE")
    ensures AddCondition(AddCondition(q1, events), ChartOnly) == q1 + (" AND " + events) + " AND " + ChartOnly
  {
    AddConditionJoins(q1, events);
    AddConditionJoins(AddCondition(q1, events), ChartOnly);
  }

  /** The queries of all `n` partitions. */
  function AppEventsQueries(n: nat, init: string, end: string, levels: string, filter: Option<string>)
    : (queries: seq<string>)
    ensures |queries| == n
  {
    seq(n, cont requires 0 <= cont < n => AppEventsQuery(n, cont, init, end, levels, filter))
  }

  /** A row of the per-date query: the count(*) column and the date. */
  datatype DateCount = DateCount(count: nat, date: string)

  /** dataset.put(date, count) for each row in order. */
  function Merged(rows: seq<DateCount>): (m: map<string, nat>)
  {
    if rows == [] then map[]
    else
      var last := rows[|rows| - 1];
      Merged(rows[..|rows| - 1])[last.date := last.count]
  }

  /** No later row has the same date as row i. */
  predicate LastOfDate(rows: seq<DateCount>, i: nat)
    requires i < |rows|
  {
    forall j :: i < j < |rows| ==> rows[j].date != rows[i].date
  }

  lemma MergedSnoc(rows: seq<DateCount>, x: DateCount)
    ensures Merged(rows + [x]) == Merged(rows)[x.date := x.count]
  {
    assert (rows + [x])[..|rows|] == rows;
  }

  /** The dates of the rows. */
  function Dates(rows: seq<DateCount>): (dates: set<string>)
  {
    set i | 0 <= i < |rows| :: rows[i].date
  }

  lemma DatesSnoc(rows: seq<DateCount>, x: DateCount)
    ensures Dates(rows + [x]) == Dates(rows) + {x.date}
  {
    var all := rows + [x];
    forall d | d in Dates(all) ensures d in Dates(rows) + {x.date} {
      var i :| 0 <= i < |all| && all[i].date == d;
      if i < |rows| {
        assert rows[i] == all[i];
      }
    }
    forall d | d in Dates(rows) ensures d in Dates(all) {
      var i :| 0 <= i < |rows| && rows[i].date == d;
      assert all[i] == rows[i];
    }
    assert all[|rows|] == x;
  }

  /** The merged counts have one key per date returned. */
  lemma {:induction false} MergedKeys(rows: seq<DateCount>)
    ensures Merged(rows).Keys == Dates(rows)
  {
    if rows != [] {
      var init, last := rows[..|rows| - 1], rows[|rows| - 1];
      assert rows == init + [last];
      MergedKeys(init);
      DatesSnoc(init, last);
    }
  }

  /** Each date holds the count of the last row with that date. */
  lemma {:induction false} MergedLast(rows: seq<DateCount>)
    ensures forall i :: 0 <= i < |rows| && LastOfDate(rows, i) ==>
      rows[i].date in Merged(rows) && Merged(rows)[rows[i].date] == rows[i].count
  {
    if rows != [] {
      var init, last := rows[..|rows| - 1], rows[|rows| - 1];
      MergedLast(init);
      forall i | 0 <= i < |rows| && LastOfDate(rows, i)
        ensures rows[i].date in Merged(rows) && Merged(rows)[rows[i].date] == rows[i].count
      {
        if i < |init| {
          assert rows[i] == init[i];
          assert rows[i].date != last.date;
          assert LastOfDate(init, i) by {
            forall j | i < j < |init| ensures init[j].date != init[i].date {
              assert init[j] == rows[j];
            }
          }
        }
      }
    }
  }

  /**
   * The merged counts have one key per date returned, and each date holds
   * the count of the last row with that date: a later count replaces an
   * earlier one rather than adding to it.
   */
  lemma MergedSpec(rows: seq<DateCount>)
    ensures Merged(rows).Keys == set i | 0 <= i < |rows| :: rows[i].date
    ensures forall i :: 0 <= i < |rows| && LastOfDate(rows, i) ==> Merged(rows)[rows[i].date] == rows[i].count
  {
    MergedKeys(rows);
    MergedLast(rows);
  }

  /** Two partitions returning the same date: the later count stands, the counts are not added. */
  lemma LaterCountReplaces(a: nat, b: nat, d: string)
    ensures Merged([DateCount(a, d), DateCount(b, d)]) == map[d := b]
  {
    MergedSnoc([DateCount(a, d)], DateCount(b, d));
    MergedSnoc([], DateCount(a, d));
  }

  /** The per-date counts of the partitions `paths`: their rows merged in order. */
  function WindowCounts(paths: seq<string>, run: (string, string) -> seq<DateCount>, init: string, end: string,
                        levels: string, level: Option<Level>, showChart: bool): (m: map<string, nat>)
  {
    Merged(Fetch(run, paths, PerDateQueries(|paths|, init, end, level, levels, showChart), |paths|))
  }

  /** A row of the table query: count(*), date, level and event. */
  datatype GroupRow = GroupRow(count: nat, date: string, level: string, event: string)

  /** The key getAppEventsTableData files a row under: date, level and event joined by `_`. */
  function RowKey(r: GroupRow): (k: string)
  {
    r.date + "_" + r.level + "_" + r.event
  }

  /** One LinkedHashMap entry; the sequence order is the insertion order. */
  datatype Slot = Slot(key: string, row: GroupRow)

  /** The position of key `k`, or -1. */
  function SlotOf(m: seq<Slot>, k: string): (i: int)
    ensures -1 <= i < |m|
    ensures i >= 0 ==> m[i].key == k && forall j :: 0 <= j < i ==> m[j].key != k
    ensures i == -1 ==> forall j :: 0 <= j < |m| ==> m[j].key != k
  {
    if m == [] then -1
    else if m[0].key == k then 0
    else
      var i := SlotOf(m[1..], k);
      if i == -1 then -1 else i + 1
  }

  /** LinkedHashMap.get */
  function Lookup(m: seq<Slot>, k: string): (r: Option<GroupRow>)
  {
    var i := SlotOf(m, k);
    if i == -1 then None else Some(m[i].row)
  }

  /** LinkedHashMap.put: a present key keeps its place and takes the new value; a new key goes last. */
  function LinkedPut(m: seq<Slot>, k: string, row: GroupRow): (m': seq<Slot>)
  {
    var i := SlotOf(m, k);
    if i == -1 then m + [Slot(k, row)] else m[i := Slot(k, row)]
  }

  predicate DistinctKeys(m: seq<Slot>)
  {
    forall i, j :: 0 <= i < j < |m| ==> m[i].key != m[j].key
  }

  /**
   * put keeps the keys distinct and the earlier keys in place, makes `k`
   * map to the new row, and leaves every other key's value as it was.
   */
  lemma LinkedPutSpec(m: seq<Slot>, k: string, row: GroupRow)
    requires DistinctKeys(m)
    ensures var m' := LinkedPut(m, k, row);
      DistinctKeys(m') && Lookup(m', k) == Some(row) &&
      |m'| == |m| + (if Lookup(m, k).None? then 1 else 0) &&
      (forall j :: 0 <= j < |m| ==> m'[j].key == m[j].key) &&
      (forall k' :: k' != k ==> Lookup(m', k') == Lookup(m, k'))
  {
    var m' := LinkedPut(m, k, row);
    var i := SlotOf(m, k);
    if i == -1 {
      assert m'[|m|].key == k;
    } else {
      assert m'[i].key == k;
    }
    forall k' | k' != k ensures Lookup(m', k') == Lookup(m, k') {
      var j := SlotOf(m, k');
      if j != -1 {
        assert m'[j] == m[j];
      }
    }
  }

  /** The table the rows give, put one after another. */
  function Grouped(rows: seq<GroupRow>): (m: seq<Slot>)
  {
    if rows == [] then []
    else
      var last := rows[|rows| - 1];
      LinkedPut(Grouped(rows[..|rows| - 1]), RowKey(last), last)
  }

  /** No later row has the key of row i. */
  predicate LastOfKey(rows: seq<GroupRow>, i: nat)
    requires i < |rows|
  {
    forall j :: i < j < |rows| ==> RowKey(rows[j]) != RowKey(rows[i])
  }

  function RowKeys(rows: seq<GroupRow>): (keys: set<string>)
  {
    set i | 0 <= i < |rows| :: RowKey(rows[i])
  }

  lemma RowKeysSnoc(rows: seq<GroupRow>, x: GroupRow)
    ensures RowKeys(rows + [x]) == RowKeys(rows) + {RowKey(x)}
  {
    var all := rows + [x];
    forall k | k in RowKeys(all) ensures k in RowKeys(rows) + {RowKey(x)} {
      var i :| 0 <= i < |all| && RowKey(all[i]) == k;
      if i < |rows| {
        assert rows[i] == all[i];
      }
    }
    forall k | k in RowKeys(rows) ensures k in RowKeys(all) {
      var i :| 0 <= i < |rows| && RowKey(rows[i]) == k;
      assert all[i] == rows[i];
    }
    assert all[|rows|] == x;
  }

  /** The table never holds a key twice. */
  lemma {:induction false} GroupedDistinct(rows: seq<GroupRow>)
    ensures DistinctKeys(Grouped(rows))
  {
    if rows != [] {
      var init, last := rows[..|rows| - 1], rows[|rows| - 1];
      GroupedDistinct(init);
      LinkedPutSpec(Grouped(init), RowKey(last), last);
    }
  }

  /** The table's keys are exactly the keys of the rows. */
  lemma {:induction false} GroupedKeys(rows: seq<GroupRow>)
    ensures forall k :: Lookup(Grouped(rows), k).Some? <==> k in RowKeys(rows)
  {
    if rows != [] {
      var init, last := rows[..|rows| - 1], rows[|rows| - 1];
      assert rows == init + [last];
      GroupedKeys(init);
      GroupedDistinct(init);
      LinkedPutSpec(Grouped(init), RowKey(last), last);
      RowKeysSnoc(init, last);
    }
  }

  /** Each key holds the last row filed under it. */
  lemma {:induction false} GroupedLast(rows: seq<GroupRow>)
    ensures forall i :: 0 <= i < |rows| && LastOfKey(rows, i) ==> Lookup(Grouped(rows), RowKey(rows[i])) == Some(rows[i])
  {
    if rows != [] {
      var init, last := rows[..|rows| - 1], rows[|rows| - 1];
      GroupedLast(init);
      GroupedDistinct(init);
      LinkedPutSpec(Grouped(init), RowKey(last), last);
      forall i | 0 <= i < |rows| && LastOfKey(rows, i)
        ensures Lookup(Grouped(rows), RowKey(rows[i])) == Some(rows[i])
      {
        if i < |init| {
          assert rows[i] == init[i];
          assert LastOfKey(init, i);
        }
      }
    }
  }

  /**
   * The table has one entry per key, exactly the keys of the rows, and each
   * key holds the last row filed under it.
   */
  lemma GroupedSpec(rows: seq<GroupRow>)
    ensures DistinctKeys(Grouped(rows))
    ensures forall k :: Lookup(Grouped(rows), k).Some? <==> k in RowKeys(rows)
    ensures forall i :: 0 <= i < |rows| && LastOfKey(rows, i) ==> Lookup(Grouped(rows), RowKey(rows[i])) == Some(rows[i])
  {
    GroupedDistinct(rows);
    GroupedKeys(rows);
    GroupedLast(rows);
  }

  lemma GroupedSnoc(rows: seq<GroupRow>, x: GroupRow)
    ensures Grouped(rows + [x]) == LinkedPut(Grouped(rows), RowKey(x), x)
    ensures LevelsOf(rows + [x]) == LevelsOf(rows) + {x.level}
    ensures Observed(EventsOf(rows + [x])) == AddAppEvent(Entry(x.event, x.event), Observed(EventsOf(rows)))
  {
    var all := rows + [x];
    assert all[..|rows|] == rows;
    assert EventsOf(all)[..|rows|] == EventsOf(rows);
    forall l | l in LevelsOf(all) ensures l in LevelsOf(rows) + {x.level} {
      var i :| 0 <= i < |all| && all[i].level == l;
      if i < |rows| {
        assert rows[i] == all[i];
      }
    }
    forall l | l in LevelsOf(rows) ensures l in LevelsOf(all) {
      var i :| 0 <= i < |rows| && rows[i].level == l;
      assert all[i] == rows[i];
    }
    assert all[|rows|] == x;
  }

  /** The levels of the rows. */
  function LevelsOf(rows: seq<GroupRow>): (levels: set<string>)
  {
    set i | 0 <= i < |rows| :: rows[i].level
  }

  /** The events of the rows, in order. */
  function EventsOf(rows: seq<GroupRow>): (events: seq<string>)
    ensures |events| == |rows|
  {
    seq(|rows|, i requires 0 <= i < |rows| => rows[i].event)
  }

  /** The table rows the partitions `paths` return, partition after partition. */
  function WindowRows(paths: seq<string>, run: (string, string) -> seq<GroupRow>, init: string, end: string,
                      levels: string, filter: Option<string>): (rows: seq<GroupRow>)
  {
    Fetch(run, paths, AppEventsQueries(|paths|, init, end, levels, filter), |paths|)
  }

  /** The bundle getAppEventsTableData returns: the table, the levels seen, the events seen. */
  datatype EventTable = EventTable(dataset: seq<Slot>, logLevels: set<string>, appEvents: Entries)

  /** What the table rows give: their grouping, their levels, and their events each under its own name. */
  function Tabulated(rows: seq<GroupRow>): (t: EventTable)
  {
    EventTable(Grouped(rows), LevelsOf(rows), Observed(EventsOf(rows)))
  }

  class StatisticsSQL {
    /** The SuperService part of the object. */
    const cfg: Service
    /** timedivision */
    var division: TimeDivision
    /** appEvents: the events seen by the last getAppEventsTableData */
    var appEvents: Entries
    /** logLevels: the levels seen by the last getAppEventsTableData */
    var logLevels: set<string>

    /**
     * StatisticsSQLService(defaultNumberDates, maxNumberOfDates, timedivision):
     * MONTH only when the argument is exactly "MONTH", WEEK otherwise; every level shown.
     */
    constructor (defaultNumberDates: int, maxNumberOfDates: int, now: int, timedivision: Option<string>)
      ensures fresh(cfg) && cfg.Valid()
      ensures cfg.endDate == now + MillisPerDay && cfg.initDate == cfg.endDate - defaultNumberDates * MillisPerDay
      ensures cfg.maxNumberOfDates == maxNumberOfDates && cfg.available == Precedence && cfg.appEvents == []
      ensures cfg.initCal == None && cfg.endCal == None
      ensures division == MONTH <==> timedivision == Some("MONTH")
      ensures appEvents == [] && logLevels == {}
    {
      var s := new Service(defaultNumberDates, maxNumberOfDates, now);
      if timedivision == Some(DivisionName(MONTH)) {
        division := MONTH;
      } else {
        division := WEEK;
      }
      s.InitLogLevels();
      cfg := s;
      appEvents := [];
      logLevels := {};
    }

    /** The window has both calendars; getDBFilepaths throws otherwise. */
    predicate Windowed()
      reads cfg
    {
      cfg.initCal.Some? && cfg.endCal.Some?
    }

    /** A window whose start calendar's field is a period of the division: month 0-11, week 1-52. */
    predicate Enumerable()
      reads this`division, cfg
    {
      Windowed() && ValidPeriod(division, Period(division, cfg.initCal.value))
    }

    /**
     * The partition files of the window, every period from the start
     * calendar's to the end calendar's, across years (GetWindowFilepaths).
     */
    function Paths(base: string): (paths: seq<string>)
      reads this`division, cfg
      requires Enumerable()
    {
      WindowPartitions(base, division, Period(division, cfg.initCal.value), cfg.initCal.value.year,
                       Period(division, cfg.endCal.value), cfg.endCal.value.year)
    }

    /** The per-date counts of a window: every partition's rows merged in order. */
    function PerDate(base: string, format: int -> string, run: (string, string) -> seq<DateCount>,
                     level: Option<Level>, showChart: bool): (m: map<string, nat>)
      reads this`division, cfg
      requires Enumerable()
    {
      WindowCounts(Paths(base), run, format(cfg.initDate), format(cfg.endDate), QuotedList(LevelTokens(cfg.available)),
        level, showChart)
    }

    /** getNEventsPerDate(datePattern, dbDir, level): the chart rows only. */
    method GetNEventsPerDate(base: string, format: int -> string, run: (string, string) -> seq<DateCount>,
                             level: Option<Level>) returns (r: Result<map<string, nat>>)
      requires Windowed() ==> Enumerable()
      ensures !Windowed() ==> r.Err?
      ensures Windowed() ==> r == Ok(PerDate(base, format, run, level, true))
    {
      r := GetNEventsPerDateCharted(base, format, run, level, true);
    }

    /**
     * getNEventsPerDate(datePattern, dbDir, level, showDataChart): each
     * partition's (count, date) rows, put into the result by date.
     */
    method GetNEventsPerDateCharted(base: string, format: int -> string, run: (string, string) -> seq<DateCount>,
                                    level: Option<Level>, showDataChart: bool) returns (r: Result<map<string, nat>>)
      requires Windowed() ==> Enumerable()
      ensures !Windowed() ==> r.Err?
      ensures Windowed() ==> r == Ok(PerDate(base, format, run, level, showDataChart))
    {
      if cfg.initCal.None? || cfg.endCal.None? {
        return Err("NullPointerException");
      }
      var paths := GetWindowFilepaths(base, division, cfg.initCal.value, cfg.endCal.value);
      var dataset := CountPartitions(paths, format, run, level, showDataChart);
      return Ok(dataset);
    }

    /** The loop of getNEventsPerDate over the partition files. */
    method CountPartitions(paths: seq<string>, format: int -> string, run: (string, string) -> seq<DateCount>,
                           level: Option<Level>, showChart: bool) returns (dataset: map<string, nat>)
      ensures dataset == WindowCounts(paths, run, format(cfg.initDate), format(cfg.endDate),
        QuotedList(LevelTokens(cfg.available)), level, showChart)
    {
      var n := |paths|;
      ghost var queries := PerDateQueries(n, format(cfg.initDate), format(cfg.endDate), level,
        QuotedList(LevelTokens(cfg.available)), showChart);
      dataset := map[];
      ghost var all: seq<DateCount> := [];
      var cont := 0;
      while cont < n
        invariant 0 <= cont <= n
        invariant all == Fetch(run, paths, queries, cont)
        invariant dataset == Merged(all)
      {
        dataset, all := CountPartition(paths, cont, format, run, level, showChart, dataset, all, queries);
        cont := cont + 1;
      }
    }

    /** One pass of that loop: partition `cont` queried and its rows put into the dataset. */
    method CountPartition(paths: seq<string>, cont: nat, format: int -> string, run: (string, string) -> seq<DateCount>,
                          level: Option<Level>, showChart: bool, dataset: map<string, nat>,
                          ghost all: seq<DateCount>, ghost queries: seq<string>)
      returns (dataset': map<string, nat>, ghost all': seq<DateCount>)
      requires cont < |paths|
      requires queries == PerDateQueries(|paths|, format(cfg.initDate), format(cfg.endDate), level,
        QuotedList(LevelTokens(cfg.available)), showChart)
      requires all == Fetch(run, paths, queries, cont) && dataset == Merged(all)
      ensures all' == Fetch(run, paths, queries, cont + 1) && dataset' == Merged(all')
    {
      var sqlQuery := BuildPerDateQuery(|paths|, cont, format, level, showChart);
      var rows := run(paths[cont], sqlQuery);
      dataset' := PutCounts(rows, dataset, all);
      FetchStep(run, paths, queries, cont, rows);
      all' := all + rows;
    }

    /** The query text getNEventsPerDate builds for partition `cont` of `n`. */
    method BuildPerDateQuery(n: nat, cont: nat, format: int -> string, level: Option<Level>, showChart: bool)
      returns (sqlQuery: string)
      ensures sqlQuery == PerDateQuery(n, cont, format(cfg.initDate), format(cfg.endDate), level,
        QuotedList(LevelTokens(cfg.available)), showChart)
    {
      sqlQuery := SelectEventsPerDate + DatePredicate("date", BoundFor(n, cont), format(cfg.initDate), format(cfg.endDate));
      if level.Some? {
        sqlQuery := AddCondition(sqlQuery, LevelIs(level.value));
      } else {
        var levels := cfg.SkipLogLevelsCommaSeparated();
        sqlQuery := AddCondition(sqlQuery, LevelsIn(levels));
      }
      if showChart {
        sqlQuery := AddCondition(sqlQuery, ChartOnly);
      }
      sqlQuery := sqlQuery + GroupByDate;
    }

    /** dataset.put(date, count) for each row of one partition, `read` being the rows before them. */
    static method PutCounts(rows: seq<DateCount>, dataset: map<string, nat>, ghost read: seq<DateCount>)
      returns (dataset': map<string, nat>)
      requires dataset == Merged(read)
      ensures dataset' == Merged(read + rows)
    {
      dataset' := dataset;
      SliceSnoc(read, rows, 0);
      for j := 0 to |rows|
        invariant dataset' == Merged(read + rows[..j])
      {
        MergedSnoc(read + rows[..j], rows[j]);
        SliceSnoc(read, rows, j + 1);
        dataset' := dataset'[rows[j].date := rows[j].count];
      }
      SliceSnoc(read, rows, |rows|);
    }

    /**
     * getNDiffEventsPerDate: for each level still shown, in order, its
     * per-date counts without the chart condition, kept under the level's
     * token when there are any. Without a window the first query throws.
     */
    method GetNDiffEventsPerDate(base: string, format: int -> string, run: (string, string) -> seq<DateCount>)
      returns (r: Result<map<string, map<string, nat>>>)
      requires Windowed() ==> Enumerable()
      ensures !Windowed() ==> (r.Err? <==> cfg.available != [])
      ensures r.Ok? ==> forall t :: t in r.value ==> FromToken(t).Some?
      ensures Windowed() ==> (r.Ok? &&
        forall l: Level :: Token(l) in r.value <==> l in cfg.available && PerDate(base, format, run, Some(l), false) != map[])
      ensures Windowed() ==> (r.Ok? &&
        forall l: Level :: Token(l) in r.value ==> r.value[Token(l)] == PerDate(base, format, run, Some(l), false))
    {
      ghost var per := map l | l in cfg.available && Windowed() :: PerDate(base, format, run, Some(l), false);
      r := CollectLevels(base, format, run, per);
    }

    /** The loop of getNDiffEventsPerDate, stated against the per-level counts it reads. */
    method CollectLevels(base: string, format: int -> string, run: (string, string) -> seq<DateCount>,
                         ghost per: map<Level, map<string, nat>>)
      returns (r: Result<map<string, map<string, nat>>>)
      requires Windowed() ==> Enumerable()
      requires Windowed() ==>
        forall l :: l in cfg.available ==> l in per && per[l] == PerDate(base, format, run, Some(l), false)
      ensures !Windowed() ==> (r.Err? <==> cfg.available != [])
      ensures r.Ok? ==> forall t :: t in r.value ==> FromToken(t).Some?
      ensures Windowed() ==> (r.Ok? && forall l: Level :: Token(l) in r.value <==> l in cfg.available && per[l] != map[])
      ensures Windowed() ==> (r.Ok? && forall l: Level :: Token(l) in r.value ==> l in per && r.value[Token(l)] == per[l])
    {
      var collection: map<string, map<string, nat>> := map[];
      var levels := cfg.available;
      for i := 0 to |levels|
        invariant !Windowed() ==> levels[..i] == [] && collection == map[]
        invariant forall t :: t in collection ==> FromToken(t).Some?
        invariant Windowed() ==> forall l: Level :: Token(l) in collection <==> l in levels[..i] && per[l] != map[]
        invariant Windowed() ==> forall l: Level :: Token(l) in collection ==> l in per && collection[Token(l)] == per[l]
      {
        var level := levels[i];
        assert levels[..i + 1] == levels[..i] + [level];
        var logs := LevelCounts(base, format, run, level, per);
        if logs.Err? {
          return Err(logs.error);
        }
        collection := KeepLevel(collection, level, logs.value, levels[..i], per);
      }
      assert levels[..|levels|] == levels;
      return Ok(collection);
    }

    /** The per-date counts of one level, without the chart condition. */
    method LevelCounts(base: string, format: int -> string, run: (string, string) -> seq<DateCount>, level: Level,
                       ghost per: map<Level, map<string, nat>>) returns (logs: Result<map<string, nat>>)
      requires Windowed() ==> Enumerable()
      requires Windowed() ==> level in per && per[level] == PerDate(base, format, run, Some(level), false)
      ensures !Windowed() ==> logs.Err?
      ensures Windowed() ==> logs == Ok(per[level])
    {
      logs := GetNEventsPerDateCharted(base, format, run, Some(level), false);
    }

    /** One level of getNDiffEventsPerDate: its counts kept under its token when there are any. */
    static method KeepLevel(collection: map<string, map<string, nat>>, level: Level, logs: map<string, nat>,
                            ghost done: seq<Level>, ghost per: map<Level, map<string, nat>>)
      returns (collection': map<string, map<string, nat>>)
      requires level in per && logs == per[level] && forall l :: l in done ==> l in per
      requires forall t :: t in collection ==> FromToken(t).Some?
      requires forall l: Level :: Token(l) in collection <==> l in done && per[l] != map[]
      requires forall l: Level :: Token(l) in collection ==> l in per && collection[Token(l)] == per[l]
      ensures forall t :: t in collection' ==> FromToken(t).Some?
      ensures forall l: Level :: Token(l) in collection' <==> l in done + [level] && per[l] != map[]
      ensures forall l: Level :: Token(l) in collection' ==> l in per && collection'[Token(l)] == per[l]
    {
      forall l: Level ensures Token(l) == Token(level) <==> l == level {
        TokensDistinct(l, level);
      }
      TokenRoundTrip(level, Token(level));
      collection' := collection;
      if |logs| != 0 {
        collection' := collection[Token(level) := logs];
      } else {
        assert logs == map[];
      }
    }

    /** getTotalEventNumbers: per level, the sum of its per-date counts, as in the file-based service. */
    static method GetTotalEventNumbers(dataset: map<string, map<string, nat>>) returns (output: map<string, nat>)
      ensures output.Keys == dataset.Keys
      ensures forall l :: l in output ==> output[l] == StatisticsService.Total(dataset[l])
    {
      output := StatisticsService.Statistics.GetTotalEventNumbers(dataset);
    }

    /** Every (count, date, level, event) row the partitions' table queries return, in order. */
    function TableRows(base: string, format: int -> string, run: (string, string) -> seq<GroupRow>,
                       filter: Option<string>): (rows: seq<GroupRow>)
      reads this`division, cfg
      requires Enumerable()
    {
      WindowRows(Paths(base), run, format(cfg.initDate), format(cfg.endDate), QuotedList(LevelTokens(cfg.available)), filter)
    }

    /**
     * getAppEventsTableData: every partition's grouped rows filed by
     * date_level_event, their levels and events recorded; the levels and
     * events become the object's own. The level argument is not used.
     */
    method GetAppEventsTableData(base: string, format: int -> string, run: (string, string) -> seq<GroupRow>,
                                 level: Option<Level>, eventFilter: Option<string>) returns (r: Result<EventTable>)
      requires Windowed() ==> Enumerable()
      modifies this
      ensures division == old(division)
      ensures !Windowed() ==> r.Err? && unchanged(this)
      ensures Windowed() ==> r == Ok(Tabulated(TableRows(base, format, run, eventFilter)))
      ensures Windowed() ==> appEvents == r.value.appEvents && logLevels == r.value.logLevels
    {
      if cfg.initCal.None? || cfg.endCal.None? {
        return Err("NullPointerException");
      }
      var paths := GetWindowFilepaths(base, division, cfg.initCal.value, cfg.endCal.value);
      var table := TabulatePartitions(paths, format, run, eventFilter);
      appEvents := table.appEvents;
      logLevels := table.logLevels;
      return Ok(table);
    }

    /** The loop of getAppEventsTableData over the partition files. */
    method TabulatePartitions(paths: seq<string>, format: int -> string, run: (string, string) -> seq<GroupRow>,
                              filter: Option<string>) returns (table: EventTable)
      ensures table == Tabulated(WindowRows(paths, run, format(cfg.initDate), format(cfg.endDate),
        QuotedList(LevelTokens(cfg.available)), filter))
    {
      var n := |paths|;
      ghost var queries := AppEventsQueries(n, format(cfg.initDate), format(cfg.endDate),
        QuotedList(LevelTokens(cfg.available)), filter);
      table := EventTable([], {}, []);
      ghost var all: seq<GroupRow> := [];
      var cont := 0;
      while cont < n
        invariant 0 <= cont <= n
        invariant all == Fetch(run, paths, queries, cont)
        invariant table == Tabulated(all)
      {
        table, all := TabulatePartition(paths, cont, format, run, filter, table, all, queries);
        cont := cont + 1;
      }
    }

    /** One pass of that loop: partition `cont` queried and its rows filed into the table. */
    method TabulatePartition(paths: seq<string>, cont: nat, format: int -> string, run: (string, string) -> seq<GroupRow>,
                             filter: Option<string>, table: EventTable,
                             ghost all: seq<GroupRow>, ghost queries: seq<string>)
      returns (table': EventTable, ghost all': seq<GroupRow>)
      requires cont < |paths|
      requires queries == AppEventsQueries(|paths|, format(cfg.initDate), format(cfg.endDate),
        QuotedList(LevelTokens(cfg.available)), filter)
      requires all == Fetch(run, paths, queries, cont) && table == Tabulated(all)
      ensures all' == Fetch(run, paths, queries, cont + 1) && table' == Tabulated(all')
    {
      var sqlQuery := BuildAppEventsQuery(|paths|, cont, format, filter);
      var rows := run(paths[cont], sqlQuery);
      table' := FileRows(rows, table, all);
      FetchStep(run, paths, queries, cont, rows);
      all' := all + rows;
    }

    /** The query text getAppEventsTableData builds for partition `cont` of `n`. */
    method BuildAppEventsQuery(n: nat, cont: nat, format: int -> string, filter: Option<string>)
      returns (sqlQuery: string)
      ensures sqlQuery == AppEventsQuery(n, cont, format(cfg.initDate), format(cfg.endDate),
        QuotedList(LevelTokens(cfg.available)), filter)
    {
      sqlQuery := SelectAppEvents + DatePredicate("date", BoundFor(n, cont), format(cfg.initDate), format(cfg.endDate));
      var levels := cfg.SkipLogLevelsCommaSeparated();
      sqlQuery := AddCondition(sqlQuery, LevelsIn(levels));
      if filter.Some? {
        sqlQuery := AddCondition(sqlQuery, EventsIn(filter.value));
      }
      sqlQuery := AddCondition(sqlQuery, ChartOnly);
      sqlQuery := sqlQuery + GroupByEvent;
    }

    /** What getAppEventsTableData does with the rows of one partition, `read` being the rows before them. */
    static method FileRows(rows: seq<GroupRow>, table: EventTable, ghost read: seq<GroupRow>) returns (table': EventTable)
      requires table == Tabulated(read)
      ensures table' == Tabulated(read + rows)
    {
      var eventCounter, levels, events := table.dataset, table.logLevels, table.appEvents;
      SliceSnoc(read, rows, 0);
      for j := 0 to |rows|
        invariant eventCounter == Grouped(read + rows[..j])
        invariant levels == LevelsOf(read + rows[..j])
        invariant events == Observed(EventsOf(read + rows[..j]))
      {
        eventCounter, levels, events := FileRow(rows[j], eventCounter, levels, events, read + rows[..j]);
        SliceSnoc(read, rows, j + 1);
      }
      SliceSnoc(read, rows, |rows|);
      table' := EventTable(eventCounter, levels, events);
    }

    /** One result row: filed under its key, its event and level recorded. */
    static method FileRow(row: GroupRow, eventCounter: seq<Slot>, levels: set<string>, events: Entries,
                          ghost read: seq<GroupRow>)
      returns (eventCounter': seq<Slot>, levels': set<string>, events': Entries)
      requires eventCounter == Grouped(read) && levels == LevelsOf(read) && events == Observed(EventsOf(read))
      ensures eventCounter' == Grouped(read + [row]) && levels' == LevelsOf(read + [row])
      ensures events' == Observed(EventsOf(read + [row]))
    {
      GroupedSnoc(read, row);
      eventCounter' := LinkedPut(eventCounter, RowKey(row), row);
      events' := AddAppEvent(Entry(row.event, row.event), events);
      levels' := levels;
      if row.level !in levels {
        levels' := levels + {row.level};
      }
    }
  }
}
