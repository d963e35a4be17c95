/**
 * The ingestion tool: log events are read in batches from the log files
 * (newest first) or over HTTP (oldest first), and each row is inserted into
 * the SQLite partition file of its date, `<dbPath>__<period>_<year>`. The
 * databases are modelled by the statements they accept, in order; whether
 * SQLite accepts a statement, whether a file exists, the batches the table
 * service returns, date parsing and calendar fields are inputs.
 */
module Sqlite4JavaTool {
  import opened Wrappers
  import opened Strings
  import opened SortedMap
  import opened SuperService
  import opened SuperSQLService
  import opened StatisticsUtils

  /** The five statements the tool prepares. */
  datatype Sql = CreateTable | CreateVirtualTable | InsertLogEvents | InsertText | SelectLogEvents

  const CreateTableText: string :=
    "CREATE TABLE logevents(id INTEGER PRIMARY KEY, date DATE NOT NULL, "
    + "datetime TIMESTAMP NOT NULL, level VARCHAR(10) NOT NULL, event VARCHAR(100), log VARCHAR(250), "
    + "source VARCHAR(50), chart CHAR(1))"
  const CreateVirtualTableText: string := "CREATE VIRTUAL TABLE logtext using fts4(text)"
  const InsertLogEventsText: string := "INSERT INTO logevents(DATE,DATETIME,LEVEL,EVENT,LOG,SOURCE,CHART) VALUES(?,?,?,?,?,?,?)"
  const InsertTextText: string := "INSERT INTO logtext(TEXT) VALUES(?)"
  const SelectLogEventsText: string := "SELECT id FROM logevents WHERE datetime=?"

  /** CREATE_TABLE, CREATE_VIRTUAL_TABLE, INSERT_LOG_EVENTS, INSERT_TEXT, SELECT_LOG_EVENTS */
  function SqlText(q: Sql): (text: string)
  {
    match q
    case CreateTable => CreateTableText
    case CreateVirtualTable => CreateVirtualTableText
    case InsertLogEvents => InsertLogEventsText
    case InsertText => InsertTextText
    case SelectLogEvents => SelectLogEventsText
  }

  /** The five statements are different texts, so a statement is known by its text. */
  lemma SqlTextsDiffer(a: Sql, b: Sql)
    ensures SqlText(a) == SqlText(b) <==> a == b
  {
    assert |CreateTableText| == 196 && |CreateVirtualTableText| == 45 && |InsertLogEventsText| == 87;
    assert |InsertTextText| == 35 && |SelectLogEventsText| == 41;
  }

  /** MAX_NUMBER_DATES: the longest window the table service accepts, in days. */
  const MaxNumberDates: int := 366
  /** MAX_NUMBER_EVENTS: the `end` row index each batch asks the table service for. */
  const MaxNumberEvents: int := 500
  const DateFormat: string := "dd-MM-yyyy"

  /* ---------------------------------------------------------------- main */

  /** What main does with its arguments. */
  datatype Launch = Usage | BadDate | Dump(from: int, to: int, division: TimeDivision)

  /**
   * main: fewer than two arguments print the usage and exit; the two dates are
   * parsed with `dd-MM-yyyy` (a parse failure is caught and printed); the
   * division is WEEK only when a third argument is exactly "WEEK".
   */
  function Launched(args: seq<string>, parse: string -> Option<int>): (r: Launch)
  {
    if |args| < 2 then Usage
    else if parse(args[0]).None? || parse(args[1]).None? then BadDate
    else
      var division := if |args| >= 3 && args[2] == "WEEK" then WEEK else MONTH;
      Dump(parse(args[0]).value, parse(args[1]).value, division)
  }

  lemma LaunchedSpec(args: seq<string>, parse: string -> Option<int>)
    ensures Launched(args, parse).Usage? <==> |args| < 2
    ensures Launched(args, parse).Dump? <==> |args| >= 2 && parse(args[0]).Some? && parse(args[1]).Some?
    ensures Launched(args, parse).Dump? ==>
      (Launched(args, parse).division == WEEK <==> |args| >= 3 && args[2] == "WEEK")
  {
  }

  /** The values of the TimeDivision enum, in declaration order. */
  const Divisions: seq<TimeDivision> := [MONTH, WEEK]

  /**
   * A division name offered by getTimeDivisions, given to main as the third
   * argument, selects that division; any other third argument gives MONTH.
   */
  lemma {:induction false} LaunchedNamesRoundTrip(from: string, to: string, third: string, parse: string -> Option<int>)
    requires parse(from).Some? && parse(to).Some?
    ensures forall d :: d in Divisions && third == DivisionName(d) ==> Launched([from, to, third], parse).division == d
    ensures (forall d :: d in Divisions ==> third != DivisionName(d)) ==> Launched([from, to, third], parse).division == MONTH
  {
    assert [from, to, third][2] == third;
    assert DivisionName(WEEK) == "WEEK";
    DivisionNamesDiffer(MONTH, WEEK);
  }

  /* ------------------------------------------------------------ the rows */

  /** One row of the table service's result: its "date", "level" and "text" values. */
  datatype EventRow = EventRow(date: string, level: string, text: string)

  /** A statement a database file accepted: its file, its SQL text and the values bound to it. */
  datatype Statement = Statement(file: string, sql: Sql, params: map<int, string>)

  /** The probe of areTablesInDB; it binds nothing. */
  function Probe(file: string): (s: Statement)
    ensures s.file == file && s.sql == SelectLogEvents && s.params == map[]
  {
    Statement(file, SelectLogEvents, map[])
  }

  /** `datetime.split(" ")[0]`: the text before the first space; a blank datetime throws. */
  function DayOf(datetime: string): (r: Result<string>)
  {
    var parts := Split(datetime, ' ');
    if parts == [] then Err("ArrayIndexOutOfBoundsException") else Ok(parts[0])
  }

  /** A datetime `day time` gives its day. */
  lemma DayBeforeSpace(day: string, time: string)
    requires day != [] && ' ' !in day
    ensures DayOf(day + " " + time) == Ok(day)
  {
    var s := day + " " + time;
    assert s[|day|] == ' ';
    assert s == day + (" " + time);
    FieldsAppend(day, " " + time, ' ');
    assert (" " + time)[0] == ' ' && (" " + time)[1..] == time;
    assert Fields(" " + time, ' ')[0] == [];
    var f := Fields(s, ' ');
    assert f[0] == day + [];
    var r := DropTrailingEmpty(f);
    assert f[0] != [];
    assert r != [];
    assert r[0] == f[0] && day + [] == day;
    assert ' ' in s && Split(s, ' ') == r;
  }

  /** A datetime of spaces only leaves no field: the row is not inserted. */
  lemma BlankDayThrows()
    ensures DayOf(" ").Err?
  {
    assert Fields(" ", ' ') == [[], []];
  }

  /* ------------------------------------------------------- insert values */

  /**
   * The values insertData binds, AS WRITTEN: a chart event puts "1" under
   * parameter 7; any other event overwrites parameter 6 (SOURCE) with "0" and
   * leaves parameter 7 (CHART) unbound.
   */
  function InsertParams(day: string, row: EventRow, name: string, chart: bool): (params: map<int, string>)
  {
    var p := map[1 := day, 2 := row.date, 3 := row.level, 4 := name, 5 := row.text, 6 := ""];
    if chart then p[7 := "1"] else p[6 := "0"]
  }

  /** What the code as written binds: for a non-chart event SOURCE is "0" and CHART is left unbound. */
  lemma ChartFlagAsWritten(day: string, row: EventRow, name: string, chart: bool)
    ensures var p := InsertParams(day, row, name, chart);
      p[1] == day && p[2] == row.date && p[3] == row.level && p[4] == name && p[5] == row.text
    ensures chart ==> InsertParams(day, row, name, chart).Keys == {1, 2, 3, 4, 5, 6, 7}
    ensures chart ==> InsertParams(day, row, name, chart)[6] == "" && InsertParams(day, row, name, chart)[7] == "1"
    ensures !chart ==> InsertParams(day, row, name, chart).Keys == {1, 2, 3, 4, 5, 6}
    ensures !chart ==> InsertParams(day, row, name, chart)[6] == "0"
  {
  }

  /**
   * The values of one row, or the exception insertData catches: a blank
   * datetime, or a line no application event matches (getAppEvent returns
   * null and `appEvent.get("name")` throws).
   */
  function RowParams(row: EventRow, events: Entries, charts: Entries): (r: Result<map<int, string>>)
  {
    match DayOf(row.date)
    case Err(e) => Err(e)
    case Ok(day) =>
      match MatchAppEvent(events, row.text)
      case None => Err("NullPointerException")
      case Some(ev) => Ok(InsertParams(day, row, ev.name, MatchAppEvent(charts, row.text).Some?))
  }

  /** A row gets values exactly when its datetime has a day and an application event matches its line. */
  lemma RowParamsSpec(row: EventRow, events: Entries, charts: Entries)
    ensures RowParams(row, events, charts).Ok? <==> DayOf(row.date).Ok? && MatchAppEvent(events, row.text).Some?
    ensures RowParams(row, events, charts).Ok? ==>
      var chart := exists i :: 0 <= i < |charts| && Contains(Lower(row.text), Lower(charts[i].value));
      RowParams(row, events, charts).value ==
        InsertParams(DayOf(row.date).value, row, MatchAppEvent(events, row.text).value.name, chart)
  {
    var m := MatchAppEvent(charts, row.text);
    if m.Some? {
      var i :| 0 <= i < |charts| && charts[i] == m.value && Contains(Lower(row.text), Lower(charts[i].value)) &&
        forall j :: 0 <= j < i ==> !Contains(Lower(row.text), Lower(charts[j].value));
    }
  }

  /* --------------------------------------------------- database effects */

  /** The state the tool changes: insertedRows, the cancel flag and the statements the databases accepted. */
  datatype Effects = Effects(insertedRows: int, cancel: bool, executed: seq<Statement>)

  /** Prepare, bind and step one statement: kept when the database accepts it. */
  function Exec(e: Effects, s: Statement, accepts: Statement -> bool): (r: (Effects, bool))
  {
    if accepts(s) then (e.(executed := e.executed + [s]), true) else (e, false)
  }

  /** createTables: the counter restarts at 0, then both tables; false where SQLiteException is thrown. */
  function Created(e: Effects, conn: string, accepts: Statement -> bool): (r: (Effects, bool))
  {
    var (e1, ok) := Exec(e.(insertedRows := 0), Statement(conn, CreateTable, map[]), accepts);
    if !ok then (e1, false) else Exec(e1, Statement(conn, CreateVirtualTable, map[]), accepts)
  }

  /**
   * insertData on the connection to `conn`: the tables first when asked, then
   * the event row and its text; insertedRows counts the row only when both
   * inserts went through. Every exception is caught and ends the row.
   */
  function Inserted(e: Effects, conn: string, row: EventRow, create: bool, events: Entries, charts: Entries,
                    accepts: Statement -> bool): (r: Effects)
  {
    var (e1, ok1) := if create then Created(e, conn, accepts) else (e, true);
    if ok1 then RowInserted(e1, conn, row, events, charts, accepts) else e1
  }

  /** The part of insertData after the tables: the row's values, or the exception that ends it. */
  function RowInserted(e: Effects, conn: string, row: EventRow, events: Entries, charts: Entries,
                       accepts: Statement -> bool): (r: Effects)
  {
    match RowParams(row, events, charts)
    case Err(_) => e
    case Ok(params) => Stepped(e, conn, params, row.text, accepts)
  }

  /** The event row, then its text, then the count. */
  function Stepped(e: Effects, conn: string, params: map<int, string>, text: string,
                   accepts: Statement -> bool): (r: Effects)
  {
    var (e2, ok2) := Exec(e, Statement(conn, InsertLogEvents, params), accepts);
    if !ok2 then e2
    else
      var (e3, ok3) := Exec(e2, Statement(conn, InsertText, map[1 := text]), accepts);
      if ok3 then e3.(insertedRows := e3.insertedRows + 1) else e3
  }

  /** `r` keeps the statements of `e` and its cancel flag. */
  predicate Extends(e: Effects, r: Effects)
  {
    |e.executed| <= |r.executed| && r.executed[..|e.executed|] == e.executed && r.cancel == e.cancel
  }

  /** The statements accepted since `e`. */
  function Added(e: Effects, r: Effects): (s: seq<Statement>)
    requires |e.executed| <= |r.executed|
    ensures |s| == |r.executed| - |e.executed|
  {
    r.executed[|e.executed|..]
  }

  lemma ExtendsTrans(a: Effects, b: Effects, c: Effects)
    requires Extends(a, b) && Extends(b, c)
    ensures Extends(a, c) && Added(a, c) == Added(a, b) + Added(b, c)
  {
    assert c.executed[..|a.executed|] == c.executed[..|b.executed|][..|a.executed|];
  }

  /** One statement: appended exactly when accepted; nothing else changes. */
  lemma ExecSpec(e: Effects, s: Statement, accepts: Statement -> bool)
    ensures var (r, ok) := Exec(e, s, accepts);
      Extends(e, r) && Added(e, r) == (if accepts(s) then [s] else []) && ok == accepts(s) &&
      r.insertedRows == e.insertedRows
  {
    var (r, ok) := Exec(e, s, accepts);
    assert r.executed[..|e.executed|] == e.executed;
  }

  /** Every statement is on `conn` and was accepted. */
  predicate OnConn(ss: seq<Statement>, conn: string, accepts: Statement -> bool)
  {
    forall i :: 0 <= i < |ss| ==> ss[i].file == conn && accepts(ss[i])
  }

  /** Every event-row insert binds `params`. */
  predicate InsertsWith(ss: seq<Statement>, params: Result<map<int, string>>)
  {
    forall i :: 0 <= i < |ss| && ss[i].sql == InsertLogEvents ==> params == Ok(ss[i].params)
  }

  /** No statement creates the event table. */
  predicate NoCreates(ss: seq<Statement>)
  {
    forall i :: 0 <= i < |ss| ==> ss[i].sql != CreateTable
  }

  /** Only CREATE statements. */
  predicate CreatesOnly(ss: seq<Statement>)
  {
    forall i :: 0 <= i < |ss| ==> ss[i].sql == CreateTable || ss[i].sql == CreateVirtualTable
  }

  lemma StatementsAppend(a: seq<Statement>, b: seq<Statement>, conn: string, accepts: Statement -> bool,
                         params: Result<map<int, string>>)
    ensures OnConn(a, conn, accepts) && OnConn(b, conn, accepts) ==> OnConn(a + b, conn, accepts)
    ensures InsertsWith(a, params) && InsertsWith(b, params) ==> InsertsWith(a + b, params)
    ensures NoCreates(a) && NoCreates(b) ==> NoCreates(a + b)
  {
  }

  /** createTables adds at most the two CREATE statements, on its connection, and restarts the counter. */
  lemma CreatedSpec(e: Effects, conn: string, accepts: Statement -> bool)
    ensures var (r, ok) := Created(e, conn, accepts);
      Extends(e, r) && r.insertedRows == 0 && OnConn(Added(e, r), conn, accepts) && CreatesOnly(Added(e, r))
  {
    var e0 := e.(insertedRows := 0);
    var s1 := Statement(conn, CreateTable, map[]);
    ExecSpec(e0, s1, accepts);
    var (e1, ok) := Exec(e0, s1, accepts);
    assert Added(e, e1) == Added(e0, e1);
    if ok {
      var s2 := Statement(conn, CreateVirtualTable, map[]);
      ExecSpec(e1, s2, accepts);
      ExtendsTrans(e, e1, Exec(e1, s2, accepts).0);
    }
  }

  /** The last statement accepted since `e` is a text insert. */
  predicate Counted(e: Effects, r: Effects)
    requires |e.executed| <= |r.executed|
  {
    |r.executed| > |e.executed| && r.executed[|r.executed| - 1].sql == InsertText
  }

  /** The two inserts of one row: on the connection, with its values, counted when the text went in. */
  lemma SteppedSpec(e: Effects, conn: string, params: map<int, string>, text: string, accepts: Statement -> bool)
    ensures var r := Stepped(e, conn, params, text, accepts);
      Extends(e, r) && OnConn(Added(e, r), conn, accepts) && NoCreates(Added(e, r)) &&
      InsertsWith(Added(e, r), Ok(params)) &&
      r.insertedRows == e.insertedRows + (if Counted(e, r) then 1 else 0)
  {
    var s2 := Statement(conn, InsertLogEvents, params);
    var s3 := Statement(conn, InsertText, map[1 := text]);
    ExecSpec(e, s2, accepts);
    var (e2, ok2) := Exec(e, s2, accepts);
    if ok2 {
      ExecSpec(e2, s3, accepts);
      var (e3, ok3) := Exec(e2, s3, accepts);
      ExtendsTrans(e, e2, e3);
      if ok3 {
        assert Added(e, e3) == [s2, s3];
      }
    }
  }

  /** The inserts of one row: none when it has no values, else the two of Stepped. */
  lemma RowInsertedSpec(e: Effects, conn: string, row: EventRow, events: Entries, charts: Entries,
                        accepts: Statement -> bool)
    ensures var r := RowInserted(e, conn, row, events, charts, accepts);
      Extends(e, r) && OnConn(Added(e, r), conn, accepts) && NoCreates(Added(e, r)) &&
      InsertsWith(Added(e, r), RowParams(row, events, charts)) &&
      r.insertedRows == e.insertedRows + (if Counted(e, r) then 1 else 0)
  {
    if RowParams(row, events, charts).Ok? {
      SteppedSpec(e, conn, RowParams(row, events, charts).value, row.text, accepts);
    } else {
      assert e.executed[..|e.executed|] == e.executed;
    }
  }

  /**
   * insertData only adds statements, all on its connection; the tables are
   * created only when asked; an event row is inserted only with the values of
   * a row that has them; the counter restarts at 0 with new tables and goes
   * up by one exactly when the row's text insert went through; the cancel
   * flag is not touched.
   */
  lemma InsertedSpec(e: Effects, conn: string, row: EventRow, create: bool, events: Entries, charts: Entries,
                     accepts: Statement -> bool)
    ensures var r := Inserted(e, conn, row, create, events, charts, accepts);
      Extends(e, r) && OnConn(Added(e, r), conn, accepts) && (!create ==> NoCreates(Added(e, r))) &&
      InsertsWith(Added(e, r), RowParams(row, events, charts)) &&
      r.insertedRows == (if create then 0 else e.insertedRows) + (if Counted(e, r) then 1 else 0)
  {
    var params := RowParams(row, events, charts);
    if create {
      CreatedSpec(e, conn, accepts);
      var (e1, ok1) := Created(e, conn, accepts);
      assert InsertsWith(Added(e, e1), params);
      if ok1 {
        var r := RowInserted(e1, conn, row, events, charts, accepts);
        RowInsertedSpec(e1, conn, row, events, charts, accepts);
        ExtendsTrans(e, e1, r);
        StatementsAppend(Added(e, e1), Added(e1, r), conn, accepts, params);
        if |Added(e1, r)| == 0 {
          assert r.executed == e1.executed;
          assert Counted(e, r) ==> Added(e, e1)[|Added(e, e1)| - 1].sql == InsertText;
        }
      }
    } else {
      RowInsertedSpec(e, conn, row, events, charts, accepts);
    }
  }

  /* ---------------------------------------------------------- partitions */

  /** The partition file of a row whose date has calendar fields `cal` (lines 240-251). */
  function RowFile(dbPath: string, division: TimeDivision, cal: Calendar): (file: string)
  {
    PartitionPath(dbPath, Period(division, cal), cal.year)
  }

  /**
   * The file a row is written to is one the query side visits: a row whose
   * period lies between the window's first and last period is among the
   * partitions the SQL services enumerate.
   */
  lemma RowFileQueried(dbPath: string, division: TimeDivision, cal: Calendar, initCal: Calendar, endCal: Calendar)
    requires ValidPeriod(division, Period(division, initCal)) && ValidPeriod(division, Period(division, cal))
    requires Ordinal(division, Period(division, initCal), initCal.year) <= Ordinal(division, Period(division, cal), cal.year)
      <= Ordinal(division, Period(division, endCal), endCal.year)
    ensures RowFile(dbPath, division, cal) in
      WindowPartitions(dbPath, division, Period(division, initCal), initCal.year, Period(division, endCal), endCal.year)
  {
    WindowPartitionsCover(dbPath, division, Period(division, initCal), initCal.year, Period(division, endCal),
                          endCal.year, Period(division, cal), cal.year);
  }

  /**
   * The connection for a row's file: the previous one when the paths are
   * equal ignoring case, else a new one, whose tables are created when the
   * file does not exist or the probe SELECT fails.
   */
  function Connect(prev: string, file: string, present: string -> bool, accepts: Statement -> bool): (r: (string, bool))
  {
    if EqualsIgnoreCase(file, prev) then (prev, false)
    else (file, !present(file) || !accepts(Probe(file)))
  }

  /**
   * The connection always names the row's file up to case; tables are only
   * created on a connection just opened, and then exactly when the file is
   * missing or has no tables.
   */
  lemma ConnectSpec(prev: string, file: string, present: string -> bool, accepts: Statement -> bool)
    ensures Lower(Connect(prev, file, present, accepts).0) == Lower(file)
    ensures Connect(prev, file, present, accepts).1 <==>
      !EqualsIgnoreCase(file, prev) && (!present(file) || !accepts(Probe(file)))
    ensures EqualsIgnoreCase(file, prev) <==> Connect(prev, file, present, accepts).0 == prev && Lower(prev) == Lower(file)
  {
  }

  /** Partition paths are never empty, so the first row always opens a connection (prevFilepath starts as ""). */
  lemma FirstRowOpens(dbPath: string, division: TimeDivision, cal: Calendar, present: string -> bool,
                      accepts: Statement -> bool)
    ensures Connect("", RowFile(dbPath, division, cal), present, accepts).0 == RowFile(dbPath, division, cal)
  {
    var file := RowFile(dbPath, division, cal);
    PartitionPathShape(dbPath, Period(division, cal), cal.year);
    assert |Lower(file)| >= 2;
  }

  /* -------------------------------------------------------- the dump loop */

  /**
   * Everything the dump loop reads from outside: the window, the division and
   * base path, the application events of the tool, a batch of the table
   * service for a window, the date parser, calendar fields of a date, whether
   * a file exists, whether SQLite accepts a statement, and the row check at
   * which another thread's setCancel(true) is first seen (None: never).
   */
  datatype Source = Source(from: int, to: int, forward: bool, division: TimeDivision, dbPath: string,
                           events: Entries, charts: Entries,
                           fetch: (int, int) -> seq<EventRow>, parse: string -> Option<int>,
                           fields: int -> Calendar, present: string -> bool, accepts: Statement -> bool,
                           cancelAt: Option<nat>)

  /** The row loop's state: effects, prevFilepath (the open connection), row checks so far, and whether a date failed to parse. */
  datatype Pass = Pass(effects: Effects, file: string, checks: nat, failed: bool)

  /**
   * One row of the for loop: the cancel check (stop), the date parse (a
   * ParseException ends the whole dump), then the insert. The flag says
   * whether the loop stops here.
   */
  function RowStep(p: Pass, row: EventRow, src: Source): (r: (Pass, bool))
  {
    var cancel := p.effects.cancel || src.cancelAt == Some(p.checks);
    var q := p.(effects := p.effects.(cancel := cancel), checks := p.checks + 1);
    if cancel then (q, true)
    else match src.parse(row.date)
      case None => (q.(failed := true), true)
      case Some(t) => (RowWritten(q, row, src.fields(t), src), false)
  }

  /** A row dated in `cal`: the partition, the connection, the insert. */
  function RowWritten(q: Pass, row: EventRow, cal: Calendar, src: Source): (r: Pass)
  {
    var (conn, create) := Connect(q.file, RowFile(src.dbPath, src.division, cal), src.present, src.accepts);
    q.(effects := Inserted(q.effects, conn, row, create, src.events, src.charts, src.accepts), file := conn)
  }

  /** The for loop over a batch. */
  function Rows(p: Pass, rows: seq<EventRow>, src: Source): (r: Pass)
    decreases |rows|, 1
  {
    if rows == [] then p else RowsFrom(p, rows, src)
  }

  /** The for loop at its first row: that row, then the rest unless it stopped. */
  function RowsFrom(p: Pass, rows: seq<EventRow>, src: Source): (r: Pass)
    requires rows != []
    decreases |rows|, 0
  {
    var (q, stop) := RowStep(p, rows[0], src);
    if stop then q else Rows(q, rows[1..], src)
  }

  /** One iteration of the for loop. */
  lemma RowsUnfold(p: Pass, rows: seq<EventRow>, src: Source)
    requires rows != []
    ensures RowStep(p, rows[0], src).1 ==> Rows(p, rows, src) == RowStep(p, rows[0], src).0
    ensures !RowStep(p, rows[0], src).1 ==> Rows(p, rows, src) == Rows(RowStep(p, rows[0], src).0, rows[1..], src)
  {
    assert Rows(p, rows, src) == RowsFrom(p, rows, src);
  }

  /** `b` keeps the statements of `a`. */
  predicate Grows(a: seq<Statement>, b: seq<Statement>)
  {
    |a| <= |b| && b[..|a|] == a
  }

  /** Every statement goes to a file equal, ignoring case, to one of `files`. */
  predicate OnFiles(ss: seq<Statement>, files: set<string>)
  {
    forall i :: 0 <= i < |ss| ==> Lower(ss[i].file) in files
  }

  /** The partitions, lower-cased, of the rows whose dates parse. */
  function RowFiles(rows: seq<EventRow>, src: Source): (files: set<string>)
    decreases |rows|
  {
    if rows == [] then {}
    else
      var here := match src.parse(rows[0].date)
        case None => {}
        case Some(t) => {Lower(RowFile(src.dbPath, src.division, src.fields(t)))};
      here + RowFiles(rows[1..], src)
  }

  /** A written row adds statements only to its own partition and leaves the flags alone. */
  lemma RowWrittenSpec(q: Pass, row: EventRow, cal: Calendar, src: Source)
    ensures var r := RowWritten(q, row, cal, src);
      Grows(q.effects.executed, r.effects.executed) && r.checks == q.checks && r.effects.cancel == q.effects.cancel &&
      OnFiles(r.effects.executed[|q.effects.executed|..], {Lower(RowFile(src.dbPath, src.division, cal))})
  {
    var file := RowFile(src.dbPath, src.division, cal);
    var (conn, create) := Connect(q.file, file, src.present, src.accepts);
    ConnectSpec(q.file, file, src.present, src.accepts);
    InsertedSpec(q.effects, conn, row, create, src.events, src.charts, src.accepts);
  }

  /** One row adds statements only to its own partition, and none once cancelled. */
  lemma RowStepSpec(p: Pass, row: EventRow, src: Source)
    ensures var (q, stop) := RowStep(p, row, src);
      Grows(p.effects.executed, q.effects.executed) && q.checks == p.checks + 1 &&
      OnFiles(q.effects.executed[|p.effects.executed|..], RowFiles([row], src)) &&
      (q.effects.cancel <==> p.effects.cancel || src.cancelAt == Some(p.checks)) &&
      (q.effects.cancel ==> stop && q.effects.executed == p.effects.executed)
  {
    var (q, stop) := RowStep(p, row, src);
    assert [row][1..] == [];
    var cancel := p.effects.cancel || src.cancelAt == Some(p.checks);
    if !cancel && src.parse(row.date).Some? {
      var cal := src.fields(src.parse(row.date).value);
      RowWrittenSpec(p.(effects := p.effects.(cancel := false), checks := p.checks + 1), row, cal, src);
      assert RowFiles([row], src) == {Lower(RowFile(src.dbPath, src.division, cal))};
    } else {
      assert q.effects.executed[..|p.effects.executed|] == p.effects.executed;
    }
  }

  /** One row counts one flag check, and a row that sees the flag set stops the loop. */
  lemma RowStepFlags(p: Pass, row: EventRow, src: Source)
    ensures RowStep(p, row, src).0.checks == p.checks + 1
    ensures RowStep(p, row, src).0.effects.cancel <==> p.effects.cancel || src.cancelAt == Some(p.checks)
    ensures RowStep(p, row, src).0.effects.cancel ==> RowStep(p, row, src).1
  {
    RowStepSpec(p, row, src);
  }

  lemma GrowsChain(a: seq<Statement>, b: seq<Statement>, c: seq<Statement>)
    requires Grows(a, b) && Grows(b, c)
    ensures Grows(a, c)
  {
    assert c[..|a|] == c[..|b|][..|a|];
  }

  lemma GrowsTrans(a: seq<Statement>, b: seq<Statement>, c: seq<Statement>, f: set<string>, g: set<string>)
    requires Grows(a, b) && Grows(b, c) && OnFiles(b[|a|..], f) && OnFiles(c[|b|..], g)
    ensures Grows(a, c) && OnFiles(c[|a|..], f + g)
  {
    assert c[..|a|] == c[..|b|][..|a|];
    assert c[|a|..] == b[|a|..] + c[|b|..];
  }

  /**
   * The for loop adds statements only to the partitions of its rows, none
   * once the flag is set, and checks the flag at least once per row it writes.
   */
  lemma {:induction false} RowsSpec(p: Pass, rows: seq<EventRow>, src: Source)
    ensures var r := Rows(p, rows, src);
      Grows(p.effects.executed, r.effects.executed) && p.checks <= r.checks <= p.checks + |rows| &&
      OnFiles(r.effects.executed[|p.effects.executed|..], RowFiles(rows, src)) &&
      (p.effects.cancel ==> r.effects.cancel && r.effects.executed == p.effects.executed)
    decreases |rows|
  {
    var r := Rows(p, rows, src);
    if rows == [] {
      assert r.effects.executed[..|p.effects.executed|] == p.effects.executed;
    } else {
      var (q, stop) := RowStep(p, rows[0], src);
      RowStepSpec(p, rows[0], src);
      RowsUnfold(p, rows, src);
      assert RowFiles(rows, src) == RowFiles([rows[0]], src) + RowFiles(rows[1..], src) by {
        assert [rows[0]][1..] == [];
      }
      if !stop {
        RowsSpec(q, rows[1..], src);
        GrowsTrans(p.effects.executed, q.effects.executed, r.effects.executed,
                   RowFiles([rows[0]], src), RowFiles(rows[1..], src));
      }
    }
  }

  /**
   * When another thread sets the flag at row check `k`, the loop makes no
   * check after it, and a loop that reached it ends with the flag set.
   */
  lemma {:induction false} RowsCancel(p: Pass, rows: seq<EventRow>, src: Source, k: nat)
    requires src.cancelAt == Some(k) && p.checks <= k
    ensures var r := Rows(p, rows, src);
      r.checks <= k + 1 && (r.checks == k + 1 ==> r.effects.cancel)
    decreases |rows|
  {
    if rows != [] {
      var step := RowStep(p, rows[0], src);
      RowStepFlags(p, rows[0], src);
      RowsUnfold(p, rows, src);
      if !step.1 {
        RowsCancel(step.0, rows[1..], src, k);
      }
    }
  }

  /** How a dump ends: no progress, a batch of fewer than two rows, the end of the window, cancellation, an exception. */
  datatype Exit = SameDate | FewRows | Reached | Cancelled | Failed | OutOfFuel

  /**
   * The do-while loop's state: the effects, prevFilepath, row checks so far,
   * the table service's window, prevNow (null at first) and now.
   */
  datatype Cursor = Cursor(effects: Effects, file: string, checks: nat, window: (int, int), prevNow: Option<int>, now: int)

  /** After one pass of the do-while loop: go on from a cursor, or stop. */
  datatype Outcome = Next(next: Cursor) | Stop(exit: Exit, last: Cursor)

  /**
   * The window each pass asks for: [from, now] reading the log files newest
   * first (dumpFilesToDB), [now, to] over HTTP oldest first (dumpFilesToDBbyHTTP).
   */
  function Window(src: Source, now: int): (w: (int, int))
    ensures src.forward ==> w.0 == now && w.1 == src.to
    ensures !src.forward ==> w.0 == src.from && w.1 == now
  {
    if src.forward then (now, src.to) else (src.from, now)
  }

  /** The while condition: from before now, or to after now over HTTP. */
  predicate Continues(src: Source, now: int)
  {
    if src.forward then now < src.to else src.from < now
  }

  /** setDatesInterval keeps the window it has unless the new one spans less than MAX_NUMBER_DATES days. */
  function NewWindow(w: (int, int), asked: (int, int)): (r: (int, int))
    ensures r == asked || r == w
    ensures r == asked <==> asked == w || asked.0 + MaxNumberDates * MillisPerDay > asked.1
  {
    if asked.0 + MaxNumberDates * MillisPerDay > asked.1 then asked else w
  }

  /** One pass of the do-while loop, with its three exits and the while condition. */
  function Batch(c: Cursor, src: Source): (r: Outcome)
  {
    if c.prevNow == Some(c.now) then Stop(SameDate, c)
    else Fetched(c.(window := NewWindow(c.window, Window(src, c.now))), src)
  }

  /** A pass once the table service has its window: the batch and its rows. */
  function Fetched(c: Cursor, src: Source): (r: Outcome)
  {
    var rows := src.fetch(c.window.0, c.window.1);
    if |rows| < 2 then Stop(FewRows, c)
    else
      var p := Rows(Pass(c.effects, c.file, c.checks, false), rows, src);
      var d := c.(effects := p.effects, file := p.file, checks := p.checks);
      if p.failed then Stop(Failed, d)
        else match src.parse(rows[|rows| - 1].date)
          case None => Stop(Failed, d.(prevNow := Some(c.now)))
          case Some(next) =>
            var d' := d.(prevNow := Some(c.now), now := next);
            if !Continues(src, next) then Stop(Reached, d')
            else if p.effects.cancel then Stop(Cancelled, d')
            else Next(d')
  }

  /** The do-while loop, for at most `fuel` passes. */
  function Batches(c: Cursor, src: Source, fuel: nat): (r: (Exit, Cursor))
    decreases fuel, 1
  {
    if fuel == 0 then (OutOfFuel, c) else BatchesFrom(c, src, fuel)
  }

  /** A pass with fuel left: its exit, or the rest of the loop from its cursor. */
  function BatchesFrom(c: Cursor, src: Source, fuel: nat): (r: (Exit, Cursor))
    requires fuel > 0
    decreases fuel, 0
  {
    var o := Batch(c, src);
    if o.Stop? then (o.exit, o.last) else Batches(o.next, src, fuel - 1)
  }

  /** The cursor a pass ends with, whether it goes on or stops. */
  function After(o: Outcome): (d: Cursor)
  {
    if o.Next? then o.next else o.last
  }

  /** One pass keeps the statements and its checks, and a pass that goes on has made progress to a new `now`. */
  lemma BatchSpec(c: Cursor, src: Source)
    ensures Grows(c.effects.executed, After(Batch(c, src)).effects.executed)
    ensures c.checks <= After(Batch(c, src)).checks
    ensures Batch(c, src).Next? ==> var d := Batch(c, src).next;
      d.prevNow == Some(c.now) && c.prevNow != Some(c.now) && Continues(src, d.now) && !d.effects.cancel
    ensures Batch(c, src).Stop? ==> Batch(c, src).exit != OutOfFuel
    ensures Batch(c, src) == Stop(SameDate, c) <==> c.prevNow == Some(c.now)
    ensures Batch(c, src).Stop? && Batch(c, src).exit == FewRows ==> var d := Batch(c, src).last;
      |src.fetch(d.window.0, d.window.1)| < 2 && d.effects == c.effects
    ensures Batch(c, src).Stop? && Batch(c, src).exit == Reached ==> !Continues(src, Batch(c, src).last.now)
    ensures Batch(c, src).Stop? && Batch(c, src).exit == Cancelled ==> Batch(c, src).last.effects.cancel
  {
    if c.prevNow != Some(c.now) {
      var w := NewWindow(c.window, Window(src, c.now));
      var rows := src.fetch(w.0, w.1);
      if |rows| >= 2 {
        RowsSpec(Pass(c.effects, c.file, c.checks, false), rows, src);
      } else {
        assert c.effects.executed[..|c.effects.executed|] == c.effects.executed;
      }
    } else {
      assert c.effects.executed[..|c.effects.executed|] == c.effects.executed;
    }
  }

  /** The loop keeps every statement and never takes back a row check. */
  lemma {:induction false} BatchesGrows(c: Cursor, src: Source, fuel: nat)
    ensures Grows(c.effects.executed, Batches(c, src, fuel).1.effects.executed)
    ensures c.checks <= Batches(c, src, fuel).1.checks
    decreases fuel
  {
    if fuel == 0 {
      assert c.effects.executed[..|c.effects.executed|] == c.effects.executed;
    } else {
      var o := Batch(c, src);
      BatchSpec(c, src);
      BatchesUnfold(c, src, fuel);
      if o.Next? {
        var d := o.next;
        BatchesGrows(d, src, fuel - 1);
        GrowsChain(c.effects.executed, d.effects.executed, Batches(d, src, fuel - 1).1.effects.executed);
      }
    }
  }

  /**
   * The loop stops on a repeated date, a short batch, the end of the window,
   * cancellation, an exception or the pass bound, and each exit's condition
   * holds of the final cursor.
   */
  lemma {:induction false} BatchesExits(c: Cursor, src: Source, fuel: nat)
    ensures var (x, d) := Batches(c, src, fuel);
      (x == SameDate ==> d.prevNow == Some(d.now)) &&
      (x == FewRows ==> |src.fetch(d.window.0, d.window.1)| < 2) &&
      (x == Reached ==> !Continues(src, d.now)) &&
      (x == Cancelled ==> d.effects.cancel)
    decreases fuel
  {
    if fuel > 0 {
      var o := Batch(c, src);
      BatchSpec(c, src);
      BatchesUnfold(c, src, fuel);
      if o.Next? {
        BatchesExits(o.next, src, fuel - 1);
      }
    }
  }

  /** With the flag already set, the next pass writes nothing and ends the loop. */
  lemma CancelledWritesNothing(c: Cursor, src: Source, fuel: nat)
    requires c.effects.cancel && fuel > 0
    ensures Batch(c, src).Stop?
    ensures Batches(c, src, fuel).1.effects.executed == c.effects.executed
    ensures Batches(c, src, fuel).1.effects.cancel
  {
    BatchesUnfold(c, src, fuel);
    if c.prevNow != Some(c.now) {
      var w := NewWindow(c.window, Window(src, c.now));
      var rows := src.fetch(w.0, w.1);
      if |rows| >= 2 {
        RowsSpec(Pass(c.effects, c.file, c.checks, false), rows, src);
      }
    }
  }

  /** One pass when the flag is set at row check `k`: no check after it, and a pass that reached it stops. */
  lemma BatchCancel(c: Cursor, src: Source, k: nat)
    requires src.cancelAt == Some(k) && c.checks <= k
    ensures After(Batch(c, src)).checks <= k + 1
    ensures After(Batch(c, src)).checks == k + 1 ==> After(Batch(c, src)).effects.cancel && Batch(c, src).Stop?
    ensures After(Batch(c, src)).checks == k + 1 ==>
      Batch(c, src).exit == Cancelled || Batch(c, src).exit == Reached || Batch(c, src).exit == Failed
  {
    if c.prevNow != Some(c.now) {
      var w := NewWindow(c.window, Window(src, c.now));
      var rows := src.fetch(w.0, w.1);
      if |rows| >= 2 {
        RowsCancel(Pass(c.effects, c.file, c.checks, false), rows, src, k);
      }
    }
  }

  /** When another thread sets the flag at row check `k`, the dump makes no row check after it. */
  lemma {:induction false} BatchesCancel(c: Cursor, src: Source, fuel: nat, k: nat)
    requires src.cancelAt == Some(k) && c.checks <= k
    ensures Batches(c, src, fuel).1.checks <= k + 1
    ensures Batches(c, src, fuel).1.checks == k + 1 ==> Batches(c, src, fuel).1.effects.cancel
    decreases fuel
  {
    if fuel > 0 {
      var o := Batch(c, src);
      BatchCancel(c, src, k);
      BatchesUnfold(c, src, fuel);
      if o.Next? {
        BatchesCancel(o.next, src, fuel - 1, k);
      }
    }
  }

  /** A dump that reached the row check at which the flag is set ends by cancellation, the window's end or an exception. */
  lemma {:induction false} CancelledDumpExit(c: Cursor, src: Source, fuel: nat, k: nat)
    requires src.cancelAt == Some(k) && c.checks <= k && Batches(c, src, fuel).1.checks == k + 1
    ensures var x := Batches(c, src, fuel).0; x == Cancelled || x == Reached || x == Failed
    decreases fuel
  {
    if fuel > 0 {
      var o := Batch(c, src);
      BatchCancel(c, src, k);
      BatchesUnfold(c, src, fuel);
      if o.Next? {
        CancelledDumpExit(o.next, src, fuel - 1, k);
      }
    }
  }

  /** One pass of the loop with fuel left: stop there, or go on from its cursor. */
  lemma BatchesUnfold(c: Cursor, src: Source, fuel: nat)
    requires fuel > 0
    ensures Batch(c, src).Stop? ==> Batches(c, src, fuel) == (Batch(c, src).exit, Batch(c, src).last)
    ensures Batch(c, src).Next? ==> Batches(c, src, fuel) == Batches(Batch(c, src).next, src, fuel - 1)
  {
    assert Batches(c, src, fuel) == BatchesFrom(c, src, fuel);
  }

  /** A pass whose last row carries the date it started from is followed by the no-progress exit. */
  lemma StalledBatchEnds(c: Cursor, src: Source, fuel: nat)
    requires Batch(c, src).Next? && Batch(c, src).next.now == c.now && fuel > 0
    ensures Batches(c, src, fuel + 1).0 == SameDate
  {
    BatchesUnfold(c, src, fuel + 1);
    BatchSpec(c, src);
    BatchesUnfold(Batch(c, src).next, src, fuel);
  }

  /* ------------------------------------------------------------ the tool */

  /**
   * The whole dump: both event lists are read from their configuration, then
   * the date pattern is taken from the log4j conversion pattern (None when
   * it is not configured); an exception in either ends the dump before any
   * row. Then the table service starts with its default window, and the loop
   * runs from `to` backwards, or from `from` forwards over HTTP.
   */
  function Dumped(e: Effects, src: Source, defaultDays: int, clock: int, eventsConfig: string, chartsConfig: string,
                  conversionPattern: Option<string>, fuel: nat): (r: (Exit, Effects))
  {
    var events := BuildAppEvents(Tokens(eventsConfig, ','), []);
    var charts := BuildAppEvents(Tokens(chartsConfig, ','), []);
    if !events.1 || !charts.1 || GetDatePattern(conversionPattern).Err? then (Failed, e)
    else
      var r := Batches(Start(e, src, defaultDays, clock), src.(events := events.0, charts := charts.0), fuel);
      (r.0, r.1.effects)
  }

  /** With both lists read, the dump is the loop from its first cursor. */
  lemma DumpedRuns(e: Effects, src: Source, defaultDays: int, clock: int, eventsConfig: string, chartsConfig: string,
                   conversionPattern: Option<string>, fuel: nat, events: Entries, charts: Entries)
    requires BuildAppEvents(Tokens(eventsConfig, ','), []) == (events, true)
    requires BuildAppEvents(Tokens(chartsConfig, ','), []) == (charts, true)
    requires GetDatePattern(conversionPattern).Ok?
    ensures var r := Batches(Start(e, src, defaultDays, clock), src.(events := events, charts := charts), fuel);
      Dumped(e, src, defaultDays, clock, eventsConfig, chartsConfig, conversionPattern, fuel) == (r.0, r.1.effects)
  {
  }

  /**
   * A conversion pattern with text before `%d{` that is longer than the date
   * pattern makes getDatePattern throw, so the dump ends before any row.
   */
  lemma LateOpeningStopsDump(e: Effects, src: Source, defaultDays: int, clock: int, eventsConfig: string,
                             chartsConfig: string, fuel: nat)
    ensures Dumped(e, src, defaultDays, clock, eventsConfig, chartsConfig, Some("%c - %d{HH}"), fuel) == (Failed, e)
  {
    LateOpeningThrows("%c - %d{HH}");
  }

  /** The cursor before the first pass: no connection, no check, the service's default window, prevNow null. */
  function Start(e: Effects, src: Source, defaultDays: int, clock: int): (c: Cursor)
  {
    var end := clock + MillisPerDay;
    Cursor(e, "", 0, (end - defaultDays * MillisPerDay, end), None, if src.forward then src.from else src.to)
  }

  /**
   * A dump keeps every statement the databases had, and one whose
   * configuration or date pattern throws touches nothing.
   */
  lemma DumpedSpec(e: Effects, src: Source, defaultDays: int, clock: int, eventsConfig: string, chartsConfig: string,
                   conversionPattern: Option<string>, fuel: nat)
    ensures Grows(e.executed, Dumped(e, src, defaultDays, clock, eventsConfig, chartsConfig, conversionPattern, fuel).1.executed)
    ensures !BuildAppEvents(Tokens(eventsConfig, ','), []).1 ==>
      Dumped(e, src, defaultDays, clock, eventsConfig, chartsConfig, conversionPattern, fuel) == (Failed, e)
    ensures GetDatePattern(conversionPattern).Err? ==>
      Dumped(e, src, defaultDays, clock, eventsConfig, chartsConfig, conversionPattern, fuel) == (Failed, e)
  {
    var events := BuildAppEvents(Tokens(eventsConfig, ','), []);
    var charts := BuildAppEvents(Tokens(chartsConfig, ','), []);
    if events.1 && charts.1 && GetDatePattern(conversionPattern).Ok? {
      var src' := src.(events := events.0, charts := charts.0);
      var c := Start(e, src, defaultDays, clock);
      BatchesGrows(c, src', fuel);
      assert Dumped(e, src, defaultDays, clock, eventsConfig, chartsConfig, conversionPattern, fuel).1 ==
        Batches(c, src', fuel).1.effects;
    } else {
      assert e.executed[..|e.executed|] == e.executed;
    }
  }

  class Tool {
    var appEventList: Entries
    var appEventList4Charts: Entries
    var insertedRows: int
    var cancel: bool
    /** The statements the database files accepted, in order. */
    var executed: seq<Statement>

    function State(): Effects
      reads this
    {
      Effects(insertedRows, cancel, executed)
    }

    /** A new tool: no rows counted, not cancelled, nothing written; the Java lists start null. */
    constructor ()
      ensures appEventList == [] && appEventList4Charts == []
      ensures State() == Effects(0, false, [])
    {
      appEventList := [];
      appEventList4Charts := [];
      insertedRows := 0;
      cancel := false;
      executed := [];
    }

    /** setCancel */
    method SetCancel(c: bool)
      modifies this
      ensures State() == old(State()).(cancel := c)
      ensures appEventList == old(appEventList) && appEventList4Charts == old(appEventList4Charts)
    {
      cancel := c;
    }

    /** initAppEvents: a fresh map filled from the comma tokens; false where a token throws. */
    method InitAppEvents(config: string) returns (ok: bool)
      modifies this
      ensures (appEventList, ok) == BuildAppEvents(Tokens(config, ','), [])
      ensures State() == old(State()) && appEventList4Charts == old(appEventList4Charts)
    {
      appEventList := [];
      var tokens := Tokens(config, ',');
      var i := 0;
      while i < |tokens|
        invariant 0 <= i <= |tokens|
        invariant BuildAppEvents(tokens[i..], appEventList) == BuildAppEvents(tokens, [])
        invariant State() == old(State()) && appEventList4Charts == old(appEventList4Charts)
      {
        var pair := ParseAppEvent(tokens[i]);
        BuildAppEventsStep(tokens, i, appEventList);
        if pair.None? {
          return false;
        }
        appEventList := Put(appEventList, pair.value.name, pair.value.value);
        i := i + 1;
      }
      return true;
    }

    /** initAppEvents4Charts: the same, into the list of charted events. */
    method InitAppEvents4Charts(config: string) returns (ok: bool)
      modifies this
      ensures (appEventList4Charts, ok) == BuildAppEvents(Tokens(config, ','), [])
      ensures State() == old(State()) && appEventList == old(appEventList)
    {
      appEventList4Charts := [];
      var tokens := Tokens(config, ',');
      var i := 0;
      while i < |tokens|
        invariant 0 <= i <= |tokens|
        invariant BuildAppEvents(tokens[i..], appEventList4Charts) == BuildAppEvents(tokens, [])
        invariant State() == old(State()) && appEventList == old(appEventList)
      {
        var pair := ParseAppEvent(tokens[i]);
        BuildAppEventsStep(tokens, i, appEventList4Charts);
        if pair.None? {
          return false;
        }
        appEventList4Charts := Put(appEventList4Charts, pair.value.name, pair.value.value);
        i := i + 1;
      }
      return true;
    }

    /** getAppEvent: the first event, in name order, whose value occurs in the line ignoring case; null if none. */
    method GetAppEvent(line: string) returns (r: Option<Entry>)
      ensures r == MatchAppEvent(appEventList, line)
    {
      var lower := Lower(line);
      var i := 0;
      while i < |appEventList|
        invariant 0 <= i <= |appEventList|
        invariant MatchAppEvent(appEventList[i..], line) == MatchAppEvent(appEventList, line)
      {
        if IndexOf(lower, Lower(appEventList[i].value)) != -1 {
          return Some(appEventList[i]);
        }
        assert appEventList[i..][1..] == appEventList[i + 1..];
        i := i + 1;
      }
      return None;
    }

    /** isAppEvent4Chart: some charted event's value occurs in the line, ignoring case. */
    method IsAppEvent4Chart(line: string) returns (b: bool)
      ensures b <==> exists i :: 0 <= i < |appEventList4Charts| && Contains(Lower(line), Lower(appEventList4Charts[i].value))
      ensures b <==> MatchAppEvent(appEventList4Charts, line).Some?
    {
      var lower := Lower(line);
      var i := 0;
      while i < |appEventList4Charts|
        invariant 0 <= i <= |appEventList4Charts|
        invariant MatchAppEvent(appEventList4Charts[i..], line) == MatchAppEvent(appEventList4Charts, line)
      {
        if IndexOf(lower, Lower(appEventList4Charts[i].value)) != -1 {
          return true;
        }
        assert appEventList4Charts[i..][1..] == appEventList4Charts[i + 1..];
        i := i + 1;
      }
      return false;
    }

    /** executeStatement, step and dispose: the statement is kept when its database accepts it. */
    method Execute(st: Statement, accepts: Statement -> bool) returns (ok: bool)
      modifies this
      ensures (State(), ok) == Exec(old(State()), st, accepts)
      ensures appEventList == old(appEventList) && appEventList4Charts == old(appEventList4Charts)
    {
      ok := accepts(st);
      if ok {
        executed := executed + [st];
      }
    }

    /** createTables; false where SQLiteException is thrown. */
    method CreateTables(conn: string, accepts: Statement -> bool) returns (ok: bool)
      modifies this
      ensures (State(), ok) == Created(old(State()), conn, accepts)
      ensures appEventList == old(appEventList) && appEventList4Charts == old(appEventList4Charts)
    {
      insertedRows := 0;
      ok := Execute(Statement(conn, CreateTable, map[]), accepts);
      if ok {
        ok := Execute(Statement(conn, CreateVirtualTable, map[]), accepts);
      }
    }

    /** areTablesInDB: the probe SELECT does not throw. */
    static method AreTablesInDB(file: string, accepts: Statement -> bool) returns (ok: bool)
      ensures ok <==> accepts(Statement(file, SelectLogEvents, map[]))
    {
      ok := accepts(Probe(file));
    }

    /** insertData */
    method InsertData(conn: string, row: EventRow, create: bool, accepts: Statement -> bool)
      modifies this
      ensures State() == Inserted(old(State()), conn, row, create, appEventList, appEventList4Charts, accepts)
      ensures appEventList == old(appEventList) && appEventList4Charts == old(appEventList4Charts)
    {
      if create {
        var ok := CreateTables(conn, accepts);
        if !ok {
          return;
        }
      }
      InsertRow(conn, row, accepts);
    }

    /** insertData after the tables: the values, the event row, its text, the count. */
    method InsertRow(conn: string, row: EventRow, accepts: Statement -> bool)
      modifies this
      ensures State() == RowInserted(old(State()), conn, row, appEventList, appEventList4Charts, accepts)
      ensures appEventList == old(appEventList) && appEventList4Charts == old(appEventList4Charts)
    {
      var params := RowValues(row);
      if params.Err? {
        return;
      }
      InsertValues(conn, params.value, row.text, accepts);
    }

    /**
     * The values insertData binds: the day, the datetime, the level, the
     * matching application event (a NullPointerException where none matches),
     * the line, the empty source, and the chart flag: "1" under CHART for a
     * charted event, otherwise "0" over SOURCE (see ChartFlagAsWritten).
     */
    method RowValues(row: EventRow) returns (r: Result<map<int, string>>)
      ensures r == RowParams(row, appEventList, appEventList4Charts)
    {
      var day := DayOf(row.date);
      if day.Err? {
        return Err(day.error);
      }
      var appEvent := GetAppEvent(row.text);
      if appEvent.None? {
        return Err("NullPointerException");
      }
      var params := map[1 := day.value, 2 := row.date, 3 := row.level, 4 := appEvent.value.name, 5 := row.text, 6 := ""];
      var chart := IsAppEvent4Chart(row.text);
      if chart {
        params := params[7 := "1"];
      } else {
        params := params[6 := "0"];
      }
      assert params == InsertParams(day.value, row, appEvent.value.name, chart);
      return Ok(params);
    }

    /** The event row, then its text, then the count, each only if the one before went through. */
    method InsertValues(conn: string, params: map<int, string>, text: string, accepts: Statement -> bool)
      modifies this
      ensures State() == Stepped(old(State()), conn, params, text, accepts)
      ensures appEventList == old(appEventList) && appEventList4Charts == old(appEventList4Charts)
    {
      var ok2 := Execute(Statement(conn, InsertLogEvents, params), accepts);
      if !ok2 {
        return;
      }
      var ok3 := Execute(Statement(conn, InsertText, map[1 := text]), accepts);
      if !ok3 {
        return;
      }
      insertedRows := insertedRows + 1;
    }

    /**
     * One row of the dump's for loop. Another thread's setCancel(true) is seen
     * at the check numbered `src.cancelAt`.
     */
    method DumpRow(row: EventRow, prev: string, checks: nat, src: Source) returns (file: string, failed: bool, stop: bool)
      requires appEventList == src.events && appEventList4Charts == src.charts
      modifies this
      ensures (Pass(State(), file, checks + 1, failed), stop) == RowStep(Pass(old(State()), prev, checks, false), row, src)
      ensures appEventList == old(appEventList) && appEventList4Charts == old(appEventList4Charts)
    {
      if src.cancelAt == Some(checks) {
        cancel := true;
      }
      if cancel {
        return prev, false, true;
      }
      var date := src.parse(row.date);
      if date.None? {
        return prev, true, true;
      }
      var cal := src.fields(date.value);
      var period := match src.division case MONTH => cal.month case WEEK => cal.weekOfYear;
      var filepath := src.dbPath + "__" + IntToString(period) + "_" + IntToString(cal.year);
      var createTable := false;
      file := prev;
      if !EqualsIgnoreCase(filepath, prev) {
        if !src.present(filepath) {
          createTable := true;
        } else {
          var tables := AreTablesInDB(filepath, src.accepts);
          createTable := !tables;
        }
        file := filepath;
      }
      InsertData(file, row, createTable, src.accepts);
      return file, false, false;
    }

    /** The for loop over one batch. */
    method DumpRows(rows: seq<EventRow>, prev: string, checks: nat, src: Source)
      returns (file: string, checks': nat, failed: bool)
      requires appEventList == src.events && appEventList4Charts == src.charts
      modifies this
      ensures Pass(State(), file, checks', failed) == Rows(Pass(old(State()), prev, checks, false), rows, src)
      ensures appEventList == old(appEventList) && appEventList4Charts == old(appEventList4Charts)
    {
      file, checks' := prev, checks;
      var i := 0;
      while i < |rows|
        invariant 0 <= i <= |rows|
        invariant Rows(Pass(State(), file, checks', false), rows[i..], src) == Rows(Pass(old(State()), prev, checks, false), rows, src)
        invariant appEventList == src.events && appEventList4Charts == src.charts
      {
        assert rows[i..][0] == rows[i] && rows[i..][1..] == rows[i + 1..];
        RowsUnfold(Pass(State(), file, checks', false), rows[i..], src);
        var f, fail, stop := DumpRow(rows[i], file, checks', src);
        file, checks' := f, checks' + 1;
        if stop {
          return file, checks', fail;
        }
        i := i + 1;
      }
      return file, checks', false;
    }

    /**
     * One pass of the do-while loop on the table service `ts`: the window,
     * the batch, its rows, the next date. `exit` is None when the loop goes on.
     */
    method DumpBatch(ts: Service, prev: string, checks: nat, prevNow: Option<int>, now: int, src: Source)
      returns (exit: Option<Exit>, file: string, checks': nat, prevNow': Option<int>, now': int)
      requires appEventList == src.events && appEventList4Charts == src.charts
      requires ts.maxNumberOfDates == MaxNumberDates
      modifies this, ts
      ensures var d := Cursor(State(), file, checks', (ts.initDate, ts.endDate), prevNow', now');
        Batch(Cursor(old(State()), prev, checks, (old(ts.initDate), old(ts.endDate)), prevNow, now), src) ==
        if exit.Some? then Stop(exit.value, d) else Next(d)
      ensures ts.maxNumberOfDates == MaxNumberDates
      ensures appEventList == old(appEventList) && appEventList4Charts == old(appEventList4Charts)
    {
      file, checks', prevNow', now' := prev, checks, prevNow, now;
      if prevNow == Some(now) {
        return Some(SameDate), file, checks', prevNow', now';
      }
      ghost var w := NewWindow((ts.initDate, ts.endDate), Window(src, now));
      var ok;
      if src.forward {
        ok := ts.SetDatesInterval(now, src.fields(now), src.to, src.fields(src.to));
      } else {
        ok := ts.SetDatesInterval(src.from, src.fields(src.from), now, src.fields(now));
      }
      assert (ts.initDate, ts.endDate) == w;
      exit, file, checks', prevNow', now' := DumpFetched(ts, prev, checks, prevNow, now, src);
    }

    /** The rest of a pass once `ts` has its window: getEventsData, the rows, the next date. */
    method DumpFetched(ts: Service, prev: string, checks: nat, prevNow: Option<int>, now: int, src: Source)
      returns (exit: Option<Exit>, file: string, checks': nat, prevNow': Option<int>, now': int)
      requires appEventList == src.events && appEventList4Charts == src.charts
      modifies this
      ensures var d := Cursor(State(), file, checks', (ts.initDate, ts.endDate), prevNow', now');
        Fetched(Cursor(old(State()), prev, checks, (ts.initDate, ts.endDate), prevNow, now), src) ==
        if exit.Some? then Stop(exit.value, d) else Next(d)
      ensures appEventList == old(appEventList) && appEventList4Charts == old(appEventList4Charts)
    {
      file, checks', prevNow', now' := prev, checks, prevNow, now;
      var rows := src.fetch(ts.initDate, ts.endDate);
      if |rows| < 2 {
        return Some(FewRows), file, checks', prevNow', now';
      }
      var failed;
      file, checks', failed := DumpRows(rows, prev, checks, src);
      if failed {
        return Some(Failed), file, checks', prevNow', now';
      }
      prevNow' := Some(now);
      var next := src.parse(rows[|rows| - 1].date);
      if next.None? {
        return Some(Failed), file, checks', prevNow', now';
      }
      now' := next.value;
      var continues := if src.forward then now' < src.to else src.from < now';
      if !continues {
        return Some(Reached), file, checks', prevNow', now';
      }
      if cancel {
        return Some(Cancelled), file, checks', prevNow', now';
      }
      return None, file, checks', prevNow', now';
    }

    /**
     * dumpFilesToDB and dumpFilesToDBbyHTTP: the event lists, a new table
     * service whose window starts at the clock, and the do-while loop for at
     * most `fuel` passes.
     */
    method Dump(src: Source, defaultDays: int, clock: int, eventsConfig: string, chartsConfig: string,
                conversionPattern: Option<string>, fuel: nat)
      returns (exit: Exit)
      modifies this
      ensures (exit, State()) == Dumped(old(State()), src, defaultDays, clock, eventsConfig, chartsConfig, conversionPattern, fuel)
    {
      ghost var e := State();
      var ok := InitAppEvents(eventsConfig);
      if !ok {
        return Failed;
      }
      ghost var events := appEventList;
      ok := InitAppEvents4Charts(chartsConfig);
      if !ok {
        return Failed;
      }
      ghost var charts := appEventList4Charts;
      var datetimePattern := GetDatePattern(conversionPattern);
      if datetimePattern.Err? {
        return Failed;
      }
      exit := DumpRun(src.(events := appEventList, charts := appEventList4Charts), defaultDays, clock, eventsConfig, fuel);
      DumpedRuns(e, src, defaultDays, clock, eventsConfig, chartsConfig, conversionPattern, fuel, events, charts);
    }

    /** The dump once both lists are read: a new table service, then the loop. */
    method DumpRun(src: Source, defaultDays: int, clock: int, eventsConfig: string, fuel: nat) returns (exit: Exit)
      requires appEventList == src.events && appEventList4Charts == src.charts
      modifies this
      ensures var r := Batches(Start(old(State()), src, defaultDays, clock), src, fuel);
        exit == r.0 && State() == r.1.effects
    {
      var ts := NewTableService(defaultDays, clock, eventsConfig);
      ghost var c := Start(old(State()), src, defaultDays, clock);
      assert c.effects == State();
      assert c.window.0 == ts.initDate;
      assert c.window.1 == ts.endDate;
      assert c == Cursor(State(), "", 0, (ts.initDate, ts.endDate), None, c.now);
      exit := DumpLoop(ts, if src.forward then src.from else src.to, src, fuel);
      ghost var r := Batches(c, src, fuel);
      assert exit == r.0;
      assert State() == r.1.effects;
    }

    /** The table service of a dump: its default window ends a day after the clock, its levels and events are read. */
    static method NewTableService(defaultDays: int, clock: int, eventsConfig: string) returns (ts: Service)
      ensures fresh(ts)
      ensures ts.endDate == clock + MillisPerDay && ts.initDate == ts.endDate - defaultDays * MillisPerDay
      ensures ts.maxNumberOfDates == MaxNumberDates
      ensures ts.available == Precedence && ts.appEvents == BuildAppEvents(Tokens(eventsConfig, ','), []).0
    {
      ts := new Service(defaultDays, MaxNumberDates, clock);
      ts.InitLogLevels();
      var loaded := ts.InitAppEvents(eventsConfig);
    }

    /** The do-while loop from `now`, on a table service whose window has not been set yet. */
    method DumpLoop(ts: Service, now: int, src: Source, fuel: nat) returns (exit: Exit)
      requires appEventList == src.events && appEventList4Charts == src.charts
      requires ts.maxNumberOfDates == MaxNumberDates
      modifies this, ts
      ensures var r := Batches(Cursor(old(State()), "", 0, (old(ts.initDate), old(ts.endDate)), None, now), src, fuel);
        exit == r.0 && State() == r.1.effects
    {
      var file, checks, prevNow, now := "", 0, None, now;
      ghost var start := Cursor(State(), file, checks, (ts.initDate, ts.endDate), prevNow, now);
      var n := fuel;
      while n > 0
        invariant Batches(Cursor(State(), file, checks, (ts.initDate, ts.endDate), prevNow, now), src, n) ==
          Batches(start, src, fuel)
        invariant appEventList == src.events && appEventList4Charts == src.charts
        invariant ts.maxNumberOfDates == MaxNumberDates
        decreases n
      {
        ghost var c := Cursor(State(), file, checks, (ts.initDate, ts.endDate), prevNow, now);
        var stop;
        stop, file, checks, prevNow, now := DumpBatch(ts, file, checks, prevNow, now, src);
        BatchesUnfold(c, src, n);
        if stop.Some? {
          return stop.value;
        }
        n := n - 1;
      }
      return OutOfFuel;
    }

    /** dumpFilesToDB: from `to` backwards through the log files. */
    method DumpFilesToDB(src: Source, defaultDays: int, clock: int, eventsConfig: string, chartsConfig: string,
                         conversionPattern: Option<string>, fuel: nat)
      returns (exit: Exit)
      modifies this
      ensures (exit, State()) == Dumped(old(State()), src.(forward := false), defaultDays, clock, eventsConfig, chartsConfig,
                                           conversionPattern, fuel)
    {
      exit := Dump(src.(forward := false), defaultDays, clock, eventsConfig, chartsConfig, conversionPattern, fuel);
    }

    /** dumpFilesToDBbyHTTP: from `from` forwards through the HTTP service. */
    method DumpFilesToDBbyHTTP(src: Source, defaultDays: int, clock: int, eventsConfig: string, chartsConfig: string,
                               conversionPattern: Option<string>, fuel: nat)
      returns (exit: Exit)
      modifies this
      ensures (exit, State()) == Dumped(old(State()), src.(forward := true), defaultDays, clock, eventsConfig, chartsConfig,
                                           conversionPattern, fuel)
    {
      exit := Dump(src.(forward := true), defaultDays, clock, eventsConfig, chartsConfig, conversionPattern, fuel);
    }

    /** getTimeDivisions: the division names in declaration order. */
    static method GetTimeDivisions() returns (names: seq<string>)
      ensures |names| == |Divisions|
      ensures forall i :: 0 <= i < |names| ==> names[i] == DivisionName(Divisions[i])
    {
      names := [];
      var i := 0;
      while i < |Divisions|
        invariant 0 <= i <= |Divisions|
        invariant |names| == i
        invariant forall j :: 0 <= j < i ==> names[j] == DivisionName(Divisions[j])
      {
        names := names + [DivisionName(Divisions[i])];
        i := i + 1;
      }
    }
  }
}
