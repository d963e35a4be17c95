/**
 * Partition addressing: the SQLite database is split into one file per month
 * or per week of a year, named `<base>__<period>_<year>`, and a query window
 * is mapped to the list of files to visit.
 */
module SuperSQLService {
  import opened Strings
  import opened SuperService
  import opened SortedMap

  /** Sqlite4JavaTool.TimeDivision: how the database is partitioned. */
  datatype TimeDivision = MONTH | WEEK

  /** MONTHS_IN_YEAR and WEEKS_IN_YEAR: a counter above this wraps to the next year. */
  function Cap(division: TimeDivision): (c: int)
  {
    match division
    case MONTH => 12
    case WEEK => 52
  }

  /** The counter a wrap restarts from. */
  function Reset(division: TimeDivision): (c: int)
  {
    match division
    case MONTH => 0
    case WEEK => 1
  }

  /** The calendar field a division counts: MONTH (from 0) or WEEK_OF_YEAR. */
  function Period(division: TimeDivision, cal: Calendar): (p: int)
  {
    match division
    case MONTH => cal.month
    case WEEK => cal.weekOfYear
  }

  /** The file name of one partition: the base name, "__", the period, "_" and the year. */
  function PartitionPath(base: string, counter: int, year: int): (path: string)
  {
    base + "__" + IntToString(counter) + "_" + IntToString(year)
  }

  /** A partition file name starts with the base name and "__" and ends with the year. */
  lemma PartitionPathShape(base: string, counter: int, year: int)
    ensures var path := PartitionPath(base, counter, year);
      |path| > |base| + 2 && path[..|base| + 2] == base + "__" &&
      |path| >= |IntToString(year)| && path[|path| - |IntToString(year)|..] == IntToString(year)
  {
    var head := base + "__" + IntToString(counter) + "_";
    assert PartitionPath(base, counter, year) == head + IntToString(year);
    assert (head + IntToString(year))[|head|..] == IntToString(year);
    assert (head + IntToString(year))[..|base| + 2] == base + "__";
  }

  /** One pass of the loop body after the append: increment, and wrap into the next year above the cap. */
  function Step(division: TimeDivision, counter: int, year: int): (r: (int, int))
  {
    if counter + 1 > Cap(division) then (Reset(division), year + 1) else (counter + 1, year)
  }

  /** The loop state after `n` passes. */
  function StepN(division: TimeDivision, counter: int, year: int, n: nat): (r: (int, int))
    decreases n
  {
    if n == 0 then (counter, year)
    else var (c, y) := Step(division, counter, year); StepN(division, c, y, n - 1)
  }

  /**
   * The loop of getDBFilepaths exits iff the start is already past the limit
   * or the limit lies below the cap (see NeverExits for the other case).
   */
  predicate Terminates(division: TimeDivision, start: int, limit: int)
  {
    start > limit || limit < Cap(division)
  }

  /** The partitions from `counter` up to `limit`, all in `year`. */
  function Partitions(base: string, counter: int, limit: int, year: int): (paths: seq<string>)
    decreases limit - counter
  {
    if counter > limit then [] else [PartitionPath(base, counter, year)] + Partitions(base, counter + 1, limit, year)
  }

  /** One path per counter from start to limit, consecutive, in the start's year; none when start > limit. */
  lemma {:induction false} PartitionsSpec(base: string, counter: int, limit: int, year: int)
    ensures var paths := Partitions(base, counter, limit, year);
      |paths| == if counter > limit then 0 else limit - counter + 1
    ensures var paths := Partitions(base, counter, limit, year);
      forall k :: 0 <= k < |paths| ==> paths[k] == PartitionPath(base, counter + k, year)
    decreases limit - counter
  {
    if counter <= limit {
      PartitionsSpec(base, counter + 1, limit, year);
    }
  }

  /**
   * Once the limit reaches the cap (12 for MONTH, 52 for WEEK_OF_YEAR), every wrap lands
   * back at or below the limit: the loop guard holds after any number of passes.
   */
  lemma {:induction false} NeverExits(division: TimeDivision, counter: int, limit: int, year: int, n: nat)
    requires counter <= limit && limit >= Cap(division)
    ensures StepN(division, counter, year, n).0 <= limit
    decreases n
  {
    if n > 0 {
      var (c, y) := Step(division, counter, year);
      NeverExits(division, c, limit, y, n - 1);
    }
  }

  /** A concrete window that hangs: weeks 50 to 52 of one year. */
  lemma WeekFiftyTwoHangs(n: nat)
    ensures StepN(WEEK, 50, 2012, n).0 <= 52
  {
    NeverExits(WEEK, 50, 52, 2012, n);
  }

  /** A window from December to January visits no partition at all. */
  lemma CrossingYearIsEmpty(base: string, initCal: Calendar, endCal: Calendar)
    requires initCal.month == 11 && endCal.month == 0
    ensures Partitions(base, Period(MONTH, initCal), Period(MONTH, endCal), initCal.year) == []
  {
  }

  /** The last period of a year: month 11 (December), week 52. */
  function LastPeriod(division: TimeDivision): (c: int)
  {
    match division
    case MONTH => 11
    case WEEK => 52
  }

  /** Number of periods in a year. */
  function Span(division: TimeDivision): (n: int)
    ensures n == LastPeriod(division) - Reset(division) + 1
  {
    match division
    case MONTH => 12
    case WEEK => 52
  }

  predicate ValidPeriod(division: TimeDivision, counter: int)
  {
    Reset(division) <= counter <= LastPeriod(division)
  }

  /** Periods numbered consecutively across years. */
  function Ordinal(division: TimeDivision, counter: int, year: int): (o: int)
  {
    match division
    case MONTH => year * 12 + counter
    case WEEK => year * 52 + (counter - 1)
  }

  /** The period after (counter, year), wrapping after the last period of the year. */
  function NextPeriod(division: TimeDivision, counter: int, year: int): (r: (int, int))
    requires ValidPeriod(division, counter)
    ensures ValidPeriod(division, r.0)
    ensures Ordinal(division, r.0, r.1) == Ordinal(division, counter, year) + 1
  {
    if counter + 1 > LastPeriod(division) then (Reset(division), year + 1) else (counter + 1, year)
  }

  /** The period `k` steps after (counter, year). */
  function PeriodAfter(division: TimeDivision, counter: int, year: int, k: nat): (r: (int, int))
    requires ValidPeriod(division, counter)
    ensures ValidPeriod(division, r.0)
    decreases k
  {
    if k == 0 then (counter, year)
    else var (c, y) := NextPeriod(division, counter, year); PeriodAfter(division, c, y, k - 1)
  }

  /** Periods k steps apart are k ordinals apart, so no period is visited twice. */
  lemma {:induction false} PeriodAfterOrdinal(division: TimeDivision, counter: int, year: int, k: nat)
    requires ValidPeriod(division, counter)
    ensures var (c, y) := PeriodAfter(division, counter, year, k);
      Ordinal(division, c, y) == Ordinal(division, counter, year) + k
    decreases k
  {
    if k > 0 {
      var (c, y) := NextPeriod(division, counter, year);
      PeriodAfterOrdinal(division, c, y, k - 1);
    }
  }

  /**
   * The intended enumeration: every period from the start calendar's
   * (period, year) to the end calendar's, wrapping into the next year.
   */
  function WindowPartitions(base: string, division: TimeDivision, counter: int, year: int, limit: int, endYear: int)
    : (paths: seq<string>)
    requires ValidPeriod(division, counter)
    decreases Ordinal(division, limit, endYear) - Ordinal(division, counter, year)
  {
    if Ordinal(division, counter, year) > Ordinal(division, limit, endYear) then []
    else
      var (c, y) := NextPeriod(division, counter, year);
      [PartitionPath(base, counter, year)] + WindowPartitions(base, division, c, y, limit, endYear)
  }

  lemma {:induction false} WindowPartitionsLength(base: string, division: TimeDivision, counter: int, year: int,
                                                  limit: int, endYear: int)
    requires ValidPeriod(division, counter)
    ensures var o1, o2 := Ordinal(division, counter, year), Ordinal(division, limit, endYear);
      |WindowPartitions(base, division, counter, year, limit, endYear)| == if o1 > o2 then 0 else o2 - o1 + 1
    decreases Ordinal(division, limit, endYear) - Ordinal(division, counter, year)
  {
    if Ordinal(division, counter, year) <= Ordinal(division, limit, endYear) {
      var (c, y) := NextPeriod(division, counter, year);
      WindowPartitionsLength(base, division, c, y, limit, endYear);
    }
  }

  /** The k-th partition of the intended enumeration is that of the k-th period after the start. */
  lemma {:induction false} WindowPartitionsAt(base: string, division: TimeDivision, counter: int, year: int,
                                              limit: int, endYear: int, k: nat)
    requires ValidPeriod(division, counter)
    requires k < |WindowPartitions(base, division, counter, year, limit, endYear)|
    ensures var (c, y) := PeriodAfter(division, counter, year, k);
      WindowPartitions(base, division, counter, year, limit, endYear)[k] == PartitionPath(base, c, y)
    decreases k
  {
    var paths := WindowPartitions(base, division, counter, year, limit, endYear);
    var (c, y) := NextPeriod(division, counter, year);
    var rest := WindowPartitions(base, division, c, y, limit, endYear);
    assert paths == [PartitionPath(base, counter, year)] + rest;
    if k > 0 {
      assert paths[k] == rest[k - 1];
      WindowPartitionsAt(base, division, c, y, limit, endYear, k - 1);
      assert PeriodAfter(division, counter, year, k) == PeriodAfter(division, c, y, k - 1);
    }
  }

  /** Distinct periods of a division have distinct ordinals. */
  lemma OrdinalInjective(division: TimeDivision, c1: int, y1: int, c2: int, y2: int)
    requires ValidPeriod(division, c1) && ValidPeriod(division, c2)
    requires Ordinal(division, c1, y1) == Ordinal(division, c2, y2)
    ensures c1 == c2 && y1 == y2
  {
    assert y1 < y2 ==> Ordinal(division, c1, y1) < Ordinal(division, Reset(division), y1 + 1) <= Ordinal(division, c2, y2);
    assert y2 < y1 ==> Ordinal(division, c2, y2) < Ordinal(division, Reset(division), y2 + 1) <= Ordinal(division, c1, y1);
  }

  /** Every period between the window's first and last has its partition in the intended enumeration. */
  lemma WindowPartitionsCover(base: string, division: TimeDivision, counter: int, year: int, limit: int, endYear: int,
                              c: int, y: int)
    requires ValidPeriod(division, counter) && ValidPeriod(division, c)
    requires Ordinal(division, counter, year) <= Ordinal(division, c, y) <= Ordinal(division, limit, endYear)
    ensures PartitionPath(base, c, y) in WindowPartitions(base, division, counter, year, limit, endYear)
  {
    var k := Ordinal(division, c, y) - Ordinal(division, counter, year);
    WindowPartitionsLength(base, division, counter, year, limit, endYear);
    WindowPartitionsAt(base, division, counter, year, limit, endYear, k);
    PeriodAfterOrdinal(division, counter, year, k);
    var (c', y') := PeriodAfter(division, counter, year, k);
    OrdinalInjective(division, c', y', c, y);
  }

  /** Within one year the intended enumeration is what getDBFilepaths computes. */
  lemma {:induction false} WindowAgreesWithinYear(base: string, division: TimeDivision, counter: int, limit: int, year: int)
    requires ValidPeriod(division, counter) && ValidPeriod(division, limit)
    ensures WindowPartitions(base, division, counter, year, limit, year) == Partitions(base, counter, limit, year)
    decreases limit - counter
  {
    if counter < limit {
      WindowAgreesWithinYear(base, division, counter + 1, limit, year);
    } else if counter == limit {
      var (c, y) := NextPeriod(division, counter, year);
      assert WindowPartitions(base, division, c, y, limit, year) == [];
    }
  }

  /** The intended enumeration of December to January visits both months. */
  lemma WindowCrossingYear(base: string)
    ensures WindowPartitions(base, MONTH, 11, 2012, 0, 2013)
      == [PartitionPath(base, 11, 2012), PartitionPath(base, 0, 2013)]
  {
    assert NextPeriod(MONTH, 11, 2012) == (0, 2013);
    assert NextPeriod(MONTH, 0, 2013) == (1, 2013);
    assert WindowPartitions(base, MONTH, 1, 2013, 0, 2013) == [];
  }

  /**
   * getDBFilepaths: the partitions from the start calendar's period to the
   * end calendar's, all in the start calendar's year. The end year is never
   * consulted. Only for windows on which the loop exits.
   */
  method GetDBFilepaths(base: string, division: TimeDivision, initCal: Calendar, endCal: Calendar)
    returns (paths: seq<string>)
    requires Terminates(division, Period(division, initCal), Period(division, endCal))
    ensures paths == Partitions(base, Period(division, initCal), Period(division, endCal), initCal.year)
  {
    paths := [];
    var counter := Period(division, initCal);
    var limit := Period(division, endCal);
    var year := initCal.year;
    ghost var start := counter;
    while counter <= limit
      invariant start <= limit ==> start <= counter <= limit + 1 <= Cap(division)
      invariant start > limit ==> counter == start
      invariant year == initCal.year
      invariant paths + Partitions(base, counter, limit, year) == Partitions(base, start, limit, year)
      decreases limit - counter
    {
      var newPath := base + "__" + IntToString(counter) + "_" + IntToString(year);
      PartitionsAppend(paths, base, counter, limit, year);
      paths := paths + [newPath];
      counter := counter + 1;
      if counter > Cap(MONTH) && division == MONTH {
        counter := 0;
        year := year + 1;
      } else if counter > Cap(WEEK) && division == WEEK {
        counter := 1;
        year := year + 1;
      }
    }
  }

  /** Moving one partition from the pending list to the collected paths. */
  lemma PartitionsAppend(paths: seq<string>, base: string, counter: int, limit: int, year: int)
    requires counter <= limit
    ensures (paths + [PartitionPath(base, counter, year)]) + Partitions(base, counter + 1, limit, year)
      == paths + Partitions(base, counter, limit, year)
  {
    var x, rest := PartitionPath(base, counter, year), Partitions(base, counter + 1, limit, year);
    assert Partitions(base, counter, limit, year) == [x] + rest;
    assert (paths + [x]) + rest == paths + ([x] + rest);
  }

  /**
   * The evidently intended getDBFilepaths: the loop runs while (year,
   * period) has not passed the end calendar's, and wraps after the last
   * period of the year, so the paths are those of WindowPartitions.
   */
  method GetWindowFilepaths(base: string, division: TimeDivision, initCal: Calendar, endCal: Calendar)
    returns (paths: seq<string>)
    requires ValidPeriod(division, Period(division, initCal))
    ensures paths == WindowPartitions(base, division, Period(division, initCal), initCal.year,
                                      Period(division, endCal), endCal.year)
  {
    paths := [];
    var counter := Period(division, initCal);
    var year := initCal.year;
    var limit := Period(division, endCal);
    var endYear := endCal.year;
    while Ordinal(division, counter, year) <= Ordinal(division, limit, endYear)
      invariant ValidPeriod(division, counter)
      invariant paths + WindowPartitions(base, division, counter, year, limit, endYear)
        == WindowPartitions(base, division, Period(division, initCal), initCal.year, limit, endYear)
      decreases Ordinal(division, limit, endYear) - Ordinal(division, counter, year)
    {
      WindowPartitionsAppend(paths, base, division, counter, year, limit, endYear);
      ghost var next := NextPeriod(division, counter, year);
      paths := paths + [base + "__" + IntToString(counter) + "_" + IntToString(year)];
      counter := counter + 1;
      if counter > LastPeriod(division) {
        counter := Reset(division);
        year := year + 1;
      }
      assert (counter, year) == next;
    }
  }

  /** Moving one partition of the intended enumeration to the collected paths. */
  lemma WindowPartitionsAppend(paths: seq<string>, base: string, division: TimeDivision, counter: int, year: int,
                               limit: int, endYear: int)
    requires ValidPeriod(division, counter)
    requires Ordinal(division, counter, year) <= Ordinal(division, limit, endYear)
    ensures var (c, y) := NextPeriod(division, counter, year);
      (paths + [PartitionPath(base, counter, year)]) + WindowPartitions(base, division, c, y, limit, endYear)
      == paths + WindowPartitions(base, division, counter, year, limit, endYear)
  {
    var (c, y) := NextPeriod(division, counter, year);
    var x, rest := PartitionPath(base, counter, year), WindowPartitions(base, division, c, y, limit, endYear);
    assert WindowPartitions(base, division, counter, year, limit, endYear) == [x] + rest;
    assert (paths + [x]) + rest == paths + ([x] + rest);
  }

  /** TimeDivision.getName */
  function DivisionName(division: TimeDivision): (name: string)
    ensures name == "MONTH" || name == "WEEK"
  {
    match division
    case MONTH => "MONTH"
    case WEEK => "WEEK"
  }

  /** The two divisions have different names, so a name picks at most one. */
  lemma DivisionNamesDiffer(a: TimeDivision, b: TimeDivision)
    ensures DivisionName(a) == DivisionName(b) <==> a == b
  {
    if a != b {
      assert DivisionName(a)[0] != DivisionName(b)[0];
    }
  }

  /**
   * The date condition a partition's query gets: both bounds when the window
   * lies in one partition; otherwise the first partition the lower bound,
   * the last the upper bound, and those between none.
   */
  datatype Bound = Both | From | Until | Open

  function BoundFor(n: nat, cont: nat): (b: Bound)
  {
    if n == 1 then Both else if cont == 0 then From else if cont == n - 1 then Until else Open
  }

  /** Which instants a partition's date condition lets through. */
  predicate Admits(b: Bound, initDate: int, endDate: int, d: int)
  {
    match b
    case Both => initDate <= d < endDate
    case From => initDate <= d
    case Until => d < endDate
    case Open => true
  }

  /**
   * Over the partitions of a window, the first enforces the lower bound, the
   * last the upper one and no other restriction is made: every instant of
   * the window passes every partition's condition.
   */
  lemma FanOutAdmits(n: nat, cont: nat, initDate: int, endDate: int, d: int)
    requires cont < n
    ensures Admits(BoundFor(n, cont), initDate, endDate, d) <==>
      (cont == 0 ==> initDate <= d) && (cont == n - 1 ==> d < endDate)
  {
  }

  /** The SQL text of a bound on `column`, the formatted dates quoted. */
  function DatePredicate(column: string, b: Bound, init: string, end: string): (sql: string)
    ensures b.Open? <==> sql == ""
    ensures !b.Open? ==> OccursAt(sql, "WHERE", 0)
  {
    match b
    case Both => "WHERE " + column + " >= '" + init + "' AND " + column + " < '" + end + "'"
    case From => "WHERE " + column + " >= '" + init + "'"
    case Until => "WHERE " + column + " < '" + end + "'"
    case Open => ""
  }

  /** The condition on the shown levels, given as a quoted list. */
  function LevelsIn(levels: string): (c: string)
  {
    "level in(" + levels + ")"
  }

  /** The condition on the event names, given as a quoted list. */
  function EventsIn(events: string): (c: string)
  {
    "event in(" + events + ")"
  }

  /** A further condition: joined by AND once the query has a WHERE, else it opens the WHERE. */
  function AddCondition(query: string, cond: string): (q: string)
    ensures Contains(q, "WHERE")
  {
    if IndexOf(query, "WHERE") != -1 then
      ContainsPrefix(query, " AND " + cond, "WHERE");
      assert query + " AND " + cond == query + (" AND " + cond);
      query + " AND " + cond
    else
      assert OccursAt(" WHERE " + cond, "WHERE", 1);
      OccursShift(query, " WHERE " + cond, "WHERE", 1);
      ContainsAt(query + " WHERE " + cond, "WHERE", |query| + 1);
      query + " WHERE " + cond
  }

  lemma ContainsPrefix(a: string, b: string, sub: string)
    requires Contains(a, sub)
    ensures Contains(a + b, sub)
  {
    var i: nat :| i <= |a| && OccursAt(a, sub, i);
    OccursShift(b, a, sub, i);
  }

  /** A text without a `W` holds no WHERE. */
  lemma NoWhere(s: string)
    requires 'W' !in s
    ensures !Contains(s, "WHERE")
  {
    forall i: nat | i <= |s| ensures !OccursAt(s, "WHERE", i) {
      if i + 5 <= |s| {
        assert s[i] in s;
        NotOccursAt(s, "WHERE", i, 0);
      }
    }
  }

  /**
   * A base SELECT without a WHERE, a partition's date condition and then
   * conditions added one after the other: the first added condition opens
   * the WHERE exactly when the partition has no date condition, and every
   * later one is joined by AND.
   */
  lemma ConditionsChain(select: string, pred: string, c1: string, c2: string)
    requires 'W' !in select
    requires pred == "" || OccursAt(pred, "WHERE", 0)
    ensures AddCondition(select + pred, c1) == select + pred + (if pred == "" then " WHERE " else " AND ") + c1
    ensures AddCondition(AddCondition(select + pred, c1), c2) ==
      select + pred + (if pred == "" then " WHERE " else " AND ") + c1 + " AND " + c2
  {
    if pred == "" {
      assert select + pred == select;
      NoWhere(select);
    } else {
      OccursShift(select, pred, "WHERE", 0);
      ContainsAt(select + pred, "WHERE", |select|);
    }
  }

  /** What the queries of the first `k` partitions returned, partition after partition. */
  function Fetch<R>(run: (string, string) -> seq<R>, paths: seq<string>, queries: seq<string>, k: nat): (rows: seq<R>)
    requires k <= |paths| && k <= |queries|
  {
    if k == 0 then [] else Fetch(run, paths, queries, k - 1) + run(paths[k - 1], queries[k - 1])
  }

  /** One more partition queried: its rows follow those already fetched. */
  lemma FetchStep<R>(run: (string, string) -> seq<R>, paths: seq<string>, queries: seq<string>, k: nat, rows: seq<R>)
    requires k < |paths| && k < |queries| && rows == run(paths[k], queries[k])
    ensures Fetch(run, paths, queries, k + 1) == Fetch(run, paths, queries, k) + rows
  {
  }

  /** Reading one more row of a partition's result. */
  lemma SliceSnoc<T>(a: seq<T>, b: seq<T>, j: nat)
    requires j <= |b|
    ensures a + b[..j] == if j == 0 then a else a + b[..j - 1] + [b[j - 1]]
    ensures j == |b| ==> a + b[..j] == a + b
  {
    if j > 0 {
      assert b[..j] == b[..j - 1] + [b[j - 1]];
    }
    assert j == 0 ==> b[..j] == [];
    assert j == |b| ==> b[..j] == b;
  }

  /** Once a query has its WHERE, a further condition is joined by AND. */
  lemma AddConditionJoins(query: string, cond: string)
    requires Contains(query, "WHERE")
    ensures AddCondition(query, cond) == query + " AND " + cond
  {
  }

  /**
   * The events seen, as the SQL services record them: each result row's
   * event added under its own name as both name and value, the first
   * sighting kept.
   */
  function Observed(events: seq<string>): (es: Entries)
    ensures Sorted(es)
  {
    if events == [] then []
    else
      var last := events[|events| - 1];
      AddAppEvent(Entry(last, last), Observed(events[..|events| - 1]))
  }

  /** The observed map holds exactly the events seen, each mapped to itself. */
  lemma {:induction false} ObservedSpec(events: seq<string>)
    ensures ToMap(Observed(events)).Keys == set i | 0 <= i < |events| :: events[i]
    ensures forall e :: e in ToMap(Observed(events)) ==> ToMap(Observed(events))[e] == e
  {
    if events != [] {
      var init := events[..|events| - 1];
      var last := events[|events| - 1];
      ObservedSpec(init);
      assert events == init + [last];
      var seen := set i | 0 <= i < |events| :: events[i];
      var before := set i | 0 <= i < |init| :: init[i];
      assert seen == before + {last} by {
        forall x | x in seen ensures x in before + {last} {
          var i :| 0 <= i < |events| && events[i] == x;
          if i < |init| {
            assert init[i] == x;
          }
        }
        forall x | x in before ensures x in seen {
          var i :| 0 <= i < |init| && init[i] == x;
          assert events[i] == x;
        }
        assert events[|events| - 1] == last;
      }
    }
  }
}
