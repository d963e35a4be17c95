/**
 * The log-events table: log files read backwards line by line, each line
 * screened (level, date window, shown levels, application event, keyword),
 * the passing lines numbered and the rows between `start` and `end` kept;
 * and the CSV and HTML renderings of those rows.
 */
module TableService {
  import opened Wrappers
  import opened Strings
  import opened LogLevels
  import opened SortedMap
  import opened SuperService

  newtype byte = x: int | 0 <= x < 256

  /** A byte read as ISO-8859-1: the character with the same code. */
  function Latin1(bs: seq<byte>): (s: string)
  {
    seq(|bs|, i requires 0 <= i < |bs| => (bs[i] as int) as char)
  }

  predicate IsTerminator(c: char)
  {
    c == '\n' || c == '\r'
  }

  predicate IsTerminatorByte(b: byte)
  {
    b == 10 || b == 13
  }

  /**
   * Where a backward read that starts at p stops: the nearest line
   * terminator at or before p, or the first byte of the file.
   */
  function LineStart(f: seq<byte>, p: nat): (k: nat)
    requires p < |f|
    ensures k <= p
    ensures k == 0 || IsTerminatorByte(f[k])
    ensures forall j :: k < j <= p ==> !IsTerminatorByte(f[j])
  {
    if p == 0 || IsTerminatorByte(f[p]) then p else LineStart(f, p - 1)
  }

  /** The lines a backward reader meets from p down to the start of the file, last line first. */
  function BackLines(f: seq<byte>, p: int): (ls: seq<string>)
    requires p < |f|
    decreases p + 1
  {
    if p < 0 then []
    else
      var k: int := LineStart(f, p);
      [Latin1(f[k..p + 1])] + BackLines(f, k - 1)
  }

  /** The lines of a list that is last-first, put back in file order and concatenated. */
  function InFileOrder(ls: seq<string>): (s: string)
  {
    if ls == [] then [] else InFileOrder(ls[1..]) + ls[0]
  }

  lemma Latin1Append(a: seq<byte>, b: seq<byte>)
    ensures Latin1(a + b) == Latin1(a) + Latin1(b)
  {
  }

  /** The backward reads partition what they cover: nothing is skipped or read twice. */
  lemma {:induction false} BackLinesCover(f: seq<byte>, p: int)
    requires -1 <= p < |f|
    ensures InFileOrder(BackLines(f, p)) == Latin1(f[..p + 1])
    decreases p + 1
  {
    if p >= 0 {
      var k: int := LineStart(f, p);
      BackLinesCover(f, k - 1);
      var ls := BackLines(f, p);
      assert ls[1..] == BackLines(f, k - 1);
      assert ls[0] == Latin1(f[k..p + 1]);
      assert f[..p + 1] == f[..k] + f[k..p + 1];
      Latin1Append(f[..k], f[k..p + 1]);
    }
  }

  /**
   * Every line read is non-empty; a terminator can only be its first
   * character, and is, unless the line starts the file.
   */
  lemma {:induction false} BackLinesShape(f: seq<byte>, p: int, i: nat)
    requires p < |f|
    requires i < |BackLines(f, p)|
    ensures var l := BackLines(f, p)[i];
      l != [] && forall j :: 1 <= j < |l| ==> !IsTerminator(l[j])
    ensures var l := BackLines(f, p)[i];
      IsTerminator(l[0]) || i == |BackLines(f, p)| - 1
    decreases p + 1
  {
    var k := LineStart(f, p);
    var l := Latin1(f[k..p + 1]);
    if i == 0 {
      forall j | 1 <= j < |l| ensures !IsTerminator(l[j]) {
        assert l[j] as int == f[k + j] as int;
      }
      if k != 0 {
        assert l[0] as int == f[k] as int;
      } else {
        if !IsTerminator(l[0]) {
          assert BackLines(f, k - 1) == [];
        }
      }
    } else {
      BackLinesShape(f, k - 1, i - 1);
    }
  }

  /**
   * readFileLine: read bytes backwards from p, stopping after a line
   * terminator or after the first byte of the file, and give them in file
   * order. Appending and then reversing is modelled as prepending.
   */
  method ReadFileLine(f: seq<byte>, p: nat) returns (line: string)
    requires p < |f|
    ensures line == Latin1(f[LineStart(f, p)..p + 1])
  {
    var filePointer: int := p;
    line := "";
    while filePointer > -1
      invariant -1 <= filePointer <= p
      invariant filePointer >= 0 ==> LineStart(f, filePointer) == LineStart(f, p)
      invariant filePointer < 0 ==> LineStart(f, p) == 0
      invariant line == Latin1(f[filePointer + 1..p + 1])
    {
      var readByte := f[filePointer];
      assert f[filePointer..p + 1] == [readByte] + f[filePointer + 1..p + 1];
      Latin1Append([readByte], f[filePointer + 1..p + 1]);
      filePointer := filePointer - 1;
      line := [(readByte as int) as char] + line;
      if IsTerminatorByte(readByte) {
        break;
      }
    }
  }

  /** The lines of one file as getEventsData reads them, or None for a file it skips. */
  function FileLines(f: seq<byte>): (r: Option<seq<string>>)
  {
    if |f| - 2 < 0 then None else Some(BackLines(f, |f| - 2))
  }

  /** A leading line terminator, left by the backward read, is dropped. */
  function Strip(line: string): (r: string)
  {
    if line != [] && IsTerminator(line[0]) then line[1..] else line
  }

  /** A table row: the date text (first two words), the level token and the line. */
  datatype Row = Row(date: string, level: string, text: string)

  /**
   * What a scan screens lines against: the level asked for (None for all),
   * the date parser for the configured pattern, the date window, the levels
   * still shown, the configured application events and the keyword ("" for none).
   */
  datatype Filter = Filter(level: Option<Level>, parse: string -> Option<int>, initDate: int, endDate: int,
                           available: seq<Level>, events: Entries, keyword: string)

  /** The 1-based numbers of the first and last passing line to keep; -1 leaves a side open. */
  datatype Window = Window(start: int, end: int)

  /** A line is dropped, dated after or before the window, or passes as a row with its event. */
  datatype Screened = Dropped | Late | Early | Pass(row: Row, event: Entry)

  /**
   * The checks of the read loop, in their order: the level asked for, two
   * words that parse as a date, the date window, the line's level still
   * shown, a configured application event, and the keyword.
   */
  function Screen(flt: Filter, line: string): (s: Screened)
    ensures s.Pass? ==> s.row.text == line
  {
    if flt.level.Some? && IndexOf(line, Token(flt.level.value)) == -1 then Dropped
    else
      var words := Tokens(line, ' ');
      if |words| < 2 then Dropped
      else
        var date := words[0] + " " + words[1];
        match flt.parse(date)
        case None => Dropped
        case Some(t) =>
          if t > flt.endDate then Late
          else if t < flt.initDate then Early
          else
            var level := Token(ClassifyLevel(line));
            if !IsAvailable(flt.available, level) then Dropped
            else
              match MatchAppEvent(flt.events, line)
              case None => Dropped
              case Some(ev) =>
                if flt.keyword != "" && IndexOf(Lower(line), flt.keyword) == -1 then Dropped
                else Pass(Row(date, level, line), ev)
  }

  /**
   * A row the scan keeps is what screening makes of its own text; so its
   * line carries the level asked for, its date is inside the window, its
   * level is shown, it mentions an application event and holds the keyword.
   */
  lemma PassMeans(flt: Filter, line: string)
    requires Screen(flt, line).Pass?
    ensures var r := Screen(flt, line).row;
      r.text == line && r.level == Token(ClassifyLevel(line)) && IsAvailable(flt.available, r.level)
    ensures flt.level.Some? ==> Contains(line, Token(flt.level.value))
    ensures var words := Tokens(line, ' ');
      |words| >= 2 && Screen(flt, line).row.date == words[0] + " " + words[1]
    ensures var t := flt.parse(Screen(flt, line).row.date);
      t.Some? && flt.initDate <= t.value <= flt.endDate
    ensures MatchAppEvent(flt.events, line) == Some(Screen(flt, line).event)
    ensures flt.keyword != "" ==> Contains(Lower(line), flt.keyword)
  {
  }

  /** The running state of a scan: passing lines counted, rows kept, their levels and events. */
  datatype Scan = Scan(counter: int, rows: seq<Row>, levels: set<string>, events: Entries)

  /** Go on with the next line, stop this file, or stop the whole scan. */
  datatype Flow = Next | StopFile | StopAll

  /**
   * One screened line. Reading files newest line first, a line after the
   * window is passed over and one before it ends the scan; over HTTP the
   * roles are swapped. A passing line is counted, skipped below `start`,
   * ends the file above `end`, and is otherwise kept.
   */
  function Take(w: Window, st: Scan, s: Screened, fromFile: bool): (r: (Scan, Flow))
  {
    match s
    case Dropped => (st, Next)
    case Late => if fromFile then (st, Next) else (st, StopAll)
    case Early => if fromFile then (st, StopAll) else (st, Next)
    case Pass(row, ev) =>
      var c := st.counter + 1;
      if w.start != -1 && c < w.start then (st.(counter := c), Next)
      else if w.end != -1 && c > w.end then (st.(counter := c), StopFile)
      else (Scan(c, st.rows + [row], st.levels + {row.level}, PutIfAbsent(st.events, ev.name, ev.value)), Next)
  }

  /** The lines of one file, until one of them stops the file or the scan. */
  function ScanLines(flt: Filter, w: Window, lines: seq<string>, st: Scan, fromFile: bool): (r: (Scan, Flow))
    decreases |lines|
  {
    if lines == [] then (st, Next)
    else
      var (st', flow) := Take(w, st, Screen(flt, Strip(lines[0])), fromFile);
      if flow == Next then ScanLines(flt, w, lines[1..], st', fromFile) else (st', flow)
  }

  /**
   * The files in order (None for a file too short to read). After each file
   * read, the scan stops when it was stopped or once `counter >= end`.
   */
  function ScanFiles(flt: Filter, w: Window, files: seq<Option<seq<string>>>, st: Scan, fromFile: bool): (r: Scan)
    decreases |files|, 1
  {
    if files == [] then st
    else
      match files[0]
      case None => ScanFiles(flt, w, files[1..], st, fromFile)
      case Some(lines) => AfterFile(flt, w, ScanLines(flt, w, lines, st, fromFile), files[1..], fromFile)
  }

  function AfterFile(flt: Filter, w: Window, r: (Scan, Flow), rest: seq<Option<seq<string>>>, fromFile: bool): (s: Scan)
    decreases |rest| + 1, 0
  {
    if r.1 == StopAll || r.0.counter >= w.end then r.0 else ScanFiles(flt, w, rest, r.0, fromFile)
  }

  const Empty: Scan := Scan(0, [], {}, [])

  function RowLevels(rows: seq<Row>): (r: set<string>)
  {
    set i | 0 <= i < |rows| :: rows[i].level
  }

  /**
   * How many of the first `c` passing lines a window keeps: those numbered
   * from `start` (1 when it is -1 or below 1) up to `end` (no limit when it is -1).
   */
  function Kept(w: Window, c: int): (n: nat)
  {
    var lo := if w.start <= 1 then 1 else w.start;
    var top := if w.end == -1 || c <= w.end then c else w.end;
    if top - lo + 1 < 0 then 0 else top - lo + 1
  }

  /** A row is what screening makes of its own text. */
  predicate Admitted(flt: Filter, r: Row)
  {
    Screen(flt, r.text).Pass? && Screen(flt, r.text).row == r
  }

  /**
   * What a scan keeps true: every row admitted, with its event recorded;
   * the levels are exactly the rows' levels; the events stay in name order;
   * as many rows as passing lines numbered inside the window.
   */
  ghost predicate Sound(flt: Filter, w: Window, st: Scan)
  {
    && st.counter >= 0
    && Recorded(flt, st.rows, st.events)
    && st.levels == RowLevels(st.rows)
    && EventsFrom(flt, st.rows, st.events)
    && Sorted(st.events)
    && |st.rows| == Kept(w, st.counter)
  }

  /** The events map holds exactly the rows' events, each under its own name with its own value. */
  ghost predicate EventsFrom(flt: Filter, rows: seq<Row>, events: Entries)
  {
    && ToMap(events).Keys == EventNames(flt, rows)
    && (forall k :: k in ToMap(events) ==> Entry(k, ToMap(events)[k]) in RowEvents(flt, rows))
  }

  lemma RowLevelsSnoc(rows: seq<Row>, r: Row)
    ensures RowLevels(rows + [r]) == RowLevels(rows) + {r.level}
  {
    var rows' := rows + [r];
    forall x | x in RowLevels(rows') ensures x in RowLevels(rows) + {r.level} {
      var i :| 0 <= i < |rows'| && rows'[i].level == x;
      if i < |rows| {
        assert rows'[i] == rows[i];
      }
    }
    forall x | x in RowLevels(rows) + {r.level} ensures x in RowLevels(rows') {
      if x != r.level {
        var i :| 0 <= i < |rows| && rows[i].level == x;
        assert rows'[i] == rows[i];
      } else {
        assert rows'[|rows|] == r;
      }
    }
  }

  /** The application event screening finds in a row's text, if it passes. */
  function EventOf(flt: Filter, r: Row): (e: Option<Entry>)
  {
    var s := Screen(flt, r.text);
    if s.Pass? then Some(s.event) else None
  }

  /** The application events screening finds in the rows. */
  function RowEvents(flt: Filter, rows: seq<Row>): (r: set<Entry>)
  {
    set i | 0 <= i < |rows| && EventOf(flt, rows[i]).Some? :: EventOf(flt, rows[i]).value
  }

  /** The names of those events. */
  function EventNames(flt: Filter, rows: seq<Row>): (r: set<string>)
  {
    set i | 0 <= i < |rows| && EventOf(flt, rows[i]).Some? :: EventOf(flt, rows[i]).value.name
  }

  lemma RowEventsSnoc(flt: Filter, rows: seq<Row>, r: Row)
    requires Admitted(flt, r)
    ensures RowEvents(flt, rows + [r]) == RowEvents(flt, rows) + {Screen(flt, r.text).event}
    ensures EventNames(flt, rows + [r]) == EventNames(flt, rows) + {Screen(flt, r.text).event.name}
  {
    var e := EventOf(flt, r);
    assert e == Some(Screen(flt, r.text).event);
    RowEventsAppend(flt, rows, r, e.value);
    EventNamesAppend(flt, rows, r, e.value);
  }

  lemma RowEventsAppend(flt: Filter, rows: seq<Row>, r: Row, ev: Entry)
    requires EventOf(flt, r) == Some(ev)
    ensures RowEvents(flt, rows + [r]) == RowEvents(flt, rows) + {ev}
  {
    var rows' := rows + [r];
    forall i | 0 <= i < |rows| ensures rows'[i] == rows[i] { }
    assert rows'[|rows|] == r;
    forall x | x in RowEvents(flt, rows') ensures x in RowEvents(flt, rows) + {ev} {
      var i :| 0 <= i < |rows'| && EventOf(flt, rows'[i]).Some? && EventOf(flt, rows'[i]).value == x;
      if i < |rows| {
        assert EventOf(flt, rows[i]).value == x;
      }
    }
  }

  lemma EventNamesAppend(flt: Filter, rows: seq<Row>, r: Row, ev: Entry)
    requires EventOf(flt, r) == Some(ev)
    ensures EventNames(flt, rows + [r]) == EventNames(flt, rows) + {ev.name}
  {
    var rows' := rows + [r];
    forall i | 0 <= i < |rows| ensures rows'[i] == rows[i] { }
    assert rows'[|rows|] == r;
    forall x | x in EventNames(flt, rows') ensures x in EventNames(flt, rows) + {ev.name} {
      var i :| 0 <= i < |rows'| && EventOf(flt, rows'[i]).Some? && EventOf(flt, rows'[i]).value.name == x;
      if i < |rows| {
        assert EventOf(flt, rows[i]).value.name == x;
      }
    }
  }

  /** Recording a kept row's event keeps the map's names and values those of the rows' events. */
  lemma EventsSnoc(flt: Filter, rows: seq<Row>, events: Entries, row: Row, ev: Entry)
    requires Sorted(events) && Admitted(flt, row) && Screen(flt, row.text).event == ev
    requires ToMap(events).Keys == EventNames(flt, rows)
    requires forall k :: k in ToMap(events) ==> Entry(k, ToMap(events)[k]) in RowEvents(flt, rows)
    ensures var m := ToMap(PutIfAbsent(events, ev.name, ev.value));
      m.Keys == EventNames(flt, rows + [row]) &&
      forall k :: k in m ==> Entry(k, m[k]) in RowEvents(flt, rows + [row])
  {
    PutIfAbsentSpec(events, ev.name, ev.value);
    RowEventsSnoc(flt, rows, row);
    var m := ToMap(PutIfAbsent(events, ev.name, ev.value));
    if ev.name in ToMap(events) {
      assert m == ToMap(events);
    } else {
      assert m == ToMap(events)[ev.name := ev.value];
      forall k | k in m ensures Entry(k, m[k]) in RowEvents(flt, rows + [row]) {
        if k == ev.name {
          assert Entry(k, m[k]) == ev;
        }
      }
    }
  }

  /** Every row admitted, with its event's name recorded. */
  predicate Recorded(flt: Filter, rows: seq<Row>, events: Entries)
  {
    forall i :: 0 <= i < |rows| ==> Admitted(flt, rows[i]) && Screen(flt, rows[i].text).event.name in ToMap(events)
  }

  lemma RecordedSnoc(flt: Filter, rows: seq<Row>, events: Entries, row: Row, events': Entries)
    requires Recorded(flt, rows, events)
    requires Admitted(flt, row) && Screen(flt, row.text).event.name in ToMap(events')
    requires ToMap(events).Keys <= ToMap(events').Keys
    ensures Recorded(flt, rows + [row], events')
  {
    var rows' := rows + [row];
    forall i | 0 <= i < |rows'|
      ensures Admitted(flt, rows'[i]) && Screen(flt, rows'[i].text).event.name in ToMap(events')
    {
      if i < |rows| {
        assert rows'[i] == rows[i];
      } else {
        assert rows'[i] == row;
      }
    }
  }

  /** Keeping an admitted row, numbered inside the window, keeps a scan sound. */
  lemma KeepRowSound(flt: Filter, w: Window, st: Scan, row: Row, ev: Entry)
    requires Sound(flt, w, st)
    requires Admitted(flt, row) && Screen(flt, row.text).event == ev
    requires w.start != -1 ==> st.counter + 1 >= w.start
    requires w.end != -1 ==> st.counter + 1 <= w.end
    ensures Sound(flt, w, Scan(st.counter + 1, st.rows + [row], st.levels + {row.level},
                               PutIfAbsent(st.events, ev.name, ev.value)))
  {
    KeepRowEvents(flt, st.rows, st.events, row, ev);
    RowLevelsSnoc(st.rows, row);
    KeptInside(w, st.counter);
  }

  /** Keeping a row leaves the events map sorted, recording every kept row and holding only their events. */
  lemma KeepRowEvents(flt: Filter, rows: seq<Row>, events: Entries, row: Row, ev: Entry)
    requires Recorded(flt, rows, events) && EventsFrom(flt, rows, events) && Sorted(events)
    requires Admitted(flt, row) && Screen(flt, row.text).event == ev
    ensures var events' := PutIfAbsent(events, ev.name, ev.value);
      Recorded(flt, rows + [row], events') && EventsFrom(flt, rows + [row], events') && Sorted(events')
  {
    var events' := PutIfAbsent(events, ev.name, ev.value);
    PutIfAbsentSpec(events, ev.name, ev.value);
    assert ToMap(events).Keys <= ToMap(events').Keys && ev.name in ToMap(events');
    RecordedSnoc(flt, rows, events, row, events');
    EventsSnoc(flt, rows, events, row, ev);
  }

  lemma TakeSound(flt: Filter, w: Window, st: Scan, line: string, fromFile: bool)
    requires Sound(flt, w, st)
    ensures var r := Take(w, st, Screen(flt, line), fromFile);
      Sound(flt, w, r.0) && r.0.counter >= st.counter
  {
    var s := Screen(flt, line);
    if s.Pass? {
      TakePassSound(flt, w, st, s.row, s.event, fromFile);
    }
  }

  lemma TakePassSound(flt: Filter, w: Window, st: Scan, row: Row, ev: Entry, fromFile: bool)
    requires Sound(flt, w, st)
    requires Admitted(flt, row) && Screen(flt, row.text).event == ev
    ensures var r := Take(w, st, Pass(row, ev), fromFile);
      Sound(flt, w, r.0) && r.0.counter >= st.counter
  {
    var c := st.counter + 1;
    var r := Take(w, st, Pass(row, ev), fromFile);
    KeptStep(w, st.counter);
    if !(w.start != -1 && c < w.start) && !(w.end != -1 && c > w.end) {
      assert r.0 == Scan(c, st.rows + [row], st.levels + {row.level}, PutIfAbsent(st.events, ev.name, ev.value));
      KeepRowSound(flt, w, st, row, ev);
    } else {
      assert r.0 == st.(counter := c);
      SkipRowSound(flt, w, st);
    }
  }

  /** Counting a passing line the window does not keep leaves a scan sound. */
  lemma SkipRowSound(flt: Filter, w: Window, st: Scan)
    requires Sound(flt, w, st)
    requires Kept(w, st.counter + 1) == Kept(w, st.counter)
    ensures Sound(flt, w, st.(counter := st.counter + 1))
  {
  }

  /** A passing line numbered inside the window adds one to the kept count. */
  lemma KeptInside(w: Window, c: int)
    requires c >= 0
    requires w.start != -1 ==> c + 1 >= w.start
    requires w.end != -1 ==> c + 1 <= w.end
    ensures Kept(w, c + 1) == Kept(w, c) + 1
  {
    KeptStep(w, c);
  }

  /** The next passing line adds one to the kept count exactly when the window keeps it. */
  lemma KeptStep(w: Window, c: int)
    requires c >= 0
    ensures var keep := !(w.start != -1 && c + 1 < w.start) && !(w.end != -1 && c + 1 > w.end);
      Kept(w, c + 1) == if keep then Kept(w, c) + 1 else Kept(w, c)
  {
  }

  lemma {:induction false} ScanLinesSound(flt: Filter, w: Window, lines: seq<string>, st: Scan, fromFile: bool)
    requires Sound(flt, w, st)
    ensures var r := ScanLines(flt, w, lines, st, fromFile);
      Sound(flt, w, r.0) && r.0.counter >= st.counter
    decreases |lines|
  {
    if lines != [] {
      TakeSound(flt, w, st, Strip(lines[0]), fromFile);
      var r := Take(w, st, Screen(flt, Strip(lines[0])), fromFile);
      if r.1 == Next {
        ScanLinesSound(flt, w, lines[1..], r.0, fromFile);
      }
    }
  }

  lemma {:induction false} ScanFilesSound(flt: Filter, w: Window, files: seq<Option<seq<string>>>, st: Scan, fromFile: bool)
    requires Sound(flt, w, st)
    ensures Sound(flt, w, ScanFiles(flt, w, files, st, fromFile))
    decreases |files|
  {
    if files != [] {
      match files[0]
      case None =>
        ScanFilesSound(flt, w, files[1..], st, fromFile);
      case Some(lines) =>
        var r := ScanLines(flt, w, lines, st, fromFile);
        ScanLinesSound(flt, w, lines, st, fromFile);
        if !(r.1 == StopAll || r.0.counter >= w.end) {
          ScanFilesSound(flt, w, files[1..], r.0, fromFile);
        }
    }
  }

  /**
   * A scan from nothing keeps only admitted rows, records the level of each
   * and its event, keeps the events in name order, and keeps one row for
   * each passing line numbered inside the window, so at most end - start + 1.
   */
  lemma ScanSound(flt: Filter, w: Window, files: seq<Option<seq<string>>>, fromFile: bool)
    ensures var r := ScanFiles(flt, w, files, Empty, fromFile);
      (forall i :: 0 <= i < |r.rows| ==> Admitted(flt, r.rows[i])) &&
      (forall i :: 0 <= i < |r.rows| ==> Screen(flt, r.rows[i].text).event.name in ToMap(r.events)) &&
      r.levels == RowLevels(r.rows) && Sorted(r.events)
    ensures var r := ScanFiles(flt, w, files, Empty, fromFile);
      ToMap(r.events).Keys == EventNames(flt, r.rows) &&
      forall k :: k in ToMap(r.events) ==> Entry(k, ToMap(r.events)[k]) in RowEvents(flt, r.rows)
    ensures var r := ScanFiles(flt, w, files, Empty, fromFile);
      |r.rows| == Kept(w, r.counter) && (w.start >= 1 && w.end >= 0 ==> |r.rows| <= if w.end < w.start then 0 else w.end - w.start + 1)
  {
    ScanFilesSound(flt, w, files, Empty, fromFile);
  }

  /**
   * With `end == -1` the check after each file, `counter >= end`, always
   * holds: the scan never reads past the first file it reads.
   */
  lemma {:induction false} OpenEndReadsOneFile(flt: Filter, start: int, lines: seq<string>, rest: seq<Option<seq<string>>>, fromFile: bool)
    ensures ScanFiles(flt, Window(start, -1), [Some(lines)] + rest, Empty, fromFile) ==
      ScanLines(flt, Window(start, -1), lines, Empty, fromFile).0
  {
    var w := Window(start, -1);
    ScanLinesCounter(flt, w, lines, Empty, fromFile);
    assert ([Some(lines)] + rest)[1..] == rest;
  }

  lemma {:induction false} ScanLinesCounter(flt: Filter, w: Window, lines: seq<string>, st: Scan, fromFile: bool)
    ensures ScanLines(flt, w, lines, st, fromFile).0.counter >= st.counter
    decreases |lines|
  {
    if lines != [] {
      var r := Take(w, st, Screen(flt, Strip(lines[0])), fromFile);
      if r.1 == Next {
        ScanLinesCounter(flt, w, lines[1..], r.0, fromFile);
      }
    }
  }

  /** The order-preserving expansion of the first-line rule: one line, then the rest. */
  lemma ScanLinesCons(flt: Filter, w: Window, line: string, lines: seq<string>, st: Scan, fromFile: bool)
    ensures ScanLines(flt, w, [line] + lines, st, fromFile) ==
      var r := Take(w, st, Screen(flt, Strip(line)), fromFile);
      if r.1 == Next then ScanLines(flt, w, lines, r.0, fromFile) else r
  {
    assert ([line] + lines)[1..] == lines;
  }

  lemma ScanLinesAt(flt: Filter, w: Window, lines: seq<string>, i: nat, st: Scan, fromFile: bool)
    requires i < |lines|
    ensures ScanLines(flt, w, lines[i..], st, fromFile) ==
      var r := Take(w, st, Screen(flt, Strip(lines[i])), fromFile);
      if r.1 == Next then ScanLines(flt, w, lines[i + 1..], r.0, fromFile) else r
  {
    assert lines[i..][0] == lines[i];
    assert lines[i..][1..] == lines[i + 1..];
  }

  /** The lines of a file as screening sees them, in read order. */
  function Screens(flt: Filter, lines: seq<string>): (ss: seq<Screened>)
    ensures |ss| == |lines|
    decreases |lines|
  {
    if lines == [] then [] else [Screen(flt, Strip(lines[0]))] + Screens(flt, lines[1..])
  }

  /** A line that ends the whole scan: one before the window reading files newest first, one after it over HTTP. */
  predicate Stops(s: Screened, fromFile: bool)
  {
    if fromFile then s.Early? else s.Late?
  }

  /** Some line ends the whole scan. */
  predicate HasStop(ss: seq<Screened>, fromFile: bool)
  {
    exists i :: 0 <= i < |ss| && Stops(ss[i], fromFile)
  }

  /** The rows of the passing lines, in read order, up to the first line that ends the scan. */
  function PassRows(ss: seq<Screened>, fromFile: bool): (r: seq<Row>)
    decreases |ss|
  {
    if ss == [] then []
    else if Stops(ss[0], fromFile) then []
    else (if ss[0].Pass? then [ss[0].row] else []) + PassRows(ss[1..], fromFile)
  }

  /** The files as screening sees them: each file read, line by line, in read order. */
  function ScreenFiles(flt: Filter, files: seq<Option<seq<string>>>): (sf: seq<Option<seq<Screened>>>)
  {
    seq(|files|, i requires 0 <= i < |files| => if files[i].Some? then Some(Screens(flt, files[i].value)) else None)
  }

  /**
   * The passing lines a scan reaches, in read order, once `c` have passed:
   * each file's up to its first line that ends the scan; the next file is
   * read only when this one had no such line and fewer than `end` lines
   * have passed in all.
   */
  function ReachedFrom(w: Window, sf: seq<Option<seq<Screened>>>, c: int, fromFile: bool): (r: seq<Row>)
    decreases |sf|
  {
    if sf == [] then []
    else
      match sf[0]
      case None => ReachedFrom(w, sf[1..], c, fromFile)
      case Some(ss) =>
        var p := PassRows(ss, fromFile);
        if HasStop(ss, fromFile) || c + |p| >= w.end then p
        else p + ReachedFrom(w, sf[1..], c + |p|, fromFile)
  }

  /** The passing lines a scan of `files` reaches once `c` have passed. */
  function Reached(flt: Filter, w: Window, files: seq<Option<seq<string>>>, c: int, fromFile: bool): (r: seq<Row>)
  {
    ReachedFrom(w, ScreenFiles(flt, files), c, fromFile)
  }

  /** The scan of the files, taking their screenings file by file: ScanFiles on screened lines. */
  function TakeFiles(w: Window, sf: seq<Option<seq<Screened>>>, st: Scan, fromFile: bool): (r: Scan)
    decreases |sf|, 1
  {
    if sf == [] then st
    else
      match sf[0]
      case None => TakeFiles(w, sf[1..], st, fromFile)
      case Some(ss) => AfterTake(w, TakeAll(w, ss, st, fromFile), sf[1..], fromFile)
  }

  function AfterTake(w: Window, r: (Scan, Flow), rest: seq<Option<seq<Screened>>>, fromFile: bool): (s: Scan)
    decreases |rest| + 1, 0
  {
    if r.1 == StopAll || r.0.counter >= w.end then r.0 else TakeFiles(w, rest, r.0, fromFile)
  }

  /** The window keeps the passing line numbered `n`, counting from 1. */
  predicate InWindow(w: Window, n: int)
  {
    (w.start == -1 || n >= w.start) && (w.end == -1 || n <= w.end)
  }

  /** Of rows numbered c + 1, c + 2, ..., those the window keeps, in order. */
  function Numbered(w: Window, c: int, rows: seq<Row>): (r: seq<Row>)
    decreases |rows|
  {
    if rows == [] then []
    else (if InWindow(w, c + 1) then [rows[0]] else []) + Numbered(w, c + 1, rows[1..])
  }

  /** Past the end of a bounded window nothing more is kept. */
  lemma {:induction false} NumberedPastEnd(w: Window, c: int, rows: seq<Row>)
    requires w.end != -1 && c >= w.end
    ensures Numbered(w, c, rows) == []
    decreases |rows|
  {
    if rows != [] {
      NumberedPastEnd(w, c + 1, rows[1..]);
    }
  }

  /** Numbering runs on across a concatenation. */
  lemma {:induction false} NumberedAppend(w: Window, c: int, p: seq<Row>, q: seq<Row>)
    ensures Numbered(w, c, p + q) == Numbered(w, c, p) + Numbered(w, c + |p|, q)
    decreases |p|
  {
    if p == [] {
      assert p + q == q;
    } else {
      var head := if InWindow(w, c + 1) then [p[0]] else [];
      assert (p + q)[0] == p[0] && (p + q)[1..] == p[1..] + q;
      assert Numbered(w, c, p + q) == head + Numbered(w, c + 1, p[1..] + q);
      assert Numbered(w, c, p) == head + Numbered(w, c + 1, p[1..]);
      assert c + 1 + |p[1..]| == c + |p|;
      NumberedAppend(w, c + 1, p[1..], q);
      assert head + (Numbered(w, c + 1, p[1..]) + Numbered(w, c + |p|, q)) ==
        (head + Numbered(w, c + 1, p[1..])) + Numbered(w, c + |p|, q);
    }
  }

  lemma NumberedCons(w: Window, rows: seq<Row>, c: int, row: Row, p: seq<Row>)
    ensures rows + Numbered(w, c, [row] + p) == (rows + if InWindow(w, c + 1) then [row] else []) + Numbered(w, c + 1, p)
  {
    var q := [row] + p;
    assert q[0] == row && q[1..] == p;
  }

  /** The scan of a file's lines is the same taking of their screenings in order. */
  function TakeAll(w: Window, ss: seq<Screened>, st: Scan, fromFile: bool): (r: (Scan, Flow))
    decreases |ss|
  {
    if ss == [] then (st, Next)
    else
      var (st', flow) := Take(w, st, ss[0], fromFile);
      if flow == Next then TakeAll(w, ss[1..], st', fromFile) else (st', flow)
  }

  lemma {:induction false} ScanLinesScreens(flt: Filter, w: Window, lines: seq<string>, st: Scan, fromFile: bool)
    ensures ScanLines(flt, w, lines, st, fromFile) == TakeAll(w, Screens(flt, lines), st, fromFile)
    decreases |lines|
  {
    if lines != [] {
      var s := Screen(flt, Strip(lines[0]));
      TakeAllCons(w, s, Screens(flt, lines[1..]), st, fromFile);
      var t := Take(w, st, s, fromFile);
      if t.1 == Next {
        ScanLinesScreens(flt, w, lines[1..], t.0, fromFile);
      }
    }
  }

  lemma TakeAllCons(w: Window, s: Screened, ss: seq<Screened>, st: Scan, fromFile: bool)
    ensures TakeAll(w, [s] + ss, st, fromFile) ==
      var t := Take(w, st, s, fromFile);
      if t.1 == Next then TakeAll(w, ss, t.0, fromFile) else t
  {
    assert ([s] + ss)[0] == s && ([s] + ss)[1..] == ss;
  }

  /** What one screened line does to the rows, the count and the flow. */
  lemma TakeStep(w: Window, st: Scan, s: Screened, fromFile: bool)
    ensures var t := Take(w, st, s, fromFile);
      (Stops(s, fromFile) ==> t == (st, StopAll)) &&
      (!Stops(s, fromFile) && !s.Pass? ==> t == (st, Next)) &&
      (s.Pass? ==>
        t.1 != StopAll && t.0.counter == st.counter + 1 &&
        t.0.rows == st.rows + (if InWindow(w, st.counter + 1) then [s.row] else []) &&
        (t.1 == StopFile ==> w.end != -1 && st.counter + 1 > w.end))
  {
  }

  lemma {:induction false} TakeAllReach(w: Window, ss: seq<Screened>, st: Scan, fromFile: bool)
    ensures var r := TakeAll(w, ss, st, fromFile);
      var p := PassRows(ss, fromFile);
      r.0.rows == st.rows + Numbered(w, st.counter, p) &&
      (r.1 != StopFile ==> r.0.counter == st.counter + |p| && (r.1 == StopAll <==> HasStop(ss, fromFile))) &&
      (r.1 == StopFile ==> w.end != -1 && w.end < r.0.counter <= st.counter + |p|)
    decreases |ss|
  {
    if ss != [] {
      var s := ss[0];
      var t := Take(w, st, s, fromFile);
      var p := PassRows(ss[1..], fromFile);
      TakeStep(w, st, s, fromFile);
      assert HasStop(ss, fromFile) <==> Stops(s, fromFile) || HasStop(ss[1..], fromFile) by {
        if HasStop(ss[1..], fromFile) {
          var i :| 0 <= i < |ss[1..]| && Stops(ss[1..][i], fromFile);
          assert ss[i + 1] == ss[1..][i];
        }
        if HasStop(ss, fromFile) && !Stops(s, fromFile) {
          var i :| 0 <= i < |ss| && Stops(ss[i], fromFile);
          assert ss[1..][i - 1] == ss[i];
        }
      }
      if t.1 == Next {
        TakeAllReach(w, ss[1..], t.0, fromFile);
        if s.Pass? {
          assert PassRows(ss, fromFile) == [s.row] + p;
          NumberedCons(w, st.rows, st.counter, s.row, p);
        } else {
          assert PassRows(ss, fromFile) == p;
        }
      } else if t.1 == StopFile {
        NumberedPastEnd(w, st.counter + 1, p);
      }
    } else {
      assert !HasStop(ss, fromFile);
    }
  }

  /**
   * One file: the rows gain exactly the passing lines up to the first line
   * that ends the scan, numbered on from the count and kept by the window.
   * The file ends the scan iff it holds such a line, unless the window's
   * end stopped it first, once more lines had passed than `end`.
   */
  lemma ScanLinesReach(flt: Filter, w: Window, lines: seq<string>, st: Scan, fromFile: bool)
    ensures var r := ScanLines(flt, w, lines, st, fromFile);
      var ss := Screens(flt, lines);
      var p := PassRows(ss, fromFile);
      r.0.rows == st.rows + Numbered(w, st.counter, p) &&
      (r.1 != StopFile ==> r.0.counter == st.counter + |p| && (r.1 == StopAll <==> HasStop(ss, fromFile))) &&
      (r.1 == StopFile ==> w.end != -1 && w.end < r.0.counter <= st.counter + |p|)
  {
    ScanLinesScreens(flt, w, lines, st, fromFile);
    TakeAllReach(w, Screens(flt, lines), st, fromFile);
  }

  /** Scanning the files is taking their screenings file by file. */
  lemma {:induction false} ScanFilesTake(flt: Filter, w: Window, files: seq<Option<seq<string>>>, st: Scan, fromFile: bool)
    ensures ScanFiles(flt, w, files, st, fromFile) == TakeFiles(w, ScreenFiles(flt, files), st, fromFile)
    decreases |files|
  {
    if files != [] {
      ScreenFilesCons(flt, files);
      if files[0].None? {
        ScanFilesTake(flt, w, files[1..], st, fromFile);
      } else {
        ScanFilesTake(flt, w, files[1..], ScanLines(flt, w, files[0].value, st, fromFile).0, fromFile);
        ReadFileTake(flt, w, files, st, fromFile);
      }
    }
  }

  lemma ScreenFilesCons(flt: Filter, files: seq<Option<seq<string>>>)
    requires files != []
    ensures var sf := ScreenFiles(flt, files);
      sf != [] && sf[1..] == ScreenFiles(flt, files[1..]) &&
      sf[0] == if files[0].Some? then Some(Screens(flt, files[0].value)) else None
  {
  }

  /** A file read by the scan is the same taking of its screenings. */
  lemma ReadFileTake(flt: Filter, w: Window, files: seq<Option<seq<string>>>, st: Scan, fromFile: bool)
    requires files != [] && files[0].Some?
    requires var r := ScanLines(flt, w, files[0].value, st, fromFile);
      ScanFiles(flt, w, files[1..], r.0, fromFile) == TakeFiles(w, ScreenFiles(flt, files[1..]), r.0, fromFile)
    ensures ScanFiles(flt, w, files, st, fromFile) == TakeFiles(w, ScreenFiles(flt, files), st, fromFile)
  {
    ScreenFilesCons(flt, files);
    ScanLinesScreens(flt, w, files[0].value, st, fromFile);
  }

  /**
   * The whole scan: the rows gain exactly the passing lines the scan
   * reaches, numbered on from the count and kept by the window.
   */
  lemma ScanFilesReach(flt: Filter, w: Window, files: seq<Option<seq<string>>>, st: Scan, fromFile: bool)
    ensures ScanFiles(flt, w, files, st, fromFile).rows ==
      st.rows + Numbered(w, st.counter, Reached(flt, w, files, st.counter, fromFile))
  {
    ScanFilesTake(flt, w, files, st, fromFile);
    TakeFilesReach(w, ScreenFiles(flt, files), st, fromFile);
  }

  /** Taking screened files keeps exactly the passing lines they reach, numbered on from the count. */
  lemma {:induction false} TakeFilesReach(w: Window, sf: seq<Option<seq<Screened>>>, st: Scan, fromFile: bool)
    ensures TakeFiles(w, sf, st, fromFile).rows ==
      st.rows + Numbered(w, st.counter, ReachedFrom(w, sf, st.counter, fromFile))
    decreases |sf|
  {
    if sf == [] {
      assert Numbered(w, st.counter, []) == [];
    } else if sf[0].None? {
      TakeFilesReach(w, sf[1..], st, fromFile);
    } else {
      TakeFilesReach(w, sf[1..], TakeAll(w, sf[0].value, st, fromFile).0, fromFile);
      FileReach(w, sf[0].value, sf[1..], st, fromFile);
    }
  }

  /** A file's rows, then those of the rest of the scan unless the file ended it. */
  lemma FileReach(w: Window, ss: seq<Screened>, rest: seq<Option<seq<Screened>>>, st: Scan, fromFile: bool)
    requires var r := TakeAll(w, ss, st, fromFile);
      TakeFiles(w, rest, r.0, fromFile).rows ==
      r.0.rows + Numbered(w, r.0.counter, ReachedFrom(w, rest, r.0.counter, fromFile))
    ensures var p := PassRows(ss, fromFile);
      AfterTake(w, TakeAll(w, ss, st, fromFile), rest, fromFile).rows ==
      st.rows + Numbered(w, st.counter,
        if HasStop(ss, fromFile) || st.counter + |p| >= w.end then p
        else p + ReachedFrom(w, rest, st.counter + |p|, fromFile))
  {
    var r := TakeAll(w, ss, st, fromFile);
    var p := PassRows(ss, fromFile);
    var stop := HasStop(ss, fromFile) || st.counter + |p| >= w.end;
    TakeAllReach(w, ss, st, fromFile);
    assert (r.1 == StopAll || r.0.counter >= w.end) == stop;
    if !stop {
      ReachStep(w, st, r.0, p, ReachedFrom(w, rest, st.counter + |p|, fromFile), TakeFiles(w, rest, r.0, fromFile).rows);
    }
  }

  /** Rows numbered on from a file's last count join those of the file. */
  lemma ReachStep(w: Window, st: Scan, mid: Scan, p: seq<Row>, more: seq<Row>, rows: seq<Row>)
    requires mid.rows == st.rows + Numbered(w, st.counter, p)
    requires mid.counter == st.counter + |p|
    requires rows == mid.rows + Numbered(w, mid.counter, more)
    ensures rows == st.rows + Numbered(w, st.counter, p + more)
  {
    var front, back := Numbered(w, st.counter, p), Numbered(w, mid.counter, more);
    NumberedAppend(w, st.counter, p, more);
    assert Numbered(w, st.counter, p + more) == front + back;
    assert rows == (st.rows + front) + back;
    ConcatAssoc(st.rows, front, back);
  }

  lemma ConcatAssoc<T>(a: seq<T>, b: seq<T>, c: seq<T>)
    ensures (a + b) + c == a + (b + c)
  {
  }

  lemma {:induction false} ScreensAppend(flt: Filter, a: seq<string>, b: seq<string>)
    ensures Screens(flt, a + b) == Screens(flt, a) + Screens(flt, b)
    decreases |a|
  {
    if a == [] {
      assert a + b == b;
    } else {
      assert (a + b)[0] == a[0] && (a + b)[1..] == a[1..] + b;
      ScreensAppend(flt, a[1..], b);
    }
  }

  lemma {:induction false} TakeAllAppend(w: Window, a: seq<Screened>, b: seq<Screened>, st: Scan, fromFile: bool)
    ensures TakeAll(w, a + b, st, fromFile) ==
      var r := TakeAll(w, a, st, fromFile);
      if r.1 == Next then TakeAll(w, b, r.0, fromFile) else r
    decreases |a|
  {
    if a == [] {
      assert a + b == b;
    } else {
      assert (a + b)[0] == a[0] && (a + b)[1..] == a[1..] + b;
      var t := Take(w, st, a[0], fromFile);
      if t.1 == Next {
        TakeAllAppend(w, a[1..], b, t.0, fromFile);
      }
    }
  }

  /**
   * A line that ends the scan (one before the window reading files, one
   * after it over HTTP) is the last line read: what follows it in its file,
   * and every later file, leaves the scan's rows, levels and events as they were.
   */
  lemma StopLineEndsScan(flt: Filter, w: Window, pre: seq<string>, line: string, post: seq<string>,
                         rest: seq<Option<seq<string>>>, st: Scan, fromFile: bool)
    requires Stops(Screen(flt, Strip(line)), fromFile)
    ensures ScanFiles(flt, w, [Some(pre + [line] + post)] + rest, st, fromFile) ==
      ScanLines(flt, w, pre + [line], st, fromFile).0
  {
    var head := pre + [line];
    var r := ScanLines(flt, w, head, st, fromFile);
    var ss := Screens(flt, head);
    assert HasStop(ss, fromFile) by {
      ScreensAppend(flt, pre, [line]);
      assert Screens(flt, [line]) == [Screen(flt, Strip(line))];
      assert ss[|pre|] == Screen(flt, Strip(line));
    }
    ScanLinesReach(flt, w, head, st, fromFile);
    ScanLinesScreens(flt, w, head, st, fromFile);
    ScanLinesScreens(flt, w, head + post, st, fromFile);
    ScreensAppend(flt, head, post);
    TakeAllAppend(w, ss, Screens(flt, post), st, fromFile);
    assert ([Some(head + post)] + rest)[0] == Some(head + post) && ([Some(head + post)] + rest)[1..] == rest;
    assert pre + [line] + post == head + post;
  }

  /**
   * A scan from nothing keeps exactly the passing lines it reaches whose
   * numbers, counting from 1 in read order, are inside the window.
   */
  lemma ScanComplete(flt: Filter, w: Window, files: seq<Option<seq<string>>>, fromFile: bool)
    ensures ScanFiles(flt, w, files, Empty, fromFile).rows == Numbered(w, 0, Reached(flt, w, files, 0, fromFile))
  {
    ScanFilesReach(flt, w, files, Empty, fromFile);
  }

  /** The files as getEventsData reads them. */
  function AllFileLines(files: seq<seq<byte>>): (r: seq<Option<seq<string>>>)
  {
    seq(|files|, i requires 0 <= i < |files| => FileLines(files[i]))
  }

  /** The files as getEventsDataByHTTP receives them: none is skipped. */
  function AllFetched(files: seq<seq<string>>): (r: seq<Option<seq<string>>>)
  {
    seq(|files|, i requires 0 <= i < |files| => Some(files[i]))
  }

  class Table {
    /** The SuperService part of the object. */
    const cfg: Service
    /** logLevels: the level tokens of the rows of the last scan */
    var logLevels: set<string>
    /** appEvents: the application events of the rows of the last scan, name -> value */
    var appEvents: Entries
    /** keyword: trimmed and lower-cased; "" when unset */
    var keyword: string

    /** TableService(defaultNumberDates, maxNumberOfDates); `now` is the clock reading. */
    constructor (defaultNumberDates: int, maxNumberOfDates: int, now: int)
      ensures fresh(cfg) && cfg.Valid()
      ensures cfg.endDate == now + MillisPerDay && cfg.initDate == cfg.endDate - defaultNumberDates * MillisPerDay
      ensures cfg.maxNumberOfDates == maxNumberOfDates && cfg.available == [] && cfg.appEvents == []
      ensures logLevels == {} && appEvents == [] && keyword == ""
    {
      cfg := new Service(defaultNumberDates, maxNumberOfDates, now);
      logLevels := {};
      appEvents := [];
      keyword := "";
    }

    /** The screening the current settings give. */
    function Filtering(level: Option<Level>, parse: string -> Option<int>): (flt: Filter)
      reads this, cfg
      ensures flt.keyword == keyword && flt.available == cfg.available && flt.events == cfg.appEvents
      ensures flt.initDate == cfg.initDate && flt.endDate == cfg.endDate
    {
      Filter(level, parse, cfg.initDate, cfg.endDate, cfg.available, cfg.appEvents, keyword)
    }

    /** The checks of one line in the read loop, each `continue` a Dropped. */
    method ScreenLine(line: string, level: Option<Level>, parse: string -> Option<int>) returns (s: Screened)
      ensures s == Screen(Filtering(level, parse), line)
    {
      if level.Some? {
        if IndexOf(line, Token(level.value)) == -1 {
          return Dropped;
        }
      }
      var words := Tokens(line, ' ');
      if |words| < 2 {
        return Dropped;
      }
      var fullDate := words[0] + " " + words[1];
      var logDate := parse(fullDate);
      if logDate.None? {
        return Dropped;
      }
      if logDate.value > cfg.endDate {
        return Late;
      } else if logDate.value < cfg.initDate {
        return Early;
      }
      var logLevel := Token(ClassifyLevel(line));
      var shown := cfg.IsLogLevelAvailable(logLevel);
      if !shown {
        return Dropped;
      }
      var appEvent := cfg.GetAppEvent(line);
      if appEvent.None? {
        return Dropped;
      }
      if keyword != "" {
        if IndexOf(Lower(line), keyword) == -1 {
          return Dropped;
        }
      }
      return Pass(Row(fullDate, logLevel, line), appEvent.value);
    }

    /**
     * The end of the loop body for one screened line: a line before or after
     * the window, whichever ends the scan, returns; a passing line is counted,
     * skipped below `start`, breaks the file above `end`, and is otherwise
     * added with its level and event.
     */
    method TakeLine(s: Screened, fromFile: bool, start: int, end: int, counter0: int, dataset0: seq<Row>)
      returns (counter: int, dataset: seq<Row>, flow: Flow)
      modifies this
      ensures keyword == old(keyword)
      ensures (Scan(counter, dataset, logLevels, appEvents), flow) ==
        Take(Window(start, end), Scan(counter0, dataset0, old(logLevels), old(appEvents)), s, fromFile)
    {
      counter, dataset, flow := counter0, dataset0, Next;
      if s.Dropped? {
        return;
      } else if s.Late? {
        if !fromFile {
          flow := StopAll;
        }
        return;
      } else if s.Early? {
        if fromFile {
          flow := StopAll;
        }
        return;
      }
      counter := counter + 1;
      if start != -1 && counter < start {
        return;
      } else if end != -1 && counter > end {
        flow := StopFile;
        return;
      }
      logLevels := logLevels + {s.row.level};
      appEvents := PutIfAbsent(appEvents, s.event.name, s.event.value);
      dataset := dataset + [s.row];
    }

    /**
     * One line of either read loop: a leading terminator dropped, then
     * screened, then taken.
     */
    method ProcessLine(line: string, fromFile: bool, parse: string -> Option<int>, level: Option<Level>, start: int, end: int,
                       counter0: int, dataset0: seq<Row>)
      returns (counter: int, dataset: seq<Row>, flow: Flow)
      modifies this
      ensures keyword == old(keyword)
      ensures (Scan(counter, dataset, logLevels, appEvents), flow) ==
        Take(Window(start, end), Scan(counter0, dataset0, old(logLevels), old(appEvents)),
             Screen(old(Filtering(level, parse)), Strip(line)), fromFile)
    {
      var text := line;
      if |text| != 0 && IsTerminator(text[0]) {
        text := text[1..];
      }
      var s := ScreenLine(text, level, parse);
      counter, dataset, flow := TakeLine(s, fromFile, start, end, counter0, dataset0);
    }

    /**
     * The body of getEventsData's loop over one file: its lines from the
     * last, from the given count and rows on, until a line stops the file or the scan.
     */
    method ReadFileEvents(f: seq<byte>, parse: string -> Option<int>, level: Option<Level>, start: int, end: int,
                          counter0: int, dataset0: seq<Row>)
      returns (counter: int, dataset: seq<Row>, flow: Flow)
      requires |f| >= 2
      modifies this
      ensures keyword == old(keyword)
      ensures (Scan(counter, dataset, logLevels, appEvents), flow) ==
        ScanLines(Filtering(level, parse), Window(start, end), BackLines(f, |f| - 2),
                  Scan(counter0, dataset0, old(logLevels), old(appEvents)), true)
    {
      ghost var flt := Filtering(level, parse);
      ghost var w := Window(start, end);
      ghost var final := ScanLines(flt, w, BackLines(f, |f| - 2), Scan(counter0, dataset0, logLevels, appEvents), true);
      counter, dataset := counter0, dataset0;
      var filePointer := |f| - 2;
      while filePointer > -1
        invariant -1 <= filePointer < |f|
        invariant keyword == old(keyword) && flt == Filtering(level, parse)
        invariant ScanLines(flt, w, BackLines(f, filePointer), Scan(counter, dataset, logLevels, appEvents), true) == final
      {
        ghost var before := Scan(counter, dataset, logLevels, appEvents);
        var line := ReadFileLine(f, filePointer);
        ghost var lines := BackLines(f, filePointer - |line|);
        assert BackLines(f, filePointer) == [line] + lines;
        ScanLinesCons(flt, w, line, lines, before, true);
        filePointer := filePointer - |line|;
        counter, dataset, flow := ProcessLine(line, true, parse, level, start, end, counter, dataset);
        if flow != Next {
          return;
        }
      }
      flow := Next;
    }

    /**
     * getEventsData: the files in order, each read from its last line to its
     * first; the kept rows, and their levels and events, are the scan's.
     */
    method GetEventsData(files: seq<seq<byte>>, parse: string -> Option<int>, level: Option<Level>, start: int, end: int)
      returns (dataset: seq<Row>)
      modifies this
      ensures keyword == old(keyword)
      ensures var r := ScanFiles(Filtering(level, parse), Window(start, end), AllFileLines(files), Empty, true);
        dataset == r.rows && logLevels == r.levels && appEvents == r.events
      ensures dataset == Numbered(Window(start, end), 0, Reached(Filtering(level, parse), Window(start, end), AllFileLines(files), 0, true))
      ensures logLevels == RowLevels(dataset) && ToMap(appEvents).Keys == EventNames(Filtering(level, parse), dataset)
    {
      ghost var flt := Filtering(level, parse);
      ghost var w := Window(start, end);
      ghost var all := AllFileLines(files);
      ghost var final := ScanFiles(flt, w, all, Empty, true);
      ScanComplete(flt, w, all, true);
      ScanSound(flt, w, all, true);
      dataset := [];
      var counter := 0;
      logLevels := {};
      appEvents := [];
      var fi := 0;
      while fi < |files|
        invariant 0 <= fi <= |files|
        invariant keyword == old(keyword) && flt == Filtering(level, parse)
        invariant ScanFiles(flt, w, all[fi..], Scan(counter, dataset, logLevels, appEvents), true) == final
      {
        var f := files[fi];
        assert all[fi..][1..] == all[fi + 1..];
        if |f| - 2 < 0 {
          fi := fi + 1;
          continue;
        }
        var flow;
        counter, dataset, flow := ReadFileEvents(f, parse, level, start, end, counter, dataset);
        if flow == StopAll {
          return;
        }
        if counter >= end {
          break;
        }
        fi := fi + 1;
      }
    }

    /** The body of getEventsDataByHTTP's loop over one fetched file: its lines in order. */
    method ReadFetchedEvents(lines: seq<string>, parse: string -> Option<int>, level: Option<Level>, start: int, end: int,
                             counter0: int, dataset0: seq<Row>)
      returns (counter: int, dataset: seq<Row>, flow: Flow)
      modifies this
      ensures keyword == old(keyword)
      ensures (Scan(counter, dataset, logLevels, appEvents), flow) ==
        ScanLines(Filtering(level, parse), Window(start, end), lines,
                  Scan(counter0, dataset0, old(logLevels), old(appEvents)), false)
    {
      ghost var flt := Filtering(level, parse);
      ghost var w := Window(start, end);
      ghost var final := ScanLines(flt, w, lines, Scan(counter0, dataset0, logLevels, appEvents), false);
      counter, dataset, flow := counter0, dataset0, Next;
      var i := 0;
      while i < |lines|
        invariant 0 <= i <= |lines|
        invariant keyword == old(keyword) && flt == Filtering(level, parse)
        invariant flow == Next
        invariant ScanLines(flt, w, lines[i..], Scan(counter, dataset, logLevels, appEvents), false) == final
      {
        var line := lines[i];
        ScanLinesAt(flt, w, lines, i, Scan(counter, dataset, logLevels, appEvents), false);
        counter, dataset, flow := ProcessLine(line, false, parse, level, start, end, counter, dataset);
        if flow != Next {
          return;
        }
        i := i + 1;
      }
      assert lines[i..] == [];
    }

    /**
     * getEventsDataByHTTP: the fetched files in order, each from its first
     * line; a line after the window ends the scan, one before it is passed over.
     */
    method GetEventsDataByHTTP(files: seq<seq<string>>, parse: string -> Option<int>, level: Option<Level>, start: int, end: int)
      returns (dataset: seq<Row>)
      modifies this
      ensures keyword == old(keyword)
      ensures var r := ScanFiles(Filtering(level, parse), Window(start, end), AllFetched(files), Empty, false);
        dataset == r.rows && logLevels == r.levels && appEvents == r.events
      ensures dataset == Numbered(Window(start, end), 0, Reached(Filtering(level, parse), Window(start, end), AllFetched(files), 0, false))
      ensures logLevels == RowLevels(dataset) && ToMap(appEvents).Keys == EventNames(Filtering(level, parse), dataset)
    {
      ghost var flt := Filtering(level, parse);
      ghost var w := Window(start, end);
      ghost var all := AllFetched(files);
      ghost var final := ScanFiles(flt, w, all, Empty, false);
      ScanComplete(flt, w, all, false);
      ScanSound(flt, w, all, false);
      dataset := [];
      var counter := 0;
      logLevels := {};
      appEvents := [];
      var fi := 0;
      while fi < |files|
        invariant 0 <= fi <= |files|
        invariant keyword == old(keyword) && flt == Filtering(level, parse)
        invariant ScanFiles(flt, w, all[fi..], Scan(counter, dataset, logLevels, appEvents), false) == final
      {
        assert all[fi..][1..] == all[fi + 1..];
        var flow;
        counter, dataset, flow := ReadFetchedEvents(files[fi], parse, level, start, end, counter, dataset);
        if flow == StopAll {
          return;
        }
        if counter >= end {
          break;
        }
        fi := fi + 1;
      }
    }

    /** setKeyword: a given keyword is stored trimmed and lower-cased; None leaves it. */
    method SetKeyword(keywordArg: Option<string>)
      modifies this
      ensures keyword == if keywordArg.Some? then Lower(Trim(keywordArg.value)) else old(keyword)
      ensures logLevels == old(logLevels) && appEvents == old(appEvents)
    {
      if keywordArg.Some? {
        keyword := Lower(Trim(keywordArg.value));
      }
    }

    /** getEventsCSV */
    method GetEventsCSV(dataset: seq<Row>) returns (csv: string)
      ensures csv == Csv(dataset)
    {
      csv := CsvHeader + "\n";
      for i := 0 to |dataset|
        invariant csv + CsvBody(dataset[i..]) == Csv(dataset)
      {
        var row := CsvLine(dataset[i]);
        assert dataset[i..] == [dataset[i]] + dataset[i + 1..];
        assert CsvBody(dataset[i..]) == row + "\n" + CsvBody(dataset[i + 1..]);
        assert csv + (row + "\n" + CsvBody(dataset[i + 1..])) == (csv + (row + "\n")) + CsvBody(dataset[i + 1..]);
        csv := csv + (row + "\n");
      }
      assert dataset[|dataset|..] == [];
    }

    /** getEventsHTML */
    method GetEventsHTML(dataset: seq<Row>) returns (html: string)
      ensures html == Html(dataset)
    {
      html := HtmlHead;
      for i := 0 to |dataset|
        invariant html + HtmlBody(dataset[i..]) == HtmlHead + HtmlBody(dataset)
      {
        var row := HtmlRow(dataset[i]);
        assert dataset[i..] == [dataset[i]] + dataset[i + 1..];
        assert HtmlBody(dataset[i..]) == row + HtmlBody(dataset[i + 1..]);
        assert html + (row + HtmlBody(dataset[i + 1..])) == (html + row) + HtmlBody(dataset[i + 1..]);
        html := html + row;
      }
      assert dataset[|dataset|..] == [];
      html := html + "</tbody>";
      html := html + "</table>";
    }
  }

  lemma LowerTwice(t: string)
    ensures Lower(Lower(t)) == Lower(t)
  {
    var k := Lower(t);
    forall i | 0 <= i < |k| ensures Lower(k)[i] == k[i] {
      assert k[i] == LowerChar(t[i]);
    }
  }

  /** The stored keyword is trimmed and already lower-case. */
  lemma KeywordNormalised(s: string)
    ensures var k := Lower(Trim(s));
      Lower(k) == k && (k == [] || (!IsTrimmed(k[0]) && !IsTrimmed(k[|k| - 1])))
  {
    var t := Trim(s);
    TrimIsInfix(s);
    LowerTwice(t);
    var k := Lower(t);
    if k != [] {
      assert k[0] == LowerChar(t[0]);
      assert k[|k| - 1] == LowerChar(t[|t| - 1]);
    }
  }

  const CsvHeader: string := "Date, Level, Text"

  /** One row as a CSV record: date, level and text separated by commas. */
  function CsvLine(r: Row): (line: string)
  {
    r.date + "," + r.level + "," + r.text
  }

  /** The records, each ended by a newline. */
  function CsvBody(rows: seq<Row>): (body: string)
  {
    if rows == [] then [] else CsvLine(rows[0]) + "\n" + CsvBody(rows[1..])
  }

  /** The CSV document: the header line, then one record per row. */
  function Csv(rows: seq<Row>): (csv: string)
  {
    CsvHeader + "\n" + CsvBody(rows)
  }

  function CsvLines(rows: seq<Row>): (lines: seq<string>)
    ensures |lines| == |rows|
  {
    seq(|rows|, i requires 0 <= i < |rows| => CsvLine(rows[i]))
  }

  lemma {:induction false} CsvBodyJoin(rows: seq<Row>)
    ensures CsvBody(rows) == Join(CsvLines(rows) + [""], '\n')
  {
    if rows != [] {
      CsvBodyJoin(rows[1..]);
      var ls := CsvLines(rows) + [""];
      assert ls[1..] == CsvLines(rows[1..]) + [""];
      assert ls[0] == CsvLine(rows[0]);
    } else {
      assert CsvLines(rows) + [""] == [""];
    }
  }

  /**
   * When no date, level or text holds a newline, splitting the CSV at
   * newlines gives the header, one record per row in order, and the empty
   * remainder after the last newline.
   */
  lemma CsvLinesRoundTrip(rows: seq<Row>)
    requires forall i :: 0 <= i < |rows| ==> '\n' !in rows[i].date && '\n' !in rows[i].level && '\n' !in rows[i].text
    ensures Fields(Csv(rows), '\n') == [CsvHeader] + CsvLines(rows) + [""]
  {
    CsvBodyJoin(rows);
    var ls := [CsvHeader] + CsvLines(rows) + [""];
    assert ls[1..] == CsvLines(rows) + [""];
    assert Join(ls, '\n') == CsvHeader + "\n" + CsvBody(rows);
    forall i | 0 <= i < |ls| ensures '\n' !in ls[i] {
      if 1 <= i <= |rows| {
        var r := rows[i - 1];
        assert ls[i] == CsvLine(r);
        assert ls[i] == r.date + [','] + r.level + [','] + r.text;
      }
    }
    FieldsJoin(ls, '\n');
  }

  const HtmlHead: string := "<table border='1' width='100%'>" + "<tr><th>Date</th><th>Level</th><th>Text</th></tr>" + "<tbody>"
  const HtmlTail: string := "</tbody>" + "</table>"

  /** One row as an HTML table row of three cells. */
  function HtmlRow(r: Row): (tr: string)
  {
    "<tr><td>" + r.date + "</td><td>" + r.level + "</td><td>" + r.text + "</td></tr>"
  }

  function HtmlBody(rows: seq<Row>): (body: string)
  {
    if rows == [] then [] else HtmlRow(rows[0]) + HtmlBody(rows[1..])
  }

  /** The HTML document: the table head, one table row per row, the closing tags. */
  function Html(rows: seq<Row>): (html: string)
  {
    HtmlHead + HtmlBody(rows) + HtmlTail
  }

  lemma {:induction false} HtmlBodyAppend(a: seq<Row>, b: seq<Row>)
    ensures HtmlBody(a + b) == HtmlBody(a) + HtmlBody(b)
  {
    if a != [] {
      HtmlBodyAppend(a[1..], b);
      assert (a + b)[1..] == a[1..] + b;
    } else {
      assert a + b == b;
    }
  }

  lemma HtmlBodyRowAt(rows: seq<Row>, k: nat)
    requires k < |rows|
    ensures OccursAt(HtmlBody(rows), HtmlRow(rows[k]), |HtmlBody(rows[..k])|)
  {
    var tail := [rows[k]] + rows[k + 1..];
    assert rows == rows[..k] + tail;
    HtmlBodyAppend(rows[..k], tail);
    assert tail[1..] == rows[k + 1..];
    var r := HtmlRow(rows[k]);
    assert OccursAt(r, r, 0);
    OccursShift(HtmlBody(rows[k + 1..]), r, r, 0);
    OccursShift(HtmlBody(rows[..k]), r + HtmlBody(rows[k + 1..]), r, 0);
  }

  /** Row k is rendered, in order, right after the head and the rows before it. */
  lemma HtmlRowsInOrder(rows: seq<Row>, k: nat)
    requires k < |rows|
    ensures OccursAt(Html(rows), HtmlRow(rows[k]), |HtmlHead| + |HtmlBody(rows[..k])|)
  {
    var r := HtmlRow(rows[k]);
    HtmlBodyRowAt(rows, k);
    OccursShift(HtmlHead, HtmlBody(rows), r, |HtmlBody(rows[..k])|);
    OccursShift(HtmlTail, HtmlHead + HtmlBody(rows), r, |HtmlHead| + |HtmlBody(rows[..k])|);
  }
}
