/**
 * Statistics read from log files front to back: events per date, per level
 * and in total, and per (date, level, application event), and the date
 * comparator that orders the per-date results.
 */
module StatisticsService {
  import opened Wrappers
  import opened Strings
  import opened LogLevels
  import opened SortedMap
  import opened SuperService

  /**
   * DateComparator: the date part of the pattern (its text up to the first
   * space) and the order, "desc" unless given. Err stands for the exception
   * `split(" ")[0]` throws on a pattern made only of spaces.
   */
  datatype DateComparator = DateComparator(datePattern: string, order: string)

  function NewDateComparator(datePattern: string, order: Option<string>): (r: Result<DateComparator>)
    ensures r.Ok? ==> ' ' !in r.value.datePattern
    ensures r.Ok? ==> r.value.order == if order.Some? then order.value else "desc"
  {
    var parts := Split(datePattern, ' ');
    if |parts| == 0 then Err("ArrayIndexOutOfBoundsException")
    else
      assert ' ' !in parts[0] by { SplitFirst(datePattern); }
      Ok(DateComparator(parts[0], if order.Some? then order.value else "desc"))
  }

  lemma SplitFirst(s: string)
    requires |Split(s, ' ')| > 0
    ensures ' ' !in Split(s, ' ')[0]
  {
    if ' ' in s {
      DropTrailingEmptyPrefix(Fields(s, ' '));
    }
  }

  lemma {:induction false} DropTrailingEmptyPrefix(fields: seq<string>)
    ensures |DropTrailingEmpty(fields)| <= |fields|
    ensures forall i :: 0 <= i < |DropTrailingEmpty(fields)| ==> DropTrailingEmpty(fields)[i] == fields[i]
  {
    if fields != [] && fields[|fields| - 1] == [] {
      DropTrailingEmptyPrefix(fields[..|fields| - 1]);
    }
  }

  /**
   * compare: with both texts parsed by the comparator's pattern, -1/1 as the
   * first is before/after the second, reversed unless the order is "asc";
   * 0 for the same instant or when either text does not parse.
   */
  function Compare(c: DateComparator, parse: (string, string) -> Option<int>, id1: string, id2: string): (r: int)
    ensures -1 <= r <= 1
  {
    var o1 := parse(c.datePattern, id1);
    var o2 := parse(c.datePattern, id2);
    if o1.None? || o2.None? then 0
    else if c.order == "asc" then
      if o1.value < o2.value then -1 else if o1.value > o2.value then 1 else 0
    else
      if o1.value < o2.value then 1 else if o1.value > o2.value then -1 else 0
  }

  /**
   * The comparator is antisymmetric; it is 0 exactly on a parse failure or
   * the same instant; "asc" puts the earlier date first and any other order
   * the later one.
   */
  lemma CompareSpec(c: DateComparator, parse: (string, string) -> Option<int>, a: string, b: string)
    ensures Compare(c, parse, a, b) == -Compare(c, parse, b, a)
    ensures var o1, o2 := parse(c.datePattern, a), parse(c.datePattern, b);
      Compare(c, parse, a, b) == 0 <==> o1.None? || o2.None? || o1.value == o2.value
    ensures var o1, o2 := parse(c.datePattern, a), parse(c.datePattern, b);
      o1.Some? && o2.Some? && o1.value < o2.value ==>
        Compare(c, parse, a, b) == if c.order == "asc" then -1 else 1
    ensures Compare(c.(order := "asc"), parse, a, b) == -Compare(c.(order := "desc"), parse, a, b)
  {
  }

  /** Counting a date: the first time it gets 1, afterwards one more. */
  function Bump(m: map<string, nat>, d: string): (r: map<string, nat>)
  {
    if d in m then m[d := m[d] + 1] else m[d := 1]
  }

  /** The dates counted one after the other into `m`. */
  function TallyFrom(m: map<string, nat>, ds: seq<string>): (r: map<string, nat>)
    decreases |ds|
  {
    if ds == [] then m else TallyFrom(Bump(m, ds[0]), ds[1..])
  }

  function Occurrences(ds: seq<string>, d: string): (n: nat)
    ensures n <= |ds|
  {
    if ds == [] then 0 else (if ds[0] == d then 1 else 0) + Occurrences(ds[1..], d)
  }

  function CountIn(m: map<string, nat>, d: string): (n: nat)
  {
    if d in m then m[d] else 0
  }

  /**
   * Counting adds exactly one per counted line: every date counted is a key,
   * and each key's count grows by the number of times its date was counted.
   */
  lemma {:induction false} TallyCounts(m: map<string, nat>, ds: seq<string>, d: string)
    requires forall k :: k in m ==> m[k] >= 1
    ensures d in TallyFrom(m, ds) <==> d in m || d in ds
    ensures CountIn(TallyFrom(m, ds), d) == CountIn(m, d) + Occurrences(ds, d)
    ensures forall k :: k in TallyFrom(m, ds) ==> TallyFrom(m, ds)[k] >= 1
    decreases |ds|
  {
    if ds != [] {
      var m' := Bump(m, ds[0]);
      TallyCounts(m', ds[1..], d);
      assert d in ds <==> d == ds[0] || d in ds[1..] by {
        assert ds == [ds[0]] + ds[1..];
      }
    }
  }

  /** The date filter of getNEventsPerDate: the level asked for and the date window. */
  datatype DateFilter = DateFilter(level: Option<Level>, parse: string -> Option<int>, initDate: int, endDate: int)

  /** A line is passed over, stops the scan, or is counted under its first word. */
  datatype Verdict = Skip | Stop | Count(date: string)

  /**
   * A line lacking the level asked for, without two words, whose two words
   * do not parse, or dated after the window is passed over; one dated before
   * the window stops the scan; the rest are counted.
   */
  function DateVerdict(flt: DateFilter, line: string): (v: Verdict)
    ensures v.Count? ==> var words := Tokens(line, ' ');
      |words| >= 2 && v.date == words[0] &&
      flt.parse(words[0] + " " + words[1]).Some? &&
      flt.initDate <= flt.parse(words[0] + " " + words[1]).value <= flt.endDate
    ensures v.Count? && flt.level.Some? ==> Contains(line, Token(flt.level.value))
  {
    if flt.level.Some? && IndexOf(line, Token(flt.level.value)) == -1 then Skip
    else
      var words := Tokens(line, ' ');
      if |words| < 2 then Skip
      else
        match flt.parse(words[0] + " " + words[1])
        case None => Skip
        case Some(t) =>
          if t > flt.endDate then Skip
          else if t < flt.initDate then Stop
          else Count(words[0])
  }

  /** The dates of one file's counted lines, and whether a line stopped the scan. */
  function DatedLines(flt: DateFilter, lines: seq<string>): (r: (seq<string>, bool))
    decreases |lines|
  {
    if lines == [] then ([], false)
    else
      match DateVerdict(flt, lines[0])
      case Skip => DatedLines(flt, lines[1..])
      case Stop => ([], true)
      case Count(d) =>
        var r := DatedLines(flt, lines[1..]);
        ([d] + r.0, r.1)
  }

  /** The dates of all counted lines, file after file, up to the line that stops the scan. */
  function DatedFiles(flt: DateFilter, files: seq<seq<string>>): (ds: seq<string>)
    decreases |files|
  {
    if files == [] then []
    else
      var r := DatedLines(flt, files[0]);
      if r.1 then r.0 else r.0 + DatedFiles(flt, files[1..])
  }

  /** What is left to count once lines[..i] of a file are read: its remaining dates, then the later files'. */
  function Remaining(flt: DateFilter, lines: seq<string>, rest: seq<seq<string>>): (ds: seq<string>)
  {
    var r := DatedLines(flt, lines);
    if r.1 then r.0 else r.0 + DatedFiles(flt, rest)
  }

  lemma RemainingStep(flt: DateFilter, lines: seq<string>, i: nat, rest: seq<seq<string>>)
    requires i < |lines|
    ensures var v := DateVerdict(flt, lines[i]);
      Remaining(flt, lines[i..], rest) ==
        if v.Skip? then Remaining(flt, lines[i + 1..], rest)
        else if v.Stop? then []
        else [v.date] + Remaining(flt, lines[i + 1..], rest)
  {
    assert lines[i..][0] == lines[i];
    assert lines[i..][1..] == lines[i + 1..];
    var v := DateVerdict(flt, lines[i]);
    if v.Count? {
      var r := DatedLines(flt, lines[i + 1..]);
      if !r.1 {
        assert [v.date] + r.0 + DatedFiles(flt, rest) == [v.date] + (r.0 + DatedFiles(flt, rest));
      }
    }
  }

  /** HashMap iteration: some key of a non-empty map. */
  ghost function Pick(m: map<string, nat>): (k: string)
    requires m != map[]
    ensures k in m
  {
    var k :| k in m; k
  }

  /** The sum of a map's values. */
  ghost function Total(m: map<string, nat>): (n: nat)
    decreases |m|
  {
    if m == map[] then 0
    else
      var k := Pick(m);
      assert |m - {k}| == |m| - 1 by { assert m.Keys == (m - {k}).Keys + {k}; }
      m[k] + Total(m - {k})
  }

  /** The sum does not depend on which key is taken first. */
  lemma {:induction false} TotalRemove(m: map<string, nat>, k: string)
    requires k in m
    ensures Total(m) == m[k] + Total(m - {k})
    decreases |m|
  {
    var j := Pick(m);
    assert |m - {j}| == |m| - 1 by { assert m.Keys == (m - {j}).Keys + {j}; }
    if j != k {
      TotalRemove(m - {j}, k);
      TotalRemove(m - {k}, j);
      assert m - {j} - {k} == m - {k} - {j};
    }
  }

  /** Counting a date adds one to the total. */
  lemma BumpTotal(m: map<string, nat>, d: string)
    ensures Total(Bump(m, d)) == Total(m) + 1
  {
    var b := Bump(m, d);
    TotalRemove(b, d);
    if d in m {
      TotalRemove(m, d);
      assert b - {d} == m - {d};
    } else {
      assert b - {d} == m;
    }
  }

  /** The per-date counts of a level add up to the number of lines counted. */
  lemma {:induction false} TallyTotal(m: map<string, nat>, ds: seq<string>)
    ensures Total(TallyFrom(m, ds)) == Total(m) + |ds|
    decreases |ds|
  {
    if ds != [] {
      BumpTotal(m, ds[0]);
      TallyTotal(Bump(m, ds[0]), ds[1..]);
    }
  }

  /** What getTotalEventNumbers sums for a level is the number of lines getNEventsPerDate counted. */
  lemma CountedTotal(flt: DateFilter, files: seq<seq<string>>)
    ensures Total(TallyFrom(map[], DatedFiles(flt, files))) == |DatedFiles(flt, files)|
  {
    TallyTotal(map[], DatedFiles(flt, files));
  }

  /** The key getAppEventsTableData builds from a line's date word, level and event. */
  datatype EventKey = EventKey(date: string, level: string, event: Entry)

  /** One row of the event table: date, level, event name, and how many lines had its key. */
  datatype EventCount = EventCount(key: EventKey, counter: nat)

  function KeysOf(cs: seq<EventCount>): (ks: seq<EventKey>)
    ensures |ks| == |cs| && forall i :: 0 <= i < |cs| ==> ks[i] == cs[i].key
  {
    if cs == [] then [] else [cs[0].key] + KeysOf(cs[1..])
  }

  function CountOf(cs: seq<EventCount>, k: EventKey): (n: nat)
  {
    if cs == [] then 0 else if cs[0].key == k then cs[0].counter else CountOf(cs[1..], k)
  }

  predicate Distinct(ks: seq<EventKey>)
  {
    forall i, j :: 0 <= i < j < |ks| ==> ks[i] != ks[j]
  }

  /** LinkedHashMap insertion: a new key is added last with counter 1, a known one counts one more. */
  function BumpEvent(cs: seq<EventCount>, k: EventKey): (r: seq<EventCount>)
  {
    if cs == [] then [EventCount(k, 1)]
    else if cs[0].key == k then [cs[0].(counter := cs[0].counter + 1)] + cs[1..]
    else [cs[0]] + BumpEvent(cs[1..], k)
  }

  lemma {:induction false} BumpEventSpec(cs: seq<EventCount>, k: EventKey, j: EventKey)
    requires Distinct(KeysOf(cs))
    ensures KeysOf(BumpEvent(cs, k)) == if k in KeysOf(cs) then KeysOf(cs) else KeysOf(cs) + [k]
    ensures Distinct(KeysOf(BumpEvent(cs, k)))
    ensures CountOf(BumpEvent(cs, k), j) == CountOf(cs, j) + if j == k then 1 else 0
  {
    if cs != [] {
      var ks := KeysOf(cs);
      assert ks[1..] == KeysOf(cs[1..]);
      assert Distinct(ks[1..]);
      if cs[0].key == k {
        if j == k {
          assert j !in ks[1..];
        }
        NotInCountZero(cs[1..], k);
        assert KeysOf(BumpEvent(cs, k))[1..] == ks[1..];
      } else {
        BumpEventSpec(cs[1..], k, j);
        var r := BumpEvent(cs, k);
        assert KeysOf(r) == [cs[0].key] + KeysOf(BumpEvent(cs[1..], k));
        assert k in ks <==> k in ks[1..];
        forall a, b | 0 <= a < b < |KeysOf(r)| ensures KeysOf(r)[a] != KeysOf(r)[b] {
          if a == 0 {
            assert KeysOf(r)[b] in KeysOf(BumpEvent(cs[1..], k));
            assert cs[0].key !in ks[1..];
          }
        }
      }
    }
  }

  lemma {:induction false} NotInCountZero(cs: seq<EventCount>, k: EventKey)
    requires k !in KeysOf(cs)
    ensures CountOf(cs, k) == 0
  {
    if cs != [] {
      assert KeysOf(cs)[1..] == KeysOf(cs[1..]);
      NotInCountZero(cs[1..], k);
    }
  }

  /**
   * What getAppEventsTableData screens against: the level asked for, the
   * event filter (matched against the lower-cased line as given), the date
   * window, the levels still shown and the configured application events.
   */
  datatype AppFilter = AppFilter(level: Option<Level>, eventFilter: Option<string>, parse: string -> Option<int>,
                                 initDate: int, endDate: int, available: seq<Level>, events: Entries)

  /**
   * A line is passed over, halts the scan, only records its level (it has
   * no application event), or counts under its key.
   */
  datatype LineKind = Ignore | Halt | LevelOnly(level: string) | Event(key: EventKey)

  /** The checks of getAppEventsTableData, in their order. */
  function Classify(flt: AppFilter, line: string): (k: LineKind)
    ensures k.LevelOnly? ==> (k.level == Token(ClassifyLevel(line)) && IsAvailable(flt.available, k.level) &&
      MatchAppEvent(flt.events, line).None?)
    ensures k.Event? ==> (k.key.level == Token(ClassifyLevel(line)) && IsAvailable(flt.available, k.key.level) &&
      MatchAppEvent(flt.events, line) == Some(k.key.event))
  {
    if flt.level.Some? && IndexOf(line, Token(flt.level.value)) == -1 then Ignore
    else if flt.eventFilter.Some? && IndexOf(Lower(line), flt.eventFilter.value) == -1 then Ignore
    else
      var words := Tokens(line, ' ');
      if |words| < 2 then Ignore
      else
        match flt.parse(words[0] + " " + words[1])
        case None => Ignore
        case Some(t) =>
          if t > flt.endDate then Ignore
          else if t < flt.initDate then Halt
          else
            var level := Token(ClassifyLevel(line));
            if !IsAvailable(flt.available, level) then Ignore
            else
              match MatchAppEvent(flt.events, line)
              case None => LevelOnly(level)
              case Some(ev) => Event(EventKey(words[0], level, ev))
  }

  /** The kinds of one file's lines that change the bundle, and whether a line halted the scan. */
  function KindsLines(flt: AppFilter, lines: seq<string>): (r: (seq<LineKind>, bool))
    ensures forall i :: 0 <= i < |r.0| ==> r.0[i].LevelOnly? || r.0[i].Event?
    decreases |lines|
  {
    if lines == [] then ([], false)
    else
      match Classify(flt, lines[0])
      case Ignore => KindsLines(flt, lines[1..])
      case Halt => ([], true)
      case k =>
        var r := KindsLines(flt, lines[1..]);
        ([k] + r.0, r.1)
  }

  function KindsFiles(flt: AppFilter, files: seq<seq<string>>): (ks: seq<LineKind>)
    ensures forall i :: 0 <= i < |ks| ==> ks[i].LevelOnly? || ks[i].Event?
    decreases |files|
  {
    if files == [] then []
    else
      var r := KindsLines(flt, files[0]);
      if r.1 then r.0 else r.0 + KindsFiles(flt, files[1..])
  }

  function KindsRemaining(flt: AppFilter, lines: seq<string>, rest: seq<seq<string>>): (ks: seq<LineKind>)
  {
    var r := KindsLines(flt, lines);
    if r.1 then r.0 else r.0 + KindsFiles(flt, rest)
  }

  lemma KindsStep(flt: AppFilter, lines: seq<string>, i: nat, rest: seq<seq<string>>)
    requires i < |lines|
    ensures var k := Classify(flt, lines[i]);
      KindsRemaining(flt, lines[i..], rest) ==
        if k.Ignore? then KindsRemaining(flt, lines[i + 1..], rest)
        else if k.Halt? then []
        else [k] + KindsRemaining(flt, lines[i + 1..], rest)
  {
    assert lines[i..][0] == lines[i];
    assert lines[i..][1..] == lines[i + 1..];
    var k := Classify(flt, lines[i]);
    if !k.Ignore? && !k.Halt? {
      var r := KindsLines(flt, lines[i + 1..]);
      if !r.1 {
        assert [k] + r.0 + KindsFiles(flt, rest) == [k] + (r.0 + KindsFiles(flt, rest));
      }
    }
  }

  /** The data bundle: the event table in first-seen order, the levels seen, the events seen. */
  datatype Bundle = Bundle(dataset: seq<EventCount>, logLevels: set<string>, appEvents: Entries)

  /** One line's effect: its level is recorded; an event is also recorded and counted under its key. */
  function Absorb(b: Bundle, k: LineKind): (r: Bundle)
  {
    match k
    case LevelOnly(level) => b.(logLevels := b.logLevels + {level})
    case Event(key) =>
      Bundle(BumpEvent(b.dataset, key), b.logLevels + {key.level}, PutIfAbsent(b.appEvents, key.event.name, key.event.value))
    case _ => b
  }

  function AbsorbAll(b: Bundle, ks: seq<LineKind>): (r: Bundle)
    decreases |ks|
  {
    if ks == [] then b else AbsorbAll(Absorb(b, ks[0]), ks[1..])
  }

  /** The keys of the counted lines, in order. */
  function EventKeys(ks: seq<LineKind>): (keys: seq<EventKey>)
  {
    if ks == [] then [] else (if ks[0].Event? then [ks[0].key] else []) + EventKeys(ks[1..])
  }

  function LevelOf(k: LineKind): (l: string)
    requires k.LevelOnly? || k.Event?
  {
    if k.LevelOnly? then k.level else k.key.level
  }

  function KeyOccurrences(keys: seq<EventKey>, k: EventKey): (n: nat)
  {
    if keys == [] then 0 else (if keys[0] == k then 1 else 0) + KeyOccurrences(keys[1..], k)
  }

  /**
   * Absorbing lines keeps one table row per key and counts each key once
   * per line that has it.
   */
  lemma {:induction false} AbsorbAllCounts(b: Bundle, ks: seq<LineKind>, j: EventKey)
    requires Distinct(KeysOf(b.dataset))
    ensures Distinct(KeysOf(AbsorbAll(b, ks).dataset))
    ensures CountOf(AbsorbAll(b, ks).dataset, j) == CountOf(b.dataset, j) + KeyOccurrences(EventKeys(ks), j)
    decreases |ks|
  {
    if ks != [] {
      var k := ks[0];
      if k.Event? {
        BumpEventSpec(b.dataset, k.key, j);
        assert EventKeys(ks) == [k.key] + EventKeys(ks[1..]);
        assert ([k.key] + EventKeys(ks[1..]))[1..] == EventKeys(ks[1..]);
      } else {
        assert EventKeys(ks) == [] + EventKeys(ks[1..]) == EventKeys(ks[1..]);
      }
      AbsorbAllCounts(Absorb(b, k), ks[1..], j);
    }
  }

  /** Absorbing lines records the level of every line, with or without an application event. */
  lemma {:induction false} AbsorbAllLevels(b: Bundle, ks: seq<LineKind>)
    requires forall i :: 0 <= i < |ks| ==> ks[i].LevelOnly? || ks[i].Event?
    ensures AbsorbAll(b, ks).logLevels == b.logLevels + set i | 0 <= i < |ks| :: LevelOf(ks[i])
    decreases |ks|
  {
    if ks != [] {
      var k := ks[0];
      AbsorbAllLevels(Absorb(b, k), ks[1..]);
      var rest := set i | 0 <= i < |ks[1..]| :: LevelOf(ks[1..][i]);
      var all := set i | 0 <= i < |ks| :: LevelOf(ks[i]);
      assert all == {LevelOf(k)} + rest by {
        forall x | x in all ensures x in {LevelOf(k)} + rest {
          var i :| 0 <= i < |ks| && LevelOf(ks[i]) == x;
          if i > 0 {
            assert ks[1..][i - 1] == ks[i];
          }
        }
        forall x | x in rest ensures x in all {
          var i :| 0 <= i < |ks[1..]| && LevelOf(ks[1..][i]) == x;
          assert ks[i + 1] == ks[1..][i];
        }
      }
    }
  }

  /** The names of the application events counted among `ks`. */
  function EventNames(ks: seq<LineKind>): (names: set<string>)
  {
    set i | 0 <= i < |ks| && ks[i].Event? :: ks[i].key.event.name
  }

  /**
   * The bundle's event map stays in name order and gains exactly the names
   * of the events counted, each first value kept.
   */
  lemma {:induction false} AbsorbAllEvents(b: Bundle, ks: seq<LineKind>)
    requires Sorted(b.appEvents)
    ensures Sorted(AbsorbAll(b, ks).appEvents)
    ensures ToMap(AbsorbAll(b, ks).appEvents).Keys == ToMap(b.appEvents).Keys + EventNames(ks)
    ensures forall n :: n in ToMap(b.appEvents) ==> ToMap(AbsorbAll(b, ks).appEvents)[n] == ToMap(b.appEvents)[n]
    decreases |ks|
  {
    if ks != [] {
      var k := ks[0];
      var b1 := Absorb(b, k);
      if k.Event? {
        PutIfAbsentSpec(b.appEvents, k.key.event.name, k.key.event.value);
      }
      AbsorbAllEvents(b1, ks[1..]);
      EventNamesCons(ks);
    }
  }

  lemma EventNamesCons(ks: seq<LineKind>)
    requires ks != []
    ensures EventNames(ks) == (if ks[0].Event? then {ks[0].key.event.name} else {}) + EventNames(ks[1..])
  {
    var k := ks[0];
    forall x | x in EventNames(ks) ensures x in (if k.Event? then {k.key.event.name} else {}) + EventNames(ks[1..]) {
      var i :| 0 <= i < |ks| && ks[i].Event? && ks[i].key.event.name == x;
      if i > 0 {
        assert ks[1..][i - 1] == ks[i];
      }
    }
    forall x | x in EventNames(ks[1..]) ensures x in EventNames(ks) {
      var i :| 0 <= i < |ks[1..]| && ks[1..][i].Event? && ks[1..][i].key.event.name == x;
      assert ks[i + 1] == ks[1..][i];
    }
  }

  lemma AbsorbCons(b: Bundle, k: LineKind, ks: seq<LineKind>)
    ensures AbsorbAll(b, [k] + ks) == AbsorbAll(Absorb(b, k), ks)
  {
    assert ([k] + ks)[1..] == ks;
  }

  const NoBundle: Bundle := Bundle([], {}, [])

  class Statistics {
    /** The SuperService part of the object. */
    const cfg: Service
    /** appEvents: the application events seen by the last getAppEventsTableData */
    var appEvents: Entries
    /** logLevels: the levels seen by the last getAppEventsTableData */
    var logLevels: set<string>

    /** StatisticsService(defaultNumberDates, maxNumberOfDates); `now` is the clock reading. */
    constructor (defaultNumberDates: int, maxNumberOfDates: int, now: int)
      ensures fresh(cfg) && cfg.Valid()
      ensures cfg.endDate == now + MillisPerDay && cfg.initDate == cfg.endDate - defaultNumberDates * MillisPerDay
      ensures cfg.maxNumberOfDates == maxNumberOfDates && cfg.available == Precedence && cfg.appEvents == []
      ensures appEvents == [] && logLevels == {}
    {
      var s := new Service(defaultNumberDates, maxNumberOfDates, now);
      s.InitLogLevels();
      cfg := s;
      appEvents := [];
      logLevels := {};
    }

    /** StatisticsService(initDate, endDate): the given window, every level shown. */
    constructor ForDates(initDate: int, endDate: int)
      ensures fresh(cfg) && cfg.Valid()
      ensures cfg.initDate == initDate && cfg.endDate == endDate
      ensures cfg.available == Precedence && cfg.appEvents == []
      ensures appEvents == [] && logLevels == {}
    {
      var s := new Service(0, 0, 0);
      s.initDate := initDate;
      s.endDate := endDate;
      s.InitLogLevels();
      cfg := s;
      appEvents := [];
      logLevels := {};
    }

    function Dating(level: Option<Level>, parse: string -> Option<int>): (flt: DateFilter)
      reads cfg
      ensures flt.initDate == cfg.initDate && flt.endDate == cfg.endDate && flt.level == level
    {
      DateFilter(level, parse, cfg.initDate, cfg.endDate)
    }

    /** The checks getNEventsPerDate makes on one line. */
    method DateLine(line: string, parse: string -> Option<int>, level: Option<Level>) returns (v: Verdict)
      ensures v == DateVerdict(Dating(level, parse), line)
    {
      if level.Some? && IndexOf(line, Token(level.value)) == -1 {
        return Skip;
      }
      var words := Tokens(line, ' ');
      if |words| < 2 {
        return Skip;
      }
      var logDate := parse(words[0] + " " + words[1]);
      if logDate.None? {
        return Skip;
      }
      if logDate.value > cfg.endDate {
        return Skip;
      } else if logDate.value < cfg.initDate {
        return Stop;
      }
      return Count(words[0]);
    }

    /** The per-date counts getNEventsPerDate gives for a level (None for all). */
    ghost function PerDate(files: seq<seq<string>>, parse: string -> Option<int>, level: Option<Level>): (m: map<string, nat>)
      reads cfg
    {
      TallyFrom(map[], DatedFiles(Dating(level, parse), files))
    }

    /**
     * getNEventsPerDate: the files front to back; each counted line adds one
     * to the count of its first word, and a line before the window ends the scan.
     */
    method GetNEventsPerDate(files: seq<seq<string>>, parse: string -> Option<int>, level: Option<Level>)
      returns (dataset: map<string, nat>)
      ensures dataset == PerDate(files, parse, level)
    {
      ghost var flt := Dating(level, parse);
      ghost var final := TallyFrom(map[], DatedFiles(flt, files));
      dataset := map[];
      for fi := 0 to |files|
        invariant TallyFrom(dataset, DatedFiles(flt, files[fi..])) == final
      {
        var lines := files[fi];
        ghost var rest := files[fi + 1..];
        assert files[fi..][0] == lines && files[fi..][1..] == rest;
        for i := 0 to |lines|
          invariant TallyFrom(dataset, Remaining(flt, lines[i..], rest)) == final
        {
          var v := DateLine(lines[i], parse, level);
          RemainingStep(flt, lines, i, rest);
          match v {
            case Skip =>
            case Stop =>
              return;
            case Count(dateStr) =>
              assert ([dateStr] + Remaining(flt, lines[i + 1..], rest))[1..] == Remaining(flt, lines[i + 1..], rest);
              if dateStr in dataset {
                dataset := dataset[dateStr := dataset[dateStr] + 1];
              } else {
                dataset := dataset[dateStr := 1];
              }
          }
        }
        assert lines[|lines|..] == [];
        assert Remaining(flt, [], rest) == DatedFiles(flt, rest);
      }
      assert files[|files|..] == [];
    }

    /**
     * getNDiffEventsPerDate: for each level still shown, in order, its
     * per-date counts, kept under the level's token when there are any.
     */
    method GetNDiffEventsPerDate(files: seq<seq<string>>, parse: string -> Option<int>)
      returns (collection: map<string, map<string, nat>>)
      ensures forall l: Level :: Token(l) in collection <==> l in cfg.available && PerDate(files, parse, Some(l)) != map[]
      ensures forall l: Level :: Token(l) in collection ==> collection[Token(l)] == PerDate(files, parse, Some(l))
      ensures forall t :: t in collection ==> FromToken(t).Some?
    {
      collection := map[];
      var levels := cfg.available;
      for i := 0 to |levels|
        invariant forall l: Level :: Token(l) in collection <==> l in levels[..i] && PerDate(files, parse, Some(l)) != map[]
        invariant forall l: Level :: Token(l) in collection ==> collection[Token(l)] == PerDate(files, parse, Some(l))
        invariant forall t :: t in collection ==> FromToken(t).Some?
      {
        var level := levels[i];
        var logs := GetNEventsPerDate(files, parse, Some(level));
        assert levels[..i + 1] == levels[..i] + [level];
        forall l: Level ensures Token(l) == Token(level) <==> l == level {
          TokensDistinct(l, level);
        }
        TokenRoundTrip(level, Token(level));
        if |logs| != 0 {
          collection := collection[Token(level) := logs];
        } else {
          assert logs == map[];
        }
      }
      assert levels[..|levels|] == levels;
    }

    /** getTotalEventNumbers: per level, the sum of its per-date counts. */
    static method GetTotalEventNumbers(dataset: map<string, map<string, nat>>) returns (output: map<string, nat>)
      ensures output.Keys == dataset.Keys
      ensures forall l :: l in output ==> output[l] == Total(dataset[l])
    {
      output := map[];
      var levels := dataset.Keys;
      while levels != {}
        invariant levels <= dataset.Keys
        invariant output.Keys == dataset.Keys - levels
        invariant forall l :: l in output ==> output[l] == Total(dataset[l])
        decreases levels
      {
        var level :| level in levels;
        var nEvents := 0;
        var dates := dataset[level];
        while dates != map[]
          invariant nEvents + Total(dates) == Total(dataset[level])
          decreases dates.Keys
        {
          var date :| date in dates;
          nEvents := nEvents + dates[date];
          TotalRemove(dates, date);
          dates := dates - {date};
        }
        output := output[level := nEvents];
        levels := levels - {level};
      }
    }

    function Apps(level: Option<Level>, eventFilter: Option<string>, parse: string -> Option<int>): (flt: AppFilter)
      reads cfg
      ensures flt.available == cfg.available && flt.events == cfg.appEvents
      ensures flt.initDate == cfg.initDate && flt.endDate == cfg.endDate
    {
      AppFilter(level, eventFilter, parse, cfg.initDate, cfg.endDate, cfg.available, cfg.appEvents)
    }

    /** The checks getAppEventsTableData makes on one line, with the object's own lookups. */
    method ClassifyLine(line: string, parse: string -> Option<int>, level: Option<Level>, eventFilter: Option<string>)
      returns (k: LineKind)
      ensures k == Classify(Apps(level, eventFilter, parse), line)
    {
      if level.Some? && IndexOf(line, Token(level.value)) == -1 {
        return Ignore;
      }
      if eventFilter.Some? && IndexOf(Lower(line), eventFilter.value) == -1 {
        return Ignore;
      }
      var words := Tokens(line, ' ');
      if |words| < 2 {
        return Ignore;
      }
      var logDate := parse(words[0] + " " + words[1]);
      if logDate.None? {
        return Ignore;
      }
      if logDate.value > cfg.endDate {
        return Ignore;
      } else if logDate.value < cfg.initDate {
        return Halt;
      }
      var logLevel := Token(ClassifyLevel(line));
      var shown := cfg.IsLogLevelAvailable(logLevel);
      if !shown {
        return Ignore;
      }
      var appEvent := cfg.GetAppEvent(line);
      if appEvent.None? {
        return LevelOnly(logLevel);
      }
      return Event(EventKey(words[0], logLevel, appEvent.value));
    }

    /** What getAppEventsTableData does with a line that passes its checks. */
    static method AbsorbLine(k: LineKind, eventCounter: seq<EventCount>, seenLevels: set<string>, seenEvents: Entries)
      returns (counter': seq<EventCount>, levels': set<string>, events': Entries)
      requires k.LevelOnly? || k.Event?
      requires Sorted(seenEvents)
      ensures Sorted(events')
      ensures Bundle(counter', levels', events') == Absorb(Bundle(eventCounter, seenLevels, seenEvents), k)
    {
      counter', levels', events' := eventCounter, seenLevels, seenEvents;
      match k {
        case LevelOnly(l) =>
          levels' := seenLevels + {l};
        case Event(key) =>
          levels' := seenLevels + {key.level};
          events' := AddAppEvent(key.event, seenEvents);
          counter' := BumpEvent(eventCounter, key);
      }
    }

    /**
     * getAppEventsTableData: the files front to back; every line that passes
     * records its level, and one with an application event also records the
     * event and counts under its key. A line before the window ends the scan;
     * either way the levels and events seen become the object's.
     */
    method GetAppEventsTableData(files: seq<seq<string>>, parse: string -> Option<int>, level: Option<Level>,
                                 eventFilter: Option<string>) returns (bundle: Bundle)
      modifies this
      ensures bundle == AbsorbAll(NoBundle, KindsFiles(Apps(level, eventFilter, parse), files))
      ensures appEvents == bundle.appEvents && logLevels == bundle.logLevels
    {
      ghost var flt := Apps(level, eventFilter, parse);
      ghost var final := AbsorbAll(NoBundle, KindsFiles(flt, files));
      var eventCounter: seq<EventCount> := [];
      var seenLevels: set<string> := {};
      var seenEvents: Entries := [];
      for fi := 0 to |files|
        invariant Sorted(seenEvents)
        invariant AbsorbAll(Bundle(eventCounter, seenLevels, seenEvents), KindsFiles(flt, files[fi..])) == final
      {
        var lines := files[fi];
        ghost var rest := files[fi + 1..];
        assert files[fi..][0] == lines && files[fi..][1..] == rest;
        for i := 0 to |lines|
          invariant Sorted(seenEvents)
          invariant AbsorbAll(Bundle(eventCounter, seenLevels, seenEvents), KindsRemaining(flt, lines[i..], rest)) == final
        {
          var k := ClassifyLine(lines[i], parse, level, eventFilter);
          KindsStep(flt, lines, i, rest);
          if k.Halt? {
            bundle := Bundle(eventCounter, seenLevels, seenEvents);
            appEvents := seenEvents;
            logLevels := seenLevels;
            return;
          } else if !k.Ignore? {
            AbsorbCons(Bundle(eventCounter, seenLevels, seenEvents), k, KindsRemaining(flt, lines[i + 1..], rest));
            eventCounter, seenLevels, seenEvents := AbsorbLine(k, eventCounter, seenLevels, seenEvents);
          }
        }
        assert lines[|lines|..] == [];
        assert KindsRemaining(flt, [], rest) == KindsFiles(flt, rest);
      }
      assert files[|files|..] == [];
      bundle := Bundle(eventCounter, seenLevels, seenEvents);
      appEvents := seenEvents;
      logLevels := seenLevels;
    }
  }
}
