/**
 * The state every service shares: the levels still shown, the configured
 * application events (name -> value, in name order), the date window and the
 * limit on its length, and the line classification built on them.
 */
module SuperService {
  import opened Wrappers
  import opened Strings
  import opened LogLevels
  import opened SortedMap

  /** Calendar fields of a date (MONTH counts from 0), supplied with the date they belong to. */
  datatype Calendar = Calendar(month: int, weekOfYear: int, year: int)

  /** Dates are instants in milliseconds; one calendar day is taken as this many. */
  const MillisPerDay: int := 86400000

  /** The order in which getLevel tries the tokens, also the order of initLogLevels. */
  const Precedence: seq<Level> := [FATAL, ERROR, DEBUG, INFO, WARN, TRACE]

  /** Position of a level in Precedence. */
  function Rank(l: Level): (k: nat)
    ensures k < |Precedence| && Precedence[k] == l
  {
    match l
    case FATAL => 0
    case ERROR => 1
    case DEBUG => 2
    case INFO => 3
    case WARN => 4
    case TRACE => 5
  }

  /**
   * getLevel: the first level in Precedence whose token occurs in the line
   * (case-sensitive), INFO when none does.
   */
  function ClassifyLevel(line: string): (l: Level)
    ensures Contains(line, Token(l)) || (l == INFO && forall m: Level :: !Contains(line, Token(m)))
    ensures forall k :: 0 <= k < Rank(l) ==> !Contains(line, Token(Precedence[k]))
  {
    if IndexOf(line, Token(FATAL)) != -1 then FATAL
    else if IndexOf(line, Token(ERROR)) != -1 then ERROR
    else if IndexOf(line, Token(DEBUG)) != -1 then DEBUG
    else if IndexOf(line, Token(INFO)) != -1 then INFO
    else if IndexOf(line, Token(WARN)) != -1 then WARN
    else if IndexOf(line, Token(TRACE)) != -1 then TRACE
    else INFO
  }

  /** Some level of the list carries this token. */
  predicate IsAvailable(levels: seq<Level>, token: string)
  {
    exists i :: 0 <= i < |levels| && Token(levels[i]) == token
  }

  /** List.remove(Object): drop the first occurrence, if any. */
  function RemoveFirst(levels: seq<Level>, l: Level): (r: seq<Level>)
    ensures multiset(r) == multiset(levels) - multiset{l}
  {
    if levels == [] then []
    else if levels[0] == l then
      assert levels == [levels[0]] + levels[1..];
      levels[1..]
    else
      assert levels == [levels[0]] + levels[1..];
      [levels[0]] + RemoveFirst(levels[1..], l)
  }

  /** A level's token is available exactly when the level is listed. */
  lemma AvailableIffListed(levels: seq<Level>, m: Level)
    ensures IsAvailable(levels, Token(m)) <==> m in levels
  {
    if IsAvailable(levels, Token(m)) {
      var i :| 0 <= i < |levels| && Token(levels[i]) == Token(m);
      TokensDistinct(levels[i], m);
    }
    if m in levels {
      var i :| 0 <= i < |levels| && levels[i] == m;
    }
  }

  /** Skipping a level that is listed at most once leaves it unavailable, and every other level as it was. */
  lemma SkipMakesUnavailable(levels: seq<Level>, l: Level, m: Level)
    requires multiset(levels)[l] <= 1
    ensures !IsAvailable(RemoveFirst(levels, l), Token(l))
    ensures m != l ==> (IsAvailable(RemoveFirst(levels, l), Token(m)) <==> IsAvailable(levels, Token(m)))
  {
    var r := RemoveFirst(levels, l);
    AvailableIffListed(r, l);
    AvailableIffListed(r, m);
    AvailableIffListed(levels, m);
    assert multiset(r)[l] == 0;
    assert l !in r by { assert l in r ==> l in multiset(r); }
    if m != l {
      assert multiset(r)[m] == multiset(levels)[m];
      assert m in r <==> m in multiset(r);
      assert m in levels <==> m in multiset(levels);
    }
  }

  /** After initLogLevels every level is listed exactly once. */
  lemma PrecedenceListsEachOnce(l: Level)
    ensures multiset(Precedence)[l] == 1
    ensures IsAvailable(Precedence, Token(l))
  {
    assert Precedence[Rank(l)] == l;
  }

  /**
   * String.split(";") applied to one configuration token, then parts[0] and
   * parts[1]; None where the Java code throws ArrayIndexOutOfBoundsException.
   */
  function ParseAppEvent(token: string): (r: Option<Entry>)
  {
    var parts := Split(token, ';');
    if |parts| < 2 then None else Some(Entry(parts[0], parts[1]))
  }

  /** A token parses iff it has a non-empty field after its first `;`; the pair is its first two fields. */
  lemma ParseAppEventSpec(token: string)
    ensures var f := Fields(token, ';');
      ParseAppEvent(token).Some? <==> exists i :: 1 <= i < |f| && f[i] != []
    ensures ParseAppEvent(token).Some? ==>
      var f := Fields(token, ';'); ParseAppEvent(token).value == Entry(f[0], f[1])
  {
    var f := Fields(token, ';');
    if ';' !in token {
      JoinFields(token, ';');
    } else {
      var d := DropTrailingEmpty(f);
      if exists i :: 1 <= i < |f| && f[i] != [] {
        var i :| 1 <= i < |f| && f[i] != [];
        assert |d| > i;
      }
    }
  }

  /**
   * The loop of initAppEvents from `acc` on: put each parsed token; the
   * flag is false when a token throws, and the entries are those put so far.
   */
  function BuildAppEvents(tokens: seq<string>, acc: Entries): (r: (Entries, bool))
  {
    if tokens == [] then (acc, true)
    else match ParseAppEvent(tokens[0])
      case None => (acc, false)
      case Some(e) => BuildAppEvents(tokens[1..], Put(acc, e.name, e.value))
  }

  /** The map of a list of pairs where a later pair overrides an earlier one with the same name. */
  function PairsMap(pairs: seq<Entry>): (m: map<string, string>)
  {
    if pairs == [] then map[] else PairsMap(pairs[..|pairs| - 1])[pairs[|pairs| - 1].name := pairs[|pairs| - 1].value]
  }

  /** In PairsMap a name is bound to the value of its last pair. */
  lemma {:induction false} PairsMapLastWins(pairs: seq<Entry>, j: nat)
    requires j < |pairs|
    requires forall k :: j < k < |pairs| ==> pairs[k].name != pairs[j].name
    ensures pairs[j].name in PairsMap(pairs) && PairsMap(pairs)[pairs[j].name] == pairs[j].value
  {
    if j < |pairs| - 1 {
      PairsMapLastWins(pairs[..|pairs| - 1], j);
    }
  }

  lemma {:induction false} PairsMapKeys(pairs: seq<Entry>, k: string)
    ensures k in PairsMap(pairs) <==> exists j :: 0 <= j < |pairs| && pairs[j].name == k
  {
    if pairs != [] {
      PairsMapKeys(pairs[..|pairs| - 1], k);
      if exists j :: 0 <= j < |pairs| - 1 && pairs[j].name == k {
        var j :| 0 <= j < |pairs| - 1 && pairs[j].name == k;
        assert pairs[..|pairs| - 1][j] == pairs[j];
      }
    }
  }

  /** The pairs of the tokens that parse. */
  function ParsedPairs(tokens: seq<string>): (r: seq<Entry>)
  {
    if tokens == [] then []
    else match ParseAppEvent(tokens[0])
      case None => ParsedPairs(tokens[1..])
      case Some(e) => [e] + ParsedPairs(tokens[1..])
  }

  lemma {:induction false} PairsMapPrepend(e: Entry, pairs: seq<Entry>)
    ensures PairsMap([e] + pairs) == map[e.name := e.value] + PairsMap(pairs)
    decreases |pairs|
  {
    if pairs == [] {
      assert [e] + pairs == [e];
    } else {
      var init := pairs[..|pairs| - 1];
      var last := pairs[|pairs| - 1];
      assert ([e] + pairs)[..|pairs|] == [e] + init;
      PairsMapPrepend(e, init);
    }
  }

  /** Every token of the list parses. */
  predicate AllParse(tokens: seq<string>)
  {
    forall i :: 0 <= i < |tokens| ==> ParseAppEvent(tokens[i]).Some?
  }

  /** One token of the loop: stop at a token that does not parse, else put its pair and go on. */
  lemma BuildAppEventsStep(tokens: seq<string>, i: nat, acc: Entries)
    requires i < |tokens|
    ensures ParseAppEvent(tokens[i]).None? ==> BuildAppEvents(tokens[i..], acc) == (acc, false)
    ensures ParseAppEvent(tokens[i]).Some? ==>
      var e := ParseAppEvent(tokens[i]).value;
      BuildAppEvents(tokens[i..], acc) == BuildAppEvents(tokens[i + 1..], Put(acc, e.name, e.value))
  {
    assert tokens[i..][0] == tokens[i] && tokens[i..][1..] == tokens[i + 1..];
  }

  lemma {:induction false} BuildAppEventsOk(tokens: seq<string>, acc: Entries)
    requires Sorted(acc)
    ensures Sorted(BuildAppEvents(tokens, acc).0)
    ensures BuildAppEvents(tokens, acc).1 <==> AllParse(tokens)
  {
    if tokens != [] {
      var p := ParseAppEvent(tokens[0]);
      var rest := tokens[1..];
      if p.Some? {
        var e := p.value;
        PutSpec(acc, e.name, e.value);
        BuildAppEventsOk(rest, Put(acc, e.name, e.value));
        assert AllParse(tokens) <==> AllParse(rest) by {
          if AllParse(rest) {
            forall i | 0 <= i < |tokens| ensures ParseAppEvent(tokens[i]).Some? {
              if i > 0 { assert tokens[i] == rest[i - 1]; }
            }
          }
          if AllParse(tokens) {
            forall i | 0 <= i < |rest| ensures ParseAppEvent(rest[i]).Some? {
              assert rest[i] == tokens[i + 1];
            }
          }
        }
      }
    }
  }

  /** Binding a name and then merging a map is merging the binding and then the map. */
  lemma UpdateThenMerge(m: map<string, string>, k: string, v: string, n: map<string, string>)
    ensures m[k := v] + n == m + (map[k := v] + n)
  {
  }

  /**
   * initAppEvents succeeds iff every token parses, and then the map holds
   * each configured name with the value of its last token.
   */
  lemma {:induction false} BuildAppEventsSpec(tokens: seq<string>, acc: Entries)
    requires Sorted(acc)
    ensures BuildAppEvents(tokens, acc).1 ==>
      ToMap(BuildAppEvents(tokens, acc).0) == ToMap(acc) + PairsMap(ParsedPairs(tokens))
  {
    if tokens != [] {
      var p := ParseAppEvent(tokens[0]);
      var rest := tokens[1..];
      if p.Some? {
        var e := p.value;
        PutSpec(acc, e.name, e.value);
        var acc' := Put(acc, e.name, e.value);
        BuildAppEventsSpec(rest, acc');
        assert ParsedPairs(tokens) == [e] + ParsedPairs(rest);
        PairsMapPrepend(e, ParsedPairs(rest));
        UpdateThenMerge(ToMap(acc), e.name, e.value, PairsMap(ParsedPairs(rest)));
      }
    }
  }

  /**
   * getAppEvent: the first entry, in name order, whose value lower-cased
   * occurs in the line lower-cased.
   */
  function MatchAppEvent(es: Entries, line: string): (r: Option<Entry>)
    ensures r.Some? ==> exists i :: (0 <= i < |es| && es[i] == r.value &&
      Contains(Lower(line), Lower(es[i].value)) &&
      forall j :: 0 <= j < i ==> !Contains(Lower(line), Lower(es[j].value)))
    ensures r.None? ==> forall i :: 0 <= i < |es| ==> !Contains(Lower(line), Lower(es[i].value))
  {
    if es == [] then None
    else if IndexOf(Lower(line), Lower(es[0].value)) != -1 then Some(es[0])
    else
      var r := MatchAppEvent(es[1..], line);
      assert r.Some? ==> exists i :: (0 <= i < |es| && es[i] == r.value &&
        Contains(Lower(line), Lower(es[i].value)) &&
        forall j :: 0 <= j < i ==> !Contains(Lower(line), Lower(es[j].value))) by {
        if r.Some? {
          var i :| 0 <= i < |es[1..]| && es[1..][i] == r.value &&
            Contains(Lower(line), Lower(es[1..][i].value)) &&
            forall j :: 0 <= j < i ==> !Contains(Lower(line), Lower(es[1..][j].value));
          assert es[i + 1] == r.value;
          assert forall j :: 1 <= j < i + 1 ==> es[j] == es[1..][j - 1];
        }
      }
      r
  }

  /** addAppEvent on the observed-events map: the name is added only when absent. */
  function AddAppEvent(ev: Entry, events: Entries): (r: Entries)
    requires Sorted(events)
    ensures Sorted(r)
    ensures ev.name in ToMap(events) ==> r == events
    ensures ev.name !in ToMap(events) ==> ToMap(r) == ToMap(events)[ev.name := ev.value]
  {
    PutIfAbsentSpec(events, ev.name, ev.value);
    PutIfAbsent(events, ev.name, ev.value)
  }

  predicate RemovalMatch(e: Entry, value: string)
  {
    EqualsIgnoreCase(e.value, value) || e.name == value
  }

  /** The key removeAppEvent removes: the first name (in name order) that matches, else "". */
  function KeyToRemove(es: Entries, value: string): (k: string)
    ensures (exists i :: 0 <= i < |es| && RemovalMatch(es[i], value)) ==>
      exists i :: 0 <= i < |es| && RemovalMatch(es[i], value) && k == es[i].name &&
        forall j :: 0 <= j < i ==> !RemovalMatch(es[j], value)
    ensures (forall i :: 0 <= i < |es| ==> !RemovalMatch(es[i], value)) ==> k == ""
  {
    if es == [] then ""
    else if RemovalMatch(es[0], value) then es[0].name
    else
      var k := KeyToRemove(es[1..], value);
      FirstMatchShift(es, value, k);
      k
  }

  /** A first match after an entry that does not match is the first match of the whole list. */
  lemma FirstMatchShift(es: Entries, value: string, k: string)
    requires es != [] && !RemovalMatch(es[0], value)
    requires (exists i :: 0 <= i < |es[1..]| && RemovalMatch(es[1..][i], value)) ==>
      exists i :: 0 <= i < |es[1..]| && RemovalMatch(es[1..][i], value) && k == es[1..][i].name &&
        forall j :: 0 <= j < i ==> !RemovalMatch(es[1..][j], value)
    ensures (exists i :: 0 <= i < |es| && RemovalMatch(es[i], value)) ==>
      exists i :: 0 <= i < |es| && RemovalMatch(es[i], value) && k == es[i].name &&
        forall j :: 0 <= j < i ==> !RemovalMatch(es[j], value)
  {
    if m :| 0 <= m < |es| && RemovalMatch(es[m], value) {
      assert es[1..][m - 1] == es[m];
      var i :| 0 <= i < |es[1..]| && RemovalMatch(es[1..][i], value) && k == es[1..][i].name &&
        forall j :: 0 <= j < i ==> !RemovalMatch(es[1..][j], value);
      assert es[i + 1] == es[1..][i];
      forall j | 0 <= j < i + 1 ensures !RemovalMatch(es[j], value) {
        if j > 0 {
          assert es[j] == es[1..][j - 1];
        }
      }
    }
  }

  /**
   * When nothing matches, removeAppEvent still removes the key "", so an
   * event configured with an empty name disappears.
   */
  lemma NoMatchRemovesEmptyName(es: Entries, value: string)
    requires Sorted(es)
    requires forall i :: 0 <= i < |es| ==> !RemovalMatch(es[i], value)
    ensures ToMap(Remove(es, KeyToRemove(es, value))) == ToMap(es) - {""}
  {
    RemoveSpec(es, "");
  }

  /** The quoted, comma-separated tokens of a list of levels. */
  function LevelTokens(levels: seq<Level>): (r: seq<string>)
    ensures |r| == |levels| && forall i :: 0 <= i < |levels| ==> r[i] == Token(levels[i])
  {
    if levels == [] then [] else [Token(levels[0])] + LevelTokens(levels[1..])
  }

  lemma LevelTokensSnoc(levels: seq<Level>, l: Level)
    ensures LevelTokens(levels + [l]) == LevelTokens(levels) + [Token(l)]
  {
    var r := LevelTokens(levels + [l]);
    assert |r| == |LevelTokens(levels) + [Token(l)]|;
    forall i | 0 <= i < |r| ensures r[i] == (LevelTokens(levels) + [Token(l)])[i] {
      assert (levels + [l])[i] == if i < |levels| then levels[i] else l;
    }
  }

  class Service {
    /** skipLogLevels: despite its name, the levels that are still shown. */
    var available: seq<Level>
    /** appEventList: the configured application events, name -> value, in name order. */
    var appEvents: Entries
    var initDate: int
    var initCal: Option<Calendar>
    var endDate: int
    var endCal: Option<Calendar>
    var maxNumberOfDates: int

    ghost predicate Valid()
      reads this
    {
      Sorted(appEvents)
    }

    /**
     * SuperService(defaultNumberDates) followed by the subclass setting
     * maxNumberOfDates: the window ends a day after `now` and spans
     * `defaultNumberDates` days. The lists the Java code leaves null start empty.
     */
    constructor (defaultNumberDates: int, maxNumberOfDates: int, now: int)
      ensures Valid()
      ensures endDate == now + MillisPerDay && initDate == endDate - defaultNumberDates * MillisPerDay
      ensures initCal == None && endCal == None
      ensures this.maxNumberOfDates == maxNumberOfDates
      ensures available == [] && appEvents == []
    {
      available := [];
      appEvents := [];
      endDate := now + MillisPerDay;
      initDate := now + MillisPerDay - defaultNumberDates * MillisPerDay;
      initCal := None;
      endCal := None;
      this.maxNumberOfDates := maxNumberOfDates;
    }

    /** initLogLevels */
    method InitLogLevels()
      modifies this
      ensures available == Precedence
      ensures appEvents == old(appEvents) && initDate == old(initDate) && endDate == old(endDate)
      ensures initCal == old(initCal) && endCal == old(endCal) && maxNumberOfDates == old(maxNumberOfDates)
    {
      available := [FATAL, ERROR, DEBUG, INFO, WARN, TRACE];
    }

    /** setSkipLogLevels: stop showing one level. */
    method SetSkipLogLevels(l: Level)
      modifies this
      ensures available == RemoveFirst(old(available), l)
      ensures appEvents == old(appEvents) && initDate == old(initDate) && endDate == old(endDate)
      ensures initCal == old(initCal) && endCal == old(endCal) && maxNumberOfDates == old(maxNumberOfDates)
    {
      available := RemoveFirst(available, l);
    }

    /** isLogLevelAvailable */
    method IsLogLevelAvailable(token: string) returns (found: bool)
      ensures found <==> IsAvailable(available, token)
    {
      var i := 0;
      while i < |available|
        invariant 0 <= i <= |available|
        invariant forall j :: 0 <= j < i ==> Token(available[j]) != token
      {
        if Token(available[i]) == token {
          return true;
        }
        i := i + 1;
      }
      return false;
    }

    /**
     * initAppEvents: a fresh map filled from the comma tokens; `ok` is false
     * where the Java code throws, and the map then holds the tokens before.
     */
    method InitAppEvents(config: string) returns (ok: bool)
      modifies this
      ensures Valid()
      ensures (appEvents, ok) == BuildAppEvents(Tokens(config, ','), [])
      ensures available == old(available) && initDate == old(initDate) && endDate == old(endDate)
      ensures initCal == old(initCal) && endCal == old(endCal) && maxNumberOfDates == old(maxNumberOfDates)
    {
      appEvents := [];
      var tokens := Tokens(config, ',');
      var i := 0;
      while i < |tokens|
        invariant 0 <= i <= |tokens|
        invariant Sorted(appEvents)
        invariant BuildAppEvents(tokens[i..], appEvents) == BuildAppEvents(tokens, [])
        invariant available == old(available) && initDate == old(initDate) && endDate == old(endDate)
        invariant initCal == old(initCal) && endCal == old(endCal) && maxNumberOfDates == old(maxNumberOfDates)
      {
        var pair := ParseAppEvent(tokens[i]);
        BuildAppEventsStep(tokens, i, appEvents);
        if pair.None? {
          return false;
        }
        var e := pair.value;
        PutSpec(appEvents, e.name, e.value);
        appEvents := Put(appEvents, e.name, e.value);
        i := i + 1;
      }
      return true;
    }

    /**
     * removeAppEvent: remove the first entry, in name order, whose value
     * equals `value` ignoring case or whose name equals it.
     */
    method RemoveAppEvent(value: string)
      requires Valid()
      modifies this
      ensures Valid()
      ensures appEvents == Remove(old(appEvents), KeyToRemove(old(appEvents), value))
      ensures ToMap(appEvents) == ToMap(old(appEvents)) - {KeyToRemove(old(appEvents), value)}
      ensures available == old(available) && initDate == old(initDate) && endDate == old(endDate)
      ensures initCal == old(initCal) && endCal == old(endCal) && maxNumberOfDates == old(maxNumberOfDates)
    {
      var keyToRemove := "";
      var i := 0;
      while i < |appEvents|
        invariant 0 <= i <= |appEvents|
        invariant KeyToRemove(appEvents, value) == KeyToRemove(appEvents[i..], value)
      {
        if EqualsIgnoreCase(appEvents[i].value, value) || appEvents[i].name == value {
          keyToRemove := appEvents[i].name;
          break;
        }
        assert appEvents[i..][1..] == appEvents[i + 1..];
        i := i + 1;
      }
      assert keyToRemove == KeyToRemove(appEvents, value);
      RemoveSpec(appEvents, keyToRemove);
      appEvents := Remove(appEvents, keyToRemove);
    }

    /**
     * setDatesInterval: accept the window iff `maxNumberOfDates` days after
     * its start is strictly after its end; otherwise change nothing.
     */
    method SetDatesInterval(init: int, initFields: Calendar, end: int, endFields: Calendar) returns (ok: bool)
      modifies this
      ensures ok <==> init + maxNumberOfDates * MillisPerDay > end
      ensures ok ==> initDate == init && endDate == end && initCal == Some(initFields) && endCal == Some(endFields)
      ensures !ok ==> initDate == old(initDate) && endDate == old(endDate) && initCal == old(initCal) && endCal == old(endCal)
      ensures available == old(available) && appEvents == old(appEvents) && maxNumberOfDates == old(maxNumberOfDates)
    {
      var d := init + maxNumberOfDates * MillisPerDay;
      if d > end {
        initDate := init;
        initCal := Some(initFields);
        endDate := end;
        endCal := Some(endFields);
        return true;
      }
      return false;
    }

    /** getAppEvent */
    method GetAppEvent(line: string) returns (r: Option<Entry>)
      ensures r == MatchAppEvent(appEvents, line)
    {
      var lower := Lower(line);
      var i := 0;
      while i < |appEvents|
        invariant 0 <= i <= |appEvents|
        invariant MatchAppEvent(appEvents[i..], line) == MatchAppEvent(appEvents, line)
      {
        if IndexOf(lower, Lower(appEvents[i].value)) != -1 {
          return Some(appEvents[i]);
        }
        assert appEvents[i..][1..] == appEvents[i + 1..];
        i := i + 1;
      }
      return None;
    }

    /** getSkipLogLevelsCommaSeparated: the shown levels' tokens, quoted and comma-separated. */
    method SkipLogLevelsCommaSeparated() returns (s: string)
      ensures s == QuotedList(LevelTokens(available))
    {
      s := "";
      var i := 0;
      while i < |available|
        invariant 0 <= i <= |available|
        invariant s == QuotedList(LevelTokens(available[..i]))
        invariant |s| == 0 <==> i == 0
      {
        var token := Token(available[i]);
        QuotedListSnoc(LevelTokens(available[..i]), token);
        assert available[..i + 1] == available[..i] + [available[i]];
        LevelTokensSnoc(available[..i], available[i]);
        ghost var before := s;
        if |s| != 0 {
          s := s + ",";
        }
        assert s == if i == 0 then "" else before + ",";
        s := s + Quote(token);
        assert |s| >= |Quote(token)| >= 2;
        i := i + 1;
      }
      assert available[..i] == available;
    }

    /** getAppEventsListAsString: the configured names, quoted and comma-separated, in name order. */
    method AppEventsListAsString() returns (s: string)
      ensures s == QuotedList(Names(appEvents))
    {
      s := "";
      var i := 0;
      while i < |appEvents|
        invariant 0 <= i <= |appEvents|
        invariant s == QuotedList(Names(appEvents[..i]))
        invariant s == "" <==> i == 0
      {
        QuotedListSnoc(Names(appEvents[..i]), appEvents[i].name);
        assert Names(appEvents[..i + 1]) == Names(appEvents[..i]) + [appEvents[i].name];
        if s == "" {
          s := s + Quote(appEvents[i].name);
        } else {
          s := s + "," + Quote(appEvents[i].name);
        }
        i := i + 1;
      }
      assert appEvents[..i] == appEvents;
    }
  }
}
