/** Extraction of the date pattern from a log4j conversion pattern. */
module StatisticsUtils {
  import opened Wrappers
  import opened Strings

  /** Used when the conversion pattern has no complete `%d{...}`. */
  const DefaultDatePattern: string := "yyyy-MM-dd HH:mm:ss,sss"

  /**
   * getDatePattern as written. A null pattern is None. The index of `}` is
   * taken in the text that starts at `%d{` but then used as an index into the
   * whole pattern; Err stands for the StringIndexOutOfBoundsException that
   * substring throws when that index falls before the opening brace.
   */
  function GetDatePattern(conversionPattern: Option<string>): (r: Result<string>)
    ensures conversionPattern.None? ==> r == Ok("")
    ensures conversionPattern.Some? && !Contains(conversionPattern.value, "%d{") ==> r == Ok(DefaultDatePattern)
    ensures (conversionPattern.Some? && Contains(conversionPattern.value, "%d{") &&
             !Contains(conversionPattern.value[IndexOf(conversionPattern.value, "%d{")..], "}")) ==>
      r == Ok(DefaultDatePattern)
  {
    match conversionPattern
    case None => Ok("")
    case Some(s) =>
      var begin := IndexOf(s, "%d{");
      var end := if begin != -1 then IndexOf(s[begin..], "}") else -1;
      if begin != -1 && end != -1 then
        if begin + 3 <= end then Ok(s[begin + 3..end]) else Err("StringIndexOutOfBoundsException")
      else Ok(DefaultDatePattern)
  }

  /**
   * The date pattern as intended: the text between the first `%d{` and the
   * first `}` after it, or the default when either is missing.
   */
  function DatePattern(conversionPattern: Option<string>): (r: string)
  {
    match conversionPattern
    case None => ""
    case Some(s) =>
      var begin := IndexOf(s, "%d{");
      var end := if begin != -1 then IndexOf(s[begin..], "}") else -1;
      if begin != -1 && end != -1 then
        OpeningHasNoBrace(s, begin);
        s[begin + 3..begin + end]
      else DefaultDatePattern
  }

  lemma OpeningHasNoBrace(s: string, begin: nat)
    requires OccursAt(s, "%d{", begin)
    ensures forall i: nat :: i < 3 ==> !OccursAt(s[begin..], "}", i)
  {
    forall i: nat | i < 3 ensures !OccursAt(s[begin..], "}", i) {
      assert s[begin..][i] == "%d{"[i];
    }
  }

  /**
   * The intended pattern is exactly what the braces enclose: the pattern reads
   * `%d{`, the result, `}` from the first `%d{` on, and the result has no `}`.
   */
  lemma DatePatternEnclosed(s: string)
    requires Contains(s, "%d{")
    requires Contains(s[IndexOf(s, "%d{")..], "}")
    ensures var begin, r := IndexOf(s, "%d{"), DatePattern(Some(s));
      OccursAt(s, "%d{" + r + "}", begin) && !Contains(r, "}")
  {
    var begin := IndexOf(s, "%d{");
    var t := s[begin..];
    var end := IndexOf(t, "}");
    OpeningHasNoBrace(s, begin);
    var r := s[begin + 3..begin + end];
    assert DatePattern(Some(s)) == r;
    assert r == t[3..end];
    EnclosedText(t, end, r);
    assert s[begin..begin + |"%d{" + r + "}"|] == t[..end + 1];
    NoBraceBefore(t, end, r);
  }

  lemma EnclosedText(t: string, end: nat, r: string)
    requires OccursAt(t, "%d{", 0) && OccursAt(t, "}", end) && 3 <= end && r == t[3..end]
    ensures t[..end + 1] == "%d{" + r + "}"
  {
    assert t[..3] == "%d{";
    assert t[end..end + 1] == "}";
    assert t[..end + 1] == t[..3] + t[3..end] + t[end..end + 1];
  }

  lemma NoBraceBefore(t: string, end: nat, r: string)
    requires 3 <= end <= |t| && r == t[3..end]
    requires forall i: nat :: i < end ==> !OccursAt(t, "}", i)
    ensures !Contains(r, "}")
  {
    forall i: nat | i <= |r| ensures !OccursAt(r, "}", i) {
      if i + 1 <= |r| {
        assert r[i] == t[3 + i];
        assert r[i..i + 1] == t[3 + i..3 + i + 1];
        assert !OccursAt(t, "}", 3 + i);
      }
    }
  }

  /** Where `%d{` opens the pattern, the code as written gives the intended result. */
  lemma AtStartAsIntended(s: string)
    requires OccursAt(s, "%d{", 0)
    ensures GetDatePattern(Some(s)) == Ok(DatePattern(Some(s)))
  {
    var begin := IndexOf(s, "%d{");
    assert begin == 0;
    assert s[0..] == s;
    OpeningHasNoBrace(s, 0);
  }

  /** In `p%d{x}q`, with no `{` in p and no `}` in x, `%d{` is found after p and `}` after x. */
  lemma PrefixIndices(p: string, x: string, q: string)
    requires '{' !in p && '}' !in x
    ensures var s := p + "%d{" + x + "}" + q;
      IndexOf(s, "%d{") == |p| && IndexOf(s[|p|..], "}") == 3 + |x|
  {
    var s := p + "%d{" + x + "}" + q;
    var n := |p|;
    assert s[n..n + 3] == "%d{";
    forall i: nat | i < n ensures !OccursAt(s, "%d{", i) {
      if i + 2 < n {
        assert s[i + 2] == p[i + 2];
      } else {
        assert s[i + 2] == "%d{"[i + 2 - n];
      }
      NotOccursAt(s, "%d{", i, 2);
    }
    IndexOfIs(s, "%d{", n);
    var t := s[n..];
    assert t == "%d{" + x + "}" + q;
    assert t[3 + |x|..4 + |x|] == "}";
    forall i: nat | i < 3 + |x| ensures !OccursAt(t, "}", i) {
      if i >= 3 {
        assert t[i] == x[i - 3];
      }
      NotOccursAt(t, "}", i, 0);
    }
    IndexOfIs(t, "}", 3 + |x|);
  }

  /**
   * On a pattern `p%d{x}q` whose prefix p has no `{` and whose date pattern
   * x has no `}`, the code as written drops the last |p| characters of x,
   * or throws when p is longer than x; the intended result is x itself.
   */
  lemma PrefixShiftsEnd(p: string, x: string, q: string)
    requires '{' !in p && '}' !in x
    ensures GetDatePattern(Some(p + "%d{" + x + "}" + q)) ==
      if |p| <= |x| then Ok(x[..|x| - |p|]) else Err("StringIndexOutOfBoundsException")
    ensures DatePattern(Some(p + "%d{" + x + "}" + q)) == x
  {
    var s := p + "%d{" + x + "}" + q;
    var n := |p|;
    PrefixIndices(p, x, q);
    assert s[n + 3..n + 3 + |x|] == x;
    if n <= |x| {
      assert s[n + 3..|x| + 3] == x[..|x| - n];
    }
  }

  /** With text before `%d{`, the code as written cuts the pattern short ... */
  lemma ShiftedPatternTruncated(s: string)
    requires s == "%p %d{HH:mm} %m"
    ensures GetDatePattern(Some(s)) == Ok("HH")
    ensures DatePattern(Some(s)) == "HH:mm"
  {
    assert s == "%p " + "%d{" + "HH:mm" + "}" + " %m";
    PrefixShiftsEnd("%p ", "HH:mm", " %m");
    assert "HH:mm"[..2] == "HH";
  }

  /** ... or throws, when the text before `%d{` is longer than the date pattern. */
  lemma LateOpeningThrows(s: string)
    requires s == "%c - %d{HH}"
    ensures GetDatePattern(Some(s)).Err?
    ensures DatePattern(Some(s)) == "HH"
  {
    assert s == "%c - " + "%d{" + "HH" + "}" + "";
    PrefixShiftsEnd("%c - ", "HH", "");
  }
}
