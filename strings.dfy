/**
 * The java.lang.String operations the services rely on, over `seq<char>`:
 * indexOf, toLowerCase/equalsIgnoreCase (ASCII letters), trim, split on one
 * character, StringTokenizer on one delimiter, and decimal rendering of
 * non-negative ints as string concatenation does it.
 */
module Strings {

  /** `s[i..i+|sub|] == sub` */
  predicate OccursAt(s: string, sub: string, i: nat)
  {
    i + |sub| <= |s| && s[i..i + |sub|] == sub
  }

  /** String.contains / `indexOf(sub) != -1` */
  predicate Contains(s: string, sub: string)
  {
    exists i: nat :: i <= |s| && OccursAt(s, sub, i)
  }

  /** String.indexOf(sub, from): the first occurrence at or after `from`, or -1. */
  function IndexOfFrom(s: string, sub: string, from: nat): (r: int)
    decreases |s| - from
    ensures r == -1 || (from <= r && OccursAt(s, sub, r))
    ensures r == -1 ==> forall i: nat :: from <= i ==> !OccursAt(s, sub, i)
    ensures r != -1 ==> forall i: nat :: from <= i < r ==> !OccursAt(s, sub, i)
  {
    if from + |sub| > |s| then -1
    else if s[from..from + |sub|] == sub then from
    else IndexOfFrom(s, sub, from + 1)
  }

  /** String.indexOf(sub) */
  function IndexOf(s: string, sub: string): (r: int)
    ensures r == -1 <==> !Contains(s, sub)
    ensures r != -1 ==> 0 <= r && OccursAt(s, sub, r)
    ensures r != -1 ==> forall i: nat :: i < r ==> !OccursAt(s, sub, i)
  {
    IndexOfFrom(s, sub, 0)
  }

  /** One differing character rules an occurrence out. */
  lemma NotOccursAt(s: string, sub: string, i: nat, j: nat)
    requires j < |sub| && i + j < |s| && s[i + j] != sub[j]
    ensures !OccursAt(s, sub, i)
  {
  }

  /** An occurrence with none before it is the one indexOf finds. */
  lemma IndexOfIs(s: string, sub: string, k: nat)
    requires OccursAt(s, sub, k)
    requires forall i: nat :: i < k ==> !OccursAt(s, sub, i)
    ensures IndexOf(s, sub) == k
  {
    ContainsAt(s, sub, k);
  }

  lemma ContainsAt(s: string, sub: string, i: nat)
    requires OccursAt(s, sub, i)
    ensures Contains(s, sub)
  {
  }

  /** An occurrence stays one when text is added before or after. */
  lemma OccursShift(x: string, y: string, r: string, i: nat)
    requires OccursAt(y, r, i)
    ensures OccursAt(x + y, r, |x| + i) && OccursAt(y + x, r, i)
  {
    assert (x + y)[|x| + i..|x| + i + |r|] == y[i..i + |r|];
    assert (y + x)[i..i + |r|] == y[i..i + |r|];
  }

  function LowerChar(c: char): (r: char)
  {
    if 'A' <= c <= 'Z' then (c as int + 32) as char else c
  }

  /** String.toLowerCase, restricted to the ASCII letters */
  function Lower(s: string): (r: string)
    ensures |r| == |s|
    ensures forall i :: 0 <= i < |s| ==> r[i] == LowerChar(s[i])
  {
    if s == [] then [] else [LowerChar(s[0])] + Lower(s[1..])
  }

  /** String.equalsIgnoreCase, restricted to the ASCII letters */
  predicate EqualsIgnoreCase(a: string, b: string)
  {
    Lower(a) == Lower(b)
  }

  /** The characters String.trim removes: every code point up to and including the space. */
  predicate IsTrimmed(c: char)
  {
    c <= ' '
  }

  function TrimStart(s: string): (r: string)
    ensures |r| <= |s| && r == s[|s| - |r|..]
    ensures r == [] || !IsTrimmed(r[0])
    ensures forall i :: 0 <= i < |s| - |r| ==> IsTrimmed(s[i])
  {
    if s != [] && IsTrimmed(s[0]) then TrimStart(s[1..]) else s
  }

  function TrimEnd(s: string): (r: string)
    ensures |r| <= |s| && r == s[..|r|]
    ensures r == [] || !IsTrimmed(r[|r| - 1])
    ensures forall i :: |r| <= i < |s| ==> IsTrimmed(s[i])
  {
    if s != [] && IsTrimmed(s[|s| - 1]) then TrimEnd(s[..|s| - 1]) else s
  }

  /** String.trim */
  function Trim(s: string): (r: string)
  {
    TrimEnd(TrimStart(s))
  }

  /** Trim removes only surrounding blanks and leaves none at either end. */
  lemma TrimIsInfix(s: string)
    ensures Contains(s, Trim(s))
    ensures var r := Trim(s); r == [] || (!IsTrimmed(r[0]) && !IsTrimmed(r[|r| - 1]))
  {
    var t := TrimStart(s);
    var r := TrimEnd(t);
    var k := |s| - |t|;
    assert t == s[k..];
    assert r == t[..|r|];
    assert OccursAt(s, r, k);
    ContainsAt(s, r, k);
    if r != [] {
      assert r[0] == t[0];
    }
  }

  /** Concatenate the fields with `sep` between consecutive ones. */
  function Join(fields: seq<string>, sep: char): (r: string)
  {
    if fields == [] then []
    else if |fields| == 1 then fields[0]
    else fields[0] + [sep] + Join(fields[1..], sep)
  }

  /** Every maximal run between occurrences of `sep`, empty runs included; never empty. */
  function Fields(s: string, sep: char): (r: seq<string>)
    ensures |r| >= 1
    ensures forall i :: 0 <= i < |r| ==> sep !in r[i]
  {
    if s == [] then [[]]
    else
      var rest := Fields(s[1..], sep);
      if s[0] == sep then [[]] + rest else [[s[0]] + rest[0]] + rest[1..]
  }

  /** Splitting and joining on the same character are inverse. */
  lemma {:induction false} JoinFields(s: string, sep: char)
    ensures Join(Fields(s, sep), sep) == s
  {
    if s != [] {
      JoinFields(s[1..], sep);
      var rest := Fields(s[1..], sep);
      if s[0] != sep && |rest| > 1 {
        assert Join(rest, sep) == rest[0] + [sep] + Join(rest[1..], sep);
      }
    }
  }

  lemma {:induction false} JoinSnoc(fields: seq<string>, f: string, sep: char)
    ensures Join(fields + [f], sep) == if fields == [] then f else Join(fields, sep) + [sep] + f
  {
    if |fields| > 1 {
      JoinSnoc(fields[1..], f, sep);
      assert (fields + [f])[1..] == fields[1..] + [f];
    } else if |fields| == 1 {
      assert (fields + [f])[1..] == [f];
    }
  }

  lemma {:induction false} FieldsAppend(a: string, b: string, sep: char)
    requires sep !in a
    ensures Fields(a + b, sep) == [a + Fields(b, sep)[0]] + Fields(b, sep)[1..]
  {
    if a != [] {
      FieldsAppend(a[1..], b, sep);
      assert (a + b)[1..] == a[1..] + b;
      assert (a + b)[0] == a[0] != sep;
      var fb := Fields(b, sep);
      var rest := Fields(a[1..] + b, sep);
      assert rest == [a[1..] + fb[0]] + fb[1..];
      assert Fields(a + b, sep) == [[a[0]] + rest[0]] + rest[1..];
      assert [a[0]] + (a[1..] + fb[0]) == a + fb[0];
    } else {
      assert a + b == b;
      var fb := Fields(b, sep);
      assert fb == [fb[0]] + fb[1..];
      assert a + fb[0] == fb[0];
    }
  }

  /** Joining fields free of `sep` and splitting again gives the fields back. */
  lemma {:induction false} FieldsJoin(fields: seq<string>, sep: char)
    requires fields != []
    requires forall i :: 0 <= i < |fields| ==> sep !in fields[i]
    ensures Fields(Join(fields, sep), sep) == fields
  {
    if |fields| == 1 {
      FieldsAppend(fields[0], [], sep);
      assert fields[0] + [] == fields[0];
    } else {
      FieldsJoin(fields[1..], sep);
      var rest := Join(fields[1..], sep);
      FieldsAppend(fields[0], [sep] + rest, sep);
      assert fields[0] + [sep] + rest == fields[0] + ([sep] + rest);
      assert ([sep] + rest)[1..] == rest;
      assert Fields([sep] + rest, sep) == [[]] + fields[1..];
      assert fields[0] + [] == fields[0];
      assert [fields[0]] + fields[1..] == fields;
    }
  }

  function Quote(s: string): (r: string)
  {
    "'" + s + "'"
  }

  function QuoteAll(items: seq<string>): (r: seq<string>)
    ensures |r| == |items| && forall i :: 0 <= i < |items| ==> r[i] == Quote(items[i])
  {
    if items == [] then [] else [Quote(items[0])] + QuoteAll(items[1..])
  }

  /** The items single-quoted and comma-separated, as an SQL `in(...)` list. */
  function QuotedList(items: seq<string>): (r: string)
  {
    Join(QuoteAll(items), ',')
  }

  /** A quoted list is empty exactly when there are no items, and splits back into the quoted items. */
  lemma QuotedListFields(items: seq<string>)
    requires forall i :: 0 <= i < |items| ==> ',' !in items[i]
    ensures QuotedList(items) == [] <==> items == []
    ensures items != [] ==> Fields(QuotedList(items), ',') == QuoteAll(items)
  {
    if items != [] {
      FieldsJoin(QuoteAll(items), ',');
      if |items| == 1 {
        assert |QuotedList(items)| >= 2;
      } else {
        assert QuotedList(items) == Quote(items[0]) + [','] + Join(QuoteAll(items)[1..], ',');
      }
    }
  }

  /** Appending one more item, as the loops that build these lists do. */
  lemma QuotedListSnoc(items: seq<string>, x: string)
    ensures QuotedList(items + [x]) == if items == [] then Quote(x) else QuotedList(items) + "," + Quote(x)
  {
    assert QuoteAll(items + [x]) == QuoteAll(items) + [Quote(x)];
    JoinSnoc(QuoteAll(items), Quote(x), ',');
  }

  /** Drop empty fields from the end, as String.split does with its default limit. */
  function DropTrailingEmpty(fields: seq<string>): (r: seq<string>)
    ensures |r| <= |fields| && r == fields[..|r|]
    ensures r == [] || r[|r| - 1] != []
    ensures forall i :: |r| <= i < |fields| ==> fields[i] == []
  {
    if fields != [] && fields[|fields| - 1] == [] then DropTrailingEmpty(fields[..|fields| - 1])
    else fields
  }

  /**
   * String.split on a one-character pattern: the fields, less the trailing empty
   * ones; a string with no occurrence of `sep` gives itself alone.
   */
  function Split(s: string, sep: char): (r: seq<string>)
  {
    if sep !in s then [s] else DropTrailingEmpty(Fields(s, sep))
  }

  function NonEmpty(fields: seq<string>): (r: seq<string>)
    ensures forall i :: 0 <= i < |r| ==> r[i] != [] && r[i] in fields
    ensures forall f :: f in fields && f != [] ==> f in r
  {
    if fields == [] then []
    else if fields[0] == [] then NonEmpty(fields[1..])
    else [fields[0]] + NonEmpty(fields[1..])
  }

  /** java.util.StringTokenizer with a one-character delimiter: the non-empty fields, in order. */
  function Tokens(s: string, sep: char): (r: seq<string>)
    ensures forall i :: 0 <= i < |r| ==> r[i] != [] && sep !in r[i]
  {
    NonEmpty(Fields(s, sep))
  }

  function DigitChar(d: nat): (c: char)
    requires d < 10
  {
    ('0' as int + d) as char
  }

  /** Decimal rendering of a non-negative int, as `"" + n` gives it. */
  function NatToString(n: nat): (r: string)
  {
    if n < 10 then [DigitChar(n)] else NatToString(n / 10) + [DigitChar(n % 10)]
  }

  /** The rendering is a non-empty string of digits without a leading zero. */
  lemma {:induction false} NatToStringDigits(n: nat)
    ensures |NatToString(n)| >= 1
    ensures AllDigits(NatToString(n))
    ensures n >= 10 ==> NatToString(n)[0] != '0'
  {
    if n >= 10 {
      NatToStringDigits(n / 10);
      assert NatToString(n)[0] == NatToString(n / 10)[0];
    }
  }

  /** Integer.toString, as `"" + i` gives it. */
  function IntToString(i: int): (r: string)
  {
    if i < 0 then "-" + NatToString(-i) else NatToString(i)
  }

  predicate AllDigits(s: string)
  {
    forall i :: 0 <= i < |s| ==> '0' <= s[i] <= '9'
  }

  /** Integer.parseInt on a string of decimal digits */
  function ParseDigits(s: string): (n: nat)
    requires AllDigits(s)
  {
    if s == [] then 0 else ParseDigits(s[..|s| - 1]) * 10 + (s[|s| - 1] as int - '0' as int)
  }

  lemma {:induction false} ParseNatToString(n: nat)
    ensures AllDigits(NatToString(n)) && ParseDigits(NatToString(n)) == n
  {
    NatToStringDigits(n);
    if n >= 10 {
      ParseNatToString(n / 10);
      var r := NatToString(n);
      assert r[..|r| - 1] == NatToString(n / 10);
    }
  }
}
