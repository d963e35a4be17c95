/**
 * A java.util.TreeMap<String, String> with natural key order, as the list of
 * its entries in ascending key order. Iterating the map's keySet is walking
 * this list front to back.
 */
module SortedMap {
  import opened Wrappers

  datatype Entry = Entry(name: string, value: string)

  /** String.compareTo(a, b) < 0: lexicographic on characters, a proper prefix first. */
  predicate Less(a: string, b: string)
  {
    if a == [] then b != []
    else b != [] && (a[0] < b[0] || (a[0] == b[0] && Less(a[1..], b[1..])))
  }

  lemma {:induction false} LessIrreflexive(a: string)
    ensures !Less(a, a)
  {
    if a != [] { LessIrreflexive(a[1..]); }
  }

  lemma {:induction false} LessTransitive(a: string, b: string, c: string)
    requires Less(a, b) && Less(b, c)
    ensures Less(a, c)
  {
    if a != [] && a[0] == b[0] && b[0] == c[0] {
      LessTransitive(a[1..], b[1..], c[1..]);
    }
  }

  lemma {:induction false} LessTotal(a: string, b: string)
    ensures a == b || Less(a, b) || Less(b, a)
  {
    if a != [] && b != [] && a[0] == b[0] {
      LessTotal(a[1..], b[1..]);
      if a[1..] == b[1..] {
        assert a == [a[0]] + a[1..] && b == [b[0]] + b[1..];
      }
    }
  }

  type Entries = seq<Entry>

  /** Strictly ascending names, hence no name twice. */
  predicate Sorted(es: Entries)
  {
    forall i, j :: 0 <= i < j < |es| ==> Less(es[i].name, es[j].name)
  }

  /** Every name in `es` is above `x`. */
  predicate Above(es: Entries, x: string)
  {
    forall i :: 0 <= i < |es| ==> Less(x, es[i].name)
  }

  /** keySet(), in iteration order */
  function Names(es: Entries): (r: seq<string>)
    ensures |r| == |es| && forall i :: 0 <= i < |es| ==> r[i] == es[i].name
  {
    if es == [] then [] else [es[0].name] + Names(es[1..])
  }

  lemma SortedCons(e: Entry, rest: Entries)
    ensures Sorted([e] + rest) <==> Above(rest, e.name) && Sorted(rest)
  {
    var es := [e] + rest;
    if Above(rest, e.name) && Sorted(rest) {
      forall i, j | 0 <= i < j < |es| ensures Less(es[i].name, es[j].name) {
        if i > 0 { assert es[i] == rest[i - 1] && es[j] == rest[j - 1]; }
      }
    }
    if Sorted(es) {
      forall i | 0 <= i < |rest| ensures Less(e.name, rest[i].name) {
        assert es[0] == e && es[i + 1] == rest[i];
        assert Less(es[0].name, es[i + 1].name);
      }
      forall i, j | 0 <= i < j < |rest| ensures Less(rest[i].name, rest[j].name) {
        assert es[i + 1] == rest[i] && es[j + 1] == rest[j];
      }
    }
  }

  /** The map the entries stand for. */
  function ToMap(es: Entries): (m: map<string, string>)
  {
    if es == [] then map[] else ToMap(es[1..])[es[0].name := es[0].value]
  }

  lemma {:induction false} ToMapAt(es: Entries, i: nat)
    requires Sorted(es) && i < |es|
    ensures es[i].name in ToMap(es) && ToMap(es)[es[i].name] == es[i].value
  {
    if i > 0 {
      SortedCons(es[0], es[1..]);
      ToMapAt(es[1..], i - 1);
      assert Less(es[0].name, es[i].name);
      LessIrreflexive(es[0].name);
    }
  }

  /** A name is mapped iff some entry carries it. */
  lemma {:induction false} ToMapKeys(es: Entries, k: string)
    ensures k in ToMap(es) <==> k in Names(es)
  {
    if es != [] { ToMapKeys(es[1..], k); }
  }

  /** TreeMap.get */
  function Get(es: Entries, k: string): (r: Option<string>)
  {
    if es == [] then None
    else if es[0].name == k then Some(es[0].value)
    else Get(es[1..], k)
  }

  lemma {:induction false} GetToMap(es: Entries, k: string)
    requires Sorted(es)
    ensures Get(es, k).Some? <==> k in ToMap(es)
    ensures Get(es, k).Some? ==> ToMap(es)[k] == Get(es, k).value
  {
    if es != [] {
      SortedCons(es[0], es[1..]);
      GetToMap(es[1..], k);
    }
  }

  /** TreeMap.put: insert in key order, or replace the value of an existing key. */
  function Put(es: Entries, k: string, v: string): (r: Entries)
  {
    if es == [] then [Entry(k, v)]
    else if es[0].name == k then [Entry(k, v)] + es[1..]
    else if Less(k, es[0].name) then [Entry(k, v)] + es
    else [es[0]] + Put(es[1..], k, v)
  }

  lemma {:induction false} PutAbove(es: Entries, k: string, v: string, x: string)
    requires Above(es, x) && Less(x, k)
    ensures Above(Put(es, k, v), x)
  {
    if es != [] && es[0].name != k && !Less(k, es[0].name) {
      assert Above(es[1..], x);
      PutAbove(es[1..], k, v, x);
    }
  }

  /** Put keeps the entries in key order and updates the map it stands for. */
  lemma {:induction false} PutSpec(es: Entries, k: string, v: string)
    requires Sorted(es)
    ensures Sorted(Put(es, k, v))
    ensures ToMap(Put(es, k, v)) == ToMap(es)[k := v]
  {
    if es != [] {
      SortedCons(es[0], es[1..]);
      assert [es[0]] + es[1..] == es;
      if es[0].name == k {
        PutReplaces(es, k, v);
      } else if Less(k, es[0].name) {
        PutPrepends(es, k, v);
      } else {
        PutSpec(es[1..], k, v);
        PutAfterHead(es, k, v);
      }
    }
  }

  lemma PutReplaces(es: Entries, k: string, v: string)
    requires es != [] && es[0].name == k && Above(es[1..], k) && Sorted(es[1..])
    ensures Sorted(Put(es, k, v))
    ensures ToMap(Put(es, k, v)) == ToMap(es)[k := v]
  {
    var r := Put(es, k, v);
    assert r == [Entry(k, v)] + es[1..] && r[1..] == es[1..];
    SortedCons(Entry(k, v), es[1..]);
    assert ToMap(r) == ToMap(es[1..])[k := v];
    assert ToMap(es) == ToMap(es[1..])[k := es[0].value];
  }

  lemma PutPrepends(es: Entries, k: string, v: string)
    requires es != [] && es[0].name != k && Less(k, es[0].name) && Sorted(es)
    ensures Sorted(Put(es, k, v))
    ensures ToMap(Put(es, k, v)) == ToMap(es)[k := v]
  {
    var r := Put(es, k, v);
    assert r == [Entry(k, v)] + es && r[1..] == es;
    forall i | 0 <= i < |es| ensures Less(k, es[i].name) {
      if i > 0 { LessTransitive(k, es[0].name, es[i].name); }
    }
    SortedCons(Entry(k, v), es);
  }

  lemma PutAfterHead(es: Entries, k: string, v: string)
    requires es != [] && es[0].name != k && !Less(k, es[0].name)
    requires Above(es[1..], es[0].name) && Sorted(es[1..])
    requires Sorted(Put(es[1..], k, v)) && ToMap(Put(es[1..], k, v)) == ToMap(es[1..])[k := v]
    ensures Sorted(Put(es, k, v))
    ensures ToMap(Put(es, k, v)) == ToMap(es)[k := v]
  {
    var r := Put(es, k, v);
    var tail := Put(es[1..], k, v);
    assert r == [es[0]] + tail && r[1..] == tail;
    LessTotal(k, es[0].name);
    PutAbove(es[1..], k, v, es[0].name);
    SortedCons(es[0], tail);
    assert ToMap(r) == ToMap(es[1..])[k := v][es[0].name := es[0].value];
    assert ToMap(es) == ToMap(es[1..])[es[0].name := es[0].value];
  }

  /** addAppEvent: put only when the name is absent, so an existing mapping is kept. */
  function PutIfAbsent(es: Entries, k: string, v: string): (r: Entries)
  {
    if Get(es, k).Some? then es else Put(es, k, v)
  }

  lemma PutIfAbsentSpec(es: Entries, k: string, v: string)
    requires Sorted(es)
    ensures Sorted(PutIfAbsent(es, k, v))
    ensures k in ToMap(es) ==> PutIfAbsent(es, k, v) == es
    ensures k !in ToMap(es) ==> ToMap(PutIfAbsent(es, k, v)) == ToMap(es)[k := v]
  {
    GetToMap(es, k);
    PutSpec(es, k, v);
  }

  /** TreeMap.remove */
  function Remove(es: Entries, k: string): (r: Entries)
  {
    if es == [] then []
    else if es[0].name == k then es[1..]
    else [es[0]] + Remove(es[1..], k)
  }

  lemma {:induction false} RemoveAbove(es: Entries, k: string, x: string)
    requires Above(es, x)
    ensures Above(Remove(es, k), x)
  {
    if es != [] && es[0].name != k {
      assert Above(es[1..], x);
      RemoveAbove(es[1..], k, x);
    }
  }

  /** Remove keeps the entries in key order and drops exactly the key `k`. */
  lemma {:induction false} RemoveSpec(es: Entries, k: string)
    requires Sorted(es)
    ensures Sorted(Remove(es, k))
    ensures ToMap(Remove(es, k)) == ToMap(es) - {k}
  {
    if es != [] {
      SortedCons(es[0], es[1..]);
      if es[0].name == k {
        AboveNotIn(es[1..], k);
      } else {
        RemoveSpec(es[1..], k);
        RemoveAbove(es[1..], k, es[0].name);
        SortedCons(es[0], Remove(es[1..], k));
      }
    }
  }

  lemma {:induction false} AboveNotIn(es: Entries, x: string)
    requires Above(es, x)
    ensures x !in ToMap(es)
  {
    LessIrreflexive(x);
    if es != [] {
      assert Above(es[1..], x);
      AboveNotIn(es[1..], x);
    }
  }
}
