/**
 * The paging arithmetic of the events table: moving the window of row
 * numbers shown, and the list of windows offered in the drop-down.
 */
module DataTablePanel {
  import opened Wrappers
  import opened Strings

  /** Fast moves jump over this many windows (plus as many rows). */
  const Fast: int := 2

  /** The window calculateTableIndeces computes, before it is checked. */
  function Target(subaction: string, start: int, end: int, gap: int, customIni: int, customEnd: int, rowCounter: int)
    : (w: (int, int))
    ensures subaction in {"forward", "backward", "fforward", "fbackward", "init", "end"} ==> w.1 - w.0 == gap
    ensures subaction == "forward" ==> w.0 == end + 1
    ensures subaction == "backward" ==> w.1 == start - 1
    ensures subaction == "fforward" ==> w.0 == start + Fast * (gap + 1)
    ensures subaction == "fbackward" ==> w.1 == end - Fast * (gap + 1)
    ensures subaction == "init" ==> w.0 == 1
    ensures subaction == "end" ==> w.1 == rowCounter
    ensures subaction == "custom" ==> w == (customIni, customEnd)
    ensures subaction !in {"forward", "backward", "fforward", "fbackward", "init", "end", "custom"} ==> w == (start, end)
  {
    if subaction == "forward" then (end + 1, end + 1 + gap)
    else if subaction == "backward" then (start - 1 - gap, start - 1)
    else if subaction == "fforward" then (start + Fast * gap + Fast, start + Fast * gap + Fast + gap)
    else if subaction == "fbackward" then (end - (Fast * gap + Fast) - gap, end - (Fast * gap + Fast))
    else if subaction == "init" then (1, 1 + gap)
    else if subaction == "end" then (rowCounter - gap, rowCounter)
    else if subaction == "custom" then (customIni, customEnd)
    else (start, end)
  }

  /** On a window spanning `gap`, backward undoes forward and fast backward undoes fast forward. */
  lemma MovesAreInverse(start: int, end: int, gap: int, ci: int, ce: int, rc: int)
    requires end - start == gap
    ensures var (s, e) := Target("forward", start, end, gap, ci, ce, rc);
      Target("backward", s, e, gap, ci, ce, rc) == (start, end)
    ensures var (s, e) := Target("fforward", start, end, gap, ci, ce, rc);
      Target("fbackward", s, e, gap, ci, ce, rc) == (start, end)
    ensures Target("forward", start, end, gap, ci, ce, rc).0 == end + 1
    ensures Target("fforward", start, end, gap, ci, ce, rc).0 == start + 2 * (gap + 1)
  {
  }

  class Pager {
    var start: int
    var end: int
    var gap: int

    /** The panel starts on the first window: rows 1 to 1 + gap. */
    constructor (gap: int)
      ensures this.gap == gap && start == 1 && end == 1 + gap
    {
      this.gap := gap;
      start := 1;
      end := 1 + gap;
    }

    /**
     * calculateTableIndeces: store the new window and answer true, unless
     * its start is negative; then answer false and keep the old window.
     */
    method CalculateTableIndeces(subaction: string, customIni: int, customEnd: int, rowCounter: int)
      returns (ok: bool)
      modifies this
      ensures var w := Target(subaction, old(start), old(end), gap, customIni, customEnd, rowCounter);
        ok <==> w.0 >= 0
      ensures ok ==> (start, end) == Target(subaction, old(start), old(end), gap, customIni, customEnd, rowCounter)
      ensures !ok ==> start == old(start) && end == old(end)
      ensures gap == old(gap)
    {
      var startTmp, endTmp := start, end;
      if subaction == "forward" {
        startTmp := endTmp + 1;
        endTmp := startTmp + gap;
      } else if subaction == "backward" {
        endTmp := startTmp - 1;
        startTmp := endTmp - gap;
      } else if subaction == "fforward" {
        startTmp := startTmp + (Fast * gap) + Fast;
        endTmp := startTmp + gap;
      } else if subaction == "fbackward" {
        endTmp := endTmp - ((Fast * gap) + Fast);
        startTmp := endTmp - gap;
      } else if subaction == "init" {
        startTmp := 1;
        endTmp := startTmp + gap;
      } else if subaction == "end" {
        endTmp := rowCounter;
        startTmp := endTmp - gap;
      } else if subaction == "custom" {
        startTmp := customIni;
        endTmp := customEnd;
      }
      if startTmp < 0 {
        return false;
      }
      start := startTmp;
      end := endTmp;
      return true;
    }
  }

  /** The drop-down text of a window. */
  function Label(start: int, end: int): (text: string)
  {
    IntToString(start) + " - " + IntToString(end)
  }


  /**
   * The windows getComboModel still offers once its loop has reached
   * `start`: this one and the following ones while their end stays below
   * the total, then a last one if it starts below the total.
   */
  function ComboTail(start: int, gap: nat, total: int): (ws: seq<(int, int)>)
    decreases total - start
  {
    if start + gap < total then [(start, start + gap)] + ComboTail(start + gap + 1, gap, total)
    else if start < total then [(start, start + gap)]
    else []
  }

  /** All the windows getComboModel offers: the first one always, then the rest. */
  function ComboWindows(gap: nat, total: int): (ws: seq<(int, int)>)
  {
    [(1, 1 + gap)] + ComboTail(2 + gap, gap, total)
  }

  /**
   * From `start`, there are windows exactly when `start` is below the
   * total; the first is at `start`, each spans the gap, each starts right
   * after the previous one's end, and the last one reaches row total - 1.
   */
  lemma {:induction false} ComboTailSpec(start: int, gap: nat, total: int)
    ensures var ws := ComboTail(start, gap, total);
      (|ws| >= 1 <==> start < total) && (|ws| >= 1 ==> ws[0] == (start, start + gap))
    ensures var ws := ComboTail(start, gap, total);
      forall k :: 0 <= k < |ws| ==> ws[k].1 == ws[k].0 + gap
    ensures var ws := ComboTail(start, gap, total);
      forall k :: 0 < k < |ws| ==> ws[k].0 == ws[k - 1].1 + 1
    ensures var ws := ComboTail(start, gap, total);
      |ws| >= 1 ==> ws[|ws| - 1].1 >= total - 1
    decreases total - start
  {
    var ws := ComboTail(start, gap, total);
    if start + gap < total {
      var next := start + gap + 1;
      ComboTailSpec(next, gap, total);
      var rest := ComboTail(next, gap, total);
      assert ws == [(start, start + gap)] + rest;
      forall k | 0 < k < |ws| ensures ws[k].0 == ws[k - 1].1 + 1 {
        if k > 1 { assert ws[k] == rest[k - 1] && ws[k - 1] == rest[k - 2]; }
      }
    }
  }

  /**
   * The windows offered start at row 1, each spans the gap, each starts
   * right after the previous one's end, and the last one reaches row
   * total - 1 unless the first one is the only one.
   */
  lemma ComboWindowsSpec(gap: nat, total: int)
    ensures var ws := ComboWindows(gap, total);
      |ws| >= 1 && ws[0] == (1, 1 + gap)
    ensures var ws := ComboWindows(gap, total);
      forall k :: 0 <= k < |ws| ==> ws[k].1 == ws[k].0 + gap
    ensures var ws := ComboWindows(gap, total);
      forall k :: 0 < k < |ws| ==> ws[k].0 == ws[k - 1].1 + 1
    ensures var ws := ComboWindows(gap, total);
      ws[|ws| - 1].1 >= total - 1 || |ws| == 1
  {
    var ws := ComboWindows(gap, total);
    var rest := ComboTail(2 + gap, gap, total);
    ComboTailSpec(2 + gap, gap, total);
    assert ws == [(1, 1 + gap)] + rest;
    forall k | 0 < k < |ws| ensures ws[k].0 == ws[k - 1].1 + 1 {
      if k > 1 { assert ws[k] == rest[k - 1] && ws[k - 1] == rest[k - 2]; }
    }
  }

  /** Every row from `start` to total - 1 falls in one of the windows offered from `start`. */
  lemma {:induction false} ComboTailCoversRows(start: int, gap: nat, total: int, row: int)
    requires start <= row < total
    ensures exists k :: (0 <= k < |ComboTail(start, gap, total)| &&
      ComboTail(start, gap, total)[k].0 <= row <= ComboTail(start, gap, total)[k].1)
    decreases total - start
  {
    var ws := ComboTail(start, gap, total);
    if row <= start + gap {
      assert ws[0] == (start, start + gap);
    } else {
      var next := start + gap + 1;
      ComboTailCoversRows(next, gap, total, row);
      var rest := ComboTail(next, gap, total);
      var k :| 0 <= k < |rest| && rest[k].0 <= row <= rest[k].1;
      assert ws == [(start, start + gap)] + rest;
      assert ws[k + 1] == rest[k];
    }
  }

  /** Every row of the table, from 1 to total - 1, falls in one of the offered windows. */
  lemma ComboCoversRows(gap: nat, total: int, row: int)
    requires 1 <= row < total
    ensures exists k :: (0 <= k < |ComboWindows(gap, total)| &&
      ComboWindows(gap, total)[k].0 <= row <= ComboWindows(gap, total)[k].1)
  {
    var ws := ComboWindows(gap, total);
    if row <= 1 + gap {
      assert ws[0] == (1, 1 + gap);
    } else {
      ComboTailCoversRows(2 + gap, gap, total, row);
      var rest := ComboTail(2 + gap, gap, total);
      var k :| 0 <= k < |rest| && rest[k].0 <= row <= rest[k].1;
      assert ws[k + 1] == rest[k];
    }
  }

  /** The drop-down texts of a list of windows. */
  function Labels(ws: seq<(int, int)>): (texts: seq<string>)
  {
    if ws == [] then [] else [Label(ws[0].0, ws[0].1)] + Labels(ws[1..])
  }

  /** The text of the first window comes first. */
  lemma LabelsCons(w: (int, int), ws: seq<(int, int)>)
    ensures Labels([w] + ws) == [Label(w.0, w.1)] + Labels(ws)
  {
    assert ([w] + ws)[1..] == ws;
  }

  /** The texts getComboModel's loop adds once it has reached `start`, in the order it adds them. */
  function ComboTexts(start: int, gap: nat, total: int): (texts: seq<string>)
    decreases total - start
  {
    if start + gap < total then [Label(start, start + gap)] + ComboTexts(start + gap + 1, gap, total)
    else if start < total then [Label(start, start + gap)]
    else []
  }

  /** The texts added are those of the windows offered. */
  lemma {:induction false} ComboTextsAreLabels(start: int, gap: nat, total: int)
    ensures ComboTexts(start, gap, total) == Labels(ComboTail(start, gap, total))
    decreases total - start
  {
    if start + gap < total {
      ComboTextsAreLabels(start + gap + 1, gap, total);
      LabelsCons((start, start + gap), ComboTail(start + gap + 1, gap, total));
    } else if start < total {
      LabelsCons((start, start + gap), []);
    }
  }

  /** The loop of getComboModel, from the window at `start` on. */
  method OfferFrom(start0: int, gap: nat, totalRowNumber: int) returns (elements: seq<string>)
    ensures elements == ComboTexts(start0, gap, totalRowNumber)
  {
    elements := [];
    var start := start0;
    var end := start + gap;
    while end < totalRowNumber
      invariant end == start + gap
      invariant elements + ComboTexts(start, gap, totalRowNumber) == ComboTexts(start0, gap, totalRowNumber)
      decreases totalRowNumber - start
    {
      var text := Label(start, end);
      ghost var rest := ComboTexts(end + 1, gap, totalRowNumber);
      assert ComboTexts(start, gap, totalRowNumber) == [text] + rest;
      assert elements + ([text] + rest) == (elements + [text]) + rest;
      elements := elements + [text];
      start := end + 1;
      end := start + gap;
    }
    if start < totalRowNumber {
      assert ComboTexts(start, gap, totalRowNumber) == [Label(start, end)];
      elements := elements + [Label(start, end)];
    } else {
      assert ComboTexts(start, gap, totalRowNumber) == [];
    }
  }

  /** getComboModel, with the gap already parsed; a negative gap would never leave its loop. */
  method GetComboModel(totalRowNumber: int, gap: nat) returns (elements: seq<string>)
    ensures elements == Labels(ComboWindows(gap, totalRowNumber))
  {
    var rest := OfferFrom(2 + gap, gap, totalRowNumber);
    ComboTextsAreLabels(2 + gap, gap, totalRowNumber);
    LabelsCons((1, 1 + gap), ComboTail(2 + gap, gap, totalRowNumber));
    elements := [Label(1, 1 + gap)] + rest;
  }

  /**
   * The custom window chosen in the drop-down: the two sides of " - ",
   * each read as a number; None where split or parseInt would throw.
   */
  function ParseLabel(item: string): (r: Option<(nat, nat)>)
  {
    var i := IndexOf(item, " - ");
    if i == -1 then None
    else
      var first := item[..i];
      var rest := item[i + 3..];
      var j := IndexOf(rest, " - ");
      var second := if j == -1 then rest else rest[..j];
      if first != [] && second != [] && AllDigits(first) && AllDigits(second)
      then Some((ParseDigits(first), ParseDigits(second)))
      else None
  }

  /** A string of digits holds no " - ". */
  lemma DigitsHoldNoSeparator(s: string)
    requires AllDigits(s)
    ensures IndexOf(s, " - ") == -1
  {
    forall i: nat | i <= |s| ensures !OccursAt(s, " - ", i) {
      if i < |s| { NotOccursAt(s, " - ", i, 0); }
    }
  }

  /** Choosing an offered window in the drop-down selects exactly that window. */
  lemma {:induction false} ParseLabelRoundTrip(start: nat, end: nat)
    ensures ParseLabel(Label(start, end)) == Some((start, end))
  {
    var a, b := NatToString(start), NatToString(end);
    ParseNatToString(start);
    ParseNatToString(end);
    var item := Label(start, end);
    assert item == a + " - " + b;
    assert OccursAt(item, " - ", |a|) by { assert item[|a|..|a| + 3] == " - "; }
    ContainsAt(item, " - ", |a|);
    forall k: nat | k < |a| ensures !OccursAt(item, " - ", k) {
      assert item[k] == a[k];
      NotOccursAt(item, " - ", k, 0);
    }
    var i := IndexOf(item, " - ");
    assert i == |a|;
    assert item[..i] == a;
    assert item[i + 3..] == b;
    DigitsHoldNoSeparator(b);
  }
}
