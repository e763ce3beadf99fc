/**
 * Whiskers: rules pairing a memory range with a window/pacing action, and
 * the lookup of the rule whose range holds a memory.
 */
module Whiskers {
  import opened Wrappers
  import opened Text
  import opened RemyMemory
  import opened MemoryRanges

  /** A rule: the action fields, the domain they apply to, and how often the rule was used. */
  datatype Whisker = Whisker(
    windowIncrement: int,
    windowMultiple: real,
    intersend: real,
    domain: MemoryRange,
    count: nat)
  {
    /**
     * The window law: increment plus multiple times the previous window,
     * rounded down and never negative.
     */
    function Window(previous: nat): (w: nat)
      ensures
        var target := windowIncrement as real + windowMultiple * previous as real;
        && (target < 0.0 ==> w == 0)
        && (target >= 0.0 ==> w as real <= target < w as real + 1.0)
    {
      var target := windowIncrement as real + windowMultiple * previous as real;
      if target < 0.0 then 0 else target.Floor
    }

    /** The action part of `str`: `(win: INC + (MULT * win) intersend: X ms)`. */
    function ActionText(): (s: string)
      ensures StartsWith(s, "(win: ")
    {
      "(win: " + IntToDecimal(windowIncrement) + " + (" + FormatFixed(windowMultiple, 6)
      + " * win) intersend: " + FormatFixed(intersend, 2) + " ms)"
    }

    /** `str`: `{domain} => action (used: N)`, cut to 499 characters. */
    function Str(): (s: string)
      ensures |s| <= 499 && StartsWith(s, "{")
      ensures |s| < 499 ==>
        s == "{" + domain.Str() + "} => " + ActionText() + " (used: " + NatToDecimal(count) + ")"
    {
      Truncate("{" + domain.Str() + "} => " + ActionText() + " (used: " + NatToDecimal(count) + ")", 499)
    }
  }

  /** The constructor copies the action fields and the domain unchanged and starts unused. */
  function NewWhisker(windowIncrement: int, windowMultiple: real, intersend: real, domain: MemoryRange): (w: Whisker)
    ensures w.windowIncrement == windowIncrement && w.windowMultiple == windowMultiple
    ensures w.intersend == intersend && w.domain == domain && w.count == 0
  {
    Whisker(windowIncrement, windowMultiple, intersend, domain, 0)
  }

  /** A window law with a non-negative increment and multiple never yields less than the increment. */
  lemma WindowAtLeastIncrement(w: Whisker, previous: nat)
    requires w.windowIncrement >= 0 && w.windowMultiple >= 0.0
    ensures w.Window(previous) >= w.windowIncrement
  {
    var target := w.windowIncrement as real + w.windowMultiple * previous as real;
    assert w.windowMultiple * previous as real >= 0.0;
    assert target >= w.windowIncrement as real;
  }

  /** The first rule at or after `start` whose domain holds `m`. */
  function FindFrom(tree: seq<Whisker>, m: MemoryState, start: nat): (r: Option<nat>)
    ensures r.Some? ==> start <= r.value < |tree| && tree[r.value].domain.Contains(m)
    ensures r.Some? ==> forall k :: start <= k < r.value ==> !tree[k].domain.Contains(m)
    ensures r.None? ==> forall k :: start <= k < |tree| ==> !tree[k].domain.Contains(m)
    decreases |tree| - start
  {
    if start >= |tree| then None
    else if tree[start].domain.Contains(m) then Some(start)
    else FindFrom(tree, m, start + 1)
  }

  /** `use_whisker`: the position of the first rule whose domain holds `m`, or none. */
  function UseWhisker(tree: seq<Whisker>, m: MemoryState): (r: Option<nat>)
    ensures r.Some? ==> r.value < |tree| && tree[r.value].domain.Contains(m)
    ensures r.Some? ==> forall k :: 0 <= k < r.value ==> !tree[k].domain.Contains(m)
    ensures r.None? <==> forall k :: 0 <= k < |tree| ==> !tree[k].domain.Contains(m)
  {
    FindFrom(tree, m, 0)
  }

  /** No memory lies in two rules' domains. */
  ghost predicate NonOverlapping(tree: seq<Whisker>) {
    forall i, j, m: MemoryState :: 0 <= i < j < |tree| ==>
      !(tree[i].domain.Contains(m) && tree[j].domain.Contains(m))
  }

  /** In a non-overlapping table, the rule found is the one rule whose domain holds the memory. */
  lemma UniqueRule(tree: seq<Whisker>, m: MemoryState, k: nat)
    requires NonOverlapping(tree)
    requires k < |tree| && tree[k].domain.Contains(m)
    ensures UseWhisker(tree, m) == Some(k)
  {
    var r := UseWhisker(tree, m);
    assert r.Some?;
    if r.value < k {
      assert false;
    }
  }
}
