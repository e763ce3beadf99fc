/** A rule's domain: a half-open box over the active axes of the memory. */
module MemoryRanges {
  import opened Text
  import opened RemyMemory

  datatype MemoryRange = MemoryRange(lower: MemoryState, upper: MemoryState)
  {
    /** `contains(query)`: `query >= lower` and `query < upper`, on the query's active axes. */
    predicate Contains(query: MemoryState) {
      query.Ge(lower) && query.Lt(upper)
    }

    /** `operator==`: both bounds compare equal (each on its own active axes). */
    predicate Equals(other: MemoryRange) {
      lower.Eq(other.lower) && upper.Eq(other.upper)
    }

    /** `str`: both bounds rendered as `(lo: <...> hi: <...>)`, cut to 511 characters. */
    function Str(): (s: string)
      ensures |s| <= 511 && StartsWith(s, "(lo: <")
      ensures |s| < 511 ==> s == "(lo: <" + lower.Str() + "> hi: <" + upper.Str() + ">)"
    {
      Truncate("(lo: <" + lower.Str() + "> hi: <" + upper.Str() + ">)", 511)
    }
  }

  /** A query lies in a range exactly when every active axis lies in [lower, upper). */
  lemma ContainsIff(r: MemoryRange, q: MemoryState)
    ensures r.Contains(q) <==>
      forall i: nat :: i < q.datasize ==> r.lower.stats.Field(i) <= q.stats.Field(i) < r.upper.stats.Field(i)
  {
  }

  /** The upper corner is never inside its own range, given one active axis. */
  lemma UpperExcluded(r: MemoryRange)
    requires r.upper.datasize >= 1
    ensures !r.Contains(r.upper)
  {
    var zero: nat := 0;
    var corner := r.upper.stats.Field(zero);
    assert !(corner < corner);
  }

  /** The lower corner is inside its range when it lies strictly below the upper one. */
  lemma LowerIncluded(r: MemoryRange)
    requires r.lower.Lt(r.upper)
    ensures r.Contains(r.lower)
  {
  }

  /** A range whose bounds are inverted on some active axis of the query contains nothing. */
  lemma InvertedAxisEmpty(r: MemoryRange, q: MemoryState, j: nat)
    requires j < q.datasize && r.lower.stats.Field(j) >= r.upper.stats.Field(j)
    ensures !r.Contains(q)
  {
    assert !(r.lower.stats.Field(j) <= q.stats.Field(j) < r.upper.stats.Field(j));
  }

  /**
   * Two ranges that meet on axis `j` (one's upper bound is the other's lower
   * bound) never both contain a query for which that axis is active.
   */
  lemma AdjacentDisjoint(r1: MemoryRange, r2: MemoryRange, q: MemoryState, j: nat)
    requires j < q.datasize && r1.upper.stats.Field(j) == r2.lower.stats.Field(j)
    ensures !(r1.Contains(q) && r2.Contains(q))
  {
    assert !(q.stats.Field(j) < r1.upper.stats.Field(j) && r2.lower.stats.Field(j) <= q.stats.Field(j));
  }

  /** Range equality is agreement of both bounds on their active axes. */
  lemma EqualsIff(r: MemoryRange, other: MemoryRange)
    ensures r.Equals(other) <==>
      (forall i: nat :: i < r.lower.datasize ==> r.lower.stats.Field(i) == other.lower.stats.Field(i))
      && (forall i: nat :: i < r.upper.datasize ==> r.upper.stats.Field(i) == other.upper.stats.Field(i))
  {
  }

  /** Range equality is reflexive. */
  lemma EqualsReflexive(r: MemoryRange)
    ensures r.Equals(r)
  {
  }
}
