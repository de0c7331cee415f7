/**
 * The host side of SQLite's virtual-table protocol that the adapter relies on:
 * result codes, the xBestIndex exchange (constraints in, constraint usage and
 * a cost out) and the rule SQLite applies to an xBestIndex answer before it
 * builds the argument vector it hands to xFilter.
 */
module SqliteHost {
  import opened Wrappers

  const SQLITE_OK := 0
  const SQLITE_ERROR := 1
  const SQLITE_ROW := 100
  const SQLITE_DONE := 101

  const SQLITE_INDEX_CONSTRAINT_EQ := 2
  /** The fallback value the adapter defines when SQLite's header lacks it. */
  const SQLITE_INDEX_CONSTRAINT_FUNCTION := 150

  /** SQLite's starting estimatedCost (SQLITE_BIG_DBL / 2). */
  const DEFAULT_ESTIMATED_COST: int := 500000000000000000000000000000000000000000000000000000000000000000000000000000000000000000000000000

  /** One entry of aConstraint: a WHERE term (or table-valued argument) offered to the planner. */
  datatype Constraint = Constraint(iColumn: int, op: int, usable: bool)

  /** One entry of aConstraintUsage, the planner's answer for the matching constraint. */
  datatype ConstraintUsage = ConstraintUsage(argvIndex: int, omit: bool)

  /** What SQLite writes into aConstraintUsage before it calls xBestIndex. */
  const UNUSED := ConstraintUsage(0, false)

  /** The sqlite3_index_info structure: constraints are read, the rest is written. */
  class IndexInfo {
    const aConstraint: seq<Constraint>
    const aConstraintUsage: array<ConstraintUsage>
    var idxNum: int
    var estimatedCost: int

    ghost predicate Valid()
      reads this
    {
      aConstraintUsage.Length == |aConstraint|
    }

    /** SQLite's preparation of the structure for one xBestIndex call. */
    constructor (cs: seq<Constraint>)
      ensures Valid() && aConstraint == cs && fresh(aConstraintUsage)
      ensures forall i :: 0 <= i < |cs| ==> aConstraintUsage[i] == UNUSED
      ensures idxNum == 0 && estimatedCost == DEFAULT_ESTIMATED_COST
    {
      aConstraint := cs;
      aConstraintUsage := new ConstraintUsage[|cs|](_ => UNUSED);
      idxNum := 0;
      estimatedCost := DEFAULT_ESTIMATED_COST;
    }
  }

  /** A usable equality constraint on column col. */
  predicate IsEqOn(k: Constraint, col: int)
  {
    k.usable && k.op == SQLITE_INDEX_CONSTRAINT_EQ && k.iColumn == col
  }

  /** How many constraints the plan hands to xFilter (positive argvIndex). */
  function ArgvCount(u: seq<ConstraintUsage>): nat
  {
    if |u| == 0 then 0
    else ArgvCount(u[..|u| - 1]) + (if u[|u| - 1].argvIndex > 0 then 1 else 0)
  }

  /**
   * SQLite's check of an xBestIndex answer: every positive argvIndex sits on a
   * usable constraint, no two constraints share one, and none exceeds the number
   * of constraints handed over, so that the values 1..ArgvCount(u) are all taken.
   * An answer that breaks it makes the statement fail with "xBestIndex malfunction".
   */
  ghost predicate WellFormedUsage(cs: seq<Constraint>, u: seq<ConstraintUsage>)
  {
    && |u| == |cs|
    && (forall i :: 0 <= i < |u| && u[i].argvIndex > 0 ==> cs[i].usable && u[i].argvIndex <= ArgvCount(u))
    && (forall i, j :: 0 <= i < j < |u| && u[i].argvIndex > 0 ==> u[i].argvIndex != u[j].argvIndex)
  }

  /** The position of the first constraint whose argvIndex is k, or -1. */
  function ArgvSlot(u: seq<ConstraintUsage>, k: int): (i: int)
    ensures -1 <= i < |u|
    ensures i >= 0 ==> u[i].argvIndex == k && forall j :: 0 <= j < i ==> u[j].argvIndex != k
    ensures i < 0 ==> forall j :: 0 <= j < |u| ==> u[j].argvIndex != k
  {
    if |u| == 0 then -1
    else
      var i := ArgvSlot(u[..|u| - 1], k);
      if i >= 0 then i else if u[|u| - 1].argvIndex == k then |u| - 1 else -1
  }

  /**
   * The argument vector xFilter receives: entry k - 1 is the right-hand value
   * of the constraint given argvIndex k (values[i] belongs to constraint i).
   */
  function HostArgv(u: seq<ConstraintUsage>, values: seq<Option<string>>): seq<Option<string>>
    requires |values| == |u|
  {
    seq(ArgvCount(u), k requires 0 <= k < ArgvCount(u) =>
      var i := ArgvSlot(u, k + 1); if i >= 0 then values[i] else None)
  }

  /** Only positions t and a carry a positive argvIndex. */
  ghost predicate OnlyTwoPassed(u: seq<ConstraintUsage>, t: int, a: int)
  {
    && 0 <= t < |u| && 0 <= a < |u| && t != a
    && u[t].argvIndex > 0 && u[a].argvIndex > 0
    && forall i :: 0 <= i < |u| && i != t && i != a ==> u[i].argvIndex <= 0
  }

  lemma {:induction false} ArgvCountOfTwo(u: seq<ConstraintUsage>, t: int, a: int)
    requires OnlyTwoPassed(u, t, a)
    ensures ArgvCount(u) == 2
  {
    var n := |u| - 1;
    if t == n || a == n {
      var other := if t == n then a else t;
      ArgvCountOfOne(u[..n], other);
    } else {
      ArgvCountOfTwo(u[..n], t, a);
    }
  }

  lemma {:induction false} ArgvCountOfOne(u: seq<ConstraintUsage>, t: int)
    requires 0 <= t < |u| && u[t].argvIndex > 0
    requires forall i :: 0 <= i < |u| && i != t ==> u[i].argvIndex <= 0
    ensures ArgvCount(u) == 1
  {
    var n := |u| - 1;
    if t == n {
      ArgvCountOfNone(u[..n]);
    } else {
      ArgvCountOfOne(u[..n], t);
    }
  }

  lemma {:induction false} ArgvCountOfNone(u: seq<ConstraintUsage>)
    requires forall i :: 0 <= i < |u| ==> u[i].argvIndex <= 0
    ensures ArgvCount(u) == 0
  {
    if |u| > 0 {
      ArgvCountOfNone(u[..|u| - 1]);
    }
  }

  /**
   * A plan that hands over exactly two usable constraints, as argvIndex 1 and 2,
   * passes SQLite's check, and xFilter receives their two values in that order.
   */
  lemma TwoArgumentPlan(cs: seq<Constraint>, u: seq<ConstraintUsage>, values: seq<Option<string>>, t: int, a: int)
    requires |u| == |cs| == |values| && OnlyTwoPassed(u, t, a)
    requires u[t].argvIndex == 1 && u[a].argvIndex == 2 && cs[t].usable && cs[a].usable
    ensures WellFormedUsage(cs, u)
    ensures HostArgv(u, values) == [values[t], values[a]]
  {
    ArgvCountOfTwo(u, t, a);
    assert ArgvSlot(u, 1) == t;
    assert ArgvSlot(u, 2) == a;
  }
}
