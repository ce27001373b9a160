/** Which units the batch runners of dockernet/cmd/dockernet.py visit, and in
    what order: the nested `for j in range(1, count + 1)` / `for i in range(1, n + 1)`
    of the port batches, and the `range(start, end + 1)` of the switch batches. */
module Iteration {

  /** One (switch, port) unit of the add, bind and delete batches. */
  datatype Unit = Unit(sw: nat, port: nat)

  /** The length of `range(1, n + 1)`: none when n < 1. */
  function Count(n: int): nat { if n < 0 then 0 else n }

  /** The ports 1..n of switch j, ascending. */
  function Row(j: nat, n: int): seq<Unit>
  {
    seq(Count(n), i requires 0 <= i < Count(n) => Unit(j, i + 1))
  }

  /** Switches 1..count ascending and, within each, ports 1..n ascending. */
  function Grid(count: nat, n: int): seq<Unit>
  {
    if count == 0 then [] else Grid(count - 1, n) + Row(count, n)
  }

  /** The switches of `range(lo, hi + 1)`, ascending. */
  function Span(lo: int, hi: int): seq<int>
  {
    seq(if hi < lo then 0 else hi - lo + 1, k => lo + k)
  }

  /** `f` applied to each element, in order. */
  function Map<A, B>(f: A -> B, s: seq<A>): (r: seq<B>)
    ensures |r| == |s|
    ensures forall k :: 0 <= k < |s| ==> r[k] == f(s[k])
  {
    seq(|s|, k requires 0 <= k < |s| => f(s[k]))
  }

  lemma MapAppend<A, B>(f: A -> B, s: seq<A>, t: seq<A>)
    ensures Map(f, s + t) == Map(f, s) + Map(f, t)
  {
  }

  /** The order in which the nested loops visit units. */
  predicate UnitBefore(u: Unit, v: Unit)
  {
    u.sw < v.sw || (u.sw == v.sw && u.port < v.port)
  }

  /** The port batches visit count × n units, every one with a switch in 1..count
      and a port in 1..n, each strictly after the one before. */
  lemma {:induction false} GridShape(count: nat, n: int)
    ensures |Grid(count, n)| == count * Count(n)
    ensures forall k :: 0 <= k < |Grid(count, n)| ==>
              1 <= Grid(count, n)[k].sw <= count && 1 <= Grid(count, n)[k].port <= Count(n)
    ensures forall p, q :: 0 <= p < q < |Grid(count, n)| ==> UnitBefore(Grid(count, n)[p], Grid(count, n)[q])
  {
    if count > 0 {
      GridShape(count - 1, n);
      var g, front, row := Grid(count, n), Grid(count - 1, n), Row(count, n);
      assert g == front + row;
      assert |g| == (count - 1) * Count(n) + Count(n) == count * Count(n);
      forall p, q | 0 <= p < q < |g| ensures UnitBefore(g[p], g[q]) {
        if q < |front| {
          assert g[p] == front[p] && g[q] == front[q];
        } else if p < |front| {
          assert g[p] == front[p] && g[q] == row[q - |front|];
        } else {
          assert g[p] == row[p - |front|] && g[q] == row[q - |front|];
        }
      }
    }
  }

  lemma GridLength(count: nat, n: int)
    ensures |Grid(count, n)| == count * Count(n)
  {
    GridShape(count, n);
  }

  /** Port i of switch j is visited at position (j - 1) × n + (i - 1). */
  lemma {:induction false} GridAt(count: nat, n: int, j: nat, i: nat)
    requires 1 <= j <= count && 1 <= i <= n
    ensures 0 <= (j - 1) * n + (i - 1) < |Grid(count, n)|
    ensures Grid(count, n)[(j - 1) * n + (i - 1)] == Unit(j, i)
  {
    GridShape(count, n);
    GridShape(count - 1, n);
    assert Grid(count, n) == Grid(count - 1, n) + Row(count, n);
    if j < count {
      GridAt(count - 1, n, j, i);
      assert (j - 1) * n + (i - 1) < (count - 1) * n by {
        assert (j - 1) * n + n <= (count - 1) * n;
      }
    } else {
      assert Row(count, n)[i - 1] == Unit(j, i);
    }
  }

  /** A unit is visited exactly when its switch is in 1..count and its port in 1..n. */
  lemma GridMembers(count: nat, n: int, u: Unit)
    ensures u in Grid(count, n) <==> 1 <= u.sw <= count && 1 <= u.port <= n
  {
    GridShape(count, n);
    if 1 <= u.sw <= count && 1 <= u.port <= n {
      GridAt(count, n, u.sw, u.port);
    }
  }

  /** The switch batches visit lo..hi, ascending, each once. */
  lemma SpanShape(lo: int, hi: int)
    ensures |Span(lo, hi)| == if hi < lo then 0 else hi - lo + 1
    ensures forall k :: 0 <= k < |Span(lo, hi)| ==> Span(lo, hi)[k] == lo + k
    ensures forall j :: j in Span(lo, hi) <==> lo <= j <= hi
    ensures forall p, q :: 0 <= p < q < |Span(lo, hi)| ==> Span(lo, hi)[p] < Span(lo, hi)[q]
  {
    forall j | lo <= j <= hi ensures j in Span(lo, hi) {
      assert Span(lo, hi)[j - lo] == j;
    }
  }
}
