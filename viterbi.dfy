/**
 * `Viterbi::GetPath`: the most likely state sequence of a hidden Markov
 * model, by dynamic programming over a table of (back-pointer, metric)
 * pairs, followed by a walk back along the pointers.
 */
module Viterbi {
  import opened Wrappers
  import opened Helpers

  const ObsEmptyErr: string := "GetPath(): observation matrix is empty"
  const TransEmptyErr: string := "GetPath(): transition matrix is empty"
  const InitSizeErr: string := "GetPath(): number of initial probabilities != number of states"
  const TransDimErr: string := "GetPath(): wrong transition matrix dimensions"

  /**
   * The product of two doubles. The model leaves it a parameter: the
   * table's construction does not depend on what it is, and the optimality
   * lemmas assume only `MonotoneMul`.
   */
  type Mul = (real, real) -> real

  /** `state_metric_t`: a back-pointer and a metric. */
  datatype StateMetric = StateMetric(state: nat, metric: real)

  /** Every row of m has at least n entries. */
  predicate RowsAtLeast(m: seq<seq<real>>, n: nat)
  {
    forall k :: 0 <= k < |m| ==> |m[k]| >= n
  }

  /**
   * The inputs the loops can index: at least one observation and one state,
   * one initial probability per state, a square transition matrix, and every
   * observation row as long as the first.
   */
  predicate Shaped(obs: seq<seq<real>>, init: seq<real>, trans: seq<seq<real>>)
  {
    |obs| > 0 && |obs[0]| > 0 && |init| == |obs[0]| && |trans| == |obs[0]| && |trans[0]| == |obs[0]| &&
    RowsAtLeast(obs, |obs[0]|) && RowsAtLeast(trans, |obs[0]|)
  }

  /** The products the inner loop compares for state i: each predecessor's metric times its transition into i. */
  function Candidates(mul: Mul, prev: seq<StateMetric>, trans: seq<seq<real>>, i: nat): (c: seq<real>)
    requires |prev| <= |trans| && i < |prev| && RowsAtLeast(trans, |prev|)
    ensures |c| == |prev|
  {
    seq(|prev|, j requires 0 <= j < |prev| => mul(prev[j].metric, trans[j][i]))
  }

  /**
   * The inner loop over `j_state` after its first n steps: it starts from
   * (last state, 0) and is replaced only by a strictly greater candidate.
   */
  function Best(c: seq<real>, n: nat): (m: StateMetric)
    requires 0 < |c| && n <= |c|
    ensures m.state < |c|
  {
    if n == 0 then StateMetric(|c| - 1, 0.0)
    else
      var m := Best(c, n - 1);
      if c[n - 1] > m.metric then StateMetric(n - 1, c[n - 1]) else m
  }

  /** Entry i of a later row: the best predecessor, and its metric times the observation. */
  function Cell(mul: Mul, prev: seq<StateMetric>, trans: seq<seq<real>>, obsRow: seq<real>, i: nat): StateMetric
    requires 0 < |prev| <= |trans| && i < |prev| && i < |obsRow| && RowsAtLeast(trans, |prev|)
  {
    var b := Best(Candidates(mul, prev, trans, i), |prev|);
    StateMetric(b.state, mul(b.metric, obsRow[i]))
  }

  /** The first n entries of row 0: no back-pointer, initial probability times observation. */
  function FirstRow(mul: Mul, obs0: seq<real>, init: seq<real>, n: nat): (row: seq<StateMetric>)
    requires n <= |obs0| && n <= |init|
    ensures |row| == n
    ensures forall s :: 0 <= s < n ==> row[s] == StateMetric(0, mul(init[s], obs0[s]))
  {
    seq(n, s requires 0 <= s < n => StateMetric(0, mul(init[s], obs0[s])))
  }

  /** The first n entries of a later row. */
  function NextRow(mul: Mul, prev: seq<StateMetric>, trans: seq<seq<real>>, obsRow: seq<real>, n: nat): (row: seq<StateMetric>)
    requires 0 < |prev| <= |trans| && n <= |prev| && n <= |obsRow| && RowsAtLeast(trans, |prev|)
    ensures |row| == n
    ensures forall i :: 0 <= i < n ==> row[i] == Cell(mul, prev, trans, obsRow, i)
  {
    seq(n, i requires 0 <= i < n => Cell(mul, prev, trans, obsRow, i))
  }

  /** Row o of the `metrics` table. */
  function Metrics(mul: Mul, obs: seq<seq<real>>, init: seq<real>, trans: seq<seq<real>>, o: nat): (row: seq<StateMetric>)
    requires Shaped(obs, init, trans) && o < |obs|
    ensures |row| == |obs[0]|
  {
    if o == 0 then FirstRow(mul, obs[0], init, |obs[0]|)
    else NextRow(mul, Metrics(mul, obs, init, trans, o - 1), trans, obs[o], |obs[0]|)
  }

  /** The metrics of a row, in state order. */
  function Values(row: seq<StateMetric>): (vs: seq<real>)
    ensures |vs| == |row| && forall k :: 0 <= k < |row| ==> vs[k] == row[k].metric
  {
    seq(|row|, k requires 0 <= k < |row| => row[k].metric)
  }

  /** Every entry of p names one of the states. */
  predicate IsStates(p: seq<nat>, statesCnt: nat)
  {
    forall k :: 0 <= k < |p| ==> p[k] < statesCnt
  }

  /**
   * What `GetPath` returns: one state per observation; the last is the first
   * state of greatest final metric (`max_element` by the metric); every
   * earlier one is the back-pointer stored for its successor.
   */
  ghost predicate Decoded(mul: Mul, obs: seq<seq<real>>, init: seq<real>, trans: seq<seq<real>>, path: seq<nat>)
    requires Shaped(obs, init, trans)
  {
    |path| == |obs| &&
    IsStates(path, |obs[0]|) &&
    path[|obs| - 1] == FirstMaxIndex(Values(Metrics(mul, obs, init, trans, |obs| - 1)), |obs[0]|) &&
    (forall o :: 0 <= o < |obs| - 1 ==> path[o] == Metrics(mul, obs, init, trans, o + 1)[path[o + 1]].state)
  }

  /**
   * `GetPath`: the input checks in the source's order, then the table filled
   * row by row and the path filled backwards. Rows of `obs` and `trans` other
   * than the first are never checked by the source; reading beyond them is
   * undefined, hence the preconditions.
   */
  method GetPath(mul: Mul, obs: seq<seq<real>>, init: seq<real>, trans: seq<seq<real>>) returns (r: Result<seq<nat>>)
    requires |obs| > 0 ==> RowsAtLeast(obs, |obs[0]|)
    requires |trans| > 0 ==> RowsAtLeast(trans, |trans[0]|)
    ensures |obs| == 0 || |obs[0]| == 0 ==> r == Err(ObsEmptyErr)
    ensures |obs| > 0 && |obs[0]| > 0 && (|trans| == 0 || |trans[0]| == 0) ==> r == Err(TransEmptyErr)
    ensures |obs| > 0 && |obs[0]| > 0 && |trans| > 0 && |trans[0]| > 0 && |init| != |obs[0]| ==> r == Err(InitSizeErr)
    ensures (|obs| > 0 && |obs[0]| > 0 && |trans| > 0 && |trans[0]| > 0 && |init| == |obs[0]| &&
             (|trans| != |obs[0]| || |trans[0]| != |obs[0]|)) ==> r == Err(TransDimErr)
    ensures r.Ok? <==> Shaped(obs, init, trans)
    ensures r.Ok? ==> Decoded(mul, obs, init, trans, r.value)
  {
    if |obs| == 0 || |obs[0]| == 0 {
      return Err(ObsEmptyErr);
    }
    if |trans| == 0 || |trans[0]| == 0 {
      return Err(TransEmptyErr);
    }
    var statesCnt := |obs[0]|;
    if |init| != statesCnt {
      return Err(InitSizeErr);
    }
    if |trans| != statesCnt || |trans[0]| != statesCnt {
      return Err(TransDimErr);
    }
    var metrics: seq<seq<StateMetric>> := FillMetrics(mul, obs, init, trans);
    forall o: nat, s: nat | o < |metrics| && s < statesCnt ensures metrics[o][s].state < statesCnt {
      PointersAreStates(mul, obs, init, trans, o, s);
    }
    var path := Backtrack(metrics, statesCnt);
    WalkedIsDecoded(mul, obs, init, trans, metrics, path);
    return Ok(path);
  }

  /** The two nested loops: every row of the table, in order. */
  method FillMetrics(mul: Mul, obs: seq<seq<real>>, init: seq<real>, trans: seq<seq<real>>) returns (metrics: seq<seq<StateMetric>>)
    requires Shaped(obs, init, trans)
    ensures |metrics| == |obs|
    ensures forall o :: 0 <= o < |obs| ==> metrics[o] == Metrics(mul, obs, init, trans, o)
  {
    var row := FillFirstRow(mul, obs[0], init);
    metrics := [row];
    for o := 1 to |obs|
      invariant metrics == Table(mul, obs, init, trans, o)
    {
      TableLast(mul, obs, init, trans, o);
      var next := FillRow(mul, metrics[o - 1], trans, obs[o]);
      MetricsUnfold(mul, obs, init, trans, o);
      metrics := metrics + [next];
    }
    TableRows(mul, obs, init, trans, |obs|);
  }

  /** The first n rows of the table. */
  function Table(mul: Mul, obs: seq<seq<real>>, init: seq<real>, trans: seq<seq<real>>, n: nat): (t: seq<seq<StateMetric>>)
    requires Shaped(obs, init, trans) && n <= |obs|
    ensures |t| == n
  {
    if n == 0 then [] else Table(mul, obs, init, trans, n - 1) + [Metrics(mul, obs, init, trans, n - 1)]
  }

  /** Row k of the first n rows is row k of the table. */
  lemma {:induction false} TableRows(mul: Mul, obs: seq<seq<real>>, init: seq<real>, trans: seq<seq<real>>, n: nat)
    requires Shaped(obs, init, trans) && n <= |obs|
    ensures forall k :: 0 <= k < n ==> Table(mul, obs, init, trans, n)[k] == Metrics(mul, obs, init, trans, k)
  {
    if n > 0 {
      TableRows(mul, obs, init, trans, n - 1);
    }
  }

  lemma TableLast(mul: Mul, obs: seq<seq<real>>, init: seq<real>, trans: seq<seq<real>>, n: nat)
    requires Shaped(obs, init, trans) && 0 < n <= |obs|
    ensures Table(mul, obs, init, trans, n)[n - 1] == Metrics(mul, obs, init, trans, n - 1)
  {
  }

  /** A later row of the table is the row the inner loops compute from the row before it. */
  lemma MetricsUnfold(mul: Mul, obs: seq<seq<real>>, init: seq<real>, trans: seq<seq<real>>, o: nat)
    requires Shaped(obs, init, trans) && 0 < o < |obs|
    ensures var prev := Metrics(mul, obs, init, trans, o - 1);
      0 < |prev| <= |trans| && |prev| <= |obs[o]| && RowsAtLeast(trans, |prev|) &&
      Metrics(mul, obs, init, trans, o) == NextRow(mul, prev, trans, obs[o], |prev|)
  {
  }

  /** Row 0: each state's initial probability times its observation, with back-pointer 0. */
  method FillFirstRow(mul: Mul, obs0: seq<real>, init: seq<real>) returns (row: seq<StateMetric>)
    requires |obs0| == |init|
    ensures row == FirstRow(mul, obs0, init, |obs0|)
  {
    row := [];
    for state := 0 to |obs0|
      invariant row == FirstRow(mul, obs0, init, state)
    {
      row := row + [StateMetric(0, mul(init[state], obs0[state]))];
    }
  }

  /** One row: for every state, the scan over its predecessors. */
  method FillRow(mul: Mul, prev: seq<StateMetric>, trans: seq<seq<real>>, obsRow: seq<real>) returns (row: seq<StateMetric>)
    requires 0 < |prev| <= |trans| && |prev| <= |obsRow| && RowsAtLeast(trans, |prev|)
    ensures row == NextRow(mul, prev, trans, obsRow, |prev|)
  {
    var statesCnt := |prev|;
    row := [];
    for i := 0 to statesCnt
      invariant |row| == i
      invariant forall k :: 0 <= k < i ==> row[k] == Cell(mul, prev, trans, obsRow, k)
    {
      ghost var c := Candidates(mul, prev, trans, i);
      var maxMetric := StateMetric(statesCnt - 1, 0.0);
      for j := 0 to statesCnt
        invariant maxMetric == Best(c, j)
      {
        var cur := StateMetric(j, mul(prev[j].metric, trans[j][i]));
        if cur.metric > maxMetric.metric {
          maxMetric := cur;
        }
      }
      row := row + [StateMetric(maxMetric.state, mul(maxMetric.metric, obsRow[i]))];
    }
  }

  /** Every row of the table has one entry per state. */
  predicate RowsOfLength(metrics: seq<seq<StateMetric>>, statesCnt: nat)
  {
    forall o :: 0 <= o < |metrics| ==> |metrics[o]| == statesCnt
  }

  /**
   * p is the walk back through the table: one state per row, the last the
   * first arg-max of the last row, every earlier one the back-pointer
   * stored for its successor.
   */
  predicate Walked(metrics: seq<seq<StateMetric>>, statesCnt: nat, p: seq<nat>)
    requires 0 < |metrics| && 0 < statesCnt && RowsOfLength(metrics, statesCnt)
  {
    |p| == |metrics| && IsStates(p, statesCnt) &&
    p[|p| - 1] == FirstMaxIndex(Values(metrics[|p| - 1]), statesCnt) &&
    forall o :: 0 <= o < |p| - 1 ==> p[o] == metrics[o + 1][p[o + 1]].state
  }

  /** The walk back: the arg-max of the last row, then each stored back-pointer. */
  method Backtrack(metrics: seq<seq<StateMetric>>, statesCnt: nat) returns (p: seq<nat>)
    requires 0 < |metrics| && 0 < statesCnt && RowsOfLength(metrics, statesCnt)
    requires forall o, s :: 0 <= o < |metrics| && 0 <= s < statesCnt ==> metrics[o][s].state < statesCnt
    ensures Walked(metrics, statesCnt, p)
  {
    var obsCnt := |metrics|;
    p := seq(obsCnt, _ => 0);
    p := p[obsCnt - 1 := FirstMaxIndex(Values(metrics[obsCnt - 1]), statesCnt)];
    var o := obsCnt - 2;
    while o >= 0
      invariant -1 <= o <= obsCnt - 2 && |p| == obsCnt
      invariant p[obsCnt - 1] == FirstMaxIndex(Values(metrics[obsCnt - 1]), statesCnt)
      invariant forall k :: o < k < obsCnt ==> p[k] < statesCnt
      invariant forall k :: o < k < obsCnt - 1 ==> p[k] == metrics[k + 1][p[k + 1]].state
    {
      p := p[o := metrics[o + 1][p[o + 1]].state];
      o := o - 1;
    }
    assert IsStates(p, statesCnt);
  }

  /** Every back-pointer stored in the table names a state. */
  lemma PointersAreStates(mul: Mul, obs: seq<seq<real>>, init: seq<real>, trans: seq<seq<real>>, o: nat, s: nat)
    requires Shaped(obs, init, trans) && o < |obs| && s < |obs[0]|
    ensures Metrics(mul, obs, init, trans, o)[s].state < |obs[0]|
  {
    if o > 0 {
      MetricsStep(mul, obs, init, trans, o, s);
    }
  }

  /** The walk back through the table of `Metrics` is a decoded path. */
  lemma WalkedIsDecoded(mul: Mul, obs: seq<seq<real>>, init: seq<real>, trans: seq<seq<real>>, metrics: seq<seq<StateMetric>>, p: seq<nat>)
    requires Shaped(obs, init, trans)
    requires |metrics| == |obs| && forall o :: 0 <= o < |obs| ==> metrics[o] == Metrics(mul, obs, init, trans, o)
    requires RowsOfLength(metrics, |obs[0]|) && Walked(metrics, |obs[0]|, p)
    ensures Decoded(mul, obs, init, trans, p)
  {
  }

  // ---------------------------------------------------------------------
  // The scan over predecessors.
  // ---------------------------------------------------------------------

  /** The scan's metric is at least every candidate it has seen. */
  lemma {:induction false} BestBounds(c: seq<real>, n: nat, j: nat)
    requires 0 < |c| && j < n <= |c|
    ensures c[j] <= Best(c, n).metric
  {
    if j < n - 1 {
      BestBounds(c, n - 1, j);
    }
  }

  /** The scan starts from 0 and only ever goes up. */
  lemma {:induction false} BestNonNegative(c: seq<real>, n: nat)
    requires 0 < |c| && n <= |c|
    ensures Best(c, n).metric >= 0.0
  {
    if n > 0 {
      BestNonNegative(c, n - 1);
    }
  }

  /** Either the metric is the candidate at the pointer, or the start value was never replaced. */
  lemma {:induction false} BestCases(c: seq<real>, n: nat)
    requires 0 < |c| && n <= |c|
    ensures var b := Best(c, n); (b.state < n && b.metric == c[b.state]) || b == StateMetric(|c| - 1, 0.0)
  {
    if n > 0 {
      BestCases(c, n - 1);
    }
  }

  /** With a non-negative last candidate the full scan's metric is the candidate at its pointer. */
  lemma BestAttained(c: seq<real>)
    requires 0 < |c| && c[|c| - 1] >= 0.0
    ensures var b := Best(c, |c|); b.metric == c[b.state]
  {
    BestCases(c, |c|);
    if Best(c, |c|) == StateMetric(|c| - 1, 0.0) {
      BestBounds(c, |c|, |c| - 1);
    }
  }

  /**
   * Ties between predecessors go to the smallest state: a positive metric
   * is the candidate at its pointer and every earlier candidate is strictly
   * below it. A metric that is not positive is the untouched start value,
   * so an all-zero column points to the last state.
   */
  lemma {:induction false} BestFirst(c: seq<real>, n: nat)
    requires 0 < |c| && n <= |c|
    ensures var b := Best(c, n);
      b.metric > 0.0 ==> (b.state < n && b.metric == c[b.state] && forall j :: 0 <= j < b.state ==> c[j] < b.metric)
    ensures Best(c, n).metric <= 0.0 ==> Best(c, n) == StateMetric(|c| - 1, 0.0)
  {
    if n > 0 {
      BestFirst(c, n - 1);
      BestNonNegative(c, n - 1);
      if c[n - 1] > Best(c, n - 1).metric {
        forall j | 0 <= j < n - 1 ensures c[j] < c[n - 1] {
          BestBounds(c, n - 1, j);
        }
      }
    }
  }

  // ---------------------------------------------------------------------
  // Optimality of the decoded path for non-negative inputs.
  // ---------------------------------------------------------------------

  /**
   * What the proof needs of the product: scaling by a non-negative factor
   * keeps order, and non-negative factors give a non-negative product. Real
   * multiplication has both (`RealProductQualifies`), and so does a
   * correctly rounded floating-point product. Both facts are read through
   * named predicates, so that a proof obtains an instance only where it
   * names one.
   */
  ghost predicate MonotoneMul(mul: Mul)
  {
    (forall a, b, c :: a <= b && c >= 0.0 ==> Scales(mul, a, b, c)) &&
    (forall a, c :: a >= 0.0 && c >= 0.0 ==> KeepsSign(mul, a, c))
  }

  predicate Scales(mul: Mul, a: real, b: real, c: real)
  {
    mul(a, c) <= mul(b, c)
  }

  predicate KeepsSign(mul: Mul, a: real, c: real)
  {
    mul(a, c) >= 0.0
  }

  lemma RealProductQualifies()
    ensures MonotoneMul((a, b) => a * b)
  {
    var m: Mul := (a, b) => a * b;
    forall a: real, b: real, c: real | a <= b && c >= 0.0 ensures Scales(m, a, b, c) {
      MultiplyMonotone(a, b, c);
    }
    forall a: real, c: real | a >= 0.0 && c >= 0.0 ensures KeepsSign(m, a, c) {
      MultiplyMonotone(0.0, a, c);
    }
  }

  lemma MultiplyMonotone(a: real, b: real, c: real)
    requires a <= b && c >= 0.0
    ensures a * c <= b * c
  {
    assert (b - a) * c >= 0.0;
  }

  /**
   * Every probability is non-negative. The entries are read through
   * `Entry`, so that a proof obtains the sign of an entry only where it
   * names that entry.
   */
  predicate NonNegative(obs: seq<seq<real>>, init: seq<real>, trans: seq<seq<real>>)
  {
    (forall o, s :: 0 <= o < |obs| && 0 <= s < |obs[o]| ==> Entry(obs, o, s) >= 0.0) &&
    (forall s :: 0 <= s < |init| ==> Entry([init], 0, s) >= 0.0) &&
    (forall j, i :: 0 <= j < |trans| && 0 <= i < |trans[j]| ==> Entry(trans, j, i) >= 0.0)
  }

  function Entry(m: seq<seq<real>>, o: nat, s: nat): real
    requires o < |m| && s < |m[o]|
  {
    m[o][s]
  }

  /**
   * The probability of the first t + 1 states of p: the initial probability
   * times the observation, then times a transition and an observation per
   * step, multiplied in the order the table multiplies them.
   */
  ghost function Score(mul: Mul, obs: seq<seq<real>>, init: seq<real>, trans: seq<seq<real>>, p: seq<nat>, t: nat): real
    requires Shaped(obs, init, trans) && t < |p| <= |obs| && IsStates(p, |obs[0]|)
  {
    if t == 0 then mul(init[p[0]], obs[0][p[0]])
    else mul(mul(Score(mul, obs, init, trans, p, t - 1), trans[p[t - 1]][p[t]]), obs[t][p[t]])
  }

  /** Entry i of a later row of the table, through the row function. */
  lemma MetricsStep(mul: Mul, obs: seq<seq<real>>, init: seq<real>, trans: seq<seq<real>>, t: nat, i: nat)
    requires Shaped(obs, init, trans) && 0 < t < |obs| && i < |obs[0]|
    ensures Metrics(mul, obs, init, trans, t)[i] == Cell(mul, Metrics(mul, obs, init, trans, t - 1), trans, obs[t], i)
  {
  }

  lemma {:induction false} MetricsNonNegative(mul: Mul, obs: seq<seq<real>>, init: seq<real>, trans: seq<seq<real>>, o: nat)
    requires Shaped(obs, init, trans) && NonNegative(obs, init, trans) && MonotoneMul(mul) && o < |obs|
    ensures forall s :: 0 <= s < |obs[0]| ==> Metrics(mul, obs, init, trans, o)[s].metric >= 0.0
  {
    if o == 0 {
      forall s | 0 <= s < |obs[0]| ensures Metrics(mul, obs, init, trans, o)[s].metric >= 0.0 {
        assert Entry([init], 0, s) >= 0.0 && Entry(obs, 0, s) >= 0.0;
        assert KeepsSign(mul, init[s], obs[0][s]);
      }
    } else {
      var prev := Metrics(mul, obs, init, trans, o - 1);
      forall s | 0 <= s < |obs[0]| ensures Metrics(mul, obs, init, trans, o)[s].metric >= 0.0 {
        BestNonNegative(Candidates(mul, prev, trans, s), |prev|);
        MetricsStep(mul, obs, init, trans, o, s);
        assert Entry(obs, o, s) >= 0.0;
        assert KeepsSign(mul, Best(Candidates(mul, prev, trans, s), |prev|).metric, obs[o][s]);
      }
    }
  }

  /** No state sequence that is in state p[t] at step t scores above that entry's metric. */
  lemma {:induction false} MetricBoundsScore(mul: Mul, obs: seq<seq<real>>, init: seq<real>, trans: seq<seq<real>>, p: seq<nat>, t: nat)
    requires Shaped(obs, init, trans) && NonNegative(obs, init, trans) && MonotoneMul(mul)
    requires t < |p| <= |obs| && IsStates(p, |obs[0]|)
    ensures Score(mul, obs, init, trans, p, t) <= Metrics(mul, obs, init, trans, t)[p[t]].metric
  {
    if t == 0 {
      assert Metrics(mul, obs, init, trans, 0)[p[0]] == StateMetric(0, mul(init[p[0]], obs[0][p[0]]));
    } else {
      var prev := Metrics(mul, obs, init, trans, t - 1);
      var j, i := p[t - 1], p[t];
      var c := Candidates(mul, prev, trans, i);
      var sq := Score(mul, obs, init, trans, p, t - 1);
      MetricBoundsScore(mul, obs, init, trans, p, t - 1);
      assert sq <= prev[j].metric;
      MetricsStep(mul, obs, init, trans, t, i);
      BestBounds(c, |prev|, j);
      assert Entry(trans, j, i) >= 0.0 && Entry(obs, t, i) >= 0.0;
      assert Scales(mul, sq, prev[j].metric, trans[j][i]);
      assert Scales(mul, mul(sq, trans[j][i]), Best(c, |prev|).metric, obs[t][i]);
    }
  }

  /** The states along the back-pointers score exactly the metrics they pass through. */
  lemma {:induction false} DecodedPrefixScore(mul: Mul, obs: seq<seq<real>>, init: seq<real>, trans: seq<seq<real>>, path: seq<nat>, t: nat)
    requires Shaped(obs, init, trans) && NonNegative(obs, init, trans) && MonotoneMul(mul)
    requires Decoded(mul, obs, init, trans, path) && t < |obs|
    ensures Score(mul, obs, init, trans, path, t) == Metrics(mul, obs, init, trans, t)[path[t]].metric
  {
    if t == 0 {
      assert Metrics(mul, obs, init, trans, 0)[path[0]] == StateMetric(0, mul(init[path[0]], obs[0][path[0]]));
    } else {
      DecodedStepMetric(mul, obs, init, trans, path, t);
      DecodedPrefixScore(mul, obs, init, trans, path, t - 1);
    }
  }

  /** Along the decoded path, the metric at t extends the metric at t - 1 by one transition and one observation. */
  lemma DecodedStepMetric(mul: Mul, obs: seq<seq<real>>, init: seq<real>, trans: seq<seq<real>>, path: seq<nat>, t: nat)
    requires Shaped(obs, init, trans) && NonNegative(obs, init, trans) && MonotoneMul(mul)
    requires Decoded(mul, obs, init, trans, path) && 0 < t < |obs|
    ensures path[t - 1] < |obs[0]| && path[t] < |obs[0]| && path[t - 1] < |trans| && path[t] < |trans[path[t - 1]]|
    ensures Metrics(mul, obs, init, trans, t)[path[t]].metric
            == mul(mul(Metrics(mul, obs, init, trans, t - 1)[path[t - 1]].metric, trans[path[t - 1]][path[t]]), obs[t][path[t]])
  {
    assert path[t] < |obs[0]|;
    assert path[t - 1] == Metrics(mul, obs, init, trans, t)[path[t]].state;
    PointerMetric(mul, obs, init, trans, t, path[t]);
  }

  /** The metric of state i at t is its back-pointer's metric times the transition, times the observation. */
  lemma PointerMetric(mul: Mul, obs: seq<seq<real>>, init: seq<real>, trans: seq<seq<real>>, t: nat, i: nat)
    requires Shaped(obs, init, trans) && NonNegative(obs, init, trans) && MonotoneMul(mul)
    requires 0 < t < |obs| && i < |obs[0]|
    ensures var j := Metrics(mul, obs, init, trans, t)[i].state;
      j < |obs[0]| && j < |trans| && i < |trans[j]| &&
      Metrics(mul, obs, init, trans, t)[i].metric == mul(mul(Metrics(mul, obs, init, trans, t - 1)[j].metric, trans[j][i]), obs[t][i])
  {
    var prev := Metrics(mul, obs, init, trans, t - 1);
    MetricsStep(mul, obs, init, trans, t, i);
    assert prev[|prev| - 1].metric >= 0.0 by {
      MetricsNonNegative(mul, obs, init, trans, t - 1);
    }
    assert Entry(trans, |prev| - 1, i) >= 0.0;
    assert KeepsSign(mul, prev[|prev| - 1].metric, trans[|prev| - 1][i]);
    CellPointer(mul, prev, trans, obs[t], i);
  }

  /** When the last candidate is non-negative, a cell's metric is its back-pointer's candidate times the observation. */
  lemma CellPointer(mul: Mul, prev: seq<StateMetric>, trans: seq<seq<real>>, obsRow: seq<real>, i: nat)
    requires 0 < |prev| <= |trans| && i < |prev| && i < |obsRow| && RowsAtLeast(trans, |prev|)
    requires mul(prev[|prev| - 1].metric, trans[|prev| - 1][i]) >= 0.0
    ensures var cl := Cell(mul, prev, trans, obsRow, i);
      cl.state < |prev| && cl.metric == mul(mul(prev[cl.state].metric, trans[cl.state][i]), obsRow[i])
  {
    BestAttained(Candidates(mul, prev, trans, i));
  }

  /**
   * With non-negative probabilities the decoded path is a most likely state
   * sequence: no sequence of the same length scores higher.
   */
  lemma DecodedIsOptimal(mul: Mul, obs: seq<seq<real>>, init: seq<real>, trans: seq<seq<real>>, path: seq<nat>, other: seq<nat>)
    requires Shaped(obs, init, trans) && NonNegative(obs, init, trans) && MonotoneMul(mul)
    requires Decoded(mul, obs, init, trans, path)
    requires |other| == |obs| && IsStates(other, |obs[0]|)
    ensures Score(mul, obs, init, trans, other, |obs| - 1) <= Score(mul, obs, init, trans, path, |obs| - 1)
  {
    var t := |obs| - 1;
    var finals := Values(Metrics(mul, obs, init, trans, t));
    DecodedPrefixScore(mul, obs, init, trans, path, t);
    MetricBoundsScore(mul, obs, init, trans, other, t);
    FirstMaxIndexIsFirstMaximum(finals, |obs[0]|);
    assert finals[other[t]] <= finals[path[t]];
  }

  /** The back-pointer walk determines the path: there is exactly one decoded path. */
  lemma {:induction false} DecodedUnique(mul: Mul, obs: seq<seq<real>>, init: seq<real>, trans: seq<seq<real>>, p: seq<nat>, q: seq<nat>)
    requires Shaped(obs, init, trans) && Decoded(mul, obs, init, trans, p) && Decoded(mul, obs, init, trans, q)
    ensures p == q
  {
    var o := |obs| - 1;
    while o > 0
      invariant 0 <= o <= |obs| - 1
      invariant forall k :: o <= k < |obs| ==> p[k] == q[k]
    {
      assert p[o - 1] == Metrics(mul, obs, init, trans, o)[p[o]].state;
      assert q[o - 1] == Metrics(mul, obs, init, trans, o)[q[o]].state;
      o := o - 1;
    }
  }
}
