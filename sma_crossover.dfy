/**
 * The per-bar decision rule of a simple-moving-average crossover strategy.
 *
 * Each bar the strategy advances a bar counter; once the counter has reached
 * the window length it compares the two most recent prices of the window with
 * the window's arithmetic mean and may set a target position: the full
 * position on an upward crossing while flat, nothing on a downward crossing
 * while long. Every bar past warm-up records the current price and the mean.
 *
 * The price window and the current price are inputs; the target order and the
 * record are returned values rather than calls into the backtesting framework.
 */
module SmaCrossover {

  /** Number of daily prices in the moving-average window. */
  const MA_PERIODS: nat := 20

  /** Target quantity of shares ordered on an entry. */
  const N_STOCKS_TO_BUY: int := 20

  datatype Option<T> = None | Some(value: T)

  /** What one bar records: the current price and the moving average. */
  datatype Record = Record(price: real, movingAverage: real)

  /** What one bar produces: an optional order target and an optional record. */
  datatype Output = Output(order: Option<int>, rec: Option<Record>)

  /** The strategy's state: the bar counter and whether a position is held. */
  datatype State = State(time: int, hasPosition: bool)

  datatype StepResult = StepResult(next: State, out: Output)

  /** The state that the strategy's initialisation sets up. */
  const Initial: State := State(0, false)

  // ---------------------------------------------------------------------------
  // The arithmetic mean
  // ---------------------------------------------------------------------------

  function Sum(s: seq<real>): (total: real)
  {
    if |s| == 0 then 0.0 else s[0] + Sum(s[1..])
  }

  /** The arithmetic mean of a non-empty window. */
  function Mean(s: seq<real>): (m: real)
    requires |s| > 0
    ensures m * (|s| as real) == Sum(s)
  {
    Sum(s) / (|s| as real)
  }

  lemma {:induction false} SumAppend(s: seq<real>, x: real)
    ensures Sum(s + [x]) == Sum(s) + x
  {
    if |s| == 0 {
      assert s + [x] == [x];
    } else {
      assert (s + [x])[1..] == s[1..] + [x];
      SumAppend(s[1..], x);
    }
  }

  /** A sum of values between lo and hi lies between |s|*lo and |s|*hi. */
  lemma {:induction false} SumBounds(s: seq<real>, lo: real, hi: real)
    requires forall i :: 0 <= i < |s| ==> lo <= s[i] <= hi
    ensures (|s| as real) * lo <= Sum(s) <= (|s| as real) * hi
  {
    if |s| > 0 {
      SumBounds(s[1..], lo, hi);
      assert (|s| as real) * lo == lo + ((|s| - 1) as real) * lo;
      assert (|s| as real) * hi == hi + ((|s| - 1) as real) * hi;
    }
  }

  /** The mean of values between lo and hi lies between lo and hi. */
  lemma MeanBounds(s: seq<real>, lo: real, hi: real)
    requires |s| > 0
    requires forall i :: 0 <= i < |s| ==> lo <= s[i] <= hi
    ensures lo <= Mean(s) <= hi
  {
    SumBounds(s, lo, hi);
  }

  /** The mean of a window of equal prices is that price. */
  lemma MeanOfConstant(s: seq<real>, c: real)
    requires |s| > 0
    requires forall i :: 0 <= i < |s| ==> s[i] == c
    ensures Mean(s) == c
  {
    MeanBounds(s, c, c);
  }

  // ---------------------------------------------------------------------------
  // One bar, as a function of the state and the inputs
  // ---------------------------------------------------------------------------

  /** The previous price of a window: its second-to-last element. */
  function Previous(window: seq<real>): (p: real)
    requires |window| >= 2
  {
    window[|window| - 2]
  }

  /** The latest price of a window: its last element. */
  function Latest(window: seq<real>): (p: real)
    requires |window| >= 2
  {
    window[|window| - 1]
  }

  predicate CrossesUp(window: seq<real>)
    requires |window| == MA_PERIODS
  {
    Previous(window) < Mean(window) && Latest(window) > Mean(window)
  }

  predicate CrossesDown(window: seq<real>)
    requires |window| == MA_PERIODS
  {
    Previous(window) > Mean(window) && Latest(window) < Mean(window)
  }

  /**
   * One bar of the strategy: advance the counter; during warm-up do nothing
   * else; afterwards enter on an upward crossing while flat, exit on a
   * downward crossing while long, and record the current price with the mean.
   */
  function Step(s: State, window: seq<real>, current: real): (r: StepResult)
    requires |window| == MA_PERIODS
    ensures r.next.time == s.time + 1
  {
    var t := s.time + 1;
    if t < MA_PERIODS then
      StepResult(State(t, s.hasPosition), Output(None, None))
    else
      var rec := Some(Record(current, Mean(window)));
      if CrossesUp(window) && !s.hasPosition then
        StepResult(State(t, true), Output(Some(N_STOCKS_TO_BUY), rec))
      else if CrossesDown(window) && s.hasPosition then
        StepResult(State(t, false), Output(Some(0), rec))
      else
        StepResult(State(t, s.hasPosition), Output(None, rec))
  }

  // ---------------------------------------------------------------------------
  // The strategy's context object
  // ---------------------------------------------------------------------------

  class Context {
    var time: int
    var hasPosition: bool

    /** The state this object holds. */
    function Snapshot(): State
      reads this
    {
      State(time, hasPosition)
    }

    /** Start at bar zero, flat. */
    constructor ()
      ensures Snapshot() == Initial
    {
      time := 0;
      hasPosition := false;
    }

    /**
     * Handle one bar. `window` is the last MA_PERIODS prices, oldest first;
     * `current` is the current price. Returns the order target, if an order
     * is placed, and the record, if one is made.
     */
    method HandleData(window: seq<real>, current: real) returns (order: Option<int>, rec: Option<Record>)
      requires |window| == MA_PERIODS
      modifies this
      ensures time == old(time) + 1
      ensures time < MA_PERIODS ==> order == None && rec == None && hasPosition == old(hasPosition)
      ensures time >= MA_PERIODS ==> rec == Some(Record(current, Mean(window)))
      ensures order == Some(N_STOCKS_TO_BUY) <==>
                time >= MA_PERIODS && !old(hasPosition) && CrossesUp(window)
      ensures order == Some(0) <==>
                time >= MA_PERIODS && old(hasPosition) && CrossesDown(window)
      ensures order.None? ==> hasPosition == old(hasPosition)
      ensures order.Some? ==> hasPosition != old(hasPosition)
      ensures StepResult(Snapshot(), Output(order, rec)) == Step(old(Snapshot()), window, current)
    {
      time := time + 1;
      if time < MA_PERIODS {
        return None, None;
      }

      var ma := Mean(window);
      order := None;
      if window[|window| - 2] < ma && window[|window| - 1] > ma && !hasPosition {
        order := Some(N_STOCKS_TO_BUY);
        hasPosition := true;
      } else if window[|window| - 2] > ma && window[|window| - 1] < ma && hasPosition {
        order := Some(0);
        hasPosition := false;
      }

      rec := Some(Record(current, ma));
    }
  }

  // ---------------------------------------------------------------------------
  // Properties of one bar
  // ---------------------------------------------------------------------------

  /**
   * The rules of one bar. While the new counter is below MA_PERIODS nothing
   * happens but the count. Past warm-up the bar records the current price
   * with the window's mean; it orders N_STOCKS_TO_BUY exactly on an upward
   * crossing while flat and 0 exactly on a downward crossing while long. At
   * most one order is placed, its target is set by the old position, and the
   * position flag changes exactly when an order is placed.
   */
  lemma StepRules(s: State, window: seq<real>, current: real)
    requires |window| == MA_PERIODS
    ensures var r := Step(s, window, current);
      && (s.time + 1 < MA_PERIODS ==> r.out == Output(None, None) && r.next.hasPosition == s.hasPosition)
      && (s.time + 1 >= MA_PERIODS ==> r.out.rec == Some(Record(current, Mean(window))))
      && (r.out.order == Some(N_STOCKS_TO_BUY) <==>
            s.time + 1 >= MA_PERIODS && !s.hasPosition
            && Previous(window) < Mean(window) && Latest(window) > Mean(window))
      && (r.out.order == Some(0) <==>
            s.time + 1 >= MA_PERIODS && s.hasPosition
            && Previous(window) > Mean(window) && Latest(window) < Mean(window))
      && (r.out.order.Some? ==> r.out.order.value == (if s.hasPosition then 0 else N_STOCKS_TO_BUY))
      && (r.next.hasPosition != s.hasPosition <==> r.out.order.Some?)
  {
  }

  /** With strict comparisons, a previous or latest price equal to the mean places no order. */
  lemma TieMeansNoOrder(s: State, window: seq<real>, current: real)
    requires |window| == MA_PERIODS
    requires Previous(window) == Mean(window) || Latest(window) == Mean(window)
    ensures Step(s, window, current).out.order == None
    ensures Step(s, window, current).next.hasPosition == s.hasPosition
  {
  }

  /** A window of equal prices never places an order. */
  lemma FlatWindowNoOrder(s: State, window: seq<real>, current: real)
    requires |window| == MA_PERIODS
    requires forall i :: 0 <= i < |window| ==> window[i] == window[0]
    ensures Step(s, window, current).out.order == None
    ensures Step(s, window, current).next.hasPosition == s.hasPosition
  {
    MeanOfConstant(window, window[0]);
  }

  /** An entry implies a rising last price and an exit a falling one. */
  lemma OrderDirection(s: State, window: seq<real>, current: real)
    requires |window| == MA_PERIODS
    ensures Step(s, window, current).out.order == Some(N_STOCKS_TO_BUY) ==> Previous(window) < Latest(window)
    ensures Step(s, window, current).out.order == Some(0) ==> Previous(window) > Latest(window)
  {
  }

  /**
   * A window of nineteen prices of 1.0 followed by 5.0 has mean 1.2, so a flat
   * strategy past warm-up enters on it.
   */
  lemma JumpWindowEnters(s: State, current: real)
    requires s.time + 1 >= MA_PERIODS && !s.hasPosition
    ensures var w := seq(19, _ => 1.0) + [5.0];
      |w| == MA_PERIODS && Mean(w) == 1.2
      && Step(s, w, current).out == Output(Some(N_STOCKS_TO_BUY), Some(Record(current, 1.2)))
      && Step(s, w, current).next.hasPosition
  {
    var ones := seq(19, _ => 1.0);
    var w := ones + [5.0];
    SumBounds(ones, 1.0, 1.0);
    SumAppend(ones, 5.0);
    assert Sum(w) == 24.0;
    assert Previous(w) == 1.0 && Latest(w) == 5.0;
  }
}
