/**
 * The strategy over a whole backtest: the bar rule applied to a sequence of
 * bars in order, starting from some state. Calling Context.HandleData once
 * per bar yields exactly these outputs, since each call is proved equal to
 * SmaCrossover.Step.
 */
module CrossoverRuns {
  import opened SmaCrossover

  /** The inputs of one bar: the price window and the current price. */
  datatype Bar = Bar(window: seq<real>, current: real)

  datatype RunResult = RunResult(final: State, outputs: seq<Output>)

  predicate WellFormed(bars: seq<Bar>)
  {
    forall i :: 0 <= i < |bars| ==> |bars[i].window| == MA_PERIODS
  }

  /** Apply the bar rule to each bar in turn, collecting one output per bar. */
  function Run(s: State, bars: seq<Bar>): (r: RunResult)
    requires WellFormed(bars)
    ensures |r.outputs| == |bars|
    ensures r.final.time == s.time + |bars|
    decreases |bars|
  {
    if |bars| == 0 then RunResult(s, [])
    else
      var step := Step(s, bars[0].window, bars[0].current);
      var rest := Run(step.next, bars[1..]);
      RunResult(rest.final, [step.out] + rest.outputs)
  }

  /** The order targets placed, in order. */
  function Orders(outs: seq<Output>): (targets: seq<int>)
    ensures |targets| <= |outs|
  {
    if |outs| == 0 then []
    else (if outs[0].order.Some? then [outs[0].order.value] else []) + Orders(outs[1..])
  }

  /** The order targets that strictly alternate, starting from a flat or a long position. */
  function Alternation(long: bool, n: nat): (targets: seq<int>)
    ensures |targets| == n
    decreases n
  {
    if n == 0 then [] else [if long then 0 else N_STOCKS_TO_BUY] + Alternation(!long, n - 1)
  }

  lemma {:induction false} AlternationAt(long: bool, n: nat, i: nat)
    requires i < n
    ensures |Alternation(long, n)| == n
    ensures Alternation(long, n)[i] == if (i % 2 == 0) != long then N_STOCKS_TO_BUY else 0
    decreases n
  {
    if i > 0 {
      AlternationAt(!long, n - 1, i - 1);
    } else if n > 1 {
      AlternationAt(!long, n - 1, 0);
    }
  }

  /**
   * The orders of a run alternate between entry and exit, the first one
   * matching the starting position, and the run ends long exactly when an
   * odd number of orders flipped the starting position.
   */
  lemma {:induction false} RunOrdersAlternate(s: State, bars: seq<Bar>)
    requires WellFormed(bars)
    ensures var r := Run(s, bars);
      var k := |Orders(r.outputs)|;
      Orders(r.outputs) == Alternation(s.hasPosition, k)
      && r.final.hasPosition == (s.hasPosition != (k % 2 == 1))
    decreases |bars|
  {
    if |bars| > 0 {
      var step := Step(s, bars[0].window, bars[0].current);
      StepRules(s, bars[0].window, bars[0].current);
      RunOrdersAlternate(step.next, bars[1..]);
      var outs := Run(s, bars).outputs;
      assert outs[1..] == Run(step.next, bars[1..]).outputs;
    }
  }

  /** From the initial state the order targets go N_STOCKS_TO_BUY, 0, N_STOCKS_TO_BUY, ... */
  lemma FromInitialOrdersAlternate(bars: seq<Bar>)
    requires WellFormed(bars)
    ensures var ords := Orders(Run(Initial, bars).outputs);
      && (forall i :: 0 <= i < |ords| ==> ords[i] == if i % 2 == 0 then N_STOCKS_TO_BUY else 0)
      && (forall i :: 0 <= i < |ords| - 1 ==> ords[i] != ords[i + 1])
  {
    RunOrdersAlternate(Initial, bars);
    var ords := Orders(Run(Initial, bars).outputs);
    forall i | 0 <= i < |ords|
      ensures ords[i] == if i % 2 == 0 then N_STOCKS_TO_BUY else 0
    {
      AlternationAt(false, |ords|, i);
    }
  }

  /**
   * Bar i of a run is in warm-up exactly when the counter it reaches is below
   * MA_PERIODS: then it places no order and records nothing; otherwise it
   * records its current price with the mean of its window.
   */
  lemma {:induction false} RunWarmUp(s: State, bars: seq<Bar>, i: nat)
    requires WellFormed(bars)
    requires i < |bars|
    ensures var out := Run(s, bars).outputs[i];
      && (s.time + i + 1 < MA_PERIODS ==> out == Output(None, None))
      && (s.time + i + 1 >= MA_PERIODS ==>
            out.rec == Some(Record(bars[i].current, Mean(bars[i].window))))
    decreases |bars|
  {
    var step := Step(s, bars[0].window, bars[0].current);
    if i > 0 {
      RunWarmUp(step.next, bars[1..], i - 1);
      assert bars[1..][i - 1] == bars[i];
    }
  }

  /**
   * From the initial state the first MA_PERIODS - 1 bars are silent and every
   * later bar records, so the first moving average is recorded at bar MA_PERIODS.
   */
  lemma FromInitialWarmUp(bars: seq<Bar>, i: nat)
    requires WellFormed(bars)
    requires i < |bars|
    ensures Run(Initial, bars).outputs[i].rec.Some? <==> i >= MA_PERIODS - 1
    ensures i < MA_PERIODS - 1 ==> Run(Initial, bars).outputs[i].order == None
  {
    RunWarmUp(Initial, bars, i);
  }
}
