/** The per-bar decision rules of strategy.py and the dispatch in
    `run_backtest`. Backtrader's own indicator lines (its RSI, its SMA of 20
    and 50 bars) are inputs: one entry per bar, `None` where the line is still
    NaN. Buying and selling change the position by one unit (the default
    stake), and every order is recorded as a signal. */
module Strategy {
  import opened Wrappers

  datatype Action = Buy | Sell

  /** An order placed by `next()` at a given bar. */
  datatype Signal = Signal(bar: nat, action: Action)

  /** `a < b` on line values: a comparison with NaN is false. */
  predicate Less(a: Option<real>, b: Option<real>)
  {
    a.Some? && b.Some? && a.value < b.value
  }

  /** `a > b` on line values: a comparison with NaN is false. */
  predicate Greater(a: Option<real>, b: Option<real>)
  {
    a.Some? && b.Some? && a.value > b.value
  }

  /** `line[-1]`, the value one bar back; there is none before the first bar. */
  function Previous(line: seq<Option<real>>, t: nat): Option<real>
    requires t < |line|
  {
    if t == 0 then None else line[t - 1]
  }

  const Oversold: real := 30.0
  const Overbought: real := 70.0

  /** The two strategy classes as a tagged variant, each with the indicator
      lines it reads. */
  datatype Rule =
    | RsiRule(rsi: seq<Option<real>>)
    | CrossRule(fast: seq<Option<real>>, slow: seq<Option<real>>)

  /** Number of bars the rule can be evaluated on. */
  function Bars(rule: Rule): nat
  {
    match rule
    case RsiRule(rsi) => |rsi|
    case CrossRule(fast, slow) => if |fast| <= |slow| then |fast| else |slow|
  }

  /** sma1 moves strictly from below sma2 to strictly above it at bar t. */
  predicate CrossesUp(fast: seq<Option<real>>, slow: seq<Option<real>>, t: nat)
    requires t < |fast| && t < |slow|
  {
    Greater(fast[t], slow[t]) && Less(Previous(fast, t), Previous(slow, t))
  }

  /** sma1 moves strictly from above sma2 to strictly below it at bar t. */
  predicate CrossesDown(fast: seq<Option<real>>, slow: seq<Option<real>>, t: nat)
    requires t < |fast| && t < |slow|
  {
    Less(fast[t], slow[t]) && Greater(Previous(fast, t), Previous(slow, t))
  }

  /** What `next()` does at bar t given the current position size. */
  function Decide(rule: Rule, position: int, t: nat): (d: Option<Action>)
    requires t < Bars(rule)
    ensures rule.RsiRule? && d == Some(Buy) ==> position == 0
    ensures rule.RsiRule? && d == Some(Sell) ==> position != 0
    ensures rule.RsiRule? && d.Some? ==> rule.rsi[t].Some?
    ensures rule.CrossRule? ==> (d == Some(Buy) <==> CrossesUp(rule.fast, rule.slow, t))
    ensures rule.CrossRule? ==> (d == Some(Sell) <==> CrossesDown(rule.fast, rule.slow, t))
    ensures rule.CrossRule? && d.Some? ==>
              t > 0 && rule.fast[t].Some? && rule.slow[t].Some?
              && rule.fast[t - 1].Some? && rule.slow[t - 1].Some?
  {
    match rule
    case RsiRule(rsi) =>
      if position == 0 && Less(rsi[t], Some(Oversold)) then Some(Buy)
      else if position != 0 && Greater(rsi[t], Some(Overbought)) then Some(Sell)
      else None
    case CrossRule(fast, slow) =>
      if CrossesUp(fast, slow, t) then Some(Buy)
      else if CrossesDown(fast, slow, t) then Some(Sell)
      else None
  }

  /** Position size and the orders placed so far. */
  datatype State = State(position: int, signals: seq<Signal>)

  /** One bar of the replay: place the order `Decide` asks for, if any. */
  function Step(rule: Rule, st: State, t: nat): (r: State)
    requires t < Bars(rule)
    ensures |st.signals| <= |r.signals| <= |st.signals| + 1
    ensures r.signals[..|st.signals|] == st.signals
    ensures |r.signals| == |st.signals| ==> r == st
    ensures |r.signals| == |st.signals| + 1 ==>
              && r.signals[|st.signals|].bar == t
              && r.position == st.position + (if r.signals[|st.signals|].action == Buy then 1 else -1)
  {
    match Decide(rule, st.position, t)
    case None => st
    case Some(Buy) => State(st.position + 1, st.signals + [Signal(t, Buy)])
    case Some(Sell) => State(st.position - 1, st.signals + [Signal(t, Sell)])
  }

  /** The state after bars 0 .. n-1, starting flat with no orders. */
  function Replay(rule: Rule, n: nat): (r: State)
    requires n <= Bars(rule)
    ensures |r.signals| <= n
    ensures -|r.signals| <= r.position <= |r.signals|
    decreases n
  {
    if n == 0 then State(0, []) else Step(rule, Replay(rule, n - 1), n - 1)
  }

  /** Number of signals with the given action. */
  function Count(signals: seq<Signal>, a: Action): nat
  {
    if |signals| == 0 then 0
    else Count(signals[..|signals| - 1], a) + (if signals[|signals| - 1].action == a then 1 else 0)
  }

  /** Every signal was placed before bar n. */
  predicate PlacedBefore(signals: seq<Signal>, n: nat)
  {
    forall j :: 0 <= j < |signals| ==> signals[j].bar < n
  }

  /** Signals in strictly increasing bar order: at most one per bar. */
  predicate OnePerBar(signals: seq<Signal>)
  {
    forall i, j :: 0 <= i < j < |signals| ==> signals[i].bar < signals[j].bar
  }

  /** No two consecutive signals carry the same action. */
  predicate Alternating(signals: seq<Signal>)
  {
    forall j :: 0 <= j < |signals| - 1 ==> signals[j].action != signals[j + 1].action
  }

  // ---------------------------------------------------------------------------
  // Properties of every replay
  // ---------------------------------------------------------------------------

  /** Appending one signal adds one to its action's count. */
  lemma CountAppend(s: seq<Signal>, x: Signal, a: Action)
    ensures Count(s + [x], a) == Count(s, a) + (if x.action == a then 1 else 0)
  {
    assert (s + [x])[..|s|] == s;
  }

  /** Signals are placed at bars already replayed, in strictly increasing bar
      order: at most one action per bar. */
  lemma {:induction false} ReplayOrdered(rule: Rule, n: nat)
    requires n <= Bars(rule)
    ensures PlacedBefore(Replay(rule, n).signals, n)
    ensures OnePerBar(Replay(rule, n).signals)
  {
    if n > 0 {
      ReplayOrdered(rule, n - 1);
      var prev := Replay(rule, n - 1).signals;
      match Decide(rule, Replay(rule, n - 1).position, n - 1)
      case None =>
        assert Replay(rule, n).signals == prev;
      case Some(a) =>
        var s := prev + [Signal(n - 1, a)];
        assert Replay(rule, n).signals == s;
        assert forall j :: 0 <= j < |prev| ==> s[j] == prev[j];
    }
  }

  /** The position is the number of buys minus the number of sells. */
  lemma {:induction false} PositionIsNetBuys(rule: Rule, n: nat)
    requires n <= Bars(rule)
    ensures Replay(rule, n).position
            == Count(Replay(rule, n).signals, Buy) - Count(Replay(rule, n).signals, Sell)
  {
    if n > 0 {
      PositionIsNetBuys(rule, n - 1);
      var prev := Replay(rule, n - 1);
      match Decide(rule, prev.position, n - 1)
      case None =>
      case Some(a) =>
        CountAppend(prev.signals, Signal(n - 1, a), Buy);
        CountAppend(prev.signals, Signal(n - 1, a), Sell);
    }
  }

  /** A signal (t, a) is in the record exactly when bar t was replayed and
      the rule asked for `a` there, given the position before that bar. */
  lemma {:induction false} SignalAt(rule: Rule, n: nat, t: nat, a: Action)
    requires n <= Bars(rule)
    ensures Signal(t, a) in Replay(rule, n).signals
            <==> t < n && Decide(rule, Replay(rule, t).position, t) == Some(a)
  {
    if n > 0 {
      SignalAt(rule, n - 1, t, a);
      ReplayOrdered(rule, n - 1);
      var prev := Replay(rule, n - 1).signals;
      if t == n - 1 {
        assert Signal(t, a) !in prev;
      }
      match Decide(rule, Replay(rule, n - 1).position, n - 1)
      case None =>
        assert Replay(rule, n).signals == prev;
      case Some(b) =>
        assert Replay(rule, n).signals == prev + [Signal(n - 1, b)];
    }
  }

  // ---------------------------------------------------------------------------
  // RSI_Strategy
  // ---------------------------------------------------------------------------

  /** RSI_Strategy only ever holds zero or one unit; its orders strictly
      alternate, the first is a buy, and it holds the unit exactly when the
      last order was a buy. */
  lemma {:induction false} RsiAlternates(rsi: seq<Option<real>>, n: nat)
    requires n <= |rsi|
    ensures Replay(RsiRule(rsi), n).position == 0 || Replay(RsiRule(rsi), n).position == 1
    ensures Replay(RsiRule(rsi), n).signals == [] ==> Replay(RsiRule(rsi), n).position == 0
    ensures Replay(RsiRule(rsi), n).signals != [] ==>
              && Replay(RsiRule(rsi), n).signals[0].action == Buy
              && (Replay(RsiRule(rsi), n).position == 1
                  <==> Replay(RsiRule(rsi), n).signals[|Replay(RsiRule(rsi), n).signals| - 1].action == Buy)
    ensures Alternating(Replay(RsiRule(rsi), n).signals)
  {
    if n > 0 {
      RsiAlternates(rsi, n - 1);
      var prev := Replay(RsiRule(rsi), n - 1);
      match Decide(RsiRule(rsi), prev.position, n - 1)
      case None =>
      case Some(a) =>
        var s := prev.signals + [Signal(n - 1, a)];
        assert Replay(RsiRule(rsi), n).signals == s;
        assert forall j :: 0 <= j < |prev.signals| ==> s[j] == prev.signals[j];
    }
  }

  /** RSI_Strategy buys at bar t exactly when it is flat and the RSI is
      defined and below 30, and sells exactly when it holds the unit and the
      RSI is defined and above 70. */
  lemma RsiSignals(rsi: seq<Option<real>>, t: nat)
    requires t < |rsi|
    ensures Signal(t, Buy) in Replay(RsiRule(rsi), |rsi|).signals
            <==> Replay(RsiRule(rsi), t).position == 0 && rsi[t].Some? && rsi[t].value < 30.0
    ensures Signal(t, Sell) in Replay(RsiRule(rsi), |rsi|).signals
            <==> Replay(RsiRule(rsi), t).position == 1 && rsi[t].Some? && rsi[t].value > 70.0
  {
    SignalAt(RsiRule(rsi), |rsi|, t, Buy);
    SignalAt(RsiRule(rsi), |rsi|, t, Sell);
    RsiAlternates(rsi, t);
  }

  /** Counting in a sequence whose actions alternate: parity from the first. */
  lemma {:induction false} AlternatingCounts(s: seq<Signal>)
    requires Alternating(s)
    ensures |s| > 0 ==> forall j :: 0 <= j < |s| ==> (s[j].action == s[0].action <==> j % 2 == 0)
    ensures Count(s, Buy) - Count(s, Sell)
            == if |s| % 2 == 0 then 0 else if s[0].action == Buy then 1 else -1
  {
    if |s| > 0 {
      var init := s[..|s| - 1];
      AlternatingCounts(init);
      if |s| > 1 {
        assert init[0] == s[0];
        assert s[|s| - 2] == init[|init| - 1];
      }
    }
  }

  /** RSI_Strategy never sells more than it has bought and is at most one buy
      ahead: #SELL <= #BUY <= #SELL + 1. */
  lemma RsiBalanced(rsi: seq<Option<real>>)
    ensures Count(Replay(RsiRule(rsi), |rsi|).signals, Sell)
            <= Count(Replay(RsiRule(rsi), |rsi|).signals, Buy)
            <= Count(Replay(RsiRule(rsi), |rsi|).signals, Sell) + 1
  {
    RsiAlternates(rsi, |rsi|);
    AlternatingCounts(Replay(RsiRule(rsi), |rsi|).signals);
  }

  // ---------------------------------------------------------------------------
  // SMA_CrossStrategy
  // ---------------------------------------------------------------------------

  /** SMA_CrossStrategy buys exactly at a strict upward cross and sells
      exactly at a strict downward cross, whatever its position. */
  lemma CrossSignals(fast: seq<Option<real>>, slow: seq<Option<real>>, t: nat)
    requires t < |fast| && t < |slow|
    ensures Signal(t, Buy) in Replay(CrossRule(fast, slow), Bars(CrossRule(fast, slow))).signals
            <==> CrossesUp(fast, slow, t)
    ensures Signal(t, Sell) in Replay(CrossRule(fast, slow), Bars(CrossRule(fast, slow))).signals
            <==> CrossesDown(fast, slow, t)
  {
    var rule := CrossRule(fast, slow);
    SignalAt(rule, Bars(rule), t, Buy);
    SignalAt(rule, Bars(rule), t, Sell);
  }

  /** Both lines are defined at bar t. */
  predicate BothDefined(fast: seq<Option<real>>, slow: seq<Option<real>>, t: nat)
    requires t < |fast| && t < |slow|
  {
    fast[t].Some? && slow[t].Some?
  }

  /** Once both lines are defined they stay defined (NaN only in the warm-up),
      and where both are defined they differ. */
  predicate Untied(fast: seq<Option<real>>, slow: seq<Option<real>>)
  {
    && |fast| == |slow|
    && (forall t :: 0 <= t < |fast| - 1 && BothDefined(fast, slow, t) ==> BothDefined(fast, slow, t + 1))
    && (forall t :: 0 <= t < |fast| && BothDefined(fast, slow, t) ==> fast[t].value != slow[t].value)
  }

  /** The last signal was a buy when fast > slow, a sell when fast < slow. */
  predicate LastAgrees(signals: seq<Signal>, fast: real, slow: real)
    requires signals != []
  {
    && (signals[|signals| - 1].action == Buy ==> fast > slow)
    && (signals[|signals| - 1].action == Sell ==> fast < slow)
  }

  /** After bars 0 .. n-1 of an untied pair, consecutive orders alternate, and
      the last order agrees with the order of the lines at the last bar. */
  lemma {:induction false} CrossState(fast: seq<Option<real>>, slow: seq<Option<real>>, n: nat)
    requires Untied(fast, slow)
    requires n <= |fast|
    ensures Alternating(Replay(CrossRule(fast, slow), n).signals)
    ensures Replay(CrossRule(fast, slow), n).signals != [] ==>
              && n >= 1 && BothDefined(fast, slow, n - 1)
              && LastAgrees(Replay(CrossRule(fast, slow), n).signals, fast[n - 1].value, slow[n - 1].value)
  {
    if n > 0 {
      CrossState(fast, slow, n - 1);
      var t := n - 1;
      var prev := Replay(CrossRule(fast, slow), t).signals;
      if |prev| > 0 {
        assert BothDefined(fast, slow, t - 1);
        assert BothDefined(fast, slow, t);
        assert fast[t].value != slow[t].value;
      }
    }
  }

  /** With the lines untied, SMA_CrossStrategy's buys and sells alternate, so
      its position stays within one unit of flat. */
  lemma CrossAlternates(fast: seq<Option<real>>, slow: seq<Option<real>>)
    requires Untied(fast, slow)
    ensures Alternating(Replay(CrossRule(fast, slow), |fast|).signals)
    ensures -1 <= Replay(CrossRule(fast, slow), |fast|).position <= 1
  {
    CrossState(fast, slow, |fast|);
    PositionIsNetBuys(CrossRule(fast, slow), |fast|);
    AlternatingCounts(Replay(CrossRule(fast, slow), |fast|).signals);
  }

  // ---------------------------------------------------------------------------
  // The strategy object that cerebro drives
  // ---------------------------------------------------------------------------

  /** A running strategy: its rule, position size and the orders placed. */
  class Strategy {
    const rule: Rule
    var position: int
    var signals: seq<Signal>

    function Current(): State
      reads this
    {
      State(position, signals)
    }

    constructor (rule: Rule)
      ensures this.rule == rule && Current() == State(0, [])
    {
      this.rule := rule;
      position := 0;
      signals := [];
    }

    /** `self.buy()`: one more unit. */
    method Buy(bar: nat)
      modifies this
      ensures position == old(position) + 1
      ensures signals == old(signals) + [Signal(bar, Action.Buy)]
    {
      position := position + 1;
      signals := signals + [Signal(bar, Action.Buy)];
    }

    /** `self.sell()`: one unit less. */
    method Sell(bar: nat)
      modifies this
      ensures position == old(position) - 1
      ensures signals == old(signals) + [Signal(bar, Action.Sell)]
    {
      position := position - 1;
      signals := signals + [Signal(bar, Action.Sell)];
    }

    /** `next()` at bar t: RSI_Strategy.next or SMA_CrossStrategy.next. */
    method Next(t: nat)
      requires t < Bars(rule)
      modifies this
      ensures Current() == Step(rule, old(Current()), t)
    {
      match rule
      case RsiRule(rsi) =>
        if position == 0 && Less(rsi[t], Some(Oversold)) {
          Buy(t);
        } else if position != 0 && Greater(rsi[t], Some(Overbought)) {
          Sell(t);
        }
      case CrossRule(fast, slow) =>
        if Greater(fast[t], slow[t]) && Less(Previous(fast, t), Previous(slow, t)) {
          Buy(t);
        } else if Less(fast[t], slow[t]) && Greater(Previous(fast, t), Previous(slow, t)) {
          Sell(t);
        }
    }
  }

  /** cerebro's run: a fresh strategy, `next()` once per bar in order; the
      orders it placed. */
  method Backtest(rule: Rule) returns (signals: seq<Signal>)
    ensures signals == Replay(rule, Bars(rule)).signals
  {
    var strategy := new Strategy(rule);
    for t := 0 to Bars(rule)
      invariant strategy.rule == rule
      invariant strategy.Current() == Replay(rule, t)
    {
      strategy.Next(t);
    }
    signals := strategy.signals;
  }

  /** The strategy classes `run_backtest` can add. */
  datatype StrategyClass = RsiStrategyClass | SmaCrossStrategyClass

  /** The name dispatch of `run_backtest`: any other name adds no strategy. */
  function StrategyFor(name: string): (r: Option<StrategyClass>)
    ensures r == Some(RsiStrategyClass) <==> name == "RSI Strategy"
    ensures r == Some(SmaCrossStrategyClass) <==> name == "SMA Crossover"
    ensures r.None? <==> name != "RSI Strategy" && name != "SMA Crossover"
  {
    if name == "RSI Strategy" then Some(RsiStrategyClass)
    else if name == "SMA Crossover" then Some(SmaCrossStrategyClass)
    else None
  }

  /** Backtrader's indicator lines over the data feed: RSI(close), SMA(close,
      20) and SMA(close, 50). */
  datatype Feed = Feed(rsi: seq<Option<real>>, sma20: seq<Option<real>>, sma50: seq<Option<real>>)

  /** `run_backtest`: add the named strategy (or none) and run it over the
      feed; without a strategy no order is placed. */
  method RunBacktest(name: string, feed: Feed) returns (signals: seq<Signal>)
    ensures name == "RSI Strategy" ==>
              signals == Replay(RsiRule(feed.rsi), |feed.rsi|).signals
    ensures name == "SMA Crossover" ==>
              signals == Replay(CrossRule(feed.sma20, feed.sma50), Bars(CrossRule(feed.sma20, feed.sma50))).signals
    ensures name != "RSI Strategy" && name != "SMA Crossover" ==> signals == []
  {
    var chosen := StrategyFor(name);
    match chosen
    case None =>
      signals := [];
    case Some(RsiStrategyClass) =>
      signals := Backtest(RsiRule(feed.rsi));
    case Some(SmaCrossStrategyClass) =>
      signals := Backtest(CrossRule(feed.sma20, feed.sma50));
  }
}
