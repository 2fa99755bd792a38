/**
 * The synthetic price series behind the prediction chart: 61 historical
 * points for the days 60 .. 0 before today, then 14 forecast points for the
 * days 1 .. 14 after it, built from one entry of a fixed prediction table.
 *
 * The generator draws on `Math.random`, `Math.sin`, `Math.pow` and
 * `toFixed(2)`; here they are the parameters `random` (the k-th value drawn,
 * counting from 0), `sin`, `pow` and `round`, so that what is proved holds
 * whatever those functions return.  Dates are day offsets from today.
 */
module MockData {
  import opened Optional

  datatype Signal = Buy | Sell | Hold

  /** One entry of the prediction table. */
  datatype Prediction = Prediction(
    currentPrice: real,
    targetPrice: real,
    expectedReturn: real,
    confidence: real,
    signal: Signal,
    volatility: real)

  /** One point of the chart: `day` is the offset from today (negative in the
      past); an absent value is `None`, as `null` is in the series. */
  datatype SeriesPoint = SeriesPoint(
    day: int,
    actual: Option<real>,
    predicted: Option<real>,
    upperBound: Option<real>,
    lowerBound: Option<real>,
    signal: Option<Signal>)

  // ----- the prediction table ----------------------------------------------

  const MockPredictions: map<string, Prediction> := map[
    "AAPL" := Prediction(178.45, 192.30, 7.76, 0.78, Buy, 0.21),
    "GOOGL" := Prediction(141.23, 138.50, -1.93, 0.65, Sell, 0.18),
    "MSFT" := Prediction(378.91, 395.20, 4.30, 0.82, Buy, 0.16),
    "TSLA" := Prediction(242.84, 245.10, 0.93, 0.52, Hold, 0.38),
    "AMZN" := Prediction(178.35, 188.75, 5.83, 0.73, Buy, 0.23)
  ]

  /** Positive prices, a non-negative volatility and a confidence in [0, 1]. */
  predicate WellFormed(p: Prediction) {
    p.currentPrice > 0.0 && p.targetPrice > 0.0 && p.volatility >= 0.0 && 0.0 <= p.confidence <= 1.0
  }

  /** The prediction used for `symbol`: its own entry, or AAPL's when the
      table has none. */
  function PredictionFor(symbol: string): (r: Prediction)
    ensures symbol in MockPredictions ==> r == MockPredictions[symbol]
    ensures symbol !in MockPredictions ==> r == MockPredictions["AAPL"]
    ensures WellFormed(r)
  {
    TableWellFormed();
    if symbol in MockPredictions then MockPredictions[symbol] else MockPredictions["AAPL"]
  }

  /** Every entry of the table is well formed. */
  lemma TableWellFormed()
    ensures forall s :: s in MockPredictions ==> WellFormed(MockPredictions[s])
  {
    forall s | s in MockPredictions
      ensures WellFormed(MockPredictions[s])
    {
      assert s == "AAPL" || s == "GOOGL" || s == "MSFT" || s == "TSLA" || s == "AMZN";
    }
  }

  /** A symbol outside the table gets AAPL's figures. */
  lemma FallbackIsApple(symbol: string)
    requires symbol !in MockPredictions
    ensures PredictionFor(symbol) == Prediction(178.45, 192.30, 7.76, 0.78, Buy, 0.21)
  {
  }

  // ----- rounding and nulls -------------------------------------------------

  /** `round` never reverses the order of two numbers. */
  ghost predicate Monotonic(round: real -> real) {
    forall x, y :: x <= y ==> round(x) <= round(y)
  }

  /** Whether a nullable number counts as true in a conditional: present and
      not zero. */
  predicate Truthy(x: Option<real>) {
    x.Some? && x.value != 0.0
  }

  /** `x ? parseFloat(x.toFixed(2)) : null`. */
  function Emit(x: Option<real>, round: real -> real): (r: Option<real>)
    ensures r.Some? <==> Truthy(x)
  {
    if Truthy(x) then Some(round(x.value)) else None
  }

  // ----- the historical points ---------------------------------------------

  /** How many random draws the historical loop has made before the point for
      offset `i`: two for every offset above 14, one for every other. */
  function DrawsBefore(i: int): nat
    requires -1 <= i <= 60
  {
    if i >= 14 then 2 * (60 - i) else 92 + (14 - i)
  }

  function Max(a: int, b: int): int {
    if a >= b then a else b
  }

  /** The simulated closing price `i` days ago, from its random draw `noise`;
      today's is the current price itself. */
  function HistoricalActual(p: Prediction, i: int, noise: real, sin: real -> real): real {
    var base := p.currentPrice;
    var dayOffset := (60 - i) as real / 60.0;
    var trendComponent := (p.targetPrice - base) * dayOffset * 0.8;
    var cycleComponent := sin((60 - i) as real / 5.0) * base * 0.015;
    var randomComponent := (noise - 0.5) * base * p.volatility * 0.05;
    if i == 0 then base else base * 0.92 + trendComponent + cycleComponent + randomComponent
  }

  /** The back-dated prediction for a historical price, from a second draw. */
  function HistoricalPredicted(p: Prediction, actual: real, noise: real): real {
    actual + (noise - 0.5) * p.currentPrice * 0.01
  }

  /** The back-dated prediction for offset `i` before the null check, from
      the point's two draws. */
  function RawPrediction(p: Prediction, i: int, random: nat -> real, sin: real -> real): real
    requires 0 <= i <= 60
  {
    var k := DrawsBefore(i);
    HistoricalPredicted(p, HistoricalActual(p, i, random(k), sin), random(k + 1))
  }

  /** The band half-width of a historical point. */
  function HistoricalUncertainty(p: Prediction, i: int): real {
    if i <= 14 then 0.0 else Max(0, 14 - i) as real * p.currentPrice * 0.008
  }

  /** Percentage distance of `actual` from 92% of the current price. */
  function PriceChange(p: Prediction, actual: real): real
    requires p.currentPrice != 0.0
  {
    (actual - p.currentPrice * 0.92) / (p.currentPrice * 0.92) * 100.0
  }

  /** How far through the 60 days offset `i` lies, in percent. */
  function Momentum(i: int): real {
    (60 - i) as real / 60.0 * 100.0
  }

  /** The signal of a historical point: a buy on a dip late in the window when
      the prediction says buy, a sell on a peak when it says sell. */
  function HistoricalSignal(p: Prediction, i: int, actual: real): Option<Signal>
    requires p.currentPrice != 0.0
  {
    if i <= 60 && i > 0 then
      if PriceChange(p, actual) < -2.0 && Momentum(i) > 30.0 && p.signal == Buy then Some(Buy)
      else if PriceChange(p, actual) > 3.0 && p.signal == Sell then Some(Sell)
      else None
    else None
  }

  /** The historical point for offset `i`, from the draws numbered
      `DrawsBefore(i)` and, above offset 14, `DrawsBefore(i) + 1`. */
  function HistoricalPoint(p: Prediction, i: int, random: nat -> real, sin: real -> real, round: real -> real): SeriesPoint
    requires 0 <= i <= 60 && p.currentPrice != 0.0
  {
    var k := DrawsBefore(i);
    var actual := HistoricalActual(p, i, random(k), sin);
    var predicted := if i <= 14 then None else Some(RawPrediction(p, i, random, sin));
    var uncertainty := HistoricalUncertainty(p, i);
    var upper := if Truthy(predicted) then Some(predicted.value + uncertainty) else None;
    var lower := if Truthy(predicted) then Some(predicted.value - uncertainty) else None;
    SeriesPoint(-i, Some(round(actual)), Emit(predicted, round), Emit(upper, round), Emit(lower, round),
                HistoricalSignal(p, i, actual))
  }

  // ----- the forecast points -----------------------------------------------

  /** The forecast price `i` days ahead, moving towards the target along
      `(i / 14) ^ 0.8`. */
  function ForecastPredicted(p: Prediction, i: int, pow: (real, real) -> real): real {
    p.currentPrice + (p.targetPrice - p.currentPrice) * pow(i as real / 14.0, 0.8)
  }

  /** The band half-width of the forecast `i` days ahead. */
  function ForecastUncertainty(p: Prediction, i: int): real {
    i as real * p.currentPrice * 0.012 * (1.0 + p.volatility)
  }

  /** Forecast signals: a buy on day 3 or a sell on day 7, as predicted. */
  function ForecastSignal(p: Prediction, i: int): Option<Signal> {
    if i == 3 && p.signal == Buy then Some(Buy)
    else if i == 7 && p.signal == Sell then Some(Sell)
    else None
  }

  function ForecastPoint(p: Prediction, i: int, pow: (real, real) -> real, round: real -> real): SeriesPoint {
    var predicted := ForecastPredicted(p, i, pow);
    var uncertainty := ForecastUncertainty(p, i);
    SeriesPoint(i, None, Some(round(predicted)), Some(round(predicted + uncertainty)),
                Some(round(predicted - uncertainty)), ForecastSignal(p, i))
  }

  // ----- the whole series --------------------------------------------------

  /** The 61 historical points, oldest first: position `j` holds offset
      `60 - j`. */
  function Past(p: Prediction, random: nat -> real, sin: real -> real, round: real -> real): (r: seq<SeriesPoint>)
    requires p.currentPrice != 0.0
    ensures |r| == 61
  {
    seq(61, j requires 0 <= j < 61 => HistoricalPoint(p, 60 - j, random, sin, round))
  }

  /** The 14 forecast points: position `k` holds day `k + 1` ahead. */
  function Ahead(p: Prediction, pow: (real, real) -> real, round: real -> real): (r: seq<SeriesPoint>)
    ensures |r| == 14
  {
    seq(14, k requires 0 <= k < 14 => ForecastPoint(p, k + 1, pow, round))
  }

  /** The whole series for prediction `p`. */
  function Series(p: Prediction, random: nat -> real, sin: real -> real, pow: (real, real) -> real,
                  round: real -> real): (r: seq<SeriesPoint>)
    requires p.currentPrice != 0.0
    ensures |r| == 75
  {
    Past(p, random, sin, round) + Ahead(p, pow, round)
  }

  // ----- properties of the series ------------------------------------------

  /** The random draws are consumed in order: the point for offset `i` uses
      draws numbered below `DrawsBefore(k)` for every later (smaller) offset
      `k`, so no value of `Math.random` feeds two points. */
  lemma DrawsInOrder(i: int, k: int)
    requires -1 <= k < i <= 60
    ensures DrawsBefore(i) + (if i > 14 then 2 else 1) <= DrawsBefore(k)
  {
  }

  /** 75 points: the past days 60 .. 0, then the days 1 .. 14 ahead; exactly
      the past points carry an actual price. */
  lemma SeriesLayout(p: Prediction, random: nat -> real, sin: real -> real, pow: (real, real) -> real,
                     round: real -> real)
    requires p.currentPrice != 0.0
    ensures var s := Series(p, random, sin, pow, round);
            |s| == 75 && forall j :: 0 <= j < 75 ==> s[j].day == j - 60 && (s[j].actual.Some? <==> j <= 60)
  {
  }

  /** Today's point shows the current price itself. */
  lemma TodayIsCurrentPrice(p: Prediction, random: nat -> real, sin: real -> real, pow: (real, real) -> real,
                            round: real -> real)
    requires p.currentPrice != 0.0
    ensures var s := Series(p, random, sin, pow, round);
            s[60].day == 0 && s[60].actual == Some(round(p.currentPrice)) && s[60].signal == None
  {
  }

  /** No historical point within 14 days of today has a prediction or a band. */
  lemma RecentPastHasNoPrediction(p: Prediction, random: nat -> real, sin: real -> real, pow: (real, real) -> real,
                                  round: real -> real)
    requires p.currentPrice != 0.0
    ensures var s := Series(p, random, sin, pow, round);
            forall j :: 46 <= j <= 60 ==> s[j].predicted == None && s[j].upperBound == None && s[j].lowerBound == None
  {
  }

  /** Older historical points carry a prediction exactly when its raw value
      is not zero (a zero counts as missing in the source's conditional). */
  lemma OlderPastPrediction(p: Prediction, random: nat -> real, sin: real -> real, pow: (real, real) -> real,
                            round: real -> real)
    requires p.currentPrice != 0.0
    ensures var s := Series(p, random, sin, pow, round);
            forall j :: 0 <= j < 46 ==>
              s[j].predicted == if RawPrediction(p, 60 - j, random, sin) != 0.0
                                then Some(round(RawPrediction(p, 60 - j, random, sin))) else None
  {
  }

  /** The historical half-width `max(0, 14 - i) * ...` is only computed for
      offsets above 14, where it is zero. */
  lemma HistoricalUncertaintyIsZero(p: Prediction, i: int)
    ensures HistoricalUncertainty(p, i) == 0.0
  {
  }

  /** So on every historical point both bounds coincide with the prediction
      (all three present, or all three absent). */
  lemma HistoricalBandCollapsed(p: Prediction, random: nat -> real, sin: real -> real, pow: (real, real) -> real,
                                round: real -> real)
    requires p.currentPrice != 0.0
    ensures var s := Series(p, random, sin, pow, round);
            forall j :: 0 <= j <= 60 ==> s[j].upperBound == s[j].predicted && s[j].lowerBound == s[j].predicted
  {
    var s := Series(p, random, sin, pow, round);
    forall j | 0 <= j <= 60
      ensures s[j].upperBound == s[j].predicted && s[j].lowerBound == s[j].predicted
    {
      HistoricalUncertaintyIsZero(p, 60 - j);
    }
  }

  /** A historical buy needs a buy prediction and momentum above 30, which
      holds only for offsets below 42; a historical sell needs a sell
      prediction; today never gets a signal. */
  lemma HistoricalSignalRule(p: Prediction, i: int, actual: real)
    requires p.currentPrice != 0.0
    ensures HistoricalSignal(p, i, actual) == Some(Buy) ==> p.signal == Buy && 0 < i < 42
    ensures HistoricalSignal(p, i, actual) == Some(Sell) ==> p.signal == Sell && 0 < i <= 60
    ensures HistoricalSignal(p, i, actual) != Some(Hold)
  {
    if HistoricalSignal(p, i, actual) == Some(Buy) {
      assert Momentum(i) > 30.0;
    }
  }

  lemma HistoricalSignals(p: Prediction, random: nat -> real, sin: real -> real, pow: (real, real) -> real,
                          round: real -> real)
    requires p.currentPrice != 0.0
    ensures var s := Series(p, random, sin, pow, round);
            forall j :: 0 <= j <= 60 ==>
              && (s[j].signal == Some(Buy) ==> p.signal == Buy && 18 < j < 60)
              && (s[j].signal == Some(Sell) ==> p.signal == Sell && j < 60)
  {
    var s := Series(p, random, sin, pow, round);
    forall j | 0 <= j <= 60
      ensures s[j].signal == Some(Buy) ==> p.signal == Buy && 18 < j < 60
      ensures s[j].signal == Some(Sell) ==> p.signal == Sell && j < 60
    {
      var i := 60 - j;
      HistoricalSignalRule(p, i, HistoricalActual(p, i, random(DrawsBefore(i)), sin));
    }
  }

  /** Forecast signals: a buy exactly on day 3 of a buy prediction, a sell
      exactly on day 7 of a sell prediction, nothing else. */
  lemma ForecastSignals(p: Prediction, random: nat -> real, sin: real -> real, pow: (real, real) -> real,
                        round: real -> real)
    requires p.currentPrice != 0.0
    ensures var s := Series(p, random, sin, pow, round);
            forall j :: 61 <= j < 75 ==>
              && (s[j].signal == Some(Buy) <==> j == 63 && p.signal == Buy)
              && (s[j].signal == Some(Sell) <==> j == 67 && p.signal == Sell)
              && (s[j].signal.Some? <==> (j == 63 && p.signal == Buy) || (j == 67 && p.signal == Sell))
  {
  }

  /** No point ever carries a hold signal, and a hold prediction gives a
      series without signals. */
  lemma NoHoldSignals(p: Prediction, random: nat -> real, sin: real -> real, pow: (real, real) -> real,
                      round: real -> real)
    requires p.currentPrice != 0.0
    ensures var s := Series(p, random, sin, pow, round);
            && (forall j :: 0 <= j < 75 ==> s[j].signal != Some(Hold))
            && (p.signal == Hold ==> forall j :: 0 <= j < 75 ==> s[j].signal == None)
  {
    var s := Series(p, random, sin, pow, round);
    forall j | 0 <= j <= 60
      ensures s[j].signal != Some(Hold) && (p.signal == Hold ==> s[j].signal == None)
    {
      var i := 60 - j;
      HistoricalSignalRule(p, i, HistoricalActual(p, i, random(DrawsBefore(i)), sin));
    }
  }

  /** The forecast half-width is positive and grows strictly with the day. */
  lemma UncertaintyGrows(p: Prediction, i: int, k: int)
    requires p.currentPrice > 0.0 && p.volatility >= 0.0 && 1 <= i < k
    ensures 0.0 < ForecastUncertainty(p, i) < ForecastUncertainty(p, k)
  {
    var w := p.currentPrice * 0.012 * (1.0 + p.volatility);
    assert w > 0.0;
    assert ForecastUncertainty(p, i) == i as real * w;
    assert ForecastUncertainty(p, k) == k as real * w;
    assert (k - i) as real * w > 0.0;
  }

  /** Every forecast point has no actual price and a band around its
      prediction, provided rounding keeps order. */
  lemma ForecastBands(p: Prediction, random: nat -> real, sin: real -> real, pow: (real, real) -> real,
                      round: real -> real)
    requires WellFormed(p) && Monotonic(round)
    ensures var s := Series(p, random, sin, pow, round);
            forall j :: 61 <= j < 75 ==>
              && s[j].actual == None
              && s[j].predicted.Some? && s[j].upperBound.Some? && s[j].lowerBound.Some?
              && s[j].lowerBound.value <= s[j].predicted.value <= s[j].upperBound.value
  {
    var s := Series(p, random, sin, pow, round);
    forall j | 61 <= j < 75
      ensures s[j].actual == None
      ensures s[j].predicted.Some? && s[j].upperBound.Some? && s[j].lowerBound.Some?
      ensures s[j].lowerBound.value <= s[j].predicted.value <= s[j].upperBound.value
    {
      var i := j - 60;
      var predicted := ForecastPredicted(p, i, pow);
      var u := ForecastUncertainty(p, i);
      UncertaintyGrows(p, i, i + 1);
      assert s[j] == ForecastPoint(p, i, pow, round);
      assert round(predicted - u) <= round(predicted) <= round(predicted + u);
    }
  }

  /** The last forecast reaches the target price, since `(14 / 14) ^ 0.8` is 1. */
  lemma ForecastReachesTarget(p: Prediction, random: nat -> real, sin: real -> real, pow: (real, real) -> real,
                              round: real -> real)
    requires p.currentPrice != 0.0 && pow(1.0, 0.8) == 1.0
    ensures ForecastPredicted(p, 14, pow) == p.targetPrice
    ensures Series(p, random, sin, pow, round)[74].predicted == Some(round(p.targetPrice))
  {
    assert 14 as real / 14.0 == 1.0;
  }

  /** One pass of the historical loop for offset `i`, starting from draw
      number `draw`: the point it pushes and the draw number after it. */
  method HistoricalStep(prediction: Prediction, i: int, draw: nat, random: nat -> real, sin: real -> real,
                        round: real -> real) returns (point: SeriesPoint, next: nat)
    requires 0 <= i <= 60 && prediction.currentPrice != 0.0 && draw == DrawsBefore(i)
    ensures point == HistoricalPoint(prediction, i, random, sin, round)
    ensures next == DrawsBefore(i - 1)
  {
    next := draw;
    var actual := HistoricalActual(prediction, i, random(next), sin);
    next := next + 1;
    var predicted: Option<real> := None;
    if i > 14 {
      predicted := Some(HistoricalPredicted(prediction, actual, random(next)));
      next := next + 1;
    }
    var uncertainty := HistoricalUncertainty(prediction, i);
    var upperBound := if Truthy(predicted) then Some(predicted.value + uncertainty) else None;
    var lowerBound := if Truthy(predicted) then Some(predicted.value - uncertainty) else None;
    var signal: Option<Signal> := None;
    if i <= 60 && i > 0 {
      var priceChange := PriceChange(prediction, actual);
      var momentum := Momentum(i);
      if priceChange < -2.0 && momentum > 30.0 && prediction.signal == Buy {
        signal := Some(Buy);
      } else if priceChange > 3.0 && prediction.signal == Sell {
        signal := Some(Sell);
      }
    }
    point := SeriesPoint(-i, Some(round(actual)), Emit(predicted, round), Emit(upperBound, round),
                         Emit(lowerBound, round), signal);
  }

  /** One pass of the forecast loop for the day `i` ahead. */
  method ForecastStep(prediction: Prediction, i: int, pow: (real, real) -> real, round: real -> real)
    returns (point: SeriesPoint)
    ensures point == ForecastPoint(prediction, i, pow, round)
  {
    var predicted := ForecastPredicted(prediction, i, pow);
    var uncertainty := ForecastUncertainty(prediction, i);
    var signal: Option<Signal> := None;
    if i == 3 && prediction.signal == Buy {
      signal := Some(Buy);
    } else if i == 7 && prediction.signal == Sell {
      signal := Some(Sell);
    }
    point := SeriesPoint(i, None, Some(round(predicted)), Some(round(predicted + uncertainty)),
                         Some(round(predicted - uncertainty)), signal);
  }

  /** `mockStockData`: build the series for `symbol` in two loops, one over
      the past days and one over the days ahead. */
  method MockStockData(symbol: string, random: nat -> real, sin: real -> real, pow: (real, real) -> real,
                       round: real -> real) returns (data: seq<SeriesPoint>)
    ensures data == Series(PredictionFor(symbol), random, sin, pow, round)
  {
    var prediction := PredictionFor(symbol);
    ghost var past := Past(prediction, random, sin, round);
    ghost var ahead := Ahead(prediction, pow, round);
    data := [];
    var draw: nat := 0;
    var i := 60;
    while i >= 0
      invariant -1 <= i <= 60
      invariant draw == DrawsBefore(i)
      invariant data == past[..60 - i]
    {
      var point: SeriesPoint;
      point, draw := HistoricalStep(prediction, i, draw, random, sin, round);
      assert past[..61 - i] == past[..60 - i] + [point];
      data := data + [point];
      i := i - 1;
    }
    i := 1;
    while i <= 14
      invariant 1 <= i <= 15
      invariant data == past + ahead[..i - 1]
    {
      var point := ForecastStep(prediction, i, pow, round);
      assert ahead[..i] == ahead[..i - 1] + [point];
      data := data + [point];
      i := i + 1;
    }
  }
}
