/**
 * The deterministic parts of the QuantDesk forecaster (ml-backend/ml_server.py):
 * the sliding windows the Transformer is trained on, the data-length guard,
 * the signal ladder on the forecast move, and the shape of the reply of
 * `/api/predict/<symbol>`. The network, its training and the feature
 * indicators are not modelled; their results enter as inputs.
 */
module MlServer {
  import opened Text
  import opened Signals

  const SeqLen: nat := 60
  const PredDays: nat := 14
  /** The rows the guard reserves beyond one window, for the indicators' warm-up. */
  const WarmUp: nat := 60

  // ---------------------------------------------------------------------
  // make_sequences
  // ---------------------------------------------------------------------

  /** Number of (input, target) pairs: one per `i` in `range(seq_len, total - pred_days + 1)`. */
  function PairCount(total: nat, seqLen: nat, predDays: nat): nat {
    if total + 1 >= seqLen + predDays then total + 1 - seqLen - predDays else 0
  }

  /** `target[start:end, 0]` */
  function Column0(rows: seq<seq<real>>): (r: seq<real>)
    requires forall k :: 0 <= k < |rows| ==> |rows[k]| > 0
    ensures |r| == |rows| && forall k :: 0 <= k < |rows| ==> r[k] == rows[k][0]
  {
    if rows == [] then [] else [rows[0][0]] + Column0(rows[1..])
  }

  /**
   * `make_sequences(features, target, seq_len, pred_days)`: pair `k` takes the
   * `seq_len` feature rows starting at `k` as input and the next `pred_days`
   * target values as output, so every input window ends exactly where its
   * target window begins.
   */
  method MakeSequences<F>(features: seq<F>, target: seq<seq<real>>, seqLen: nat, predDays: nat)
    returns (xs: seq<seq<F>>, ys: seq<seq<real>>)
    requires |target| == |features|
    requires forall k :: 0 <= k < |target| ==> |target[k]| > 0
    ensures |xs| == |ys| == PairCount(|features|, seqLen, predDays)
    ensures forall k :: 0 <= k < |xs| ==>
      k + seqLen + predDays <= |features| &&
      xs[k] == features[k..k + seqLen] &&
      ys[k] == Column0(target[k + seqLen..k + seqLen + predDays])
  {
    var n := PairCount(|features|, seqLen, predDays);
    xs, ys := [], [];
    for k := 0 to n
      invariant |xs| == |ys| == k
      invariant forall j :: 0 <= j < k ==>
        j + seqLen + predDays <= |features| &&
        xs[j] == features[j..j + seqLen] &&
        ys[j] == Column0(target[j + seqLen..j + seqLen + predDays])
    {
      var i := k + seqLen;
      xs := xs + [features[i - seqLen..i]];
      ys := ys + [Column0(target[i..i + predDays])];
    }
  }

  /** Consecutive input windows overlap in all but one row: window `k + 1` is window `k` moved on by one. */
  lemma WindowsShift<F>(features: seq<F>, seqLen: nat, k: nat)
    requires 0 < seqLen && k + 1 + seqLen <= |features|
    ensures features[k + 1..k + 1 + seqLen][..seqLen - 1] == features[k..k + seqLen][1..]
    ensures features[k + 1..k + 1 + seqLen] == features[k..k + seqLen][1..] + [features[k + seqLen]]
  {
    var a, b := features[k..k + seqLen], features[k + 1..k + 1 + seqLen];
    forall j | 0 <= j < seqLen - 1 ensures b[j] == a[j + 1] {
      assert b[j] == features[k + 1 + j] && a[j + 1] == features[k + j + 1];
    }
  }

  /** Growing the history by one row adds exactly one pair, once there is enough for the first. */
  lemma PairCountGrows(total: nat, seqLen: nat, predDays: nat)
    ensures PairCount(total + 1, seqLen, predDays) ==
      PairCount(total, seqLen, predDays) + (if total + 1 >= seqLen + predDays then 1 else 0)
  {
  }

  // ---------------------------------------------------------------------
  // The guard, the signal and the reply
  // ---------------------------------------------------------------------

  /** `len(df) < SEQ_LEN + PRED_DAYS + 60` refuses training. */
  predicate EnoughData(rows: nat) {
    rows >= SeqLen + PredDays + WarmUp
  }

  /**
   * What the guard buys: as long as the indicators' warm-up drops no more than
   * the 60 reserved rows, at least 61 training pairs remain.
   */
  lemma GuardLeavesPairs(rows: nat, dropped: nat)
    requires EnoughData(rows) && dropped <= WarmUp
    ensures PairCount(rows - dropped, SeqLen, PredDays) >= WarmUp + 1 - dropped
    ensures PairCount(rows - dropped, SeqLen, PredDays) >= 1
  {
  }

  /** The server's ladder: STRONG BUY above 5 %, BUY above 1 %, HOLD above -2 %, else SELL. */
  function MlSignal(deltaPct: real): Signal {
    Ladder(deltaPct, 5.0, 1.0, -2.0)
  }

  /** A larger forecast move never gives a more bearish signal. */
  lemma MlSignalMonotone(d1: real, d2: real)
    requires d1 <= d2
    ensures Rank(MlSignal(d1)) <= Rank(MlSignal(d2))
  {
    LadderMonotone(d1, d2, 5.0, 1.0, -2.0);
  }

  datatype ForecastPoint = ForecastPoint(date: string, predicted: real)
  datatype HistoryPoint = HistoryPoint(date: string, price: real)

  /** `zip(future_dates, forecast_prices)`: the shorter list decides the length. */
  function ForecastSeries(dates: seq<string>, prices: seq<real>): (r: seq<ForecastPoint>)
    ensures |r| == if |dates| < |prices| then |dates| else |prices|
    ensures forall k :: 0 <= k < |r| ==> r[k] == ForecastPoint(dates[k], prices[k])
  {
    if dates == [] || prices == [] then []
    else [ForecastPoint(dates[0], prices[0])] + ForecastSeries(dates[1..], prices[1..])
  }

  /** `feat.tail(SEQ_LEN)`: the last 60 rows, or all of them, in order. */
  function HistorySeries(rows: seq<HistoryPoint>): (r: seq<HistoryPoint>)
    ensures |r| == if |rows| < SeqLen then |rows| else SeqLen
    ensures forall k :: 0 <= k < |r| ==> r[k] == rows[|rows| - |r| + k]
  {
    LastN(rows, SeqLen)
  }

  /**
   * How training went, when it ran: an exception, or the last close and the
   * series it produced. The forecast move is computed from these.
   */
  datatype Training =
    | TrainingFailed(message: string)
    | Trained(currentPrice: real, futureDates: seq<string>, forecastPrices: seq<real>, rows: seq<HistoryPoint>)

  datatype PredictReply =
    | PredictError(error: string, status: nat)
    | Predicted(symbol: string, currentPrice: real, targetPrice: real, deltaPct: real, signal: string,
                forecast: seq<ForecastPoint>, history: seq<HistoryPoint>, predDays: nat)

  /** `(target_price - current_price) / current_price * 100` */
  function DeltaPct(current: real, target: real): real
    requires current != 0.0
  {
    (target - current) / current * 100.0
  }

  /**
   * `/api/predict/<symbol>`: the symbol is upper-cased; too little data or a
   * failed training gives an error with status 500. So do an empty forecast,
   * at `forecast_prices[-1]`, and a zero last close, at the division of
   * `delta_pct`. Otherwise the reply carries the two prices, the move, its
   * signal and the two series.
   */
  function Predict(symbol: string, rows: nat, training: Training): PredictReply {
    var sym := Upper(symbol);
    if !EnoughData(rows) then PredictError("Not enough data for " + sym, 500)
    else match training
      case TrainingFailed(message) => PredictError(message, 500)
      case Trained(current, dates, prices, hist) =>
        if prices == [] then PredictError("list index out of range", 500)
        else if current == 0.0 then PredictError("float division by zero", 500)
        else
          var target := prices[|prices| - 1];
          var delta := DeltaPct(current, target);
          Predicted(sym, current, target, delta, SignalName(MlSignal(delta)),
                    ForecastSeries(dates, prices), HistorySeries(hist), PredDays)
  }

  /**
   * Short histories are refused whatever training would have done, with a
   * message naming the symbol, and a failed training passes its message on.
   * A reply succeeds exactly when training produced a forecast from a
   * non-zero close. It then carries the upper-cased symbol, the close, the
   * last forecast price as target, the move between them, the ladder's
   * signal for that move, the zipped forecast and the last 60 history rows.
   */
  lemma PredictShape(symbol: string, rows: nat, training: Training)
    ensures !EnoughData(rows) ==>
      Predict(symbol, rows, training) == PredictError("Not enough data for " + Upper(symbol), 500)
    ensures EnoughData(rows) && training.TrainingFailed? ==>
      Predict(symbol, rows, training) == PredictError(training.message, 500)
    ensures Predict(symbol, rows, training).Predicted? <==>
      EnoughData(rows) && training.Trained? && training.forecastPrices != [] && training.currentPrice != 0.0
    ensures var r := Predict(symbol, rows, training);
      r.Predicted? ==>
        r.symbol == Upper(symbol) &&
        r.currentPrice == training.currentPrice &&
        r.targetPrice == training.forecastPrices[|training.forecastPrices| - 1] &&
        r.deltaPct == DeltaPct(r.currentPrice, r.targetPrice) &&
        r.signal == SignalName(MlSignal(r.deltaPct)) &&
        r.forecast == ForecastSeries(training.futureDates, training.forecastPrices) &&
        r.history == HistorySeries(training.rows) &&
        r.predDays == PredDays
  {
  }

  /**
   * With a positive close, the signal is a buy exactly when the target is
   * more than 1 % above the close, and STRONG BUY exactly when it is more
   * than 5 % above.
   */
  lemma PredictBuys(symbol: string, rows: nat, training: Training)
    requires Predict(symbol, rows, training).Predicted? && training.currentPrice > 0.0
    ensures var r := Predict(symbol, rows, training);
      (r.signal == "STRONG BUY" || r.signal == "BUY" <==> r.targetPrice > r.currentPrice * 1.01) &&
      (r.signal == "STRONG BUY" <==> r.targetPrice > r.currentPrice * 1.05)
  {
    var r := Predict(symbol, rows, training);
    var c, t := r.currentPrice, r.targetPrice;
    MoveAbove(c, t, 1.0);
    MoveAbove(c, t, 5.0);
    var g := MlSignal(r.deltaPct);
    assert r.signal == SignalName(g);
  }

  /** The move exceeds `m` percent exactly when the target exceeds the close by that share. */
  lemma MoveAbove(c: real, t: real, m: real)
    requires c > 0.0
    ensures DeltaPct(c, t) > m <==> t > c * (1.0 + m / 100.0)
  {
    assert DeltaPct(c, t) * c == (t - c) * 100.0;
  }
}
