/**
 * The trading signals shown across QuantDesk, and the threshold ladder that
 * both the demo predictor and the ML server use to turn a percentage move
 * into a signal.
 */
module Signals {
  import opened Text

  datatype Signal = StrongBuy | StrongSell | Buy | Hold | Sell

  /** The signal as displayed, upper case. */
  function SignalName(g: Signal): string {
    match g
    case StrongBuy => "STRONG BUY"
    case StrongSell => "STRONG SELL"
    case Buy => "BUY"
    case Hold => "HOLD"
    case Sell => "SELL"
  }

  /** Distinct signals have distinct names. */
  lemma SignalNameInjective(g: Signal, h: Signal)
    requires SignalName(g) == SignalName(h)
    ensures g == h
  {
    assert SignalName(g)[0] == SignalName(h)[0] && |SignalName(g)| == |SignalName(h)|;
  }

  /** `name.includes("BUY")` holds exactly for the two buying signals. */
  lemma NameHasBuy(g: Signal)
    ensures Contains(SignalName(g), "BUY") <==> g == Buy || g == StrongBuy
  {
    var n := SignalName(g);
    if g == Buy {
      assert OccursAt(n, "BUY", 0);
    } else if g == StrongBuy {
      assert OccursAt(n, "BUY", 7);
    } else {
      assert 'B' !in n;
      forall i: nat | i <= |n| ensures !OccursAt(n, "BUY", i) {
        if i + 3 <= |n| {
          assert n[i..i + 3][0] == n[i] && n[i] in n;
        }
      }
    }
  }

  /** Position on the bearish-to-bullish scale. */
  function Rank(g: Signal): nat {
    match g
    case StrongSell => 0
    case Sell => 1
    case Hold => 2
    case Buy => 3
    case StrongBuy => 4
  }

  /**
   * `delta > strongBuy ? "STRONG BUY" : delta > buy ? "BUY" : delta > hold ? "HOLD" : "SELL"`:
   * each signal owns one half-open band of deltas, STRONG SELL is never produced.
   */
  function Ladder(delta: real, strongBuy: real, buy: real, hold: real): (g: Signal)
    requires hold <= buy <= strongBuy
    ensures g != StrongSell
    ensures g == StrongBuy <==> strongBuy < delta
    ensures g == Buy <==> buy < delta <= strongBuy
    ensures g == Hold <==> hold < delta <= buy
    ensures g == Sell <==> delta <= hold
  {
    if delta > strongBuy then StrongBuy
    else if delta > buy then Buy
    else if delta > hold then Hold
    else Sell
  }

  /** A larger delta never gives a more bearish signal. */
  lemma LadderMonotone(d1: real, d2: real, strongBuy: real, buy: real, hold: real)
    requires hold <= buy <= strongBuy
    requires d1 <= d2
    ensures Rank(Ladder(d1, strongBuy, buy, hold)) <= Rank(Ladder(d2, strongBuy, buy, hold))
  {
  }
}
