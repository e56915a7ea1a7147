/**
 * The stand-alone demo predictor (FINAL_YEAR_PROJECT_BCA-main/frontend/src/stock-predictor.jsx):
 * a simulated price walk with a 14-day guess, a signal drawn from a random
 * target move, an inline-bold renderer and a chat panel that sends its whole
 * transcript with every question.
 */
module Predictor {
  import opened Text
  import opened Signals
  import opened ChatMessages
  import Renderer

  // ---------------------------------------------------------------------
  // Inline emphasis
  // ---------------------------------------------------------------------

  /** A piece is emphasised only when it both starts and ends with `**`. */
  function EmphSpan(p: string): Renderer.Span {
    if StartsWith(p, "**") && EndsWith(p, "**") then Renderer.Strong(Renderer.SliceInner(p)) else Renderer.Plain(p)
  }

  /** `renderContent(text)`: the pieces of `text.split(/(\*\*[^*]+\*\*)/)`, each emphasised or kept. */
  function RenderContent(text: string): (r: seq<Renderer.Span>)
    ensures |r| == |Renderer.BoldSplit(text)|
  {
    var pieces := Renderer.BoldSplit(text);
    seq(|pieces|, k requires 0 <= k < |pieces| => EmphSpan(pieces[k]))
  }

  /** Every captured match is emphasised, with the same inner text as the dashboard's renderer. */
  lemma MatchesEmphasised(text: string, k: nat)
    requires k < |Renderer.BoldSplit(text)| && Renderer.Odd(k)
    ensures RenderContent(text)[k] == Renderer.RenderInline(text)[k]
    ensures var x := RenderContent(text)[k];
      x.Strong? && x.text != [] && '*' !in x.text && Renderer.BoldSplit(text)[k] == "**" + x.text + "**"
  {
    Renderer.InlineMatchesAreStrong(text, k);
    var p := Renderer.BoldSplit(text)[k];
    assert EndsWith(p, "**") by {
      Renderer.BoldSplitTokens(text);
      assert Renderer.IsBoldToken(p);
    }
  }

  /**
   * Writing the markers back around the emphasised pieces gives the text back,
   * as long as no plain piece both starts and ends with `**`.
   */
  lemma EmphRoundTrip(text: string)
    requires var pieces := Renderer.BoldSplit(text);
      forall k :: 0 <= k < |pieces| && !Renderer.Odd(k) ==>
        !(StartsWith(pieces[k], "**") && EndsWith(pieces[k], "**"))
    ensures Renderer.Markup(RenderContent(text)) == text
  {
    var pieces := Renderer.BoldSplit(text);
    var spans := RenderContent(text);
    forall k | 0 <= k < |pieces|
      ensures (spans[k].Plain? && spans[k].text == pieces[k]) ||
              (spans[k].Strong? && pieces[k] == "**" + spans[k].text + "**")
    {
      if Renderer.Odd(k) {
        MatchesEmphasised(text, k);
      }
    }
    Renderer.MarkupPieces(pieces, spans);
  }

  /** Unlike the dashboard's renderer, an unclosed `**` stays plain text. */
  lemma UnclosedMarkerStaysPlain()
    ensures RenderContent("**foo") == [Renderer.Plain("**foo")]
    ensures Renderer.RenderInline("**foo") == [Renderer.Strong("f")]
  {
    var s := "**foo";
    Renderer.UnclosedMarkerNoMatch();
    Renderer.UnmatchedLeadingMarker();
    assert !EndsWith(s, "**") by {
      assert s[|s| - 2..] == "oo";
    }
    assert |RenderContent(s)| == 1 && RenderContent(s)[0] == EmphSpan(s);
  }

  // ---------------------------------------------------------------------
  // generatePrediction
  // ---------------------------------------------------------------------

  const Gold := "#F5C842"
  const Grey := "#94A3B8"
  const Red := "#EF4444"

  /** `signal.includes("BUY") ? gold : signal === "HOLD" ? grey : red` */
  function SignalColour(signal: string): string {
    if Contains(signal, "BUY") then Gold
    else if signal == "HOLD" then Grey
    else Red
  }

  /** Gold for both BUY signals, grey for HOLD, red for SELL. */
  lemma SignalColourBySignal(g: Signal)
    ensures SignalColour(SignalName(g)) ==
      (if g == Buy || g == StrongBuy then Gold else if g == Hold then Grey else Red)
  {
    NameHasBuy(g);
  }

  /** The demo's ladder: STRONG BUY above 2 %, BUY above 0 %, HOLD above -2 %, else SELL. */
  function PredictionSignal(delta: real): Signal {
    Ladder(delta, 2.0, 0.0, -2.0)
  }

  datatype Prediction = Prediction(confidence: real, target: real, signal: Signal, colour: string, delta: real)

  /**
   * `generatePrediction(stock)` for the two `Math.random()` values it draws:
   * `c` for the confidence and `d` for the target move.
   */
  function GeneratePrediction(price: real, c: real, d: real): Prediction {
    var delta := d * 12.0 - 3.0;
    var g := PredictionSignal(delta);
    Prediction(75.0 + c * 22.0, price * (1.0 + delta / 100.0), g, SignalColour(SignalName(g)), delta)
  }

  /**
   * With draws in [0, 1): the confidence lies in [75, 97), the move in [-3, 9),
   * the signal matches the move's band, and the colour matches the signal.
   */
  lemma PredictionBands(price: real, c: real, d: real)
    requires 0.0 <= c < 1.0 && 0.0 <= d < 1.0
    ensures var p := GeneratePrediction(price, c, d);
      75.0 <= p.confidence < 97.0 && -3.0 <= p.delta < 9.0 &&
      (p.signal == StrongBuy <==> p.delta > 2.0) &&
      (p.signal == Buy <==> 0.0 < p.delta <= 2.0) &&
      (p.signal == Hold <==> -2.0 < p.delta <= 0.0) &&
      (p.signal == Sell <==> p.delta <= -2.0) &&
      p.colour == (if p.signal == Sell then Red else if p.signal == Hold then Grey else Gold)
  {
    var p := GeneratePrediction(price, c, d);
    SignalColourBySignal(p.signal);
  }

  // ---------------------------------------------------------------------
  // generatePriceHistory
  // ---------------------------------------------------------------------

  /** The three `Math.random()` values one day of the walk draws. */
  datatype Draw = Draw(move: real, volume: real, guess: real)

  predicate ValidDraw(r: Draw) {
    0.0 <= r.move < 1.0 && 0.0 <= r.volume < 1.0 && 0.0 <= r.guess < 1.0
  }

  /** A day's point: `daysAgo` stands for the date label, `predicted` for the 14-day guess. */
  datatype PricePoint = PricePoint(daysAgo: nat, price: real, volume: int, predicted: Option<real>)

  function Max(a: real, b: real): real {
    if a >= b then a else b
  }

  /** `Math.max(price + change, price * 0.5)` with `change = (move - 0.48) * volatility * price`. */
  function Step(price: real, move: real, volatility: real): (p: real)
    ensures p >= price * 0.5
    ensures price > 0.0 ==> p > 0.0
  {
    Max(price + (move - 0.48) * volatility * price, price * 0.5)
  }

  /** `Math.floor(r * 80000000 + 20000000)` */
  function Volume(r: real): (v: int)
    requires 0.0 <= r < 1.0
    ensures 20000000 <= v < 100000000
  {
    (r * 80000000.0 + 20000000.0).Floor
  }

  /** `price * (1 + (guess - 0.4) * 0.015)` */
  function Guess(price: real, guess: real): real {
    price * (1.0 + (guess - 0.4) * 0.015)
  }

  /** The guess stays within 0.6 % below and 0.9 % above the day's price. */
  lemma GuessNear(price: real, guess: real)
    requires price > 0.0 && 0.0 <= guess < 1.0
    ensures price * 0.994 <= Guess(price, guess) < price * 1.009
  {
    var f := 1.0 + (guess - 0.4) * 0.015;
    assert 0.994 <= f < 1.009;
    assert Guess(price, guess) == price * f;
  }

  /**
   * `generatePriceHistory(basePrice, days, volatility)`: one point per day
   * from `days` ago to today, in date order, starting the walk from 82 % of
   * the base price; the last 15 days carry a guess.
   */
  method GeneratePriceHistory(basePrice: real, days: int, volatility: real, draws: seq<Draw>)
    returns (data: seq<PricePoint>)
    requires |draws| > days
    requires forall k :: 0 <= k < |draws| ==> ValidDraw(draws[k])
    ensures |data| == if days >= 0 then days + 1 else 0
    ensures forall k :: 0 <= k < |data| ==> data[k].daysAgo == days - k
    ensures forall k :: 0 <= k < |data| ==> (data[k].predicted.Some? <==> k >= |data| - 15)
    ensures forall k :: 0 <= k < |data| && data[k].predicted.Some? ==>
      data[k].predicted.value == Guess(data[k].price, draws[k].guess)
    ensures |data| > 0 ==> data[0].price == Step(basePrice * 0.82, draws[0].move, volatility)
    ensures forall k :: 0 < k < |data| ==> data[k].price == Step(data[k - 1].price, draws[k].move, volatility)
    ensures forall k :: 0 <= k < |data| ==> 20000000 <= data[k].volume < 100000000
    ensures basePrice > 0.0 ==> forall k :: 0 <= k < |data| ==> data[k].price > 0.0
  {
    var n := if days >= 0 then days + 1 else 0;
    data := [];
    var price := basePrice * 0.82;
    for k := 0 to n
      invariant |data| == k
      invariant forall j :: 0 <= j < k ==> data[j].daysAgo == days - j
      invariant forall j :: 0 <= j < k ==> (data[j].predicted.Some? <==> days - j <= 14)
      invariant forall j :: 0 <= j < k && data[j].predicted.Some? ==>
        data[j].predicted.value == Guess(data[j].price, draws[j].guess)
      invariant k > 0 ==> data[0].price == Step(basePrice * 0.82, draws[0].move, volatility)
      invariant forall j :: 0 < j < k ==> data[j].price == Step(data[j - 1].price, draws[j].move, volatility)
      invariant forall j :: 0 <= j < k ==> 20000000 <= data[j].volume < 100000000
      invariant k > 0 ==> price == data[k - 1].price
      invariant k == 0 ==> price == basePrice * 0.82
      invariant basePrice > 0.0 ==> price > 0.0 && forall j :: 0 <= j < k ==> data[j].price > 0.0
    {
      var i := days - k;
      price := Step(price, draws[k].move, volatility);
      var predicted := if i <= 14 then Some(Guess(price, draws[k].guess)) else None;
      var point := PricePoint(i, price, Volume(draws[k].volume), predicted);
      ghost var before := data;
      data := data + [point];
      assert data[k] == point && forall j :: 0 <= j < k ==> data[j] == before[j];
    }
  }

  /** Number of points that carry a guess. */
  function Guessed(data: seq<PricePoint>): nat {
    if data == [] then 0 else (if data[0].predicted.Some? then 1 else 0) + Guessed(data[1..])
  }

  /** A history shaped as `GeneratePriceHistory` promises has a guess on exactly `min(15, days + 1)` points. */
  lemma {:induction false} GuessedCount(data: seq<PricePoint>)
    requires forall k :: 0 <= k < |data| ==> (data[k].predicted.Some? <==> k >= |data| - 15)
    ensures Guessed(data) == if |data| < 15 then |data| else 15
  {
    if data != [] {
      assert forall k :: 0 <= k < |data[1..]| ==> data[1..][k] == data[k + 1];
      GuessedCount(data[1..]);
    }
  }

  // ---------------------------------------------------------------------
  // The chat panel
  // ---------------------------------------------------------------------

  /** What the panel shows of the selected stock and its prediction, as displayed text. */
  datatype Subject = Subject(
    symbol: string, name: string, price: string, change: string, rising: bool,
    signal: Signal, confidence: string)

  /** The greeting the symbol-keyed effect installs. */
  function SwitchGreeting(s: Subject): string {
    "Switched to **" + s.symbol + PriceLine(s) + SignalLine(s)
  }

  function PriceLine(s: Subject): string {
    "** — " + s.name + ". Current price: **$" + s.price + "** (" + (if s.rising then "+" else "") + s.change
  }

  function SignalLine(s: Subject): string {
    "). AI signal: **" + SignalName(s.signal) + "** with " + s.confidence +
    "% confidence. How can I help you analyze this stock?"
  }

  /** The greeting names the stock and its signal. */
  lemma SwitchGreetingNames(s: Subject)
    ensures Contains(SwitchGreeting(s), s.symbol)
    ensures Contains(SwitchGreeting(s), SignalName(s.signal))
  {
    SecondOccurs("Switched to **", s.symbol, PriceLine(s), SignalLine(s));
    var b, c, d := "). AI signal: **", "** with ", "% confidence. How can I help you analyze this stock?";
    TailOccurs("Switched to **" + s.symbol + PriceLine(s), b, SignalName(s.signal), c, s.confidence, d);
  }

  lemma SecondOccurs(a: string, t: string, p: string, q: string)
    ensures Contains(a + t + p + q, t)
  {
    assert a + t + p + q == a + t + (p + q);
    InfixOccurs(a, t, p + q);
  }

  lemma TailOccurs(x: string, b: string, n: string, c: string, z: string, d: string)
    ensures Contains(x + (b + n + c + z + d), n)
  {
    assert x + (b + n + c + z + d) == (x + b) + n + (c + z + d);
    InfixOccurs(x + b, n, c + z + d);
  }

  const IssueReply := "I encountered an issue. Please try again."
  const NetworkReply := "Network error. Please check your connection and try again."

  /** What awaiting the API call produced. */
  datatype Outcome =
    | Replied(text: Option<string>)  // `data.content?.[0]?.text`
    | Failed                         // `fetch` or `response.json()` threw

  function ReplyText(outcome: Outcome): string {
    match outcome
    case Replied(text) => if Truthy(text) then text.value else IssueReply
    case Failed => NetworkReply
  }

  class Session {
    var subject: Subject
    var messages: seq<Message>
    var input: string
    var loading: bool

    /**
     * A mounted panel. Its initial welcome is replaced at once by the
     * symbol-keyed effect, which runs on mount.
     */
    constructor (subject: Subject)
      ensures this.subject == subject && messages == [Message(Assistant, SwitchGreeting(subject))]
      ensures input == [] && !loading
    {
      this.subject := subject;
      messages := [Message(Assistant, SwitchGreeting(subject))];
      input := [];
      loading := false;
    }

    method Type(text: string)
      modifies this
      ensures input == text
      ensures subject == old(subject) && messages == old(messages) && loading == old(loading)
    {
      input := text;
    }

    /**
     * A new stock and prediction. The effect is keyed on the symbol alone: the
     * transcript is replaced only when the symbol changes, and `loading` is
     * left as it is.
     */
    method Select(subject: Subject)
      modifies this
      ensures this.subject == subject
      ensures messages ==
        if subject.symbol == old(this.subject.symbol) then old(messages)
        else [Message(Assistant, SwitchGreeting(subject))]
      ensures input == old(input) && loading == old(loading)
    {
      if subject.symbol != this.subject.symbol {
        messages := [Message(Assistant, SwitchGreeting(subject))];
      }
      this.subject := subject;
    }

    /**
     * `sendMessage()` up to its `await`: ignored when the input trims to
     * nothing or a reply is pending; otherwise the untrimmed input is appended
     * and the request carries the whole new transcript.
     */
    method Begin() returns (request: Option<seq<Message>>)
      modifies this
      ensures if Trim(old(input), JsSpace) == [] || old(loading) then
          request.None? && messages == old(messages) && input == old(input) && loading == old(loading)
        else
          messages == old(messages) + [Message(User, old(input))] &&
          request == Some(messages) && input == [] && loading
      ensures subject == old(subject)
    {
      if Trim(input, JsSpace) == [] || loading {
        return None;
      }
      messages := messages + [Message(User, input)];
      input := [];
      loading := true;
      request := Some(messages);
    }

    /** `sendMessage` after its `await`: one assistant message, then `loading` is cleared. */
    method Complete(outcome: Outcome)
      modifies this
      ensures messages == old(messages) + [Message(Assistant, ReplyText(outcome))]
      ensures !loading
      ensures subject == old(subject) && input == old(input)
    {
      messages := messages + [Message(Assistant, ReplyText(outcome))];
      loading := false;
    }
  }

  /** Typing a non-blank question into an idle panel and getting its outcome. */
  method Round(s: Session, q: string, outcome: Outcome) returns (request: Option<seq<Message>>)
    requires !s.loading && Trim(q, JsSpace) != []
    modifies s
    ensures request == Some(old(s.messages) + [Message(User, q)])
    ensures s.messages == request.value + [Message(Assistant, ReplyText(outcome))]
    ensures !s.loading && s.input == [] && s.subject == old(s.subject)
  {
    s.Type(q);
    request := s.Begin();
    s.Complete(outcome);
  }

  /**
   * Two rounds on a fresh panel: the second request carries the whole
   * transcript, greeting included, and the user's text exactly as typed.
   */
  method TwoRounds(subject: Subject, q1: string, q2: string, o1: Outcome, o2: Outcome)
    returns (r1: Option<seq<Message>>, r2: Option<seq<Message>>, transcript: seq<Message>)
    requires Trim(q1, JsSpace) != [] && Trim(q2, JsSpace) != []
    ensures r1 == Some([Message(Assistant, SwitchGreeting(subject)), Message(User, q1)])
    ensures r2 == Some(r1.value + [Message(Assistant, ReplyText(o1)), Message(User, q2)])
    ensures transcript == r2.value + [Message(Assistant, ReplyText(o2))]
  {
    var s := new Session(subject);
    r1, r2 := RoundsOn(s, q1, q2, o1, o2);
    TwoMessages(Message(Assistant, SwitchGreeting(subject)), Message(User, q1));
    transcript := s.messages;
  }

  /** Two rounds on an idle panel: each request carries everything before it. */
  method RoundsOn(s: Session, q1: string, q2: string, o1: Outcome, o2: Outcome)
    returns (r1: Option<seq<Message>>, r2: Option<seq<Message>>)
    requires !s.loading && Trim(q1, JsSpace) != [] && Trim(q2, JsSpace) != []
    modifies s
    ensures r1 == Some(old(s.messages) + [Message(User, q1)])
    ensures r2 == Some(r1.value + [Message(Assistant, ReplyText(o1)), Message(User, q2)])
    ensures s.messages == r2.value + [Message(Assistant, ReplyText(o2))]
  {
    r1 := Round(s, q1, o1);
    r2 := Round(s, q2, o2);
    AppendTwo(r1.value, Message(Assistant, ReplyText(o1)), Message(User, q2));
  }

  /** A second question while a reply is pending is refused; the typed text stays in the box. */
  method SubmitWhileWaiting(subject: Subject, q1: string, q2: string)
    returns (r2: Option<seq<Message>>, input: string, transcript: seq<Message>)
    requires Trim(q1, JsSpace) != []
    ensures r2.None? && input == q2
    ensures transcript == [Message(Assistant, SwitchGreeting(subject)), Message(User, q1)]
  {
    var s := new Session(subject);
    s.Type(q1);
    var r1 := s.Begin();
    s.Type(q2);
    r2 := s.Begin();
    TwoMessages(Message(Assistant, SwitchGreeting(subject)), Message(User, q1));
    input, transcript := s.input, s.messages;
  }

  /** A reply that arrives after a switch to another symbol lands in the new transcript. */
  method LateReplyAfterSwitch(a: Subject, b: Subject, q: string, outcome: Outcome)
    returns (transcript: seq<Message>, loading: bool)
    requires a.symbol != b.symbol && Trim(q, JsSpace) != []
    ensures transcript == [Message(Assistant, SwitchGreeting(b)), Message(Assistant, ReplyText(outcome))]
    ensures !loading
  {
    var s := new Session(a);
    s.Type(q);
    var r := s.Begin();
    s.Select(b);
    s.Complete(outcome);
    TwoMessages(Message(Assistant, SwitchGreeting(b)), Message(Assistant, ReplyText(outcome)));
    transcript, loading := s.messages, s.loading;
  }

  /** A new prediction for the same symbol does not reset the conversation. */
  method SameSymbolKeepsTranscript(a: Subject, b: Subject, q: string)
    returns (transcript: seq<Message>)
    requires a.symbol == b.symbol && Trim(q, JsSpace) != []
    ensures transcript == [Message(Assistant, SwitchGreeting(a)), Message(User, q)]
  {
    var s := new Session(a);
    s.Type(q);
    var r := s.Begin();
    s.Select(b);
    TwoMessages(Message(Assistant, SwitchGreeting(a)), Message(User, q));
    transcript := s.messages;
  }
}
