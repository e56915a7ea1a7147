/**
 * The chat session of the QuantDesk dashboard (`AIChat` in frontend/src/App.js):
 * a transcript that only grows, a `loading` flag that is either idle or
 * waiting for one reply, and a reset to a single greeting whenever the
 * selected symbol changes. `send` is split at its `await` into `Begin`, which
 * decides whether a request is issued and what it carries, and `Complete`,
 * which applies the reply or the failure.
 */
module AgentChat {
  import opened Text
  import opened ChatMessages

  /** Body of the POST to `/agent/analyze`. */
  datatype AnalyzeRequest = AnalyzeRequest(ticker: string, question: string, history: seq<Message>)

  /** What awaiting `fetch(...)` and `res.json()` produced. */
  datatype Outcome =
    | Replied(answer: string, error: Option<string>)  // the parsed body; `error` is `data.error`
    | Failed(message: string)                         // `fetch` or `res.json()` threw

  function Greeting(symbol: string): string {
    "**QuantDesk Agent ready.**\n\nAnalyzing **" + symbol +
    "** with live fundamentals, margins, analyst ratings & earnings data.\n\nWhat would you like to know?"
  }

  function FailureText(message: string): string {
    "⚠ " + message + "\n\nMake sure **agent_server.py** is running:\n`python agent_server.py`"
  }

  /** The assistant message a completed request appends. */
  function ReplyText(outcome: Outcome): string {
    match outcome
    case Replied(answer, error) => if Truthy(error) then FailureText(error.value) else answer
    case Failed(message) => FailureText(message)
  }

  /** A failure is reported as a warning that starts with `⚠ ` followed by the error message. */
  lemma FailureReplyStartsWithWarning(outcome: Outcome)
    requires outcome.Failed? || Truthy(outcome.error)
    ensures var m := if outcome.Failed? then outcome.message else outcome.error.value;
      StartsWith(ReplyText(outcome), "⚠ " + m)
  {
    var m := if outcome.Failed? then outcome.message else outcome.error.value;
    var t := ReplyText(outcome);
    assert t == ("⚠ " + m) + "\n\nMake sure **agent_server.py** is running:\n`python agent_server.py`";
    assert t[..|"⚠ " + m|] == "⚠ " + m;
  }

  /** `(overrideMsg || input).trim()` */
  function Question(override: Option<string>, input: string): string {
    Trim(if Truthy(override) then override.value else input, JsSpace)
  }

  /** A question passed explicitly is used once it is not blank after trimming, whatever the box holds. */
  lemma PassedQuestion(q: string, input: string)
    requires Trim(q, JsSpace) != []
    ensures Question(Some(q), input) == Trim(q, JsSpace)
  {
    assert TrimStart([], JsSpace) == [];
  }

  class Session {
    var symbol: string
    var messages: seq<Message>
    var input: string
    var loading: bool

    /**
     * A mounted chat panel. The effect keyed on the symbol runs once on mount,
     * so the panel starts from the greeting.
     */
    constructor (symbol: string)
      ensures this.symbol == symbol && messages == [Message(Assistant, Greeting(symbol))]
      ensures input == [] && !loading
    {
      this.symbol := symbol;
      messages := [Message(Assistant, Greeting(symbol))];
      input := [];
      loading := false;
    }

    /** The `onChange` of the text box. */
    method Type(text: string)
      modifies this
      ensures input == text
      ensures symbol == old(symbol) && messages == old(messages) && loading == old(loading)
    {
      input := text;
    }

    /**
     * A new `symbol` prop. The effect keyed on the symbol runs only when it
     * differs from the current one, and then replaces the transcript by one
     * greeting. `loading` is left as it is, so a request still in flight
     * completes into the new transcript.
     */
    method SelectSymbol(symbol: string)
      modifies this
      ensures this.symbol == symbol
      ensures messages == if symbol == old(this.symbol) then old(messages) else [Message(Assistant, Greeting(symbol))]
      ensures input == old(input) && loading == old(loading)
    {
      if symbol != this.symbol {
        this.symbol := symbol;
        messages := [Message(Assistant, Greeting(symbol))];
      }
    }

    /**
     * `send(overrideMsg)` up to its `await`: ignored when the question is blank
     * or a reply is pending; otherwise the question is appended, the box is
     * cleared, `loading` is set, and the request carries the last six messages
     * of the transcript as it was before the question was appended.
     */
    method Begin(override: Option<string>) returns (request: Option<AnalyzeRequest>)
      modifies this
      ensures var q := Question(override, old(input));
        if q == [] || old(loading) then
          request.None? && messages == old(messages) && input == old(input) && loading == old(loading)
        else
          request == Some(AnalyzeRequest(old(symbol), q, LastN(old(messages), 6))) &&
          messages == old(messages) + [Message(User, q)] && input == [] && loading
      ensures symbol == old(symbol)
    {
      var q := Question(override, input);
      if q == [] || loading {
        return None;
      }
      request := Some(AnalyzeRequest(symbol, q, LastN(messages, 6)));
      input := [];
      messages := messages + [Message(User, q)];
      loading := true;
    }

    /**
     * `send` after its `await`: exactly one assistant message is appended to
     * whatever transcript is current, and the `finally` clears `loading`.
     */
    method Complete(outcome: Outcome)
      modifies this
      ensures messages == old(messages) + [Message(Assistant, ReplyText(outcome))]
      ensures !loading
      ensures symbol == old(symbol) && input == old(input)
    {
      messages := messages + [Message(Assistant, ReplyText(outcome))];
      loading := false;
    }
  }

  /**
   * A non-blank question asked on an idle panel: the request carries the
   * trimmed question and the last six messages, the question is appended and
   * the panel waits.
   */
  method Ask(s: Session, question: string) returns (request: Option<AnalyzeRequest>)
    requires !s.loading && Trim(question, JsSpace) != []
    modifies s
    ensures request == Some(AnalyzeRequest(old(s.symbol), Trim(question, JsSpace), LastN(old(s.messages), 6)))
    ensures s.messages == old(s.messages) + [Message(User, Trim(question, JsSpace))]
    ensures s.symbol == old(s.symbol) && s.loading
  {
    PassedQuestion(question, s.input);
    request := s.Begin(Some(question));
  }

  /**
   * One round on a fresh panel: a non-blank question issues one request whose
   * history is the greeting alone, and its completion leaves the panel idle
   * with exactly the question and the reply added.
   */
  method OneRound(symbol: string, question: string, outcome: Outcome)
    returns (request: Option<AnalyzeRequest>, transcript: seq<Message>, loading: bool)
    requires Trim(question, JsSpace) != []
    ensures request == Some(AnalyzeRequest(symbol, Trim(question, JsSpace), [Message(Assistant, Greeting(symbol))]))
    ensures transcript == [Message(Assistant, Greeting(symbol)), Message(User, Trim(question, JsSpace)),
                           Message(Assistant, ReplyText(outcome))]
    ensures !loading
  {
    var s := new Session(symbol);
    assert LastN(s.messages, 6) == s.messages;
    request := Ask(s, question);
    s.Complete(outcome);
    ThreeMessages(Message(Assistant, Greeting(symbol)), Message(User, Trim(question, JsSpace)),
                  Message(Assistant, ReplyText(outcome)));
    transcript, loading := s.messages, s.loading;
  }

  /** A second submission while the first is pending issues nothing and adds nothing. */
  method SubmitWhileWaiting(symbol: string, first: string, second: string)
    returns (r1: Option<AnalyzeRequest>, r2: Option<AnalyzeRequest>, transcript: seq<Message>)
    requires Trim(first, JsSpace) != []
    ensures r1.Some? && r2.None?
    ensures transcript == [Message(Assistant, Greeting(symbol)), Message(User, Trim(first, JsSpace))]
  {
    var s := new Session(symbol);
    r1 := Ask(s, first);
    r2 := s.Begin(Some(second));
    TwoMessages(Message(Assistant, Greeting(symbol)), Message(User, Trim(first, JsSpace)));
    transcript := s.messages;
  }

  /** A blank question (typed or passed) is ignored: no request, nothing appended. */
  method BlankIsIgnored(symbol: string, typed: string)
    returns (request: Option<AnalyzeRequest>, transcript: seq<Message>, loading: bool)
    requires forall i :: 0 <= i < |typed| ==> JsSpace(typed[i])
    ensures request.None? && transcript == [Message(Assistant, Greeting(symbol))] && !loading
  {
    var s := new Session(symbol);
    s.Type(typed);
    TrimEmptyIff(typed, JsSpace);
    request := s.Begin(Some(""));
    transcript, loading := s.messages, s.loading;
  }

  /**
   * There is no stale-response guard: a reply to a question asked about one
   * symbol, arriving after the switch to another, is appended to the new
   * symbol's transcript.
   */
  method LateReplyAfterSwitch(a: string, b: string, question: string, outcome: Outcome)
    returns (transcript: seq<Message>, loading: bool)
    requires a != b && Trim(question, JsSpace) != []
    ensures transcript == [Message(Assistant, Greeting(b)), Message(Assistant, ReplyText(outcome))]
    ensures !loading
  {
    var s := new Session(a);
    var request := Ask(s, question);
    SwitchThenComplete(s, b, outcome);
    transcript, loading := s.messages, s.loading;
  }

  /** A switch to another symbol, then the completion of the request still pending. */
  method SwitchThenComplete(s: Session, b: string, outcome: Outcome)
    requires s.symbol != b
    modifies s
    ensures s.messages == [Message(Assistant, Greeting(b)), Message(Assistant, ReplyText(outcome))]
    ensures !s.loading
  {
    s.SelectSymbol(b);
    s.Complete(outcome);
    TwoMessages(Message(Assistant, Greeting(b)), Message(Assistant, ReplyText(outcome)));
  }

  /**
   * While the reply to a question asked before a switch is pending, the new
   * symbol's panel still refuses questions: `loading` survives the switch.
   */
  method SwitchKeepsWaiting(a: string, b: string, q1: string, q2: string)
    returns (r2: Option<AnalyzeRequest>, transcript: seq<Message>)
    requires a != b && Trim(q1, JsSpace) != []
    ensures r2.None? && transcript == [Message(Assistant, Greeting(b))]
  {
    var s := new Session(a);
    var r1 := Ask(s, q1);
    s.SelectSymbol(b);
    r2 := s.Begin(Some(q2));
    transcript := s.messages;
  }
}
