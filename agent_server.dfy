/**
 * The request shaping and AI routing of the QuantDesk agent
 * (backend/agent_server.py): validation of `/agent/analyze` and
 * `/agent/compare`, the context window sent to the model, and the
 * Claude-first, Groq-fallback decision. The HTTP calls to the providers
 * enter as their outcomes.
 */
module AgentServer {
  import opened Text

  // ---------------------------------------------------------------------
  // Providers and routing
  // ---------------------------------------------------------------------

  /**
   * What calling one provider did: no key configured, an HTTP status with
   * its text (for status 200 the reply text the body carries, otherwise the
   * raw body), or an exception with its message.
   */
  datatype Call = NoKey | Responded(status: nat, text: string) | Raised(message: string)

  datatype Engine = Claude | Groq

  /** `ask_claude`: the reply text and success only on status 200; `(None, False)` on anything else. */
  function AskClaude(call: Call): (Option<string>, bool) {
    match call
    case Responded(status, text) => if status == 200 then (Some(text), true) else (None, false)
    case _ => (None, false)
  }

  const NoGroqKey := "⚠ No AI available. Add GROQ_API_KEY to .env — free at console.groq.com"

  /** `ask_groq`: the reply text on status 200, otherwise a message saying what went wrong. */
  function AskGroq(call: Call): (string, bool) {
    match call
    case NoKey => (NoGroqKey, false)
    case Responded(status, text) =>
      if status == 200 then (text, true) else ("Groq error " + NatToString(status) + ": " + text, false)
    case Raised(message) => ("Request failed: " + message, false)
  }

  /** `ask_ai`: Claude's text when Claude succeeded with a non-empty text, else whatever Groq gave. */
  function AskAi(claude: Call, groq: Call): (string, Engine) {
    var (text, ok) := AskClaude(claude);
    if ok && Truthy(text) then (text.value, Claude)
    else (AskGroq(groq).0, Groq)
  }

  /** Claude succeeds exactly on status 200, and only then does it return a text. */
  lemma AskClaudeIff(call: Call)
    ensures AskClaude(call).1 <==> call.Responded? && call.status == 200
    ensures AskClaude(call).0.Some? <==> AskClaude(call).1
  {
  }

  /**
   * The routing decision: Claude answers exactly when it returned status 200
   * with a non-empty text, and then Groq is never consulted; otherwise the
   * answer is Groq's, success or not.
   */
  lemma AskAiRouting(claude: Call, groq: Call, other: Call)
    ensures AskAi(claude, groq).1 == Claude <==>
      claude.Responded? && claude.status == 200 && claude.text != []
    ensures AskAi(claude, groq).1 == Claude ==>
      AskAi(claude, groq) == (claude.text, Claude) && AskAi(claude, other) == AskAi(claude, groq)
    ensures AskAi(claude, groq).1 == Groq ==> AskAi(claude, groq).0 == AskGroq(groq).0
  {
  }

  /** A failed Groq call still produces an answer text, which names the failure. */
  lemma GroqFailureTexts(call: Call)
    requires !AskGroq(call).1
    ensures call.NoKey? ==> AskGroq(call).0 == NoGroqKey
    ensures call.Responded? ==> call.status != 200 && StartsWith(AskGroq(call).0, "Groq error " + NatToString(call.status))
    ensures call.Raised? ==> StartsWith(AskGroq(call).0, "Request failed: ")
  {
    var t := AskGroq(call).0;
    if call.Responded? {
      var p := "Groq error " + NatToString(call.status);
      assert t == p + ": " + call.text;
      assert t[..|p|] == p;
    } else if call.Raised? {
      assert t[..|"Request failed: "|] == "Request failed: ";
    }
  }

  function EngineLabel(e: Engine): string {
    (match e case Claude => "claude" case Groq => "groq") + "+yfinance"
  }

  // ---------------------------------------------------------------------
  // /agent/analyze
  // ---------------------------------------------------------------------

  /** A history entry as posted: its role, if any, and its content. */
  datatype Entry = Entry(role: Option<string>, content: string)

  /** A message of the conversation sent to the model. */
  datatype AiMessage = AiMessage(role: string, content: string)

  /**
   * The posted body; absent keys are `None`. A falsy JSON body (`null`, `{}`
   * or `[]`) reads as all absent through `request.json or {}`.
   */
  datatype AnalyzeBody = AnalyzeBody(ticker: Option<string>, question: Option<string>, history: Option<seq<Entry>>)

  datatype AnalyzeReply =
    | Rejected(error: string, status: nat)
    | Analysed(ticker: string, answer: string, engine: string)

  predicate ChatRole(e: Entry) {
    e.role == Some("user") || e.role == Some("assistant")
  }

  /** The entries whose role is `user` or `assistant`, in order, as model messages. */
  function Kept(entries: seq<Entry>): (r: seq<AiMessage>)
    ensures |r| <= |entries|
  {
    if entries == [] then []
    else
      Kept(entries[..|entries| - 1]) + KeptOne(entries[|entries| - 1])
  }

  /** What one history entry contributes: itself as a model message when it has a chat role. */
  function KeptOne(e: Entry): seq<AiMessage> {
    if ChatRole(e) then [AiMessage(e.role.value, e.content)] else []
  }

  /** Only messages with the role `user` or `assistant` reach the model. */
  lemma {:induction false} KeptRoles(entries: seq<Entry>)
    ensures forall m :: m in Kept(entries) ==> m.role == "user" || m.role == "assistant"
  {
    if entries != [] {
      KeptRoles(entries[..|entries| - 1]);
    }
  }

  lemma KeptSnoc(s: seq<Entry>, e: Entry)
    ensures Kept(s + [e]) == Kept(s) + KeptOne(e)
  {
    assert (s + [e])[..|s|] == s;
  }

  /** Proof helper for the scenario below: the filter on a three-entry display. */
  lemma KeptThree(e1: Entry, e2: Entry, e3: Entry)
    ensures Kept([e1, e2, e3]) == KeptOne(e1) + KeptOne(e2) + KeptOne(e3)
  {
    KeptSnoc([], e1);
    assert [] + [e1] == [e1];
    KeptSnoc([e1], e2);
    assert [e1] + [e2] == [e1, e2];
    KeptSnoc([e1, e2], e3);
    assert [e1, e2] + [e3] == [e1, e2, e3];
  }

  /** Entries with another role, or none, are dropped; entries with a chat role all survive. */
  lemma {:induction false} KeptCount(entries: seq<Entry>)
    ensures (forall k :: 0 <= k < |entries| ==> ChatRole(entries[k])) ==> |Kept(entries)| == |entries|
    ensures (forall k :: 0 <= k < |entries| ==> !ChatRole(entries[k])) ==> Kept(entries) == []
  {
    if entries != [] {
      KeptCount(entries[..|entries| - 1]);
    }
  }

  function DefaultQuestion(ticker: string): string {
    "Give me a full investment analysis for " + ticker + "."
  }

  /**
   * The loop of `analyze`: the chat-role entries among the last six of the
   * history, then the question as the final user message.
   */
  method BuildMessages(history: seq<Entry>, question: string) returns (messages: seq<AiMessage>)
    ensures messages == Kept(LastN(history, 6)) + [AiMessage("user", question)]
    ensures 1 <= |messages| <= 7 && messages[|messages| - 1] == AiMessage("user", question)
  {
    var window := LastN(history, 6);
    messages := [];
    for i := 0 to |window|
      invariant messages == Kept(window[..i])
    {
      var m := window[i];
      assert window[..i + 1][..i] == window[..i];
      if m.role == Some("user") || m.role == Some("assistant") {
        messages := messages + [AiMessage(m.role.value, m.content)];
      }
    }
    assert window[..|window|] == window;
    messages := messages + [AiMessage("user", question)];
  }

  /**
   * `analyze()` with the provider outcomes given: an empty ticker is
   * rejected with 400 before the model is called (`sent` is `None`);
   * otherwise the ticker is upper-cased, a missing question is replaced by a
   * request for a full analysis, and `sent` is what the model received.
   */
  method Analyze(body: AnalyzeBody, claude: Call, groq: Call)
    returns (reply: AnalyzeReply, sent: Option<seq<AiMessage>>)
    ensures var ticker := Upper(if body.ticker.Some? then body.ticker.value else []);
      if ticker == [] then
        reply == Rejected("ticker is required", 400) && sent.None?
      else
        var question := if body.question.Some? then body.question.value else DefaultQuestion(ticker);
        var history := if body.history.Some? then body.history.value else [];
        sent == Some(Kept(LastN(history, 6)) + [AiMessage("user", question)]) &&
        reply == Analysed(ticker, AskAi(claude, groq).0, EngineLabel(AskAi(claude, groq).1))
  {
    var ticker := Upper(if body.ticker.Some? then body.ticker.value else []);
    var question := if body.question.Some? then body.question.value else DefaultQuestion(ticker);
    var history := if body.history.Some? then body.history.value else [];
    if ticker == [] {
      return Rejected("ticker is required", 400), None;
    }
    var messages := BuildMessages(history, question);
    var (answer, engine) := AskAi(claude, groq);
    reply := Analysed(ticker, answer, EngineLabel(engine));
    sent := Some(messages);
  }

  /** Filtering distributes over concatenation. */
  lemma {:induction false} KeptAppend(xs: seq<Entry>, ys: seq<Entry>)
    ensures Kept(xs + ys) == Kept(xs) + Kept(ys)
  {
    if ys == [] {
      assert xs + ys == xs;
    } else {
      var init, e := ys[..|ys| - 1], ys[|ys| - 1];
      assert ys == init + [e];
      assert xs + ys == (xs + init) + [e];
      KeptAppend(xs, init);
      KeptSnoc(xs + init, e);
      KeptSnoc(init, e);
    }
  }

  /**
   * A follow-up after a long chat: of the eight history entries only the last
   * six are considered, and a system entry among them is dropped.
   */
  method LongHistory(a: string, b: string, q: string)
    returns (sent: seq<AiMessage>)
    ensures sent == [AiMessage("assistant", b), AiMessage("user", a), AiMessage("assistant", b),
                     AiMessage("user", a), AiMessage("user", q)]
  {
    var u, r, x := Entry(Some("user"), a), Entry(Some("assistant"), b), Entry(Some("system"), b);
    var window := [x, r, u, r, u, x];
    var history := [u, r] + window;
    assert LastN(history, 6) == window;
    sent := BuildMessages(history, q);
    KeptWindow(u, r, x);
  }

  /** Proof helper for LongHistory: a system entry is dropped, the other two kept. */
  lemma KeptWindow(u: Entry, r: Entry, x: Entry)
    requires ChatRole(u) && ChatRole(r) && !ChatRole(x)
    ensures Kept([x, r, u, r, u, x]) == KeptOne(r) + KeptOne(u) + KeptOne(r) + KeptOne(u)
  {
    KeptThree(x, r, u);
    KeptThree(r, u, x);
    KeptAppend([x, r, u], [r, u, x]);
    assert [x, r, u] + [r, u, x] == [x, r, u, r, u, x];
  }

  // ---------------------------------------------------------------------
  // /agent/compare
  // ---------------------------------------------------------------------

  datatype CompareReply =
    | CompareRejected(error: string, status: nat)
    | Compared(stocks: seq<string>, answer: string, engine: string)

  function UpperAll(tickers: seq<string>): (r: seq<string>)
    ensures |r| == |tickers| && forall k :: 0 <= k < |r| ==> r[k] == Upper(tickers[k])
  {
    if tickers == [] then [] else [Upper(tickers[0])] + UpperAll(tickers[1..])
  }

  /** The keys of `{t: ... for t in ts}`, in insertion order: each ticker once, at its first position. */
  function Distinct(ts: seq<string>): (r: seq<string>)
    ensures forall t :: t in r <==> t in ts
    ensures |r| <= |ts|
  {
    if ts == [] then []
    else
      var init := Distinct(ts[..|ts| - 1]);
      var last := ts[|ts| - 1];
      assert forall t :: t in ts <==> t in ts[..|ts| - 1] || t == last by {
        assert ts == ts[..|ts| - 1] + [last];
      }
      if last in init then init else init + [last]
  }

  /** Every ticker appears once among the compared stocks. */
  lemma {:induction false} DistinctNoDup(ts: seq<string>)
    ensures forall i, j :: 0 <= i < j < |Distinct(ts)| ==> Distinct(ts)[i] != Distinct(ts)[j]
  {
    if ts != [] {
      DistinctNoDup(ts[..|ts| - 1]);
    }
  }

  /**
   * `compare()` as written: the tickers are upper-cased, fewer than two are
   * rejected with 400, and the snapshot dictionary keeps one entry per
   * distinct ticker, which is what the model is asked to compare.
   */
  function Compare(tickers: seq<string>, claude: Call, groq: Call): CompareReply {
    var ts := UpperAll(tickers);
    if |ts| < 2 then CompareRejected("Provide at least 2 tickers", 400)
    else
      var (answer, engine) := AskAi(claude, groq);
      Compared(Distinct(ts), answer, EngineLabel(engine))
  }

  /** The guard counts tickers, not stocks: the same ticker twice passes, and one stock is "compared". */
  lemma CompareDuplicateTicker(claude: Call, groq: Call)
    ensures Compare(["nvda", "NVDA"], claude, groq).Compared?
    ensures Compare(["nvda", "NVDA"], claude, groq).stocks == ["NVDA"]
  {
    var ts := UpperAll(["nvda", "NVDA"]);
    assert Upper("nvda") == "NVDA" by {
      var v := Upper("nvda");
      assert v[0] == 'N' && v[1] == 'V' && v[2] == 'D' && v[3] == 'A';
    }
    assert Upper("NVDA") == "NVDA" by {
      var v := Upper("NVDA");
      assert v[0] == 'N' && v[1] == 'V' && v[2] == 'D' && v[3] == 'A';
    }
    assert ts == ["NVDA", "NVDA"];
    assert ts[..1] == ["NVDA"];
    assert Distinct(ts[..1]) == ["NVDA"] by {
      assert ts[..1][..0] == [];
    }
  }

  /** The guard as intended: at least two distinct stocks. */
  function CompareDistinct(tickers: seq<string>, claude: Call, groq: Call): (r: CompareReply)
    ensures r.Compared? <==> |Distinct(UpperAll(tickers))| >= 2
    ensures r.Compared? ==> |r.stocks| >= 2
    ensures r.Compared? ==> forall t :: t in r.stocks <==> exists k :: 0 <= k < |tickers| && Upper(tickers[k]) == t
  {
    var ts := Distinct(UpperAll(tickers));
    if |ts| < 2 then CompareRejected("Provide at least 2 tickers", 400)
    else
      var (answer, engine) := AskAi(claude, groq);
      Compared(ts, answer, EngineLabel(engine))
  }

  /** On lists without repeated tickers the intended guard and the written one agree. */
  lemma CompareAgreesWithoutRepeats(tickers: seq<string>, claude: Call, groq: Call)
    requires forall i, j :: 0 <= i < j < |tickers| ==> Upper(tickers[i]) != Upper(tickers[j])
    ensures CompareDistinct(tickers, claude, groq) == Compare(tickers, claude, groq)
  {
    DistinctAll(UpperAll(tickers));
  }

  lemma {:induction false} DistinctAll(ts: seq<string>)
    requires forall i, j :: 0 <= i < j < |ts| ==> ts[i] != ts[j]
    ensures Distinct(ts) == ts
  {
    if ts != [] {
      var init := ts[..|ts| - 1];
      DistinctAll(init);
      assert ts[|ts| - 1] !in init;
      assert ts == init + [ts[|ts| - 1]];
    }
  }
}
