/**
  The `Chat` component's `handleSubmit`: the trim gate, the reset of the five
  state fields, and — once the request settles — the adoption of the reply.
  The request itself is external: its outcome is an input, either the
  destructured response data or a failure.
 */
module ChatTurn {
  import opened Wrappers
  import opened JsSemantics

  /** The five `useState` values of `Chat`. */
  datatype ChatState = ChatState(input: string, message: string, symbol: string, action: string, forecast: Json)

  /** The fields destructured from `response.data`. */
  datatype Reply = Reply(message: string, symbol: string, action: string, forecast: Json)

  /** How the request settles: a response, or a rejection caught by the `catch`. */
  datatype Outcome = Response(reply: Reply) | Failure

  /** The initial state, which is also the state an accepted submit resets to. */
  const Cleared: ChatState := ChatState("", "", "", "", JNull)

  /** The sentinel the backend sends for "no symbol" and "no action". */
  const NoneSentinel: string := "None"

  /** The gate `if (input.trim())`: the trimmed input is a non-empty, truthy string. */
  predicate Accepts(input: string)
    ensures Accepts(input) <==> !IsBlank(input)
  {
    TrimEmptyIffBlank(input);
    Trim(input) != []
  }

  /** The setters run after the `await`. */
  function Adopt(s: ChatState, r: Reply): ChatState {
    var s1 := s.(message := r.message);
    var s2 := if r.symbol != NoneSentinel && r.action != NoneSentinel then s1.(symbol := r.symbol, action := r.action) else s1;
    if !IsString(r.forecast) then s2.(forecast := r.forecast) else s2
  }

  /** The continuation of the `try` once the request settles; a failure changes nothing. */
  function Complete(s: ChatState, outcome: Outcome): ChatState {
    match outcome
    case Response(r) => Adopt(s, r)
    case Failure => s
  }

  datatype TurnResult = TurnResult(state: ChatState, request: Option<string>)

  /**
    A whole submission whose request settles before anything else happens.
    Input that trims to nothing sends no request and changes nothing. Otherwise
    the untrimmed input is sent; on failure the state stays cleared; on a
    response the message is adopted, symbol and action together only when
    neither is "None" (else both stay empty), and the forecast only when it is
    not a string (else it stays null).
   */
  function Turn(s: ChatState, outcome: Outcome): (t: TurnResult)
    ensures t.request.Some? <==> !IsBlank(s.input)
    ensures t.request.Some? ==> t.request.value == s.input
    ensures IsBlank(s.input) ==> t.state == s
    ensures !IsBlank(s.input) && outcome.Failure? ==> t.state == Cleared
    ensures !IsBlank(s.input) && outcome.Response? ==>
      var r := outcome.reply;
      && t.state.input == ""
      && t.state.message == r.message
      && (r.symbol != NoneSentinel && r.action != NoneSentinel ==> t.state.symbol == r.symbol && t.state.action == r.action)
      && (r.symbol == NoneSentinel || r.action == NoneSentinel ==> t.state.symbol == "" && t.state.action == "")
      && t.state.forecast == (if IsString(r.forecast) then JNull else r.forecast)
  {
    if !Accepts(s.input) then TurnResult(s, None)
    else TurnResult(Complete(Cleared, outcome), Some(s.input))
  }

  /** The backend's answer for a buy recommendation without a forecast is shown with symbol and action. */
  lemma BuyReplyWithoutForecast(question: string)
    requires !IsBlank(question)
    ensures var s := ChatState(question, "earlier", "MSFT", "sell", JNull);
      Turn(s, Response(Reply("Buy now", "AAPL", "buy", JString("None")))).state
        == ChatState("", "Buy now", "AAPL", "buy", JNull)
  {
  }

  /** The `Chat` component's state. */
  class Chat {
    var input: string
    var message: string
    var symbol: string
    var action: string
    var forecast: Json

    function State(): ChatState
      reads this
    {
      ChatState(input, message, symbol, action, forecast)
    }

    constructor ()
      ensures State() == Cleared
    {
      input, message, symbol, action, forecast := "", "", "", "", JNull;
    }

    /** The textarea's `onChange`: `setInput(e.target.value)`. */
    method Type(value: string)
      modifies this
      ensures State() == old(State()).(input := value)
    {
      input := value;
    }

    /**
      The synchronous part of `handleSubmit`: with input that trims to
      nothing it does nothing and sends nothing; otherwise it captures the
      untrimmed input as the question, clears all five fields and sends it.
     */
    method Submit() returns (question: Option<string>)
      modifies this
      ensures question.Some? <==> !IsBlank(old(input))
      ensures question.Some? ==> question.value == old(input) && State() == Cleared
      ensures question.None? ==> State() == old(State())
    {
      if Accepts(input) {
        question := Some(input);
        input := "";
        message := "";
        symbol := "";
        action := "";
        forecast := JNull;
      } else {
        question := None;
      }
    }

    /** The part of `handleSubmit` after the `await`; the `catch` swallows a failure. */
    method Receive(outcome: Outcome)
      modifies this
      ensures State() == Complete(old(State()), outcome)
    {
      if outcome.Response? {
        var r := outcome.reply;
        message := r.message;
        if r.symbol != NoneSentinel && r.action != NoneSentinel {
          symbol := r.symbol;
          action := r.action;
        }
        if !IsString(r.forecast) {
          forecast := r.forecast;
        }
      }
    }

    /** `handleSubmit` when its request settles with nothing else in between. */
    method HandleSubmit(outcome: Outcome) returns (question: Option<string>)
      modifies this
      ensures TurnResult(State(), question) == Turn(old(State()), outcome)
    {
      question := Submit();
      if question.Some? {
        Receive(outcome);
      }
    }
  }
}
