/** The chat widget's transcript logic: turning stored interaction rows into display messages,
    the message-list update of `sendMessage`, and its two error-to-text mappings. Rendering, effects
    and scrolling are not modelled; the store's answers and failures are inputs. */
module AiChat {
  import opened Wrappers
  import opened JsStrings
  import opened JsValues
  import opened AiService

  datatype Role = User | Assistant

  /** When a message was made: a timestamp read back from the store, or a clock reading in
      milliseconds (`Date.now()`). */
  datatype Instant = Stored(text: string) | Clock(millis: nat)

  /** A message as the widget displays it. */
  datatype Message = Message(id: string, role: Role, content: string, timestamp: Instant)

  /** A row of the `chat_interactions` table. */
  datatype Interaction = Interaction(
    id: string,
    sessionId: string,
    message: string,
    response: Option<string>,
    timestamp: string)

  // ----- history reconstruction --------------------------------------------------------------

  /** `interaction.response` is truthy: present and non-empty. */
  predicate Answered(row: Interaction) {
    TextTruthy(row.response)
  }

  function UserMessageOf(row: Interaction): Message {
    Message("user_" + row.id, User, row.message, Stored(row.timestamp))
  }

  function AssistantMessageOf(row: Interaction): Message
    requires Answered(row)
  {
    Message("assistant_" + row.id, Assistant, row.response.value, Stored(row.timestamp))
  }

  /** What the `flatMap` callback returns for one row. */
  function Expand(row: Interaction): seq<Message> {
    [UserMessageOf(row)] + (if Answered(row) then [AssistantMessageOf(row)] else [])
  }

  /** `history.flatMap(...)` in `loadChatHistory`: the rows' messages, in the order the store returned
      the rows (no reordering). */
  function FormatHistory(rows: seq<Interaction>): seq<Message> {
    if rows == [] then [] else Expand(rows[0]) + FormatHistory(rows[1..])
  }

  function AnsweredCount(rows: seq<Interaction>): nat {
    if rows == [] then 0 else (if Answered(rows[0]) then 1 else 0) + AnsweredCount(rows[1..])
  }

  /** Where the messages of `rows[i]` start in `FormatHistory(rows)`. */
  function Offset(rows: seq<Interaction>, i: nat): nat
    requires i <= |rows|
  {
    i + AnsweredCount(rows[..i])
  }

  /** One message per row plus one per answered row. */
  lemma {:induction false} FormatHistoryLength(rows: seq<Interaction>)
    ensures |FormatHistory(rows)| == |rows| + AnsweredCount(rows)
  {
    if rows != [] {
      FormatHistoryLength(rows[1..]);
    }
  }

  /** The `flatMap` of a concatenation is the concatenation of the `flatMap`s. */
  lemma {:induction false} FormatHistoryAppend(a: seq<Interaction>, b: seq<Interaction>)
    ensures FormatHistory(a + b) == FormatHistory(a) + FormatHistory(b)
    ensures AnsweredCount(a + b) == AnsweredCount(a) + AnsweredCount(b)
  {
    if a == [] {
      assert a + b == b;
    } else {
      assert (a + b)[1..] == a[1..] + b;
      FormatHistoryAppend(a[1..], b);
    }
  }

  /** The display list splits around any row into what comes before it, its own messages, and what
      comes after it. */
  lemma FormatHistorySplit(rows: seq<Interaction>, i: nat)
    requires i < |rows|
    ensures FormatHistory(rows) == FormatHistory(rows[..i]) + Expand(rows[i]) + FormatHistory(rows[i + 1..])
    ensures |FormatHistory(rows[..i])| == Offset(rows, i)
    ensures Offset(rows, i + 1) == Offset(rows, i) + |Expand(rows[i])|
  {
    assert rows == rows[..i] + [rows[i]] + rows[i + 1..];
    assert FormatHistory([rows[i]]) == Expand(rows[i]);
    assert AnsweredCount([rows[i]]) == if Answered(rows[i]) then 1 else 0;
    FormatHistoryAppend(rows[..i], [rows[i]]);
    FormatHistoryAppend(rows[..i] + [rows[i]], rows[i + 1..]);
    assert rows[..i + 1] == rows[..i] + [rows[i]];
    FormatHistoryLength(rows[..i]);
  }

  /** Row `i` becomes the user message `user_<id>` at `Offset(rows, i)`, followed immediately by the
      assistant message `assistant_<id>` exactly when the row has a truthy response. */
  lemma FormatHistoryAt(rows: seq<Interaction>, i: nat)
    requires i < |rows|
    ensures Offset(rows, i) < |FormatHistory(rows)|
    ensures FormatHistory(rows)[Offset(rows, i)] == UserMessageOf(rows[i])
    ensures Answered(rows[i]) ==>
      Offset(rows, i) + 1 < |FormatHistory(rows)| &&
      FormatHistory(rows)[Offset(rows, i) + 1] == AssistantMessageOf(rows[i])
    ensures (Offset(rows, i) + 1 < |FormatHistory(rows)| &&
             FormatHistory(rows)[Offset(rows, i) + 1].role == Assistant) <==> Answered(rows[i])
  {
    FormatHistorySplit(rows, i);
    var h := FormatHistory(rows);
    var before := FormatHistory(rows[..i]);
    var after := FormatHistory(rows[i + 1..]);
    assert h[Offset(rows, i)] == Expand(rows[i])[0];
    if !Answered(rows[i]) && Offset(rows, i) + 1 < |h| {
      assert after != [];
      assert h[Offset(rows, i) + 1] == after[0];
      assert rows[i + 1..][1..] == rows[i + 2..];
    }
  }

  /** Rows keep their relative order: a later row's messages come after an earlier row's. */
  lemma {:induction false} OffsetIncreasing(rows: seq<Interaction>, i: nat, j: nat)
    requires i < j <= |rows|
    ensures Offset(rows, i) < Offset(rows, j)
    decreases j - i
  {
    FormatHistorySplit(rows, i);
    if i + 1 < j {
      OffsetIncreasing(rows, i + 1, j);
    }
  }

  /** The store answers newest first and the list keeps that order: for rows C, B, A (newest first,
      A unanswered) the widget shows C's messages first and A's user message last. */
  lemma NewestFirstStaysNewestFirst()
    ensures
      var a := Interaction("1", "s", "msgA", None, "t1");
      var b := Interaction("2", "s", "msgB", Some("respB"), "t2");
      var c := Interaction("3", "s", "msgC", Some("respC"), "t3");
      FormatHistory([c, b, a]) == [UserMessageOf(c), AssistantMessageOf(c), UserMessageOf(b),
                                   AssistantMessageOf(b), UserMessageOf(a)]
  {
    var a := Interaction("1", "s", "msgA", None, "t1");
    var b := Interaction("2", "s", "msgB", Some("respB"), "t2");
    var c := Interaction("3", "s", "msgC", Some("respC"), "t3");
    assert [c, b, a][1..] == [b, a];
    assert [b, a][1..] == [a];
    assert FormatHistory([a]) == [UserMessageOf(a)];
    assert FormatHistory([b, a]) == [UserMessageOf(b), AssistantMessageOf(b), UserMessageOf(a)];
  }

  // ----- error texts -------------------------------------------------------------------------

  const GenericSendError: string := "Sorry, I encountered an error. Please try again."
  const NetworkSendError: string := "Network error. Please check your connection and try again."
  const UnavailableSendError: string := "AI service temporarily unavailable. Please try again shortly."
  const TimeoutSendError: string := "Request timed out. Please try again."
  const RateLimitSendError: string := "Too many requests. Please wait a moment and try again."

  /** The `catch` of `sendMessage` as a table, tried top to bottom. */
  const SendErrorRules: seq<Rule> := [
    Rule(["network", "fetch", "Failed to fetch"], NetworkSendError),
    Rule(["API", "response", "status"], UnavailableSendError),
    Rule(["timeout", "aborted"], TimeoutSendError),
    Rule(["rate limit", "429"], RateLimitSendError)
  ]

  /** The text `sendMessage` shows for a caught error, given `error.message` (or `String(error)`). */
  function SendErrorText(errorText: string): string {
    if Contains(errorText, "network") || Contains(errorText, "fetch") || Contains(errorText, "Failed to fetch") then
      NetworkSendError
    else if Contains(errorText, "API") || Contains(errorText, "response") || Contains(errorText, "status") then
      UnavailableSendError
    else if Contains(errorText, "timeout") || Contains(errorText, "aborted") then
      TimeoutSendError
    else if Contains(errorText, "rate limit") || Contains(errorText, "429") then
      RateLimitSendError
    else
      GenericSendError
  }

  /** The if/else-if chain answers with the first rule of the table whose keywords occur, and with the
      generic text when none does. */
  lemma SendErrorTextIsFirstMatch(errorText: string)
    ensures SendErrorText(errorText) == FirstMatch(SendErrorRules, errorText, GenericSendError)
  {
    var e := errorText;
    ContainsAnyOfThree(e, "network", "fetch", "Failed to fetch");
    ContainsAnyOfThree(e, "API", "response", "status");
    ContainsAnyOfTwo(e, "timeout", "aborted");
    ContainsAnyOfTwo(e, "rate limit", "429");
    var rules := SendErrorRules;
    assert rules[0].needles == ["network", "fetch", "Failed to fetch"] && rules[0].text == NetworkSendError;
    assert rules[1].needles == ["API", "response", "status"] && rules[1].text == UnavailableSendError;
    assert rules[2].needles == ["timeout", "aborted"] && rules[2].text == TimeoutSendError;
    assert rules[3].needles == ["rate limit", "429"] && rules[3].text == RateLimitSendError;
    var k := FirstRule(rules, e);
    assert k.Some? ==> k.value == 0 || k.value == 1 || k.value == 2 || k.value == 3;
  }

  /** An error that mentions a status code still reads as "service unavailable" when it also mentions
      `API`: the second rule is tried before the rate-limit rule. */
  lemma ApiErrorBeatsRateLimit()
    ensures SendErrorText("API call failed: 429") == UnavailableSendError
  {
    var e := "API call failed: 429";
    assert 'w' !in e && 'h' !in e;
    if Contains(e, "network") { ContainsOnlyItsChars(e, "network", 'w'); }
    if Contains(e, "fetch") { ContainsOnlyItsChars(e, "fetch", 'h'); }
    if Contains(e, "Failed to fetch") { ContainsOnlyItsChars(e, "Failed to fetch", 'h'); }
    assert e[0] == 'A' && e[1] == 'P' && e[2] == 'I';
    assert e[..3] == "API";
    ContainsPrefix(e, "API");
  }

  const ApiKeyNotice: string := "\U{274C} API Key Error: Please check your DeepSeek API key configuration."
  const RateLimitNotice: string := "\U{23F1}\U{FE0F} Rate Limit: Too many requests. Please wait a moment and try again."
  const NetworkNotice: string := "\U{1F310} Network Error: Please check your internet connection and try again."
  const ServerNotice: string := "\U{1F6E0}\U{FE0F} Server Error: The AI service is temporarily unavailable. Please try again later."
  const GenericNotice: string := "\U{1F916} AI Service Error: Something went wrong. Please try again or contact support if the issue persists."

  /** The `catch` of the widget's own `getAIResponse` as a table, tried top to bottom. */
  const ServiceErrorRules: seq<Rule> := [
    Rule(["Authentication failed"], ApiKeyNotice),
    Rule(["Rate limit"], RateLimitNotice),
    Rule(["Network", "fetch"], NetworkNotice),
    Rule(["Server error"], ServerNotice)
  ]

  /** The reply text the widget's `getAIResponse` substitutes for a thrown value; only an `Error`
      instance's message is inspected. */
  function ServiceErrorText(t: Thrown): string {
    match t
    case OtherValue(_) => GenericNotice
    case ErrorObject(m) =>
      if Contains(m, "Authentication failed") then ApiKeyNotice
      else if Contains(m, "Rate limit") then RateLimitNotice
      else if Contains(m, "Network") || Contains(m, "fetch") then NetworkNotice
      else if Contains(m, "Server error") then ServerNotice
      else GenericNotice
  }

  /** An `Error` is answered by the first rule of the table its message matches, anything else by the
      generic notice. */
  lemma ServiceErrorTextIsFirstMatch(t: Thrown)
    ensures ServiceErrorText(t) ==
      if t.ErrorObject? then FirstMatch(ServiceErrorRules, t.message, GenericNotice) else GenericNotice
  {
    var m := ThrownText(t);
    ContainsAnyOfOne(m, "Authentication failed");
    ContainsAnyOfOne(m, "Rate limit");
    ContainsAnyOfTwo(m, "Network", "fetch");
    ContainsAnyOfOne(m, "Server error");
    var rules := ServiceErrorRules;
    assert rules[0].needles == ["Authentication failed"] && rules[0].text == ApiKeyNotice;
    assert rules[1].needles == ["Rate limit"] && rules[1].text == RateLimitNotice;
    assert rules[2].needles == ["Network", "fetch"] && rules[2].text == NetworkNotice;
    assert rules[3].needles == ["Server error"] && rules[3].text == ServerNotice;
    var k := FirstRule(rules, m);
    assert k.Some? ==> k.value == 0 || k.value == 1 || k.value == 2 || k.value == 3;
  }

  /** The widget's `getAIResponse`: the service's reply, or a notice in its place. It never fails and
      never answers with an empty text when the service does not. */
  function LocalAIResponse(outcome: Result<string, Thrown>): (r: string)
    ensures outcome.Success? ==> r == outcome.value
    ensures outcome.Failure? ==> r == ServiceErrorText(outcome.error)
    ensures outcome.Failure? ==>
      r in {ApiKeyNotice, RateLimitNotice, NetworkNotice, ServerNotice, GenericNotice}
  {
    match outcome
    case Success(reply) => reply
    case Failure(t) => ServiceErrorText(t)
  }

  /** The widget's own `getAIResponse`: it asks the service with the fixed context summary and passes the
      reply on. `network` and `pick` are what the service's provider calls produce and its random
      canned-reply index; `sent` lists the requests the service issued, each carrying the summary as its
      context. The service never throws, so the `catch` that `LocalAIResponse` models is dead here and
      the reply is the service's own. */
  method GetAIResponse(message: string, service: AIService, network: seq<HttpOutcome>, pick: nat)
    returns (reply: string, sent: seq<Request>)
    requires |network| == |service.providers|
    requires pick < |MockResponses|
    ensures |sent| <= |service.providers|
    ensures forall i :: 0 <= i < |sent| ==> sent[i] == BuildRequest(service.providers[i], message, Some(ContextInfo()))
    ensures FirstAccepted(network).Some? ==> |sent| == FirstAccepted(network).value + 1
    ensures FirstAccepted(network).None? ==> |sent| == |service.providers|
    ensures reply != ""
    ensures FirstAccepted(network).None? ==> reply == MockResponse(pick)
    ensures FirstAccepted(network).Some? ==> Accepted(network[FirstAccepted(network).value]) == Some(reply)
  {
    reply, sent := service.GetAIResponse(message, Some(ContextInfo()), network, pick);
  }

  /** Every request the widget triggers carries the line `Context: <summary>` in its system
      instructions. */
  lemma WidgetRequestsCarryContext(p: Provider, message: string)
    ensures Contains(BuildRequest(p, message, Some(ContextInfo())).messages[0].content, ContextLabel + ContextInfo())
  {
    RequestShape(p, message, Some(ContextInfo()));
  }

  // ----- the widget's state ------------------------------------------------------------------

  /** The clock readings `sendMessage` takes, one per message it creates (each used for both the id and
      the timestamp). */
  datatype SendClock = SendClock(userAt: nat, replyAt: nat, errorAt: nat)

  /** The row `saveChatInteraction` is asked to insert. */
  datatype SaveRequest = SaveRequest(sessionId: string, message: string, response: string)

  function UserMessage(message: string, now: nat): Message {
    Message("user_" + Decimal(now), User, message, Clock(now))
  }

  function AssistantMessage(reply: string, now: nat): Message {
    Message("assistant_" + Decimal(now), Assistant, reply, Clock(now))
  }

  function ErrorMessage(error: Thrown, now: nat): Message {
    Message("error_" + Decimal(now), Assistant, SendErrorText(ThrownText(error)), Clock(now))
  }

  /** The messages one non-blank send adds: the user's message, the reply, and an error message when
      saving the interaction failed. */
  function Exchange(message: string, reply: string, saveError: Option<Thrown>, clock: SendClock): (r: seq<Message>)
    ensures |r| == if saveError.Some? then 3 else 2
    ensures r[0].role == User && r[0].content == message
    ensures r[1].role == Assistant && r[1].content == reply
    ensures saveError.Some? ==> r[2].role == Assistant && r[2].content == SendErrorText(ThrownText(saveError.value))
    ensures r[0].id != r[1].id
  {
    assert UserMessage(message, clock.userAt).id[0] == 'u';
    assert AssistantMessage(reply, clock.replyAt).id[0] == 'a';
    [UserMessage(message, clock.userAt), AssistantMessage(reply, clock.replyAt)]
      + (if saveError.Some? then [ErrorMessage(saveError.value, clock.errorAt)] else [])
  }

  /** The messages appended by the steps of one send, one after another, are one exchange. */
  lemma SendStepsMakeExchange(before: seq<Message>, message: string, reply: string, saveError: Option<Thrown>,
                              clock: SendClock)
    ensures before + [UserMessage(message, clock.userAt)] + [AssistantMessage(reply, clock.replyAt)]
              + (if saveError.Some? then [ErrorMessage(saveError.value, clock.errorAt)] else [])
            == before + Exchange(message, reply, saveError, clock)
  {
    var u, a := UserMessage(message, clock.userAt), AssistantMessage(reply, clock.replyAt);
    var err := if saveError.Some? then [ErrorMessage(saveError.value, clock.errorAt)] else [];
    assert Exchange(message, reply, saveError, clock) == [u, a] + err;
    assert before + [u] + [a] + err == before + ([u, a] + err);
  }

  /** The component's state: the message list, the input box and the loading flag. */
  class ChatState {
    var messages: seq<Message>
    var input: string
    var isLoading: bool
    const sessionId: string

    constructor (sessionId: string)
      ensures this.sessionId == sessionId
      ensures messages == [] && input == "" && !isLoading
    {
      this.sessionId := sessionId;
      messages, input, isLoading := [], "", false;
    }

    /** `loadChatHistory`: a successful load replaces the list with the reconstructed history; a failed
        one leaves it as it was. */
    method LoadChatHistory(history: Result<seq<Interaction>, Thrown>)
      modifies this
      ensures history.Success? ==> messages == FormatHistory(history.value)
      ensures history.Failure? ==> messages == old(messages)
      ensures input == old(input) && isLoading == old(isLoading)
    {
      if history.Success? {
        messages := FormatHistory(history.value);
      }
    }

    /** `sendMessage` up to its `await`: a blank message is ignored; otherwise the untrimmed message is
        appended as a user message, the input box is cleared and the loading flag is raised. */
    method BeginSend(message: string, now: nat) returns (started: bool)
      modifies this
      ensures started <==> !AllWhitespace(message)
      ensures !started ==> messages == old(messages) && input == old(input) && isLoading == old(isLoading)
      ensures started ==> messages == old(messages) + [UserMessage(message, now)] && input == "" && isLoading
    {
      TrimEmptyIffBlank(message);
      if Trim(message) == "" {
        return false;
      }
      messages := messages + [UserMessage(message, now)];
      input := "";
      isLoading := true;
      started := true;
    }

    /** `sendMessage` after the reply arrived: the reply is appended; a failed save appends one more
        message carrying the mapped error text; the loading flag is lowered in every case. */
    method FinishSend(reply: string, saveError: Option<Thrown>, clock: SendClock)
      modifies this
      ensures messages == old(messages) + [AssistantMessage(reply, clock.replyAt)]
        + (if saveError.Some? then [ErrorMessage(saveError.value, clock.errorAt)] else [])
      ensures input == old(input) && !isLoading
    {
      messages := messages + [AssistantMessage(reply, clock.replyAt)];
      if saveError.Some? {
        messages := messages + [ErrorMessage(saveError.value, clock.errorAt)];
      }
      isLoading := false;
    }

    /** `sendMessage`. The service is asked with the fixed context summary; `network` and `pick` are what
        its provider calls produce and its random canned-reply index, `saveError` what storing the
        interaction throws, if anything. A blank message changes nothing. Otherwise the list grows by the
        user message, the reply (which is never empty), and, when the save fails, an error message. */
    method SendMessage(message: string, service: AIService, network: seq<HttpOutcome>, pick: nat,
                       saveError: Option<Thrown>, clock: SendClock)
      returns (reply: string, saved: Option<SaveRequest>)
      requires |network| == |service.providers|
      requires pick < |MockResponses|
      modifies this
      ensures AllWhitespace(message) ==>
        messages == old(messages) && input == old(input) && isLoading == old(isLoading) && saved == None
      ensures !AllWhitespace(message) ==>
        && messages == old(messages) + Exchange(message, reply, saveError, clock)
        && reply != ""
        && (FirstAccepted(network).None? ==> reply == MockResponse(pick))
        && (FirstAccepted(network).Some? ==> Accepted(network[FirstAccepted(network).value]) == Some(reply))
        && saved == Some(SaveRequest(sessionId, message, reply))
        && input == ""
        && !isLoading
    {
      ghost var before := messages;
      var started := BeginSend(message, clock.userAt);
      if !started {
        return "", None;
      }
      var requests;
      reply, requests := GetAIResponse(message, service, network, pick);
      saved := Some(SaveRequest(sessionId, message, reply));
      FinishSend(reply, saveError, clock);
      SendStepsMakeExchange(before, message, reply, saveError, clock);
    }
  }
}
