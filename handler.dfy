/**
 * The serverless `handler` of api/chat.js: method check, one call to the
 * chat-completion endpoint, classification of the reply, two inserts into the
 * `logs` table (user turn, then assistant turn) and the JSON response.
 *
 * The network is not modelled: each outbound request is recorded as a `Call`
 * and its outcome is an input (`Outcomes`). `Run` is the specification of one
 * request; `Handle` performs it step by step on an `Outbox` and a
 * `ServerResponse`.
 */
module Handler {
  import opened Wrappers
  import opened Text
  import opened Json
  import opened Classification

  const BotName: string := "Noah"
  const Model: string := "gpt-5-nano"
  const NoResponse: string := "[No response]"
  const UnknownMessage: string := "unknown"
  const MethodNotAllowed: string := "Method not allowed"
  const SomethingWentWrong: string := "Something went wrong"

  datatype Role = User | Assistant

  /** One row inserted into the `logs` table; `None` is JSON `null` (or, for `convoId`, an absent `convo_id`). */
  datatype TurnLog = TurnLog(
    convoId: Option<Json>,
    turn: nat,
    role: Role,
    message: Json,
    botName: string,
    leverage: Option<Json>,
    obj: Option<Json>)

  /** An outbound request: the completion call (with the request's `messages`, absent if the body had none) or a log insert. */
  datatype Call =
    | CompletionRequest(model: string, messages: Option<seq<Json>>)
    | LogInsert(row: TurnLog)

  datatype Body =
    | ErrorBody(error: string)
    | ReplyBody(reply: Json, leverage: Option<Json>, obj: Option<Json>)

  datatype Response = Response(status: int, body: Body)

  /** The parts of the incoming request the handler reads: `req.httpMethod` and `req.body.{messages, convo_id}`. */
  datatype Request = Request(httpMethod: string, messages: Option<seq<Json>>, convoId: Option<Json>)

  /** How the completion call ended: `fetch` rejected, `.json()` rejected, or the decoded body (whatever the HTTP status). */
  datatype CompletionOutcome = FetchRejected | BodyNotJson | BodyParsed(data: Json)

  /** The outcomes of the three outbound requests; a log insert is `false` when its `fetch` rejects. */
  datatype Outcomes = Outcomes(completion: CompletionOutcome, userLogResolved: bool, assistantLogResolved: bool)

  /** What one request does: the outbound requests in the order they are issued, and the response. */
  datatype Trace = Trace(calls: seq<Call>, response: Response)

  /** The reply and classification fields the rest of the handler uses. */
  datatype Extracted = Extracted(reply: Json, leverage: Option<Json>, obj: Option<Json>)

  const NotAllowed: Response := Response(405, ErrorBody(MethodNotAllowed))
  const Failed: Response := Response(500, ErrorBody(SomethingWentWrong))

  /** A choice of the form `{"message": {"content": ...}}`, possibly with more members. */
  predicate CarriesContent(choice: Json)
  {
    choice.JObject? && "message" in choice.fields
    && choice.fields["message"].JObject? && "content" in choice.fields["message"].fields
  }

  /**
   * `data.choices?.[0]?.message?.content`, on a body that is not `null`;
   * `None` is `undefined`. The first choice is the first element of an array
   * `choices`, or the member "0" of an object `choices`; a string's first
   * character has no `message`.
   */
  function Content(data: Json): (r: Option<Json>)
    requires !data.JNull?
    ensures !(data.JObject? && "choices" in data.fields) ==> r.None?
    ensures data.JObject? && "choices" in data.fields && data.fields["choices"].JArray? ==>
              var items := data.fields["choices"].items;
              r == if items != [] && CarriesContent(items[0])
                   then Some(items[0].fields["message"].fields["content"]) else None
    ensures data.JObject? && "choices" in data.fields && data.fields["choices"].JObject? ==>
              var choices := data.fields["choices"].fields;
              r == if "0" in choices && CarriesContent(choices["0"])
                   then Some(choices["0"].fields["message"].fields["content"]) else None
    ensures data.JObject? && "choices" in data.fields ==>
              !data.fields["choices"].JArray? && !data.fields["choices"].JObject? ==> r.None?
  {
    OptionalMember(OptionalMember(OptionalFirst(Member(data, "choices")), "message"), "content")
  }

  /** `fullReply`: the content if truthy, otherwise "[No response]". */
  function FullReply(data: Json): (r: Json)
    requires !data.JNull?
    ensures Truthy(r)
    ensures r == JString(NoResponse) || Content(data) == Some(r)
    ensures Content(data).Some? && Truthy(Content(data).value) ==> r == Content(data).value
    ensures Content(data).None? || !Truthy(Content(data).value) ==> r == JString(NoResponse)
  {
    var content := Content(data);
    if content.Some? && Truthy(content.value) then content.value else JString(NoResponse)
  }

  /**
   * `extractClassification(fullReply)` for whatever value `fullReply` is.
   * A string is classified. An array has its own `indexOf`: without the
   * marker string among its elements the array itself comes back as the
   * reply; with it, `substring` is missing and the call throws. Any other
   * value has no `indexOf` and the call throws. `None` means it threw.
   */
  function ExtractFrom(fullReply: Json, parse: Parser): (r: Option<Extracted>)
    ensures fullReply.JString? ==> r.Some? && r.value.reply.JString?
                                   && !Contains(r.value.reply.s, Marker)
    ensures fullReply.JString? ==>
              var c := ExtractClassification(fullReply.s, parse);
              r == Some(Extracted(JString(c.cleanReply), c.leverage, c.obj))
    ensures fullReply.JArray? ==> (r.Some? <==> JString(Marker) !in fullReply.items)
    ensures r.Some? ==> fullReply.JString? || fullReply.JArray?
    ensures r.Some? && fullReply.JArray? ==> r.value == Extracted(fullReply, None, None)
                                             && JString(Marker) !in fullReply.items
  {
    match fullReply
    case JString(s) =>
      var c := ExtractClassification(s, parse);
      Some(Extracted(JString(c.cleanReply), c.leverage, c.obj))
    case JArray(items) =>
      if JString(Marker) in items then None else Some(Extracted(fullReply, None, None))
    case _ => None
  }

  /** `messages.at(-1)?.content || "unknown"`. */
  function UserMessage(messages: seq<Json>): (m: Json)
    ensures Truthy(m)
    ensures messages == [] ==> m == JString(UnknownMessage)
    ensures m == JString(UnknownMessage) || (messages != [] && OptionalMember(Some(messages[|messages| - 1]), "content") == Some(m))
  {
    var content := if messages == [] then None else OptionalMember(Some(messages[|messages| - 1]), "content");
    if content.Some? && Truthy(content.value) then content.value else JString(UnknownMessage)
  }

  /** A last message that is an object with truthy `content` gives that content. */
  lemma UserMessageIsLastContent(messages: seq<Json>)
    requires messages != [] && messages[|messages| - 1].JObject?
    requires "content" in messages[|messages| - 1].fields
    requires Truthy(messages[|messages| - 1].fields["content"])
    ensures UserMessage(messages) == messages[|messages| - 1].fields["content"]
  {
  }

  /**
   * The row written for the user's turn: `logMessage("user", userMessage, turn)`,
   * so `leverage` and `object` take their `null` defaults.
   */
  function UserRow(convoId: Option<Json>, messages: seq<Json>): (row: TurnLog)
    ensures row.turn == |messages| && row.role == User && row.botName == BotName
    ensures row.convoId == convoId && row.leverage.None? && row.obj.None?
    ensures Truthy(row.message)
    ensures row.message == JString(UnknownMessage)
            || (messages != [] && OptionalMember(Some(messages[|messages| - 1]), "content") == Some(row.message))
  {
    TurnLog(convoId, |messages|, User, UserMessage(messages), BotName, None, None)
  }

  /** The row written for the assistant's turn, one turn after the user's, carrying the classification. */
  function AssistantRow(convoId: Option<Json>, messages: seq<Json>, e: Extracted): (row: TurnLog)
    ensures row.turn == UserRow(convoId, messages).turn + 1 && row.role == Assistant
    ensures row.convoId == convoId && row.botName == BotName
    ensures row.message == e.reply && row.leverage == e.leverage && row.obj == e.obj
  {
    TurnLog(convoId, |messages| + 1, Assistant, e.reply, BotName, e.leverage, e.obj)
  }

  /** The whole request: what is sent, in order, and what is answered. */
  function Run(req: Request, outcomes: Outcomes, parse: Parser): (t: Trace)
    // the caller only ever sees 405, 200 or 500
    ensures t.response == NotAllowed || t.response == Failed || t.response.status == 200
    // non-POST: 405 and nothing sent, whatever the body
    ensures req.httpMethod != "POST" <==> t.response == NotAllowed
    ensures req.httpMethod != "POST" ==> t.calls == []
    // on POST the completion request goes out first, with the request's messages
    ensures req.httpMethod == "POST" ==> 1 <= |t.calls| <= 3 && t.calls[0] == CompletionRequest(Model, req.messages)
    // a failed completion call or an undecodable body: 500 and no log write
    ensures req.httpMethod == "POST" && !outcomes.completion.BodyParsed? ==> t.calls == [t.calls[0]] && t.response == Failed
    // every later call is a log insert: user turn at N first, assistant turn at N + 1 second
    ensures forall k :: 1 <= k < |t.calls| ==>
      req.messages.Some? && t.calls[k].LogInsert?
      && t.calls[k].row.turn == |req.messages.value| + k - 1
      && t.calls[k].row.role == (if k == 1 then User else Assistant)
      && t.calls[k].row.botName == BotName && t.calls[k].row.convoId == req.convoId
    ensures |t.calls| >= 2 ==> t.calls[1].row == UserRow(req.convoId, req.messages.value)
    // nothing is written after a write that failed
    ensures |t.calls| == 3 ==> outcomes.userLogResolved
    // a body without a usable reply (null data, no `messages`, a reply `extractClassification` throws on): 500 after the completion call
    ensures req.httpMethod == "POST" && outcomes.completion.BodyParsed?
            && (outcomes.completion.data.JNull? || req.messages.None?
                || ExtractFrom(FullReply(outcomes.completion.data), parse).None?) ==>
              t == Trace([CompletionRequest(Model, req.messages)], Failed)
    // a usable reply: the user row at N is sent; once it resolves the assistant row at N + 1 is sent;
    // 200 with the classified reply exactly when both inserts resolve
    ensures req.httpMethod == "POST" && outcomes.completion.BodyParsed?
            && !outcomes.completion.data.JNull? && req.messages.Some?
            && ExtractFrom(FullReply(outcomes.completion.data), parse).Some? ==>
              var e := ExtractFrom(FullReply(outcomes.completion.data), parse).value;
              var ask := CompletionRequest(Model, req.messages);
              var logUser := LogInsert(UserRow(req.convoId, req.messages.value));
              var logAssistant := LogInsert(AssistantRow(req.convoId, req.messages.value, e));
              (!outcomes.userLogResolved ==> t == Trace([ask, logUser], Failed))
              && (outcomes.userLogResolved ==> t.calls == [ask, logUser, logAssistant])
              && (t.response.status == 200 <==> outcomes.userLogResolved && outcomes.assistantLogResolved)
              && (outcomes.userLogResolved && outcomes.assistantLogResolved ==>
                    t.response == Response(200, ReplyBody(e.reply, e.leverage, e.obj)))
    // success: all three calls went out and resolved, and the body repeats the assistant row
    ensures t.response.status == 200 ==>
      |t.calls| == 3 && outcomes.completion.BodyParsed? && outcomes.userLogResolved && outcomes.assistantLogResolved
      && t.response.body == ReplyBody(t.calls[2].row.message, t.calls[2].row.leverage, t.calls[2].row.obj)
  {
    if req.httpMethod != "POST" then Trace([], NotAllowed)
    else
      var ask := CompletionRequest(Model, req.messages);
      match outcomes.completion
      case FetchRejected => Trace([ask], Failed)
      case BodyNotJson => Trace([ask], Failed)
      case BodyParsed(data) =>
        if data.JNull? || req.messages.None? then Trace([ask], Failed)
        else
          match ExtractFrom(FullReply(data), parse)
          case None => Trace([ask], Failed)
          case Some(e) =>
            var messages := req.messages.value;
            var logUser := LogInsert(UserRow(req.convoId, messages));
            var logAssistant := LogInsert(AssistantRow(req.convoId, messages, e));
            if !outcomes.userLogResolved then Trace([ask, logUser], Failed)
            else if !outcomes.assistantLogResolved then Trace([ask, logUser, logAssistant], Failed)
            else Trace([ask, logUser, logAssistant], Response(200, ReplyBody(e.reply, e.leverage, e.obj)))
  }

  /**
   * When the completion content is a string `s`, a successful request logs
   * and returns `extractClassification(s)`: the clean reply, free of the
   * marker, and the extracted fields.
   */
  lemma SuccessCarriesClassification(req: Request, outcomes: Outcomes, parse: Parser, s: string)
    requires outcomes.completion.BodyParsed? && !outcomes.completion.data.JNull?
    requires FullReply(outcomes.completion.data) == JString(s)
    requires Run(req, outcomes, parse).response.status == 200
    ensures var c := ExtractClassification(s, parse);
      var t := Run(req, outcomes, parse);
      t.calls[2].row.message == JString(c.cleanReply)
      && t.response.body == ReplyBody(JString(c.cleanReply), c.leverage, c.obj)
      && !Contains(c.cleanReply, Marker)
  {
  }

  /** A completion body of the endpoint's usual shape, `{"choices": [{"message": {"role": "assistant", "content": ...}}]}`. */
  function CompletionBody(content: string): Json
  {
    JObject(map["choices" := JArray([JObject(map["message" := JObject(map[
      "role" := JString("assistant"), "content" := JString(content)])])])])
  }

  /** A non-empty content in a body of the usual shape is the full reply. */
  lemma CompletionBodyReply(content: string)
    requires content != ""
    ensures FullReply(CompletionBody(content)) == JString(content)
  {
    var message := JObject(map["role" := JString("assistant"), "content" := JString(content)]);
    var choice := JObject(map["message" := message]);
    assert OptionalFirst(Member(CompletionBody(content), "choices")) == Some(choice);
    assert OptionalMember(Some(choice), "message") == Some(message);
    assert Content(CompletionBody(content)) == Some(JString(content));
  }

  /**
   * A conversation `[{role: "user", content: "Hi"}]` answered by
   * "Hello![CLASSIFICATION]{"leverage":"rapport","object":"greeting"}"
   * logs "Hi" at turn 1 and "Hello!" with both fields at turn 2, and
   * answers 200 with the same reply and fields.
   */
  lemma GreetingExample(greeting: string, payload: string, convoId: Option<Json>, parse: Parser)
    requires greeting == "Hello!"
    requires payload == "{\"leverage\":\"rapport\",\"object\":\"greeting\"}"
    requires parse(payload) == Some(JObject(map["leverage" := JString("rapport"), "object" := JString("greeting")]))
    ensures
      var messages := [JObject(map["role" := JString("user"), "content" := JString("Hi")])];
      var req := Request("POST", Some(messages), convoId);
      var outcomes := Outcomes(BodyParsed(CompletionBody(greeting + Marker + payload)), true, true);
      Run(req, outcomes, parse) == Trace(
        [ CompletionRequest(Model, Some(messages)),
          LogInsert(TurnLog(convoId, 1, User, JString("Hi"), "Noah", None, None)),
          LogInsert(TurnLog(convoId, 2, Assistant, JString(greeting), "Noah",
                            Some(JString("rapport")), Some(JString("greeting")))) ],
        Response(200, ReplyBody(JString(greeting), Some(JString("rapport")), Some(JString("greeting")))))
  {
    var messages := [JObject(map["role" := JString("user"), "content" := JString("Hi")])];
    UserMessageIsLastContent(messages);
    var reply := greeting + Marker + payload;
    GreetingClassified(greeting, payload, parse);
    CompletionBodyReply(reply);
    var e := Extracted(JString(greeting), Some(JString("rapport")), Some(JString("greeting")));
    assert ExtractFrom(FullReply(CompletionBody(reply)), parse) == Some(e);
  }

  /** The outbound requests issued so far, in order. */
  class Outbox {
    var sent: seq<Call>

    constructor ()
      ensures sent == []
    {
      sent := [];
    }

    /** Issues one request (the `fetch` call). */
    method Send(c: Call)
      modifies this
      ensures sent == old(sent) + [c]
    {
      sent := sent + [c];
    }
  }

  /** The `res` object: `status(code)` sets the status, `json(body)` sends the body. */
  class ServerResponse {
    var statusCode: int
    var body: Option<Body>

    constructor ()
      ensures statusCode == 200 && body == None
    {
      statusCode := 200;
      body := None;
    }

    method Status(code: int)
      modifies this
      ensures statusCode == code && body == old(body)
    {
      statusCode := code;
    }

    method SendJson(b: Body)
      modifies this
      ensures body == Some(b) && statusCode == old(statusCode)
    {
      body := Some(b);
    }
  }

  /**
   * The `try` block of the handler: `ok` is false where it throws, in which
   * case the response is left untouched.
   */
  method Attempt(req: Request, outcomes: Outcomes, parse: Parser, outbox: Outbox, res: ServerResponse)
    returns (ok: bool)
    requires req.httpMethod == "POST"
    modifies outbox, res
    ensures outbox.sent == old(outbox.sent) + Run(req, outcomes, parse).calls
    ensures ok <==> Run(req, outcomes, parse).response.status == 200
    ensures ok ==> res.statusCode == 200 && res.body == Some(Run(req, outcomes, parse).response.body)
    ensures !ok ==> res.statusCode == old(res.statusCode) && res.body == old(res.body)
  {
    outbox.Send(CompletionRequest(Model, req.messages));
    if !outcomes.completion.BodyParsed? {
      return false;
    }
    var data := outcomes.completion.data;
    if data.JNull? {
      // `data.choices` on null throws
      return false;
    }
    var fullReply := FullReply(data);
    if req.messages.None? {
      // `messages.length` on undefined throws
      return false;
    }
    var messages := req.messages.value;
    var extracted := ExtractFrom(fullReply, parse);
    if extracted.None? {
      return false;
    }
    var e := extracted.value;
    outbox.Send(LogInsert(UserRow(req.convoId, messages)));
    if !outcomes.userLogResolved {
      return false;
    }
    outbox.Send(LogInsert(AssistantRow(req.convoId, messages, e)));
    if !outcomes.assistantLogResolved {
      return false;
    }
    res.Status(200);
    res.SendJson(ReplyBody(e.reply, e.leverage, e.obj));
    ok := true;
  }

  /** `handler(req, res)`: performs `Run` on the outbox and the response object. */
  method Handle(req: Request, outcomes: Outcomes, parse: Parser, outbox: Outbox, res: ServerResponse)
    modifies outbox, res
    ensures outbox.sent == old(outbox.sent) + Run(req, outcomes, parse).calls
    ensures res.statusCode == Run(req, outcomes, parse).response.status
    ensures res.body == Some(Run(req, outcomes, parse).response.body)
  {
    if req.httpMethod != "POST" {
      res.Status(405);
      res.SendJson(ErrorBody(MethodNotAllowed));
      return;
    }
    var ok := Attempt(req, outcomes, parse, outbox, res);
    if !ok {
      res.Status(500);
      res.SendJson(ErrorBody(SomethingWentWrong));
    }
  }
}
