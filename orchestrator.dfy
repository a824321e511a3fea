/** app/orchestrator/main.py: the request-facing service. `/predict`
    forwards a message to the classifier service and `/get_message` forwards
    the last user text to the language-model service; each maps what the
    downstream call did to a typed response or to an HTTP error status.

    A downstream call is an outcome: the connection failed (any
    `requests.RequestException`), or a response arrived with a status code
    and a body. `response.json()` on a body that is not JSON raises
    `requests.JSONDecodeError`, which is itself a `RequestException`
    (requests 2.27 and later), so both handlers report it as 503. */
module Orchestrator {
  import opened Wrappers
  import opened Models

  /** Why a handler failed, as its `detail` text says. */
  datatype Failure =
    | Unreachable    // "Unable to connect to ... service"
    | UpstreamError  // "LLM service error: ..."
    | Internal       // "Internal error: ..."
    | BadFormat      // "Invalid LLM response format: ..."
    | Unhandled      // an exception no handler catches: the framework's own 500

  datatype HttpError = HttpError(status: int, failure: Failure)

  // ---------------------------------------------------------------- /predict

  /** The JSON body sent to the classifier: `msg.model_dump()` with `id` and
      `dialog_id` replaced by their strings. */
  datatype ForwardedMessage = ForwardedMessage(
    id: string,
    dialogId: string,
    participantIndex: int,
    text: string)

  function ForwardPayload(msg: IncomingMessage): (m: ForwardedMessage)
    ensures m.id == UuidStr(msg.id) && m.dialogId == UuidStr(msg.dialogId)
    ensures m.participantIndex == msg.participantIndex && m.text == msg.text
  {
    ForwardedMessage(UuidStr(msg.id), UuidStr(msg.dialogId), msg.participantIndex, msg.text)
  }

  /** The classifier's body, as far as `Prediction(**response.json())` is
      concerned: not JSON, JSON that does not validate as a `Prediction`, or
      a `Prediction`. */
  datatype PredictionBody = NotJson | NotAPrediction | APrediction(prediction: Prediction)

  datatype ClassifierCall = ClassifierUnreachable | ClassifierResponded(status: int, body: PredictionBody)

  /** `/predict` (`predict`). The `HTTPException` raised for a non-200
      status is raised inside the `try` and caught again by the generic
      `except Exception`, so the caller sees 500, not the classifier's
      status. */
  function Predict(call: ClassifierCall): (r: Result<Prediction, HttpError>)
    ensures r.Ok? ==> call.ClassifierResponded? && call.status == 200 && call.body == APrediction(r.value)
    ensures r.Err? ==> r.error.status in {500, 503}
    ensures r.Err? && r.error.status == 503 ==> r.error.failure == Unreachable
  {
    match call
    case ClassifierUnreachable => Err(HttpError(503, Unreachable))
    case ClassifierResponded(status, body) =>
      if status != 200 then Err(HttpError(500, Internal))
      else
        match body
        case NotJson => Err(HttpError(503, Unreachable))
        case NotAPrediction => Err(HttpError(500, Internal))
        case APrediction(p) => Ok(p)
  }

  /** `/predict` succeeds exactly when the classifier answered 200 with a
      valid `Prediction`, and then returns it unchanged; every failure is
      503 or 500. */
  lemma PredictOutcomes(call: ClassifierCall)
    ensures Predict(call).Ok? <==> call.ClassifierResponded? && call.status == 200 && call.body.APrediction?
    ensures Predict(call).Ok? ==> Predict(call).value == call.body.prediction
    ensures Predict(call).Err? ==> Predict(call).error.status in {500, 503}
    ensures Predict(call).Err? && Predict(call).error.status == 503 <==>
      call.ClassifierUnreachable? || (call.status == 200 && call.body.NotJson?)
  {
  }

  // ------------------------------------------------------------ /get_message

  /** A JSON value as `response.json()` gives it. */
  datatype Json =
    | JNull
    | JBool(b: bool)
    | JNumber(n: real)
    | JString(s: string)
    | JArray(items: seq<Json>)
    | JObject(fields: map<string, Json>)

  /** The result of one subscript `v[k]` in Python: a value, a `KeyError`
      or `IndexError` (the handler catches these), or a `TypeError` (it does
      not). */
  datatype Lookup = Found(value: Json) | Missing | WrongType

  /** `v[key]` for a string key. */
  function Field(v: Json, key: string): Lookup
  {
    match v
    case JObject(fields) => if key in fields then Found(fields[key]) else Missing
    case _ => WrongType
  }

  /** `v[i]` for an integer index: a list or a string is indexed, a dict
      has no integer keys, anything else cannot be subscripted. */
  function Item(v: Json, i: nat): Lookup
  {
    match v
    case JArray(items) => if i < |items| then Found(items[i]) else Missing
    case JString(s) => if i < |s| then Found(JString([s[i]])) else Missing
    case JObject(_) => Missing
    case _ => WrongType
  }

  function AndThen(l: Lookup, next: Json -> Lookup): Lookup
  {
    match l
    case Found(v) => next(v)
    case Missing => Missing
    case WrongType => WrongType
  }

  /** `llm_response["choices"][0]["message"]["content"]`. */
  function ReplyContent(body: Json): Lookup
  {
    AndThen(Field(body, "choices"), choices =>
      AndThen(Item(choices, 0), choice =>
        AndThen(Field(choice, "message"), message =>
          Field(message, "content"))))
  }

  /** The chat-completion body a conforming language model returns. */
  function Completion(text: string): Json
  {
    JObject(map["choices" := JArray([JObject(map["message" := JObject(map["content" := JString(text)])])])])
  }

  /** Reading the reply back out of a conforming body gives its text. */
  lemma ReplyContentOfCompletion(text: string)
    ensures ReplyContent(Completion(text)) == Found(JString(text))
  {
    var message := JObject(map["content" := JString(text)]);
    var choice := JObject(map["message" := message]);
    assert Field(Completion(text), "choices") == Found(JArray([choice]));
    assert Item(JArray([choice]), 0) == Found(choice);
    assert Field(choice, "message") == Found(message);
  }

  datatype ChatMessage = ChatMessage(role: string, content: string)
  datatype LlmRequest = LlmRequest(model: string, messages: seq<ChatMessage>)

  /** The request `get_message` sends to the language model. */
  function LlmRequestFor(body: GetMessageRequest): (r: LlmRequest)
    ensures r.model == "llama.cpp"
    ensures |r.messages| == 1
    ensures r.messages[0] == ChatMessage("user", body.lastMsgText)
  {
    LlmRequest("llama.cpp", [ChatMessage("user", body.lastMsgText)])
  }

  datatype LlmBody = LlmNotJson | LlmJson(value: Json)

  datatype LlmCall = LlmUnreachable | LlmResponded(status: int, body: LlmBody)

  /** `/get_message` (`get_message`). Here the `HTTPException` for a non-200
      status is not caught again (only `RequestException`, `KeyError` and
      `IndexError` are), so the caller sees the model's own status. A
      `TypeError` while reading the body, or content that is not a string
      (the response model rejects it), escapes both handlers and the
      framework answers 500. */
  function GetMessage(body: GetMessageRequest, call: LlmCall): (r: Result<GetMessageResponse, HttpError>)
    ensures r.Ok? ==>
              r.value.dialogId == body.dialogId
              && call.LlmResponded? && call.status == 200 && call.body.LlmJson?
              && ReplyContent(call.body.value) == Found(JString(r.value.newMsgText))
    ensures r.Err? && r.error.failure == UpstreamError ==>
      call.LlmResponded? && call.status != 200 && r.error.status == call.status
    ensures r.Err? && r.error.failure != UpstreamError ==> r.error.status in {500, 503}
  {
    match call
    case LlmUnreachable => Err(HttpError(503, Unreachable))
    case LlmResponded(status, llmBody) =>
      if status != 200 then Err(HttpError(status, UpstreamError))
      else
        match llmBody
        case LlmNotJson => Err(HttpError(503, Unreachable))
        case LlmJson(json) =>
          match ReplyContent(json)
          case Missing => Err(HttpError(500, BadFormat))
          case WrongType => Err(HttpError(500, Unhandled))
          case Found(JString(text)) => Ok(GetMessageResponse(text, body.dialogId))
          case Found(_) => Err(HttpError(500, Unhandled))
  }

  /** `/get_message` succeeds exactly when the model answered 200 with JSON
      whose `choices[0].message.content` is a string; the reply is that
      string verbatim and the dialog id is the request's. */
  lemma GetMessageOutcomes(body: GetMessageRequest, call: LlmCall)
    ensures GetMessage(body, call).Ok? <==>
      call.LlmResponded? && call.status == 200 && call.body.LlmJson?
      && ReplyContent(call.body.value).Found? && ReplyContent(call.body.value).value.JString?
    ensures GetMessage(body, call).Ok? ==>
      GetMessage(body, call).value == GetMessageResponse(ReplyContent(call.body.value).value.s, body.dialogId)
    ensures call.LlmUnreachable? ==> GetMessage(body, call) == Err(HttpError(503, Unreachable))
    ensures (call.LlmResponded? && call.status == 200 && call.body.LlmJson? && ReplyContent(call.body.value).Missing?)
            ==> GetMessage(body, call) == Err(HttpError(500, BadFormat))
    ensures (call.LlmResponded? && call.status == 200 && call.body.LlmNotJson?)
            ==> GetMessage(body, call) == Err(HttpError(503, Unreachable))
    ensures (call.LlmResponded? && call.status == 200 && call.body.LlmJson?
             && (ReplyContent(call.body.value).WrongType?
                 || (ReplyContent(call.body.value).Found? && !ReplyContent(call.body.value).value.JString?)))
            ==> GetMessage(body, call) == Err(HttpError(500, Unhandled))
  {
  }

  /** A conforming reply is passed through verbatim, with the request's
      dialog id. */
  lemma GetMessageReturnsReply(body: GetMessageRequest, text: string)
    ensures GetMessage(body, LlmResponded(200, LlmJson(Completion(text))))
         == Ok(GetMessageResponse(text, body.dialogId))
  {
    ReplyContentOfCompletion(text);
  }

  /** An empty `choices` list, or a body without `choices`, is a format
      error: 500. */
  lemma MissingChoiceIsBadFormat(body: GetMessageRequest, fields: map<string, Json>)
    requires "choices" !in fields
    ensures GetMessage(body, LlmResponded(200, LlmJson(JObject(map["choices" := JArray([])]))))
         == Err(HttpError(500, BadFormat))
    ensures GetMessage(body, LlmResponded(200, LlmJson(JObject(fields))))
         == Err(HttpError(500, BadFormat))
  {
  }

  /** The two handlers treat an error status from downstream differently:
      `/predict` turns every non-200 status into 500, `/get_message` passes
      the status through. */
  lemma NonOkStatusDiffers(status: int, pbody: PredictionBody, msg: GetMessageRequest, lbody: LlmBody)
    requires status != 200
    ensures Predict(ClassifierResponded(status, pbody)) == Err(HttpError(500, Internal))
    ensures GetMessage(msg, LlmResponded(status, lbody)) == Err(HttpError(status, UpstreamError))
  {
  }
}
