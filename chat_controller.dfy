/**
  The `POST /chat` handler: it validates the request body, hands the
  turn to the agent service and maps the outcome to 200, 400 or 500.
 */
module ChatApi {
  import opened Values
  import opened AgentService

  datatype Body = ResultBody(result: ChatResult) | ErrorBody(error: string)

  datatype HttpResponse = HttpResponse(status: int, body: Body)

  const MessageRequired: string := "Message is required and must be a string"
  const ChatFailed: string := "Failed to process chat request"

  /** `!message || typeof message !== 'string'` turned around. */
  predicate ValidMessage(message: Value) {
    Truthy(message) && message.Str?
  }

  /**
    `ChatController.chat` over the request body. Destructuring a `null` or
    `undefined` body throws inside the `try`, so it ends in a 500 too.
   */
  method Chat(service: Service, body: Value, render: Renderer, prettyJson: Value -> string,
              stamp: nat -> string, random: nat -> string)
    returns (res: HttpResponse)
    ensures res.status == 200 || res.status == 400 || res.status == 500
    ensures res.status == 400 <==> !Nullish(body) && !ValidMessage(Prop(body, "message"))
    ensures res.status == 400 ==> res.body == ErrorBody(MessageRequired)
    ensures res.status == 500 ==> res.body == ErrorBody(ChatFailed)
    ensures !Nullish(body) && ValidMessage(Prop(body, "message")) ==>
              var outcome := ChatOutcome(service, Prop(body, "message").s,
                                         Default(Prop(body, "chatHistory"), Arr([])),
                                         Default(Prop(body, "context"), EmptyObject),
                                         render, prettyJson, stamp, random);
              && (res.status == 200 <==> outcome.Ok?)
              && (outcome.Ok? ==> res.body == ResultBody(outcome.value))
  {
    if Nullish(body) {
      return HttpResponse(500, ErrorBody(ChatFailed));
    }
    var message := Prop(body, "message");
    var chatHistory := Default(Prop(body, "chatHistory"), Arr([]));
    var context := Default(Prop(body, "context"), EmptyObject);
    if !Truthy(message) || !message.Str? {
      return HttpResponse(400, ErrorBody(MessageRequired));
    }
    var result := ProcessChat(service, message.s, chatHistory, context, render, prettyJson, stamp, random);
    match result
    case Ok(r) =>
      res := HttpResponse(200, ResultBody(r));
    case Err(_) =>
      res := HttpResponse(500, ErrorBody(ChatFailed));
  }
}
