/**
 * The Next.js edge route `pages/api/chat.ts`: a chain of guards (method, body,
 * message, configuration), the outbound call, and the reply extraction. Here
 * both `OPENAI_API_KEY` and `OPENAI_BASE_URL` are mandatory, and an upstream
 * error status is passed through.
 */
module ApiChat {
  import opened Wrappers
  import opened Json
  import opened Http

  const Model: string := "claude-3-7-sonnet-20250219"

  const MethodNotAllowedText: string := "Method Not Allowed"
  const MessageRequiredText: string := "Message is required"
  const ConfigErrorText: string := "Server configuration error"
  const UpstreamFailedText: string := "Failed to get response from AI service."
  const InternalErrorText: string := "An internal server error occurred."

  /** The request passes every guard and the handler makes the outbound call. */
  predicate PassesGuards(req: HttpRequest, env: Env) {
    && req.verb == "POST" && req.body.Fields?
    && Truthy(Field(req.body.fields, "message"))
    && IsSet(env.apiKey) && IsSet(env.baseUrl)
  }

  /** The part of `handler` before the outbound call. */
  function HandlerRequest(req: HttpRequest, env: Env): (s: Step)
    ensures s.Call? <==> PassesGuards(req, env)
    ensures req.verb != "POST" ==> s == Respond(Response(405, Failure(MethodNotAllowedText)))
    ensures req.verb == "POST" && req.body.Malformed? ==> s == Respond(Response(500, Failure(InternalErrorText)))
    ensures req.verb == "POST" && req.body.Fields? && !Truthy(Field(req.body.fields, "message")) ==>
              s == Respond(Response(400, Failure(MessageRequiredText)))
    ensures && req.verb == "POST" && req.body.Fields? && Truthy(Field(req.body.fields, "message"))
            && !(IsSet(env.apiKey) && IsSet(env.baseUrl))
            ==> s == Respond(Response(500, Failure(ConfigErrorText)))
    ensures s.Call? ==> s.request == Outbound(env.baseUrl.value, env.apiKey.value, Model,
                                              Conversation(Field(req.body.fields, "message")))
  {
    if req.verb != "POST" then Respond(Response(405, Failure(MethodNotAllowedText)))
    else match req.body
      case Malformed => Respond(Response(500, Failure(InternalErrorText)))
      case Fields(fields) =>
        var message := Field(fields, "message");
        if !Truthy(message) then Respond(Response(400, Failure(MessageRequiredText)))
        else if !IsSet(env.apiKey) || !IsSet(env.baseUrl) then Respond(Response(500, Failure(ConfigErrorText)))
        else Call(Outbound(env.baseUrl.value, env.apiKey.value, Model, Conversation(message)))
  }

  /**
   * `new Response(body, {status})` throws when `status` is outside 200..599
   * or is the null-body status 304 while a body is given; among the statuses
   * that are not ok these are the ones below 200 and 304.
   */
  predicate ConstructorRejects(status: Status) {
    status < 200 || status == 304
  }

  /**
   * After the call: a non-ok status is passed on, except where the `Response`
   * constructor throws for it, which the `catch` turns into 500.
   */
  function Relay(u: Upstream): Response {
    match u
    case TransportError => Response(500, Failure(InternalErrorText))
    case Responded(status, c) =>
      if !IsSuccess(status) then
        if !ConstructorRejects(status) then Response(status, Failure(UpstreamFailedText))
        else Response(500, Failure(InternalErrorText))
      else match JsReply(c)
        case Some(v) => Response(200, Reply(v))
        case None => Response(500, Failure(InternalErrorText))
  }

  /**
   * `handler`. Past the guards: an upstream error status of 300 or more comes
   * back unchanged, except 304, which the `Response` constructor rejects;
   * that, a status below 200, a transport error and an unreadable body give
   * 500; a 2xx body with `choices` gives 200 with the first choice's content
   * when truthy, else the fixed apology.
   */
  function Handler(req: HttpRequest, env: Env, upstream: Upstream): (r: Response)
    ensures !PassesGuards(req, env) ==> r == HandlerRequest(req, env).response
    ensures PassesGuards(req, env) ==>
              && (upstream.TransportError? ==> r == Response(500, Failure(InternalErrorText)))
              && (upstream.Responded? && upstream.status >= 300 && upstream.status != 304 ==>
                    r == Response(upstream.status, Failure(UpstreamFailedText)))
              && (upstream.Responded? && (upstream.status < 200 || upstream.status == 304) ==>
                    r == Response(500, Failure(InternalErrorText)))
              && (upstream.Responded? && IsSuccess(upstream.status) &&
                  (upstream.completion.NotJson? || upstream.completion.choices.None?)
                  ==> r == Response(500, Failure(InternalErrorText)))
              && (r.status == 200 <==> Delivered(upstream) && !ChoicesAbsent(upstream))
              && (HasFirstContent(upstream) && Truthy(FirstContent(upstream)) ==>
                    r == Response(200, Reply(FirstContent(upstream))))
              && (Delivered(upstream) && !ChoicesAbsent(upstream) &&
                  !(HasFirstContent(upstream) && Truthy(FirstContent(upstream)))
                  ==> r == Response(200, Reply(Str(NoReplyText))))
    ensures r.status == 200 ==> r.body.Reply? && Truthy(r.body.response)
  {
    match HandlerRequest(req, env)
    case Respond(early) => early
    case Call(_) => Relay(upstream)
  }
}
