/**
 * LoggerMiddleware: logs each message before it is dispatched and its
 * response afterwards. The PSR logger is modelled as the sequence of entries
 * it receives; the call to the next middleware is recorded in the same
 * sequence so that the order of logging and dispatch can be stated.
 */
module Logging {

  import opened Messages
  import opened Responses

  /** A value in a logging context. */
  datatype ContextValue = Plain(v: Scalar) | Entries(entries: map<string, Scalar>)

  /** A logging context: a PHP array with string keys. */
  type Context = map<string, ContextValue>

  datatype Level = Info | Warning | Error

  datatype LogEntry = LogEntry(level: Level, template: string, context: Context)

  /** What an invocation does that can be observed: a logger call, or the call to next. */
  datatype Event = Logged(entry: LogEntry) | NextCalled(message: Message, headers: Headers)

  const RECEIVED_MESSAGE: string := "Received message \"{messageTypeName}\""
  const HANDLER_FAILED: string :=
    "Message Handler \"{messageHandler}\" Failed for message of type - \"{messageTypeName}\" - \"{exceptionMessage}\"."
  const PROCESSING_FAILED: string := "Failed to process message of type - \"{messageTypeName}\" - \"{exceptionMessage}\"."
  const RECEIVED_RESPONSE: string := "Received response \"{responseStatusCode}\" for message of type - \"{messageTypeName}\"."
  const NOT_HANDLED: string := "Message of type \"{messageType}\" was not handled."

  /** The keys of a message context. */
  const MESSAGE_KEYS: set<string> :=
    {"messageTypeName", "messageType", "message", "messageHeaders", "messageId", "causationId", "correlationId"}

  /** The keys of an exception context. */
  const EXCEPTION_KEYS: set<string> := {"exceptionClass", "exceptionMessage", "exceptionFile", "exceptionLine"}

  /**
   * PHP's array union `left + right` (and `left += right`): every key of either
   * side, with left's value wherever both have the key.
   */
  function ArrayUnion(left: Context, right: Context): (r: Context)
    ensures r.Keys == left.Keys + right.Keys
    ensures forall k | k in left :: r[k] == left[k]
    ensures forall k | k in right && k !in left :: r[k] == right[k]
  {
    right + left
  }

  /**
   * The message context: the type name (the MESSAGE_TYPE_NAME header, or the
   * message's own type name without it), the other identifying headers (null
   * when absent), the normalised message and all headers.
   */
  function MessageContext(message: Message, headers: Headers): (ctx: Context)
    ensures ctx.Keys == MESSAGE_KEYS
    ensures ctx["messageTypeName"] ==
      Plain(if MESSAGE_TYPE_NAME in headers then headers[MESSAGE_TYPE_NAME] else Str(message.typeName))
    ensures ctx["messageType"] == Plain(if MESSAGE_TYPE in headers then headers[MESSAGE_TYPE] else Null)
    ensures ctx["messageId"] == Plain(if MESSAGE_ID in headers then headers[MESSAGE_ID] else Null)
    ensures ctx["causationId"] == Plain(if CAUSATION_ID in headers then headers[CAUSATION_ID] else Null)
    ensures ctx["correlationId"] == Plain(if CORRELATION_ID in headers then headers[CORRELATION_ID] else Null)
    ensures ctx["messageHeaders"] == Entries(headers)
    ensures ctx["message"] == Entries(message.normalized)
  {
    map[
      "messageTypeName" := Plain(HeaderGet(headers, MESSAGE_TYPE_NAME, Str(message.typeName))),
      "messageType" := Plain(HeaderGet(headers, MESSAGE_TYPE, Null)),
      "message" := Entries(message.normalized),
      "messageHeaders" := Entries(headers),
      "messageId" := Plain(HeaderGet(headers, MESSAGE_ID, Null)),
      "causationId" := Plain(HeaderGet(headers, CAUSATION_ID, Null)),
      "correlationId" := Plain(HeaderGet(headers, CORRELATION_ID, Null))
    ]
  }

  /** The exception's class, message, file and line. */
  function ThrowableContext(e: Exception): (ctx: Context)
    ensures ctx.Keys == EXCEPTION_KEYS
  {
    map[
      "exceptionClass" := Plain(Str(e.className)),
      "exceptionMessage" := Plain(Str(e.message)),
      "exceptionFile" := Plain(Str(e.file)),
      "exceptionLine" := Plain(Int(e.line))
    ]
  }

  /**
   * The response context: always the status code; the handler name only for
   * a single handler's response; the exception keys only when the payload is
   * a captured exception.
   */
  function ResponseContext(response: BusResponse): (ctx: Context)
    ensures "responseStatusCode" in ctx && ctx["responseStatusCode"] == Plain(Str(StatusName(StatusOf(response))))
    ensures "messageHandler" in ctx <==> response.Single?
    ensures response.Single? ==> ctx["messageHandler"] == Plain(Str(response.handler.handlerName))
    ensures EXCEPTION_KEYS <= ctx.Keys <==> PayloadOf(response).Throwable?
    ensures !PayloadOf(response).Throwable? ==> ctx.Keys !! EXCEPTION_KEYS
    ensures PayloadOf(response).Throwable? ==>
      ctx["exceptionMessage"] == Plain(Str(PayloadOf(response).exception.message))
    ensures ctx.Keys !! MESSAGE_KEYS
  {
    var base := map["responseStatusCode" := Plain(Str(StatusName(StatusOf(response))))];
    var withHandler :=
      if response.Single? then ArrayUnion(base, map["messageHandler" := Plain(Str(response.handler.handlerName))])
      else base;
    if PayloadOf(response).Throwable? then ArrayUnion(withHandler, ThrowableContext(PayloadOf(response).exception))
    else withHandler
  }

  /**
   * The logging context of a response: message and response contexts merged,
   * the message context's value kept wherever both have a key.
   */
  function LoggingContext(messageContext: Context, response: BusResponse): Context
  {
    ArrayUnion(messageContext, ResponseContext(response))
  }

  /** The warning that follows the response entries of an unhandled response. */
  function NotHandledWarning(message: Message): LogEntry
  {
    LogEntry(Warning, NOT_HANDLED, map["messageType" := Plain(Str(message.typeName))])
  }

  /** What handling a response logs: its entries, then the warning when it is the unhandled response. */
  function ResponseTrace(message: Message, response: BusResponse, messageContext: Context): seq<Event>
    decreases if response.Multi? then 1 else 0, 1
  {
    ResponseEntries(message, response, messageContext)
      + if response.Unhandled? then [Logged(NotHandledWarning(message))] else []
  }

  /**
   * The entries that depend on the status: for a failure, an error naming the
   * handler, the children's traces for an aggregate, or a generic error; the
   * received-response entry otherwise.
   */
  function ResponseEntries(message: Message, response: BusResponse, messageContext: Context): seq<Event>
    decreases if response.Multi? then 1 else 0, 0
  {
    var ctx := LoggingContext(messageContext, response);
    if StatusOf(response) == FAILED then
      match response
      case Single(_) => [Logged(LogEntry(Error, HANDLER_FAILED, ctx))]
      case Multi(m) => ChildrenTrace(message, m.responses, messageContext)
      case _ => [Logged(LogEntry(Error, PROCESSING_FAILED, ctx))]
    else [Logged(LogEntry(Info, RECEIVED_RESPONSE, ctx))]
  }

  /** What handling each of the children, in order, logs. */
  function ChildrenTrace(message: Message, children: seq<HandlerResponse>, messageContext: Context): seq<Event>
    decreases 0, |children| + 2
  {
    if |children| == 0 then []
    else ChildrenTrace(message, children[..|children| - 1], messageContext)
         + ResponseTrace(message, Single(children[|children| - 1]), messageContext)
  }

  /** What one invocation does: log the message, call next, log its response. */
  function InvokeTrace(message: Message, headers: Headers, response: BusResponse): seq<Event>
  {
    var messageContext := MessageContext(message, headers);
    [Logged(LogEntry(Info, RECEIVED_MESSAGE, messageContext)), NextCalled(message, headers)]
      + ResponseTrace(message, response, messageContext)
  }

  class LoggerMiddleware {

    /** Everything the middleware has done so far, oldest first. */
    var trace: seq<Event>

    constructor ()
      ensures trace == []
    {
      trace := [];
    }

    method Invoke(message: Message, headers: Headers, next: (Message, Headers) -> BusResponse)
      returns (response: BusResponse)
      modifies this
      ensures response == next(message, headers)
      ensures trace == old(trace) + InvokeTrace(message, headers, response)
    {
      var messageContext := MessageContext(message, headers);
      Log(Info, RECEIVED_MESSAGE, messageContext);
      response := next(message, headers);
      trace := trace + [NextCalled(message, headers)];
      HandleResponse(message, response, messageContext);
    }

    /** Builds the response context key by key. */
    method BuildResponseContext(response: BusResponse) returns (ctx: Context)
      ensures ctx == ResponseContext(response)
    {
      ctx := map["responseStatusCode" := Plain(Str(StatusName(StatusOf(response))))];
      if response.Single? {
        ctx := ArrayUnion(ctx, map["messageHandler" := Plain(Str(response.handler.handlerName))]);
      }
      var payload := PayloadOf(response);
      if payload.Throwable? {
        ctx := ArrayUnion(ctx, ThrowableContext(payload.exception));
      }
    }

    method HandleResponse(message: Message, response: BusResponse, messageContext: Context)
      modifies this
      ensures trace == old(trace) + ResponseTrace(message, response, messageContext)
      decreases if response.Multi? then 2 else 0
    {
      ghost var before := trace;
      var responseContext := BuildResponseContext(response);
      var loggingContext := ArrayUnion(messageContext, responseContext);
      assert loggingContext == LoggingContext(messageContext, response);
      if StatusOf(response) == FAILED {
        if response.Single? {
          Log(Error, HANDLER_FAILED, loggingContext);
        } else if response.Multi? {
          HandleChildren(message, response.multi.responses, messageContext);
        } else {
          Log(Error, PROCESSING_FAILED, loggingContext);
        }
      } else {
        Log(Info, RECEIVED_RESPONSE, loggingContext);
      }
      assert trace == before + ResponseEntries(message, response, messageContext);
      if response.Unhandled? {
        Log(Warning, NOT_HANDLED, map["messageType" := Plain(Str(message.typeName))]);
      }
    }

    /** The foreach over an aggregate's constituents, handling each in turn. */
    method HandleChildren(message: Message, children: seq<HandlerResponse>, messageContext: Context)
      modifies this
      ensures trace == old(trace) + ChildrenTrace(message, children, messageContext)
      decreases 1
    {
      for i := 0 to |children|
        invariant trace == old(trace) + ChildrenTrace(message, children[..i], messageContext)
      {
        assert children[..i + 1][..i] == children[..i];
        HandleResponse(message, Single(children[i]), messageContext);
      }
      assert children[..|children|] == children;
    }

    /** One call to the logger. */
    method Log(level: Level, template: string, context: Context)
      modifies this
      ensures trace == old(trace) + [Logged(LogEntry(level, template, context))]
    {
      trace := trace + [Logged(LogEntry(level, template, context))];
    }
  }


  /*
   * Properties of the logging contexts.
   */

  /**
   * The merged context of a dispatched message has every message key with
   * its message-context value, and every response key with its
   * response-context value (the two key sets never overlap).
   */
  lemma LoggingContextKeepsBothSides(message: Message, headers: Headers, response: BusResponse)
    ensures var ctx := LoggingContext(MessageContext(message, headers), response);
      && ctx.Keys == MESSAGE_KEYS + ResponseContext(response).Keys
      && (forall k | k in MESSAGE_KEYS :: ctx[k] == MessageContext(message, headers)[k])
      && (forall k | k in ResponseContext(response) :: ctx[k] == ResponseContext(response)[k])
      && ("messageHandler" in ctx <==> response.Single?)
  {
  }

  /*
   * Properties of the trace.
   */

  /** Handling a response only logs; it never calls next. */
  lemma {:induction false} ResponseTraceOnlyLogs(message: Message, response: BusResponse, messageContext: Context)
    ensures forall e | e in ResponseTrace(message, response, messageContext) :: e.Logged?
  {
    if response.Multi? && StatusOf(response) == FAILED {
      ChildrenTraceEntries(message, response.multi.responses, messageContext);
    }
  }

  /** The entry a single handler's response produces: an error naming the handler if it failed, the received-response entry otherwise. */
  function ChildEntry(messageContext: Context, child: HandlerResponse): Event
  {
    var failed := child.status == FAILED;
    Logged(LogEntry(
      if failed then Error else Info,
      if failed then HANDLER_FAILED else RECEIVED_RESPONSE,
      LoggingContext(messageContext, Single(child))))
  }

  lemma SingleResponseTrace(message: Message, child: HandlerResponse, messageContext: Context)
    ensures ResponseTrace(message, Single(child), messageContext) == [ChildEntry(messageContext, child)]
  {
  }

  /** Handling the children in turn logs one entry per child, in the children's order. */
  lemma {:induction false} ChildrenTraceEntries(message: Message, children: seq<HandlerResponse>, messageContext: Context)
    ensures |ChildrenTrace(message, children, messageContext)| == |children|
    ensures forall i | 0 <= i < |children| ::
      ChildrenTrace(message, children, messageContext)[i] == ChildEntry(messageContext, children[i])
  {
    if |children| > 0 {
      var n := |children| - 1;
      var init := children[..n];
      ChildrenTraceEntries(message, init, messageContext);
      SingleResponseTrace(message, children[n], messageContext);
      var t0 := ChildrenTrace(message, init, messageContext);
      var t := ChildrenTrace(message, children, messageContext);
      assert t == t0 + [ChildEntry(messageContext, children[n])];
      forall i | 0 <= i < |children|
        ensures t[i] == ChildEntry(messageContext, children[i])
      {
        if i < n {
          assert t[i] == t0[i] && init[i] == children[i];
        }
      }
    }
  }

  /**
   * __invoke logs the received message first, calls next exactly once, with
   * the same message and headers, and logs only the response's entries after it.
   */
  lemma InvokeLogsAroundNext(message: Message, headers: Headers, response: BusResponse)
    ensures var t := InvokeTrace(message, headers, response);
      && |t| >= 2
      && t[0] == Logged(LogEntry(Info, RECEIVED_MESSAGE, MessageContext(message, headers)))
      && t[1] == NextCalled(message, headers)
      && (forall i | 0 <= i < |t| && i != 1 :: t[i].Logged?)
      && t[2..] == ResponseTrace(message, response, MessageContext(message, headers))
  {
    var t := InvokeTrace(message, headers, response);
    var rt := ResponseTrace(message, response, MessageContext(message, headers));
    ResponseTraceOnlyLogs(message, response, MessageContext(message, headers));
    assert t[2..] == rt;
    forall i | 2 <= i < |t|
      ensures t[i].Logged?
    {
      assert t[i] == rt[i - 2];
    }
  }

  /**
   * A response that did not fail is logged once, as received, followed by a
   * warning when (and only when) it is the unhandled response.
   */
  lemma NotFailedResponseTrace(message: Message, response: BusResponse, messageContext: Context)
    requires StatusOf(response) != FAILED
    ensures var t := ResponseTrace(message, response, messageContext);
      && |t| == (if response.Unhandled? then 2 else 1)
      && t[0] == Logged(LogEntry(Info, RECEIVED_RESPONSE, LoggingContext(messageContext, response)))
      && (response.Unhandled? ==> t[1] == Logged(NotHandledWarning(message)))
  {
  }

  /** A failed single handler's response is logged as one error whose context names the handler. */
  lemma FailedHandlerResponseTrace(message: Message, h: HandlerResponse, messageContext: Context)
    requires h.status == FAILED
    requires "messageHandler" !in messageContext
    ensures var ctx := LoggingContext(messageContext, Single(h));
      && ResponseTrace(message, Single(h), messageContext) == [Logged(LogEntry(Error, HANDLER_FAILED, ctx))]
      && "messageHandler" in ctx && ctx["messageHandler"] == Plain(Str(h.handlerName))
  {
  }

  /** A failed response of any other kind is logged as one generic error, plus the warning when unhandled. */
  lemma FailedOtherResponseTrace(message: Message, response: BusResponse, messageContext: Context)
    requires response.Unhandled? || response.Other?
    requires StatusOf(response) == FAILED
    ensures var t := ResponseTrace(message, response, messageContext);
      && |t| == (if response.Unhandled? then 2 else 1)
      && t[0] == Logged(LogEntry(Error, PROCESSING_FAILED, LoggingContext(messageContext, response)))
      && (response.Unhandled? ==> t[1] == Logged(NotHandledWarning(message)))
  {
  }

  /**
   * A failed aggregate logs nothing of its own: its trace is its children's
   * traces in order, one entry per child.
   */
  lemma FailedMultiResponseTrace(message: Message, m: MultiResponse, messageContext: Context)
    requires GetStatusCode(m) == FAILED
    ensures var t := ResponseTrace(message, Multi(m), messageContext);
      && t == ChildrenTrace(message, m.responses, messageContext)
      && |t| == |m.responses|
      && forall i | 0 <= i < |m.responses| :: t[i] == ChildEntry(messageContext, m.responses[i])
  {
    ChildrenTraceEntries(message, m.responses, messageContext);
  }

  /**
   * A built aggregate with a failed constituent, under an admissible ranking,
   * is logged child by child, and each failed child is logged as an error
   * naming its handler.
   */
  lemma AggregateWithFailureLoggedPerChild(
    message: Message, m: MultiResponse, rank: Ranking, k: nat, messageContext: Context)
    requires ValidMulti(m, rank) && Admissible(rank)
    requires k < |m.responses| && m.responses[k].status == FAILED
    ensures var t := ResponseTrace(message, Multi(m), messageContext);
      && |t| == |m.responses|
      && forall i | 0 <= i < |m.responses| && m.responses[i].status == FAILED ::
           t[i].Logged? && t[i].entry.level == Error && t[i].entry.template == HANDLER_FAILED
  {
    FailedConstituentDecides(m, rank, k);
    FailedMultiResponseTrace(message, m, messageContext);
  }

}
