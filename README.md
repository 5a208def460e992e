# Orkestra messaging: responses, routes and the logging middleware

This project is a Dafny model of three deterministic parts of the Orkestra
messaging library (PHP):

- **The multi-handler response** (`MultiMessageHandlerResponse`). It aggregates
  two or more `MessageHandlerResponse`s produced when several handlers receive
  one message. The model covers its construction-time validation, the ordered
  list of constituents, and the queries `hasResponseWithStatus`, `isFailure`,
  `isSuccess`, `getPayload` and `getStatusCode` (module `Responses`,
  `responses.dfy`).
- **The message route** (`MessageRoute`). It is an immutable triple: message
  type name, handler class and handler method. The model covers its wildcard
  matching rule and its string id. `ParseId` is an inverse of the id that is
  not part of the library. It is used to prove when the id identifies the
  route (module `Routing`, `message_route.dfy`).
- **The logging middleware** (`LoggerMiddleware`). The logger is modelled as
  the sequence of entries it receives: level, message template and context
  array. The call to the next middleware is recorded in the same sequence, so
  the order of logging and dispatch can be stated. The model covers which
  entries are written, at which level, in which order and with which context
  keys, for each kind of response (module `Logging`, `logger_middleware.dfy`).

`messages.dfy` holds the message and its headers. `wrappers.dfy` holds `Option`.

The wildcard route's type name is `MessageInterface::class`, so the model's
wildcard `ANY_MESSAGE` is the string `Morebec\Orkestra\Messaging\MessageInterface`.

The model does not follow the body of `MultiMessageHandlerResponse`. Its unit
test calls only the public queries, and the model is built to meet what that
test asserts. The following are choices of the model, not observed
behaviour of the class:

- The aggregate keeps its constituents in order.
- It stores the status it computes when it is built. That status is the
  constituents' dominant status under a ranking, which is a parameter
  (`Ranking`).
- `Admissible` asks for a strict order in which FAILED outranks every other
  code. That FAILED dominates is an assumption of the model. The rest of
  `Admissible` is what the test's status cases fix: ACCEPTED above SUCCEEDED,
  and INVALID above REFUSED and above SUCCEEDED.
- `DefaultRank` (FAILED > INVALID > REFUSED > ACCEPTED > SUCCEEDED > SKIPPED)
  is one admissible order. The test does not fix it.
- `isFailure` and `isSuccess` compare the stored status with FAILED and
  SUCCEEDED. For `isFailure`, under an admissible ranking, this cannot be
  told apart from asking whether some constituent failed
  (`FailureIffFailedConstituent`). `isSuccess` is not "no constituent
  failed": an aggregate of ACCEPTED and SUCCEEDED is neither a failure nor a
  success. The test pins `isSuccess` only as false when a constituent failed,
  which follows from the two ensures of `FailureIffFailedConstituent` and is
  stated directly by `FailedConstituentDecides`.
- `getPayload` is the first failed constituent's payload, or the array of all
  payloads when none failed. The test asserts only that the first is a
  Throwable and the second an array. Choosing the *first* failed constituent
  is an assumption of the model.

## Model

| member | source | states |
|---|---|---|
| Responses.Dominant | tests/MultiMessageHandlerResponseTest.php:126-151 | the dominant status of a non-empty list is one of its statuses, and no status in the list outranks it |
| Responses.DefaultRankIsAdmissible | tests/MultiMessageHandlerResponseTest.php:126-151 | the order FAILED > INVALID > REFUSED > ACCEPTED > SUCCEEDED > SKIPPED is admissible: one order meeting the precedences the status fixtures fix, not one the test fixes |
| Responses.DominantIsTheOutrankingCode | tests/MultiMessageHandlerResponseTest.php:136-151 | a present code that outranks every other present code is the dominant status |
| Responses.DominantDependsOnlyOnCodesPresent | tests/MultiMessageHandlerResponseTest.php:126-151 | under a strict ranking, the dominant status depends only on which codes occur, not on their order or how often they occur |
| Responses.DominantFailedIffFailedPresent | tests/MultiMessageHandlerResponseTest.php:128-134 | under an admissible ranking, the dominant status is FAILED exactly when some status is FAILED |
| Responses.FindFirst | tests/MultiMessageHandlerResponseTest.php:105-114 | finds the first constituent with a given status: that constituent has the status, none before it does, and None means no constituent has it |
| Responses.Collect | tests/MultiMessageHandlerResponseTest.php:12-38 | succeeds exactly when every element is a handler response, and then yields those responses in order |
| Responses.Construct | tests/MultiMessageHandlerResponseTest.php:12-53 | builds the aggregate exactly when there are at least two elements and all are handler responses, otherwise fails with InvalidArgument; keeps the constituents in order and stores their dominant status |
| Responses.ConstructFromTwoResponses | tests/MultiMessageHandlerResponseTest.php:12-28 | two handler responses, in either order, build an aggregate whose handler responses are exactly those two in that order |
| Responses.ConstructRejectsForeignElement | tests/MultiMessageHandlerResponseTest.php:30-38 | an element that is not a handler response, at any position and even after a valid pair, makes construction fail with InvalidArgument |
| Responses.ConstructRejectsEmpty | tests/MultiMessageHandlerResponseTest.php:41-45 | construction from no elements fails with InvalidArgument |
| Responses.ConstructRejectsSingle | tests/MultiMessageHandlerResponseTest.php:47-53 | construction from one handler response fails with InvalidArgument |
| Responses.HasResponseWithStatusMeansSomeConstituent | tests/MultiMessageHandlerResponseTest.php:55-67 | hasResponseWithStatus(c) holds exactly when some constituent has status c |
| Responses.FailureIffFailedConstituent | tests/MultiMessageHandlerResponseTest.php:81-103 | a built aggregate is a failure exactly when a constituent failed, and a failure is never a success |
| Responses.FailedConstituentDecides | tests/MultiMessageHandlerResponseTest.php:81-134 | with a failed constituent, the aggregate is a failure and not a success, its status is FAILED, and its payload is the payload of the first failed constituent |
| Responses.NoFailedConstituentPayload | tests/MultiMessageHandlerResponseTest.php:116-123 | with no failed constituent, the aggregate is not a failure and its payload is the array of every constituent's payload, in order |
| Responses.FailedSucceededFixture | tests/MultiMessageHandlerResponseTest.php:55-134 | for [FAILED, SUCCEEDED]: FAILED and SUCCEEDED are present and ACCEPTED is not; there are two handler responses; it is a failure and not a success; its status is FAILED; its payload is the failure's |
| Responses.SkippedSucceededPayloadFixture | tests/MultiMessageHandlerResponseTest.php:116-123 | for [SKIPPED, SUCCEEDED] the payload is the array of both payloads |
| Responses.AcceptedAcceptedSucceededFixture | tests/MultiMessageHandlerResponseTest.php:136-142 | for [ACCEPTED, ACCEPTED, SUCCEEDED] the status is ACCEPTED under any admissible ranking |
| Responses.RefusedInvalidInvalidSucceededFixture | tests/MultiMessageHandlerResponseTest.php:144-151 | for [REFUSED, INVALID, INVALID, SUCCEEDED] the status is INVALID under any admissible ranking |
| Responses.GetHandlerResponses | tests/MultiMessageHandlerResponseTest.php:69-79 | no contract of its own; the constituents in construction order, specified by `Construct`'s ensures and `ConstructFromTwoResponses` |
| Responses.HasResponseWithStatus | tests/MultiMessageHandlerResponseTest.php:55-67 | no contract of its own; specified by `HasResponseWithStatusMeansSomeConstituent` (true exactly when some constituent has the status) |
| Responses.IsFailure | tests/MultiMessageHandlerResponseTest.php:81-91 | no contract of its own; compares the stored status with FAILED; specified by `FailureIffFailedConstituent` |
| Responses.IsSuccess | tests/MultiMessageHandlerResponseTest.php:93-103 | no contract of its own; compares the stored status with SUCCEEDED; specified by `FailureIffFailedConstituent` and `FailedConstituentDecides` |
| Responses.GetStatusCode | tests/MultiMessageHandlerResponseTest.php:126-151 | no contract of its own; the status stored at construction, the dominant status by `Construct`'s ensures |
| Responses.GetPayload | tests/MultiMessageHandlerResponseTest.php:105-124 | no contract of its own; specified by `FailedConstituentDecides` and `NoFailedConstituentPayload` |
| Routing.Matches | src/Routing/MessageRoute.php:37-40 | no contract of its own; specified by `WildcardMatchesEveryMessage`, `RouteMatchesItsOwnType` and `MatchesIgnoresHeaders` |
| Routing.GetId | src/Routing/MessageRoute.php:42-45 | no contract of its own; specified by `ParseIdSound`, `ParseIdRoundTrip`, `IdIdentifiesRoute` and `IdsCanCollide` |
| Routing.ToString | src/Routing/MessageRoute.php:29-32 | no contract of its own; specified by `ToStringIsId` |
| Routing.WildcardMatchesEveryMessage | src/Routing/MessageRoute.php:37-40 | a route whose type name is MessageInterface::class matches every message, whatever the headers |
| Routing.RouteMatchesItsOwnType | src/Routing/MessageRoute.php:37-40 | any other route matches a message exactly when the message's type name equals the route's |
| Routing.MatchesIgnoresHeaders | src/Routing/MessageRoute.php:37-40 | matching gives the same answer for any two header sets |
| Routing.ToStringIsId | src/Routing/MessageRoute.php:29-45 | the string form is the id: type name, " => ", class name, "::", method name |
| Routing.GettersReturnArguments | src/Routing/MessageRoute.php:19-60 | the getters return the constructor's arguments unchanged |
| Routing.ParseIdSound | src/Routing/MessageRoute.php:42-45 | any route read back from an id has that id |
| Routing.ParseIdRoundTrip | src/Routing/MessageRoute.php:42-45 | when the type name has no '=' and the class name has no ':', reading back a route's id gives the route |
| Routing.IdIdentifiesRoute | src/Routing/MessageRoute.php:42-45 | under those conditions, two routes with the same id are the same route |
| Routing.IdsCanCollide | src/Routing/MessageRoute.php:42-45 | without either condition two different routes can share one id: a class name holding "::", or a type name holding " => " |
| Logging.LoggingContext | src/Middleware/LoggerMiddleware.php:101-102 | no contract of its own; the message context united with the response context, message keys winning; specified by `LoggingContextKeepsBothSides` |
| Logging.NotHandledWarning | src/Middleware/LoggerMiddleware.php:127-130 | no contract of its own; the warning entry with the message's type name, specified through `NotFailedResponseTrace` and `FailedOtherResponseTrace` |
| Logging.ResponseTrace | src/Middleware/LoggerMiddleware.php:99-132 | no contract of its own; handleResponse as a function, specified by `HandleResponse`'s ensures and the trace lemmas below |
| Logging.ResponseEntries | src/Middleware/LoggerMiddleware.php:101-125 | no contract of its own; the entries before the warning, specified through `SingleResponseTrace`, `NotFailedResponseTrace`, `FailedHandlerResponseTrace`, `FailedMultiResponseTrace` and `FailedOtherResponseTrace` |
| Logging.ChildrenTrace | src/Middleware/LoggerMiddleware.php:110-113 | no contract of its own; the foreach over the constituents, specified by `HandleChildren`'s invariant and `ChildrenTraceEntries` |
| Logging.InvokeTrace | src/Middleware/LoggerMiddleware.php:33-45 | no contract of its own; __invoke as a function, specified by `Invoke`'s ensures and `InvokeLogsAroundNext` |
| Logging.LoggerMiddleware.Log | src/Middleware/LoggerMiddleware.php:38 | appends exactly one log entry with the given level, template and context, and nothing else |
| Logging.ArrayUnion | src/Middleware/LoggerMiddleware.php:102 | PHP array union: every key of either side, and the left side's value wherever both have a key |
| Logging.MessageContext | src/Middleware/LoggerMiddleware.php:50-60 | the message context has exactly the seven message keys; messageTypeName is the MESSAGE_TYPE_NAME header when present, otherwise the message's own type name; messageType, messageId, causationId and correlationId are each their header or null; it carries all headers and the normalised message |
| Logging.ThrowableContext | src/Middleware/LoggerMiddleware.php:89-97 | an exception's context has exactly the four exception keys |
| Logging.ResponseContext | src/Middleware/LoggerMiddleware.php:66-84 | the response context always has the status code; it has the handler name exactly for a single handler's response; it has the exception keys exactly when the payload is a captured exception; it shares no key with the message context |
| Logging.LoggerMiddleware.BuildResponseContext | src/Middleware/LoggerMiddleware.php:66-84 | building the context key by key with `+=` gives the response context |
| Logging.LoggingContextKeepsBothSides | src/Middleware/LoggerMiddleware.php:102 | the merged context holds every message key with its message value and every response key with its response value; it names a handler exactly for a single handler's response |
| Logging.LoggerMiddleware.constructor | src/Middleware/LoggerMiddleware.php:27-31 | a new middleware has logged nothing |
| Logging.LoggerMiddleware.Invoke | src/Middleware/LoggerMiddleware.php:33-45 | returns next's response unchanged; appends the invocation trace (received-message entry, the call to next, the response's entries) |
| Logging.LoggerMiddleware.HandleResponse | src/Middleware/LoggerMiddleware.php:99-132 | appends exactly the response's trace to what was logged before |
| Logging.LoggerMiddleware.HandleChildren | src/Middleware/LoggerMiddleware.php:110-113 | handling the constituents one after another appends their traces in order |
| Logging.InvokeLogsAroundNext | src/Middleware/LoggerMiddleware.php:33-45 | the received-message entry comes first; next is called exactly once, second, with the same message and headers; everything after it is a log entry of the response |
| Logging.ResponseTraceOnlyLogs | src/Middleware/LoggerMiddleware.php:99-132 | handling a response only writes log entries |
| Logging.SingleResponseTrace | src/Middleware/LoggerMiddleware.php:104-124 | a single handler's response gives one entry: an error if it failed, the received-response info otherwise |
| Logging.ChildrenTraceEntries | src/Middleware/LoggerMiddleware.php:110-113 | walking the constituents gives one entry per constituent, in their order, each that constituent's own entry |
| Logging.NotFailedResponseTrace | src/Middleware/LoggerMiddleware.php:120-131 | a response that did not fail gives one received-response info entry with the merged context, and then a warning exactly when it is the unhandled response |
| Logging.FailedHandlerResponseTrace | src/Middleware/LoggerMiddleware.php:104-109 | a failed single handler's response gives exactly one error entry, whose context names the handler |
| Logging.FailedMultiResponseTrace | src/Middleware/LoggerMiddleware.php:110-113 | a failed aggregate writes no entry of its own; its trace is its constituents' traces concatenated, one entry per constituent |
| Logging.FailedOtherResponseTrace | src/Middleware/LoggerMiddleware.php:114-131 | a failed response of any other kind gives one generic error entry, and then the warning when it is the unhandled response |
| Logging.AggregateWithFailureLoggedPerChild | src/Middleware/LoggerMiddleware.php:104-113 | a built aggregate with a failed constituent, under an admissible ranking, is logged one entry per constituent, and every failed constituent's entry is an error |

## Left out

- The body of `MultiMessageHandlerResponse` is not part of this model. The model meets its unit test's assertions, and the combining rule is a ranking parameter.
- Responses.Dominant: the test fixtures also fit a "most frequent non-success status" rule. A ranking cannot express that rule, so it is not modelled.
- `LoggerMiddleware::normalizeMessage` uses reflection, JSON decoding and the message normaliser. Its result is taken as a field of the message (`Message.normalized`). That field holds only a flat string-keyed array. A null result, a list such as `[$messageAsString]`, or nested `json_decode` output is not represented.
- `buildThrowableContext` reads an exception's class, message, file and line by runtime introspection. Here these four values are fields that the captured exception carries.
- The PSR logger and its placeholder interpolation are external I/O. Only the entries handed to the logger are recorded.
- `next` is a pure function argument. The effects of the inner middleware and handlers are not modelled; the call itself is recorded as one event.
- Logging.LoggerMiddleware.Invoke: a `$next` or logger call that throws is not modelled; the model's `next` and logger always return. `__invoke` has no try/catch, so if `$next` throws, only the received-message entry is written; if a logger call throws, the entries logged before it stay written, none after it are, and the exception leaves `__invoke`.
- A logging context (`Context`) is a Dafny `map`, so the order of PHP array keys is not represented. For example, `$messageContext + $responseContext` puts the message keys first, and a log formatter shows them in that order.
- `MessageHeaders` is not part of this model. Its key constants are taken as `messageTypeName`, `messageType`, `messageId`, `causationId` and `correlationId`. `get` is taken to return the default exactly when the key is absent, and `toArray` to return the whole header map.
- `MessageBusResponseStatusCode` is not part of this model. A code's string form is taken to be its name, for example "FAILED".
- `UnhandledMessageResponse` is not part of this model. Its status code and payload are fields of the `Unhandled` variant. The four response kinds are taken to be disjoint classes.
- `DomainMessageBus` only rejects non-domain messages and then delegates to a message bus that is not part of this model, so it is not modelled.
- Generators and other PHP iterables are modelled as a finite sequence, so lazy production is not modelled.
