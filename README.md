# Cross-frame messaging core, modelled in Dafny

This project models the messaging layer that lets a shell application and its
micro-frontends (each running in an iframe) talk to one another through
`window.postMessage`, together with the two React providers and the mock
destination service built on top of it.

* `message_bus.dfy` (module `MessageBus`) — `createMessageBus`: the
  subscription registry (a map from message type to an insertion-ordered set
  of callbacks), the origin check, `handleMessage` (origin check, loop
  prevention by `sourceAppId`, dispatch to every callback of the type with
  throwing callbacks isolated), `send` (one envelope to the parent, then to
  every iframe that has a content window, a failing iframe post reported and
  skipped), `broadcast`, and the typed sender/subscriber helpers. The bus is
  the class `Bus<D>`; the browser (location origin, `NODE_ENV`, parent
  window, iframe list, clock) is an `Environment` argument, callbacks are
  opaque ids, and the effects of a call are returned as reports (posts made,
  iframes that failed, callbacks called, callbacks that threw).
* `envelope.dfy` (module `Envelope`) — the message record of `types.ts` and
  its three type guards. Optional properties are slots that may be missing,
  present but `undefined`, or present with a value, so `!== undefined` is
  modelled exactly.
* `message_factory.dfy` (module `MessageFactory`) — `defineMessageType`
  (its `is` recogniser and its `create` constructor with defaults) and
  `createMessageNamespace`.
* `type_map.dfy` (module `TypeMap`) — `isValidMessageType` as written, and
  the membership test it was evidently meant to be (see Findings).
* `logger.dfy` (module `Logging`) — level filtering, defaults,
  message formatting and routing to a custom log function or to the console.
* `system_provider.dfy` (module `SystemState`) and
  `destination_provider.dfy` (module `DestinationState`) — the state cells of
  the two providers as classes; each subscription handler and each action of
  the context value is a method, and the messages the provider sends are
  appended to an `outbox`.
* `destination_service.dfy` (module `DestinationService`) — the mock
  destination service: id normalisation, listing, lookup by id (with its
  error), and case-insensitive search.
* Support modules: `wrappers.dfy` (`Option`, `Result`), `strings.dfy` (ASCII
  case mapping, `includes`, `join`, decimal rendering of naturals),
  `ordered_set.dfy` (a JavaScript `Set` as a duplicate-free sequence in
  insertion order), `payloads.dfy` (message-type constants and payload
  records of `destination-types.ts` and `system-types.ts`, and the
  `find`-by-id used by the destination provider).

The model follows the code. The package's broader design also describes
request/response correlation with timeouts, wildcard subscriptions,
one-shot and filtered subscriptions, a registry of child frames, relaying
and a maximum message size; none of these exist in the modelled code, so
none is modelled.

## Model

| member | source | states |
|---|---|---|
| MessageBus.WithHandler | packages/messaging/src/core/message-bus.ts:203-208 | subscribing creates the type's set if absent and applies `Set.add` to it: the callback is then registered, earlier callbacks keep their order, a callback already registered leaves the whole registry unchanged, and other types are untouched |
| MessageBus.WithoutHandler | packages/messaging/src/core/message-bus.ts:213-222 | unsubscribing removes exactly that callback from its type's set (every other callback stays), may drop the empty set, and leaves other types untouched |
| MessageBus.SubscribeTwiceStoresOnce | packages/messaging/src/core/message-bus.ts:203-208 | subscribing the same callback twice to a type registers it once (Set semantics) |
| MessageBus.UnsubscribeTwiceIsNoOp | packages/messaging/src/core/message-bus.ts:213-222 | calling an unsubscribe function a second time changes nothing |
| MessageBus.UnsubscribeUndoesSubscribe | packages/messaging/src/core/message-bus.ts:199-223 | subscribing a new callback and then calling its unsubscribe function restores the registry exactly |
| MessageBus.AnyAllows | packages/messaging/src/core/message-bus.ts:111-117 | an allow-list admits an origin iff it contains `'*'` or the origin itself |
| MessageBus.IsValidOrigin | packages/messaging/src/core/message-bus.ts:95-129 | an origin is accepted iff it equals the page's own origin, or in development it starts with `http://localhost:` or `https://localhost:`, or an allow-list is configured and admits it; without an allow-list nothing else is accepted |
| MessageBus.DevelopmentLocalhostIsPrefixOnly | packages/messaging/src/core/message-bus.ts:101-108 | the development rule is a prefix test: `http://localhost:1.example.com` is accepted in development and rejected otherwise |
| MessageBus.FrameTargetsExactly | packages/messaging/src/core/message-bus.ts:150-157 | an iframe receives the envelope iff it has a content window and posting to it does not throw; the parent is never among the iframe targets |
| MessageBus.FailedFramesExactly | packages/messaging/src/core/message-bus.ts:150-157 | an iframe is reported as failed iff it has a content window and posting to it throws |
| MessageBus.EveryWindowAttemptedOnce | packages/messaging/src/core/message-bus.ts:150-157 | the iframes posted to and the iframes reported as failed together number the iframes with a content window, and no iframe is both posted to and reported as failed |
| MessageBus.FaultedExactly | packages/messaging/src/core/message-bus.ts:76-85 | the callbacks reported as throwing are exactly the dispatched callbacks that throw |
| MessageBus.Dispatch | packages/messaging/src/core/message-bus.ts:74-87 | every callback of the set is called once, in insertion order, with `(data, source)`; a throwing callback is reported and does not stop the rest |
| MessageBus.Bus.constructor | packages/messaging/src/core/message-bus.ts:28-45 | a new bus keeps its app id, its allow-list and whether it runs on the server, and has no subscriptions |
| MessageBus.Bus.Subscribe | packages/messaging/src/core/message-bus.ts:199-211 | on the server nothing changes and the returned unsubscribe does nothing; otherwise the callback is added to its type's set and the returned unsubscribe removes that callback |
| MessageBus.Bus.Unsubscribe | packages/messaging/src/core/message-bus.ts:213-222 | the unsubscribe function removes exactly its callback from exactly its type; the server's unsubscribe changes nothing |
| MessageBus.Bus.HandleMessage | packages/messaging/src/core/message-bus.ts:55-92 | an event from a rejected origin, with no data, or sent by this app reaches no callback; any other event calls each callback registered under its type once, in order, with the event's data and source, and throwing callbacks are isolated |
| MessageBus.Bus.Send | packages/messaging/src/core/message-bus.ts:135-158 | one envelope `{type, data, sourceAppId, timestamp}` is posted to the parent (when the page is framed) and then to each iframe with a content window, in document order; iframes whose post throws are reported; on the server nothing is posted |
| MessageBus.Bus.Broadcast | packages/messaging/src/core/message-bus.ts:179-196 | broadcast sends exactly as `send` does and then calls every local callback of the type once, in order, with the data and no source |
| MessageBus.Bus.SendTyped | packages/messaging/src/core/message-bus.ts:244-251 | the typed sender posts exactly what `send` posts for its fixed type |
| MessageBus.Bus.SubscribeTyped | packages/messaging/src/core/message-bus.ts:257-266 | the typed subscriber registers one fresh wrapper callback at the end of its type's set and returns its unsubscribe function |
| OrderedSet.Add | packages/messaging/src/core/message-bus.ts:208 | `Set.add`: the element is present afterwards, nothing else is added, an element already present changes nothing, a new one goes last, and no duplicates arise |
| OrderedSet.Delete | packages/messaging/src/core/message-bus.ts:216 | `Set.delete`: the element is absent afterwards, every other element is kept, nothing is added, and no duplicates arise |
| OrderedSet.DeleteKeepsOrder | packages/messaging/src/core/message-bus.ts:216 | `Set.delete` keeps the remaining callbacks in their insertion order: the result is picked out of the set by increasing positions that include every other element |
| OrderedSet.DeleteAdded | packages/messaging/src/core/message-bus.ts:208-216 | adding a new element and deleting it gives back the original set in its original order |
| Envelope.IsErrorMessage | packages/messaging/src/types.ts:118-123 | `isErrorMessage`; characterised by `ErrorNeedsCodeAndMessage` |
| Envelope.IsRequestMessage | packages/messaging/src/types.ts:128-132 | `isRequestMessage`; characterised by `UndefinedCorrelationIsNotRequest` and `ResponseIsRequest` |
| Envelope.IsResponseMessage | packages/messaging/src/types.ts:137-144 | `isResponseMessage`; characterised by `FailedReplyIsResponse`, `UndefinedCorrelationIsNotRequest` and `ResponseIsRequest` |
| Envelope.ErrorNeedsCodeAndMessage | packages/messaging/src/types.ts:118-123 | a message is an error only when both `code` and `message` are defined: either one missing, or present but `undefined`, rules it out |
| Envelope.ResponseIsRequest | packages/messaging/src/types.ts:128-144 | every message the response guard accepts is also accepted by the request guard |
| Envelope.FailedReplyIsResponse | packages/messaging/src/types.ts:137-144 | a message with a correlation id and `success: false` is a response (the guard tests definedness, not truth) |
| Envelope.UndefinedCorrelationIsNotRequest | packages/messaging/src/types.ts:128-144 | a correlation id present but `undefined` makes a message neither a request nor a response |
| Envelope.UncheckedIs | packages/messaging/src/types.ts:151-153 | the `is` guard of `createMessageType`; characterised by `UncheckedIsAcceptsAll` |
| Envelope.UncheckedIsAcceptsAll | packages/messaging/src/types.ts:149-155 | the recogniser returned by `createMessageType` accepts every message |
| MessageFactory.DefineMessageType | packages/messaging/src/utils/message-factory.ts:22-25 | the definition carries the given type string |
| MessageFactory.Is | packages/messaging/src/utils/message-factory.ts:26-28 | `is`: the message's type equals the definition's and it has a `payload` property; characterised by `CreatedIsRecognised` and `RecognisersOfDistinctTypesAreDisjoint` |
| MessageFactory.Create | packages/messaging/src/utils/message-factory.ts:30-48 | a created message has the definition's type, the payload, the source, the clock's timestamp, the target when given (present but `undefined` otherwise), the given id unless it is empty or absent (then a generated one), direction `PARENT_TO_CHILD` by default, and is neither an error, a request nor a response |
| MessageFactory.CreatedIsRecognised | packages/messaging/src/utils/message-factory.ts:26-48 | the recogniser of a definition accepts every message its constructor creates |
| MessageFactory.EmptyIdIsReplaced | packages/messaging/src/utils/message-factory.ts:40 | an empty id option is replaced by a generated id (the `||` default) |
| MessageFactory.RecognisersOfDistinctTypesAreDisjoint | packages/messaging/src/utils/message-factory.ts:26-28 | no message is accepted by the recognisers of two different types |
| MessageFactory.NamespacedDefinition | packages/messaging/src/utils/message-factory.ts:57-63 | a namespaced type is the namespace, a `/`, then the type, with the `/` at the namespace's length |
| MessageFactory.NamespacesDoNotCollide | packages/messaging/src/utils/message-factory.ts:57-63 | when namespace names contain no `/`, equal namespaced types come from the same namespace and the same type |
| MessageFactory.SlashInNamespaceCollides | packages/messaging/src/utils/message-factory.ts:57-63 | a `/` inside a namespace name lets two different (namespace, type) pairs produce the same type string |
| TypeMap.IsValidMessageType | packages/messaging/src/constants/type-map.ts:40-50 | `isValidMessageType` as written; characterised by `ValidMeansIndexKey` and `RealTypesRejected` |
| TypeMap.ProbedObjectContents | packages/messaging/src/constants/type-map.ts:43-48 | spreading the two value arrays into one object yields the keys `"0"`, `"1"`, `"2"`, the later array overwriting the earlier |
| TypeMap.ValidMeansIndexKey | packages/messaging/src/constants/type-map.ts:40-50 | as written, a string is accepted iff it is `"0"`, `"1"` or `"2"` |
| TypeMap.RealTypesRejected | packages/messaging/src/constants/type-map.ts:40-50 | as written, none of the six real message types is accepted |
| TypeMap.IsKnownMessageType | packages/messaging/src/constants/type-map.ts:37-50 | the membership test the documentation describes; characterised by `KnownTypesAccepted` |
| TypeMap.KnownTypesAccepted | packages/messaging/src/constants/type-map.ts:37-50 | the corrected check accepts a string iff it is one of the six message-type values, and the two families share no value |
| Logging.LevelLabels | packages/messaging/src/utils/logger.ts:84-95 | the level tags of the formatted line are `DEBUG`, `INFO`, `WARN` and `ERROR` |
| Logging.WithDefaults | packages/messaging/src/utils/logger.ts:23-36 | options override the defaults field by field; a missing level is `INFO` and missing timestamps are on |
| Logging.ShouldLog | packages/messaging/src/utils/logger.ts:100-115 | `shouldLog`; characterised by `ShouldLogOrder` and `ShouldLogMonotone` |
| Logging.ShouldLogOrder | packages/messaging/src/utils/logger.ts:100-115 | `NONE` suppresses everything; otherwise a level is written iff it is at least as severe as the configured one, so errors always are and `NONE` never is |
| Logging.ShouldLogMonotone | packages/messaging/src/utils/logger.ts:100-115 | a level at least as severe as one that is written is written too |
| Logging.Logger.constructor | packages/messaging/src/utils/logger.ts:34-36 | the logger's configuration is the options over the defaults |
| Logging.Logger.FormatMessage | packages/messaging/src/utils/logger.ts:84-95 | the line is `[appId] `, then `[time] ` when timestamps are on, then `[LEVEL] ` and the message |
| Logging.Logger.Log | packages/messaging/src/utils/logger.ts:69-79 | a suppressed level emits nothing; otherwise the formatted line goes to the custom log function with the level and data when one is configured, else to the console channel of the level with the data or an empty string |
| Logging.Logger.LogDebug | packages/messaging/src/utils/logger.ts:41-43 | `debug` is `log` at the debug level |
| Logging.Logger.LogInfo | packages/messaging/src/utils/logger.ts:48-50 | `info` is `log` at the info level |
| Logging.Logger.LogWarn | packages/messaging/src/utils/logger.ts:55-57 | `warn` is `log` at the warn level |
| Logging.Logger.LogError | packages/messaging/src/utils/logger.ts:62-64 | `error` is `log` at the error level |
| SystemState.MarkReady | packages/messaging/src/providers/system-provider.tsx:83-86 | an app id is appended to the ready list only when not already in it, so the list stays duplicate-free |
| SystemState.MergeConfig | packages/messaging/src/providers/system-provider.tsx:108-113 | merged keys are the union; incoming values win and other previous values are kept |
| SystemState.MergeIdempotent | packages/messaging/src/providers/system-provider.tsx:108-113 | merging the same incoming configuration twice equals merging it once |
| SystemState.SystemProvider.constructor | packages/messaging/src/providers/system-provider.tsx:55-58 | no errors, no ready apps, loading, the initial configuration, nothing sent |
| SystemState.SystemProvider.OnAppReady | packages/messaging/src/providers/system-provider.tsx:82-90 | marks the app ready (at most once) and ends loading; nothing else changes |
| SystemState.SystemProvider.OnError | packages/messaging/src/providers/system-provider.tsx:98-100 | appends the error; nothing else changes |
| SystemState.SystemProvider.OnConfigUpdated | packages/messaging/src/providers/system-provider.tsx:108-113 | merges the received configuration; nothing else changes |
| SystemState.SystemProvider.OnLoadingTimeout | packages/messaging/src/providers/system-provider.tsx:116-118 | the loading timeout ends loading; nothing else changes |
| SystemState.SystemProvider.ClearErrors | packages/messaging/src/providers/system-provider.tsx:130-132 | empties the error list; nothing else changes |
| SystemState.SystemProvider.UpdateConfig | packages/messaging/src/providers/system-provider.tsx:134-147 | merges the new configuration and sends one `CONFIG_UPDATED` message carrying only the new part, this app as source and the clock's timestamp |
| Payloads.FindById | packages/messaging/src/providers/destination-provider.tsx:135 | the result is the first destination with the id; none when the id is absent or no destination has it |
| DestinationState.DestinationProvider.constructor | packages/messaging/src/providers/destination-provider.tsx:65-69 | nothing selected, the initial destinations, not loading, nothing sent |
| DestinationState.DestinationProvider.SelectDestination | packages/messaging/src/providers/destination-provider.tsx:134-142 | selects the first destination with the id (none when absent or unknown) and sends `SELECTED` with it |
| DestinationState.DestinationProvider.RequestDestinationDetails | packages/messaging/src/providers/destination-provider.tsx:144-149 | sends one `DETAILS_REQUESTED` with the id; state unchanged |
| DestinationState.DestinationProvider.ProvideDestinationDetails | packages/messaging/src/providers/destination-provider.tsx:151-156 | sends one `DETAILS_RESPONSE` with the destination; state unchanged |
| DestinationState.DestinationProvider.OnSelected | packages/messaging/src/providers/destination-provider.tsx:108-110 | a received selection becomes the active destination; nothing is sent |
| DestinationState.DestinationProvider.OnDetailsResponse | packages/messaging/src/providers/destination-provider.tsx:112-115 | a details response changes no state and sends nothing |
| DestinationState.DestinationProvider.SetDestinations | packages/messaging/src/providers/destination-provider.tsx:125-127 | replaces the list; nothing else changes |
| DestinationState.DestinationProvider.SetLoading | packages/messaging/src/providers/destination-provider.tsx:129-131 | sets the loading flag; nothing else changes |
| DestinationState.UnknownIdDeselects | packages/messaging/src/providers/destination-provider.tsx:134-142 | selecting an id no destination has clears the selection |
| DestinationState.ListedIdSelects | packages/messaging/src/providers/destination-provider.tsx:134-142 | selecting the id of a listed destination selects a destination with that id, the first one carrying it |
| Strings.NatToString | apps/destinations/src/services/destination-service.ts:17 | `String(n)` is non-empty, all decimal digits, without a leading zero, and its digits denote `n` |
| DestinationService.NatToStringInjective | apps/destinations/src/services/destination-service.ts:17 | distinct numeric ids render as distinct strings (a consequence of the digits denoting the number) |
| DestinationService.Normalize | apps/destinations/src/services/destination-service.ts:15-19 | a record keeps all its fields and its id becomes a string |
| DestinationService.New | apps/destinations/src/services/destination-service.ts:14-20 | the service holds every mock record, in order, normalised; records with distinct numeric ids keep distinct ids |
| DestinationService.GetDestinations | apps/destinations/src/services/destination-service.ts:22-26 | the listing is the held destinations, in order |
| DestinationService.GetDestinationById | apps/destinations/src/services/destination-service.ts:28-38 | lookup succeeds iff some destination has the id, and then yields the first such one; otherwise it fails with `Destination with ID <id> not found` |
| DestinationService.AnyTagMatches | apps/destinations/src/services/destination-service.ts:48-52 | true iff some tag is a string whose lower-case form contains the query |
| DestinationService.Matches | apps/destinations/src/services/destination-service.ts:45-52 | the filter's test for a lower-cased query; characterised by `AnyTagMatches` and `BareDestinationMatchesByNameOnly` |
| DestinationService.KeepMatching | apps/destinations/src/services/destination-service.ts:44-53 | the filter keeps only matching destinations, keeps every matching one, and adds nothing |
| DestinationService.KeepMatchingKeepsOrder | apps/destinations/src/services/destination-service.ts:44-53 | the filter keeps order and multiplicity: its result is picked out of the list by increasing positions that include every matching destination |
| DestinationService.SearchDestinations | apps/destinations/src/services/destination-service.ts:40-54 | search returns exactly the destinations whose name, description or a string tag, lower-cased, contains the lower-cased query, in their original order and multiplicity (a subsequence of the list covering every match) |
| DestinationService.AllMatchingKept | apps/destinations/src/services/destination-service.ts:44-53 | when every destination matches, the filter returns the list unchanged |
| DestinationService.EmptyQueryMatchesAll | apps/destinations/src/services/destination-service.ts:40-54 | the empty query returns every destination in order |
| DestinationService.SearchIgnoresQueryCase | apps/destinations/src/services/destination-service.ts:43 | searching for a query and for its lower-case form gives the same result |
| DestinationService.BareDestinationMatchesByNameOnly | apps/destinations/src/services/destination-service.ts:46-52 | a destination without description and tags matches iff its lower-cased name contains the query |
| Strings.Lower | apps/destinations/src/services/destination-service.ts:43 | `toLowerCase` keeps the length and maps each character (ASCII letters only) |
| Strings.IncludesAt | apps/destinations/src/services/destination-service.ts:46 | `includes` holds iff the query occurs at some position of the string |

## Left out

- Browser and runtime services are inputs, not effects: the location origin, `NODE_ENV`, whether the page is framed, the iframe list, `Date.now()`, `new Date().toISOString()`, the random id of `generateId` (message-factory.ts:68-73) and the set of callbacks or iframes that throw are parameters.
- The bus's logging (`console.log` and `console.warn` when `debug` is on, and the `console.error` for a throwing callback, which is unconditional) is not modelled; failures it logs are returned in the reports instead.
- MessageBus.Bus.Send: assumes posting to the parent window does not throw; the code has no guard there, and a throw would abort the iframe loop.
- MessageBus.Bus.HandleMessage: callbacks are opaque ids with no effects, so a callback that subscribes or unsubscribes during dispatch (which a live `Set.forEach` would observe) is not modelled.
- MessageBus.Bus.SubscribeTyped: the wrapper is an id given by the caller; that it forwards only the data to the typed callback is not modelled.
- `sendTo` and `destroy` (message-bus.ts:161-176, 226-230) are defined but not part of the returned bus object, so they are unreachable and not modelled.
- The `in` test of `isValidMessageType` also sees inherited property names such as `toString`; the model covers own keys only.
- Logging.WithDefaults: an option passed explicitly as `undefined` overrides the default in the code's object spread; the model treats it as not supplied.
- Logging.Logger.Log: how the console renders its arguments is not modelled; the emitted call (channel, text, argument) is.
- React glue is not modelled: contexts, hooks, effect set-up and clean-up, re-rendering, the 100 ms `APP_READY` timer of the message provider, and StrictMode calling state updaters twice. The 5 s loading timer is the `OnLoadingTimeout` event.
- DestinationState.DestinationProvider.SelectDestination: reads the current list; the code's callback may read the list of an earlier render.
- The service's simulated delays (`setTimeout`) and the copies it returns (array and object identity) are not modelled; results are values.
- Strings.Lower: maps ASCII letters only; Unicode case mapping is not modelled.
- Strings.NatToString: gives the plain decimal digits for every natural; JavaScript's `String(n)` does so only below 10^21 and writes larger numbers in exponent form (`1e+21`), and JSON ids above 2^53 are not held exactly, so the model is faithful for numeric ids below 2^53 only.
- DestinationService.New: numeric ids are natural numbers below 2^53 (see `Strings.NatToString`); other JavaScript numbers (negative, fractional) are not modelled, nor the floating-point fields (position, radius, emission, price and similar), which the core never reads.
- Configuration values are kept whole (`Value`); nested objects are not merged, as in the code.
- The remaining files of the repository (the apps' UI components, the web-component wrappers, the documentation site) are not part of this model.

## Findings

| source | as written | input that shows it | evidently intended | confidence | as-written member | corrected member |
|---|---|---|---|---|---|---|
| packages/messaging/src/constants/type-map.ts:40-50 | `type in { ...Object.values(DESTINATION_MESSAGES), ...Object.values(SYSTEM_MESSAGES) }` spreads two arrays into an object, whose keys are the indices `"0"`, `"1"`, `"2"` | `isValidMessageType('destination.selected')` is false, while `isValidMessageType('0')` is true | true exactly for the six message-type values | high; not executed | TypeMap.RealTypesRejected | TypeMap.KnownTypesAccepted |
