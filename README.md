# go-astibob routing and registry core, in Dafny

go-astibob is a distributed automation platform. One Index process is the hub. Worker processes register with it and host abilities whose runnables can be started and stopped. UI sessions connect to the Index over websockets. Every node exchanges `Message`s, which are routed by matching them against `Identifier` filters.

This project models the routing and registry core of that system:

- `message.dfy` (module `Messages`) covers the message catalogue of `message.go`:
  - the identifier types and message-name constants;
  - the `Message`, `Identifier`, `Worker`, `Ability`, `Metadata`, `WelcomeUI` and `UI` records;
  - `Identifier.match`;
  - the `New...Message` constructors and the `Parse...Payload` parsers.

  Payloads are JSON value trees. Encoding follows the records' `json` struct tags, including `omitempty` and the embedded `Metadata`. Decoding follows `encoding/json` filling a zero value: `null` and missing keys leave zero values, and one ill-typed element fails the whole decode. Every constructor with a payload is proved to round-trip through its parser, for the strings a Dafny `string` can hold (see "## Left out" for invalid UTF-8 and for nil slices).
- `index_ui.dfy` (module `IndexUI`) covers the Index's UI side from `index/ui.go`:
  - the reference-counted subscription table `us` (message name to the set of subscribed session names);
  - `registerUI`, `unregisterUI`, `sendMessageToUI` and the guards of `extendUIConnection`;
  - `templateData`.
- `worker_routing.dfy` (module `WorkerRouting`) covers the pure decisions of `worker/worker.go`:
  - the handler table registered by `New`, and which handlers a message reaches under the dispatcher's matching rules as modelled here (see "## Left out");
  - the sibling request URL;
  - how `sendRequestToWorker` reads an answer.
- `worker.dfy` (module `WorkerNode`) covers a Worker's state, from `worker/worker.go` and `worker/ui.go`:
  - the UI want-set `us` and the sibling map `ws`;
  - the sibling record `worker`, with `newWorker` and `toMessage`;
  - `addUIMessageNames`, `deleteUIMessageNames`, `sendMessageToUI`;
  - `sendMessageToWorker`, with its target selection and its send loop that stops at the first failure.
- `consistency.dfy` (module `Consistency`) connects the two registries. The Index announces the names a registration creates and the names a disconnection orphans. A Worker applies those announcements to its want-set. If the want-set equals the Index table's keys before, it still equals them after.
- `common.dfy` (module `Common`) holds `Option`, `Result` (Go's `(value, err)`), one `Error` constructor per error site, and sequence helpers.

State that the Go code mutates in place is a Dafny `class` with `modifies` clauses: the Index (`us` and its registered UI clients), a Worker (`us` and `ws`), and a sibling record (`rs`). The loops over Go maps pick the next key arbitrarily, because Go's iteration order is unspecified. Where the order matters, a ghost output records the order that was taken.

Three outside outcomes become parameters:

- the websocket write's outcome (`writeFailure`);
- the keep-alive call's outcome (`extendFailure`);
- a function from request URL to HTTP outcome (`respond`).

### Behaviour of the code worth knowing

- **Identifier matching.** In `Identifier.match`, an unset `Name` or `Worker` accepts any candidate, but an unset `Type` does not. A filter without `Types` requires its `Type` to equal the candidate's `Type`, or to be in the candidate's `Types`. So the all-unset identifier matches only candidates with an empty type (`Messages.AllUnsetFilterMatchesOnlyTypeless`).
- **Missing target in `sendMessageToWorker`.** The branch for a nil `To` is commented `// Invalid to` and wraps an error as "worker: no to" (worker/worker.go:184-187). The error it wraps is still nil at that point, and `errors.Wrap(nil, ...)` returns nil. So a message without `To` is dropped with no error, and the model does the same (`WorkerNode.Worker.SendMessageToWorker`).

## Model

| member | source | states |
|---|---|---|
| Messages.TypeSetsMustIntersect | message.go:49-60 | when filter and candidate both carry type sets, they match on type exactly when the sets intersect |
| Messages.FilterTypeSetContainsType | message.go:61-65 | when only the filter carries a type set, the candidate's single type must be in it |
| Messages.CandidateTypeSetContainsType | message.go:67-70 | when only the candidate carries a type set, the filter's type must be in it |
| Messages.SingleTypesMustBeEqual | message.go:71-73 | when neither side carries a type set, the types must be equal (the empty type included) |
| Messages.NameMismatchRejects | message.go:77-79 | a set filter name rejects a candidate whose name is nil or different |
| Messages.WorkerMismatchRejects | message.go:82-84 | a set filter worker rejects a candidate whose worker is nil or different |
| Messages.UnsetNameAndWorkerAreWildcards | message.go:76-85 | with nil name and worker, only the type check decides the match |
| Messages.AllUnsetFilterMatchesOnlyTypeless | message.go:47-86 | the all-unset identifier accepts exactly the candidates with an empty type, or with "" in their type set |
| Messages.MatchReflexive | message.go:47-86 | an identifier with a nil or non-empty type set matches itself |
| Messages.EmptyTypeSetMatchesNothing | message.go:49-60 | a filter whose type set is non-nil but empty accepts no candidate |
| Messages.Unmarshal | message.go:139-142 | an absent payload fails with the unmarshaling error; otherwise the result is Ok exactly when the payload decodes, and then holds the decoded value |
| Messages.ErrorBodyMessage | worker/worker.go:269-272 | an object body with a string `message` yields that string, whatever its other keys; a non-empty result always comes from such a key; no body gives "" |
| Messages.ListRoundTrip | message.go:90-97 | decoding an encoded slice gives the slice back, given a round trip for its elements |
| Messages.ArrayFieldRoundTrip | message.go:94 | a slice field round-trips whether or not omitempty dropped it |
| Messages.StringRoundTrip | message.go:185-191 | a string payload decodes to the string that was encoded |
| Messages.AbilityRoundTrip | message.go:99-108 | an ability, with its embedded metadata flattened into the object, decodes back to itself |
| Messages.WorkerRoundTrip | message.go:93-97 | a worker record decodes back to itself, with empty abilities and address omitted |
| Messages.WorkersRoundTrip | message.go:245-251 | a worker list decodes back to itself |
| Messages.WelcomeUIRoundTrip | message.go:88-91 | a UI welcome record decodes back to itself |
| Messages.NewMessage | message.go:114-116 | a new message has the zero sender, an empty name, no payload and no target |
| Messages.NewEnvelope | message.go:118-124 | newMessage sets sender, target and name and carries no payload |
| Messages.ParseCmdWorkerRegisterPayload | message.go:138-144 | a message without payload fails to parse |
| Messages.NewCmdWorkerRegisterMessage | message.go:126-136 | the register command carries sender, target and name, and its payload parses back to the given worker |
| Messages.NewEventAbilityCrashedMessage | message.go:146-148 | the crashed event carries sender, target, its name and no payload |
| Messages.NewEventAbilityStartedMessage | message.go:150-152 | the started event carries sender, target, its name and no payload |
| Messages.NewEventAbilityStoppedMessage | message.go:154-156 | the stopped event carries sender, target, its name and no payload |
| Messages.ParseEventUIDisconnectedPayload | message.go:185-191 | a message without payload fails to parse |
| Messages.NewEventUIDisconnectedMessage | message.go:158-168 | the UI-disconnected event's payload parses back to the session name |
| Messages.NewEventUIWelcomeMessage | message.go:170-183 | the UI welcome event's payload decodes back to the session name and the worker list |
| Messages.ParseEventWorkerDisconnectedPayload | message.go:205-211 | a message without payload fails to parse |
| Messages.NewEventWorkerDisconnectedMessage | message.go:193-203 | the worker-disconnected event's payload parses back to the worker name |
| Messages.ParseEventWorkerRegisteredPayload | message.go:225-231 | a message without payload fails to parse |
| Messages.NewEventWorkerRegisteredMessage | message.go:213-223 | the worker-registered event's payload parses back to the worker |
| Messages.ParseEventWorkerWelcomePayload | message.go:245-251 | a message without payload fails to parse |
| Messages.NewEventWorkerWelcomeMessage | message.go:233-243 | the worker welcome event's payload parses back to the worker list |
| Messages.ParseUIRegisterPayload | index/ui.go:146-151 | a message without payload fails to parse |
| Messages.UIRegisterRoundTrip | index/ui.go:146-151 | a UI registration payload parses back to the session name and its message names |
| Messages.ParseUIMessageNamesPayload | worker/ui.go:10-15 | a message without payload fails to parse |
| Messages.UIMessageNamesRoundTrip | worker/ui.go:9-15 | a list of names encoded as a JSON array parses back to the same list |
| IndexUI.NewNamesAreTheFreshNames | index/ui.go:155-164 | the names a subscription announces are distinct, and they are exactly the requested names that had no entry before |
| IndexUI.SubscribingKeepsEntriesNonEmpty | index/ui.go:153-168 | after a subscription, every entry is still non-empty and the session is in every requested entry |
| IndexUI.UnsubscribingRemovesTheSession | index/ui.go:197-212 | after a disconnection, the session is in no entry and every entry is non-empty; the orphaned names are those whose only subscriber was the session |
| IndexUI.TemplateStatusCode | index/ui.go:288-295 | the code is 404 exactly for the 404 page, and 200 for every other page |
| IndexUI.Index.constructor | index/ui.go:153-168 | a new Index has no subscriptions and no client, so every entry is non-empty from the start |
| IndexUI.Index.SendMessageToUI | index/ui.go:100-137 | no target gives the invalid-to error; a named target is the only recipient; an unsubscribed name sends nothing; otherwise each subscriber receives the message exactly once |
| IndexUI.Index.RegisterUI | index/ui.go:139-187 | an unnamed sender and a bad payload are rejected and change nothing; otherwise the session subscribes to every name, and the names that were new are returned in order of first occurrence |
| IndexUI.Index.Subscribe | index/ui.go:153-169 | the subscription loop: every requested entry gains the session, new keys are created on first use, and the table stays non-empty |
| IndexUI.Index.UnregisterUI | index/ui.go:189-234 | a bad payload changes nothing; otherwise the session leaves every entry, the emptied entries are removed and returned, and its client is unregistered |
| IndexUI.Index.ExtendUIConnection | index/ui.go:236-256 | an unnamed sender and an unknown client are rejected; the call succeeds exactly when the client exists and the keep-alive succeeds |
| WorkerRouting.Handlers | worker/worker.go:77-92 | a handler is reached exactly when some entry for it has a condition that accepts the message |
| WorkerRouting.ToConditionsOnConcreteTarget | worker/worker.go:87-92 | for a concrete target, the index, UI and sibling conditions are decided by the target's type and are mutually exclusive |
| WorkerRouting.OutboundRoute | worker/worker.go:77-92 | an unhandled name with a concrete target reaches exactly the index, UI or sibling sender chosen by the target's type, or no handler |
| WorkerRouting.ToEntriesRoute | worker/worker.go:87-92 | the three `To` entries that close the table reach exactly the outbound handler the target's type selects, or none for a nil target |
| WorkerRouting.UIMessageNamesRoute | worker/worker.go:82-92 | the UI message-name add and delete messages reach their own handler, followed by the outbound handler their target selects |
| WorkerRouting.AnnouncedUIMessageNamesRoute | index/ui.go:175-178 | as the Index sends them, to `{Type: worker}`, the add and delete messages reach their own handler and then the sibling sender |
| WorkerRouting.RequestError | worker/worker.go:251-283 | a request succeeds exactly when it is answered with status 200; a failed answer reports an error message or a status code |
| WorkerRouting.FailedAnswerReportsBodyOrStatus | worker/worker.go:267-281 | a failed answer reports the non-empty string `message` of an object body, whatever its other keys; with no body, a non-object body or no such message, it reports the status code |
| WorkerNode.ByNameKeepsLastOfEachName | worker/worker.go:149-152 | indexing runnables by name keeps one runnable per name, the last one listed under it |
| WorkerNode.RegistrationRoundTrip | worker/worker.go:140-173 | a registration turned into a sibling and back lists exactly the last runnable of each name, once each |
| WorkerNode.Sibling.constructor | worker/worker.go:140-154 | newWorker copies the address and the name and indexes the runnables by name |
| WorkerNode.Sibling.ToMessage | worker/worker.go:156-173 | toMessage lists every indexed runnable exactly once and keeps the address and the name |
| WorkerNode.AddingNamesIsIdempotent | worker/ui.go:17-22 | adding the same names twice leaves the want-set that adding them once leaves |
| WorkerNode.UnlistedNamesAreUntouched | worker/ui.go:34-39 | add and delete leave the names they do not list untouched; deleting an absent name changes nothing |
| WorkerNode.SendToSiblings | worker/worker.go:230-248 | one POST to each target's messages endpoint, in order; it stops right after the first failure and reports that sibling's error; there is no error exactly when every target succeeded |
| WorkerNode.Worker.constructor | worker/worker.go:48-94 | New starts with empty want-set and sibling map and registers the handler table |
| WorkerNode.Worker.AddUIMessageNames | worker/ui.go:9-24 | a bad payload changes nothing and is reported; otherwise the listed names join the want-set |
| WorkerNode.Worker.DeleteUIMessageNames | worker/ui.go:26-41 | a bad payload changes nothing and is reported; otherwise the listed names leave the want-set |
| WorkerNode.Worker.SendMessageToUI | worker/ui.go:43-66 | only this worker's messages whose name is wanted are written, exactly once; a failed write is reported |
| WorkerNode.Worker.BroadcastTargets | worker/worker.go:211-228 | the targets are exactly the siblings whose name is not this worker's, one per entry of the sibling map |
| WorkerNode.Worker.SendMessageToWorker | worker/worker.go:175-249 | messages from elsewhere, without target, or aimed at this worker are dropped without error; an unknown target gives worker-not-found; a named sibling, or else every other sibling, is sent the message as the send loop specifies |
| Consistency.RegistrationKeepsWorkerInStep | index/ui.go:153-185 | after a registration, a want-set equal to the old table keys, with the announced names added, equals the new table keys |
| Consistency.DisconnectionKeepsWorkerInStep | index/ui.go:197-232 | after a disconnection, a want-set equal to the old table keys, with the announced names deleted, equals the new table keys |

## Left out

- JSON text is not modelled. Payloads are JSON value trees, so byte-level syntax, numbers, duplicate keys and `encoding/json`'s case-insensitive key matching are not captured.
- The marshaling error branches of the `New...Message` constructors are not modelled. Marshaling these record types cannot fail.
- The marshaling error branch of the send loop in `sendMessageToWorker` (worker/worker.go:237-240) is not modelled. A `Message` whose payload is a JSON value tree always marshals.
- Invalid UTF-8 in names is not modelled. Go strings are bytes, and `json.Marshal` replaces invalid UTF-8 with U+FFFD, so such a name does not round-trip in Go. A Dafny `string` holds characters only, so the round trips of `NewCmdWorkerRegisterMessage`, `NewEventUIDisconnectedMessage`, `NewEventWorkerDisconnectedMessage`, `NewEventWorkerRegisteredMessage`, `NewEventWorkerWelcomeMessage` and `NewEventUIWelcomeMessage` cover valid text only.
- Nil and empty slices are one value in the model. `json.Marshal` writes a nil `[]Worker` as `null` and an empty one as `[]`; `EncodeWorkers` always writes an array. Both decode to an empty list, which the model does not tell apart from nil.
- The dispatcher's matching of a condition is not part of the modelled files. `WorkerRouting.ConditionsMatch` assumes these rules: a nil condition field accepts anything; a `From` or `To` condition goes through `Identifier.match`; a `To` condition rejects a message whose `To` is nil. The routing lemmas hold under these rules.
- Transport is not modelled: websocket clients, the HTTP client, `sendMessage` to UI sessions and the dispatcher's task runner. Their outcomes are parameters.
  - `IndexUI.Index.SendMessageToUI` returns the list of recipients. The send itself and its "sending message failed" error are not modelled.
  - `WorkerNode.SendToSiblings` records every request it attempted, including one whose creation failed.
- Concurrency is not modelled: the mutexes and the asynchronous handler tasks. Each operation is atomic.
- `index/ui.go`: `uiName`, `handleUIWebsocket`, `handleUIMessage`, `homepage`, `web` and `references` are websocket and HTTP plumbing. `templateData` returns no page data in the source, so only its status code is modelled.
- `registerUI` and `unregisterUI` build and dispatch the UI message-names add and delete messages. Their constructors are not part of `message.go`, so the model returns the announced names instead (`added`, `removed`). `Consistency` states what a Worker does with them.
- The Index's websocket client registry is modelled only as the set of registered session names `clients`. Client registration happens in `handleUIWebsocket`, which is not modelled.
- `unregisterUI` calls `ParseUIDisconnectedPayload`, which is not part of `message.go`. It is modelled by `ParseEventUIDisconnectedPayload`, the parser of the same payload.
- `ParseUIRegisterPayload`, `ParseUIMessageNamesAddPayload` and `ParseUIMessageNamesDeletePayload` are not part of `message.go`. They are modelled on the `UI` record with keys `name` and `message_names`, and on a JSON array of strings. The add and delete parsers share one model.
- Parser contracts (`ParseCmdWorkerRegisterPayload`, `ParseEventUIDisconnectedPayload`, `ParseEventWorkerDisconnectedPayload`, `ParseEventWorkerRegisteredPayload`, `ParseEventWorkerWelcomePayload`, `ParseUIRegisterPayload`, `ParseUIMessageNamesPayload`): each one's own contract states only the absent-payload error. Its round trip is stated on the matching constructor, or on `UIRegisterRoundTrip` and `UIMessageNamesRoundTrip` for the two UI payloads, whose constructors are not part of `message.go`.
- `Identifier.WorkerName`, `RunnableIdentifierType` and the message names registered by `New` are not part of `message.go`:
  - `WorkerName` is a function fixed when the Worker is built.
  - The constants are the fields of `WorkerRouting.Catalog`. The lemmas assume only that these constants are pairwise distinct.
- These Worker handlers are registered by `New` but their bodies are not part of this model: `registerListenables`, `doneMessage`, `startRunnableFromMessage`, `stopRunnableFromMessage`, `registerWorker`, `unregisterWorker`, `finishRegistration` and `sendMessageToIndex`. As a result, nothing in the model changes `ws`.
- These Worker fields and methods are not modelled: `ds`, `id`, `ls`, `ols`, `rs`, `HandleSignals`, `Wait`, `On`, `Close`, `workerIdentifier` and `runnableIdentifier`.
- A runnable's content other than its name is opaque (`RunnableDetails`).
- Logging is not modelled.
