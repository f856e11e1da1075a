# Verified model of the scafctl plugin SDK

The SDK lets a host process drive provider and auth handler plugins over gRPC. This project
models the parts of it that hold state, branch or convert, and proves what they promise.

- **Host connection** (`HostSlot.dfy`, `HostProtocol.dfy`, `HostServers.dfy`). The auth handler
  server dials the host outside its mutex. `HostProtocol` is the transition system of any number
  of concurrent configure, stop and other calls, one step per critical section, dial or plugin
  call; a dial fails or returns a new connection. Connections are conserved, a stop wins over
  dials in flight, and to its observers every run is a history of an atomic slot. `HostServers`
  holds the servers' classes; each locked section is one step of the protocol, and the provider
  server, which dials under its lock, is the same slot.
- **Streams** (`Streams.dfy`). `Login` and `ExecuteProviderStream` over a stream whose n-th Send
  fails or not as an arbitrary function of n.
- **Settings** (`Settings.dfy`, `SettingsRuns.dfy`). Go maps are objects and byte slices are
  arrays, so that aliasing is visible. `SettingsRuns.Run` executes whole histories with plugins
  that overwrite bytes and edit maps, and every execution sees what a pure ledger of the
  configures says, which no write reaches except one into the bytes of a configuration.
- **Schemas** (`JsonSchema.dfy`, `SchemaConversion.dfy`, `SchemaMeaning.dfy`). The structured
  fallback form of a schema, with int32 narrowing and zero-means-absent fields, against what
  schemas accept (JSON Schema Validation, draft 2020-12, sections 6.1 to 6.5).
- **Descriptors** (`Descriptor.dfy`, `Validation.dfy`, `ValidDescriptor.dfy`,
  `ReportedErrors.dfy`, `DefaultSchemas.dfy`, `DescriptorConversion.dfy`, `WireForms.dfy`,
  `Transport.dfy`). Validation with its exact list of errors and its declarative meaning, the wire
  conversions with what each wire field carries and what is read from any sender, and what survives
  the trip to the host, including proto3's loss of nil versus empty.
- **Sessions** (`Sessions.dfy`). The multi-cluster example's store against its call history.

Parameters stand for what the code calls but does not contain: the JSON library is a `Codec` with
`Laws` (what is encoded decodes to the same value; compacting raw JSON keeps its value), the
version parser is a function, the clock is an argument, and patterns, formats and unlisted schema
keywords are interpreted by an arbitrary `Meanings`.

## Properties that are false of the code

Each comes with a condition that says exactly when it holds, or with an input that breaks it.

- A dial begun before a stop can install after it, once a later configure has reopened the slot:
  `StaleDialCanInstall`; `CommitInstallsIff` is the exact condition.
- Configure-time settings are copied map by map, not byte by byte, so a plugin that writes into the
  bytes of `cfg.Settings` changes later executions: `ConfigureBytesLeak`, and `LeakOneByte` on the
  heap; `WriteShowsIff` and `WriteConfigured` are the exact conditions.
- The structured form can reject what the original accepts when a maximum above the int32 range
  wraps to a smaller positive number: `LargeMaximumRejects`; `StringMaximumWeakensIff`,
  `MaximumWeakensIff`, `MaximumKeptIff`, `MinimumWeakensIff`, `MinimumKeptIff` and `EnumKeptIff` are exact.
- A descriptor that passes validation in the plugin can fail it in the host: `NilEntryLost`;
  `ValidityArrives` is the exact condition.
- Skipping nil operations gives the same operations but not always the same nil-ness:
  `NilOperationsSkipped`.
- Tokens do not separate the unnamed instance from one named "default": `TokensDistinguishInstances`.
- A finished stream reports success even when a Send failed: `FinishedStreamCanLose`;
  `SuccessMeansDelivered` is the exact condition.

Where the comments and the code differ, the code is modelled: provider/context.go:74-75 warns that
settings bytes may be shared across executions, while withSettings copies them for each one; and
the comment on ValidateDescriptor (provider/provider.go:381-385) does not mention the checks of
WriteOperations and Operations that it performs.

## Model

| member | source | states |
|---|---|---|
| AtomicSlot.WriteOnce | plugin/grpc_auth_server.go:232-239 | without a disconnect in between, a filled slot keeps its connection |
| AtomicSlot.ReadersAgree | plugin/grpc_auth_server.go:245-253 | successful reads with no disconnect between them return the same connection |
| AtomicSlot.FullIff | plugin/grpc_auth_server.go:200-241 | the slot is full exactly when some connect has no later disconnect |
| HostProtocol.RunsKeepInv | plugin/grpc_auth_server.go:164-241 | the inductive invariant of every interleaving: fields coherent, the three places of a connection disjoint, nothing closed twice, nothing lost |
| HostProtocol.ConnectionsConserved | plugin/grpc_auth_server.go:213-241 | each dialed connection is held by one thread, installed or closed, exactly one of them and closed at most once |
| HostProtocol.NoLeakAtRest | plugin/grpc_auth_server.go:200-241 | when no thread is between dial and commit, the open connections are the installed one or none |
| HostProtocol.StopDominates | plugin/grpc_auth_server.go:173-180 | from a close step until the next reopen step the server is stopped and holds neither connection nor client |
| HostProtocol.OverlappingDialDiscarded | plugin/grpc_auth_server.go:226-237 | a dial that reaches its commit in that time has its connection closed there |
| HostProtocol.ClosedIff | plugin/grpc_auth_server.go:33-35 | the stopped flag says that some close step has no later reopen step |
| HostProtocol.ThreadProgress | plugin/grpc_auth_server.go:164-196 | a thread's position tells every step its call has taken, in order, and a thread that has not begun has taken none |
| HostProtocol.CallsMove | plugin/grpc_auth_server.go:164-196 | a call can take a step exactly until it is done, and a dial or a plugin can both fail and succeed |
| HostProtocol.ReplyMeans | plugin/grpc_auth_server.go:177-196 | a stop replied success exactly if it closed the slot; a configure failed exactly if its dial failed or it closed the slot |
| HostProtocol.SuccessfulStopEmpties | plugin/grpc_auth_server.go:190-196 | once a stop has replied success, nothing is installed until a reopen step after its close step |
| HostProtocol.RunsRefineAtomicSlot | plugin/grpc_auth_server.go:215-253 | every run is a history of the atomic slot whose content is the installed connection; losing dials are invisible |
| HostProtocol.SnapshotsAgree | plugin/grpc_auth_server.go:245-253 | for any two snapshot steps of a run with no close step between them, if the first returned a client then the second returned the same one |
| HostProtocol.ObserversAgree | plugin/grpc_auth_server.go:215-253 | in the trace of a run, any two successful observations, snapshots and connection checks alike, with no disconnect between them agree |
| HostProtocol.SnapshotReadsSlot | plugin/grpc_auth_server.go:245-253 | the client a call passes to the plugin is the content of the slot at its snapshot |
| HostProtocol.CheckDialsIff | plugin/grpc_auth_server.go:220-227 | a check step leads to a dial exactly when the slot is empty at that step, whether or not the server is stopped |
| HostProtocol.CommitInstallsIff | plugin/grpc_auth_server.go:230-240 | a commit installs exactly when no close step is in force and every earlier connect was disconnected |
| HostProtocol.StaleDialCanInstall | plugin/grpc_auth_server.go:173-180 | a run in which a dial begun before a stop is installed after it |
| HostServers.PickDialFunc | plugin/grpc_auth_server.go:257-265 | the override wins, the broker comes second, and there is no dial function exactly when both are absent |
| HostServers.AuthServer.ClearStopped | plugin/grpc_auth_server.go:174-176 | is the reopen step |
| HostServers.AuthServer.CommitOrDiscard | plugin/grpc_auth_server.go:230-240 | is the commit step |
| HostServers.AuthServer.CloseHostClient | plugin/grpc_auth_server.go:200-211 | is the close step |
| HostServers.AuthServer.EnsureHostClient | plugin/grpc_auth_server.go:215-241 | alone: dials only without a client, and fails exactly when that dial fails |
| HostServers.AuthServer.ConfigureAuthHandler | plugin/grpc_auth_server.go:164-188 | the fields and the reply that an uninterrupted configure leaves |
| HostServers.AuthServer.StopAuthHandler | plugin/grpc_auth_server.go:190-196 | closes exactly when the plugin accepted the stop |
| HostServers.ConfigureIsRun | plugin/grpc_auth_server.go:164-188 | the uninterrupted configure is a run of the protocol with the same fields and reply |
| HostServers.StopIsRun | plugin/grpc_auth_server.go:190-196 | so is the uninterrupted stop |
| HostServers.ConfigureOutcome | plugin/grpc_auth_server.go:173-187 | with or without a host service id and a dial function: a failure leaves no connection, a success keeps an existing one and otherwise has dialed exactly if it could, and when the server is stopped afterwards |
| HostServers.ProviderConnection.ConnectIfAbsent | plugin/grpc_server.go:111-125 | the lock-held dial is one step: connect if absent, nothing on failure |
| HostServers.ProviderConnection.StopProvider | plugin/grpc_server.go:201-213 | disconnects exactly when the plugin accepted the stop |
| HostServers.ProviderOutcome | plugin/grpc_server.go:111-125 | a configure keeps an existing connection and otherwise installs one exactly if it dials with success; only an accepted stop closes, and it closes the installed one |
| HostServers.ProviderRefinesAtomicSlot | plugin/grpc_server.go:111-125 | the provider server is the same atomic slot, and each connection is installed or closed once |
| Streams.FirstFailureIsUnique | plugin/grpc_auth_server.go:65-80 | the stop-at-first-failure rule determines how many messages are attempted |
| Streams.Attempted | plugin/grpc_auth_server.go:67-79 | the number attempted satisfies that rule |
| LoginStream.DeviceCodeCallback.Call | plugin/grpc_auth_server.go:66-80 | sends one prompt unless a Send failed before, and remembers a failure |
| LoginStream.Login | plugin/grpc_auth_server.go:61-105 | the attempts on the stream, and that the call fails exactly when the terminal Send fails |
| LoginStream.LoginProtocol | plugin/grpc_auth_server.go:61-105 | a prefix of the prompts up to the first failed Send, then one terminal message, a Result exactly for a non-nil response without error |
| ForwardStream.StreamForwarder.Forward | plugin/grpc_server.go:348-377 | attempts the translation of a non-empty chunk unless an earlier Send failed |
| ForwardStream.TranslateFirstField | plugin/grpc_server.go:354-373 | the first set field decides the message and its data, including the encoding failure, and only an empty chunk is dropped |
| ForwardStream.ExecuteProviderStream | plugin/grpc_server.go:134-169 | the attempts and the status of one streamed execution, for every plugin behaviour and failure pattern; `ExecutionProtocol` and `StatusMeans` say what these are |
| ForwardStream.ExecutionProtocol | plugin/grpc_server.go:134-169 | a request error alone, or the translations up to the first failed Send and then, only after an ordinary failure, its Result |
| ForwardStream.StatusMeans | plugin/grpc_server.go:157-169 | unimplemented exactly for a plugin without streaming, with its error; a Send error exactly when the handler's own last message failed; success otherwise |
| ForwardStream.OutputThenFailure | plugin/grpc_server.go:157-167 | output followed by an ordinary failure yields exactly one Result, last; any other ending none |
| ForwardStream.SuccessMeansDelivered | plugin/grpc_server.go:155-169 | exactly when a successful status means that everything was attempted and no Send failed: a request error, an unsupported stream, a failure that could not be sent, or no chunk lost |
| ForwardStream.OnlyFinishHidesLoss | plugin/grpc_server.go:168 | on a stream that stays broken after a failed Send, success hides a loss exactly when a chunk failed and the plugin finished normally |
| ForwardStream.FinishedStreamCanLose | plugin/grpc_server.go:374-376 | two chunks of output, one lost and one never attempted, and a successful status |
| Settings.BytesClone | plugin/grpc_server.go:245 | a new array with the same bytes |
| Settings.ProviderServer.ConfigureProvider | plugin/grpc_server.go:84-132 | records a map of its own for the provider, even if the dial or the plugin then fails, apart from the one handed to the plugin, which gets one exactly if the dial did not fail; no other provider is touched |
| Settings.ProviderServer.WithSettings | plugin/grpc_server.go:236-251 | unchanged context exactly when neither the provider's stored map nor the request has a key; else new arrays, one per key of both, with the request's value where it has one and the stored value elsewhere |
| Settings.EffectiveIs | plugin/grpc_server.go:236-251 | the same key by key for the contents that runs are described with |
| SettingsRuns.LastConfigureIs | plugin/grpc_server.go:96-101 | the latest configure of a provider decides its base settings, with the bytes written since into the slices it handed over; without one there are none |
| SettingsRuns.Run | plugin/grpc_server.go:84-251 | on the heap, every execution of every history sees the latest configuration as recorded, overridden key by key; map edits and writes to the settings of executions change nothing |
| SettingsRuns.WriteConfigured | plugin/grpc_server.go:86-95 | writing a configure-time byte leaves an execution alone exactly when the value stays or all its keys are overridden |
| SettingsRuns.WriteShowsIff | plugin/grpc_server.go:86-95 | after any history, exactly which plugin write changes what the next execution sees: one that changes a byte handed over by the provider's latest configure, under a key that the execution does not set |
| SettingsRuns.ConfigureBytesLeak | plugin/grpc_server.go:86-95 | a history in which an execution sees a byte that the plugin wrote into its configuration |
| SettingsRuns.LeakOneByte | plugin/grpc_server.go:236-251 | the same on the heap, written through the settings map that the plugin was handed |
| SchemaConversion.Wrap32Is | plugin/grpc_server.go:413-424 | Go's int32 conversion: the one number of the signed 32-bit range congruent modulo 2^32 |
| SchemaConversion.ConvertParam | plugin/grpc_server.go:396-456 | paramToProto, field by field; `WireForms.WireProperty` says what each field carries |
| SchemaConversion.ConvertSchema | plugin/grpc_server.go:381-394 | schemaToProto: nil without properties, else every property with its required flag |
| SchemaConversion.RestoreParam | plugin/grpc_server.go:682-737 | protoParamToJSON, field by field; `WireForms.PropertyRead` says what is read |
| SchemaConversion.RestoreSchema | plugin/grpc_server.go:631-643 | protoSchemaToJSON for any map order: all properties, and the one sorted list of required names |
| SchemaConversion.FallbackIs | plugin/grpc_server.go:381-394 | there and back: each property converted, required intersected with the properties and sorted |
| WireForms.WireProperty | plugin/grpc_server.go:396-456 | a wire property carries each text, each bound modulo 2^32, each limit behind its flag, the default's value or the marshal error text, the first example and the marshallable enum values in order |
| WireForms.DefaultSurvives | plugin/grpc_server.go:398-404 | a default is there after the trip exactly if it was before, with the same value if it was JSON and as the marshal error text if not |
| WireForms.PropertyRead | plugin/grpc_server.go:682-737 | from any sender: positive bounds only, limits exactly with their flag, an example or enum value exactly if it decodes |
| WireForms.WireSchema | plugin/grpc_server.go:381-394 | no wire schema exactly without properties, else one wire property for each with its required flag |
| WireForms.SchemaRead | plugin/grpc_server.go:631-643 | from any sender: an object schema with the wire's properties and its required names in strict order, and nothing else |
| SchemaMeaning.PropertyTrip | plugin/grpc_server.go:396-456 | every field of a property that the trip changes, and that nothing else changes |
| SchemaMeaning.NarrowedBound | plugin/grpc_server.go:695-726 | a bound becomes absent or its wrapped value; unchanged exactly from 1 to 2^31-1; never larger when non-negative |
| SchemaMeaning.MinimumWeakensIff | plugin/grpc_server.go:415-421 | exactly when a minimum never becomes stricter |
| SchemaMeaning.MinimumKeptIff | plugin/grpc_server.go:699-702 | exactly when a minimum keeps its meaning |
| SchemaMeaning.MaximumWeakensIff | plugin/grpc_server.go:412-424 | exactly when a maximum never becomes stricter |
| SchemaMeaning.MaximumKeptIff | plugin/grpc_server.go:695-698 | exactly when a maximum keeps its meaning |
| SchemaMeaning.EnumRoundTrip | plugin/grpc_server.go:447-454 | an enum becomes its marshallable values, absent when there are none |
| SchemaMeaning.EnumKeptIff | plugin/grpc_server.go:727-735 | exactly when an enum keeps its meaning for JSON instances |
| SchemaMeaning.FallbackWeakens | plugin/grpc_server.go:645-656 | whatever object the original accepts the restored schema accepts, when no bound wraps to a stricter one |
| SchemaMeaning.FallbackKeepsMeaning | plugin/grpc_server.go:645-656 | on the fragment that travels both accept the same objects |
| SchemaMeaning.LargeMaximumRejects | plugin/grpc_server.go:412-414 | maxLength 2^32+5 becomes 5 and rejects an accepted object |
| SchemaMeaning.StringMaximumWeakensIff | plugin/grpc_server.go:412-414 | for every maxLength of a string property, the restored schema rejects no object that was accepted exactly when the maximum does not wrap to a smaller positive number |
| SchemaMeaning.FallbackNormal | plugin/grpc_server.go:631-643 | converting twice is converting once; required is the strictly sorted list of the required properties |
| Descriptor.GetOperation | provider/provider.go:241-248 | the first operation with the name |
| Descriptor.IsWriteOperation | provider/provider.go:199-211 | membership in WriteOperations, or the first named operation's flag when that field is nil |
| Descriptor.IsWriteIff | provider/provider.go:199-211 | a write list decides alone even when empty; without one the first operation with the name decides |
| Descriptor.EffectiveWriteOperations | provider/provider.go:222-238 | WriteOperations when not nil, else the write operations' names, nil only without operations; always in a new array, never the descriptor's own |
| Descriptor.EffectiveWritesAre | provider/provider.go:222-238 | nil exactly without a list and without operations; a name is in it exactly if listed, or without a list if some write operation has it |
| Descriptor.WriteNamesAppend | provider/provider.go:231-236 | derived names come in declaration order |
| Validation.ValidateDescriptor | provider/provider.go:386-455 | the complete list of errors, in order; the rows on `ReportedErrors` say which errors and which order |
| Validation.ValidateOperations | provider/provider.go:467-528 | the errors of both directions of the operations check |
| Validation.ValidateWriteOperations | provider/provider.go:436-446 | duplicates up to the first empty name, which ends the loop |
| ValidDescriptor.ValidationExact | provider/provider.go:386-455 | no errors exactly for descriptors that satisfy the declarative predicate |
| ReportedErrors.ValidationRules | provider/provider.go:357-374 | the same with the required fields and types of each capability spelled out; from and transform accept any entry, nil included |
| ReportedErrors.ErrorsAre | provider/provider.go:386-528 | an error is reported exactly if the descriptor has it, for every kind of error |
| ReportedErrors.LoopOrder | provider/provider.go:401-455 | schema errors come first, then write operations, then each operation, then the reverse check |
| ReportedErrors.LoopsAppend | provider/provider.go:401-528 | within a loop errors follow the order of its input |
| ReportedErrors.FieldsInOrder | provider/provider.go:412-418 | the fields of one capability are checked in sorted order |
| ReportedErrors.StageOrder | provider/provider.go:488-515 | of one operation, a duplicate name comes before its capabilities and those before the list of writes |
| Ordering.LessIff | provider/provider.go:417 | the order of sort.Strings: a string comes before another if it is a proper prefix of it or has the smaller character at the first difference |
| ValidDescriptor.DuplicatesCounted | provider/provider.go:488-496 | as many duplicate-operation errors as non-empty names minus distinct ones |
| ValidDescriptor.ClassificationCoherent | provider/provider.go:199-238 | on a valid descriptor IsWriteOperation and EffectiveWriteOperations agree, and agree with every declared operation |
| DefaultSchemas.DefaultOutputSchemas | provider/provider.go:537-558 | the default schema of each capability, repeats allowed |
| DefaultSchemas.DefaultsAre | provider/provider.go:545-558 | one object schema for each listed capability, with exactly the demanded fields and types and nothing else |
| DefaultSchemas.DefaultsExtend | provider/provider.go:537-543 | the defaults themselves keep every default property |
| DefaultSchemas.DefaultsSuffice | provider/provider.go:530-536 | the defaults, with anything added, validate |
| DefaultSchemas.DefaultsMinimal | provider/provider.go:419-433 | without one default property, or with another type for it, validation fails |
| DescriptorConversion.ConvertDescriptor | plugin/grpc_server.go:458-507 | descriptorToProto |
| WireForms.WireDescriptor | plugin/grpc_server.go:458-507 | every wire field against its descriptor field: raw bytes exactly for marshallable schemas, structured forms exactly for schemas with properties, lists element by element |
| DescriptorConversion.ConvertOperations | plugin/grpc_server.go:511-544 | operationsToProto |
| WireForms.WireOperation | plugin/grpc_server.go:511-544 | the same for one operation |
| DescriptorConversion.RestoreOperations | plugin/grpc_server.go:547-588 | protoToOperations |
| WireForms.OperationsRead | plugin/grpc_server.go:547-588 | from any sender: nil exactly for an empty list, else the non-nil operations in order, each with its fields and its non-nil examples |
| DescriptorConversion.RestoreSchemaOrFallback | plugin/grpc_server.go:645-656 | raw JSON first, then the structured form, then nil; `WireForms.SchemaFallsBack` says when and what |
| WireForms.SchemaFallsBack | plugin/grpc_server.go:645-656 | raw bytes that decode win; absent ones and ones that do not decode give the structured form, read in full, and nil exactly without one |
| DescriptorConversion.RestoreOutputs | plugin/grpc_server.go:658-680 | raw output schemas as a whole, else the structured ones, else nil |
| WireForms.OutputsRead | plugin/grpc_server.go:658-680 | with any raw schema present the result is exactly the ones that decode, even if none does; else the structured ones that are not nil; nil exactly if the wire has neither |
| DescriptorConversion.RestoreDescriptor | plugin/grpc_server.go:591-627 | ProtoToDescriptor, with the version error |
| WireForms.DescriptorRead | plugin/grpc_server.go:591-627 | rejected exactly for a version that is not empty and does not parse; else every field from any sender |
| DescriptorConversion.NilOperationsSkipped | plugin/grpc_server.go:547-555 | nil operations are skipped; nil and empty results differ exactly when only nil entries were given |
| WireForms.NonNilAppend | plugin/grpc_server.go:552-555 | skipping nil entries keeps the order of the others |
| Transport.DescriptorTrip | plugin/grpc_server.go:458-627 | to the wire and back changes exactly the listed fields, for marshallable and unmarshallable schemas alike |
| Transport.ReceivedIs | plugin/grpc_server.go:470-471 | the same through proto3, which turns empty lists into nil |
| Transport.OutputsTrip | plugin/grpc_server.go:491-505 | the output schemas that arrive, and in which form |
| Transport.ReceivedSchemaAccepts | plugin/grpc_server.go:621 | the host's input schema accepts every object that the plugin's accepts, when it travels as raw JSON or no bound wraps to a stricter one |
| Transport.ValidityArrives | provider/provider.go:386-455 | a valid descriptor arrives valid exactly when each declared capability's output schema arrives |
| Transport.NilEntryLost | plugin/grpc_server.go:494-497 | a valid descriptor with a nil output schema arrives invalid |
| Transport.ClassificationArrives | plugin/grpc_server.go:606-607 | the host classifies every operation as the plugin does; "all reads" becomes "unknown" exactly with an empty list and no operations |
| Sessions.MultiClusterAuthPlugin.Login | examples/multicluster/main.go:78-103 | the new session, or the error and no change |
| Sessions.MultiClusterAuthPlugin.Logout | examples/multicluster/main.go:107-119 | one instance cleared, all of them for the empty hostname |
| Sessions.MultiClusterAuthPlugin.PurgeExpiredTokens | examples/multicluster/main.go:188-203 | exactly the expired sessions removed, in any map order, and counted |
| Sessions.MultiClusterAuthPlugin.GetStatus | examples/multicluster/main.go:123-140 | authenticated with claims and expiry exactly with a session, else the reason and neither |
| Sessions.MultiClusterAuthPlugin.GetToken | examples/multicluster/main.go:143-158 | the session's token, or the two errors |
| Sessions.MultiClusterAuthPlugin.ListCachedTokens | examples/multicluster/main.go:160-186 | one entry per session in sorted order, each with its own clock reading |
| Sessions.LiveIffGranted | examples/multicluster/main.go:78-203 | a host is logged in exactly when its latest login is not followed by its logout, a global logout or a purge after its expiry; its session has that login's time as issue time, an expiry one hour later, its port and its instance's name |
| Sessions.Serve | examples/multicluster/main.go:41-51 | serving a history leaves the store that the history denotes |
| Sessions.QueriesAgree | examples/multicluster/main.go:121-186 | after every history token, status and listing agree with it, times and expiry flags included, and the listing is strictly sorted |
| Sessions.OtherHandlersIgnored | examples/multicluster/main.go:218-223 | calls that name another handler change nothing |
| Sessions.TokensMatchKeys | examples/multicluster/main.go:94-99 | in every reachable store a token and its subject name their own instance |
| Sessions.TokensDistinguishInstances | examples/multicluster/main.go:227-232 | two instances share a token exactly when equal, or the unnamed one and "default" |

## Left out

- Generated protobuf code, gRPC registration and serving, handshake constants, `plugin/host_client.go`: plumbing around the modelled calls.
- `provider/validation.go`: instance validation belongs to the jsonschema library; `JsonSchema.Accepts` is this model's own reading of the keywords.
- JSON text, semver text and the protobuf wire format: replaced by the codec laws, the parser function and `Transport.Wire`.
- `applyRequestContext`, `auth/`, `plugin/secretref.go`, `provider/schemahelper`, the echo and staticauth examples: context setters, tables and field copies.
- Claims, status and token conversions with their Unix times: field copies; a login result is carried as one value.
- Error texts and logging: errors are datatype values, and only texts that reach a stream are kept.
- Concurrent calls of the login callback: a gRPC stream allows one sender at a time, so the prompts of a login form a sequence. The forwarder's mutex makes its chunks a sequence as well.
- Interleavings of settings calls: each call reads or replaces the stored map in one critical section and never edits a stored map, so a history is the order of those sections, with a plugin's writes placed between calls.
- BytesClone: nil and empty slices are both arrays of length zero, so that nil is cloned to nil and empty to empty is not represented.
- Nil properties in converted schemas, and nil links, examples or maintainers in a wire descriptor: the code dereferences them, so the conversions require them to be present.
- Connection internals: a connection is a number with a count of Close calls; the error of Close is ignored as in the code.
- Wrap32: Go's `int` is 64 bits wide; the model narrows any integer.
- DescriptorTrip: a schema that can be marshalled is assumed to unmarshal to the same schema, nil and empty parts included.
