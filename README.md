# kafka-avro: schema cache population and consumer message decoration

This project models two pieces of kafka-avro in Dafny and proves properties of them.

The first is the Schema Registry client (`lib/schema-registry.js`). One fetch cycle does the following:
- expands the selected topics into `<topic>-value` / `<topic>-key` subjects, or lists every subject the registry has;
- asks for each subject's latest version. A subject the registry answers with an error status is meant to be dropped; as written, the error handler runs unbound and rejects the whole cycle instead (see Findings). The model has both;
- downloads each schema and splits its subject back into topic and role suffix;
- parses the schema. The latest-version registration always parses with `{ wrapUnions: true }` alone and ignores the instance's parse options; only the all-versions pass uses them, and with them can reuse a type already held in a caller-supplied registry of named types;
- publishes the type into the five per-instance dictionaries (`valueSchemas`, `keySchemas`, `schemaIds`, `schemaTypeById`, `schemaMeta`);
- optionally repeats the download and registration for every historical version, appending those results.

The second is the consumer mixin (`lib/kafka-consumer.js`):
- `getConsumer` fills in the broker list and wraps the transport's `on`;
- every `data` message is decorated in place with `parsed`, `parsedKey`, `schemaId` and `schemaIdKey` before the caller's handler is called, exactly once;
- other events pass straight through.

Modules:

- `Base` (`base.dfy`): `Option`, standing for JavaScript's `null`/`undefined`.
- `SchemaRegistry` (`schema_registry.dfy`) has two layers:
  - pure values: subject names, the parse step, the error handlers, the stages, the cache as a `Cache` value and the whole cycle as the function `Cycle`. The two stages whose `_suppressAxiosError` handler is unbound (the latest-version lookup and the version listing; the subject listing's handler is bound) are a `Fetchers` parameter: `AsWritten(server)` runs them as written, `Bound(server)` as intended;
  - the class `Registry`, with the instance's fields and methods that update them in place. Each method is proved equal to the pure function, e.g. `FetchSchemas` leaves exactly the state `Cycle` computes.
- `KafkaConsumer` (`kafka_consumer.dfy`) has the same two layers:
  - pure values: `Fallback`, `Deserialize`, `DeserializeType`, and `Decorate`, the four fields after one `data` event;
  - the classes `Message`, `Handler`, `ConsumerInstance`, `ConsumerOptions` and `Consumer`, whose methods mutate in place.

Foreign code becomes parameters:
- HTTP is a `Server` value: what each of the four GET requests answers, either `Ok`, an error with a response (`ResponseError`), or `NoResponse`.
- avsc's `avro.parse` is a `Parser` function.
- `Buffer#toString('utf-8')`, `JSON.parse` and `magicByte.fromMessageBuffer` are the `Collaborators` of the consumer.
- Bluebird's `Promise.map` keeps input order. It is modelled as a sequential loop that stops at the first rejection (`MapCaught` / `MapStage`), and its concurrency limit is dropped.

## Model

| member | source | states |
|---|---|---|
| `SchemaRegistry.WithParseDefaults` | lib/schema-registry.js:42-45 | absent parse options become `{wrapUnions: true}`; a given `wrapUnions` is kept, an undefined one becomes true; the registry entry is kept |
| `SchemaRegistry.RegistryKey` | lib/schema-registry.js:104 | the property looked up for a type's name: the name itself, or "undefined" for an unnamed type |
| `SchemaRegistry.RegistryKeysCollide` | lib/schema-registry.js:104 | two names share a registry entry exactly when they are equal, or one is unnamed and the other is named "undefined" |
| `SchemaRegistry.TypeFromSchemaResponse` | lib/schema-registry.js:100-109 | a throwing first parse fails; a registry object holding the parsed name returns the stored type; a null registry fails (TypeError); otherwise the result of parsing again with the options |
| `SchemaRegistry.Subjects` | lib/schema-registry.js:204-213 | n topics give 2n subjects; position 2i is `t_i-value`, position 2i+1 is `t_i-key` |
| `SchemaRegistry.ProcessSelectedTopics` | lib/schema-registry.js:204-213 | the push loop yields exactly `Subjects(selectedTopics)`, in input order |
| `SchemaRegistry.Split` | lib/schema-registry.js:309 | `split('-')` gives at least one part, no part contains a dash, and there are two or more parts exactly when the subject has a dash |
| `SchemaRegistry.Join` | lib/schema-registry.js:311 | `join('-')` starts with the first part, and with two or more parts a dash follows it |
| `SchemaRegistry.SplitPrefix` | lib/schema-registry.js:309 | proof helper: a dash-free prefix extends the first piece of the split |
| `SchemaRegistry.SplitDash` | lib/schema-registry.js:309 | proof helper: a leading dash starts a new, empty piece |
| `SchemaRegistry.SplitJoin` | lib/schema-registry.js:309-311 | splitting the join of one or more dash-free parts gives the parts back |
| `SchemaRegistry.JoinSplit` | lib/schema-registry.js:309-311 | joining the split pieces with dashes gives back the subject |
| `SchemaRegistry.JoinSnoc` | lib/schema-registry.js:311 | joining parts plus one more is the join of the parts, a dash, and the last part |
| `SchemaRegistry.SplitSubject` | lib/schema-registry.js:309-311 | the suffix has no dash; with a dash, `topic + "-" + suffix` is the subject; without one, the topic is empty and the suffix is the whole subject |
| `SchemaRegistry.ToLower` | lib/schema-registry.js:359 | lower-casing keeps the length and maps each character |
| `SchemaRegistry.IsValueRole` | lib/schema-registry.js:388 | a suffix is the value role exactly when it has five characters that lower-case to `value`; any other suffix is treated as a key |
| `SchemaRegistry.RoleExamples` | lib/schema-registry.js:388 | proof helper (examples): `value`, `VALUE`, `Value` are the value role; `key`, `values` and the empty suffix are not |
| `SchemaRegistry.Digits` | lib/schema-registry.js:389 | the decimal form of a number is a non-empty string of digits, one digit long exactly below 10 |
| `SchemaRegistry.NumberToString` | lib/schema-registry.js:389 | a number prints as a non-empty string that starts with `-` exactly when it is negative, digits otherwise |
| `SchemaRegistry.IdKey` | lib/schema-registry.js:389 | the `schemaTypeById` key is `schema-` followed by the printed id, with a `-` right after the prefix exactly for a negative id |
| `SchemaRegistry.DigitsInjective` | lib/schema-registry.js:389 | different numbers have different decimal forms |
| `SchemaRegistry.NumberToStringInjective` | lib/schema-registry.js:389 | different integers print differently |
| `SchemaRegistry.IdKeyInjective` | lib/schema-registry.js:389 | different registry ids never share a `schema-<id>` key |
| `SchemaRegistry.SuppressAxiosError` | lib/schema-registry.js:428-438 | returns null exactly when the error has a response, and rethrows the error otherwise |
| `SchemaRegistry.SuppressAxiosErrorUnbound` | lib/schema-registry.js:428-438 | with `this` not bound to the registry it always rejects: TypeError for an error with a response, the error itself otherwise |
| `SchemaRegistry.HandleAxiosError` | lib/schema-registry.js:407-417 | both branches rethrow the error |
| `SchemaRegistry.FetchAllSchemaTopics` | lib/schema-registry.js:221-236 | the subject list on success; a failure goes through the bound suppression handler |
| `SchemaRegistry.FetchTopics` | lib/schema-registry.js:176-182 | a selection (even an empty one) is expanded, otherwise every subject is listed |
| `SchemaRegistry.FetchLatestVersion` | lib/schema-registry.js:246-266 | with the handler bound as intended: `{version, schemaTopic}` on success, null exactly for an error status, rejection exactly for a failure without response, with that failure |
| `SchemaRegistry.FetchLatestVersionAsWritten` | lib/schema-registry.js:246-266 | as written: rejects on every failure, and with a TypeError for an error status; on any other answer (success, or no response) it is exactly the bound stage |
| `SchemaRegistry.FetchAllSchemaVersions` | lib/schema-registry.js:276-296 | one `{version, schemaTopic}` per listed version, in order; null exactly for an error status; rejection exactly without response, with that failure |
| `SchemaRegistry.FetchAllSchemaVersionsAsWritten` | lib/schema-registry.js:276-296 | as written: rejects on every failure, and with a TypeError for an error status; on any other answer it is exactly the bound stage |
| `SchemaRegistry.FetchSchema` | lib/schema-registry.js:306-335 | returns exactly when the download succeeds, carrying the response, version and raw subject; with a dash, topic and suffix rejoin to the subject, without one the topic is empty and the suffix is the whole subject; otherwise rejects with the HTTP failure |
| `SchemaRegistry.MapCaught` | lib/schema-registry.js:451-455 | the map returns exactly when every call returns, with one result per input at the same position; a rejection carries the failure of the first call that rejected, every earlier call having returned |
| `SchemaRegistry.MapCaughtRethrownPrefix` | lib/schema-registry.js:451-455 | once a prefix rejects, the whole map rejects with the same failure |
| `SchemaRegistry.MapStage` | lib/schema-registry.js:451-455 | the sequential loop computes `MapCaught` |
| `SchemaRegistry.Present` | lib/schema-registry.js:453 | `filter(Boolean)` keeps only present results and every one of them; all present keeps everything position by position; none present keeps nothing |
| `SchemaRegistry.PresentConcat` | lib/schema-registry.js:453 | filtering a concatenation is the concatenation of the filtered parts, so order and multiplicity are kept |
| `SchemaRegistry.PresentOne` | lib/schema-registry.js:453 | filtering one null gives nothing, filtering one object gives that object |
| `SchemaRegistry.Flatten` | lib/schema-registry.js:158-167 | the length of the flattening is the sum of the inner lengths |
| `SchemaRegistry.FlattenConcat` | lib/schema-registry.js:158-167 | flattening is order-preserving concatenation |
| `SchemaRegistry.FlattenResults` | lib/schema-registry.js:158-167 | the nested push loops compute `Flatten` |
| `SchemaRegistry.ParseLatest` | lib/schema-registry.js:379 | the latest registration's parse ignores the instance's parse options: a throwing first parse fails, otherwise the result is the parse with `{ wrapUnions: true }` and no registry |
| `SchemaRegistry.RegisterLatest` | lib/schema-registry.js:374-398 | no key is lost; a parse failure changes nothing and returns the input; otherwise `schemaMeta[topic]` is set, and a value suffix sets `schemaTypeById["schema-"+id]`, `valueSchemas[topic]`, `schemaIds[topic-value]` and leaves `keySchemas`, while any other suffix sets `keySchemas[topic]`, `schemaIds[topic-key]` and leaves `valueSchemas`, `schemaTypeById` |
| `SchemaRegistry.RegisterVersion` | lib/schema-registry.js:345-364 | only `schemaTypeById` can change, only for a value suffix, only under `schema-<id>`; a parse failure changes nothing and returns the input |
| `SchemaRegistry.RegisterAllLatest` | lib/schema-registry.js:454 | registering a list loses no key and returns one object per input, equal to it apart from the type, which is the parsed type when parsing succeeds and unchanged when it throws |
| `SchemaRegistry.RegisterAllVersions` | lib/schema-registry.js:145 | the same, with the instance's parse options, and only `schemaTypeById` changes |
| `SchemaRegistry.SchemaMetaEndsWithKey` | lib/schema-registry.js:396 | registering a topic's value object and then its key object, both parsing, leaves the key response in `schemaMeta[topic]` and the value type in `valueSchemas[topic]` |
| `SchemaRegistry.RegisterLatestKeepsValueIndexed` | lib/schema-registry.js:388-397 | registering keeps every cached value schema reachable through `schemaIds` and `schemaTypeById`, provided any other cached topic that shares the new id holds the same type (the same schema registered under two topics) |
| `SchemaRegistry.AllVersionsPass` | lib/schema-registry.js:132-149 | without fetchAllVersions the result is the latest list, unchanged; otherwise that list is a prefix of the result; only `schemaTypeById` changes, and nothing changes on rejection |
| `SchemaRegistry.Cycle` | lib/schema-registry.js:446-456 | for either set of handlers: no cache key is lost; a rejection before registration leaves the cache unchanged; the stored subjects are the fetched list (null when suppressed), and unchanged when listing rejects |
| `SchemaRegistry.KnownLatest` | lib/schema-registry.js:246-266 | no more kept versions than subjects; every kept entry is a listed subject with the version the registry answered for it, and every subject with a latest version is kept |
| `SchemaRegistry.MissingSubjectsAreDropped` | lib/schema-registry.js:451-453 | with bound handlers the latest stage survives exactly when every request got a response, and keeps exactly the subjects that have a latest version, in order |
| `SchemaRegistry.CycleReturnsEveryKnownSubject` | lib/schema-registry.js:446-456 | with bound handlers and without the all-versions pass, when every request gets a response and all downloads succeed, a cycle returns one schema per subject that has a latest version, in subject order, even if other subjects are missing |
| `SchemaRegistry.NoResponseAbortsTheCycle` | lib/schema-registry.js:446-456 | with bound handlers, a latest-version request without a response rejects the cycle at that stage with that failure, subjects stored, caches unchanged |
| `SchemaRegistry.SchemaFailureAbortsTheCycle` | lib/schema-registry.js:446-456 | with bound handlers, a failed download of a kept subject's schema rejects the cycle at the schema stage with an HTTP failure, subjects stored, caches unchanged |
| `SchemaRegistry.MapAbsorbs` | lib/schema-registry.js:388-397 | proof helper: writing the same two sets of entries again does not change the map |
| `SchemaRegistry.MapMergeUpdate` | lib/schema-registry.js:388-397 | proof helper: one write over a merge is a write into the overriding map |
| `SchemaRegistry.MergeAbsorbs` | lib/schema-registry.js:388-397 | repeating the same registrations over a cache is a no-op |
| `SchemaRegistry.MergeEmpty` | lib/schema-registry.js:57-92 | proof helper: merging the empty caches changes nothing |
| `SchemaRegistry.RegisterLatestOverrides` | lib/schema-registry.js:374-398 | a latest registration writes the same entries whatever the cache held before |
| `SchemaRegistry.RegisterVersionOverrides` | lib/schema-registry.js:345-364 | the same for a version registration |
| `SchemaRegistry.RegisterAllLatestOverrides` | lib/schema-registry.js:454 | registering a list equals writing its entries, computed from the empty cache, over the old cache |
| `SchemaRegistry.RegisterAllVersionsOverrides` | lib/schema-registry.js:145 | the same for the all-versions registrations |
| `SchemaRegistry.CycleIsIdempotent` | lib/schema-registry.js:116-122 | for either set of handlers, a refresh re-run against unchanged registry answers leaves caches, stored subjects and result exactly as the first run left them |
| `SchemaRegistry.MapCaughtAgree` | lib/schema-registry.js:451-455 | proof helper: mapping two functions that agree on every input gives the same result |
| `SchemaRegistry.AsWrittenStagesAreBound` | lib/schema-registry.js:265 | proof helper: with no error status for any subject, both stages as written compute the bound stages |
| `SchemaRegistry.CycleAgree` | lib/schema-registry.js:446-456 | proof helper: the cycle depends on its two fetch stages only through their maps over the listed subjects |
| `SchemaRegistry.AllVersionsPassAgree` | lib/schema-registry.js:132-149 | proof helper: the same for the all-versions pass |
| `SchemaRegistry.AsWrittenCycleIsBound` | lib/schema-registry.js:446-456 | when no listed subject gets an error status, the cycle as written is exactly the intended cycle: caches, stored subjects and outcome |
| `SchemaRegistry.AsWrittenLatestStageNeedsEverySubject` | lib/schema-registry.js:265 | as written, the latest stage survives only if every subject has a latest version |
| `SchemaRegistry.AsWrittenMissingSubjectRejectsTheCycle` | lib/schema-registry.js:246-266 | as written, when the first subject without a latest version is answered with an error status, the cycle rejects at the latest-version stage with a TypeError, subjects stored, caches unchanged |
| `SchemaRegistry.UnboundSuppressionRejectsTheCycle` | lib/schema-registry.js:265 | selecting topic `orders` on a registry that has `orders-value` but no `orders-key`: as written the cycle stores both subjects and rejects with a TypeError, caches unchanged; with bound handlers it completes; the version listing of `orders-key` rejects as written and gives null when bound |
| `SchemaRegistry.OrdersSubjects` | lib/schema-registry.js:204-213 | proof helper: the `orders` selection expands to `orders-value`, `orders-key` |
| `SchemaRegistry.OrdersLatestStage` | lib/schema-registry.js:451-453 | proof helper: the bound latest stage of the `orders` scenario keeps `orders-value` only |
| `SchemaRegistry.OrdersVersionStages` | lib/schema-registry.js:276-296 | proof helper: the bound all-versions stages of the `orders` scenario return |
| `SchemaRegistry.Registry.constructor` | lib/schema-registry.js:22-93 | a new registry has the given settings, defaulted parse options, no stored subjects and empty dictionaries |
| `SchemaRegistry.Registry.StoreTopics` | lib/schema-registry.js:192-195 | stores the subject list and returns it as is |
| `SchemaRegistry.Registry.RegisterSchemaLatest` | lib/schema-registry.js:374-398 | the in-place update is exactly `RegisterLatest`, map by map |
| `SchemaRegistry.Registry.RegisterSchema` | lib/schema-registry.js:345-364 | may modify `schemaTypeById` only, and does exactly `RegisterVersion` |
| `SchemaRegistry.Registry.RegisterEachLatest` | lib/schema-registry.js:454 | the loop does exactly `RegisterAllLatest` |
| `SchemaRegistry.Registry.RegisterEachVersion` | lib/schema-registry.js:145 | the loop does exactly `RegisterAllVersions` |
| `SchemaRegistry.Registry.CheckForAllVersions` | lib/schema-registry.js:132-149 | the new `schemaTypeById` and the outcome are exactly `AllVersionsPass` with the same handlers |
| `SchemaRegistry.Registry.FetchSchemas` | lib/schema-registry.js:446-456 | the new dictionaries, stored subjects and outcome are exactly `Cycle` of the old state, with the handlers passed in (as written or bound) |
| `KafkaConsumer.Fallback` | lib/kafka-consumer.js:110-123 | no-schema fallback: null for a falsy payload, the JSON of a Buffer's text, the text on a syntax error, null on another error, a non-Buffer copied; never undefined or decoded |
| `KafkaConsumer.Deserialize` | lib/kafka-consumer.js:175-194 | decodes the key exactly when isKey is true, the value otherwise, and gives null exactly when the codec throws |
| `KafkaConsumer.DeserializeType` | lib/kafka-consumer.js:205-212 | the schema id is null exactly when decoding failed, and the value is then null too; otherwise both are the codec's (a decoded JavaScript null is the codec's value, not the failure's null) |
| `KafkaConsumer.Decorate` | lib/kafka-consumer.js:103-164 | four cases: without a value schema, fallbacks and no schema ids; with one, the decoded value and id; a truthy key is then decoded with whatever key schema is cached, even none; `parsed` is always assigned |
| `KafkaConsumer.DecorateIsIdempotent` | lib/kafka-consumer.js:103-164 | decorating an already decorated message again changes none of its four fields |
| `KafkaConsumer.KeyFallbackIsOverwritten` | lib/kafka-consumer.js:156-161 | with a value schema and no key schema, a non-JSON Buffer key first falls back to its text, then is overwritten with null if the codec cannot decode it |
| `KafkaConsumer.WithBrokerList` | lib/kafka-consumer.js:27-29 | the broker list is set to the configured brokers exactly when missing or empty; every other option is unchanged |
| `KafkaConsumer.WithBrokerListIsIdempotent` | lib/kafka-consumer.js:27-29 | filling in the broker list twice is the same as once |
| `KafkaConsumer.Message.constructor` | lib/kafka-consumer.js:103-164 | a message arrives with the transport's topic, partition, offset, key and value, and none of the four fields the wrapper writes in place (`Fields` reads those four) |
| `KafkaConsumer.Handler.Call` | lib/kafka-consumer.js:163 | a call records the message with its four fields as they are at the call |
| `KafkaConsumer.ConsumerInstance.OriginalOn` | lib/kafka-consumer.js:100 | the transport's `on` appends exactly one listener |
| `KafkaConsumer.Consumer.GetConsumer` | lib/kafka-consumer.js:26-50 | updates the options in place with `WithBrokerList`, appends the new consumer to the consumer list, registers the disconnect and error loggers, and wraps `on` |
| `KafkaConsumer.Consumer.OnWrapper` | lib/kafka-consumer.js:98-103 | any event other than `data` registers the caller's callback unchanged; `data` registers the decorating wrapper |
| `KafkaConsumer.Consumer.OnData` | lib/kafka-consumer.js:103-164 | the in-place rewrite leaves exactly the fields `Decorate` computes, and the handler is called exactly once, with the decorated message |

## Where the code does less than the library intends

The model follows the code. The one exception modelled both ways is the pair of unbound `_suppressAxiosError` handlers, which the model has as written and as intended (see Findings); the third unbound handler, `HandleAxiosError`, is listed under Left out. Below are the points where a user of the library would expect more than the code does.

- **Missing subjects.** A subject missing from the registry (HTTP 404 on `versions/latest`) is meant to be dropped, and the cycle is meant to go on. As written, the `catch` handlers of `_fetchLatestVersion` and `_fetchAllSchemaVersions` run unbound, so the cycle rejects instead. See Findings.
- **Key fallback with a value schema.** Take a topic with a value schema and no key schema, and a key `Buffer("abc")`.
  - One would expect `parsedKey` to be `"abc"`, the text fallback used when there is no value schema.
  - The code first sets `"abc"`, then re-decodes the key with the undefined key schema (`KafkaConsumer.KeyFallbackIsOverwritten`). That gives null whenever the codec cannot decode it.
  - The model follows the code.
- **Parse options.** The instance's parse options are documented as the options passed to `avro.parse()` (lib/schema-registry.js:40-41).
  - `_registerSchemaLatest` ignores them and always parses with `{ wrapUnions: true }` (`SchemaRegistry.ParseLatest`).
  - So every type in `valueSchemas` and `keySchemas` is parsed without the caller's `wrapUnions` and `registry`. Only the all-versions pass, which writes `schemaTypeById` alone, uses them.
- **`schemaMeta` holds key responses.** `schemaMeta` is documented as the value schemas' metadata, keyed by bare topic, whose `subject` carries the `-value` suffix (lib/schema-registry.js:64-76).
  - `_registerSchemaLatest` writes it for key suffixes too.
  - Selected topics expand to `-value` before `-key`, so a topic with both schemas ends up with the key response there (`SchemaRegistry.SchemaMetaEndsWithKey`).
- **Cross-map invariant.** One would expect every schema reachable by topic to be reachable by id too.
  - Key schemas are never written into `schemaTypeById`, so this holds only for value schemas (`SchemaRegistry.RegisterLatestKeepsValueIndexed`).
  - Topics that share an id must hold the same type, as when the same schema is registered under two topics.
  - The all-versions pass re-parses with the instance's parse options. It can therefore store a different type under an id than the one held in `valueSchemas`.
- **Version monotonicity and id permanence.** The code guarantees only that no dictionary entry is ever deleted (`Grows`).
  - `valueSchemas[topic]` is whatever the latest answer says, older or newer.
  - An id key is overwritten whenever it is registered again.

## Findings

| source | as written | input that shows it | evidently intended | confidence | as-written member | corrected member |
|---|---|---|---|---|---|---|
| lib/schema-registry.js:265 | `.catch(this._suppressAxiosError)` on a promise chain without `.bind(this)`, so inside the handler `this` is not the registry; for an error with a response, `this.log.debug` throws a TypeError and the cycle rejects | `selectedTopics: ["orders"]` on a registry that has `orders-value` (latest version 1) and no `orders-key` (404) | a subject answered with an error status yields null and is dropped; the cycle goes on | high (not executed) | `SchemaRegistry.FetchLatestVersionAsWritten` (`SchemaRegistry.AsWrittenMissingSubjectRejectsTheCycle`, `SchemaRegistry.UnboundSuppressionRejectsTheCycle`) | `SchemaRegistry.FetchLatestVersion` (`SchemaRegistry.MissingSubjectsAreDropped`, `SchemaRegistry.CycleReturnsEveryKnownSubject`) |
| lib/schema-registry.js:295 | the same unbound `.catch(this._suppressAxiosError)` in `_fetchAllSchemaVersions` | a stored subject whose version list is answered with 404, e.g. one deleted between the latest-version request and the all-versions pass | the missing subject yields null and is filtered out | high (not executed) | `SchemaRegistry.FetchAllSchemaVersionsAsWritten` (`SchemaRegistry.UnboundSuppressionRejectsTheCycle`) | `SchemaRegistry.FetchAllSchemaVersions` (`SchemaRegistry.AllVersionsPass`) |

`Cycle`, `AllVersionsPass`, `Registry.CheckForAllVersions` and `Registry.FetchSchemas` take the two handlers as a `Fetchers` value. `AsWritten(server)` is the code as written; `Bound(server)` is the corrected pair, which the lemmas about completing and rejecting cycles use.

## Left out

- `init` and its `setInterval` refresh timer (lib/schema-registry.js:116-122): scheduling only. `CycleIsIdempotent` states what a re-run against unchanged answers does.
- URL building with `new URL`, the axios instance and the HTTPS agent: transport. Each request is one field of `Server`.
- Bluebird's concurrency limit and promise scheduling: results are order-preserving.
- `MapCaught`: when several requests fail, which failure bluebird reports depends on timing; the model reports the first one in subject order.
- Logging (bunyan calls): it has no effect on state.
- avsc itself is not modelled. It is the `Parser` parameter, a function of its inputs. Two parses of the same text are therefore equal in the model, where avsc returns distinct objects, and avsc's own insertion of named types into a passed `registry` object is not part of this model. Nor is avsc's mutation of the options object it is given: if it adds a `registry` to `this.parseOptions` (lib/schema-registry.js:349), later parses in the all-versions pass could be resolved by name even when the caller supplied no registry.
- `TypeFromSchemaResponse`, `Registry.constructor`: parse options other than `wrapUnions` and `registry` are not modelled. The constructor's in-place mutation of the caller's options object, seen by anyone else holding it, is not modelled either.
- `HandleAxiosError`: it is passed unbound too (lib/schema-registry.js:334), so for an error carrying a `port` the thrown value is a TypeError rather than the HTTP error. Either way the cycle rejects; the model always reports the HTTP failure.
- JavaScript objects as dictionaries: a topic named like an `Object.prototype` member (`constructor`, say) would be seen as cached. The model's maps hold only what was written.
- `ToLower`: case mapping is ASCII only, which decides `=== 'value'` exactly for ASCII suffixes; non-ASCII case folding is not modelled.
- `NumberToString`: registry ids are integers; JavaScript's printing of non-integer numbers is not modelled.
- `getConsumerStream` (lib/kafka-consumer.js:62-87): same defaulting as `getConsumer`, over a stream transport.
- The transport's consumer construction and event dispatch: a `data` listener added through `OnWrapper` runs `OnData` when a message arrives. The dispatch loop itself is not modelled.
- `KafkaConsumer.WithBrokerList`: options are modelled as strings. Any falsy value other than a missing or empty entry (`null`, `0`, `false`) is not modelled.
- `DeserializeType`: a value that decodes to JavaScript `null` (a `"null"` schema, or the null branch of a nullable union) is the codec's `Avro` value in the model, kept apart from the `Null` of a failed decode. In JavaScript both read as `null`, and only `schemaId` tells them apart.
- `KafkaConsumer.Deserialize`: `isKey` is a boolean here. The source compares it with `=== true`, which for the callers in this file is the same.
- `magicByte.fromMessageBuffer` is not part of this model. It is the `fromMessageBuffer` collaborator, given the cached type (or none), the payload and the registry's caches; it either decodes or throws.
