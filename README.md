# ThinkingData Node SDK: event checks, record building and batching

This project models the core of the ThinkingData analytics SDK for Node in Dafny.

**The SDK entry point, `TDAnalytics`.** Each public operation checks a loosely typed caller object
and then builds a record.
- The checks are `_basicCheck`, `_trackCheck`, the `eventId`/`firstCheckId` checks and
  `propertiesMust`.
- The record is built by `_sendRequest`: `#type`, `#time`, the optional `#…` fields, `#uuid`, and
  the layered `properties`, after which every Date is rewritten to text.
- An operation ends in one of three ways (`Analytics.Outcome`):
  - a TypeError, thrown before any check or by calling a `params.callback` that is truthy but not
    a function;
  - the callback called with an error;
  - `consumer.add` called with the record.
- Super properties and the dynamic-properties provider are state of the `TDAnalytics` class.

**The helper library, `lib/utils.js`.**
- The key pattern `^[a-zA-Z#][a-zA-Z0-9_]+$`, `name` and `userId`.
- Property stripping and checking: `_strip`, `_checkPropertiesKey`, `properties`, `propertiesMust`.
- `extend`, the fixed-width `formatDate`, the recursive `searchObjDate` walk, and the `UUID` template.

**The three batch consumers.** Each buffers serialized records and hands batches
`'[' + buffer.join(',') + ']'` to the transport.
- `TDBatchConsumer` and `AsyncBatchConsumer` send nothing on an empty flush, and add a count header.
- `BatchConsumer` always sends and has no count header.
- `AsyncBatchConsumer` also runs a flush loop on a timer.

JavaScript values are the datatype `JsValues.Value`, with JavaScript truthiness. The library's
`_.each` iterator walks an object whose `length` key holds a number as if it were an array. Only
the index keys below `length` are visited (`JsValues.EachKeys`). That rule is modelled as written,
because it changes what `_strip`, `_checkPropertiesKey` and `searchObjDate` visit. An object with a
numeric `length` keeps the disallowed values and Dates held under keys other than its index keys
below `length` (`DateSearch.ArrayLikeKeepsDate`).

Inputs from outside are parameters:
- the clock read by `new Date()` and the random digits of `Math.random()` (`Analytics.Env`);
- what the installed `getDynamicProperties` returns, both when it is probed at installation and
  when it is called for an event;
- the handles `setTimeout` returns.

Records reach the consumers as opaque strings, since `JSON.stringify` is not modelled. A flush
returns the `Batching.Request` it would send: body, count header, compression flag and callback.

Behaviour of the code worth knowing, which the model follows:
- The key pattern does not accept a leading `_`, although the log message of `name`
  (lib/utils.js:168) says names may start with '_'.
- A `params` that is not an object is reported as "params for track must be an object", not with
  the identity message.
- `undefined` or `null` params throw at `params.callback` before any check (`Outcome.Thrown`).
- The library version is "1.3.6", the `_.version` of lib/utils.js. The module
  `./tdUtils` that lib/thinkingdata-node.js imports is not part of this model. Its functions are
  modelled from lib/utils.js, which exposes the same API.
- lib/thinkingdata-node.js loads `./tdAsyncBatchConsumer`, which is not part of this model.
  lib/AsyncBatchConsumer.js is modelled in its place.

## Model

| member | source | states |
|---|---|---|
| Analytics.BasicCheck | lib/thinkingdata-node.js:187-197 | no error only for a plain object; which error a failed check gives is proved in TrackCheckOrder, ProfileAcceptsIff and UnsetAcceptsIff |
| Analytics.TDAnalytics.constructor | lib/thinkingdata-node.js:174-185 | a new instance has no super properties and no dynamic provider |
| Analytics.TDAnalytics.CheckTrack | lib/thinkingdata-node.js:267-282 | the check sequence of `_trackCheck` computes TrackCheck, with the caller's properties stripped as the check runs |
| Analytics.TDAnalytics.ReserveFields | lib/thinkingdata-node.js:486-527 | the step-by-step assignments of `_sendRequest` build exactly the declarative ReservedFields map |
| Analytics.TDAnalytics.MergeProperties | lib/thinkingdata-node.js:529-547 | the properties built from DEFAULT_PROPERTIES, the super properties, the provider output and the caller's properties equal MergedProperties |
| Analytics.TDAnalytics.SendRequest | lib/thinkingdata-node.js:485-552 | the record handed to `consumer.add` is BuildRecord of the instance's current state |
| Analytics.TDAnalytics.Dispatch | lib/thinkingdata-node.js:204-211 | an accepted decision is sent as the built record; a refusal calls the callback with its error, which throws when the callback is truthy but not a function; a throw sends nothing |
| AnalyticsProperties.DeliverOutcomes | lib/thinkingdata-node.js:288-304 | an operation throws iff it throws before its checks or refuses with an uncallable callback; the callback receives the refusal's error iff it is callable; only accepted events are sent |
| AnalyticsProperties.NonFunctionCallbackThrows | lib/thinkingdata-node.js:204-211 | `track({callback: 5})` fails the identity check and throws when it calls `5` |
| Analytics.TDAnalytics.DecideTrack | lib/thinkingdata-node.js:204-265 | the checks of the four track operations compute TrackDecision |
| Analytics.TDAnalytics.TrackEvent | lib/thinkingdata-node.js:204-265 | a track-family operation ends as Deliver of its decision on the current super properties and provider |
| Analytics.TDAnalytics.Track | lib/thinkingdata-node.js:204-211 | `track` checks with `_trackCheck` and then sends type `track` |
| Analytics.TDAnalytics.TrackUpdate | lib/thinkingdata-node.js:218-229 | `trackUpdate` also needs a truthy `eventId`, and sends `track_update` |
| Analytics.TDAnalytics.TrackOverWrite | lib/thinkingdata-node.js:236-247 | `trackOverWrite` also needs a truthy `eventId`, and sends `track_overwrite` |
| Analytics.TDAnalytics.TrackFirst | lib/thinkingdata-node.js:254-265 | `trackFirst` also needs a truthy `firstCheckId`, and sends `track` |
| Analytics.TDAnalytics.DecideProfile | lib/thinkingdata-node.js:288-433 | the checks of the six profile operations compute ProfileDecision |
| Analytics.TDAnalytics.Profile | lib/thinkingdata-node.js:288-433 | a profile operation ends as Deliver of its decision |
| Analytics.TDAnalytics.UserSet | lib/thinkingdata-node.js:288-304 | `userSet` needs the identity and `propertiesMust`, and sends `user_set` |
| Analytics.TDAnalytics.UserSetOnce | lib/thinkingdata-node.js:310-326 | `userSetOnce` as `userSet`, sending `user_setOnce` |
| Analytics.TDAnalytics.UserAdd | lib/thinkingdata-node.js:358-374 | `userAdd` as `userSet`, sending `user_add` |
| Analytics.TDAnalytics.UserAppend | lib/thinkingdata-node.js:380-396 | `userAppend` as `userSet`, sending `user_append` |
| Analytics.TDAnalytics.UserUniqAppend | lib/thinkingdata-node.js:402-416 | `userUniqAppend` as `userSet`, sending `user_uniq_append` |
| Analytics.TDAnalytics.UserDel | lib/thinkingdata-node.js:422-433 | `userDel` needs only the identity check |
| Analytics.TDAnalytics.DecideUnset | lib/thinkingdata-node.js:332-351 | the checks of `userUnset` compute UnsetDecision |
| Analytics.TDAnalytics.UserUnset | lib/thinkingdata-node.js:332-352 | `userUnset` ends as Deliver of its decision |
| Analytics.TDAnalytics.SetSuperProperties | lib/thinkingdata-node.js:440-446 | valid properties are merged into the super properties; invalid ones change nothing and are passed to a truthy callback, which throws when it is not a function |
| Analytics.TDAnalytics.ClearSuperProperties | lib/thinkingdata-node.js:451-453 | the super properties become empty and the provider is kept |
| Analytics.TDAnalytics.SetDynamicSuperProperties | lib/thinkingdata-node.js:461-476 | the provider is installed exactly when it is a function whose probe passes `properties`; each failure has its own message, passed to a truthy callback, which throws when it is not a function |
| AnalyticsProperties.ReservedFieldsAt | lib/thinkingdata-node.js:490-527 | a reserved field is present iff it is `#type`, `#time` or `#uuid`, or an optional field whose event value is truthy, and then holds that value |
| AnalyticsProperties.FixedFieldValues | lib/thinkingdata-node.js:486-523 | `#type` names the operation, `#time` is the formatted event time, `#uuid` is the caller's truthy uuid or a generated one |
| AnalyticsProperties.RecordFields | lib/thinkingdata-node.js:490-549 | the record's keys are the reserved fields plus `properties`, each reserved value passed through the date walk |
| AnalyticsProperties.RecordTypeAndTime | lib/thinkingdata-node.js:486-493 | every record has `#type` = the operation's type and a `#time` that reads back as the event's Date, or the clock when `time` is not a Date |
| AnalyticsProperties.RecordUuid | lib/thinkingdata-node.js:519-523 | without a truthy caller uuid the record carries a version-4 UUID; a truthy string uuid is kept |
| AnalyticsProperties.RecordCarriesOptional | lib/thinkingdata-node.js:495-527 | an optional field whose event value is truthy is in the record with that value, dates rewritten |
| AnalyticsProperties.RecordHasNoDates | lib/thinkingdata-node.js:549 | when nothing in the record is read as array-like, no Date remains anywhere in it |
| AnalyticsProperties.MergedFollowsPrecedence | lib/thinkingdata-node.js:529-547 | each property key holds the value of the caller, else the provider, else the super properties, else the defaults; non-track events see the caller's only |
| AnalyticsProperties.PrecedenceScenario | lib/thinkingdata-node.js:529-547 | super {a:1,b:2}, provider {b:3} and caller {b:4} give a=1, b=4 and `#lib`="node" |
| AnalyticsProperties.TrackAcceptsIff | lib/thinkingdata-node.js:204-282 | a track operation sends iff every check passes, and then sends the event with its properties stripped unless the local check is skipped |
| AnalyticsProperties.TrackCheckOrder | lib/thinkingdata-node.js:218-282 | the first failing check names the error: not an object, then identity, then event name, then properties, then "eventId cannot be empty" for `trackUpdate`/`trackOverWrite` and "firstCheckId cannot be empty" for `trackFirst` |
| AnalyticsProperties.CheckedEventKeepsFields | lib/thinkingdata-node.js:276-279 | the properties check, which strips `params.properties` in place through `_strip` in lib/utils.js, changes no field but `properties` |
| AnalyticsProperties.AcceptedRecordCarries | lib/thinkingdata-node.js:495-527 | an accepted event with a truthy optional field sends a record of its type carrying that field |
| AnalyticsProperties.TrackFirstDecision | lib/thinkingdata-node.js:254-265 | what `trackFirst` accepts is a `track` event with the caller's truthy `firstCheckId` |
| AnalyticsProperties.TrackFirstIsTrack | lib/thinkingdata-node.js:254-265 | a `trackFirst` record has type `track` and carries `#first_check_id` |
| AnalyticsProperties.UpdatableDecision | lib/thinkingdata-node.js:218-247 | what `trackUpdate`/`trackOverWrite` accept carries the caller's truthy `eventId` |
| AnalyticsProperties.UpdatableTracksCarryEventId | lib/thinkingdata-node.js:218-247 | their records have type `track_update`/`track_overwrite` and carry `#event_id` |
| AnalyticsProperties.ProfileAcceptsIff | lib/thinkingdata-node.js:288-433 | undefined or null params throw; a non-object is refused with "params for track must be an object"; an object with neither `accountId` nor `distinctId` passing `userId` is refused with the identity error; otherwise it sends iff, except for `userDel`, `propertiesMust` holds, and else "invalid properties" |
| AnalyticsProperties.MergedIgnoresSuperProperties | lib/thinkingdata-node.js:538-547 | a non-track event's properties do not depend on the super properties or the provider |
| AnalyticsProperties.ProfileIgnoresSuperProperties | lib/thinkingdata-node.js:529-549 | a non-track record does not depend on the super properties or the provider |
| AnalyticsProperties.StrippedPropertiesMerged | lib/thinkingdata-node.js:542-547 | a profile event's properties are exactly the caller's stripped properties |
| AnalyticsProperties.StrippedRecord | lib/thinkingdata-node.js:542-549 | the record's properties are the caller's stripped properties after the date walk |
| AnalyticsProperties.ProfileDecisionEvent | lib/thinkingdata-node.js:298-303 | an accepted profile event carries the caller's stripped, non-empty properties |
| AnalyticsProperties.ProfilePropertiesAreStripped | lib/thinkingdata-node.js:298-303 | a profile record's properties are `searchObjDate(_strip(params.properties))` |
| AnalyticsProperties.UnsetAcceptsIff | lib/thinkingdata-node.js:332-352 | undefined or null params throw; a non-object is refused with "params for track must be an object"; an object with neither `accountId` nor `distinctId` passing `userId` is refused with the identity error; otherwise it sends iff the property is a valid name, and else "invalid property name: " and the name |
| AnalyticsProperties.UnsetDecisionEvent | lib/thinkingdata-node.js:342-351 | the accepted unset event is the profile event with properties `{property: 0}` |
| AnalyticsProperties.ZeroRecord | lib/thinkingdata-node.js:538-549 | a non-track event with properties `{key: 0}` sends exactly those properties |
| AnalyticsProperties.UnsetSendsZero | lib/thinkingdata-node.js:342-351 | a `user_unset` record's properties are exactly `{property: 0}` |
| AnalyticsProperties.SetSuperPropertiesIdempotent | lib/thinkingdata-node.js:440-446 | setting the same super properties twice is the same as once |
| AnalyticsProperties.SetSuperPropertiesOverrides | lib/thinkingdata-node.js:440-446 | after a valid set, each given key holds the given value; other keys keep theirs |
| Utils.IsEmptyObject | lib/utils.js:99-109 | `isEmptyObject` holds exactly for the plain object with no keys; arrays, `null` and every other value are not empty objects |
| Utils.StripObject | lib/utils.js:142-153 | the deletion loop yields StripFields: a sub-map of the input with values unchanged |
| Utils.StripKeepsArrayLike | lib/utils.js:146-151 | stripping never removes a numeric `length`, so array-likeness is kept |
| Utils.StripDeletesExactlyDisallowed | lib/utils.js:146-151 | on a plain object, a key survives iff its value is a string, number, Date, boolean, array or object |
| Utils.StripIdempotent | lib/utils.js:142-153 | stripping twice is stripping once |
| Utils.CheckPropertiesKey | lib/utils.js:155-164 | the flag is true iff every visited key matches the key pattern |
| Utils.Properties | lib/utils.js:175-192 | `properties(p)` returns ValidProperties and leaves `p` stripped |
| Utils.PropertiesMust | lib/utils.js:194-207 | `propertiesMust(p)` returns RequiredProperties and leaves `p` stripped |
| Utils.ValidPropertiesCases | lib/utils.js:175-192 | falsy values pass, truthy non-objects fail, objects pass iff their stripped keys match |
| Utils.ValidObjectProperties | lib/utils.js:175-192 | a plain object passes iff every key holding an allowed value matches the pattern |
| Utils.RequiredIsValidAndNonEmpty | lib/utils.js:194-207 | `propertiesMust` is `properties` on an object that is non-empty once stripped |
| Utils.IsName | lib/utils.js:166-173 | `name(s)`: a string matching the key pattern, so at least two characters with a letter or '#' first |
| Utils.IsUserId | lib/utils.js:209-216 | `userId(id)`: a string of at least one character with no `\n`, `\r`, U+2028 or U+2029, since `.` in `/^.+$/` matches no line terminator |
| Utils.UserIdCases | lib/utils.js:209-216 | "a", " " and "42" pass; "", strings with a line terminator, numbers, `undefined` and arrays fail |
| Utils.NameNeedsTwoCharacters | lib/utils.js:166-173 | a name has at least two characters and starts with a letter or '#' |
| Utils.AssignEntries | lib/utils.js:43-47 | one source's loop copies its non-undefined entries over the target |
| Utils.Extend | lib/utils.js:41-50 | the loop over the sources computes Extended |
| Utils.ExtendedKeys | lib/utils.js:41-50 | a key is in the result iff it is in the target or some source defines it |
| Utils.ExtendedLastWins | lib/utils.js:41-50 | a key holds the value of the last source that defines it |
| Utils.ExtendedUntouched | lib/utils.js:41-50 | a key no source defines keeps the target's value |
| Utils.AssignIdempotent | lib/utils.js:43-47 | extending twice with the same source is extending once |
| JsValues.EachKeys | lib/utils.js:18-39 | the keys `_.each` visits are own keys of the object |
| DateFormat.Pad2 | lib/utils.js:54-56 | two digits that read back as the number |
| DateFormat.Pad3 | lib/utils.js:58-66 | three digits that read back as the number |
| DateFormat.TimeOfYearFields | lib/utils.js:67-73 | after the year: the separators at fixed places and each padded field in its slot, the month counted from 1 |
| DateFormat.FormatDateLayout | lib/utils.js:53-74 | a timestamp is the unpadded year followed by the 19-character layout |
| DateFormat.FormatDateRoundTrip | lib/utils.js:53-74 | parsing a formatted Date gives the Date back |
| DateFormat.FormatDateInjective | lib/utils.js:53-74 | distinct Dates give distinct timestamps |
| DateSearch.SearchObjDate | lib/utils.js:76-88 | `searchObjDate(o)`: objects stay objects and arrays stay arrays; any other value is returned as it is |
| DateSearch.VisitEntry | lib/utils.js:78-85 | the iterator body never leaves a Date in the slot it visits, and keeps objects and arrays as they are |
| DateSearch.SearchFields | lib/utils.js:76-88 | the walk keeps every key of an object |
| DateSearch.VisitKeepsKind | lib/utils.js:78-85 | the walk keeps containers as containers with the same keys or length, and numbers as they are |
| DateSearch.SearchKeepsEachKeys | lib/utils.js:76-88 | the walk keeps array-likeness and the set of visited keys |
| DateSearch.SearchVisitsEveryKey | lib/utils.js:78-86 | on a plain object every entry is visited |
| DateSearch.SearchLeavesNoDate | lib/utils.js:76-88 | with no array-like object inside, no Date remains anywhere |
| DateSearch.VisitLeavesNoDate | lib/utils.js:79-84 | a visited value with no array-like object inside holds no Date afterwards |
| DateSearch.SearchKeepsPaths | lib/utils.js:76-88 | every path that exists before exists after, and no other |
| DateSearch.SearchRewritesLeaves | lib/utils.js:82-84 | each leaf at a path becomes its formatted text if it is a Date and is kept otherwise |
| DateSearch.VisitRewritesLeaves | lib/utils.js:79-84 | the same for a visited entry |
| DateSearch.SearchIdempotent | lib/utils.js:76-88 | walking twice is walking once |
| DateSearch.VisitIdempotent | lib/utils.js:79-84 | visiting twice is visiting once |
| DateSearch.ArrayLikeKeepsDate | lib/utils.js:24-29 | an object with a numeric `length` keeps a Date under a non-index key |
| Uuid.GenerateUuid | lib/utils.js:219-225 | `UUID()` yields 36 characters; its full shape is GenerateUuidShape |
| Uuid.TemplateText | lib/utils.js:220 | the template is "xxxxxxxx-xxxx-4xxx-yxxx-xxxxxxxxxxxx" |
| Uuid.GenerateUuidShape | lib/utils.js:219-225 | every generated uuid has 36 characters, dashes at 8, 13, 18, 23, '4' at 14, one of 8, 9, a, b at 19, lower-case hex elsewhere |
| Batching.BatchSizeDefault | lib/tdBatchConsumer.js:19 | the batch size is the configured number unless it is missing or falsy, and then 20; never 0 |
| Batching.CompressDefault | lib/tdBatchConsumer.js:20 | compression is off only when the config says exactly `false` |
| Batching.BufferKeepsHistory | lib/tdBatchConsumer.js:27 | appending a record to the buffer keeps sent-then-buffered equal to the records added |
| Batching.SendKeepsHistory | lib/tdBatchConsumer.js:58-59 | sending the whole buffer and emptying it keeps that history |
| Batching.SmallBodies | lib/tdBatchConsumer.js:58 | an empty batch is "[]"; one record is wrapped in brackets |
| Batching.BodyAppend | lib/tdBatchConsumer.js:58 | one more record adds "," and the record before the closing bracket |
| Batching.BodyLength | lib/tdBatchConsumer.js:58 | the body is the records' characters, the commas between them and two brackets |
| Batching.CountReadsBack | lib/tdBatchConsumer.js:52 | the count header is a decimal numeral that reads back as the number of records |
| TDBatchConsumers.TDBatchConsumer.constructor | lib/tdBatchConsumer.js:15-21 | empty buffer, batch size and compression from the config defaults |
| TDBatchConsumers.TDBatchConsumer.Flush | lib/tdBatchConsumer.js:33-75 | an empty buffer sends nothing; otherwise the whole buffer, in order, with its count, and the buffer is emptied whatever the outcome |
| TDBatchConsumers.TDBatchConsumer.Add | lib/tdBatchConsumer.js:23-31 | the record is appended; reaching the batch size flushes with this callback; the buffer stays below the batch size |
| TDBatchConsumers.TDBatchConsumer.Close | lib/tdBatchConsumer.js:114-116 | exactly one flush without a callback |
| TDBatchConsumers.TwoRecordBatch | lib/tdBatchConsumer.js:23-31 | with batch size 2, the first add sends nothing and the second sends "[r1,r2]" counted "2" |
| BatchConsumers.BatchConsumer.constructor | lib/BatchConsumer.js:8-17 | empty buffer, batch size and compression from the config defaults, a falsy config read as `{}` |
| BatchConsumers.BatchConsumer.Flush | lib/BatchConsumer.js:29-65 | always sends the whole buffer, even empty, without a count, and empties it |
| BatchConsumers.BatchConsumer.Add | lib/BatchConsumer.js:19-27 | the record is appended; reaching the batch size flushes with this callback |
| BatchConsumers.BatchConsumer.Close | lib/BatchConsumer.js:108-110 | exactly one flush without a callback |
| BatchConsumers.CloseEmpty | lib/BatchConsumer.js:108-110 | closing an empty consumer still sends "[]" |
| BatchConsumers.TwoRecordBatch | lib/BatchConsumer.js:19-27 | with batch size 2, the second add sends "[r1,r2]" without a count |
| AsyncBatchConsumers.TimerSlot.constructor | lib/AsyncBatchConsumer.js:7 | the module-level `timerId` starts unset, with no timeout issued or cancelled |
| AsyncBatchConsumers.AsyncBatchConsumer.constructor | lib/AsyncBatchConsumer.js:9-23 | the config defaults, interval 3000 by default; the first timeout is scheduled and overwrites the shared `timerId` |
| AsyncBatchConsumers.AsyncBatchConsumer.Flush | lib/AsyncBatchConsumer.js:35-80 | as the td variant: nothing on an empty buffer, else the counted batch, and the buffer is emptied |
| AsyncBatchConsumers.AsyncBatchConsumer.Add | lib/AsyncBatchConsumer.js:25-33 | the record is appended; reaching the batch size flushes with this callback |
| AsyncBatchConsumers.AsyncBatchConsumer.Tick | lib/AsyncBatchConsumer.js:18-21 | a firing timeout flushes without a callback and schedules the next one, under a fresh handle, outside the shared `timerId` |
| AsyncBatchConsumers.AsyncBatchConsumer.Close | lib/AsyncBatchConsumer.js:122-125 | cancels only the timeout named in the shared slot, then flushes; the loop stops iff its scheduled timeout is that one |
| AsyncBatchConsumers.CloseBeforeFirstTick | lib/AsyncBatchConsumer.js:122-125 | closing before the first timeout fires stops the loop |
| AsyncBatchConsumers.CloseAfterTick | lib/AsyncBatchConsumer.js:17-22 | once the loop has fired, closing leaves it scheduled |
| AsyncBatchConsumers.SharedSlot | lib/AsyncBatchConsumer.js:7-22 | with two consumers, closing the first cancels the second's first timeout, not its own |

## Left out

- HTTP transport: `_request`, `zlib.gzip`, `Content-Length` and the response check are network I/O and library calls. A flush returns the request instead of sending it.
- Debug and logging consumers, `tdLog` and every `_.log` call: output-only I/O.
- `_parseUrl` and the `initWith*` functions: URL parsing and wiring, with no local logic beyond a protocol switch.
- `TDAnalytics.flush` and `TDAnalytics.close`: one-line forwards to the consumer. The analytics model returns the record rather than holding a consumer.
- `JSON.stringify`: records reach the consumers as opaque strings. The link between the record map and its serialized text is not modelled.
- Timers run in real time in the source. A firing timeout is the explicit `Tick` call, and `interval` is stored but never waited for.
- The analytics model works on values, not objects. Three aliasing effects are therefore not modelled:
  - `_strip` deletes keys from the caller's own object, and the model threads the stripped copy through instead.
  - `extend` copies shallowly, so nested objects are shared between the super properties and each record. `searchObjDate` then rewrites Dates inside those shared objects.
  - `extend` returns its target object.
- Numbers are integers, treated as exact and printed in full (`Analytics.Text`, `Decimal.IntToString`). JavaScript loses precision above 2^53 and writes integers of 1e21 and above in exponent form ("1e+21"); neither is modelled. Fractions, `NaN` and `Infinity` are not modelled.
- A dynamic-properties provider that throws is not modelled: the model takes its output as a value. The source calls it unguarded, in the probe of `setDynamicSuperProperties` (lib/thinkingdata-node.js:463) and for every track event (lib/thinkingdata-node.js:538-541), so such an exception reaches the caller, and an accepted track event always ends in `Sent` in the model.
- DateFormat.FormatDate: takes a valid Date only. An invalid Date such as `new Date(NaN)`, which the source formats as "NaN-NaN-NaN NaN:NaN:NaN.NaN", is not modelled.
- Analytics.Text: renders a Date with the library's timestamp layout, not `Date.prototype.toString`. This appears only in the "invalid property name: " message for a Date property.
- TDBatchConsumers.TDBatchConsumer.constructor: requires a non-null config, because reading `null.batchSize` throws.
- AsyncBatchConsumers.AsyncBatchConsumer.constructor: requires a non-null config, for the same reason.
- Batching.BatchSizeOf: a configured batch size that is set must be a number. JavaScript's coercion of strings, booleans and objects in `length >= batchSize` is not modelled.
- AsyncBatchConsumers.AsyncBatchConsumer.Tick: requires a pending, uncancelled timeout and a handle never issued before, as the runtime guarantees.
- When a check fails, the SDK calls `params.callback` itself, and the model records whether that call throws. What a function callback does when called is not modelled.
- On success the callback goes to `consumer.add`, and the transport later calls it with the send result. That call is not modelled either.
