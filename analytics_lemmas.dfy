/**
 * What the SDK promises about the records it sends: which reserved fields a
 * record carries, how the property sources take precedence, what each
 * operation checks before sending, and what the super-property setters keep.
 */
module AnalyticsProperties {
  import opened Wrappers
  import opened JsValues
  import opened Utils
  import opened DateFormat
  import opened DateSearch
  import opened Uuid
  import opened Analytics

  // ----- the reserved fields -----

  /** The reserved fields present in every record. */
  predicate IsFixedField(f: string) {
    f == "#type" || f == "#time" || f == "#uuid"
  }

  /**
   * A record has the three fixed fields, and an optional field exactly when the
   * event's value for it is truthy, in which case it holds that value.
   */
  lemma ReservedFieldsAt(t: EventType, event: map<string, Value>, env: Env, f: string)
    ensures var r := ReservedFields(t, event, env);
      f in r <==> IsFixedField(f) || (f in OptionalFields && Truthy(Get(event, OptionalFields[f])))
    ensures var r := ReservedFields(t, event, env);
      f in OptionalFields && f in r ==> r[f] == Get(event, OptionalFields[f])
  {
    var optional := OptionalEntries(event, OptionalFields.Keys);
    assert ReservedFields(t, event, env) == FixedFields(t, event, env) + optional;
    assert f in optional <==> f in OptionalFields && Truthy(Get(event, OptionalFields[f]));
    assert f in FixedFields(t, event, env) <==> IsFixedField(f);
  }

  /** No optional field shares a name with a fixed field, with `properties` or with `length`. */
  lemma OptionalFieldNames()
    ensures forall f :: f in OptionalFields ==> !IsFixedField(f) && f != "properties" && f != "length"
  {
  }

  /** The values of the fixed fields: the type name, the formatted time and the uuid. */
  lemma FixedFieldValues(t: EventType, event: map<string, Value>, env: Env)
    ensures var r := ReservedFields(t, event, env); var uuid := Get(event, "uuid");
      && "#type" in r && r["#type"] == Str(TypeName(t))
      && "#time" in r && r["#time"] == Str(FormatDate(EventTime(event, env)))
      && "#uuid" in r && r["#uuid"] == if Truthy(uuid) then uuid else Str(GenerateUuid(env.uuidDigits))
  {
    var fixed := FixedFields(t, event, env);
    var optional := OptionalEntries(event, OptionalFields.Keys);
    OptionalFieldNames();
    assert "#type" !in optional && "#time" !in optional && "#uuid" !in optional;
  }

  // ----- the record -----

  /** The date walk over reserved fields plus `properties`: nothing added or lost, each entry visited. */
  lemma SearchReservedAndProperties(reserved: map<string, Value>, properties: map<string, Value>, f: string)
    requires "length" !in reserved && "properties" !in reserved
    ensures var r := SearchFields(reserved["properties" := Obj(properties)]);
      (f in r <==> f == "properties" || f in reserved)
      && (f in reserved ==> r[f] == VisitEntry(reserved[f]))
      && r["properties"] == Obj(SearchFields(properties))
  {
    SearchVisitsEveryKey(reserved["properties" := Obj(properties)]);
    assert VisitEntry(Obj(properties)) == Obj(SearchFields(properties));
  }

  lemma ReservedNames(t: EventType, event: map<string, Value>, env: Env)
    ensures "length" !in ReservedFields(t, event, env) && "properties" !in ReservedFields(t, event, env)
  {
    OptionalFieldNames();
    ReservedFieldsAt(t, event, env, "length");
    ReservedFieldsAt(t, event, env, "properties");
  }

  /**
   * A record holds the reserved fields and `properties`, and nothing else; each
   * field is what the date walk makes of the value `_sendRequest` assigned.
   */
  lemma RecordFields(t: EventType, event: map<string, Value>, superProperties: map<string, Value>,
                     dynamic: Option<Value>, env: Env, f: string)
    ensures var reserved := ReservedFields(t, event, env);
      var r := BuildRecord(t, event, superProperties, dynamic, env);
      (f in r <==> f == "properties" || f in reserved)
      && (f in reserved ==> r[f] == VisitEntry(reserved[f]))
      && r["properties"] == Obj(SearchFields(MergedProperties(t, event, superProperties, dynamic)))
  {
    ReservedNames(t, event, env);
    SearchReservedAndProperties(ReservedFields(t, event, env), MergedProperties(t, event, superProperties, dynamic), f);
  }

  /** The record's `#type` names the operation, and its `#time` reads back as the event time. */
  lemma RecordTypeAndTime(t: EventType, event: map<string, Value>, superProperties: map<string, Value>,
                          dynamic: Option<Value>, env: Env)
    ensures var r := BuildRecord(t, event, superProperties, dynamic, env);
      "#type" in r && r["#type"] == Str(TypeName(t))
      && "#time" in r && r["#time"].Str? && ParseDate(r["#time"].s) == Some(EventTime(event, env))
  {
    FixedFieldValues(t, event, env);
    RecordFields(t, event, superProperties, dynamic, env, "#type");
    RecordFields(t, event, superProperties, dynamic, env, "#time");
    FormatDateRoundTrip(EventTime(event, env));
  }

  /** Without a truthy caller-supplied uuid, the record carries a fresh version-4 UUID. */
  lemma RecordUuid(t: EventType, event: map<string, Value>, superProperties: map<string, Value>,
                   dynamic: Option<Value>, env: Env)
    ensures var r := BuildRecord(t, event, superProperties, dynamic, env);
      var uuid := Get(event, "uuid");
      "#uuid" in r
      && (!Truthy(uuid) ==> r["#uuid"].Str? && IsUuidV4Shape(r["#uuid"].s))
      && (Truthy(uuid) && uuid.Str? ==> r["#uuid"] == uuid)
  {
    FixedFieldValues(t, event, env);
    GenerateUuidShape(env.uuidDigits);
    RecordFields(t, event, superProperties, dynamic, env, "#uuid");
  }

  /** An optional field whose event value is truthy is in the record, with that value after the date walk. */
  lemma RecordCarriesOptional(t: EventType, event: map<string, Value>, superProperties: map<string, Value>,
                              dynamic: Option<Value>, env: Env, f: string)
    requires f in OptionalFields && Truthy(Get(event, OptionalFields[f]))
    ensures var r := BuildRecord(t, event, superProperties, dynamic, env);
      f in r && r[f] == VisitEntry(Get(event, OptionalFields[f]))
  {
    ReservedFieldsAt(t, event, env, f);
    RecordFields(t, event, superProperties, dynamic, env, f);
  }

  /** Every reserved field holds a value the event gave, or a string of the fixed fields. */
  lemma ReservedValuesNoArrayLike(t: EventType, event: map<string, Value>, env: Env)
    requires forall f :: f in OptionalFields ==> NoArrayLike(Get(event, OptionalFields[f]))
    requires NoArrayLike(Get(event, "uuid"))
    ensures var reserved := ReservedFields(t, event, env);
      forall f :: f in reserved ==> NoArrayLike(reserved[f])
  {
    var reserved := ReservedFields(t, event, env);
    FixedFieldValues(t, event, env);
    forall f | f in reserved ensures NoArrayLike(reserved[f]) {
      ReservedFieldsAt(t, event, env, f);
    }
  }

  /** Walking an object none of whose values is read as array-like leaves no Date in its entries. */
  lemma SearchedEntriesNoDate(data: map<string, Value>)
    requires !ArrayLike(data) && forall f :: f in data ==> NoArrayLike(data[f])
    ensures forall f :: f in SearchFields(data) ==> NoDate(SearchFields(data)[f])
  {
    SearchLeavesNoDate(Obj(data));
  }

  /** Adding a `properties` entry with no array-like part keeps an object free of array-like parts. */
  lemma PropertiesEntryNoArrayLike(reserved: map<string, Value>, properties: map<string, Value>)
    requires "length" !in reserved && forall f :: f in reserved ==> NoArrayLike(reserved[f])
    requires NoArrayLike(Obj(properties))
    ensures var data := reserved["properties" := Obj(properties)];
      !ArrayLike(data) && forall f :: f in data ==> NoArrayLike(data[f])
  {
  }

  /** The object `_sendRequest` walks has no array-like part when its pieces have none. */
  lemma RecordDataNoArrayLike(t: EventType, event: map<string, Value>, superProperties: map<string, Value>,
                              dynamic: Option<Value>, env: Env)
    requires NoArrayLike(Obj(MergedProperties(t, event, superProperties, dynamic)))
    requires forall f :: f in OptionalFields ==> NoArrayLike(Get(event, OptionalFields[f]))
    requires NoArrayLike(Get(event, "uuid"))
    ensures var data := ReservedFields(t, event, env)["properties" := Obj(MergedProperties(t, event, superProperties, dynamic))];
      !ArrayLike(data) && forall f :: f in data ==> NoArrayLike(data[f])
  {
    ReservedNames(t, event, env);
    ReservedValuesNoArrayLike(t, event, env);
    PropertiesEntryNoArrayLike(ReservedFields(t, event, env), MergedProperties(t, event, superProperties, dynamic));
  }

  /**
   * When nothing in the record is walked as array-like, no Date is left in it:
   * every Date, however deep, has become its formatted text.
   */
  lemma RecordHasNoDates(t: EventType, event: map<string, Value>, superProperties: map<string, Value>,
                         dynamic: Option<Value>, env: Env)
    requires NoArrayLike(Obj(MergedProperties(t, event, superProperties, dynamic)))
    requires forall f :: f in OptionalFields ==> NoArrayLike(Get(event, OptionalFields[f]))
    requires NoArrayLike(Get(event, "uuid"))
    ensures var r := BuildRecord(t, event, superProperties, dynamic, env);
      forall f :: f in r ==> NoDate(r[f])
  {
    RecordDataNoArrayLike(t, event, superProperties, dynamic, env);
    SearchedEntriesNoDate(ReservedFields(t, event, env)["properties" := Obj(MergedProperties(t, event, superProperties, dynamic))]);
  }

  // ----- property precedence -----

  /**
   * The documented precedence of a property's sources, highest first: the
   * caller's properties, then (for track events) the dynamic properties, the
   * super properties and the library defaults.
   */
  function PropertyByPrecedence(t: EventType, event: map<string, Value>, superProperties: map<string, Value>,
                                dynamic: Option<Value>, k: string): Option<Value>
  {
    var caller := Get(event, "properties");
    if HasCallerProperties(event) && Defines(caller, k) then Some(Enumerable(caller)[k])
    else if !IsTrackFamily(t) then None
    else if Defines(DynamicSource(dynamic), k) then Some(Enumerable(DynamicSource(dynamic))[k])
    else if Defines(Obj(superProperties), k) then Some(superProperties[k])
    else if Defines(Obj(DefaultProperties), k) then Some(DefaultProperties[k])
    else None
  }

  /** The merged properties follow that precedence, key by key. */
  lemma {:induction false} MergedFollowsPrecedence(t: EventType, event: map<string, Value>,
                                                   superProperties: map<string, Value>, dynamic: Option<Value>, k: string)
    ensures var merged := MergedProperties(t, event, superProperties, dynamic);
      var p := PropertyByPrecedence(t, event, superProperties, dynamic, k);
      (k in merged <==> p.Some?) && (k in merged ==> merged[k] == p.value)
  {
    var sources := [Obj(DefaultProperties), Obj(superProperties), DynamicSource(dynamic)];
    var seed := if IsTrackFamily(t) then Extended(map[], sources) else map[];
    if IsTrackFamily(t) {
      if Defines(sources[2], k) {
        ExtendedLastWins(map[], sources, 2, k);
      } else if Defines(sources[1], k) {
        ExtendedLastWins(map[], sources, 1, k);
      } else if Defines(sources[0], k) {
        ExtendedLastWins(map[], sources, 0, k);
      } else {
        ExtendedUntouched(map[], sources, k);
      }
    }
    if HasCallerProperties(event) {
      var caller := [Get(event, "properties")];
      if Defines(caller[0], k) {
        ExtendedLastWins(seed, caller, 0, k);
      } else {
        ExtendedUntouched(seed, caller, k);
      }
    }
  }

  /**
   * With super properties {a: 1, b: 2}, a dynamic provider returning {b: 3} and
   * a caller sending {b: 4}, a track record has a = 1, b = 4 and the library name.
   */
  lemma PrecedenceScenario(event: map<string, Value>)
    requires event == map["properties" := Obj(map["b" := Num(4)])]
    ensures var merged := MergedProperties(Track, event, map["a" := Num(1), "b" := Num(2)],
                                           Some(Obj(map["b" := Num(3)])));
      "a" in merged && merged["a"] == Num(1)
      && "b" in merged && merged["b"] == Num(4)
      && "#lib" in merged && merged["#lib"] == Str("node")
  {
    var sp := map["a" := Num(1), "b" := Num(2)];
    var dynamic := Some(Obj(map["b" := Num(3)]));
    var caller := map["b" := Num(4)];
    assert HasCallerProperties(event) by {
      assert "b" in caller;
    }
    assert Defines(Obj(caller), "b") && !Defines(Obj(caller), "a") && !Defines(Obj(caller), "#lib");
    assert !Defines(Obj(map["b" := Num(3)]), "a") && !Defines(Obj(map["b" := Num(3)]), "#lib");
    assert Defines(Obj(sp), "a") && !Defines(Obj(sp), "#lib");
    assert Defines(Obj(DefaultProperties), "#lib");
    MergedFollowsPrecedence(Track, event, sp, dynamic, "a");
    MergedFollowsPrecedence(Track, event, sp, dynamic, "b");
    MergedFollowsPrecedence(Track, event, sp, dynamic, "#lib");
  }

  // ----- the track operations -----

  /** The event, as `_trackCheck` leaves it for `_sendRequest`. */
  function CheckedEvent(m: map<string, Value>, skipLocalCheck: bool): map<string, Value> {
    if skipLocalCheck then m else WithStrippedProperties(m)
  }

  /** Every check a track operation of this kind runs, read as one condition. */
  predicate TrackAccepts(kind: TrackKind, params: Value, skipLocalCheck: bool) {
    params.Obj?
    && var m := params.fields;
    (IsUserId(Get(m, "accountId")) || IsUserId(Get(m, "distinctId")))
    && IsName(Get(m, "event"))
    && (skipLocalCheck || ValidProperties(Get(m, "properties")))
    && ((kind.UpdateTrack? || kind.OverwriteTrack?) ==> Truthy(Get(m, "eventId")))
    && (kind.FirstTrack? ==> Truthy(Get(m, "firstCheckId")))
  }

  /** A track operation sends exactly when every check passes, and then sends the checked event. */
  lemma TrackAcceptsIff(kind: TrackKind, params: Value, skipLocalCheck: bool)
    ensures var d := TrackDecision(kind, params, skipLocalCheck);
      (d.Accepts? <==> TrackAccepts(kind, params, skipLocalCheck))
      && (d.Accepts? ==> d == Accepts(TrackTypeOf(kind), CheckedEvent(params.fields, skipLocalCheck)))
  {
  }

  /** The checks run in order, and the first that fails names the error. */
  lemma TrackCheckOrder(kind: TrackKind, params: Value, skipLocalCheck: bool)
    ensures var d := TrackDecision(kind, params, skipLocalCheck);
      (params.Undefined? || params.Null? <==> d.Throws?)
      && (!params.Undefined? && !params.Null? && !params.Obj? ==> d == Refuses(ParamsNotObject))
    ensures var d := TrackDecision(kind, params, skipLocalCheck);
      params.Obj? && !IsUserId(Get(params.fields, "accountId")) && !IsUserId(Get(params.fields, "distinctId"))
      ==> d == Refuses(MissingIdentity)
    ensures var d := TrackDecision(kind, params, skipLocalCheck);
      params.Obj? && BasicCheck(params).None? && !IsName(Get(params.fields, "event"))
      ==> d == Refuses(InvalidEventName)
    ensures var d := TrackDecision(kind, params, skipLocalCheck);
      params.Obj? && BasicCheck(params).None? && IsName(Get(params.fields, "event"))
      && !skipLocalCheck && !ValidProperties(Get(params.fields, "properties"))
      ==> d == Refuses(InvalidProperties)
    ensures var d := TrackDecision(kind, params, skipLocalCheck);
      params.Obj? && TrackCheck(params, skipLocalCheck).Passed?
      && (kind.UpdateTrack? || kind.OverwriteTrack?) && !Truthy(Get(params.fields, "eventId"))
      ==> d == Refuses(EmptyEventId)
    ensures var d := TrackDecision(kind, params, skipLocalCheck);
      params.Obj? && TrackCheck(params, skipLocalCheck).Passed?
      && kind.FirstTrack? && !Truthy(Get(params.fields, "firstCheckId"))
      ==> d == Refuses(EmptyFirstCheckId)
  {
    assert params.Obj? ==> Get(CheckedEvent(params.fields, skipLocalCheck), "eventId") == Get(params.fields, "eventId");
    assert params.Obj? ==> Get(CheckedEvent(params.fields, skipLocalCheck), "firstCheckId") == Get(params.fields, "firstCheckId");
  }

  /**
   * How a decision ends: a refusal reaches the callback exactly when the
   * callback is callable and throws otherwise; only an accepted event is sent.
   */
  lemma DeliverOutcomes(d: Decision, callback: Value, superProperties: map<string, Value>, dynamic: Option<Value>, env: Env)
    ensures var out := Deliver(d, callback, superProperties, dynamic, env);
      (out.Thrown? <==> d.Throws? || (d.Refuses? && !Callable(callback)))
      && (out.Rejected? <==> d.Refuses? && Callable(callback))
      && (out.Rejected? ==> out.error == d.error)
      && (out.Sent? <==> d.Accepts?)
  {
  }

  /** `track({callback: 5})`: the identity check fails, and calling `5` with the error throws. */
  lemma NonFunctionCallbackThrows(env: Env, superProperties: map<string, Value>, dynamic: Option<Value>)
    ensures var params := Obj(map["callback" := Num(5)]);
      TrackDecision(PlainTrack, params, false) == Refuses(MissingIdentity)
      && Deliver(TrackDecision(PlainTrack, params, false), CallbackOf(params), superProperties, dynamic, env) == Thrown
  {
    var params := Obj(map["callback" := Num(5)]);
    assert Get(params.fields, "accountId") == Undefined;
    assert Get(params.fields, "distinctId") == Undefined;
    assert BasicCheck(params) == Some(MissingIdentity);
  }

  /** The properties check only rewrites `properties`: every other field of the event is kept. */
  lemma CheckedEventKeepsFields(m: map<string, Value>, skipLocalCheck: bool, f: string)
    requires f != "properties"
    ensures Get(CheckedEvent(m, skipLocalCheck), f) == Get(m, f)
  {
  }

  /** An accepted decision whose event has a truthy optional field sends a record of its type carrying that field. */
  lemma AcceptedRecordCarries(d: Decision, f: string, superProperties: map<string, Value>,
                              dynamic: Option<Value>, env: Env)
    requires d.Accepts? && f in OptionalFields && Truthy(Get(d.event, OptionalFields[f]))
    ensures var r := BuildRecord(d.eventType, d.event, superProperties, dynamic, env);
      "#type" in r && r["#type"] == Str(TypeName(d.eventType))
      && f in r && r[f] == VisitEntry(Get(d.event, OptionalFields[f]))
  {
    RecordTypeAndTime(d.eventType, d.event, superProperties, dynamic, env);
    RecordCarriesOptional(d.eventType, d.event, superProperties, dynamic, env, f);
  }

  /** What `trackFirst` accepts is a `track` event with the caller's truthy first-check id. */
  lemma TrackFirstDecision(params: Value, skipLocalCheck: bool)
    ensures var d := TrackDecision(FirstTrack, params, skipLocalCheck);
      d.Accepts? ==>
        params.Obj? && d.eventType == Track
        && Get(d.event, "firstCheckId") == Get(params.fields, "firstCheckId")
        && Truthy(Get(d.event, "firstCheckId"))
  {
    TrackAcceptsIff(FirstTrack, params, skipLocalCheck);
    if TrackDecision(FirstTrack, params, skipLocalCheck).Accepts? {
      CheckedEventKeepsFields(params.fields, skipLocalCheck, "firstCheckId");
    }
  }

  /** `trackFirst` sends an ordinary `track` record that carries the first-check id. */
  lemma TrackFirstIsTrack(params: Value, skipLocalCheck: bool,
                          superProperties: map<string, Value>, dynamic: Option<Value>, env: Env)
    ensures var d := TrackDecision(FirstTrack, params, skipLocalCheck);
      d.Accepts? && params.Obj? ==>
        var r := BuildRecord(d.eventType, d.event, superProperties, dynamic, env);
        "#type" in r && r["#type"] == Str("track")
        && "#first_check_id" in r && r["#first_check_id"] == VisitEntry(Get(params.fields, "firstCheckId"))
  {
    var d := TrackDecision(FirstTrack, params, skipLocalCheck);
    TrackFirstDecision(params, skipLocalCheck);
    if d.Accepts? {
      AcceptedRecordCarries(d, "#first_check_id", superProperties, dynamic, env);
    }
  }

  /** What `trackUpdate` and `trackOverWrite` accept carries the caller's truthy event id. */
  lemma UpdatableDecision(kind: TrackKind, params: Value, skipLocalCheck: bool)
    requires kind.UpdateTrack? || kind.OverwriteTrack?
    ensures var d := TrackDecision(kind, params, skipLocalCheck);
      d.Accepts? ==>
        params.Obj? && d.eventType == TrackTypeOf(kind)
        && TypeName(d.eventType) == (if kind.UpdateTrack? then "track_update" else "track_overwrite")
        && Get(d.event, "eventId") == Get(params.fields, "eventId")
        && Truthy(Get(d.event, "eventId"))
  {
    TrackAcceptsIff(kind, params, skipLocalCheck);
    if TrackDecision(kind, params, skipLocalCheck).Accepts? {
      CheckedEventKeepsFields(params.fields, skipLocalCheck, "eventId");
    }
  }

  /** `trackUpdate` and `trackOverWrite` send records that carry the event id. */
  lemma UpdatableTracksCarryEventId(kind: TrackKind, params: Value, skipLocalCheck: bool,
                                    superProperties: map<string, Value>, dynamic: Option<Value>, env: Env)
    requires kind.UpdateTrack? || kind.OverwriteTrack?
    ensures var d := TrackDecision(kind, params, skipLocalCheck);
      d.Accepts? && params.Obj? ==>
        var r := BuildRecord(d.eventType, d.event, superProperties, dynamic, env);
        "#type" in r && r["#type"] == Str(if kind.UpdateTrack? then "track_update" else "track_overwrite")
        && "#event_id" in r && r["#event_id"] == VisitEntry(Get(params.fields, "eventId"))
  {
    var d := TrackDecision(kind, params, skipLocalCheck);
    UpdatableDecision(kind, params, skipLocalCheck);
    if d.Accepts? {
      AcceptedRecordCarries(d, "#event_id", superProperties, dynamic, env);
    }
  }

  // ----- the profile operations -----

  /**
   * A profile operation throws on undefined or null, refuses a non-object and
   * then a missing identity, and sends exactly when the identity passes and,
   * except for `userDel`, the properties are a non-empty valid object.
   */
  lemma ProfileAcceptsIff(kind: ProfileKind, params: Value)
    ensures var d := ProfileDecision(kind, params);
      (params.Undefined? || params.Null? <==> d.Throws?)
      && (!params.Undefined? && !params.Null? && !params.Obj? ==> d == Refuses(ParamsNotObject))
    ensures var d := ProfileDecision(kind, params);
      params.Obj? && !IsUserId(Get(params.fields, "accountId")) && !IsUserId(Get(params.fields, "distinctId"))
      ==> d == Refuses(MissingIdentity)
    ensures var d := ProfileDecision(kind, params);
      d.Accepts? <==>
        params.Obj? && BasicCheck(params).None?
        && (kind.DelKind? || RequiredProperties(Get(params.fields, "properties")))
    ensures var d := ProfileDecision(kind, params);
      params.Obj? && BasicCheck(params).None? && !kind.DelKind?
      && !RequiredProperties(Get(params.fields, "properties"))
      ==> d == Refuses(InvalidProperties)
    ensures var d := ProfileDecision(kind, params);
      d.Accepts? ==>
        d.eventType == ProfileTypeOf(kind) && !IsTrackFamily(d.eventType)
        && d.event == if kind.DelKind? then params.fields else WithStrippedProperties(params.fields)
  {
  }

  /** Only track events take in the super and dynamic properties. */
  lemma MergedIgnoresSuperProperties(t: EventType, event: map<string, Value>,
                                     super1: map<string, Value>, dynamic1: Option<Value>,
                                     super2: map<string, Value>, dynamic2: Option<Value>)
    requires !IsTrackFamily(t)
    ensures MergedProperties(t, event, super1, dynamic1) == MergedProperties(t, event, super2, dynamic2)
  {
  }

  /** Super properties and dynamic properties never reach a record that is not a track event. */
  lemma ProfileIgnoresSuperProperties(t: EventType, event: map<string, Value>, env: Env,
                                      super1: map<string, Value>, dynamic1: Option<Value>,
                                      super2: map<string, Value>, dynamic2: Option<Value>)
    requires !IsTrackFamily(t)
    ensures BuildRecord(t, event, super1, dynamic1, env) == BuildRecord(t, event, super2, dynamic2, env)
  {
    MergedIgnoresSuperProperties(t, event, super1, dynamic1, super2, dynamic2);
  }

  /** `extend(target, source)` with a single source. */
  lemma ExtendedSingle(target: map<string, Value>, source: Value)
    ensures Extended(target, [source]) == Assign(target, source)
  {
    assert [source][..0] == [];
  }

  /** A profile event's properties, once `_strip` has run over a non-empty object, are exactly what is left. */
  lemma StrippedPropertiesMerged(t: EventType, m: map<string, Value>, p: map<string, Value>,
                                 superProperties: map<string, Value>, dynamic: Option<Value>)
    requires !IsTrackFamily(t) && !ArrayLike(p) && |StripFields(p)| > 0
    requires Get(m, "properties") == Obj(StripFields(p))
    ensures MergedProperties(t, m, superProperties, dynamic) == StripFields(p)
  {
    var s := StripFields(p);
    assert HasCallerProperties(m) by {
      var k :| k in s;
    }
    ExtendedSingle(map[], Obj(s));
    forall k | k in s ensures !s[k].Undefined? {
      StripDeletesExactlyDisallowed(p, k);
    }
    assert DefinedEntries(s) == s;
  }

  /** The record built from a profile event whose properties `_strip` has cleaned. */
  lemma StrippedRecord(t: EventType, m: map<string, Value>, p: map<string, Value>,
                       superProperties: map<string, Value>, dynamic: Option<Value>, env: Env)
    requires !IsTrackFamily(t) && !ArrayLike(p) && |StripFields(p)| > 0
    requires Get(m, "properties") == Obj(StripFields(p))
    ensures var r := BuildRecord(t, m, superProperties, dynamic, env);
      "properties" in r && r["properties"] == SearchObjDate(Obj(StripFields(p)))
  {
    StrippedPropertiesMerged(t, m, p, superProperties, dynamic);
    RecordFields(t, m, superProperties, dynamic, env, "properties");
  }

  /** What a profile operation other than `userDel` accepts carries the caller's properties after `_strip`. */
  lemma ProfileDecisionEvent(kind: ProfileKind, params: Value)
    requires !kind.DelKind?
    ensures var d := ProfileDecision(kind, params);
      d.Accepts? ==>
        params.Obj? && !IsTrackFamily(d.eventType)
        && var p := Get(params.fields, "properties");
        p.Obj? && |StripFields(p.fields)| > 0 && Get(d.event, "properties") == Obj(StripFields(p.fields))
  {
    ProfileAcceptsIff(kind, params);
    if ProfileDecision(kind, params).Accepts? {
      RequiredIsValidAndNonEmpty(Get(params.fields, "properties"));
    }
  }

  /**
   * The properties of a sent profile record are the caller's after `_strip`,
   * with their dates formatted.
   */
  lemma ProfilePropertiesAreStripped(kind: ProfileKind, params: Value,
                                     superProperties: map<string, Value>, dynamic: Option<Value>, env: Env)
    requires !kind.DelKind? && params.Obj?
    requires var p := Get(params.fields, "properties"); p.Obj? && !ArrayLike(p.fields)
    ensures var d := ProfileDecision(kind, params);
      d.Accepts? ==>
        var r := BuildRecord(d.eventType, d.event, superProperties, dynamic, env);
        "properties" in r && r["properties"] == SearchObjDate(Strip(Get(params.fields, "properties")))
  {
    var d := ProfileDecision(kind, params);
    ProfileDecisionEvent(kind, params);
    if d.Accepts? {
      StrippedRecord(d.eventType, d.event, Get(params.fields, "properties").fields, superProperties, dynamic, env);
    }
  }

  /**
   * `userUnset` throws on undefined or null, refuses a non-object and then a
   * missing identity, and sends exactly when the identity passes and the
   * property is a valid name.
   */
  lemma UnsetAcceptsIff(params: Value)
    ensures var d := UnsetDecision(params);
      (params.Undefined? || params.Null? <==> d.Throws?)
      && (!params.Undefined? && !params.Null? && !params.Obj? ==> d == Refuses(ParamsNotObject))
    ensures var d := UnsetDecision(params);
      params.Obj? && !IsUserId(Get(params.fields, "accountId")) && !IsUserId(Get(params.fields, "distinctId"))
      ==> d == Refuses(MissingIdentity)
    ensures var d := UnsetDecision(params);
      d.Accepts? <==> params.Obj? && BasicCheck(params).None? && IsName(Get(params.fields, "property"))
    ensures var d := UnsetDecision(params);
      d.Accepts? ==> d == Accepts(UserUnset, UnsetEvent(params.fields, Get(params.fields, "property").s))
    ensures var d := UnsetDecision(params);
      params.Obj? && BasicCheck(params).None? && !IsName(Get(params.fields, "property"))
      ==> (d == Refuses(InvalidPropertyName(Get(params.fields, "property")))
           && Message(d.error) == "invalid property name: " + Text(Get(params.fields, "property")))
  {
  }

  /** The event `userUnset` builds carries `{key: 0}` as its properties. */
  lemma UnsetEventProperties(m: map<string, Value>, key: string)
    ensures Get(UnsetEvent(m, key), "properties") == Obj(map[key := Num(0)])
  {
  }

  /** The properties sent for an event whose only properties are `{key: 0}`: that one key, set to 0. */
  lemma ZeroMerged(t: EventType, e: map<string, Value>, key: string,
                   superProperties: map<string, Value>, dynamic: Option<Value>)
    requires !IsTrackFamily(t) && Get(e, "properties") == Obj(map[key := Num(0)])
    ensures MergedProperties(t, e, superProperties, dynamic) == map[key := Num(0)]
  {
    var zero := map[key := Num(0)];
    assert HasCallerProperties(e) by {
      assert key in zero;
    }
    ExtendedSingle(map[], Obj(zero));
  }

  /** The date walk leaves `{key: 0}` as it is. */
  lemma SearchKeepsZero(key: string)
    ensures SearchFields(map[key := Num(0)]) == map[key := Num(0)]
  {
  }

  /** A record built from a profile event whose only properties are `{key: 0}` sends exactly them. */
  lemma ZeroRecord(t: EventType, e: map<string, Value>, key: string,
                   superProperties: map<string, Value>, dynamic: Option<Value>, env: Env)
    requires !IsTrackFamily(t) && Get(e, "properties") == Obj(map[key := Num(0)])
    ensures var r := BuildRecord(t, e, superProperties, dynamic, env);
      "properties" in r && r["properties"] == Obj(map[key := Num(0)])
  {
    ZeroMerged(t, e, key, superProperties, dynamic);
    SearchKeepsZero(key);
    RecordFields(t, e, superProperties, dynamic, env, "properties");
  }

  /** What `userUnset` accepts, it sends as the unset event for the named property. */
  lemma UnsetDecisionEvent(params: Value)
    ensures var d := UnsetDecision(params);
      d.Accepts? ==>
        params.Obj? && Get(params.fields, "property").Str?
        && d == Accepts(UserUnset, UnsetEvent(params.fields, Get(params.fields, "property").s))
        && Get(d.event, "properties") == Obj(map[Get(params.fields, "property").s := Num(0)])
  {
    if UnsetDecision(params).Accepts? {
      UnsetEventProperties(params.fields, Get(params.fields, "property").s);
    }
  }

  /**
   * A `user_unset` event is sent with properties exactly `{property: 0}`; its
   * `#type` is `user_unset` by RecordTypeAndTime.
   */
  lemma UnsetSendsZero(params: Value, superProperties: map<string, Value>, dynamic: Option<Value>, env: Env)
    ensures var d := UnsetDecision(params);
      d.Accepts? ==>
        var key := Get(params.fields, "property").s;
        var r := BuildRecord(d.eventType, d.event, superProperties, dynamic, env);
        d.eventType == UserUnset
        && "properties" in r && r["properties"] == Obj(map[key := Num(0)])
  {
    var d := UnsetDecision(params);
    UnsetDecisionEvent(params);
    if d.Accepts? {
      ZeroRecord(d.eventType, d.event, Get(params.fields, "property").s, superProperties, dynamic, env);
    }
  }

  // ----- super properties -----

  /** Setting the same super properties twice has the effect of setting them once. */
  lemma SetSuperPropertiesIdempotent(superProperties: map<string, Value>, props: Value)
    ensures SuperPropertiesAfterSet(SuperPropertiesAfterSet(superProperties, props), props)
         == SuperPropertiesAfterSet(superProperties, props)
  {
    if ValidProperties(props) {
      StripIdempotent(props);
      AssignIdempotent(superProperties, Strip(props));
    }
  }

  /**
   * After a valid `setSuperProperties`, a key holds the new value when the
   * caller's object gives it one `_strip` keeps, and its old entry otherwise.
   */
  lemma SetSuperPropertiesOverrides(superProperties: map<string, Value>, m: map<string, Value>, k: string)
    requires !ArrayLike(m) && ValidProperties(Obj(m))
    ensures var after := SuperPropertiesAfterSet(superProperties, Obj(m));
      var given := k in m && IsAllowedValue(m[k]);
      (k in after <==> k in superProperties || given)
      && (given ==> after[k] == m[k])
      && (!given && k in superProperties ==> after[k] == superProperties[k])
  {
    StripDeletesExactlyDisallowed(m, k);
  }
}
