/**
 * The SDK entry point `TDAnalytics`: the checks each public operation runs
 * before anything is sent, the super-property state it keeps, and
 * `_sendRequest`, which turns a caller's event into the record handed to
 * the consumer.
 *
 * External inputs are parameters (`Env`): the clock read by `new Date()`, the
 * random digits of `_.UUID()`, and what the installed dynamic-properties
 * provider returns when it is called for an event. An operation ends in one
 * of three ways (`Outcome`): a TypeError thrown by `params.callback` before
 * any check, the callback called with an error, or `consumer.add` called with
 * a record.
 */
module Analytics {
  import opened Wrappers
  import opened Decimal
  import opened Strings
  import opened JsValues
  import opened Utils
  import opened DateFormat
  import opened DateSearch
  import opened Uuid

  /** `_.version`. */
  const LibVersion: string := "1.3.6"

  /** `DEFAULT_PROPERTIES`: the library identity every track-family event starts from. */
  const DefaultProperties: map<string, Value> :=
    map["#lib" := Str("node"), "#lib_version" := Str(LibVersion)]

  datatype Error =
    | ParamsNotObject
    | MissingIdentity
    | InvalidEventName
    | InvalidProperties
    | EmptyEventId
    | EmptyFirstCheckId
    | InvalidPropertyName(property: Value)
    | InvalidSuperProperties
    | InvalidDynamicResult
    | DynamicNotFunction

  /** `String(v)`, as string concatenation renders a value. */
  function Text(v: Value): string
    decreases v
  {
    match v
    case Undefined => "undefined"
    case Null => "null"
    case Bool(b) => if b then "true" else "false"
    case Num(n) => IntToString(n)
    case Str(s) => s
    case Date(d) => FormatDate(d)
    case Arr(es) =>
      Join(seq(|es|, i requires 0 <= i < |es| =>
        if es[i].Undefined? || es[i].Null? then "" else Text(es[i])), ",")
    case Obj(_) => "[object Object]"
    case Func(source) => source
  }

  /** The message of the Error each failure passes to its callback. */
  function Message(e: Error): string {
    match e
    case ParamsNotObject => "params for track must be an object"
    case MissingIdentity => "account ID and distinct ID cannot be empty at the same time"
    case InvalidEventName => "invalid event name"
    case InvalidProperties => "invalid properties"
    case EmptyEventId => "eventId cannot be empty"
    case EmptyFirstCheckId => "firstCheckId cannot be empty"
    case InvalidPropertyName(p) => "invalid property name: " + Text(p)
    case InvalidSuperProperties => "Invalid superProperties"
    case InvalidDynamicResult => "Invalid return type of getDynamicProperties"
    case DynamicNotFunction => "getDynamicProperties must be a function"
  }

  /** The `#type` of a record. */
  datatype EventType =
    | Track | TrackUpdate | TrackOverwrite
    | UserSet | UserSetOnce | UserUnset | UserAdd | UserAppend | UserUniqAppend | UserDel

  function TypeName(t: EventType): string {
    match t
    case Track => "track"
    case TrackUpdate => "track_update"
    case TrackOverwrite => "track_overwrite"
    case UserSet => "user_set"
    case UserSetOnce => "user_setOnce"
    case UserUnset => "user_unset"
    case UserAdd => "user_add"
    case UserAppend => "user_append"
    case UserUniqAppend => "user_uniq_append"
    case UserDel => "user_del"
  }

  /** The types whose records carry the default, super and dynamic properties. */
  predicate IsTrackFamily(t: EventType) {
    t.Track? || t.TrackUpdate? || t.TrackOverwrite?
  }

  datatype Env = Env(now: DateTime, uuidDigits: UuidDigits, dynamicOutput: Value)

  /** How an operation ends: a TypeError, the callback called with an error, or the record handed to `consumer.add`. */
  datatype Outcome = Thrown | Rejected(error: Error) | Sent(record: map<string, Value>)

  // ----- the checks -----

  /** `_basicCheck(params)`: an object, with a valid account ID or a valid distinct ID. */
  function BasicCheck(params: Value): (err: Option<Error>)
    ensures err.None? ==> params.Obj?
  {
    if !params.Obj? then Some(ParamsNotObject)
    else if !IsUserId(Get(params.fields, "accountId")) && !IsUserId(Get(params.fields, "distinctId"))
    then Some(MissingIdentity)
    else None
  }

  /** The result of a check: the event as later steps see it, or the error for the callback. */
  datatype Checked = Passed(event: map<string, Value>) | Failed(error: Error)

  /** The event after a properties check has stripped `params.properties` in place. */
  function WithStrippedProperties(m: map<string, Value>): map<string, Value> {
    if "properties" in m then m["properties" := Strip(m["properties"])] else m
  }

  /** `_trackCheck`: identity, then the event name, then (unless skipped) the properties. */
  function TrackCheck(params: Value, skipLocalCheck: bool): Checked {
    match BasicCheck(params)
    case Some(e) => Failed(e)
    case None =>
      var m := params.fields;
      if !IsName(Get(m, "event")) then Failed(InvalidEventName)
      else if skipLocalCheck then Passed(m)
      else if !ValidProperties(Get(m, "properties")) then Failed(InvalidProperties)
      else Passed(WithStrippedProperties(m))
  }

  // ----- the record -----

  /** Record key and the event field it is copied from when that field is truthy. */
  const OptionalFields: map<string, string> := map[
    "#distinct_id" := "distinctId",
    "#account_id" := "accountId",
    "#ip" := "ip",
    "#event_name" := "event",
    "#event_id" := "eventId",
    "#first_check_id" := "firstCheckId",
    "#app_id" := "appId"]

  /** `params.time` when it is a Date, else the clock. */
  function EventTime(event: map<string, Value>, env: Env): DateTime {
    var time := Get(event, "time");
    if time.Date? then time.date else env.now
  }

  /** `data[key] = v` when `v` is truthy. */
  function PutIfTruthy(data: map<string, Value>, key: string, v: Value): map<string, Value> {
    if Truthy(v) then data[key := v] else data
  }

  /** The fields every record carries: its type, its time and its uuid. */
  function FixedFields(t: EventType, event: map<string, Value>, env: Env): map<string, Value> {
    var uuid := Get(event, "uuid");
    map[
      "#type" := Str(TypeName(t)),
      "#time" := Str(FormatDate(EventTime(event, env))),
      "#uuid" := if Truthy(uuid) then uuid else Str(GenerateUuid(env.uuidDigits))]
  }

  /** The optional fields among `keys` whose event value is truthy, holding that value. */
  function OptionalEntries(event: map<string, Value>, keys: set<string>): map<string, Value> {
    map f | f in keys && f in OptionalFields && Truthy(Get(event, OptionalFields[f])) :: Get(event, OptionalFields[f])
  }

  /** The reserved `#` fields of a record, before dates are rewritten. */
  function ReservedFields(t: EventType, event: map<string, Value>, env: Env): map<string, Value> {
    FixedFields(t, event, env) + OptionalEntries(event, OptionalFields.Keys)
  }

  /** One more optional field, assigned when its event value is truthy. */
  lemma PutOptional(base: map<string, Value>, event: map<string, Value>, keys: set<string>, k: string)
    requires k in OptionalFields
    ensures PutIfTruthy(base + OptionalEntries(event, keys), k, Get(event, OptionalFields[k]))
         == base + OptionalEntries(event, keys + {k})
  {
  }

  /** A fixed field assigned between optional ones. */
  lemma PutFixed(base: map<string, Value>, event: map<string, Value>, keys: set<string>, k: string, v: Value)
    requires k !in OptionalFields
    ensures (base + OptionalEntries(event, keys))[k := v] == base[k := v] + OptionalEntries(event, keys)
  {
  }

  /** What `this.getDynamicProperties ? this.getDynamicProperties() : {}` yields. */
  function DynamicSource(dynamic: Option<Value>): Value {
    if dynamic.Some? then dynamic.value else Obj(map[])
  }

  /** The caller's properties are overlaid only when they form a non-empty object. */
  predicate HasCallerProperties(event: map<string, Value>) {
    var p := Get(event, "properties");
    p.Obj? && !IsEmptyObject(p)
  }

  /** The `properties` of a record, before dates are rewritten. */
  function MergedProperties(t: EventType, event: map<string, Value>, superProperties: map<string, Value>, dynamic: Option<Value>)
    : map<string, Value>
  {
    var seed :=
      if IsTrackFamily(t)
      then Extended(map[], [Obj(DefaultProperties), Obj(superProperties), DynamicSource(dynamic)])
      else map[];
    if HasCallerProperties(event) then Extended(seed, [Get(event, "properties")]) else seed
  }

  /** The record `_sendRequest` hands to the consumer. */
  function BuildRecord(t: EventType, event: map<string, Value>, superProperties: map<string, Value>, dynamic: Option<Value>, env: Env)
    : map<string, Value>
  {
    SearchFields(ReservedFields(t, event, env)["properties" := Obj(MergedProperties(t, event, superProperties, dynamic))])
  }

  // ----- the operations -----

  datatype TrackKind = PlainTrack | UpdateTrack | OverwriteTrack | FirstTrack

  function TrackTypeOf(kind: TrackKind): EventType {
    match kind
    case PlainTrack => Track
    case UpdateTrack => TrackUpdate
    case OverwriteTrack => TrackOverwrite
    case FirstTrack => Track
  }

  /** What the checks of an operation decide: throw, report an error, or send this event as this type. */
  datatype Decision = Throws | Refuses(error: Error) | Accepts(eventType: EventType, event: map<string, Value>)

  /** `params.callback`, read before any check; `undefined` when `params` is not an object. */
  function CallbackOf(params: Value): Value {
    if params.Obj? then Get(params.fields, "callback") else Undefined
  }

  /**
   * Whether `callback(err)` returns: a falsy callback has been replaced by
   * `function () {}`, and calling any other value that is not a function
   * throws a TypeError.
   */
  predicate Callable(callback: Value) {
    !Truthy(callback) || callback.Func?
  }

  /**
   * The end of an operation once its checks have decided: a refusal calls the
   * operation's callback with the error, which throws when the callback is not
   * callable.
   */
  function Deliver(d: Decision, callback: Value, superProperties: map<string, Value>, dynamic: Option<Value>, env: Env): Outcome {
    match d
    case Throws => Thrown
    case Refuses(e) => if Callable(callback) then Rejected(e) else Thrown
    case Accepts(t, m) => Sent(BuildRecord(t, m, superProperties, dynamic, env))
  }

  /** The checks of `track`, `trackUpdate`, `trackOverWrite` and `trackFirst`. */
  function TrackDecision(kind: TrackKind, params: Value, skipLocalCheck: bool): Decision {
    if params.Undefined? || params.Null? then Throws
    else match TrackCheck(params, skipLocalCheck)
      case Failed(e) => Refuses(e)
      case Passed(m) =>
        if (kind.UpdateTrack? || kind.OverwriteTrack?) && !Truthy(Get(m, "eventId")) then Refuses(EmptyEventId)
        else if kind.FirstTrack? && !Truthy(Get(m, "firstCheckId")) then Refuses(EmptyFirstCheckId)
        else Accepts(TrackTypeOf(kind), m)
  }

  datatype ProfileKind = SetKind | SetOnceKind | AddKind | AppendKind | UniqAppendKind | DelKind

  function ProfileTypeOf(kind: ProfileKind): EventType {
    match kind
    case SetKind => UserSet
    case SetOnceKind => UserSetOnce
    case AddKind => UserAdd
    case AppendKind => UserAppend
    case UniqAppendKind => UserUniqAppend
    case DelKind => UserDel
  }

  /** The checks of `userSet`, `userSetOnce`, `userAdd`, `userAppend`, `userUniqAppend` and `userDel`. */
  function ProfileDecision(kind: ProfileKind, params: Value): Decision {
    if params.Undefined? || params.Null? then Throws
    else match BasicCheck(params)
      case Some(e) => Refuses(e)
      case None =>
        var m := params.fields;
        if kind.DelKind? then Accepts(UserDel, m)
        else if !RequiredProperties(Get(m, "properties")) then Refuses(InvalidProperties)
        else Accepts(ProfileTypeOf(kind), WithStrippedProperties(m))
  }

  /** The `TDUserProfileEvent` `userUnset` builds: identity and app id kept, properties `{key: 0}`. */
  function UnsetEvent(m: map<string, Value>, key: string): map<string, Value> {
    map[
      "accountId" := Get(m, "accountId"),
      "distinctId" := Get(m, "distinctId"),
      "properties" := Obj(map[key := Num(0)]),
      "callback" := Get(m, "callback"),
      "appId" := Get(m, "appId")]
  }

  /** The checks of `userUnset`. */
  function UnsetDecision(params: Value): Decision {
    if params.Undefined? || params.Null? then Throws
    else match BasicCheck(params)
      case Some(e) => Refuses(e)
      case None =>
        var property := Get(params.fields, "property");
        if !IsName(property) then Refuses(InvalidPropertyName(property))
        else Accepts(UserUnset, UnsetEvent(params.fields, property.s))
  }

  /** What `if (callback && err) callback(err)` does: nothing, a call with the error, or a TypeError. */
  datatype Report = Quiet | Reported(error: Error) | ReportThrows

  function ReportTo(callback: Value, err: Option<Error>): Report {
    if err.None? || !Truthy(callback) then Quiet
    else if callback.Func? then Reported(err.value)
    else ReportThrows
  }

  /** The super properties after `setSuperProperties(props)`. */
  function SuperPropertiesAfterSet(superProperties: map<string, Value>, props: Value): map<string, Value> {
    if ValidProperties(props) then Assign(superProperties, Strip(props)) else superProperties
  }

  class TDAnalytics {
    var superProperties: map<string, Value>
    /** The installed `getDynamicProperties` function, if any. */
    var dynamicProvider: Option<Value>

    constructor()
      ensures superProperties == map[] && dynamicProvider == None
    {
      superProperties := map[];
      dynamicProvider := None;
    }

    /** The dynamic properties an event sees: the provider's output, if one is installed. */
    function DynamicOutput(env: Env): Option<Value>
      reads this
    {
      if dynamicProvider.Some? then Some(env.dynamicOutput) else None
    }

    /** `_trackCheck`, stripping the caller's properties as the check runs. */
    method CheckTrack(params: Value, skipLocalCheck: bool) returns (checked: Checked)
      ensures checked == TrackCheck(params, skipLocalCheck)
    {
      var err := BasicCheck(params);
      if err.Some? {
        return Failed(err.value);
      }
      var m := params.fields;
      if !IsName(Get(m, "event")) {
        return Failed(InvalidEventName);
      }
      if !skipLocalCheck {
        var ok, stripped := Properties(Get(m, "properties"));
        if "properties" in m {
          m := m["properties" := stripped];
        }
        if !ok {
          return Failed(InvalidProperties);
        }
      }
      return Passed(m);
    }

    /** The `properties` of a record: `extend` over the defaults, super and dynamic properties, then the caller's. */
    method MergeProperties(t: EventType, event: map<string, Value>, env: Env) returns (properties: map<string, Value>)
      ensures properties == MergedProperties(t, event, superProperties, DynamicOutput(env))
    {
      if IsTrackFamily(t) {
        var dynamic := if dynamicProvider.Some? then env.dynamicOutput else Obj(map[]);
        properties := Extend(map[], [Obj(DefaultProperties), Obj(superProperties), dynamic]);
      } else {
        properties := map[];
      }
      var props := Get(event, "properties");
      if props.Obj? && !IsEmptyObject(props) {
        properties := Extend(properties, [props]);
      }
    }

    /** The first half of `_sendRequest`: the reserved `#` fields, assigned one by one. */
    method ReserveFields(t: EventType, event: map<string, Value>, env: Env) returns (data: map<string, Value>)
      ensures data == ReservedFields(t, event, env)
    {
      var base := map["#type" := Str(TypeName(t)), "#time" := Str(FormatDate(EventTime(event, env)))];
      // `done` is the set of optional fields considered so far.
      ghost var done: set<string> := {};
      data := base;
      assert data == base + OptionalEntries(event, done);
      data := PutIfTruthy(data, "#distinct_id", Get(event, "distinctId"));
      PutOptional(base, event, done, "#distinct_id");
      done := done + {"#distinct_id"};
      data := PutIfTruthy(data, "#account_id", Get(event, "accountId"));
      PutOptional(base, event, done, "#account_id");
      done := done + {"#account_id"};
      data := PutIfTruthy(data, "#ip", Get(event, "ip"));
      PutOptional(base, event, done, "#ip");
      done := done + {"#ip"};
      data := PutIfTruthy(data, "#event_name", Get(event, "event"));
      PutOptional(base, event, done, "#event_name");
      done := done + {"#event_name"};
      data := PutIfTruthy(data, "#event_id", Get(event, "eventId"));
      PutOptional(base, event, done, "#event_id");
      done := done + {"#event_id"};
      data := PutIfTruthy(data, "#first_check_id", Get(event, "firstCheckId"));
      PutOptional(base, event, done, "#first_check_id");
      done := done + {"#first_check_id"};
      var uuid := if Truthy(Get(event, "uuid")) then Get(event, "uuid") else Str(GenerateUuid(env.uuidDigits));
      data := data["#uuid" := uuid];
      PutFixed(base, event, done, "#uuid", uuid);
      base := base["#uuid" := uuid];
      data := PutIfTruthy(data, "#app_id", Get(event, "appId"));
      PutOptional(base, event, done, "#app_id");
      done := done + {"#app_id"};
      assert done == OptionalFields.Keys;
    }

    /** `_sendRequest`: the reserved fields, the merged properties, then `searchObjDate`. */
    method SendRequest(t: EventType, event: map<string, Value>, env: Env) returns (data: map<string, Value>)
      ensures data == BuildRecord(t, event, superProperties, DynamicOutput(env), env)
    {
      data := ReserveFields(t, event, env);
      var properties := MergeProperties(t, event, env);
      data := data["properties" := Obj(properties)];
      data := SearchFields(data);
    }

    /** Hands an accepted event to `_sendRequest`; a refusal goes to the callback instead. */
    method Dispatch(d: Decision, callback: Value, env: Env) returns (out: Outcome)
      ensures out == Deliver(d, callback, superProperties, DynamicOutput(env), env)
    {
      match d
      case Throws => out := Thrown;
      case Refuses(e) => out := if Callable(callback) then Rejected(e) else Thrown;
      case Accepts(t, m) =>
        var record := SendRequest(t, m, env);
        out := Sent(record);
    }

    /** The checks the track operations run: `_trackCheck`, then the id a kind demands. */
    method DecideTrack(kind: TrackKind, params: Value, skipLocalCheck: bool) returns (d: Decision)
      ensures d == TrackDecision(kind, params, skipLocalCheck)
    {
      if params.Undefined? || params.Null? {
        return Throws;
      }
      var checked := CheckTrack(params, skipLocalCheck);
      if checked.Failed? {
        return Refuses(checked.error);
      }
      var m := checked.event;
      if (kind.UpdateTrack? || kind.OverwriteTrack?) && !Truthy(Get(m, "eventId")) {
        return Refuses(EmptyEventId);
      }
      if kind.FirstTrack? && !Truthy(Get(m, "firstCheckId")) {
        return Refuses(EmptyFirstCheckId);
      }
      return Accepts(TrackTypeOf(kind), m);
    }

    method TrackEvent(kind: TrackKind, params: Value, skipLocalCheck: bool, env: Env) returns (out: Outcome)
      ensures out == Deliver(TrackDecision(kind, params, skipLocalCheck), CallbackOf(params), superProperties, DynamicOutput(env), env)
    {
      var d := DecideTrack(kind, params, skipLocalCheck);
      out := Dispatch(d, CallbackOf(params), env);
    }

    method Track(params: Value, skipLocalCheck: bool, env: Env) returns (out: Outcome)
      ensures out == Deliver(TrackDecision(PlainTrack, params, skipLocalCheck), CallbackOf(params), superProperties, DynamicOutput(env), env)
    {
      out := TrackEvent(PlainTrack, params, skipLocalCheck, env);
    }

    method TrackUpdate(params: Value, skipLocalCheck: bool, env: Env) returns (out: Outcome)
      ensures out == Deliver(TrackDecision(UpdateTrack, params, skipLocalCheck), CallbackOf(params), superProperties, DynamicOutput(env), env)
    {
      out := TrackEvent(UpdateTrack, params, skipLocalCheck, env);
    }

    method TrackOverWrite(params: Value, skipLocalCheck: bool, env: Env) returns (out: Outcome)
      ensures out == Deliver(TrackDecision(OverwriteTrack, params, skipLocalCheck), CallbackOf(params), superProperties, DynamicOutput(env), env)
    {
      out := TrackEvent(OverwriteTrack, params, skipLocalCheck, env);
    }

    method TrackFirst(params: Value, skipLocalCheck: bool, env: Env) returns (out: Outcome)
      ensures out == Deliver(TrackDecision(FirstTrack, params, skipLocalCheck), CallbackOf(params), superProperties, DynamicOutput(env), env)
    {
      out := TrackEvent(FirstTrack, params, skipLocalCheck, env);
    }

    /** The checks the profile operations run: identity, then `propertiesMust` (not for `userDel`). */
    method DecideProfile(kind: ProfileKind, params: Value) returns (d: Decision)
      ensures d == ProfileDecision(kind, params)
    {
      if params.Undefined? || params.Null? {
        return Throws;
      }
      var err := BasicCheck(params);
      if err.Some? {
        return Refuses(err.value);
      }
      var m := params.fields;
      if !kind.DelKind? {
        var ok, stripped := PropertiesMust(Get(m, "properties"));
        if "properties" in m {
          m := m["properties" := stripped];
        }
        if !ok {
          return Refuses(InvalidProperties);
        }
      }
      return Accepts(ProfileTypeOf(kind), m);
    }

    method Profile(kind: ProfileKind, params: Value, env: Env) returns (out: Outcome)
      ensures out == Deliver(ProfileDecision(kind, params), CallbackOf(params), superProperties, DynamicOutput(env), env)
    {
      var d := DecideProfile(kind, params);
      out := Dispatch(d, CallbackOf(params), env);
    }

    method UserSet(params: Value, env: Env) returns (out: Outcome)
      ensures out == Deliver(ProfileDecision(SetKind, params), CallbackOf(params), superProperties, DynamicOutput(env), env)
    {
      out := Profile(SetKind, params, env);
    }

    method UserSetOnce(params: Value, env: Env) returns (out: Outcome)
      ensures out == Deliver(ProfileDecision(SetOnceKind, params), CallbackOf(params), superProperties, DynamicOutput(env), env)
    {
      out := Profile(SetOnceKind, params, env);
    }

    method UserAdd(params: Value, env: Env) returns (out: Outcome)
      ensures out == Deliver(ProfileDecision(AddKind, params), CallbackOf(params), superProperties, DynamicOutput(env), env)
    {
      out := Profile(AddKind, params, env);
    }

    method UserAppend(params: Value, env: Env) returns (out: Outcome)
      ensures out == Deliver(ProfileDecision(AppendKind, params), CallbackOf(params), superProperties, DynamicOutput(env), env)
    {
      out := Profile(AppendKind, params, env);
    }

    method UserUniqAppend(params: Value, env: Env) returns (out: Outcome)
      ensures out == Deliver(ProfileDecision(UniqAppendKind, params), CallbackOf(params), superProperties, DynamicOutput(env), env)
    {
      out := Profile(UniqAppendKind, params, env);
    }

    method UserDel(params: Value, env: Env) returns (out: Outcome)
      ensures out == Deliver(ProfileDecision(DelKind, params), CallbackOf(params), superProperties, DynamicOutput(env), env)
    {
      out := Profile(DelKind, params, env);
    }

    /** The checks `userUnset` runs, and the profile event it builds. */
    method DecideUnset(params: Value) returns (d: Decision)
      ensures d == UnsetDecision(params)
    {
      if params.Undefined? || params.Null? {
        return Throws;
      }
      var err := BasicCheck(params);
      if err.Some? {
        return Refuses(err.value);
      }
      var property := Get(params.fields, "property");
      if !IsName(property) {
        return Refuses(InvalidPropertyName(property));
      }
      return Accepts(EventType.UserUnset, UnsetEvent(params.fields, property.s));
    }

    method UserUnset(params: Value, env: Env) returns (out: Outcome)
      ensures out == Deliver(UnsetDecision(params), CallbackOf(params), superProperties, DynamicOutput(env), env)
    {
      var d := DecideUnset(params);
      out := Dispatch(d, CallbackOf(params), env);
    }

    /**
     * `setSuperProperties(props, callback)`: merge when `properties(props)` accepts,
     * otherwise report to the callback, if there is one.
     */
    method SetSuperProperties(props: Value, callback: Value) returns (reported: Report)
      modifies this
      ensures superProperties == SuperPropertiesAfterSet(old(superProperties), props)
      ensures dynamicProvider == old(dynamicProvider)
      ensures reported == ReportTo(callback, if ValidProperties(props) then None else Some(InvalidSuperProperties))
    {
      reported := Quiet;
      var ok, stripped := Properties(props);
      if ok {
        superProperties := Extend(superProperties, [stripped]);
      } else if Truthy(callback) {
        reported := if callback.Func? then Reported(InvalidSuperProperties) else ReportThrows;
      }
    }

    method ClearSuperProperties()
      modifies this
      ensures superProperties == map[]
      ensures dynamicProvider == old(dynamicProvider)
    {
      superProperties := map[];
    }

    /**
     * `setDynamicSuperProperties(provider, callback)`; `probe` is what calling the
     * provider returns here. Only a function whose probe passes `properties` is installed.
     */
    method SetDynamicSuperProperties(provider: Value, probe: Value, callback: Value) returns (reported: Report)
      modifies this
      ensures dynamicProvider ==
        if provider.Func? && ValidProperties(probe) then Some(provider) else old(dynamicProvider)
      ensures superProperties == old(superProperties)
      ensures reported == ReportTo(callback,
        if !provider.Func? then Some(DynamicNotFunction)
        else if !ValidProperties(probe) then Some(InvalidDynamicResult)
        else None)
    {
      var err: Option<Error> := None;
      if provider.Func? {
        var ok, _ := Properties(probe);
        if ok {
          dynamicProvider := Some(provider);
        } else {
          err := Some(InvalidDynamicResult);
        }
      } else {
        err := Some(DynamicNotFunction);
      }
      reported := ReportTo(callback, err);
    }
  }
}
