/**
 * The loosely typed JavaScript values the library receives from its callers,
 * as a tagged tree, together with the few language rules the library relies
 * on: truthiness, property lookup, and the key order of `for..in` and of the
 * library's own `_.each` iterator.
 */
module JsValues {
  import opened Decimal

  type Month = m: nat | m < 12
  type DayOfMonth = d: nat | 1 <= d <= 31 witness 1
  type Hour = h: nat | h < 24
  type Minute = m: nat | m < 60
  type Second = s: nat | s < 60
  type Millisecond = ms: nat | ms < 1000

  /**
   * The calendar fields of a Date as its local-time getters report them:
   * `getFullYear()`, `getMonth()` (0-based), `getDate()`, `getHours()`,
   * `getMinutes()`, `getSeconds()`, `getMilliseconds()`.
   */
  datatype DateTime = DateTime(
    year: int, month: Month, day: DayOfMonth,
    hours: Hour, minutes: Minute, seconds: Second, millis: Millisecond)

  /**
   * A JavaScript value. Numbers are integral; a function value keeps its
   * source text, which is what `String(f)` yields.
   */
  datatype Value =
    | Undefined
    | Null
    | Bool(b: bool)
    | Num(n: int)
    | Str(s: string)
    | Date(date: DateTime)
    | Arr(elems: seq<Value>)
    | Obj(fields: map<string, Value>)
    | Func(source: string)

  /** JavaScript truthiness: `undefined`, `null`, `false`, `0` and `""` are falsy. */
  predicate Truthy(v: Value) {
    match v
    case Undefined => false
    case Null => false
    case Bool(b) => b
    case Num(n) => n != 0
    case Str(s) => s != ""
    case _ => true
  }

  /** `obj[key]` on a plain object: a missing own key reads as `undefined`. */
  function Get(m: map<string, Value>, key: string): Value {
    if key in m then m[key] else Undefined
  }

  /** The property key of array index `i`. */
  function IndexKey(i: nat): string {
    NatToString(i)
  }

  lemma IndexKeyInjective()
    ensures forall i: nat, j: nat {:trigger IndexKey(i), IndexKey(j)} :: IndexKey(i) == IndexKey(j) ==> i == j
  {
    forall i: nat, j: nat | IndexKey(i) == IndexKey(j)
      ensures i == j
    {
      NatToStringInjective(i, j);
    }
  }

  /**
   * `_.each` walks a plain object as an array-like whenever
   * `obj.length === +obj.length`, i.e. when its "length" key holds a number.
   */
  predicate ArrayLike(m: map<string, Value>) {
    "length" in m && m["length"].Num?
  }

  /**
   * The keys `_.each` hands to its iterator for a plain object: every own key,
   * or, for an array-like object, the index keys below `length` that are present.
   */
  function EachKeys(m: map<string, Value>): (keys: set<string>)
    ensures keys <= m.Keys
  {
    if ArrayLike(m) then
      set i | 0 <= i < m["length"].n && IndexKey(i) in m :: IndexKey(i)
    else
      m.Keys
  }

  /**
   * The own enumerable properties `for (k in v)` visits, with their values:
   * the entries of an object, the indices of an array or of a string, and
   * nothing for any other value.
   */
  function Enumerable(v: Value): map<string, Value> {
    IndexKeyInjective();
    match v
    case Obj(m) => m
    case Arr(es) => map i | 0 <= i < |es| :: IndexKey(i) := es[i]
    case Str(s) => map i | 0 <= i < |s| :: IndexKey(i) := Str([s[i]])
    case _ => map[]
  }
}
