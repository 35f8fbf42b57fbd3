/**
 * The validation and merging helpers of the utility library: the key-name
 * pattern, identity checks, stripping of values of unsupported types, the
 * optional and mandatory property checks, and `extend`.
 */
module Utils {
  import opened JsValues

  // ----- KEY_NAME_MATCH_REGEX = /^[a-zA-Z#][a-zA-Z0-9_]+$/ -----

  predicate IsLetter(c: char) {
    'a' <= c <= 'z' || 'A' <= c <= 'Z'
  }

  predicate IsKeyHead(c: char) {
    IsLetter(c) || c == '#'
  }

  predicate IsKeyTail(c: char) {
    IsLetter(c) || '0' <= c <= '9' || c == '_'
  }

  /** A letter or '#', then one or more letters, digits or underscores. */
  predicate MatchesKeyPattern(s: string) {
    |s| >= 2 && IsKeyHead(s[0]) && forall i :: 1 <= i < |s| ==> IsKeyTail(s[i])
  }

  /** `_.properties.name(s)`: a string that matches the key pattern. */
  predicate IsName(v: Value)
    ensures IsName(v) ==> v.Str? && |v.s| >= 2 && IsKeyHead(v.s[0])
  {
    v.Str? && MatchesKeyPattern(v.s)
  }

  /** The characters `.` does not match in a JavaScript regular expression. */
  predicate IsLineTerminator(c: char) {
    c == '\n' || c == '\r' || c == '\U{2028}' || c == '\U{2029}'
  }

  /** `_.properties.userId(id)`: a string matching `/^.+$/`. */
  predicate IsUserId(v: Value)
    ensures IsUserId(v) ==> v.Str? && v.s != []
  {
    v.Str? && |v.s| >= 1 && forall i :: 0 <= i < |v.s| ==> !IsLineTerminator(v.s[i])
  }

  /** `_.check.isEmptyObject(v)`: a plain object without own keys. */
  predicate IsEmptyObject(v: Value)
    ensures IsEmptyObject(v) <==> v == Obj(map[])
  {
    v.Obj? && |v.fields| == 0
  }

  // ----- _.properties._strip -----

  /** The value types a property may hold: String, Number, Date, Boolean, Array, Object. */
  predicate IsAllowedValue(v: Value) {
    v.Str? || v.Num? || v.Date? || v.Bool? || v.Arr? || v.Obj?
  }

  /** What is left of an object once every key `_.each` visits with a disallowed value is deleted. */
  function StripFields(m: map<string, Value>): map<string, Value> {
    map k | k in m && (k !in EachKeys(m) || IsAllowedValue(m[k])) :: m[k]
  }

  /** `_strip(prop)`: objects lose their disallowed entries; any other value is returned as it is. */
  function Strip(v: Value): Value {
    if v.Obj? then Obj(StripFields(v.fields)) else v
  }

  /** The deletion loop of `_strip`, one visited key at a time. */
  method StripObject(m: map<string, Value>) returns (r: map<string, Value>)
    ensures r == StripFields(m)
    ensures r.Keys <= m.Keys
    ensures forall k :: k in r ==> r[k] == m[k]
  {
    var visit := EachKeys(m);
    r := m;
    while visit != {}
      invariant visit <= EachKeys(m)
      invariant r.Keys <= m.Keys && visit <= r.Keys
      invariant forall k :: k in r ==> r[k] == m[k]
      invariant forall k :: k in m ==>
        (k in r <==> k !in EachKeys(m) || k in visit || IsAllowedValue(m[k]))
      decreases visit
    {
      var k :| k in visit;
      if !IsAllowedValue(r[k]) {
        r := r - {k};
      }
      visit := visit - {k};
    }
  }

  lemma StripKeepsArrayLike(m: map<string, Value>)
    ensures ArrayLike(StripFields(m)) == ArrayLike(m)
    ensures ArrayLike(m) ==> StripFields(m)["length"] == m["length"]
  {
    if ArrayLike(m) {
      assert "length" in StripFields(m);
    }
  }

  /** Stripping an object that is not array-like deletes exactly its entries of disallowed types. */
  lemma StripDeletesExactlyDisallowed(m: map<string, Value>, k: string)
    requires !ArrayLike(m)
    ensures k in StripFields(m) <==> k in m && IsAllowedValue(m[k])
    ensures k in StripFields(m) ==> StripFields(m)[k] == m[k]
  {
  }

  lemma {:induction false} StripIdempotent(v: Value)
    ensures Strip(Strip(v)) == Strip(v)
  {
    if v.Obj? {
      var m := v.fields;
      var s := StripFields(m);
      StripKeepsArrayLike(m);
      assert EachKeys(s) <= EachKeys(m) by {
        if ArrayLike(m) {
          forall k | k in EachKeys(s) ensures k in EachKeys(m) {
            var i :| 0 <= i < s["length"].n && IndexKey(i) in s && k == IndexKey(i);
            assert IndexKey(i) in m;
          }
        }
      }
      assert StripFields(s) == s;
    }
  }

  // ----- _.properties._checkPropertiesKey -----

  /** Every key `_.each` visits matches the key pattern. */
  predicate KeysMatch(m: map<string, Value>) {
    forall k :: k in EachKeys(m) ==> MatchesKeyPattern(k)
  }

  /** The flag loop of `_checkPropertiesKey`: it stays true unless a visited key fails the pattern. */
  method CheckPropertiesKey(m: map<string, Value>) returns (flag: bool)
    ensures flag <==> KeysMatch(m)
  {
    flag := true;
    var visit := EachKeys(m);
    while visit != {}
      invariant visit <= EachKeys(m)
      invariant flag <==> forall k :: k in EachKeys(m) - visit ==> MatchesKeyPattern(k)
      decreases visit
    {
      var k :| k in visit;
      if !MatchesKeyPattern(k) {
        flag := false;
      }
      visit := visit - {k};
    }
  }

  // ----- _.properties.properties and _.properties.propertiesMust -----

  /** `_.properties.properties(p)`: absent or falsy, or an object whose visited keys all match once stripped. */
  predicate ValidProperties(p: Value) {
    var q := Strip(p);
    if Truthy(q) then q.Obj? && KeysMatch(q.fields) else true
  }

  /** `_.properties.propertiesMust(p)`: an object, non-empty once stripped, whose visited keys all match. */
  predicate RequiredProperties(p: Value) {
    var q := Strip(p);
    if q.Undefined? || !q.Obj? || IsEmptyObject(q) then false else KeysMatch(q.fields)
  }

  /** `properties(p)` as the library runs it: strip in place, then check. */
  method Properties(p: Value) returns (ok: bool, stripped: Value)
    ensures ok == ValidProperties(p)
    ensures stripped == Strip(p)
  {
    stripped := p;
    if p.Obj? {
      var fields := StripObject(p.fields);
      stripped := Obj(fields);
    }
    if Truthy(stripped) {
      if stripped.Obj? {
        ok := CheckPropertiesKey(stripped.fields);
      } else {
        ok := false;
      }
    } else {
      ok := true;
    }
  }

  /** `propertiesMust(p)` as the library runs it: strip in place, then check. */
  method PropertiesMust(p: Value) returns (ok: bool, stripped: Value)
    ensures ok == RequiredProperties(p)
    ensures stripped == Strip(p)
  {
    stripped := p;
    if p.Obj? {
      var fields := StripObject(p.fields);
      stripped := Obj(fields);
    }
    if stripped.Undefined? || !stripped.Obj? || IsEmptyObject(stripped) {
      ok := false;
    } else {
      ok := CheckPropertiesKey(stripped.fields);
    }
  }

  /** The three ways `properties(p)` decides. */
  lemma ValidPropertiesCases(p: Value)
    ensures !Truthy(p) ==> ValidProperties(p)
    ensures Truthy(p) && !p.Obj? ==> !ValidProperties(p)
    ensures p.Obj? ==> (ValidProperties(p) <==> KeysMatch(StripFields(p.fields)))
  {
  }

  /** For an object that is not array-like, `properties` accepts iff every key left after stripping matches. */
  lemma {:induction false} ValidObjectProperties(m: map<string, Value>)
    requires !ArrayLike(m)
    ensures ValidProperties(Obj(m)) <==>
      forall k :: k in m && IsAllowedValue(m[k]) ==> MatchesKeyPattern(k)
  {
    StripKeepsArrayLike(m);
    var s := StripFields(m);
    assert EachKeys(s) == s.Keys;
    forall k | k in m && IsAllowedValue(m[k]) ensures k in s {
    }
  }

  /** `propertiesMust` is `properties` restricted to objects that stay non-empty after stripping. */
  lemma RequiredIsValidAndNonEmpty(p: Value)
    ensures RequiredProperties(p) <==> p.Obj? && |StripFields(p.fields)| > 0 && ValidProperties(p)
  {
  }

  /** `name` rejects the empty string, one-character strings and a leading digit. */
  lemma NameNeedsTwoCharacters(v: Value)
    ensures IsName(v) ==> |v.s| >= 2 && IsKeyHead(v.s[0])
    ensures !IsName(Str("")) && !IsName(Str("a")) && !IsName(Str("1a"))
    ensures IsName(Str("#a")) && IsName(Str("a_1"))
  {
  }

  /**
   * `userId` accepts any non-empty string without a line terminator, spaces
   * and digits included, and nothing that is not a string.
   */
  lemma UserIdCases()
    ensures IsUserId(Str("a")) && IsUserId(Str(" ")) && IsUserId(Str("42"))
    ensures !IsUserId(Str("")) && !IsUserId(Str("a\nb")) && !IsUserId(Str("a\r"))
    ensures !IsUserId(Str("\U{2028}")) && !IsUserId(Str("b\U{2029}"))
    ensures !IsUserId(Num(1)) && !IsUserId(Undefined) && !IsUserId(Arr([Str("a")]))
  {
    assert Str("a\nb").s[1] == '\n';
    assert Str("a\r").s[1] == '\r';
    assert Str("\U{2028}").s[0] == '\U{2028}';
    assert Str("b\U{2029}").s[1] == '\U{2029}';
  }

  // ----- _.extend -----

  /** `source` sets key `k` in `extend`: it enumerates `k` with a value other than `undefined`. */
  predicate Defines(source: Value, k: string) {
    var e := Enumerable(source);
    k in e && !e[k].Undefined?
  }

  /** The entries of `e` whose value is not `undefined`. */
  function DefinedEntries(e: map<string, Value>): map<string, Value> {
    map k | k in e && !e[k].Undefined? :: e[k]
  }

  /** The effect of one source in `extend`: its enumerable, non-undefined entries overwrite the target's. */
  function Assign(target: map<string, Value>, source: Value): map<string, Value> {
    target + DefinedEntries(Enumerable(source))
  }

  /** `extend(target, s1, ..., sn)`: the sources applied from left to right. */
  function Extended(target: map<string, Value>, sources: seq<Value>): map<string, Value>
    decreases |sources|
  {
    if sources == [] then target
    else Assign(Extended(target, sources[..|sources| - 1]), sources[|sources| - 1])
  }

  /** The inner loop of `extend`: copy each entry of one source whose value is not `undefined`. */
  method AssignEntries(target: map<string, Value>, entries: map<string, Value>) returns (r: map<string, Value>)
    ensures r == target + DefinedEntries(entries)
  {
    var props := entries.Keys;
    ghost var done: set<string> := {};
    r := target;
    while props != {}
      invariant props <= entries.Keys && done == entries.Keys - props
      invariant r == target + map k | k in done && !entries[k].Undefined? :: entries[k]
      decreases props
    {
      var prop :| prop in props;
      if !entries[prop].Undefined? {
        r := r[prop := entries[prop]];
      }
      props := props - {prop};
      done := done + {prop};
    }
  }

  /** The outer loop of `extend`: the sources in argument order. */
  method Extend(target: map<string, Value>, sources: seq<Value>) returns (r: map<string, Value>)
    ensures r == Extended(target, sources)
  {
    r := target;
    var i := 0;
    while i < |sources|
      invariant 0 <= i <= |sources|
      invariant r == Extended(target, sources[..i])
    {
      r := AssignEntries(r, Enumerable(sources[i]));
      assert sources[..i + 1][..i] == sources[..i];
      i := i + 1;
    }
    assert sources[..|sources|] == sources;
  }

  /** A key ends up in the result of `extend` iff the target had it or some source defines it. */
  lemma {:induction false} ExtendedKeys(target: map<string, Value>, sources: seq<Value>, k: string)
    ensures k in Extended(target, sources) <==>
      k in target || exists j :: 0 <= j < |sources| && Defines(sources[j], k)
    decreases |sources|
  {
    if sources != [] {
      var n := |sources| - 1;
      ExtendedKeys(target, sources[..n], k);
      if exists j :: 0 <= j < |sources| && Defines(sources[j], k) {
        var j :| 0 <= j < |sources| && Defines(sources[j], k);
        if j < n {
          assert sources[..n][j] == sources[j];
        }
      }
      if exists j :: 0 <= j < n && Defines(sources[..n][j], k) {
        var j :| 0 <= j < n && Defines(sources[..n][j], k);
        assert sources[j] == sources[..n][j];
      }
    }
  }

  /** The last source that defines a key decides its value: later sources override earlier ones. */
  lemma {:induction false} ExtendedLastWins(target: map<string, Value>, sources: seq<Value>, j: nat, k: string)
    requires j < |sources| && Defines(sources[j], k)
    requires forall i :: j < i < |sources| ==> !Defines(sources[i], k)
    ensures k in Extended(target, sources)
    ensures Extended(target, sources)[k] == Enumerable(sources[j])[k]
    decreases |sources|
  {
    var n := |sources| - 1;
    if j < n {
      forall i | j < i < n ensures !Defines(sources[..n][i], k) {
        assert sources[..n][i] == sources[i];
      }
      ExtendedLastWins(target, sources[..n], j, k);
    }
  }

  /** A key no source defines keeps the target's entry, or stays absent. */
  lemma {:induction false} ExtendedUntouched(target: map<string, Value>, sources: seq<Value>, k: string)
    requires forall i :: 0 <= i < |sources| ==> !Defines(sources[i], k)
    ensures k in Extended(target, sources) <==> k in target
    ensures k in target ==> Extended(target, sources)[k] == target[k]
    decreases |sources|
  {
    if sources != [] {
      var n := |sources| - 1;
      forall i | 0 <= i < n ensures !Defines(sources[..n][i], k) {
        assert sources[..n][i] == sources[i];
      }
      ExtendedUntouched(target, sources[..n], k);
    }
  }

  /** Applying the same source twice has the effect of applying it once. */
  lemma AssignIdempotent(target: map<string, Value>, source: Value)
    ensures Assign(Assign(target, source), source) == Assign(target, source)
  {
  }
}
