/**
 * Raw request bodies as the backend's validators see them, and the
 * per-field readers the schemas are built from. A field left out of the
 * body and a field sent as `null` are both "absent"; a required field
 * must be present with a value of its type, an optional one may be
 * absent. Length bounds count characters.
 */
module SchemaValues {
  import opened Wrappers

  /**
   * A decoded JSON value. `RDate` and `RDateTime` stand for values the
   * validator accepts as a date or a date-time, whatever their spelling.
   */
  datatype Raw =
    | RStr(s: string)
    | RInt(i: int)
    | RBool(b: bool)
    | RDate(day: int)
    | RDateTime(instant: int)
    | RNull
    | RList(items: seq<Raw>)
    | RObject(fields: map<string, Raw>)

  type RawObject = map<string, Raw>

  /** Left out of the body or sent as `null`. */
  predicate IsAbsent(o: RawObject, key: string) {
    key !in o || o[key] == RNull
  }

  /** A length bound: at least `minLen` characters and, when given, at most `maxLen`. */
  predicate Within(s: string, minLen: nat, maxLen: Option<nat>) {
    minLen <= |s| && (maxLen.None? || |s| <= maxLen.value)
  }

  /** A required string field with a length bound. */
  function RequiredText(o: RawObject, key: string, minLen: nat, maxLen: Option<nat>): (r: Option<string>)
    ensures r.Some? <==> key in o && o[key].RStr? && Within(o[key].s, minLen, maxLen)
    ensures r.Some? ==> r.value == o[key].s
  {
    if key in o && o[key].RStr? && Within(o[key].s, minLen, maxLen) then Some(o[key].s) else None
  }

  /**
   * An optional string field with a length bound checked only when it is
   * present: `None` when the field is invalid, `Some(None)` when it is absent.
   */
  function OptionalText(o: RawObject, key: string, minLen: nat, maxLen: Option<nat>): (r: Option<Option<string>>)
    ensures r == Some(None) <==> IsAbsent(o, key)
    ensures r.Some? && r.value.Some? <==> key in o && o[key].RStr? && Within(o[key].s, minLen, maxLen)
    ensures r.Some? && r.value.Some? ==> r.value.value == o[key].s
  {
    if IsAbsent(o, key) then Some(None)
    else if o[key].RStr? && Within(o[key].s, minLen, maxLen) then Some(Some(o[key].s))
    else None
  }

  function RequiredInt(o: RawObject, key: string): (r: Option<int>)
    ensures r.Some? <==> key in o && o[key].RInt?
    ensures r.Some? ==> o[key] == RInt(r.value)
  {
    if key in o && o[key].RInt? then Some(o[key].i) else None
  }

  function RequiredBool(o: RawObject, key: string): (r: Option<bool>)
    ensures r.Some? <==> key in o && o[key].RBool?
    ensures r.Some? ==> o[key] == RBool(r.value)
  {
    if key in o && o[key].RBool? then Some(o[key].b) else None
  }

  function RequiredDate(o: RawObject, key: string): (r: Option<int>)
    ensures r.Some? <==> key in o && o[key].RDate?
    ensures r.Some? ==> o[key] == RDate(r.value)
  {
    if key in o && o[key].RDate? then Some(o[key].day) else None
  }

  function OptionalDate(o: RawObject, key: string): (r: Option<Option<int>>)
    ensures r == Some(None) <==> IsAbsent(o, key)
    ensures r.Some? && r.value.Some? <==> key in o && o[key].RDate?
    ensures r.Some? && r.value.Some? ==> o[key] == RDate(r.value.value)
  {
    if IsAbsent(o, key) then Some(None)
    else if o[key].RDate? then Some(Some(o[key].day))
    else None
  }

  function RequiredDateTime(o: RawObject, key: string): (r: Option<int>)
    ensures r.Some? <==> key in o && o[key].RDateTime?
    ensures r.Some? ==> o[key] == RDateTime(r.value)
  {
    if key in o && o[key].RDateTime? then Some(o[key].instant) else None
  }

  function OptionalDateTime(o: RawObject, key: string): (r: Option<Option<int>>)
    ensures r == Some(None) <==> IsAbsent(o, key)
    ensures r.Some? && r.value.Some? <==> key in o && o[key].RDateTime?
    ensures r.Some? && r.value.Some? ==> o[key] == RDateTime(r.value.value)
  {
    if IsAbsent(o, key) then Some(None)
    else if o[key].RDateTime? then Some(Some(o[key].instant))
    else None
  }

  /** An optional text field carries `v`: absent when `v` is `None`, that string otherwise. */
  predicate CarriesText(o: RawObject, key: string, v: Option<string>) {
    if v.None? then IsAbsent(o, key) else key in o && o[key] == RStr(v.value)
  }

  /** An optional date field carries `v`: absent when `v` is `None`, that date otherwise. */
  predicate CarriesDate(o: RawObject, key: string, v: Option<int>) {
    if v.None? then IsAbsent(o, key) else key in o && o[key] == RDate(v.value)
  }

  /** An optional date-time field carries `v`: absent when `v` is `None`, that instant otherwise. */
  predicate CarriesDateTime(o: RawObject, key: string, v: Option<int>) {
    if v.None? then IsAbsent(o, key) else key in o && o[key] == RDateTime(v.value)
  }

  /** Two bodies that agree on `keys` (present alike, equal values). */
  predicate AgreeOn(o: RawObject, o': RawObject, keys: set<string>) {
    forall k :: k in keys ==> (k in o <==> k in o') && (k in o ==> o[k] == o'[k])
  }
}
