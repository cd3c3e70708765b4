/**
 * A decoded JSON document: what PHP's `json_decode($text, true)` hands back,
 * with objects as ordered key/value members. Decoding text is not modelled;
 * numbers are integers.
 */
module JsonValue {
  import opened Wrappers
  import opened Text

  datatype Json =
    | JNull
    | JBool(b: bool)
    | JNum(n: int)
    | JStr(s: string)
    | JArr(items: seq<Json>)
    | JObj(members: seq<Member>)

  datatype Member = Member(key: string, value: Json)

  /** The value of the first member named `key`. */
  function Lookup(ms: seq<Member>, key: string): (r: Option<Json>)
    ensures r.None? <==> forall i :: 0 <= i < |ms| ==> ms[i].key != key
    ensures r.Some? ==> exists i :: 0 <= i < |ms| && ms[i].key == key && ms[i].value == r.value
                                 && forall j :: 0 <= j < i ==> ms[j].key != key
  {
    if ms == [] then None
    else if ms[0].key == key then Some(ms[0].value)
    else
      var r := Lookup(ms[1..], key);
      if r.Some? then
        var i :| 0 <= i < |ms[1..]| && ms[1..][i].key == key && ms[1..][i].value == r.value
                 && forall j :: 0 <= j < i ==> ms[1..][j].key != key;
        assert ms[i + 1].key == key && forall j :: 0 <= j < i + 1 ==> ms[j].key != key;
        r
      else r
  }

  /**
   * `$v['key']` for a non-numeric key: only an object has such an entry;
   * a list and a scalar have none.
   */
  function Get(v: Json, key: string): Option<Json> {
    if v.JObj? then Lookup(v.members, key) else None
  }

  /** `isset($v['key'])`: the entry exists and is not `null`. */
  predicate IsSet(v: Json, key: string) {
    Get(v, key).Some? && !Get(v, key).value.JNull?
  }

  /** `$v['key'] ?? $default`. */
  function Coalesce(v: Json, key: string, default: Json): (r: Json)
    ensures IsSet(v, key) ==> Get(v, key) == Some(r)
    ensures !IsSet(v, key) ==> r == default
  {
    if IsSet(v, key) then Get(v, key).value else default
  }

  /** `is_array($v)`: lists and objects both decode to PHP arrays. */
  predicate IsArray(v: Json) { v.JArr? || v.JObj? }

  /** PHP truthiness: `empty($v)` holds exactly for these values. */
  predicate IsFalsy(v: Json) {
    match v
    case JNull => true
    case JBool(b) => !b
    case JNum(n) => n == 0
    case JStr(s) => IsEmptyString(s)
    case JArr(items) => items == []
    case JObj(ms) => ms == []
  }

  /** `foreach ($v as $key => $value)`: a list's keys are its indices. */
  function Entries(v: Json): (r: seq<Member>)
    requires IsArray(v)
    ensures v.JObj? ==> r == v.members
    ensures v.JArr? ==> |r| == |v.items| && forall i :: 0 <= i < |r| ==> r[i] == Member(NatToString(i), v.items[i])
  {
    if v.JObj? then v.members
    else seq(|v.items|, i requires 0 <= i < |v.items| => Member(NatToString(i), v.items[i]))
  }

  /**
   * The string PHP makes of a scalar (`"$v"`, `strval`): `true` is "1",
   * `false` and `null` are "". An array has none: PHP raises
   * "Array to string conversion".
   */
  function ScalarText(v: Json): (r: Option<string>)
    ensures r.None? <==> IsArray(v)
  {
    match v
    case JNull => Some("")
    case JBool(b) => Some(if b then "1" else "")
    case JNum(n) => Some(IntToString(n))
    case JStr(s) => Some(s)
    case JArr(_) => None
    case JObj(_) => None
  }

  /** Every string scalar of `v`, in document order: what MySQL's `JSON_SEARCH` inspects. */
  function Strings(v: Json): seq<string> {
    match v
    case JStr(s) => [s]
    case JArr(items) => ItemStrings(items)
    case JObj(ms) => MemberStrings(ms)
    case _ => []
  }

  function ItemStrings(items: seq<Json>): seq<string> {
    if items == [] then [] else Strings(items[0]) + ItemStrings(items[1..])
  }

  function MemberStrings(ms: seq<Member>): seq<string> {
    if ms == [] then [] else Strings(ms[0].value) + MemberStrings(ms[1..])
  }

  /**
   * The text of each `field_value` of a list of field objects, lowered, as
   * `LOWER(JSON_EXTRACT(lead_data, '$[*].field_value'))` exposes them to
   * `LIKE`; string and number values only.
   */
  function FieldValueTexts(v: Json): seq<string> {
    if v.JArr? then ItemFieldValueTexts(v.items) else []
  }

  function ItemFieldValueTexts(items: seq<Json>): seq<string> {
    if items == [] then []
    else
      var rest := ItemFieldValueTexts(items[1..]);
      match Get(items[0], "field_value")
      case Some(JStr(s)) => [Lower(s)] + rest
      case Some(JNum(n)) => [IntToString(n)] + rest
      case _ => rest
  }
}
