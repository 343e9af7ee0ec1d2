/** Decoded JSON as the upstream API delivers it, and the three ways the
    Python code reads a dictionary: `d.get(k)`, `d.get(k, default)` and
    `d[k]`. Reading a value for a typed column additionally demands the
    JSON type that column holds. */
module Json {
  import opened Base
  import Text

  datatype Json =
    | JNull
    | JBool(b: bool)
    | JInt(i: int)
    | JStr(s: string)
    | JArr(items: seq<Json>)
    | JObj(fields: map<string, Json>)

  type Object = map<string, Json>

  /** Python truthiness of a decoded value (`if value:`). */
  predicate Truthy(j: Json) {
    match j
    case JNull => false
    case JBool(b) => b
    case JInt(n) => n != 0
    case JStr(s) => s != ""
    case JArr(xs) => |xs| > 0
    case JObj(m) => |m| > 0
  }

  /** `d.get(k)`: JSON null stands for Python's None when the key is absent. */
  function Get(d: Object, k: string): Json {
    if k in d then d[k] else JNull
  }

  /** `d[k]`, which raises KeyError when the key is absent. */
  function Field(d: Object, k: string): (r: Result<Json, Fault>)
    ensures r.Ok? <==> k in d
    ensures r.Ok? ==> r.value == d[k]
    ensures r.Err? ==> r.error == KeyMissing(k)
  {
    if k in d then Ok(d[k]) else Err(KeyMissing(k))
  }

  function IntField(d: Object, k: string): (r: Result<int, Fault>)
    ensures r.Ok? <==> Get(d, k).JInt?
    ensures r.Ok? ==> Get(d, k) == JInt(r.value)
  {
    var v :- Field(d, k);
    if v.JInt? then Ok(v.i) else Err(TypeMismatch(k))
  }

  function BoolField(d: Object, k: string): (r: Result<bool, Fault>)
    ensures r.Ok? <==> Get(d, k).JBool?
    ensures r.Ok? ==> Get(d, k) == JBool(r.value)
  {
    var v :- Field(d, k);
    if v.JBool? then Ok(v.b) else Err(TypeMismatch(k))
  }

  function StringField(d: Object, k: string): (r: Result<string, Fault>)
    ensures r.Ok? <==> Get(d, k).JStr?
    ensures r.Ok? ==> Get(d, k) == JStr(r.value)
  {
    var v :- Field(d, k);
    if v.JStr? then Ok(v.s) else Err(TypeMismatch(k))
  }

  /** `j` is JSON null when `o` is unset, and the text `o` holds otherwise. */
  predicate TextOrNull(j: Json, o: Option<string>) {
    match o
    case None => j == JNull
    case Some(s) => j == JStr(s)
  }

  /** `j` is JSON null when `o` is unset, and the number `o` holds otherwise. */
  predicate IntOrNull(j: Json, o: Option<int>) {
    match o
    case None => j == JNull
    case Some(n) => j == JInt(n)
  }

  /** `d[k]` for a nullable text column: the key must be there, null is None. */
  function NullableStringField(d: Object, k: string): (r: Result<Option<string>, Fault>)
    ensures r.Ok? <==> k in d && (d[k].JNull? || d[k].JStr?)
    ensures r.Ok? ==> TextOrNull(d[k], r.value)
  {
    var v :- Field(d, k);
    if v.JNull? then Ok(None) else if v.JStr? then Ok(Some(v.s)) else Err(TypeMismatch(k))
  }

  /** `d[k]` for a nullable integer column. */
  function NullableIntField(d: Object, k: string): (r: Result<Option<int>, Fault>)
    ensures r.Ok? <==> k in d && (d[k].JNull? || d[k].JInt?)
    ensures r.Ok? ==> IntOrNull(d[k], r.value)
  {
    var v :- Field(d, k);
    if v.JNull? then Ok(None) else if v.JInt? then Ok(Some(v.i)) else Err(TypeMismatch(k))
  }

  /** `d.get(k)` for a nullable text column. */
  function OptionalString(d: Object, k: string): Result<Option<string>, Fault> {
    var v := Get(d, k);
    if v.JNull? then Ok(None) else if v.JStr? then Ok(Some(v.s)) else Err(TypeMismatch(k))
  }

  /** `d.get(k)` for a JSON column, None when absent or null. */
  function OptionalJson(d: Object, k: string): Option<Json> {
    if Get(d, k).JNull? then None else Some(d[k])
  }

  /** `d.get(k, False)` for a non-nullable boolean column. */
  function FlagOrFalse(d: Object, k: string): (r: Result<bool, Fault>)
    ensures k !in d ==> r == Ok(false)
    ensures k in d ==> (r.Ok? <==> d[k].JBool?)
    ensures k in d && r.Ok? ==> r.value == d[k].b
  {
    if k !in d then Ok(false)
    else if d[k].JBool? then Ok(d[k].b)
    else Err(TypeMismatch(k))
  }

  /** `datetime.fromisoformat`, which the model does not define: any parser
      returning None for text it rejects. */
  type IsoParser = string -> Option<Timestamp>

  /** `datetime.fromisoformat(text.replace("Z", "+00:00"))`. */
  function ParseTime(iso: IsoParser, k: string, text: string): (r: Result<Timestamp, Fault>)
    ensures r.Ok? <==> iso(Text.NormalizeZ(text)).Some?
    ensures r.Ok? ==> r.value == iso(Text.NormalizeZ(text)).value
  {
    match iso(Text.NormalizeZ(text))
    case Some(t) => Ok(t)
    case None => Err(BadTimestamp(k))
  }

  /** The value under `k` is falsy, or text the parser accepts. */
  predicate TimeReadable(iso: IsoParser, d: Object, k: string) {
    !Truthy(Get(d, k)) || (d[k].JStr? && iso(Text.NormalizeZ(d[k].s)).Some?)
  }

  /** `t` is what the payload says for `k`: unset for a falsy or absent
      value, otherwise the parsed text. */
  predicate TimeFrom(iso: IsoParser, d: Object, k: string, t: Option<Timestamp>) {
    if Truthy(Get(d, k)) then d[k].JStr? && t.Some? && iso(Text.NormalizeZ(d[k].s)) == t
    else t == None
  }

  /** `parse(d[k]) if d.get(k) else None`: a falsy or absent value is unset. */
  function OptionalTime(iso: IsoParser, d: Object, k: string): (r: Result<Option<Timestamp>, Fault>)
    ensures r.Ok? <==> TimeReadable(iso, d, k)
    ensures r.Ok? ==> TimeFrom(iso, d, k, r.value)
  {
    var v := Get(d, k);
    if !Truthy(v) then Ok(None)
    else if v.JStr? then
      var t :- ParseTime(iso, k, v.s);
      Ok(Some(t))
    else Err(TypeMismatch(k))
  }

  /** `parse(d[k])`: the key must be present and hold parseable text. */
  function RequiredTime(iso: IsoParser, d: Object, k: string): (r: Result<Timestamp, Fault>)
    ensures r.Ok? <==> k in d && d[k].JStr? && iso(Text.NormalizeZ(d[k].s)).Some?
    ensures r.Ok? ==> iso(Text.NormalizeZ(d[k].s)) == Some(r.value)
  {
    var v :- Field(d, k);
    if v.JStr? then ParseTime(iso, k, v.s) else Err(TypeMismatch(k))
  }
}
