/** The decoded JSON bodies of registry responses, and the Python operations the views apply
    to them: `getvalue` (views.py:180-194), `str()`, `int()`, set membership and iteration. */
module Json {
  import opened Text
  import opened Faults

  datatype Json =
    | JNull
    | JBool(b: bool)
    | JNum(n: int)
    | JStr(s: string)
    | JArr(items: seq<Json>)
    | JObj(fields: map<string, Json>)

  /** A decoded JSON object, as `request_response.json()` returns it. */
  type Object = map<string, Json>

  /** The registry's field wrapper: `{"label": label, "value": v}`. */
  function Field(name: string, v: Json): Json {
    JObj(map["label" := JStr(name), "value" := v])
  }

  predicate HasValue(obj: Object, key: string) {
    key in obj && obj[key].JObj? && "value" in obj[key].fields
  }

  /** `getvalue(json, key)`: `json[key]['value']`, or "" when the key is missing or its value is
      not an object holding "value" (every such lookup raises inside the `try`). */
  function GetValue(obj: Object, key: string): (r: Json)
    ensures key !in obj ==> r == JStr("")
    ensures key in obj && !obj[key].JObj? ==> r == JStr("")
    ensures r != JStr("") ==> key in obj && obj[key].JObj? && r in obj[key].fields.Values
  {
    if HasValue(obj, key) then obj[key].fields["value"] else JStr("")
  }

  /** Only the entry under `key` matters: changing any other entry leaves the value read. */
  lemma GetValueOtherKey(obj: Object, key: string, other: string, v: Json)
    requires other != key
    ensures GetValue(obj[other := v], key) == GetValue(obj, key)
  {
  }

  /** Reading back a wrapped field gives the wrapped value, whatever its label. */
  lemma GetValueOfField(obj: Object, key: string, name: string, v: Json)
    ensures GetValue(obj[key := Field(name, v)], key) == v
  {
  }

  /** `str(v)` for the scalar values; arrays and objects get a fixed placeholder. */
  function Str(v: Json): string {
    match v
    case JNull => "None"
    case JBool(b) => if b then "True" else "False"
    case JNum(n) => Decimal(n)
    case JStr(s) => s
    case JArr(_) => "[...]"
    case JObj(_) => "{...}"
  }

  /** `int(v)`: numbers and booleans convert, strings are parsed, anything else is a TypeError. */
  function IntOf(v: Json): (r: Result<int>)
    ensures v.JNum? ==> r == Ok(v.n)
    ensures r.Err? ==> r.fault == NotAnInteger || r.fault == TypeError
  {
    match v
    case JNum(n) => Ok(n)
    case JBool(b) => Ok(if b then 1 else 0)
    case JStr(s) =>
      (match ParseInt(s)
       case Some(n) => Ok(n)
       case None => Err(NotAnInteger))
    case _ => Err(TypeError)
  }

  /** `int(str(n)) == n` for the counts the registry sends as strings. */
  lemma IntOfDecimal(n: nat)
    ensures IntOf(JStr(Decimal(n))) == Ok(n)
  {
    ParseDecimal(n);
  }

  /** `v in {0, '0', ''}` (views.py:277, 321). `False == 0` in Python, so `false` is in the set
      too; a list or dict cannot be hashed and raises TypeError. The attachments are skipped only
      for a count that converts to zero or is empty; a count that converts to anything else is
      never skipped, and a value `int()` accepts never raises here. */
  function CountIsZero(v: Json): (r: Result<bool>)
    ensures r.Err? ==> r.fault == TypeError && IntOf(v) == Err(TypeError)
    ensures IntOf(v).Ok? ==> r.Ok?
    ensures r == Ok(true) ==> IntOf(v) == Ok(0) || v == JStr("")
    ensures IntOf(v).Ok? && IntOf(v).value != 0 ==> r == Ok(false)
  {
    match v
    case JArr(_) => Err(TypeError)
    case JObj(_) => Err(TypeError)
    case JStr(s) => if s == "0" || s == "" then ZeroConverts(); EmptyFails(); Ok(true) else Ok(false)
    case _ => Ok(v == JNum(0) || v == JBool(false))
  }

  /** "0", in the set, converts to zero. */
  lemma ZeroConverts()
    ensures IntOf(JStr("0")) == Ok(0)
  {
    ZerosConvert("0");
  }

  /** "", in the set, does not convert. */
  lemma EmptyFails()
    ensures IntOf(JStr("")) == Err(NotAnInteger)
  {
  }

  /** A string of zeros has the value zero. */
  lemma {:induction false} ZerosValue(z: string)
    requires forall i :: 0 <= i < |z| ==> z[i] == '0'
    ensures AllDigits(z) && DigitsValue(z) == 0
    decreases |z|
  {
    if z != [] {
      ZerosValue(z[..|z| - 1]);
    }
  }

  /** A non-empty string of zeros converts to zero. */
  lemma ZerosConvert(z: string)
    requires |z| >= 1 && forall i :: 0 <= i < |z| ==> z[i] == '0'
    ensures IntOf(JStr(z)) == Ok(0)
  {
    ZerosValue(z);
    ParseDigits(z);
  }

  /** A count written with two or more zeros, such as "00", converts to zero, yet it is not in
      the set: its attachments are still iterated. */
  lemma PaddedZeroNotSkipped(z: string)
    requires |z| >= 2 && forall i :: 0 <= i < |z| ==> z[i] == '0'
    ensures IntOf(JStr(z)) == Ok(0)
    ensures CountIsZero(JStr(z)) == Ok(false)
  {
    ZerosConvert(z);
    assert z != "0" && z != "" by { assert |z| != |"0"|; }
  }

  /** What a `for` loop visits in `v`: the items of a list, the one-character strings of a string,
      nothing in an empty dict. Iterating a non-empty dict visits its keys in insertion order,
      which the decoded map does not keep, so it is reported as a TypeError. */
  function Iterate(v: Json): (r: Result<seq<Json>>)
    ensures v.JArr? ==> r == Ok(v.items)
    ensures v.JStr? ==> r.Ok? && |r.value| == |v.s|
  {
    match v
    case JArr(items) => Ok(items)
    case JStr(s) => Ok(seq(|s|, i requires 0 <= i < |s| => JStr([s[i]])))
    case JObj(m) => if |m| == 0 then Ok([]) else Err(TypeError)
    case _ => Err(TypeError)
  }
}
