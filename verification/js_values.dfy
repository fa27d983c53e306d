/**
 * The JavaScript values that reach the gateway from JSON bodies, spreadsheet
 * rows and vector-store metadata, with the three JavaScript conversions the
 * source relies on: truthiness, `String(v)` and `Number(v)`.
 */
module JsValues {
  import opened Outcomes
  import opened Text

  /** A JSON-shaped JavaScript value. Numbers are integers in this model. */
  datatype JsVal =
    | Null
    | Undef
    | Str(s: string)
    | Num(n: int)
    | Bool(b: bool)
    | Arr(items: seq<JsVal>)
    | Obj(fields: map<string, JsVal>)

  /** A plain object: a ticket, a metadata object, a request body. */
  type Record = map<string, JsVal>

  predicate IsNullish(v: JsVal) { v.Null? || v.Undef? }

  /** `record.key`: a missing property reads as `undefined`. */
  function Get(r: Record, key: string): JsVal
  {
    if key in r then r[key] else Undef
  }

  /** Property access on a value that is not null or undefined. Only objects
      have the ticket, body and metadata properties this model reads. */
  function AsRecord(v: JsVal): Record
    requires !IsNullish(v)
  {
    if v.Obj? then v.fields else map[]
  }

  /** `v?.key` */
  function OptMember(v: JsVal, key: string): JsVal
  {
    if IsNullish(v) then Undef else Get(AsRecord(v), key)
  }

  /** JavaScript truthiness (`if (v)`, `v || d`, `!v`). */
  predicate Truthy(v: JsVal)
  {
    match v
    case Null => false
    case Undef => false
    case Str(s) => s != ""
    case Num(n) => n != 0
    case Bool(b) => b
    case Arr(_) => true
    case Obj(_) => true
  }

  /** `String(v)`, which is also what a template literal `${v}` produces.
      An array joins its elements with "," and shows null/undefined elements as "". */
  function ToStr(v: JsVal): string
  {
    match v
    case Null => "null"
    case Undef => "undefined"
    case Str(s) => s
    case Num(n) => IntToString(n)
    case Bool(b) => if b then "true" else "false"
    case Arr(items) =>
      Join(seq(|items|, i requires 0 <= i < |items| =>
             if IsNullish(items[i]) then "" else ToStr(items[i])), ",")
    case Obj(_) => "[object Object]"
  }

  /** A string that `Number(s)` reads as an integer: optional sign, then digits. */
  function ParseInteger(s: string): Option<int>
  {
    if s == "" then Some(0)
    else if AllDigits(s) then Some(DigitsValue(s))
    else if |s| > 1 && (s[0] == '-' || s[0] == '+') && AllDigits(s[1..]) then
      var magnitude: int := DigitsValue(s[1..]);
      Some(if s[0] == '-' then -magnitude else magnitude)
    else None
  }

  /** `Number(v)`; `None` stands for NaN. Arrays and objects are converted
      through their string form `ToStr`; an object whose own `toString` key
      makes JavaScript throw is not distinguished. */
  function ToNumber(v: JsVal): Option<int>
  {
    match v
    case Null => Some(0)
    case Undef => None
    case Str(s) => ParseInteger(s)
    case Num(n) => Some(n)
    case Bool(b) => Some(if b then 1 else 0)
    case Arr(_) => ParseInteger(ToStr(v))
    case Obj(_) => ParseInteger(ToStr(v))
  }

  /** `Number(String(n))` gives `n` back for every integer. */
  lemma NumberOfStringRoundTrip(n: int)
    ensures ToNumber(Str(ToStr(Num(n)))) == Some(n)
  {
    ParseIntegerOfIntToString(n);
  }

  lemma ParseIntegerOfIntToString(n: int)
    ensures ParseInteger(IntToString(n)) == Some(n)
  {
    if n < 0 {
      var digits := NatToString(-n);
      var s := "-" + digits;
      assert IntToString(n) == s;
      DigitsValueOfNatToString(-n);
      assert s[1..] == digits;
      assert !AllDigits(s) by { assert !IsDigit(s[0]); }
      assert |s| > 1 && s[0] == '-' && AllDigits(s[1..]);
      var magnitude: int := DigitsValue(digits);
      assert ParseInteger(s) == Some(-magnitude);
    } else {
      DigitsValueOfNatToString(n);
      assert AllDigits(NatToString(n));
    }
  }

  /** Falsy values are exactly null, undefined, "", 0 and false. */
  lemma FalsyValues(v: JsVal)
    ensures !Truthy(v) <==> v in {Null, Undef, Str(""), Num(0), Bool(false)}
  {
  }
}
