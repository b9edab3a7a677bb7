/**
 JSON values as Python's `json` module decodes them, together with the two
 Python behaviours the adapter leans on: truthiness (`if x:`) and `str(x)`.
 */
module Json {
  import opened Wrappers

  /** A decoded JSON value. Non-integer numbers are reals and are only passed through. */
  datatype Value =
    | Null
    | Bool(b: bool)
    | Int(i: int)
    | Real(r: real)
    | Str(s: string)
    | Arr(items: seq<Value>)
    | Obj(fields: map<string, Value>)

  /** A JSON object, i.e. a Python dict with string keys: request bodies and payloads. */
  type Object = map<string, Value>

  /** Python truthiness of a decoded value. */
  predicate Truthy(v: Value) {
    match v
    case Null => false
    case Bool(b) => b
    case Int(i) => i != 0
    case Real(r) => r != 0.0
    case Str(s) => |s| > 0
    case Arr(a) => |a| > 0
    case Obj(m) => |m| > 0
  }

  /** `d.get(key, default)` */
  function Get(d: Object, key: string, default: Value): Value {
    if key in d then d[key] else default
  }

  /** An optional string argument that `if x:` accepts: supplied and non-empty. */
  predicate Present(o: Option<string>) {
    o.Some? && |o.value| > 0
  }

  /** How an optional string travels in a request body or `info.data`. */
  function OptStr(o: Option<string>): Value {
    match o
    case Some(s) => Str(s)
    case None => Null
  }

  function Strs(ss: seq<string>): (r: seq<Value>)
    ensures |r| == |ss|
    ensures forall k | 0 <= k < |ss| :: r[k] == Str(ss[k])
  {
    seq(|ss|, k requires 0 <= k < |ss| => Str(ss[k]))
  }

  /** Reads a JSON array back as a list of strings; `None` when some element is not a string. */
  function StrsOf(items: seq<Value>): (r: Option<seq<string>>)
    ensures r.Some? <==> forall k | 0 <= k < |items| :: items[k].Str?
    ensures r.Some? ==> |r.value| == |items| && forall k | 0 <= k < |items| :: items[k] == Str(r.value[k])
  {
    if |items| == 0 then Some([])
    else match items[0]
      case Str(s) =>
        (match StrsOf(items[1..])
         case Some(rest) => Some([s] + rest)
         case None => None)
      case _ => None
  }

  /** Reading back what `Strs` wrote gives the original list. */
  lemma StrsRoundTrip(ss: seq<string>)
    ensures StrsOf(Strs(ss)) == Some(ss)
  {
    var r := StrsOf(Strs(ss));
    assert r.value == ss;
  }

  function DigitChar(d: nat): char
    requires d < 10
  {
    ('0' as int + d) as char
  }

  predicate IsDigit(c: char) { '0' <= c <= '9' }

  function DigitValue(c: char): nat
    requires IsDigit(c)
  {
    c as int - '0' as int
  }

  /** Decimal digits of a natural number, most significant first. */
  function NatToString(n: nat): (r: string)
    ensures |r| > 0
    decreases n
  {
    if n < 10 then [DigitChar(n)] else NatToString(n / 10) + [DigitChar(n % 10)]
  }

  /** Python's `str(i)` for an integer. */
  function IntToString(i: int): string {
    if i < 0 then "-" + NatToString(-i) else NatToString(i)
  }

  /** `int(s)` for a non-empty string of decimal digits. */
  function ParseNat(s: string): Option<nat>
    decreases |s|
  {
    if |s| == 0 || !IsDigit(s[|s| - 1]) then None
    else if |s| == 1 then Some(DigitValue(s[0]))
    else match ParseNat(s[..|s| - 1])
      case Some(n) => Some(n * 10 + DigitValue(s[|s| - 1]))
      case None => None
  }

  /** `int(s)` for an optionally negative decimal numeral. */
  function ParseInt(s: string): Option<int> {
    if |s| > 0 && s[0] == '-' then
      match ParseNat(s[1..])
      case Some(n) => Some(-(n as int))
      case None => None
    else
      match ParseNat(s)
      case Some(n) => Some(n)
      case None => None
  }

  lemma {:induction false} NatToStringRoundTrip(n: nat)
    ensures ParseNat(NatToString(n)) == Some(n)
    ensures forall k | 0 <= k < |NatToString(n)| :: IsDigit(NatToString(n)[k])
    decreases n
  {
    if n >= 10 {
      NatToStringRoundTrip(n / 10);
      var s := NatToString(n);
      assert s[..|s| - 1] == NatToString(n / 10);
    }
  }

  /** Reading `str(i)` back with `int()` gives `i`. */
  lemma IntToStringRoundTrip(i: int)
    ensures ParseInt(IntToString(i)) == Some(i)
  {
    if i < 0 {
      NatToStringRoundTrip(-i);
      assert ("-" + NatToString(-i))[1..] == NatToString(-i);
    } else {
      NatToStringRoundTrip(i);
      assert NatToString(i)[0] != '-';
    }
  }

  /**
   Python's `str(v)` for a decoded value. Strings, integers, booleans and
   `None` are exact; reals, lists and dicts show a placeholder, since their
   exact Python rendering is not part of this model.
   */
  function Show(v: Value): string {
    match v
    case Null => "None"
    case Bool(b) => if b then "True" else "False"
    case Int(i) => IntToString(i)
    case Str(s) => s
    case Real(_) => "<number>"
    case Arr(_) => "<list>"
    case Obj(_) => "<dict>"
  }

  /** `str(d.get(key, default))` for a default that is already a string. */
  function Shown(d: Object, key: string, default: string): string {
    if key in d then Show(d[key]) else default
  }
}
