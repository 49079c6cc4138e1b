/**
 * Python 2 values as the client library sees them: the scalar arguments its
 * resource methods receive, Python's truthiness and str() on them, the
 * exceptions it raises, and the structured values its response decoders
 * produce.
 */
module Py {

  datatype Option<+T> = None | Some(value: T)

  datatype Result<+T, +E> = Success(value: T) | Failure(error: E)

  newtype byte = x: int | 0 <= x < 256

  /** A Python 2 byte string (a request payload or a response body). */
  type Bytes = seq<byte>

  /** A scalar argument of a resource method: None, a string, an integer or a bool. */
  datatype Val = NoneVal | StrVal(s: string) | IntVal(i: int) | BoolVal(b: bool)

  /** Python truthiness of an argument (`if x:` / `not x`). */
  predicate Truthy(v: Val)
  {
    match v
    case NoneVal => false
    case StrVal(s) => s != ""
    case IntVal(i) => i != 0
    case BoolVal(b) => b
  }

  /** The exceptions the library raises or lets through, each with its message. */
  datatype Exc =
    | Error(msg: string)           // a plain `Exception(...)`
    | APIError(msg: string)
    | TypeError(msg: string)
    | ValueError(msg: string)
    | KeyError(msg: string)
    | AttributeError(msg: string)
    | NetworkError(msg: string)    // a non-HTTP urllib2 failure (URLError, socket error)

  /** A decoded response body: what `json.loads` or the XML converter returns. */
  datatype PyData =
    | Null
    | Boolean(b: bool)
    | Number(n: int)
    | Text(s: string)
    | List(items: seq<PyData>)
    | Dict(entries: map<string, PyData>)

  /** Python truthiness of a decoded value. */
  predicate DataTruthy(d: PyData)
  {
    match d
    case Null => false
    case Boolean(b) => b
    case Number(n) => n != 0
    case Text(s) => s != ""
    case List(items) => items != []
    case Dict(entries) => entries != map[]
  }

  /** Python's name for the type of a decoded value, as it appears in TypeError messages. */
  function TypeName(d: PyData): string
  {
    match d
    case Null => "NoneType"
    case Boolean(_) => "bool"
    case Number(_) => "int"
    case Text(_) => "unicode"
    case List(_) => "list"
    case Dict(_) => "dict"
  }

  predicate IsDigit(c: char)
  {
    '0' <= c <= '9'
  }

  function DigitChar(d: nat): (c: char)
    requires d < 10
    ensures IsDigit(c) && c as int - '0' as int == d
  {
    ('0' as int + d) as char
  }

  /** The decimal digits of `n`, most significant first, as Python's str() writes them. */
  function NatToDecimal(n: nat): (r: string)
    ensures |r| >= 1
    ensures forall i :: 0 <= i < |r| ==> IsDigit(r[i])
    ensures r[0] == '0' ==> n == 0
    decreases n
  {
    if n < 10 then [DigitChar(n)] else NatToDecimal(n / 10) + [DigitChar(n % 10)]
  }

  /** Python's str() of an integer: an optional minus sign, then the digits. */
  function IntToDecimal(i: int): (r: string)
    ensures |r| >= 1
    ensures (r[0] == '-') <==> i < 0
    ensures forall k :: 1 <= k < |r| ==> IsDigit(r[k])
    ensures r[0] != '-' ==> IsDigit(r[0])
  {
    if i < 0 then "-" + NatToDecimal(-i) else NatToDecimal(i)
  }

  function DigitValue(c: char): nat
    requires IsDigit(c)
  {
    c as int - '0' as int
  }

  /** The value of a string of decimal digits (the reading a server applies). */
  function ParseNat(s: string): nat
    requires forall i :: 0 <= i < |s| ==> IsDigit(s[i])
  {
    if s == [] then 0 else ParseNat(s[..|s| - 1]) * 10 + DigitValue(s[|s| - 1])
  }

  /** The value of an optionally signed decimal string. */
  function ParseInt(s: string): int
    requires |s| >= 1
    requires forall i :: 1 <= i < |s| ==> IsDigit(s[i])
    requires s[0] != '-' ==> IsDigit(s[0])
  {
    if s[0] == '-' then 0 - ParseNat(s[1..]) as int else ParseNat(s)
  }

  /** Reading back the decimal text of a natural number gives the number. */
  lemma {:induction false} ParseNatDecimal(n: nat)
    ensures ParseNat(NatToDecimal(n)) == n
    decreases n
  {
    if n >= 10 {
      var s := NatToDecimal(n);
      assert s[..|s| - 1] == NatToDecimal(n / 10);
      ParseNatDecimal(n / 10);
    }
  }

  /** Reading back Python's str() of an integer gives the integer. */
  lemma ParseIntDecimal(i: int)
    ensures ParseInt(IntToDecimal(i)) == i
  {
    if i < 0 {
      assert IntToDecimal(i)[1..] == NatToDecimal(-i);
      ParseNatDecimal(-i);
    } else {
      ParseNatDecimal(i);
    }
  }

  /** Python's str() of an argument: the text urlencode and "%s" put into a URI. */
  function Str(v: Val): string
  {
    match v
    case NoneVal => "None"
    case StrVal(s) => s
    case IntVal(i) => IntToDecimal(i)
    case BoolVal(b) => if b then "True" else "False"
  }
}
