/** The slice of PHP's runtime that the hook library touches: dynamically
    typed values, the two exception classes it throws (plus the engine Error
    raised when an object is used as a string), string conversion for error
    messages and hook names, truthiness, and `is_callable`. */
module PhpValues {

  datatype Option<+T> = None | Some(value: T)

  /** A PHP value as a setter or a loader method receives it. Floats and
      objects with `__toString` are not part of this model. */
  datatype Value =
    | Null
    | Bool(b: bool)
    | Int(i: int)
    | Str(s: string)
    | Arr(elements: seq<Value>)
    | Object(className: string, id: nat)

  /** What a PHP call can throw in this library. */
  datatype Failure =
    | InvalidArgument(message: string)   // InvalidArgumentException
    | Runtime(message: string)           // RuntimeException
    | StringConversion(message: string)  // engine Error: an object used as a string

  datatype Result<+T> = Ok(value: T) | Err(error: Failure)

  /** The parts of the running PHP process that decide `is_callable` for
      strings (function names), arrays (`[object, "method"]`) and
      invokable objects. */
  datatype Host = Host(callables: set<Value>)

  /** `is_callable($v)`: null, booleans and integers never are, a Closure
      always is, anything else exactly when the host knows it as callable. */
  predicate IsCallable(v: Value, host: Host)
  {
    match v
    case Null => false
    case Bool(_) => false
    case Int(_) => false
    case Object(c, _) => c == "Closure" || v in host.callables
    case Str(_) => v in host.callables
    case Arr(_) => v in host.callables
  }

  /** Which values `is_callable` accepts: never null, a boolean or an int;
      always a Closure; otherwise only what the host knows as callable. */
  lemma CallableValues(v: Value, host: Host)
    ensures v.Null? || v.Bool? || v.Int? ==> !IsCallable(v, host)
    ensures v.Object? && v.className == "Closure" ==> IsCallable(v, host)
    ensures v.Str? || v.Arr? || (v.Object? && v.className != "Closure") ==>
      (IsCallable(v, host) <==> v in host.callables)
  {
  }

  /** PHP's `if ($v)`: the falsy values are null, false, 0, "", "0" and the
      empty array. */
  predicate Truthy(v: Value)
    ensures Truthy(v) <==>
      v != Null && v != Bool(false) && v != Int(0) && v != Str("") && v != Str("0") && v != Arr([])
  {
    match v
    case Null => false
    case Bool(b) => b
    case Int(i) => i != 0
    case Str(s) => s != "" && s != "0"
    case Arr(es) => es != []
    case Object(_, _) => true
  }

  function DigitChar(d: nat): (c: char)
    requires d < 10
  {
    ('0' as int + d) as char
  }

  predicate IsDigit(c: char)
  {
    '0' <= c <= '9'
  }

  /** The decimal digits of `n`, most significant first, with no leading zero. */
  function Digits(n: nat): (s: string)
    ensures |s| >= 1 && forall k :: 0 <= k < |s| ==> IsDigit(s[k])
    ensures s[0] == '0' <==> n == 0
    decreases n
  {
    if n < 10 then [DigitChar(n)] else Digits(n / 10) + [DigitChar(n % 10)]
  }

  /** The number a string of decimal digits denotes. */
  function DigitsValue(s: string): nat
    requires forall k :: 0 <= k < |s| ==> IsDigit(s[k])
  {
    if s == [] then 0
    else
      assert IsDigit(s[|s| - 1]);
      10 * DigitsValue(s[..|s| - 1]) + (s[|s| - 1] as int - '0' as int)
  }

  lemma {:induction false} DigitsRoundTrip(n: nat)
    ensures DigitsValue(Digits(n)) == n
  {
    if n >= 10 {
      DigitsRoundTrip(n / 10);
      var s := Digits(n);
      assert s[..|s| - 1] == Digits(n / 10);
    }
  }

  /** PHP's conversion of an int to a string: an optional minus sign, then
      the digits. */
  function DecimalText(i: int): string
  {
    if i < 0 then "-" + Digits(-i) else Digits(i)
  }

  /** The integer a decimal text denotes, or None for a text PHP would not
      have produced from an int. */
  function DecimalValue(s: string): Option<int>
  {
    if |s| >= 2 && s[0] == '-' && s[1] != '0' && forall k :: 1 <= k < |s| ==> IsDigit(s[k]) then
      var magnitude: int := DigitsValue(s[1..]);
      Some(-magnitude)
    else if |s| >= 1 && (s[0] != '0' || |s| == 1) && forall k :: 0 <= k < |s| ==> IsDigit(s[k]) then
      Some(DigitsValue(s))
    else
      None
  }

  /** The decimal text of an int can be read back: distinct ints give
      distinct texts, so an error message names exactly the value received. */
  lemma DecimalRoundTrip(i: int)
    ensures DecimalValue(DecimalText(i)) == Some(i)
  {
    var s := DecimalText(i);
    if i < 0 {
      var d := Digits(-i);
      DigitsRoundTrip(-i);
      assert s[1..] == d;
      assert s[0] == '-' && s[1] == d[0];
      forall k | 1 <= k < |s|
        ensures IsDigit(s[k])
      {
        assert s[k] == d[k - 1];
      }
    } else {
      DigitsRoundTrip(i);
      assert IsDigit(s[0]);
    }
  }

  /** PHP string conversion, as in `"...{$v}..."`: an object without
      `__toString` raises an engine Error instead of producing text. */
  function ToPhpString(v: Value): (r: Result<string>)
    ensures r.Err? <==> v.Object?
    ensures v.Int? ==> r == Ok(DecimalText(v.i)) && DecimalValue(r.value) == Some(v.i)
    ensures v.Str? ==> r == Ok(v.s)
  {
    match v
    case Null => Ok("")
    case Bool(b) => Ok(if b then "1" else "")
    case Int(i) => DecimalRoundTrip(i); Ok(DecimalText(i))
    case Str(s) => Ok(s)
    case Arr(_) => Ok("Array")
    case Object(c, _) => Err(StringConversion("Object of class " + c + " could not be converted to string"))
  }
}
