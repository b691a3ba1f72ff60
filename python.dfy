/** Python values as the integration sees them, and the few built-in operations
    it applies to them: subscripting, `in`, `str()` inside an f-string and the
    `int(float(s))` coercion. Every failure of these is an exception that the
    integration never catches, so each returns a Result. */
module Python {

  /** A decoded JSON document, as `json.loads` produces it. JSON `null` is
      Python's `None`, so JNull also stands for a field that was never set. */
  datatype Json =
    | JNull
    | JBool(b: bool)
    | JInt(i: int)
    | JStr(s: string)
    | JArr(items: seq<Json>)
    | JObj(fields: map<string, Json>)

  /** The exceptions that the modelled code lets escape. */
  datatype Exc =
    | NetworkError            // the HTTP exchange failed, timed out, or its body was not JSON
    | KeyError(key: string)   // `d[key]` on a dict without that key
    | TypeError               // subscripting, `in` or iteration on a value that does not support it
    | ValueError(text: string) // `int(float(text))` refused the text

  datatype Option<+T> = None | Some(value: T) {
    predicate IsFailure() { None? }
    function PropagateFailure<U>(): Option<U> requires None? { None }
    function Extract(): T requires Some? { value }
  }

  /** The outcome of a Python expression: its value, or the exception it raised. */
  datatype Result<+T> = Ok(value: T) | Err(error: Exc) {
    predicate IsFailure() { Err? }
    function PropagateFailure<U>(): Result<U> requires Err? { Err(error) }
    function Extract(): T requires Ok? { value }
    function ToOption(): Option<T> {
      match this
      case Ok(v) => Some(v)
      case Err(_) => None
    }
  }

  /** `j[key]` for a string key: only a dict can be subscripted by a string. */
  function Index(j: Json, key: string): Result<Json>
  {
    match j
    case JObj(m) => if key in m then Ok(m[key]) else Err(KeyError(key))
    case _ => Err(TypeError)
  }

  /** `needle in hay` for two strings. */
  predicate HasSubstring(hay: string, needle: string)
    decreases |hay|
  {
    |needle| <= |hay| && (hay[..|needle|] == needle || HasSubstring(hay[1..], needle))
  }

  /** `needle in container` for a string needle: substring search in a string,
      element equality in a list, key membership in a dict; any other value is
      not a container. */
  function Contains(container: Json, needle: string): Result<bool>
  {
    match container
    case JStr(s) => Ok(HasSubstring(s, needle))
    case JArr(xs) => Ok(JStr(needle) in xs)
    case JObj(m) => Ok(needle in m)
    case _ => Err(TypeError)
  }

  /** `needle` occurs in `hay` starting at position `i`. */
  predicate OccursAt(hay: string, needle: string, i: int)
  {
    0 <= i <= |hay| - |needle| && hay[i..i + |needle|] == needle
  }

  /** The recursive search finds exactly the strings that occur somewhere. */
  lemma {:induction false} HasSubstringIff(hay: string, needle: string)
    ensures HasSubstring(hay, needle) <==> exists i :: OccursAt(hay, needle, i)
    decreases |hay|
  {
    if |needle| <= |hay| && hay[..|needle|] != needle {
      var rest := hay[1..];
      HasSubstringIff(rest, needle);
      if HasSubstring(rest, needle) {
        var i :| OccursAt(rest, needle, i);
        assert hay[i + 1..i + 1 + |needle|] == needle;
        assert OccursAt(hay, needle, i + 1);
      }
      if exists i :: OccursAt(hay, needle, i) {
        var i :| OccursAt(hay, needle, i);
        assert i != 0;
        assert rest[i - 1..i - 1 + |needle|] == needle;
        assert OccursAt(rest, needle, i - 1);
      }
    } else if |needle| <= |hay| {
      assert OccursAt(hay, needle, 0);
    }
  }

  predicate IsDigit(c: char) { '0' <= c <= '9' }

  predicate AllDigits(s: string) { forall i :: 0 <= i < |s| ==> IsDigit(s[i]) }

  function DigitChar(d: nat): char
    requires d < 10
  {
    (48 + d) as char
  }

  /** Decimal notation of a natural number, without leading zeros. */
  function NatToDecimal(n: nat): string
    decreases n
  {
    if n < 10 then [DigitChar(n)] else NatToDecimal(n / 10) + [DigitChar(n % 10)]
  }

  /** `str(n)` for a Python int. */
  function IntToDecimal(n: int): string
  {
    if n < 0 then "-" + NatToDecimal(-n) else NatToDecimal(n)
  }

  /** The value of a string of decimal digits (the empty string counts 0). */
  function DigitsValue(s: string): nat
    requires AllDigits(s)
  {
    if s == [] then 0 else DigitsValue(s[..|s| - 1]) * 10 + (s[|s| - 1] as int - 48)
  }

  /** The length of the run of digits that starts `s`. */
  function DigitRun(s: string): (k: nat)
    ensures k <= |s| && AllDigits(s[..k])
    ensures k < |s| ==> !IsDigit(s[k])
  {
    if s != [] && IsDigit(s[0]) then
      var k := 1 + DigitRun(s[1..]);
      assert s[..k] == [s[0]] + s[1..][..k - 1];
      k
    else 0
  }

  /** `int(float(s))` on decimal text: an optional sign, digits, and an optional
      fraction that is dropped (truncation toward zero). At least one digit must
      appear. Anything else raises. */
  function TruncatedFloat(s: string): Result<int>
  {
    var negative := |s| > 0 && s[0] == '-';
    var unsigned := if |s| > 0 && (s[0] == '-' || s[0] == '+') then s[1..] else s;
    var k := DigitRun(unsigned);
    var whole := unsigned[..k];
    var rest := unsigned[k..];
    var magnitude: int := DigitsValue(whole);
    if (rest == [] && k > 0) || (rest != [] && rest[0] == '.' && AllDigits(rest[1..]) && k + |rest| > 1) then
      Ok(if negative then -magnitude else magnitude)
    else
      Err(ValueError(s))
  }

  lemma {:induction false} NatToDecimalDigits(n: nat)
    ensures |NatToDecimal(n)| > 0 && AllDigits(NatToDecimal(n))
    ensures DigitsValue(NatToDecimal(n)) == n
    decreases n
  {
    var s := NatToDecimal(n);
    if n >= 10 {
      NatToDecimalDigits(n / 10);
      assert s[..|s| - 1] == NatToDecimal(n / 10);
    }
  }

  lemma {:induction false} DigitRunOfDigits(d: string, t: string)
    requires AllDigits(d)
    requires t == [] || !IsDigit(t[0])
    ensures DigitRun(d + t) == |d|
    decreases |d|
  {
    if d != [] {
      assert (d + t)[1..] == d[1..] + t;
      DigitRunOfDigits(d[1..], t);
    }
  }

  /** The unsigned body of a decimal literal `digits [. fraction]` yields the digits' value. */
  lemma WholePartValue(n: nat, tail: string, s: string, sign: string)
    requires tail == [] || (tail[0] == '.' && AllDigits(tail[1..]))
    requires sign == "" || sign == "-"
    requires s == sign + NatToDecimal(n) + tail
    ensures TruncatedFloat(s) == Ok(if sign == "-" then 0 - n else n)
  {
    var d := NatToDecimal(n);
    NatToDecimalDigits(n);
    DigitRunOfDigits(d, tail);
    var unsigned := if |s| > 0 && (s[0] == '-' || s[0] == '+') then s[1..] else s;
    assert unsigned == d + tail by {
      if sign == "-" {
        assert s[1..] == d + tail;
      } else {
        assert s == d + tail;
        assert !(s[0] == '-' || s[0] == '+') by { assert IsDigit(d[0]); }
      }
    }
    assert unsigned[..|d|] == d;
    assert unsigned[|d|..] == tail;
  }

  /** `int(float(str(n))) == n` for every int. */
  lemma TruncatedFloatOfDecimal(n: int)
    ensures TruncatedFloat(IntToDecimal(n)) == Ok(n)
  {
    if n < 0 {
      WholePartValue(-n, "", IntToDecimal(n), "-");
    } else {
      assert IntToDecimal(n) == "" + NatToDecimal(n) + "";
      WholePartValue(n, "", IntToDecimal(n), "");
    }
  }

  /** `int(float(str(n) + "." + frac))` drops the fraction, toward zero:
      "2.0" gives 2 and "-1.5" gives -1. */
  lemma TruncatedFloatDropsFraction(n: int, frac: string)
    requires AllDigits(frac)
    ensures TruncatedFloat(IntToDecimal(n) + "." + frac) == Ok(n)
  {
    var tail := "." + frac;
    assert tail[1..] == frac;
    if n < 0 {
      assert IntToDecimal(n) + "." + frac == "-" + NatToDecimal(-n) + tail;
      WholePartValue(-n, tail, IntToDecimal(n) + "." + frac, "-");
    } else {
      assert IntToDecimal(n) + "." + frac == "" + NatToDecimal(n) + tail;
      WholePartValue(n, tail, IntToDecimal(n) + "." + frac, "");
    }
  }

  /** A whole number published as a float, "n.0", coerces back to n. */
  lemma TruncatedFloatOfFloatText(n: int)
    ensures TruncatedFloat(IntToDecimal(n) + ".0") == Ok(n)
  {
    assert IntToDecimal(n) + ".0" == IntToDecimal(n) + "." + "0";
    TruncatedFloatDropsFraction(n, "0");
  }

  /** Text without a single digit ("abc", "", "-.") never coerces. */
  lemma TruncatedFloatNeedsDigit(s: string)
    requires forall i :: 0 <= i < |s| ==> !IsDigit(s[i])
    ensures TruncatedFloat(s).Err?
  {
    var unsigned := if |s| > 0 && (s[0] == '-' || s[0] == '+') then s[1..] else s;
    assert forall i :: 0 <= i < |unsigned| ==> !IsDigit(unsigned[i]);
    assert DigitRun(unsigned) == 0;
    assert unsigned[0..] == unsigned;
    if |unsigned| > 1 {
      assert !IsDigit(unsigned[1..][0]);
    }
  }

  /** `str(j)` as an f-string renders it. Lists and dicts get a placeholder
      instead of Python's repr. */
  function Str(j: Json): string
  {
    match j
    case JNull => "None"
    case JBool(b) => if b then "True" else "False"
    case JInt(i) => IntToDecimal(i)
    case JStr(s) => s
    case JArr(_) => "[...]"
    case JObj(_) => "{...}"
  }
}
