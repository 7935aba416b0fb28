/** The JavaScript values the SMS adapter reads and builds: plain objects are maps from
    property names to values, a missing property reads as `undefined`, and the few
    conversions the adapter relies on (lodash's `_.isNil`, truthiness, the string
    conversion of a template literal, `parseInt(v, 10)`) are written out. */
module JsValues {

  /** A JavaScript value. Numbers are integers only; a function is known by its source text. */
  datatype Value =
    | Undefined
    | Null
    | Bool(b: bool)
    | Num(n: int)
    | Str(s: string)
    | Arr(elems: seq<Value>)
    | Obj(props: map<string, Value>)
    | Fn(source: string)

  /** The own enumerable properties of a plain object. */
  type Props = map<string, Value>

  datatype Option<+T> = None | Some(value: T)

  /** A computation that returns a value or throws an Error with a message. */
  datatype Result<+T> = Ok(value: T) | Err(error: string)

  /** Property read `o[key]`: a property the object does not have reads as `undefined`. */
  function Get(o: Props, key: string): (v: Value)
    ensures key in o ==> v == o[key]
    ensures key !in o ==> v == Undefined
  {
    if key in o then o[key] else Undefined
  }

  /** Property read on any value, as lodash's path lookup does it: only objects have properties here. */
  function Prop(v: Value, key: string): (r: Value)
    ensures !v.Obj? ==> r == Undefined
  {
    if v.Obj? then Get(v.props, key) else Undefined
  }

  /** lodash `_.isNil`: `null` or `undefined`. */
  predicate IsNil(v: Value) {
    v == Undefined || v == Null
  }

  /** JavaScript truthiness (there is no NaN among the integers modelled). */
  predicate Truthy(v: Value) {
    match v
    case Undefined => false
    case Null => false
    case Bool(b) => b
    case Num(n) => n != 0
    case Str(s) => s != ""
    case _ => true
  }

  predicate IsDigit(c: char) {
    '0' <= c <= '9'
  }

  predicate AllDigits(s: string) {
    forall i :: 0 <= i < |s| ==> IsDigit(s[i])
  }

  function DigitChar(d: nat): (c: char)
    requires d < 10
    ensures IsDigit(c) && c as int - '0' as int == d
  {
    "0123456789"[d]
  }

  /** The decimal rendering of a natural number, without leading zeros. */
  function NatToDecimal(n: nat): (s: string)
    ensures |s| > 0 && AllDigits(s)
    ensures n < 10 <==> |s| == 1
  {
    if n < 10 then [DigitChar(n)] else NatToDecimal(n / 10) + [DigitChar(n % 10)]
  }

  /** The decimal rendering JavaScript gives an integer-valued number. */
  function IntToDecimal(n: int): (s: string)
    ensures |s| > 0
    ensures n >= 0 ==> AllDigits(s)
    ensures n < 0 ==> s[0] == '-' && AllDigits(s[1..])
  {
    if n < 0 then "-" + NatToDecimal(-n) else NatToDecimal(n)
  }

  /** `strs.join(",")`. */
  function JoinWithCommas(strs: seq<string>): string {
    if |strs| == 0 then ""
    else if |strs| == 1 then strs[0]
    else JoinWithCommas(strs[..|strs| - 1]) + "," + strs[|strs| - 1]
  }

  /** The string a template literal `${v}` makes of a value. An array joins its elements
      with commas, rendering `null` and `undefined` elements as empty strings. */
  function ToStr(v: Value): string {
    match v
    case Undefined => "undefined"
    case Null => "null"
    case Bool(b) => if b then "true" else "false"
    case Num(n) => IntToDecimal(n)
    case Str(s) => s
    case Arr(xs) => JoinWithCommas(seq(|xs|, i requires 0 <= i < |xs| => if IsNil(xs[i]) then "" else ToStr(xs[i])))
    case Obj(_) => "[object Object]"
    case Fn(src) => src
  }

  /** The white space `parseInt` skips before the number: the ASCII spaces, the no-break
      space, the line and paragraph separators and the byte-order mark. */
  predicate IsSpace(c: char) {
    c == ' ' || c == '\t' || c == '\n' || c == '\r' || c == '\U{000B}' || c == '\U{000C}'
    || c == '\U{00A0}' || c == '\U{2028}' || c == '\U{2029}' || c == '\U{FEFF}'
  }

  predicate AllSpaces(s: string) {
    forall i :: 0 <= i < |s| ==> IsSpace(s[i])
  }

  /** `s` with its leading white space removed. */
  function TrimStart(s: string): (t: string)
    ensures |t| <= |s| && t == s[|s| - |t|..]
    ensures |t| > 0 ==> !IsSpace(t[0])
    ensures |s| > 0 && !IsSpace(s[0]) ==> t == s
  {
    if |s| > 0 && IsSpace(s[0]) then TrimStart(s[1..]) else s
  }

  /** The length of the run of decimal digits that `s` starts with. */
  function DigitRun(s: string): (k: nat)
    ensures k <= |s| && AllDigits(s[..k])
    ensures k < |s| ==> !IsDigit(s[k])
  {
    if |s| > 0 && IsDigit(s[0]) then
      assert forall i :: 1 <= i < 1 + DigitRun(s[1..]) ==> s[i] == s[1..][i - 1];
      1 + DigitRun(s[1..])
    else 0
  }

  /** The value of a string of decimal digits, most significant first. */
  function DecimalValue(s: string): (n: nat)
    requires AllDigits(s)
  {
    if s == [] then 0
    else DecimalValue(s[..|s| - 1]) * 10 + (s[|s| - 1] as int - '0' as int)
  }

  /** The longest run of digits `u` starts with, read as a number; none gives NaN (`None`). */
  function ParseDigits(u: string): Option<int> {
    var k := DigitRun(u);
    if k == 0 then None else Some(DecimalValue(u[..k]))
  }

  /** An optional sign followed by the digits. */
  function ParseSigned(t: string): Option<int> {
    if |t| > 0 && t[0] == '-' then
      match ParseDigits(t[1..])
      case None => None
      case Some(m) => Some(-m)
    else if |t| > 0 && t[0] == '+' then ParseDigits(t[1..])
    else ParseDigits(t)
  }

  /** `parseInt(s, 10)` on a string: skip leading white space, read an optional sign and
      then the longest run of digits; no digit at all gives NaN, here `None`. */
  function ParseDecimal(s: string): Option<int> {
    ParseSigned(TrimStart(s))
  }

  /** `parseInt(v, 10)`: the argument is first converted to a string. */
  function ParseInt(v: Value): Option<int> {
    ParseDecimal(ToStr(v))
  }

  /** `sub` occurs in `s` starting at index `i`. */
  predicate OccursAt(s: string, sub: string, i: nat) {
    i + |sub| <= |s| && s[i..i + |sub|] == sub
  }

  /** `sub` occurs in `s` as a contiguous piece. */
  ghost predicate Contains(s: string, sub: string) {
    exists i: nat :: OccursAt(s, sub, i)
  }

  lemma {:induction false} DecimalValueOfNat(n: nat)
    ensures DecimalValue(NatToDecimal(n)) == n
  {
    var s := NatToDecimal(n);
    if n >= 10 {
      DecimalValueOfNat(n / 10);
      assert s[..|s| - 1] == NatToDecimal(n / 10);
      assert s[|s| - 1] == DigitChar(n % 10);
    }
  }

  /** Reading back the decimal rendering of an integer gives the integer. */
  lemma ParseDecimalOfDecimal(n: int)
    ensures ParseDecimal(IntToDecimal(n)) == Some(n)
  {
    var m: nat := if n < 0 then -n else n;
    var digits := NatToDecimal(m);
    var s := IntToDecimal(n);
    DecimalValueOfNat(m);
    DigitRunAll(digits);
    assert digits[..|digits|] == digits;
    assert !IsSpace(s[0]);
    assert TrimStart(s) == s;
    if n < 0 {
      assert s == "-" + digits;
      assert s[1..] == digits;
    } else {
      assert s == digits;
      assert IsDigit(s[0]);
    }
  }

  lemma {:induction false} DigitRunAll(s: string)
    requires AllDigits(s)
    ensures DigitRun(s) == |s|
  {
    if |s| > 0 {
      DigitRunAll(s[1..]);
    }
  }

  /** The digit run of a string ends where its leading digits end. */
  lemma {:induction false} DigitRunPrefix(d: string, rest: string)
    requires AllDigits(d)
    requires |rest| == 0 || !IsDigit(rest[0])
    ensures DigitRun(d + rest) == |d|
  {
    if |d| > 0 {
      assert (d + rest)[1..] == d[1..] + rest;
      DigitRunPrefix(d[1..], rest);
    }
  }

  /** Leading white space is skipped up to the first character that is not white space. */
  lemma {:induction false} TrimStartSpaces(ws: string, t: string)
    requires AllSpaces(ws)
    requires |t| == 0 || !IsSpace(t[0])
    ensures TrimStart(ws + t) == t
  {
    if |ws| > 0 {
      assert (ws + t)[1..] == ws[1..] + t;
      TrimStartSpaces(ws[1..], t);
    } else {
      assert ws + t == t;
    }
  }

  /** `parseInt` does not look at the white space it skips. */
  lemma {:induction false} ParseDecimalAfterSpaces(ws: string, t: string)
    requires AllSpaces(ws)
    requires |t| == 0 || !IsSpace(t[0])
    ensures ParseDecimal(ws + t) == ParseSigned(t)
  {
    TrimStartSpaces(ws, t);
  }

  /** A digit run followed by anything that is not a digit reads as the run. */
  lemma {:induction false} ParseDigitsPrefix(d: string, rest: string)
    requires |d| > 0 && AllDigits(d)
    requires |rest| == 0 || !IsDigit(rest[0])
    ensures ParseDigits(d + rest) == Some(DecimalValue(d))
  {
    DigitRunPrefix(d, rest);
    assert (d + rest)[..|d|] == d;
  }

  /** An optional sign before a string that starts with a digit negates its reading or
      not. */
  lemma {:induction false} ParseSignedDigits(sign: string, u: string, v: int)
    requires |sign| <= 1 && (|sign| == 1 ==> sign[0] == '-' || sign[0] == '+')
    requires |u| > 0 && IsDigit(u[0])
    requires ParseDigits(u) == Some(v)
    ensures ParseSigned(sign + u) == Some(if |sign| == 1 && sign[0] == '-' then -v else v)
  {
    if |sign| == 0 {
      assert sign + u == u;
    } else {
      assert (sign + u)[0] == sign[0] && (sign + u)[1..] == u;
    }
  }

  /** `parseInt` reads the longest run of digits after the white space and the sign, and
      ignores whatever follows it (so `"2abc"` is 2 and `" -7x"` is -7). */
  lemma {:induction false} ParseDecimalPrefix(ws: string, sign: string, d: string, rest: string)
    requires AllSpaces(ws)
    requires |sign| <= 1 && (|sign| == 1 ==> sign[0] == '-' || sign[0] == '+')
    requires |d| > 0 && AllDigits(d)
    requires |rest| == 0 || !IsDigit(rest[0])
    ensures var v: int := DecimalValue(d);
      ParseDecimal(ws + (sign + (d + rest))) == Some(if |sign| == 1 && sign[0] == '-' then -v else v)
  {
    var t := sign + (d + rest);
    assert t[0] == if |sign| == 0 then d[0] else sign[0];
    ParseDecimalAfterSpaces(ws, t);
    ParseDigitsPrefix(d, rest);
    ParseSignedDigits(sign, d + rest, DecimalValue(d));
  }

  /** Without a digit after the white space and the optional sign, `parseInt` gives NaN. */
  lemma ParseDecimalNoDigit(s: string)
    requires var t := TrimStart(s);
      var u := if |t| > 0 && (t[0] == '-' || t[0] == '+') then t[1..] else t;
      |u| == 0 || !IsDigit(u[0])
    ensures ParseDecimal(s) == None
  {
  }

  /** `parseInt` reads the digits a count begins with: `"2abc"` is 2. */
  lemma ParseDecimalTrailingText()
    ensures ParseDecimal("2abc") == Some(2)
  {
    assert DecimalValue("2") == 2;
    assert "" + ("" + ("2" + "abc")) == "2abc";
    ParseDecimalPrefix("", "", "2", "abc");
  }

  /** `parseInt` skips leading white space and reads the sign: `" -7x"` is -7. */
  lemma ParseDecimalSpaceAndSign()
    ensures ParseDecimal(" -7x") == Some(-7)
  {
    assert DecimalValue("7") == 7;
    assert " " + ("-" + ("7" + "x")) == " -7x";
    ParseDecimalPrefix(" ", "-", "7", "x");
  }

  /** A string without leading digits, and the empty string, parse as NaN. */
  lemma ParseDecimalNaN()
    ensures ParseDecimal("abc") == None && ParseDecimal("") == None
  {
    assert "abc"[0] == 'a' && !IsSpace('a') && !IsDigit('a');
    ParseDecimalNoDigit("abc");
    ParseDecimalNoDigit("");
  }

  /** `parseInt(String(n), 10)` is `n` for every integer `n`. */
  lemma ParseIntOfNum(n: int)
    ensures ParseInt(Num(n)) == Some(n) && ParseInt(Str(IntToDecimal(n))) == Some(n)
  {
    ParseDecimalOfDecimal(n);
  }

  /** `undefined` and `null` parse as NaN. */
  lemma ParseIntOfNil(v: Value)
    requires IsNil(v)
    ensures ParseInt(v) == None
  {
    var s := ToStr(v);
    assert s == "undefined" || s == "null";
    assert !IsSpace(s[0]) && !IsDigit(s[0]) && s[0] != '-' && s[0] != '+';
    assert TrimStart(s) == s;
    assert DigitRun(s) == 0;
  }
}
