/**
  The fragment of JavaScript's value semantics that the post code relies on:
  property reads that yield `undefined`, truthiness (`if (x)`, `x || d`),
  `parseInt(x, 10)` and the range check of `Date.prototype.toISOString`.
  Numbers are modelled as unbounded integers.
 */
module JsValues {
  import opened Wrappers

  datatype Value =
    | Undefined
    | Null
    | Bool(b: bool)
    | Num(n: int)
    | Str(s: string)
    | StrList(items: seq<string>)

  /** A plain JavaScript object: property name to value. */
  type Object = map<string, Value>

  /** A string that is never empty (an ISO time, a URL). */
  type Text = s: string | s != "" witness "1970-01-01T00:00:00.000Z"

  /** `o[key]`: a missing property reads as `undefined`. */
  function Get(o: Object, key: string): Value
  {
    if key in o then o[key] else Undefined
  }

  /** ToBoolean: what `if (v)` and `v || d` test. */
  predicate Truthy(v: Value)
  {
    match v
    case Undefined => false
    case Null => false
    case Bool(b) => b
    case Num(n) => n != 0
    case Str(s) => s != ""
    case StrList(_) => true
  }

  /** `a || b` */
  function Or(a: Value, b: Value): Value
  {
    if Truthy(a) then a else b
  }

  /** `a || b` is truthy whenever the fallback is, and it keeps a truthy `a`. */
  lemma OrDefault(a: Value, b: Value)
    requires Truthy(b)
    ensures Truthy(Or(a, b))
    ensures Or(a, b) == a || (!Truthy(a) && Or(a, b) == b)
  {
  }

  // ---------------------------------------------------------------------------
  // String(v) and parseInt(v, 10)
  // ---------------------------------------------------------------------------

  predicate IsDigit(c: char)
  {
    '0' <= c <= '9'
  }

  /**
    The white space that `parseInt` skips (StrWhiteSpaceChar in ECMA-262): tab,
    vertical tab, form feed, the byte-order mark, the space separators of
    Unicode category Zs and the line terminators.
   */
  predicate IsWhiteSpace(c: char)
  {
    || c == '\t' || c == '\U{B}' || c == '\U{C}' || c == '\U{FEFF}'
    // Zs
    || c == ' ' || c == '\U{A0}' || c == '\U{1680}' || ('\U{2000}' <= c <= '\U{200A}')
    || c == '\U{202F}' || c == '\U{205F}' || c == '\U{3000}'
    // LineTerminator
    || c == '\n' || c == '\r' || c == '\U{2028}' || c == '\U{2029}'
  }

  function DigitValue(c: char): nat
    requires IsDigit(c)
  {
    (c as int) - ('0' as int)
  }

  function DigitChar(d: nat): (c: char)
    requires d < 10
    ensures IsDigit(c) && DigitValue(c) == d
  {
    (('0' as int) + d) as char
  }

  /** The decimal numeral of a natural number, most significant digit first. */
  function NaturalString(n: nat): (s: string)
    ensures |s| > 0
    ensures forall i :: 0 <= i < |s| ==> IsDigit(s[i])
  {
    if n < 10 then [DigitChar(n)] else NaturalString(n / 10) + [DigitChar(n % 10)]
  }

  /** `String(n)` for an integer-valued number. */
  function DecimalString(n: int): string
  {
    if n < 0 then "-" + NaturalString(-n) else NaturalString(n)
  }

  /** `Array.prototype.toString` on an array of strings: the items joined by commas. */
  function Join(items: seq<string>): string
  {
    if |items| == 0 then ""
    else if |items| == 1 then items[0]
    else items[0] + "," + Join(items[1..])
  }

  /** `String(v)`, the conversion `parseInt` applies to its argument first. */
  function ToJsString(v: Value): string
  {
    match v
    case Undefined => "undefined"
    case Null => "null"
    case Bool(b) => if b then "true" else "false"
    case Num(n) => DecimalString(n)
    case Str(s) => s
    case StrList(items) => Join(items)
  }

  /**
    `parseInt(s, 10)` on a string: skip leading white space, read an optional
    sign, then the longest run of decimal digits; `NaN` (None) when that run is empty.
   */
  function ParseIntString(s: string): Option<int>
    decreases |s|
  {
    if |s| > 0 && IsWhiteSpace(s[0]) then ParseIntString(s[1..])
    else if |s| > 0 && s[0] == '-' then Negate(ParseDigits(s[1..]))
    else if |s| > 0 && s[0] == '+' then ParseDigits(s[1..])
    else ParseDigits(s)
  }

  function Negate(n: Option<int>): Option<int>
  {
    if n.Some? then Some(-n.value) else None
  }

  /** The run of leading digits, as a number; None when the string does not start with a digit. */
  function ParseDigits(s: string): Option<int>
  {
    if |s| > 0 && IsDigit(s[0]) then Some(Accumulate(s, 0)) else None
  }

  /** Reads leading digits left to right into `acc`, stopping at the first character that is not a digit. */
  function Accumulate(s: string, acc: nat): nat
    decreases |s|
  {
    if |s| > 0 && IsDigit(s[0]) then Accumulate(s[1..], 10 * acc + DigitValue(s[0])) else acc
  }

  /** `parseInt(v, 10)`: None stands for `NaN`. */
  function ParseInt(v: Value): Option<int>
  {
    match v
    case Num(n) => Some(n)
    case Str(s) => ParseIntString(s)
    case StrList(items) => ParseIntString(Join(items))
    case _ => None
  }

  /** Appending a digit to a run of digits shifts the value read one decimal place. */
  lemma {:induction false} AccumulateDigit(ds: string, c: char, acc: nat)
    requires forall i :: 0 <= i < |ds| ==> IsDigit(ds[i])
    requires IsDigit(c)
    ensures Accumulate(ds + [c], acc) == 10 * Accumulate(ds, acc) + DigitValue(c)
    decreases |ds|
  {
    if ds == [] {
      assert ([] + [c])[1..] == [];
    } else {
      assert (ds + [c])[0] == ds[0] && (ds + [c])[1..] == ds[1..] + [c];
      AccumulateDigit(ds[1..], c, 10 * acc + DigitValue(ds[0]));
    }
  }

  /** The decimal numeral of a number reads back as that number. */
  lemma {:induction false} NaturalStringValue(n: nat)
    ensures Accumulate(NaturalString(n), 0) == n
  {
    if n < 10 {
      assert NaturalString(n)[1..] == [];
    } else {
      NaturalStringValue(n / 10);
      AccumulateDigit(NaturalString(n / 10), DigitChar(n % 10), 0);
    }
  }

  /** Reading back the decimal numeral of a number gives the number. */
  lemma ParseIntDecimal(n: int)
    ensures ParseIntString(DecimalString(n)) == Some(n)
  {
    var m: nat := if n < 0 then -n else n;
    var ds := NaturalString(m);
    NaturalStringValue(m);
    assert ParseDigits(ds) == Some(m);
    if n < 0 {
      var s := "-" + ds;
      assert !IsWhiteSpace(s[0]) && s[0] == '-' && s[1..] == ds;
    } else {
      assert !IsWhiteSpace(ds[0]) && ds[0] != '-' && ds[0] != '+';
    }
  }

  /** A string that starts with a letter parses to `NaN`. */
  lemma ParseIntOfWord(s: string)
    requires |s| > 0 && 'a' <= s[0] <= 'z'
    ensures ParseIntString(s) == None
  {
  }

  /** `parseInt(v, 10)` is `parseInt` of the string `String(v)`. */
  lemma ParseIntOfString(v: Value)
    ensures ParseInt(v) == ParseIntString(ToJsString(v))
  {
    match v
    case Num(n) => ParseIntDecimal(n);
    case Str(_) =>
    case StrList(_) =>
    case Undefined => ParseIntOfWord("undefined");
    case Null => ParseIntOfWord("null");
    case Bool(b) => ParseIntOfWord(if b then "true" else "false");
  }

  /** Leading white space does not change what a string parses to. */
  lemma {:induction false} ParseIntSkipsWhiteSpace(ws: string, t: string)
    requires forall i :: 0 <= i < |ws| ==> IsWhiteSpace(ws[i])
    ensures ParseIntString(ws + t) == ParseIntString(t)
    decreases |ws|
  {
    if ws == [] {
      assert ws + t == t;
    } else {
      assert (ws + t)[0] == ws[0];
      assert (ws + t)[1..] == ws[1..] + t;
      ParseIntSkipsWhiteSpace(ws[1..], t);
    }
  }

  /** Reading stops at the first character that is not a digit: a trailing suffix such as "px" is ignored. */
  lemma {:induction false} AccumulateStops(ds: string, rest: string, acc: nat)
    requires forall i :: 0 <= i < |ds| ==> IsDigit(ds[i])
    requires rest == [] || !IsDigit(rest[0])
    ensures Accumulate(ds + rest, acc) == Accumulate(ds, acc)
    decreases |ds|
  {
    if ds == [] {
      assert ds + rest == rest;
    } else {
      assert (ds + rest)[0] == ds[0] && (ds + rest)[1..] == ds[1..] + rest;
      AccumulateStops(ds[1..], rest, 10 * acc + DigitValue(ds[0]));
    }
  }

  /** A string that starts with a digit, bare or behind a sign, parses to its leading digits. */
  lemma ParseIntOfLeadingDigit(t: string)
    requires |t| > 0 && IsDigit(t[0])
    ensures ParseIntString(t) == Some(Accumulate(t, 0))
    ensures ParseIntString("+" + t) == Some(Accumulate(t, 0))
    ensures var v: int := Accumulate(t, 0); ParseIntString("-" + t) == Some(-v)
  {
    assert !IsWhiteSpace(t[0]) && t[0] != '-' && t[0] != '+';
    assert ("+" + t)[0] == '+' && ("+" + t)[1..] == t;
    assert ("-" + t)[0] == '-' && ("-" + t)[1..] == t;
  }

  /** A run of decimal digits, bare or behind a sign, parses to the number it denotes, whatever non-digit text follows it. */
  lemma ParseIntOfSignedDigits(ds: string, rest: string)
    requires |ds| > 0 && forall i :: 0 <= i < |ds| ==> IsDigit(ds[i])
    requires rest == [] || !IsDigit(rest[0])
    ensures ParseIntString(ds + rest) == Some(Accumulate(ds, 0))
    ensures ParseIntString("+" + (ds + rest)) == Some(Accumulate(ds, 0))
    ensures var v: int := Accumulate(ds, 0); ParseIntString("-" + (ds + rest)) == Some(-v)
  {
    AccumulateStops(ds, rest, 0);
    assert (ds + rest)[0] == ds[0];
    ParseIntOfLeadingDigit(ds + rest);
  }

  /** `parseInt` of `undefined`, `null` and the empty string is `NaN`. */
  lemma ParseIntOfAbsent()
    ensures ParseInt(Undefined) == None
    ensures ParseInt(Null) == None
    ensures ParseInt(Str("")) == None
    ensures ParseIntString(ToJsString(Undefined)) == None && ParseIntString(ToJsString(Null)) == None
  {
    ParseIntOfWord("undefined");
    ParseIntOfWord("null");
  }

  // ---------------------------------------------------------------------------
  // Date
  // ---------------------------------------------------------------------------

  /** The largest magnitude of a time value, in milliseconds from the epoch (section 21.4.1.1 of ECMA-262). */
  const MaxTimeValue: int := 8_640_000_000_000_000

  /** `new Date(t).toISOString()` returns normally exactly when `t` is a number in the time-value range; otherwise it throws a RangeError. */
  predicate IsTimeValue(t: Option<int>)
  {
    t.Some? && -MaxTimeValue <= t.value <= MaxTimeValue
  }
}
