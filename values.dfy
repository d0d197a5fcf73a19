/** An optional value: `None` stands for a property that is absent or `undefined`. */
module Options {
  datatype Option<+T> = None | Some(value: T)
}

/** Decimal text of non-negative integers, as JavaScript's number-to-string gives it,
    and its inverse. */
module NumberText {

  predicate IsDigit(c: char) {
    '0' <= c <= '9'
  }

  predicate AllDigits(s: string) {
    forall i :: 0 <= i < |s| ==> IsDigit(s[i])
  }

  function DigitChar(d: nat): (c: char)
    requires d < 10
    ensures IsDigit(c)
  {
    ('0' as int + d) as char
  }

  function DigitValue(c: char): (d: nat)
    requires IsDigit(c)
    ensures d < 10 && DigitChar(d) == c
  {
    c as int - '0' as int
  }

  /** The decimal representation of `n`, most significant digit first. */
  function Decimal(n: nat): (s: string)
    ensures 0 < |s| && AllDigits(s)
    ensures n == 0 || s[0] != '0'
    decreases n
  {
    if n < 10 then [DigitChar(n)] else Decimal(n / 10) + [DigitChar(n % 10)]
  }

  /** The number a string of decimal digits denotes. */
  function ParseDecimal(s: string): nat
    requires AllDigits(s)
    decreases |s|
  {
    if s == [] then 0 else ParseDecimal(s[..|s| - 1]) * 10 + DigitValue(s[|s| - 1])
  }

  lemma {:induction false} ParseDecimalOfDecimal(n: nat)
    ensures ParseDecimal(Decimal(n)) == n
    decreases n
  {
    var s := Decimal(n);
    if n < 10 {
      assert s[..|s| - 1] == [];
    } else {
      assert s[..|s| - 1] == Decimal(n / 10);
      ParseDecimalOfDecimal(n / 10);
    }
  }

  /** `p` is a prefix of `p + r`, and what follows it is `r`. */
  lemma PrefixRest(p: string, r: string)
    ensures p <= p + r && (p + r)[|p|..] == r
  {
    assert (p + r)[..|p|] == p;
  }

  /** The longest prefix of `s` made of digits. */
  function DigitRun(s: string): (r: string)
    ensures AllDigits(r) && r <= s
    decreases |s|
  {
    if s != [] && IsDigit(s[0]) then [s[0]] + DigitRun(s[1..]) else []
  }

  /** A number followed by a non-digit is read back whole. */
  lemma {:induction false} DigitRunOfNumber(d: string, t: string)
    requires AllDigits(d)
    requires t == [] || !IsDigit(t[0])
    ensures DigitRun(d + t) == d
    decreases |d|
  {
    if d == [] {
      assert d + t == t;
    } else {
      assert (d + t)[1..] == d[1..] + t;
      DigitRunOfNumber(d[1..], t);
    }
  }
}

/** The JavaScript values that flow through the store: payloads, state entries and
    the data handed to subscribers. */
module JsValues {
  import opened NumberText

  datatype Value =
    | Undefined
    | Null
    | Bool(b: bool)
    | Num(n: int)
    | Str(s: string)
    | List(elems: seq<Value>)
    | Obj(fields: map<string, Value>)

  /** The store's state object, key by key. */
  type State = map<string, Value>

  /** The literal `{}`. */
  const EmptyObject: Value := Obj(map[])

  /** JavaScript truthiness, as `a || b` tests it (NaN is not modelled). */
  predicate Truthy(v: Value) {
    match v
    case Undefined => false
    case Null => false
    case Bool(b) => b
    case Num(n) => n != 0
    case Str(s) => s != ""
    case List(_) => true
    case Obj(_) => true
  }

  /** A string's `length` in JavaScript: its number of UTF-16 code units. A character
      outside the Basic Multilingual Plane takes two (a surrogate pair). */
  function Utf16Length(s: string): (n: nat)
    ensures |s| <= n <= 2 * |s|
    ensures n == |s| <==> forall i :: 0 <= i < |s| ==> s[i] as int < 0x1_0000
    decreases |s|
  {
    if s == [] then 0
    else
      var last := |s| - 1;
      Utf16Length(s[..last]) + (if s[last] as int < 0x1_0000 then 1 else 2)
  }

  /** The property read `v[name]`; reading a property of `undefined` or `null` throws. */
  function Get(v: Value, name: string): Value
    requires !v.Undefined? && !v.Null?
  {
    match v
    case List(xs) => if name == "length" then Num(|xs|) else Undefined
    case Str(s) => if name == "length" then Num(Utf16Length(s)) else Undefined
    case Obj(f) => if name in f then f[name] else Undefined
    case _ => Undefined
  }

  /** The text a template literal's `${ v }` produces for a primitive value. */
  function ToText(v: Value): string
    requires !v.List? && !v.Obj?
  {
    match v
    case Undefined => "undefined"
    case Null => "null"
    case Bool(b) => if b then "true" else "false"
    case Num(n) => if n < 0 then "-" + Decimal(-n) else Decimal(n)
    case Str(s) => s
  }
}
