/** The small part of JavaScript's value semantics that both request handlers
    rely on: a field of a parsed JSON body, its truthiness (`!x`), its
    rendering in a template literal (`${x}`), and the conversion of a single
    character by unary plus followed by `parseInt`.
 */
module JsValues {

  /** A field that may be absent from the request body. */
  datatype Option<+T> = None | Some(value: T)

  /** A JSON value as it reaches the handlers. Numbers are integers here:
      fractions, infinities and negative zero are not modelled. `NaN` is kept
      because the read path produces it. `Obj` is a plain JSON object, whose
      members play no part in how the handlers treat it. */
  datatype JsValue =
    | Undefined | Null | Bool(b: bool) | Num(n: int) | NaN | Str(s: string)
    | Arr(elems: seq<JsValue>) | Obj

  /** The fields of the JSON POST body that both handlers destructure:
      `const { action, productGid, totalViews } = req.body`. */
  datatype RequestBody = RequestBody(action: JsValue, productGid: Option<string>, totalViews: JsValue)

  /** The two actions a client may ask for. */
  const GetAction := "get_metafield"
  const UpdateAction := "update_metafield"

  /** `!!v`: false exactly for undefined, null, false, 0, NaN and "";
      every array and object, even an empty one, is truthy. */
  predicate Truthy(v: JsValue): (t: bool)
    ensures !t <==> v in {Undefined, Null, Bool(false), Num(0), NaN, Str("")}
  {
    match v
    case Undefined => false
    case Null => false
    case Bool(b) => b
    case Num(n) => n != 0
    case NaN => false
    case Str(s) => s != ""
    case Arr(_) => true
    case Obj => true
  }

  /** `!!s` for a string field that may be missing: absent or empty is falsy. */
  predicate Present(s: Option<string>): (t: bool)
    ensures !t <==> s in {None, Some("")}
  {
    s.Some? && s.value != ""
  }

  /** `s.startsWith(prefix)`: s is the prefix followed by something. */
  predicate StartsWith(s: string, prefix: string): (t: bool)
    ensures t <==> exists rest :: s == prefix + rest
  {
    if |prefix| <= |s| && s[..|prefix|] == prefix then
      assert s == prefix + s[|prefix|..];
      true
    else false
  }

  predicate IsDigit(c: char)
  {
    '0' <= c <= '9'
  }

  function DigitValue(c: char): (d: nat)
    requires IsDigit(c)
    ensures d < 10
  {
    (c as int - '0' as int) as nat
  }

  function DigitChar(d: nat): (c: char)
    requires d < 10
    ensures IsDigit(c) && DigitValue(c) == d
  {
    ('0' as int + d) as char
  }

  predicate AllDigits(s: string)
  {
    forall i :: 0 <= i < |s| ==> IsDigit(s[i])
  }

  /** The number a string of decimal digits denotes (most significant first). */
  function DigitsValue(s: string): nat
    requires AllDigits(s)
  {
    if s == [] then 0 else DigitsValue(s[..|s| - 1]) * 10 + DigitValue(s[|s| - 1])
  }

  /** The decimal numeral of a natural number, without leading zeros. */
  function Decimal(n: nat): (s: string)
    ensures |s| >= 1 && AllDigits(s)
    ensures n >= 10 ==> |s| >= 2
    ensures n > 0 ==> s[0] != '0'
  {
    if n < 10 then [DigitChar(n)] else Decimal(n / 10) + [DigitChar(n % 10)]
  }

  /** The most significant decimal digit of n. */
  function LeadingDigit(n: nat): (d: nat)
    ensures d < 10
    ensures n > 0 ==> d > 0
  {
    if n < 10 then n else LeadingDigit(n / 10)
  }

  /** The numeral Decimal produces denotes the number it was made from. */
  lemma {:induction false} DecimalDenotes(n: nat)
    ensures DigitsValue(Decimal(n)) == n
  {
    if n >= 10 {
      var s := Decimal(n);
      assert s[..|s| - 1] == Decimal(n / 10);
      DecimalDenotes(n / 10);
    }
  }

  /** Decimal is one-to-one, so the numeral determines the number. */
  lemma DecimalInjective(m: nat, n: nat)
    requires Decimal(m) == Decimal(n)
    ensures m == n
  {
    DecimalDenotes(m);
    DecimalDenotes(n);
  }

  /** The first character of a numeral is its leading digit. */
  lemma {:induction false} DecimalStartsWithLeadingDigit(n: nat)
    ensures Decimal(n)[0] == DigitChar(LeadingDigit(n))
  {
    if n >= 10 {
      DecimalStartsWithLeadingDigit(n / 10);
    }
  }

  /** The white space and line terminators that JavaScript's string-to-number
      conversion trims: tab, line feed, vertical tab, form feed, carriage
      return, the space separators, LS, PS and the byte-order mark. */
  predicate IsJsWhiteSpace(c: char)
  {
    || c == '\t' || c == '\n' || c == '\U{000B}' || c == '\U{000C}' || c == '\r'
    || c == ' ' || c == '\U{00A0}' || c == '\U{1680}' || ('\U{2000}' <= c <= '\U{200A}')
    || c == '\U{2028}' || c == '\U{2029}' || c == '\U{202F}' || c == '\U{205F}'
    || c == '\U{3000}' || c == '\U{FEFF}'
  }

  /** `parseInt(+c)` for a string holding the single character c: unary plus
      gives a digit's value, 0 for white space and NaN for anything else, and
      `parseInt` of an integer or of NaN gives it back. */
  function ParseIntOfUnaryPlus(c: char): (v: JsValue)
    ensures v.Num? <==> IsDigit(c) || IsJsWhiteSpace(c)
    ensures IsDigit(c) ==> v == Num(DigitValue(c))
    ensures IsJsWhiteSpace(c) && !IsDigit(c) ==> v == Num(0)
    ensures !IsDigit(c) && !IsJsWhiteSpace(c) ==> v == NaN
    ensures v.Num? ==> 0 <= v.n < 10
  {
    if IsDigit(c) then Num(DigitValue(c))
    else if IsJsWhiteSpace(c) then Num(0)
    else NaN
  }

  /** `${v}`: the string a template literal puts in place of v. An array
      renders as its elements joined by commas, undefined and null elements
      as empty strings; a plain object as "[object Object]". */
  function TemplateString(v: JsValue): (r: string)
    decreases v, 1, 0
    ensures v.Num? && v.n >= 0 ==> r == Decimal(v.n)
    ensures v.Num? && v.n < 0 ==> r == "-" + Decimal(-v.n)
    ensures v.Str? ==> r == v.s
    ensures v == Bool(true) ==> r == "true"
    ensures v == Arr([]) ==> r == ""
  {
    match v
    case Undefined => "undefined"
    case Null => "null"
    case Bool(b) => if b then "true" else "false"
    case Num(n) => if n < 0 then "-" + Decimal(-n) else Decimal(n)
    case NaN => "NaN"
    case Str(s) => s
    case Arr(elems) => Joined(v, |elems|)
    case Obj => "[object Object]"
  }

  /** The first k elements of the array `arr`, rendered and joined by commas. */
  function Joined(arr: JsValue, k: nat): string
    requires arr.Arr? && k <= |arr.elems|
    decreases arr, 0, k
  {
    if k == 0 then ""
    else
      var e := arr.elems[k - 1];
      var last := if e == Undefined || e == Null then "" else TemplateString(e);
      if k == 1 then last else Joined(arr, k - 1) + "," + last
  }

  /** An array holding one count renders exactly as the count does. */
  lemma TemplateOfSingletonArray(n: nat)
    ensures TemplateString(Arr([Num(n)])) == Decimal(n)
  {
  }

  /** A negative count renders as a minus sign followed by a numeral that
      denotes its magnitude. */
  lemma TemplateOfNegative(n: int)
    requires n < 0
    ensures TemplateString(Num(n))[0] == '-'
    ensures AllDigits(TemplateString(Num(n))[1..]) && DigitsValue(TemplateString(Num(n))[1..]) == -n
  {
    assert TemplateString(Num(n))[1..] == Decimal(-n);
    DecimalDenotes(-n);
  }

  /** A non-negative count renders as its decimal numeral, which denotes it. */
  lemma TemplateOfCount(n: nat)
    ensures TemplateString(Num(n)) == Decimal(n)
    ensures AllDigits(TemplateString(Num(n))) && DigitsValue(TemplateString(Num(n))) == n
  {
    DecimalDenotes(n);
  }
}
