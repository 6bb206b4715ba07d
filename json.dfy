/**
 * JSON values as `JSON.parse` produces them and as `JSON.stringify` prints them.
 * The model does not parse JSON text: where the application parses a string, the
 * parsed value (or its absence) is an input. It does print values, because the
 * report export and the command payloads are JSON text.
 */
module Json {
  import opened Wrappers

  /**
   * The states of a scan over the text JavaScript prints for a finite number.
   * `Zero` and `NegZero` follow a leading `0`, `OneDigit` a single nonzero
   * digit, `Digits` a longer integer part. After the point, `Frac…` tracks
   * whether an exponent may still follow (only after one nonzero digit) and
   * whether the last digit was nonzero. `Exp…` are the exponent's parts.
   */
  datatype NumState =
    | Start | Minus | Zero | NegZero | OneDigit | Digits
    | PointExp | PointPlain
    | FracExpEnd | FracExpZero | FracPlainEnd | FracPlainZero
    | ExpMark | ExpSign | ExpDigits | Reject

  function NumStep(st: NumState, c: char): NumState {
    var digit := '0' <= c <= '9';
    var nonzero := '1' <= c <= '9';
    match st
    case Start => if c == '-' then Minus else if c == '0' then Zero else if nonzero then OneDigit else Reject
    case Minus => if c == '0' then NegZero else if nonzero then OneDigit else Reject
    case Zero => if c == '.' then PointPlain else Reject
    case NegZero => if c == '.' then PointPlain else Reject
    case OneDigit => if digit then Digits else if c == '.' then PointExp else if c == 'e' then ExpMark else Reject
    case Digits => if digit then Digits else if c == '.' then PointPlain else Reject
    case PointExp => if nonzero then FracExpEnd else if c == '0' then FracExpZero else Reject
    case FracExpEnd => if nonzero then FracExpEnd else if c == '0' then FracExpZero else if c == 'e' then ExpMark else Reject
    case FracExpZero => if nonzero then FracExpEnd else if c == '0' then FracExpZero else Reject
    case PointPlain => if nonzero then FracPlainEnd else if c == '0' then FracPlainZero else Reject
    case FracPlainEnd => if nonzero then FracPlainEnd else if c == '0' then FracPlainZero else Reject
    case FracPlainZero => if nonzero then FracPlainEnd else if c == '0' then FracPlainZero else Reject
    case ExpMark => if c == '+' || c == '-' then ExpSign else Reject
    case ExpSign => if nonzero then ExpDigits else Reject
    case ExpDigits => if digit then ExpDigits else Reject
    case Reject => Reject
  }

  function NumScan(st: NumState, t: string): NumState
    decreases |t|
  {
    if t == [] then st else NumScan(NumStep(st, t[0]), t[1..])
  }

  /**
   * The text JavaScript prints for a finite number ("42.5", "-3", "0.25",
   * "1.5e+21", "1e-7"): an optional minus, an integer part without leading
   * zeros, an optional fraction not ending in `0`, and an exponent with an
   * explicit sign only after a single nonzero digit. Zero is `0`, never `-0`.
   */
  predicate IsNumberText(t: string) {
    && |t| > 0
    && (forall i :: 0 <= i < |t| ==> t[i] in "0123456789+-.e")
    && Accepting(NumScan(Start, t))
  }

  predicate Accepting(st: NumState) {
    st in {Zero, OneDigit, Digits, FracExpEnd, FracPlainEnd, ExpDigits}
  }

  type NumberText = t: string | IsNumberText(t) witness "0"

  /** Number text as JavaScript prints it. */
  lemma NumberTextAccepts()
    ensures IsNumberText("-3") && IsNumberText("1.5e+21")
  {
    assert NumScan(Start, "-3") == NumScan(Minus, "3") == NumScan(OneDigit, "");
    assert NumScan(Start, "1.5e+21") == NumScan(OneDigit, ".5e+21") == NumScan(PointExp, "5e+21")
        == NumScan(FracExpEnd, "e+21") == NumScan(ExpMark, "+21") == NumScan(ExpSign, "21")
        == NumScan(ExpDigits, "1") == NumScan(ExpDigits, "");
  }

  /** Texts JavaScript never prints for a number. */
  lemma NumberTextRejects()
    ensures !IsNumberText("-0") && !IsNumberText("1e") && !IsNumberText("07") && !IsNumberText("2.50")
  {
    assert NumScan(Start, "-0") == NumScan(Minus, "0") == NumScan(NegZero, "");
    assert NumScan(Start, "1e") == NumScan(OneDigit, "e") == NumScan(ExpMark, "");
    assert NumScan(Start, "07") == NumScan(Zero, "7") == NumScan(Reject, "");
    assert NumScan(Start, "2.50") == NumScan(OneDigit, ".50") == NumScan(PointExp, "50")
        == NumScan(FracExpEnd, "0") == NumScan(FracExpZero, "");
  }

  /**
   * A JSON value. A number is kept as its printed text: the application never
   * computes with sensor readings, it only stores, forwards and prints them.
   * Object fields are kept in the object's property order, the order of
   * `Object.keys`; the model does not move integer-like keys to the front.
   */
  datatype Value =
    | Null
    | Bool(b: bool)
    | Num(text: NumberText)
    | Str(s: string)
    | Arr(items: seq<Value>)
    | Obj(fields: seq<Field>)

  datatype Field = Field(key: string, val: Value)

  /** Whether number text denotes zero: no nonzero digit before the exponent. */
  predicate IsZeroText(t: string) {
    t == [] || t[0] == 'e' || (t[0] !in "123456789" && IsZeroText(t[1..]))
  }

  /** JavaScript truthiness of a parsed value: null, false, 0 and "" are falsy. */
  predicate Truthy(v: Value) {
    match v
    case Null => false
    case Bool(b) => b
    case Num(t) => !IsZeroText(t)
    case Str(s) => s != ""
    case Arr(_) => true
    case Obj(_) => true
  }

  lemma {:induction false} RejectStays(t: string)
    ensures NumScan(Reject, t) == Reject
    decreases |t|
  {
    if t != [] {
      RejectStays(t[1..]);
    }
  }

  /**
   * From a state no nonzero digit has reached, text without a nonzero digit
   * before its exponent is accepted only as the single `0`.
   */
  lemma {:induction false} ZeroScan(st: NumState, t: string)
    requires st in {Start, Minus, Zero, NegZero, PointPlain, FracPlainZero, Reject}
    requires IsZeroText(t)
    requires Accepting(NumScan(st, t))
    ensures (st == Zero && t == []) || (st == Start && t == "0")
    decreases |t|
  {
    if t != [] {
      var next := NumStep(st, t[0]);
      if next == Reject {
        RejectStays(t[1..]);
      } else {
        ZeroScan(next, t[1..]);
      }
    }
  }

  /** The only number text with no nonzero digit before its exponent is `0`. */
  lemma ZeroText(t: NumberText)
    ensures IsZeroText(t) <==> t == "0"
  {
    if IsZeroText(t) {
      ZeroScan(Start, t);
    }
  }

  /** The falsy values are exactly null, false, the number 0 and the empty string. */
  lemma TruthyIff(v: Value)
    ensures !Truthy(v) <==> v == Null || v == Bool(false) || v == Num("0") || v == Str("")
  {
    if v.Num? {
      ZeroText(v.text);
    }
  }

  /** Property access `obj[key]` on an object's fields; `None` is `undefined`. */
  function Lookup(fields: seq<Field>, key: string): (r: Option<Value>)
    ensures r.Some? ==> Field(key, r.value) in fields
    ensures r.None? ==> forall i :: 0 <= i < |fields| ==> fields[i].key != key
  {
    if fields == [] then None
    else if fields[0].key == key then Some(fields[0].val)
    else Lookup(fields[1..], key)
  }

  /** Property access `v[key]` on any value: only objects have named properties here. */
  function Get(v: Value, key: string): Option<Value> {
    if v.Obj? then Lookup(v.fields, key) else None
  }

  /** `Object.keys` of an object's fields, in the object's property order. */
  function Keys(fields: seq<Field>): (ks: seq<string>)
    ensures |ks| == |fields|
    ensures forall i :: 0 <= i < |fields| ==> ks[i] == fields[i].key
  {
    if fields == [] then [] else [fields[0].key] + Keys(fields[1..])
  }

  /** `{...obj, key: val}`: an existing key keeps its position and takes the new value, a new key goes last. */
  function Assign(fields: seq<Field>, key: string, val: Value): (r: seq<Field>)
    ensures Lookup(r, key) == Some(val)
    ensures forall k :: k != key ==> Lookup(r, k) == Lookup(fields, k)
    ensures Lookup(fields, key).None? ==> r == fields + [Field(key, val)]
  {
    if fields == [] then [Field(key, val)]
    else if fields[0].key == key then [Field(key, val)] + fields[1..]
    else [fields[0]] + Assign(fields[1..], key, val)
  }

  // ----- JSON.stringify -----

  function HexDigit(n: nat): char
    requires n < 16
  {
    "0123456789abcdef"[n]
  }

  /** How `JSON.stringify` writes one character inside a string literal. */
  function EscapeChar(c: char): string {
    if c as int >= 32 && c != '"' && c != '\\' then [c]
    else if c == '"' then ['\\', '"']
    else if c == '\\' then ['\\', '\\']
    else if c as int == 8 then ['\\', 'b']
    else if c as int == 9 then ['\\', 't']
    else if c as int == 10 then ['\\', 'n']
    else if c as int == 12 then ['\\', 'f']
    else if c as int == 13 then ['\\', 'r']
    else ['\\', 'u', '0', '0', HexDigit(c as int / 16), HexDigit(c as int % 16)]
  }

  function EscapeString(s: string): string {
    if s == [] then [] else EscapeChar(s[0]) + EscapeString(s[1..])
  }

  /** `JSON.stringify` of a string: a double-quoted, escaped literal. */
  function Quote(s: string): string {
    ['"'] + EscapeString(s) + ['"']
  }

  /** `JSON.stringify(v)`, without whitespace, fields in the object's property order. */
  function Stringify(v: Value): string {
    match v
    case Null => "null"
    case Bool(b) => if b then "true" else "false"
    case Num(t) => t
    case Str(s) => Quote(s)
    case Arr(items) => "[" + StringifyItems(items) + "]"
    case Obj(fields) => "{" + StringifyFields(fields) + "}"
  }

  function StringifyItems(items: seq<Value>): string {
    if items == [] then ""
    else Stringify(items[0]) + (if |items| == 1 then "" else "," + StringifyItems(items[1..]))
  }

  function StringifyFields(fields: seq<Field>): string {
    if fields == [] then ""
    else
      Quote(fields[0].key) + ":" + Stringify(fields[0].val)
      + (if |fields| == 1 then "" else "," + StringifyFields(fields[1..]))
  }

  // ----- Reading a string literal back -----

  function HexValue(c: char): Option<nat> {
    if '0' <= c <= '9' then Some(c as int - '0' as int)
    else if 'a' <= c <= 'f' then Some(c as int - 'a' as int + 10)
    else if 'A' <= c <= 'F' then Some(c as int - 'A' as int + 10)
    else None
  }

  function HexQuad(a: char, b: char, c: char, d: char): Option<nat> {
    match (HexValue(a), HexValue(b), HexValue(c), HexValue(d))
    case (Some(w), Some(x), Some(y), Some(z)) => Some(4096 * w + 256 * x + 16 * y + z)
    case _ => None
  }

  /** The character a two-character escape `\e` stands for in a JSON string. */
  function SimpleEscape(e: char): Option<char> {
    if e == '"' then Some('"')
    else if e == '\\' then Some('\\')
    else if e == '/' then Some('/')
    else if e == 'b' then Some(8 as char)
    else if e == 't' then Some(9 as char)
    else if e == 'n' then Some(10 as char)
    else if e == 'f' then Some(12 as char)
    else if e == 'r' then Some(13 as char)
    else None
  }

  function Cons(c: char, rest: Option<string>): Option<string> {
    match rest
    case None => None
    case Some(s) => Some([c] + s)
  }

  /** Decodes the body of a string literal up to and including its closing quote, which must end the text. */
  function UnescapeBody(t: string): Option<string>
    decreases |t|
  {
    if t == [] then None
    else if t[0] == '"' then (if |t| == 1 then Some([]) else None)
    else if t[0] == '\\' then
      if |t| < 2 then None
      else if t[1] == 'u' then
        if |t| < 6 then None
        else match HexQuad(t[2], t[3], t[4], t[5])
          case None => None
          case Some(n) => if n < 0xD800 || 0xE000 <= n then Cons(n as char, UnescapeBody(t[6..])) else None
      else match SimpleEscape(t[1])
        case None => None
        case Some(c) => Cons(c, UnescapeBody(t[2..]))
    else if t[0] as int < 32 then None
    else Cons(t[0], UnescapeBody(t[1..]))
  }

  /** Reads a JSON string literal; `None` when the text is not exactly one literal. */
  function Unquote(t: string): Option<string> {
    if t != [] && t[0] == '"' then UnescapeBody(t[1..]) else None
  }

  lemma HexDigitValue(n: nat)
    requires n < 16
    ensures HexValue(HexDigit(n)) == Some(n)
  {
  }

  lemma UnescapeOneChar(c: char, t: string)
    ensures UnescapeBody(EscapeChar(c) + t) == Cons(c, UnescapeBody(t))
  {
    var e := EscapeChar(c) + t;
    if c as int < 32 && c as int !in {8, 9, 10, 12, 13} {
      var hi, lo := c as int / 16, c as int % 16;
      HexDigitValue(hi);
      HexDigitValue(lo);
      assert e[..6] == ['\\', 'u', '0', '0', HexDigit(hi), HexDigit(lo)];
      assert HexQuad(e[2], e[3], e[4], e[5]) == Some(c as int);
      assert e[6..] == t;
    } else if c == '"' || c == '\\' || c as int in {8, 9, 10, 12, 13} {
      assert e[2..] == t;
    } else {
      assert e[1..] == t;
    }
  }

  /** Reading back what `Quote` wrote gives the original string. */
  lemma {:induction false} UnquoteQuote(s: string)
    ensures Unquote(Quote(s)) == Some(s)
  {
    assert Quote(s)[1..] == EscapeString(s) + ['"'];
    UnescapeEscaped(s);
  }

  lemma {:induction false} UnescapeEscaped(s: string)
    ensures UnescapeBody(EscapeString(s) + ['"']) == Some(s)
  {
    if s == [] {
      assert EscapeString(s) + ['"'] == ['"'];
    } else {
      var head, tail := EscapeChar(s[0]), EscapeString(s[1..]) + ['"'];
      assert EscapeString(s) + ['"'] == head + tail by {
        assert EscapeString(s) == head + EscapeString(s[1..]);
      }
      calc {
        UnescapeBody(head + tail);
        { UnescapeOneChar(s[0], tail); }
        Cons(s[0], UnescapeBody(tail));
        { UnescapeEscaped(s[1..]); }
        Cons(s[0], Some(s[1..]));
        { assert [s[0]] + s[1..] == s; }
        Some(s);
      }
    }
  }

  /** `Quote` is one-to-one: distinct strings print as distinct literals. */
  lemma QuoteInjective(s: string, t: string)
    ensures Quote(s) == Quote(t) ==> s == t
  {
    UnquoteQuote(s);
    UnquoteQuote(t);
  }

  // ----- No line breaks in printed JSON -----

  lemma {:induction false} EscapeStringHasNoNewline(s: string)
    ensures '\n' !in EscapeString(s)
  {
    if s != [] {
      var c := s[0];
      assert '\n' !in EscapeChar(c) by {
        if c as int < 32 && c as int !in {8, 9, 10, 12, 13} {
          assert HexDigit(c as int / 16) != '\n' && HexDigit(c as int % 16) != '\n';
        }
      }
      EscapeStringHasNoNewline(s[1..]);
    }
  }

  /**
   * `JSON.stringify` never writes a raw line break: string content is escaped and
   * number text has none. This is what keeps one CSV record on one line.
   */
  lemma {:induction false} StringifyHasNoNewline(v: Value)
    ensures '\n' !in Stringify(v)
  {
    match v
    case Null =>
    case Bool(b) =>
    case Num(t) =>
      assert forall i :: 0 <= i < |t| ==> t[i] != '\n';
    case Str(s) =>
      EscapeStringHasNoNewline(s);
    case Arr(items) =>
      ItemsHaveNoNewline(items);
    case Obj(fields) =>
      FieldsHaveNoNewline(fields);
  }

  lemma {:induction false} ItemsHaveNoNewline(items: seq<Value>)
    ensures '\n' !in StringifyItems(items)
  {
    if items != [] {
      StringifyHasNoNewline(items[0]);
      ItemsHaveNoNewline(items[1..]);
    }
  }

  lemma {:induction false} FieldsHaveNoNewline(fields: seq<Field>)
    ensures '\n' !in StringifyFields(fields)
  {
    if fields != [] {
      EscapeStringHasNoNewline(fields[0].key);
      StringifyHasNoNewline(fields[0].val);
      FieldsHaveNoNewline(fields[1..]);
    }
  }
}
