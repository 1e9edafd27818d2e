/** The part of Python's value semantics that the two servers rely on: the
    argument values a client can send, `str()`, `+`, `dict.get` with a
    default, `json.dumps` of a scalar and `repr` of a list of names. */
module PyValues {

  datatype Option<+T> = None | Some(value: T) {
    /** `x or default` for an optional value */
    function GetOr(default: T): T {
      match this
      case Some(v) => v
      case None => default
    }
  }

  /** What running a piece of Python produced: a value, or an exception
      whose `str()` is `message`. */
  datatype Outcome<+T> = Ok(value: T) | Err(message: string)

  /** A JSON argument value as the servers receive it (int, str or null). */
  datatype Value = IntV(i: int) | StrV(s: string) | NoneV

  type Arguments = map<string, Value>

  /** `arguments.get(key, default)` */
  function Get(args: Arguments, key: string, default: Value): (v: Value)
    ensures key in args ==> v == args[key]
    ensures key !in args ==> v == default
  {
    if key in args then args[key] else default
  }

  function DigitChar(d: int): (c: char)
    requires 0 <= d < 10
    ensures '0' <= c <= '9' && c as int - '0' as int == d
  {
    "0123456789"[d]
  }

  /** Python's decimal rendering of a non-negative int */
  function NatToString(n: nat): (r: string)
    ensures |r| > 0
    ensures forall i :: 0 <= i < |r| ==> '0' <= r[i] <= '9'
  {
    if n < 10 then [DigitChar(n)] else NatToString(n / 10) + [DigitChar(n % 10)]
  }

  /** `str(i)` for an int */
  function IntToString(i: int): (r: string)
    ensures |r| > 0
    ensures (r[0] == '-') <==> i < 0
  {
    if i < 0 then "-" + NatToString(-i) else NatToString(i)
  }

  /** The inverse of NatToString: reads a run of decimal digits. */
  function ParseNat(s: string): nat
    requires forall i :: 0 <= i < |s| ==> '0' <= s[i] <= '9'
  {
    if s == [] then 0 else ParseNat(s[..|s| - 1]) * 10 + (s[|s| - 1] as int - '0' as int)
  }

  lemma {:induction false} ParseNatToString(n: nat)
    ensures ParseNat(NatToString(n)) == n
  {
    if n >= 10 {
      var s := NatToString(n);
      assert s[..|s| - 1] == NatToString(n / 10);
      ParseNatToString(n / 10);
    }
  }

  lemma {:induction false} NatToStringInjective(a: nat, b: nat)
    requires NatToString(a) == NatToString(b)
    ensures a == b
  {
    ParseNatToString(a);
    ParseNatToString(b);
  }

  /** Two different ints are never written as the same text. */
  lemma {:induction false} IntToStringInjective(a: int, b: int)
    requires IntToString(a) == IntToString(b)
    ensures a == b
  {
    var s := IntToString(a);
    if s[0] == '-' {
      assert a < 0 && b < 0;
      var na, nb := NatToString(-a), NatToString(-b);
      assert s == "-" + na == "-" + nb;
      assert na == s[1..] == nb;
      NatToStringInjective(-a, -b);
    } else {
      assert a >= 0 && b >= 0;
      assert NatToString(a) == s == NatToString(b);
      NatToStringInjective(a, b);
    }
  }

  /** `type(v).__name__` */
  function TypeName(v: Value): string {
    match v
    case IntV(_) => "int"
    case StrV(_) => "str"
    case NoneV => "NoneType"
  }

  /** `str(v)` */
  function ToStr(v: Value): string {
    match v
    case IntV(i) => IntToString(i)
    case StrV(s) => s
    case NoneV => "None"
  }

  /** `a + b`, with the TypeError CPython raises for mixed operands */
  function Plus(a: Value, b: Value): (r: Outcome<Value>)
    ensures a.IntV? && b.IntV? ==> r == Ok(IntV(a.i + b.i))
    ensures a.StrV? && b.StrV? ==> r == Ok(StrV(a.s + b.s))
    ensures r.Ok? <==> (a.IntV? && b.IntV?) || (a.StrV? && b.StrV?)
  {
    match (a, b)
    case (IntV(x), IntV(y)) => Ok(IntV(x + y))
    case (StrV(x), StrV(y)) => Ok(StrV(x + y))
    case (StrV(_), _) => Err("can only concatenate str (not \"" + TypeName(b) + "\") to str")
    case _ => Err("unsupported operand type(s) for +: '" + TypeName(a) + "' and '" + TypeName(b) + "'")
  }

  function HexDigit(d: int): (c: char)
    requires 0 <= d < 16
    ensures '0' <= c <= 'f'
  {
    "0123456789abcdef"[d]
  }

  /** four lower-case hex digits, as in `'\\u{0:04x}'.format(n)` */
  function Hex4(n: int): (r: string)
    requires 0 <= n < 0x1_0000
    ensures |r| == 4 && PrintableAscii(r)
  {
    [HexDigit(n / 0x1000), HexDigit(n / 0x100 % 16), HexDigit(n / 16 % 16), HexDigit(n % 16)]
  }

  predicate PrintableAscii(s: string) {
    forall i :: 0 <= i < |s| ==> ' ' <= s[i] <= '~'
  }

  /** How `json.dumps` (with its default `ensure_ascii=True`) writes one
      character inside a string literal. */
  function JsonEscapeChar(c: char): (r: string)
    ensures PrintableAscii(r)
    ensures ' ' <= c <= '~' && c != '"' && c != '\\' ==> r == [c]
  {
    if c == '"' then "\\\""
    else if c == '\\' then "\\\\"
    else if c == '\n' then "\\n"
    else if c == '\r' then "\\r"
    else if c == '\t' then "\\t"
    else if c == '\U{8}' then "\\b"
    else if c == '\U{C}' then "\\f"
    else if ' ' <= c <= '~' then [c]
    else if c as int < 0x1_0000 then "\\u" + Hex4(c as int)
    else
      var v := c as int - 0x1_0000;
      assert v < 0x10_0000;
      "\\u" + Hex4(0xD800 + v / 0x400) + "\\u" + Hex4(0xDC00 + v % 0x400)
  }

  function JsonEscape(s: string): (r: string)
    ensures PrintableAscii(r)
  {
    if s == [] then "" else JsonEscapeChar(s[0]) + JsonEscape(s[1..])
  }

  /** `json.dumps(s)` for a str: always printable ASCII, in double quotes. */
  function JsonString(s: string): (r: string)
    ensures PrintableAscii(r) && |r| >= 2 && r[0] == '"' && r[|r| - 1] == '"'
  {
    "\"" + JsonEscape(s) + "\""
  }

  /** `json.dumps(v)` for a scalar */
  function JsonDumps(v: Value): (r: string)
    ensures PrintableAscii(r)
  {
    match v
    case IntV(i) => IntToString(i)
    case StrV(s) => JsonString(s)
    case NoneV => "null"
  }

  /** `sep.join(xs)` */
  function Join(sep: string, xs: seq<string>): (r: string)
    ensures xs == [] ==> r == ""
    ensures |xs| > 0 ==> |r| >= |xs[0]| && r[..|xs[0]|] == xs[0]
  {
    if xs == [] then ""
    else if |xs| == 1 then xs[0]
    else xs[0] + sep + Join(sep, xs[1..])
  }

  /** `repr(list_of_names)`: each name in single quotes, as Python writes
      a str holding no quote, backslash or unprintable character. */
  function ReprNames(names: seq<string>): string {
    "[" + Join(", ", seq(|names|, i requires 0 <= i < |names| => "'" + names[i] + "'")) + "]"
  }
}
