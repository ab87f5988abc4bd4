/**
  The fragment of JSON the driver's descriptions use: strings with the escapes of section 7 of
  RFC 8259 (printed the way Go's encoding/json prints them, which also escapes the HTML
  characters and the two Unicode line separators), decimal numbers inside strings, and objects
  with up to two optional fields in a fixed order. Every printer is paired with a parser that
  returns the unread rest of its input.
 */
module Json {
  import opened Wrappers

  // ---------- strings ----------

  function HexDigit(d: nat): char
    requires d < 0x10
  {
    if d < 10 then ('0' as int + d) as char else ('a' as int + (d - 10)) as char
  }

  function HexValue(c: char): Option<nat> {
    if '0' <= c <= '9' then Some(c as int - '0' as int)
    else if 'a' <= c <= 'f' then Some(c as int - 'a' as int + 10)
    else if 'A' <= c <= 'F' then Some(c as int - 'A' as int + 10)
    else None
  }

  function Hex4(n: nat): string
    requires n < 0x1_0000
  {
    [HexDigit(n / 0x1000), HexDigit(n / 0x100 % 0x10), HexDigit(n / 0x10 % 0x10), HexDigit(n % 0x10)]
  }

  /** Characters printed as a four-digit escape. */
  predicate NeedsHexEscape(c: char) {
    c < ' ' || c == '<' || c == '>' || c == '&' || c == '\U{2028}' || c == '\U{2029}'
  }

  function EscapeChar(c: char): string {
    if c == '"' then "\\\""
    else if c == '\\' then "\\\\"
    else if c == '\U{08}' then "\\b"
    else if c == '\U{0C}' then "\\f"
    else if c == '\n' then "\\n"
    else if c == '\r' then "\\r"
    else if c == '\t' then "\\t"
    else if NeedsHexEscape(c) then "\\u" + Hex4(c as int)
    else [c]
  }

  function Escape(s: string): string {
    if s == "" then "" else EscapeChar(s[0]) + Escape(s[1..])
  }

  function Quote(s: string): string {
    "\"" + Escape(s) + "\""
  }

  /** Reads the four hexadecimal digits at the front of `s`; surrogates are not characters. */
  function ParseHex4(s: string): Option<(char, string)> {
    if |s| < 4 then None
    else
      match (HexValue(s[0]), HexValue(s[1]), HexValue(s[2]), HexValue(s[3]))
      case (Some(a), Some(b), Some(c), Some(d)) =>
        var n := a * 0x1000 + b * 0x100 + c * 0x10 + d;
        if n < 0xD800 || 0xE000 <= n < 0x1_0000 then Some((n as char, s[4..])) else None
      case _ => None
  }

  /** Reads one possibly escaped character. */
  function ParseChar(s: string): (r: Option<(char, string)>)
    requires s != ""
    ensures r.Some? ==> |r.value.1| < |s|
  {
    if s[0] != '\\' then
      if s[0] < ' ' then None else Some((s[0], s[1..]))
    else if |s| < 2 then None
    else
      match s[1]
      case '"' => Some(('"', s[2..]))
      case '\\' => Some(('\\', s[2..]))
      case '/' => Some(('/', s[2..]))
      case 'b' => Some(('\U{08}', s[2..]))
      case 'f' => Some(('\U{0C}', s[2..]))
      case 'n' => Some(('\n', s[2..]))
      case 'r' => Some(('\r', s[2..]))
      case 't' => Some(('\t', s[2..]))
      case 'u' => ParseHex4(s[2..])
      case _ => None
  }

  /** Reads the rest of a string whose opening quote has been consumed. */
  function ParseStringTail(s: string): Option<(string, string)>
    decreases |s|
  {
    if s == "" then None
    else if s[0] == '"' then Some(("", s[1..]))
    else
      match ParseChar(s)
      case None => None
      case Some((c, rest)) =>
        match ParseStringTail(rest)
        case None => None
        case Some((t, rest')) => Some(([c] + t, rest'))
  }

  function ParseQuoted(s: string): Option<(string, string)> {
    if "\"" <= s then ParseStringTail(s[1..]) else None
  }

  lemma Regroup(n: nat)
    requires n < 0x1_0000
    ensures n == n / 0x1000 * 0x1000 + n / 0x100 % 0x10 * 0x100 + n / 0x10 % 0x10 * 0x10 + n % 0x10
  {
    var h, m := n / 0x100, n / 0x10;
    assert h / 0x10 == n / 0x1000;
    assert m / 0x10 == h;
  }

  lemma HexDigitReads(d: nat)
    requires d < 0x10
    ensures HexValue(HexDigit(d)) == Some(d)
  {
  }

  lemma FourDigits(a: char, b: char, c: char, d: char, rest: string)
    requires HexValue(a).Some? && HexValue(b).Some? && HexValue(c).Some? && HexValue(d).Some?
    ensures var n := HexValue(a).value * 0x1000 + HexValue(b).value * 0x100 + HexValue(c).value * 0x10 +
              HexValue(d).value;
            n < 0xD800 || 0xE000 <= n < 0x1_0000 ==> ParseHex4([a, b, c, d] + rest) == Some((n as char, rest))
  {
    var s := [a, b, c, d] + rest;
    assert s[4..] == rest;
    assert s[0] == a && s[1] == b && s[2] == c && s[3] == d;
  }

  lemma HexRoundTrip(n: nat, rest: string)
    requires n < 0xD800 || 0xE000 <= n < 0x1_0000
    ensures ParseHex4(Hex4(n) + rest) == Some((n as char, rest))
  {
    var a, b, c, d := n / 0x1000, n / 0x100 % 0x10, n / 0x10 % 0x10, n % 0x10;
    Regroup(n);
    HexDigitReads(a);
    HexDigitReads(b);
    HexDigitReads(c);
    HexDigitReads(d);
    FourDigits(HexDigit(a), HexDigit(b), HexDigit(c), HexDigit(d), rest);
  }

  lemma ShortEscapeRoundTrip(e: char, rest: string)
    requires e in "\"\\bfnrt"
    ensures ParseChar(['\\', e] + rest).Some? && ParseChar(['\\', e] + rest).value.1 == rest
  {
    assert (['\\', e] + rest)[2..] == rest;
  }

  lemma HexEscapeRoundTrip(c: char, rest: string)
    ensures c as int < 0x1_0000 ==> ParseChar("\\u" + Hex4(c as int) + rest) == Some((c, rest))
  {
    if c as int < 0x1_0000 {
      HexRoundTrip(c as int, rest);
      var s := "\\u" + Hex4(c as int) + rest;
      assert s[2..] == Hex4(c as int) + rest;
    }
  }

  lemma CharRoundTrip(c: char, rest: string)
    ensures var s := EscapeChar(c) + rest;
            s != "" && s[0] != '"' && ParseChar(s) == Some((c, rest))
  {
    var s := EscapeChar(c) + rest;
    if |EscapeChar(c)| == 6 {
      HexEscapeRoundTrip(c, rest);
    } else if |EscapeChar(c)| == 2 {
      ShortEscapeRoundTrip(EscapeChar(c)[1], rest);
    } else {
      assert s[1..] == rest;
    }
  }

  lemma OneMoreChar(c: char, tail: string, t: string, rest: string)
    requires ParseStringTail(tail) == Some((t, rest))
    ensures ParseStringTail(EscapeChar(c) + tail) == Some(([c] + t, rest))
  {
    CharRoundTrip(c, tail);
  }

  lemma FirstApart(a: string, b: string, c: string, d: string)
    ensures (a + b) + c + d == a + (b + c + d)
  {
  }

  lemma {:induction false} StringTailRoundTrip(t: string, rest: string)
    ensures ParseStringTail(Escape(t) + "\"" + rest) == Some((t, rest))
  {
    if t == "" {
      assert (Escape(t) + "\"" + rest)[1..] == rest;
    } else {
      StringTailRoundTrip(t[1..], rest);
      OneMoreChar(t[0], Escape(t[1..]) + "\"" + rest, t[1..], rest);
      FirstApart(EscapeChar(t[0]), Escape(t[1..]), "\"", rest);
      assert [t[0]] + t[1..] == t;
    }
  }

  lemma QuotedRoundTrip(t: string, rest: string)
    ensures ParseQuoted(Quote(t) + rest) == Some((t, rest))
  {
    StringTailRoundTrip(t, rest);
    assert (Quote(t) + rest)[1..] == Escape(t) + "\"" + rest;
  }

  // ---------- natural numbers ----------

  function Decimal(n: nat): string {
    if n < 10 then [HexDigit(n)] else Decimal(n / 10) + [HexDigit(n % 10)]
  }

  function ParseDecimal(s: string): Option<nat> {
    if s == "" then None
    else
      var last := s[|s| - 1];
      if !('0' <= last <= '9') then None
      else
        var digit := last as int - '0' as int;
        if |s| == 1 then Some(digit)
        else
          match ParseDecimal(s[..|s| - 1])
          case None => None
          case Some(n) => Some(10 * n + digit)
  }

  lemma {:induction false} DecimalRoundTrip(n: nat)
    ensures ParseDecimal(Decimal(n)) == Some(n)
  {
    if n >= 10 {
      DecimalRoundTrip(n / 10);
      var s := Decimal(n);
      assert s[..|s| - 1] == Decimal(n / 10);
    }
  }

  // ---------- objects ----------

  /** What an object with two optional fields holds; the second one is always a string. */
  datatype Fields<+A> = Fields(first: Option<A>, second: Option<string>)

  function Key(name: string): string {
    "\"" + name + "\":"
  }

  /** `first` is the already printed value of the first field. */
  function PrintObject(k1: string, first: Option<string>, k2: string, second: Option<string>): string {
    match (first, second)
    case (None, None) => "{" + "}"
    case (Some(v), None) => "{" + (Key(k1) + (v + "}"))
    case (None, Some(t)) => "{" + (Key(k2) + (Quote(t) + "}"))
    case (Some(v), Some(t)) => "{" + (Key(k1) + (v + (("," + Key(k2)) + (Quote(t) + "}"))))
  }

  /** An object written out. */
  lemma ObjectText(k1: string, v: string, k2: string, t: string)
    ensures PrintObject(k1, Some(v), k2, None) == "{" + Key(k1) + v + "}"
    ensures PrintObject(k1, None, k2, Some(t)) == "{" + Key(k2) + Quote(t) + "}"
    ensures PrintObject(k1, Some(v), k2, Some(t)) == "{" + Key(k1) + v + "," + Key(k2) + Quote(t) + "}"
  {
    Joined("{", Key(k1), v, "}");
    Joined("{", Key(k2), Quote(t), "}");
    JoinedTwice("{" + Key(k1), v, ",", Key(k2), Quote(t), "}");
    Joined("{", Key(k1), v, "," + Key(k2) + (Quote(t) + "}"));
  }

  lemma Joined(a: string, b: string, c: string, d: string)
    ensures a + (b + (c + d)) == a + b + c + d
  {
  }

  lemma JoinedTwice(a: string, b: string, c: string, d: string, e: string, f: string)
    ensures a + b + ((c + d) + (e + f)) == a + b + c + d + e + f
  {
  }

  /** The part of an object after the key of its second field. */
  function ParseLastField<A>(first: Option<A>, s: string): Option<(Fields<A>, string)> {
    match ParseQuoted(s)
    case None => None
    case Some((t, rest)) => if "}" <= rest then Some((Fields(first, Some(t)), rest[1..])) else None
  }

  function ParseObject<A>(k1: string, parse: string -> Option<(A, string)>, k2: string, s: string)
    : Option<(Fields<A>, string)>
  {
    if !("{" <= s) then None
    else if Key(k1) <= s[1..] then
      match parse(s[1..][|Key(k1)|..])
      case None => None
      case Some((a, rest)) =>
        if "}" <= rest then Some((Fields(Some(a), None), rest[1..]))
        else if "," + Key(k2) <= rest then ParseLastField(Some(a), rest[|"," + Key(k2)|..])
        else None
    else if Key(k2) <= s[1..] then ParseLastField(None, s[1..][|Key(k2)|..])
    else if "}" <= s[1..] then Some((Fields(None, None), s[1..][1..]))
    else None
  }

  lemma Stripped(p: string, rest: string)
    ensures p <= p + rest && (p + rest)[|p|..] == rest
  {
  }

  lemma Regrouped(a: string, b: string, c: string)
    ensures (a + b) + c == a + (b + c)
  {
  }

  lemma Regrouped3(a: string, b: string, c: string, d: string, e: string)
    ensures (a + (b + (c + d))) + e == a + (b + (c + (d + e)))
  {
    Regrouped(a, b + (c + d), e);
    Regrouped(b, c + d, e);
    Regrouped(c, d, e);
  }

  lemma LastFieldRoundTrip<A>(first: Option<A>, t: string, rest: string)
    ensures ParseLastField(first, Quote(t) + ("}" + rest)) == Some((Fields(first, Some(t)), rest))
  {
    QuotedRoundTrip(t, "}" + rest);
    Stripped("}", rest);
  }

  /** Pushes what follows an object inside its printed form. */
  lemma ObjectThen(k1: string, printed: Option<string>, k2: string, second: Option<string>, rest: string)
    ensures PrintObject(k1, printed, k2, second) + rest ==
            match (printed, second)
            case (None, None) => "{" + ("}" + rest)
            case (Some(v), None) => "{" + (Key(k1) + (v + ("}" + rest)))
            case (None, Some(t)) => "{" + (Key(k2) + (Quote(t) + ("}" + rest)))
            case (Some(v), Some(t)) => "{" + (Key(k1) + (v + (("," + Key(k2)) + (Quote(t) + ("}" + rest)))))
  {
    match (printed, second)
    case (None, None) => Regrouped("{", "}", rest);
    case (Some(v), None) => Regrouped3("{", Key(k1), v, "}", rest);
    case (None, Some(t)) => Regrouped3("{", Key(k2), Quote(t), "}", rest);
    case (Some(v), Some(t)) =>
      Regrouped3("{", Key(k1), v, ("," + Key(k2)) + (Quote(t) + "}"), rest);
      Regrouped("," + Key(k2), Quote(t) + "}", rest);
      Regrouped(Quote(t), "}", rest);
  }

  lemma NoFields<A>(k1: string, parse: string -> Option<(A, string)>, k2: string, rest: string)
    ensures ParseObject(k1, parse, k2, "{" + ("}" + rest)) == Some((Fields(None, None), rest))
  {
    Stripped("{", "}" + rest);
    Stripped("}", rest);
    assert Key(k1)[0] == Key(k2)[0] == '"' && ("}" + rest)[0] == '}';
  }

  lemma LastFieldOnly<A>(k1: string, parse: string -> Option<(A, string)>, k2: string, t: string, rest: string)
    requires k1 != "" && k2 != "" && k1[0] != k2[0]
    ensures ParseObject(k1, parse, k2, "{" + (Key(k2) + (Quote(t) + ("}" + rest)))) ==
              Some((Fields(None, Some(t)), rest))
  {
    var body := Quote(t) + ("}" + rest);
    var s := "{" + (Key(k2) + body);
    Stripped("{", Key(k2) + body);
    Stripped(Key(k2), body);
    assert s[1..][1] == k2[0] && Key(k1)[1] == k1[0];
    LastFieldRoundTrip<A>(None, t, rest);
  }

  lemma FirstFieldOnly<A>(k1: string, v: string, a: A, parse: string -> Option<(A, string)>, k2: string, rest: string)
    requires parse(v + ("}" + rest)) == Some((a, "}" + rest))
    ensures ParseObject(k1, parse, k2, "{" + (Key(k1) + (v + ("}" + rest)))) == Some((Fields(Some(a), None), rest))
  {
    var body := v + ("}" + rest);
    Stripped("{", Key(k1) + body);
    Stripped(Key(k1), body);
    Stripped("}", rest);
  }

  lemma BothFields<A>(k1: string, v: string, a: A, parse: string -> Option<(A, string)>, k2: string, t: string,
                      rest: string)
    requires var tail := ("," + Key(k2)) + (Quote(t) + ("}" + rest)); parse(v + tail) == Some((a, tail))
    ensures ParseObject(k1, parse, k2, "{" + (Key(k1) + (v + (("," + Key(k2)) + (Quote(t) + ("}" + rest))))))
            == Some((Fields(Some(a), Some(t)), rest))
  {
    var last := Quote(t) + ("}" + rest);
    var sep := "," + Key(k2);
    Stripped("{", Key(k1) + (v + (sep + last)));
    Stripped(Key(k1), v + (sep + last));
    Stripped(sep, last);
    assert (sep + last)[0] == ',';
    LastFieldRoundTrip(Some(a), t, rest);
  }

  /** Printing then parsing an object gives back its fields and leaves exactly what followed it. */
  lemma ObjectRoundTrip<A>( k1: string, printed: Option<string>, value: Option<A>, parse: string -> Option<(A, string)>,
                           k2: string, second: Option<string>, rest: string)
    requires k1 != "" && k2 != "" && k1[0] != k2[0]
    requires printed.Some? <==> value.Some?
    requires printed.Some? ==> forall tail :: parse(printed.value + tail) == Some((value.value, tail))
    ensures ParseObject(k1, parse, k2, PrintObject(k1, printed, k2, second) + rest) ==
              Some((Fields(value, second), rest))
  {
    ObjectThen(k1, printed, k2, second, rest);
    match (printed, second)
    case (None, None) => NoFields(k1, parse, k2, rest);
    case (Some(v), None) => FirstFieldOnly(k1, v, value.value, parse, k2, rest);
    case (None, Some(t)) => LastFieldOnly(k1, parse, k2, t, rest);
    case (Some(v), Some(t)) => BothFields(k1, v, value.value, parse, k2, t, rest);
  }
}
