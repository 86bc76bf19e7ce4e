/**
 The scanner of libconfig: the patterns of scanner.l under the rule "longest
 match, then earliest rule", the start conditions for strings and comments, and
 the conversion of matched text to token values.
 */
module ConfigScanner {
  import opened Options
  import opened ConfigStore
  import opened ConfigActions

  // ---------------------------------------------------------------------
  // Numbers.
  // ---------------------------------------------------------------------

  const TWO31 := 0x8000_0000
  const TWO32 := 0x1_0000_0000
  const TWO63 := 0x8000_0000_0000_0000
  const TWO64 := 0x1_0000_0000_0000_0000

  /** Conversion to a signed 32-bit or 64-bit integer. */
  function Wrap32(x: int): int { (x + TWO31) % TWO32 - TWO31 }
  function Wrap64(x: int): int { (x + TWO63) % TWO64 - TWO63 }

  function Clamp(x: int, lo: int, hi: int): int
  {
    if x < lo then lo else if x > hi then hi else x
  }

  predicate IsHex(c: char) { IsDigit(c) || 'A' <= c <= 'F' || 'a' <= c <= 'f' }

  function DigitValue(c: char): (d: nat)
    requires IsHex(c)
    ensures d < 16 && (IsDigit(c) ==> d < 10)
  {
    if IsDigit(c) then c as int - '0' as int
    else if 'A' <= c <= 'F' then c as int - 'A' as int + 10
    else c as int - 'a' as int + 10
  }

  /** The value of the leading digits in a base, as strtol reads them. */
  function Digits(s: string, base: nat, acc: nat): nat
    requires base == 10 || base == 16
  {
    if s == "" || !(if base == 10 then IsDigit(s[0]) else IsHex(s[0])) then acc
    else Digits(s[1..], base, base * acc + DigitValue(s[0]))
  }

  predicate IsSign(c: char) { c == '-' || c == '+' }

  function Decimal(s: string): int
  {
    if s != "" && s[0] == '-' then 0 - Digits(s[1..], 10, 0)
    else if s != "" && s[0] == '+' then Digits(s[1..], 10, 0)
    else Digits(s, 10, 0)
  }

  /** atoi, as strtol followed by conversion to int; atoll; and the hexadecimal forms. */
  function Atoi(s: string): int { Wrap32(Clamp(Decimal(s), -TWO63, TWO63 - 1)) }
  function Atoll(s: string): int { Clamp(Decimal(s), -TWO63, TWO63 - 1) }
  function HexInt(s: string): int
    requires |s| >= 2
  {
    Wrap32(Clamp(Digits(s[2..], 16, 0), 0, TWO64 - 1))
  }
  function HexInt64(s: string): int
    requires |s| >= 2
  {
    Wrap64(Clamp(Digits(s[2..], 16, 0), 0, TWO64 - 1))
  }

  // ---------------------------------------------------------------------
  // Patterns: the length of the longest match at the start of a text, 0 if none.
  // ---------------------------------------------------------------------

  function RunOf(s: string, p: char -> bool): (n: nat)
    ensures n <= |s|
    ensures forall i :: 0 <= i < n ==> p(s[i])
    ensures n < |s| ==> !p(s[n])
  {
    if s == "" || !p(s[0]) then 0 else 1 + RunOf(s[1..], p)
  }

  predicate IsSpace(c: char) { c == ' ' || c == '\t' }
  predicate NotNewline(c: char) { c != '\n' }
  predicate Ordinary(c: char) { c != '\"' && c != '\\' }

  predicate StartsWith(s: string, t: string) { |t| <= |s| && s[..|t|] == t }

  function Literal(s: string, t: string): (n: nat)
    ensures n <= |s|
  {
    if StartsWith(s, t) then |t| else 0
  }

  function Lower(c: char): char { if 'A' <= c <= 'Z' then c - 'A' + 'a' else c }

  /** A keyword in any letter case. */
  function Keyword(s: string, word: string): (n: nat)
    ensures n <= |s|
  {
    if |word| <= |s| && forall i :: 0 <= i < |word| ==> Lower(s[i]) == word[i] then |word| else 0
  }

  function NameLen(s: string): (n: nat)
    ensures n <= |s|
  {
    if s == "" || !NameStart(s[0]) then 0 else 1 + RunOf(s[1..], NamePart)
  }

  function SignLen(s: string): (n: nat)
    ensures n <= |s|
  {
    if s != "" && IsSign(s[0]) then 1 else 0
  }

  function IntegerLen(s: string): (n: nat)
    ensures n <= |s|
  {
    var k := SignLen(s);
    var d := RunOf(s[k..], IsDigit);
    if d == 0 then 0 else k + d
  }

  /** L or LL after a number of length n. */
  function LongSuffix(s: string, n: nat): (r: nat)
    requires n <= |s|
    ensures r <= |s|
  {
    if n == 0 || n == |s| || s[n] != 'L' then 0
    else if n + 1 < |s| && s[n + 1] == 'L' then n + 2
    else n + 1
  }

  function Integer64Len(s: string): (n: nat)
    ensures n <= |s|
  {
    LongSuffix(s, IntegerLen(s))
  }

  function HexLen(s: string): (n: nat)
    ensures n <= |s|
  {
    if |s| < 3 || s[0] != '0' || (s[1] != 'x' && s[1] != 'X') || !IsHex(s[2]) then 0
    else 2 + RunOf(s[2..], IsHex)
  }

  function Hex64Len(s: string): (n: nat)
    ensures n <= |s|
  {
    LongSuffix(s, HexLen(s))
  }

  /** The exponent part [eE][-+]?[0-9]+ */
  function ExponentLen(s: string): (n: nat)
    ensures n <= |s|
  {
    if s == "" || (s[0] != 'e' && s[0] != 'E') then 0
    else
      var d := IntegerLen(s[1..]);
      if d == 0 then 0 else 1 + d
  }

  /** Sign, digits, a point and digits with an optional exponent; or digits with an exponent. */
  function FloatLen(s: string): (n: nat)
    ensures n <= |s|
  {
    var k := SignLen(s);
    var d := RunOf(s[k..], IsDigit);
    var m := k + d;
    if m < |s| && s[m] == '.' then
      var f := m + 1 + RunOf(s[m + 1..], IsDigit);
      f + ExponentLen(s[f..])
    else if d > 0 && ExponentLen(s[m..]) > 0 then m + ExponentLen(s[m..])
    else 0
  }

  /** A comment to the end of a line that does end with a newline. */
  function CommentLen(s: string): (n: nat)
    ensures n <= |s|
  {
    if StartsWith(s, "#") || StartsWith(s, "//") then
      var n := RunOf(s, NotNewline);
      if n < |s| then n else 0
    else 0
  }

  const INCLUDE: string := "@include"

  /** @include and an opening quote, at the beginning of a line. */
  function IncludeLen(s: string, bol: bool): (n: nat)
    ensures n <= |s|
  {
    var k := RunOf(s, IsSpace);
    if !bol || !StartsWith(s[k..], INCLUDE) then 0
    else
      var m := k + |INCLUDE|;
      var d := RunOf(s[m..], IsSpace);
      if d == 0 || m + d == |s| || s[m + d] != '\"' then 0 else m + d + 1
  }

  /** The rules of the start condition INITIAL, numbered as in scanner.c. */
  function MatchLen(rule: int, s: string, bol: bool): (n: nat)
    ensures n <= |s|
  {
    match rule
    case 1 => Literal(s, "/*")
    case 5 => Literal(s, "\"")
    case 16 => IncludeLen(s, bol)
    case 21 => if s != "" && (s[0] == '\n' || s[0] == '\r' || s[0] == '\U{000C}') then 1 else 0
    case 22 => RunOf(s, IsSpace)
    case 23 => if s != "" && (s[0] == '=' || s[0] == ':') then 1 else 0
    case 24 => Literal(s, ",")
    case 25 => Literal(s, "{")
    case 26 => Literal(s, "}")
    case 27 => Keyword(s, "true")
    case 28 => Keyword(s, "false")
    case 29 => NameLen(s)
    case 30 => FloatLen(s)
    case 31 => IntegerLen(s)
    case 32 => Integer64Len(s)
    case 33 => HexLen(s)
    case 34 => Hex64Len(s)
    case 35 => Literal(s, "[")
    case 36 => Literal(s, "]")
    case 37 => Literal(s, "(")
    case 38 => Literal(s, ")")
    case 39 => Literal(s, ";")
    case 40 => CommentLen(s)
    case 41 => if s != "" && s[0] != '\n' then 1 else 0
    case _ => 0
  }

  /** The earliest of the rules 1 to `rule` with the longest match. */
  function Best(s: string, bol: bool, rule: nat): (r: int)
    ensures 1 <= r
  {
    if rule <= 1 then 1
    else
      var b := Best(s, bol, rule - 1);
      if MatchLen(rule, s, bol) > MatchLen(b, s, bol) then rule else b
  }

  /** How the best rule is recognised. */
  lemma {:induction false} BestIs(s: string, bol: bool, r: nat, rule: nat)
    requires 1 <= r <= rule
    requires forall q :: 1 <= q <= rule ==> MatchLen(q, s, bol) <= MatchLen(r, s, bol)
    requires forall q :: 1 <= q < r ==> MatchLen(q, s, bol) < MatchLen(r, s, bol)
    ensures Best(s, bol, rule) == r
    decreases rule
  {
    hide MatchLen;
    if rule > r {
      BestIs(s, bol, r, rule - 1);
    } else if rule > 1 {
      BestBelow(s, bol, rule - 1);
    }
  }

  lemma {:induction false} BestBelow(s: string, bol: bool, rule: nat)
    requires 1 <= rule
    ensures 1 <= Best(s, bol, rule) <= rule
    decreases rule
  {
    hide MatchLen;
    if rule > 1 {
      BestBelow(s, bol, rule - 1);
    }
  }

  lemma {:induction false} BestLongest(s: string, bol: bool, rule: nat)
    requires 1 <= rule
    ensures Best(s, bol, rule) <= rule
    ensures forall q :: 1 <= q <= rule ==> MatchLen(q, s, bol) <= MatchLen(Best(s, bol, rule), s, bol)
    decreases rule
  {
    hide MatchLen;
    if rule > 1 {
      BestLongest(s, bol, rule - 1);
    }
  }

  const LAST_RULE := 41

  /** Some rule matches every text: the catch-all, or newline. */
  lemma Progress(s: string, bol: bool)
    requires s != ""
    ensures 1 <= MatchLen(Best(s, bol, LAST_RULE), s, bol) <= |s|
  {
    hide Best;
    BestLongest(s, bol, LAST_RULE);
    assert MatchLen(41, s, bol) >= 1 || MatchLen(21, s, bol) >= 1;
  }

  // ---------------------------------------------------------------------
  // The scanning loop.
  // ---------------------------------------------------------------------

  datatype Mode = Initial | InString(collected: string) | InComment

  /** What a matched rule of INITIAL returns, if anything. */
  function TokenOf(rule: int, text: string): Option<Token>
    requires rule == 33 || rule == 34 ==> |text| >= 2
  {
    match rule
    case 23 => Some(TEquals)
    case 24 => Some(TComma)
    case 25 => Some(TGroupStart)
    case 26 => Some(TGroupEnd)
    case 27 => Some(TBoolean(1))
    case 28 => Some(TBoolean(0))
    case 29 => Some(TName(text))
    case 30 => Some(TFloat(text))
    case 31 => Some(TInteger(Atoi(text)))
    case 32 => Some(TInteger64(Atoll(text)))
    case 33 => Some(THex(HexInt(text)))
    case 34 => Some(THex64(HexInt64(text)))
    case 35 => Some(TArrayStart)
    case 36 => Some(TArrayEnd)
    case 37 => Some(TListStart)
    case 38 => Some(TListEnd)
    case 39 => Some(TSemicolon)
    case 41 => Some(TGarbage)
    case _ => None
  }

  lemma HexHasPrefix(rule: int, s: string, bol: bool)
    ensures (rule == 33 || rule == 34) && MatchLen(rule, s, bol) > 0 ==> MatchLen(rule, s, bol) >= 2
  {
  }

  /** The text that an escape in a string stands for, and how long the escape is. */
  function Escape(s: string): (r: (string, nat))
    requires s != "" && s[0] == '\\'
    ensures 1 <= r.1 <= |s|
  {
    if |s| >= 2 && s[1] == 'n' then ("\n", 2)
    else if |s| >= 2 && s[1] == 'r' then ("\r", 2)
    else if |s| >= 2 && s[1] == 't' then ("\t", 2)
    else if |s| >= 2 && s[1] == 'f' then (['\U{000C}'], 2)
    else if |s| >= 2 && s[1] == '\\' then ("\\", 2)
    else if |s| >= 2 && s[1] == '\"' then ("\"", 2)
    else if |s| >= 4 && (s[1] == 'x' || s[1] == 'X') && IsHex(s[2]) && IsHex(s[3]) then
      var n := 16 * DigitValue(s[2]) + DigitValue(s[3]);
      (if n == 0 then "" else [n as char], 4)
    else ("\\", 1)
  }

  /** The tokens of a text. An @include is taken to name a file that cannot be opened. */
  function Scan(s: string, bol: bool, mode: Mode): seq<Token>
    decreases |s|
  {
    if s == "" then []
    else
      match mode
      case InComment =>
        if StartsWith(s, "*/") then Scan(s[2..], false, Initial) else Scan(s[1..], false, InComment)
      case InString(collected) =>
        if s[0] == '\"' then [TString(collected)] + Scan(s[1..], false, Initial)
        else if s[0] == '\\' then
          var e := Escape(s);
          Scan(s[e.1..], false, InString(collected + e.0))
        else
          var n := RunOf(s, Ordinary);
          Scan(s[n..], false, InString(collected + s[..n]))
      case Initial =>
        Progress(s, bol);
        var rule := Best(s, bol, LAST_RULE);
        var n := MatchLen(rule, s, bol);
        var bol' := s[n - 1] == '\n';
        if rule == 1 then Scan(s[n..], bol', InComment)
        else if rule == 5 then Scan(s[n..], bol', InString(""))
        else if rule == 16 then [TError]
        else
          HexHasPrefix(rule, s, bol);
          match TokenOf(rule, s[..n])
          case None => Scan(s[n..], bol', Initial)
          case Some(token) => [token] + Scan(s[n..], bol', Initial)
  }
}
