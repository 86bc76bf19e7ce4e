/**
 What the scanner makes of texts that people write and the printer does not: comments,
 numbers in all their forms, booleans in any letter case, escapes.
 */
module ConfigTexts {
  import opened Options
  import opened ConfigStore
  import opened ConfigActions
  import opened ConfigScanner
  import opened ConfigLexing

  // ---------------------------------------------------------------------
  // Characters.
  // ---------------------------------------------------------------------

  const DIGITS: set<char> := {'0', '1', '2', '3', '4', '5', '6', '7', '8', '9'}
  const CAPITALS: set<char> :=
    {'A', 'B', 'C', 'D', 'E', 'F', 'G', 'H', 'I', 'J', 'K', 'L', 'M', 'N', 'O', 'P', 'Q', 'R', 'S',
     'T', 'U', 'V', 'W', 'X', 'Y', 'Z'}
  const SMALLS: set<char> :=
    {'a', 'b', 'c', 'd', 'e', 'f', 'g', 'h', 'i', 'j', 'k', 'l', 'm', 'n', 'o', 'p', 'q', 'r', 's',
     't', 'u', 'v', 'w', 'x', 'y', 'z'}

  /** The classes of characters, listed. */
  lemma Characters(c: char)
    ensures IsDigit(c) <==> c in DIGITS
    ensures IsHex(c) <==> c in DIGITS || c in {'a', 'b', 'c', 'd', 'e', 'f'} || c in {'A', 'B', 'C', 'D', 'E', 'F'}
    ensures NameStart(c) <==> c in CAPITALS || c in SMALLS || c == '*'
    ensures NamePart(c) <==> NameStart(c) || IsDigit(c) || c in {'-', '_'}
    ensures IsSpace(c) <==> c in {' ', '\t'}
    ensures IsPathToken(c) <==> c in {':', '.', '/'}
  {
  }

  // ---------------------------------------------------------------------
  // Comments.
  // ---------------------------------------------------------------------

  /** A comment to the end of the line is skipped, up to its newline. */
  lemma LineComment(slashes: bool, c: string, rest: string, bol: bool)
    requires '\n' !in c
    ensures
      var open := if slashes then "//" else "#";
      Scan(open + c + "\n" + rest, bol, Initial) == Scan("\n" + rest, false, Initial)
  {
    hide Scan, CommentLen;
    var t, end := (if slashes then "//" else "#") + c, "\n" + rest;
    CommentText(slashes, c, end);
    assert t[0] == if slashes then '/' else '#';
    assert (if slashes then "//" else "#") + c + "\n" + rest == t + end;
    CommentLexeme(t, end, bol);
  }

  lemma CommentLexeme(t: string, end: string, bol: bool)
    requires t != "" && (t[0] == '#' || t[0] == '/') && end != "" && end[0] == '\n'
    requires CommentLen(t + end) == |t| && Literal(t + end, "/*") == 0
    ensures Scan(t + end, bol, Initial) == Scan(end, false, Initial)
  {
    hide MatchLen, CommentLen, Best, Literal;
    assert (t + end)[0] == t[0];
    CommentBounds(t + end, bol, |t|);
    CalmStart(end);
    Lexeme(t, end, bol, 40);
  }

  lemma CommentBounds(s: string, bol: bool, n: nat)
    requires s != "" && (s[0] == '#' || s[0] == '/') && CommentLen(s) == n > 0 && Literal(s, "/*") == 0
    ensures MatchLen(40, s, bol) == n
    ensures forall q :: 1 <= q <= LAST_RULE ==> MatchLen(q, s, bol) <= n
    ensures forall q :: 1 <= q < 40 ==> MatchLen(q, s, bol) < n
  {
    hide MatchLen, IncludeLen, CommentLen, Literal, NameLen, Keyword, FloatLen, IntegerLen, Integer64Len, HexLen, Hex64Len;
    assert RunOf(s, IsSpace) == 0;
    NoInclude(s, bol);
    CommentRules(s, bol);
    forall q | 1 <= q <= LAST_RULE
      ensures MatchLen(q, s, bol) <= n
      ensures q < 40 ==> MatchLen(q, s, bol) < n
    {
      Lens(s, bol, q);
    }
  }

  lemma CommentText(slashes: bool, c: string, end: string)
    requires '\n' !in c && end != "" && end[0] == '\n'
    ensures
      var t := (if slashes then "//" else "#") + c;
      CommentLen(t + end) == |t| && Literal(t + end, "/*") == 0
  {
    var t := (if slashes then "//" else "#") + c;
    var s := t + end;
    assert forall i :: 0 <= i < |c| ==> c[i] in c;
    RunExact(t, end, NotNewline);
    if slashes {
      assert s[..2] == "//";
    } else {
      assert s[..1] == "#" && s[0] == '#';
    }
  }

  lemma CommentRules(s: string, bol: bool)
    ensures MatchLen(40, s, bol) == CommentLen(s) && MatchLen(1, s, bol) == Literal(s, "/*")
  {
  }

  lemma CalmStart(s: string)
    requires s != "" && !IsSpace(s[0]) && s[0] != '@'
    ensures Calm(s)
  {
  }

  /** A comment sign on a last line without newline is no comment, but garbage. */
  lemma UnendedComment(c: string, bol: bool)
    requires '\n' !in c && Calm(c)
    ensures Scan("#" + c, bol, Initial) == [TGarbage] + Rest(c)
  {
    hide MatchLen, IncludeLen, CommentLen, Best;
    var s := "#" + c;
    assert s[0] == '#';
    assert RunOf(s, IsSpace) == 0;
    NoInclude(s, bol);
    NoNewline(s, c);
    CommentRules(s, bol);
    forall q | 1 <= q <= LAST_RULE
      ensures MatchLen(q, s, bol) <= 1
      ensures q < 41 ==> MatchLen(q, s, bol) == 0
    {
      Lens(s, bol, q);
    }
    Garbage(s, bol);
    Lexeme("#", c, bol, 41);
  }

  lemma NoNewline(s: string, c: string)
    requires s == "#" + c && '\n' !in c
    ensures CommentLen(s) == 0
  {
    assert forall i :: 0 <= i < |c| ==> c[i] in c;
    assert s + "" == s;
    RunExact(s, "", NotNewline);
  }

  lemma Garbage(s: string, bol: bool)
    requires s != "" && s[0] != '\n'
    ensures MatchLen(41, s, bol) == 1
  {
  }

  /** The first "* /" of a text is right after its first part. */
  predicate FirstEnd(body: string)
  {
    forall i :: 0 <= i < |body| ==> !StartsWith((body + "*/")[i..], "*/")
  }

  /** A comment between brackets is skipped, with everything in it. */
  lemma BlockComment(body: string, rest: string, bol: bool)
    requires FirstEnd(body)
    ensures Scan("/*" + body + "*/" + rest, bol, Initial) == Scan(rest, false, Initial)
  {
    hide MatchLen, IncludeLen, CommentLen, Best, FirstEnd;
    var s := "/*" + body + "*/" + rest;
    assert s[0] == '/' && s[1] == '*' && s[..2] == "/*";
    assert s[2..] == body + "*/" + rest;
    assert RunOf(s, IsSpace) == 0;
    NoInclude(s, bol);
    NotLineComment(s);
    CommentRules(s, bol);
    forall q | 1 <= q <= LAST_RULE
      ensures MatchLen(q, s, bol) <= 2
    {
      Lens(s, bol, q);
    }
    assert StartsWith(s, "/*") && MatchLen(1, s, bol) == 2;
    BestIs(s, bol, 1, LAST_RULE);
    CommentBody(body, rest, false);
  }

  lemma NotLineComment(s: string)
    requires |s| >= 2 && s[0] == '/' && s[1] == '*'
    ensures CommentLen(s) == 0
  {
    assert s[..1] == [s[0]] && s[..2] == [s[0], s[1]];
    assert ['/', '*'][1] != "//"[1] && ['/'][0] != "#"[0];
  }

  lemma {:induction false} CommentBody(body: string, rest: string, bol: bool)
    requires FirstEnd(body)
    ensures Scan(body + "*/" + rest, bol, InComment) == Scan(rest, false, Initial)
    decreases |body|
  {
    var s := body + "*/" + rest;
    if body == "" {
      assert s[..2] == "*/" && s[2..] == rest;
    } else {
      var tail := body[1..];
      assert s[1..] == tail + "*/" + rest;
      EndLater(body, rest);
      forall i | 0 <= i < |tail|
        ensures !StartsWith((tail + "*/")[i..], "*/")
      {
        assert (tail + "*/")[i..] == (body + "*/")[i + 1..];
      }
      CommentBody(tail, rest, false);
    }
  }

  lemma EndLater(body: string, rest: string)
    requires FirstEnd(body) && body != ""
    ensures !StartsWith(body + "*/" + rest, "*/")
  {
    var s, t := body + "*/" + rest, body + "*/";
    assert t[0..] == t && !StartsWith(t, "*/");
    assert s[..2] == t[..2];
  }

  // ---------------------------------------------------------------------
  // Numbers, by place value.
  // ---------------------------------------------------------------------

  /** The value of one digit, in any letter case. */
  function Digit(c: char): nat
    requires IsHex(c)
  {
    match c
    case '0' => 0 case '1' => 1 case '2' => 2 case '3' => 3 case '4' => 4
    case '5' => 5 case '6' => 6 case '7' => 7 case '8' => 8 case '9' => 9
    case 'a' => 10 case 'A' => 10 case 'b' => 11 case 'B' => 11 case 'c' => 12 case 'C' => 12
    case 'd' => 13 case 'D' => 13 case 'e' => 14 case 'E' => 14 case _ => 15
  }

  lemma DigitIs(c: char)
    requires IsHex(c)
    ensures Digit(c) == DigitValue(c)
  {
  }

  /** The value of digits, the last one being the ones. */
  function Value(ds: string, base: nat): nat
    requires forall i :: 0 <= i < |ds| ==> IsHex(ds[i])
  {
    if ds == "" then 0 else base * Value(ds[..|ds| - 1], base) + Digit(ds[|ds| - 1])
  }

  lemma {:induction false} DigitsAre(ds: string, base: nat, suffix: string)
    requires base == 10 || base == 16
    requires forall i :: 0 <= i < |ds| ==> IsHex(ds[i]) && (base == 10 ==> IsDigit(ds[i]))
    requires suffix == "" || !(if base == 10 then IsDigit(suffix[0]) else IsHex(suffix[0]))
    ensures Digits(ds + suffix, base, 0) == Value(ds, base)
    decreases |ds|
  {
    DigitsAppend(ds, suffix, base, 0);
    if ds == "" {
      assert Digits(ds, base, 0) == 0;
    } else {
      var n := |ds| - 1;
      var init, last := ds[..n], [ds[n]];
      DigitsAre(init, base, "");
      assert init + "" == init;
      assert ds == init + last && last[1..] == "";
      DigitsAppend(init, last, base, 0);
      DigitIs(ds[n]);
    }
  }

  /** What may follow a number. */
  predicate Stops(rest: string)
  {
    rest == "" || (!NamePart(rest[0]) && rest[0] != '.' && rest[0] != '+')
  }

  predicate Sign(sgn: string) { sgn == "" || sgn == "+" || sgn == "-" }

  predicate AllDigits(ds: string) { forall i :: 0 <= i < |ds| ==> IsDigit(ds[i]) }

  predicate AllHex(ds: string) { forall i :: 0 <= i < |ds| ==> IsHex(ds[i]) }

  predicate Suffix(l: string) { l == "L" || l == "LL" }

  function Signed(sgn: string, ds: string): int
    requires AllDigits(ds)
  {
    if sgn == "-" then 0 - Value(ds, 10) else Value(ds, 10)
  }

  /** The parts of a text that starts with a sign and digits. */
  lemma SignedParts(sgn: string, ds: string, rest: string)
    requires Sign(sgn) && AllDigits(ds) && (rest == "" || !IsDigit(rest[0]))
    requires ds != "" || (rest != "" && !IsSign(rest[0]))
    ensures
      var s := sgn + ds + rest;
      && SignLen(s) == |sgn| && s[|sgn|..] == ds + rest
      && RunOf(s[|sgn|..], IsDigit) == |ds| && s[|sgn| + |ds|..] == rest
  {
    var s := sgn + ds + rest;
    RunExact(ds, rest, IsDigit);
    assert s[|sgn|..] == ds + rest;
    assert sgn == "" ==> s[0] == if ds != "" then ds[0] else rest[0];
    assert sgn != "" ==> s[0] == sgn[0];
  }

  /** The lengths that the number rules match on sign and digits. */
  lemma SignedLens(sgn: string, ds: string, rest: string)
    requires Sign(sgn) && ds != "" && AllDigits(ds)
    requires rest == "" || (!IsDigit(rest[0]) && rest[0] !in {'.', 'e', 'E', 'x', 'X'})
    ensures
      var s := sgn + ds + rest;
      IntegerLen(s) == |sgn + ds| && FloatLen(s) == 0 && HexLen(s) == 0 && Hex64Len(s) == 0
  {
    hide SignLen, RunOf, HexLen;
    var s := sgn + ds + rest;
    SignedParts(sgn, ds, rest);
    assert rest != "" ==> s[|sgn| + |ds|] == rest[0];
    SignedNoHex(sgn, ds, rest);
  }

  lemma SignedNoHex(sgn: string, ds: string, rest: string)
    requires Sign(sgn) && AllDigits(ds) && (ds != "" || rest != "")
    requires rest != "" ==> rest[0] != 'x' && rest[0] != 'X'
    requires ds == "" ==> rest[0] != '0'
    ensures HexLen(sgn + ds + rest) == 0
  {
    var s := sgn + ds + rest;
    assert sgn != "" ==> s[0] == sgn[0];
    assert sgn == "" && |ds| > 0 ==> s[0] == ds[0];
    assert sgn == "" && |ds| > 1 ==> s[1] == ds[1];
    assert sgn == "" && |ds| == 1 && rest != "" ==> s[1] == rest[0];
    assert sgn == "" && ds == "" ==> s[0] == rest[0];
  }

  lemma SignedDecimal(sgn: string, ds: string, suffix: string)
    requires Sign(sgn) && ds != "" && AllDigits(ds) && (suffix == "" || !IsDigit(suffix[0]))
    ensures Decimal(sgn + ds + suffix) == Signed(sgn, ds)
  {
    hide Digits, Value;
    DigitsAre(ds, 10, suffix);
    var t := sgn + ds + suffix;
    if sgn == "" {
      assert t == ds + suffix && t[0] == ds[0];
    } else {
      assert t[0] == sgn[0] && t[1..] == ds + suffix;
    }
  }

  /**
   A decimal number with any sign is its value, cut to 64 bits as strtol cuts and then
   to 32 bits modulo 2^32.
   */
  lemma DecimalNumber(sgn: string, ds: string, rest: string, bol: bool) returns (i: int)
    requires Sign(sgn) && ds != "" && AllDigits(ds) && Stops(rest) && Calm(rest)
    ensures Scan(sgn + ds + rest, bol, Initial) == [TInteger(i)] + Rest(rest)
    ensures
      var v := Signed(sgn, ds);
      var l := if v < -TWO63 then -TWO63 else if v >= TWO63 then TWO63 - 1 else v;
      -TWO31 <= i < TWO31 && (l - i) % TWO32 == 0
    ensures -TWO31 <= Signed(sgn, ds) < TWO31 ==> i == Signed(sgn, ds)
  {
    hide MatchLen, IntegerLen, HexLen, Hex64Len, FloatLen, Decimal, Signed;
    var t := sgn + ds;
    var s := t + rest;
    SignedLens(sgn, ds, rest);
    assert rest != "" ==> s[|t|] == rest[0];
    NumberRules(s, bol);
    assert t[0] == if sgn == "" then ds[0] else sgn[0];
    NumberLexeme(t, rest, bol, 31);
    SignedDecimal(sgn, ds, "");
    assert t + "" == t;
    i := Atoi(t);
    WrapCongruent(Clamp(Signed(sgn, ds), -TWO63, TWO63 - 1));
  }

  lemma WrapCongruent(x: int)
    ensures -TWO31 <= Wrap32(x) < TWO31 && (x - Wrap32(x)) % TWO32 == 0
    ensures -TWO31 <= x < TWO31 ==> Wrap32(x) == x
  {
  }

  /** With L or LL it is a 64-bit integer. */
  lemma DecimalNumber64(sgn: string, ds: string, l: string, rest: string, bol: bool)
    requires Sign(sgn) && ds != "" && AllDigits(ds) && Suffix(l) && Stops(rest) && Calm(rest)
    ensures
      var v := Signed(sgn, ds);
      var i := if v < -TWO63 then -TWO63 else if v >= TWO63 then TWO63 - 1 else v;
      Scan(sgn + ds + l + rest, bol, Initial) == [TInteger64(i)] + Rest(rest)
  {
    hide MatchLen, IntegerLen, HexLen, Hex64Len, FloatLen, Decimal, Signed;
    var t := sgn + ds + l;
    var s := t + rest;
    assert s == sgn + ds + (l + rest);
    SignedLens(sgn, ds, l + rest);
    SuffixLen(s, |sgn + ds|, l, rest);
    NumberRules(s, bol);
    assert t[0] == if sgn == "" then ds[0] else sgn[0];
    NumberLexeme(t, rest, bol, 32);
    SignedDecimal(sgn, ds, l);
  }

  lemma SuffixLen(s: string, n: nat, l: string, rest: string)
    requires 0 < n <= |s| && s[n..] == l + rest && Suffix(l) && (rest == "" || rest[0] != 'L')
    ensures LongSuffix(s, n) == n + |l|
  {
    assert s[n] == s[n..][0];
    assert n + 1 < |s| ==> s[n + 1] == s[n..][1];
  }

  /** A hexadecimal number, with 0x or 0X and digits in any case. */
  lemma HexNumber(x: char, ds: string, rest: string, bol: bool) returns (i: int)
    requires (x == 'x' || x == 'X') && ds != "" && AllHex(ds) && Stops(rest) && Calm(rest)
    ensures Scan("0" + [x] + ds + rest, bol, Initial) == [THex(i)] + Rest(rest)
    ensures
      var v := Value(ds, 16);
      -TWO31 <= i < TWO31 && ((if v >= TWO64 then TWO64 - 1 else v) - i) % TWO32 == 0
  {
    hide MatchLen, IntegerLen, Integer64Len, HexLen, FloatLen, HexInt;
    var t := "0" + [x] + ds;
    var s := t + rest;
    HexTextLens(x, ds, rest);
    assert rest != "" ==> s[|t|] == rest[0];
    NumberRules(s, bol);
    NumberLexeme(t, rest, bol, 33);
    i := HexInt(t);
    assert t[2..] == ds;
    HexWrap(t, ds, "");
  }

  lemma HexWrap(t: string, ds: string, suffix: string)
    requires |t| >= 2 && AllHex(ds) && t[2..] == ds + suffix && (suffix == "" || Suffix(suffix))
    ensures
      var v := Value(ds, 16);
      var u := if v >= TWO64 then TWO64 - 1 else v;
      HexInt(t) == Wrap32(u) && HexInt64(t) == Wrap64(u)
      && -TWO31 <= Wrap32(u) < TWO31 && (u - Wrap32(u)) % TWO32 == 0
      && -TWO63 <= Wrap64(u) < TWO63 && (u - Wrap64(u)) % TWO64 == 0
  {
    hide Digits, Value, Wrap32, Wrap64;
    DigitsAre(ds, 16, suffix);
    var u := Clamp(Value(ds, 16), 0, TWO64 - 1);
    WrapCongruent(u);
    WrapCongruent64(u);
  }

  lemma WrapCongruent64(x: int)
    ensures -TWO63 <= Wrap64(x) < TWO63 && (x - Wrap64(x)) % TWO64 == 0
  {
  }

  /** With L or LL it has 64 bits. */
  lemma HexNumber64(x: char, ds: string, l: string, rest: string, bol: bool) returns (i: int)
    requires (x == 'x' || x == 'X') && ds != "" && AllHex(ds) && Suffix(l) && Stops(rest) && Calm(rest)
    ensures Scan("0" + [x] + ds + l + rest, bol, Initial) == [THex64(i)] + Rest(rest)
    ensures
      var v := Value(ds, 16);
      -TWO63 <= i < TWO63 && ((if v >= TWO64 then TWO64 - 1 else v) - i) % TWO64 == 0
  {
    hide MatchLen, IntegerLen, Integer64Len, HexLen, Hex64Len, FloatLen, HexInt64, Scan, Value, LongSuffix, AllHex;
    var t := "0" + [x] + ds + l;
    assert t[0] == '0' && t[2..] == ds + l;
    Hex64Lens(x, ds, l, rest);
    NumberRules(t + rest, bol);
    NumberLexeme(t, rest, bol, 34);
    i := HexInt64(t);
    HexWrap(t, ds, l);
  }

  lemma Hex64Lens(x: char, ds: string, l: string, rest: string)
    requires (x == 'x' || x == 'X') && ds != "" && AllHex(ds) && Suffix(l) && Stops(rest)
    ensures
      var t := "0" + [x] + ds + l;
      var s := t + rest;
      Hex64Len(s) == |t| && HexLen(s) < |t| && IntegerLen(s) == 1 && Integer64Len(s) == 0 && FloatLen(s) == 0
  {
    hide IntegerLen, Integer64Len, HexLen, FloatLen, LongSuffix;
    var h := "0" + [x] + ds;
    var s := h + l + rest;
    assert s == h + (l + rest);
    HexTextLens(x, ds, l + rest);
    assert s[|h|..] == l + rest;
    SuffixLen(s, |h|, l, rest);
  }

  lemma HexTextLens(x: char, ds: string, rest: string)
    requires (x == 'x' || x == 'X') && ds != "" && AllHex(ds) && (rest == "" || !IsHex(rest[0]))
    ensures
      var t := "0" + [x] + ds;
      var s := t + rest;
      HexLen(s) == |t| && IntegerLen(s) == 1 && Integer64Len(s) == 0 && FloatLen(s) == 0
  {
    hide HexLen, IntegerLen, Integer64Len, FloatLen;
    var s := "0" + [x] + ds + rest;
    assert s[0] == '0' && s[1] == x && s[2] == ds[0];
    assert s[2..] == ds + rest;
    RunExact(ds, rest, IsHex);
    HexStart(s);
  }

  // ---------------------------------------------------------------------
  // Floats.
  // ---------------------------------------------------------------------

  /** An exponent: the letter, a sign if any, and digits. */
  predicate Exponent(e: string, letter: char, sgn: string, ds: string)
  {
    (letter == 'e' || letter == 'E') && Sign(sgn) && ds != "" && AllDigits(ds) && e == [letter] + sgn + ds
  }

  lemma ExponentIs(letter: char, sgn: string, ds: string, rest: string)
    requires Exponent([letter] + sgn + ds, letter, sgn, ds) && (rest == "" || !IsDigit(rest[0]))
    ensures ExponentLen([letter] + sgn + ds + rest) == 1 + |sgn| + |ds|
  {
    hide SignLen, RunOf;
    var s := [letter] + sgn + ds + rest;
    assert s[1..] == sgn + ds + rest;
    SignedParts(sgn, ds, rest);
  }

  lemma NoExponent(rest: string)
    requires Stops(rest)
    ensures ExponentLen(rest) == 0
  {
  }

  /** The token of a text that the float rule matches. */
  lemma FloatLexeme(t: string, rest: string, bol: bool)
    requires t != "" && (IsDigit(t[0]) || IsSign(t[0]) || t[0] == '.') && Calm(rest)
    requires
      var s := t + rest;
      FloatLen(s) == |t| && IntegerLen(s) <= |t| && Integer64Len(s) == 0 && HexLen(s) == 0 && Hex64Len(s) == 0
    ensures Scan(t + rest, bol, Initial) == [TFloat(t)] + Rest(rest)
  {
    hide MatchLen, IncludeLen, IntegerLen, Integer64Len, HexLen, Hex64Len, FloatLen, NameLen, Keyword;
    var s := t + rest;
    assert s[0] == t[0];
    assert RunOf(s, IsSpace) == 0;
    NoInclude(s, bol);
    FloatRule(s, bol);
    forall q | 1 <= q <= LAST_RULE
      ensures MatchLen(q, s, bol) <= |t|
      ensures q < 30 ==> MatchLen(q, s, bol) < |t|
    {
      Lens(s, bol, q);
    }
    Lexeme(t, rest, bol, 30);
  }

  lemma FloatRule(s: string, bol: bool)
    ensures MatchLen(30, s, bol) == FloatLen(s)
  {
  }

  /** Sign, digits, a point, digits and an exponent; all but the point may be missing. */
  lemma FloatWithPoint(sgn: string, a: string, b: string, e: string, rest: string, bol: bool,
                       letter: char, esgn: string, eds: string)
    requires Sign(sgn) && AllDigits(a) && AllDigits(b) && (e == "" || Exponent(e, letter, esgn, eds))
    requires Stops(rest) && Calm(rest)
    ensures Scan(sgn + a + "." + b + e + rest, bol, Initial) == [TFloat(sgn + a + "." + b + e)] + Rest(rest)
  {
    hide Scan, FloatLen, IntegerLen, Integer64Len, HexLen, Hex64Len, Exponent;
    var t := sgn + a + "." + b + e;
    PointLens(sgn, a, b, e, rest, letter, esgn, eds);
    assert t[0] == if sgn != "" then sgn[0] else if a != "" then a[0] else '.';
    FloatLexeme(t, rest, bol);
  }

  lemma PointLens(sgn: string, a: string, b: string, e: string, rest: string,
                  letter: char, esgn: string, eds: string)
    requires Sign(sgn) && AllDigits(a) && AllDigits(b) && (e == "" || Exponent(e, letter, esgn, eds)) && Stops(rest)
    ensures
      var t := sgn + a + "." + b + e;
      var s := t + rest;
      FloatLen(s) == |t| && IntegerLen(s) <= |t| && Integer64Len(s) == 0 && HexLen(s) == 0 && Hex64Len(s) == 0
  {
    hide SignLen, RunOf, HexLen, Hex64Len, ExponentLen, FloatLen, IntegerLen, Integer64Len, Exponent, Sign;
    var s := sgn + a + "." + b + e + rest;
    var tail := "." + b + e + rest;
    PointText(sgn, a, b, e, rest);
    SignedParts(sgn, a, tail);
    SignedNoHex(sgn, a, tail);
    var m := |sgn| + |a|;
    ExponentOr(e, rest, letter, esgn, eds);
    RunExact(b, e + rest, IsDigit);
    PointAt(s, m, |b|, |e|);
  }

  lemma PointText(sgn: string, a: string, b: string, e: string, rest: string)
    ensures
      var s := sgn + a + "." + b + e + rest;
      var m := |sgn| + |a|;
      && s == sgn + a + ("." + b + e + rest) && ("." + b + e + rest)[0] == '.'
      && s[m] == '.' && s[m + 1..] == b + (e + rest) && s[m + 1 + |b|..] == e + rest
  {
    var p, q := sgn + a, b + (e + rest);
    Grouped(p, b, e, rest);
    assert (p + ("." + q))[|p|..] == "." + q && ("." + q)[1..] == q;
    assert (p + ("." + q))[|p| + 1..] == q;
    assert q[|b|..] == e + rest;
    assert (p + ("." + q))[|p| + 1 + |b|..] == q[|b|..];
  }

  lemma Grouped(p: string, b: string, e: string, rest: string)
    ensures p + "." + b + e + rest == p + ("." + (b + (e + rest)))
    ensures "." + b + e + rest == "." + (b + (e + rest))
  {
  }

  lemma ExponentOr(e: string, rest: string, letter: char, sgn: string, ds: string)
    requires (e == "" || Exponent(e, letter, sgn, ds)) && Stops(rest)
    ensures ExponentLen(e + rest) == |e| && (e + rest == "" || !IsDigit((e + rest)[0]))
  {
    hide ExponentLen;
    if e == "" {
      assert e + rest == rest;
      NoExponent(rest);
    } else {
      ExponentIs(letter, sgn, ds, rest);
    }
  }

  /** The float rule on a text with a point after m characters. */
  lemma PointAt(s: string, m: nat, b: nat, e: nat)
    requires SignLen(s) + RunOf(s[SignLen(s)..], IsDigit) == m && m < |s| && s[m] == '.'
    requires RunOf(s[m + 1..], IsDigit) == b && m + 1 + b + e <= |s|
    requires ExponentLen(s[m + 1 + b..]) == e && HexLen(s) == 0
    ensures FloatLen(s) == m + 1 + b + e && IntegerLen(s) <= m && Integer64Len(s) == 0 && Hex64Len(s) == 0
  {
    hide SignLen, RunOf, HexLen, ExponentLen;
  }

  /** Digits with an exponent and no point. */
  lemma FloatWithoutPoint(sgn: string, a: string, rest: string, bol: bool,
                          letter: char, esgn: string, eds: string)
    requires Sign(sgn) && a != "" && AllDigits(a) && Exponent([letter] + esgn + eds, letter, esgn, eds)
    requires Stops(rest) && Calm(rest)
    ensures
      var t := sgn + a + ([letter] + esgn + eds);
      Scan(t + rest, bol, Initial) == [TFloat(t)] + Rest(rest)
  {
    hide Scan, FloatLen, IntegerLen, Integer64Len, HexLen, Hex64Len;
    var t := sgn + a + ([letter] + esgn + eds);
    PlainLens(sgn, a, rest, letter, esgn, eds);
    assert t[0] == if sgn != "" then sgn[0] else a[0];
    FloatLexeme(t, rest, bol);
  }

  lemma PlainLens(sgn: string, a: string, rest: string, letter: char, esgn: string, eds: string)
    requires Sign(sgn) && a != "" && AllDigits(a) && Exponent([letter] + esgn + eds, letter, esgn, eds)
    requires Stops(rest)
    ensures
      var t := sgn + a + ([letter] + esgn + eds);
      var s := t + rest;
      FloatLen(s) == |t| && IntegerLen(s) <= |t| && Integer64Len(s) == 0 && HexLen(s) == 0 && Hex64Len(s) == 0
  {
    hide SignLen, RunOf, HexLen, Hex64Len, ExponentLen, FloatLen, IntegerLen, Integer64Len, Sign;
    var e := [letter] + esgn + eds;
    var tail := e + rest;
    PlainText(sgn, a, e, rest);
    assert tail[0] == letter;
    SignedParts(sgn, a, tail);
    SignedNoHex(sgn, a, tail);
    ExponentIs(letter, esgn, eds, rest);
    PlainAt(sgn + a + e + rest, |sgn| + |a|, |e|, |a|);
  }

  lemma PlainText(sgn: string, a: string, e: string, rest: string)
    ensures sgn + a + e + rest == sgn + a + (e + rest)
  {
  }

  /** The float rule on a text with an exponent after m characters, d of them digits. */
  lemma PlainAt(s: string, m: nat, e: nat, d: nat)
    requires SignLen(s) + d == m < |s| && RunOf(s[SignLen(s)..], IsDigit) == d && d > 0 && e > 0
    requires (s[m] == 'e' || s[m] == 'E') && ExponentLen(s[m..]) == e && HexLen(s) == 0
    ensures FloatLen(s) == m + e && IntegerLen(s) <= m && Integer64Len(s) == 0 && Hex64Len(s) == 0
  {
    hide SignLen, RunOf, HexLen, ExponentLen;
  }

  // ---------------------------------------------------------------------
  // Booleans.
  // ---------------------------------------------------------------------

  /** The two letter cases of a letter of a keyword. */
  predicate SameLetter(c: char, l: char)
  {
    match l
    case 't' => c == 't' || c == 'T' case 'r' => c == 'r' || c == 'R' case 'u' => c == 'u' || c == 'U'
    case 'e' => c == 'e' || c == 'E' case 'f' => c == 'f' || c == 'F' case 'a' => c == 'a' || c == 'A'
    case 'l' => c == 'l' || c == 'L' case 's' => c == 's' || c == 'S'
    case _ => false
  }

  predicate SameWord(w: string, word: string)
  {
    |w| == |word| && forall i :: 0 <= i < |w| ==> SameLetter(w[i], word[i])
  }

  lemma SameLower(w: string, word: string, rest: string)
    requires SameWord(w, word) && (word == "true" || word == "false")
    ensures ValidName(w) && Keyword(w + rest, word) == |w|
    ensures word == "false" ==> Keyword(w + rest, "true") == 0
  {
    var s := w + rest;
    assert forall i :: 0 <= i < |w| ==> s[i] == w[i];
    assert SameLetter(w[0], word[0]);
    assert "true"[0] == 't';
  }

  /** true and false in any letter case. */
  lemma AnyCaseBoolean(b: bool, w: string, rest: string, bol: bool)
    requires SameWord(w, if b then "true" else "false")
    requires (rest == "" || !NamePart(rest[0])) && Calm(rest)
    ensures Scan(w + rest, bol, Initial) == [TBoolean(if b then 1 else 0)] + Rest(rest)
  {
    hide MatchLen, IncludeLen, NameLen, Keyword, TokenOf, SameWord, SameLetter;
    var word := if b then "true" else "false";
    var s := w + rest;
    SameLower(w, word, rest);
    NameStarts(w);
    assert s[0] == w[0];
    assert RunOf(s, IsSpace) == 0;
    NoInclude(s, bol);
    WordLen(w, rest);
    KeywordLen(w, rest, "true");
    KeywordLen(w, rest, "false");
    WordRules(s, bol);
    BooleanToken(b, w);
    var r := if b then 27 else 28;
    forall q | 1 <= q <= LAST_RULE
      ensures MatchLen(q, s, bol) <= |w|
      ensures q < r ==> MatchLen(q, s, bol) < |w|
    {
      Lens(s, bol, q);
    }
    Lexeme(w, rest, bol, r);
  }

  lemma NameStarts(w: string)
    requires ValidName(w)
    ensures w != "" && NameStart(w[0])
  {
  }

  // ---------------------------------------------------------------------
  // Strings.
  // ---------------------------------------------------------------------

  /** A piece of a string literal: text without quotes and backslashes, an escape, or a lone backslash. */
  datatype Piece = Run(text: string) | Newline | Return | Tab | FormFeed | Backslash | Quote | Hex(x: char, h: char, l: char)
    | Lone

  predicate PieceOk(p: Piece, next: string)
  {
    match p
    case Run(text) => forall i :: 0 <= i < |text| ==> text[i] != '\"' && text[i] != '\\'
    case Hex(x, h, l) => (x == 'x' || x == 'X') && IsHex(h) && IsHex(l)
    case Lone =>
      && next != "" && next[0] !in {'n', 'r', 't', 'f', '\\', '\"'}
      && !(|next| >= 3 && (next[0] == 'x' || next[0] == 'X') && IsHex(next[1]) && IsHex(next[2]))
    case _ => true
  }

  function PieceText(p: Piece): string
  {
    match p
    case Run(text) => text
    case Newline => "\\n" case Return => "\\r" case Tab => "\\t" case FormFeed => "\\f"
    case Backslash => "\\\\" case Quote => "\\\""
    case Hex(x, h, l) => ['\\', x, h, l]
    case Lone => "\\"
  }

  /** A byte of zero ends the text appended, so it adds nothing. */
  function PieceValue(p: Piece): string
    requires p.Hex? ==> IsHex(p.h) && IsHex(p.l)
  {
    match p
    case Run(text) => text
    case Newline => ['\n'] case Return => ['\r'] case Tab => ['\t'] case FormFeed => [12 as char]
    case Backslash => ['\\'] case Quote => ['\"']
    case Hex(_, h, l) => if Digit(h) == 0 && Digit(l) == 0 then "" else [(16 * Digit(h) + Digit(l)) as char]
    case Lone => ['\\']
  }

  /** Each piece adds its value to what was collected. */
  lemma PieceRead(p: Piece, next: string, collected: string, bol: bool)
    requires next != "" && PieceOk(p, next)
    ensures Scan(PieceText(p) + next, bol, InString(collected)) == Scan(next, bol, InString(collected + PieceValue(p)))
  {
    hide Scan;
    if p.Run? {
      RunRead(p.text, next, collected, bol);
    } else {
      EscapeIs(p, next);
      BackslashRead(PieceText(p), next, PieceValue(p), collected, bol);
    }
  }

  lemma {:induction false} RunRead(text: string, next: string, collected: string, bol: bool)
    requires next != "" && forall i :: 0 <= i < |text| ==> Ordinary(text[i])
    ensures Scan(text + next, bol, InString(collected)) == Scan(next, bol, InString(collected + text))
    decreases |text|
  {
    hide Scan;
    if text == "" {
      assert text + next == next && collected + text == collected;
    } else {
      var tail := text[1..];
      assert text + next == [text[0]] + (tail + next);
      assert collected + [text[0]] + tail == collected + text;
      OrdinaryChar(text[0], tail + next, collected, bol);
      RunRead(tail, next, collected + [text[0]], bol);
    }
  }

  lemma EscapeIs(p: Piece, next: string)
    requires !p.Run? && next != "" && PieceOk(p, next)
    ensures
      var s := PieceText(p) + next;
      s[0] == '\\' && Escape(s) == (PieceValue(p), |PieceText(p)|)
  {
    var t, s := PieceText(p), PieceText(p) + next;
    assert forall i :: 0 <= i < |t| ==> s[i] == t[i];
    match p
    case Hex(x, h, l) => DigitIs(h); DigitIs(l);
    case Lone =>
      assert s[1] == next[0];
      assert |next| >= 3 ==> s[2] == next[1] && s[3] == next[2];
    case _ =>
  }

  lemma BackslashRead(t: string, next: string, value: string, collected: string, bol: bool)
    requires t != "" && t[0] == '\\' && next != "" && Escape(t + next) == (value, |t|)
    ensures Scan(t + next, bol, InString(collected)) == Scan(next, bol, InString(collected + value))
  {
    hide Escape;
    var s := t + next;
    assert s[0] == '\\' && s[|t|..] == next;
    StringBol(next, collected + value, bol);
  }

  function PiecesText(ps: seq<Piece>): string
  {
    if ps == [] then "" else PieceText(ps[0]) + PiecesText(ps[1..])
  }

  function PiecesValue(ps: seq<Piece>): string
    requires forall i :: 0 <= i < |ps| && ps[i].Hex? ==> IsHex(ps[i].h) && IsHex(ps[i].l)
  {
    if ps == [] then "" else PieceValue(ps[0]) + PiecesValue(ps[1..])
  }

  /** The pieces of a literal that goes on with a quote and a rest. */
  predicate PiecesOk(ps: seq<Piece>, rest: string)
  {
    ps == [] || (PieceOk(ps[0], PiecesText(ps[1..]) + "\"" + rest) && PiecesOk(ps[1..], rest))
  }

  lemma {:induction false} PiecesRead(ps: seq<Piece>, rest: string, collected: string, bol: bool)
    requires PiecesOk(ps, rest)
    ensures forall i :: 0 <= i < |ps| && ps[i].Hex? ==> IsHex(ps[i].h) && IsHex(ps[i].l)
    ensures Scan(PiecesText(ps) + "\"" + rest, bol, InString(collected)) == [TString(collected + PiecesValue(ps))] + Rest(rest)
    decreases |ps|
  {
    hide Scan, PieceText, PieceValue;
    if ps == [] {
      assert PiecesText(ps) + "\"" + rest == "\"" + rest;
      assert collected + "" == collected;
      StringEnd(collected, rest, bol);
    } else {
      var next := PiecesText(ps[1..]) + "\"" + rest;
      assert PiecesText(ps) + "\"" + rest == PieceText(ps[0]) + next;
      PiecesRead(ps[1..], rest, collected + PieceValue(ps[0]), bol);
      PieceRead(ps[0], next, collected, bol);
      assert collected + PieceValue(ps[0]) + PiecesValue(ps[1..]) == collected + PiecesValue(ps);
    }
  }

  /** A whole literal. */
  lemma Literals(ps: seq<Piece>, rest: string, bol: bool)
    requires PiecesOk(ps, rest)
    ensures forall i :: 0 <= i < |ps| && ps[i].Hex? ==> IsHex(ps[i].h) && IsHex(ps[i].l)
    ensures Scan("\"" + PiecesText(ps) + "\"" + rest, bol, Initial) == [TString(PiecesValue(ps))] + Rest(rest)
  {
    hide MatchLen, IncludeLen, PiecesText, PiecesValue, Best;
    var s := "\"" + PiecesText(ps) + "\"" + rest;
    assert s[0] == '\"';
    assert s[1..] == PiecesText(ps) + "\"" + rest;
    assert RunOf(s, IsSpace) == 0;
    NoInclude(s, bol);
    forall q | 1 <= q <= LAST_RULE
      ensures MatchLen(q, s, bol) <= 1
      ensures q < 5 ==> MatchLen(q, s, bol) < 1
    {
      Lens(s, bol, q);
    }
    CharRules(s, bol);
    BestIs(s, bol, 5, LAST_RULE);
    PiecesRead(ps, rest, "", false);
    assert "" + PiecesValue(ps) == PiecesValue(ps);
  }

  // ---------------------------------------------------------------------
  // The rest.
  // ---------------------------------------------------------------------

  /** A carriage return or a form feed is skipped like a newline. */
  lemma OtherBreak(c: char, rest: string, bol: bool)
    requires (c == '\r' || c == 12 as char) && Calm(rest)
    ensures Scan([c] + rest, bol, Initial) == Rest(rest)
  {
    hide MatchLen, IncludeLen;
    var s := [c] + rest;
    assert s[0] == c;
    assert RunOf(s, IsSpace) == 0;
    NoInclude(s, bol);
    forall q | 1 <= q <= LAST_RULE
      ensures MatchLen(q, s, bol) <= 1
      ensures q < 21 ==> MatchLen(q, s, bol) == 0
    {
      Lens(s, bol, q);
    }
    BreakMatches(s, bol);
    Lexeme([c], rest, bol, 21);
  }

  lemma BreakMatches(s: string, bol: bool)
    requires s != "" && (s[0] == '\r' || s[0] == 12 as char)
    ensures MatchLen(21, s, bol) == 1
  {
  }

  /** A character that starts nothing is garbage. */
  predicate Strange(c: char)
  {
    && !NameStart(c) && !IsDigit(c) && !IsSign(c) && !IsSpace(c) && PunctRule(c) == 0
    && c !in {'.', '/', '#', '\"', '\n', '\r', 12 as char}
  }

  lemma StrangeIsGarbage(c: char, rest: string, bol: bool)
    requires Strange(c) && Calm([c] + rest) && Calm(rest)
    ensures Scan([c] + rest, bol, Initial) == [TGarbage] + Rest(rest)
  {
    hide MatchLen, IncludeLen;
    var s := [c] + rest;
    assert s[0] == c;
    assert RunOf(s, IsSpace) == 0;
    NoInclude(s, bol);
    forall q | 1 <= q <= LAST_RULE
      ensures MatchLen(q, s, bol) <= 1
      ensures q < 41 ==> MatchLen(q, s, bol) == 0
    {
      Lens(s, bol, q);
    }
    Garbage(s, bol);
    Lexeme([c], rest, bol, 41);
  }

  /** A sign without a number, and a slash without a comment, are garbage. */
  lemma LoneSign(c: char, rest: string, bol: bool)
    requires IsSign(c) && Calm(rest) && (rest == "" || (!IsDigit(rest[0]) && rest[0] != '.'))
    ensures Scan([c] + rest, bol, Initial) == [TGarbage] + Rest(rest)
  {
    hide MatchLen, IncludeLen, FloatLen, IntegerLen, Integer64Len;
    var s := [c] + rest;
    SignLens(c, rest);
    OneOrNothing(s, bol);
    assert s[1..] == rest;
    Lexeme([c], rest, bol, 41);
  }

  lemma SignLens(c: char, rest: string)
    requires IsSign(c) && (rest == "" || (!IsDigit(rest[0]) && rest[0] != '.'))
    ensures
      var s := [c] + rest;
      s[0] == c && IntegerLen(s) == 0 && Integer64Len(s) == 0 && FloatLen(s) == 0
  {
    var s := [c] + rest;
    assert s[1..] == rest;
    NoExponentAt(rest);
  }

  lemma NoExponentAt(rest: string)
    ensures rest == "" || !IsDigit(rest[0]) ==> RunOf(rest, IsDigit) == 0
  {
  }

  lemma LoneSlash(rest: string, bol: bool)
    requires Calm(rest) && (rest == "" || (rest[0] != '/' && rest[0] != '*'))
    ensures Scan("/" + rest, bol, Initial) == [TGarbage] + Rest(rest)
  {
    hide MatchLen, IncludeLen, CommentLen;
    var s := "/" + rest;
    SlashLens(rest);
    CommentRules(s, bol);
    OneOrNothing(s, bol);
    assert s[1..] == rest;
    Lexeme("/", rest, bol, 41);
  }

  lemma SlashLens(rest: string)
    requires rest == "" || (rest[0] != '/' && rest[0] != '*')
    ensures
      var s := "/" + rest;
      s[0] == '/' && CommentLen(s) == 0 && Literal(s, "/*") == 0
  {
    var s := "/" + rest;
    assert |s| > 1 ==> s[1] == rest[0];
    assert |s| > 1 ==> s[..2][1] == rest[0];
    assert s[..1][0] == '/' && "//"[1] == '/' && "/*"[1] == '*' && "#"[0] == '#';
  }

  /** When nothing but the catch-all matches. */
  lemma OneOrNothing(s: string, bol: bool)
    requires s != "" && (IsSign(s[0]) || s[0] == '/')
    requires IsSign(s[0]) ==> IntegerLen(s) == 0 && Integer64Len(s) == 0 && FloatLen(s) == 0
    requires s[0] == '/' ==> CommentLen(s) == 0 && MatchLen(1, s, bol) == 0
    ensures MatchLen(41, s, bol) == 1 && forall q :: 1 <= q < 41 ==> MatchLen(q, s, bol) == 0
  {
    hide MatchLen, IncludeLen, CommentLen, FloatLen, IntegerLen, Integer64Len, NameLen, Keyword;
    assert RunOf(s, IsSpace) == 0;
    NoInclude(s, bol);
    Garbage(s, bol);
    forall q | 1 <= q < 41
      ensures MatchLen(q, s, bol) == 0
    {
      Lens(s, bol, q);
    }
  }

  /** An at sign is garbage but for an @include at the beginning of a line. */
  lemma AtSign(rest: string, bol: bool)
    requires Calm(rest) && (bol ==> !StartsWith(rest, "include"))
    ensures Scan("@" + rest, bol, Initial) == [TGarbage] + Rest(rest)
  {
    hide MatchLen, IncludeLen, Best;
    var s := "@" + rest;
    assert s[0] == '@' && s[1..] == rest;
    NotInclude(s, bol);
    Garbage(s, bol);
    forall q | 1 <= q <= LAST_RULE
      ensures MatchLen(q, s, bol) <= 1
      ensures q < 41 ==> MatchLen(q, s, bol) == 0
    {
      Lens(s, bol, q);
    }
    Lexeme("@", rest, bol, 41);
  }

  lemma NotInclude(s: string, bol: bool)
    requires s != "" && s[0] == '@' && (bol ==> !StartsWith(s[1..], "include"))
    ensures RunOf(s, IsSpace) == 0 && IncludeLen(s, bol) == 0
  {
    assert s[0..] == s;
    if |s| >= 8 {
      assert s[..8][1..] == s[1..][..7];
      assert "@include"[1..] == "include";
    }
  }

  /** A string literal without an end yields no token, and a comment without an end neither. */
  lemma UnendedString(text: string, bol: bool)
    requires forall i :: 0 <= i < |text| ==> text[i] != '\"' && text[i] != '\\'
    ensures Scan("\"" + text, bol, Initial) == []
  {
    hide MatchLen, IncludeLen, Best;
    var s := "\"" + text;
    assert s[0] == '\"' && s[1..] == text;
    assert RunOf(s, IsSpace) == 0;
    NoInclude(s, bol);
    forall q | 1 <= q <= LAST_RULE
      ensures MatchLen(q, s, bol) <= 1
      ensures q < 5 ==> MatchLen(q, s, bol) < 1
    {
      Lens(s, bol, q);
    }
    CharRules(s, bol);
    BestIs(s, bol, 5, LAST_RULE);
    StringToEnd(text);
  }

  lemma StringToEnd(text: string)
    requires forall i :: 0 <= i < |text| ==> text[i] != '\"' && text[i] != '\\'
    ensures Scan(text, false, InString("")) == []
  {
    assert text + "" == text;
    RunExact(text, "", Ordinary);
    assert text[|text|..] == "";
  }

  lemma UnendedBlock(body: string, bol: bool)
    requires forall i :: 0 <= i < |body| ==> !StartsWith(body[i..], "*/")
    ensures Scan("/*" + body, bol, Initial) == []
  {
    hide MatchLen, IncludeLen, CommentLen, Best;
    var s := "/*" + body;
    assert s[0] == '/' && s[1] == '*' && s[..2] == "/*" && s[2..] == body;
    assert RunOf(s, IsSpace) == 0;
    NoInclude(s, bol);
    NotLineComment(s);
    CommentRules(s, bol);
    forall q | 1 <= q <= LAST_RULE
      ensures MatchLen(q, s, bol) <= 2
    {
      Lens(s, bol, q);
    }
    assert StartsWith(s, "/*") && MatchLen(1, s, bol) == 2;
    BestIs(s, bol, 1, LAST_RULE);
    CommentToEnd(body, false);
  }

  lemma {:induction false} CommentToEnd(body: string, bol: bool)
    requires forall i :: 0 <= i < |body| ==> !StartsWith(body[i..], "*/")
    ensures Scan(body, bol, InComment) == []
    decreases |body|
  {
    if body != "" {
      assert body[0..] == body;
      forall i | 0 <= i < |body[1..]|
        ensures !StartsWith(body[1..][i..], "*/")
      {
        assert body[1..][i..] == body[i + 1..];
      }
      CommentToEnd(body[1..], false);
    }
  }

  /** At the beginning of a line, @include and a quoted name end the tokens with an error. */
  lemma IncludeIsError(blanks: string, gap: string, rest: string)
    requires (forall i :: 0 <= i < |blanks| ==> IsSpace(blanks[i])) && gap != ""
    requires forall i :: 0 <= i < |gap| ==> IsSpace(gap[i])
    ensures Scan(blanks + "@include" + gap + "\"" + rest, true, Initial) == [TError]
  {
    hide MatchLen, Best, IncludeLen;
    var s := blanks + "@include" + gap + "\"" + rest;
    IncludeText(blanks, gap, rest);
    var n := |blanks| + 8 + |gap| + 1;
    IncludeRules(blanks, s, n);
    BestIs(s, true, 16, LAST_RULE);
  }

  lemma IncludeText(blanks: string, gap: string, rest: string)
    requires (forall i :: 0 <= i < |blanks| ==> IsSpace(blanks[i])) && gap != ""
    requires forall i :: 0 <= i < |gap| ==> IsSpace(gap[i])
    ensures
      var s := blanks + "@include" + gap + "\"" + rest;
      IncludeLen(s, true) == |blanks| + 8 + |gap| + 1 && RunOf(s, IsSpace) == |blanks|
      && |s| > |blanks| && s[|blanks|] == '@'
  {
    hide RunOf;
    var s := blanks + "@include" + gap + "\"" + rest;
    var tail := "@include" + (gap + ("\"" + rest));
    assert s == blanks + tail;
    IncludeTail(gap, rest);
    RunExact(blanks, tail, IsSpace);
    var k := |blanks|;
    assert s[k..] == tail && s[k + 8..] == tail[8..] && s[k] == tail[0];
    assert s[k + 8 + |gap|] == tail[8 + |gap|];
  }

  lemma IncludeTail(gap: string, rest: string)
    requires forall i :: 0 <= i < |gap| ==> IsSpace(gap[i])
    ensures
      var tail := "@include" + (gap + ("\"" + rest));
      && tail[0] == '@' && tail[..8] == "@include" && RunOf(tail[8..], IsSpace) == |gap|
      && tail[8 + |gap|] == '\"'
  {
    var tail := "@include" + (gap + ("\"" + rest));
    assert tail[8..] == gap + ("\"" + rest);
    assert tail[8 + |gap|] == tail[8..][|gap|];
    RunExact(gap, "\"" + rest, IsSpace);
  }

  /** No other rule matches as much. */
  lemma IncludeRules(blanks: string, s: string, n: nat)
    requires IncludeLen(s, true) == n && RunOf(s, IsSpace) == |blanks| && |blanks| < |s| && s[|blanks|] == '@'
    requires n > |blanks| + 8
    ensures MatchLen(16, s, true) == n
    ensures forall q :: 1 <= q <= LAST_RULE && q != 16 ==> MatchLen(q, s, true) < n
  {
    hide IncludeLen, RunOf, NameLen, FloatLen, IntegerLen, Integer64Len, HexLen, Hex64Len, Keyword, CommentLen, Literal;
    var c := s[0];
    BlankStart(s);
    assert IsSpace(c) || c == '@';
    NotNumber(s);
    NotWord(s);
    NotComment(s);
    CharRules(s, true);
    BlankMatches(s, true);
  }

  lemma BlankStart(s: string)
    requires s != "" && RunOf(s, IsSpace) < |s| && s[RunOf(s, IsSpace)] == '@'
    ensures IsSpace(s[0]) || s[0] == '@'
  {
  }
}
