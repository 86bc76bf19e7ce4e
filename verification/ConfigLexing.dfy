/**
 Scanning printed text piece by piece: what each printed token, blank and string
 literal is read back as, whatever follows it in the printer's output.
 */
module ConfigLexing {
  import opened Options
  import opened ConfigStore
  import opened ConfigActions
  import opened ConfigScanner
  import opened ConfigPrinter

  /** No @include can start here. */
  ghost predicate Calm(s: string)
  {
    var k := RunOf(s, IsSpace);
    k == |s| || s[k] != '@'
  }

  /** The rest of the text, away from the beginning of a line. */
  ghost function Rest(s: string): seq<Token>
  {
    Scan(s, false, Initial)
  }

  lemma NoInclude(s: string, bol: bool)
    requires Calm(s)
    ensures IncludeLen(s, bol) == 0
  {
  }

  lemma SameBest(s: string, rule: nat)
    requires IncludeLen(s, true) == IncludeLen(s, false) == 0
    ensures Best(s, true, rule) == Best(s, false, rule)
    ensures MatchLen(rule, s, true) == MatchLen(rule, s, false)
    decreases rule
  {
  }

  lemma SameLen(s: string, rule: int)
    requires IncludeLen(s, true) == IncludeLen(s, false) == 0
    ensures MatchLen(rule, s, true) == MatchLen(rule, s, false)
  {
  }

  /** Where no @include starts, the beginning of a line is like any other place. */
  lemma LineStart(s: string, bol: bool)
    requires Calm(s)
    ensures Scan(s, bol, Initial) == Rest(s)
  {
    hide Best, MatchLen, TokenOf;
    NoInclude(s, true);
    NoInclude(s, false);
    SameBest(s, LAST_RULE);
    SameLen(s, Best(s, false, LAST_RULE));
  }

  /** One rule of INITIAL consumes the piece t and returns at most one token. */
  lemma Lexeme(t: string, rest: string, bol: bool, r: nat)
    requires t != "" && 1 <= r <= LAST_RULE && r != 1 && r != 5 && r != 16
    requires MatchLen(r, t + rest, bol) == |t|
    requires forall q :: 1 <= q <= LAST_RULE ==> MatchLen(q, t + rest, bol) <= |t|
    requires forall q :: 1 <= q < r ==> MatchLen(q, t + rest, bol) < |t|
    requires r == 33 || r == 34 ==> |t| >= 2
    requires Calm(rest)
    ensures Scan(t + rest, bol, Initial)
         == (match TokenOf(r, t) case None => [] case Some(token) => [token]) + Rest(rest)
  {
    hide MatchLen, Best, TokenOf;
    BestIs(t + rest, bol, r, LAST_RULE);
    assert (t + rest)[..|t|] == t && (t + rest)[|t|..] == rest;
    LineStart(rest, t[|t| - 1] == '\n');
  }

  // ---------------------------------------------------------------------
  // Punctuation and blanks.
  // ---------------------------------------------------------------------

  function PunctRule(c: char): nat
  {
    match c
    case '=' => 23 case ':' => 23 case ',' => 24 case '{' => 25 case '}' => 26
    case '[' => 35 case ']' => 36 case '(' => 37 case ')' => 38 case ';' => 39
    case _ => 0
  }

  lemma NotNumber(s: string)
    requires s != "" && !IsSign(s[0]) && !IsDigit(s[0])
    ensures IntegerLen(s) == 0 && Integer64Len(s) == 0 && HexLen(s) == 0 && Hex64Len(s) == 0
    ensures s[0] != '.' ==> FloatLen(s) == 0
  {
  }

  lemma NotWord(s: string)
    requires s != "" && !NameStart(s[0])
    ensures NameLen(s) == 0 && Keyword(s, "true") == 0 && Keyword(s, "false") == 0
  {
  }

  lemma NotComment(s: string)
    requires s != "" && s[0] != '/'
    ensures Literal(s, "/*") == 0
    ensures s[0] != '#' ==> CommentLen(s) == 0
  {
  }

  /** The lengths of the one-character rules, all at once. */
  lemma CharRules(s: string, bol: bool)
    requires s != ""
    ensures MatchLen(5, s, bol) == (if s[0] == '\"' then 1 else 0)
    ensures MatchLen(24, s, bol) == (if s[0] == ',' then 1 else 0)
    ensures MatchLen(25, s, bol) == (if s[0] == '{' then 1 else 0)
    ensures MatchLen(26, s, bol) == (if s[0] == '}' then 1 else 0)
    ensures MatchLen(35, s, bol) == (if s[0] == '[' then 1 else 0)
    ensures MatchLen(36, s, bol) == (if s[0] == ']' then 1 else 0)
    ensures MatchLen(37, s, bol) == (if s[0] == '(' then 1 else 0)
    ensures MatchLen(38, s, bol) == (if s[0] == ')' then 1 else 0)
    ensures MatchLen(39, s, bol) == (if s[0] == ';' then 1 else 0)
  {
  }

  /** Which rules can match more than the catch-all, by the first character. */
  lemma Lens(s: string, bol: bool, q: nat)
    requires s != "" && 1 <= q <= LAST_RULE && IncludeLen(s, bol) == 0
    ensures
      var c := s[0];
      MatchLen(q, s, bol) <=
        if q == 1 && c == '/' then 2
        else if q == 22 && IsSpace(c) then RunOf(s, IsSpace)
        else if q == 27 && NameStart(c) then Keyword(s, "true")
        else if q == 28 && NameStart(c) then Keyword(s, "false")
        else if q == 29 && NameStart(c) then NameLen(s)
        else if q == 30 && (IsSign(c) || IsDigit(c) || c == '.') then FloatLen(s)
        else if q == 31 && (IsSign(c) || IsDigit(c)) then IntegerLen(s)
        else if q == 32 && (IsSign(c) || IsDigit(c)) then Integer64Len(s)
        else if q == 33 && IsDigit(c) then HexLen(s)
        else if q == 34 && IsDigit(c) then Hex64Len(s)
        else if q == 40 && (c == '#' || c == '/') then CommentLen(s)
        else if q == PunctRule(c) || q == 41 then 1
        else if q == 5 && c == '\"' then 1
        else if q == 21 && (c == '\n' || c == '\r' || c == '\U{000C}') then 1
        else 0
  {
    hide IncludeLen, NameLen, FloatLen, IntegerLen, Integer64Len, HexLen, Hex64Len, Keyword, CommentLen, Literal;
    CharRules(s, bol);
    var c := s[0];
    if !IsSign(c) && !IsDigit(c) {
      NotNumber(s);
    } else if IsSign(c) {
      SignNoHex(s);
    }
    if !NameStart(c) {
      NotWord(s);
    }
    if c != '/' {
      NotComment(s);
    }
    CommentOpen(s);
  }

  lemma SignNoHex(s: string)
    requires s != "" && IsSign(s[0])
    ensures HexLen(s) == 0 && Hex64Len(s) == 0
  {
  }

  lemma CommentOpen(s: string)
    ensures Literal(s, "/*") <= 2
  {
  }

  lemma Punct(c: char, rest: string, bol: bool)
    requires PunctRule(c) != 0 && Calm(rest)
    ensures TokenOf(PunctRule(c), [c]).Some?
    ensures Scan([c] + rest, bol, Initial) == [TokenOf(PunctRule(c), [c]).value] + Rest(rest)
  {
    hide MatchLen, IncludeLen;
    var s := [c] + rest;
    assert s[0] == c;
    assert RunOf(s, IsSpace) == 0;
    NoInclude(s, bol);
    forall q | 1 <= q <= LAST_RULE
      ensures MatchLen(q, s, bol) <= 1
      ensures q < PunctRule(c) ==> MatchLen(q, s, bol) == 0
    {
      Lens(s, bol, q);
    }
    PunctMatches(s, bol);
    Lexeme([c], rest, bol, PunctRule(c));
  }

  lemma PunctMatches(s: string, bol: bool)
    requires s != "" && PunctRule(s[0]) != 0
    ensures MatchLen(PunctRule(s[0]), s, bol) == 1
  {
  }

  /** A newline is skipped. */
  lemma Newline(rest: string, bol: bool)
    requires Calm(rest)
    ensures Scan("\n" + rest, bol, Initial) == Rest(rest)
  {
    hide MatchLen, IncludeLen;
    var s := "\n" + rest;
    assert s[0] == '\n';
    assert RunOf(s, IsSpace) == 0;
    NoInclude(s, bol);
    forall q | 1 <= q <= LAST_RULE
      ensures MatchLen(q, s, bol) <= 1
      ensures q < 21 ==> MatchLen(q, s, bol) == 0
    {
      Lens(s, bol, q);
    }
    NewlineMatches(s, bol);
    Lexeme("\n", rest, bol, 21);
  }

  lemma NewlineMatches(s: string, bol: bool)
    requires s != "" && s[0] == '\n'
    ensures MatchLen(21, s, bol) == 1
  {
  }

  lemma {:induction false} RunExact(t: string, rest: string, p: char -> bool)
    requires forall i :: 0 <= i < |t| ==> p(t[i])
    requires rest == "" || !p(rest[0])
    ensures RunOf(t + rest, p) == |t|
    decreases |t|
  {
    if t == "" {
      assert t + rest == rest;
    } else {
      assert (t + rest)[1..] == t[1..] + rest;
      RunExact(t[1..], rest, p);
    }
  }

  /** Blanks before anything but an @include are skipped. */
  lemma Blanks(t: string, rest: string, bol: bool)
    requires forall i :: 0 <= i < |t| ==> IsSpace(t[i])
    requires rest == "" || (!IsSpace(rest[0]) && rest[0] != '@')
    ensures Calm(t + rest)
    ensures Scan(t + rest, bol, Initial) == Rest(rest)
  {
    hide MatchLen, IncludeLen;
    var s := t + rest;
    RunExact(t, rest, IsSpace);
    if t == "" {
      assert s == rest;
      RunExact("", rest, IsSpace);
      LineStart(rest, bol);
    } else {
      assert s[0] == t[0];
      NoInclude(s, bol);
      forall q | 1 <= q <= LAST_RULE
        ensures MatchLen(q, s, bol) <= |t|
        ensures q < 22 ==> MatchLen(q, s, bol) < |t|
      {
        Lens(s, bol, q);
      }
      BlankMatches(s, bol);
      Lexeme(t, rest, bol, 22);
    }
  }

  lemma BlankMatches(s: string, bol: bool)
    ensures MatchLen(22, s, bol) == RunOf(s, IsSpace)
  {
  }

  // ---------------------------------------------------------------------
  // Names and booleans.
  // ---------------------------------------------------------------------

  predicate IsKeyword(name: string)
  {
    Keyword(name, "true") == |name| || Keyword(name, "false") == |name|
  }

  lemma WordLen(name: string, rest: string)
    requires ValidName(name) && (rest == "" || !NamePart(rest[0]))
    ensures NameLen(name + rest) == |name|
  {
    var s := name + rest;
    assert s[0] == name[0];
    assert s[1..] == name[1..] + rest;
    RunExact(name[1..], rest, NamePart);
  }

  /** A keyword found at the start of a longer word is shorter than the word. */
  lemma KeywordLen(name: string, rest: string, word: string)
    requires ValidName(name) && (rest == "" || !NamePart(rest[0]))
    requires word == "true" || word == "false"
    ensures Keyword(name + rest, word) <= |name|
    ensures Keyword(name + rest, word) == |name| ==> Keyword(name, word) == |name|
  {
    var s := name + rest;
    assert forall i :: 0 <= i < |word| ==> 'a' <= word[i] <= 'z';
    assert |name| < |s| ==> s[|name|] == rest[0];
    assert forall i :: 0 <= i < |name| ==> s[i] == name[i];
  }

  lemma WordRules(s: string, bol: bool)
    ensures MatchLen(27, s, bol) == Keyword(s, "true") && MatchLen(28, s, bol) == Keyword(s, "false")
    ensures MatchLen(29, s, bol) == NameLen(s)
  {
  }

  lemma Name(name: string, rest: string, bol: bool)
    requires ValidName(name) && !IsKeyword(name)
    requires (rest == "" || !NamePart(rest[0])) && Calm(rest)
    ensures Scan(name + rest, bol, Initial) == [TName(name)] + Rest(rest)
  {
    hide MatchLen, IncludeLen, NameLen, Keyword;
    var s := name + rest;
    assert s[0] == name[0];
    assert RunOf(s, IsSpace) == 0;
    NoInclude(s, bol);
    WordLen(name, rest);
    KeywordLen(name, rest, "true");
    KeywordLen(name, rest, "false");
    WordRules(s, bol);
    forall q | 1 <= q <= LAST_RULE
      ensures MatchLen(q, s, bol) <= |name|
      ensures q < 29 ==> MatchLen(q, s, bol) < |name|
    {
      Lens(s, bol, q);
    }
    Lexeme(name, rest, bol, 29);
  }

  lemma Boolean(b: bool, rest: string, bol: bool)
    requires (rest == "" || !NamePart(rest[0])) && Calm(rest)
    ensures Scan((if b then "true" else "false") + rest, bol, Initial)
         == [TBoolean(if b then 1 else 0)] + Rest(rest)
  {
    hide MatchLen, IncludeLen, NameLen, Keyword, TokenOf;
    var word := if b then "true" else "false";
    var s := word + rest;
    assert s[0] == word[0];
    assert RunOf(s, IsSpace) == 0;
    NoInclude(s, bol);
    WordLen(word, rest);
    KeywordLen(word, rest, "true");
    KeywordLen(word, rest, "false");
    WordRules(s, bol);
    BooleanWord(b, rest);
    BooleanToken(b, word);
    var r := if b then 27 else 28;
    forall q | 1 <= q <= LAST_RULE
      ensures MatchLen(q, s, bol) <= |word|
      ensures q < r ==> MatchLen(q, s, bol) < |word|
    {
      Lens(s, bol, q);
    }
    Lexeme(word, rest, bol, r);
  }

  lemma BooleanToken(b: bool, word: string)
    ensures TokenOf(if b then 27 else 28, word) == Some(TBoolean(if b then 1 else 0))
  {
  }

  lemma BooleanWord(b: bool, rest: string)
    ensures
      var word := if b then "true" else "false";
      Keyword(word + rest, word) == |word| && (!b ==> Keyword(word + rest, "true") == 0)
  {
    var word := if b then "true" else "false";
    var s := word + rest;
    assert forall i :: 0 <= i < |word| ==> s[i] == word[i];
    assert s[0] == word[0] && "true"[0] == 't';
  }

  // ---------------------------------------------------------------------
  // Numbers.
  // ---------------------------------------------------------------------

  /** What the printer writes after a value. */
  predicate Delimited(rest: string) { rest != "" && (rest[0] == ';' || rest[0] == ',' || rest[0] == ' ') }

  lemma {:induction false} DigitsAppend(s: string, t: string, base: nat, acc: nat)
    requires base == 10 || base == 16
    requires forall i :: 0 <= i < |s| ==> if base == 10 then IsDigit(s[i]) else IsHex(s[i])
    ensures Digits(s + t, base, acc) == Digits(t, base, Digits(s, base, acc))
    decreases |s|
  {
    if s == "" {
      assert s + t == t;
    } else {
      assert (s + t)[1..] == s[1..] + t && (s + t)[0] == s[0];
      DigitsAppend(s[1..], t, base, base * acc + DigitValue(s[0]));
    }
  }

  /** Reading back printed digits. */
  lemma {:induction false} NumberValue(n: nat, base: nat)
    requires base == 10 || base == 16
    ensures Digits(Number(n, base), base, 0) == n
    decreases n
  {
    if n >= base {
      NumberValue(n / base, base);
      var last := [DigitChar(n % base)];
      DigitsAppend(Number(n / base, base), last, base, 0);
      assert last[1..] == "";
      assert Digits(last, base, n / base) == base * (n / base) + n % base;
    } else {
      var last := [DigitChar(n)];
      assert last[1..] == "";
    }
  }

  /** Digits stop at the suffix. */
  lemma SuffixIgnored(s: string, base: nat)
    requires base == 10 || base == 16
    requires forall i :: 0 <= i < |s| ==> if base == 10 then IsDigit(s[i]) else IsHex(s[i])
    ensures Digits(s + "L", base, 0) == Digits(s, base, 0)
  {
    DigitsAppend(s, "L", base, 0);
  }

  lemma DecimalBack(i: int, suffix: string)
    requires suffix == "" || suffix == "L"
    ensures Decimal(DecimalText(i) + suffix) == i
  {
    var n := if i < 0 then -i else i;
    var t := Number(n, 10);
    NumberValue(n, 10);
    SuffixIgnored(t, 10);
    assert t + "" == t;
    if i < 0 {
      assert (DecimalText(i) + suffix)[1..] == t + suffix;
      assert (DecimalText(i) + suffix)[0] == '-';
    } else {
      assert (t + suffix)[0] == t[0];
    }
  }

  lemma IntegerBack(i: int)
    requires -TWO31 <= i < TWO31
    ensures Atoi(DecimalText(i)) == i
  {
    DecimalBack(i, "");
    assert DecimalText(i) + "" == DecimalText(i);
  }

  lemma Integer64Back(l: int)
    requires -TWO63 <= l < TWO63
    ensures Atoll(DecimalText(l) + "L") == l
  {
    DecimalBack(l, "L");
  }

  lemma HexBack(i: int)
    requires -TWO31 <= i < TWO31
    ensures HexInt(HexText(i, TWO32)) == i
  {
    hide Digits, Number, Wrap32;
    var n := i % TWO32;
    NumberValue(n, 16);
    assert HexText(i, TWO32)[2..] == Number(n, 16);
    WrapBack32(i);
  }

  lemma WrapBack32(i: int)
    requires -TWO31 <= i < TWO31
    ensures 0 <= i % TWO32 < TWO64 && Wrap32(i % TWO32) == i
  {
  }

  lemma WrapBack64(l: int)
    requires -TWO63 <= l < TWO63
    ensures 0 <= l % TWO64 < TWO64 && Wrap64(l % TWO64) == l
  {
  }

  lemma Hex64Back(l: int)
    requires -TWO63 <= l < TWO63
    ensures HexInt64(HexText(l, TWO64) + "L") == l
  {
    hide Digits, Number, Wrap64;
    var n := l % TWO64;
    NumberValue(n, 16);
    WrapBack64(l);
    SuffixIgnored(Number(n, 16), 16);
    assert (HexText(l, TWO64) + "L")[2..] == Number(n, 16) + "L";
  }

  /** The lengths that the number rules match on a printed decimal. */
  lemma DecimalLens(i: int, rest: string)
    requires rest != "" && !IsDigit(rest[0]) && rest[0] !in {'.', 'e', 'E', 'x', 'X'}
    ensures
      var t := DecimalText(i);
      var s := t + rest;
      && t != "" && (IsDigit(t[0]) || t[0] == '-')
      && IntegerLen(s) == |t| && FloatLen(s) == 0 && HexLen(s) == 0 && Hex64Len(s) == 0
  {
    var t := DecimalText(i);
    var s := t + rest;
    var d := Number(if i < 0 then -i else i, 10);
    RunExact(d, rest, IsDigit);
    assert s[0] == t[0];
    if i < 0 {
      assert s[1..] == d + rest;
    } else {
      assert s[0..] == s == d + rest;
    }
    assert s[|t|..] == rest;
    assert s[|t|] == rest[0];
    if |t| > 1 {
      assert s[1] == t[1];
    } else {
      assert s[1] == rest[0];
    }
  }

  lemma NumberRules(s: string, bol: bool)
    ensures MatchLen(31, s, bol) == IntegerLen(s) && MatchLen(32, s, bol) == Integer64Len(s)
    ensures MatchLen(33, s, bol) == HexLen(s) && MatchLen(34, s, bol) == Hex64Len(s)
  {
  }

  /** A number: no rule before r matches as much. */
  lemma NumberLexeme(t: string, rest: string, bol: bool, r: nat)
    requires t != "" && (IsDigit(t[0]) || IsSign(t[0])) && Calm(rest) && 31 <= r <= 34
    requires
      var s := t + rest;
      FloatLen(s) == 0 && MatchLen(r, s, bol) == |t|
      && IntegerLen(s) <= |t| && Integer64Len(s) <= |t| && HexLen(s) <= |t| && Hex64Len(s) <= |t|
      && (r > 31 ==> IntegerLen(s) < |t|) && (r > 32 ==> Integer64Len(s) < |t|)
      && (r > 33 ==> HexLen(s) < |t| && |t| >= 2) && (r == 33 ==> |t| >= 2)
    ensures TokenOf(r, t).Some?
    ensures Scan(t + rest, bol, Initial) == [TokenOf(r, t).value] + Rest(rest)
  {
    hide MatchLen, IncludeLen, IntegerLen, Integer64Len, HexLen, Hex64Len, FloatLen, NameLen, Keyword;
    var s := t + rest;
    assert s[0] == t[0];
    assert RunOf(s, IsSpace) == 0;
    NoInclude(s, bol);
    forall q | 1 <= q <= LAST_RULE
      ensures MatchLen(q, s, bol) <= |t|
      ensures q < r ==> MatchLen(q, s, bol) < |t|
    {
      Lens(s, bol, q);
    }
    Lexeme(t, rest, bol, r);
  }

  lemma Integer(i: int, rest: string, bol: bool)
    requires -TWO31 <= i < TWO31 && Delimited(rest) && Calm(rest)
    ensures Scan(DecimalText(i) + rest, bol, Initial) == [TInteger(i)] + Rest(rest)
  {
    hide MatchLen, IntegerLen, HexLen, Hex64Len, FloatLen, DecimalText, Atoi;
    var t := DecimalText(i);
    var s := t + rest;
    DecimalLens(i, rest);
    assert s[|t|] == rest[0];
    NumberRules(s, bol);
    NumberLexeme(t, rest, bol, 31);
    IntegerBack(i);
  }

  lemma Integer64(l: int, rest: string, bol: bool)
    requires -TWO63 <= l < TWO63 && Delimited(rest) && Calm(rest)
    ensures Scan(DecimalText(l) + "L" + rest, bol, Initial) == [TInteger64(l)] + Rest(rest)
  {
    hide MatchLen, IntegerLen, HexLen, Hex64Len, FloatLen, DecimalText, Atoll;
    var t := DecimalText(l) + "L";
    var s := t + rest;
    assert s == DecimalText(l) + ("L" + rest);
    DecimalLens(l, "L" + rest);
    assert s[|t|] == rest[0] && s[|t| - 1] == 'L';
    NumberRules(s, bol);
    NumberLexeme(t, rest, bol, 32);
    Integer64Back(l);
  }

  /** The lengths that the number rules match on printed hexadecimal. */
  lemma HexLens(n: nat, rest: string)
    requires rest != "" && !IsHex(rest[0])
    ensures
      var t := "0x" + Number(n, 16);
      var s := t + rest;
      HexLen(s) == |t| && IntegerLen(s) == 1 && Integer64Len(s) == 0 && FloatLen(s) == 0
  {
    hide HexLen, IntegerLen, Integer64Len, FloatLen, Number;
    var d := Number(n, 16);
    var s := "0x" + d + rest;
    assert s[0] == '0' && s[1] == 'x' && s[2] == d[0];
    assert s[2..] == d + rest;
    RunExact(d, rest, IsHex);
    HexStart(s);
  }

  /** What the number rules make of a text that starts like a hexadecimal number. */
  lemma HexStart(s: string)
    requires |s| >= 3 && s[0] == '0' && (s[1] == 'x' || s[1] == 'X') && IsHex(s[2])
    ensures HexLen(s) == 2 + RunOf(s[2..], IsHex)
    ensures IntegerLen(s) == 1 && Integer64Len(s) == 0 && FloatLen(s) == 0
  {
    assert s[0..] == s == "0" + s[1..];
    RunExact("0", s[1..], IsDigit);
  }

  lemma Hex(i: int, rest: string, bol: bool)
    requires -TWO31 <= i < TWO31 && Delimited(rest) && Calm(rest)
    ensures Scan(HexText(i, TWO32) + rest, bol, Initial) == [THex(i)] + Rest(rest)
  {
    hide MatchLen, IntegerLen, Integer64Len, HexLen, FloatLen, HexInt;
    var t := HexText(i, TWO32);
    var s := t + rest;
    HexLens(i % TWO32, rest);
    assert s[|t|] == rest[0];
    NumberRules(s, bol);
    NumberLexeme(t, rest, bol, 33);
    HexBack(i);
  }

  lemma Hex64(l: int, rest: string, bol: bool)
    requires -TWO63 <= l < TWO63 && Delimited(rest) && Calm(rest)
    ensures Scan(HexText(l, TWO64) + "L" + rest, bol, Initial) == [THex64(l)] + Rest(rest)
  {
    hide MatchLen, IntegerLen, Integer64Len, HexLen, FloatLen, HexInt64;
    var t := HexText(l, TWO64) + "L";
    var s := t + rest;
    assert s == HexText(l, TWO64) + ("L" + rest);
    HexLens(l % TWO64, "L" + rest);
    assert s[|t|] == rest[0] && s[|t| - 1] == 'L';
    NumberRules(s, bol);
    NumberLexeme(t, rest, bol, 34);
    Hex64Back(l);
  }

  // ---------------------------------------------------------------------
  // Strings.
  // ---------------------------------------------------------------------

  /** Collecting one ordinary character at a time is the same as collecting the run. */
  lemma OrdinaryChar(c: char, s: string, collected: string, bol: bool)
    requires Ordinary(c) && s != ""
    ensures Scan([c] + s, bol, InString(collected)) == Scan(s, bol, InString(collected + [c]))
  {
    var t := [c] + s;
    assert t[1..] == s;
    var n := RunOf(s, Ordinary);
    assert RunOf(t, Ordinary) == 1 + n;
    assert t[1 + n..] == s[n..] && t[..1 + n] == [c] + s[..n];
    assert collected + ([c] + s[..n]) == collected + [c] + s[..n];
    if n == 0 {
      assert s[0..] == s && s[..0] == "";
      assert collected + [c] + "" == collected + [c];
      StringBol(s, collected + [c], bol);
    }
  }

  lemma StringBol(s: string, collected: string, bol: bool)
    ensures Scan(s, bol, InString(collected)) == Scan(s, false, InString(collected))
  {
  }

  /** One printed escape. */
  lemma EscapedChar(c: char, s: string, collected: string, bol: bool)
    requires 0 < c as int < 256 && !(c >= ' ' && Ordinary(c))
    ensures Scan(EscapeChar(c) + s, bol, InString(collected)) == Scan(s, false, InString(collected + [c]))
  {
    var e := EscapeChar(c);
    var t := e + s;
    assert t[0] == '\\' && t[1] == e[1];
    if |e| == 4 {
      assert t[2] == e[2] && t[3] == e[3];
      assert t[1] == 'x';
      assert 16 * (c as int / 16) + c as int % 16 == c as int;
    }
    assert t[|e|..] == s;
  }

  lemma {:induction false} StringBody(x: string, collected: string, rest: string, bol: bool)
    requires forall i :: 0 <= i < |x| ==> 0 < x[i] as int < 256
    ensures Scan(EscapeText(x) + "\"" + rest, bol, InString(collected))
         == [TString(collected + x)] + Rest(rest)
    decreases |x|
  {
    hide Scan, EscapeChar;
    if x == "" {
      assert EscapeText(x) + "\"" + rest == "\"" + rest;
      assert collected + x == collected;
      StringEnd(collected, rest, bol);
    } else {
      var s := EscapeText(x[1..]) + "\"" + rest;
      assert EscapeText(x) + "\"" + rest == EscapeChar(x[0]) + s;
      StringChar(x[0], s, collected, bol);
      assert collected + [x[0]] + x[1..] == collected + x;
      StringBody(x[1..], collected + [x[0]], rest, bol);
    }
  }

  lemma StringEnd(collected: string, rest: string, bol: bool)
    ensures Scan("\"" + rest, bol, InString(collected)) == [TString(collected)] + Rest(rest)
  {
    assert ("\"" + rest)[1..] == rest;
  }

  /** One printed character is collected. */
  lemma StringChar(c: char, s: string, collected: string, bol: bool)
    requires 0 < c as int < 256 && s != ""
    ensures Scan(EscapeChar(c) + s, bol, InString(collected)) == Scan(s, bol, InString(collected + [c]))
  {
    hide Scan, EscapeChar;
    if c >= ' ' && Ordinary(c) {
      PlainChar(c);
      OrdinaryChar(c, s, collected, bol);
    } else {
      EscapedChar(c, s, collected, bol);
      StringBol(s, collected + [c], bol);
    }
  }

  lemma PlainChar(c: char)
    requires c >= ' ' && Ordinary(c)
    ensures EscapeChar(c) == [c]
  {
  }

  /** A printed string literal is read back as the string, for all bytes but NUL. */
  lemma StringLiteral(x: string, rest: string, bol: bool)
    requires forall i :: 0 <= i < |x| ==> 0 < x[i] as int < 256
    ensures Scan("\"" + EscapeText(x) + "\"" + rest, bol, Initial) == [TString(x)] + Rest(rest)
  {
    hide MatchLen, IncludeLen, EscapeText;
    var s := "\"" + EscapeText(x) + "\"" + rest;
    assert s[0] == '\"';
    assert s[1..] == EscapeText(x) + "\"" + rest;
    assert RunOf(s, IsSpace) == 0;
    NoInclude(s, bol);
    forall q | 1 <= q <= LAST_RULE
      ensures MatchLen(q, s, bol) <= 1
      ensures q < 5 ==> MatchLen(q, s, bol) < 1
    {
      Lens(s, bol, q);
    }
    CharRules(s, bol);
    BestIs(s, bol, 5, LAST_RULE);
    StringBody(x, "", rest, false);
    assert "" + x == x;
  }
}
