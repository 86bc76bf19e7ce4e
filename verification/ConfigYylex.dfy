/**
 libconfig_yylex: the scanning loop with its start condition and string buffer,
 one token at a time.
 */
module ConfigYylex {
  import opened Options
  import opened ConfigStore
  import opened ConfigActions
  import opened ConfigList
  import opened ConfigScanner

  datatype Condition = INITIAL | COMMENT | STRING

  class Scanner {
    const text: string
    const buffer: StringBuffer
    var pos: nat
    var bol: bool
    var condition: Condition

    ghost predicate Valid()
      reads this, buffer, buffer.block
    {
      pos <= |text| && buffer.Valid() && (condition != STRING ==> buffer.Contents() == None)
    }

    /** What was collected of a string literal. */
    ghost function Collected(): string
      reads this, buffer, buffer.block
      requires Valid()
    {
      if buffer.Contents().Some? then buffer.Contents().value else ""
    }

    /** The tokens still to come. */
    ghost function Pending(): seq<Token>
      reads this, buffer, buffer.block
      requires Valid()
    {
      Scan(text[pos..], bol, CurrentMode())
    }

    ghost function CurrentMode(): Mode
      reads this, buffer, buffer.block
      requires Valid()
    {
      match condition
      case INITIAL => Initial
      case COMMENT => InComment
      case STRING => InString(Collected())
    }

    constructor (input: string)
      ensures Valid() && text == input && Pending() == Scan(input, true, Initial)
      ensures fresh(buffer) && fresh(buffer.block)
    {
      text := input;
      buffer := new StringBuffer();
      pos, bol, condition := 0, true, INITIAL;
      new;
      assert text[0..] == input;
    }

    /** One match in a comment. */
    method InCommentStep()
      requires Valid() && condition == COMMENT && pos < |text|
      modifies this
      ensures Valid() && Pending() == old(Pending()) && pos > old(pos)
    {
      var s := text[pos..];
      if StartsWith(s, "*/") {
        assert s[2..] == text[pos + 2..];
        pos, condition, bol := pos + 2, INITIAL, false;
      } else {
        assert s[1..] == text[pos + 1..];
        pos, bol := pos + 1, false;
      }
    }

    /** One match in a string literal; the closing quote yields the token. */
    method InStringStep() returns (tok: Option<Token>)
      requires Valid() && condition == STRING && pos < |text|
      modifies this, buffer, buffer.block
      ensures Valid() && pos > old(pos)
      ensures buffer.block == old(buffer.block) || fresh(buffer.block)
      ensures old(Pending()) == (if tok.Some? then [tok.value] else []) + Pending()
    {
      hide RunOf, Escape;
      var s := text[pos..];
      ghost var collected := Collected();
      tok := None;
      if s[0] == '\"' {
        var value := buffer.Release();
        tok := Some(TString(if value.Some? then value.value else ""));
        pos, condition, bol := pos + 1, INITIAL, false;
        assert text[pos..] == s[1..];
      } else if s[0] == '\\' {
        var e := Escape(s);
        buffer.Append(e.0);
        pos, bol := pos + e.1, false;
        assert text[pos..] == s[e.1..];
        assert Collected() == collected + e.0;
      } else {
        var n := RunOf(s, Ordinary);
        OrdinaryRun(s);
        buffer.Append(s[..n]);
        pos, bol := pos + n, false;
        assert text[pos..] == s[n..];
        assert Collected() == collected + s[..n];
      }
      assert [] + Pending() == Pending();
    }

    /** One match in the condition INITIAL. */
    method InitialStep() returns (tok: Option<Token>)
      requires Valid() && condition == INITIAL && pos < |text|
      modifies this
      ensures Valid() && pos > old(pos)
      ensures old(Pending()) == (if tok.Some? then [tok.value] else []) + Pending()
    {
      hide Best, MatchLen, TokenOf;
      var s := text[pos..];
      Progress(s, bol);
      var rule := Best(s, bol, LAST_RULE);
      var n := MatchLen(rule, s, bol);
      HexHasPrefix(rule, s, bol);
      tok := None;
      if rule == 16 {
        tok := Some(TError);
        pos := |text|;
        assert text[pos..] == "";
      } else {
        if rule == 1 {
          condition := COMMENT;
        } else if rule == 5 {
          condition := STRING;
        } else {
          tok := TokenOf(rule, s[..n]);
        }
        pos, bol := pos + n, s[n - 1] == '\n';
        assert text[pos..] == s[n..];
      }
      assert [] + Pending() == Pending();
    }

    /** The next token, or None at the end of the input. */
    method Lex() returns (tok: Option<Token>)
      requires Valid()
      modifies this, buffer, buffer.block
      ensures Valid()
      ensures buffer.block == old(buffer.block) || fresh(buffer.block)
      ensures tok.None? ==> old(Pending()) == []
      ensures tok.Some? ==> old(Pending()) == [tok.value] + Pending()
    {
      hide Scan;
      tok := None;
      while pos < |text|
        invariant tok.None? && Valid() && Pending() == old(Pending())
        invariant buffer.block == old(buffer.block) || fresh(buffer.block)
        decreases |text| - pos
      {
        match condition {
          case COMMENT => InCommentStep();
          case STRING => tok := InStringStep();
          case INITIAL => tok := InitialStep();
        }
        if tok.Some? {
          return;
        }
      }
      AtEnd(text[pos..], bol, CurrentMode());
    }
  }

  lemma AtEnd(s: string, bol: bool, mode: Mode)
    requires s == ""
    ensures Scan(s, bol, mode) == []
  {
  }

  lemma OrdinaryRun(s: string)
    requires s != "" && Ordinary(s[0])
    ensures RunOf(s, Ordinary) > 0
  {
  }

  /** All tokens of a text, read by repeated calls. */
  method Tokens(input: string) returns (tokens: seq<Token>)
    ensures tokens == Scan(input, true, Initial)
  {
    hide Scan;
    var scanner := new Scanner(input);
    tokens := [];
    var tok := scanner.Lex();
    while tok.Some?
      invariant scanner.Valid() && fresh(scanner) && fresh(scanner.buffer) && fresh(scanner.buffer.block)
      invariant Scan(input, true, Initial)
             == tokens + (if tok.Some? then [tok.value] + scanner.Pending() else [])
      decreases |Scan(input, true, Initial)| - |tokens|
    {
      tokens := tokens + [tok.value];
      tok := scanner.Lex();
    }
  }
}
