/**
 The printer of libconfig.c: __config_write_value and __config_write_setting as
 functions to text, and as methods that write to a stream.
 */
module ConfigPrinter {
  import opened Options
  import opened ConfigStore
  import opened ConfigMeaning
  import opened ConfigScanner

  function DigitChar(d: nat): (c: char)
    requires d < 16
    ensures IsHex(c) && DigitValue(c) == d && (d < 10 ==> IsDigit(c))
  {
    if d < 10 then '0' + d as char else 'A' + (d - 10) as char
  }

  /** Digits of a number in base 10 or 16 (upper case). */
  function Number(n: nat, base: nat): (s: string)
    requires base == 10 || base == 16
    ensures s != ""
    ensures forall i :: 0 <= i < |s| ==> if base == 10 then IsDigit(s[i]) else IsHex(s[i])
  {
    if n < base then [DigitChar(n)] else Number(n / base, base) + [DigitChar(n % base)]
  }

  /** "%d" */
  function DecimalText(i: int): string
  {
    if i < 0 then "-" + Number(-i, 10) else Number(i, 10)
  }

  /** "0x%X" of the value's two's complement bits. */
  function HexText(i: int, modulus: nat): string
    requires modulus > 0
  {
    "0x" + Number(i % modulus, 16)
  }

  function TwoHex(n: nat): string
    requires n < 256
  {
    [DigitChar(n / 16), DigitChar(n % 16)]
  }

  /** One character of a string literal. */
  function EscapeChar(c: char): string
  {
    if c == '\"' then "\\\""
    else if c == '\\' then "\\\\"
    else if c == '\n' then "\\n"
    else if c == '\r' then "\\r"
    else if c == '\U{000C}' then "\\f"
    else if c == '\t' then "\\t"
    else if c >= ' ' then [c]
    else "\\x" + TwoHex(c as int)
  }

  function EscapeText(s: string): string
  {
    if s == "" then "" else EscapeChar(s[0]) + EscapeText(s[1..])
  }

  function Repeat(c: char, n: nat): (s: string)
    ensures |s| == n && forall i :: 0 <= i < n ==> s[i] == c
  {
    seq(n, _ => c)
  }

  /** __config_indent: at least one blank when the tab width is not zero. */
  function Indent(depth: nat, width: nat): (s: string)
    requires depth > 1
    ensures |s| == (depth - 1) * if width > 0 then width else 1
    ensures forall i :: 0 <= i < |s| ==> s[i] == if width > 0 then ' ' else '\t'
  {
    if width > 0 then Repeat(' ', (depth - 1) * width) else Repeat('\t', depth - 1)
  }

  function IndentIf(depth: nat, width: nat): string
  {
    if depth > 1 then Indent(depth, width) else ""
  }

  /** __config_write_value */
  function PrintValue(v: Ast, depth: nat, width: nat): string
    decreases v, 1
  {
    match v
    case ABool(i) => if i != 0 then "true" else "false"
    case AInt(i, format) => if format == FORMAT_HEX then HexText(i, TWO32) else DecimalText(i)
    case AInt64(l, format) => (if format == FORMAT_HEX then HexText(l, TWO64) else DecimalText(l)) + "L"
    case AFloat(text) => text
    case AString(s) => "\"" + (if s.Some? then EscapeText(s.value) else "") + "\""
    case AList(vs) => "( " + PrintElements(vs, depth + 1, width) + ")"
    case AArray(vs) => "[ " + PrintElements(vs, depth + 1, width) + "]"
    case AGroup(ms) =>
      (if depth > 0 then "\n" + IndentIf(depth, width) + "{\n" else "")
      + PrintMembers(ms, depth + 1, width)
      + IndentIf(depth, width) + (if depth > 0 then "}" else "")
    case ANone => "???"
  }

  /** The elements of a list or array, each followed by a blank, separated by commas. */
  function PrintElements(vs: seq<Ast>, depth: nat, width: nat): string
    decreases vs, 0
  {
    if vs == [] then ""
    else PrintValue(vs[0], depth, width) + (if |vs| > 1 then ", " else " ") + PrintElements(vs[1..], depth, width)
  }

  /** __config_write_setting */
  function PrintMember(m: AMember, depth: nat, width: nat): string
    decreases m, 0
  {
    IndentIf(depth, width)
    + (if m.name.Some? then m.name.value + (if m.value.AGroup? then " : " else " = ") else "")
    + PrintValue(m.value, depth, width)
    + (if depth > 0 then ";\n" else "")
  }

  function PrintMembers(ms: seq<AMember>, depth: nat, width: nat): string
    decreases ms, 0
  {
    if ms == [] then "" else PrintMember(ms[0], depth, width) + PrintMembers(ms[1..], depth, width)
  }

  /** config_write: the unnamed root at depth 0. */
  function Print(root: Ast, width: nat): string
  {
    PrintMember(AMember(None, root), 0, width)
  }
}
