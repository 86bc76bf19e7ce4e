/**
 The path and text helpers of util.cpp: get_basedir and stringtrim.
 */
module Paths {
  predicate IsSeparator(c: char) { c == '/' || c == '\\' }

  /** std::isspace in the C locale. */
  predicate IsBlank(c: char) { c == ' ' || '\t' <= c <= '\r' }

  /** The position of the last separator, if there is one. */
  function LastSeparator(s: string): (i: int)
    ensures -1 <= i < |s|
    ensures i >= 0 ==> IsSeparator(s[i])
    ensures forall j :: i < j < |s| ==> !IsSeparator(s[j])
  {
    if s == "" then -1
    else if IsSeparator(s[|s| - 1]) then |s| - 1
    else LastSeparator(s[..|s| - 1])
  }

  /** get_basedir: everything before the last separator, or the whole text if there is none. */
  function BaseDir(s: string): (r: string)
    ensures |r| <= |s| && r == s[..|r|]
    ensures r == s <==> forall j :: 0 <= j < |s| ==> !IsSeparator(s[j])
    ensures r != s ==> IsSeparator(s[|r|]) && forall j :: |r| < j < |s| ==> !IsSeparator(s[j])
  {
    var i := LastSeparator(s);
    if i < 0 then s else s[..i]
  }

  /** A base directory is recognised by the separator after it and by none following. */
  lemma BaseIs(s: string, k: nat)
    requires k < |s|
    ensures BaseDir(s) == s[..k] <==> IsSeparator(s[k]) && forall j :: k < j < |s| ==> !IsSeparator(s[j])
  {
    var r := BaseDir(s);
    assert r == s[..k] ==> |r| == k;
    assert IsSeparator(s[k]) ==> r != s;
    assert |r| == k ==> r == s[..k];
  }

  function TrimLeft(s: string): string
  {
    if s != "" && IsBlank(s[0]) then TrimLeft(s[1..]) else s
  }

  function TrimRight(s: string): string
  {
    if s != "" && IsBlank(s[|s| - 1]) then TrimRight(s[..|s| - 1]) else s
  }

  function Trim(s: string): string { TrimLeft(TrimRight(s)) }

  predicate AllBlank(s: string) { forall i :: 0 <= i < |s| ==> IsBlank(s[i]) }

  lemma {:induction false} TrimRightBlank(s: string)
    ensures AllBlank(s) <==> TrimRight(s) == ""
    decreases |s|
  {
    if s != "" && IsBlank(s[|s| - 1]) {
      var t := s[..|s| - 1];
      TrimRightBlank(t);
      assert forall i :: 0 <= i < |t| ==> t[i] == s[i];
    }
  }

  /** Trimming from the right leaves nothing, or an end that trimming from the left cannot reach. */
  lemma {:induction false} TrimRightEnd(s: string)
    ensures var t := TrimRight(s); t == "" || !IsBlank(t[|t| - 1])
    decreases |s|
  {
    if s != "" && IsBlank(s[|s| - 1]) {
      TrimRightEnd(s[..|s| - 1]);
    }
  }

  lemma {:induction false} TrimLeftStops(s: string)
    requires s != "" && !IsBlank(s[|s| - 1])
    ensures TrimLeft(s) != ""
    decreases |s|
  {
    if IsBlank(s[0]) {
      TrimLeftStops(s[1..]);
    }
  }

  /** A text is trimmed to nothing exactly when it is blank: blanks, tabs and line breaks of all kinds. */
  lemma TrimEmpty(s: string)
    ensures Trim(s) == "" <==> AllBlank(s)
    ensures AllBlank(s) <==> forall i :: 0 <= i < |s| ==> s[i] in {' ', '\t', '\n', '\U{000B}', '\U{000C}', '\r'}
  {
    TrimRightBlank(s);
    TrimRightEnd(s);
    if TrimRight(s) != "" {
      TrimLeftStops(TrimRight(s));
    }
  }
}
