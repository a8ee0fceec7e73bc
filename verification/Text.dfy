/** ASCII strings, as far as the rail and amount formats need them. */
module Text {
  predicate IsDigit(c: char) { '0' <= c <= '9' }

  predicate IsUpper(c: char) { 'A' <= c <= 'Z' }

  predicate IsLower(c: char) { 'a' <= c <= 'z' }

  predicate IsSpace(c: char) { c == ' ' || c == '\t' || c == '\n' || c == '\r' }

  function LowerChar(c: char): char {
    if IsUpper(c) then (c as int + 32) as char else c
  }

  function UpperChar(c: char): char {
    if IsLower(c) then (c as int - 32) as char else c
  }

  function Lower(s: string): string {
    seq(|s|, i requires 0 <= i < |s| => LowerChar(s[i]))
  }

  function Upper(s: string): string {
    seq(|s|, i requires 0 <= i < |s| => UpperChar(s[i]))
  }

  function Trim(s: string): string {
    if s != "" && IsSpace(s[0]) then Trim(s[1..])
    else if s != "" && IsSpace(s[|s| - 1]) then Trim(s[..|s| - 1])
    else s
  }

  predicate Trimmed(s: string) {
    s == "" || (!IsSpace(s[0]) && !IsSpace(s[|s| - 1]))
  }

  lemma {:induction false} TrimTrims(s: string)
    ensures Trimmed(Trim(s)) && (Trimmed(s) ==> Trim(s) == s)
    decreases |s|
  {
    if s != "" && IsSpace(s[0]) {
      TrimTrims(s[1..]);
    } else if s != "" && IsSpace(s[|s| - 1]) {
      TrimTrims(s[..|s| - 1]);
    }
  }

  // The position of the first c, or |s|.
  function IndexOf(s: string, c: char): (k: nat)
    ensures k <= |s|
    ensures c !in s[..k] && (k < |s| ==> s[k] == c)
  {
    if s == "" || s[0] == c then 0
    else
      var k := IndexOf(s[1..], c);
      assert s[..k + 1] == [s[0]] + s[1..][..k];
      k + 1
  }

  lemma IndexOfIs(s: string, c: char, k: nat)
    requires k < |s| && s[k] == c && c !in s[..k]
    ensures IndexOf(s, c) == k
  {}

  /** Case folding touches the twenty-six letters of the other case and nothing else. */
  lemma FoldingMeans(s: string, i: nat)
    requires i < |s|
    ensures |Lower(s)| == |s| && |Upper(s)| == |s|
    ensures Lower(s)[i] == if 'A' <= s[i] <= 'Z' then 'a' + (s[i] - 'A') else s[i]
    ensures Upper(s)[i] == if 'a' <= s[i] <= 'z' then 'A' + (s[i] - 'a') else s[i]
  {}

  predicate Blank(s: string) {
    forall i :: 0 <= i < |s| ==> s[i] in {' ', '\t', '\n', '\r'}
  }

  /** Trimming takes blanks off both ends, and nothing else. */
  lemma {:induction false} TrimMeans(s: string) returns (left: string, right: string)
    ensures s == left + Trim(s) + right && Blank(left) && Blank(right)
    ensures Trim(s) != "" ==>
      Trim(s)[0] !in {' ', '\t', '\n', '\r'} && Trim(s)[|Trim(s)| - 1] !in {' ', '\t', '\n', '\r'}
    decreases |s|
  {
    if s != "" && IsSpace(s[0]) {
      left, right := TrimMeans(s[1..]);
      left := [s[0]] + left;
    } else if s != "" && IsSpace(s[|s| - 1]) {
      left, right := TrimMeans(s[..|s| - 1]);
      right := right + [s[|s| - 1]];
    } else {
      left, right := "", "";
    }
  }
}
