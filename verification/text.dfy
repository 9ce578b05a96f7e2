/** Whitespace and trimming of strings. */
module Text {
  import opened Wrappers

  /** The characters with the Unicode White_Space property. */
  predicate IsSpace(c: char) {
    || '\U{9}' <= c <= '\U{D}' || c == ' ' || c == '\U{85}' || c == '\U{A0}' || c == '\U{1680}'
    || '\U{2000}' <= c <= '\U{200A}' || c == '\U{2028}' || c == '\U{2029}' || c == '\U{202F}'
    || c == '\U{205F}' || c == '\U{3000}'
  }

  function TrimStart(s: string): string {
    if s != "" && IsSpace(s[0]) then TrimStart(s[1..]) else s
  }

  function TrimEnd(s: string): string {
    if s != "" && IsSpace(s[|s| - 1]) then TrimEnd(s[..|s| - 1]) else s
  }

  function Trim(s: string): string {
    TrimEnd(TrimStart(s))
  }

  predicate IsTrimmed(s: string) {
    s == "" || (!IsSpace(s[0]) && !IsSpace(s[|s| - 1]))
  }

  lemma {:induction false} TrimEndKeepsStart(s: string)
    requires s != "" && !IsSpace(s[0])
    ensures TrimEnd(s) != "" && TrimEnd(s)[0] == s[0] && !IsSpace(TrimEnd(s)[|TrimEnd(s)| - 1])
  {
    if IsSpace(s[|s| - 1]) {
      TrimEndKeepsStart(s[..|s| - 1]);
    }
  }

  predicate AllSpaces(s: string) {
    forall k :: 0 <= k < |s| ==> IsSpace(s[k])
  }

  lemma {:induction false} TrimStartDropsSpaces(s: string) returns (i: nat)
    ensures i <= |s| && TrimStart(s) == s[i..] && AllSpaces(s[..i])
    ensures i == |s| || !IsSpace(s[i])
  {
    i := 0;
    if s != "" && IsSpace(s[0]) {
      i := TrimStartDropsSpaces(s[1..]);
      assert s[1..][i..] == s[i + 1..] && s[..i + 1] == [s[0]] + s[1..][..i];
      i := i + 1;
    }
  }

  lemma {:induction false} TrimEndDropsSpaces(s: string) returns (j: nat)
    ensures j <= |s| && TrimEnd(s) == s[..j] && AllSpaces(s[j..])
  {
    j := |s|;
    if s != "" && IsSpace(s[|s| - 1]) {
      j := TrimEndDropsSpaces(s[..|s| - 1]);
      assert s[..|s| - 1][..j] == s[..j] && s[j..] == s[..|s| - 1][j..] + [s[|s| - 1]];
    }
  }

  lemma TrimIsTrimmed(s: string)
    ensures IsTrimmed(Trim(s))
  {
    var i := TrimStartDropsSpaces(s);
    if TrimStart(s) != "" {
      TrimEndKeepsStart(TrimStart(s));
    }
  }

  /** Trimming takes the white space off both ends, all of it and nothing else. */
  lemma TrimMeans(s: string) returns (i: nat, j: nat)
    ensures i <= j <= |s| && Trim(s) == s[i..j] && AllSpaces(s[..i]) && AllSpaces(s[j..])
    ensures IsTrimmed(Trim(s))
  {
    TrimIsTrimmed(s);
    hide IsTrimmed, AllSpaces;
    i := TrimStartDropsSpaces(s);
    j := TrimEndDropsSpaces(s[i..]);
    SliceOfSuffix(s, i, j);
    j := i + j;
  }

  lemma SliceOfSuffix(s: string, i: nat, j: nat)
    requires i <= |s| && j <= |s| - i
    ensures s[i..][..j] == s[i..i + j] && s[i..][j..] == s[i + j..]
  {
  }

  lemma TrimOfTrimmed(s: string)
    requires IsTrimmed(s)
    ensures Trim(s) == s
  {
  }

  // ---------------------------------------------------------------- letters and numbers

  function LowerChar(c: char): char {
    if 'A' <= c <= 'Z' then (c as int + 32) as char else c
  }

  /** ASCII lower case. */
  function Lower(s: string): (r: string)
    ensures |r| == |s|
    ensures forall k :: 0 <= k < |s| ==> r[k] == LowerChar(s[k])
  {
    if s == "" then "" else [LowerChar(s[0])] + Lower(s[1..])
  }

  lemma LowerTwice(s: string)
    ensures Lower(Lower(s)) == Lower(s)
  {
  }

  predicate IsDigit(c: char) {
    '0' <= c <= '9'
  }

  predicate AllDigits(s: string) {
    forall k :: 0 <= k < |s| ==> IsDigit(s[k])
  }

  function DigitValue(c: char): nat
    requires IsDigit(c)
  {
    c as int - '0' as int
  }

  /** The number a digit string writes. */
  function Value(s: string): nat
    requires AllDigits(s)
  {
    if s == "" then 0 else Value(s[..|s| - 1]) * 10 + DigitValue(s[|s| - 1])
  }

  function Digit(d: nat): (c: char)
    requires d < 10
    ensures IsDigit(c) && DigitValue(c) == d
  {
    ('0' as int + d) as char
  }

  function Show(n: nat): (s: string)
    ensures s != "" && AllDigits(s)
  {
    if n < 10 then [Digit(n)] else Show(n / 10) + [Digit(n % 10)]
  }

  function ShowInt(n: int): string {
    if n < 0 then "-" + Show(-n) else Show(n)
  }

  lemma {:induction false} ShownValue(n: nat)
    ensures Value(Show(n)) == n
  {
    if n >= 10 {
      ShownValue(n / 10);
      assert Show(n)[..|Show(n)| - 1] == Show(n / 10);
    }
  }

  // ---------------------------------------------------------------- splitting

  /** The pieces between separators; a string without one is its own piece. */
  function SplitOn(s: string, sep: char): (pieces: seq<string>)
    ensures pieces != []
  {
    if s == "" then [""]
    else
      var rest := SplitOn(s[1..], sep);
      if s[0] == sep then [""] + rest else [[s[0]] + rest[0]] + rest[1..]
  }

  /** Position of the first separator. */
  function Find(s: string, sep: char): (r: Option<nat>)
    ensures r.Some? ==> r.value < |s| && s[r.value] == sep
  {
    if s == "" then None
    else if s[0] == sep then Some(0)
    else match Find(s[1..], sep) case None => None case Some(k) => Some(k + 1)
  }
}
