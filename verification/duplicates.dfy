/** The deterministic duplicate selector of backlog routing: word sets, their similarity, the best candidate. */
module Duplicates {
  import opened Wrappers
  import opened Text

  // ---------------------------------------------------------------- words of a text

  predicate IsAlphanumeric(c: char) {
    '0' <= c <= '9' || 'A' <= c <= 'Z' || 'a' <= c <= 'z'
  }

  /** The pieces between characters that are not ASCII letters or digits, empty pieces included. */
  function Split(text: string): (pieces: seq<string>)
    ensures pieces != []
  {
    if text == "" then [""]
    else
      var rest := Split(text[1..]);
      if IsAlphanumeric(text[0]) then [[text[0]] + rest[0]] + rest[1..] else [""] + rest
  }

  const MIN_WORD := 3

  const STOP_WORDS: set<string> := {
    "the", "and", "for", "with", "that", "this", "from", "into", "then", "when", "what", "where", "which",
    "should", "would", "could", "need", "needs", "make", "made", "add", "adds", "implement", "implementation",
    "issue", "backlog"}

  predicate IsKept(piece: string) {
    |piece| >= MIN_WORD && Lower(piece) !in STOP_WORDS
  }

  /** The words a text is compared by. */
  function Words(text: string): set<string> {
    set piece <- Split(text) | IsKept(piece) :: Lower(piece)
  }

  predicate IsLetterOrDigit(c: char) {
    'a' <= c <= 'z' || 'A' <= c <= 'Z' || '0' <= c <= '9'
  }

  /** `text[i..j]` is a longest run of letters and digits. */
  predicate IsRun(text: string, i: nat, j: nat) {
    && i <= j <= |text|
    && (forall k :: i <= k < j ==> IsLetterOrDigit(text[k]))
    && (i == 0 || !IsLetterOrDigit(text[i - 1]))
    && (j == |text| || !IsLetterOrDigit(text[j]))
  }

  lemma {:induction false} FirstPieceIsRun(text: string)
    ensures IsRun(text, 0, |Split(text)[0]|) && Split(text)[0] == text[..|Split(text)[0]|]
  {
    if text != "" && IsAlphanumeric(text[0]) {
      FirstPieceIsRun(text[1..]);
    }
  }

  lemma SliceOfTail(s: string, i: nat, j: nat)
    requires 0 < i <= j <= |s|
    ensures s[1..][i - 1..j - 1] == s[i..j]
  {
  }

  lemma {:induction false} PieceIsRun(text: string, p: nat) returns (i: nat, j: nat)
    requires p < |Split(text)|
    ensures IsRun(text, i, j) && Split(text)[p] == text[i..j]
    ensures p > 0 ==> i > 0
  {
    if p == 0 {
      FirstPieceIsRun(text);
      i, j := 0, |Split(text)[0]|;
    } else if IsAlphanumeric(text[0]) {
      i, j := PieceIsRun(text[1..], p);
      i, j := i + 1, j + 1;
      SliceOfTail(text, i, j);
    } else {
      i, j := PieceIsRun(text[1..], p - 1);
      i, j := i + 1, j + 1;
      SliceOfTail(text, i, j);
    }
  }

  lemma RunEndsOnce(text: string, i: nat, j: nat, k: nat)
    requires IsRun(text, i, j) && IsRun(text, i, k)
    ensures j == k
  {
  }

  lemma RunOfTail(text: string, i: nat, j: nat)
    requires IsRun(text, i, j) && 0 < i < j
    ensures IsRun(text[1..], i - 1, j - 1)
    ensures i == 1 ==> !IsAlphanumeric(text[0])
  {
    assert forall k :: 0 <= k < |text| - 1 ==> text[1..][k] == text[k + 1];
  }

  /** Where a piece of the tail is among the pieces of the text. */
  lemma PieceOfTail(text: string, p: nat)
    requires text != "" && p < |Split(text[1..])|
    ensures !IsAlphanumeric(text[0]) ==> p + 1 < |Split(text)| && Split(text)[p + 1] == Split(text[1..])[p]
    ensures IsAlphanumeric(text[0]) && p > 0 ==> p < |Split(text)| && Split(text)[p] == Split(text[1..])[p]
  {
  }

  lemma {:induction false} RunIsPiece(text: string, i: nat, j: nat) returns (p: nat)
    requires IsRun(text, i, j) && i < j
    ensures p < |Split(text)| && Split(text)[p] == text[i..j]
    ensures i > 0 ==> p > 0
  {
    if i == 0 {
      FirstPieceIsRun(text);
      p := 0;
      RunEndsOnce(text, i, j, |Split(text)[0]|);
    } else {
      RunOfTail(text, i, j);
      assert j <= |text|;
      hide IsRun, Split, IsAlphanumeric;
      p := RunIsPiece(text[1..], i - 1, j - 1);
      SliceOfTail(text, i, j);
      PieceOfTail(text, p);
      if !IsAlphanumeric(text[0]) {
        p := p + 1;
      }
    }
  }

  /** A word of the text: a longest run of at least three letters and digits, lowered, that is no stop word. */
  ghost predicate IsWord(text: string, w: string) {
    exists i: nat, j: nat :: IsRun(text, i, j) && i + 3 <= j && Lower(text[i..j]) == w && w !in STOP_WORDS
  }

  lemma WordsAreRuns(text: string, w: string)
    ensures w in Words(text) <==> IsWord(text, w)
  {
    if w in Words(text) {
      var piece :| piece in Split(text) && IsKept(piece) && Lower(piece) == w;
      var p :| 0 <= p < |Split(text)| && Split(text)[p] == piece;
      var i, j := PieceIsRun(text, p);
    }
    if IsWord(text, w) {
      var i: nat, j: nat :| IsRun(text, i, j) && i + 3 <= j && Lower(text[i..j]) == w && w !in STOP_WORDS;
      var p := RunIsPiece(text, i, j);
      assert Split(text)[p] in Split(text) && IsKept(text[i..j]);
    }
  }

  // ---------------------------------------------------------------- case and joining

  lemma LowerKeepsKind(c: char)
    ensures IsAlphanumeric(LowerChar(c)) <==> IsAlphanumeric(c)
    ensures LowerChar(LowerChar(c)) == LowerChar(c)
  {
  }

  /** Texts that differ only in the case of letters have the same words. */
  lemma WordsIgnoreCase(text: string, other: string)
    requires Lower(text) == Lower(other)
    ensures Words(text) == Words(other)
  {
    forall w <- Words(text) ensures w in Words(other) {
      WordsAreRuns(text, w);
      WordOfOtherCase(text, other, w);
      WordsAreRuns(other, w);
    }
    forall w <- Words(other) ensures w in Words(text) {
      WordsAreRuns(other, w);
      WordOfOtherCase(other, text, w);
      WordsAreRuns(text, w);
    }
  }

  lemma SameKinds(text: string, other: string)
    requires Lower(text) == Lower(other)
    ensures |text| == |other|
    ensures forall k :: 0 <= k < |text| ==> (IsAlphanumeric(text[k]) <==> IsAlphanumeric(other[k]))
  {
    forall k | 0 <= k < |text| ensures IsAlphanumeric(text[k]) <==> IsAlphanumeric(other[k]) {
      assert LowerChar(text[k]) == Lower(text)[k] == Lower(other)[k] == LowerChar(other[k]);
      LowerKeepsKind(text[k]);
      LowerKeepsKind(other[k]);
    }
  }

  lemma WordOfOtherCase(text: string, other: string, w: string)
    requires Lower(text) == Lower(other) && IsWord(text, w)
    ensures IsWord(other, w)
  {
    var i: nat, j: nat :| IsRun(text, i, j) && i + 3 <= j && Lower(text[i..j]) == w && w !in STOP_WORDS;
    SameKinds(text, other);
    LowerOfSlice(text, i, j);
    LowerOfSlice(other, i, j);
    assert IsRun(other, i, j);
  }

  lemma {:induction false} LowerOfSlice(text: string, i: nat, j: nat)
    requires i <= j <= |text|
    ensures Lower(text[i..j]) == Lower(text)[i..j]
  {
    hide Lower;
    forall k | 0 <= k < j - i ensures Lower(text[i..j])[k] == Lower(text)[i..j][k] {
      assert Lower(text[i..j])[k] == LowerChar(text[i + k]);
    }
  }

  function Join(words: seq<string>): string {
    if words == [] then "" else if |words| == 1 then words[0] else words[0] + " " + Join(words[1..])
  }

  predicate IsPlainWord(w: string) {
    forall k :: 0 <= k < |w| ==> IsAlphanumeric(w[k])
  }

  lemma {:induction false} SplitOfPrefix(w: string, rest: string)
    requires IsPlainWord(w)
    ensures Split(w + rest) == [w + Split(rest)[0]] + Split(rest)[1..]
  {
    if w == "" {
      assert w + rest == rest && "" + Split(rest)[0] == Split(rest)[0];
    } else {
      SplitOfPrefix(w[1..], rest);
      assert (w + rest)[1..] == w[1..] + rest;
      assert [w[0]] + (w[1..] + Split(rest)[0]) == w + Split(rest)[0];
    }
  }

  lemma {:induction false} SplitOfJoin(words: seq<string>)
    requires words != [] && forall w <- words :: IsPlainWord(w)
    ensures Split(Join(words)) == words
  {
    var tail := if |words| == 1 then "" else " " + Join(words[1..]);
    assert Join(words) == words[0] + tail by {
      if |words| > 1 {
        assert words[0] + " " + Join(words[1..]) == words[0] + (" " + Join(words[1..]));
      }
    }
    SplitOfPrefix(words[0], tail);
    assert words[0] + "" == words[0];
    if |words| > 1 {
      SplitOfJoin(words[1..]);
      assert tail[1..] == Join(words[1..]);
    }
  }

  // ---------------------------------------------------------------- the sorted word list

  /** Byte order of strings. */
  predicate Before(a: string, b: string) {
    if b == "" then false
    else if a == "" then true
    else a[0] < b[0] || (a[0] == b[0] && Before(a[1..], b[1..]))
  }

  lemma {:induction false} BeforeIsTotal(a: string, b: string)
    ensures Before(a, b) || Before(b, a) || a == b
    ensures !(Before(a, b) && Before(b, a))
    ensures !Before(a, a)
  {
    if a != "" && b != "" {
      BeforeIsTotal(a[1..], b[1..]);
      assert a == [a[0]] + a[1..] && b == [b[0]] + b[1..];
    }
    if a != "" {
      BeforeIsTotal(a[1..], a[1..]);
    }
  }

  lemma {:induction false} BeforeIsTransitive(a: string, b: string, c: string)
    requires Before(a, b) && Before(b, c)
    ensures Before(a, c)
  {
    if a != "" && a[0] == b[0] == c[0] {
      BeforeIsTransitive(a[1..], b[1..], c[1..]);
    }
  }

  predicate Ascending(s: seq<string>) {
    forall i, j :: 0 <= i < j < |s| ==> Before(s[i], s[j])
  }

  predicate Sorted(s: seq<string>) {
    forall i, j :: 0 <= i < j < |s| ==> !Before(s[j], s[i])
  }

  method Sort(words: seq<string>) returns (sorted: seq<string>)
    ensures Sorted(sorted) && multiset(sorted) == multiset(words)
  {
    sorted := [];
    for k := 0 to |words|
      invariant Sorted(sorted) && multiset(sorted) == multiset(words[..k])
    {
      var p := |sorted|;
      while p > 0 && Before(words[k], sorted[p - 1])
        invariant 0 <= p <= |sorted| && forall i :: p <= i < |sorted| ==> Before(words[k], sorted[i])
      {
        p := p - 1;
      }
      InsertKeepsSorted(sorted, p, words[k]);
      sorted := sorted[..p] + [words[k]] + sorted[p..];
      assert words[..k + 1] == words[..k] + [words[k]];
    }
    assert words[..|words|] == words;
  }

  lemma InsertKeepsSorted(s: seq<string>, p: nat, w: string)
    requires Sorted(s) && p <= |s| && (p == 0 || !Before(w, s[p - 1]))
    requires forall i :: p <= i < |s| ==> Before(w, s[i])
    ensures Sorted(s[..p] + [w] + s[p..])
    ensures multiset(s[..p] + [w] + s[p..]) == multiset(s) + multiset{w}
  {
    forall i | 0 <= i < p ensures !Before(w, s[i]) {
      if Before(w, s[i]) {
        BeforeIsTotal(s[i], s[p - 1]);
        if Before(s[i], s[p - 1]) {
          BeforeIsTransitive(w, s[i], s[p - 1]);
        }
      }
    }
    forall i | p <= i < |s| ensures !Before(s[i], w) {
      BeforeIsTotal(w, s[i]);
    }
    BetweenIsSorted(s[..p], w, s[p..]);
    assert s == s[..p] + s[p..];
  }

  lemma BetweenIsSorted(a: seq<string>, w: string, b: seq<string>)
    requires Sorted(a + b) && (forall x <- a :: !Before(w, x)) && (forall x <- b :: !Before(x, w))
    ensures Sorted(a + [w] + b)
  {
    hide Before;
    var s := a + [w] + b;
    forall i, j | 0 <= i < j < |s| ensures !Before(s[j], s[i]) {
      if i != |a| && j != |a| {
        var i', j' := (if i < |a| then i else i - 1), if j < |a| then j else j - 1;
        assert (a + b)[i'] == s[i] && (a + b)[j'] == s[j];
      }
    }
  }

  /** Drops repeats of the previous element. */
  method Dedup(sorted: seq<string>) returns (r: seq<string>)
    requires Sorted(sorted)
    ensures Ascending(r) && ToSet(r) == ToSet(sorted)
  {
    r := [];
    for k := 0 to |sorted|
      invariant Ascending(r)
      invariant k > 0 ==> r != [] && r[|r| - 1] == sorted[k - 1]
      invariant k == 0 ==> r == []
      invariant forall w :: w in r <==> w in sorted[..k]
    {
      if r == [] || r[|r| - 1] != sorted[k] {
        AppendKeepsAscending(r, sorted, k);
        r := r + [sorted[k]];
      }
    }
    assert sorted[..|sorted|] == sorted;
  }

  lemma AppendKeepsAscending(r: seq<string>, sorted: seq<string>, k: nat)
    requires Sorted(sorted) && k < |sorted| && Ascending(r)
    requires r != [] ==> k > 0 && r[|r| - 1] == sorted[k - 1] != sorted[k]
    ensures Ascending(r + [sorted[k]])
  {
    if r != [] {
      var n := |r| - 1;
      BeforeIsTotal(r[n], sorted[k]);
      forall i | 0 <= i < n ensures Before(r[i], sorted[k]) {
        BeforeIsTransitive(r[i], r[n], sorted[k]);
      }
    }
  }

  /** The words of a text in byte order, each once. */
  method NormalizedTokens(text: string) returns (tokens: seq<string>)
    ensures Ascending(tokens) && ToSet(tokens) == Words(text)
  {
    var pieces := Split(text);
    var words := [];
    for k := 0 to |pieces|
      invariant forall w :: w in words <==> exists piece <- pieces[..k] :: IsKept(piece) && Lower(piece) == w
    {
      assert pieces[..k + 1] == pieces[..k] + [pieces[k]];
      if IsKept(pieces[k]) {
        words := words + [Lower(pieces[k])];
      }
    }
    assert pieces[..|pieces|] == pieces;
    var sorted := Sort(words);
    SameMembers(sorted, words);
    tokens := Dedup(sorted);
  }

  lemma SameMembers(a: seq<string>, b: seq<string>)
    requires multiset(a) == multiset(b)
    ensures forall w :: w in a <==> w in b
  {
    forall w ensures w in a <==> w in b {
      assert w in a <==> w in multiset(a);
    }
  }

  /** A strictly ascending list is determined by its elements. */
  lemma {:induction false} AscendingIsUnique(a: seq<string>, b: seq<string>)
    requires Ascending(a) && Ascending(b) && ToSet(a) == ToSet(b)
    ensures a == b
  {
    FirstIsMember(a);
    FirstIsMember(b);
    if a != [] {
      assert b != [];
      var n, m := |a| - 1, |b| - 1;
      LastIsGreatest(a, b);
      LastIsGreatest(b, a);
      BeforeIsTotal(a[n], b[m]);
      TailsAgree(a, b);
      AscendingIsUnique(a[..n], b[..m]);
    }
  }

  lemma FirstIsMember(a: seq<string>)
    ensures a != [] ==> a[0] in ToSet(a)
  {
  }

  lemma LastIsGreatest(a: seq<string>, b: seq<string>)
    requires Ascending(a) && a != [] && b != [] && ToSet(a) == ToSet(b)
    ensures b[|b| - 1] == a[|a| - 1] || Before(b[|b| - 1], a[|a| - 1])
  {
    assert b[|b| - 1] in ToSet(a);
  }

  lemma TailsAgree(a: seq<string>, b: seq<string>)
    requires Ascending(a) && Ascending(b) && a != [] && b != [] && ToSet(a) == ToSet(b)
    requires a[|a| - 1] == b[|b| - 1]
    ensures ToSet(a[..|a| - 1]) == ToSet(b[..|b| - 1])
  {
    WithoutLast(a);
    WithoutLast(b);
  }

  lemma WithoutLast(a: seq<string>)
    requires Ascending(a) && a != []
    ensures ToSet(a[..|a| - 1]) == ToSet(a) - {a[|a| - 1]}
  {
    var n := |a| - 1;
    forall k | 0 <= k < n ensures a[k] != a[n] {
      BeforeIsTotal(a[k], a[n]);
    }
    assert a == a[..n] + [a[n]];
  }

  /** Words are already lower-case words of their own, so tokenizing the joined list gives it back. */
  lemma WordsOfJoin(text: string, tokens: seq<string>)
    requires ToSet(tokens) == Words(text)
    ensures Words(Join(tokens)) == Words(text)
  {
    forall w <- tokens ensures IsPlainWord(w) && IsKept(w) && Lower(w) == w {
      assert w in ToSet(tokens);
      WordIsPlain(text, w);
    }
    if tokens == [] {
      assert Split(Join(tokens)) == [""];
    } else {
      SplitOfJoin(tokens);
    }
    assert Words(Join(tokens)) == ToSet(tokens);
  }

  lemma WordIsPlain(text: string, w: string)
    requires w in Words(text)
    ensures IsPlainWord(w) && IsKept(w) && Lower(w) == w
  {
    WordsAreRuns(text, w);
    var i: nat, j: nat :| IsRun(text, i, j) && i + 3 <= j && Lower(text[i..j]) == w && w !in STOP_WORDS;
    LowerTwice(text[i..j]);
    forall k | 0 <= k < |w| ensures IsAlphanumeric(w[k]) {
      LowerKeepsKind(text[i..j][k]);
    }
  }

  /** Tokenizing is idempotent: the list of the joined tokens is the list. */
  lemma TokensAreIdempotent(text: string, tokens: seq<string>, again: seq<string>)
    requires Ascending(tokens) && ToSet(tokens) == Words(text)
    requires Ascending(again) && ToSet(again) == Words(Join(tokens))
    ensures again == tokens
  {
    WordsOfJoin(text, tokens);
    AscendingIsUnique(again, tokens);
  }

  // ---------------------------------------------------------------- similarity and selection

  datatype Candidate = Candidate(id: int, title: string, description: Option<string>)

  function TextOf(c: Candidate): string {
    match c.description
    case Some(d) => c.title + [' '] + d
    case None => c.title
  }

  /** A candidate's words are those of its title and of its description: no word runs from one into the other. */
  lemma WordsOfCandidate(c: Candidate)
    ensures Words(TextOf(c)) == Words(c.title) + (if c.description.Some? then Words(c.description.value) else {})
  {
    if c.description.Some? {
      SplitOfSpaced(c.title, c.description.value);
      var a, b := Split(c.title), Split(c.description.value);
      forall w ensures w in Words(TextOf(c)) <==> w in Words(c.title) + Words(c.description.value) {
        assert forall piece :: piece in a + b <==> piece in a || piece in b;
      }
    }
  }

  lemma SplitStep(s: string)
    requires s != ""
    ensures Split(s) == if IsAlphanumeric(s[0]) then [[s[0]] + Split(s[1..])[0]] + Split(s[1..])[1..]
                        else [""] + Split(s[1..])
  {
  }

  lemma SplitOfNothing()
    ensures Split("") == [""]
  {
  }

  lemma GrowFirst(c: char, first: seq<string>, rest: seq<string>)
    requires first != []
    ensures [[c] + (first + rest)[0]] + (first + rest)[1..] == [[c] + first[0]] + first[1..] + rest
    ensures [""] + (first + rest) == [""] + first + rest
  {
    assert (first + rest)[1..] == first[1..] + rest;
  }

  lemma {:induction false} SplitOfSpaced(a: string, b: string)
    ensures Split(a + [' '] + b) == Split(a) + Split(b)
  {
    hide Split;
    var s := a + [' '] + b;
    SplitStep(s);
    if a == "" {
      SplitOfNothing();
      assert s[1..] == b && s[0] == ' ';
    } else {
      SplitStep(a);
      SplitOfSpaced(a[1..], b);
      assert s[1..] == a[1..] + [' '] + b && s[0] == a[0];
      GrowFirst(a[0], Split(a[1..]), Split(b));
    }
  }

  const MIN_OVERLAP := 6
  const MIN_JACCARD: real := 0.62

  datatype Score = Score(overlap: nat, jaccard: real)

  /** Overlap and exact Jaccard ratio of two word sets; no score when either is empty. */
  function ScoreOf(item: set<string>, issue: set<string>): Option<Score> {
    if item == {} || issue == {} || |item + issue| == 0 then None
    else Some(Score(|item * issue|, |item * issue| as real / |item + issue| as real))
  }

  predicate Passes(score: Option<Score>) {
    score.Some? && score.value.overlap >= MIN_OVERLAP && score.value.jaccard >= MIN_JACCARD
  }

  /** Words the text and the candidate have in common. */
  function Common(text: string, c: Candidate): nat {
    |Words(text) * Words(TextOf(c))|
  }

  /** Words of either. */
  function Together(text: string, c: Candidate): nat {
    |Words(text) + Words(TextOf(c))|
  }

  /** At least six words in common, and these are at least 62 of 100 words of either. */
  predicate IsDuplicate(text: string, c: Candidate) {
    Common(text, c) >= 6 && 100 * Common(text, c) >= 62 * Together(text, c)
  }

  /** `a` before `b`: the larger share of common words, then more of them, then the older issue. */
  predicate Outranks(text: string, a: Candidate, b: Candidate) {
    var ofA, ofB := Common(text, a) * Together(text, b), Common(text, b) * Together(text, a);
    || ofA > ofB
    || (ofA == ofB && Common(text, a) > Common(text, b))
    || (ofA == ofB && Common(text, a) == Common(text, b) && a.id < b.id)
  }

  lemma CommonIsAtMostTogether(text: string, c: Candidate)
    ensures Common(text, c) <= Together(text, c)
  {
    SubsetIsSmaller(Words(text) * Words(TextOf(c)), Words(text) + Words(TextOf(c)));
  }

  function ScoreFor(text: string, c: Candidate): Score
    requires Together(text, c) > 0
  {
    Score(Common(text, c), Common(text, c) as real / Together(text, c) as real)
  }

  lemma RatioAtLeast(a: nat, b: nat)
    requires b > 0
    ensures a as real / b as real >= MIN_JACCARD <==> 100 * a >= 62 * b
  {
    AtLeastShare(a as real, b as real, a as real / b as real);
    HundredthsAsReals(a, b);
  }

  lemma AtLeastShare(n: real, d: real, ratio: real)
    requires d > 0.0 && ratio == n / d
    ensures ratio >= 0.62 <==> 100.0 * n >= 62.0 * d
  {
    assert ratio * d == n;
    if ratio >= 0.62 {
      assert (ratio - 0.62) * d >= 0.0;
    } else {
      assert (0.62 - ratio) * d > 0.0;
    }
  }

  lemma HundredthsAsReals(a: nat, b: nat)
    ensures 100.0 * (a as real) >= 62.0 * (b as real) <==> 100 * a >= 62 * b
  {
    assert (100 * a) as real == 100.0 * (a as real) && (62 * b) as real == 62.0 * (b as real);
  }

  lemma RatioAbove(a: nat, b: nat, c: nat, d: nat)
    requires b > 0 && d > 0
    ensures a as real / b as real > c as real / d as real <==> a * d > c * b
    ensures a as real / b as real == c as real / d as real <==> a * d == c * b
  {
    var x, y := a as real / b as real, c as real / d as real;
    CrossMultiplied(a as real, b as real, c as real, d as real, x, y);
    ProductAsReal(a, d);
    ProductAsReal(c, b);
  }

  lemma CrossMultiplied(a: real, b: real, c: real, d: real, x: real, y: real)
    requires b > 0.0 && d > 0.0 && x == a / b && y == c / d
    ensures x > y <==> a * d > c * b
    ensures x == y <==> a * d == c * b
  {
    assert x * b == a && y * d == c;
    assert a * d == (x * b) * d == x * (b * d);
    assert c * b == (y * d) * b == y * (b * d);
    Ordered(x, y, b * d);
  }

  lemma Ordered(x: real, y: real, f: real)
    requires f > 0.0
    ensures x > y <==> x * f > y * f
    ensures x == y <==> x * f == y * f
  {
    if x > y {
      assert (x - y) * f > 0.0;
    } else if x < y {
      assert (y - x) * f > 0.0;
    }
  }

  lemma ProductAsReal(a: nat, b: nat)
    ensures (a * b) as real == a as real * b as real
  {
  }

  /** Comparing the computed scores is comparing the counts. */
  lemma RanksDecide(text: string, a: Candidate, b: Candidate)
    requires Together(text, a) > 0 && Together(text, b) > 0
    ensures RanksAbove(ScoreFor(text, a), a.id, ScoreFor(text, b), b.id) <==> Outranks(text, a, b)
  {
    hide Common, Together;
    RatioAbove(Common(text, a), Together(text, a), Common(text, b), Together(text, b));
  }

  lemma DuplicatesHaveWords(text: string, c: Candidate)
    requires IsDuplicate(text, c)
    ensures Together(text, c) > 0
  {
    CommonIsAtMostTogether(text, c);
  }

  /** `a` ranks above `b`: higher ratio, then more words in common, then the older issue. */
  predicate RanksAbove(a: Score, aId: int, b: Score, bId: int) {
    || a.jaccard > b.jaccard
    || (a.jaccard == b.jaccard && a.overlap > b.overlap)
    || (a.jaccard == b.jaccard && a.overlap == b.overlap && aId < bId)
  }

  ghost predicate IsBest(text: string, candidates: seq<Candidate>, best: Candidate) {
    && best in candidates && IsDuplicate(text, best)
    && forall c <- candidates :: c != best && IsDuplicate(text, c) ==> Outranks(text, best, c)
  }

  ghost predicate IsSelected(text: string, candidates: seq<Candidate>, best: Option<Candidate>) {
    && (best.Some? ==> IsBest(text, candidates, best.value))
    && (best.None? <==> forall c <- candidates :: !IsDuplicate(text, c))
  }

  predicate UniqueIds(candidates: seq<Candidate>) {
    forall i, j :: 0 <= i < j < |candidates| ==> candidates[i].id != candidates[j].id
  }

  /**
    The selected issue is the one duplicate that ranks above every other; none is selected exactly when
    there is no duplicate. An item with fewer than six words has none, since no overlap can reach six.
   */
  method SelectDuplicate(text: string, candidates: seq<Candidate>) returns (best: Option<Candidate>)
    requires UniqueIds(candidates)
    ensures IsSelected(text, candidates, best)
  {
    hide IsSelected, IsBest, IsDuplicate, Outranks, Together, Common;
    hide ScoreFor, ScoreOf, Passes, RanksAbove, Words, UniqueIds, Ascending;
    var itemTokens := NormalizedTokens(text);
    best := None;
    if |itemTokens| < MIN_OVERLAP {
      FewWordsHaveNoDuplicate(text, itemTokens, candidates);
      return;
    }
    var bestScore := Score(0, 0.0);
    NothingSelected(text);
    for k := 0 to |candidates|
      invariant IsSelected(text, candidates[..k], best)
      invariant best.Some? ==> IsDuplicate(text, best.value) && Together(text, best.value) > 0
      invariant best.Some? ==> bestScore == ScoreFor(text, best.value)
    {
      var c := candidates[k];
      var issueTokens := NormalizedTokens(TextOf(c));
      var score := ScoreOf(ToSet(itemTokens), ToSet(issueTokens));
      ScoreDecides(text, c);
      SelectOneMore(text, candidates, k, best);
      if best.Some? && Passes(score) {
        RanksDecide(text, best.value, c);
      }
      if Passes(score) && (best.None? || !RanksAbove(bestScore, best.value.id, score.value, c.id)) {
        best, bestScore := Some(c), score.value;
      }
    }
    assert candidates[..|candidates|] == candidates;
  }

  lemma ScoreDecides(text: string, c: Candidate)
    ensures var score := ScoreOf(Words(text), Words(TextOf(c)));
            && (Passes(score) <==> IsDuplicate(text, c))
            && (Passes(score) ==> Together(text, c) > 0 && score.Some? && score.value == ScoreFor(text, c))
  {
    CommonIsAtMostTogether(text, c);
    if Together(text, c) > 0 {
      RatioAtLeast(Common(text, c), Together(text, c));
    }
    hide Words;
    assert Words(text) == {} || Words(TextOf(c)) == {} ==> Words(text) * Words(TextOf(c)) == {};
  }

  lemma NothingSelected(text: string)
    ensures IsSelected(text, [], None)
  {
  }

  /** An overlap cannot be larger than the item's own set of words. */
  lemma FewWordsHaveNoDuplicate(text: string, itemTokens: seq<string>, candidates: seq<Candidate>)
    requires Ascending(itemTokens) && ToSet(itemTokens) == Words(text) && |itemTokens| < MIN_OVERLAP
    ensures IsSelected(text, candidates, None)
  {
    hide Words;
    TokenCount(itemTokens);
    assert |Words(text)| < 6;
    forall c <- candidates ensures !IsDuplicate(text, c) {
      OverlapIsAtMost(Words(text), Words(TextOf(c)));
    }
  }

  lemma TokenCount(tokens: seq<string>)
    requires Ascending(tokens)
    ensures |ToSet(tokens)| == |tokens|
  {
    if tokens != [] {
      var n := |tokens| - 1;
      TokenCount(tokens[..n]);
      WithoutLast(tokens);
      assert ToSet(tokens) == ToSet(tokens[..n]) + {tokens[n]};
    }
  }

  lemma OverlapIsAtMost(a: set<string>, b: set<string>)
    ensures |a * b| <= |a|
  {
    SubsetIsSmaller(a * b, a);
  }

  lemma RanksAreTransitive(a: Score, aId: int, b: Score, bId: int, c: Score, cId: int)
    requires RanksAbove(a, aId, b, bId) && RanksAbove(b, bId, c, cId)
    ensures RanksAbove(a, aId, c, cId)
  {
  }

  lemma OutranksIsTotal(text: string, a: Candidate, b: Candidate)
    requires IsDuplicate(text, a) && IsDuplicate(text, b) && a.id != b.id
    ensures Outranks(text, a, b) <==> !Outranks(text, b, a)
  {
  }

  lemma OutranksIsTransitive(text: string, a: Candidate, b: Candidate, c: Candidate)
    requires IsDuplicate(text, a) && IsDuplicate(text, b) && IsDuplicate(text, c)
    requires Outranks(text, a, b) && Outranks(text, b, c)
    ensures Outranks(text, a, c)
  {
    DuplicatesHaveWords(text, a);
    DuplicatesHaveWords(text, b);
    DuplicatesHaveWords(text, c);
    RanksDecide(text, a, b);
    RanksDecide(text, b, c);
    RanksDecide(text, a, c);
    hide ScoreFor, Outranks, IsDuplicate, Together;
    RanksAreTransitive(ScoreFor(text, a), a.id, ScoreFor(text, b), b.id, ScoreFor(text, c), c.id);
  }

  /** Against a new duplicate the old best stays best or the new one becomes it. */
  lemma ChallengerDecides(text: string, candidates: seq<Candidate>, k: nat, best: Candidate)
    requires UniqueIds(candidates) && k < |candidates| && IsBest(text, candidates[..k], best)
    requires IsDuplicate(text, candidates[k])
    ensures var c := candidates[k];
            if Outranks(text, best, c)
            then IsBest(text, candidates[..k + 1], best) else IsBest(text, candidates[..k + 1], c)
  {
    hide IsDuplicate, Outranks;
    var c := candidates[k];
    assert candidates[..k + 1] == candidates[..k] + [c];
    var j :| 0 <= j < k && candidates[..k][j] == best;
    assert candidates[j].id != c.id;
    OutranksIsTotal(text, best, c);
    if !Outranks(text, best, c) {
      forall d <- candidates[..k] | IsDuplicate(text, d) && d != best ensures Outranks(text, c, d) {
        OutranksIsTransitive(text, c, best, d);
      }
    }
  }

  lemma SelectOneMore(text: string, candidates: seq<Candidate>, k: nat, best: Option<Candidate>)
    requires UniqueIds(candidates) && k < |candidates| && IsSelected(text, candidates[..k], best)
    ensures var c := candidates[k];
            IsSelected(text, candidates[..k + 1],
              if !IsDuplicate(text, c) then best
              else if best.None? || !Outranks(text, best.value, c) then Some(c)
              else best)
  {
    hide IsDuplicate, Outranks, UniqueIds;
    var c := candidates[k];
    assert candidates[..k + 1] == candidates[..k] + [c];
    if IsDuplicate(text, c) && best.Some? {
      hide IsBest;
      ChallengerDecides(text, candidates, k, best.value);
    }
  }

  /** The selection depends on which issues are candidates, not on their order. */
  lemma SelectionIgnoresOrder(text: string, a: seq<Candidate>, b: seq<Candidate>, x: Candidate, y: Candidate)
    requires UniqueIds(a) && (forall c :: c in a <==> c in b)
    requires IsBest(text, a, x) && IsBest(text, b, y)
    ensures x == y
  {
    DistinctIds(a, x, y);
    hide IsDuplicate, Outranks;
    if x.id != y.id {
      OutranksIsTotal(text, x, y);
    }
  }

  lemma DistinctIds(candidates: seq<Candidate>, x: Candidate, y: Candidate)
    requires UniqueIds(candidates) && x in candidates && y in candidates
    ensures x.id == y.id ==> x == y
  {
  }
}
