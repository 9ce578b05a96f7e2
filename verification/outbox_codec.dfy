/**
  Decoding an outbox file. The record format is a parameter: any encoding that says itself where it ends
  and holds no line break, as the one-object-per-line format does. Records survive whether they stand on
  lines of their own or were run together.
 */
module OutboxCodec {
  import opened Wrappers
  import opened Text
  import Outbox = ControlOutbox

  type Command = Outbox.Command
  type Line = Outbox.Line

  datatype Codec = Codec(enc: Command -> string, parse: string -> Option<(Command, string)>, isUtf8: string -> bool)

  const MAX_FILE: int := 256 * 1024
  const MAX_LINE: int := 16 * 1024
  const MAX_COMMANDS: int := 1024

  datatype DecodeError = FileTooLarge | LineTooLong(no: nat) | NotUtf8(no: nat) | BadRecord(no: nat) | TooManyCommands

  /** Reading a record back from in front of anything gives the record and leaves the rest. */
  ghost predicate IsSelfDelimiting(codec: Codec) {
    forall c: Command, rest: string :: codec.parse(codec.enc(c) + rest) == Some((c, rest))
  }

  ghost predicate IsLineRecord(codec: Codec, c: Command) {
    codec.enc(c) != "" && IsTrimmed(codec.enc(c)) && forall k :: 0 <= k < |codec.enc(c)| ==> codec.enc(c)[k] != '\n'
  }

  function EncodeAll(codec: Codec, cs: seq<Command>): string {
    if cs == [] then "" else codec.enc(cs[0]) + EncodeAll(codec, cs[1..])
  }

  ghost predicate IsGood(codec: Codec) {
    && IsSelfDelimiting(codec)
    && (forall c: Command :: IsLineRecord(codec, c))
    && (forall cs: seq<Command> :: codec.isUtf8(EncodeAll(codec, cs)))
  }

  // ---------------------------------------------------------------- decoding

  /** The whitespace the record format allows between records. */
  function SkipSpaces(s: string): (r: string)
    ensures |r| <= |s|
  {
    if s != "" && s[0] in {' ', '\t', '\r', '\n'} then SkipSpaces(s[1..]) else s
  }

  /** Every record of one line, with spaces allowed between them. */
  function DecodeStream(codec: Codec, s: string): Option<seq<Command>>
    decreases |s|
  {
    var t := SkipSpaces(s);
    if t == "" then Some([])
    else
      match codec.parse(t)
      case None => None
      case Some((c, rest)) =>
        if |rest| >= |t| then None
        else
          var more := DecodeStream(codec, rest);
          if more.Some? then Some([c] + more.value) else None
  }

  function DecodeLine(codec: Codec, no: nat, raw: string): Result<seq<Line>, DecodeError> {
    if |raw| > MAX_LINE then Err(LineTooLong(no))
    else if !codec.isUtf8(raw) then Err(NotUtf8(no))
    else
      match DecodeStream(codec, Trim(raw))
      case None => Err(BadRecord(no))
      case Some(cs) => Ok(Numbered(no, cs))
  }

  function Numbered(no: nat, cs: seq<Command>): (lines: seq<Line>)
    ensures |lines| == |cs|
  {
    if cs == [] then [] else [Outbox.Line(no, cs[0])] + Numbered(no, cs[1..])
  }

  /** The pieces between line breaks; a break at the end opens no further line. */
  function SplitLines(s: string): seq<string>
    decreases |s|
  {
    if s == "" then []
    else
      match Find(s, '\n')
      case None => [s]
      case Some(k) => [s[..k]] + SplitLines(s[k + 1..])
  }

  /** The commands of the first `k` lines, numbered from 1. */
  function DecodedTo(codec: Codec, lines: seq<string>, k: nat): Result<seq<Line>, DecodeError>
    requires k <= |lines|
  {
    if k == 0 then Ok([])
    else
      var before := DecodedTo(codec, lines, k - 1);
      if before.Err? then before
      else
        var line := DecodeLine(codec, k, lines[k - 1]);
        if line.Err? then line
        else if |before.value + line.value| > MAX_COMMANDS then Err(TooManyCommands)
        else Ok(before.value + line.value)
  }

  function Decoded(codec: Codec, file: string): Result<seq<Line>, DecodeError> {
    if |file| > MAX_FILE then Err(FileTooLarge) else DecodedTo(codec, SplitLines(file), |SplitLines(file)|)
  }

  method DecodeFile(codec: Codec, file: Option<string>) returns (r: Result<seq<Line>, DecodeError>)
    ensures r == if file.None? then Ok([]) else Decoded(codec, file.value)
  {
    if file.None? {
      return Ok([]);
    }
    if |file.value| > MAX_FILE {
      return Err(FileTooLarge);
    }
    var lines := SplitLines(file.value);
    var commands := [];
    for k := 0 to |lines|
      invariant DecodedTo(codec, lines, k) == Ok(commands)
    {
      var line := DecodeLine(codec, k + 1, lines[k]);
      if line.Err? {
        DecodedStops(codec, lines, k + 1, line.error);
        return Err(line.error);
      }
      commands := commands + line.value;
      if |commands| > MAX_COMMANDS {
        DecodedStops(codec, lines, k + 1, TooManyCommands);
        return Err(TooManyCommands);
      }
    }
    return Ok(commands);
  }

  lemma {:induction false} DecodedStops(codec: Codec, lines: seq<string>, k: nat, e: DecodeError)
    requires k <= |lines| && DecodedTo(codec, lines, k) == Err(e)
    ensures DecodedTo(codec, lines, |lines|) == Err(e)
    decreases |lines| - k
  {
    if k < |lines| {
      DecodedStops(codec, lines, k + 1, e);
    }
  }

  // ---------------------------------------------------------------- the limits

  lemma {:induction false} DecodedLinesFit(codec: Codec, lines: seq<string>, k: nat)
    requires k <= |lines| && DecodedTo(codec, lines, k).Ok?
    ensures forall j :: 0 <= j < k ==> |lines[j]| <= 16_384 && codec.isUtf8(lines[j])
    ensures |DecodedTo(codec, lines, k).value| <= 1024
  {
    if k > 0 {
      DecodedLinesFit(codec, lines, k - 1);
    }
  }

  lemma {:induction false} FirstErrorIsTrue(codec: Codec, lines: seq<string>, k: nat)
    requires k <= |lines| && DecodedTo(codec, lines, k).Err?
    ensures var e := DecodedTo(codec, lines, k).error;
            && !e.FileTooLarge?
            && (e.LineTooLong? ==> 0 < e.no <= k && |lines[e.no - 1]| > 16_384)
            && (e.NotUtf8? ==> 0 < e.no <= k && !codec.isUtf8(lines[e.no - 1]))
            && (e.BadRecord? ==> 0 < e.no <= k && DecodeStream(codec, Trim(lines[e.no - 1])).None?)
  {
    if DecodedTo(codec, lines, k - 1).Err? {
      FirstErrorIsTrue(codec, lines, k - 1);
    }
  }

  /** What decodes is within the limits, and an error says what is wrong where. */
  lemma DecodedWithinLimits(codec: Codec, file: string)
    ensures Decoded(codec, file) == Err(FileTooLarge) <==> |file| > 262_144
    ensures Decoded(codec, file).Ok? ==>
              && (forall k :: 0 <= k < |SplitLines(file)| ==>
                    |SplitLines(file)[k]| <= 16_384 && codec.isUtf8(SplitLines(file)[k]))
              && |Decoded(codec, file).value| <= 1024
    ensures Decoded(codec, file).Err? && !Decoded(codec, file).error.FileTooLarge? ==>
              var e, lines := Decoded(codec, file).error, SplitLines(file);
              && (e.LineTooLong? ==> 0 < e.no <= |lines| && |lines[e.no - 1]| > 16_384)
              && (e.NotUtf8? ==> 0 < e.no <= |lines| && !codec.isUtf8(lines[e.no - 1]))
              && (e.BadRecord? ==> 0 < e.no <= |lines| && DecodeStream(codec, Trim(lines[e.no - 1])).None?)
  {
    var lines := SplitLines(file);
    if DecodedTo(codec, lines, |lines|).Ok? {
      DecodedLinesFit(codec, lines, |lines|);
    } else {
      FirstErrorIsTrue(codec, lines, |lines|);
    }
  }

  // ---------------------------------------------------------------- the round trip

  lemma {:induction false} EncodedIsTrimmed(codec: Codec, cs: seq<Command>)
    requires IsGood(codec) && cs != []
    ensures EncodeAll(codec, cs) != "" && IsTrimmed(EncodeAll(codec, cs))
    ensures forall k :: 0 <= k < |EncodeAll(codec, cs)| ==> EncodeAll(codec, cs)[k] != '\n'
  {
    assert IsLineRecord(codec, cs[0]);
    if |cs| > 1 {
      EncodedIsTrimmed(codec, cs[1..]);
    } else {
      assert EncodeAll(codec, cs[1..]) == "";
    }
  }

  lemma {:induction false} StreamRoundTrip(codec: Codec, cs: seq<Command>)
    requires IsGood(codec)
    ensures DecodeStream(codec, EncodeAll(codec, cs)) == Some(cs)
  {
    if cs != [] {
      var c, rest := cs[0], EncodeAll(codec, cs[1..]);
      StreamRoundTrip(codec, cs[1..]);
      assert IsLineRecord(codec, c);
      var s := codec.enc(c) + rest;
      assert s[0] == codec.enc(c)[0];
      assert SkipSpaces(s) == s;
      assert codec.parse(s) == Some((c, rest));
      assert [c] + cs[1..] == cs;
    }
  }

  /** The spaces of the record format before, between and after records mean nothing. */
  lemma {:induction false} SpacesMeanNothing(codec: Codec, spaces: string, c: Command, rest: string)
    requires IsGood(codec) && forall k :: 0 <= k < |spaces| ==> spaces[k] in {' ', '\t', '\r', '\n'}
    ensures DecodeStream(codec, spaces + rest) == DecodeStream(codec, rest)
    ensures var more := DecodeStream(codec, rest);
            DecodeStream(codec, spaces + codec.enc(c) + rest)
            == if more.Some? then Some([c] + more.value) else None
  {
    if spaces == "" {
      assert spaces + rest == rest && spaces + codec.enc(c) + rest == codec.enc(c) + rest;
      assert IsLineRecord(codec, c);
      var s := codec.enc(c) + rest;
      assert s[0] == codec.enc(c)[0];
      assert SkipSpaces(s) == s && codec.parse(s) == Some((c, rest));
    } else {
      SpacesMeanNothing(codec, spaces[1..], c, rest);
      SkippedSpace(codec, spaces[0], spaces[1..] + rest);
      SkippedSpace(codec, spaces[0], spaces[1..] + codec.enc(c) + rest);
      assert spaces + rest == [spaces[0]] + (spaces[1..] + rest);
      assert spaces + codec.enc(c) + rest == [spaces[0]] + (spaces[1..] + codec.enc(c) + rest);
    }
  }

  lemma SkippedSpace(codec: Codec, space: char, s: string)
    requires space in {' ', '\t', '\r', '\n'}
    ensures DecodeStream(codec, [space] + s) == DecodeStream(codec, s)
  {
    assert ([space] + s)[1..] == s;
    assert SkipSpaces([space] + s) == SkipSpaces(s);
  }

  /** A file of groups of records: each group on one line without separators, the last line perhaps unended. */
  function EncodeFile(codec: Codec, groups: seq<seq<Command>>, ended: bool): string {
    if groups == [] then ""
    else
      EncodeAll(codec, groups[0]) + (if |groups| > 1 || ended then "\n" else "")
      + EncodeFile(codec, groups[1..], ended)
  }

  /** The commands of the groups, each with the number of its group's line. */
  function NumberedGroups(groups: seq<seq<Command>>, k: nat): seq<Line>
    requires k <= |groups|
  {
    if k == 0 then [] else NumberedGroups(groups, k - 1) + Numbered(k, groups[k - 1])
  }

  lemma {:induction false} FindAfter(s: string, rest: string)
    requires forall k :: 0 <= k < |s| ==> s[k] != '\n'
    ensures Find(s + "\n" + rest, '\n') == Some(|s|)
    ensures Find(s, '\n') == None
  {
    if s != "" {
      FindAfter(s[1..], rest);
      assert (s + "\n" + rest)[1..] == s[1..] + "\n" + rest;
    }
  }

  lemma SplitOneLine(line: string, rest: string)
    requires line != "" && forall k :: 0 <= k < |line| ==> line[k] != '\n'
    ensures SplitLines(line + "\n" + rest) == [line] + SplitLines(rest)
    ensures SplitLines(line) == [line]
  {
    FindAfter(line, rest);
    var s := line + "\n" + rest;
    assert s[..|line|] == line && s[|line| + 1..] == rest;
  }

  function EncodedLines(codec: Codec, groups: seq<seq<Command>>): (lines: seq<string>)
    ensures |lines| == |groups|
    ensures forall k :: 0 <= k < |groups| ==> lines[k] == EncodeAll(codec, groups[k])
  {
    if groups == [] then [] else [EncodeAll(codec, groups[0])] + EncodedLines(codec, groups[1..])
  }

  lemma {:induction false} FileSplitsIntoGroups(codec: Codec, groups: seq<seq<Command>>, ended: bool)
    requires IsGood(codec) && forall k :: 0 <= k < |groups| ==> groups[k] != []
    ensures SplitLines(EncodeFile(codec, groups, ended)) == EncodedLines(codec, groups)
  {
    if groups != [] {
      FileSplitsIntoGroups(codec, groups[1..], ended);
      EncodedIsTrimmed(codec, groups[0]);
      hide IsGood, EncodeAll, SplitLines;
      var line, rest := EncodeAll(codec, groups[0]), EncodeFile(codec, groups[1..], ended);
      SplitOneLine(line, rest);
      if |groups| == 1 && !ended {
        assert rest == "" && line + "" + rest == line;
        NoLines();
      }
    }
  }

  lemma NoLines()
    ensures SplitLines("") == []
  {
  }

  lemma LineRoundTrip(codec: Codec, g: seq<Command>, no: nat)
    requires IsGood(codec) && g != [] && |EncodeAll(codec, g)| <= MAX_LINE
    ensures DecodeLine(codec, no, EncodeAll(codec, g)) == Ok(Numbered(no, g))
  {
    EncodedIsTrimmed(codec, g);
    TrimOfTrimmed(EncodeAll(codec, g));
    StreamRoundTrip(codec, g);
  }

  function Flatten(groups: seq<seq<Command>>, k: nat): seq<Command>
    requires k <= |groups|
  {
    if k == 0 then [] else Flatten(groups, k - 1) + groups[k - 1]
  }

  lemma {:induction false} NumberedAreFlat(groups: seq<seq<Command>>, k: nat)
    requires k <= |groups|
    ensures |NumberedGroups(groups, k)| == |Flatten(groups, k)|
    ensures forall i :: 0 <= i < |Flatten(groups, k)| ==> NumberedGroups(groups, k)[i].cmd == Flatten(groups, k)[i]
  {
    if k > 0 {
      NumberedAreFlat(groups, k - 1);
      NumberedKeeps(k, groups[k - 1]);
    }
  }

  lemma {:induction false} NumberedKeeps(no: nat, cs: seq<Command>)
    ensures forall i :: 0 <= i < |cs| ==> Numbered(no, cs)[i] == Outbox.Line(no, cs[i])
  {
    if cs != [] {
      NumberedKeeps(no, cs[1..]);
    }
  }

  predicate GroupsFit(codec: Codec, groups: seq<seq<Command>>) {
    forall k :: 0 <= k < |groups| ==> groups[k] != [] && |EncodeAll(codec, groups[k])| <= MAX_LINE
  }

  lemma {:induction false} GroupsDecode(codec: Codec, groups: seq<seq<Command>>, lines: seq<string>, k: nat)
    requires IsGood(codec) && GroupsFit(codec, groups)
    requires |lines| == |groups| && k <= |groups| && forall j :: 0 <= j < |groups| ==>
        lines[j] == EncodeAll(codec, groups[j])
    requires |NumberedGroups(groups, |groups|)| <= MAX_COMMANDS
    ensures DecodedTo(codec, lines, k) == Ok(NumberedGroups(groups, k))
  {
    if k > 0 {
      GroupsDecode(codec, groups, lines, k - 1);
      LineRoundTrip(codec, groups[k - 1], k);
      NumberedGrows(groups, k, |groups|);
    }
  }

  lemma {:induction false} NumberedGrows(groups: seq<seq<Command>>, j: nat, k: nat)
    requires j <= k <= |groups|
    ensures |NumberedGroups(groups, j)| <= |NumberedGroups(groups, k)|
  {
    if j < k {
      NumberedGrows(groups, j, k - 1);
    }
  }

  /**
    Within the limits, a file of records decodes to exactly those commands in order, however many
    separators between records were lost; only the line numbers tell which were.
   */
  lemma DecodeRoundTrip(codec: Codec, groups: seq<seq<Command>>, ended: bool)
    requires IsGood(codec) && GroupsFit(codec, groups)
    requires |EncodeFile(codec, groups, ended)| <= MAX_FILE && |Flatten(groups, |groups|)| <= MAX_COMMANDS
    ensures Decoded(codec, EncodeFile(codec, groups, ended)) == Ok(NumberedGroups(groups, |groups|))
    ensures |NumberedGroups(groups, |groups|)| == |Flatten(groups, |groups|)|
    ensures forall i :: 0 <= i < |Flatten(groups, |groups|)| ==>
        NumberedGroups(groups, |groups|)[i].cmd == Flatten(groups, |groups|)[i]
  {
    NumberedAreFlat(groups, |groups|);
    FileSplitsIntoGroups(codec, groups, ended);
    GroupsDecode(codec, groups, SplitLines(EncodeFile(codec, groups, ended)), |groups|);
  }

  /** Appending one record to the file appends one command to what it decodes to, on the next line. */
  lemma AppendedRecordDecodesLast(codec: Codec, groups: seq<seq<Command>>, c: Command)
    requires IsGood(codec) && GroupsFit(codec, groups)
    requires |codec.enc(c)| <= MAX_LINE && |EncodeFile(codec, groups, true)| + |codec.enc(c)| + 1 <= MAX_FILE
    requires |Flatten(groups, |groups|)| < MAX_COMMANDS
    ensures Decoded(codec, EncodeFile(codec, groups, true) + codec.enc(c) + "\n")
            == Ok(NumberedGroups(groups, |groups|) + [Outbox.Line(|groups| + 1, c)])
  {
    var more := groups + [[c]];
    EncodeFileAppend(codec, groups, c);
    assert EncodeAll(codec, [c]) == codec.enc(c) by { assert [c][1..] == []; assert codec.enc(c) + "" == codec.enc(c); }
    FlattenOfPrefix(groups, [c], |groups|);
    NumberedOfPrefix(groups, [c], |groups|);
    assert more[..|groups|] == groups;
    DecodeRoundTrip(codec, more, true);
    assert Numbered(|groups| + 1, [c]) == [Outbox.Line(|groups| + 1, c)];
  }

  lemma {:induction false} EncodeFileAppend(codec: Codec, groups: seq<seq<Command>>, c: Command)
    ensures EncodeFile(codec, groups + [[c]], true) == EncodeFile(codec, groups, true) + codec.enc(c) + "\n"
  {
    if groups == [] {
      assert [c][1..] == [] && [[c]][1..] == [];
      assert [] + [[c]] == [[c]];
      assert EncodeAll(codec, [c]) == codec.enc(c) + "" == codec.enc(c);
      assert EncodeFile(codec, [[c]], true) == codec.enc(c) + "\n" + "";
    } else {
      EncodeFileAppend(codec, groups[1..], c);
      assert (groups + [[c]])[1..] == groups[1..] + [[c]];
    }
  }

  lemma {:induction false} FlattenOfPrefix(groups: seq<seq<Command>>, last: seq<Command>, k: nat)
    requires k <= |groups|
    ensures Flatten(groups + [last], k) == Flatten(groups, k)
  {
    if k > 0 {
      FlattenOfPrefix(groups, last, k - 1);
    }
  }

  lemma {:induction false} NumberedOfPrefix(groups: seq<seq<Command>>, last: seq<Command>, k: nat)
    requires k <= |groups|
    ensures NumberedGroups(groups + [last], k) == NumberedGroups(groups, k)
  {
    if k > 0 {
      NumberedOfPrefix(groups, last, k - 1);
    }
  }

  /** Losing separators between records, or the one at the end, changes line numbers and nothing else. */
  lemma SeparatorsOnlyNumberLines(codec: Codec, a: seq<seq<Command>>, aEnded: bool, b: seq<seq<Command>>, bEnded: bool)
    returns (x: seq<Line>, y: seq<Line>)
    requires IsGood(codec) && GroupsFit(codec, a) && GroupsFit(codec, b) && Flatten(a, |a|) == Flatten(b, |b|)
    requires |EncodeFile(codec, a, aEnded)| <= MAX_FILE && |EncodeFile(codec, b, bEnded)| <= MAX_FILE
    requires |Flatten(a, |a|)| <= MAX_COMMANDS
    ensures Decoded(codec, EncodeFile(codec, a, aEnded)) == Ok(x)
    ensures Decoded(codec, EncodeFile(codec, b, bEnded)) == Ok(y)
    ensures |x| == |y| && forall i :: 0 <= i < |x| ==> x[i].cmd == y[i].cmd
  {
    x, y := NumberedGroups(a, |a|), NumberedGroups(b, |b|);
    DecodeRoundTrip(codec, a, aEnded);
    DecodeRoundTrip(codec, b, bEnded);
  }
}
