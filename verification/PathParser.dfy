/** The compile-time jq path parser (zizq-derive/src/jq_path.rs). */
module PathParser {
  import opened Utf8
  import opened JqPath
  import Decimal
  import opened Wrappers

  const USIZE_MAX: nat := 0xFFFF_FFFF_FFFF_FFFF

  datatype ParseError =
    | EmptyPath
    | NoLeadingDot
    | UnterminatedKey
    | NoCloseAfterKey
    | NoDigitOrKey
    | NoCloseAfterIndex
    | InvalidIndex
    | UnexpectedCharacter(c: char)

  /** `Panicked` is the source's slice at an index that is not a character boundary. */
  datatype Outcome =
    | Parsed(steps: Path)
    | Failed(error: ParseError, position: nat)
    | Panicked(position: nat)

  predicate IsNameStart(c: char) {
    'a' <= c <= 'z' || 'A' <= c <= 'Z' || c == '_'
  }

  predicate IsNameCont(c: char) {
    IsNameStart(c) || Decimal.IsDigit(c)
  }

  predicate IsAscii(c: char) {
    c as int < 0x80
  }

  // --- Specification, by characters ---

  function DigitEnd(s: string, k: nat): (e: nat)
    requires k <= |s|
    ensures k <= e <= |s| && (e < |s| ==> !Decimal.IsDigit(s[e]))
    ensures forall i :: k <= i < e ==> Decimal.IsDigit(s[i])
    decreases |s| - k
  {
    if k < |s| && Decimal.IsDigit(s[k]) then DigitEnd(s, k + 1) else k
  }

  function NameEnd(s: string, k: nat): (e: nat)
    requires k <= |s|
    ensures k <= e <= |s| && (e < |s| ==> !IsNameCont(s[e]))
    ensures forall i :: k <= i < e ==> IsNameCont(s[i])
    decreases |s| - k
  {
    if k < |s| && IsNameCont(s[k]) then NameEnd(s, k + 1) else k
  }

  /** Reading a quoted key up to its closing quote. */
  datatype Key = Closed(name: string, quote: nat) | Unclosed | Split(backslash: nat)

  function ReadKey(s: string, k: nat, name: string): (r: Key)
    requires k <= |s|
    ensures r.Closed? ==> k <= r.quote < |s| && s[r.quote] == '"'
    ensures r.Split? ==>
              k <= r.backslash < |s| - 1 && s[r.backslash] == '\\' && !IsAscii(s[r.backslash + 1])
    decreases |s| - k
  {
    if k == |s| then Unclosed
    else if s[k] == '"' then Closed(name, k)
    else if s[k] == '\\' && k + 1 < |s| then
      if IsAscii(s[k + 1]) then ReadKey(s, k + 2, name + [s[k + 1]]) else Split(k)
    else ReadKey(s, k + 1, name + [s[k]])
  }

  /** Byte offset of the `k`-th character. */
  function Offset(s: string, k: nat): nat
    requires k <= |s|
  {
    |Encode(s[..k])|
  }

  function ParseKey(s: string, k: nat, steps: Path): Outcome
    requires k <= |s|
    decreases |s| - k, 0
  {
    match ReadKey(s, k, "")
    case Unclosed => Failed(UnterminatedKey, Offset(s, |s|))
    case Split(b) => Panicked(Offset(s, b) + 2)
    case Closed(name, q) =>
      if q + 1 >= |s| || s[q + 1] != ']' then Failed(NoCloseAfterKey, Offset(s, q + 1))
      else ParseFrom(s, q + 2, steps + [Field(name)])
  }

  function ParseIndex(s: string, k: nat, steps: Path): Outcome
    requires k <= |s|
    decreases |s| - k, 0
  {
    var e := DigitEnd(s, k);
    if e == k then Failed(NoDigitOrKey, Offset(s, k))
    else if e >= |s| || s[e] != ']' then Failed(NoCloseAfterIndex, Offset(s, e))
    else
      var index := Decimal.Value(s[k..e]);
      if index > USIZE_MAX then Failed(InvalidIndex, Offset(s, k)) else ParseFrom(s, e + 1, steps + [Index(index)])
  }

  function ParseFrom(s: string, k: nat, steps: Path): Outcome
    requires k <= |s|
    decreases |s| - k, 1
  {
    if k == |s| then Parsed(steps)
    else if s[k] == '[' then
      if k + 1 < |s| && s[k + 1] == '"' then ParseKey(s, k + 2, steps) else ParseIndex(s, k + 1, steps)
    else if s[k] == '.' then ParseFrom(s, k + 1, steps)
    else if IsNameStart(s[k]) then
      var e := NameEnd(s, k + 1);
      ParseFrom(s, e, steps + [Field(s[k..e])])
    else Failed(UnexpectedCharacter(s[k]), Offset(s, k))
  }

  function ParseSpec(s: string): Outcome {
    if s == "." then Parsed([])
    else if s == "" then Failed(EmptyPath, 0)
    else if s[0] != '.' then Failed(NoLeadingDot, 0)
    else ParseFrom(s, 1, [])
  }

  // --- Characters and bytes ---

  /** The character that starts at byte `i`; None if `i` is not a character boundary. */
  function CharIndex(s: string, i: nat): Option<nat> {
    if i == 0 then Some(0)
    else if s == "" || i < |EncodeChar(s[0])| then None
    else
      var rest := CharIndex(s[1..], i - |EncodeChar(s[0])|);
      if rest.None? then None else Some(rest.value + 1)
  }

  lemma OffsetStep(s: string, k: nat)
    requires k < |s|
    ensures Offset(s, k + 1) == Offset(s, k) + |EncodeChar(s[k])|
  {
    assert s[..k + 1] == s[..k] + [s[k]];
    EncodeAppend(s[..k], [s[k]]);
    assert Encode([s[k]]) == EncodeChar(s[k]) + Encode([]) == EncodeChar(s[k]);
  }

  /** The bytes at a character boundary are that character's. */
  lemma Boundary(s: string, k: nat)
    requires k <= |s|
    ensures Offset(s, k) <= |Encode(s)|
    ensures Offset(s, k) == |Encode(s)| <==> k == |s|
    ensures k < |s| ==>
              && Offset(s, k + 1) == Offset(s, k) + |EncodeChar(s[k])| <= |Encode(s)|
              && Encode(s)[Offset(s, k)..Offset(s, k + 1)] == EncodeChar(s[k])
  {
    assert s == s[..k] + s[k..];
    EncodeAppend(s[..k], s[k..]);
    if k < |s| {
      OffsetStep(s, k);
      assert Encode(s[k..]) == EncodeChar(s[k]) + Encode(s[k..][1..]);
      var e := EncodeChar(s[k]);
      assert Encode(s)[Offset(s, k)..] == e + Encode(s[k..][1..]);
      assert (e + Encode(s[k..][1..]))[..|e|] == e;
    } else {
      assert s[k..] == "";
    }
  }

  /** An ASCII character is its own byte; any other starts above 0xC1 and goes on with a
      byte that starts no character. */
  lemma ByteAt(s: string, k: nat)
    requires k < |s|
    ensures Offset(s, k) < |Encode(s)|
    ensures IsAscii(s[k]) ==> Encode(s)[Offset(s, k)] == s[k] as int && Offset(s, k + 1) == Offset(s, k) + 1
    ensures !IsAscii(s[k]) ==>
              && Encode(s)[Offset(s, k)] >= 0xC2 && Offset(s, k + 1) >= Offset(s, k) + 2
              && Offset(s, k) + 1 < |Encode(s)| && 0x80 <= Encode(s)[Offset(s, k) + 1] < 0xC0
  {
    Boundary(s, k);
    Boundary(s, k + 1);
    var slice := Encode(s)[Offset(s, k)..Offset(s, k + 1)];
    assert slice[0] == EncodeChar(s[k])[0];
    assert |slice| > 1 ==> slice[1] == EncodeChar(s[k])[1];
  }

  lemma OffsetTail(s: string, k: nat)
    requires 0 < k <= |s|
    ensures Offset(s, k) == |EncodeChar(s[0])| + Offset(s[1..], k - 1)
  {
    assert s[..k] == [s[0]] + s[1..][..k - 1];
    assert s[..k][1..] == s[1..][..k - 1];
  }

  /** Exactly the character offsets are boundaries. */
  lemma {:induction false} CharIndexAt(s: string, k: nat)
    requires k <= |s|
    ensures CharIndex(s, Offset(s, k)) == Some(k)
    ensures k < |s| && !IsAscii(s[k]) ==> CharIndex(s, Offset(s, k) + 1).None?
  {
    if k > 0 {
      OffsetTail(s, k);
      CharIndexAt(s[1..], k - 1);
    }
  }

  /** `input[a..b]`, which panics off a boundary. */
  function Slice(s: string, a: nat, b: nat): string
    requires CharIndex(s, a).Some? && CharIndex(s, b).Some?
    requires CharIndex(s, a).value <= CharIndex(s, b).value <= |s|
  {
    s[CharIndex(s, a).value..CharIndex(s, b).value]
  }

  // --- The parser ---

  predicate DigitByte(b: Byte) {
    '0' as int <= b <= '9' as int
  }

  predicate NameStartByte(b: Byte) {
    'a' as int <= b <= 'z' as int || 'A' as int <= b <= 'Z' as int || b == '_' as int
  }

  predicate NameContByte(b: Byte) {
    NameStartByte(b) || DigitByte(b)
  }

  /** What the byte at a character boundary tells of the character there. */
  lemma Peek(s: string, k: nat, i: nat)
    requires k <= |s| && i == Offset(s, k)
    ensures i <= |Encode(s)| && (i < |Encode(s)| <==> k < |s|)
    ensures k < |s| ==>
              var b := Encode(s)[i];
              && (b < 0x80 <==> IsAscii(s[k]))
              && (b < 0x80 ==> b == s[k] as int && Offset(s, k + 1) == i + 1)
              && (NameStartByte(b) <==> IsNameStart(s[k]))
              && (NameContByte(b) <==> IsNameCont(s[k]))
              && (DigitByte(b) <==> Decimal.IsDigit(s[k]))
  {
    Boundary(s, k);
    if k < |s| {
      ByteAt(s, k);
    }
  }

  /** As much of that as reading a quoted key needs. */
  lemma PeekKey(s: string, k: nat, i: nat)
    requires k <= |s| && i == Offset(s, k)
    ensures i <= |Encode(s)| && (i < |Encode(s)| <==> k < |s|)
    ensures k < |s| ==> (Encode(s)[i] == '"' as int <==> s[k] == '"')
    ensures k < |s| ==> (Encode(s)[i] == '\\' as int <==> s[k] == '\\')
    ensures k < |s| && s[k] == '\\' ==> (i + 1 < |Encode(s)| <==> k + 1 < |s|)
  {
    Peek(s, k, i);
    if k < |s| && s[k] == '\\' {
      Peek(s, k + 1, i + 1);
    }
  }

  method SkipDigits(bytes: seq<Byte>, start: nat, ghost s: string, ghost k: nat) returns (i: nat)
    requires bytes == Encode(s) && k <= |s| && start == Offset(s, k)
    ensures i == Offset(s, DigitEnd(s, k)) <= |bytes|
  {
    i := start;
    ghost var e := k;
    Peek(s, e, i);
    while i < |bytes| && DigitByte(bytes[i])
      invariant k <= e <= |s| && i == Offset(s, e) <= |bytes|
      invariant DigitEnd(s, e) == DigitEnd(s, k)
    {
      Peek(s, e, i);
      Peek(s, e + 1, i + 1);
      i := i + 1;
      e := e + 1;
    }
    Peek(s, e, i);
  }

  method SkipName(bytes: seq<Byte>, start: nat, ghost s: string, ghost k: nat) returns (i: nat)
    requires bytes == Encode(s) && k <= |s| && start == Offset(s, k)
    ensures i == Offset(s, NameEnd(s, k)) <= |bytes|
  {
    i := start;
    ghost var e := k;
    Peek(s, e, i);
    while i < |bytes| && NameContByte(bytes[i])
      invariant k <= e <= |s| && i == Offset(s, e) <= |bytes|
      invariant NameEnd(s, e) == NameEnd(s, k)
    {
      Peek(s, e, i);
      Peek(s, e + 1, i + 1);
      i := i + 1;
      e := e + 1;
    }
    Peek(s, e, i);
  }

  /** What the quoted-key loop leaves behind, in bytes. */
  predicate KeyRead(s: string, key: Key, name: string, i: nat, panicked: bool) {
    match key
    case Closed(expected, quote) => quote <= |s| && !panicked && name == expected && i == Offset(s, quote)
    case Unclosed => !panicked && i == |Encode(s)|
    case Split(backslash) => backslash <= |s| && panicked && i == Offset(s, backslash) + 2
  }

  /** The loop's index two bytes past a backslash that escapes a multi-byte character. */
  predicate Inside(s: string, e: nat, i: nat) {
    && e < |s| && i == Offset(s, e) + 2 < |Encode(s)|
    && 0x80 <= Encode(s)[i] < 0xC0 && CharIndex(s, i).None?
  }

  lemma EscapeSplits(s: string, e: nat)
    requires e + 1 < |s| && s[e] == '\\' && !IsAscii(s[e + 1])
    ensures Inside(s, e, Offset(s, e) + 2)
  {
    Peek(s, e, Offset(s, e));
    ByteAt(s, e + 1);
    CharIndexAt(s, e + 1);
  }

  /** The loop's index at character `e`, `name` read so far. */
  predicate Reading(s: string, k: nat, e: nat, i: nat, name: string) {
    k <= |s| && e <= |s| && i == Offset(s, e) && ReadKey(s, e, name) == ReadKey(s, k, "")
  }

  lemma ReadingPlain(s: string, k: nat, e: nat, i: nat, name: string)
    requires Reading(s, k, e, i, name) && e < |s| && s[e] != '"' && (s[e] != '\\' || e + 1 == |s|)
    ensures CharIndex(s, i) == Some(e)
    ensures i + |EncodeChar(s[e])| <= |Encode(s)|
    ensures Reading(s, k, e + 1, i + |EncodeChar(s[e])|, name + [s[e]])
  {
    CharIndexAt(s, e);
    Boundary(s, e);
    Boundary(s, e + 1);
  }

  /** After a backslash the next byte is taken as a character, right or not. */
  lemma ReadingEscape(s: string, k: nat, e: nat, i: nat, name: string)
    requires Reading(s, k, e, i, name) && e < |s| && s[e] == '\\' && i + 1 < |Encode(s)|
    ensures e + 1 < |s| && i + 2 <= |Encode(s)|
    ensures IsAscii(s[e + 1]) ==> Reading(s, k, e + 2, i + 2, name + [Encode(s)[i + 1] as char])
    ensures !IsAscii(s[e + 1]) ==> Inside(s, e, i + 2) && ReadKey(s, k, "") == Split(e)
  {
    Peek(s, e, i);
    Peek(s, e + 1, i + 1);
    if !IsAscii(s[e + 1]) {
      EscapeSplits(s, e);
    } else {
      assert Encode(s)[i + 1] as char == s[e + 1];
    }
  }

  method ReadQuoted(s: string, bytes: seq<Byte>, start: nat, ghost k: nat)
    returns (name: string, i: nat, panicked: bool)
    requires bytes == Encode(s) && k <= |s| && start == Offset(s, k)
    ensures KeyRead(s, ReadKey(s, k, ""), name, i, panicked)
  {
    name, i, panicked := "", start, false;
    ghost var e: nat, split := k, false;
    Peek(s, k, start);
    while i < |bytes| && bytes[i] != '"' as int
      invariant i <= |bytes|
      invariant !split ==> Reading(s, k, e, i, name)
      invariant split ==> Inside(s, e, i) && ReadKey(s, k, "") == Split(e)
      decreases |bytes| - i
    {
      if !split {
        PeekKey(s, e, i);
      }
      if bytes[i] == '\\' as int && i + 1 < |bytes| {
        ReadingEscape(s, k, e, i, name);
        name := name + [bytes[i + 1] as char];
        i := i + 2;
        split := !IsAscii(s[e + 1]);
        if !split {
          e := e + 2;
        }
      } else {
        if !split {
          ReadingPlain(s, k, e, i, name);
        }
        var at := CharIndex(s, i);
        if at.None? {
          panicked := true;
          return;
        }
        name := name + [s[at.value]];
        i := i + |EncodeChar(s[at.value])|;
        e := e + 1;
      }
    }
    if !split {
      PeekKey(s, e, i);
    }
  }

  datatype Progress = Advanced(step: PathStep, i: nat) | Stopped(outcome: Outcome)

  /** What one bracketed step, quoted or not, does to the parse, `e` being the character
      it ends at. */
  ghost predicate Steps(s: string, whole: Outcome, r: Progress, k: nat, e: nat, steps: Path) {
    match r
    case Advanced(step, i) =>
      k < e <= |s| && i == Offset(s, e) && whole == ParseFrom(s, e, steps + [step])
    case Stopped(outcome) => whole == outcome
  }

  method ParseQuoted(s: string, bytes: seq<Byte>, start: nat, ghost k: nat, ghost steps: Path)
    returns (r: Progress, ghost e: nat)
    requires bytes == Encode(s) && k <= |s| && start == Offset(s, k)
    ensures Steps(s, ParseKey(s, k, steps), r, k, e, steps)
  {
    var name, i, panicked := ReadQuoted(s, bytes, start, k);
    ghost var key := ReadKey(s, k, "");
    e := k;
    assert s[..|s|] == s;
    if panicked {
      return Stopped(Panicked(i)), e;
    }
    if key.Closed? {
      Peek(s, key.quote, i);
      Peek(s, key.quote + 1, i + 1);
    }
    if i >= |bytes| || bytes[i] != '"' as int {
      return Stopped(Failed(UnterminatedKey, i)), e;
    }
    i := i + 1;
    if i >= |bytes| || bytes[i] != ']' as int {
      return Stopped(Failed(NoCloseAfterKey, i)), e;
    }
    i := i + 1;
    e := key.quote + 2;
    r := Advanced(Field(name), i);
  }

  method ParseNumber(s: string, bytes: seq<Byte>, start: nat, ghost k: nat, ghost steps: Path)
    returns (r: Progress, ghost e: nat)
    requires bytes == Encode(s) && k <= |s| && start == Offset(s, k)
    ensures Steps(s, ParseIndex(s, k, steps), r, k, e, steps)
  {
    var i := SkipDigits(bytes, start, s, k);
    e := DigitEnd(s, k);
    CharIndexAt(s, k);
    CharIndexAt(s, e);
    Peek(s, e, i);
    if i == start {
      return Stopped(Failed(NoDigitOrKey, i)), e;
    }
    if i >= |bytes| || bytes[i] != ']' as int {
      return Stopped(Failed(NoCloseAfterIndex, i)), e;
    }
    var digits := Slice(s, start, i);
    var index := Decimal.Value(digits);
    if index > USIZE_MAX {
      return Stopped(Failed(InvalidIndex, start)), e;
    }
    e := e + 1;
    r := Advanced(Index(index), i + 1);
  }

  /** A bare name from its first character on. */
  method ReadName(s: string, bytes: seq<Byte>, start: nat, ghost k: nat) returns (name: string, i: nat)
    requires bytes == Encode(s) && k < |s| && start == Offset(s, k) && IsNameStart(s[k])
    ensures var e := NameEnd(s, k + 1); name == s[k..e] && i == Offset(s, e) <= |bytes|
  {
    Peek(s, k, start);
    i := SkipName(bytes, start + 1, s, k + 1);
    CharIndexAt(s, k);
    CharIndexAt(s, NameEnd(s, k + 1));
    name := Slice(s, start, i);
  }

  method Parse(input: string) returns (r: Outcome)
    ensures r == ParseSpec(input)
  {
    if input == "." {
      return Parsed([]);
    }
    if input == "" {
      return Failed(EmptyPath, 0);
    }
    var bytes := Encode(input);
    Peek(input, 0, 0);
    if bytes[0] != '.' as int {
      return Failed(NoLeadingDot, 0);
    }
    var steps: Path := [];
    var i := 1;
    ghost var k := 1;
    while i < |bytes|
      invariant k <= |input| && i == Offset(input, k) <= |bytes|
      invariant ParseFrom(input, k, steps) == ParseSpec(input)
      decreases |input| - k
    {
      Peek(input, k, i);
      Peek(input, k + 1, Offset(input, k + 1));
      if bytes[i] == '[' as int {
        var progress;
        ghost var e;
        if i + 1 < |bytes| && bytes[i + 1] == '"' as int {
          Peek(input, k + 2, Offset(input, k + 2));
          progress, e := ParseQuoted(input, bytes, i + 2, k + 2, steps);
        } else {
          progress, e := ParseNumber(input, bytes, i + 1, k + 1, steps);
        }
        match progress {
          case Stopped(outcome) => return outcome;
          case Advanced(step, j) =>
            steps := steps + [step];
            i, k := j, e;
            Peek(input, k, i);
        }
      } else if bytes[i] == '.' as int {
        i, k := i + 1, k + 1;
      } else if NameStartByte(bytes[i]) {
        var name;
        name, i := ReadName(input, bytes, i, k);
        steps := steps + [Field(name)];
        k := NameEnd(input, k + 1);
      } else {
        CharIndexAt(input, k);
        return Failed(UnexpectedCharacter(input[CharIndex(input, i).value]), i);
      }
    }
    Peek(input, k, i);
    r := Parsed(steps);
  }
}
