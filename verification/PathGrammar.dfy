/** The language the path parser accepts, by a grammar of its own, and what it does
    with every input outside it (zizq-derive/src/jq_path.rs). */
module PathGrammar {
  import opened Utf8
  import opened JqPath
  import opened PathParser
  import opened PathParserLaws
  import Decimal

  // --- The grammar, by characters ---

  predicate Digit(c: char) {
    '0' <= c <= '9'
  }

  predicate Letter(c: char) {
    'a' <= c <= 'z' || 'A' <= c <= 'Z' || c == '_'
  }

  /** Characters of a quoted key: plain ones, and backslashes with an ASCII character each. */
  predicate KeyChars(s: string, i: nat, j: nat)
    requires i <= j <= |s|
    decreases j - i
  {
    || i == j
    || (s[i] != '"' && s[i] != '\\' && KeyChars(s, i + 1, j))
    || (s[i] == '\\' && i + 1 < j && s[i + 1] < '\U{0080}' && KeyChars(s, i + 2, j))
  }

  /** The key they spell: a backslash stands for nothing. */
  function KeyText(s: string, i: nat, j: nat): string
    requires i <= j <= |s| && KeyChars(s, i, j)
    decreases j - i
  {
    if i == j then ""
    else if s[i] == '\\' then [s[i + 1]] + KeyText(s, i + 2, j)
    else [s[i]] + KeyText(s, i + 1, j)
  }

  predicate Digits(s: string, i: nat, j: nat) {
    i <= j <= |s| && forall k :: i <= k < j ==> Digit(s[k])
  }

  lemma DigitsAll(s: string, i: nat, j: nat)
    requires Digits(s, i, j)
    ensures Decimal.AllDigits(s[i..j])
  {
  }

  function Numeral(s: string, i: nat, j: nat): nat
    requires Digits(s, i, j)
  {
    DigitsAll(s, i, j);
    Decimal.Value(s[i..j])
  }

  predicate NameAt(s: string, i: nat, j: nat) {
    && i < j <= |s| && Letter(s[i])
    && (forall k :: i < k < j ==> Letter(s[k]) || Digit(s[k]))
    && (j < |s| ==> !Letter(s[j]) && !Digit(s[j]))
  }

  predicate IndexAt(s: string, i: nat, j: nat) {
    && i + 2 < j <= |s| && s[i] == '[' && Digits(s, i + 1, j - 1) && s[j - 1] == ']'
    && Numeral(s, i + 1, j - 1) <= 18446744073709551615
  }

  predicate KeyAt(s: string, i: nat, j: nat) {
    && i + 4 <= j <= |s| && s[i] == '[' && s[i + 1] == '"'
    && KeyChars(s, i + 2, j - 2) && s[j - 2] == '"' && s[j - 1] == ']'
  }

  /** One whole step: a dot, a name up to its end, an index or a key in brackets. */
  predicate WholeStep(s: string, i: nat, j: nat) {
    (i < |s| && s[i] == '.' && j == i + 1) || NameAt(s, i, j) || IndexAt(s, i, j) || KeyAt(s, i, j)
  }

  /** What it adds to the path. */
  function Denotes(s: string, i: nat, j: nat): Path
    requires WholeStep(s, i, j)
  {
    if s[i] == '.' then []
    else if s[i] != '[' then [Field(s[i..j])]
    else if s[i + 1] == '"' then [Field(KeyText(s, i + 2, j - 2))]
    else [Index(Numeral(s, i + 1, j - 1))]
  }

  /** `s[i..j]` is whole steps that spell `path`. */
  ghost predicate Spells(s: string, i: nat, j: nat, path: Path)
    requires i <= j <= |s|
    decreases j - i
  {
    || (i == j && path == [])
    || exists k: nat, rest: Path ::
         i < k <= j && WholeStep(s, i, k) && Spells(s, k, j, rest) && path == Denotes(s, i, k) + rest
  }

  /** A backslash before a character of more than one byte, in a key that opens at `k`. */
  predicate OpensBadKey(s: string, k: nat, b: nat) {
    && k + 2 <= b && b + 1 < |s| && s[k] == '[' && s[k + 1] == '"' && KeyChars(s, k + 2, b)
    && s[b] == '\\' && s[b + 1] >= '\U{0080}'
  }

  /** No whole step starts at `k`: which error that is, and the character it is put at. */
  predicate Stuck(s: string, k: nat, error: ParseError, at: nat) {
    && k < |s|
    && if s[k] != '[' then
         s[k] != '.' && !Letter(s[k]) && error == UnexpectedCharacter(s[k]) && at == k
       else if k + 1 < |s| && s[k + 1] == '"' then BadKey(s, k + 2, error, at)
       else BadIndex(s, k + 1, error, at)
  }

  predicate BadKey(s: string, i: nat, error: ParseError, at: nat) {
    exists j :: i <= j <= |s| && KeyBreaks(s, i, j, error, at)
  }

  predicate KeyBreaks(s: string, i: nat, j: nat, error: ParseError, at: nat)
    requires i <= j <= |s|
  {
    && KeyChars(s, i, j)
    && if j < |s| && s[j] == '"' then
         (j + 1 < |s| ==> s[j + 1] != ']') && error == NoCloseAfterKey && at == j + 1
       else
         (j < |s| ==> s[j] == '\\' && j + 1 == |s|) && error == UnterminatedKey && at == |s|
  }

  predicate BadIndex(s: string, i: nat, error: ParseError, at: nat) {
    exists e :: i <= e <= |s| && Digits(s, i, e) && (e < |s| ==> !Digit(s[e])) &&
      if e == i then error == NoDigitOrKey && at == i
      else if e == |s| || s[e] != ']' then error == NoCloseAfterIndex && at == e
      else Numeral(s, i, e) > 18446744073709551615 && error == InvalidIndex && at == i
  }

  // --- The parser follows whole steps ---

  /** One character of a key, read and spelt. */
  lemma OneKeyChar(s: string, i: nat, j: nat, name: string) returns (m: nat, c: char)
    requires i < j <= |s| && KeyChars(s, i, j)
    ensures i < m <= j && KeyChars(s, m, j) && KeyText(s, i, j) == [c] + KeyText(s, m, j)
    ensures ReadKey(s, i, name) == ReadKey(s, m, name + [c])
  {
    if s[i] == '\\' {
      m, c := i + 2, s[i + 1];
    } else {
      m, c := i + 1, s[i];
    }
  }

  lemma {:induction false} KeyCharsRead(s: string, i: nat, j: nat, name: string)
    requires i <= j <= |s| && KeyChars(s, i, j)
    ensures ReadKey(s, i, name) == ReadKey(s, j, name + KeyText(s, i, j))
    decreases j - i
  {
    hide ReadKey;
    if i == j {
      assert name + "" == name;
    } else {
      var m, c := OneKeyChar(s, i, j, name);
      hide KeyText, KeyChars;
      KeyCharsRead(s, m, j, name + [c]);
      assert name + [c] + KeyText(s, m, j) == name + ([c] + KeyText(s, m, j));
    }
  }

  /** Where reading a key ends: at its quote, at a bad escape, or at the end of input. */
  lemma {:induction false} KeyEnds(s: string, i: nat, name: string) returns (j: nat)
    requires i <= |s|
    ensures i <= j <= |s| && KeyChars(s, i, j)
    ensures match ReadKey(s, i, name)
            case Closed(text, q) => j == q && text == name + KeyText(s, i, j)
            case Split(b) => j == b && b + 1 < |s| && s[b] == '\\' && s[b + 1] >= '\U{0080}'
            case Unclosed => j < |s| ==> s[j] == '\\' && j + 1 == |s|
    decreases |s| - i
  {
    if i == |s| || s[i] == '"' {
      j := i;
      assert name + "" == name;
    } else if s[i] == '\\' && i + 1 < |s| {
      if IsAscii(s[i + 1]) {
        j := KeyEnds(s, i + 2, name + [s[i + 1]]);
        assert name + [s[i + 1]] + KeyText(s, i + 2, j) == name + ([s[i + 1]] + KeyText(s, i + 2, j));
      } else {
        j := i;
      }
    } else if s[i] == '\\' {
      j := i;
      assert ReadKey(s, i + 1, name + [s[i]]).Unclosed?;
    } else {
      j := KeyEnds(s, i + 1, name + [s[i]]);
      assert name + [s[i]] + KeyText(s, i + 1, j) == name + ([s[i]] + KeyText(s, i + 1, j));
    }
  }

  lemma IndexParses(s: string, k: nat, e: nat, n: nat, steps: Path)
    requires k + 1 < e < |s| && s[k] == '[' && s[k + 1] != '"' && e == DigitEnd(s, k + 1) && s[e] == ']'
    requires n == Decimal.Value(s[k + 1..e]) <= USIZE_MAX
    ensures ParseFrom(s, k, steps) == ParseFrom(s, e + 1, steps + [Index(n)])
  {
    assert ParseFrom(s, k, steps) == ParseIndex(s, k + 1, steps);
  }

  lemma KeyParses(s: string, k: nat, q: nat, name: string, steps: Path)
    requires k + 1 < |s| && s[k] == '[' && s[k + 1] == '"'
    requires ReadKey(s, k + 2, "") == Closed(name, q) && q + 1 < |s| && s[q + 1] == ']'
    ensures ParseFrom(s, k, steps) == ParseFrom(s, q + 2, steps + [Field(name)])
  {
    assert ParseFrom(s, k, steps) == ParseKey(s, k + 2, steps);
  }

  lemma NameParses(s: string, i: nat, j: nat, steps: Path)
    requires NameAt(s, i, j)
    ensures ParseFrom(s, i, steps) == ParseFrom(s, j, steps + [Field(s[i..j])])
  {
    NamesEnd(s, i + 1, j);
  }

  lemma IndexStep(s: string, i: nat, j: nat, steps: Path)
    requires IndexAt(s, i, j)
    ensures ParseFrom(s, i, steps) == ParseFrom(s, j, steps + [Index(Numeral(s, i + 1, j - 1))])
  {
    hide ParseFrom;
    DigitsEnd(s, i + 1, j - 1);
    IndexParses(s, i, j - 1, Numeral(s, i + 1, j - 1), steps);
  }

  lemma KeyStep(s: string, i: nat, j: nat, steps: Path)
    requires KeyAt(s, i, j)
    ensures ParseFrom(s, i, steps) == ParseFrom(s, j, steps + [Field(KeyText(s, i + 2, j - 2))])
  {
    hide ParseFrom;
    KeyCharsRead(s, i + 2, j - 2, "");
    var name := KeyText(s, i + 2, j - 2);
    assert "" + name == name;
    KeyParses(s, i, j - 2, name, steps);
  }

  lemma DotParses(s: string, i: nat, steps: Path)
    requires i < |s| && s[i] == '.'
    ensures ParseFrom(s, i, steps) == ParseFrom(s, i + 1, steps + [])
  {
    assert steps + [] == steps;
  }

  lemma StepParses(s: string, i: nat, j: nat, steps: Path)
    requires WholeStep(s, i, j)
    ensures ParseFrom(s, i, steps) == ParseFrom(s, j, steps + Denotes(s, i, j))
  {
    hide ParseFrom, KeyChars, KeyText, Numeral;
    if s[i] == '.' {
      DotParses(s, i, steps);
    } else if NameAt(s, i, j) {
      NameParses(s, i, j, steps);
    } else if s[i + 1] == '"' {
      KeyStep(s, i, j, steps);
    } else {
      IndexStep(s, i, j, steps);
    }
  }

  lemma {:induction false} StepsParse(s: string, i: nat, j: nat, path: Path, steps: Path)
    requires i <= j <= |s| && Spells(s, i, j, path)
    ensures ParseFrom(s, i, steps) == ParseFrom(s, j, steps + path)
    decreases j - i
  {
    hide ParseFrom, Denotes;
    if i == j && path == [] {
      assert steps + path == steps;
    } else {
      var k: nat, rest: Path :|
        i < k <= j && WholeStep(s, i, k) && Spells(s, k, j, rest) && path == Denotes(s, i, k) + rest;
      var more := Denotes(s, i, k);
      hide WholeStep;
      StepParses(s, i, k, steps);
      StepsParse(s, k, j, rest, steps + more);
      assert steps + more + rest == steps + path;
    }
  }

  // --- And stops as the grammar does ---

  lemma BadKeyPanics(s: string, k: nat, b: nat, steps: Path)
    requires OpensBadKey(s, k, b)
    ensures ParseFrom(s, k, steps) == Panicked(Offset(s, b) + 2)
  {
    KeyCharsRead(s, k + 2, b, "");
    assert ReadKey(s, k + 2, "") == Split(b);
    assert ParseFrom(s, k, steps) == ParseKey(s, k + 2, steps);
  }

  lemma StuckFails(s: string, k: nat, error: ParseError, at: nat, steps: Path)
    requires Stuck(s, k, error, at)
    ensures at <= |s| && ParseFrom(s, k, steps) == Failed(error, Offset(s, at))
  {
    if s[k] == '[' {
      if k + 1 < |s| && s[k + 1] == '"' {
        BadKeyFails(s, k + 2, error, at, steps);
        assert ParseFrom(s, k, steps) == ParseKey(s, k + 2, steps);
      } else {
        BadIndexFails(s, k + 1, error, at, steps);
        assert ParseFrom(s, k, steps) == ParseIndex(s, k + 1, steps);
      }
    }
  }

  lemma BadKeyFails(s: string, i: nat, error: ParseError, at: nat, steps: Path)
    requires i <= |s| && BadKey(s, i, error, at)
    ensures at <= |s| && ParseKey(s, i, steps) == Failed(error, Offset(s, at))
  {
    var j :| i <= j <= |s| && KeyBreaks(s, i, j, error, at);
    KeyCharsRead(s, i, j, "");
    var name := "" + KeyText(s, i, j);
    if j < |s| && s[j] == '"' {
      assert ReadKey(s, j, name) == Closed(name, j);
    } else if j < |s| {
      assert ReadKey(s, j + 1, name + [s[j]]).Unclosed?;
    }
  }

  lemma BadIndexFails(s: string, i: nat, error: ParseError, at: nat, steps: Path)
    requires i <= |s| && BadIndex(s, i, error, at)
    ensures at <= |s| && ParseIndex(s, i, steps) == Failed(error, Offset(s, at))
  {
    var e :| i <= e <= |s| && Digits(s, i, e) && (e < |s| ==> !Digit(s[e])) &&
      if e == i then error == NoDigitOrKey && at == i
      else if e == |s| || s[e] != ']' then error == NoCloseAfterIndex && at == e
      else Numeral(s, i, e) > 18446744073709551615 && error == InvalidIndex && at == i;
    DigitRun(s, i, e);
  }

  lemma {:induction false} DigitRun(s: string, i: nat, e: nat)
    requires Digits(s, i, e) && (e < |s| ==> !Digit(s[e]))
    ensures DigitEnd(s, i) == e
    decreases e - i
  {
    if i < e {
      DigitRun(s, i + 1, e);
    }
  }

  /** At every place a whole step starts, a bad key opens, or the grammar is stuck. */
  lemma StepOrStop(s: string, k: nat) returns (j: nat, error: ParseError)
    requires k < |s|
    ensures WholeStep(s, k, j) || OpensBadKey(s, k, j) || Stuck(s, k, error, j)
  {
    error := UnexpectedCharacter(s[k]);
    if s[k] == '.' {
      j := k + 1;
    } else if s[k] != '[' {
      j := if Letter(s[k]) then NameEnd(s, k + 1) else k;
    } else if k + 1 < |s| && s[k + 1] == '"' {
      j, error := KeyOrStop(s, k);
    } else {
      j, error := IndexOrStop(s, k);
    }
  }

  lemma KeyOrStop(s: string, k: nat) returns (j: nat, error: ParseError)
    requires k + 1 < |s| && s[k] == '[' && s[k + 1] == '"'
    ensures KeyAt(s, k, j) || OpensBadKey(s, k, j) || BadKey(s, k + 2, error, j)
  {
    error := UnterminatedKey;
    var e := KeyEnds(s, k + 2, "");
    match ReadKey(s, k + 2, "") {
      case Split(b) => j := b;
      case Unclosed =>
        j := |s|;
        assert KeyBreaks(s, k + 2, e, UnterminatedKey, j);
      case Closed(_, q) =>
        if q + 1 < |s| && s[q + 1] == ']' {
          j := q + 2;
          assert KeyChars(s, k + 2, j - 2);
        } else {
          j, error := q + 1, NoCloseAfterKey;
          assert KeyBreaks(s, k + 2, e, NoCloseAfterKey, j);
        }
    }
  }

  lemma IndexOrStop(s: string, k: nat) returns (j: nat, error: ParseError)
    requires k < |s| && s[k] == '['
    ensures IndexAt(s, k, j) || BadIndex(s, k + 1, error, j)
  {
    var e := DigitEnd(s, k + 1);
    assert Digits(s, k + 1, e);
    if e == k + 1 {
      j, error := k + 1, NoDigitOrKey;
    } else if e == |s| || s[e] != ']' {
      j, error := e, NoCloseAfterIndex;
    } else if Numeral(s, k + 1, e) > 18446744073709551615 {
      j, error := k + 1, InvalidIndex;
    } else {
      j, error := e + 1, InvalidIndex;
    }
  }

  /** Whole steps from `i` up to the end or the first place without one. */
  lemma {:induction false} Trace(s: string, i: nat) returns (k: nat, path: Path, j: nat, error: ParseError)
    requires i <= |s|
    ensures i <= k <= |s| && Spells(s, i, k, path)
    ensures k == |s| || OpensBadKey(s, k, j) || Stuck(s, k, error, j)
    decreases |s| - i
  {
    if i == |s| {
      k, path, j, error := i, [], i, EmptyPath;
    } else {
      j, error := StepOrStop(s, i);
      if WholeStep(s, i, j) {
        var m, rest := j, [];
        k, rest, j, error := Trace(s, m);
        path := Denotes(s, i, m) + rest;
      } else {
        k, path := i, [];
      }
    }
  }

  // --- The three outcomes ---

  /** The parser accepts exactly the inputs that are a dot and then whole steps to their
      end, and returns what the steps spell. */
  lemma ParsedExact(s: string, path: Path)
    ensures ParseSpec(s) == Parsed(path) <==> s != "" && s[0] == '.' && Spells(s, 1, |s|, path)
  {
    if s != "" && s[0] == '.' {
      Outcomes(s);
      if Spells(s, 1, |s|, path) {
        StepsParse(s, 1, |s|, path, []);
        assert [] + path == path;
      }
    }
  }

  /** It reports an error exactly where the grammar is stuck, and says which one. */
  lemma FailedExact(s: string, error: ParseError, position: nat)
    ensures ParseSpec(s) == Failed(error, position) <==>
      if s == "" then error == EmptyPath && position == 0
      else if s[0] != '.' then error == NoLeadingDot && position == 0
      else exists k: nat, path, at: nat :: FailsAt(s, k, path, error, at) && position == |Encode(s[..at])|
  {
    if s != "" && s[0] == '.' {
      Outcomes(s);
      forall k: nat, path, at: nat | FailsAt(s, k, path, error, at)
        ensures ParseSpec(s) == Failed(error, Offset(s, at))
      {
        StepsParse(s, 1, k, path, []);
        StuckFails(s, k, error, at, [] + path);
      }
    }
  }

  ghost predicate FailsAt(s: string, k: nat, path: Path, error: ParseError, at: nat) {
    1 <= k <= |s| && Spells(s, 1, k, path) && Stuck(s, k, error, at) && at <= |s|
  }

  ghost predicate PanicsAt(s: string, k: nat, path: Path, b: nat) {
    1 <= k <= |s| && Spells(s, 1, k, path) && OpensBadKey(s, k, b)
  }

  /** It panics, where it should report an error, exactly when after whole steps a quoted
      key opens in which a backslash stands before a character of more than one byte. */
  lemma PanicExact(s: string, position: nat)
    ensures ParseSpec(s) == Panicked(position) <==>
      s != "" && s[0] == '.' && exists k: nat, path, b: nat :: PanicsAt(s, k, path, b) && position == |Encode(s[..b])| + 2
  {
    if s != "" && s[0] == '.' {
      Outcomes(s);
      forall k: nat, path, b: nat | PanicsAt(s, k, path, b)
        ensures ParseSpec(s) == Panicked(Offset(s, b) + 2)
      {
        StepsParse(s, 1, k, path, []);
        BadKeyPanics(s, k, b, [] + path);
      }
    }
  }

  /** What the parser returns is accounted for by the grammar. */
  lemma Outcomes(s: string)
    requires s != "" && s[0] == '.'
    ensures match ParseSpec(s)
            case Parsed(path) => Spells(s, 1, |s|, path)
            case Failed(error, position) =>
              exists k: nat, path, at: nat :: FailsAt(s, k, path, error, at) && position == Offset(s, at)
            case Panicked(position) =>
              exists k: nat, path, b: nat :: PanicsAt(s, k, path, b) && position == Offset(s, b) + 2
  {
    var k, path, j, error := Trace(s, 1);
    StepsParse(s, 1, k, path, []);
    assert [] + path == path;
    SpecFrom(s);
    if k == |s| {
      NothingLeft(s, path);
    } else if OpensBadKey(s, k, j) {
      BadKeyPanics(s, k, j, path);
      assert PanicsAt(s, k, path, j);
    } else {
      StuckFails(s, k, error, j, path);
      assert FailsAt(s, k, path, error, j);
    }
  }

  lemma SpecFrom(s: string)
    requires s != "" && s[0] == '.'
    ensures ParseSpec(s) == ParseFrom(s, 1, [])
  {
  }

  /** Every reported error position is an index into the input or its length. */
  lemma ErrorPositionInRange(s: string)
    ensures ParseSpec(s).Failed? ==> ParseSpec(s).position <= |Encode(s)|
  {
    if ParseSpec(s).Failed? && s != "" && s[0] == '.' {
      Outcomes(s);
      var k: nat, path, at: nat :|
        FailsAt(s, k, path, ParseSpec(s).error, at) && ParseSpec(s).position == Offset(s, at);
      Boundary(s, at);
    }
  }

  /** A name may not start with a digit. */
  lemma DigitRefused()
    ensures ParseSpec(".9foo") == Failed(UnexpectedCharacter('9'), 1)
  {
    var s := ".9foo";
    assert s[..1][1..] == "" && s[..1][0] == '.';
    assert Offset(s, 1) == 1;
    assert Stuck(s, 1, UnexpectedCharacter('9'), 1);
    StuckFails(s, 1, UnexpectedCharacter('9'), 1, []);
  }

  /** An input that panics. */
  lemma PanicExample()
    ensures ParseSpec(['.', '[', '"', '\\', '\U{00E9}', '"', ']']) == Panicked(5)
  {
    var s := ['.', '[', '"', '\\', '\U{00E9}', '"', ']'];
    assert ReadKey(s, 3, "") == Split(3);
    assert s[..3] == ['.', '[', '"'];
    assert s[..3][1..] == ['[', '"'] && s[..3][1..][1..] == ['"'] && s[..3][1..][1..][1..] == "";
    assert Offset(s, 3) == 3;
    assert ParseFrom(s, 1, []) == ParseKey(s, 3, []);
  }
}
