/** Printing is a right inverse of parsing. */
module PathParserLaws {
  import opened Utf8
  import opened JqPath
  import opened PathParser
  import Decimal

  // --- Printing ---

  predicate IsIdentifier(name: string) {
    name != "" && IsNameStart(name[0]) && forall i :: 0 <= i < |name| ==> IsNameCont(name[i])
  }

  function Escape(name: string): string {
    if name == "" then ""
    else (if name[0] == '"' || name[0] == '\\' then ['\\', name[0]] else [name[0]]) + Escape(name[1..])
  }

  /** `dotted` asks for the short form where the name allows it. */
  datatype Printed = Printed(step: PathStep, dotted: bool)

  function PrintStep(p: Printed): string {
    match p.step
    case Index(n) => "[" + Decimal.Print(n) + "]"
    case Field(name) =>
      if p.dotted && IsIdentifier(name) then "." + name else "[\"" + Escape(name) + "\"]"
  }

  function PrintBody(ps: seq<Printed>): string {
    if ps == [] then "" else PrintStep(ps[0]) + PrintBody(ps[1..])
  }

  /** A path starts with a dot; a first dotted step brings its own. */
  function PrintPath(ps: seq<Printed>): string {
    var body := PrintBody(ps);
    if body != "" && body[0] == '.' then body else "." + body
  }

  function StepsOf(ps: seq<Printed>): Path {
    seq(|ps|, i requires 0 <= i < |ps| => ps[i].step)
  }

  predicate Addressable(ps: seq<Printed>) {
    forall i :: 0 <= i < |ps| && ps[i].step.Index? ==> ps[i].step.idx <= USIZE_MAX
  }

  // --- Reading back ---

  predicate HasAt(s: string, k: nat, part: string) {
    k + |part| <= |s| && s[k..k + |part|] == part
  }

  lemma HasParts(s: string, k: nat, a: string, b: string)
    requires HasAt(s, k, a + b)
    ensures HasAt(s, k, a) && HasAt(s, k + |a|, b)
  {
    var whole := s[k..k + |a + b|];
    assert whole[..|a|] == a && whole[|a|..] == b;
    assert s[k..k + |a|] == whole[..|a|];
    assert s[k + |a|..k + |a| + |b|] == whole[|a|..];
  }

  lemma HasIndex(s: string, k: nat, part: string, i: nat)
    requires HasAt(s, k, part) && i < |part|
    ensures s[k + i] == part[i]
  {
    assert s[k..k + |part|][i] == s[k + i];
  }

  lemma {:induction false} ReadEscaped(s: string, k: nat, name: string, acc: string)
    requires HasAt(s, k, Escape(name) + "\"")
    ensures ReadKey(s, k, acc) == Closed(acc + name, k + |Escape(name)|)
    decreases |name|
  {
    if name == "" {
      HasIndex(s, k, "\"", 0);
      assert acc + name == acc;
    } else {
      var c := name[0];
      var head := if c == '"' || c == '\\' then ['\\', c] else [c];
      assert Escape(name) + "\"" == head + (Escape(name[1..]) + "\"");
      HasParts(s, k, head, Escape(name[1..]) + "\"");
      ReadEscaped(s, k + |head|, name[1..], acc + [c]);
      HasIndex(s, k, head, 0);
      if |head| == 2 {
        HasIndex(s, k, head, 1);
      }
      assert acc + [c] + name[1..] == acc + name;
    }
  }

  lemma {:induction false} DigitsEnd(s: string, k: nat, e: nat)
    requires k <= e < |s| && s[e] == ']' && forall i :: k <= i < e ==> Decimal.IsDigit(s[i])
    ensures DigitEnd(s, k) == e
    decreases e - k
  {
    if k < e {
      DigitsEnd(s, k + 1, e);
    }
  }

  lemma {:induction false} NamesEnd(s: string, k: nat, e: nat)
    requires k <= e <= |s| && (e < |s| ==> !IsNameCont(s[e])) && forall i :: k <= i < e ==> IsNameCont(s[i])
    ensures NameEnd(s, k) == e
    decreases e - k
  {
    if k < e {
      NamesEnd(s, k + 1, e);
    }
  }

  /** A printed step starts with a character no name goes on with. */
  lemma BodyStart(ps: seq<Printed>)
    ensures PrintBody(ps) != "" ==> PrintBody(ps)[0] == '.' || PrintBody(ps)[0] == '['
    ensures PrintBody(ps) != "" ==> !IsNameCont(PrintBody(ps)[0])
    ensures PrintBody(ps) == "" <==> ps == []
  {
  }

  lemma IndexLayout(s: string, k: nat, ds: string)
    requires HasAt(s, k, "[" + ds + "]") && ds != "" && Decimal.AllDigits(ds)
    ensures k + |ds| + 2 <= |s| && s[k] == '[' && s[k + 1..k + 1 + |ds|] == ds && s[k + 1 + |ds|] == ']'
    ensures s[k + 1] != '"' && forall i :: k + 1 <= i < k + 1 + |ds| ==> Decimal.IsDigit(s[i])
  {
    assert "[" + ds + "]" == "[" + (ds + "]");
    HasParts(s, k, "[", ds + "]");
    HasParts(s, k + 1, ds, "]");
    HasIndex(s, k, "[", 0);
    HasIndex(s, k + 1 + |ds|, "]", 0);
    HasIndex(s, k + 1, ds, 0);
    forall i | k + 1 <= i < k + 1 + |ds| ensures Decimal.IsDigit(s[i]) {
      HasIndex(s, k + 1, ds, i - k - 1);
    }
  }

  lemma ParseIndexStep(s: string, k: nat, n: nat, acc: Path)
    requires HasAt(s, k, "[" + Decimal.Print(n) + "]") && n <= USIZE_MAX
    ensures var e := k + |Decimal.Print(n)| + 2; e <= |s| && ParseFrom(s, k, acc) == ParseFrom(s, e, acc + [Index(n)])
  {
    var ds := Decimal.Print(n);
    IndexLayout(s, k, ds);
    DigitsEnd(s, k + 1, k + 1 + |ds|);
    Decimal.ValueOfPrint(n);
  }

  lemma QuotedLayout(s: string, k: nat, body: string)
    requires HasAt(s, k, "[\"" + body + "\"]")
    ensures k + |body| + 4 <= |s| && s[k] == '[' && s[k + 1] == '"' && s[k + 3 + |body|] == ']'
    ensures HasAt(s, k + 2, body + "\"")
  {
    assert "[\"" + body + "\"]" == "[\"" + (body + "\"" + "]");
    HasParts(s, k, "[\"", body + "\"" + "]");
    HasParts(s, k + 2, body + "\"", "]");
    HasIndex(s, k, "[\"", 0);
    HasIndex(s, k, "[\"", 1);
    HasIndex(s, k + 2 + |body| + 1, "]", 0);
  }

  lemma ParseQuotedStep(s: string, k: nat, name: string, acc: Path)
    requires HasAt(s, k, "[\"" + Escape(name) + "\"]")
    ensures var e := k + |Escape(name)| + 4; e <= |s| && ParseFrom(s, k, acc) == ParseFrom(s, e, acc + [Field(name)])
  {
    QuotedLayout(s, k, Escape(name));
    ReadEscaped(s, k + 2, name, "");
    assert "" + name == name;
  }

  lemma ParseDottedStep(s: string, k: nat, name: string, acc: Path)
    requires HasAt(s, k, "." + name) && IsIdentifier(name)
    requires k + 1 + |name| < |s| ==> !IsNameCont(s[k + 1 + |name|])
    ensures var e := k + 1 + |name|; e <= |s| && ParseFrom(s, k, acc) == ParseFrom(s, e, acc + [Field(name)])
  {
    HasParts(s, k, ".", name);
    HasIndex(s, k, ".", 0);
    HasIndex(s, k + 1, name, 0);
    forall i | k + 1 <= i < k + 1 + |name| ensures IsNameCont(s[i]) {
      HasIndex(s, k + 1, name, i - k - 1);
    }
    NamesEnd(s, k + 2, k + 1 + |name|);
    assert s[k + 1..k + 1 + |name|] == name;
  }

  lemma ParseOneStep(s: string, k: nat, p: Printed, acc: Path)
    requires HasAt(s, k, PrintStep(p)) && (p.step.Index? ==> p.step.idx <= USIZE_MAX)
    requires var e := k + |PrintStep(p)|; e < |s| ==> !IsNameCont(s[e])
    ensures ParseFrom(s, k, acc) == ParseFrom(s, k + |PrintStep(p)|, acc + [p.step])
  {
    match p.step {
      case Index(n) => ParseIndexStep(s, k, n, acc);
      case Field(name) =>
        if p.dotted && IsIdentifier(name) {
          ParseDottedStep(s, k, name, acc);
        } else {
          ParseQuotedStep(s, k, name, acc);
        }
    }
  }

  lemma BodySplits(s: string, k: nat, head: string, ps: seq<Printed>)
    requires k <= |s| && s[k..] == head + PrintBody(ps)
    ensures HasAt(s, k, head) && s[k + |head|..] == PrintBody(ps)
    ensures k + |head| < |s| ==> !IsNameCont(s[k + |head|])
  {
    BodyStart(ps);
    assert s[k..k + |head|] == s[k..][..|head|];
    assert s[k + |head|..] == s[k..][|head|..];
    if k + |head| < |s| {
      assert s[k + |head|] == s[k + |head|..][0];
    }
  }

  lemma StepsCons(ps: seq<Printed>, acc: Path)
    requires ps != []
    ensures acc + [ps[0].step] + StepsOf(ps[1..]) == acc + StepsOf(ps)
  {
  }

  lemma NothingLeft(s: string, acc: Path)
    ensures ParseFrom(s, |s|, acc) == Parsed(acc)
  {
  }

  lemma {:induction false} ParseBody(s: string, k: nat, ps: seq<Printed>, acc: Path)
    requires k <= |s| && s[k..] == PrintBody(ps) && Addressable(ps)
    ensures ParseFrom(s, k, acc) == Parsed(acc + StepsOf(ps))
    decreases |ps|
  {
    hide ParseFrom, PrintStep, HasAt;
    if ps == [] {
      assert k == |s|;
      assert acc + StepsOf(ps) == acc;
      NothingLeft(s, acc);
    } else {
      BodySplits(s, k, PrintStep(ps[0]), ps[1..]);
      ParseOneStep(s, k, ps[0], acc);
      ParseBody(s, k + |PrintStep(ps[0])|, ps[1..], acc + [ps[0].step]);
      StepsCons(ps, acc);
    }
  }

  /** Printing any list of steps, each in either form it allows, and parsing it back
      gives that list. */
  lemma ParseInvertsPrint(ps: seq<Printed>)
    requires Addressable(ps)
    ensures ParseSpec(PrintPath(ps)) == Parsed(StepsOf(ps))
  {
    var body := PrintBody(ps);
    var s := PrintPath(ps);
    if ps == [] {
      assert s == "." && StepsOf(ps) == [];
    } else {
      BodyStart(ps);
      if body[0] == '.' {
        assert s[0..] == body;
        assert |ps[0].step.name| > 0;
        assert |s| > 1;
        ParseBody(s, 0, ps, []);
      } else {
        assert s[1..] == body;
        ParseBody(s, 1, ps, []);
      }
      assert [] + StepsOf(ps) == StepsOf(ps);
    }
  }
}
