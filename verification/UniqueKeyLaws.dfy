/** The canonical encoding is injective, and what that says of keys. */
module UniqueKeyLaws {
  import opened Json
  import opened Utf8
  import opened UniqueKey
  import opened CanonicalReads
  import JqPath
  import PathSelection
  import PathRemoval
  import ExclusionLaws

  // --- One way to read each part ---

  lemma TokenUnique(a: string, b: string, r: seq<Byte>, t: seq<Byte>)
    requires StringToken(a) + r == StringToken(b) + t
    ensures a == b && r == t
  {
    Assoc([0x22], StringBody(a), r);
    Assoc([0x22], StringBody(b), t);
    Tail(0x22, StringBody(a) + r);
    Tail(0x22, StringBody(b) + t);
    StringRead(a, r);
    StringRead(b, t);
  }

  lemma NumberUnique(a: string, b: string, r: seq<Byte>, t: seq<Byte>)
    requires NumberChars(a) && NumberChars(b) && Stops(r) && Stops(t)
    requires Encode(a) + r == Encode(b) + t
    ensures a == b && r == t
  {
    NumberRead(a, r);
    NumberRead(b, t);
  }

  /** A value followed by anything that can follow a value is read in one way only. */
  lemma ValueUnique(v: Value, w: Value, r: seq<Byte>, t: seq<Byte>)
    requires Canonical(v) + r == Canonical(w) + t && Stops(r) && Stops(t)
    ensures v == w && r == t
  {
    ValueRead(v, r);
    ValueRead(w, t);
  }

  /** Two values stream the same bytes exactly when they are equal. */
  lemma CanonicalInjective(v: Value, w: Value)
    ensures Canonical(v) == Canonical(w) <==> v == w
  {
    CanonicalParses(v);
    CanonicalParses(w);
  }

  // --- Keys ---

  lemma {:induction false} HexInjective(a: seq<Byte>, b: seq<Byte>)
    requires Hex(a) == Hex(b)
    ensures a == b
  {
    assert |a| == |b|;
    if a != [] {
      var n := |a| - 1;
      HexLast(a);
      HexLast(b);
      HexInjective(a[..n], b[..n]);
      HexCharInjective(a[n] / 16, b[n] / 16);
      HexCharInjective(a[n] % 16, b[n] % 16);
      assert a[n] == b[n];
      assert a == a[..n] + [a[n]] && b == b[..n] + [b[n]];
    }
  }

  /** Each byte is two lower-case hex digits, the high one first. */
  lemma {:induction false} HexDigits(a: seq<Byte>, i: nat)
    requires i < |a|
    ensures Hex(a)[2 * i] == "0123456789abcdef"[a[i] / 16] && Hex(a)[2 * i + 1] == "0123456789abcdef"[a[i] % 16]
    decreases |a|
  {
    var n := |a| - 1;
    HexLast(a);
    if i < n {
      HexDigits(a[..n], i);
      assert Hex(a)[2 * i] == Hex(a)[..2 * n][2 * i] && Hex(a)[2 * i + 1] == Hex(a)[..2 * n][2 * i + 1];
    } else {
      HexLiterally(a[n] / 16);
      HexLiterally(a[n] % 16);
      HexCharLiterally(a[n] / 16);
      HexCharLiterally(a[n] % 16);
    }
  }

  lemma HexCharLiterally(n: nat)
    requires n < 16
    ensures HexChar(n) == "0123456789abcdef"[n]
  {
    assert HexChar(n) as int == HexDigit(n);
  }

  lemma HexLast(a: seq<Byte>)
    requires a != []
    ensures var n, x := |a| - 1, Hex(a);
            x[..2 * n] == Hex(a[..n]) && x[2 * n] == HexChar(a[n] / 16) && x[2 * n + 1] == HexChar(a[n] % 16)
  {
    var n := |a| - 1;
    assert Hex(a) == Hex(a[..n]) + [HexChar(a[n] / 16), HexChar(a[n] % 16)];
  }

  lemma HexCharInjective(m: nat, n: nat)
    requires m < 16 && n < 16 && HexChar(m) == HexChar(n)
    ensures m == n
  {
    assert HexChar(m) as int == HexDigit(m) && HexChar(n) as int == HexDigit(n);
  }

  /** Keys with different tags never coincide, whatever was hashed: the digest has a
      fixed length, so the tag cannot run into it. */
  lemma TaggedKeysSeparate(a: string, b: string, d: Digest, e: Digest)
    ensures TaggedKey(a, d) == TaggedKey(b, e) <==> a == b && d == e
  {
    var x, y := TaggedKey(a, d), TaggedKey(b, e);
    if x == y {
      assert |x| == |a| + 65 && |y| == |b| + 65;
      assert x[..|a|] == a && y[..|b|] == b;
      assert x[|a| + 1..] == Hex(d) && y[|b| + 1..] == Hex(e);
      HexInjective(d, e);
    }
  }

  /** Documents differing only in entry order at any depth give the same pre-image, and
      nothing else does. */
  lemma PreimagesAgree(d: Doc, e: Doc)
    requires WellFormed(d) && WellFormed(e)
    ensures Canonical(Meaning(d)) == Canonical(Meaning(e)) <==> Meaning(d) == Meaning(e)
  {
    CanonicalInjective(Meaning(d), Meaning(e));
  }

  /** Under `payload_only` the hashed bytes of two payloads coincide exactly when every
      selected path reads the same in both. */
  lemma SelectedPreimagesExact(v: Value, w: Value, paths: set<JqPath.Path>)
    ensures Canonical(PathSelection.Selection(v, paths)) == Canonical(PathSelection.Selection(w, paths))
       <==> PathSelection.AgreeOn(v, w, paths)
  {
    CanonicalInjective(PathSelection.Selection(v, paths), PathSelection.Selection(w, paths));
    PathSelection.SelectionExact(v, w, paths);
  }

  /** So, unless SHA-256 collides on these two inputs, tagged keys agree exactly when
      the tags and the selected parts do. */
  lemma SelectedKeysExact(sha: seq<Byte> -> Digest, a: string, b: string, v: Value, w: Value, paths: set<JqPath.Path>)
    requires var x := Canonical(PathSelection.Selection(v, paths));
             var y := Canonical(PathSelection.Selection(w, paths));
             sha(x) == sha(y) ==> x == y
    ensures TaggedKey(a, sha(Canonical(PathSelection.Selection(v, paths))))
         == TaggedKey(b, sha(Canonical(PathSelection.Selection(w, paths))))
       <==> a == b && PathSelection.AgreeOn(v, w, paths)
  {
    SelectedPreimagesExact(v, w, paths);
    TaggedKeysSeparate(a, b, sha(Canonical(PathSelection.Selection(v, paths))), sha(Canonical(PathSelection.Selection(w, paths))));
  }

  /** Under `payload_except` they coincide exactly when the two payloads agree at every
      path the list leaves in place, whatever the list holds. */
  lemma ExcludedPreimagesExact(v: Value, w: Value, paths: seq<JqPath.Path>)
    ensures Canonical(PathRemoval.Except(v, paths)) == Canonical(PathRemoval.Except(w, paths))
       <==> ExclusionLaws.AgreeBut(v, w, paths)
  {
    CanonicalInjective(PathRemoval.Except(v, paths), PathRemoval.Except(w, paths));
    ExclusionLaws.ExceptExact(v, w, paths);
  }

  /** And so do the keys, unless SHA-256 collides on these two inputs. */
  lemma ExcludedKeysExact(sha: seq<Byte> -> Digest, a: string, b: string, v: Value, w: Value, paths: seq<JqPath.Path>)
    requires var x, y := Canonical(PathRemoval.Except(v, paths)), Canonical(PathRemoval.Except(w, paths));
             sha(x) == sha(y) ==> x == y
    ensures TaggedKey(a, sha(Canonical(PathRemoval.Except(v, paths))))
         == TaggedKey(b, sha(Canonical(PathRemoval.Except(w, paths))))
       <==> a == b && ExclusionLaws.AgreeBut(v, w, paths)
  {
    ExcludedPreimagesExact(v, w, paths);
    TaggedKeysSeparate(a, b, sha(Canonical(PathRemoval.Except(v, paths))), sha(Canonical(PathRemoval.Except(w, paths))));
  }
}
