/** The canonical encoding is JSON: a reader of JSON texts gives the value back. */
module CanonicalReads {
  import opened Json
  import opened Wrappers
  import opened Utf8
  import opened UniqueKey
  import opened JsonReader

  // --- Characters ---

  lemma Base64(n: nat)
    ensures n == n / 64 * 64 + n % 64
    ensures n / 64 == n / 64 / 64 * 64 + n / 64 % 64
    ensures n / 64 / 64 == n / 64 / 64 / 64 * 64 + n / 64 / 64 % 64
  {
  }

  lemma ReadCharBack(c: char, r: seq<Byte>)
    ensures ReadChar(EncodeChar(c) + r) == Some(Read(c, r))
  {
    var n, x := c as int, EncodeChar(c);
    var b := x + r;
    Base64(n);
    assert b[|x|..] == r;
    assert forall i :: 0 <= i < |x| ==> b[i] == x[i];
    assert n as char == c;
  }

  /** What `EscapeChar` writes for each character that may not stand for itself. */
  lemma EscapesLiterally(c: char)
    ensures c == '"' ==> EscapeChar(c) == Encode("\\\"")
    ensures c == '\\' ==> EscapeChar(c) == Encode("\\\\")
    ensures c == '\U{0008}' ==> EscapeChar(c) == Encode("\\b")
    ensures c == '\U{000C}' ==> EscapeChar(c) == Encode("\\f")
    ensures c == '\n' ==> EscapeChar(c) == Encode("\\n")
    ensures c == '\r' ==> EscapeChar(c) == Encode("\\r")
    ensures c == '\t' ==> EscapeChar(c) == Encode("\\t")
    ensures c < '\U{0020}' && c as int !in {8, 9, 10, 12, 13} ==>
              EscapeChar(c) == Encode("\\u00" + ["0123456789abcdef"[c as int / 16], "0123456789abcdef"[c as int % 16]])
    ensures c >= '\U{0020}' && c != '"' && c != '\\' ==> EscapeChar(c) == Encode([c])
  {
    TwoChars('\\', '"');
    TwoChars('\\', '\\');
    TwoChars('\\', 'b');
    TwoChars('\\', 'f');
    TwoChars('\\', 'n');
    TwoChars('\\', 'r');
    TwoChars('\\', 't');
    assert [c][1..] == "";
    if c < '\U{0020}' {
      HexLiterally(c as int / 16);
      HexLiterally(c as int % 16);
      FourZeros("0123456789abcdef"[c as int / 16], "0123456789abcdef"[c as int % 16]);
    }
  }

  lemma TwoChars(a: char, b: char)
    requires a < '\U{0080}' && b < '\U{0080}'
    ensures Encode([a, b]) == [a as int, b as int]
  {
    assert [a, b][1..] == [b] && [b][1..] == "";
    assert Encode([b]) == EncodeChar(b) + Encode("") == [b as int];
    assert Encode([a, b]) == EncodeChar(a) + Encode([b]);
  }

  lemma FourZeros(x: char, y: char)
    requires x < '\U{0080}' && y < '\U{0080}'
    ensures Encode("\\u00" + [x, y]) == [0x5C, 0x75, 0x30, 0x30, x as int, y as int]
  {
    TwoChars('\\', 'u');
    TwoChars('0', '0');
    TwoChars(x, y);
    EncodeAppend("\\u", "00");
    EncodeAppend("\\u00", [x, y]);
    assert "\\u" + "00" == "\\u00";
  }

  lemma HexLiterally(n: nat)
    requires n < 16
    ensures HexDigit(n) == "0123456789abcdef"[n] as int && HexValue(HexDigit(n)) == Some(n)
  {
  }

  lemma ReadEscapeBack(c: char, x: seq<Byte>)
    requires EscapeChar(c)[0] == 0x5C
    ensures ReadEscape((EscapeChar(c) + x)[1..]) == Some(Read(c, x))
  {
    var n, e := c as int, EscapeChar(c);
    var b := (e + x)[1..];
    assert b == e[1..] + x;
    assert forall i :: 0 <= i < |e| - 1 ==> b[i] == e[i + 1];
    assert b[|e| - 1..] == x;
    if |e| == 6 {
      HexLiterally(n / 16);
      HexLiterally(n % 16);
      assert HexValue(0x30) == Some(0);
      assert n == n / 16 * 16 + n % 16 && n as char == c;
    }
  }

  // --- Strings and numbers ---

  lemma BodyHead(a: string, r: seq<Byte>)
    ensures a == "" ==> StringBody(a) + r == [0x22] + r
    ensures a != "" ==> StringBody(a) + r == EscapeChar(a[0]) + (StringBody(a[1..]) + r)
  {
  }

  lemma OneChar(c: char, x: seq<Byte>)
    ensures var b := EscapeChar(c) + x;
            && b != [] && b[0] >= 0x20 && b[0] != 0x22
            && (if b[0] == 0x5C then ReadEscape(b[1..]) else ReadChar(b)) == Some(Read(c, x))
  {
    var e := EscapeChar(c);
    assert (e + x)[0] == e[0];
    if e[0] == 0x5C {
      ReadEscapeBack(c, x);
    } else {
      ReadCharBack(c, x);
    }
  }

  lemma StringStep(b: seq<Byte>, c: char, x: seq<Byte>, s: string, r: seq<Byte>)
    requires b != [] && b[0] >= 0x20 && b[0] != 0x22
    requires (if b[0] == 0x5C then ReadEscape(b[1..]) else ReadChar(b)) == Some(Read(c, x))
    requires ReadString(x) == Some(Read(s, r))
    ensures ReadString(b) == Some(Read([c] + s, r))
  {
  }

  lemma {:induction false} StringRead(s: string, r: seq<Byte>)
    ensures ReadString(StringBody(s) + r) == Some(Read(s, r))
  {
    BodyHead(s, r);
    if s == "" {
      assert ([0x22] + r)[1..] == r;
    } else {
      hide ReadString, ReadEscape, ReadChar, StringBody, EscapeChar;
      var x := StringBody(s[1..]) + r;
      StringRead(s[1..], r);
      OneChar(s[0], x);
      StringStep(EscapeChar(s[0]) + x, s[0], x, s[1..], r);
      assert [s[0]] + s[1..] == s;
    }
  }

  predicate IsNumberByte(b: Byte) {
    0x30 <= b <= 0x39 || b == 0x2B || b == 0x2D || b == 0x2E || b == 0x65 || b == 0x45
  }

  /** What may follow a value: the end, or a byte that cannot continue a number. */
  predicate Stops(r: seq<Byte>) {
    r == [] || !IsNumberByte(r[0])
  }

  predicate NumberChars(a: string) {
    forall i :: 0 <= i < |a| ==> IsNumberChar(a[i])
  }

  lemma NumberStart(a: string, r: seq<Byte>)
    requires a != "" && NumberChars(a)
    ensures IsNumberByte(a[0] as int)
    ensures Encode(a) + r == [a[0] as int] + (Encode(a[1..]) + r)
  {
    assert IsNumberChar(a[0]);
    var x := EncodeChar(a[0]);
    assert x == [a[0] as int];
    assert Encode(a) == x + Encode(a[1..]);
    Assoc(x, Encode(a[1..]), r);
  }

  lemma {:induction false} NumberRead(a: string, r: seq<Byte>)
    requires NumberChars(a) && Stops(r)
    ensures ReadNumber(Encode(a) + r) == Read(a, r)
  {
    if a == "" {
      assert Encode(a) + r == r;
    } else {
      NumberStart(a, r);
      assert NumberChars(a[1..]);
      NumberRead(a[1..], r);
      var b := Encode(a) + r;
      assert b[0] == a[0] as int && b[1..] == Encode(a[1..]) + r;
      assert [a[0]] + a[1..] == a;
    }
  }

  // --- Values ---

  /** The byte a value starts with, by its kind. */
  predicate Starts(v: Value, b: Byte) {
    match v
    case Null => b == 0x6E
    case Bool(x) => b == if x then 0x74 else 0x66
    case Number(_) => IsNumberByte(b)
    case Str(_) => b == 0x22
    case Array(_) => b == 0x5B
    case Object(_) => b == 0x7B
  }

  lemma Words()
    ensures Encode("null") == [0x6E, 0x75, 0x6C, 0x6C]
    ensures Encode("true") == [0x74, 0x72, 0x75, 0x65]
    ensures Encode("false") == [0x66, 0x61, 0x6C, 0x73, 0x65]
  {
    TwoChars('n', 'u');
    TwoChars('l', 'l');
    EncodeAppend("nu", "ll");
    assert "nu" + "ll" == "null";
    TwoChars('t', 'r');
    TwoChars('u', 'e');
    EncodeAppend("tr", "ue");
    assert "tr" + "ue" == "true";
    TwoChars('f', 'a');
    TwoChars('l', 's');
    EncodeAppend("fa", "ls");
    EncodeAppend("fals", "e");
    assert "e"[1..] == "";
    assert "fa" + "ls" == "fals" && "fals" + "e" == "false";
  }

  lemma FirstByte(v: Value)
    ensures Canonical(v) != [] && Starts(v, Canonical(v)[0])
  {
    Words();
    if v.Number? {
      NumberStart(v.token, []);
    }
  }

  ghost predicate KeysIn(v: Value, keys: seq<string>) {
    v.Object? && forall k :: k in keys ==> k in v.fields
  }

  /** The bytes of the items from the second on: a comma and the rest, or the bracket. */
  lemma ItemsGoOn(items: seq<Value>, r: seq<Byte>)
    ensures var b := ItemsBytes(items, false) + r;
            if items == [] then b == [0x5D] + r else b == [0x2C] + (ItemsBytes(items, true) + r)
  {
  }

  lemma ItemsHead(items: seq<Value>, r: seq<Byte>)
    requires items != []
    ensures ItemsBytes(items, true) + r == Canonical(items[0]) + (ItemsBytes(items[1..], false) + r)
  {
  }

  lemma FieldsGoOn(v: Value, keys: seq<string>, r: seq<Byte>)
    requires KeysIn(v, keys)
    ensures var b := FieldsBytes(v, keys, false) + r;
            if keys == [] then b == [0x7D] + r else b == [0x2C] + (FieldsBytes(v, keys, true) + r)
  {
  }

  lemma FieldsHead(v: Value, keys: seq<string>, r: seq<Byte>)
    requires KeysIn(v, keys) && keys != []
    ensures FieldsBytes(v, keys, true) + r
         == [0x22] + (StringBody(keys[0]) + ([0x3A] + (Canonical(v.fields[keys[0]]) + (FieldsBytes(v, keys[1..], false) + r))))
  {
    var f := FieldsBytes(v, keys[1..], false);
    var x := Canonical(v.fields[keys[0]]);
    var t := StringToken(keys[0]);
    assert FieldsBytes(v, keys, true) == t + [0x3A] + x + f;
    Assoc(t + [0x3A] + x, f, r);
    Assoc(t + [0x3A], x, f + r);
    Assoc(t, [0x3A], x + (f + r));
    Assoc([0x22], StringBody(keys[0]), [0x3A] + (x + (f + r)));
  }

  lemma Tail(x: Byte, r: seq<Byte>)
    ensures ([x] + r)[0] == x && ([x] + r)[1..] == r
  {
  }

  lemma ScalarRead(v: Value, r: seq<Byte>)
    requires v.IsScalar() && Stops(r)
    ensures ReadValue(Canonical(v) + r) == Some(Read(v, r))
  {
    Words();
    FirstByte(v);
    var b := Canonical(v) + r;
    assert b[0] == Canonical(v)[0];
    match v {
      case Null => assert b[4..] == r && b[..4] == Canonical(v);
      case Bool(x) => assert b[|Canonical(v)|..] == r && b[..|Canonical(v)|] == Canonical(v);
      case Number(token) => NumberRead(token, r);
      case Str(s) =>
        StringRead(s, r);
        Assoc([0x22], StringBody(s), r);
        Tail(0x22, StringBody(s) + r);
    }
  }

  /** Reading the encoding of a value gives the value back, and leaves what follows. */
  lemma {:induction false} ValueRead(v: Value, r: seq<Byte>)
    requires Stops(r)
    ensures ReadValue(Canonical(v) + r) == Some(Read(v, r))
    decreases v, 1
  {
    match v {
      case Array(items) => ArrayRead(v, r);
      case Object(fields) => ObjectRead(v, r);
      case _ => ScalarRead(v, r);
    }
  }

  lemma ItemsStart(b: seq<Byte>, rest: seq<Byte>)
    requires b == [0x5B] + rest && rest != [] && rest[0] != 0x5D
    ensures ReadValue(b) == ReadItems(rest, [])
  {
    assert b[0] == 0x5B && b[1] != 0x5D && b[1..] == rest;
  }

  lemma NoItems(b: seq<Byte>, r: seq<Byte>)
    requires b == [0x5B] + ([0x5D] + r)
    ensures ReadValue(b) == Some(Read(Array([]), r))
  {
    assert b[0] == 0x5B && b[1] == 0x5D && b[2..] == r;
  }

  lemma {:induction false} ArrayRead(v: Value, r: seq<Byte>)
    requires v.Array?
    ensures ReadValue(Canonical(v) + r) == Some(Read(v, r))
    decreases v, 0
  {
    hide ReadValue, ReadItems;
    var items := v.items;
    var b := Canonical(v) + r;
    var rest := ItemsBytes(items, true) + r;
    assert b == [0x5B] + rest;
    if items == [] {
      NoItems(b, r);
    } else {
      hide Canonical, ItemsBytes;
      FirstByte(items[0]);
      ItemsHead(items, r);
      ItemsStart(b, rest);
      ItemsRead(items, [], r);
      assert [] + items == items;
    }
  }

  lemma {:induction false} ItemsRead(items: seq<Value>, done: seq<Value>, r: seq<Byte>)
    requires items != []
    ensures ReadItems(ItemsBytes(items, true) + r, done) == Some(Read(Array(done + items), r))
    decreases items, 0
  {
    hide ReadValue, Canonical, ItemsBytes;
    var after := ItemsBytes(items[1..], false) + r;
    ItemsHead(items, r);
    ItemsGoOn(items[1..], r);
    var next := if items[1..] == [] then r else ItemsBytes(items[1..], true) + r;
    Tail(if items[1..] == [] then 0x5D else 0x2C, next);
    ValueRead(items[0], after);
    assert done + [items[0]] + items[1..] == done + items;
    if items[1..] == [] {
      assert done + [items[0]] == done + items;
    } else {
      ItemsRead(items[1..], done + [items[0]], r);
    }
  }

  function Chosen(v: Value, keys: seq<string>): map<string, Value>
    requires v.Object?
  {
    map k | k in keys && k in v.fields :: v.fields[k]
  }

  lemma MembersStart(b: seq<Byte>, rest: seq<Byte>)
    requires b == [0x7B] + rest && rest != [] && rest[0] == 0x22
    ensures ReadValue(b) == ReadMembers(rest, map[])
  {
    assert b[0] == 0x7B && b[1] == 0x22 && b[1..] == rest;
  }

  /** One member and what comes after it. */
  lemma MemberStep(b: seq<Byte>, fields: map<string, Value>, k: string, m: seq<Byte>, v: Value, rest: seq<Byte>)
    requires b != [] && b[0] == 0x22 && ReadString(b[1..]) == Some(Read(k, m)) && k !in fields
    requires m != [] && m[0] == 0x3A && ReadValue(m[1..]) == Some(Read(v, rest)) && rest != []
    ensures rest[0] == 0x2C ==> ReadMembers(b, fields) == ReadMembers(rest[1..], fields[k := v])
    ensures rest[0] == 0x7D ==> ReadMembers(b, fields) == Some(Read(Object(fields[k := v]), rest[1..]))
  {
  }

  lemma {:induction false} ObjectRead(v: Value, r: seq<Byte>)
    requires v.Object?
    ensures ReadValue(Canonical(v) + r) == Some(Read(v, r))
    decreases v, 0, |v.fields.Keys| + 1
  {
    var keys := KeyList(v.fields.Keys);
    assert forall k :: k in keys <==> k in Elements(keys);
    var b := Canonical(v) + r;
    var rest := FieldsBytes(v, keys, true) + r;
    assert b == [0x7B] + rest;
    Tail(0x7B, rest);
    assert map[] + Chosen(v, keys) == v.fields;
    if keys == [] {
      assert rest == [0x7D] + r && b[2..] == r;
      assert v.fields == map[];
    } else {
      FieldsHead(v, keys, r);
      MembersStart(b, rest);
      hide ReadValue, ReadMembers, Canonical, FieldsBytes, Chosen;
      KeysCounted(keys);
      FieldsRead(v, keys, map[], r);
    }
  }

  lemma {:induction false} KeysCounted(keys: seq<string>)
    requires Sorted(keys)
    ensures |keys| == |Elements(keys)|
  {
    if keys != [] {
      KeysCounted(keys[1..]);
      assert Elements(keys) == {keys[0]} + Elements(keys[1..]);
    }
  }

  lemma OneMember(k: string, c: seq<Byte>, x: Value, after: seq<Byte>, done: map<string, Value>)
    requires ReadValue(c + after) == Some(Read(x, after)) && after != [] && k !in done
    ensures var b := [0x22] + (StringBody(k) + ([0x3A] + (c + after)));
            && (after[0] == 0x2C ==> ReadMembers(b, done) == ReadMembers(after[1..], done[k := x]))
            && (after[0] == 0x7D ==> ReadMembers(b, done) == Some(Read(Object(done[k := x]), after[1..])))
  {
    hide ReadValue, ReadMembers, ReadString, StringBody;
    Tail(0x3A, c + after);
    StringRead(k, [0x3A] + (c + after));
    Tail(0x22, StringBody(k) + ([0x3A] + (c + after)));
    MemberStep([0x22] + (StringBody(k) + ([0x3A] + (c + after))), done, k, [0x3A] + (c + after), x, after);
  }

  lemma ChosenFirst(v: Value, keys: seq<string>, done: map<string, Value>)
    requires KeysIn(v, keys) && keys != []
    ensures var more := done[keys[0] := v.fields[keys[0]]];
            && more + Chosen(v, keys[1..]) == done + Chosen(v, keys)
            && (keys[1..] == [] ==> more == done + Chosen(v, keys))
  {
  }

  lemma {:induction false} FieldsRead(v: Value, keys: seq<string>, done: map<string, Value>, r: seq<Byte>)
    requires KeysIn(v, keys) && keys != [] && Sorted(keys) && forall k :: k in keys ==> k !in done
    ensures ReadMembers(FieldsBytes(v, keys, true) + r, done) == Some(Read(Object(done + Chosen(v, keys)), r))
    decreases v, 0, |keys|
  {
    hide ReadValue, Canonical, FieldsBytes, ReadString, StringBody, ReadMembers, Chosen;
    var k, x := keys[0], v.fields[keys[0]];
    var after := FieldsBytes(v, keys[1..], false) + r;
    FieldsHead(v, keys, r);
    FieldsGoOn(v, keys[1..], r);
    var next := if keys[1..] == [] then r else FieldsBytes(v, keys[1..], true) + r;
    Tail(if keys[1..] == [] then 0x7D else 0x2C, next);
    ValueRead(x, after);
    OneMember(k, Canonical(x), x, after, done);
    ChosenFirst(v, keys, done);
    if keys[1..] != [] {
      FieldsRead(v, keys[1..], done[k := x], r);
    }
  }

  /** Reading a whole canonical text gives exactly the value it was written for. */
  lemma CanonicalParses(v: Value)
    ensures Parse(Canonical(v)) == Some(v)
  {
    assert Canonical(v) + [] == Canonical(v);
    ValueRead(v, []);
  }
}
