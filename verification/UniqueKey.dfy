/** The canonical JSON encoding hashed into unique and batch keys
    (zizq/src/unique_key.rs), and why it is faithful. */
module UniqueKey {
  import opened Json
  import opened Utf8

  // --- Key order ---

  /** The order of code points. */
  predicate Le(a: string, b: string) {
    a == "" || (b != "" && (a[0] < b[0] || (a[0] == b[0] && Le(a[1..], b[1..]))))
  }

  /** It is Rust's `str` order, which compares UTF-8 bytes. */
  lemma {:induction false} LeIsByteOrder(a: string, b: string)
    ensures Le(a, b) <==> BytesLe(Encode(a), Encode(b))
  {
    if a != "" && b != "" {
      var r, t := Encode(a[1..]), Encode(b[1..]);
      if a[0] == b[0] {
        LeIsByteOrder(a[1..], b[1..]);
        SharedPrefix(EncodeChar(a[0]), r, t);
      } else if a[0] < b[0] {
        CharOrder(a[0], b[0], r, t);
      } else {
        CharOrder(b[0], a[0], t, r);
      }
    }
  }

  lemma {:induction false} LeTotal(a: string, b: string)
    ensures Le(a, b) || Le(b, a)
  {
    if a != "" && b != "" && a[0] == b[0] {
      LeTotal(a[1..], b[1..]);
    }
  }

  lemma {:induction false} LeAntisymmetric(a: string, b: string)
    requires Le(a, b) && Le(b, a)
    ensures a == b
  {
    if a != "" && b != "" {
      LeAntisymmetric(a[1..], b[1..]);
      assert a == [a[0]] + a[1..] && b == [b[0]] + b[1..];
    }
  }

  lemma {:induction false} LeTransitive(a: string, b: string, c: string)
    requires Le(a, b) && Le(b, c)
    ensures Le(a, c)
  {
    if a != "" && a[0] == b[0] == c[0] {
      LeTransitive(a[1..], b[1..], c[1..]);
    }
  }

  predicate Sorted(keys: seq<string>) {
    forall i, j :: 0 <= i < j < |keys| ==> Le(keys[i], keys[j]) && keys[i] != keys[j]
  }

  ghost function Elements(keys: seq<string>): set<string> {
    set k | k in keys
  }

  /** `keys.sort_unstable()` on the distinct keys of a map. */
  function Insert(keys: seq<string>, k: string): seq<string> {
    if keys == [] then [k]
    else if Le(k, keys[0]) then [k] + keys
    else [keys[0]] + Insert(keys[1..], k)
  }

  function SortKeys(keys: seq<string>): seq<string> {
    if keys == [] then [] else Insert(SortKeys(keys[1..]), keys[0])
  }

  predicate Distinct(keys: seq<string>) {
    forall i, j :: 0 <= i < j < |keys| ==> keys[i] != keys[j]
  }

  lemma {:induction false} InsertSorted(keys: seq<string>, k: string)
    requires Sorted(keys) && k !in keys
    ensures Sorted(Insert(keys, k)) && Elements(Insert(keys, k)) == Elements(keys) + {k}
  {
    if keys != [] {
      if Le(k, keys[0]) {
        forall i | 0 <= i < |keys| ensures Le(k, keys[i]) {
          LeTotal(keys[0], keys[0]);
          LeTransitive(k, keys[0], keys[i]);
        }
      } else {
        LeTotal(k, keys[0]);
        InsertSorted(keys[1..], k);
        var rest := Insert(keys[1..], k);
        forall x | x in rest ensures Le(keys[0], x) && keys[0] != x {
          assert x in Elements(rest);
        }
        assert Elements(keys) == {keys[0]} + Elements(keys[1..]);
        assert Elements([keys[0]] + rest) == {keys[0]} + Elements(rest);
      }
    }
  }

  lemma {:induction false} SortKeysSorts(keys: seq<string>)
    requires Distinct(keys)
    ensures Sorted(SortKeys(keys)) && Elements(SortKeys(keys)) == Elements(keys)
  {
    if keys != [] {
      SortKeysSorts(keys[1..]);
      assert keys[0] !in Elements(keys[1..]);
      InsertSorted(SortKeys(keys[1..]), keys[0]);
      assert Elements(keys) == {keys[0]} + Elements(keys[1..]);
    }
  }

  lemma NoElements(keys: seq<string>)
    ensures Elements(keys) == {} <==> keys == []
  {
    if keys != [] {
      assert keys[0] in Elements(keys);
    }
  }

  /** There is only one way to list a set of keys in order. */
  lemma {:induction false} SortedUnique(a: seq<string>, b: seq<string>)
    requires Sorted(a) && Sorted(b) && Elements(a) == Elements(b)
    ensures a == b
  {
    if a == [] || b == [] {
      NoElements(a);
      NoElements(b);
    } else {
      assert a[0] in Elements(b) && b[0] in Elements(a);
      LeTotal(a[0], a[0]);
      LeTotal(b[0], b[0]);
      LeAntisymmetric(a[0], b[0]);
      assert Elements(a[1..]) == Elements(a) - {a[0]} by { assert a == [a[0]] + a[1..]; }
      assert Elements(b[1..]) == Elements(b) - {b[0]} by { assert b == [b[0]] + b[1..]; }
      SortedUnique(a[1..], b[1..]);
      assert a == [a[0]] + a[1..] && b == [b[0]] + b[1..];
    }
  }

  // --- The encoding ---

  const QUOTE: Byte := 0x22
  const BACKSLASH: Byte := 0x5C
  const COMMA: Byte := 0x2C
  const COLON: Byte := 0x3A

  function HexDigit(n: nat): (r: Byte)
    requires n < 16
    ensures 0x30 <= r <= 0x39 || 0x61 <= r <= 0x66
  {
    if n < 10 then 0x30 + n else 0x61 + (n - 10)
  }

  /** `serde_json`'s string escaping (section 7 of RFC 8259): the quote, the backslash
      and the control characters are escaped, everything else is written as UTF-8. */
  function EscapeChar(c: char): (r: seq<Byte>)
    ensures r != [] && r[0] != QUOTE
  {
    var n := c as int;
    if n == 0x22 then [BACKSLASH, QUOTE]
    else if n == 0x5C then [BACKSLASH, BACKSLASH]
    else if n == 0x08 then [BACKSLASH, 0x62]
    else if n == 0x09 then [BACKSLASH, 0x74]
    else if n == 0x0A then [BACKSLASH, 0x6E]
    else if n == 0x0C then [BACKSLASH, 0x66]
    else if n == 0x0D then [BACKSLASH, 0x72]
    else if n < 0x20 then [BACKSLASH, 0x75, 0x30, 0x30, HexDigit(n / 16), HexDigit(n % 16)]
    else EncodeChar(c)
  }

  function StringBody(s: string): seq<Byte> {
    if s == "" then [QUOTE] else EscapeChar(s[0]) + StringBody(s[1..])
  }

  function StringToken(s: string): seq<Byte> {
    [QUOTE] + StringBody(s)
  }

  /** The one sorted listing of a map's keys. */
  ghost function KeyList(keys: set<string>): (r: seq<string>)
    ensures Sorted(r) && Elements(r) == keys
  {
    KeyListExists(keys);
    var r :| Sorted(r) && Elements(r) == keys;
    r
  }

  lemma {:induction false} KeyListExists(keys: set<string>)
    ensures exists r :: Sorted(r) && Elements(r) == keys
  {
    if keys == {} {
      assert Sorted([]) && Elements([]) == keys;
    } else {
      var k :| k in keys;
      KeyListExists(keys - {k});
      var r :| Sorted(r) && Elements(r) == keys - {k};
      assert k !in Elements(r);
      InsertSorted(r, k);
      assert Elements(Insert(r, k)) == keys;
    }
  }

  function Separator(first: bool): seq<Byte> {
    if first then [] else [COMMA]
  }

  /** The bytes streamed for a value. Objects list their keys in order. */
  ghost function Canonical(v: Value): seq<Byte>
    decreases v, 1
  {
    match v
    case Null => Encode("null")
    case Bool(b) => if b then Encode("true") else Encode("false")
    case Number(token) => Encode(token)
    case Str(s) => StringToken(s)
    case Array(items) => [0x5B] + ItemsBytes(items, true)
    case Object(fields) => [0x7B] + FieldsBytes(v, KeyList(fields.Keys), true)
  }

  ghost function ItemsBytes(items: seq<Value>, first: bool): seq<Byte>
    decreases items, 0
  {
    if items == [] then [0x5D]
    else Separator(first) + Canonical(items[0]) + ItemsBytes(items[1..], false)
  }

  ghost function FieldsBytes(v: Value, keys: seq<string>, first: bool): seq<Byte>
    requires v.Object? && forall k :: k in keys ==> k in v.fields
    decreases v, 0, keys
  {
    if keys == [] then [0x7D]
    else
      Separator(first) + StringToken(keys[0]) + [COLON] + Canonical(v.fields[keys[0]]) + FieldsBytes(v, keys[1..], false)
  }

  // --- write_canonical ---

  /** A JSON document with its object entries in some order, the keys of each object
      distinct: what `write_canonical` iterates over. */
  datatype Doc =
    | DNull
    | DBool(b: bool)
    | DNumber(token: NumberToken)
    | DStr(s: string)
    | DArray(items: seq<Doc>)
    | DObject(entries: seq<Entry>)

  datatype Entry = Entry(key: string, value: Doc)

  function Keys(entries: seq<Entry>): (r: seq<string>)
    ensures |r| == |entries|
  {
    seq(|entries|, i requires 0 <= i < |entries| => entries[i].key)
  }

  predicate WellFormed(d: Doc) {
    match d
    case DArray(items) => forall i :: 0 <= i < |items| ==> WellFormed(items[i])
    case DObject(entries) =>
      Distinct(Keys(entries)) && forall i :: 0 <= i < |entries| ==> WellFormed(entries[i].value)
    case _ => true
  }

  function Find(entries: seq<Entry>, key: string): (i: nat)
    requires key in Keys(entries)
    ensures i < |entries| && entries[i].key == key
  {
    if entries[0].key == key then 0
    else
      assert Keys(entries)[1..] == Keys(entries[1..]);
      1 + Find(entries[1..], key)
  }

  /** The value a document denotes: entry order is forgotten. */
  function Meaning(d: Doc): Value {
    match d
    case DNull => Null
    case DBool(b) => Bool(b)
    case DNumber(token) => Number(token)
    case DStr(s) => Str(s)
    case DArray(items) => Array(seq(|items|, i requires 0 <= i < |items| => Meaning(items[i])))
    case DObject(entries) => Object(map k | k in Keys(entries) :: Meaning(entries[Find(entries, k)].value))
  }

  /** `serde_json::to_string` on a scalar. */
  function ScalarToken(d: Doc): seq<Byte> {
    match d
    case DNull => Encode("null")
    case DBool(b) => if b then Encode("true") else Encode("false")
    case DNumber(token) => Encode(token)
    case DStr(s) => StringToken(s)
    case _ => []
  }

  /** An `Update` sink: the hasher's input so far. */
  class Hasher {
    var bytes: seq<Byte>

    constructor ()
      ensures bytes == []
    {
      bytes := [];
    }

    method Update(data: seq<Byte>)
      modifies this
      ensures bytes == old(bytes) + data
    {
      bytes := bytes + data;
    }
  }

  lemma KeysSorted(entries: seq<Entry>)
    requires Distinct(Keys(entries))
    ensures SortKeys(Keys(entries)) == KeyList(Meaning(DObject(entries)).fields.Keys)
  {
    var keys := Keys(entries);
    SortKeysSorts(keys);
    var fields := Meaning(DObject(entries)).fields;
    assert fields.Keys == Elements(keys);
    SortedUnique(SortKeys(keys), KeyList(fields.Keys));
  }

  lemma Assoc(a: seq<Byte>, b: seq<Byte>, c: seq<Byte>)
    ensures a + b + c == a + (b + c)
  {
  }

  lemma Assoc5(a: seq<Byte>, b: seq<Byte>, c: seq<Byte>, d: seq<Byte>, e: seq<Byte>, f: seq<Byte>)
    ensures a + (b + c + d + e + f) == a + b + c + d + e + f
  {
  }

  lemma ItemsStep(items: seq<Value>, i: nat, before: seq<Byte>)
    requires i < |items|
    ensures before + ItemsBytes(items[i..], i == 0)
         == before + Separator(i == 0) + Canonical(items[i]) + ItemsBytes(items[i + 1..], false)
  {
    assert items[i..][0] == items[i] && items[i..][1..] == items[i + 1..];
    var s, c, rest := Separator(i == 0), Canonical(items[i]), ItemsBytes(items[i + 1..], false);
    assert before + (s + c + rest) == before + s + c + rest;
  }

  lemma FieldsStep(v: Value, keys: seq<string>, i: nat, before: seq<Byte>)
    requires v.Object? && i < |keys| && forall k :: k in keys ==> k in v.fields
    ensures before + FieldsBytes(v, keys[i..], i == 0)
         == before + Separator(i == 0) + StringToken(keys[i]) + [COLON] + Canonical(v.fields[keys[i]])
            + FieldsBytes(v, keys[i + 1..], false)
  {
    assert keys[i..][0] == keys[i] && keys[i..][1..] == keys[i + 1..];
    Assoc5(before, Separator(i == 0), StringToken(keys[i]), [COLON], Canonical(v.fields[keys[i]]),
           FieldsBytes(v, keys[i + 1..], false));
  }

  method WriteSeparator(i: nat, hasher: Hasher)
    modifies hasher
    ensures hasher.bytes == old(hasher.bytes) + Separator(i == 0)
  {
    if i > 0 {
      hasher.Update([COMMA]);
    }
  }

  method WriteCanonical(value: Doc, hasher: Hasher)
    requires WellFormed(value)
    modifies hasher
    ensures hasher.bytes == old(hasher.bytes) + Canonical(Meaning(value))
    decreases value, 3
  {
    match value {
      case DObject(entries) => WriteObject(value, hasher);
      case DArray(items) => WriteArray(value, hasher);
      case _ => hasher.Update(ScalarToken(value));
    }
  }

  method WriteArray(value: Doc, hasher: Hasher)
    requires value.DArray? && WellFormed(value)
    modifies hasher
    ensures hasher.bytes == old(hasher.bytes) + Canonical(Meaning(value))
    decreases value, 0
  {
    ghost var items := Meaning(value).items;
    hasher.Update([0x5B]);
    ghost var goal := hasher.bytes + ItemsBytes(items, true);
    Assoc(old(hasher.bytes), [0x5B], ItemsBytes(items, true));
    assert items[0..] == items;
    for i := 0 to |value.items|
      invariant hasher.bytes + ItemsBytes(items[i..], i == 0) == goal
    {
      ItemsStep(items, i, hasher.bytes);
      WriteSeparator(i, hasher);
      WriteCanonical(value.items[i], hasher);
    }
    hasher.Update([0x5D]);
  }

  method WriteEntry(value: Doc, key: string, hasher: Hasher)
    requires value.DObject? && WellFormed(value) && key in Keys(value.entries)
    modifies hasher
    ensures hasher.bytes
         == old(hasher.bytes) + StringToken(key) + [COLON] + Canonical(Meaning(value).fields[key])
    decreases value, 0
  {
    hasher.Update(StringToken(key));
    hasher.Update([COLON]);
    WriteCanonical(value.entries[Find(value.entries, key)].value, hasher);
  }

  lemma ObjectKeys(value: Doc)
    requires value.DObject? && WellFormed(value)
    ensures var keys := SortKeys(Keys(value.entries));
            && (forall k :: k in keys ==> k in Keys(value.entries) && k in Meaning(value).fields)
            && Canonical(Meaning(value)) == [0x7B] + FieldsBytes(Meaning(value), keys, true)
  {
    var keys := SortKeys(Keys(value.entries));
    KeysSorted(value.entries);
    forall k | k in keys ensures k in Keys(value.entries) {
      assert k in Elements(keys);
    }
  }

  lemma FieldsDone(v: Value, first: bool)
    requires v.Object?
    ensures FieldsBytes(v, [], first) == [0x7D]
  {
  }

  /** The entry loop and the closing brace. */
  method WriteFields(value: Doc, keys: seq<string>, hasher: Hasher)
    requires value.DObject? && WellFormed(value)
    requires forall k :: k in keys ==> k in Keys(value.entries) && k in Meaning(value).fields
    modifies hasher
    ensures hasher.bytes == old(hasher.bytes) + FieldsBytes(Meaning(value), keys, true)
    decreases value, 1
  {
    hide FieldsBytes, Canonical, StringToken;
    ghost var v := Meaning(value);
    ghost var goal := hasher.bytes + FieldsBytes(v, keys, true);
    assert keys[0..] == keys;
    for i := 0 to |keys|
      invariant hasher.bytes + FieldsBytes(v, keys[i..], i == 0) == goal
    {
      FieldsStep(v, keys, i, hasher.bytes);
      WriteSeparator(i, hasher);
      WriteEntry(value, keys[i], hasher);
    }
    assert keys[|keys|..] == [];
    FieldsDone(v, |keys| == 0);
    hasher.Update([0x7D]);
  }

  method WriteObject(value: Doc, hasher: Hasher)
    requires value.DObject? && WellFormed(value)
    modifies hasher
    ensures hasher.bytes == old(hasher.bytes) + Canonical(Meaning(value))
    decreases value, 2
  {
    var keys := SortKeys(Keys(value.entries));
    ObjectKeys(value);
    Assoc(hasher.bytes, [0x7B], FieldsBytes(Meaning(value), keys, true));
    hasher.Update([0x7B]);
    WriteFields(value, keys, hasher);
  }

  // --- Keys ---

  /** A SHA-256 digest; the hash itself is a parameter. */
  type Digest = d: seq<Byte> | |d| == 32 witness seq(32, i => 0)

  function HexChar(n: nat): char
    requires n < 16
  {
    HexDigit(n) as char
  }

  /** `{byte:02x}` for each byte. */
  function Hex(bytes: seq<Byte>): (r: string)
    ensures |r| == 2 * |bytes|
  {
    if bytes == [] then ""
    else
      var last := bytes[|bytes| - 1];
      Hex(bytes[..|bytes| - 1]) + [HexChar(last / 16), HexChar(last % 16)]
  }

  method HashHex(sha: seq<Byte> -> Digest, value: Doc) returns (hex: string)
    requires WellFormed(value)
    ensures hex == Hex(sha(Canonical(Meaning(value)))) && |hex| == 64
  {
    var hasher := new Hasher();
    WriteCanonical(value, hasher);
    assert hasher.bytes == Canonical(Meaning(value));
    var digest := sha(hasher.bytes);
    hex := "";
    for i := 0 to |digest|
      invariant hex == Hex(digest[..i])
    {
      assert digest[..i + 1][..i] == digest[..i];
      hex := hex + [HexChar(digest[i] / 16), HexChar(digest[i] % 16)];
    }
    assert digest[..|digest|] == digest;
  }

  /** `UniqueKey::tagged_hash_of`; `hash_of` is the same without the tag. */
  method TaggedHashOf(sha: seq<Byte> -> Digest, tag: string, value: Doc) returns (key: string)
    requires WellFormed(value)
    ensures key == TaggedKey(tag, sha(Canonical(Meaning(value))))
    ensures key == tag + ":" + Hex(sha(Canonical(Meaning(value))))
  {
    var hex := HashHex(sha, value);
    key := tag + ":" + hex;
  }

  function TaggedKey(tag: string, digest: Digest): string {
    tag + ":" + Hex(digest)
  }
}
