/** A reader of compact JSON texts (RFC 8259, sections 2 to 7) in UTF-8 (RFC 3629,
    section 3), written on the bytes themselves. */
module JsonReader {
  import opened Json
  import opened Wrappers
  import opened Utf8

  /** What a reader took off the front of some bytes, and the bytes after it. */
  datatype Read<+T> = Read(value: T, rest: seq<Byte>)

  predicate IsScalar(n: int) {
    0 <= n < 0xD800 || 0xE000 <= n < 0x11_0000
  }

  predicate Follows(b: Byte) {
    0x80 <= b <= 0xBF
  }

  /** One character in UTF-8, in its shortest form. */
  function ReadChar(b: seq<Byte>): (r: Option<Read<char>>)
    ensures r.Some? ==> |r.value.rest| < |b|
  {
    if |b| >= 1 && b[0] <= 0x7F then Some(Read(b[0] as char, b[1..]))
    else if |b| >= 2 && 0xC0 <= b[0] <= 0xDF && Follows(b[1]) then
      Checked((b[0] - 0xC0) as int * 0x40 + (b[1] - 0x80) as int, 0x80, b[2..])
    else if |b| >= 3 && 0xE0 <= b[0] <= 0xEF && Follows(b[1]) && Follows(b[2]) then
      Checked((b[0] - 0xE0) as int * 0x1000 + (b[1] - 0x80) as int * 0x40 + (b[2] - 0x80) as int, 0x800, b[3..])
    else if |b| >= 4 && 0xF0 <= b[0] <= 0xF7 && Follows(b[1]) && Follows(b[2]) && Follows(b[3]) then
      Checked((b[0] - 0xF0) as int * 0x4_0000 + (b[1] - 0x80) as int * 0x1000 + (b[2] - 0x80) as int * 0x40
              + (b[3] - 0x80) as int, 0x1_0000, b[4..])
    else None
  }

  function Checked(n: int, least: int, rest: seq<Byte>): (r: Option<Read<char>>)
    ensures r.Some? ==> r.value.rest == rest
  {
    if n >= least && IsScalar(n) then Some(Read(n as char, rest)) else None
  }

  function HexValue(b: Byte): Option<nat> {
    if 0x30 <= b <= 0x39 then Some((b - 0x30) as int)
    else if 0x41 <= b <= 0x46 then Some((b - 0x41) as int + 10)
    else if 0x61 <= b <= 0x66 then Some((b - 0x61) as int + 10)
    else None
  }

  /** What follows a backslash. Surrogate pairs are not read. */
  function ReadEscape(b: seq<Byte>): (r: Option<Read<char>>)
    ensures r.Some? ==> |r.value.rest| < |b|
  {
    if b == [] then None
    else if b[0] == 0x22 then Some(Read('"', b[1..]))
    else if b[0] == 0x5C then Some(Read('\\', b[1..]))
    else if b[0] == 0x2F then Some(Read('/', b[1..]))
    else if b[0] == 0x62 then Some(Read('\U{0008}', b[1..]))
    else if b[0] == 0x66 then Some(Read('\U{000C}', b[1..]))
    else if b[0] == 0x6E then Some(Read('\n', b[1..]))
    else if b[0] == 0x72 then Some(Read('\r', b[1..]))
    else if b[0] == 0x74 then Some(Read('\t', b[1..]))
    else if b[0] == 0x75 && |b| >= 5 then
      var x, y, z, w := HexValue(b[1]), HexValue(b[2]), HexValue(b[3]), HexValue(b[4]);
      if x.Some? && y.Some? && z.Some? && w.Some?
      then Checked(x.value * 0x1000 + y.value * 0x100 + z.value * 0x10 + w.value, 0, b[5..])
      else None
    else None
  }

  /** The rest of a string after its opening quote. */
  function ReadString(b: seq<Byte>): (r: Option<Read<string>>)
    ensures r.Some? ==> |r.value.rest| < |b|
    decreases |b|
  {
    if b == [] || b[0] < 0x20 then None
    else if b[0] == 0x22 then Some(Read("", b[1..]))
    else
      var c := if b[0] == 0x5C then ReadEscape(b[1..]) else ReadChar(b);
      if c.None? then None
      else
        var more := ReadString(c.value.rest);
        if more.None? then None else Some(Read([c.value.value] + more.value.value, more.value.rest))
  }

  /** The characters of a number at the front. */
  function ReadNumber(b: seq<Byte>): (r: Read<string>)
    ensures |r.rest| + |r.value| == |b|
    ensures forall i :: 0 <= i < |r.value| ==> IsNumberChar(r.value[i])
    decreases |b|
  {
    if b != [] && (0x30 <= b[0] <= 0x39 || b[0] in {0x2B, 0x2D, 0x2E, 0x45, 0x65}) then
      var more := ReadNumber(b[1..]);
      Read([b[0] as char] + more.value, more.rest)
    else Read("", b)
  }

  function ReadValue(b: seq<Byte>): (r: Option<Read<Value>>)
    ensures r.Some? ==> |r.value.rest| < |b|
    decreases |b|, 1
  {
    if [0x6E, 0x75, 0x6C, 0x6C] <= b then Some(Read(Null, b[4..]))
    else if [0x74, 0x72, 0x75, 0x65] <= b then Some(Read(Bool(true), b[4..]))
    else if [0x66, 0x61, 0x6C, 0x73, 0x65] <= b then Some(Read(Bool(false), b[5..]))
    else if b == [] then None
    else if b[0] == 0x22 then
      var s := ReadString(b[1..]);
      if s.None? then None else Some(Read(Str(s.value.value), s.value.rest))
    else if [0x5B, 0x5D] <= b then Some(Read(Array([]), b[2..]))
    else if b[0] == 0x5B then ReadItems(b[1..], [])
    else if [0x7B, 0x7D] <= b then Some(Read(Object(map[]), b[2..]))
    else if b[0] == 0x7B then ReadMembers(b[1..], map[])
    else
      var n := ReadNumber(b);
      if n.value == "" then None else Some(Read(Number(n.value), n.rest))
  }

  /** The rest of an array, `items` read so far. */
  function ReadItems(b: seq<Byte>, items: seq<Value>): (r: Option<Read<Value>>)
    ensures r.Some? ==> |r.value.rest| < |b|
    decreases |b|, 2
  {
    var v := ReadValue(b);
    if v.None? || v.value.rest == [] then None
    else
      var rest := v.value.rest;
      if rest[0] == 0x2C then ReadItems(rest[1..], items + [v.value.value])
      else if rest[0] == 0x5D then Some(Read(Array(items + [v.value.value]), rest[1..]))
      else None
  }

  /** The rest of an object, `fields` read so far; a repeated name is refused. */
  function ReadMembers(b: seq<Byte>, fields: map<string, Value>): (r: Option<Read<Value>>)
    ensures r.Some? ==> |r.value.rest| < |b|
    decreases |b|, 2
  {
    if b == [] || b[0] != 0x22 then None
    else
      var k := ReadString(b[1..]);
      if k.None? || k.value.rest == [] || k.value.rest[0] != 0x3A || k.value.value in fields then None
      else
        var v := ReadValue(k.value.rest[1..]);
        if v.None? || v.value.rest == [] then None
        else
          var rest, read := v.value.rest, fields[k.value.value := v.value.value];
          if rest[0] == 0x2C then ReadMembers(rest[1..], read)
          else if rest[0] == 0x7D then Some(Read(Object(read), rest[1..]))
          else None
  }

  /** A whole text. */
  function Parse(b: seq<Byte>): Option<Value> {
    var r := ReadValue(b);
    if r.Some? && r.value.rest == [] then Some(r.value.value) else None
  }
}
