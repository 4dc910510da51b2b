/** Walking, removing and picking by pre-parsed paths (zizq/src/jq_path.rs). */
module JqPath {
  import opened Json
  import opened Wrappers

  datatype PathStep = Field(name: string) | Index(idx: nat)

  type Path = seq<PathStep>

  // --- Specification ---

  /** One hop: an object field or an in-range array element. */
  function Child(v: Value, step: PathStep): Option<Value> {
    match (step, v)
    case (Field(name), Object(fields)) => if name in fields then Some(fields[name]) else None
    case (Index(idx), Array(items)) => if idx < |items| then Some(items[idx]) else None
    case _ => None
  }

  /** The value with the child at `step` replaced. */
  function WithChild(v: Value, step: PathStep, c: Value): Value
    requires Child(v, step).Some?
  {
    match step
    case Field(name) => Object(v.fields[name := c])
    case Index(idx) => Array(v.items[idx := c])
  }

  function At(v: Value, path: Path): Option<Value> {
    if path == [] then Some(v)
    else
      var next := Child(v, path[0]);
      if next.None? then None else At(next.value, path[1..])
  }

  /** A value without its children. */
  function Shape(v: Value): Value {
    match v
    case Object(_) => Object(map[])
    case Array(_) => Array([])
    case _ => v
  }

  function Outline(v: Value, q: Path): Option<Value> {
    var found := At(v, q);
    if found.None? then None else Some(Shape(found.value))
  }

  /** A path reads what its last step finds in what the rest of the path reads. */
  lemma {:induction false} AtLast(v: Value, path: Path, step: PathStep, x: Value)
    ensures At(v, path + [step]) == Some(x) <==>
      && At(v, path).Some?
      && var parent := At(v, path).value;
         match step
         case Field(name) => parent.Object? && name in parent.fields && parent.fields[name] == x
         case Index(idx) => parent.Array? && idx < |parent.items| && parent.items[idx] == x
    decreases |path|
  {
    if path == [] {
      assert path + [step] == [step] && [step][1..] == [];
    } else {
      assert (path + [step])[1..] == path[1..] + [step];
      if Child(v, path[0]).Some? {
        AtLast(Child(v, path[0]).value, path[1..], step, x);
      }
    }
  }

  /** Deleting one child; anything that does not fit is left alone. */
  function WithoutChild(v: Value, step: PathStep): Value {
    match (step, v)
    case (Field(name), Object(fields)) => Object(fields - {name})
    case (Index(idx), Array(items)) => if idx < |items| then Array(items[..idx] + items[idx + 1..]) else v
    case _ => v
  }

  function Removed(v: Value, path: Path): Value {
    if path == [] then Null
    else if |path| == 1 then WithoutChild(v, path[0])
    else
      var next := Child(v, path[0]);
      if next.None? then v else WithChild(v, path[0], Removed(next.value, path[1..]))
  }

  function Container(step: PathStep): Value {
    match step
    case Field(_) => Object(map[])
    case Index(_) => Array([])
  }

  function Nulls(n: nat): (r: seq<Value>)
    ensures |r| == n && forall i :: 0 <= i < n ==> r[i] == Null
  {
    seq(n, i => Null)
  }

  function Padded(items: seq<Value>, idx: nat): (r: seq<Value>)
    ensures |r| == if |items| <= idx then idx + 1 else |items|
    ensures forall i :: 0 <= i < |r| ==> r[i] == if i < |items| then items[i] else Null
  {
    if |items| <= idx then items + Nulls(idx + 1 - |items|) else items
  }

  /** The container a write through `path` continues in: the existing child, or a
      fresh container shaped by the next step. An array slot holding null counts as
      absent; an object entry holding null does not. */
  function Entry(fields: map<string, Value>, name: string, next: PathStep): Value {
    if name in fields then fields[name] else Container(next)
  }

  function Slot(items: seq<Value>, idx: nat, next: PathStep): Value
    requires idx < |items|
  {
    if items[idx] == Null then Container(next) else items[idx]
  }

  /** Writing `value` at `path` below `cur`; a shape mismatch abandons the write. */
  function Written(cur: Value, path: Path, value: Value): Value
    requires path != []
    decreases |path|
  {
    match (path[0], cur)
    case (Field(name), Object(fields)) =>
      Object(fields[name := if |path| == 1 then value else Written(Entry(fields, name, path[1]), path[1..], value)])
    case (Index(idx), Array(items)) =>
      var padded := Padded(items, idx);
      Array(padded[idx := if |path| == 1 then value else Written(Slot(padded, idx, path[1]), path[1..], value)])
    case _ => cur
  }

  function Root(target: Value, step: PathStep): Value {
    if target == Null then Container(step) else target
  }

  /** Whether a write through `path` meets no shape mismatch. */
  predicate Fits(cur: Value, path: Path)
    requires path != []
    decreases |path|
  {
    match (path[0], cur)
    case (Field(name), Object(fields)) => |path| == 1 || Fits(Entry(fields, name, path[1]), path[1..])
    case (Index(idx), Array(items)) => |path| == 1 || Fits(Slot(Padded(items, idx), idx, path[1]), path[1..])
    case _ => false
  }

  // --- The cursor ---

  /** What a `&mut Value` points to. */
  class Place {
    var value: Value

    constructor (value: Value)
      ensures this.value == value
    {
      this.value := value;
    }
  }

  /** One container the cursor has descended through. A `&mut` cursor owns its place
      exclusively, so the whole value is the trail closed over what it points to. */
  datatype Frame = InField(fields: map<string, Value>, name: string) | InIndex(items: seq<Value>, idx: nat)

  function Close(f: Frame, v: Value): Value {
    match f
    case InField(fields, name) => Object(fields[name := v])
    case InIndex(items, idx) => if idx < |items| then Array(items[idx := v]) else Array(items)
  }

  function Plug(trail: seq<Frame>, v: Value): Value {
    if trail == [] then v else Plug(trail[..|trail| - 1], Close(trail[|trail| - 1], v))
  }

  lemma PlugDown(trail: seq<Frame>, f: Frame, v: Value)
    ensures Plug(trail + [f], v) == Plug(trail, Close(f, v))
  {
    assert (trail + [f])[..|trail|] == trail;
  }

  function FrameAt(v: Value, step: PathStep): Frame
    requires Child(v, step).Some?
  {
    match step
    case Field(name) => InField(v.fields, name)
    case Index(idx) => InIndex(v.items, idx)
  }

  lemma FrameCloses(v: Value, step: PathStep, c: Value)
    requires Child(v, step).Some?
    ensures Close(FrameAt(v, step), c) == WithChild(v, step, c)
    ensures WithChild(v, step, Child(v, step).value) == v
  {
    match step {
      case Field(name) => assert v.fields[name := v.fields[name]] == v.fields;
      case Index(idx) => assert v.items[idx := v.items[idx]] == v.items;
    }
  }

  // --- The operations ---

  method Walk(value: Value, path: Path) returns (r: Option<Value>)
    ensures r == At(value, path)
  {
    var cur := value;
    for i := 0 to |path|
      invariant At(cur, path[i..]) == At(value, path)
    {
      var next := Child(cur, path[i]);
      if next.None? {
        return None;
      }
      cur := next.value;
      assert path[i..][1..] == path[i + 1..];
    }
    r := Some(cur);
  }

  method Remove(place: Place, path: Path)
    modifies place
    ensures place.value == Removed(old(place.value), path)
  {
    if path == [] {
      place.value := Null;
      return;
    }
    var cur := place.value;
    var trail: seq<Frame> := [];
    for i := 0 to |path| - 1
      invariant place.value == old(place.value)
      invariant Plug(trail, cur) == old(place.value)
      invariant Plug(trail, Removed(cur, path[i..])) == Removed(old(place.value), path)
    {
      var next := Child(cur, path[i]);
      if next.None? {
        return;
      }
      FrameCloses(cur, path[i], next.value);
      FrameCloses(cur, path[i], Removed(next.value, path[i + 1..]));
      PlugDown(trail, FrameAt(cur, path[i]), next.value);
      PlugDown(trail, FrameAt(cur, path[i]), Removed(next.value, path[i + 1..]));
      assert path[i..][1..] == path[i + 1..];
      trail := trail + [FrameAt(cur, path[i])];
      cur := next.value;
    }
    var last := path[|path| - 1];
    match (last, cur) {
      case (Field(name), Object(fields)) => cur := Object(fields - {name});
      case (Index(idx), Array(items)) =>
        if idx < |items| {
          cur := Array(items[..idx] + items[idx + 1..]);
        }
      case _ =>
    }
    place.value := Plug(trail, cur);
  }

  /** The `while arr.len() <= idx` loops of `set_path`. */
  method Pad(items: seq<Value>, idx: nat) returns (r: seq<Value>)
    ensures r == Padded(items, idx)
  {
    r := items;
    while |r| <= idx
      invariant |items| <= |r|
      invariant |items| <= idx ==> |r| <= idx + 1
      invariant |items| > idx ==> r == items
      invariant forall i :: 0 <= i < |r| ==> r[i] == if i < |items| then items[i] else Null
    {
      r := r + [Null];
    }
  }

  lemma PlugNothing(v: Value)
    ensures Plug([], v) == v
  {
  }

  lemma DescendField(trail: seq<Frame>, fields: map<string, Value>, path: Path, value: Value)
    requires |path| > 1 && path[0].Field?
    ensures var c := Entry(fields, path[0].name, path[1]);
            Plug(trail + [InField(fields[path[0].name := c], path[0].name)], Written(c, path[1..], value))
            == Plug(trail, Written(Object(fields), path, value))
  {
    var name := path[0].name;
    var c := Entry(fields, name, path[1]);
    var below := Written(c, path[1..], value);
    assert fields[name := c][name := below] == fields[name := below];
    PlugDown(trail, InField(fields[name := c], name), below);
  }

  lemma DescendIndex(trail: seq<Frame>, items: seq<Value>, path: Path, value: Value)
    requires |path| > 1 && path[0].Index?
    ensures var padded := Padded(items, path[0].idx);
            var c := Slot(padded, path[0].idx, path[1]);
            Plug(trail + [InIndex(padded[path[0].idx := c], path[0].idx)], Written(c, path[1..], value))
            == Plug(trail, Written(Array(items), path, value))
  {
    var idx := path[0].idx;
    var padded := Padded(items, idx);
    var c := Slot(padded, idx, path[1]);
    var below := Written(c, path[1..], value);
    assert padded[idx := c][idx := below] == padded[idx := below];
    PlugDown(trail, InIndex(padded[idx := c], idx), below);
  }

  /** `reached` tells whether the write met no shape mismatch. */
  method SetPath(place: Place, path: Path, value: Value) returns (ghost reached: bool)
    requires path != []
    modifies place
    ensures place.value == Written(Root(old(place.value), path[0]), path, value)
    ensures reached == Fits(Root(old(place.value), path[0]), path)
  {
    hide Plug;
    if place.value == Null {
      place.value := Container(path[0]);
    }
    ghost var start := place.value;
    var cur := place.value;
    PlugNothing(Written(start, path, value));
    var trail: seq<Frame> := [];
    for i := 0 to |path| - 1
      invariant Plug(trail, Written(cur, path[i..], value)) == Written(start, path, value)
      invariant Fits(cur, path[i..]) == Fits(start, path)
    {
      ghost var rest := path[i..];
      assert rest[0] == path[i] && rest[1] == path[i + 1] && rest[1..] == path[i + 1..];
      match (path[i], cur) {
        case (Field(name), Object(fields)) =>
          DescendField(trail, fields, rest, value);
          cur := Entry(fields, name, path[i + 1]);
          trail := trail + [InField(fields[name := cur], name)];
        case (Index(idx), Array(items)) =>
          DescendIndex(trail, items, rest, value);
          var padded := Pad(items, idx);
          cur := Slot(padded, idx, path[i + 1]);
          trail := trail + [InIndex(padded[idx := cur], idx)];
        case _ =>
          place.value := Plug(trail, cur);
          return false;
      }
    }
    assert path[|path| - 1..] == [path[|path| - 1]];
    reached, cur := SetLeaf(cur, path[|path| - 1], value);
    place.value := Plug(trail, cur);
  }

  /** The leaf write that ends `set_path`. */
  method SetLeaf(cur: Value, step: PathStep, value: Value) returns (ghost reached: bool, r: Value)
    ensures r == Written(cur, [step], value) && reached == Fits(cur, [step])
  {
    match (step, cur) {
      case (Field(name), Object(fields)) =>
        reached, r := true, Object(fields[name := value]);
      case (Index(idx), Array(items)) =>
        var padded := Pad(items, idx);
        reached, r := true, Array(padded[idx := value]);
      case _ =>
        reached, r := false, cur;
    }
  }

  // --- What a write does ---

  lemma {:induction false} FreshFits(path: Path)
    requires path != []
    ensures Fits(Container(path[0]), path)
    decreases |path|
  {
    if |path| > 1 {
      FreshFits(path[1..]);
    }
  }

  predicate Admits(v: Value, step: PathStep) {
    match step
    case Field(_) => v.Object?
    case Index(_) => v.Array?
  }

  /** What is already there at `path[..k]` lets a write go on: a container of the kind the
      next step asks for, or a null that holds an array slot open. */
  predicate Open(cur: Value, path: Path, k: nat)
    requires k < |path|
  {
    var found := At(cur, path[..k]);
    found.Some? ==> Admits(found.value, path[k]) || (k > 0 && path[k - 1].Index? && found.value == Null)
  }

  /** A write meets a mismatch exactly where something already there does not fit. */
  lemma {:induction false} FitsExact(cur: Value, path: Path)
    requires path != []
    ensures Fits(cur, path) <==> forall k :: 0 <= k < |path| ==> Open(cur, path, k)
    decreases |path|
  {
    assert path[..0] == [] && (Open(cur, path, 0) <==> Admits(cur, path[0]));
    if Admits(cur, path[0]) && |path| > 1 {
      var next := Child(cur, path[0]);
      if next.Some? && !(path[0].Index? && next.value == Null) {
        FitsExact(next.value, path[1..]);
        forall k | 0 <= k < |path| - 1 ensures Open(next.value, path[1..], k) <==> Open(cur, path, k + 1) {
          OpenBelow(cur, path, k);
        }
        assert forall k :: 1 <= k < |path| ==> (Open(cur, path, k) <==> Open(next.value, path[1..], k - 1));
      } else {
        FreshFits(path[1..]);
        OpenPast(cur, path);
      }
    }
  }

  lemma OpenBelow(cur: Value, path: Path, k: nat)
    requires k + 1 < |path| && Child(cur, path[0]).Some?
    requires !(path[0].Index? && Child(cur, path[0]).value == Null)
    ensures Open(Child(cur, path[0]).value, path[1..], k) <==> Open(cur, path, k + 1)
  {
    assert path[..k + 1][1..] == path[1..][..k];
  }

  /** Nothing below a missing child or a null slot is in the way. */
  lemma OpenPast(cur: Value, path: Path)
    requires |path| > 1
    requires Child(cur, path[0]).None? || (path[0].Index? && Child(cur, path[0]).value == Null)
    ensures forall k :: 1 <= k < |path| ==> Open(cur, path, k)
  {
    forall k | 1 <= k < |path| ensures Open(cur, path, k) {
      assert path[..k][0] == path[0];
      if Child(cur, path[0]).Some? && k > 1 {
        assert path[..k][1..][0] == path[1];
        assert Child(Null, path[1]).None?;
      }
    }
  }

  /** A write that fits is read back; one that does not changes nothing. */
  lemma {:induction false} WriteThenRead(cur: Value, path: Path, value: Value)
    requires path != []
    ensures if Fits(cur, path) then At(Written(cur, path, value), path) == Some(value)
            else Written(cur, path, value) == cur
    decreases |path|
  {
    match (path[0], cur) {
      case (Field(name), Object(fields)) =>
        if |path| > 1 {
          WriteThenRead(Entry(fields, name, path[1]), path[1..], value);
          if name !in fields {
            FreshFits(path[1..]);
          } else {
            assert fields[name := fields[name]] == fields;
          }
        }
      case (Index(idx), Array(items)) =>
        if |path| > 1 {
          WriteThenRead(Slot(Padded(items, idx), idx, path[1]), path[1..], value);
          if Padded(items, idx)[idx] == Null {
            FreshFits(path[1..]);
          } else {
            assert items[idx := items[idx]] == items;
          }
        }
      case _ =>
    }
  }
}
