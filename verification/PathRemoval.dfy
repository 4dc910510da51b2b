/** What `remove` (zizq/src/jq_path.rs) leaves in place, and which exclusion lists
    really hide a part of a payload (`payload_except`, zizq/src/hashable.rs). */
module PathRemoval {
  import opened Json
  import opened JqPath
  import opened PathSelection
  import opened Wrappers

  // --- The frame of one removal ---

  /** What reading `q` gives after removing a matching `p`. */
  datatype Reading =
    | Gone              // nothing
    | Moved(at: Path)   // what was at this path before
    | Trimmed           // what was there, with the rest of `p` removed from it

  function Reread(p: Path, q: Path): Reading
    requires p != []
  {
    if q == [] then Trimmed
    else if |p| > 1 then
      if p[0] != q[0] then Moved(q)
      else
        match Reread(p[1..], q[1..])
        case Gone => Gone
        case Moved(at) => Moved([q[0]] + at)
        case Trimmed => Trimmed
    else
      match (p[0], q[0])
      case (Field(_), _) => if p[0] == q[0] then Gone else Moved(q)
      case (Index(i), Index(j)) => if j < i then Moved(q) else Moved([Index(j + 1)] + q[1..])
      case _ => Moved(q)
  }

  /** Every reading after a removal, in terms of readings before it. */
  lemma {:induction false} RemovalFrame(v: Value, p: Path, q: Path)
    requires p != [] && At(v, p).Some?
    ensures match Reread(p, q)
            case Gone => At(Removed(v, p), q).None?
            case Moved(at) => At(Removed(v, p), q) == At(v, at)
            case Trimmed =>
              && |q| < |p| && q == p[..|q|] && At(v, q).Some?
              && At(Removed(v, p), q) == Some(Removed(At(v, q).value, p[|q|..]))
    decreases |p|
  {
    if q == [] {
      assert p[0..] == p;
    } else if |p| > 1 {
      var c := Child(v, p[0]).value;
      if p[0] == q[0] {
        RemovalFrame(c, p[1..], q[1..]);
        assert Child(Removed(v, p), q[0]) == Some(Removed(c, p[1..]));
        match Reread(p[1..], q[1..]) {
          case Gone =>
          case Moved(at) => assert ([q[0]] + at)[1..] == at;
          case Trimmed =>
            assert p[1..][|q| - 1..] == p[|q|..];
            assert q == [q[0]] + q[1..] && p[..|q|] == [p[0]] + p[1..][..|q| - 1];
        }
      } else {
        assert Child(Removed(v, p), q[0]) == Child(v, q[0]);
      }
    } else if p[0].Index? && q[0].Index? && q[0].idx >= p[0].idx {
      assert ([Index(q[0].idx + 1)] + q[1..])[1..] == q[1..];
      assert Child(Removed(v, p), q[0]) == Child(v, Index(q[0].idx + 1));
    } else if p[0] != q[0] {
      assert Child(Removed(v, p), q[0]) == Child(v, q[0]);
    }
  }

  /** A path that does not match, an out-of-range last index included, removes nothing. */
  lemma {:induction false} RemovalOfNothing(v: Value, p: Path)
    requires At(v, p).None?
    ensures Removed(v, p) == v
    decreases |p|
  {
    var next := Child(v, p[0]);
    if |p| == 1 {
      match (p[0], v) {
        case (Field(name), Object(fields)) => assert fields - {name} == fields;
        case _ =>
      }
    } else if next.Some? {
      RemovalOfNothing(next.value, p[1..]);
      FrameCloses(v, p[0], next.value);
    }
  }

  predicate EndsInField(p: Path) {
    p == [] || p[|p| - 1].Field?
  }

  /** After removing a field, every path through it gives nothing. */
  lemma RemovedFieldIsGone(v: Value, p: Path, rest: Path)
    requires p != [] && EndsInField(p)
    ensures At(Removed(v, p), p + rest).None?
    decreases |p|
  {
    if At(v, p).Some? {
      RemovalFrame(v, p, p + rest);
      RereadThrough(p, rest);
    } else {
      RemovalOfNothing(v, p);
      MissExtends(v, p, rest);
    }
  }

  lemma {:induction false} RereadThrough(p: Path, rest: Path)
    requires p != [] && EndsInField(p)
    ensures Reread(p, p + rest) == Gone
    decreases |p|
  {
    if |p| > 1 {
      assert (p + rest)[1..] == p[1..] + rest;
      RereadThrough(p[1..], rest);
    }
  }

  lemma {:induction false} MissExtends(v: Value, p: Path, rest: Path)
    requires At(v, p).None?
    ensures At(v, p + rest).None?
    decreases |p|
  {
    if Child(v, p[0]).Some? {
      assert (p + rest)[1..] == p[1..] + rest;
      MissExtends(Child(v, p[0]).value, p[1..], rest);
    }
  }

  /** After removing element `i`, lower siblings stay and sibling `j` reads as `j + 1` did. */
  lemma RemovedElementShifts(v: Value, parent: Path, i: nat, j: nat, rest: Path)
    requires At(v, parent + [Index(i)]).Some?
    ensures At(Removed(v, parent + [Index(i)]), parent + [Index(j)] + rest)
         == At(v, parent + [Index(if j < i then j else j + 1)] + rest)
  {
    RemovalFrame(v, parent + [Index(i)], parent + [Index(j)] + rest);
    RereadSibling(parent, i, j, rest);
  }

  lemma {:induction false} RereadSibling(parent: Path, i: nat, j: nat, rest: Path)
    ensures Reread(parent + [Index(i)], parent + [Index(j)] + rest)
         == Moved(parent + [Index(if j < i then j else j + 1)] + rest)
    decreases |parent|
  {
    var to := if j < i then j else j + 1;
    if parent == [] {
      assert parent + [Index(i)] == [Index(i)];
      assert parent + [Index(j)] + rest == [Index(j)] + rest;
      assert parent + [Index(to)] + rest == [Index(to)] + rest;
    } else {
      assert (parent + [Index(i)])[1..] == parent[1..] + [Index(i)];
      assert (parent + [Index(j)] + rest)[1..] == parent[1..] + [Index(j)] + rest;
      RereadSibling(parent[1..], i, j, rest);
      assert [parent[0]] + (parent[1..] + [Index(to)] + rest) == parent + [Index(to)] + rest;
    }
  }

  predicate Diverge(p: Path, q: Path) {
    exists k :: 0 <= k < |p| && k < |q| && p[..k] == q[..k] && p[k] != q[k] && (k < |p| - 1 || p[k].Field? || q[k].Field?)
  }

  /** Paths that leave `p` before its end, or differ at a final field, read as before. */
  lemma RemovedElsewhere(v: Value, p: Path, q: Path)
    requires Diverge(p, q)
    ensures At(Removed(v, p), q) == At(v, q)
  {
    if At(v, p).Some? {
      RemovalFrame(v, p, q);
      var k :| 0 <= k < |p| && k < |q| && p[..k] == q[..k] && p[k] != q[k] && (k < |p| - 1 || p[k].Field? || q[k].Field?);
      RereadDiverging(p, q, k);
    } else {
      RemovalOfNothing(v, p);
    }
  }

  lemma {:induction false} RereadDiverging(p: Path, q: Path, k: nat)
    requires k < |p| && k < |q| && p[..k] == q[..k] && p[k] != q[k] && (k < |p| - 1 || p[k].Field? || q[k].Field?)
    ensures Reread(p, q) == Moved(q)
    decreases k
  {
    if k > 0 {
      assert p[0] == p[..k][0] == q[..k][0] == q[0];
      assert p[1..][..k - 1] == p[..k][1..] == q[..k][1..] == q[1..][..k - 1];
      RereadDiverging(p[1..], q[1..], k - 1);
      assert [q[0]] + q[1..] == q;
    }
  }

  // --- Exclusion lists ---

  function Except(v: Value, paths: seq<Path>): Value
    decreases |paths|
  {
    if paths == [] then v else Except(Removed(v, paths[0]), paths[1..])
  }

  /** `v` with the value at a matching path replaced. */
  function Replaced(v: Value, p: Path, x: Value): Value
    requires At(v, p).Some?
    decreases |p|
  {
    if p == [] then x else WithChild(v, p[0], Replaced(Child(v, p[0]).value, p[1..], x))
  }

  /** Where the value at `p` is found after removing `d`; None once it is gone. */
  function Track(p: Path, d: Path): Option<Path>
    decreases |d|
  {
    if d == [] then None
    else if p == [] then Some(p)
    else if |d| > 1 then
      if d[0] != p[0] then Some(p)
      else
        var below := Track(p[1..], d[1..]);
        if below.None? then None else Some([p[0]] + below.value)
    else
      match (d[0], p[0])
      case (Index(i), Index(j)) => if j == i then None else if j > i then Some([Index(j - 1)] + p[1..]) else Some(p)
      case _ => if d[0] == p[0] then None else Some(p)
  }

  function TrackAll(p: Path, paths: seq<Path>): Option<Path>
    decreases |paths|
  {
    if paths == [] then Some(p)
    else
      var next := Track(p, paths[0]);
      if next.None? then None else TrackAll(next.value, paths[1..])
  }

  /** A value that no longer path can be removed from. */
  lemma RemovedScalar(x: Value, d: Path)
    requires x.IsScalar() && d != []
    ensures Removed(x, d) == x
  {
  }

  /** What a removal does to a replaced value: it is dropped with the removed part, or
      lives on at the tracked path, trimmed if `d` reaches inside it. */
  lemma {:induction false} ReplacedThenRemoved(v: Value, p: Path, x: Value, d: Path) returns (x': Value)
    requires At(v, p).Some?
    ensures Track(p, d).None? ==> Removed(Replaced(v, p, x), d) == Removed(v, d)
    ensures Track(p, d).Some? ==>
              && At(Removed(v, d), Track(p, d).value).Some?
              && Removed(Replaced(v, p, x), d) == Replaced(Removed(v, d), Track(p, d).value, x')
    ensures x.IsScalar() ==> x' == x
    decreases |d|
  {
    x' := x;
    if d == [] {
    } else if p == [] {
      x' := Removed(x, d);
      if x.IsScalar() {
        RemovedScalar(x, d);
      }
    } else {
      var c := Child(v, p[0]).value;
      var v' := Replaced(v, p, x);
      if d[0] == p[0] && |d| > 1 {
        x' := ReplacedThenRemoved(c, p[1..], x, d[1..]);
        var c' := Replaced(c, p[1..], x);
        assert Child(v', p[0]) == Some(c');
        TwiceWithChild(v, p[0], c', Removed(c', d[1..]));
        if Track(p[1..], d[1..]).Some? {
          var q := Track(p[1..], d[1..]).value;
          assert ([p[0]] + q)[1..] == q;
          TwiceWithChild(v, p[0], Removed(c, d[1..]), Replaced(Removed(c, d[1..]), q, x'));
        }
      } else {
        ReplacedApart(v, p, x, d);
      }
    }
  }

  lemma TwiceWithChild(v: Value, step: PathStep, a: Value, b: Value)
    requires Child(v, step).Some?
    ensures Child(WithChild(v, step, a), step) == Some(a)
    ensures WithChild(WithChild(v, step, a), step, b) == WithChild(v, step, b)
  {
    match step {
      case Field(name) => assert v.fields[name := a][name := b] == v.fields[name := b];
      case Index(idx) => assert v.items[idx := a][idx := b] == v.items[idx := b];
    }
  }

  function Drop(items: seq<Value>, i: nat): seq<Value>
    requires i < |items|
  {
    items[..i] + items[i + 1..]
  }

  lemma DropApart(items: seq<Value>, i: nat, j: nat, c: Value)
    requires i < |items| && j < |items|
    ensures j == i ==> Drop(items[j := c], i) == Drop(items, i)
    ensures j > i ==> Drop(items[j := c], i) == Drop(items, i)[j - 1 := c] && Drop(items, i)[j - 1] == items[j]
    ensures j < i ==> Drop(items[j := c], i) == Drop(items, i)[j := c] && Drop(items, i)[j] == items[j]
  {
  }

  lemma ReplacedApartField(v: Value, p: Path, x: Value, name: string)
    requires At(v, p).Some? && p != [] && p[0].Field?
    ensures var d := [Field(name)];
            if p[0] == Field(name) then Removed(Replaced(v, p, x), d) == Removed(v, d)
            else At(Removed(v, d), p).Some? && Removed(Replaced(v, p, x), d) == Replaced(Removed(v, d), p, x)
  {
    var c' := Replaced(Child(v, p[0]).value, p[1..], x);
    var key := p[0].name;
    if key == name {
      assert v.fields[key := c'] - {name} == v.fields - {name};
    } else {
      assert v.fields[key := c'] - {name} == (v.fields - {name})[key := c'];
      assert Child(Removed(v, [Field(name)]), p[0]) == Child(v, p[0]);
    }
  }

  lemma ReplacedApartIndex(v: Value, p: Path, x: Value, i: nat)
    requires At(v, p).Some? && p != [] && p[0].Index?
    ensures var d := [Index(i)];
            var q := Track(p, d);
            if q.None? then Removed(Replaced(v, p, x), d) == Removed(v, d)
            else At(Removed(v, d), q.value).Some? && Removed(Replaced(v, p, x), d) == Replaced(Removed(v, d), q.value, x)
  {
    var j := p[0].idx;
    var c' := Replaced(Child(v, p[0]).value, p[1..], x);
    if i < |v.items| {
      DropApart(v.items, i, j, c');
      assert Removed(v, [Index(i)]) == Array(Drop(v.items, i));
      assert Removed(Replaced(v, p, x), [Index(i)]) == Array(Drop(v.items[j := c'], i));
    }
    if j > i {
      assert ([Index(j - 1)] + p[1..])[1..] == p[1..];
    }
  }

  /** The cases in which `d` does not descend along `p`. */
  lemma ReplacedApart(v: Value, p: Path, x: Value, d: Path)
    requires At(v, p).Some? && p != [] && d != [] && (d[0] != p[0] || |d| == 1)
    ensures Track(p, d).None? ==> Removed(Replaced(v, p, x), d) == Removed(v, d)
    ensures Track(p, d).Some? ==>
              && At(Removed(v, d), Track(p, d).value).Some?
              && Removed(Replaced(v, p, x), d) == Replaced(Removed(v, d), Track(p, d).value, x)
  {
    if |d| > 1 {
      RemoveApart(v, p[0], Replaced(Child(v, p[0]).value, p[1..], x), d);
    } else {
      assert d == [d[0]];
      match (d[0], p[0]) {
        case (Field(a), Field(_)) => ReplacedApartField(v, p, x, a);
        case (Index(i), Index(_)) => ReplacedApartIndex(v, p, x, i);
        case _ =>
      }
    }
  }

  lemma RemoveApart(v: Value, step: PathStep, c': Value, d: Path)
    requires Child(v, step).Some? && |d| > 1 && d[0] != step
    ensures Child(Removed(v, d), step) == Child(v, step)
    ensures Removed(WithChild(v, step, c'), d) == WithChild(Removed(v, d), step, c')
  {
    if Child(v, d[0]).Some? {
      var below := Removed(Child(v, d[0]).value, d[1..]);
      match step {
        case Field(name) =>
          if d[0].Field? {
            assert v.fields[name := c'][d[0].name := below] == v.fields[d[0].name := below][name := c'];
          }
        case Index(idx) =>
          if d[0].Index? {
            assert v.items[idx := c'][d[0].idx := below] == v.items[d[0].idx := below][idx := c'];
          }
      }
    }
  }

  /** If the list tracks `p` away, no replacement at `p` can be told from the original. */
  lemma {:induction false} Hidden(v: Value, p: Path, x: Value, paths: seq<Path>)
    requires At(v, p).Some? && TrackAll(p, paths).None?
    ensures Except(Replaced(v, p, x), paths) == Except(v, paths)
    decreases |paths|
  {
    var x' := ReplacedThenRemoved(v, p, x, paths[0]);
    if Track(p, paths[0]).Some? {
      Hidden(Removed(v, paths[0]), Track(p, paths[0]).value, x', paths[1..]);
    }
  }

  /** Otherwise a scalar put there is still in the result. */
  lemma {:induction false} Exposed(v: Value, p: Path, x: Value, paths: seq<Path>)
    requires At(v, p).Some? && TrackAll(p, paths).Some? && x.IsScalar()
    ensures At(Except(Replaced(v, p, x), paths), TrackAll(p, paths).value) == Some(x)
    decreases |paths|
  {
    if paths == [] {
      ReplacedAt(v, p, x);
    } else {
      var x' := ReplacedThenRemoved(v, p, x, paths[0]);
      Exposed(Removed(v, paths[0]), Track(p, paths[0]).value, x, paths[1..]);
    }
  }

  lemma {:induction false} ReplacedAt(v: Value, p: Path, x: Value)
    requires At(v, p).Some?
    ensures At(Replaced(v, p, x), p) == Some(x)
    decreases |p|
  {
    if p != [] {
      ReplacedAt(Child(v, p[0]).value, p[1..], x);
      TwiceWithChild(v, p[0], Replaced(Child(v, p[0]).value, p[1..], x), Null);
    }
  }

  ghost predicate Hides(v: Value, p: Path, paths: seq<Path>)
    requires At(v, p).Some?
  {
    forall x, y :: Except(Replaced(v, p, x), paths) == Except(Replaced(v, p, y), paths)
  }

  /** The exact condition, for every exclusion list and payload: the value at `p` has
      no influence on the result if and only if the list alone tracks `p` away. */
  lemma ExclusionExact(v: Value, p: Path, paths: seq<Path>)
    requires At(v, p).Some?
    ensures Hides(v, p, paths) <==> TrackAll(p, paths).None?
  {
    if TrackAll(p, paths).None? {
      forall x, y ensures Except(Replaced(v, p, x), paths) == Except(Replaced(v, p, y), paths) {
        Hidden(v, p, x, paths);
        Hidden(v, p, y, paths);
      }
    } else {
      Exposed(v, p, Bool(true), paths);
      Exposed(v, p, Bool(false), paths);
    }
  }

  /** An index path shifts its later siblings, so listing two elements of one array
      can leave the second in the result. */
  lemma IndexListLeaks()
    ensures var v := Array([Null, Null, Null]);
            var paths := [[Index(0)], [Index(1)]];
            At(v, [Index(1)]).Some? && [Index(1)] in paths && !Hides(v, [Index(1)], paths)
  {
    var v := Array([Null, Null, Null]);
    var paths := [[Index(0)], [Index(1)]];
    assert At(v, [Index(1)]) == Some(Null);
    assert [Index(0)] + [][..] == [Index(0)];
    assert Track([Index(1)], [Index(0)]) == Some([Index(0)]);
    assert paths[1..] == [[Index(1)]];
    assert Track([Index(0)], [Index(1)]) == Some([Index(0)]);
    assert paths[1..][1..] == [];
    assert TrackAll([Index(1)], paths) == Some([Index(0)]);
    ExclusionExact(v, [Index(1)], paths);
  }

  lemma {:induction false} TrackSelf(p: Path)
    ensures Track(p, p).None?
    decreases |p|
  {
    if |p| > 1 {
      TrackSelf(p[1..]);
    }
  }

  /** The derive puts the batch path first, so it is hidden whatever it ends in. */
  lemma BatchPathHidden(v: Value, batch: Path, others: seq<Path>)
    requires At(v, batch).Some?
    ensures Hides(v, batch, [batch] + others)
  {
    TrackSelf(batch);
    ExclusionExact(v, batch, [batch] + others);
  }

  lemma {:induction false} FieldNeverShifts(p: Path, d: Path)
    requires EndsInField(d)
    ensures Track(p, d).Some? ==> Track(p, d).value == p
    decreases |d|
  {
    if |d| > 1 && p != [] && d[0] == p[0] {
      FieldNeverShifts(p[1..], d[1..]);
      assert [p[0]] + p[1..] == p;
    }
  }

  lemma {:induction false} FieldListTracksAway(p: Path, paths: seq<Path>)
    requires p in paths && forall d :: d in paths ==> EndsInField(d)
    ensures TrackAll(p, paths).None?
    decreases |paths|
  {
    if paths[0] == p {
      TrackSelf(p);
    } else {
      FieldNeverShifts(p, paths[0]);
      FieldListTracksAway(p, paths[1..]);
    }
  }

  /** In a list of field paths every listed path is hidden. */
  lemma FieldListHides(v: Value, p: Path, paths: seq<Path>)
    requires p in paths && (forall d :: d in paths ==> EndsInField(d)) && At(v, p).Some?
    ensures Hides(v, p, paths)
  {
    FieldListTracksAway(p, paths);
    ExclusionExact(v, p, paths);
  }
}
