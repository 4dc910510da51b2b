/** The two payload projections behind unique and batch keys (zizq/src/hashable.rs). */
module Hashable {
  import opened Json
  import opened JqPath
  import opened PathSelection
  import opened PathRemoval
  import opened Wrappers

  /** `payload` is the already serialised payload. */
  method PayloadExcept(payload: Value, paths: seq<Path>) returns (r: Value)
    ensures r == Except(payload, paths)
  {
    var value := new Place(payload);
    for i := 0 to |paths|
      invariant fresh(value)
      invariant Except(value.value, paths[i..]) == Except(payload, paths)
    {
      Remove(value, paths[i]);
      assert paths[i..][1..] == paths[i + 1..];
    }
    r := value.value;
  }

  method PayloadOnly(payload: Value, paths: seq<Path>) returns (r: Value)
    ensures r == Selection(payload, SetOf(paths))
  {
    r := Pick(payload, paths);
  }

  // --- Exclusion by field paths as one structural deletion ---

  /** `v` with every part addressed by `s` deleted at once. */
  ghost function Pruned(v: Value, s: set<Path>): Value {
    match v
    case Object(fields) =>
      Object(map k | k in fields && [] !in Tails(s, Field(k)) :: Pruned(fields[k], Tails(s, Field(k))))
    case Array(items) =>
      Array(seq(|items|, i requires 0 <= i < |items| => Pruned(items[i], Tails(s, Index(i)))))
    case _ => v
  }

  ghost function Without(v: Value, s: set<Path>): Value {
    if [] in s then Null else Pruned(v, s)
  }

  ghost predicate FieldPaths(s: set<Path>) {
    forall p :: p in s ==> EndsInField(p)
  }

  lemma {:induction false} PrunedNothing(v: Value)
    ensures Pruned(v, {}) == v
  {
    match v {
      case Object(fields) =>
        forall k | k in fields ensures Pruned(fields[k], Tails({}, Field(k))) == fields[k] {
          assert Tails({}, Field(k)) == {};
          PrunedNothing(fields[k]);
        }
      case Array(items) =>
        forall i | 0 <= i < |items| ensures Pruned(items[i], Tails({}, Index(i))) == items[i] {
          assert Tails({}, Index(i)) == {};
          PrunedNothing(items[i]);
        }
      case _ =>
    }
  }

  /** Paths ending in a field keep that form below any step, and never end at an index. */
  lemma FieldTails(s: set<Path>, step: PathStep)
    requires FieldPaths(s)
    ensures FieldPaths(Tails(s, step))
    ensures step.Index? ==> [] !in Tails(s, step)
  {
    forall q | q in Tails(s, step) ensures EndsInField(q) && (step.Index? ==> q != []) {
      TailIn(s, step, q);
      assert EndsInField([step] + q);
    }
  }

  lemma PrunedChild(v: Value, s: set<Path>, step: PathStep)
    requires FieldPaths(s)
    ensures Child(Pruned(v, s), step)
         == if Child(v, step).None? || [] in Tails(s, step) then None
            else Some(Pruned(Child(v, step).value, Tails(s, step)))
  {
    FieldTails(s, step);
  }

  /** One more removal adds one more path to the deleted set. */
  lemma {:induction false} PruneMore(v: Value, s: set<Path>, p: Path)
    requires FieldPaths(s) && EndsInField(p) && p != []
    ensures Removed(Pruned(v, s), p) == Pruned(v, s + {p})
    decreases |p|
  {
    TailsAdd(s, p, p[0]);
    PrunedChild(v, s, p[0]);
    FieldTails(s, p[0]);
    if |p| > 1 && Child(Pruned(v, s), p[0]).Some? {
      PruneMore(Child(v, p[0]).value, Tails(s, p[0]), p[1..]);
    }
    match v {
      case Object(_) => PruneMoreFields(v, s, p);
      case Array(_) => PruneMoreItems(v, s, p);
      case _ =>
    }
  }

  ghost predicate PrunedBelow(v: Value, s: set<Path>, p: Path)
    requires p != []
  {
    var below := Child(Pruned(v, s), p[0]);
    |p| > 1 && below.Some? ==>
      && Child(v, p[0]).Some?
      && Removed(below.value, p[1..]) == Pruned(Child(v, p[0]).value, Tails(s, p[0]) + {p[1..]})
  }

  lemma PruneMoreFieldAt(v: Value, s: set<Path>, p: Path, k: string)
    requires v.Object? && FieldPaths(s) && EndsInField(p) && p != [] && PrunedBelow(v, s, p)
    ensures Child(Removed(Pruned(v, s), p), Field(k)) == Child(Pruned(v, s + {p}), Field(k))
  {
    TailsAdd(s, p, Field(k));
    PrunedChild(v, s, Field(k));
    FieldTails(s, Field(k));
    assert FieldPaths(s + {p});
    PrunedChild(v, s + {p}, Field(k));
    if p[0] == Field(k) && |p| == 1 {
      assert p[1..] == [];
    }
  }

  lemma PruneMoreFields(v: Value, s: set<Path>, p: Path)
    requires v.Object? && FieldPaths(s) && EndsInField(p) && p != [] && PrunedBelow(v, s, p)
    ensures Removed(Pruned(v, s), p) == Pruned(v, s + {p})
  {
    assert Removed(Pruned(v, s), p).Object?;
    forall k ensures Child(Removed(Pruned(v, s), p), Field(k)) == Child(Pruned(v, s + {p}), Field(k)) {
      PruneMoreFieldAt(v, s, p, k);
    }
    SameFields(Removed(Pruned(v, s), p), Pruned(v, s + {p}));
  }

  lemma SameFields(a: Value, b: Value)
    requires a.Object? && b.Object?
    requires forall k :: Child(a, Field(k)) == Child(b, Field(k))
    ensures a == b
  {
    forall k ensures k in a.fields <==> k in b.fields {
      assert Child(a, Field(k)) == Child(b, Field(k));
    }
    forall k | k in a.fields ensures a.fields[k] == b.fields[k] {
      assert Child(a, Field(k)) == Child(b, Field(k));
    }
    assert a.fields == b.fields;
  }

  lemma PruneMoreItems(v: Value, s: set<Path>, p: Path)
    requires v.Array? && FieldPaths(s) && EndsInField(p) && p != [] && PrunedBelow(v, s, p)
    ensures Removed(Pruned(v, s), p) == Pruned(v, s + {p})
  {
    var a := Pruned(v, s).items;
    var a' := Pruned(v, s + {p}).items;
    TailsAdd(s, p, p[0]);
    forall i: nat | Index(i) != p[0] ensures Tails(s + {p}, Index(i)) == Tails(s, Index(i)) {
      TailsAdd(s, p, Index(i));
    }
    if p[0].Field? || p[0].idx >= |a| {
      assert a == a';
    } else {
      assert |p| > 1;
      var idx := p[0].idx;
      assert a[idx := Removed(a[idx], p[1..])] == a';
    }
  }

  lemma WithoutMore(v: Value, s: set<Path>, p: Path)
    requires FieldPaths(s) && EndsInField(p)
    ensures Removed(Without(v, s), p) == Without(v, s + {p})
  {
    if p != [] && [] !in s {
      PruneMore(v, s, p);
    }
  }

  lemma {:induction false} ExceptFrom(v: Value, s: set<Path>, paths: seq<Path>)
    requires FieldPaths(s) && FieldPaths(SetOf(paths))
    ensures Except(Without(v, s), paths) == Without(v, s + SetOf(paths))
    decreases |paths|
  {
    if paths == [] {
      assert s + SetOf(paths) == s;
    } else {
      WithoutMore(v, s, paths[0]);
      assert SetOf(paths) == {paths[0]} + SetOf(paths[1..]);
      assert s + SetOf(paths) == s + {paths[0]} + SetOf(paths[1..]);
      ExceptFrom(v, s + {paths[0]}, paths[1..]);
    }
  }

  /** Removing field paths one by one deletes the set of them at once, so the order and
      the number of times each is listed do not matter. */
  lemma ExceptIsWithout(v: Value, paths: seq<Path>)
    requires FieldPaths(SetOf(paths))
    ensures Except(v, paths) == Without(v, SetOf(paths))
  {
    PrunedNothing(v);
    ExceptFrom(v, {}, paths);
    assert {} + SetOf(paths) == SetOf(paths);
  }

  lemma ExceptIgnoresOrder(v: Value, ps: seq<Path>, qs: seq<Path>)
    requires SetOf(ps) == SetOf(qs) && FieldPaths(SetOf(ps))
    ensures Except(v, ps) == Except(v, qs)
  {
    ExceptIsWithout(v, ps);
    ExceptIsWithout(v, qs);
  }

  /** With an index path the order does matter. */
  lemma IndexOrderMatters()
    ensures var v := Array([Bool(true), Bool(false), Null]);
            Except(v, [[Index(0)], [Index(1)]]) != Except(v, [[Index(1)], [Index(0)]])
  {
    var v := Array([Bool(true), Bool(false), Null]);
    var a, b := [Index(0)], [Index(1)];
    assert [a, b][1..] == [b] && [b, a][1..] == [a] && [b][1..] == [] && [a][1..] == [];
    assert Removed(v, a) == Array([Bool(false), Null]);
    assert Removed(Removed(v, a), b) == Array([Bool(false)]);
    assert Removed(v, b) == Array([Bool(true), Null]);
    assert Removed(Removed(v, b), a) == Array([Null]);
    assert Except(Array([Bool(false)]), []) == Array([Bool(false)]) && Except(Array([Null]), []) == Array([Null]);
    assert Except(Removed(v, a), [b]) == Array([Bool(false)]) && Except(Removed(v, b), [a]) == Array([Null]);
    assert Except(v, [a, b]) == Except(Removed(v, a), [b]) && Except(v, [b, a]) == Except(Removed(v, b), [a]);
  }
}
