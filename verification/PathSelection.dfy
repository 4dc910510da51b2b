/** `pick` (zizq/src/jq_path.rs) is the structural projection of its source onto the
    matching paths, and keeps exactly the selected parts. */
module PathSelection {
  import opened Json
  import opened JqPath
  import opened Wrappers

  ghost predicate AllMatch(v: Value, s: set<Path>) {
    forall p :: p in s ==> At(v, p).Some?
  }

  /** The paths of `s` that start with `step`, without that step. */
  ghost function Tails(s: set<Path>, step: PathStep): set<Path> {
    set p | p in s && p != [] && p[0] == step :: p[1..]
  }

  /** One past the highest index below `len` that some path of `s` enters. */
  ghost function Span(s: set<Path>, len: nat): (n: nat)
    ensures n <= len
  {
    if len == 0 then 0 else if Tails(s, Index(len - 1)) != {} then len else Span(s, len - 1)
  }

  ghost function ProjectedFields(v: Value, s: set<Path>): map<string, Value>
    requires v.Object?
    decreases v, 0
  {
    map k | k in v.fields && Tails(s, Field(k)) != {} :: Projected(v.fields[k], Tails(s, Field(k)))
  }

  ghost function ProjectedItems(v: Value, s: set<Path>): (r: seq<Value>)
    requires v.Array?
    ensures |r| == Span(s, |v.items|)
    decreases v, 0
  {
    seq(Span(s, |v.items|), i requires 0 <= i < |v.items| => Projected(v.items[i], Tails(s, Index(i))))
  }

  /** The part of `v` the paths of `s` address; null where they address nothing. */
  ghost function Projected(v: Value, s: set<Path>): Value
    decreases v, 1
  {
    if [] in s then v
    else if s == {} then Null
    else
      match v
      case Object(_) => Object(ProjectedFields(v, s))
      case Array(_) => Array(ProjectedItems(v, s))
      case _ => Null
  }

  // --- Tails and spans ---

  lemma TailsMatch(v: Value, s: set<Path>, step: PathStep)
    requires AllMatch(v, s) && Child(v, step).Some?
    ensures AllMatch(Child(v, step).value, Tails(s, step))
  {
    forall q | q in Tails(s, step) ensures At(Child(v, step).value, q).Some? {
      var p :| p in s && p != [] && p[0] == step && p[1..] == q;
      assert At(v, p).Some?;
    }
  }

  lemma TailsAdd(s: set<Path>, p: Path, step: PathStep)
    requires p != []
    ensures Tails(s + {p}, step) == if p[0] == step then Tails(s, step) + {p[1..]} else Tails(s, step)
  {
    var s' := s + {p};
    forall q | q in Tails(s', step) ensures q in Tails(s, step) || (p[0] == step && q == p[1..]) {
      var r :| r in s' && r != [] && r[0] == step && r[1..] == q;
    }
    forall q | q in Tails(s, step) ensures q in Tails(s', step) {
      var r :| r in s && r != [] && r[0] == step && r[1..] == q;
      assert r in s';
    }
    if p[0] == step {
      assert p in s';
      assert p[1..] in Tails(s', step);
    }
  }

  lemma TailIn(s: set<Path>, step: PathStep, q: Path)
    ensures q in Tails(s, step) <==> [step] + q in s
  {
    if q in Tails(s, step) {
      var p :| p in s && p != [] && p[0] == step && p[1..] == q;
      assert p == [step] + q;
    }
    if [step] + q in s {
      assert ([step] + q)[1..] == q;
    }
  }

  lemma {:induction false} SpanCovers(s: set<Path>, len: nat, i: nat)
    ensures i < len && Tails(s, Index(i)) != {} ==> i < Span(s, len)
    ensures Span(s, len) > 0 ==> Tails(s, Index(Span(s, len) - 1)) != {}
  {
    if len > 0 {
      SpanCovers(s, len - 1, i);
    }
  }

  /** Writing below index `i` extends the span just far enough to hold it. */
  lemma {:induction false} SpanAdd(s: set<Path>, p: Path, len: nat)
    requires p != [] && p[0].Index? && p[0].idx < len
    ensures Span(s + {p}, len) == if Span(s, len) <= p[0].idx then p[0].idx + 1 else Span(s, len)
  {
    TailsAdd(s, p, Index(len - 1));
    if p[0].idx < len - 1 {
      SpanAdd(s, p, len - 1);
    }
  }

  lemma {:induction false} SpanEqual(s: set<Path>, t: set<Path>, m: nat, n: nat)
    requires forall i: nat :: Tails(s, Index(i)) != {} <==> Tails(t, Index(i)) != {}
    requires forall i: nat :: Tails(s, Index(i)) != {} ==> i < m && i < n
    ensures Span(s, m) == Span(t, n)
  {
    SpanCovers(s, m, Span(t, n) - if Span(t, n) > 0 then 1 else 0);
    SpanCovers(t, n, Span(s, m) - if Span(s, m) > 0 then 1 else 0);
  }

  lemma ProjectedNothing(v: Value)
    ensures Projected(v, {}) == Null
  {
  }

  // --- One `set_path` call adds one path to the projection ---

  /** Rewriting what is already there changes nothing and meets no mismatch. */
  lemma {:induction false} RewriteSame(v: Value, p: Path)
    requires p != [] && At(v, p).Some?
    ensures Written(v, p, At(v, p).value) == v && Fits(v, p)
    decreases |p|
  {
    FrameCloses(v, p[0], v);
    var c := Child(v, p[0]).value;
    if |p| == 1 {
      assert At(c, p[1..]) == Some(c);
    } else {
      assert c != Null by { assert Child(c, p[1]).Some?; }
      RewriteSame(c, p[1..]);
    }
    match p[0] {
      case Field(name) => assert v.fields[name := v.fields[name]] == v.fields;
      case Index(idx) =>
        assert Padded(v.items, idx) == v.items;
        assert v.items[idx := v.items[idx]] == v.items;
    }
  }

  /** Where `set_path` starts writing into a projection. */
  ghost function Started(v: Value, s: set<Path>, step: PathStep): Value {
    Root(Projected(v, s), step)
  }

  lemma Grow(v: Value, s: set<Path>, p: Path)
    requires AllMatch(v, s) && At(v, p).Some? && p != []
    ensures Written(Started(v, s, p[0]), p, At(v, p).value) == Projected(v, s + {p})
    ensures Fits(Started(v, s, p[0]), p)
    decreases |p|
  {
    if [] in s {
      RewriteSame(v, p);
    } else {
      match p[0] {
        case Field(_) => GrowField(v, s, p);
        case Index(_) => GrowIndex(v, s, p);
      }
    }
  }

  /** A projection through a matching longer path is null only if nothing is selected. */
  lemma ProjectedNull(c: Value, s: set<Path>, step: PathStep)
    requires Child(c, step).Some?
    ensures Projected(c, s) == Null <==> s == {}
  {
  }

  /** The same one level down, for the child `p` descends into. */
  lemma GrowBelow(v: Value, s: set<Path>, p: Path)
    requires AllMatch(v, s) && At(v, p).Some? && p != [] && [] !in s
    ensures var c := Child(v, p[0]).value;
            var t := Tails(s, p[0]);
            && Tails(s + {p}, p[0]) == t + {p[1..]}
            && (|p| == 1 ==> Projected(c, t + {p[1..]}) == At(v, p).value)
            && (|p| > 1 ==>
                  && (Projected(c, t) == Null <==> t == {})
                  && Written(Root(Projected(c, t), p[1]), p[1..], At(v, p).value) == Projected(c, t + {p[1..]})
                  && Fits(Root(Projected(c, t), p[1]), p[1..]))
    decreases |p|, 0
  {
    var c := Child(v, p[0]).value;
    TailsAdd(s, p, p[0]);
    TailsMatch(v, s, p[0]);
    if |p| == 1 {
      assert At(c, p[1..]) == Some(c);
    } else {
      ProjectedNull(c, Tails(s, p[0]), p[1]);
      Grow(c, Tails(s, p[0]), p[1..]);
    }
  }

  lemma StartedField(v: Value, s: set<Path>, name: string)
    requires Child(v, Field(name)).Some? && [] !in s
    ensures Started(v, s, Field(name)) == Object(ProjectedFields(v, s))
  {
    if s == {} {
      assert forall k :: Tails({}, Field(k)) == {};
      assert ProjectedFields(v, s) == map[];
    }
  }

  lemma StartedIndex(v: Value, s: set<Path>, idx: nat)
    requires Child(v, Index(idx)).Some? && [] !in s
    ensures Started(v, s, Index(idx)) == Array(ProjectedItems(v, s))
  {
    if s == {} {
      assert forall i: nat :: Tails({}, Index(i)) == {};
      SpanCovers(s, |v.items|, 0);
      assert ProjectedItems(v, s) == [];
    }
  }

  lemma FieldsAdd(v: Value, s: set<Path>, p: Path)
    requires At(v, p).Some? && p != [] && p[0].Field?
    ensures var name := p[0].name;
            ProjectedFields(v, s + {p}) == ProjectedFields(v, s)[name := Projected(v.fields[name], Tails(s + {p}, p[0]))]
  {
    var name := p[0].name;
    var m' := ProjectedFields(v, s + {p});
    TailsAdd(s, p, p[0]);
    forall k | k != name ensures Tails(s + {p}, Field(k)) == Tails(s, Field(k)) {
      TailsAdd(s, p, Field(k));
    }
    assert name in m';
  }

  lemma ItemsAdd(v: Value, s: set<Path>, p: Path)
    requires At(v, p).Some? && p != [] && p[0].Index?
    ensures var idx := p[0].idx;
            var padded := Padded(ProjectedItems(v, s), idx);
            && ProjectedItems(v, s + {p}) == padded[idx := Projected(v.items[idx], Tails(s + {p}, p[0]))]
            && padded[idx] == Projected(v.items[idx], Tails(s, p[0]))
  {
    var idx := p[0].idx;
    var a := ProjectedItems(v, s);
    var a' := ProjectedItems(v, s + {p});
    var padded := Padded(a, idx);
    SpanAdd(s, p, |v.items|);
    forall i | 0 <= i < |padded| ensures padded[i] == Projected(v.items[i], Tails(s, Index(i))) {
      if i >= |a| {
        SpanCovers(s, |v.items|, i);
        ProjectedNothing(v.items[i]);
      }
    }
    forall i | 0 <= i < |a'| && i != idx ensures a'[i] == padded[i] {
      TailsAdd(s, p, Index(i));
    }
  }

  lemma GrowField(v: Value, s: set<Path>, p: Path)
    requires AllMatch(v, s) && At(v, p).Some? && p != [] && p[0].Field? && [] !in s
    ensures Written(Started(v, s, p[0]), p, At(v, p).value) == Projected(v, s + {p})
    ensures Fits(Started(v, s, p[0]), p)
    decreases |p|, 1
  {
    StartedField(v, s, p[0].name);
    FieldsAdd(v, s, p);
    GrowBelow(v, s, p);
    var m := ProjectedFields(v, s);
    if |p| > 1 {
      assert Entry(m, p[0].name, p[1]) == Root(Projected(v.fields[p[0].name], Tails(s, p[0])), p[1]);
    }
    assert Projected(v, s + {p}) == Object(ProjectedFields(v, s + {p})) by {
      assert p in s + {p} && [] !in s + {p};
    }
  }

  lemma GrowIndex(v: Value, s: set<Path>, p: Path)
    requires AllMatch(v, s) && At(v, p).Some? && p != [] && p[0].Index? && [] !in s
    ensures Written(Started(v, s, p[0]), p, At(v, p).value) == Projected(v, s + {p})
    ensures Fits(Started(v, s, p[0]), p)
    decreases |p|, 1
  {
    StartedIndex(v, s, p[0].idx);
    ItemsAdd(v, s, p);
    GrowBelow(v, s, p);
    var padded := Padded(ProjectedItems(v, s), p[0].idx);
    if |p| > 1 {
      assert Slot(padded, p[0].idx, p[1]) == Root(Projected(v.items[p[0].idx], Tails(s, p[0])), p[1]);
    }
    assert Projected(v, s + {p}) == Array(ProjectedItems(v, s + {p})) by {
      assert p in s + {p} && [] !in s + {p};
    }
  }

  // --- pick ---

  ghost function Matching(v: Value, paths: set<Path>): set<Path> {
    set p | p in paths && At(v, p).Some?
  }

  ghost function SetOf(paths: seq<Path>): set<Path> {
    set p | p in paths
  }

  /** The projection onto the matching paths, `{}` when none matches. A root path
      selects everything. */
  ghost function Selection(source: Value, paths: set<Path>): Value {
    var s := Matching(source, paths);
    if s == {} then Object(map[]) else Projected(source, s)
  }

  /** Also shows that no `set_path` call made by `pick` is ever abandoned. */
  method Pick(source: Value, paths: seq<Path>) returns (r: Value)
    ensures r == Selection(source, SetOf(paths))
  {
    var target := new Place(Null);
    ghost var done: set<Path> := {};
    for i := 0 to |paths|
      invariant fresh(target)
      invariant done == Matching(source, SetOf(paths[..i]))
      invariant [] !in done
      invariant target.value == Projected(source, done)
    {
      var steps := paths[i];
      assert SetOf(paths[..i + 1]) == SetOf(paths[..i]) + {steps};
      if steps == [] {
        assert steps in Matching(source, SetOf(paths));
        return source;
      }
      var found := Walk(source, steps);
      if found.Some? {
        Grow(source, done, steps);
        ghost var reached := SetPath(target, steps, found.value);
        assert reached;
        done := done + {steps};
      }
      assert done == Matching(source, SetOf(paths[..i + 1]));
    }
    assert paths[..|paths|] == paths;
    if done != {} {
      var p :| p in done;
      ProjectedNull(source, done, p[0]);
    }
    r := if target.value == Null then Object(map[]) else target.value;
  }

  // --- Selected parts are kept, unselected ones are not ---

  lemma ProjectedChild(v: Value, s: set<Path>, step: PathStep)
    requires [] !in s
    ensures var c := Child(Projected(v, s), step);
            c.Some? ==> Child(v, step).Some? && c.value == Projected(Child(v, step).value, Tails(s, step))
  {
    match (v, step) {
      case (Object(_), Field(k)) =>
      case (Array(_), Index(i)) =>
      case _ =>
    }
  }

  /** Walking a selected path in the projection reads what the source has there, and
      a path that matches the projection matches the source. */
  lemma {:induction false} ProjectedAt(v: Value, s: set<Path>, q: Path)
    requires AllMatch(v, s)
    ensures q in s ==> At(Projected(v, s), q) == At(v, q)
    ensures At(Projected(v, s), q).Some? && q != [] ==> At(v, q).Some?
    decreases |q|
  {
    if [] !in s && s != {} && q != [] {
      var t := Tails(s, q[0]);
      TailIn(s, q[0], q[1..]);
      assert [q[0]] + q[1..] == q;
      ProjectedChild(v, s, q[0]);
      if Child(Projected(v, s), q[0]).Some? {
        TailsMatch(v, s, q[0]);
        ProjectedAt(Child(v, q[0]).value, t, q[1..]);
      } else if q in s {
        assert At(v, q).Some?;
        if q[0].Index? {
          SpanCovers(s, |v.items|, q[0].idx);
        }
      }
    }
  }

  lemma SelectionAt(v: Value, paths: set<Path>, p: Path)
    requires p in paths && [] !in paths
    ensures At(Selection(v, paths), p) == At(v, p)
  {
    var s := Matching(v, paths);
    if s != {} {
      ProjectedAt(v, s, p);
    } else {
      assert p !in s && At(v, p).None?;
      assert Child(Selection(v, paths), p[0]).None?;
    }
  }

  /** The projection is a function of the selected parts alone. */
  lemma {:induction false} ProjectedAgree(v: Value, w: Value, s: set<Path>)
    requires s != {} && AllMatch(v, s)
    requires forall p :: p in s ==> At(v, p) == At(w, p)
    ensures Projected(v, s) == Projected(w, s)
    decreases v
  {
    if [] in s {
      assert At(v, []) == At(w, []);
    } else {
      var p :| p in s;
      assert At(v, p).Some? && At(v, p) == At(w, p) && p != [];
      match p[0] {
        case Field(_) =>
          forall k | Tails(s, Field(k)) != {}
            ensures k in v.fields && k in w.fields
            ensures Projected(v.fields[k], Tails(s, Field(k))) == Projected(w.fields[k], Tails(s, Field(k)))
          {
            ChildAgree(v, w, s, Field(k));
            ProjectedAgree(v.fields[k], w.fields[k], Tails(s, Field(k)));
          }
          assert ProjectedFields(v, s) == ProjectedFields(w, s);
        case Index(_) =>
          forall i: nat | Tails(s, Index(i)) != {} ensures i < |v.items| && i < |w.items| {
            ChildAgree(v, w, s, Index(i));
          }
          SpanEqual(s, s, |v.items|, |w.items|);
          forall i: nat | i < Span(s, |v.items|)
            ensures Projected(v.items[i], Tails(s, Index(i))) == Projected(w.items[i], Tails(s, Index(i)))
          {
            if Tails(s, Index(i)) == {} {
              ProjectedNothing(v.items[i]);
              ProjectedNothing(w.items[i]);
            } else {
              ChildAgree(v, w, s, Index(i));
              ProjectedAgree(v.items[i], w.items[i], Tails(s, Index(i)));
            }
          }
          assert ProjectedItems(v, s) == ProjectedItems(w, s);
      }
    }
  }

  lemma ChildAgree(v: Value, w: Value, s: set<Path>, step: PathStep)
    requires AllMatch(v, s) && Tails(s, step) != {}
    requires forall p :: p in s ==> At(v, p) == At(w, p)
    ensures Child(v, step).Some? && Child(w, step).Some?
    ensures AllMatch(Child(v, step).value, Tails(s, step))
    ensures forall q :: q in Tails(s, step) ==> At(Child(v, step).value, q) == At(Child(w, step).value, q)
  {
    var q :| q in Tails(s, step);
    TailIn(s, step, q);
    assert At(v, [step] + q).Some?;
    TailsMatch(v, s, step);
    forall r | r in Tails(s, step) ensures At(Child(v, step).value, r) == At(Child(w, step).value, r) {
      TailIn(s, step, r);
      assert ([step] + r)[1..] == r;
      assert At(v, [step] + r) == At(w, [step] + r);
    }
  }

  ghost predicate AgreeOn(v: Value, w: Value, paths: set<Path>) {
    forall p :: p in paths ==> At(v, p) == At(w, p)
  }

  /** Two payloads pick the same value exactly when every selected path reads the
      same in both, a miss counting as a reading. */
  lemma SelectionExact(v: Value, w: Value, paths: set<Path>)
    ensures Selection(v, paths) == Selection(w, paths) <==> AgreeOn(v, w, paths)
  {
    if [] in paths {
      assert [] in Matching(v, paths) && [] in Matching(w, paths);
      assert At(v, []) == Some(v) && At(w, []) == Some(w);
    } else {
      if Selection(v, paths) == Selection(w, paths) {
        forall p | p in paths ensures At(v, p) == At(w, p) {
          SelectionAt(v, paths, p);
          SelectionAt(w, paths, p);
        }
      }
      if AgreeOn(v, w, paths) {
        assert Matching(v, paths) == Matching(w, paths);
        if Matching(v, paths) != {} {
          ProjectedAgree(v, w, Matching(v, paths));
        }
      }
    }
  }

  /** Padding stays within the source: no array of the pick is longer than its original. */
  lemma {:induction false} PaddingBounded(v: Value, s: set<Path>, q: Path)
    requires AllMatch(v, s)
    requires At(Projected(v, s), q).Some? && At(Projected(v, s), q).value.Array?
    ensures At(v, q).Some? && At(v, q).value.Array?
    ensures |At(Projected(v, s), q).value.items| <= |At(v, q).value.items|
    decreases |q|
  {
    if [] !in s && s != {} && q != [] {
      TailsMatch(v, s, q[0]);
      PaddingBounded(Child(v, q[0]).value, Tails(s, q[0]), q[1..]);
    }
  }

  // --- The whole pick ---

  lemma ProjectedHas(v: Value, s: set<Path>, p: Path)
    requires AllMatch(v, s) && p in s && [] !in s
    ensures p != [] && Child(v, p[0]).Some? && p[1..] in Tails(s, p[0])
    ensures Child(Projected(v, s), p[0]) == Some(Projected(Child(v, p[0]).value, Tails(s, p[0])))
    ensures AllMatch(Child(v, p[0]).value, Tails(s, p[0]))
  {
    assert At(v, p).Some?;
    assert [p[0]] + p[1..] == p;
    TailIn(s, p[0], p[1..]);
    TailsMatch(v, s, p[0]);
    if p[0].Index? {
      SpanCovers(s, |v.items|, p[0].idx);
    }
  }

  /** At a selected path and everywhere below it the pick is the source. */
  lemma {:induction false} ProjectedBelow(v: Value, s: set<Path>, p: Path, rest: Path)
    requires AllMatch(v, s) && p in s
    ensures At(Projected(v, s), p + rest) == At(v, p + rest)
    decreases |p|
  {
    if [] !in s {
      ProjectedHas(v, s, p);
      assert (p + rest)[1..] == p[1..] + rest;
      ProjectedBelow(Child(v, p[0]).value, Tails(s, p[0]), p[1..], rest);
    }
  }

  /** On the way to a selected path it has the source's containers. */
  lemma {:induction false} ProjectedAbove(v: Value, s: set<Path>, q: Path, p: Path)
    requires AllMatch(v, s) && p in s && q <= p
    ensures Outline(Projected(v, s), q) == Outline(v, q) != None
    decreases |q|
  {
    if [] !in s {
      ProjectedHas(v, s, p);
      if q != [] {
        ProjectedAbove(Child(v, p[0]).value, Tails(s, p[0]), q[1..], p[1..]);
      }
    } else {
      assert At(v, p).Some?;
      PrefixMatches(v, q, p);
    }
  }

  lemma {:induction false} PrefixMatches(v: Value, q: Path, p: Path)
    requires q <= p && At(v, p).Some?
    ensures At(v, q).Some?
    decreases |q|
  {
    if q != [] {
      PrefixMatches(Child(v, q[0]).value, q[1..], p[1..]);
    }
  }

  predicate Apart(q: Path, s: set<Path>) {
    forall p :: p in s ==> !(p <= q) && !(q <= p)
  }

  /** Anywhere else there is nothing, or a null that pads an array. */
  lemma {:induction false} ProjectedElse(v: Value, s: set<Path>, q: Path)
    requires AllMatch(v, s) && s != {} && Apart(q, s)
    ensures var found := At(Projected(v, s), q);
            found.None? || (found == Some(Null) && q != [] && q[|q| - 1].Index?)
    decreases |q|
  {
    var p :| p in s;
    assert [] <= p && [] <= q;
    assert q != [] && [] !in s;
    ProjectedChild(v, s, q[0]);
    if Child(Projected(v, s), q[0]).Some? {
      var t := Tails(s, q[0]);
      TailsMatch(v, s, q[0]);
      if t != {} {
        forall r | r in t ensures !(r <= q[1..]) && !(q[1..] <= r) {
          TailIn(s, q[0], r);
          assert !([q[0]] + r <= q) && !(q <= [q[0]] + r);
          assert q == [q[0]] + q[1..];
        }
        ProjectedElse(Child(v, q[0]).value, t, q[1..]);
      }
    }
  }

  lemma ArrayEnds(v: Value, s: set<Path>, p: Path) returns (last: Path)
    requires AllMatch(v, s) && p in s && [] !in s && Projected(v, s).Array?
    ensures var n := |Projected(v, s).items|;
            n > 0 && last in s && [Index(n - 1)] <= last
  {
    ProjectedHas(v, s, p);
    SpanCovers(s, |v.items|, p[0].idx);
    var n := Span(s, |v.items|);
    var r :| r in Tails(s, Index(n - 1));
    TailIn(s, Index(n - 1), r);
    last := [Index(n - 1)] + r;
  }

  lemma NoneAbove(s: set<Path>, q: Path)
    requires q != [] && forall p :: p in s ==> !(p <= q)
    ensures [] !in s
    ensures forall r :: r in Tails(s, q[0]) ==> !(r <= q[1..])
  {
    assert [] in s ==> !([] <= q);
    forall r | r in Tails(s, q[0]) ensures !(r <= q[1..]) {
      TailIn(s, q[0], r);
      assert q == [q[0]] + q[1..];
      assert !([q[0]] + r <= q);
    }
  }

  /** Padding never ends an array on the way to a selected path: the last element leads
      to a selected path. */
  lemma {:induction false} NoTrailingPadding(v: Value, s: set<Path>, q: Path, p: Path) returns (last: Path)
    requires AllMatch(v, s) && p in s && q <= p && (forall r :: r in s ==> !(r <= q))
    requires At(Projected(v, s), q).Some? && At(Projected(v, s), q).value.Array?
    ensures var n := |At(Projected(v, s), q).value.items|;
            n > 0 && last in s && q + [Index(n - 1)] <= last
    decreases |q|
  {
    hide Projected;
    if q == [] {
      assert [] in s ==> !([] <= q);
      last := ArrayEnds(v, s, p);
    } else {
      NoneAbove(s, q);
      ProjectedHas(v, s, p);
      var r := NoTrailingPadding(Child(v, q[0]).value, Tails(s, q[0]), q[1..], p[1..]);
      TailIn(s, q[0], r);
      last := [q[0]] + r;
    }
  }

  /** The pick in full. The root path selects everything; no match gives `{}`;
      otherwise every path reads the source below a match, its container on the way to
      one, and nothing or padding anywhere else. */
  lemma SelectionComplete(v: Value, paths: set<Path>, q: Path)
    ensures [] in paths ==> Selection(v, paths) == v
    ensures Matching(v, paths) == {} ==> Selection(v, paths) == Object(map[])
    ensures forall p :: p in Matching(v, paths) && p <= q ==> At(Selection(v, paths), q) == At(v, q)
    ensures forall p :: p in Matching(v, paths) && q <= p ==> Outline(Selection(v, paths), q) == Outline(v, q)
    ensures Matching(v, paths) != {} && Apart(q, Matching(v, paths)) ==>
              var found := At(Selection(v, paths), q);
              found.None? || (found == Some(Null) && q != [] && q[|q| - 1].Index?)
  {
    var s := Matching(v, paths);
    if [] in paths {
      assert [] in s;
    }
    forall p | p in s && p <= q ensures At(Selection(v, paths), q) == At(v, q) {
      ProjectedBelow(v, s, p, q[|p|..]);
      assert p + q[|p|..] == q;
    }
    forall p | p in s && q <= p ensures Outline(Selection(v, paths), q) == Outline(v, q) {
      ProjectedAbove(v, s, q, p);
    }
    if s != {} && Apart(q, s) {
      ProjectedElse(v, s, q);
    }
  }
}
