/** What an exclusion list compares and when its order matters (`payload_except`,
    zizq/src/hashable.rs), by where removals leave each path. */
module ExclusionLaws {
  import opened Json
  import opened JqPath
  import opened PathRemoval
  import opened Wrappers

  // --- A value is determined by its readings ---

  ghost predicate SameReadings(a: Value, b: Value) {
    forall q :: Outline(a, q) == Outline(b, q)
  }

  lemma OneStep(v: Value, step: PathStep)
    ensures At(v, [step]) == Child(v, step)
  {
    assert [step][1..] == [];
  }

  lemma ChildReadings(a: Value, b: Value, step: PathStep)
    requires SameReadings(a, b)
    ensures Child(a, step).Some? <==> Child(b, step).Some?
    ensures Child(a, step).Some? ==> SameReadings(Child(a, step).value, Child(b, step).value)
  {
    OneStep(a, step);
    OneStep(b, step);
    assert Outline(a, [step]) == Outline(b, [step]);
    if Child(a, step).Some? {
      forall q ensures Outline(Child(a, step).value, q) == Outline(Child(b, step).value, q) {
        assert ([step] + q)[1..] == q;
        assert Outline(a, [step] + q) == Outline(b, [step] + q);
      }
    }
  }

  lemma {:induction false} SameReadingsSame(a: Value, b: Value)
    requires SameReadings(a, b)
    ensures a == b
    decreases a
  {
    assert Outline(a, []) == Outline(b, []);
    match a {
      case Object(fields) =>
        forall k ensures k in a.fields <==> k in b.fields {
          ChildReadings(a, b, Field(k));
        }
        forall k | k in a.fields ensures a.fields[k] == b.fields[k] {
          ChildReadings(a, b, Field(k));
          SameReadingsSame(a.fields[k], b.fields[k]);
        }
        assert a.fields == b.fields;
      case Array(items) =>
        ChildReadings(a, b, Index(|a.items|));
        ChildReadings(a, b, Index(|b.items|));
        forall i: nat | i < |a.items| ensures a.items[i] == b.items[i] {
          ChildReadings(a, b, Index(i));
          SameReadingsSame(a.items[i], b.items[i]);
        }
        assert a.items == b.items;
      case _ =>
    }
  }

  // --- One removal keeps exactly what it tracks ---

  lemma {:induction false} Survives(v: Value, p: Path, d: Path)
    requires d != [] && At(v, p).Some? && Track(p, d).Some?
    ensures Outline(Removed(v, d), Track(p, d).value) == Outline(v, p)
    decreases |d|
  {
    if p != [] {
      if |d| == 1 {
        SurvivesLast(v, p, d);
      } else if d[0] != p[0] {
        RemoveApart(v, p[0], Child(v, p[0]).value, d);
      } else {
        var c := Child(v, p[0]).value;
        Survives(c, p[1..], d[1..]);
        TwiceWithChild(v, p[0], Removed(c, d[1..]), Null);
        var q := Track(p[1..], d[1..]).value;
        assert ([p[0]] + q)[1..] == q;
      }
    }
  }

  lemma SurvivesLast(v: Value, p: Path, d: Path)
    requires |d| == 1 && p != [] && At(v, p).Some? && Track(p, d).Some?
    ensures At(Removed(v, d), Track(p, d).value) == At(v, p)
  {
    var q := Track(p, d).value;
    assert q[1..] == p[1..];
    assert Child(Removed(v, d), q[0]) == Child(v, p[0]);
  }

  lemma {:induction false} Origin(v: Value, d: Path, q: Path) returns (p: Path)
    requires d != [] && At(Removed(v, d), q).Some?
    ensures At(v, p).Some? && Track(p, d) == Some(q)
    decreases |d|
  {
    p := q;
    if q != [] {
      if |d| == 1 {
        if d[0].Index? && q[0].Index? && v.Array? && d[0].idx <= q[0].idx && d[0].idx < |v.items| {
          p := [Index(q[0].idx + 1)] + q[1..];
          assert p[1..] == q[1..] && [Index(q[0].idx)] + q[1..] == q;
          assert Child(Removed(v, d), q[0]) == Child(v, p[0]);
        } else if d[0] != q[0] && Child(v, d[0]).Some? {
          assert Child(Removed(v, d), q[0]) == Child(v, q[0]);
        }
      } else if Child(v, d[0]).Some? {
        var c := Child(v, d[0]).value;
        if d[0] == q[0] {
          TwiceWithChild(v, d[0], Removed(c, d[1..]), Null);
          var below := Origin(c, d[1..], q[1..]);
          p := [q[0]] + below;
          assert p[1..] == below && [q[0]] + q[1..] == q;
        } else {
          ApartChild(v, d[0], Removed(c, d[1..]), q[0]);
        }
      }
    }
  }

  lemma ApartChild(v: Value, step: PathStep, c: Value, other: PathStep)
    requires Child(v, step).Some? && step != other
    ensures Child(WithChild(v, step, c), other) == Child(v, other)
  {
  }

  // --- Lists ---

  lemma {:induction false} RootKills(v: Value, p: Path, paths: seq<Path>)
    ensures [] in paths ==> TrackAll(p, paths).None?
    ensures TrackAll([], paths).None? <==> [] in paths
    ensures [] in paths ==> Except(v, paths) == Null
    decreases |paths|
  {
    if paths != [] {
      assert paths == [paths[0]] + paths[1..];
      var next := Track(p, paths[0]);
      RootKills(Removed(v, paths[0]), if next.Some? then next.value else p, paths[1..]);
      if paths[0] == [] {
        NullStaysNull(paths[1..]);
      }
    }
  }

  lemma {:induction false} NullStaysNull(paths: seq<Path>)
    ensures Except(Null, paths) == Null
    decreases |paths|
  {
    if paths != [] {
      assert Removed(Null, paths[0]) == Null;
      NullStaysNull(paths[1..]);
    }
  }

  lemma {:induction false} SurvivesAll(v: Value, p: Path, paths: seq<Path>)
    requires [] !in paths && At(v, p).Some? && TrackAll(p, paths).Some?
    ensures Outline(Except(v, paths), TrackAll(p, paths).value) == Outline(v, p)
    decreases |paths|
  {
    if paths != [] {
      Survives(v, p, paths[0]);
      SurvivesAll(Removed(v, paths[0]), Track(p, paths[0]).value, paths[1..]);
    }
  }

  lemma {:induction false} OriginAll(v: Value, paths: seq<Path>, q: Path) returns (p: Path)
    requires [] !in paths && At(Except(v, paths), q).Some?
    ensures At(v, p).Some? && TrackAll(p, paths) == Some(q)
    decreases |paths|
  {
    if paths == [] {
      p := q;
    } else {
      var below := OriginAll(Removed(v, paths[0]), paths[1..], q);
      p := Origin(v, paths[0], below);
    }
  }

  /** Every path ends up in the same place under either list. */
  ghost predicate SameTracks(ps: seq<Path>, qs: seq<Path>) {
    forall p :: TrackAll(p, ps) == TrackAll(p, qs)
  }

  lemma ReadingCarries(v: Value, ps: seq<Path>, qs: seq<Path>, q: Path)
    requires [] !in ps && [] !in qs && SameTracks(ps, qs) && At(Except(v, ps), q).Some?
    ensures Outline(Except(v, ps), q) == Outline(Except(v, qs), q)
  {
    var p := OriginAll(v, ps, q);
    SurvivesAll(v, p, ps);
    SurvivesAll(v, p, qs);
  }

  lemma SameTracksSameResult(v: Value, ps: seq<Path>, qs: seq<Path>)
    requires SameTracks(ps, qs)
    ensures Except(v, ps) == Except(v, qs)
  {
    RootKills(v, [], ps);
    RootKills(v, [], qs);
    assert TrackAll([], ps) == TrackAll([], qs);
    if [] !in ps {
      forall q ensures Outline(Except(v, ps), q) == Outline(Except(v, qs), q) {
        if At(Except(v, ps), q).Some? {
          ReadingCarries(v, ps, qs, q);
        } else if At(Except(v, qs), q).Some? {
          ReadingCarries(v, qs, ps, q);
        }
      }
      SameReadingsSame(Except(v, ps), Except(v, qs));
    }
  }

  // --- What of two payloads an exclusion list compares ---

  lemma {:induction false} TrackInjective(p: Path, r: Path, d: Path)
    requires Track(p, d).Some? && Track(p, d) == Track(r, d)
    ensures p == r
    decreases |d|
  {
    if p != [] && r != [] {
      assert p == [p[0]] + p[1..] && r == [r[0]] + r[1..];
      var q := Track(p, d).value;
      if |d| > 1 {
        if d[0] == p[0] && d[0] == r[0] {
          assert q[1..] == Track(p[1..], d[1..]).value && q[1..] == Track(r[1..], d[1..]).value;
          TrackInjective(p[1..], r[1..], d[1..]);
        }
      } else {
        assert q[1..] == p[1..] && q[1..] == r[1..];
      }
    }
  }

  lemma {:induction false} TrackAllInjective(p: Path, r: Path, paths: seq<Path>)
    requires TrackAll(p, paths).Some? && TrackAll(p, paths) == TrackAll(r, paths)
    ensures p == r
    decreases |paths|
  {
    if paths != [] {
      TrackAllInjective(Track(p, paths[0]).value, Track(r, paths[0]).value, paths[1..]);
      TrackInjective(p, r, paths[0]);
    }
  }

  /** Two payloads have the same outline at every path the list leaves in place. */
  ghost predicate AgreeBut(v: Value, w: Value, paths: seq<Path>) {
    forall p :: TrackAll(p, paths).Some? ==> Outline(v, p) == Outline(w, p)
  }

  lemma KeptReading(v: Value, w: Value, paths: seq<Path>, q: Path)
    requires [] !in paths && AgreeBut(v, w, paths) && At(Except(v, paths), q).Some?
    ensures Outline(Except(v, paths), q) == Outline(Except(w, paths), q)
  {
    var p := OriginAll(v, paths, q);
    assert Outline(v, p) == Outline(w, p);
    SurvivesAll(v, p, paths);
    SurvivesAll(w, p, paths);
  }

  lemma KeptOutline(v: Value, w: Value, paths: seq<Path>, p: Path)
    requires [] !in paths && Except(v, paths) == Except(w, paths) && TrackAll(p, paths).Some? && At(v, p).Some?
    ensures Outline(v, p) == Outline(w, p)
  {
    SurvivesAll(v, p, paths);
    var r := OriginAll(w, paths, TrackAll(p, paths).value);
    TrackAllInjective(p, r, paths);
    SurvivesAll(w, p, paths);
  }

  /** Two payloads give the same result, for any exclusion list, if and only if they
      agree at every path the list leaves in place. */
  lemma ExceptExact(v: Value, w: Value, paths: seq<Path>)
    ensures Except(v, paths) == Except(w, paths) <==> AgreeBut(v, w, paths)
  {
    if [] in paths {
      RootKills(v, [], paths);
      RootKills(w, [], paths);
      forall p ensures TrackAll(p, paths).None? {
        RootKills(v, p, paths);
      }
    } else if AgreeBut(v, w, paths) {
      forall q ensures Outline(Except(v, paths), q) == Outline(Except(w, paths), q) {
        if At(Except(v, paths), q).Some? {
          KeptReading(v, w, paths, q);
        } else if At(Except(w, paths), q).Some? {
          KeptReading(w, v, paths, q);
        }
      }
      SameReadingsSame(Except(v, paths), Except(w, paths));
    } else if Except(v, paths) == Except(w, paths) {
      forall p | TrackAll(p, paths).Some? ensures Outline(v, p) == Outline(w, p) {
        if At(v, p).Some? {
          KeptOutline(v, w, paths, p);
        } else if At(w, p).Some? {
          KeptOutline(w, v, paths, p);
        }
      }
    }
  }

  // --- Different tracks show ---

  function Sample(p: Path): (v: Value)
    ensures At(v, p).Some?
    decreases |p|
  {
    if p == [] then Null
    else
      var c := Sample(p[1..]);
      match p[0]
      case Field(name) => Object(map[name := c])
      case Index(idx) => Array(Nulls(idx) + [c])
  }

  lemma {:induction false} ReplacedThenExcept(v: Value, p: Path, x: Value, paths: seq<Path>)
    requires At(v, p).Some? && TrackAll(p, paths).Some? && x.IsScalar()
    ensures var a := TrackAll(p, paths).value;
            At(Except(v, paths), a).Some? && Except(Replaced(v, p, x), paths) == Replaced(Except(v, paths), a, x)
    decreases |paths|
  {
    if paths != [] {
      var _ := ReplacedThenRemoved(v, p, x, paths[0]);
      ReplacedThenExcept(Removed(v, paths[0]), Track(p, paths[0]).value, x, paths[1..]);
    }
  }

  /** A mark at one of two different places is not always a mark at the other. */
  lemma {:induction false} MarksDiffer(v: Value, a: Path, b: Path)
    requires a != b && At(v, a).Some? && At(v, b).Some?
    ensures Replaced(v, a, Bool(true)) != Replaced(v, b, Bool(true)) || Replaced(v, a, Bool(false)) != Replaced(v, b, Bool(false))
    decreases |a|
  {
    if a != [] && b != [] {
      var c := Child(v, a[0]).value;
      TwiceWithChild(v, a[0], Replaced(c, a[1..], Bool(true)), Null);
      TwiceWithChild(v, a[0], Replaced(c, a[1..], Bool(false)), Null);
      if a[0] == b[0] {
        assert a == [a[0]] + a[1..] && b == [b[0]] + b[1..];
        MarksDiffer(c, a[1..], b[1..]);
        TwiceWithChild(v, a[0], Replaced(c, b[1..], Bool(true)), Null);
        TwiceWithChild(v, a[0], Replaced(c, b[1..], Bool(false)), Null);
      } else {
        ReplacedAt(c, a[1..], Bool(true));
        ReplacedAt(c, a[1..], Bool(false));
        ApartChild(v, b[0], Replaced(Child(v, b[0]).value, b[1..], Bool(true)), a[0]);
        ApartChild(v, b[0], Replaced(Child(v, b[0]).value, b[1..], Bool(false)), a[0]);
      }
    }
  }

  lemma TrackedApart(p: Path, ps: seq<Path>, qs: seq<Path>) returns (v: Value)
    requires TrackAll(p, ps).Some? && TrackAll(p, ps) != TrackAll(p, qs)
    ensures Except(v, ps) != Except(v, qs)
  {
    v := Sample(p);
    var yes, no := Replaced(v, p, Bool(true)), Replaced(v, p, Bool(false));
    ReplacedThenExcept(v, p, Bool(true), ps);
    ReplacedThenExcept(v, p, Bool(false), ps);
    if Except(v, ps) == Except(v, qs) {
      if TrackAll(p, qs).None? {
        Exposed(v, p, Bool(true), ps);
        Exposed(v, p, Bool(false), ps);
        Hidden(v, p, Bool(true), qs);
        Hidden(v, p, Bool(false), qs);
      } else {
        ReplacedThenExcept(v, p, Bool(true), qs);
        ReplacedThenExcept(v, p, Bool(false), qs);
        MarksDiffer(Except(v, ps), TrackAll(p, ps).value, TrackAll(p, qs).value);
      }
      v := if Except(yes, ps) != Except(yes, qs) then yes else no;
    }
  }

  /** Two exclusion lists, whatever they hold, give the same result for every payload if
      and only if the lists alone leave every path in the same place. */
  lemma OrderExact(ps: seq<Path>, qs: seq<Path>)
    ensures (forall v :: Except(v, ps) == Except(v, qs)) <==> SameTracks(ps, qs)
  {
    if SameTracks(ps, qs) {
      forall v ensures Except(v, ps) == Except(v, qs) {
        SameTracksSameResult(v, ps, qs);
      }
    } else {
      var p :| TrackAll(p, ps) != TrackAll(p, qs);
      var v;
      if TrackAll(p, ps).Some? {
        v := TrackedApart(p, ps, qs);
      } else {
        v := TrackedApart(p, qs, ps);
      }
      assert Except(v, ps) != Except(v, qs);
    }
  }

  // --- Two paths ---

  /** Removing `p` moves `q`, or brings another element to where `q` leads: `p` ends at
      an index, and `q` goes on from the same array at a later index or below it. */
  predicate Shifts(p: Path, q: Path) {
    && p != [] && p[|p| - 1].Index? && |p| <= |q|
    && q[..|p| - 1] == p[..|p| - 1] && q[|p| - 1].Index?
    && (p[|p| - 1].idx < q[|p| - 1].idx || (p[|p| - 1] == q[|p| - 1] && |p| < |q|))
  }

  function TrackBoth(r: Path, p: Path, q: Path): Option<Path> {
    var next := Track(r, p);
    if next.None? then None else Track(next.value, q)
  }

  lemma ShiftsBelow(p: Path, q: Path)
    requires |p| > 1 && |q| > 1 && p[0] == q[0]
    ensures Shifts(p[1..], q[1..]) <==> Shifts(p, q)
  {
    if |p| <= |q| {
      assert p[..|p| - 1] == [p[0]] + p[1..][..|p| - 2];
      assert q[..|p| - 1] == [q[0]] + q[1..][..|p| - 2];
    }
  }

  /** Below a shared first step the two removals act on the rest of the path. */
  lemma TrackBothBelow(r: Path, p: Path, q: Path)
    requires |p| > 1 && |q| > 1 && p[0] == q[0] && r != [] && r[0] == p[0]
    ensures var below := TrackBoth(r[1..], p[1..], q[1..]);
            TrackBoth(r, p, q) == if below.None? then None else Some([p[0]] + below.value)
  {
    var once := Track(r[1..], p[1..]);
    if once.Some? {
      assert ([p[0]] + once.value)[1..] == once.value;
    }
  }

  lemma {:induction false} TracksCommute(r: Path, p: Path, q: Path)
    requires !Shifts(p, q) && !Shifts(q, p)
    ensures TrackBoth(r, p, q) == TrackBoth(r, q, p)
    decreases |r|
  {
    if p != [] && q != [] && r != [] {
      if |p| > 1 && |q| > 1 {
        if p[0] == q[0] == r[0] {
          ShiftsBelow(p, q);
          ShiftsBelow(q, p);
          TracksCommute(r[1..], p[1..], q[1..]);
          TrackBothBelow(r, p, q);
          TrackBothBelow(r, q, p);
        }
      } else if |p| == 1 {
        TracksCommuteLast(r, p, q);
      } else {
        TracksCommuteLast(r, q, p);
      }
    }
  }

  lemma TracksCommuteLast(r: Path, p: Path, q: Path)
    requires |p| == 1 && q != [] && r != [] && !Shifts(p, q) && !Shifts(q, p)
    ensures TrackBoth(r, p, q) == TrackBoth(r, q, p)
  {
    assert q[..0] == p[..0];
    if |q| == 1 && p[0].Index? && q[0].Index? {
      assert p == [p[0]] && q == [q[0]];
    }
  }

  /** A path that two shifting removals leave in different places by order. */
  lemma {:induction false} ShiftWitness(p: Path, q: Path) returns (r: Path)
    requires Shifts(p, q)
    ensures TrackBoth(r, p, q) != TrackBoth(r, q, p)
    decreases |p|
  {
    if |p| > 1 {
      assert p[0] == p[..|p| - 1][0] == q[..|p| - 1][0] == q[0];
      ShiftsBelow(p, q);
      var below := ShiftWitness(p[1..], q[1..]);
      r := [p[0]] + below;
      assert r[1..] == below;
      TrackBothBelow(r, p, q);
      TrackBothBelow(r, q, p);
      var x, y := TrackBoth(below, p[1..], q[1..]), TrackBoth(below, q[1..], p[1..]);
      if x.Some? && y.Some? {
        assert ([p[0]] + x.value)[1..] == x.value && ([p[0]] + y.value)[1..] == y.value;
      }
    } else {
      var i, j := p[0].idx, q[0].idx;
      if i < j {
        r := q;
        TrackSelf(q);
        assert Track(q, p) == Some([Index(j - 1)] + q[1..]);
        assert TrackBoth(r, q, p).None?;
        assert Track([Index(j - 1)] + q[1..], q).Some?;
      } else {
        r := [Index(i + 1)] + q[1..];
        assert r[1..] == q[1..] && [Index(i)] + q[1..] == q;
        TrackSelf(q);
        assert Track(r, p) == Some(q) && Track(r, q) == Some(r);
      }
    }
  }

  lemma TwoPaths(v: Value, r: Path, p: Path, q: Path)
    ensures TrackAll(r, [p, q]) == TrackBoth(r, p, q)
    ensures Except(v, [p, q]) == Removed(Removed(v, p), q)
  {
    assert [p, q][1..] == [q] && [q][1..] == [];
    assert Except(Removed(v, p), [q]) == Removed(Removed(v, p), q);
    assert forall s :: TrackAll(s, [q]) == Track(s, q);
  }

  /** Removals that do not shift each other commute. */
  lemma SwapsFreely(v: Value, p: Path, q: Path)
    requires !Shifts(p, q) && !Shifts(q, p)
    ensures Removed(Removed(v, p), q) == Removed(Removed(v, q), p)
  {
    forall r ensures TrackAll(r, [p, q]) == TrackAll(r, [q, p]) {
      TracksCommute(r, p, q);
      TwoPaths(v, r, p, q);
      TwoPaths(v, r, q, p);
    }
    SameTracksSameResult(v, [p, q], [q, p]);
    TwoPaths(v, [], p, q);
    TwoPaths(v, [], q, p);
  }

  lemma ShiftedApart(p: Path, q: Path) returns (v: Value)
    requires Shifts(p, q)
    ensures Removed(Removed(v, p), q) != Removed(Removed(v, q), p)
  {
    var r := ShiftWitness(p, q);
    TwoPaths(Null, r, p, q);
    TwoPaths(Null, r, q, p);
    if TrackBoth(r, p, q).Some? {
      v := TrackedApart(r, [p, q], [q, p]);
    } else {
      v := TrackedApart(r, [q, p], [p, q]);
    }
    TwoPaths(v, r, p, q);
    TwoPaths(v, r, q, p);
  }

  /** Two removals commute on every value if and only if neither shifts the other. */
  lemma SwapExact(p: Path, q: Path)
    ensures (forall v :: Removed(Removed(v, p), q) == Removed(Removed(v, q), p)) <==> !Shifts(p, q) && !Shifts(q, p)
  {
    if Shifts(p, q) {
      var v := ShiftedApart(p, q);
    } else if Shifts(q, p) {
      var v := ShiftedApart(q, p);
    } else {
      forall v ensures Removed(Removed(v, p), q) == Removed(Removed(v, q), p) {
        SwapsFreely(v, p, q);
      }
    }
  }

  // --- Whole lists without shifts ---

  predicate NoShifts(paths: seq<Path>) {
    forall p, q :: p in paths && q in paths ==> !Shifts(p, q)
  }

  function LeavingOut(paths: seq<Path>, i: nat): seq<Path>
    requires i < |paths|
  {
    paths[..i] + paths[i + 1..]
  }

  lemma ExceptTwo(v: Value, p: Path, q: Path, rest: seq<Path>)
    ensures Except(v, [p, q] + rest) == Except(Removed(Removed(v, p), q), rest)
  {
    assert ([p, q] + rest)[1..] == [q] + rest && ([q] + rest)[1..] == rest;
  }

  lemma {:induction false} MoveToFront(v: Value, paths: seq<Path>, i: nat)
    requires i < |paths| && NoShifts(paths)
    ensures Except(v, paths) == Except(v, [paths[i]] + LeavingOut(paths, i))
    decreases i
  {
    if i == 0 {
      assert [paths[0]] + LeavingOut(paths, 0) == paths;
    } else {
      hide Removed, Shifts;
      var x, y, rest := paths[0], paths[i], paths[1..];
      MoveToFront(Removed(v, x), rest, i - 1);
      var tail := LeavingOut(rest, i - 1);
      assert Except(Removed(v, x), [y] + tail) == Except(v, [x, y] + tail) by {
        assert ([x, y] + tail)[1..] == [y] + tail;
      }
      assert [y] + LeavingOut(paths, i) == [y, x] + tail;
      ExceptTwo(v, x, y, tail);
      ExceptTwo(v, y, x, tail);
      SwapsFreely(v, x, y);
    }
  }

  lemma SameMembers(ps: seq<Path>, qs: seq<Path>, i: nat)
    requires ps != [] && i < |qs| && multiset(ps) == multiset(qs) && qs[i] == ps[0]
    ensures multiset(ps[1..]) == multiset(LeavingOut(qs, i))
  {
    assert ps == [ps[0]] + ps[1..];
    assert qs == qs[..i] + [qs[i]] + qs[i + 1..];
    var a, b, x := multiset(ps[1..]), multiset(LeavingOut(qs, i)), multiset{ps[0]};
    assert b == multiset(qs[..i]) + multiset(qs[i + 1..]);
    assert multiset(ps) == x + a && multiset(qs) == x + b;
    assert a == x + a - x && b == x + b - x;
  }

  /** A list none of whose members shifts another gives one result in any order. */
  lemma {:induction false} AnyOrder(v: Value, ps: seq<Path>, qs: seq<Path>)
    requires multiset(ps) == multiset(qs) && NoShifts(ps)
    ensures Except(v, ps) == Except(v, qs)
    decreases |ps|
  {
    if ps == [] {
      assert |multiset(qs)| == 0;
    } else {
      assert ps[0] in multiset(qs);
      var i: nat :| i < |qs| && qs[i] == ps[0];
      var rest := LeavingOut(qs, i);
      forall p, q | p in qs && q in qs ensures !Shifts(p, q) {
        assert p in multiset(ps) && q in multiset(ps);
      }
      MoveToFront(v, qs, i);
      SameMembers(ps, qs, i);
      assert ([ps[0]] + rest)[1..] == rest;
      AnyOrder(Removed(v, ps[0]), ps[1..], rest);
    }
  }
}
