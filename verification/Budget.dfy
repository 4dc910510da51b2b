/** Budget strategies on the wire and budget patches (zizq/src/budget.rs). */
module Budget {
  import opened Json
  import opened MergePatch
  import opened Wrappers
  import Decimal

  const NANOS_PER_MILLI: nat := 1_000_000
  const NANOS_PER_SEC: nat := 1_000_000_000

  /** `std::time::Duration` in nanoseconds: 64-bit seconds and a remainder. */
  type Duration = n: nat | n < U64_LIMIT * NANOS_PER_SEC

  /** `as_millis() as u64`: the fraction is dropped and the count wraps. */
  function AsMillis(d: Duration): u64 {
    (d / NANOS_PER_MILLI) % U64_LIMIT
  }

  function FromMillis(ms: u64): Duration {
    ms * NANOS_PER_MILLI
  }

  /** Durations a 64-bit count of milliseconds can say exactly. */
  predicate WholeMillis(d: Duration) {
    d % 1_000_000 == 0 && d < 18_446_744_073_709_551_616 * 1_000_000
  }

  lemma MillisExact(d: Duration)
    ensures FromMillis(AsMillis(d)) == d <==> WholeMillis(d)
  {
    var ms := d / NANOS_PER_MILLI;
    assert d == ms * NANOS_PER_MILLI + d % NANOS_PER_MILLI;
    if ms < U64_LIMIT {
      assert AsMillis(d) == ms;
    } else {
      assert AsMillis(d) < ms;
    }
  }

  datatype Strategy =
    | TimeBased(duration: Duration, burst: Option<u32>)
    | WhileInFlight
    | Unknown(name: string)
  {
    function Kind(): string {
      match this
      case TimeBased(_, _) => "time_based"
      case WhileInFlight => "while_in_flight"
      case Unknown(name) => name
    }
  }

  // --- The wire form ---

  datatype Wire = Wire(kind: string, durationMs: Option<u64>, burst: Option<u32>)

  function FromWire(wire: Wire): Strategy {
    if wire.kind == "time_based" then
      match wire.durationMs
      case Some(ms) => TimeBased(FromMillis(ms), wire.burst)
      case None => Unknown(wire.kind)
    else if wire.kind == "while_in_flight" then WhileInFlight
    else Unknown(wire.kind)
  }

  function ToWire(s: Strategy): Wire {
    match s
    case TimeBased(duration, burst) => Wire("time_based", Some(AsMillis(duration)), burst)
    case WhileInFlight => Wire("while_in_flight", None, None)
    case Unknown(name) => Wire(name, None, None)
  }

  function SetIfSome(o: Option<nat>): Field<nat> {
    if o.Some? then Set(o.value) else Keep
  }

  function WireJson(w: Wire): Value {
    Object(map["type" := Str(w.kind)]
           + Member("duration_ms", Numeric(SetIfSome(w.durationMs)))
           + Member("burst", Numeric(SetIfSome(w.burst))))
  }

  /** An optional unsigned member: absent and `null` both read as none. */
  function ReadOptional(o: Option<Value>, limit: nat): (r: Option<Option<nat>>)
    ensures r.Some? && r.value.Some? ==> r.value.value < limit
  {
    match o
    case None => Some(None)
    case Some(Null) => Some(None)
    case Some(Number(t)) =>
      if Decimal.AllDigits(t) && Decimal.Value(t) < limit then Some(Some(Decimal.Value(t))) else None
    case _ => None
  }

  /** Decoding the wire form from its three members. */
  function ReadWire(kind: Option<Value>, duration: Option<Value>, burst: Option<Value>): Option<Wire> {
    var d, b := ReadOptional(duration, U64_LIMIT), ReadOptional(burst, U32_LIMIT);
    if kind.Some? && kind.value.Str? && d.Some? && b.Some?
    then Some(Wire(kind.value.s, d.value, b.value))
    else None
  }

  /** The strategies that survive being written and read back. */
  predicate Writable(s: Strategy) {
    match s
    case TimeBased(duration, _) => WholeMillis(duration)
    case WhileInFlight => true
    case Unknown(name) => name != "while_in_flight"
  }

  /** A wire form is read back as it was written. */
  lemma WireReadsBack(w: Wire)
    ensures var doc := WireJson(w);
            ReadWire(Read(doc, "type"), Read(doc, "duration_ms"), Read(doc, "burst")) == Some(w)
  {
    var d, b := Numeric(SetIfSome(w.durationMs)), Numeric(SetIfSome(w.burst));
    var m := map["type" := Str(w.kind)];
    var doc := WireJson(w);
    assert Read(doc, "type") == Some(Str(w.kind));
    assert Read(doc, "duration_ms") == Applied(None, d);
    assert Read(doc, "burst") == Applied(None, b);
  }

  lemma WireRoundTrip(s: Strategy)
    ensures var doc := WireJson(ToWire(s));
            var back := ReadWire(Read(doc, "type"), Read(doc, "duration_ms"), Read(doc, "burst"));
            && back == Some(ToWire(s))
            && (FromWire(back.value) == s <==> Writable(s))
  {
    WireReadsBack(ToWire(s));
    if s.TimeBased? {
      MillisExact(s.duration);
    }
  }

  /** The document in full: the kind, and for `time_based` the whole milliseconds, which
      wrap at 64 bits, and the burst if there is one. */
  lemma WireWrites(s: Strategy)
    ensures WireJson(ToWire(s)).Object?
    ensures var m := WireJson(ToWire(s)).fields;
            match s
            case TimeBased(duration, burst) =>
              && m.Keys == {"type", "duration_ms"} + (if burst.Some? then {"burst"} else {})
              && m["type"] == Str("time_based")
              && IsNumeral(m["duration_ms"], (duration / 1_000_000) % 18_446_744_073_709_551_616)
              && (burst.Some? ==> IsNumeral(m["burst"], burst.value))
            case WhileInFlight => m == map["type" := Str("while_in_flight")]
            case Unknown(name) => m == map["type" := Str(name)]
  {
  }

  // --- A stored budget ---

  datatype Policy = Policy(allocation: u32, strategy: Strategy)

  /** The four members of a stored budget that a policy is read from. */
  datatype View = View(allocation: Option<Value>, kind: Option<Value>, duration: Option<Value>, burst: Option<Value>)

  function StrategyOf(doc: Value): Value {
    OrNull(Read(doc, "strategy"))
  }

  function Look(doc: Value): View {
    var s := StrategyOf(doc);
    View(Read(doc, "allocation"), Read(s, "type"), Read(s, "duration_ms"), Read(s, "burst"))
  }

  function WireOf(v: View): Option<Wire> {
    ReadWire(v.kind, v.duration, v.burst)
  }

  function DecodeView(v: View): Option<Policy> {
    var a, w := ReadOptional(v.allocation, U32_LIMIT), WireOf(v);
    if a.Some? && a.value.Some? && w.Some? then Some(Policy(a.value.value, FromWire(w.value))) else None
  }

  function Decode(doc: Value): Option<Policy> {
    if StrategyOf(doc).Object? then DecodeView(Look(doc)) else None
  }

  // --- Patches ---

  datatype StrategyPatch = StrategyPatch(kind: Field<string>, durationMs: Field<u64>, burst: Field<u32>)

  datatype Patch = Patch(allocation: Field<u32>, strategy: Field<StrategyPatch>)

  const NO_CHANGE: StrategyPatch := StrategyPatch(Keep, Keep, Keep)
  const NEW: Patch := Patch(Keep, Keep)

  /** One call of a setter. */
  datatype Setter =
    | Allocate(tokens: u32)
    | Replace(strategy: Strategy)
    | Period(duration: Duration)
    | Cap(burst: u32)
    | Uncap

  /** Every field the strategy implies is stated. */
  function Stated(s: Strategy): StrategyPatch {
    match s
    case TimeBased(duration, burst) =>
      StrategyPatch(Set("time_based"), Set(AsMillis(duration)), if burst.Some? then Set(burst.value) else Clear)
    case WhileInFlight => NO_CHANGE.(kind := Set("while_in_flight"))
    case Unknown(name) => NO_CHANGE.(kind := Set(name))
  }

  function Nested(p: Patch): StrategyPatch {
    if p.strategy.Set? then p.strategy.value else NO_CHANGE
  }

  function Do(p: Patch, x: Setter): Patch {
    match x
    case Allocate(tokens) => p.(allocation := Set(tokens))
    case Replace(s) => p.(strategy := Set(Stated(s)))
    case Period(duration) => p.(strategy := Set(Nested(p).(durationMs := Set(AsMillis(duration)))))
    case Cap(burst) => p.(strategy := Set(Nested(p).(burst := Set(burst))))
    case Uncap => p.(strategy := Set(Nested(p).(burst := Clear)))
  }

  function StrategyJson(p: StrategyPatch): (v: Value)
    ensures v.Object?
  {
    Object(Member("type", Text(p.kind)) + Member("duration_ms", Numeric(p.durationMs)) + Member("burst", Numeric(p.burst)))
  }

  function StrategyField(p: Patch): Field<Value> {
    match p.strategy
    case Keep => Keep
    case Clear => Clear
    case Set(s) => Set(StrategyJson(s))
  }

  function ToJson(p: Patch): (v: Value)
    ensures v.Object?
  {
    Object(Member("allocation", Numeric(p.allocation)) + Member("strategy", StrategyField(p)))
  }

  /** The request in full: a kept member is absent, a cleared one is `null`, and a set one
      has its value under the name the server knows it by. */
  lemma RequestWrites(p: Patch)
    ensures var m := ToJson(p).fields;
            && m.Keys <= {"allocation", "strategy"}
            && WritesNumber(m, "allocation", p.allocation)
            && match p.strategy
               case Keep => "strategy" !in m
               case Clear => "strategy" in m && m["strategy"] == Null
               case Set(s) => "strategy" in m && m["strategy"].Object? && WritesStrategy(m["strategy"].fields, s)
  {
    if p.strategy.Set? {
      StrategyWrites(p.strategy.value);
    }
  }

  predicate WritesStrategy(m: map<string, Value>, s: StrategyPatch) {
    && m.Keys <= {"type", "duration_ms", "burst"}
    && WritesText(m, "type", s.kind) && WritesNumber(m, "duration_ms", s.durationMs) && WritesNumber(m, "burst", s.burst)
  }

  lemma StrategyWrites(s: StrategyPatch)
    ensures WritesStrategy(StrategyJson(s).fields, s)
  {
  }

  class BudgetPatch {
    var allocation: Field<u32>
    var strategy: Field<StrategyPatch>

    /** No setter clears the strategy or the allocation, which the server forbids. */
    ghost predicate Valid()
      reads this
    {
      !strategy.Clear? && !allocation.Clear?
    }

    ghost function State(): Patch
      reads this
    {
      Patch(allocation, strategy)
    }

    constructor ()
      ensures Valid() && State() == NEW
    {
      allocation, strategy := Keep, Keep;
    }

    method Allocation(tokens: u32)
      requires Valid()
      modifies this
      ensures Valid() && State() == Do(old(State()), Allocate(tokens))
    {
      allocation := Set(tokens);
    }

    method Strategy(s: Strategy)
      requires Valid()
      modifies this
      ensures Valid() && State() == Do(old(State()), Replace(s))
    {
      var replacement;
      match s {
        case TimeBased(duration, burst) =>
          var cap: Field<u32>;
          match burst {
            case Some(b) => cap := Set(b);
            case None => cap := Clear;
          }
          replacement := StrategyPatch(Set("time_based"), Set(AsMillis(duration)), cap);
        case WhileInFlight =>
          replacement := StrategyPatch(Set("while_in_flight"), Keep, Keep);
        case Unknown(name) =>
          replacement := StrategyPatch(Set(name), Keep, Keep);
      }
      strategy := Set(replacement);
    }

    method Duration(duration: Duration)
      requires Valid()
      modifies this
      ensures Valid() && State() == Do(old(State()), Period(duration))
    {
      var s := StrategyMut();
      strategy := Set(s.(durationMs := Set(AsMillis(duration))));
    }

    method Burst(burst: u32)
      requires Valid()
      modifies this
      ensures Valid() && State() == Do(old(State()), Cap(burst))
    {
      var s := StrategyMut();
      strategy := Set(s.(burst := Set(burst)));
    }

    method ClearBurst()
      requires Valid()
      modifies this
      ensures Valid() && State() == Do(old(State()), Uncap)
    {
      var s := StrategyMut();
      strategy := Set(s.(burst := Clear));
    }

    /** The nested patch to write to; a kept one becomes an empty one first. The arm
        the source calls unreachable is. */
    method StrategyMut() returns (s: StrategyPatch)
      requires Valid()
      modifies this`strategy
      ensures Valid() && strategy == Set(s) && s == Nested(old(State()))
    {
      if strategy.Keep? {
        strategy := Set(NO_CHANGE);
      }
      match strategy {
        case Set(nested) => return nested;
        case _ => assert false;
      }
    }
  }

  // --- What a chain of setters means ---

  function Chain(xs: seq<Setter>): (p: Patch)
    ensures !p.strategy.Clear? && !p.allocation.Clear?
  {
    if xs == [] then NEW else Do(Chain(xs[..|xs| - 1]), xs[|xs| - 1])
  }

  /** The same setters as patches of one setter each, merged one after another. */
  function MergeEach(doc: Value, xs: seq<Setter>): Value {
    if xs == [] then doc else Merge(MergeEach(doc, xs[..|xs| - 1]), ToJson(Do(NEW, xs[|xs| - 1])))
  }

  /** What a patch writes to each of the four members. */
  datatype Writes = Writes(allocation: Field<u32>, kind: Field<string>, durationMs: Field<u64>, burst: Field<u32>)

  function WritesOf(p: Patch): Writes {
    Writes(p.allocation, Nested(p).kind, Nested(p).durationMs, Nested(p).burst)
  }

  function Over(a: Writes, b: Writes): Writes {
    Writes(Later(a.allocation, b.allocation), Later(a.kind, b.kind), Later(a.durationMs, b.durationMs), Later(a.burst, b.burst))
  }

  /** The last write of each member over all the setters. */
  function LastWrites(xs: seq<Setter>): Writes {
    if xs == [] then WritesOf(NEW) else Over(LastWrites(xs[..|xs| - 1]), WritesOf(Do(NEW, xs[|xs| - 1])))
  }

  function Written(v: View, w: Writes): View {
    View(Applied(v.allocation, Numeric(w.allocation)), Applied(v.kind, Text(w.kind)),
         Applied(v.duration, Numeric(w.durationMs)), Applied(v.burst, Numeric(w.burst)))
  }

  lemma StrategyMembers(p: StrategyPatch)
    ensures Received(StrategyJson(p), "type") == Text(p.kind)
    ensures Received(StrategyJson(p), "duration_ms") == Numeric(p.durationMs)
    ensures Received(StrategyJson(p), "burst") == Numeric(p.burst)
  {
  }

  /** Merging a patch writes exactly its writes to a stored budget. */
  lemma MergeWrites(doc: Value, p: Patch)
    requires StrategyOf(doc).Object? && !p.strategy.Clear?
    ensures StrategyOf(Merge(doc, ToJson(p))).Object?
    ensures Look(Merge(doc, ToJson(p))) == Written(Look(doc), WritesOf(p))
  {
    var patch := ToJson(p);
    MergeActsPerMember(doc, patch, "allocation");
    MergeActsPerMember(doc, patch, "strategy");
    assert Received(patch, "allocation") == Numeric(p.allocation);
    assert Received(patch, "strategy") == StrategyField(p);
    if p.strategy.Set? {
      var s, nested := StrategyOf(doc), StrategyJson(p.strategy.value);
      StrategyMembers(p.strategy.value);
      MergeActsPerMember(s, nested, "type");
      MergeActsPerMember(s, nested, "duration_ms");
      MergeActsPerMember(s, nested, "burst");
    }
  }

  lemma WrittenTwice(v: View, a: Writes, b: Writes)
    ensures Written(Written(v, a), b) == Written(v, Over(a, b))
  {
    AppliedTwice(v.allocation, Numeric(a.allocation), Numeric(b.allocation));
    AppliedTwice(v.kind, Text(a.kind), Text(b.kind));
    AppliedTwice(v.duration, Numeric(a.durationMs), Numeric(b.durationMs));
    AppliedTwice(v.burst, Numeric(a.burst), Numeric(b.burst));
  }

  function NewNumber(stored: Option<nat>, f: Field<nat>): Option<nat> {
    match f
    case Keep => stored
    case Clear => None
    case Set(n) => Some(n)
  }

  lemma ReadWritten(o: Option<Value>, f: Field<nat>, limit: nat)
    requires ReadOptional(o, limit).Some? && (f.Set? ==> f.value < limit)
    ensures ReadOptional(Applied(o, Numeric(f)), limit) == Some(NewNumber(ReadOptional(o, limit).value, f))
  {
  }

  /** What writes leave of a stored wire form. */
  function Rewired(wire: Wire, w: Writes): Wire {
    Wire(if w.kind.Set? then w.kind.value else wire.kind,
         NewNumber(wire.durationMs, w.durationMs), NewNumber(wire.burst, w.burst))
  }

  lemma DecodeWritten(v: View, w: Writes)
    requires DecodeView(v).Some? && !w.allocation.Clear? && !w.kind.Clear?
    ensures DecodeView(Written(v, w)) ==
            Some(Policy(if w.allocation.Set? then w.allocation.value else DecodeView(v).value.allocation,
                        FromWire(Rewired(WireOf(v).value, w))))
  {
    ReadWritten(v.allocation, w.allocation, U32_LIMIT);
    ReadWritten(v.duration, w.durationMs, U64_LIMIT);
    ReadWritten(v.burst, w.burst, U32_LIMIT);
  }

  lemma DecodeMerged(doc: Value, p: Patch)
    requires Decode(doc).Some? && !p.strategy.Clear? && !p.allocation.Clear? && !Nested(p).kind.Clear?
    ensures Decode(Merge(doc, ToJson(p))) ==
            Some(Policy(if p.allocation.Set? then p.allocation.value else Decode(doc).value.allocation,
                        FromWire(Rewired(WireOf(Look(doc)).value, WritesOf(p)))))
  {
    MergeWrites(doc, p);
    DecodeWritten(Look(doc), WritesOf(p));
  }

  lemma MergeAfter(doc: Value, v: View, a: Writes, p: Patch)
    requires StrategyOf(doc).Object? && Look(doc) == Written(v, a) && !p.strategy.Clear?
    ensures StrategyOf(Merge(doc, ToJson(p))).Object?
    ensures Look(Merge(doc, ToJson(p))) == Written(v, Over(a, WritesOf(p)))
  {
    MergeWrites(doc, p);
    WrittenTwice(v, a, WritesOf(p));
  }

  lemma NothingWritten(v: View)
    ensures Written(v, WritesOf(NEW)) == v
  {
  }

  lemma {:induction false} MergeEachWrites(doc: Value, xs: seq<Setter>)
    requires StrategyOf(doc).Object?
    ensures StrategyOf(MergeEach(doc, xs)).Object?
    ensures Look(MergeEach(doc, xs)) == Written(Look(doc), LastWrites(xs))
  {
    hide Merge, ToJson, Look, Written;
    if xs == [] {
      NothingWritten(Look(doc));
    } else {
      var prefix, x := xs[..|xs| - 1], xs[|xs| - 1];
      MergeEachWrites(doc, prefix);
      MergeAfter(MergeEach(doc, prefix), Look(doc), LastWrites(prefix), Do(NEW, x));
      assert MergeEach(doc, xs) == Merge(MergeEach(doc, prefix), ToJson(Do(NEW, x)));
      assert LastWrites(xs) == Over(LastWrites(prefix), WritesOf(Do(NEW, x)));
    }
  }

  // --- Chains against one-by-one patches ---

  predicate WritesDuration(x: Setter) {
    x.Period? || (x.Replace? && x.strategy.TimeBased?)
  }

  predicate WritesBurst(x: Setter) {
    x.Cap? || x.Uncap? || (x.Replace? && x.strategy.TimeBased?)
  }

  /** A member was written, a later `strategy(..)` that does not state it dropped that,
      and nothing has written it since. */
  predicate Drops(xs: seq<Setter>, writes: Setter -> bool) {
    if xs == [] then false
    else
      var x := xs[|xs| - 1];
      if writes(x) then false
      else if x.Replace? then exists i :: 0 <= i < |xs| - 1 && writes(xs[i])
      else Drops(xs[..|xs| - 1], writes)
  }

  /** The name given by the last `strategy(..)`, if there is one. */
  function LastKind(xs: seq<Setter>): Option<string> {
    if xs == [] then None
    else if xs[|xs| - 1].Replace? then Some(xs[|xs| - 1].strategy.Kind())
    else LastKind(xs[..|xs| - 1])
  }

  /** What the caller has to look at: only an unknown strategy that names `time_based`
      can leave the time-based kind with an earlier duration or burst dropped. */
  predicate Faithful(xs: seq<Setter>) {
    LastKind(xs) == Some("time_based") ==> !Drops(xs, WritesDuration) && !Drops(xs, WritesBurst)
  }

  /** What one setter writes by itself and at the end of a chain. */
  lemma SetterWrites(p: Patch, x: Setter)
    ensures var a, d, r := WritesOf(p), WritesOf(Do(NEW, x)), WritesOf(Do(p, x));
            && r.allocation == Later(a.allocation, d.allocation) && r.kind == Later(a.kind, d.kind)
            && r.durationMs == (if x.Replace? then d.durationMs else Later(a.durationMs, d.durationMs))
            && r.burst == (if x.Replace? then d.burst else Later(a.burst, d.burst))
            && (if WritesDuration(x) then d.durationMs.Set? else d.durationMs.Keep?)
            && (d.burst.Keep? <==> !WritesBurst(x))
            && d.kind == (if x.Replace? then Set(x.strategy.Kind()) else Keep)
  {
  }

  lemma {:induction false} LastWritesOf(xs: seq<Setter>)
    ensures LastWrites(xs).durationMs.Keep? <==> forall i :: 0 <= i < |xs| ==> !WritesDuration(xs[i])
    ensures LastWrites(xs).burst.Keep? <==> forall i :: 0 <= i < |xs| ==> !WritesBurst(xs[i])
    ensures !LastWrites(xs).durationMs.Clear?
    ensures LastWrites(xs).kind == (if LastKind(xs).Some? then Set(LastKind(xs).value) else Keep)
  {
    if xs != [] {
      LastWritesOf(xs[..|xs| - 1]);
      SetterWrites(NEW, xs[|xs| - 1]);
      assert forall i :: 0 <= i < |xs| - 1 ==> xs[..|xs| - 1][i] == xs[i];
    }
  }

  /** The chained patch writes what the setters last wrote, less what was dropped. */
  lemma {:induction false} ChainWrites(xs: seq<Setter>)
    ensures var a, b := WritesOf(Chain(xs)), LastWrites(xs);
            && a.allocation == b.allocation && a.kind == b.kind
            && a.durationMs == (if Drops(xs, WritesDuration) then Keep else b.durationMs)
            && a.burst == (if Drops(xs, WritesBurst) then Keep else b.burst)
            && (Drops(xs, WritesDuration) ==> b.durationMs.Set? && LastKind(xs).Some?)
            && (Drops(xs, WritesBurst) ==> !b.burst.Keep? && LastKind(xs).Some?)
  {
    if xs != [] {
      var prefix := xs[..|xs| - 1];
      ChainWrites(prefix);
      LastWritesOf(prefix);
      SetterWrites(Chain(prefix), xs[|xs| - 1]);
      assert forall i :: 0 <= i < |xs| - 1 ==> prefix[i] == xs[i];
    }
  }

  /** The policy each way of applying the setters leaves. */
  lemma BothWays(doc: Value, xs: seq<Setter>)
    requires Decode(doc).Some?
    ensures WireOf(Look(doc)).Some?
    ensures var wire := WireOf(Look(doc)).value;
            var chained, each := Decode(Merge(doc, ToJson(Chain(xs)))), Decode(MergeEach(doc, xs));
            && chained.Some? && each.Some?
            && chained.value.allocation == each.value.allocation
               == (if LastWrites(xs).allocation.Set? then LastWrites(xs).allocation.value else Decode(doc).value.allocation)
            && chained.value.strategy == FromWire(Rewired(wire, WritesOf(Chain(xs))))
            && each.value.strategy == FromWire(Rewired(wire, LastWrites(xs)))
  {
    ChainWrites(xs);
    LastWritesOf(xs);
    DecodeMerged(doc, Chain(xs));
    MergeEachWrites(doc, xs);
    DecodeWritten(Look(doc), LastWrites(xs));
  }

  /** Only a `time_based` kind reads the duration and the burst. */
  lemma KindDecides(wire: Wire, a: Writes, b: Writes)
    requires a.kind == b.kind
    requires (a.kind.Set? && a.kind.value != "time_based")
             || (a.durationMs == b.durationMs && a.burst == b.burst)
    ensures FromWire(Rewired(wire, a)) == FromWire(Rewired(wire, b))
  {
  }

  lemma ChainEqualsSequential(doc: Value, xs: seq<Setter>)
    requires Decode(doc).Some? && Faithful(xs)
    ensures Decode(Merge(doc, ToJson(Chain(xs)))) == Decode(MergeEach(doc, xs))
  {
    hide Merge, ToJson, Chain, MergeEach, Decode, WritesOf, LastWrites, Look, Rewired, FromWire, Drops;
    BothWays(doc, xs);
    ChainWrites(xs);
    LastWritesOf(xs);
    KindDecides(WireOf(Look(doc)).value, WritesOf(Chain(xs)), LastWrites(xs));
  }

  function Stored(allocation: u32, wire: Wire): Value {
    Object(map["allocation" := Numeral(allocation), "strategy" := WireJson(wire)])
  }

  lemma StoredReads(allocation: u32, wire: Wire)
    ensures Decode(Stored(allocation, wire)) == Some(Policy(allocation, FromWire(wire)))
    ensures WireOf(Look(Stored(allocation, wire))) == Some(wire)
  {
    WireReadsBack(wire);
    assert Read(Stored(allocation, wire), "allocation") == Some(Numeral(allocation));
    assert StrategyOf(Stored(allocation, wire)) == WireJson(wire);
  }

  /** A stored time-based wire form whose duration and burst differ from what is written. */
  function Witness(w: Writes): Wire {
    Wire("time_based", Some(if w.durationMs == Set(0) then 1 else 0), Some(if w.burst == Set(0) then 1 else 0))
  }

  /** Keeping the witness's duration or burst instead of writing it shows. */
  lemma KeptShows(w: Writes, a: Writes)
    requires a.kind == w.kind == Set("time_based") && !w.durationMs.Clear?
    requires (a.durationMs.Keep? && w.durationMs.Set?) || (a.durationMs == w.durationMs && a.burst.Keep? && !w.burst.Keep?)
    ensures FromWire(Rewired(Witness(w), a)) != FromWire(Rewired(Witness(w), w))
  {
  }

  lemma ChainDiffers(xs: seq<Setter>)
    requires !Faithful(xs)
    ensures var doc := Stored(1, Witness(LastWrites(xs)));
            Decode(doc).Some? && Decode(Merge(doc, ToJson(Chain(xs)))) != Decode(MergeEach(doc, xs))
  {
    var w := LastWrites(xs);
    StoredReads(1, Witness(w));
    BothWays(Stored(1, Witness(w)), xs);
    ChainWrites(xs);
    LastWritesOf(xs);
    KeptShows(w, WritesOf(Chain(xs)));
  }

  /** A chained patch does to every stored budget what its setters do as patches of
      their own, one by one, exactly when the chain is faithful. */
  lemma ChainExact(xs: seq<Setter>)
    ensures Faithful(xs) <==>
      forall doc | Decode(doc).Some? :: Decode(Merge(doc, ToJson(Chain(xs)))) == Decode(MergeEach(doc, xs))
  {
    if Faithful(xs) {
      forall doc | Decode(doc).Some?
        ensures Decode(Merge(doc, ToJson(Chain(xs)))) == Decode(MergeEach(doc, xs))
      {
        ChainEqualsSequential(doc, xs);
      }
    } else {
      ChainDiffers(xs);
    }
  }

  /** A chain that is not: a period, then an unknown strategy named `time_based`. */
  function ForgetfulChain(): seq<Setter> {
    [Period(FromMillis(1)), Replace(Unknown("time_based"))]
  }

  lemma ForgottenPeriod()
    ensures !Faithful(ForgetfulChain())
    ensures WritesOf(Chain(ForgetfulChain())) == Writes(Keep, Set("time_based"), Keep, Keep)
    ensures LastWrites(ForgetfulChain()) == Writes(Keep, Set("time_based"), Set(1), Keep)
  {
    var x, y := Period(FromMillis(1)), Replace(Unknown("time_based"));
    assert [x, y][..1] == [x] && [x][..0] == [];
    MillisExact(FromMillis(1));
    assert Chain([x]) == Do(NEW, x) && Chain([x, y]) == Do(Chain([x]), y);
    assert LastWrites([x]) == Over(WritesOf(NEW), WritesOf(Do(NEW, x)));
    assert WritesDuration([x, y][0]);
    assert Drops([x, y], WritesDuration);
  }

  /** On it a stored period of 5 ms survives the chained patch, where the same two
      setters as patches of their own leave 1 ms. */
  lemma ChainForgetsPeriod(doc: Value)
    requires Decode(doc).Some? && WireOf(Look(doc)) == Some(Wire("time_based", Some(5), None))
    ensures !Faithful(ForgetfulChain())
    ensures var a := Decode(doc).value.allocation;
            && Decode(Merge(doc, ToJson(Chain(ForgetfulChain())))) == Some(Policy(a, TimeBased(FromMillis(5), None)))
            && Decode(MergeEach(doc, ForgetfulChain())) == Some(Policy(a, TimeBased(FromMillis(1), None)))
  {
    hide Merge, ToJson, Chain, MergeEach, Look;
    BothWays(doc, ForgetfulChain());
    ForgottenPeriod();
  }

  /** There is such a stored budget. */
  lemma ForgetfulExample()
    ensures var doc := Stored(1, Wire("time_based", Some(5), None));
            Decode(Merge(doc, ToJson(Chain(ForgetfulChain())))) != Decode(MergeEach(doc, ForgetfulChain()))
  {
    StoredReads(1, Wire("time_based", Some(5), None));
    ChainForgetsPeriod(Stored(1, Wire("time_based", Some(5), None)));
  }

  /** Chains that never name an unknown strategy `time_based` are faithful. */
  lemma {:induction false} KnownChainsFaithful(xs: seq<Setter>)
    requires forall i :: 0 <= i < |xs| ==> xs[i] != Replace(Unknown("time_based"))
    ensures Faithful(xs)
  {
    if xs != [] {
      KnownChainsFaithful(xs[..|xs| - 1]);
    }
  }

  // --- Single setters ---

  /** `strategy(s)` leaves exactly `s`, whatever was stored, exactly when `s` can be
      said on the wire and, if it is an unknown strategy named `time_based`, nothing
      stored supplies a duration. */
  lemma StrategyReplaces(doc: Value, s: Strategy)
    requires Decode(doc).Some?
    ensures var after := Decode(Merge(doc, ToJson(Chain([Replace(s)]))));
            && after.Some? && after.value.allocation == Decode(doc).value.allocation
            && (after.value.strategy == s <==>
                Writable(s) && !(s == Unknown("time_based") && ReadOptional(Look(doc).duration, U64_LIMIT).value.Some?))
  {
    assert [Replace(s)][..0] == [];
    assert Chain([Replace(s)]) == Do(NEW, Replace(s));
    DecodeMerged(doc, Do(NEW, Replace(s)));
    if s.TimeBased? {
      MillisExact(s.duration);
    }
  }

  /** Durations `strategy(..)` does not state: 1.5 ms is cut to 1 ms, and 2^64 ms wraps
      to nothing, whatever was stored. */
  lemma DurationsCut(doc: Value)
    requires Decode(doc).Some?
    ensures var a := Decode(doc).value.allocation;
            && Decode(Merge(doc, ToJson(Chain([Replace(TimeBased(1_500_000, None))])))) == Some(Policy(a, TimeBased(1_000_000, None)))
            && Decode(Merge(doc, ToJson(Chain([Replace(TimeBased(18_446_744_073_709_551_616_000_000, None))]))))
               == Some(Policy(a, TimeBased(0, None)))
  {
    hide Merge, ToJson, Chain, Decode;
    PeriodReplaced(doc, 1_500_000);
    PeriodReplaced(doc, 18_446_744_073_709_551_616_000_000);
    assert AsMillis(1_500_000) == 1 && AsMillis(18_446_744_073_709_551_616_000_000) == 0;
  }

  lemma PeriodReplaced(doc: Value, d: Duration)
    requires Decode(doc).Some?
    ensures Decode(Merge(doc, ToJson(Chain([Replace(TimeBased(d, None))])))) ==
            Some(Policy(Decode(doc).value.allocation, TimeBased(FromMillis(AsMillis(d)), None)))
  {
    var x := Replace(TimeBased(d, None));
    assert [x][..0] == [];
    assert Chain([x]) == Do(NEW, x);
    DecodeMerged(doc, Do(NEW, x));
  }

  /** The strategy one field setter leaves. A stored `time_based` without a duration
      reads as unknown; giving it one brings it and any stored burst to life. */
  function Adjusted(s: Strategy, x: Setter, storedBurst: Option<u32>): Strategy {
    match (s, x)
    case (TimeBased(_, burst), Period(duration)) => TimeBased(FromMillis(AsMillis(duration)), burst)
    case (TimeBased(duration, _), Cap(burst)) => TimeBased(duration, Some(burst))
    case (TimeBased(duration, _), Uncap) => TimeBased(duration, None)
    case (Unknown(name), Period(duration)) =>
      if name == "time_based" then TimeBased(FromMillis(AsMillis(duration)), storedBurst) else s
    case _ => s
  }

  /** Every other setter changes its own field of the policy and leaves the rest alone. */
  lemma FieldSettersAdjust(doc: Value, x: Setter)
    requires Decode(doc).Some? && !x.Replace?
    ensures var before := Decode(doc).value;
            var burst := ReadOptional(Look(doc).burst, U32_LIMIT).value;
            Decode(Merge(doc, ToJson(Chain([x])))) ==
              Some(if x.Allocate? then before.(allocation := x.tokens)
                   else before.(strategy := Adjusted(before.strategy, x, burst)))
  {
    assert [x][..0] == [];
    assert Chain([x]) == Do(NEW, x);
    DecodeMerged(doc, Do(NEW, x));
  }
}
