/** Job patches (zizq/src/job_patch.rs): one three-state field per mutable member. */
module JobPatches {
  import opened Json
  import opened MergePatch

  /** The exponent is a 32-bit float, kept as its number token. */
  datatype BackoffConfig = BackoffConfig(baseMs: u32, exponent: NumberToken, jitterMs: u32)

  datatype Retention = Retention(completedMs: Field<u64>, deadMs: Field<u64>)

  datatype Patch = Patch(
    queue: Field<string>,
    priority: Field<u16>,
    readyAt: Field<u64>,
    retryLimit: Field<u32>,
    backoff: Field<BackoffConfig>,
    retention: Field<Retention>)

  const NO_RETENTION: Retention := Retention(Keep, Keep)
  const NEW: Patch := Patch(Keep, Keep, Keep, Keep, Keep, Keep)

  // --- Serialisation ---

  function BackoffJson(c: BackoffConfig): Value {
    Object(map["base_ms" := Numeral(c.baseMs), "exponent" := Number(c.exponent), "jitter_ms" := Numeral(c.jitterMs)])
  }

  function RetentionJson(r: Retention): Value {
    Object(Member("completed_ms", Numeric(r.completedMs)) + Member("dead_ms", Numeric(r.deadMs)))
  }

  function BackoffField(f: Field<BackoffConfig>): Field<Value> {
    match f
    case Keep => Keep
    case Clear => Clear
    case Set(c) => Set(BackoffJson(c))
  }

  function RetentionField(f: Field<Retention>): Field<Value> {
    match f
    case Keep => Keep
    case Clear => Clear
    case Set(r) => Set(RetentionJson(r))
  }

  function ToJson(p: Patch): (v: Value)
    ensures v.Object?
  {
    Object(Member("queue", Text(p.queue)) + Member("priority", Numeric(p.priority))
           + Member("ready_at", Numeric(p.readyAt)) + Member("retry_limit", Numeric(p.retryLimit))
           + Member("backoff", BackoffField(p.backoff)) + Member("retention", RetentionField(p.retention)))
  }

  // --- The request, member by member ---

  predicate WritesBackoff(m: map<string, Value>, f: Field<BackoffConfig>) {
    match f
    case Keep => "backoff" !in m
    case Clear => "backoff" in m && m["backoff"] == Null
    case Set(c) =>
      && "backoff" in m && m["backoff"].Object?
      && var fields := m["backoff"].fields;
      && fields.Keys == {"base_ms", "exponent", "jitter_ms"}
      && IsNumeral(fields["base_ms"], c.baseMs) && IsNumeral(fields["jitter_ms"], c.jitterMs)
      && fields["exponent"] == Number(c.exponent)
  }

  predicate WritesRetention(m: map<string, Value>, f: Field<Retention>) {
    match f
    case Keep => "retention" !in m
    case Clear => "retention" in m && m["retention"] == Null
    case Set(r) =>
      && "retention" in m && m["retention"].Object?
      && var fields := m["retention"].fields;
      && fields.Keys <= {"completed_ms", "dead_ms"}
      && WritesNumber(fields, "completed_ms", r.completedMs) && WritesNumber(fields, "dead_ms", r.deadMs)
  }

  // --- Setters ---

  /** One call of a setter, by the state it leaves its field in. */
  datatype Setter =
    | Queue(queue: Field<string>)
    | Priority(priority: Field<u16>)
    | ReadyAt(readyAt: Field<u64>)
    | RetryLimit(retryLimit: Field<u32>)
    | Backoff(backoff: Field<BackoffConfig>)
    | Retain(retention: Field<Retention>)
  {
    /** The member of the request this setter is about. */
    function Name(): string {
      match this
      case Queue(_) => "queue"
      case Priority(_) => "priority"
      case ReadyAt(_) => "ready_at"
      case RetryLimit(_) => "retry_limit"
      case Backoff(_) => "backoff"
      case Retain(_) => "retention"
    }

    function Asks(): Field<Value> {
      match this
      case Queue(f) => Text(f)
      case Priority(f) => Numeric(f)
      case ReadyAt(f) => Numeric(f)
      case RetryLimit(f) => Numeric(f)
      case Backoff(f) => BackoffField(f)
      case Retain(f) => RetentionField(f)
    }
  }

  function Do(p: Patch, x: Setter): Patch {
    match x
    case Queue(f) => p.(queue := f)
    case Priority(f) => p.(priority := f)
    case ReadyAt(f) => p.(readyAt := f)
    case RetryLimit(f) => p.(retryLimit := f)
    case Backoff(f) => p.(backoff := f)
    case Retain(f) => p.(retention := f)
  }

  class JobPatch {
    var queue: Field<string>
    var priority: Field<u16>
    var readyAt: Field<u64>
    var retryLimit: Field<u32>
    var backoff: Field<BackoffConfig>
    var retention: Field<Retention>

    /** The server forbids a null queue or priority. */
    ghost predicate Valid()
      reads this
    {
      !queue.Clear? && !priority.Clear?
    }

    ghost function State(): Patch
      reads this
    {
      Patch(queue, priority, readyAt, retryLimit, backoff, retention)
    }

    constructor ()
      ensures Valid() && State() == NEW
    {
      queue, priority, readyAt, retryLimit, backoff, retention := Keep, Keep, Keep, Keep, Keep, Keep;
    }

    // Each method stands for the setters of one field: the argument is the state that
    // `field(v)`, `clear_field()` or `keep_field()` puts the field in.

    /** `queue`, `move_to_queue` and `keep_queue`. */
    method SetQueue(q: Field<string>)
      requires Valid() && !q.Clear?
      modifies this
      ensures Valid() && State() == Do(old(State()), Queue(q)) == old(State()).(queue := q)
    {
      queue := q;
    }

    /** `priority` and `keep_priority`. */
    method SetPriority(p: Field<u16>)
      requires Valid() && !p.Clear?
      modifies this
      ensures Valid() && State() == Do(old(State()), Priority(p)) == old(State()).(priority := p)
    {
      priority := p;
    }

    /** `ready_at`, `clear_ready_at`, `ready_now` and `keep_ready_at`. */
    method SetReadyAt(ms: Field<u64>)
      requires Valid()
      modifies this
      ensures Valid() && State() == Do(old(State()), ReadyAt(ms)) == old(State()).(readyAt := ms)
    {
      readyAt := ms;
    }

    /** `retry_limit`, `clear_retry_limit` and `keep_retry_limit`. */
    method SetRetryLimit(n: Field<u32>)
      requires Valid()
      modifies this
      ensures Valid() && State() == Do(old(State()), RetryLimit(n)) == old(State()).(retryLimit := n)
    {
      retryLimit := n;
    }

    /** `backoff`, `clear_backoff` and `keep_backoff`. */
    method SetBackoff(c: Field<BackoffConfig>)
      requires Valid()
      modifies this
      ensures Valid() && State() == Do(old(State()), Backoff(c)) == old(State()).(backoff := c)
    {
      backoff := c;
    }

    /** `retention`, `clear_retention` and `keep_retention`. */
    method SetRetention(r: Field<Retention>)
      requires Valid()
      modifies this
      ensures Valid() && State() == Do(old(State()), Retain(r)) == old(State()).(retention := r)
    {
      retention := r;
    }
  }

  class RetentionPatch {
    var completedMs: Field<u64>
    var deadMs: Field<u64>

    ghost function State(): Retention
      reads this
    {
      Retention(completedMs, deadMs)
    }

    constructor ()
      ensures State() == NO_RETENTION
    {
      completedMs, deadMs := Keep, Keep;
    }

    /** `completed_ms`, `clear_completed_ms` and `keep_completed_ms`. */
    method SetCompletedMs(ms: Field<u64>)
      modifies this
      ensures State() == old(State()).(completedMs := ms)
    {
      completedMs := ms;
    }

    /** `dead_ms`, `clear_dead_ms` and `keep_dead_ms`. */
    method SetDeadMs(ms: Field<u64>)
      modifies this
      ensures State() == old(State()).(deadMs := ms)
    {
      deadMs := ms;
    }
  }

  // --- What a chain of setters means ---

  function Chain(xs: seq<Setter>): Patch {
    if xs == [] then NEW else Do(Chain(xs[..|xs| - 1]), xs[|xs| - 1])
  }

  /** What the last setter of a member asks for; nothing, if it has none. */
  function LastAsked(xs: seq<Setter>, name: string): Field<Value> {
    if xs == [] then Keep
    else if xs[|xs| - 1].Name() == name then xs[|xs| - 1].Asks()
    else LastAsked(xs[..|xs| - 1], name)
  }

  function MemberOf(p: Patch, name: string): Field<Value> {
    if name == "queue" then Text(p.queue)
    else if name == "priority" then Numeric(p.priority)
    else if name == "ready_at" then Numeric(p.readyAt)
    else if name == "retry_limit" then Numeric(p.retryLimit)
    else if name == "backoff" then BackoffField(p.backoff)
    else if name == "retention" then RetentionField(p.retention)
    else Keep
  }

  lemma Members(p: Patch, name: string)
    ensures Received(ToJson(p), name) == MemberOf(p, name)
  {
    var m1 := Member("queue", Text(p.queue));
    var m2 := m1 + Member("priority", Numeric(p.priority));
    var m3 := m2 + Member("ready_at", Numeric(p.readyAt));
    var m4 := m3 + Member("retry_limit", Numeric(p.retryLimit));
    var m5 := m4 + Member("backoff", BackoffField(p.backoff));
    assert map[] + m1 == m1;
    ReceivedWith(map[], "queue", Text(p.queue), name);
    ReceivedWith(m1, "priority", Numeric(p.priority), name);
    ReceivedWith(m2, "ready_at", Numeric(p.readyAt), name);
    ReceivedWith(m3, "retry_limit", Numeric(p.retryLimit), name);
    ReceivedWith(m4, "backoff", BackoffField(p.backoff), name);
    ReceivedWith(m5, "retention", RetentionField(p.retention), name);
  }

  lemma OneSetter(p: Patch, x: Setter, name: string)
    ensures MemberOf(Do(p, x), name) == if x.Name() == name then x.Asks() else MemberOf(p, name)
  {
  }

  lemma {:induction false} ChainMembers(xs: seq<Setter>, name: string)
    ensures MemberOf(Chain(xs), name) == LastAsked(xs, name)
  {
    if xs != [] {
      ChainMembers(xs[..|xs| - 1], name);
      OneSetter(Chain(xs[..|xs| - 1]), xs[|xs| - 1], name);
    }
  }

  /** Each member of the request is as its last setter left it: a kept member is
      absent, a cleared one is null, a set one has the value. Every member of a stored
      job changes by that alone, and members without a setter do not change. */
  lemma ChainMeaning(doc: Value, xs: seq<Setter>, name: string)
    ensures Received(ToJson(Chain(xs)), name) == LastAsked(xs, name)
    ensures Read(Merge(doc, ToJson(Chain(xs))), name) == Applied(Read(doc, name), LastAsked(xs, name))
  {
    Members(Chain(xs), name);
    ChainMembers(xs, name);
    MergeActsPerMember(doc, ToJson(Chain(xs)), name);
  }

  /** The retention member is itself merged member by member. */
  lemma RetentionMerges(doc: Value, r: Retention)
    ensures var before := OrNull(Read(doc, "retention"));
            var after := Read(Merge(doc, ToJson(NEW.(retention := Set(r)))), "retention");
            && after.Some?
            && Read(after.value, "completed_ms") == Applied(Read(before, "completed_ms"), Numeric(r.completedMs))
            && Read(after.value, "dead_ms") == Applied(Read(before, "dead_ms"), Numeric(r.deadMs))
  {
    var p := NEW.(retention := Set(r));
    Members(p, "retention");
    MergeActsPerMember(doc, ToJson(p), "retention");
    MergeActsPerMember(OrNull(Read(doc, "retention")), RetentionJson(r), "completed_ms");
    MergeActsPerMember(OrNull(Read(doc, "retention")), RetentionJson(r), "dead_ms");
  }

  // --- The request in full ---

  lemma BackoffWrites(m: map<string, Value>, f: Field<BackoffConfig>)
    requires Received(Object(m), "backoff") == BackoffField(f)
    ensures WritesBackoff(m, f)
  {
  }

  lemma RetentionWrites(m: map<string, Value>, f: Field<Retention>)
    requires Received(Object(m), "retention") == RetentionField(f)
    ensures WritesRetention(m, f)
  {
  }

  lemma NumberWrites(m: map<string, Value>, name: string, f: Field<nat>)
    requires Received(Object(m), name) == Numeric(f)
    ensures WritesNumber(m, name, f)
  {
  }

  lemma ScalarsWrite(p: Patch)
    ensures var m := ToJson(p).fields;
            && WritesText(m, "queue", p.queue) && WritesNumber(m, "priority", p.priority)
            && WritesNumber(m, "ready_at", p.readyAt) && WritesNumber(m, "retry_limit", p.retryLimit)
  {
    hide ToJson, Numeric;
    var m := ToJson(p).fields;
    assert ToJson(p) == Object(m);
    Members(p, "queue");
    Members(p, "priority");
    Members(p, "ready_at");
    Members(p, "retry_limit");
    hide MemberOf;
    NumberWrites(m, "priority", p.priority);
    NumberWrites(m, "ready_at", p.readyAt);
    NumberWrites(m, "retry_limit", p.retryLimit);
  }

  lemma NoOtherMember(p: Patch, name: string)
    requires name !in {"queue", "priority", "ready_at", "retry_limit", "backoff", "retention"}
    ensures name !in ToJson(p).fields
  {
    hide ToJson;
    Members(p, name);
  }

  /** A kept field is absent from the request, a cleared one is `null`, and a set one is
      the text or number it was set to, under the name the server knows it by. */
  lemma RequestWrites(p: Patch)
    ensures var m := ToJson(p).fields;
            && m.Keys <= {"queue", "priority", "ready_at", "retry_limit", "backoff", "retention"}
            && WritesText(m, "queue", p.queue) && WritesNumber(m, "priority", p.priority)
            && WritesNumber(m, "ready_at", p.readyAt) && WritesNumber(m, "retry_limit", p.retryLimit)
            && WritesBackoff(m, p.backoff) && WritesRetention(m, p.retention)
  {
    hide ToJson, WritesText, WritesNumber, WritesBackoff, WritesRetention;
    var m := ToJson(p).fields;
    assert ToJson(p) == Object(m);
    ScalarsWrite(p);
    Members(p, "backoff");
    BackoffWrites(m, p.backoff);
    Members(p, "retention");
    RetentionWrites(m, p.retention);
    forall name | name in m ensures name in {"queue", "priority", "ready_at", "retry_limit", "backoff", "retention"} {
      if name !in {"queue", "priority", "ready_at", "retry_limit", "backoff", "retention"} {
        NoOtherMember(p, name);
      }
    }
  }

  // --- The three states are told apart ---

  lemma NumericInjective(f: Field<nat>, g: Field<nat>)
    requires Numeric(f) == Numeric(g)
    ensures f == g
  {
  }

  lemma RetentionInjective(r: Retention, q: Retention)
    requires RetentionJson(r) == RetentionJson(q)
    ensures r == q
  {
    assert Received(RetentionJson(r), "completed_ms") == Numeric(r.completedMs);
    assert Received(RetentionJson(q), "completed_ms") == Numeric(q.completedMs);
    assert Received(RetentionJson(r), "dead_ms") == Numeric(r.deadMs);
    assert Received(RetentionJson(q), "dead_ms") == Numeric(q.deadMs);
    NumericInjective(r.completedMs, q.completedMs);
    NumericInjective(r.deadMs, q.deadMs);
  }

  lemma BackoffInjective(c: BackoffConfig, d: BackoffConfig)
    requires BackoffJson(c) == BackoffJson(d)
    ensures c == d
  {
    assert BackoffJson(c).fields["base_ms"] == Numeral(c.baseMs);
    assert BackoffJson(c).fields["exponent"] == Number(c.exponent);
    assert BackoffJson(c).fields["jitter_ms"] == Numeral(c.jitterMs);
    assert BackoffJson(d).fields["base_ms"] == Numeral(d.baseMs);
    assert BackoffJson(d).fields["exponent"] == Number(d.exponent);
    assert BackoffJson(d).fields["jitter_ms"] == Numeral(d.jitterMs);
  }

  lemma SameMember(p: Patch, q: Patch, name: string)
    requires ToJson(p) == ToJson(q)
    ensures MemberOf(p, name) == MemberOf(q, name)
  {
    Members(p, name);
    Members(q, name);
  }

  /** Different patches are different requests. */
  lemma PatchesTellApart(p: Patch, q: Patch)
    ensures ToJson(p) == ToJson(q) <==> p == q
  {
    if ToJson(p) == ToJson(q) {
      SameMember(p, q, "queue");
      SameMember(p, q, "priority");
      SameMember(p, q, "ready_at");
      SameMember(p, q, "retry_limit");
      SameMember(p, q, "backoff");
      SameMember(p, q, "retention");
      NumericInjective(p.priority, q.priority);
      NumericInjective(p.readyAt, q.readyAt);
      NumericInjective(p.retryLimit, q.retryLimit);
      if p.backoff.Set? {
        BackoffInjective(p.backoff.value, q.backoff.value);
      }
      if p.retention.Set? {
        RetentionInjective(p.retention.value, q.retention.value);
      }
    }
  }

  // --- Two retention patches in one chain ---

  /** `second` says something of every member `first` says something of. */
  predicate Covers(second: Retention, first: Retention) {
    && (second.completedMs.Keep? ==> first.completedMs.Keep?)
    && (second.deadMs.Keep? ==> first.deadMs.Keep?)
  }

  function RetentionRequest(r: Retention): Value {
    ToJson(NEW.(retention := Set(r)))
  }

  lemma RetentionSays(r: Retention, name: string)
    ensures Received(RetentionJson(r), name) ==
            if name == "completed_ms" then Numeric(r.completedMs)
            else if name == "dead_ms" then Numeric(r.deadMs) else Keep
  {
    var m := Member("completed_ms", Numeric(r.completedMs));
    assert map[] + m == m;
    ReceivedWith(map[], "completed_ms", Numeric(r.completedMs), name);
    ReceivedWith(m, "dead_ms", Numeric(r.deadMs), name);
  }

  lemma CoveredInside(v: Value, first: Retention, second: Retention)
    requires Covers(second, first)
    ensures Merge(Merge(v, RetentionJson(first)), RetentionJson(second)) == Merge(v, RetentionJson(second))
  {
    var f, s := RetentionJson(first), RetentionJson(second);
    forall name ensures Read(Merge(Merge(v, f), s), name) == Read(Merge(v, s), name) {
      RetentionSays(first, name);
      RetentionSays(second, name);
      MergeActsPerMember(Merge(v, f), s, name);
      MergeActsPerMember(v, f, name);
      MergeActsPerMember(v, s, name);
      AppliedTwice(Read(v, name), Received(f, name), Received(s, name));
    }
    ObjectsEqual(Merge(Merge(v, f), s), Merge(v, s));
  }

  lemma RequestSays(r: Retention, name: string)
    ensures Received(RetentionRequest(r), name) == if name == "retention" then Set(RetentionJson(r)) else Keep
  {
    Members(NEW.(retention := Set(r)), name);
  }

  lemma CoveredRequests(doc: Value, first: Retention, second: Retention)
    requires Covers(second, first)
    ensures Merge(Merge(doc, RetentionRequest(first)), RetentionRequest(second)) == Merge(doc, RetentionRequest(second))
  {
    var f, s := RetentionRequest(first), RetentionRequest(second);
    CoveredInside(OrNull(Read(doc, "retention")), first, second);
    forall name ensures Read(Merge(Merge(doc, f), s), name) == Read(Merge(doc, s), name) {
      RequestSays(first, name);
      RequestSays(second, name);
      MergeActsPerMember(Merge(doc, f), s, name);
      MergeActsPerMember(doc, f, name);
      MergeActsPerMember(doc, s, name);
    }
    ObjectsEqual(Merge(Merge(doc, f), s), Merge(doc, s));
  }

  /** A stored retention that differs from what `r` writes. */
  function Differing(r: Retention): Value {
    var c, d := if r.completedMs == Set(0) then 1 else 0, if r.deadMs == Set(0) then 1 else 0;
    Object(map["retention" := Object(map["completed_ms" := Numeral(c), "dead_ms" := Numeral(d)])])
  }

  lemma UncoveredDiffers(first: Retention, second: Retention)
    requires !Covers(second, first)
    ensures var doc := Differing(first);
            Merge(Merge(doc, RetentionRequest(first)), RetentionRequest(second)) != Merge(doc, RetentionRequest(second))
  {
    var doc := Differing(first);
    RetentionMerges(doc, first);
    RetentionMerges(Merge(doc, RetentionRequest(first)), second);
    RetentionMerges(doc, second);
  }

  /** `.retention(first).retention(second)` sends `second` alone. That is what sending
      the two one after the other does to every stored job exactly when `second` says
      something of every member `first` does. */
  lemma RetentionReplaced(first: Retention, second: Retention)
    ensures ToJson(Chain([Retain(Set(first)), Retain(Set(second))])) == RetentionRequest(second)
    ensures Covers(second, first) <==>
      forall doc :: Merge(Merge(doc, RetentionRequest(first)), RetentionRequest(second)) == Merge(doc, RetentionRequest(second))
  {
    var xs := [Retain(Set(first)), Retain(Set(second))];
    assert xs[..1] == [Retain(Set(first))] && xs[..1][..0] == [];
    assert Chain(xs[..1]) == Do(NEW, Retain(Set(first)));
    assert Chain(xs) == NEW.(retention := Set(second));
    if Covers(second, first) {
      forall doc
        ensures Merge(Merge(doc, RetentionRequest(first)), RetentionRequest(second)) == Merge(doc, RetentionRequest(second))
      {
        CoveredRequests(doc, first, second);
      }
    } else {
      UncoveredDiffers(first, second);
    }
  }
}
