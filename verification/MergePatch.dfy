/** JSON Merge Patch (section 2 of RFC 7396) and the three-state fields a patch is
    built from (zizq/src/job_patch.rs). */
module MergePatch {
  import opened Json
  import opened Wrappers
  import Decimal

  const U32_LIMIT: nat := 0x1_0000_0000
  const U64_LIMIT: nat := 0x1_0000_0000_0000_0000

  type u16 = n: nat | n < 0x1_0000
  type u32 = n: nat | n < U32_LIMIT
  type u64 = n: nat | n < U64_LIMIT

  /** Absent from the request, present as `null`, or present with a value. */
  datatype Field<+T> = Keep | Clear | Set(value: T)

  function Read(doc: Value, name: string): Option<Value> {
    if doc.Object? && name in doc.fields then Some(doc.fields[name]) else None
  }

  function OrNull(o: Option<Value>): Value {
    if o.Some? then o.value else Null
  }

  /** The merge procedure: a non-object replaces the target; a null member removes. */
  function Merge(target: Value, patch: Value): Value
    decreases patch
  {
    if !patch.Object? then patch
    else
      var base := if target.Object? then target.fields else map[];
      Object(map k | k in base.Keys + patch.fields.Keys && !(k in patch.fields && patch.fields[k] == Null) ::
               if k in patch.fields then Merge(OrNull(Read(target, k)), patch.fields[k]) else base[k])
  }

  /** One struct member as `serde` writes it: a kept field is skipped. */
  function Member(name: string, f: Field<Value>): map<string, Value> {
    match f
    case Keep => map[]
    case Clear => map[name := Null]
    case Set(v) => map[name := v]
  }

  /** What a member of a received patch tells the receiver. */
  function Received(patch: Value, name: string): Field<Value> {
    match Read(patch, name)
    case None => Keep
    case Some(v) => if v == Null then Clear else Set(v)
  }

  /** What a field asks for, given what is stored. */
  function Applied(stored: Option<Value>, f: Field<Value>): Option<Value> {
    match f
    case Keep => stored
    case Clear => None
    case Set(v) => Some(Merge(OrNull(stored), v))
  }

  /** Merging an object acts on each member by itself, as that member's state says. */
  lemma MergeActsPerMember(doc: Value, patch: Value, name: string)
    requires patch.Object?
    ensures Merge(doc, patch).Object?
    ensures Read(Merge(doc, patch), name) == Applied(Read(doc, name), Received(patch, name))
  {
    var merged := Merge(doc, patch).fields;
    assert name in merged <==>
      ((doc.Object? && name in doc.fields) || name in patch.fields) && !(name in patch.fields && patch.fields[name] == Null);
  }

  /** Section 2 of RFC 7396 for one member: an absent one changes nothing, `null`
      removes, a value that is no object replaces, and an object is merged into the
      stored member, or into nothing when there is none. */
  lemma MemberMerges(doc: Value, patch: Value, name: string)
    requires patch.Object?
    ensures Merge(doc, patch).Object?
    ensures var merged := Merge(doc, patch).fields;
            var isStored := doc.Object? && name in doc.fields;
            if name !in patch.fields then (name in merged <==> isStored) && (isStored ==> merged[name] == doc.fields[name])
            else if patch.fields[name] == Null then name !in merged
            else if !patch.fields[name].Object? then name in merged && merged[name] == patch.fields[name]
            else name in merged && merged[name] == Merge(if isStored then doc.fields[name] else Null, patch.fields[name])
  {
    MergeActsPerMember(doc, patch, name);
  }

  /** An unset patch changes no member. */
  lemma EmptyPatchKeeps(doc: Value)
    requires doc.Object?
    ensures Merge(doc, Object(map[])) == doc
  {
    assert Merge(doc, Object(map[])).fields == doc.fields;
  }

  function Later<T>(a: Field<T>, b: Field<T>): Field<T> {
    if b.Keep? then a else b
  }

  /** Of two writes of a scalar member one after the other, the later counts. */
  lemma AppliedTwice(o: Option<Value>, a: Field<Value>, b: Field<Value>)
    requires (a.Set? ==> !a.value.Object?) && (b.Set? ==> !b.value.Object?)
    ensures Applied(Applied(o, a), b) == Applied(o, Later(a, b))
  {
  }

  /** Adding a member to a request adds what it says and changes no other member. */
  lemma ReceivedWith(m: map<string, Value>, name: string, f: Field<Value>, other: string)
    requires f.Set? ==> f.value != Null
    ensures Received(Object(m + Member(name, f)), other) ==
            if other == name && !f.Keep? then f else Received(Object(m), other)
  {
  }

  lemma ObjectsEqual(a: Value, b: Value)
    requires a.Object? && b.Object? && forall name :: Read(a, name) == Read(b, name)
    ensures a == b
  {
    assert forall name :: name in a.fields <==> Read(a, name).Some?;
    assert forall name :: name in b.fields <==> Read(b, name).Some?;
    assert forall name | name in a.fields :: Read(a, name).value == a.fields[name];
    assert forall name | name in b.fields :: Read(b, name).value == b.fields[name];
    assert a.fields == b.fields;
  }

  function Numeral(n: nat): (v: Value)
    ensures v.Number? && Decimal.AllDigits(v.token) && Decimal.Value(v.token) == n
  {
    Decimal.ValueOfPrint(n);
    var t := Decimal.Print(n);
    assert forall i :: 0 <= i < |t| ==> IsNumberChar(t[i]);
    Number(t)
  }

  function Numeric(f: Field<nat>): Field<Value> {
    match f
    case Keep => Keep
    case Clear => Clear
    case Set(n) => Set(Numeral(n))
  }

  function Text(f: Field<string>): Field<Value> {
    match f
    case Keep => Keep
    case Clear => Clear
    case Set(s) => Set(Str(s))
  }

  // --- What a field writes, by the member itself ---

  predicate IsNumeral(v: Value, n: nat) {
    v.Number? && Decimal.AllDigits(v.token) && Decimal.Value(v.token) == n
  }

  predicate WritesNumber(m: map<string, Value>, name: string, f: Field<nat>) {
    match f
    case Keep => name !in m
    case Clear => name in m && m[name] == Null
    case Set(n) => name in m && IsNumeral(m[name], n)
  }

  predicate WritesText(m: map<string, Value>, name: string, f: Field<string>) {
    match f
    case Keep => name !in m
    case Clear => name in m && m[name] == Null
    case Set(s) => name in m && m[name] == Str(s)
  }
}
