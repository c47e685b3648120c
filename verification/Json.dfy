/** Typed messages as JSON values: the recursive builders over a message's introspection
    metadata, a decoder directed by the same metadata, and the keys added around a message.
    JSON text is not modelled: a value stands for its dump.
 */
module Json {
  import opened Options
  import opened Sequences

  /** Field types by introspection id. `Unsupported` is any id the builders map to null. */
  datatype Kind =
    | Boolean | Char | Octet | UInt8 | Int8 | UInt16 | Int16 | UInt32 | Int32 | UInt64 | Int64
    | Float32 | Float64 | Text | Unsupported
    | Nested(members: seq<Member>)

  /** The introspection metadata give a fixed array and a bounded sequence the same
      `array_size_`: its length, and its bound. */
  datatype Shape = Single | Fixed(size: nat) | Bounded(max: nat) | Unbounded

  datatype Member = Member(name: string, kind: Kind, shape: Shape)

  /** A floating-point value, known by its bits and by whether it is finite. */
  datatype Float = Float(bits: nat, finite: bool)

  datatype Value =
    | BoolValue(b: bool) | IntValue(i: int) | FloatValue(f: Float) | TextValue(s: string)
    | OtherValue(id: int) | MessageValue(fields: seq<Field>)

  datatype Field = One(value: Value) | Many(values: seq<Value>)

  datatype JsonValue =
    | Null | Bool(b: bool) | Int(i: int) | Number(bits: nat) | String(s: string)
    | Array(items: seq<JsonValue>) | Object(entries: map<string, JsonValue>)

  // ---------------------------------------------------------------- which messages a type has

  predicate InRange(k: Kind, i: int) {
    match k
    case Char | Int8 => -0x80 <= i < 0x80
    case Octet | UInt8 => 0 <= i < 0x100
    case UInt16 => 0 <= i < 0x1_0000
    case Int16 => -0x8000 <= i < 0x8000
    case UInt32 => 0 <= i < 0x1_0000_0000
    case Int32 => -0x8000_0000 <= i < 0x8000_0000
    case UInt64 => 0 <= i < 0x1_0000_0000_0000_0000
    case Int64 => -0x8000_0000_0000_0000 <= i < 0x8000_0000_0000_0000
    case _ => false
  }

  predicate Typed(k: Kind, v: Value)
    decreases k, 0
  {
    match k
    case Boolean => v.BoolValue?
    case Float32 | Float64 => v.FloatValue?
    case Text => v.TextValue?
    case Unsupported => v.OtherValue?
    case Nested(members) => v.MessageValue? && FieldsTyped(members, v.fields)
    case _ => v.IntValue? && InRange(k, v.i)
  }

  predicate FieldsTyped(members: seq<Member>, fields: seq<Field>)
    decreases members, 0
  {
    && |members| == |fields|
    && (members != [] ==>
          var n := |members| - 1;
          FieldsTyped(members[..n], fields[..n]) && FieldTyped(members[n], fields[n]))
  }

  predicate FieldTyped(m: Member, f: Field)
    decreases m, 1
  {
    match m.shape
    case Single => f.One? && Typed(m.kind, f.value)
    case Fixed(size) => f.Many? && |f.values| == size && forall v :: v in f.values ==> Typed(m.kind, v)
    case Bounded(max) => f.Many? && |f.values| <= max && forall v :: v in f.values ==> Typed(m.kind, v)
    case Unbounded => f.Many? && forall v :: v in f.values ==> Typed(m.kind, v)
  }

  /** Names of the members at one level are distinct; nested types likewise. */
  predicate GoodKind(k: Kind)
    decreases k
  {
    k.Nested? ==> GoodMembers(k.members)
  }

  predicate GoodMembers(members: seq<Member>)
    decreases members
  {
    members != [] ==>
      var n := |members| - 1;
      GoodMembers(members[..n]) && GoodKind(members[n].kind) && !Declares(members[..n], members[n].name)
  }

  predicate Declares(members: seq<Member>, name: string) {
    exists i :: 0 <= i < |members| && members[i].name == name
  }

  // ---------------------------------------------------------------- the builders

  /** Where an element stands: member and element positions from the outside in. */
  type Path = seq<nat>

  /** What reads that go astray find: past the end of the sequence at a path, any JSON value or,
      for a null pointer, nothing; in place of the elements of a boolean sequence, any bit. */
  datatype Memory = Memory(past: (Path, nat) -> Option<JsonValue>, bits: (Path, nat) -> bool)

  /** A boolean sequence packs its elements and offers no pointer to one; the builder then takes
      the bytes of the sequence object itself for its elements. */
  predicate Unaddressed(m: Member) {
    m.kind.Boolean? && (m.shape.Bounded? || m.shape.Unbounded?)
  }

  /** How many elements the builder reads: `array_size_` when it is not zero, so a bounded
      sequence is read up to its bound whatever its length. */
  function ReadSize(shape: Shape, n: nat): nat {
    match shape
    case Fixed(size) => if size != 0 then size else n
    case Bounded(max) => if max != 0 then max else n
    case _ => n
  }

  function BuildScalar(mem: Memory, at: Path, k: Kind, v: Value): JsonValue
    requires Typed(k, v)
    decreases k, 0
  {
    match k
    case Boolean => Bool(v.b)
    case Float32 | Float64 => if v.f.finite then Number(v.f.bits) else Null
    case Text => String(v.s)
    case Unsupported => Null
    case Nested(members) => Object(BuildEntries(mem, at, members, v.fields))
    case _ => Int(v.i)
  }

  /** What reading element `i` of an array appends. */
  function Element(mem: Memory, at: Path, m: Member, vs: seq<Value>, i: nat): seq<JsonValue>
    requires forall v :: v in vs ==> Typed(m.kind, v)
    decreases m, 0
  {
    if Unaddressed(m) then [Bool(mem.bits(at, i))]
    else if i < |vs| then [BuildScalar(mem, at + [i], m.kind, vs[i])]
    else
      match mem.past(at, i)
      case None => []
      case Some(j) => [j]
  }

  function Items(mem: Memory, at: Path, m: Member, vs: seq<Value>, n: nat): seq<JsonValue>
    requires forall v :: v in vs ==> Typed(m.kind, v)
    decreases m, 1, n
  {
    if n == 0 then [] else Items(mem, at, m, vs, n - 1) + Element(mem, at, m, vs, n - 1)
  }

  function BuildMember(mem: Memory, at: Path, m: Member, f: Field): JsonValue
    requires FieldTyped(m, f)
    decreases m, 2
  {
    if m.shape.Single? then BuildScalar(mem, at, m.kind, f.value)
    else Array(Items(mem, at, m, f.values, ReadSize(m.shape, |f.values|)))
  }

  function BuildEntries(mem: Memory, at: Path, members: seq<Member>, fields: seq<Field>): map<string, JsonValue>
    requires FieldsTyped(members, fields)
    decreases members, 0
  {
    if members == [] then map[]
    else
      var n := |members| - 1;
      BuildEntries(mem, at, members[..n], fields[..n])[
        members[n].name := BuildMember(mem, at + [n], members[n], fields[n])]
  }

  // ---------------------------------------------------------------- reads that go astray

  /** How many elements are read from anywhere but where they stand. */
  function Strays(k: Kind, v: Value): nat
    requires Typed(k, v)
    decreases k, 0
  {
    if k.Nested? then FieldsStray(k.members, v.fields) else 0
  }

  function ElementStrays(m: Member, vs: seq<Value>, i: nat): nat
    requires forall v :: v in vs ==> Typed(m.kind, v)
    decreases m, 0
  {
    if Unaddressed(m) || i >= |vs| then 1 else Strays(m.kind, vs[i])
  }

  function ItemsStray(m: Member, vs: seq<Value>, n: nat): nat
    requires forall v :: v in vs ==> Typed(m.kind, v)
    decreases m, 1, n
  {
    if n == 0 then 0 else ItemsStray(m, vs, n - 1) + ElementStrays(m, vs, n - 1)
  }

  function FieldStrays(m: Member, f: Field): nat
    requires FieldTyped(m, f)
    decreases m, 2
  {
    if m.shape.Single? then Strays(m.kind, f.value)
    else ItemsStray(m, f.values, ReadSize(m.shape, |f.values|))
  }

  function FieldsStray(members: seq<Member>, fields: seq<Field>): nat
    requires FieldsTyped(members, fields)
    decreases members, 0
  {
    if members == [] then 0
    else
      var n := |members| - 1;
      FieldsStray(members[..n], fields[..n]) + FieldStrays(members[n], fields[n])
  }

  /** Every bounded sequence is full, and no boolean sequence has elements. */
  predicate WellRead(k: Kind, v: Value)
    requires Typed(k, v)
    decreases k, 0
  {
    k.Nested? ==> FieldsWellRead(k.members, v.fields)
  }

  predicate AllWellRead(m: Member, vs: seq<Value>)
    requires forall v :: v in vs ==> Typed(m.kind, v)
    decreases m, 1
  {
    forall i :: 0 <= i < |vs| ==> WellRead(m.kind, vs[i])
  }

  predicate FieldWellRead(m: Member, f: Field)
    requires FieldTyped(m, f)
    decreases m, 2
  {
    match m.shape
    case Single => WellRead(m.kind, f.value)
    case Fixed(_) => AllWellRead(m, f.values)
    case Bounded(max) => |f.values| == max && (m.kind.Boolean? ==> max == 0) && AllWellRead(m, f.values)
    case Unbounded => (m.kind.Boolean? ==> f.values == []) && AllWellRead(m, f.values)
  }

  predicate FieldsWellRead(members: seq<Member>, fields: seq<Field>)
    requires FieldsTyped(members, fields)
    decreases members, 0
  {
    members == [] ||
    (var n := |members| - 1;
     FieldsWellRead(members[..n], fields[..n]) && FieldWellRead(members[n], fields[n]))
  }

  /** A read goes astray exactly when some bounded sequence is not full or some boolean sequence
      has elements. */
  lemma {:induction false} StraysIff(k: Kind, v: Value)
    requires Typed(k, v)
    ensures Strays(k, v) == 0 <==> WellRead(k, v)
    decreases k, 0
  {
    if k.Nested? { FieldsStrayIff(k.members, v.fields); }
  }

  lemma {:induction false} FieldsStrayIff(members: seq<Member>, fields: seq<Field>)
    requires FieldsTyped(members, fields)
    ensures FieldsStray(members, fields) == 0 <==> FieldsWellRead(members, fields)
    decreases members, 0
  {
    hide FieldStrays, FieldWellRead;
    if members != [] {
      var n := |members| - 1;
      FieldsStrayIff(members[..n], fields[..n]);
      FieldStraysIff(members[n], fields[n]);
    }
  }

  lemma {:induction false} FieldStraysIff(m: Member, f: Field)
    requires FieldTyped(m, f)
    ensures FieldStrays(m, f) == 0 <==> FieldWellRead(m, f)
    decreases m, 2
  {
    hide Strays, WellRead, Typed;
    if m.shape.Single? {
      StraysIff(m.kind, f.value);
    } else {
      ItemsStrayIff(m, f.values, ReadSize(m.shape, |f.values|));
    }
  }

  lemma {:induction false} ItemsStrayIff(m: Member, vs: seq<Value>, n: nat)
    requires forall v :: v in vs ==> Typed(m.kind, v)
    ensures ItemsStray(m, vs, n) == 0 <==>
            (Unaddressed(m) ==> n == 0) && n <= |vs| && forall i :: 0 <= i < n ==> WellRead(m.kind, vs[i])
    decreases m, 1, n
  {
    hide Strays, WellRead, Typed;
    if n > 0 {
      ItemsStrayIff(m, vs, n - 1);
      if n <= |vs| { StraysIff(m.kind, vs[n - 1]); }
    }
  }

  // ---------------------------------------------------------------- the builders as they run

  /** The loops of the program; `strays` counts the elements read from elsewhere. */
  method BuildJsonMessage(mem: Memory, at: Path, members: seq<Member>, fields: seq<Field>)
    returns (output: JsonValue, ghost strays: nat)
    requires FieldsTyped(members, fields)
    ensures output == Object(BuildEntries(mem, at, members, fields)) && strays == FieldsStray(members, fields)
    decreases members, 0
  {
    var entries: map<string, JsonValue> := map[];
    strays := 0;
    var i := 0;
    while i < |members|
      invariant 0 <= i <= |members|
      invariant FieldsTyped(members[..i], fields[..i])
      invariant entries == BuildEntries(mem, at, members[..i], fields[..i])
      invariant strays == FieldsStray(members[..i], fields[..i])
    {
      FieldsTypedAt(members, fields, i);
      assert members[..i + 1][..i] == members[..i] && fields[..i + 1][..i] == fields[..i];
      var value;
      ghost var more;
      value, more := BuildJsonValue(mem, at + [i], members[i], fields[i]);
      entries := entries[members[i].name := value];
      strays := strays + more;
      i := i + 1;
    }
    assert members[..i] == members && fields[..i] == fields;
    output := Object(entries);
  }

  method BuildJsonValue(mem: Memory, at: Path, m: Member, f: Field) returns (r: JsonValue, ghost strays: nat)
    requires FieldTyped(m, f)
    ensures r == BuildMember(mem, at, m, f) && strays == FieldStrays(m, f)
    decreases m, 2
  {
    if !m.shape.Single? {
      r, strays := BuildJsonArray(mem, at, m, f.values);
    } else {
      r, strays := BuildJsonScalar(mem, at, m.kind, f.value);
    }
  }

  method BuildJsonArray(mem: Memory, at: Path, m: Member, vs: seq<Value>)
    returns (output: JsonValue, ghost strays: nat)
    requires !m.shape.Single? && FieldTyped(m, Many(vs))
    ensures output == Array(Items(mem, at, m, vs, ReadSize(m.shape, |vs|)))
    ensures strays == ItemsStray(m, vs, ReadSize(m.shape, |vs|))
    decreases m, 1
  {
    var arraySize := match m.shape case Fixed(size) => size case Bounded(max) => max case _ => 0;
    var size := if arraySize != 0 then arraySize else |vs|;
    var items, i := [], 0;
    strays := 0;
    while i < size
      invariant 0 <= i <= size && items == Items(mem, at, m, vs, i) && strays == ItemsStray(m, vs, i)
    {
      if Unaddressed(m) {
        items := items + [Bool(mem.bits(at, i))];
        strays := strays + 1;
      } else if i < |vs| {
        var item;
        ghost var more;
        item, more := BuildJsonScalar(mem, at + [i], m.kind, vs[i]);
        items := items + [item];
        strays := strays + more;
      } else {
        var past := mem.past(at, i);
        assert items + [] == items;
        if past.Some? { items := items + [past.value]; }
        strays := strays + 1;
      }
      i := i + 1;
    }
    output := Array(items);
  }

  method BuildJsonScalar(mem: Memory, at: Path, k: Kind, v: Value) returns (r: JsonValue, ghost strays: nat)
    requires Typed(k, v)
    ensures r == BuildScalar(mem, at, k, v) && strays == Strays(k, v)
    decreases k, 0
  {
    strays := 0;
    match k {
      case Boolean => r := Bool(v.b);
      case Float32 | Float64 => r := if v.f.finite then Number(v.f.bits) else Null;
      case Text => r := String(v.s);
      case Unsupported => r := Null;
      case Nested(members) => r, strays := BuildJsonMessage(mem, at, members, v.fields);
      case _ => r := Int(v.i);
    }
  }

  lemma {:induction false} FieldsTypedAt(members: seq<Member>, fields: seq<Field>, i: nat)
    requires FieldsTyped(members, fields) && i < |members|
    ensures FieldsTyped(members[..i], fields[..i]) && FieldsTyped(members[..i + 1], fields[..i + 1])
    ensures FieldTyped(members[i], fields[i])
    decreases members
  {
    var n := |members| - 1;
    if i == n {
      assert members[..i + 1] == members && fields[..i + 1] == fields;
    } else {
      FieldsTypedAt(members[..n], fields[..n], i);
      assert members[..n][..i] == members[..i] && fields[..n][..i] == fields[..i];
      assert members[..n][..i + 1] == members[..i + 1] && fields[..n][..i + 1] == fields[..i + 1];
    }
  }

  // ---------------------------------------------------------------- the decoder

  function DecodeScalar(k: Kind, j: JsonValue): Option<Value>
    decreases k, 0
  {
    match k
    case Boolean => if j.Bool? then Some(BoolValue(j.b)) else None
    case Float32 | Float64 => if j.Number? then Some(FloatValue(Float(j.bits, true))) else None
    case Text => if j.String? then Some(TextValue(j.s)) else None
    case Unsupported => None
    case Nested(members) =>
      if !j.Object? then None
      else
        var r := DecodeEntries(members, j.entries);
        if r.Some? then Some(MessageValue(r.value)) else None
    case _ => if j.Int? && InRange(k, j.i) then Some(IntValue(j.i)) else None
  }

  function DecodeItems(k: Kind, items: seq<JsonValue>): Option<seq<Value>>
    decreases k, 1, |items|
  {
    if items == [] then Some([])
    else
      var n := |items| - 1;
      var front, last := DecodeItems(k, items[..n]), DecodeScalar(k, items[n]);
      if front.Some? && last.Some? then Some(front.value + [last.value]) else None
  }

  function DecodeMember(m: Member, j: JsonValue): Option<Field>
    decreases m, 2
  {
    if m.shape.Single? then
      var r := DecodeScalar(m.kind, j);
      if r.Some? then Some(One(r.value)) else None
    else if !j.Array? || (m.shape.Fixed? && |j.items| != m.shape.size) then None
    else if m.shape.Bounded? && |j.items| > m.shape.max then None
    else
      var r := DecodeItems(m.kind, j.items);
      if r.Some? then Some(Many(r.value)) else None
  }

  function DecodeEntries(members: seq<Member>, entries: map<string, JsonValue>): Option<seq<Field>>
    decreases members, 0
  {
    if members == [] then Some([])
    else
      var n := |members| - 1;
      var front := DecodeEntries(members[..n], entries);
      if front.None? || members[n].name !in entries then None
      else
        var last := DecodeMember(members[n], entries[members[n].name]);
        if last.None? then None else Some(front.value + [last.value])
  }

  /** What the program gives up on becomes null. */
  lemma NullScalars(mem: Memory, at: Path, f: Float, id: int)
    ensures !f.finite ==> BuildScalar(mem, at, Float32, FloatValue(f)) == Null
                          && BuildScalar(mem, at, Float64, FloatValue(f)) == Null
    ensures BuildScalar(mem, at, Unsupported, OtherValue(id)) == Null
  {
  }

  // ---------------------------------------------------------------- lossless exactly when

  /** Every float is finite, and no field has a type the builders give up on. */
  predicate Kept(k: Kind, v: Value)
    requires Typed(k, v)
    decreases k, 0
  {
    match k
    case Float32 | Float64 => v.f.finite
    case Unsupported => false
    case Nested(members) => FieldsKept(members, v.fields)
    case _ => true
  }

  predicate AllKept(k: Kind, vs: seq<Value>)
    requires forall v :: v in vs ==> Typed(k, v)
    decreases k, 1
  {
    forall i :: 0 <= i < |vs| ==> Kept(k, vs[i])
  }

  predicate FieldKept(m: Member, f: Field)
    requires FieldTyped(m, f)
    decreases m, 2
  {
    if m.shape.Single? then Kept(m.kind, f.value) else AllKept(m.kind, f.values)
  }

  predicate FieldsKept(members: seq<Member>, fields: seq<Field>)
    requires FieldsTyped(members, fields)
    decreases members, 0
  {
    members == [] ||
    (var n := |members| - 1;
     FieldsKept(members[..n], fields[..n]) && FieldKept(members[n], fields[n]))
  }

  /** A message whose elements are all read where they stand comes back from its JSON exactly
      when its floats are finite and its types supported; otherwise decoding fails rather than
      giving another message. */
  lemma {:induction false} WellReadLossless(mem: Memory, at: Path, k: Kind, v: Value)
    requires Typed(k, v) && GoodKind(k) && WellRead(k, v)
    ensures DecodeScalar(k, BuildScalar(mem, at, k, v)) == if Kept(k, v) then Some(v) else None
    decreases k, 0
  {
    match k
    case Nested(members) =>
      FieldsLossless(mem, at, members, v.fields);
    case _ =>
      assert !k.Nested?;
  }

  lemma {:induction false} FieldsLossless(mem: Memory, at: Path, members: seq<Member>, fields: seq<Field>)
    requires FieldsTyped(members, fields) && GoodMembers(members) && FieldsWellRead(members, fields)
    ensures DecodeEntries(members, BuildEntries(mem, at, members, fields)) ==
            if FieldsKept(members, fields) then Some(fields) else None
    decreases members, 0
  {
    hide FieldTyped, FieldWellRead, FieldKept, BuildMember, DecodeMember, Declares, GoodKind;
    if members != [] {
      var n := |members| - 1;
      var front := BuildEntries(mem, at, members[..n], fields[..n]);
      FieldsLossless(mem, at, members[..n], fields[..n]);
      FieldLossless(mem, at + [n], members[n], fields[n]);
      OtherKeyIgnored(members[..n], front, members[n].name, BuildMember(mem, at + [n], members[n], fields[n]));
      assert fields[..n] + [fields[n]] == fields;
    }
  }

  lemma {:induction false} FieldLossless(mem: Memory, at: Path, m: Member, f: Field)
    requires FieldTyped(m, f) && GoodKind(m.kind) && FieldWellRead(m, f)
    ensures DecodeMember(m, BuildMember(mem, at, m, f)) == if FieldKept(m, f) then Some(f) else None
    decreases m, 2
  {
    hide Items, DecodeItems, BuildScalar, DecodeScalar, Kept, Typed, GoodKind, WellRead;
    if m.shape.Single? {
      WellReadLossless(mem, at, m.kind, f.value);
    } else {
      ItemsLossless(mem, at, m, f.values, |f.values|);
      assert f.values[..|f.values|] == f.values;
    }
  }

  lemma {:induction false} ItemsLossless(mem: Memory, at: Path, m: Member, vs: seq<Value>, n: nat)
    requires (forall v :: v in vs ==> Typed(m.kind, v)) && GoodKind(m.kind) && n <= |vs|
    requires (Unaddressed(m) ==> n == 0) && forall i :: 0 <= i < n ==> WellRead(m.kind, vs[i])
    ensures |Items(mem, at, m, vs, n)| == n
    ensures DecodeItems(m.kind, Items(mem, at, m, vs, n)) ==
            if AllKept(m.kind, vs[..n]) then Some(vs[..n]) else None
    decreases m, 1, n
  {
    hide DecodeItems, DecodeScalar, BuildScalar, Kept, Typed, WellRead, AllKept, GoodKind;
    if n == 0 {
      NothingKept(m.kind);
      NothingDecoded(m.kind);
    } else {
      ItemsLossless(mem, at, m, vs, n - 1);
      WellReadLossless(mem, at + [n - 1], m.kind, vs[n - 1]);
      var front, item := Items(mem, at, m, vs, n - 1), BuildScalar(mem, at + [n - 1], m.kind, vs[n - 1]);
      DecodeSnoc(m.kind, front, item);
      assert vs[..n] == vs[..n - 1] + [vs[n - 1]];
      AllKeptSnoc(m.kind, vs[..n - 1], vs[n - 1]);
    }
  }

  lemma NothingKept(k: Kind)
    ensures AllKept(k, [])
  {
  }

  lemma AllKeptSnoc(k: Kind, vs: seq<Value>, v: Value)
    requires (forall w :: w in vs ==> Typed(k, w)) && Typed(k, v)
    ensures forall w :: w in vs + [v] ==> Typed(k, w)
    ensures AllKept(k, vs + [v]) <==> AllKept(k, vs) && Kept(k, v)
  {
    hide Kept, Typed;
    var all := vs + [v];
    assert all[|vs|] == v && forall i :: 0 <= i < |vs| ==> all[i] == vs[i];
  }

  lemma {:induction false} OtherKeyIgnored(
    members: seq<Member>, entries: map<string, JsonValue>, key: string, j: JsonValue)
    requires !Declares(members, key)
    ensures DecodeEntries(members, entries[key := j]) == DecodeEntries(members, entries)
    decreases members
  {
    if members != [] {
      var n := |members| - 1;
      assert members[n].name != key;
      assert forall i :: 0 <= i < n ==> members[..n][i] == members[i];
      OtherKeyIgnored(members[..n], entries, key, j);
    }
  }

  // ---------------------------------------------------------------- every memory

  /** In this memory every read past an end finds a null pointer, and the stray bits of a boolean
      sequence are as many as its elements and the same. */
  predicate Harmless(mem: Memory, at: Path, k: Kind, v: Value)
    requires Typed(k, v)
    decreases k, 0
  {
    k.Nested? ==> FieldsHarmless(mem, at, k.members, v.fields)
  }

  predicate AllHarmless(mem: Memory, at: Path, k: Kind, vs: seq<Value>)
    requires forall v :: v in vs ==> Typed(k, v)
    decreases k, 1
  {
    forall i :: 0 <= i < |vs| ==> Harmless(mem, at + [i], k, vs[i])
  }

  predicate FieldHarmless(mem: Memory, at: Path, m: Member, f: Field)
    requires FieldTyped(m, f)
    decreases m, 2
  {
    if m.shape.Single? then Harmless(mem, at, m.kind, f.value)
    else
      var n := ReadSize(m.shape, |f.values|);
      if Unaddressed(m) then n == |f.values| && forall i :: 0 <= i < n ==> f.values[i] == BoolValue(mem.bits(at, i))
      else AllHarmless(mem, at, m.kind, f.values) && forall i :: |f.values| <= i < n ==> mem.past(at, i) == None
  }

  predicate FieldsHarmless(mem: Memory, at: Path, members: seq<Member>, fields: seq<Field>)
    requires FieldsTyped(members, fields)
    decreases members, 0
  {
    members == [] ||
    (var n := |members| - 1;
     FieldsHarmless(mem, at, members[..n], fields[..n]) && FieldHarmless(mem, at + [n], members[n], fields[n]))
  }

  /** In a given memory a message comes back from its JSON exactly when its floats are finite, its
      types supported, and what its stray reads find is harmless. */
  lemma {:induction false} LosslessInMemory(mem: Memory, at: Path, k: Kind, v: Value)
    requires Typed(k, v) && GoodKind(k)
    ensures DecodeScalar(k, BuildScalar(mem, at, k, v)) == Some(v) <==> Kept(k, v) && Harmless(mem, at, k, v)
    decreases k, 0
  {
    match k
    case Nested(members) =>
      FieldsLosslessInMemory(mem, at, members, v.fields);
    case _ =>
      assert !k.Nested?;
  }

  lemma {:induction false} FieldsLosslessInMemory(mem: Memory, at: Path, members: seq<Member>, fields: seq<Field>)
    requires FieldsTyped(members, fields) && GoodMembers(members)
    ensures DecodeEntries(members, BuildEntries(mem, at, members, fields)) == Some(fields) <==>
            FieldsKept(members, fields) && FieldsHarmless(mem, at, members, fields)
    decreases members, 0
  {
    hide FieldTyped, FieldHarmless, FieldKept, BuildMember, DecodeMember, Declares, GoodKind;
    if members != [] {
      var n := |members| - 1;
      var front := BuildEntries(mem, at, members[..n], fields[..n]);
      FieldsLosslessInMemory(mem, at, members[..n], fields[..n]);
      FieldLosslessInMemory(mem, at + [n], members[n], fields[n]);
      OtherKeyIgnored(members[..n], front, members[n].name, BuildMember(mem, at + [n], members[n], fields[n]));
      assert fields[..n] + [fields[n]] == fields;
    }
  }

  lemma {:induction false} FieldLosslessInMemory(mem: Memory, at: Path, m: Member, f: Field)
    requires FieldTyped(m, f) && GoodKind(m.kind)
    ensures DecodeMember(m, BuildMember(mem, at, m, f)) == Some(f) <==> FieldKept(m, f) && FieldHarmless(mem, at, m, f)
    decreases m, 3
  {
    hide Items, DecodeItems, BuildScalar, DecodeScalar, Kept, Typed, GoodKind, Harmless, AllHarmless, AllKept;
    if m.shape.Single? {
      LosslessInMemory(mem, at, m.kind, f.value);
    } else {
      var n := ReadSize(m.shape, |f.values|);
      DecodedLength(m.kind, Items(mem, at, m, f.values, n));
      if Unaddressed(m) {
        BitsLossless(mem, at, m, f.values, n);
      } else {
        ItemsLosslessInMemory(mem, at, m, f.values, n);
      }
    }
  }

  lemma BitsLossless(mem: Memory, at: Path, m: Member, vs: seq<Value>, n: nat)
    requires Unaddressed(m) && forall v :: v in vs ==> Typed(m.kind, v)
    ensures DecodeItems(m.kind, Items(mem, at, m, vs, n)) == Some(vs) <==>
            n == |vs| && forall i :: 0 <= i < n ==> vs[i] == BoolValue(mem.bits(at, i))
    ensures AllKept(m.kind, vs)
  {
    hide Items, DecodeItems;
    BitsDecode(mem, at, m, vs, n);
    var decoded := DecodeItems(m.kind, Items(mem, at, m, vs, n)).value;
    if n == |vs| && forall i :: 0 <= i < n ==> vs[i] == BoolValue(mem.bits(at, i)) { assert decoded == vs; }
  }

  lemma {:induction false} ItemsLosslessInMemory(mem: Memory, at: Path, m: Member, vs: seq<Value>, n: nat)
    requires (forall v :: v in vs ==> Typed(m.kind, v)) && GoodKind(m.kind) && !Unaddressed(m) && n >= |vs|
    ensures DecodeItems(m.kind, Items(mem, at, m, vs, n)) == Some(vs) <==>
            AllKept(m.kind, vs) && AllHarmless(mem, at, m.kind, vs)
            && forall i :: |vs| <= i < n ==> mem.past(at, i) == None
    decreases m, 2
  {
    hide Items, DecodeItems, Kept, Typed, GoodKind, Harmless;
    FrontLosslessInMemory(mem, at, m, vs, |vs|);
    assert vs[..|vs|] == vs;
    ItemsPast(mem, at, m, vs, n);
    DecodedLength(m.kind, Items(mem, at, m, vs, n));
  }

  lemma {:induction false} FrontLosslessInMemory(mem: Memory, at: Path, m: Member, vs: seq<Value>, n: nat)
    requires (forall v :: v in vs ==> Typed(m.kind, v)) && GoodKind(m.kind) && !Unaddressed(m) && n <= |vs|
    ensures |Items(mem, at, m, vs, n)| == n
    ensures DecodeItems(m.kind, Items(mem, at, m, vs, n)) == Some(vs[..n]) <==>
            forall i :: 0 <= i < n ==> Kept(m.kind, vs[i]) && Harmless(mem, at + [i], m.kind, vs[i])
    decreases m, 1, n
  {
    hide DecodeItems, DecodeScalar, BuildScalar, Kept, Typed, Harmless, GoodKind;
    if n == 0 {
      NothingDecoded(m.kind);
    } else {
      FrontLosslessInMemory(mem, at, m, vs, n - 1);
      LosslessInMemory(mem, at + [n - 1], m.kind, vs[n - 1]);
      var front, item := Items(mem, at, m, vs, n - 1), BuildScalar(mem, at + [n - 1], m.kind, vs[n - 1]);
      DecodeSnoc(m.kind, front, item);
      var decoded, last := DecodeItems(m.kind, front), DecodeScalar(m.kind, item);
      if decoded.Some? && last.Some? { SnocEqual(decoded.value, last.value, vs[..n - 1], vs[n - 1]); }
      assert vs[..n] == vs[..n - 1] + [vs[n - 1]];
    }
  }

  lemma SnocEqual(x: seq<Value>, a: Value, y: seq<Value>, b: Value)
    ensures x + [a] == y + [b] <==> x == y && a == b
  {
    if x + [a] == y + [b] {
      assert (x + [a])[..|x|] == x && (y + [b])[..|y|] == y;
      assert (x + [a])[|x|] == a && (y + [b])[|y|] == b;
    }
  }

  /** What is read past the end only adds. */
  lemma {:induction false} ItemsPast(mem: Memory, at: Path, m: Member, vs: seq<Value>, n: nat)
    requires (forall v :: v in vs ==> Typed(m.kind, v)) && !Unaddressed(m) && n >= |vs|
    ensures var front, all := Items(mem, at, m, vs, |vs|), Items(mem, at, m, vs, n);
            && |all| >= |front| && (|all| == |front| ==> all == front)
            && (|all| == |front| <==> forall i :: |vs| <= i < n ==> mem.past(at, i) == None)
    decreases n
  {
    hide BuildScalar, Typed;
    if n > |vs| {
      ItemsPast(mem, at, m, vs, n - 1);
      assert Items(mem, at, m, vs, n - 1) + [] == Items(mem, at, m, vs, n - 1);
    }
  }

  lemma NothingDecoded(k: Kind)
    ensures DecodeItems(k, []) == Some([])
  {
  }

  lemma {:induction false} DecodedLength(k: Kind, items: seq<JsonValue>)
    ensures DecodeItems(k, items).Some? ==> |DecodeItems(k, items).value| == |items|
    decreases |items|
  {
    hide DecodeScalar;
    if items != [] { DecodedLength(k, items[..|items| - 1]); }
  }

  /** A boolean sequence is read as the stray bits, whatever its elements. */
  lemma {:induction false} BitsDecode(mem: Memory, at: Path, m: Member, vs: seq<Value>, n: nat)
    requires Unaddressed(m) && forall v :: v in vs ==> Typed(m.kind, v)
    ensures var r := DecodeItems(m.kind, Items(mem, at, m, vs, n));
            r.Some? && |r.value| == n && forall i :: 0 <= i < n ==> r.value[i] == BoolValue(mem.bits(at, i))
    decreases n
  {
    hide DecodeItems, BuildScalar, Typed;
    if n == 0 {
      NothingDecoded(m.kind);
    } else {
      BitsDecode(mem, at, m, vs, n - 1);
      DecodeSnoc(m.kind, Items(mem, at, m, vs, n - 1), Bool(mem.bits(at, n - 1)));
    }
  }

  /** A memory in which a stray read finds null values and one and the same bit. */
  ghost function Garbage(b: bool): Memory {
    Memory((p, i) => Some(Null), (p, i) => b)
  }

  /** A message of which some element is read from elsewhere does not come back in one of these
      memories. */
  lemma Misread(at: Path, k: Kind, v: Value) returns (b: bool)
    requires Typed(k, v) && GoodKind(k) && !WellRead(k, v)
    ensures DecodeScalar(k, BuildScalar(Garbage(b), at, k, v)) != Some(v)
  {
    b := Harmed(at, k, v);
    LosslessInMemory(Garbage(b), at, k, v);
  }

  lemma {:induction false} Harmed(at: Path, k: Kind, v: Value) returns (b: bool)
    requires Typed(k, v) && !WellRead(k, v)
    ensures !Harmless(Garbage(b), at, k, v)
    decreases k, 0
  {
    b := FieldsHarmed(at, k.members, v.fields);
  }

  lemma {:induction false} FieldsHarmed(at: Path, members: seq<Member>, fields: seq<Field>) returns (b: bool)
    requires FieldsTyped(members, fields) && !FieldsWellRead(members, fields)
    ensures !FieldsHarmless(Garbage(b), at, members, fields)
    decreases members, 0
  {
    hide FieldTyped, FieldWellRead, FieldHarmless, Garbage;
    var n := |members| - 1;
    if !FieldWellRead(members[n], fields[n]) {
      b := FieldHarmed(at + [n], members[n], fields[n]);
    } else {
      b := FieldsHarmed(at, members[..n], fields[..n]);
    }
  }

  lemma {:induction false} FieldHarmed(at: Path, m: Member, f: Field) returns (b: bool)
    requires FieldTyped(m, f) && !FieldWellRead(m, f)
    ensures !FieldHarmless(Garbage(b), at, m, f)
    decreases m, 1
  {
    hide WellRead, Harmless;
    if m.shape.Single? {
      b := Harmed(at, m.kind, f.value);
    } else {
      var vs, n := f.values, ReadSize(m.shape, |f.values|);
      if Unaddressed(m) && n > 0 {
        assert vs != [] ==> vs[0] in vs;
        b := vs != [] && !vs[0].b;
        assert Garbage(b).bits(at, 0) == b;
      } else if n > |vs| {
        b := false;
        assert Garbage(b).past(at, |vs|) == Some(Null);
      } else {
        var i :| 0 <= i < |vs| && !WellRead(m.kind, vs[i]);
        b := Harmed(at + [i], m.kind, vs[i]);
      }
    }
  }

  lemma DecodeSnoc(k: Kind, items: seq<JsonValue>, item: JsonValue)
    ensures var front, last := DecodeItems(k, items), DecodeScalar(k, item);
            DecodeItems(k, items + [item]) ==
            if front.Some? && last.Some? then Some(front.value + [last.value]) else None
  {
    hide DecodeScalar;
    assert (items + [item])[..|items|] == items;
  }

  /** Arrays keep the order of their elements: item `i` is built from element `i`. */
  lemma {:induction false} ItemsInOrder(mem: Memory, at: Path, m: Member, vs: seq<Value>, n: nat, i: nat)
    requires (forall v :: v in vs ==> Typed(m.kind, v)) && (Unaddressed(m) ==> n == 0) && i < n <= |vs|
    ensures |Items(mem, at, m, vs, n)| == n
    ensures Items(mem, at, m, vs, n)[i] == BuildScalar(mem, at + [i], m.kind, vs[i])
    decreases n
  {
    hide BuildScalar, Typed;
    if n > 1 { ItemsInOrder(mem, at, m, vs, n - 1, if i < n - 1 then i else 0); }
  }

  /** A message comes back from its JSON whatever stray reads find exactly when its floats are
      finite, its types supported, its bounded sequences full and its boolean sequences empty. */
  lemma LosslessIff(at: Path, k: Kind, v: Value)
    requires Typed(k, v) && GoodKind(k)
    ensures (forall mem: Memory :: DecodeScalar(k, BuildScalar(mem, at, k, v)) == Some(v)) <==>
            Kept(k, v) && WellRead(k, v)
  {
    hide DecodeScalar, BuildScalar, Kept, WellRead, Typed, GoodKind, Garbage;
    if !WellRead(k, v) {
      var b := Misread(at, k, v);
      assert DecodeScalar(k, BuildScalar(Garbage(b), at, k, v)) != Some(v);
    } else if Kept(k, v) {
      forall mem: Memory ensures DecodeScalar(k, BuildScalar(mem, at, k, v)) == Some(v) {
        WellReadLossless(mem, at, k, v);
      }
    } else {
      WellReadLossless(Garbage(true), at, k, v);
      assert DecodeScalar(k, BuildScalar(Garbage(true), at, k, v)) != Some(v);
    }
  }

  // ---------------------------------------------------------------- sequences that are not full

  /** Whatever stands past its end, a sequence that is read at all is read from the front: what
      is decoded starts with its elements, and is no longer than its bound. */
  lemma PrefixSurvives(mem: Memory, at: Path, m: Member, vs: seq<Value>)
    requires !m.shape.Single? && !Unaddressed(m) && FieldTyped(m, Many(vs)) && GoodKind(m.kind)
    requires AllWellRead(m, vs) && AllKept(m.kind, vs)
    ensures var r := DecodeMember(m, BuildMember(mem, at, m, Many(vs)));
            r.Some? ==> r.value.Many? && vs <= r.value.values && |r.value.values| <= ReadSize(m.shape, |vs|)
  {
    hide Items, DecodeItems, Typed, GoodKind, AllWellRead, AllKept;
    var n := ReadSize(m.shape, |vs|);
    ItemsPrefix(mem, at, m, vs, n);
  }

  lemma {:induction false} ItemsPrefix(mem: Memory, at: Path, m: Member, vs: seq<Value>, n: nat)
    requires (forall v :: v in vs ==> Typed(m.kind, v)) && GoodKind(m.kind) && !Unaddressed(m) && n >= |vs|
    requires AllWellRead(m, vs) && AllKept(m.kind, vs)
    ensures var r := DecodeItems(m.kind, Items(mem, at, m, vs, n));
            r.Some? ==> vs <= r.value && |r.value| <= n
    decreases n
  {
    hide DecodeItems, DecodeScalar, BuildScalar, Typed, GoodKind, AllKept, WellRead;
    if n == |vs| {
      ItemsLossless(mem, at, m, vs, n);
      assert vs[..n] == vs;
    } else {
      ItemsPrefix(mem, at, m, vs, n - 1);
      var front := Items(mem, at, m, vs, n - 1);
      assert front + [] == front;
      if mem.past(at, n - 1).Some? { DecodeSnoc(m.kind, front, mem.past(at, n - 1).value); }
    }
  }

  /** Where the reads past the end find null pointers, nothing is lost. */
  lemma NullPointersHarmless(mem: Memory, at: Path, m: Member, vs: seq<Value>)
    requires !m.shape.Single? && !Unaddressed(m) && FieldTyped(m, Many(vs)) && GoodKind(m.kind)
    requires AllWellRead(m, vs) && AllKept(m.kind, vs)
    requires forall i :: |vs| <= i < ReadSize(m.shape, |vs|) ==> mem.past(at, i) == None
    ensures DecodeMember(m, BuildMember(mem, at, m, Many(vs))) == Some(Many(vs))
  {
    hide DecodeMember, BuildMember, DecodeScalar, BuildScalar, Typed, GoodKind, Kept, WellRead, Harmless;
    forall i | 0 <= i < |vs| ensures Harmless(mem, at + [i], m.kind, vs[i]) {
      WellReadLossless(mem, at + [i], m.kind, vs[i]);
      LosslessInMemory(mem, at + [i], m.kind, vs[i]);
    }
    FieldLosslessInMemory(mem, at, m, Many(vs));
  }

  const XS := Member("xs", Int32, Bounded(2))
  const FLAGS := Member("flags", Boolean, Unbounded)

  /** Where they find something decodable, another message comes back and nothing tells: an
      `int32[<=2]` holding [1] reads as [1, 0]. */
  lemma BoundedMayForge(mem: Memory, at: Path)
    requires mem.past(at, 1) == Some(Int(0))
    ensures DecodeMember(XS, BuildMember(mem, at, XS, Many([IntValue(1)]))) == Some(Many([IntValue(1), IntValue(0)]))
  {
    hide DecodeItems;
    var vs := [IntValue(1)];
    assert Items(mem, at, XS, vs, 0) == [];
    assert Element(mem, at, XS, vs, 0) == [Int(1)] && Element(mem, at, XS, vs, 1) == [Int(0)];
    assert Items(mem, at, XS, vs, 1) == [Int(1)];
    assert Items(mem, at, XS, vs, 2) == [Int(1), Int(0)];
    DecodeTwo(Int32, Int(1), Int(0));
  }

  /** And a `bool[]` holding [true] as [false]. */
  lemma BooleanMayForge(mem: Memory, at: Path)
    requires !mem.bits(at, 0)
    ensures DecodeMember(FLAGS, BuildMember(mem, at, FLAGS, Many([BoolValue(true)]))) == Some(Many([BoolValue(false)]))
  {
    hide DecodeItems;
    var vs := [BoolValue(true)];
    assert Items(mem, at, FLAGS, vs, 0) == [];
    assert Items(mem, at, FLAGS, vs, 1) == [Bool(false)];
    DecodeOne(Boolean, Bool(false));
  }

  lemma DecodeOne(k: Kind, a: JsonValue)
    requires DecodeScalar(k, a).Some?
    ensures DecodeItems(k, [a]) == Some([DecodeScalar(k, a).value])
  {
    hide DecodeScalar;
    DecodeSnoc(k, [], a);
    assert [] + [a] == [a];
    assert [] + [DecodeScalar(k, a).value] == [DecodeScalar(k, a).value];
  }

  lemma DecodeTwo(k: Kind, a: JsonValue, b: JsonValue)
    requires DecodeScalar(k, a).Some? && DecodeScalar(k, b).Some?
    ensures DecodeItems(k, [a, b]) == Some([DecodeScalar(k, a).value, DecodeScalar(k, b).value])
  {
    hide DecodeScalar;
    DecodeOne(k, a);
    DecodeSnoc(k, [a], b);
    var x, y := DecodeScalar(k, a).value, DecodeScalar(k, b).value;
    assert [a, b] == [a] + [b] && [x, y] == [x] + [y];
  }

  // ---------------------------------------------------------------- keys added around a message

  const TS := "_ts"
  const ROS_TYPE := "__ros_type"
  const KAFKA_TIMESTAMP := "__kafka_timestamp_ms"

  /** ROS field names start with a letter. */
  predicate RosNames(members: seq<Member>) {
    forall i :: 0 <= i < |members| ==> members[i].name != [] && members[i].name[0] != '_'
  }

  lemma UnderscoreNotDeclared(members: seq<Member>, key: string)
    requires RosNames(members) && key != [] && key[0] == '_'
    ensures !Declares(members, key)
  {
  }

  /** What stands at `header.stamp.<name>`, when that path exists. */
  function StampField(entries: map<string, JsonValue>, name: string): Option<JsonValue> {
    if "header" in entries && entries["header"].Object? then
      var header := entries["header"].entries;
      if "stamp" in header && header["stamp"].Object? && name in header["stamp"].entries then
        Some(header["stamp"].entries[name])
      else None
    else None
  }

  /** A JSON number as a signed 64-bit integer: an unsigned one above the range wraps, and
      `trunc` is what converting a float gives. None is the exception any other value raises. */
  function AsInt64(trunc: nat -> int, j: JsonValue): Option<int> {
    match j
    case Int(i) => Some(if i >= 0x8000_0000_0000_0000 then i - 0x1_0000_0000_0000_0000 else i)
    case Number(bits) => Some(trunc(bits))
    case _ => None
  }

  const NANOS := 1_000_000_000

  /** The staged-latency envelope: the message's own stamp when it has one that is not zero,
      and the broker time. None is the exception of a stamp that is no number. */
  function ApplyTsEnvelope(trunc: nat -> int, entries: map<string, JsonValue>, t1: int)
    : Option<map<string, JsonValue>>
  {
    var sec, nanosec := StampField(entries, "sec"), StampField(entries, "nanosec");
    if sec.Some? && nanosec.Some? then
      var s, n := AsInt64(trunc, sec.value), AsInt64(trunc, nanosec.value);
      if s.None? || n.None? then None
      else
        var ts := if s.value != 0 || n.value != 0 then map["t0_ns" := Int(s.value * NANOS + n.value)] else map[];
        Some(entries[TS := Object(ts["t1_ns" := Int(t1)])])
    else Some(entries[TS := Object(map["t1_ns" := Int(t1)])])
  }

  /** The sink's envelope decodes as the message alone does, lossless or not; it fails exactly
      when a stamp is there and not made of numbers. */
  lemma EnvelopeKeepsMessage(trunc: nat -> int, members: seq<Member>, entries: map<string, JsonValue>, t1: int)
    requires RosNames(members)
    ensures var r := ApplyTsEnvelope(trunc, entries, t1);
            && (r.Some? ==> TS in r.value && DecodeEntries(members, r.value) == DecodeEntries(members, entries))
            && (r.None? <==> && StampField(entries, "sec").Some? && StampField(entries, "nanosec").Some?
                             && !(IsNumber(StampField(entries, "sec").value)
                                  && IsNumber(StampField(entries, "nanosec").value)))
  {
    hide DecodeEntries;
    var r := ApplyTsEnvelope(trunc, entries, t1);
    UnderscoreNotDeclared(members, TS);
    if r.Some? {
      OtherKeyIgnored(members, entries, TS, r.value[TS]);
      assert r.value == entries[TS := r.value[TS]];
    }
  }

  /** What the envelope holds: always the broker time, and the message's stamp in nanoseconds when
      it has one, made of integers within 64 bits, that is not zero. */
  lemma EnvelopeIs(trunc: nat -> int, entries: map<string, JsonValue>, t1: int)
    ensures StampField(entries, "sec").None? || StampField(entries, "nanosec").None? ==>
              ApplyTsEnvelope(trunc, entries, t1) == Some(entries["_ts" := Object(map["t1_ns" := Int(t1)])])
    ensures forall sec, nanosec ::
              (&& StampField(entries, "sec") == Some(Int(sec)) && StampField(entries, "nanosec") == Some(Int(nanosec))
               && InRange(Int64, sec) && InRange(Int64, nanosec)) ==>
                ApplyTsEnvelope(trunc, entries, t1) ==
                Some(entries["_ts" := Object(
                       if sec == 0 && nanosec == 0 then map["t1_ns" := Int(t1)]
                       else map["t0_ns" := Int(sec * 1_000_000_000 + nanosec), "t1_ns" := Int(t1)])])
  {
  }

  /** Where a stamp is looked for. */
  lemma StampFieldIs(entries: map<string, JsonValue>, header: map<string, JsonValue>, stamp: map<string, JsonValue>)
    requires "header" in entries && entries["header"] == Object(header)
    requires "stamp" in header && header["stamp"] == Object(stamp)
    ensures forall name :: StampField(entries, name) == if name in stamp then Some(stamp[name]) else None
  {
  }

  /** Numbers as the program converts them: unsigned values above the signed range wrap. */
  lemma Int64Is(trunc: nat -> int, i: int, bits: nat)
    ensures InRange(Int64, i) ==> AsInt64(trunc, Int(i)) == Some(i)
    ensures 0x8000_0000_0000_0000 <= i < 0x1_0000_0000_0000_0000 ==>
              AsInt64(trunc, Int(i)) == Some(i - 0x1_0000_0000_0000_0000)
    ensures AsInt64(trunc, Number(bits)) == Some(trunc(bits))
  {
  }

  predicate IsNumber(j: JsonValue) {
    j.Int? || j.Number?
  }

  /** What the converter adds around a message: type name and Kafka timestamp. */
  function Annotated(
    entries: map<string, JsonValue>, rosType: Option<string>, timestamp: Option<Option<int>>): map<string, JsonValue>
  {
    var typed := if rosType.Some? then entries[ROS_TYPE := String(rosType.value)] else entries;
    if timestamp.None? then typed
    else typed[KAFKA_TIMESTAMP := if timestamp.value.Some? then Int(timestamp.value.value) else Null]
  }

  /** What stands under the added keys: the type's name and the time, each when it is asked for,
      and null for a time the message does not have. Every other key stays as it is. */
  lemma AnnotationsAre(
    entries: map<string, JsonValue>, rosType: Option<string>, timestamp: Option<Option<int>>, key: string)
    ensures var r := Annotated(entries, rosType, timestamp);
            && (key != "__ros_type" && key != "__kafka_timestamp_ms" ==>
                  (key in r <==> key in entries) && (key in r ==> r[key] == entries[key]))
            && (rosType.Some? ==> "__ros_type" in r && r["__ros_type"] == String(rosType.value))
            && (timestamp == Some(None) ==> "__kafka_timestamp_ms" in r && r["__kafka_timestamp_ms"] == Null)
            && (timestamp.Some? && timestamp.value.Some? ==>
                  "__kafka_timestamp_ms" in r && r["__kafka_timestamp_ms"] == Int(timestamp.value.value))
    ensures rosType.None? && timestamp.None? ==> Annotated(entries, rosType, timestamp) == entries
  {
    assert "__ros_type"[2] != "__kafka_timestamp_ms"[2];
  }

  /** It decodes as the message alone does, lossless or not. */
  lemma AnnotationsKeepMessage(
    members: seq<Member>, entries: map<string, JsonValue>, rosType: Option<string>, timestamp: Option<Option<int>>)
    requires RosNames(members)
    ensures DecodeEntries(members, Annotated(entries, rosType, timestamp)) == DecodeEntries(members, entries)
  {
    hide DecodeEntries;
    UnderscoreNotDeclared(members, ROS_TYPE);
    UnderscoreNotDeclared(members, KAFKA_TIMESTAMP);
    var typed := if rosType.Some? then entries[ROS_TYPE := String(rosType.value)] else entries;
    if rosType.Some? {
      OtherKeyIgnored(members, entries, ROS_TYPE, String(rosType.value));
    }
    if timestamp.Some? {
      OtherKeyIgnored(members, typed, KAFKA_TIMESTAMP, Annotated(entries, rosType, timestamp)[KAFKA_TIMESTAMP]);
    }
  }

  // ---------------------------------------------------------------- stamped messages

  const STAMP := Nested([Member("sec", Int32, Single), Member("nanosec", UInt32, Single)])

  function StampOf(sec: int, nanosec: int): Value {
    MessageValue([One(IntValue(sec)), One(IntValue(nanosec))])
  }

  /** A message whose `header` carries a stamp gets exactly that stamp, in nanoseconds and
      within 64 bits, unless it is zero. */
  lemma StampReachesEnvelope(
    trunc: nat -> int, mem: Memory, at: Path, entries: map<string, JsonValue>, header: map<string, JsonValue>,
    sec: int, nanosec: int, t1: int)
    requires "header" in entries && entries["header"] == Object(header) && "stamp" in header
    requires Typed(STAMP, StampOf(sec, nanosec)) && InRange(Int32, sec) && InRange(UInt32, nanosec)
    requires header["stamp"] == BuildScalar(mem, at, STAMP, StampOf(sec, nanosec))
    ensures var r := ApplyTsEnvelope(trunc, entries, t1);
            && r.Some? && TS in r.value && r.value[TS].Object?
            && var ts := r.value[TS].entries;
               && "t1_ns" in ts && ts["t1_ns"] == Int(t1)
               && ("t0_ns" in ts <==> sec != 0 || nanosec != 0)
               && ("t0_ns" in ts ==>
                     ts["t0_ns"] == Int(sec * 1_000_000_000 + nanosec)
                     && InRange(Int64, sec * 1_000_000_000 + nanosec))
  {
    StampEntries(mem, at, sec, nanosec);
    assert StampField(entries, "sec") == Some(Int(sec));
    assert StampField(entries, "nanosec") == Some(Int(nanosec));
  }

  lemma StampEntries(mem: Memory, at: Path, sec: int, nanosec: int)
    requires Typed(STAMP, StampOf(sec, nanosec))
    ensures BuildScalar(mem, at, STAMP, StampOf(sec, nanosec)) ==
            Object(map["sec" := Int(sec), "nanosec" := Int(nanosec)])
  {
    var ms, fs := STAMP.members, StampOf(sec, nanosec).fields;
    assert ms[..1] == [Member("sec", Int32, Single)] && fs[..1] == [One(IntValue(sec))];
    assert ms[..1][..0] == [] && fs[..1][..0] == [];
    assert BuildEntries(mem, at, ms[..1][..0], fs[..1][..0]) == map[];
    assert BuildEntries(mem, at, ms[..1], fs[..1]) == map["sec" := Int(sec)];
  }
}
