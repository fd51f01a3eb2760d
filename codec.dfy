/**
 * The wire codecs of the generated object types: `XType.ValueFromTerraform`
 * (wire tree to value) and `XValue.ToTerraformValue` (value to wire tree).
 */
module Codec {
  import opened Framework
  import opened Entities

  /** The Go type `XType{basetypes.ObjectType{AttrTypes: attrTypes}}` of one generated kind. */
  datatype CustomType = CustomType(kind: Custom, attrTypes: map<string, AttrType>)

  /** The type a schema attribute of kind `c` declares: the kind with its own table. */
  function TypeFor(c: Custom): CustomType
  {
    CustomType(c, AttrTypes(c))
  }

  /** What a decoder hands back: a generated value, or a plain framework object. */
  datatype Objectable = EntityResult(entity: EntityValue) | ObjectResult(object: Value)

  // ---------------------------------------------------------------------
  // ValueFromTerraform

  /**
   * The value type whose `Null`, `Unknown` and `Must` constructors a type's
   * decoder calls. Three version-2 decoders build version-1 values.
   */
  function DecodeTarget(c: Custom): Custom
  {
    match c
    case ApplicationConfigV2 => ApplicationConfigV1
    case RecoveryV2 => RecoveryV1
    case ScheduledBackupsV2 => ScheduledBackupsV1
    case _ => c
  }

  /**
   * The decoding steps every generated decoder shares, building values of
   * `target`: a tree without a type is null; a tree of another type is an
   * error; an unknown tree is checked before a null one; a known tree has
   * every attribute decoded with the type's own attribute types and is then
   * passed to `target`'s `Must` constructor with `target`'s table.
   */
  function DecodeAs(target: Custom, t: CustomType, tree: Tree): (r: Outcome<Result<EntityValue>>)
    ensures r.Returned? && r.value.Ok? ==>
      r.value.value.custom == target && EntityWellFormed(r.value.value)
    ensures r.Returned? && r.value.Ok? ==>
      (r.value.value.state == Null <==> tree.ty == NoType || tree.payload.NullPayload?)
    ensures r.Returned? && r.value.Ok? ==>
      (r.value.value.state == Unknown <==> tree.ty != NoType && tree.payload.UnknownPayload?)
    ensures tree.ty != NoType && tree.ty != ObjectType(t.attrTypes) ==> r.Returned? && r.value.Err?
  {
    if tree.ty == NoType then
      AbsentWellFormed(target, Null);
      Returned(Ok(NullValue(target)))
    else if tree.ty != ObjectType(t.attrTypes) then Returned(Err("expected the type's object type"))
    else
      match tree.payload
      case UnknownPayload =>
        AbsentWellFormed(target, Unknown);
        Returned(Ok(UnknownValue(target)))
      case NullPayload =>
        AbsentWellFormed(target, Null);
        Returned(Ok(NullValue(target)))
      case ObjectPayload(fs) =>
        if fs.Keys != t.attrTypes.Keys then Returned(Err("object attributes do not match the type"))
        else if !FieldsDecode(t.attrTypes, tree) then Returned(Err("cannot decode attribute"))
        else
          var attrs := DecodeFields(t.attrTypes, tree);
          DecodedAttributesWellFormed(t.attrTypes, tree);
          (match Must(target, AttrTypes(target), attrs)
           case Panicked => Panicked
           case Returned(v) =>
             KnownFromMustWellFormed(target, attrs);
             Returned(Ok(v)))
      case _ => Returned(Err("not an object"))
  }

  lemma DecodedAttributesWellFormed(ts: map<string, AttrType>, tree: Tree)
    requires tree.payload.ObjectPayload? && tree.payload.fields.Keys == ts.Keys && FieldsDecode(ts, tree)
    ensures forall k | k in DecodeFields(ts, tree) :: WellFormed(DecodeFields(ts, tree)[k])
  {
    forall k | k in DecodeFields(ts, tree)
      ensures WellFormed(DecodeFields(ts, tree)[k])
    {
      DecodeWellFormed(ts[k], tree.payload.fields[k]);
    }
  }

  lemma KnownFromMustWellFormed(target: Custom, attrs: map<string, Value>)
    requires forall k | k in attrs :: WellFormed(attrs[k])
    requires Must(target, AttrTypes(target), attrs).Returned?
    ensures EntityWellFormed(Must(target, AttrTypes(target), attrs).value)
  {
    TableTypesDeclared(target);
  }

  /** `XType.ValueFromTerraform` as each generated type writes it. */
  function DecodeEntity(t: CustomType, tree: Tree): Outcome<Result<EntityValue>>
  {
    DecodeAs(DecodeTarget(t.kind), t, tree)
  }

  /** The decoder with every type building its own values. */
  function DecodeEntityOwn(t: CustomType, tree: Tree): Outcome<Result<EntityValue>>
  {
    DecodeAs(t.kind, t, tree)
  }

  /**
   * The scheduled backups and networking types of version 2 name their
   * decoder `ValueFromTerraformV2`, so the interface method they answer to
   * is the embedded `basetypes.ObjectType`'s.
   */
  predicate DeclaresDecoder(c: Custom)
  {
    c != ScheduledBackupsV2 && c != PrivateNetworkConfigV2 && c != PublicNetworkConfigV2
  }

  /** `t.ValueFromTerraform(ctx, tree)` as the framework calls it. */
  function ValueFromTerraform(t: CustomType, tree: Tree): (r: Outcome<Result<Objectable>>)
    ensures !DeclaresDecoder(t.kind) ==> r.Returned?
    ensures r.Returned? && r.value.Ok? ==> (r.value.value.EntityResult? <==> DeclaresDecoder(t.kind))
  {
    if DeclaresDecoder(t.kind) then
      match DecodeEntity(t, tree)
      case Panicked => Panicked
      case Returned(Err(m)) => Returned(Err(m))
      case Returned(Ok(e)) => Returned(Ok(EntityResult(e)))
    else
      match Decode(ObjectType(t.attrTypes), tree)
      case Err(m) => Returned(Err(m))
      case Ok(v) => Returned(Ok(ObjectResult(v)))
  }

  // ---------------------------------------------------------------------
  // ToTerraformValue

  /** The `(tftypes.Value, error)` pair `ToTerraformValue` returns. */
  datatype Encoding = Encoding(tree: Tree, failed: bool)

  /** Every generated encoder except the public networking one validates before building the tree. */
  predicate Validates(c: Custom)
  {
    c != PublicNetworkConfigV2
  }

  /** The wire object type of a kind. */
  function WireType(c: Custom): AttrType
  {
    ObjectType(AttrTypes(c))
  }

  /** The tree for a value with no known payload. */
  function AbsentTree(c: Custom, st: State): Tree
  {
    Tree(WireType(c), Absent(st))
  }

  /** Every attribute named in `ts` can be encoded. */
  predicate AllEncode(e: EntityValue, ts: map<string, AttrType>)
  {
    forall n | n in ts :: Encode(Field(e, n)).Ok?
  }

  /** The attribute trees of `e` for the names in `ts`. */
  function EncodedAttributes(e: EntityValue, ts: map<string, AttrType>): (vals: map<string, Tree>)
    requires AllEncode(e, ts)
    ensures vals.Keys == ts.Keys
    ensures forall n | n in vals :: Encode(Field(e, n)) == Ok(vals[n])
  {
    map n | n in ts :: Encode(Field(e, n)).value
  }

  /**
   * What `ToTerraformValue` returns: a null or unknown tree for a null or
   * unknown value; for a known value, an unknown tree and an error when an
   * attribute cannot be encoded or the attribute trees do not fit the
   * object type, and the object tree otherwise. The public networking
   * encoder skips the check, and `tftypes.NewValue` panics instead.
   */
  function Encoded(e: EntityValue): (r: Outcome<Encoding>)
    ensures r.Returned? ==> r.value.tree.ty == WireType(e.custom)
    ensures r.Panicked? ==> !Validates(e.custom) && e.state == Known
    ensures r.Returned? && r.value.failed ==>
      e.state == Known && r.value.tree == AbsentTree(e.custom, Unknown)
    ensures r.Returned? && !r.value.failed && e.state != Known ==> r.value.tree == AbsentTree(e.custom, e.state)
    ensures r.Returned? && !r.value.failed && e.state == Known ==>
      r.value.tree.payload.ObjectPayload? && ValidFields(AttrTypes(e.custom), r.value.tree.payload.fields)
  {
    var ts := AttrTypes(e.custom);
    if e.state != Known then Returned(Encoding(AbsentTree(e.custom, e.state), false))
    else if !AllEncode(e, ts) then Returned(Encoding(AbsentTree(e.custom, Unknown), true))
    else
      var vals := EncodedAttributes(e, ts);
      if ValidFields(ts, vals) then Returned(Encoding(Tree(WireType(e.custom), ObjectPayload(vals)), false))
      else if Validates(e.custom) then Returned(Encoding(AbsentTree(e.custom, Unknown), true))
      else Panicked
  }

  /** `XValue.ToTerraformValue(ctx)`. */
  method ToTerraformValue(e: EntityValue) returns (r: Outcome<Encoding>)
    ensures r == Encoded(e)
  {
    var ts := AttrTypes(e.custom);
    if e.state == Null {
      return Returned(Encoding(Tree(WireType(e.custom), NullPayload), false));
    }
    if e.state == Unknown {
      return Returned(Encoding(Tree(WireType(e.custom), UnknownPayload), false));
    }
    FieldOrderIsTable(e.custom);
    var vals, ok := EncodeAttributes(e, FieldOrder(e.custom), ts);
    if !ok {
      return Returned(Encoding(Tree(WireType(e.custom), UnknownPayload), true));
    }
    if ValidFields(ts, vals) {
      r := Returned(Encoding(Tree(WireType(e.custom), ObjectPayload(vals)), false));
    } else if Validates(e.custom) {
      r := Returned(Encoding(Tree(WireType(e.custom), UnknownPayload), true));
    } else {
      r := Panicked;
    }
  }

  /**
   * The known case of `ToTerraformValue`: each attribute in `order` is
   * encoded and stored in `vals`; the first one that fails ends the pass.
   */
  method EncodeAttributes(e: EntityValue, order: seq<string>, ts: map<string, AttrType>)
    returns (vals: map<string, Tree>, ok: bool)
    requires forall n :: n in order <==> n in ts
    ensures ok <==> AllEncode(e, ts)
    ensures ok ==> vals == EncodedAttributes(e, ts)
  {
    vals := map[];
    var i := 0;
    while i < |order|
      invariant 0 <= i <= |order|
      invariant forall j | 0 <= j < i :: Encode(Field(e, order[j])).Ok?
      invariant vals == map n | n in order[..i] :: Encode(Field(e, n)).value
    {
      var val := Encode(Field(e, order[i]));
      if val.Err? {
        assert order[i] in ts;
        return vals, false;
      }
      assert order[..i + 1] == order[..i] + [order[i]];
      vals := vals[order[i] := val.value];
      i := i + 1;
    }
    assert order[..|order|] == order;
    ok := true;
  }

  // ---------------------------------------------------------------------
  // Round trips

  /** The attribute trees of a typed known value decode back to its attributes. */
  lemma AttributesRoundTrip(e: EntityValue)
    requires Typed(e)
    ensures AllEncode(e, AttrTypes(e.custom))
    ensures ValidFields(AttrTypes(e.custom), EncodedAttributes(e, AttrTypes(e.custom)))
    ensures forall k | k in AttrTypes(e.custom) ::
      Decode(AttrTypes(e.custom)[k], EncodedAttributes(e, AttrTypes(e.custom))[k]) == Ok(e.fields[k])
  {
    var ts := AttrTypes(e.custom);
    forall n | n in ts
      ensures Encode(Field(e, n)).Ok? && Decode(ts[n], Encode(Field(e, n)).value) == Ok(e.fields[n])
      ensures Encode(Field(e, n)).value.ty == ts[n]
    {
      DecodeEncode(e.fields[n]);
    }
  }

  /**
   * Decoding with a type's own table inverts `ToTerraformValue` on every
   * typed known value, provided the decoder builds values of the same type.
   */
  lemma {:induction false} KnownRoundTrip(e: EntityValue)
    requires Typed(e) && e.state == Known
    ensures Encoded(e).Returned? && !Encoded(e).value.failed
    ensures DecodeEntityOwn(TypeFor(e.custom), Encoded(e).value.tree) == Returned(Ok(e))
  {
    var c, ts := e.custom, AttrTypes(e.custom);
    KnownEncoded(e);
    var tree := Tree(WireType(c), ObjectPayload(EncodedAttributes(e, ts)));
    DecodeObjectTree(c, TypeFor(c), tree);
    MustOfOwnTypes(c, e.fields);
  }

  /** A typed known value encodes to the object tree of its attribute trees, which decode back to its fields. */
  lemma KnownEncoded(e: EntityValue)
    requires Typed(e) && e.state == Known
    ensures AllEncode(e, AttrTypes(e.custom))
    ensures var tree := Tree(WireType(e.custom), ObjectPayload(EncodedAttributes(e, AttrTypes(e.custom))));
      && Encoded(e) == Returned(Encoding(tree, false))
      && FieldsDecode(AttrTypes(e.custom), tree)
      && DecodeFields(AttrTypes(e.custom), tree) == e.fields
  {
    var ts := AttrTypes(e.custom);
    AttributesRoundTrip(e);
    var tree := Tree(WireType(e.custom), ObjectPayload(EncodedAttributes(e, ts)));
    assert DecodeFields(ts, tree) == e.fields;
  }

  /** The `Must` constructor of a typed known value's own type gives the value back. */
  lemma MustOfOwnTypes(c: Custom, attrs: map<string, Value>)
    requires AttrsMatch(AttrTypes(c), attrs)
    ensures Must(c, AttrTypes(c), attrs) == Returned(EntityValue(c, Known, attrs))
  {
    ConstructFromOwnTypes(c, attrs);
  }

  /** A known object tree of the type's attribute types whose fields decode goes to the `Must` constructor. */
  lemma DecodeObjectTree(target: Custom, t: CustomType, tree: Tree)
    requires tree.ty == ObjectType(t.attrTypes) && tree.payload.ObjectPayload?
    requires tree.payload.fields.Keys == t.attrTypes.Keys && FieldsDecode(t.attrTypes, tree)
    ensures var m := Must(target, AttrTypes(target), DecodeFields(t.attrTypes, tree));
      DecodeAs(target, t, tree) == if m.Panicked? then Panicked else Returned(Ok(m.value))
  {
  }

  /** A null or unknown value encodes to a tree that decodes to the decoder's null or unknown value. */
  lemma AbsentRoundTrip(e: EntityValue, t: CustomType)
    requires e.state != Known && t == TypeFor(e.custom)
    ensures Encoded(e) == Returned(Encoding(AbsentTree(e.custom, e.state), false))
    ensures DecodeEntity(t, Encoded(e).value.tree) ==
      Returned(Ok(EntityValue(DecodeTarget(e.custom), e.state, ZeroFields(DecodeTarget(e.custom)))))
  {
  }

  /** Where a decoder builds values of its own type, decoding inverts `ToTerraformValue`. */
  lemma DecodeEncodeEntity(e: EntityValue)
    requires Typed(e) && e.state == Known && DecodeTarget(e.custom) == e.custom
    ensures DecodeEntity(TypeFor(e.custom), Encoded(e).value.tree) == Returned(Ok(e))
  {
    KnownRoundTrip(e);
  }

  /**
   * `RecoveryTypeV2.ValueFromTerraform` turns what a known `RecoveryValueV2`
   * encodes into a `RecoveryValue` with the same attributes.
   */
  lemma RecoveryV2DecodesToV1(e: EntityValue)
    requires Typed(e) && e.state == Known && e.custom == RecoveryV2
    ensures DecodeEntity(TypeFor(RecoveryV2), Encoded(e).value.tree) ==
      Returned(Ok(EntityValue(RecoveryV1, Known, e.fields)))
  {
    var ts := AttrTypes(RecoveryV2);
    KnownEncoded(e);
    var tree := Tree(WireType(RecoveryV2), ObjectPayload(EncodedAttributes(e, ts)));
    DecodeObjectTree(RecoveryV1, TypeFor(RecoveryV2), tree);
    assert AttrTypes(RecoveryV1) == ts;
    MustOfOwnTypes(RecoveryV1, e.fields);
  }

  /**
   * `ApplicationConfigTypeV2.ValueFromTerraform` panics on every known tree
   * of its own type: the version-1 constructor misses `hostname` and
   * `ip_address` and finds the two networking attributes extra.
   */
  lemma ApplicationConfigV2DecodePanics(tree: Tree)
    requires tree.ty == WireType(ApplicationConfigV2) && tree.payload.ObjectPayload?
    requires tree.payload.fields.Keys == AttrTypes(ApplicationConfigV2).Keys
    requires FieldsDecode(AttrTypes(ApplicationConfigV2), tree)
    ensures DecodeEntity(TypeFor(ApplicationConfigV2), tree) == Panicked
  {
    var t := TypeFor(ApplicationConfigV2);
    assert DecodeTarget(t.kind) == ApplicationConfigV1;
    assert "hostname" in AttrTypes(ApplicationConfigV1) && "hostname" !in t.attrTypes;
    DecodePanicsOnMissing(ApplicationConfigV1, t, tree, "hostname");
  }

  /** Decoding a known object tree into a value whose table has an attribute the tree lacks panics. */
  lemma DecodePanicsOnMissing(target: Custom, t: CustomType, tree: Tree, n: string)
    requires tree.ty == ObjectType(t.attrTypes) && tree.payload.ObjectPayload?
    requires tree.payload.fields.Keys == t.attrTypes.Keys && FieldsDecode(t.attrTypes, tree)
    requires n in AttrTypes(target) && n !in t.attrTypes
    ensures DecodeAs(target, t, tree) == Panicked
  {
    DecodeObjectTree(target, t, tree);
    var attrs := DecodeFields(t.attrTypes, tree);
    assert n !in attrs;
  }

  /** Every typed known `ApplicationConfigValueV2` fails to come back through its own type's decoder. */
  lemma ApplicationConfigV2RoundTripPanics(e: EntityValue)
    requires Typed(e) && e.state == Known && e.custom == ApplicationConfigV2
    ensures Encoded(e).Returned?
    ensures DecodeEntity(TypeFor(ApplicationConfigV2), Encoded(e).value.tree) == Panicked
  {
    AttributesRoundTrip(e);
    ApplicationConfigV2DecodePanics(Encoded(e).value.tree);
  }

  /**
   * The public networking encoder panics where the private one reports an
   * error: on a known value whose attribute trees do not fit the object type.
   */
  lemma UnvalidatedEncoderPanics(e: EntityValue)
    requires e.state == Known && AllEncode(e, AttrTypes(e.custom))
    requires !ValidFields(AttrTypes(e.custom), EncodedAttributes(e, AttrTypes(e.custom)))
    ensures Encoded(e).Panicked? <==> e.custom == PublicNetworkConfigV2
    ensures e.custom != PublicNetworkConfigV2 ==> Encoded(e) == Returned(Encoding(AbsentTree(e.custom, Unknown), true))
  {
  }
}
