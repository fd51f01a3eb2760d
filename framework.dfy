/**
 * The slice of the Terraform plugin framework that the provider's generated
 * value code is written against: tri-state attribute values, their types,
 * the object and list constructors, equality, and the wire encoding
 * (`tftypes.Value`) that `ToTerraformValue` / `ValueFromTerraform` convert to
 * and from.
 */
module Framework {

  /** `attr.ValueState`: every framework value is null, unknown or known. */
  datatype State = Null | Unknown | Known

  /**
   * `attr.Type`. `NoType` stands for the nil type that a zero-valued
   * `basetypes.ListValue{}` reports as its element type, and for the nil
   * type of a zero `tftypes.Value`.
   */
  datatype AttrType =
    | StringType
    | Int64Type
    | BoolType
    | ListType(elem: AttrType)
    | ObjectType(attrTypes: map<string, AttrType>)
    | NoType

  const MinInt64: int := -0x8000_0000_0000_0000
  const MaxInt64: int := 0x7FFF_FFFF_FFFF_FFFF

  /** Go's `int64`; `Int64Value` carries one. */
  type Int64 = n: int | MinInt64 <= n <= MaxInt64

  /**
   * `basetypes.StringValue`, `Int64Value`, `BoolValue`, `ListValue` and
   * `ObjectValue`. A list and an object carry their declared element or
   * attribute types, as the framework structs do.
   */
  datatype Value =
    | StringValue(state: State, str: string)
    | Int64Value(state: State, num: Int64)
    | BoolValue(state: State, flag: bool)
    | ListValue(state: State, elemType: AttrType, elems: seq<Value>)
    | ObjectValue(state: State, attrTypes: map<string, AttrType>, attrs: map<string, Value>)

  /**
   * A diagnostic: its summary, its detail, and for an attribute error the
   * attribute path (empty for other errors). The code of this model only
   * ever adds errors.
   */
  datatype Diagnostic = Error(summary: string, detail: string, path: string := "")

  /** `diags.HasError()`: every diagnostic here has error severity. */
  predicate HasError(diags: seq<Diagnostic>)
  {
    diags != []
  }

  /** The result of a Go call that may panic instead of returning. */
  datatype Outcome<T> = Returned(value: T) | Panicked
  {
    predicate IsFailure()
    {
      Panicked?
    }

    function PropagateFailure<U>(): Outcome<U>
      requires Panicked?
    {
      Panicked
    }

    function Extract(): T
      requires Returned?
    {
      value
    }
  }

  /** A Go pointer or an optional value: `nil` or a value. */
  datatype Option<T> = None | Some(value: T)

  /** A Go `(T, error)` pair, with the value meaningless when the error is set. */
  datatype Result<T> = Ok(value: T) | Err(message: string)

  /** `Value.Type(ctx)`. */
  function TypeOf(v: Value): AttrType
  {
    match v
    case StringValue(_, _) => StringType
    case Int64Value(_, _) => Int64Type
    case BoolValue(_, _) => BoolType
    case ListValue(_, e, _) => ListType(e)
    case ObjectValue(_, ts, _) => ObjectType(ts)
  }

  /**
   * Go's zero value of the basetypes struct that a field of type `t` is
   * declared with. Its state is `Null`; a zero list and a zero object carry
   * no element or attribute types.
   */
  function Zero(t: AttrType): (z: Value)
    ensures z.state == Null
  {
    match t
    case StringType => StringValue(Null, "")
    case Int64Type => Int64Value(Null, 0)
    case BoolType => BoolValue(Null, false)
    case ListType(_) => ListValue(Null, NoType, [])
    case ObjectType(_) => ObjectValue(Null, map[], map[])
    case NoType => ListValue(Null, NoType, [])
  }

  /** `types.StringNull()`, `types.ListNull(e)`, `types.ObjectNull(ts)`, ... */
  function NullOf(t: AttrType): (v: Value)
    ensures v.state == Null
    ensures t != NoType ==> TypeOf(v) == t
  {
    match t
    case StringType => StringValue(Null, "")
    case Int64Type => Int64Value(Null, 0)
    case BoolType => BoolValue(Null, false)
    case ListType(e) => ListValue(Null, e, [])
    case ObjectType(ts) => ObjectValue(Null, ts, map[])
    case NoType => ListValue(Null, NoType, [])
  }

  /** `types.StringUnknown()`, `types.ObjectUnknown(ts)`, ... */
  function UnknownOf(t: AttrType): (v: Value)
    ensures v.state == Unknown
    ensures t != NoType ==> TypeOf(v) == t
  {
    match t
    case StringType => StringValue(Unknown, "")
    case Int64Type => Int64Value(Unknown, 0)
    case BoolType => BoolValue(Unknown, false)
    case ListType(e) => ListValue(Unknown, e, [])
    case ObjectType(ts) => ObjectValue(Unknown, ts, map[])
    case NoType => ListValue(Unknown, NoType, [])
  }

  /**
   * The Go type assertion `v.(basetypes.XValue)` for the basetypes struct
   * `X` that a value of type `t` is declared with: it looks only at the
   * kind of value, not at element or attribute types.
   */
  predicate SameKind(v: Value, t: AttrType)
  {
    match t
    case StringType => v.StringValue?
    case Int64Type => v.Int64Value?
    case BoolType => v.BoolValue?
    case ListType(_) => v.ListValue?
    case ObjectType(_) => v.ObjectValue?
    case NoType => false
  }

  /** `ObjectValue.Attributes()`: empty unless the object is known. */
  function Attributes(v: Value): map<string, Value>
  {
    if v.ObjectValue? && v.state == Known then v.attrs else map[]
  }

  /** `ListValue.Elements()`: empty unless the list is known. */
  function Elements(v: Value): seq<Value>
  {
    if v.ListValue? && v.state == Known then v.elems else []
  }

  /** Attribute values that match the attribute types key for key. */
  predicate AttrsMatch(ts: map<string, AttrType>, attrs: map<string, Value>)
  {
    && (forall k | k in ts :: k in attrs && TypeOf(attrs[k]) == ts[k])
    && (forall k | k in attrs :: k in ts)
  }

  /**
   * The invariants the framework's constructors maintain: a value that is
   * not known carries no payload, and the children of a known list or
   * object are well formed and have the declared types.
   */
  predicate WellFormed(v: Value)
  {
    match v
    case StringValue(st, s) => st != Known ==> s == ""
    case Int64Value(st, n) => st != Known ==> n == 0
    case BoolValue(st, b) => st != Known ==> !b
    case ListValue(st, e, xs) =>
      && (st != Known ==> xs == [])
      && (forall i | 0 <= i < |xs| :: WellFormed(xs[i]) && TypeOf(xs[i]) == e)
    case ObjectValue(st, ts, m) =>
      && (st != Known ==> m == map[])
      && (st == Known ==> AttrsMatch(ts, m))
      && (forall k | k in m :: WellFormed(m[k]))
  }

  /** `types.ObjectValue(ts, attrs)`; its error diagnostics are reported as one. */
  function NewObject(ts: map<string, AttrType>, attrs: map<string, Value>): (r: (Value, seq<Diagnostic>))
    ensures r.0.ObjectValue? && r.0.attrTypes == ts
    ensures r.0.state == Known <==> AttrsMatch(ts, attrs)
    ensures r.0.state == Known ==> r.0.attrs == attrs && r.1 == []
    ensures r.0.state != Known ==> r.0 == UnknownOf(ObjectType(ts)) && HasError(r.1)
  {
    if AttrsMatch(ts, attrs) then (ObjectValue(Known, ts, attrs), [])
    else (ObjectValue(Unknown, ts, map[]), [Error("Invalid Object", "")])
  }

  /** `types.ObjectValueMust(ts, attrs)`: panics where `types.ObjectValue` reports an error. */
  function NewObjectMust(ts: map<string, AttrType>, attrs: map<string, Value>): (r: Outcome<Value>)
    ensures r.Panicked? <==> !AttrsMatch(ts, attrs)
    ensures r.Returned? ==> r.value == ObjectValue(Known, ts, attrs)
  {
    var (v, diags) := NewObject(ts, attrs);
    if HasError(diags) then Panicked else Returned(v)
  }

  /** `types.ListValue(e, xs)`; its error diagnostics are reported as one. */
  function NewList(e: AttrType, xs: seq<Value>): (r: (Value, seq<Diagnostic>))
    ensures TypeOf(r.0) == ListType(e)
    ensures r.0.state == Known <==> (forall i | 0 <= i < |xs| :: TypeOf(xs[i]) == e)
    ensures r.0.state == Known ==> r.0.elems == xs && r.1 == []
    ensures r.0.state != Known ==> r.0 == UnknownOf(ListType(e)) && HasError(r.1)
  {
    if forall i | 0 <= i < |xs| :: TypeOf(xs[i]) == e then (ListValue(Known, e, xs), [])
    else (ListValue(Unknown, e, []), [Error("Invalid List Element Type", "")])
  }

  /**
   * `Equal` on framework values: same kind, same element or attribute types
   * for lists and objects, same state, and for known values the same payload,
   * compared element by element.
   */
  predicate ValueEqual(a: Value, b: Value)
  {
    match a
    case StringValue(st, s) =>
      b.StringValue? && b.state == st && (st == Known ==> b.str == s)
    case Int64Value(st, n) =>
      b.Int64Value? && b.state == st && (st == Known ==> b.num == n)
    case BoolValue(st, f) =>
      b.BoolValue? && b.state == st && (st == Known ==> b.flag == f)
    case ListValue(st, e, xs) =>
      && b.ListValue? && b.elemType == e && b.state == st
      && (st == Known ==>
            |b.elems| == |xs| && forall i | 0 <= i < |xs| :: ValueEqual(xs[i], b.elems[i]))
    case ObjectValue(st, ts, m) =>
      && b.ObjectValue? && b.attrTypes == ts && b.state == st
      && (st == Known ==>
            m.Keys == b.attrs.Keys && forall k | k in m :: k in b.attrs && ValueEqual(m[k], b.attrs[k]))
  }

  /** On well-formed values the framework's `Equal` is exactly structural equality. */
  lemma {:induction false} ValueEqualIsEquality(a: Value, b: Value)
    requires WellFormed(a) && WellFormed(b)
    ensures ValueEqual(a, b) <==> a == b
    decreases a
  {
    match a
    case StringValue(_, _) =>
    case Int64Value(_, _) =>
    case BoolValue(_, _) =>
    case ListValue(st, e, xs) =>
      if b.ListValue? && b.elemType == e && b.state == st && st == Known && |b.elems| == |xs| {
        forall i | 0 <= i < |xs|
          ensures ValueEqual(xs[i], b.elems[i]) <==> xs[i] == b.elems[i]
        {
          ValueEqualIsEquality(xs[i], b.elems[i]);
        }
        if ValueEqual(a, b) {
          assert xs == b.elems;
        }
      }
    case ObjectValue(st, ts, m) =>
      if b.ObjectValue? && b.attrTypes == ts && b.state == st && st == Known && m.Keys == b.attrs.Keys {
        forall k | k in m
          ensures ValueEqual(m[k], b.attrs[k]) <==> m[k] == b.attrs[k]
        {
          ValueEqualIsEquality(m[k], b.attrs[k]);
        }
        if ValueEqual(a, b) {
          assert m == b.attrs;
        }
      }
  }

  /** The payload of a `tftypes.Value`. */
  datatype Payload =
    | UnknownPayload
    | NullPayload
    | StrPayload(s: string)
    | NumPayload(n: int)
    | BoolPayload(b: bool)
    | ListPayload(items: seq<Tree>)
    | ObjectPayload(fields: map<string, Tree>)

  /**
   * A `tftypes.Value`: its type (the framework type it is the Terraform
   * type of, `NoType` for the nil type of a zero value) and its payload.
   */
  datatype Tree = Tree(ty: AttrType, payload: Payload)

  /** The payload of a value that is not known. */
  function Absent(st: State): Payload
  {
    if st == Null then NullPayload else UnknownPayload
  }

  /**
   * The framework's `ToTerraformValue` on its own values. A known list or
   * object is checked against its declared types (`tftypes.ValidateValue`).
   */
  function Encode(v: Value): (r: Result<Tree>)
    ensures r.Ok? ==> r.value.ty == TypeOf(v)
    decreases v, 2
  {
    match v
    case StringValue(st, s) =>
      Ok(Tree(StringType, if st == Known then StrPayload(s) else Absent(st)))
    case Int64Value(st, n) =>
      Ok(Tree(Int64Type, if st == Known then NumPayload(n) else Absent(st)))
    case BoolValue(st, f) =>
      Ok(Tree(BoolType, if st == Known then BoolPayload(f) else Absent(st)))
    case ListValue(st, e, xs) =>
      if st != Known then Ok(Tree(ListType(e), Absent(st)))
      else if !ElementsEncode(v) then Err("cannot encode list element")
      else
        var items := EncodeElements(v);
        if forall i | 0 <= i < |items| :: items[i].ty == e then Ok(Tree(ListType(e), ListPayload(items)))
        else Err("invalid list value")
    case ObjectValue(st, ts, m) =>
      if st != Known then Ok(Tree(ObjectType(ts), Absent(st)))
      else if !AttributesEncode(v) then Err("cannot encode object attribute")
      else
        var fields := EncodeAttributes(v);
        if ValidFields(ts, fields) then Ok(Tree(ObjectType(ts), ObjectPayload(fields)))
        else Err("invalid object value")
  }

  /** Every element of a list can be encoded. */
  predicate ElementsEncode(v: Value)
    requires v.ListValue?
    decreases v, 0
  {
    forall i | 0 <= i < |v.elems| :: Encode(v.elems[i]).Ok?
  }

  /** The element trees of a list. */
  function EncodeElements(v: Value): (items: seq<Tree>)
    requires v.ListValue? && ElementsEncode(v)
    ensures |items| == |v.elems|
    ensures forall i | 0 <= i < |items| :: Encode(v.elems[i]) == Ok(items[i])
    decreases v, 1
  {
    seq(|v.elems|, i requires 0 <= i < |v.elems| => Encode(v.elems[i]).value)
  }

  /** Every attribute of an object can be encoded. */
  predicate AttributesEncode(v: Value)
    requires v.ObjectValue?
    decreases v, 0
  {
    forall k | k in v.attrs :: Encode(v.attrs[k]).Ok?
  }

  /** The attribute trees of an object. */
  function EncodeAttributes(v: Value): (fields: map<string, Tree>)
    requires v.ObjectValue? && AttributesEncode(v)
    ensures fields.Keys == v.attrs.Keys
    ensures forall k | k in fields :: Encode(v.attrs[k]) == Ok(fields[k])
    decreases v, 1
  {
    map k | k in v.attrs :: Encode(v.attrs[k]).value
  }

  /** `tftypes.ValidateValue` for an object: the fields have exactly the declared keys and types. */
  predicate ValidFields(ts: map<string, AttrType>, fields: map<string, Tree>)
  {
    && (forall k | k in ts :: k in fields && fields[k].ty == ts[k])
    && (forall k | k in fields :: k in ts)
  }

  /**
   * The framework's `ValueFromTerraform` for type `t`: a nil type gives
   * null, a different type is an error, then unknown and null, and a known
   * list or object decodes its children with the element or attribute types.
   */
  function Decode(t: AttrType, tr: Tree): Result<Value>
    decreases tr, 2
  {
    if tr.ty == NoType then Ok(NullOf(t))
    else if tr.ty != t then Err("type mismatch")
    else
      match tr.payload
      case UnknownPayload => Ok(UnknownOf(t))
      case NullPayload => Ok(NullOf(t))
      case StrPayload(s) =>
        if t == StringType then Ok(StringValue(Known, s)) else Err("not a string")
      case NumPayload(n) =>
        if t == Int64Type && MinInt64 <= n <= MaxInt64 then Ok(Int64Value(Known, n))
        else Err("not an int64")
      case BoolPayload(b) =>
        if t == BoolType then Ok(BoolValue(Known, b)) else Err("not a bool")
      case ListPayload(items) =>
        if !t.ListType? then Err("not a list")
        else if !ItemsDecode(t.elem, tr) then Err("cannot decode list element")
        else
          var (lv, diags) := NewList(t.elem, DecodeItems(t.elem, tr));
          if HasError(diags) then Err("invalid list") else Ok(lv)
      case ObjectPayload(fs) =>
        if !t.ObjectType? || fs.Keys != t.attrTypes.Keys then Err("not an object of this type")
        else if !FieldsDecode(t.attrTypes, tr) then Err("cannot decode object attribute")
        else
          var (ov, diags) := NewObject(t.attrTypes, DecodeFields(t.attrTypes, tr));
          if HasError(diags) then Err("invalid object") else Ok(ov)
  }

  /** Every item of a list tree decodes with the element type. */
  predicate ItemsDecode(e: AttrType, tr: Tree)
    requires tr.payload.ListPayload?
    decreases tr, 0
  {
    forall i | 0 <= i < |tr.payload.items| :: Decode(e, tr.payload.items[i]).Ok?
  }

  /** The decoded items of a list tree. */
  function DecodeItems(e: AttrType, tr: Tree): (xs: seq<Value>)
    requires tr.payload.ListPayload? && ItemsDecode(e, tr)
    ensures |xs| == |tr.payload.items|
    ensures forall i | 0 <= i < |xs| :: Decode(e, tr.payload.items[i]) == Ok(xs[i])
    decreases tr, 1
  {
    seq(|tr.payload.items|, i requires 0 <= i < |tr.payload.items| => Decode(e, tr.payload.items[i]).value)
  }

  /** Every field of an object tree decodes with the type of its name. */
  predicate FieldsDecode(ts: map<string, AttrType>, tr: Tree)
    requires tr.payload.ObjectPayload? && tr.payload.fields.Keys == ts.Keys
    decreases tr, 0
  {
    forall k | k in tr.payload.fields :: Decode(ts[k], tr.payload.fields[k]).Ok?
  }

  /** The decoded fields of an object tree. */
  function DecodeFields(ts: map<string, AttrType>, tr: Tree): (attrs: map<string, Value>)
    requires tr.payload.ObjectPayload? && tr.payload.fields.Keys == ts.Keys && FieldsDecode(ts, tr)
    ensures attrs.Keys == tr.payload.fields.Keys
    ensures forall k | k in attrs :: Decode(ts[k], tr.payload.fields[k]) == Ok(attrs[k])
    decreases tr, 1
  {
    map k | k in tr.payload.fields :: Decode(ts[k], tr.payload.fields[k]).value
  }

  /** Decoding inverts encoding on every well-formed value. */
  lemma {:induction false} DecodeEncode(v: Value)
    requires WellFormed(v)
    ensures Encode(v).Ok?
    ensures Decode(TypeOf(v), Encode(v).value) == Ok(v)
    decreases v, 1
  {
    match v
    case StringValue(_, _) =>
    case Int64Value(_, _) =>
    case BoolValue(_, _) =>
    case ListValue(st, e, xs) =>
      if st == Known {
        DecodeEncodeList(v);
      }
    case ObjectValue(st, ts, m) =>
      if st == Known {
        DecodeEncodeObject(v);
      }
  }

  lemma {:induction false} DecodeEncodeList(v: Value)
    requires v.ListValue? && v.state == Known && WellFormed(v)
    ensures Encode(v).Ok?
    ensures Decode(TypeOf(v), Encode(v).value) == Ok(v)
    decreases v, 0
  {
    var e, xs := v.elemType, v.elems;
    forall i | 0 <= i < |xs|
      ensures Encode(xs[i]).Ok? && Decode(e, Encode(xs[i]).value) == Ok(xs[i])
    {
      DecodeEncode(xs[i]);
    }
    var tr := Tree(ListType(e), ListPayload(EncodeElements(v)));
    assert Encode(v) == Ok(tr);
    assert DecodeItems(e, tr) == xs;
  }

  lemma {:induction false} DecodeEncodeObject(v: Value)
    requires v.ObjectValue? && v.state == Known && WellFormed(v)
    ensures Encode(v).Ok?
    ensures Decode(TypeOf(v), Encode(v).value) == Ok(v)
    decreases v, 0
  {
    var ts, m := v.attrTypes, v.attrs;
    forall k | k in m
      ensures Encode(m[k]).Ok? && Decode(ts[k], Encode(m[k]).value) == Ok(m[k])
    {
      DecodeEncode(m[k]);
    }
    var tr := Tree(ObjectType(ts), ObjectPayload(EncodeAttributes(v)));
    assert ValidFields(ts, tr.payload.fields);
    assert Encode(v) == Ok(tr);
    assert DecodeFields(ts, tr) == m;
  }

  /** Whatever decoding accepts is a well-formed value of the requested type. */
  lemma {:induction false} DecodeWellFormed(t: AttrType, tr: Tree)
    requires Decode(t, tr).Ok?
    ensures WellFormed(Decode(t, tr).value)
    ensures t != NoType ==> TypeOf(Decode(t, tr).value) == t
    decreases tr
  {
    if tr.ty != NoType && tr.ty == t {
      match tr.payload
      case ListPayload(items) =>
        var xs := DecodeItems(t.elem, tr);
        forall i | 0 <= i < |xs|
          ensures WellFormed(xs[i])
        {
          DecodeWellFormed(t.elem, items[i]);
        }
      case ObjectPayload(fs) =>
        var attrs := DecodeFields(t.attrTypes, tr);
        forall k | k in attrs
          ensures WellFormed(attrs[k])
        {
          DecodeWellFormed(t.attrTypes[k], fs[k]);
        }
      case _ =>
    }
  }
}
