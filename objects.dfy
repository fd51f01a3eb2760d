/**
 * The object views of the generated types: `XType.ValueFromObject` (plain
 * framework object to value), `XValue.ToObjectValue` (value to plain
 * object), and the `Equal` methods of values and types.
 */
module Objects {
  import opened Framework
  import opened Entities
  import opened Codec

  // ---------------------------------------------------------------------
  // ValueFromObject

  /**
   * The value type `ValueFromObject` builds. The version-2 scheduled backups
   * and schedule types build version-1 values.
   */
  function ObjectTarget(c: Custom): Custom
  {
    match c
    case ScheduledBackupsV2 => ScheduledBackupsV1
    case ScheduleV2 => ScheduleV1
    case _ => c
  }

  /**
   * The attributes `ValueFromObject` reads, in order. The version-2
   * application config never reads its two networking attributes.
   */
  function ReadOrder(c: Custom): seq<string>
  {
    if c == ApplicationConfigV2 then ["instances", "password", "recovery", "scheduled_backups", "type", "version"]
    else FieldOrder(c)
  }

  /** The maintenance window types hand back a plain object, not a maintenance window value. */
  predicate ReturnsObject(c: Custom)
  {
    c == MaintenanceWindowV1 || c == MaintenanceWindowV2
  }

  /** The fields of the value `ValueFromObject` builds: the attributes it read, the others left zero. */
  function ObjectFields(c: Custom, attrs: map<string, Value>): map<string, Value>
  {
    var ts := AttrTypes(ObjectTarget(c));
    map n | n in ts :: if n in ReadOrder(c) && n in attrs then attrs[n] else Zero(ts[n])
  }

  /**
   * `XType.ValueFromObject(ctx, obj)`: the attributes are read in order; a
   * missing one ends the reading with an error, a value of the wrong kind
   * is reported and the reading goes on; with any error no value comes
   * back, otherwise a known value holding what was read.
   */
  function ValueFromObject(c: Custom, obj: Value): (r: (Option<Objectable>, seq<Diagnostic>))
    ensures r.0.Some? <==> Fits(AttrTypes(c), Attributes(obj), ReadOrder(c))
    ensures r.0.None? ==> HasError(r.1)
    ensures r.0.Some? ==> r.1 == []
    ensures r.0.Some? && !ReturnsObject(c) ==>
      r.0.value == EntityResult(EntityValue(ObjectTarget(c), Known, ObjectFields(c, Attributes(obj))))
    ensures r.0.Some? && ReturnsObject(c) ==>
      r.0.value == ObjectResult(ObjectValue(Known, MaintenanceWindowTypes, ObjectFields(c, Attributes(obj))))
  {
    var attrs := Attributes(obj);
    var diags := FieldErrors(AttrTypes(c), attrs, ReadOrder(c));
    FieldErrorsEmpty(AttrTypes(c), attrs, ReadOrder(c));
    if diags != [] then (None, diags)
    else if ReturnsObject(c) then
      MaintenanceWindowFieldsMatch(c, attrs);
      var (obj, d) := NewObject(MaintenanceWindowTypes, ObjectFields(c, attrs));
      (Some(ObjectResult(obj)), d)
    else (Some(EntityResult(EntityValue(ObjectTarget(c), Known, ObjectFields(c, attrs)))), [])
  }

  /** The three integers a maintenance window reads make an object of the maintenance window's type. */
  lemma MaintenanceWindowFieldsMatch(c: Custom, attrs: map<string, Value>)
    requires ReturnsObject(c) && Fits(AttrTypes(c), attrs, ReadOrder(c))
    ensures AttrsMatch(MaintenanceWindowTypes, ObjectFields(c, attrs))
  {
    var order := ReadOrder(c);
    assert order == ["day_of_week", "start_hour", "start_minute"];
    assert AttrTypes(c) == MaintenanceWindowTypes && AttrTypes(ObjectTarget(c)) == MaintenanceWindowTypes;
    assert order[0] in attrs && order[1] in attrs && order[2] in attrs;
    assert attrs["day_of_week"].Int64Value? && attrs["start_hour"].Int64Value?;
    assert attrs["start_minute"].Int64Value?;
    WindowFieldsRead(attrs);
  }

  lemma WindowFieldsRead(attrs: map<string, Value>)
    requires "day_of_week" in attrs && attrs["day_of_week"].Int64Value?
    requires "start_hour" in attrs && attrs["start_hour"].Int64Value?
    requires "start_minute" in attrs && attrs["start_minute"].Int64Value?
    ensures var order := ["day_of_week", "start_hour", "start_minute"];
      AttrsMatch(MaintenanceWindowTypes,
        map n | n in MaintenanceWindowTypes ::
          if n in order && n in attrs then attrs[n] else Zero(MaintenanceWindowTypes[n]))
  {
  }

  // ---------------------------------------------------------------------
  // ToObjectValue

  /**
   * The nested object attributes `ToObjectValue` rebuilds, with the
   * attribute types it rebuilds each with: every object attribute of the
   * table (recovery and scheduled backups of the application configs, the
   * two networking objects of the version-2 one, the schedule of scheduled
   * backups, the maintenance window of the service configs).
   */
  function Nested(c: Custom): (m: map<string, map<string, AttrType>>)
    ensures forall n | n in m :: n in AttrTypes(c) && AttrTypes(c)[n] == ObjectType(m[n])
  {
    var ts := AttrTypes(c);
    map n | n in ts && ts[n].ObjectType? :: ts[n].attrTypes
  }

  /** A field the table declares with an object type is nested. */
  lemma NestedHas(c: Custom, n: string)
    requires n in AttrTypes(c) && AttrTypes(c)[n].ObjectType?
    ensures n in Nested(c)
  {
  }

  /**
   * One nested object rebuilt: `types.ObjectNull(ts)` if it is null,
   * `types.ObjectUnknown(ts)` if unknown, and `types.ObjectValueMust(ts,
   * attributes)` otherwise, which panics unless the attributes match.
   */
  function Rebuild(v: Value, ts: map<string, AttrType>): (r: Outcome<Value>)
    ensures r.Panicked? <==> v.state == Known && !AttrsMatch(ts, Attributes(v))
    ensures r.Returned? ==> r.value.state == v.state && r.value.ObjectValue? && r.value.attrTypes == ts
    ensures r.Returned? && v.state == Known ==> r.value.attrs == Attributes(v)
  {
    if v.state == Null then Returned(NullOf(ObjectType(ts)))
    else if v.state == Unknown then Returned(UnknownOf(ObjectType(ts)))
    else NewObjectMust(ts, Attributes(v))
  }

  /** Every nested object of `e` that `nested` names can be rebuilt with the types it gives. */
  predicate RebuildsOver(nested: map<string, map<string, AttrType>>, e: EntityValue)
  {
    forall n | n in nested :: Rebuild(Field(e, n), nested[n]).Returned?
  }

  /** Some nested object of `e` cannot be rebuilt. */
  predicate RebuildPanics(e: EntityValue)
  {
    !RebuildsOver(Nested(e.custom), e)
  }

  /** The fields of `e` for the names in `ts`, those that `nested` names rebuilt. */
  function RebuiltOver(ts: map<string, AttrType>, nested: map<string, map<string, AttrType>>, e: EntityValue): (m: map<string, Value>)
    requires RebuildsOver(nested, e)
    ensures m.Keys == ts.Keys
  {
    map n | n in ts :: if n in nested then Rebuild(Field(e, n), nested[n]).value else Field(e, n)
  }

  /** The attribute values `ToObjectValue` passes on: its fields, with the nested objects rebuilt. */
  function Rebuilt(e: EntityValue): (m: map<string, Value>)
    requires !RebuildPanics(e)
    ensures m.Keys == AttrTypes(e.custom).Keys
  {
    RebuiltOver(AttrTypes(e.custom), Nested(e.custom), e)
  }

  /** Nested objects that are well formed and of their nested types are rebuilt as they are. */
  lemma OverTyped(ts: map<string, AttrType>, nested: map<string, map<string, AttrType>>, e: EntityValue)
    requires e.fields.Keys == ts.Keys
    requires forall n | n in nested ::
      n in e.fields && WellFormed(e.fields[n]) && TypeOf(e.fields[n]) == ObjectType(nested[n])
    ensures RebuildsOver(nested, e) && RebuiltOver(ts, nested, e) == e.fields
  {
    forall n | n in nested
      ensures Rebuild(Field(e, n), nested[n]) == Returned(e.fields[n])
    {
      RebuildTyped(e.fields[n], nested[n]);
    }
    var m := RebuiltOver(ts, nested, e);
    forall n | n in m ensures m[n] == e.fields[n] {
    }
  }

  /** Rebuilding keeps the plain fields and gives every nested object its nested types. */
  lemma OverMatches(ts: map<string, AttrType>, nested: map<string, map<string, AttrType>>, e: EntityValue)
    requires forall n | n in nested :: n in ts && ts[n] == ObjectType(nested[n])
    requires e.fields.Keys == ts.Keys
    requires forall n | n in e.fields && n !in nested :: TypeOf(e.fields[n]) == ts[n]
    requires RebuildsOver(nested, e)
    ensures AttrsMatch(ts, RebuiltOver(ts, nested, e))
  {
    var m := RebuiltOver(ts, nested, e);
    forall k | k in ts
      ensures k in m && TypeOf(m[k]) == ts[k]
    {
      if k in nested {
        assert TypeOf(m[k]) == ObjectType(nested[k]);
      } else {
        assert m[k] == e.fields[k];
      }
    }
  }

  /** One null nested object among typed ones is rebuilt as the null object of its nested types. */
  lemma OverExcept(ts: map<string, AttrType>, nested: map<string, map<string, AttrType>>, e: EntityValue, k: string)
    requires e.fields.Keys == ts.Keys && k in nested && k in ts
    requires forall n | n in nested && n != k ::
      n in e.fields && WellFormed(e.fields[n]) && TypeOf(e.fields[n]) == ObjectType(nested[n])
    requires e.fields[k].ObjectValue? && e.fields[k].state == Null
    ensures RebuildsOver(nested, e)
    ensures RebuiltOver(ts, nested, e) == e.fields[k := NullOf(ObjectType(nested[k]))]
  {
    forall n | n in nested
      ensures Rebuild(Field(e, n), nested[n]) ==
        Returned(if n == k then NullOf(ObjectType(nested[k])) else e.fields[n])
    {
      if n != k {
        RebuildTyped(e.fields[n], nested[n]);
      }
    }
    var m := RebuiltOver(ts, nested, e);
    var target := e.fields[k := NullOf(ObjectType(nested[k]))];
    forall n | n in m ensures m[n] == target[n] {
    }
    assert m == target;
  }

  /**
   * `XValue.ToObjectValue(ctx)`. It never looks at the value's own state:
   * the nested objects are rebuilt, the service config's `remote_ips` list
   * is rebuilt from its elements (an error there gives an unknown object and
   * that list's diagnostics), and the result is `types.ObjectValue` over the
   * table.
   */
  function ToObjectValue(e: EntityValue): (r: Outcome<(Value, seq<Diagnostic>)>)
    ensures r.Panicked? <==> RebuildPanics(e)
    ensures r.Returned? ==> r.value.0.ObjectValue? && r.value.0.attrTypes == AttrTypes(e.custom)
    ensures r.Returned? ==> (r.value.0.state == Known <==> !HasError(r.value.1))
    ensures r.Returned? && r.value.0.state != Known ==> r.value.0 == UnknownOf(WireType(e.custom))
    ensures r.Returned? && r.value.0.state == Known ==>
      forall n | n in Nested(e.custom) :: n in r.value.0.attrs && r.value.0.attrs[n].state == Field(e, n).state
  {
    var ts := AttrTypes(e.custom);
    if RebuildPanics(e) then Panicked
    else if e.custom == ServiceConfigV1 then
      var (ips, d) := NewList(StringType, Elements(Field(e, "remote_ips")));
      if HasError(d) then Returned((UnknownOf(ObjectType(ts)), d))
      else Returned(NewObject(ts, Rebuilt(e)["remote_ips" := ips]))
    else Returned(NewObject(ts, Rebuilt(e)))
  }

  // ---------------------------------------------------------------------
  // Object round trips

  /** A well-formed object of the attribute types comes back unchanged from `Rebuild`. */
  lemma RebuildTyped(v: Value, ts: map<string, AttrType>)
    requires WellFormed(v) && TypeOf(v) == ObjectType(ts)
    ensures Rebuild(v, ts) == Returned(v)
  {
  }

  /** Rebuilding the nested objects of a typed value gives back its fields. */
  lemma RebuiltTyped(e: EntityValue)
    requires Typed(e)
    ensures !RebuildPanics(e)
    ensures Rebuilt(e) == e.fields
  {
    var ts, nested := AttrTypes(e.custom), Nested(e.custom);
    forall n | n in nested
      ensures n in e.fields && WellFormed(e.fields[n]) && TypeOf(e.fields[n]) == ObjectType(nested[n])
    {
    }
    OverTyped(ts, nested, e);
  }

  /**
   * A typed value becomes the known object of its own table holding exactly
   * its fields, whatever its own state; the service config's `remote_ips`
   * must be known for that, since a null list comes back as a known empty one.
   */
  lemma ToObjectValueOfTyped(e: EntityValue)
    requires Typed(e)
    requires e.custom == ServiceConfigV1 ==> Field(e, "remote_ips").state == Known
    ensures ToObjectValue(e) == Returned((ObjectValue(Known, AttrTypes(e.custom), e.fields), []))
  {
    RebuiltTyped(e);
    var ts := AttrTypes(e.custom);
    if e.custom == ServiceConfigV1 {
      assert ts == ServiceConfigTypes && "remote_ips" in ts;
      ServiceConfigRemoteIps(e);
    }
    assert ToObjectValue(e) == Returned(NewObject(ts, e.fields));
  }

  /**
   * A struct literal whose plain fields have the table's types and whose
   * nested objects are objects, known ones holding attributes of the nested
   * types, becomes a known object of its table whatever its own state. Its
   * attributes are the fields with the nested objects rebuilt: same state,
   * the table's attribute types.
   */
  lemma ToObjectValueOfFields(e: EntityValue)
    requires e.fields.Keys == AttrTypes(e.custom).Keys
    requires forall n | n in e.fields && n !in Nested(e.custom) :: TypeOf(e.fields[n]) == AttrTypes(e.custom)[n]
    requires forall n | n in Nested(e.custom) ::
      e.fields[n].ObjectValue? && (e.fields[n].state == Known ==> AttrsMatch(Nested(e.custom)[n], e.fields[n].attrs))
    requires e.custom == ServiceConfigV1 ==> Field(e, "remote_ips").state == Known && WellFormed(Field(e, "remote_ips"))
    ensures !RebuildPanics(e)
    ensures ToObjectValue(e) == Returned((ObjectValue(Known, AttrTypes(e.custom), Rebuilt(e)), []))
  {
    RebuildsFields(e);
    RebuiltMatches(e);
    if e.custom == ServiceConfigV1 {
      ServiceConfigRemoteIps(e);
    }
  }

  /** Nested fields that are objects, known ones with attributes of the nested types, all rebuild. */
  lemma RebuildsFields(e: EntityValue)
    requires e.fields.Keys == AttrTypes(e.custom).Keys
    requires forall n | n in Nested(e.custom) ::
      e.fields[n].ObjectValue? && (e.fields[n].state == Known ==> AttrsMatch(Nested(e.custom)[n], e.fields[n].attrs))
    ensures !RebuildPanics(e)
  {
    var nested := Nested(e.custom);
    forall n | n in nested
      ensures Rebuild(Field(e, n), nested[n]).Returned?
    {
      assert Field(e, n) == e.fields[n];
    }
  }

  /** With the plain fields of the table's types, the rebuilt attributes match the table. */
  lemma RebuiltMatches(e: EntityValue)
    requires e.fields.Keys == AttrTypes(e.custom).Keys
    requires forall n | n in e.fields && n !in Nested(e.custom) :: TypeOf(e.fields[n]) == AttrTypes(e.custom)[n]
    requires !RebuildPanics(e)
    ensures AttrsMatch(AttrTypes(e.custom), Rebuilt(e))
  {
    OverMatches(AttrTypes(e.custom), Nested(e.custom), e);
  }

  /** A known well-formed `remote_ips` list is rebuilt as itself. */
  lemma ServiceConfigRemoteIps(e: EntityValue)
    requires e.custom == ServiceConfigV1 && e.fields.Keys == ServiceConfigTypes.Keys
    requires TypeOf(e.fields["remote_ips"]) == ListType(StringType)
    requires Field(e, "remote_ips").state == Known && WellFormed(Field(e, "remote_ips"))
    requires !RebuildPanics(e)
    ensures NewList(StringType, Elements(Field(e, "remote_ips"))) == (Field(e, "remote_ips"), [])
    ensures Rebuilt(e)["remote_ips" := Field(e, "remote_ips")] == Rebuilt(e)
  {
    var ips := Field(e, "remote_ips");
    assert "remote_ips" !in Nested(ServiceConfigV1);
    assert Rebuilt(e)["remote_ips"] == ips;
  }

  /**
   * The attributes `ToObjectValue` passes on for a null or unknown value:
   * null objects of the nested types, and zero values elsewhere, which have
   * the table's types except for the lists.
   */
  lemma AbsentRebuilt(c: Custom, st: State)
    requires st != Known
    ensures !RebuildPanics(EntityValue(c, st, ZeroFields(c)))
    ensures forall n | n in AttrTypes(c) && !AttrTypes(c)[n].ListType? ::
      TypeOf(Rebuilt(EntityValue(c, st, ZeroFields(c)))[n]) == AttrTypes(c)[n]
  {
    AbsentRebuildsNothing(c, st);
    forall n | n in AttrTypes(c) && !AttrTypes(c)[n].ListType?
      ensures TypeOf(Rebuilt(EntityValue(c, st, ZeroFields(c)))[n]) == AttrTypes(c)[n]
    {
      AbsentRebuiltField(c, st, n);
    }
  }

  /** Every nested object of a null or unknown value is null, and rebuilds. */
  lemma AbsentRebuildsNothing(c: Custom, st: State)
    ensures !RebuildPanics(EntityValue(c, st, ZeroFields(c)))
  {
    var e := EntityValue(c, st, ZeroFields(c));
    forall n | n in Nested(c)
      ensures Field(e, n).state == Null
    {
    }
  }

  lemma AbsentRebuiltField(c: Custom, st: State, n: string)
    requires n in AttrTypes(c) && !AttrTypes(c)[n].ListType?
    requires !RebuildPanics(EntityValue(c, st, ZeroFields(c)))
    ensures TypeOf(Rebuilt(EntityValue(c, st, ZeroFields(c)))[n]) == AttrTypes(c)[n]
  {
    var e := EntityValue(c, st, ZeroFields(c));
    var ts, nested := AttrTypes(c), Nested(c);
    TableTypesDeclared(c);
    assert ts[n] != NoType && ZeroFields(c)[n] == Zero(ts[n]);
    OverAbsentAt(ts, nested, e, n);
  }

  /** A zero field that is not a list has its attribute's type once rebuilt. */
  lemma OverAbsentAt(ts: map<string, AttrType>, nested: map<string, map<string, AttrType>>, e: EntityValue, n: string)
    requires forall m | m in nested :: m in ts && ts[m] == ObjectType(nested[m])
    requires RebuildsOver(nested, e) && e.fields.Keys == ts.Keys
    requires n in ts && !ts[n].ListType? && ts[n] != NoType && e.fields[n] == Zero(ts[n])
    requires ts[n].ObjectType? ==> n in nested
    ensures TypeOf(RebuiltOver(ts, nested, e)[n]) == ts[n]
  {
    if n in nested {
      assert Field(e, n).state == Null;
    } else {
      assert RebuiltOver(ts, nested, e)[n] == Zero(ts[n]);
    }
  }

  /** `ToObjectValue` of a null or unknown service config is known, with a known empty `remote_ips` list. */
  lemma AbsentServiceConfigObject(st: State)
    requires st != Known
    ensures ToObjectValue(NullValue(ServiceConfigV1).(state := st)).Returned?
    ensures var (obj, diags) := ToObjectValue(NullValue(ServiceConfigV1).(state := st)).value;
      obj.state == Known && diags == [] && obj.attrs["remote_ips"] == ListValue(Known, StringType, [])
  {
    var e := NullValue(ServiceConfigV1).(state := st);
    AbsentRebuilt(ServiceConfigV1, st);
    var ips := ListValue(Known, StringType, []);
    AbsentRemoteIps(st);
    var m := Rebuilt(e)["remote_ips" := ips];
    ServiceConfigAbsentMatches(Rebuilt(e), ips);
    assert AttrTypes(ServiceConfigV1) == ServiceConfigTypes;
    assert ToObjectValue(e) == Returned(NewObject(ServiceConfigTypes, m));
  }

  /** The zero `remote_ips` list of a null or unknown service config is rebuilt as a known empty list. */
  lemma AbsentRemoteIps(st: State)
    ensures NewList(StringType, Elements(Field(NullValue(ServiceConfigV1).(state := st), "remote_ips"))) ==
      (ListValue(Known, StringType, []), [])
  {
    assert "remote_ips" in ServiceConfigTypes && ServiceConfigTypes["remote_ips"] == ListType(StringType);
    assert ZeroFields(ServiceConfigV1)["remote_ips"] == ListValue(Null, NoType, []);
  }

  lemma ServiceConfigAbsentMatches(rebuilt: map<string, Value>, ips: Value)
    requires forall n | n in ServiceConfigTypes && !ServiceConfigTypes[n].ListType? ::
      n in rebuilt && TypeOf(rebuilt[n]) == ServiceConfigTypes[n]
    requires rebuilt.Keys == ServiceConfigTypes.Keys && TypeOf(ips) == ListType(StringType)
    ensures AttrsMatch(ServiceConfigTypes, rebuilt["remote_ips" := ips])
  {
    var m := rebuilt["remote_ips" := ips];
    forall n | n in ServiceConfigTypes
      ensures n in m && TypeOf(m[n]) == ServiceConfigTypes[n]
    {
      if n != "remote_ips" {
        assert !ServiceConfigTypes[n].ListType?;
      }
    }
  }

  /**
   * A null or unknown networking value cannot be turned into an object: its
   * zero `allowed_cidrs` list has no element type.
   */
  lemma AbsentNetworkObjectFails(c: Custom, st: State)
    requires c == PrivateNetworkConfigV2 || c == PublicNetworkConfigV2
    requires st != Known
    ensures ToObjectValue(EntityValue(c, st, ZeroFields(c))).Returned?
    ensures var (obj, diags) := ToObjectValue(EntityValue(c, st, ZeroFields(c))).value;
      obj == UnknownOf(WireType(c)) && HasError(diags)
  {
    var e := EntityValue(c, st, ZeroFields(c));
    AbsentRebuildsNothing(c, st);
    AbsentCidrsRebuilt(c, st);
    ToObjectValueMismatch(e);
  }

  /** Rebuilt attributes that do not match the table give an unknown object and an error. */
  lemma ToObjectValueMismatch(e: EntityValue)
    requires e.custom != ServiceConfigV1 && !RebuildPanics(e)
    requires !AttrsMatch(AttrTypes(e.custom), Rebuilt(e))
    ensures ToObjectValue(e).Returned?
    ensures ToObjectValue(e).value.0 == UnknownOf(WireType(e.custom)) && HasError(ToObjectValue(e).value.1)
  {
    assert ToObjectValue(e) == Returned(NewObject(AttrTypes(e.custom), Rebuilt(e)));
  }

  /**
   * The zero `allowed_cidrs` list of a null or unknown networking value is
   * passed on as it is, without the element type the table declares.
   */
  lemma AbsentCidrsRebuilt(c: Custom, st: State)
    requires c == PrivateNetworkConfigV2 || c == PublicNetworkConfigV2
    requires !RebuildPanics(EntityValue(c, st, ZeroFields(c)))
    ensures !AttrsMatch(AttrTypes(c), Rebuilt(EntityValue(c, st, ZeroFields(c))))
  {
    var e := EntityValue(c, st, ZeroFields(c));
    var ts, nested := AttrTypes(c), Nested(c);
    AbsentCidrsField(c);
    OverMismatch(ts, nested, e, "allowed_cidrs");
  }

  lemma AbsentCidrsField(c: Custom)
    requires c == PrivateNetworkConfigV2 || c == PublicNetworkConfigV2
    ensures "allowed_cidrs" in AttrTypes(c) && AttrTypes(c)["allowed_cidrs"] == ListType(StringType)
    ensures "allowed_cidrs" !in Nested(c)
    ensures ZeroFields(c)["allowed_cidrs"] == ListValue(Null, NoType, [])
  {
    assert "allowed_cidrs" in AttrTypes(c) && AttrTypes(c)["allowed_cidrs"] == ListType(StringType);
  }

  /** A field that is not a nested object is passed on as it is, so one of the wrong type stays wrong. */
  lemma OverMismatch(ts: map<string, AttrType>, nested: map<string, map<string, AttrType>>, e: EntityValue, n: string)
    requires RebuildsOver(nested, e) && n in ts && n !in nested && TypeOf(Field(e, n)) != ts[n]
    ensures !AttrsMatch(ts, RebuiltOver(ts, nested, e))
  {
    assert RebuiltOver(ts, nested, e)[n] == Field(e, n);
  }

  /** The attributes `ValueFromObject` reads are attributes of its table. */
  lemma ReadOrderInTable(c: Custom)
    ensures forall i | 0 <= i < |ReadOrder(c)| :: ReadOrder(c)[i] in AttrTypes(c)
  {
    FieldOrderIsTable(c);
    forall i | 0 <= i < |ReadOrder(c)|
      ensures ReadOrder(c)[i] in AttrTypes(c)
    {
      if c != ApplicationConfigV2 {
        assert ReadOrder(c)[i] in FieldOrder(c);
      }
    }
  }

  /** A typed value's fields fit every reading order of its table. */
  lemma TypedFits(e: EntityValue)
    requires Typed(e)
    ensures Fits(AttrTypes(e.custom), e.fields, ReadOrder(e.custom))
  {
    ReadOrderInTable(e.custom);
    forall n | n in e.fields
      ensures SameKind(e.fields[n], AttrTypes(e.custom)[n])
    {
    }
  }

  /**
   * `ValueFromObject` inverts `ToObjectValue` on typed values, except for
   * the version-2 application config: the scheduled backups and schedule
   * types give back the version-1 value with the same fields, and the
   * maintenance windows the object itself.
   */
  lemma FromObjectInvertsToObject(e: EntityValue)
    requires Typed(e) && e.custom != ApplicationConfigV2
    requires e.custom == ServiceConfigV1 ==> Field(e, "remote_ips").state == Known
    ensures ToObjectValue(e).Returned?
    ensures !ReturnsObject(e.custom) ==>
      ValueFromObject(e.custom, ToObjectValue(e).value.0) ==
        (Some(EntityResult(EntityValue(ObjectTarget(e.custom), Known, e.fields))), [])
    ensures ReturnsObject(e.custom) ==>
      ValueFromObject(e.custom, ToObjectValue(e).value.0) == (Some(ObjectResult(ToObjectValue(e).value.0)), [])
  {
    ToObjectValueOfTyped(e);
    var obj := ObjectValue(Known, AttrTypes(e.custom), e.fields);
    assert Attributes(obj) == e.fields;
    TypedFits(e);
    ObjectFieldsOfTyped(e.custom, e.fields);
    if ReturnsObject(e.custom) {
      WindowFromObject(e.custom, e.fields);
    }
  }

  /** A maintenance window object holding the table's attributes is handed back as it is. */
  lemma WindowFromObject(c: Custom, fields: map<string, Value>)
    requires ReturnsObject(c)
    requires Fits(AttrTypes(c), fields, ReadOrder(c)) && ObjectFields(c, fields) == fields
    ensures ValueFromObject(c, ObjectValue(Known, AttrTypes(c), fields)) ==
      (Some(ObjectResult(ObjectValue(Known, AttrTypes(c), fields))), [])
  {
    assert AttrTypes(c) == MaintenanceWindowTypes;
    assert Attributes(ObjectValue(Known, AttrTypes(c), fields)) == fields;
  }

  /** Where every attribute is read, the value built holds exactly the attributes read. */
  lemma ObjectFieldsOfTyped(c: Custom, fields: map<string, Value>)
    requires c != ApplicationConfigV2 && fields.Keys == AttrTypes(c).Keys
    ensures ObjectFields(c, fields) == fields
  {
    FieldOrderIsTable(c);
    assert AttrTypes(ObjectTarget(c)) == AttrTypes(c) && ReadOrder(c) == FieldOrder(c);
    ReadsAll(AttrTypes(c), FieldOrder(c), fields);
  }

  /** Reading every listed attribute of a table gives back the attributes themselves. */
  lemma ReadsAll(ts: map<string, AttrType>, order: seq<string>, attrs: map<string, Value>)
    requires Lists(order, ts) && attrs.Keys == ts.Keys
    ensures (map n | n in ts :: if n in order && n in attrs then attrs[n] else Zero(ts[n])) == attrs
  {
    var f := map n | n in ts :: if n in order && n in attrs then attrs[n] else Zero(ts[n]);
    assert f.Keys == attrs.Keys;
    forall n | n in attrs ensures f[n] == attrs[n] {
      assert n in order;
    }
  }

  /**
   * The version-2 application config loses its networking on the way
   * through an object: `ValueFromObject` leaves both networking attributes
   * as zero, and the value it builds then fails to encode.
   */
  lemma ApplicationConfigV2LosesNetworking(e: EntityValue)
    requires Typed(e) && e.custom == ApplicationConfigV2
    ensures ToObjectValue(e).Returned?
    ensures var r := ValueFromObject(ApplicationConfigV2, ToObjectValue(e).value.0).0;
      && r == Some(EntityResult(EntityValue(ApplicationConfigV2, Known,
           e.fields["private_networking" := ObjectValue(Null, map[], map[])]
                   ["public_networking" := ObjectValue(Null, map[], map[])])))
      && Encoded(r.value.entity) == Returned(Encoding(AbsentTree(ApplicationConfigV2, Unknown), true))
  {
    ApplicationConfigV2FromObject(e);
    var f := ObjectFields(ApplicationConfigV2, e.fields);
    ZeroNetworkingFailsEncoding(EntityValue(ApplicationConfigV2, Known, f));
  }

  /** What `ValueFromObject` builds from the object of a version-2 application config. */
  lemma ApplicationConfigV2FromObject(e: EntityValue)
    requires Typed(e) && e.custom == ApplicationConfigV2
    ensures ToObjectValue(e).Returned?
    ensures ValueFromObject(ApplicationConfigV2, ToObjectValue(e).value.0).0 ==
      Some(EntityResult(EntityValue(ApplicationConfigV2, Known, ObjectFields(ApplicationConfigV2, e.fields))))
    ensures ObjectFields(ApplicationConfigV2, e.fields) ==
      e.fields["private_networking" := ObjectValue(Null, map[], map[])]
              ["public_networking" := ObjectValue(Null, map[], map[])]
  {
    ToObjectValueOfTyped(e);
    var obj := ObjectValue(Known, AttrTypes(e.custom), e.fields);
    assert Attributes(obj) == e.fields;
    TypedFits(e);
    ApplicationConfigV2ObjectFields(e.fields);
  }

  /** `ValueFromObject` of the version-2 application config zeroes the two networking attributes. */
  lemma ApplicationConfigV2ObjectFields(fields: map<string, Value>)
    requires fields.Keys == ApplicationConfigV2Types.Keys
    ensures ObjectFields(ApplicationConfigV2, fields) ==
      fields["private_networking" := ObjectValue(Null, map[], map[])]
            ["public_networking" := ObjectValue(Null, map[], map[])]
  {
    var f := ObjectFields(ApplicationConfigV2, fields);
    var g := fields["private_networking" := ObjectValue(Null, map[], map[])]
                   ["public_networking" := ObjectValue(Null, map[], map[])];
    assert f.Keys == ApplicationConfigV2Types.Keys;
    forall n | n in ApplicationConfigV2Types
      ensures f[n] == g[n]
    {
      if n == "private_networking" || n == "public_networking" {
        NetworkingNotRead(fields, n);
      } else {
        OtherFieldsRead(fields, n);
      }
    }
  }

  lemma NetworkingNotRead(fields: map<string, Value>, n: string)
    requires n == "private_networking" || n == "public_networking"
    ensures ObjectFields(ApplicationConfigV2, fields)[n] == ObjectValue(Null, map[], map[])
  {
    assert n !in ReadOrder(ApplicationConfigV2);
    assert ApplicationConfigV2Types[n].ObjectType?;
  }

  lemma OtherFieldsRead(fields: map<string, Value>, n: string)
    requires fields.Keys == ApplicationConfigV2Types.Keys
    requires n in ApplicationConfigV2Types && n != "private_networking" && n != "public_networking"
    ensures ObjectFields(ApplicationConfigV2, fields)[n] == fields[n]
  {
    assert n in ReadOrder(ApplicationConfigV2);
  }

  /** A known version-2 application config with a zero private networking object fails to encode. */
  lemma ZeroNetworkingFailsEncoding(v: EntityValue)
    requires v.custom == ApplicationConfigV2 && v.state == Known
    requires Field(v, "private_networking") == ObjectValue(Null, map[], map[])
    ensures Encoded(v) == Returned(Encoding(AbsentTree(ApplicationConfigV2, Unknown), true))
  {
    var ts := AttrTypes(ApplicationConfigV2);
    assert Validates(ApplicationConfigV2);
    if AllEncode(v, ts) {
      var vals := EncodedAttributes(v, ts);
      assert Encode(Field(v, "private_networking")) == Ok(vals["private_networking"]);
      ZeroPrivateNotValid(vals);
    }
  }

  /** An empty private networking tree does not fit the version-2 application config's object type. */
  lemma ZeroPrivateNotValid(vals: map<string, Tree>)
    requires "private_networking" in vals && vals["private_networking"] == Encode(ObjectValue(Null, map[], map[])).value
    ensures !ValidFields(AttrTypes(ApplicationConfigV2), vals)
  {
    assert "enabled" in PrivateNetworkConfigTypes;
    assert vals["private_networking"].ty == ObjectType(map[]);
    assert AttrTypes(ApplicationConfigV2)["private_networking"] == ObjectType(PrivateNetworkConfigTypes);
  }

  // ---------------------------------------------------------------------
  // Equal

  /**
   * `XValue.Equal(o)`: `o` must be a value of the same Go type and state,
   * and a known one must agree attribute by attribute under the
   * framework's `Equal`.
   */
  predicate Equal(e: EntityValue, o: Objectable)
  {
    && o.EntityResult? && o.entity.custom == e.custom && o.entity.state == e.state
    && (e.state == Known ==>
          forall n | n in AttrTypes(e.custom) :: ValueEqual(Field(e, n), Field(o.entity, n)))
  }

  /** On well-formed values `Equal` is exactly equality. */
  lemma EqualIsEquality(e: EntityValue, o: Objectable)
    requires EntityWellFormed(e)
    requires o.EntityResult? ==> EntityWellFormed(o.entity)
    ensures Equal(e, o) <==> o == EntityResult(e)
  {
    if o.EntityResult? && o.entity.custom == e.custom && o.entity.state == e.state && e.state == Known {
      var f := o.entity.fields;
      forall n | n in AttrTypes(e.custom)
        ensures ValueEqual(Field(e, n), Field(o.entity, n)) <==> e.fields[n] == f[n]
      {
        ValueEqualIsEquality(e.fields[n], f[n]);
      }
      if Equal(e, o) {
        assert e.fields == f;
      }
    }
  }

  /**
   * The Go type of the value a type's `Type(ctx)` returns: the version-2
   * application config, recovery and schedule values report the version-1
   * type.
   */
  function ValueTypeKind(c: Custom): Custom
  {
    match c
    case ApplicationConfigV2 => ApplicationConfigV1
    case RecoveryV2 => RecoveryV1
    case ScheduleV2 => ScheduleV1
    case _ => c
  }

  /** `XValue.Type(ctx)`: the reported Go type, over the value's own attribute types. */
  function ValueType(e: EntityValue): CustomType
  {
    CustomType(ValueTypeKind(e.custom), AttrTypes(e.custom))
  }

  /**
   * The Go type `XType.Equal` asserts the other type to be: the version-2
   * recovery and service config types assert the version-1 type.
   */
  function TypeAssertedBy(c: Custom): Custom
  {
    match c
    case RecoveryV2 => RecoveryV1
    case ServiceConfigV2 => ServiceConfigV1
    case _ => c
  }

  /** `XType.Equal(o)`: `o` is of the asserted Go type and the object types agree. */
  predicate TypeEqual(t: CustomType, o: CustomType)
  {
    o.kind == TypeAssertedBy(t.kind) && o.attrTypes == t.attrTypes
  }

  /** A type is equal to itself except for the version-2 recovery and service config types. */
  lemma TypeEqualReflexive(t: CustomType)
    ensures TypeEqual(t, t) <==> t.kind != RecoveryV2 && t.kind != ServiceConfigV2
  {
  }

  /**
   * The type a value reports equals the type it was made for, except for
   * the version-2 application config, schedule and service config values.
   * The first two report the version-1 type; the service config reports its
   * own type, which its `Equal` rejects. The version-2 recovery value reports
   * the version-1 type too, which its type's `Equal` accepts.
   */
  lemma ValueTypeMatches(e: EntityValue)
    ensures TypeEqual(TypeFor(e.custom), ValueType(e)) <==>
      e.custom !in {ApplicationConfigV2, ScheduleV2, ServiceConfigV2}
  {
  }
}
