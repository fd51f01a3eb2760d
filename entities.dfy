/**
 * The generated object values of the provider: application config,
 * recovery, scheduled backups, schedule, service config, maintenance window
 * and the private and public networking configs, in both schema versions.
 * Every Go value type is one record of framework attributes plus a hidden
 * state; here they share one engine driven by a field table per type.
 */
module Entities {
  import opened Framework

  /** The generated Go value types (`ApplicationConfigValue`, `ApplicationConfigValueV2`, ...). */
  datatype Custom =
    | ApplicationConfigV1 | ApplicationConfigV2
    | RecoveryV1 | RecoveryV2
    | ScheduledBackupsV1 | ScheduledBackupsV2
    | ScheduleV1 | ScheduleV2
    | ServiceConfigV1 | ServiceConfigV2
    | MaintenanceWindowV1 | MaintenanceWindowV2
    | PrivateNetworkConfigV2 | PublicNetworkConfigV2

  /** The type name the constructors put into their diagnostic summaries. */
  function MessageName(c: Custom): string
  {
    match c
    case ApplicationConfigV1 | ApplicationConfigV2 => "ApplicationConfigValue"
    case RecoveryV1 | RecoveryV2 => "RecoveryValue"
    case ScheduledBackupsV1 | ScheduledBackupsV2 => "ScheduledBackupsValue"
    case ScheduleV1 | ScheduleV2 => "ScheduleValue"
    case ServiceConfigV1 | ServiceConfigV2 => "ServiceConfigValue"
    case MaintenanceWindowV1 | MaintenanceWindowV2 => "MaintenanceWindowValue"
    case PrivateNetworkConfigV2 => "PrivateNetworkConfigValueV2"
    case PublicNetworkConfigV2 => "PublicNetworkConfigValueV2"
  }

  // The `AttributeTypes` tables. Recovery, schedule, scheduled backups and
  // maintenance window have the same table in both versions.

  const RecoveryTypes: map<string, AttrType> := map[
    "exclusive" := BoolType, "source" := StringType, "target_lsn" := StringType,
    "target_name" := StringType, "target_time" := StringType, "target_xid" := StringType]

  const ScheduleTypes: map<string, AttrType> := map["hour" := Int64Type, "minute" := Int64Type]

  const ScheduledBackupsTypes: map<string, AttrType> := map[
    "retention" := Int64Type, "schedule" := ObjectType(ScheduleTypes)]

  const PrivateNetworkConfigTypes: map<string, AttrType> := map[
    "enabled" := BoolType, "hostname" := StringType, "ip_address" := StringType,
    "shared_subnet_cidr" := StringType, "allowed_cidrs" := ListType(StringType),
    "shared_subnet_id" := StringType, "shared_network_id" := StringType]

  const PublicNetworkConfigTypes: map<string, AttrType> := map[
    "enabled" := BoolType, "hostname" := StringType, "ip_address" := StringType,
    "allowed_cidrs" := ListType(StringType)]

  const ApplicationConfigTypes: map<string, AttrType> := map[
    "hostname" := StringType, "instances" := Int64Type, "ip_address" := StringType,
    "password" := StringType, "recovery" := ObjectType(RecoveryTypes),
    "scheduled_backups" := ObjectType(ScheduledBackupsTypes),
    "type" := StringType, "version" := StringType]

  const ApplicationConfigV2Types: map<string, AttrType> := map[
    "instances" := Int64Type, "password" := StringType,
    "recovery" := ObjectType(RecoveryTypes),
    "scheduled_backups" := ObjectType(ScheduledBackupsTypes),
    "private_networking" := ObjectType(PrivateNetworkConfigTypes),
    "public_networking" := ObjectType(PublicNetworkConfigTypes),
    "type" := StringType, "version" := StringType]

  const MaintenanceWindowTypes: map<string, AttrType> := map[
    "day_of_week" := Int64Type, "start_hour" := Int64Type, "start_minute" := Int64Type]

  const ServiceConfigTypes: map<string, AttrType> := map[
    "disksize" := Int64Type, "flavor" := StringType,
    "maintenance_window" := ObjectType(MaintenanceWindowTypes),
    "region" := StringType, "remote_ips" := ListType(StringType), "type" := StringType]

  const ServiceConfigV2Types: map<string, AttrType> := map[
    "disksize" := Int64Type, "flavor" := StringType,
    "maintenance_window" := ObjectType(MaintenanceWindowTypes),
    "region" := StringType, "type" := StringType]

  /** `XValue{}.AttributeTypes(ctx)`. */
  function AttrTypes(c: Custom): map<string, AttrType>
  {
    match c
    case ApplicationConfigV1 => ApplicationConfigTypes
    case ApplicationConfigV2 => ApplicationConfigV2Types
    case RecoveryV1 | RecoveryV2 => RecoveryTypes
    case ScheduledBackupsV1 | ScheduledBackupsV2 => ScheduledBackupsTypes
    case ScheduleV1 | ScheduleV2 => ScheduleTypes
    case ServiceConfigV1 => ServiceConfigTypes
    case ServiceConfigV2 => ServiceConfigV2Types
    case MaintenanceWindowV1 | MaintenanceWindowV2 => MaintenanceWindowTypes
    case PrivateNetworkConfigV2 => PrivateNetworkConfigTypes
    case PublicNetworkConfigV2 => PublicNetworkConfigTypes
  }

  // The orders in which the generated code reads and writes the attributes.

  const ApplicationConfigOrder: seq<string> :=
    ["hostname", "instances", "ip_address", "password", "recovery", "scheduled_backups", "type", "version"]

  const ApplicationConfigV2Order: seq<string> :=
    ["instances", "password", "recovery", "scheduled_backups", "private_networking",
     "public_networking", "type", "version"]

  const RecoveryOrder: seq<string> := ["exclusive", "source", "target_lsn", "target_name", "target_time", "target_xid"]

  const ScheduledBackupsOrder: seq<string> := ["retention", "schedule"]

  const ScheduleOrder: seq<string> := ["hour", "minute"]

  const ServiceConfigOrder: seq<string> := ["disksize", "flavor", "maintenance_window", "region", "remote_ips", "type"]

  const ServiceConfigV2Order: seq<string> := ["disksize", "flavor", "maintenance_window", "region", "type"]

  const MaintenanceWindowOrder: seq<string> := ["day_of_week", "start_hour", "start_minute"]

  const PrivateNetworkConfigOrder: seq<string> :=
    ["enabled", "hostname", "ip_address", "shared_subnet_cidr", "allowed_cidrs",
     "shared_subnet_id", "shared_network_id"]

  const PublicNetworkConfigOrder: seq<string> := ["enabled", "hostname", "ip_address", "allowed_cidrs"]

  /** The order of the type's attributes. */
  function FieldOrder(c: Custom): seq<string>
  {
    match c
    case ApplicationConfigV1 => ApplicationConfigOrder
    case ApplicationConfigV2 => ApplicationConfigV2Order
    case RecoveryV1 | RecoveryV2 => RecoveryOrder
    case ScheduledBackupsV1 | ScheduledBackupsV2 => ScheduledBackupsOrder
    case ScheduleV1 | ScheduleV2 => ScheduleOrder
    case ServiceConfigV1 => ServiceConfigOrder
    case ServiceConfigV2 => ServiceConfigV2Order
    case MaintenanceWindowV1 | MaintenanceWindowV2 => MaintenanceWindowOrder
    case PrivateNetworkConfigV2 => PrivateNetworkConfigOrder
    case PublicNetworkConfigV2 => PublicNetworkConfigOrder
  }

  /** A sequence without repetitions. */
  predicate Distinct<T(==)>(s: seq<T>)
  {
    forall i, j | 0 <= i < j < |s| :: s[i] != s[j]
  }

  /** `order` lists exactly the attributes of `types`. */
  ghost predicate Lists(order: seq<string>, types: map<string, AttrType>)
  {
    forall n :: n in order <==> n in types
  }

  /** The read order lists exactly the attributes of the table. */
  lemma FieldOrderIsTable(c: Custom)
    ensures Lists(FieldOrder(c), AttrTypes(c))
  {
    var order, ts := FieldOrder(c), AttrTypes(c);
    match c
    case ApplicationConfigV1 => ApplicationConfigListed(order, ts);
    case ApplicationConfigV2 => ApplicationConfigV2Listed(order, ts);
    case RecoveryV1 | RecoveryV2 => RecoveryListed(order, ts);
    case ScheduledBackupsV1 | ScheduledBackupsV2 => ScheduledBackupsListed(order, ts);
    case ScheduleV1 | ScheduleV2 => ScheduleListed(order, ts);
    case ServiceConfigV1 => ServiceConfigListed(order, ts);
    case ServiceConfigV2 => ServiceConfigV2Listed(order, ts);
    case MaintenanceWindowV1 | MaintenanceWindowV2 => MaintenanceWindowListed(order, ts);
    case PrivateNetworkConfigV2 => PrivateNetworkConfigListed(order, ts);
    case PublicNetworkConfigV2 => PublicNetworkConfigListed(order, ts);
  }

  lemma ApplicationConfigListed(order: seq<string>, ts: map<string, AttrType>)
    requires order == ApplicationConfigOrder && ts == ApplicationConfigTypes
    ensures Lists(order, ts)
  {
  }

  lemma ApplicationConfigV2Listed(order: seq<string>, ts: map<string, AttrType>)
    requires order == ApplicationConfigV2Order && ts == ApplicationConfigV2Types
    ensures Lists(order, ts)
  {
  }

  lemma RecoveryListed(order: seq<string>, ts: map<string, AttrType>)
    requires order == RecoveryOrder && ts == RecoveryTypes
    ensures Lists(order, ts)
  {
  }

  lemma ScheduledBackupsListed(order: seq<string>, ts: map<string, AttrType>)
    requires order == ScheduledBackupsOrder && ts == ScheduledBackupsTypes
    ensures Lists(order, ts)
  {
  }

  lemma ScheduleListed(order: seq<string>, ts: map<string, AttrType>)
    requires order == ScheduleOrder && ts == ScheduleTypes
    ensures Lists(order, ts)
  {
  }

  lemma ServiceConfigListed(order: seq<string>, ts: map<string, AttrType>)
    requires order == ServiceConfigOrder && ts == ServiceConfigTypes
    ensures Lists(order, ts)
  {
  }

  lemma ServiceConfigV2Listed(order: seq<string>, ts: map<string, AttrType>)
    requires order == ServiceConfigV2Order && ts == ServiceConfigV2Types
    ensures Lists(order, ts)
  {
  }

  lemma MaintenanceWindowListed(order: seq<string>, ts: map<string, AttrType>)
    requires order == MaintenanceWindowOrder && ts == MaintenanceWindowTypes
    ensures Lists(order, ts)
  {
  }

  lemma PrivateNetworkConfigListed(order: seq<string>, ts: map<string, AttrType>)
    requires order == PrivateNetworkConfigOrder && ts == PrivateNetworkConfigTypes
    ensures Lists(order, ts)
  {
  }

  lemma PublicNetworkConfigListed(order: seq<string>, ts: map<string, AttrType>)
    requires order == PublicNetworkConfigOrder && ts == PublicNetworkConfigTypes
    ensures Lists(order, ts)
  {
  }

  /**
   * A value of one of the generated types: the Go struct's fields by their
   * `tfsdk` names, and its hidden state.
   */
  datatype EntityValue = EntityValue(custom: Custom, state: State, fields: map<string, Value>)

  /** The fields of a Go struct that was never assigned. */
  function ZeroFields(c: Custom): map<string, Value>
  {
    map n | n in AttrTypes(c) :: Zero(AttrTypes(c)[n])
  }

  /** `NewXValueNull()`. */
  function NullValue(c: Custom): EntityValue
  {
    EntityValue(c, Null, ZeroFields(c))
  }

  /** `NewXValueUnknown()`. */
  function UnknownValue(c: Custom): EntityValue
  {
    EntityValue(c, Unknown, ZeroFields(c))
  }

  /**
   * The struct field named `n`. A value built by the code always holds every
   * field of its table; the fallback only keeps the function total.
   */
  function Field(e: EntityValue, n: string): Value
  {
    if n in e.fields then e.fields[n] else Zero(NoType)
  }

  /**
   * A value the Go code can hold: exactly the fields of the table, each of
   * the declared kind and well formed, and zero fields unless it is known.
   */
  predicate EntityWellFormed(e: EntityValue)
  {
    && e.fields.Keys == AttrTypes(e.custom).Keys
    && (forall n | n in e.fields :: SameKind(e.fields[n], AttrTypes(e.custom)[n]) && WellFormed(e.fields[n]))
    && (e.state != Known ==> e.fields == ZeroFields(e.custom))
  }

  /** A well-formed value whose every field also has exactly the table's type. */
  predicate Typed(e: EntityValue)
  {
    EntityWellFormed(e) && AttrsMatch(AttrTypes(e.custom), e.fields)
  }

  // ---------------------------------------------------------------------
  // NewXValue: the validating constructor
  // ---------------------------------------------------------------------

  function MissingValue(c: Custom, n: string): Diagnostic
  {
    Error("Missing " + MessageName(c) + " Attribute Value", n)
  }

  function InvalidType(c: Custom, n: string): Diagnostic
  {
    Error("Invalid " + MessageName(c) + " Attribute Type", n)
  }

  function ExtraValue(c: Custom, n: string): Diagnostic
  {
    Error("Extra " + MessageName(c) + " Attribute Value", n)
  }

  function AttributeMissing(n: string): Diagnostic
  {
    Error("Attribute Missing", n)
  }

  function AttributeWrongType(n: string): Diagnostic
  {
    Error("Attribute Wrong Type", n)
  }

  /**
   * The diagnostics of the first loop for the declared names in `names`:
   * one per name with no attribute value, one per value of another type.
   */
  function DeclaredErrors(c: Custom, types: map<string, AttrType>, attrs: map<string, Value>,
                          names: set<string>): set<Diagnostic>
  {
    MissingErrors(c, types, attrs, names) + InvalidErrors(c, types, attrs, names)
  }

  /** One diagnostic per declared name in `names` without an attribute value. */
  function MissingErrors(c: Custom, types: map<string, AttrType>, attrs: map<string, Value>,
                         names: set<string>): set<Diagnostic>
  {
    set n | n in names && n in types && n !in attrs :: MissingValue(c, n)
  }

  /** One diagnostic per declared name in `names` whose attribute value has another type. */
  function InvalidErrors(c: Custom, types: map<string, AttrType>, attrs: map<string, Value>,
                         names: set<string>): set<Diagnostic>
  {
    set n | n in names && n in types && n in attrs && TypeOf(attrs[n]) != types[n] :: InvalidType(c, n)
  }

  /** The diagnostics of the second loop for the given names: one per undeclared name. */
  function UndeclaredErrors(c: Custom, types: map<string, AttrType>, names: set<string>): set<Diagnostic>
  {
    set n | n in names && n !in types :: ExtraValue(c, n)
  }

  /** Everything the two batch loops report. */
  function BatchErrors(c: Custom, types: map<string, AttrType>, attrs: map<string, Value>): set<Diagnostic>
  {
    DeclaredErrors(c, types, attrs, types.Keys) + UndeclaredErrors(c, types, attrs.Keys)
  }

  /**
   * The second pass over the type's own fields in read order: the first
   * missing field is reported and ends the pass; every value of the wrong
   * kind is reported and the pass goes on.
   */
  function FieldErrors(ts: map<string, AttrType>, attrs: map<string, Value>, order: seq<string>): seq<Diagnostic>
    decreases |order|
  {
    if order == [] then []
    else
      var prior := FieldErrors(ts, attrs, order[..|order| - 1]);
      var n := order[|order| - 1];
      if exists j | 0 <= j < |order| - 1 :: order[j] !in attrs then prior
      else if n !in attrs then prior + [AttributeMissing(n)]
      else if n in ts && !SameKind(attrs[n], ts[n]) then prior + [AttributeWrongType(n)]
      else prior
  }

  /** The fields of the type taken from the attributes. */
  function TakeFields(c: Custom, attrs: map<string, Value>): map<string, Value>
  {
    map n | n in AttrTypes(c) && n in attrs :: attrs[n]
  }

  /** What `NewXValue(types, attrs)` returns as its value. */
  function Construct(c: Custom, types: map<string, AttrType>, attrs: map<string, Value>): EntityValue
  {
    if BatchErrors(c, types, attrs) != {} || FieldErrors(AttrTypes(c), attrs, FieldOrder(c)) != [] then UnknownValue(c)
    else EntityValue(c, Known, TakeFields(c, attrs))
  }

  /**
   * `NewXValue(attributeTypes, attributes)`. Go visits the two maps in an
   * unspecified order, so the loops pick the next key nondeterministically.
   */
  method New(c: Custom, attributeTypes: map<string, AttrType>, attributes: map<string, Value>)
    returns (v: EntityValue, diags: seq<Diagnostic>)
    ensures v == Construct(c, attributeTypes, attributes)
    ensures BatchErrors(c, attributeTypes, attributes) != {} ==>
      && (forall d :: d in diags <==> d in BatchErrors(c, attributeTypes, attributes))
      && Distinct(diags)
    ensures BatchErrors(c, attributeTypes, attributes) == {} ==>
      diags == FieldErrors(AttrTypes(c), attributes, FieldOrder(c))
    ensures HasError(diags) <==> v.state != Known
  {
    var declared := CheckDeclared(c, attributeTypes, attributes);
    var extras := CheckUndeclared(c, attributeTypes, attributes);
    diags := declared + extras;
    BatchDistinct(c, attributeTypes, attributes, declared, extras);
    ghost var batch := BatchErrors(c, attributeTypes, attributes);
    if |diags| > 0 {
      assert diags[0] in batch;
      v := UnknownValue(c);
      return;
    }
    assert forall d :: d !in batch;
    assert batch == {};
    diags := ReadFields(AttrTypes(c), attributes, FieldOrder(c));
    if |diags| > 0 {
      v := UnknownValue(c);
      return;
    }
    v := EntityValue(c, Known, TakeFields(c, attributes));
  }

  /** The first batch loop of `NewXValue`: every declared attribute type is looked up. */
  method CheckDeclared(c: Custom, attributeTypes: map<string, AttrType>, attributes: map<string, Value>)
    returns (diags: seq<Diagnostic>)
    ensures forall d :: d in diags <==> d in DeclaredErrors(c, attributeTypes, attributes, attributeTypes.Keys)
    ensures Distinct(diags)
  {
    diags := [];
    var pending := attributeTypes.Keys;
    ghost var seen: set<string> := {};
    NothingDeclaredSeen(c, attributeTypes, attributes);
    while pending != {}
      invariant pending + seen == attributeTypes.Keys && pending !! seen
      invariant Reports(diags, DeclaredErrors(c, attributeTypes, attributes, seen), seen)
      decreases pending
    {
      var name :| name in pending;
      DeclaredVisit(c, attributeTypes, attributes, seen, name, diags);
      if name !in attributes {
        diags := diags + [MissingValue(c, name)];
      } else if attributeTypes[name] != TypeOf(attributes[name]) {
        diags := diags + [InvalidType(c, name)];
      }
      pending := pending - {name};
      seen := seen + {name};
    }
  }

  /** The second batch loop of `NewXValue`: every given attribute must be declared. */
  method CheckUndeclared(c: Custom, attributeTypes: map<string, AttrType>, attributes: map<string, Value>)
    returns (extras: seq<Diagnostic>)
    ensures forall d :: d in extras <==> d in UndeclaredErrors(c, attributeTypes, attributes.Keys)
    ensures Distinct(extras)
  {
    extras := [];
    var rest := attributes.Keys;
    ghost var done: set<string> := {};
    NothingUndeclaredSeen(c, attributeTypes);
    while rest != {}
      invariant rest + done == attributes.Keys && rest !! done
      invariant Reports(extras, UndeclaredErrors(c, attributeTypes, done), done)
      decreases rest
    {
      var name :| name in rest;
      UndeclaredVisit(c, attributeTypes, done, name, extras);
      if name !in attributeTypes {
        extras := extras + [ExtraValue(c, name)];
      }
      rest := rest - {name};
      done := done + {name};
    }
  }

  /**
   * The second pass of `NewXValue`: the fields are read in `order`, a
   * missing one ends the pass, a value of the wrong kind is reported.
   */
  method ReadFields(ts: map<string, AttrType>, attributes: map<string, Value>, order: seq<string>)
    returns (diags: seq<Diagnostic>)
    ensures diags == FieldErrors(ts, attributes, order)
  {
    diags := [];
    var i := 0;
    while i < |order|
      invariant 0 <= i <= |order|
      invariant forall j | 0 <= j < i :: order[j] in attributes
      invariant diags == FieldErrors(ts, attributes, order[..i])
    {
      var name := order[i];
      assert order[..i + 1][..i] == order[..i];
      if name !in attributes {
        diags := diags + [AttributeMissing(name)];
        FieldErrorsStop(ts, attributes, order, i + 1);
        return;
      }
      if name in ts && !SameKind(attributes[name], ts[name]) {
        diags := diags + [AttributeWrongType(name)];
      }
      i := i + 1;
    }
    assert order[..|order|] == order;
  }

  /**
   * `diags` reports exactly the diagnostics `errs`, each once, all of them
   * about names already visited.
   */
  ghost predicate Reports(diags: seq<Diagnostic>, errs: set<Diagnostic>, visited: set<string>)
  {
    && (forall d :: d in diags <==> d in errs)
    && (forall i | 0 <= i < |diags| :: diags[i].detail in visited)
    && Distinct(diags)
  }

  /** What the first batch loop reports for one declared name. */
  function DeclaredReport(c: Custom, types: map<string, AttrType>, attrs: map<string, Value>, name: string): seq<Diagnostic>
    requires name in types
  {
    if name !in attrs then [MissingValue(c, name)]
    else if types[name] != TypeOf(attrs[name]) then [InvalidType(c, name)]
    else []
  }

  /** Before the first loop has visited any name it has reported nothing. */
  lemma NothingDeclaredSeen(c: Custom, types: map<string, AttrType>, attrs: map<string, Value>)
    ensures Reports([], DeclaredErrors(c, types, attrs, {}), {})
  {
    assert MissingErrors(c, types, attrs, {}) == {};
    assert InvalidErrors(c, types, attrs, {}) == {};
  }

  /** Before the second loop has visited any name it has reported nothing. */
  lemma NothingUndeclaredSeen(c: Custom, types: map<string, AttrType>)
    ensures Reports([], UndeclaredErrors(c, types, {}), {})
  {
    assert UndeclaredErrors(c, types, {}) == {};
  }

  /** Visiting one more declared name keeps the first loop's report exact. */
  lemma DeclaredVisit(c: Custom, types: map<string, AttrType>, attrs: map<string, Value>,
                      seen: set<string>, name: string, diags: seq<Diagnostic>)
    requires name in types && name !in seen
    requires Reports(diags, DeclaredErrors(c, types, attrs, seen), seen)
    ensures Reports(diags + DeclaredReport(c, types, attrs, name), DeclaredErrors(c, types, attrs, seen + {name}), seen + {name})
  {
    MissingStep(c, types, attrs, seen, name);
    InvalidStep(c, types, attrs, seen, name);
    var errs := DeclaredErrors(c, types, attrs, seen);
    if name !in attrs {
      ReportsAppend(diags, errs, seen, MissingValue(c, name));
    } else if types[name] != TypeOf(attrs[name]) {
      ReportsAppend(diags, errs, seen, InvalidType(c, name));
    } else {
      ReportsWiden(diags, errs, seen, name);
    }
  }

  /** Reporting one more diagnostic, about a name not yet visited. */
  lemma ReportsAppend(diags: seq<Diagnostic>, errs: set<Diagnostic>, visited: set<string>, d: Diagnostic)
    requires Reports(diags, errs, visited) && d.detail !in visited
    ensures Reports(diags + [d], errs + {d}, visited + {d.detail})
  {
    DistinctAppend(diags, d, visited);
  }

  /** Visiting a name that adds no diagnostic. */
  lemma ReportsWiden(diags: seq<Diagnostic>, errs: set<Diagnostic>, visited: set<string>, name: string)
    requires Reports(diags, errs, visited)
    ensures Reports(diags + [], errs, visited + {name})
  {
    assert diags + [] == diags;
  }

  /** Visiting one more attribute name keeps the second loop's report exact. */
  lemma UndeclaredVisit(c: Custom, types: map<string, AttrType>, done: set<string>, name: string,
                        extras: seq<Diagnostic>)
    requires name !in done
    requires Reports(extras, UndeclaredErrors(c, types, done), done)
    ensures Reports(extras + (if name !in types then [ExtraValue(c, name)] else []),
                    UndeclaredErrors(c, types, done + {name}), done + {name})
  {
    UndeclaredStep(c, types, done, name);
    if name !in types {
      ReportsAppend(extras, UndeclaredErrors(c, types, done), done, ExtraValue(c, name));
    } else {
      ReportsWiden(extras, UndeclaredErrors(c, types, done), done, name);
    }
  }

  /** One more declared name adds its diagnostic, if it is missing. */
  lemma MissingStep(c: Custom, types: map<string, AttrType>, attrs: map<string, Value>,
                    seen: set<string>, name: string)
    requires name in types
    ensures MissingErrors(c, types, attrs, seen + {name}) ==
      MissingErrors(c, types, attrs, seen) + (if name !in attrs then {MissingValue(c, name)} else {})
  {
  }

  /** One more declared name adds its diagnostic, if its value has another type. */
  lemma InvalidStep(c: Custom, types: map<string, AttrType>, attrs: map<string, Value>,
                    seen: set<string>, name: string)
    requires name in types
    ensures InvalidErrors(c, types, attrs, seen + {name}) ==
      InvalidErrors(c, types, attrs, seen)
      + (if name in attrs && types[name] != TypeOf(attrs[name]) then {InvalidType(c, name)} else {})
  {
  }

  /** One more attribute name adds at most its own diagnostic. */
  lemma UndeclaredStep(c: Custom, types: map<string, AttrType>, done: set<string>, name: string)
    ensures UndeclaredErrors(c, types, done + {name}) ==
      UndeclaredErrors(c, types, done) + (if name !in types then {ExtraValue(c, name)} else {})
  {
  }

  /** Appending a diagnostic about a name not yet visited keeps the sequence distinct. */
  lemma DistinctAppend(diags: seq<Diagnostic>, d: Diagnostic, visited: set<string>)
    requires Distinct(diags)
    requires forall i | 0 <= i < |diags| :: diags[i].detail in visited
    requires d.detail !in visited
    ensures Distinct(diags + [d])
  {
  }

  /** The diagnostics of the two loops together are distinct and are the batch errors. */
  lemma BatchDistinct(c: Custom, types: map<string, AttrType>, attrs: map<string, Value>,
                      declared: seq<Diagnostic>, extras: seq<Diagnostic>)
    requires forall d :: d in declared <==> d in DeclaredErrors(c, types, attrs, types.Keys)
    requires forall d :: d in extras <==> d in UndeclaredErrors(c, types, attrs.Keys)
    requires Distinct(declared) && Distinct(extras)
    ensures forall d :: d in declared + extras <==> d in BatchErrors(c, types, attrs)
    ensures Distinct(declared + extras)
  {
    var all := declared + extras;
    forall i, j | 0 <= i < |declared| <= j < |all|
      ensures all[i] != all[j]
    {
      assert all[i] == declared[i] && all[i] in declared;
      assert all[j] == extras[j - |declared|] && all[j] in extras;
      DeclaredAbout(c, types, attrs, types.Keys, all[i]);
    }
  }

  /** The first loop's diagnostics are about declared names, the second loop's are not. */
  lemma DeclaredAbout(c: Custom, types: map<string, AttrType>, attrs: map<string, Value>, names: set<string>,
                      d: Diagnostic)
    requires d in DeclaredErrors(c, types, attrs, names)
    ensures d.detail in types
  {
    if d in MissingErrors(c, types, attrs, names) {
      var n :| n in names && n in types && n !in attrs && d == MissingValue(c, n);
    } else {
      var n :| n in names && n in types && n in attrs && TypeOf(attrs[n]) != types[n] && d == InvalidType(c, n);
    }
  }

  /** Once a field is missing, the rest of the read order adds nothing. */
  lemma {:induction false} FieldErrorsStop(ts: map<string, AttrType>, attrs: map<string, Value>, order: seq<string>, k: nat)
    requires 0 < k <= |order|
    requires order[k - 1] !in attrs
    ensures FieldErrors(ts, attrs, order) == FieldErrors(ts, attrs, order[..k])
    decreases |order| - k
  {
    if k < |order| {
      FieldErrorsStop(ts, attrs, order[..|order| - 1], k);
      assert order[..|order| - 1][..k] == order[..k];
      assert order[k - 1] == order[..|order| - 1][k - 1];
    } else {
      assert order[..k] == order;
    }
  }

  // ---------------------------------------------------------------------
  // When the constructor succeeds

  /** Every field of the table is given, with a value of the declared kind. */
  predicate FieldsFit(c: Custom, attrs: map<string, Value>)
  {
    forall n | n in AttrTypes(c) :: n in attrs && SameKind(attrs[n], AttrTypes(c)[n])
  }

  /** The batch loops report nothing exactly when the attributes match the types. */
  lemma BatchErrorsEmpty(c: Custom, types: map<string, AttrType>, attrs: map<string, Value>)
    ensures BatchErrors(c, types, attrs) == {} <==> AttrsMatch(types, attrs)
  {
    NoMissingErrors(c, types, attrs);
    NoInvalidErrors(c, types, attrs);
    NoUndeclaredErrors(c, types, attrs);
  }

  lemma NoMissingErrors(c: Custom, types: map<string, AttrType>, attrs: map<string, Value>)
    ensures MissingErrors(c, types, attrs, types.Keys) == {} <==> forall k | k in types :: k in attrs
  {
    if MissingErrors(c, types, attrs, types.Keys) == {} {
      forall k | k in types ensures k in attrs {
        assert MissingValue(c, k) !in MissingErrors(c, types, attrs, types.Keys);
      }
    }
  }

  lemma NoInvalidErrors(c: Custom, types: map<string, AttrType>, attrs: map<string, Value>)
    ensures InvalidErrors(c, types, attrs, types.Keys) == {} <==>
      forall k | k in types && k in attrs :: TypeOf(attrs[k]) == types[k]
  {
    if InvalidErrors(c, types, attrs, types.Keys) == {} {
      forall k | k in types && k in attrs ensures TypeOf(attrs[k]) == types[k] {
        assert InvalidType(c, k) !in InvalidErrors(c, types, attrs, types.Keys);
      }
    }
  }

  lemma NoUndeclaredErrors(c: Custom, types: map<string, AttrType>, attrs: map<string, Value>)
    ensures UndeclaredErrors(c, types, attrs.Keys) == {} <==> forall k | k in attrs :: k in types
  {
    if UndeclaredErrors(c, types, attrs.Keys) == {} {
      forall k | k in attrs ensures k in types {
        assert ExtraValue(c, k) !in UndeclaredErrors(c, types, attrs.Keys);
      }
    }
  }

  /** Every name in `order` has a value, of the declared kind where the table declares one. */
  predicate Fits(ts: map<string, AttrType>, attrs: map<string, Value>, order: seq<string>)
  {
    forall i | 0 <= i < |order| ::
      order[i] in attrs && (order[i] in ts ==> SameKind(attrs[order[i]], ts[order[i]]))
  }

  /** The field pass reports nothing exactly when every field in the order is present and of its kind. */
  lemma FieldErrorsEmpty(ts: map<string, AttrType>, attrs: map<string, Value>, order: seq<string>)
    ensures FieldErrors(ts, attrs, order) == [] <==> Fits(ts, attrs, order)
  {
    if Fits(ts, attrs, order) {
      FitsNoFieldErrors(ts, attrs, order);
    } else if FieldErrors(ts, attrs, order) == [] {
      NoFieldErrorsFits(ts, attrs, order);
    }
  }

  lemma {:induction false} FitsNoFieldErrors(ts: map<string, AttrType>, attrs: map<string, Value>, order: seq<string>)
    requires Fits(ts, attrs, order)
    ensures FieldErrors(ts, attrs, order) == []
    decreases |order|
  {
    if order != [] {
      var init := order[..|order| - 1];
      forall i | 0 <= i < |init|
        ensures init[i] == order[i]
      {
      }
      FitsNoFieldErrors(ts, attrs, init);
    }
  }

  lemma {:induction false} NoFieldErrorsFits(ts: map<string, AttrType>, attrs: map<string, Value>, order: seq<string>)
    requires FieldErrors(ts, attrs, order) == []
    ensures Fits(ts, attrs, order)
    decreases |order|
  {
    if order != [] {
      var init := order[..|order| - 1];
      if exists j | 0 <= j < |order| - 1 :: order[j] !in attrs {
        var j :| 0 <= j < |order| - 1 && order[j] !in attrs;
        assert init[j] == order[j];
        FieldErrorsNonEmpty(ts, attrs, init, j);
        assert false;
      }
      NoFieldErrorsFits(ts, attrs, init);
      forall i | 0 <= i < |order|
        ensures order[i] in attrs && (order[i] in ts ==> SameKind(attrs[order[i]], ts[order[i]]))
      {
        if i < |init| {
          assert init[i] == order[i];
        }
      }
    }
  }

  /** A field missing anywhere in the order leaves a report. */
  lemma {:induction false} FieldErrorsNonEmpty(ts: map<string, AttrType>, attrs: map<string, Value>, order: seq<string>, j: nat)
    requires j < |order| && order[j] !in attrs
    ensures FieldErrors(ts, attrs, order) != []
    decreases |order|
  {
    var init := order[..|order| - 1];
    if j < |order| - 1 {
      assert init[j] == order[j];
      FieldErrorsNonEmpty(ts, attrs, init, j);
    } else if exists k | 0 <= k < |order| - 1 :: order[k] !in attrs {
      var k :| 0 <= k < |order| - 1 && order[k] !in attrs;
      assert init[k] == order[k];
      FieldErrorsNonEmpty(ts, attrs, init, k);
    }
  }

  /**
   * The constructor returns a known value exactly when the attributes match
   * the given types and every field of the table is present with its kind;
   * the known value holds the table's fields taken from the attributes.
   */
  lemma ConstructKnown(c: Custom, types: map<string, AttrType>, attrs: map<string, Value>)
    ensures Construct(c, types, attrs).state == Known <==> AttrsMatch(types, attrs) && FieldsFit(c, attrs)
    ensures Construct(c, types, attrs).state == Known ==>
      Construct(c, types, attrs) == EntityValue(c, Known, TakeFields(c, attrs))
    ensures Construct(c, types, attrs).state != Known ==> Construct(c, types, attrs) == UnknownValue(c)
  {
    BatchErrorsEmpty(c, types, attrs);
    FieldErrorsEmpty(AttrTypes(c), attrs, FieldOrder(c));
    FieldOrderIsTable(c);
    FitsListed(c, attrs, FieldOrder(c));
  }

  /** A constructor missing one of its table's attributes gives the unknown value. */
  lemma ConstructMissing(c: Custom, types: map<string, AttrType>, attrs: map<string, Value>, n: string)
    requires n in AttrTypes(c) && n !in attrs
    ensures Construct(c, types, attrs) == UnknownValue(c)
  {
    var order := FieldOrder(c);
    FieldOrderIsTable(c);
    assert n in order;
    var i :| 0 <= i < |order| && order[i] == n;
    FieldErrorsEmpty(AttrTypes(c), attrs, order);
  }

  /** An order listing exactly the table's attributes fits exactly when every field fits. */
  lemma FitsListed(c: Custom, attrs: map<string, Value>, order: seq<string>)
    requires Lists(order, AttrTypes(c))
    ensures Fits(AttrTypes(c), attrs, order) <==> FieldsFit(c, attrs)
  {
    var ts := AttrTypes(c);
    if FieldsFit(c, attrs) {
      forall i | 0 <= i < |order|
        ensures order[i] in attrs && (order[i] in ts ==> SameKind(attrs[order[i]], ts[order[i]]))
      {
        assert order[i] in order;
      }
    } else {
      var n :| n in ts && !(n in attrs && SameKind(attrs[n], ts[n]));
      assert n in order;
      var i :| 0 <= i < |order| && order[i] == n;
    }
  }

  /** A value's kind is the kind of its own type. */
  lemma SameKindOfType(v: Value)
    ensures SameKind(v, TypeOf(v))
  {
  }

  /**
   * Attributes of exactly the table's types, given for the table's types,
   * make a known value holding exactly those attributes.
   */
  lemma ConstructFromOwnTypes(c: Custom, attrs: map<string, Value>)
    requires AttrsMatch(AttrTypes(c), attrs)
    ensures Construct(c, AttrTypes(c), attrs) == EntityValue(c, Known, attrs)
  {
    var ts := AttrTypes(c);
    MatchFits(ts, attrs);
    ConstructKnown(c, ts, attrs);
    TakeMatched(ts, attrs);
  }

  /** Attributes that match a table give every field of the table its kind. */
  lemma MatchFits(ts: map<string, AttrType>, attrs: map<string, Value>)
    requires AttrsMatch(ts, attrs)
    ensures forall n | n in ts :: n in attrs && SameKind(attrs[n], ts[n])
  {
    forall n | n in ts
      ensures n in attrs && SameKind(attrs[n], ts[n])
    {
      SameKindOfType(attrs[n]);
    }
  }

  /** Taking a table's fields from attributes that match it takes all of them. */
  lemma TakeMatched(ts: map<string, AttrType>, attrs: map<string, Value>)
    requires AttrsMatch(ts, attrs)
    ensures (map n | n in ts && n in attrs :: attrs[n]) == attrs
  {
  }

  /** `NewXValueMust`: the constructor's value, or a panic where it reports an error. */
  function Must(c: Custom, types: map<string, AttrType>, attrs: map<string, Value>): (r: Outcome<EntityValue>)
    ensures r.Panicked? <==> !(AttrsMatch(types, attrs) && FieldsFit(c, attrs))
    ensures r.Returned? ==> r.value == EntityValue(c, Known, TakeFields(c, attrs))
  {
    ConstructKnown(c, types, attrs);
    var v := Construct(c, types, attrs);
    if v.state != Known then Panicked else Returned(v)
  }

  /** Every attribute of `types` has a declared type. */
  ghost predicate Declared(types: map<string, AttrType>)
  {
    forall n | n in types :: types[n] != NoType
  }

  /** Every attribute of every table has a declared type. */
  lemma TableTypesDeclared(c: Custom)
    ensures Declared(AttrTypes(c))
  {
    var ts := AttrTypes(c);
    match c
    case ApplicationConfigV1 => ApplicationConfigDeclared(ts);
    case ApplicationConfigV2 => ApplicationConfigV2Declared(ts);
    case RecoveryV1 | RecoveryV2 => RecoveryDeclared(ts);
    case ScheduledBackupsV1 | ScheduledBackupsV2 => ScheduledBackupsDeclared(ts);
    case ScheduleV1 | ScheduleV2 => ScheduleDeclared(ts);
    case ServiceConfigV1 => ServiceConfigDeclared(ts);
    case ServiceConfigV2 => ServiceConfigV2Declared(ts);
    case MaintenanceWindowV1 | MaintenanceWindowV2 => MaintenanceWindowDeclared(ts);
    case PrivateNetworkConfigV2 => PrivateNetworkConfigDeclared(ts);
    case PublicNetworkConfigV2 => PublicNetworkConfigDeclared(ts);
  }

  lemma ApplicationConfigDeclared(ts: map<string, AttrType>)
    requires ts == ApplicationConfigTypes
    ensures Declared(ts)
  {
  }

  lemma ApplicationConfigV2Declared(ts: map<string, AttrType>)
    requires ts == ApplicationConfigV2Types
    ensures Declared(ts)
  {
  }

  lemma RecoveryDeclared(ts: map<string, AttrType>)
    requires ts == RecoveryTypes
    ensures Declared(ts)
  {
  }

  lemma ScheduledBackupsDeclared(ts: map<string, AttrType>)
    requires ts == ScheduledBackupsTypes
    ensures Declared(ts)
  {
  }

  lemma ScheduleDeclared(ts: map<string, AttrType>)
    requires ts == ScheduleTypes
    ensures Declared(ts)
  {
  }

  lemma ServiceConfigDeclared(ts: map<string, AttrType>)
    requires ts == ServiceConfigTypes
    ensures Declared(ts)
  {
  }

  lemma ServiceConfigV2Declared(ts: map<string, AttrType>)
    requires ts == ServiceConfigV2Types
    ensures Declared(ts)
  {
  }

  lemma MaintenanceWindowDeclared(ts: map<string, AttrType>)
    requires ts == MaintenanceWindowTypes
    ensures Declared(ts)
  {
  }

  lemma PrivateNetworkConfigDeclared(ts: map<string, AttrType>)
    requires ts == PrivateNetworkConfigTypes
    ensures Declared(ts)
  {
  }

  lemma PublicNetworkConfigDeclared(ts: map<string, AttrType>)
    requires ts == PublicNetworkConfigTypes
    ensures Declared(ts)
  {
  }

  /** `NewXValueNull()` and `NewXValueUnknown()` are well-formed values of their type. */
  lemma AbsentWellFormed(c: Custom, st: State)
    requires st != Known
    ensures EntityWellFormed(EntityValue(c, st, ZeroFields(c)))
  {
    var ts := AttrTypes(c);
    TableTypesDeclared(c);
    ZerosWellFormed(ts);
    var z := ZeroFields(c);
    assert z.Keys == ts.Keys;
    forall n | n in z
      ensures SameKind(z[n], ts[n]) && WellFormed(z[n])
    {
      assert z[n] == Zero(ts[n]);
    }
  }

  /** The zero value of a declared type is of its kind and well formed. */
  lemma ZerosWellFormed(ts: map<string, AttrType>)
    requires Declared(ts)
    ensures forall n | n in ts :: SameKind(Zero(ts[n]), ts[n]) && WellFormed(Zero(ts[n]))
  {
  }
}
