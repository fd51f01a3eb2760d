/**
 * The conversion of a DBaaS API response into the resource's Terraform
 * state (`psqlCreateResponseToModel`, `psqlGetResponseToModel` and their
 * version-2 twins). Every attribute comes from the response except the admin
 * password, which the API never returns: it is carried over from the plan
 * or from the prior state.
 */
module Convert {
  import opened Framework
  import opened Entities
  import opened Objects
  import opened Sdk
  import opened Quote

  // ---------------------------------------------------------------------
  // The API response, as far as the converters read it. The SDK's create
  // and get responses are read alike, so one datatype stands for both, and
  // its pointer fields are taken to be non-nil except `recovery`.

  datatype Recovery = Recovery(
    exclusive: bool, source: string, targetLsn: string, targetName: string,
    targetXid: string, targetTime: string)

  datatype Backups = Backups(retention: Int64, hour: Int64, minute: Int64)

  datatype Window = Window(dayOfWeek: Int64, startHour: Int64, startMinute: Int64)

  datatype Network = Network(
    enabled: bool, hostname: string, ipAddress: string, allowedCidrs: seq<string>,
    sharedSubnetCidr: string, sharedSubnetId: string, sharedNetworkId: string)

  /** The application config of a response; version 1 reads the host fields, version 2 the networking. */
  datatype App = App(
    appType: string, instances: Int64, version: string, hostname: string, ipAddress: string,
    recovery: Option<Recovery>, backups: Backups, privateNetwork: Network, publicNetwork: Network)

  /** The service config of a response; only version 1 reads `remoteIps`. */
  datatype Service = Service(
    disksize: Int64, serviceType: string, flavor: string, region: string, window: Window,
    remoteIps: seq<string>)

  datatype Database = Database(
    uuid: string, name: string, description: string, status: string, phase: string,
    resourceStatus: string, createdBy: string, createdAt: string, lastModifiedBy: string,
    lastModifiedAt: string, app: App, service: Service)

  /** `DatabaseModel` and `DatabaseModelV2`: the resource's state, one framework value per attribute. */
  datatype DatabaseModel = DatabaseModel(
    applicationConfig: Value, createdAt: Value, createdBy: Value, description: Value,
    lastModifiedAt: Value, lastModifiedBy: Value, name: Value, serviceConfig: Value,
    status: Value, phase: Value, resourceStatus: Value, uuid: Value)

  // ---------------------------------------------------------------------
  // Building blocks

  /** `types.StringValue(s)`. */
  function Str(s: string): Value
  {
    StringValue(Known, s)
  }

  /** `types.Int64Value(n)`. */
  function Int(n: Int64): Value
  {
    Int64Value(Known, n)
  }

  /** `types.BoolValue(b)`. */
  function Flag(b: bool): Value
  {
    BoolValue(Known, b)
  }

  /** `types.ListValueFrom(ctx, types.StringType, ss)`, which reports nothing for a string slice. */
  function Strings(ss: seq<string>): Value
  {
    ListValue(Known, StringType, StringList(ss))
  }

  /**
   * `XValue{...}.ToObjectValue(ctx)` on a struct literal, whose hidden state
   * is Go's zero value, null; the converters discard its diagnostics.
   */
  function Literal(c: Custom, fields: map<string, Value>): Outcome<Value>
  {
    var r :- ToObjectValue(EntityValue(c, Null, fields));
    Returned(r.0)
  }

  function RecoveryFields(r: Recovery): map<string, Value>
  {
    map["exclusive" := Flag(r.exclusive), "source" := Str(r.source), "target_lsn" := Str(r.targetLsn),
        "target_name" := Str(r.targetName), "target_xid" := Str(r.targetXid),
        "target_time" := Str(r.targetTime)]
  }

  /** The recovery object: Go's zero `basetypes.ObjectValue` when the response has none. */
  function RecoveryObject(c: Custom, r: Option<Recovery>): Outcome<Value>
  {
    if r.None? then Returned(Zero(ObjectType(map[]))) else Literal(c, RecoveryFields(r.value))
  }

  function ScheduleFields(b: Backups): map<string, Value>
  {
    map["hour" := Int(b.hour), "minute" := Int(b.minute)]
  }

  /** The scheduled backups object, with the schedule object built first. */
  function BackupsObject(scheduleKind: Custom, backupsKind: Custom, b: Backups): Outcome<Value>
  {
    var schedule :- Literal(scheduleKind, ScheduleFields(b));
    Literal(backupsKind, map["schedule" := schedule, "retention" := Int(b.retention)])
  }

  function WindowFields(w: Window): map<string, Value>
  {
    map["day_of_week" := Int(w.dayOfWeek), "start_hour" := Int(w.startHour),
        "start_minute" := Int(w.startMinute)]
  }

  function PrivateFields(n: Network): map<string, Value>
  {
    map["enabled" := Flag(n.enabled), "hostname" := Str(n.hostname), "ip_address" := Str(n.ipAddress),
        "allowed_cidrs" := Strings(n.allowedCidrs), "shared_subnet_cidr" := Str(n.sharedSubnetCidr),
        "shared_subnet_id" := Str(n.sharedSubnetId), "shared_network_id" := Str(n.sharedNetworkId)]
  }

  function PublicFields(n: Network): map<string, Value>
  {
    map["enabled" := Flag(n.enabled), "hostname" := Str(n.hostname), "ip_address" := Str(n.ipAddress),
        "allowed_cidrs" := Strings(n.allowedCidrs)]
  }

  function ServiceFieldsV1(s: Service, window: Value): map<string, Value>
  {
    map["disksize" := Int(s.disksize), "type" := Str(s.serviceType), "flavor" := Str(s.flavor),
        "region" := Str(s.region), "maintenance_window" := window, "remote_ips" := Strings(s.remoteIps)]
  }

  function ServiceFieldsV2(s: Service, window: Value): map<string, Value>
  {
    map["disksize" := Int(s.disksize), "type" := Str(s.serviceType), "flavor" := Str(s.flavor),
        "region" := Str(s.region), "maintenance_window" := window]
  }

  function AppFieldsV1(a: App, password: string, backups: Value, recovery: Value): map<string, Value>
  {
    map["type" := Str(a.appType), "password" := Str(password), "instances" := Int(a.instances),
        "version" := Str(a.version), "hostname" := Str(a.hostname), "ip_address" := Str(a.ipAddress),
        "scheduled_backups" := backups, "recovery" := recovery]
  }

  function AppFieldsV2(a: App, password: string, backups: Value, recovery: Value,
                       privateNetwork: Value, publicNetwork: Value): map<string, Value>
  {
    map["type" := Str(a.appType), "password" := Str(password), "instances" := Int(a.instances),
        "version" := Str(a.version), "scheduled_backups" := backups, "recovery" := recovery,
        "private_networking" := privateNetwork, "public_networking" := publicNetwork]
  }

  /** The top-level attributes of the state: the response's strings and the two config objects. */
  function Model(db: Database, app: Value, service: Value): DatabaseModel
  {
    DatabaseModel(
      app, Str(db.createdAt), Str(db.createdBy), Str(db.description), Str(db.lastModifiedAt),
      Str(db.lastModifiedBy), Str(db.name), service, Str(db.status), Str(db.phase),
      Str(db.resourceStatus), Str(db.uuid))
  }

  // ---------------------------------------------------------------------
  // The password carried over

  /**
   * The version-1 converters' password: the `password` attribute of the
   * plan's or the prior state's application config, rendered with
   * `String()` and trimmed of double quotes, or "" when there is none.
   */
  function PasswordV1(app: Value): (r: string)
    ensures Unquoted(r)
  {
    var attrs := Attributes(app);
    if "password" in attrs then TrimQuotes(Render(attrs["password"])) else ""
  }

  /**
   * The version-2 converters' password: the same rendering, but the map is
   * indexed without a check, and `String()` on the missing entry, a nil
   * interface, panics.
   */
  function PasswordV2(app: Value): (r: Outcome<string>)
    ensures r.Returned? ==> Unquoted(r.value)
  {
    var attrs := Attributes(app);
    if "password" in attrs then Returned(TrimQuotes(Render(attrs["password"]))) else Panicked
  }

  /** The password the converters evidently mean to carry over: the string itself. */
  function PasswordIntended(app: Value): string
  {
    var attrs := Attributes(app);
    if "password" in attrs then ValueString(attrs["password"]) else ""
  }

  // ---------------------------------------------------------------------
  // The converters

  /**
   * `psqlCreateResponseToModel` and `psqlGetResponseToModel` after the
   * password has been chosen. The list diagnostics and those of the service
   * config are overwritten by later assignments, so only the application
   * config's `ToObjectValue` diagnostics are returned.
   */
  function ResponseToModelV1(db: Database, password: string): Outcome<(DatabaseModel, seq<Diagnostic>)>
  {
    var recovery :- RecoveryObject(RecoveryV1, db.app.recovery);
    var backups :- BackupsObject(ScheduleV1, ScheduledBackupsV1, db.app.backups);
    var window :- Literal(MaintenanceWindowV1, WindowFields(db.service.window));
    var service :- ToObjectValue(EntityValue(ServiceConfigV1, Null, ServiceFieldsV1(db.service, window)));
    var app :- ToObjectValue(EntityValue(ApplicationConfigV1, Null,
                                         AppFieldsV1(db.app, password, backups, recovery)));
    Returned((Model(db, app.0, service.0), app.1))
  }

  /** `psqlCreateResponseToModelV2` and `psqlGetResponseToModelV2` after the password has been chosen. */
  function ResponseToModelV2(db: Database, password: string): Outcome<(DatabaseModel, seq<Diagnostic>)>
  {
    var recovery :- RecoveryObject(RecoveryV2, db.app.recovery);
    var backups :- BackupsObject(ScheduleV2, ScheduledBackupsV2, db.app.backups);
    var window :- Literal(MaintenanceWindowV2, WindowFields(db.service.window));
    var privateNetwork :- Literal(PrivateNetworkConfigV2, PrivateFields(db.app.privateNetwork));
    var publicNetwork :- Literal(PublicNetworkConfigV2, PublicFields(db.app.publicNetwork));
    var service :- ToObjectValue(EntityValue(ServiceConfigV2, Null, ServiceFieldsV2(db.service, window)));
    var app :- ToObjectValue(EntityValue(ApplicationConfigV2, Null,
                                         AppFieldsV2(db.app, password, backups, recovery,
                                                     privateNetwork, publicNetwork)));
    Returned((Model(db, app.0, service.0), app.1))
  }

  /** `psqlCreateResponseToModel`: the password comes from the plan. */
  function CreateResponseToModel(db: Database, plan: DatabaseModel): Outcome<(DatabaseModel, seq<Diagnostic>)>
  {
    ResponseToModelV1(db, PasswordV1(plan.applicationConfig))
  }

  /** `psqlGetResponseToModel`: the password comes from the previous state. */
  function GetResponseToModel(db: Database, previous: DatabaseModel): Outcome<(DatabaseModel, seq<Diagnostic>)>
  {
    ResponseToModelV1(db, PasswordV1(previous.applicationConfig))
  }

  /** `psqlCreateResponseToModelV2`. */
  function CreateResponseToModelV2(db: Database, plan: DatabaseModel): Outcome<(DatabaseModel, seq<Diagnostic>)>
  {
    var password :- PasswordV2(plan.applicationConfig);
    ResponseToModelV2(db, password)
  }

  /** `psqlGetResponseToModelV2`. */
  function GetResponseToModelV2(db: Database, previous: DatabaseModel): Outcome<(DatabaseModel, seq<Diagnostic>)>
  {
    var password :- PasswordV2(previous.applicationConfig);
    ResponseToModelV2(db, password)
  }

  // ---------------------------------------------------------------------
  // The state a response becomes

  function RecoveryState(r: Option<Recovery>): Value
  {
    if r.None? then NullOf(ObjectType(RecoveryTypes)) else ObjectValue(Known, RecoveryTypes, RecoveryFields(r.value))
  }

  function BackupsState(b: Backups): Value
  {
    ObjectValue(Known, ScheduledBackupsTypes,
                map["schedule" := ObjectValue(Known, ScheduleTypes, ScheduleFields(b)), "retention" := Int(b.retention)])
  }

  function WindowState(w: Window): Value
  {
    ObjectValue(Known, MaintenanceWindowTypes, WindowFields(w))
  }

  /** The version-1 state of a response: known objects of the tables, and a typed null recovery when it is absent. */
  function StateV1(db: Database, password: string): DatabaseModel
  {
    Model(db,
          ObjectValue(Known, ApplicationConfigTypes,
                      AppFieldsV1(db.app, password, BackupsState(db.app.backups), RecoveryState(db.app.recovery))),
          ObjectValue(Known, ServiceConfigTypes, ServiceFieldsV1(db.service, WindowState(db.service.window))))
  }

  /** The version-2 state of a response, with both networking objects known. */
  function StateV2(db: Database, password: string): DatabaseModel
  {
    Model(db,
          ObjectValue(Known, ApplicationConfigV2Types, AppLiteralV2(db.app, password, RecoveryState(db.app.recovery))),
          ObjectValue(Known, ServiceConfigV2Types, ServiceFieldsV2(db.service, WindowState(db.service.window))))
  }

  /** A struct literal of attributes that already have the table's types becomes the known object of them. */
  lemma ObjectOfTyped(c: Custom, fields: map<string, Value>)
    requires AttrsMatch(AttrTypes(c), fields)
    requires forall n | n in fields :: WellFormed(fields[n])
    requires c == ServiceConfigV1 ==> fields["remote_ips"].state == Known
    ensures ToObjectValue(EntityValue(c, Null, fields)) == Returned((ObjectValue(Known, AttrTypes(c), fields), []))
  {
    var e := EntityValue(c, Null, fields);
    RebuiltOfTyped(c, fields);
    if c == ServiceConfigV1 {
      assert ServiceConfigTypes["remote_ips"] == ListType(StringType);
      ServiceConfigRemoteIps(e);
    } else {
      assert ToObjectValue(e) == Returned(NewObject(AttrTypes(c), fields));
    }
  }

  /** The nested objects of attributes that already have the table's types are rebuilt as they are. */
  lemma RebuiltOfTyped(c: Custom, fields: map<string, Value>)
    requires AttrsMatch(AttrTypes(c), fields)
    requires forall n | n in fields :: WellFormed(fields[n])
    ensures !RebuildPanics(EntityValue(c, Null, fields))
    ensures Rebuilt(EntityValue(c, Null, fields)) == fields
  {
    var e := EntityValue(c, Null, fields);
    var ts, nested := AttrTypes(c), Nested(c);
    forall n | n in nested
      ensures n in fields && WellFormed(fields[n]) && TypeOf(fields[n]) == ObjectType(nested[n])
    {
    }
    OverTyped(ts, nested, e);
  }

  lemma LiteralOfTyped(c: Custom, fields: map<string, Value>)
    requires c != ServiceConfigV1
    requires AttrsMatch(AttrTypes(c), fields)
    requires forall n | n in fields :: WellFormed(fields[n])
    ensures Literal(c, fields) == Returned(ObjectValue(Known, AttrTypes(c), fields))
  {
    ObjectOfTyped(c, fields);
  }

  lemma ScheduleObject(kind: Custom, b: Backups)
    requires kind == ScheduleV1 || kind == ScheduleV2
    ensures Literal(kind, ScheduleFields(b)) == Returned(ObjectValue(Known, ScheduleTypes, ScheduleFields(b)))
  {
    ScheduleFieldsMatch(b);
    assert AttrTypes(kind) == ScheduleTypes;
    LiteralOfTyped(kind, ScheduleFields(b));
  }

  lemma ScheduleFieldsMatch(b: Backups)
    ensures AttrsMatch(ScheduleTypes, ScheduleFields(b))
    ensures forall n | n in ScheduleFields(b) :: WellFormed(ScheduleFields(b)[n])
  {
  }

  lemma BackupsObjectState(scheduleKind: Custom, backupsKind: Custom, b: Backups)
    requires (scheduleKind, backupsKind) == (ScheduleV1, ScheduledBackupsV1) || (scheduleKind, backupsKind) == (ScheduleV2, ScheduledBackupsV2)
    ensures BackupsObject(scheduleKind, backupsKind, b) == Returned(BackupsState(b))
  {
    ScheduleObject(scheduleKind, b);
    var fields := map["schedule" := ObjectValue(Known, ScheduleTypes, ScheduleFields(b)), "retention" := Int(b.retention)];
    BackupsFieldsMatch(b);
    LiteralOfTyped(backupsKind, fields);
  }

  lemma BackupsFieldsMatch(b: Backups)
    ensures var fields := map["schedule" := ObjectValue(Known, ScheduleTypes, ScheduleFields(b)), "retention" := Int(b.retention)];
      AttrsMatch(ScheduledBackupsTypes, fields) && forall n | n in fields :: WellFormed(fields[n])
  {
    var fields := map["schedule" := ObjectValue(Known, ScheduleTypes, ScheduleFields(b)), "retention" := Int(b.retention)];
    assert AttrsMatch(ScheduleTypes, ScheduleFields(b));
    assert WellFormed(fields["schedule"]);
    assert forall n | n in fields :: n == "schedule" || n == "retention";
  }

  lemma RecoveryObjectState(c: Custom, r: Option<Recovery>)
    requires c == RecoveryV1 || c == RecoveryV2
    ensures RecoveryObject(c, r) == Returned(RecoveryLiteral(r))
  {
    if r.Some? {
      RecoveryFieldsMatch(r.value);
      assert AttrTypes(c) == RecoveryTypes;
      LiteralOfTyped(c, RecoveryFields(r.value));
    }
  }

  lemma RecoveryFieldsMatch(r: Recovery)
    ensures AttrsMatch(RecoveryTypes, RecoveryFields(r))
    ensures forall n | n in RecoveryFields(r) :: WellFormed(RecoveryFields(r)[n])
  {
  }

  lemma WindowObject(c: Custom, w: Window)
    requires c == MaintenanceWindowV1 || c == MaintenanceWindowV2
    ensures Literal(c, WindowFields(w)) == Returned(WindowState(w))
  {
    WindowFieldsMatch(w);
    assert AttrTypes(c) == MaintenanceWindowTypes;
    LiteralOfTyped(c, WindowFields(w));
  }

  lemma WindowFieldsMatch(w: Window)
    ensures AttrsMatch(MaintenanceWindowTypes, WindowFields(w))
    ensures forall n | n in WindowFields(w) :: WellFormed(WindowFields(w)[n])
  {
  }

  lemma StringsWellFormed(ss: seq<string>)
    ensures WellFormed(Strings(ss)) && TypeOf(Strings(ss)) == ListType(StringType)
  {
  }

  lemma PrivateObject(n: Network)
    ensures Literal(PrivateNetworkConfigV2, PrivateFields(n)) ==
      Returned(ObjectValue(Known, PrivateNetworkConfigTypes, PrivateFields(n)))
  {
    PrivateFieldsMatch(n);
    LiteralOfTyped(PrivateNetworkConfigV2, PrivateFields(n));
  }

  lemma PrivateFieldsMatch(n: Network)
    ensures AttrsMatch(PrivateNetworkConfigTypes, PrivateFields(n))
    ensures forall k | k in PrivateFields(n) :: WellFormed(PrivateFields(n)[k])
  {
    PrivateFieldsTyped(n);
    PrivateFieldsWellFormed(n);
  }

  lemma PrivateFieldsTyped(n: Network)
    ensures AttrsMatch(PrivateNetworkConfigTypes, PrivateFields(n))
  {
    var fields := PrivateFields(n);
    StringsWellFormed(n.allowedCidrs);
    assert forall k | k in fields :: k in PrivateNetworkConfigTypes && TypeOf(fields[k]) == PrivateNetworkConfigTypes[k];
    assert forall k | k in PrivateNetworkConfigTypes :: k in fields;
  }

  lemma PrivateFieldsWellFormed(n: Network)
    ensures forall k | k in PrivateFields(n) :: WellFormed(PrivateFields(n)[k])
  {
    StringsWellFormed(n.allowedCidrs);
  }

  lemma PublicObject(n: Network)
    ensures Literal(PublicNetworkConfigV2, PublicFields(n)) ==
      Returned(ObjectValue(Known, PublicNetworkConfigTypes, PublicFields(n)))
  {
    PublicFieldsMatch(n);
    LiteralOfTyped(PublicNetworkConfigV2, PublicFields(n));
  }

  /** The recovery field a converter hands to the application config: a zero object or a known one. */
  function RecoveryLiteral(r: Option<Recovery>): Value
  {
    if r.None? then Zero(ObjectType(map[])) else RecoveryState(r)
  }

  lemma ServiceObjectV1(s: Service)
    ensures ToObjectValue(EntityValue(ServiceConfigV1, Null, ServiceFieldsV1(s, WindowState(s.window)))) ==
      Returned((ObjectValue(Known, ServiceConfigTypes, ServiceFieldsV1(s, WindowState(s.window))), []))
  {
    ServiceFieldsV1Match(s);
    ObjectOfTyped(ServiceConfigV1, ServiceFieldsV1(s, WindowState(s.window)));
  }

  lemma ServiceObjectV2(s: Service)
    ensures ToObjectValue(EntityValue(ServiceConfigV2, Null, ServiceFieldsV2(s, WindowState(s.window)))) ==
      Returned((ObjectValue(Known, ServiceConfigV2Types, ServiceFieldsV2(s, WindowState(s.window))), []))
  {
    ServiceFieldsV2Match(s);
    ObjectOfTyped(ServiceConfigV2, ServiceFieldsV2(s, WindowState(s.window)));
  }

  lemma WindowStateWellFormed(w: Window)
    ensures WellFormed(WindowState(w)) && TypeOf(WindowState(w)) == ObjectType(MaintenanceWindowTypes)
  {
    assert AttrsMatch(MaintenanceWindowTypes, WindowFields(w));
  }

  lemma ServiceFieldsV1Match(s: Service)
    ensures AttrsMatch(ServiceConfigTypes, ServiceFieldsV1(s, WindowState(s.window)))
    ensures forall k | k in ServiceFieldsV1(s, WindowState(s.window)) :: WellFormed(ServiceFieldsV1(s, WindowState(s.window))[k])
  {
    var fields := ServiceFieldsV1(s, WindowState(s.window));
    StringsWellFormed(s.remoteIps);
    WindowStateWellFormed(s.window);
    assert forall k | k in fields :: k in ServiceConfigTypes && TypeOf(fields[k]) == ServiceConfigTypes[k];
    assert forall k | k in ServiceConfigTypes :: k in fields;
  }

  lemma ServiceFieldsV2Match(s: Service)
    ensures AttrsMatch(ServiceConfigV2Types, ServiceFieldsV2(s, WindowState(s.window)))
    ensures forall k | k in ServiceFieldsV2(s, WindowState(s.window)) :: WellFormed(ServiceFieldsV2(s, WindowState(s.window))[k])
  {
    var fields := ServiceFieldsV2(s, WindowState(s.window));
    WindowStateWellFormed(s.window);
    assert forall k | k in fields :: k in ServiceConfigV2Types && TypeOf(fields[k]) == ServiceConfigV2Types[k];
    assert forall k | k in ServiceConfigV2Types :: k in fields;
  }

  /**
   * A struct literal whose fields have the table's types except one nested
   * object that is null and untyped (a zero `basetypes.ObjectValue`): that
   * one comes back as the typed null object.
   */
  lemma ObjectOfFieldsExcept(c: Custom, fields: map<string, Value>, k: string)
    requires c != ServiceConfigV1
    requires fields.Keys == AttrTypes(c).Keys
    requires k in Nested(c)
    requires forall n | n in fields :: WellFormed(fields[n])
    requires forall n | n in fields && n != k :: TypeOf(fields[n]) == AttrTypes(c)[n]
    requires fields[k].ObjectValue? && fields[k].state == Null
    ensures ToObjectValue(EntityValue(c, Null, fields)) ==
      Returned((ObjectValue(Known, AttrTypes(c), fields[k := NullOf(AttrTypes(c)[k])]), []))
  {
    var e := EntityValue(c, Null, fields);
    var target := fields[k := NullOf(AttrTypes(c)[k])];
    RebuiltExcept(c, fields, k);
    ExceptMatches(c, fields, k);
    assert ToObjectValue(e) == Returned(NewObject(AttrTypes(c), target));
  }

  lemma RebuiltExcept(c: Custom, fields: map<string, Value>, k: string)
    requires fields.Keys == AttrTypes(c).Keys
    requires k in Nested(c)
    requires forall n | n in fields :: WellFormed(fields[n])
    requires forall n | n in fields && n != k :: TypeOf(fields[n]) == AttrTypes(c)[n]
    requires fields[k].ObjectValue? && fields[k].state == Null
    ensures !RebuildPanics(EntityValue(c, Null, fields))
    ensures Rebuilt(EntityValue(c, Null, fields)) == fields[k := NullOf(AttrTypes(c)[k])]
  {
    var e := EntityValue(c, Null, fields);
    var ts, nested := AttrTypes(c), Nested(c);
    forall n | n in nested && n != k
      ensures n in fields && WellFormed(fields[n]) && TypeOf(fields[n]) == ObjectType(nested[n])
    {
    }
    OverExcept(ts, nested, e, k);
  }

  lemma ExceptMatches(c: Custom, fields: map<string, Value>, k: string)
    requires fields.Keys == AttrTypes(c).Keys
    requires k in Nested(c)
    requires forall n | n in fields && n != k :: TypeOf(fields[n]) == AttrTypes(c)[n]
    ensures AttrsMatch(AttrTypes(c), fields[k := NullOf(AttrTypes(c)[k])])
  {
    var ts := AttrTypes(c);
    assert k in ts && ts[k] == ObjectType(Nested(c)[k]);
    ExceptMatchesIn(ts, fields, k);
  }

  lemma ExceptMatchesIn(ts: map<string, AttrType>, fields: map<string, Value>, k: string)
    requires fields.Keys == ts.Keys && k in ts && ts[k].ObjectType?
    requires forall n | n in fields && n != k :: TypeOf(fields[n]) == ts[n]
    ensures AttrsMatch(ts, fields[k := NullOf(ts[k])])
  {
  }

  /** The application config literal of a response: typed except for a recovery the response lacks. */
  lemma AppFieldsV1Typed(a: App, password: string)
    ensures var fields := AppFieldsV1(a, password, BackupsState(a.backups), RecoveryLiteral(a.recovery));
      && fields.Keys == ApplicationConfigTypes.Keys
      && (forall n | n in fields :: WellFormed(fields[n]))
      && (forall n | n in fields && n != "recovery" :: TypeOf(fields[n]) == ApplicationConfigTypes[n])
  {
    AppFieldsV1WellFormed(a, password);
    AppFieldsV1Types(a, password);
  }

  lemma AppFieldsV1WellFormed(a: App, password: string)
    ensures var fields := AppFieldsV1(a, password, BackupsState(a.backups), RecoveryLiteral(a.recovery));
      forall n | n in fields :: WellFormed(fields[n])
  {
    BackupsStateWellFormed(a.backups);
    RecoveryStateWellFormed(a.recovery);
    AppFieldsV1Shape(a, password, BackupsState(a.backups), RecoveryLiteral(a.recovery));
  }

  lemma AppFieldsV1Types(a: App, password: string)
    ensures var fields := AppFieldsV1(a, password, BackupsState(a.backups), RecoveryLiteral(a.recovery));
      && fields.Keys == ApplicationConfigTypes.Keys
      && (forall n | n in fields && n != "recovery" :: TypeOf(fields[n]) == ApplicationConfigTypes[n])
  {
    BackupsStateWellFormed(a.backups);
    AppFieldsV1Keys(a, password, BackupsState(a.backups), RecoveryLiteral(a.recovery));
    AppFieldsV1TypesOf(a, password, BackupsState(a.backups), RecoveryLiteral(a.recovery));
  }

  /** The version-1 application config literal over arbitrary nested values. */
  lemma AppFieldsV1Shape(a: App, password: string, backups: Value, recovery: Value)
    requires WellFormed(backups) && WellFormed(recovery)
    ensures var fields := AppFieldsV1(a, password, backups, recovery);
      forall n | n in fields :: WellFormed(fields[n])
  {
  }

  lemma AppFieldsV1Keys(a: App, password: string, backups: Value, recovery: Value)
    ensures AppFieldsV1(a, password, backups, recovery).Keys == ApplicationConfigTypes.Keys
  {
  }

  lemma AppFieldsV1TypesOf(a: App, password: string, backups: Value, recovery: Value)
    requires TypeOf(backups) == ObjectType(ScheduledBackupsTypes)
    ensures var fields := AppFieldsV1(a, password, backups, recovery);
      forall n | n in fields && n != "recovery" :: n in ApplicationConfigTypes && TypeOf(fields[n]) == ApplicationConfigTypes[n]
  {
  }

  lemma BackupsStateWellFormed(b: Backups)
    ensures WellFormed(BackupsState(b)) && TypeOf(BackupsState(b)) == ObjectType(ScheduledBackupsTypes)
  {
    BackupsFieldsMatch(b);
  }

  lemma RecoveryStateWellFormed(r: Option<Recovery>)
    ensures WellFormed(RecoveryState(r)) && TypeOf(RecoveryState(r)) == ObjectType(RecoveryTypes)
    ensures WellFormed(RecoveryLiteral(r)) && RecoveryLiteral(r).ObjectValue?
  {
    if r.Some? {
      RecoveryFieldsMatch(r.value);
    }
  }

  lemma AppObjectV1(a: App, password: string)
    ensures ToObjectValue(EntityValue(ApplicationConfigV1, Null,
                                      AppFieldsV1(a, password, BackupsState(a.backups), RecoveryLiteral(a.recovery)))) ==
      Returned((ObjectValue(Known, ApplicationConfigTypes,
                            AppFieldsV1(a, password, BackupsState(a.backups), RecoveryState(a.recovery))), []))
  {
    var fields := AppFieldsV1(a, password, BackupsState(a.backups), RecoveryLiteral(a.recovery));
    AppFieldsV1Typed(a, password);
    if a.recovery.Some? {
      RecoveryStateWellFormed(a.recovery);
      assert TypeOf(fields["recovery"]) == ApplicationConfigTypes["recovery"];
      assert AttrsMatch(ApplicationConfigTypes, fields);
      ObjectOfTyped(ApplicationConfigV1, fields);
    } else {
      AppObjectV1Absent(a, password);
    }
  }

  lemma AppObjectV1Absent(a: App, password: string)
    requires a.recovery.None?
    ensures ToObjectValue(EntityValue(ApplicationConfigV1, Null,
                                      AppFieldsV1(a, password, BackupsState(a.backups), RecoveryLiteral(a.recovery)))) ==
      Returned((ObjectValue(Known, ApplicationConfigTypes,
                            AppFieldsV1(a, password, BackupsState(a.backups), RecoveryState(a.recovery))), []))
  {
    var fields := AppFieldsV1(a, password, BackupsState(a.backups), RecoveryLiteral(a.recovery));
    AppFieldsV1Except(a, password);
    AppV1RecoveryEntry();
    ObjectOfFieldsExcept(ApplicationConfigV1, fields, "recovery");
    AppFieldsV1Recovery(a, password, BackupsState(a.backups), RecoveryLiteral(a.recovery), RecoveryState(a.recovery));
  }

  /** The version-1 literal of an application config without recovery is typed except for its recovery. */
  lemma AppFieldsV1Except(a: App, password: string)
    requires a.recovery.None?
    ensures var fields := AppFieldsV1(a, password, BackupsState(a.backups), RecoveryLiteral(a.recovery));
      && fields.Keys == AttrTypes(ApplicationConfigV1).Keys
      && "recovery" in Nested(ApplicationConfigV1)
      && (forall n | n in fields :: WellFormed(fields[n]))
      && (forall n | n in fields && n != "recovery" :: TypeOf(fields[n]) == AttrTypes(ApplicationConfigV1)[n])
      && fields["recovery"].ObjectValue? && fields["recovery"].state == Null
  {
    AppFieldsV1Typed(a, password);
    AppV1RecoveryEntry();
    NestedHas(ApplicationConfigV1, "recovery");
  }

  lemma AppV1RecoveryEntry()
    ensures "recovery" in AttrTypes(ApplicationConfigV1)
    ensures AttrTypes(ApplicationConfigV1)["recovery"] == ObjectType(RecoveryTypes)
  {
    assert ApplicationConfigTypes["recovery"] == ObjectType(RecoveryTypes);
  }

  lemma AppFieldsV1Recovery(a: App, password: string, backups: Value, r1: Value, r2: Value)
    ensures AppFieldsV1(a, password, backups, r1)["recovery" := r2] == AppFieldsV1(a, password, backups, r2)
  {
  }

  function PrivateState(n: Network): Value
  {
    ObjectValue(Known, PrivateNetworkConfigTypes, PrivateFields(n))
  }

  function PublicState(n: Network): Value
  {
    ObjectValue(Known, PublicNetworkConfigTypes, PublicFields(n))
  }

  /** The version-2 application config literal of a response, with the recovery still as the converter builds it. */
  function AppLiteralV2(a: App, password: string, recovery: Value): map<string, Value>
  {
    AppFieldsV2(a, password, BackupsState(a.backups), recovery, PrivateState(a.privateNetwork), PublicState(a.publicNetwork))
  }

  lemma NetworkStatesWellFormed(a: App)
    ensures WellFormed(PrivateState(a.privateNetwork)) && TypeOf(PrivateState(a.privateNetwork)) == ObjectType(PrivateNetworkConfigTypes)
    ensures WellFormed(PublicState(a.publicNetwork)) && TypeOf(PublicState(a.publicNetwork)) == ObjectType(PublicNetworkConfigTypes)
  {
    PrivateFieldsMatch(a.privateNetwork);
    PublicFieldsMatch(a.publicNetwork);
  }

  lemma PublicFieldsMatch(n: Network)
    ensures AttrsMatch(PublicNetworkConfigTypes, PublicFields(n))
    ensures forall k | k in PublicFields(n) :: WellFormed(PublicFields(n)[k])
  {
    var fields := PublicFields(n);
    StringsWellFormed(n.allowedCidrs);
    assert forall k | k in fields :: k in PublicNetworkConfigTypes && TypeOf(fields[k]) == PublicNetworkConfigTypes[k];
    assert forall k | k in PublicNetworkConfigTypes :: k in fields;
  }

  lemma AppFieldsV2WellFormed(a: App, password: string)
    ensures var fields := AppLiteralV2(a, password, RecoveryLiteral(a.recovery));
      forall n | n in fields :: WellFormed(fields[n])
  {
    BackupsStateWellFormed(a.backups);
    RecoveryStateWellFormed(a.recovery);
    NetworkStatesWellFormed(a);
    AppFieldsV2Shape(a, password, BackupsState(a.backups), RecoveryLiteral(a.recovery),
                     PrivateState(a.privateNetwork), PublicState(a.publicNetwork));
  }

  lemma AppFieldsV2Types(a: App, password: string)
    ensures var fields := AppLiteralV2(a, password, RecoveryLiteral(a.recovery));
      && fields.Keys == ApplicationConfigV2Types.Keys
      && (forall n | n in fields && n != "recovery" :: TypeOf(fields[n]) == ApplicationConfigV2Types[n])
  {
    BackupsStateWellFormed(a.backups);
    NetworkStatesWellFormed(a);
    AppFieldsV2Keys(a, password, BackupsState(a.backups), RecoveryLiteral(a.recovery),
                    PrivateState(a.privateNetwork), PublicState(a.publicNetwork));
    AppFieldsV2TypesOf(a, password, BackupsState(a.backups), RecoveryLiteral(a.recovery),
                       PrivateState(a.privateNetwork), PublicState(a.publicNetwork));
  }

  /** The version-2 application config literal over arbitrary nested values. */
  lemma AppFieldsV2Shape(a: App, password: string, backups: Value, recovery: Value, privateNetwork: Value, publicNetwork: Value)
    requires WellFormed(backups) && WellFormed(recovery) && WellFormed(privateNetwork) && WellFormed(publicNetwork)
    ensures var fields := AppFieldsV2(a, password, backups, recovery, privateNetwork, publicNetwork);
      forall n | n in fields :: WellFormed(fields[n])
  {
  }

  lemma AppFieldsV2Keys(a: App, password: string, backups: Value, recovery: Value, privateNetwork: Value, publicNetwork: Value)
    ensures AppFieldsV2(a, password, backups, recovery, privateNetwork, publicNetwork).Keys == ApplicationConfigV2Types.Keys
  {
  }

  lemma AppFieldsV2TypesOf(a: App, password: string, backups: Value, recovery: Value, privateNetwork: Value, publicNetwork: Value)
    requires TypeOf(backups) == ObjectType(ScheduledBackupsTypes)
    requires TypeOf(privateNetwork) == ObjectType(PrivateNetworkConfigTypes)
    requires TypeOf(publicNetwork) == ObjectType(PublicNetworkConfigTypes)
    ensures var fields := AppFieldsV2(a, password, backups, recovery, privateNetwork, publicNetwork);
      forall n | n in fields && n != "recovery" :: n in ApplicationConfigV2Types && TypeOf(fields[n]) == ApplicationConfigV2Types[n]
  {
    AppV2PlainTypes();
    AppV2NestedTypes();
    AppFieldsV2TypesIn(ApplicationConfigV2Types, a, password, backups, recovery, privateNetwork, publicNetwork);
  }

  lemma AppFieldsV2TypesIn(ts: map<string, AttrType>, a: App, password: string, backups: Value, recovery: Value,
                           privateNetwork: Value, publicNetwork: Value)
    requires "type" in ts && ts["type"] == StringType && "password" in ts && ts["password"] == StringType
    requires "version" in ts && ts["version"] == StringType && "instances" in ts && ts["instances"] == Int64Type
    requires "scheduled_backups" in ts && TypeOf(backups) == ts["scheduled_backups"]
    requires "private_networking" in ts && TypeOf(privateNetwork) == ts["private_networking"]
    requires "public_networking" in ts && TypeOf(publicNetwork) == ts["public_networking"]
    ensures var fields := AppFieldsV2(a, password, backups, recovery, privateNetwork, publicNetwork);
      forall n | n in fields && n != "recovery" :: n in ts && TypeOf(fields[n]) == ts[n]
  {
  }

  lemma AppV2PlainTypes()
    ensures var ts := ApplicationConfigV2Types;
      && "type" in ts && ts["type"] == StringType && "password" in ts && ts["password"] == StringType
      && "version" in ts && ts["version"] == StringType && "instances" in ts && ts["instances"] == Int64Type
  {
  }

  lemma AppV2NestedTypes()
    ensures var ts := ApplicationConfigV2Types;
      && "scheduled_backups" in ts && ts["scheduled_backups"] == ObjectType(ScheduledBackupsTypes)
      && "private_networking" in ts && ts["private_networking"] == ObjectType(PrivateNetworkConfigTypes)
      && "public_networking" in ts && ts["public_networking"] == ObjectType(PublicNetworkConfigTypes)
  {
  }

  lemma AppObjectV2(a: App, password: string)
    ensures ToObjectValue(EntityValue(ApplicationConfigV2, Null, AppLiteralV2(a, password, RecoveryLiteral(a.recovery)))) ==
      Returned((ObjectValue(Known, ApplicationConfigV2Types, AppLiteralV2(a, password, RecoveryState(a.recovery))), []))
  {
    var fields := AppLiteralV2(a, password, RecoveryLiteral(a.recovery));
    AppFieldsV2WellFormed(a, password);
    AppFieldsV2Types(a, password);
    if a.recovery.Some? {
      RecoveryStateWellFormed(a.recovery);
      assert TypeOf(fields["recovery"]) == ApplicationConfigV2Types["recovery"];
      assert AttrsMatch(ApplicationConfigV2Types, fields);
      ObjectOfTyped(ApplicationConfigV2, fields);
    } else {
      AppObjectV2Absent(a, password);
    }
  }

  lemma AppObjectV2Absent(a: App, password: string)
    requires a.recovery.None?
    ensures ToObjectValue(EntityValue(ApplicationConfigV2, Null, AppLiteralV2(a, password, RecoveryLiteral(a.recovery)))) ==
      Returned((ObjectValue(Known, ApplicationConfigV2Types, AppLiteralV2(a, password, RecoveryState(a.recovery))), []))
  {
    var fields := AppLiteralV2(a, password, RecoveryLiteral(a.recovery));
    AppFieldsV2Except(a, password);
    AppV2RecoveryNull(a.recovery);
    ObjectOfFieldsExcept(ApplicationConfigV2, fields, "recovery");
    AppFieldsV2Recovery(a, password, BackupsState(a.backups), RecoveryLiteral(a.recovery), RecoveryState(a.recovery),
                        PrivateState(a.privateNetwork), PublicState(a.publicNetwork));
  }

  /** The version-2 literal of an application config without recovery is typed except for its recovery. */
  lemma AppFieldsV2Except(a: App, password: string)
    requires a.recovery.None?
    ensures var fields := AppLiteralV2(a, password, RecoveryLiteral(a.recovery));
      && fields.Keys == AttrTypes(ApplicationConfigV2).Keys
      && "recovery" in Nested(ApplicationConfigV2)
      && (forall n | n in fields :: WellFormed(fields[n]))
      && (forall n | n in fields && n != "recovery" :: TypeOf(fields[n]) == AttrTypes(ApplicationConfigV2)[n])
      && fields["recovery"].ObjectValue? && fields["recovery"].state == Null
  {
    AppFieldsV2WellFormed(a, password);
    AppFieldsV2Types(a, password);
    AppV2RecoveryEntry();
    NestedHas(ApplicationConfigV2, "recovery");
  }

  /** The typed null recovery of the version-2 table is the state of an absent recovery. */
  lemma AppV2RecoveryNull(r: Option<Recovery>)
    requires r.None?
    ensures NullOf(AttrTypes(ApplicationConfigV2)["recovery"]) == RecoveryState(r)
  {
    AppV2RecoveryEntry();
  }

  lemma AppV2RecoveryEntry()
    ensures "recovery" in AttrTypes(ApplicationConfigV2)
    ensures AttrTypes(ApplicationConfigV2)["recovery"] == ObjectType(RecoveryTypes)
  {
    assert ApplicationConfigV2Types["recovery"] == ObjectType(RecoveryTypes);
  }

  lemma AppFieldsV2Recovery(a: App, password: string, backups: Value, r1: Value, r2: Value,
                            privateNetwork: Value, publicNetwork: Value)
    ensures AppFieldsV2(a, password, backups, r1, privateNetwork, publicNetwork)["recovery" := r2] ==
      AppFieldsV2(a, password, backups, r2, privateNetwork, publicNetwork)
  {
  }

  // ---------------------------------------------------------------------
  // What a response becomes

  /**
   * The version-1 converter never panics and never reports a diagnostic on
   * a response: the state holds the response's values, known nested
   * objects of the tables, a typed null recovery when the response has
   * none, and the password it was given.
   */
  lemma ResponseToModelV1State(db: Database, password: string)
    ensures ResponseToModelV1(db, password) == Returned((StateV1(db, password), []))
  {
    RecoveryObjectState(RecoveryV1, db.app.recovery);
    assert RecoveryObject(RecoveryV1, db.app.recovery) == Returned(RecoveryLiteral(db.app.recovery));
    BackupsObjectState(ScheduleV1, ScheduledBackupsV1, db.app.backups);
    WindowObject(MaintenanceWindowV1, db.service.window);
    ServiceObjectV1(db.service);
    AppObjectV1(db.app, password);
  }

  /** The version-2 converter likewise, with both networking objects known. */
  lemma ResponseToModelV2State(db: Database, password: string)
    ensures ResponseToModelV2(db, password) == Returned((StateV2(db, password), []))
  {
    RecoveryObjectState(RecoveryV2, db.app.recovery);
    assert RecoveryObject(RecoveryV2, db.app.recovery) == Returned(RecoveryLiteral(db.app.recovery));
    BackupsObjectState(ScheduleV2, ScheduledBackupsV2, db.app.backups);
    WindowObject(MaintenanceWindowV2, db.service.window);
    PrivateObject(db.app.privateNetwork);
    PublicObject(db.app.publicNetwork);
    ServiceObjectV2(db.service);
    AppObjectV2(db.app, password);
  }

  // ---------------------------------------------------------------------
  // The password carried over

  /**
   * A known password is carried over as it is exactly when it needs no
   * escape in its `%q` rendering; both versions carry the same text.
   */
  lemma PasswordKept(app: Value, p: string)
    requires "password" in Attributes(app) && Attributes(app)["password"] == Str(p)
    ensures PasswordV1(app) == p <==> NoEscapes(p)
    ensures PasswordV2(app) == Returned(PasswordV1(app))
  {
    RenderTrim(Str(p));
    if !NoEscapes(p) {
      RenderTrimChanges(p);
    }
  }

  /** A null or unknown password attribute is carried over as the text `<null>` or `<unknown>`. */
  lemma PasswordMarkers(app: Value)
    requires "password" in Attributes(app) && Attributes(app)["password"].StringValue?
    ensures Attributes(app)["password"].state == Null ==> PasswordV1(app) == "<null>"
    ensures Attributes(app)["password"].state == Unknown ==> PasswordV1(app) == "<unknown>"
  {
    RenderTrim(Attributes(app)["password"]);
  }

  /**
   * Version 2 panics exactly where version 1 falls back to "" (no password
   * attribute, as for a null or unknown application config), and otherwise
   * carries over the same text.
   */
  lemma PasswordV2PanicsWhereV1Defaults(app: Value)
    ensures PasswordV2(app).Panicked? <==> "password" !in Attributes(app)
    ensures PasswordV2(app).Panicked? ==> PasswordV1(app) == ""
    ensures PasswordV2(app).Returned? ==> PasswordV2(app).value == PasswordV1(app)
    ensures app.state != Known ==> PasswordV2(app).Panicked?
  {
  }

  /** The password attribute of a state a converter built holds the password it was given. */
  lemma StoredPasswordV1(db: Database, password: string)
    ensures "password" in Attributes(StateV1(db, password).applicationConfig)
    ensures Attributes(StateV1(db, password).applicationConfig)["password"] == Str(password)
  {
  }

  lemma StoredPasswordV2(db: Database, password: string)
    ensures "password" in Attributes(StateV2(db, password).applicationConfig)
    ensures Attributes(StateV2(db, password).applicationConfig)["password"] == Str(password)
  {
  }

  /**
   * Reading a state back gives the password it holds exactly when that
   * password needs no escape. Otherwise each read stores a longer password
   * that again needs an escape, so repeated reads drift without end; the
   * same holds for version 2 whenever it returns.
   */
  lemma ReadKeepsPassword(db: Database, previous: DatabaseModel)
    ensures GetResponseToModel(db, previous).Returned?
    ensures var p := PasswordV1(previous.applicationConfig);
      var q := PasswordV1(GetResponseToModel(db, previous).value.0.applicationConfig);
      && (q == p <==> NoEscapes(p))
      && (!NoEscapes(p) ==> |q| > |p| && !NoEscapes(q))
    ensures GetResponseToModelV2(db, previous).Returned? <==> "password" in Attributes(previous.applicationConfig)
    ensures GetResponseToModelV2(db, previous).Returned? ==>
      PasswordV2(GetResponseToModelV2(db, previous).value.0.applicationConfig) ==
      Returned(PasswordV1(GetResponseToModel(db, previous).value.0.applicationConfig))
  {
    ReadKeepsPasswordV1(db, previous);
    ReadKeepsPasswordV2(db, previous);
  }

  lemma ReadKeepsPasswordV1(db: Database, previous: DatabaseModel)
    ensures GetResponseToModel(db, previous).Returned?
    ensures var p := PasswordV1(previous.applicationConfig);
      var q := PasswordV1(GetResponseToModel(db, previous).value.0.applicationConfig);
      && (q == p <==> NoEscapes(p))
      && (!NoEscapes(p) ==> |q| > |p| && !NoEscapes(q))
  {
    var p := PasswordV1(previous.applicationConfig);
    ResponseToModelV1State(db, p);
    StoredPasswordV1(db, p);
    PasswordKept(StateV1(db, p).applicationConfig, p);
    if !NoEscapes(p) {
      RenderTrimChanges(p);
    }
  }

  lemma ReadKeepsPasswordV2(db: Database, previous: DatabaseModel)
    ensures GetResponseToModel(db, previous).Returned?
    ensures GetResponseToModelV2(db, previous).Returned? <==> "password" in Attributes(previous.applicationConfig)
    ensures GetResponseToModelV2(db, previous).Returned? ==>
      PasswordV2(GetResponseToModelV2(db, previous).value.0.applicationConfig) ==
      Returned(PasswordV1(GetResponseToModel(db, previous).value.0.applicationConfig))
  {
    var p := PasswordV1(previous.applicationConfig);
    ResponseToModelV1State(db, p);
    ResponseToModelV2State(db, p);
    StoredPasswordV1(db, p);
    StoredPasswordV2(db, p);
    PasswordKept(StateV1(db, p).applicationConfig, p);
    PasswordKept(StateV2(db, p).applicationConfig, p);
  }

  /**
   * Create stores the plan's password when it is known and needs no
   * escape, and every other attribute from the response.
   */
  lemma CreateStoresPlanPassword(db: Database, plan: DatabaseModel, p: string)
    requires "password" in Attributes(plan.applicationConfig) && Attributes(plan.applicationConfig)["password"] == Str(p)
    requires NoEscapes(p)
    ensures CreateResponseToModel(db, plan) == Returned((StateV1(db, p), []))
    ensures CreateResponseToModelV2(db, plan) == Returned((StateV2(db, p), []))
  {
    PasswordKept(plan.applicationConfig, p);
    ResponseToModelV1State(db, p);
    ResponseToModelV2State(db, p);
  }

  /**
   * A configured password ending in a double quote is stored with a
   * backslash in place of that quote.
   */
  lemma PasswordEndingInQuoteLost(x: string)
    requires NoEscapes(x)
    ensures var app := ObjectValue(Known, map["password" := StringType], map["password" := Str(x + "\"")]);
      PasswordV1(app) == x + "\\" && PasswordIntended(app) == x + "\""
  {
    TrailingQuoteBecomesBackslash(x);
  }

  /**
   * A configured password ending in a backslash is stored with that
   * backslash doubled.
   */
  lemma PasswordBackslashDoubled(x: string)
    requires NoEscapes(x)
    ensures var app := ObjectValue(Known, map["password" := StringType], map["password" := Str(x + "\\")]);
      PasswordV1(app) == x + "\\\\" && PasswordIntended(app) == x + "\\"
  {
    TrailingBackslashDoubled(x);
  }

  /** The intended password is the configured string, whatever characters it holds, and it is stable under reads. */
  lemma IntendedPasswordKept(app: Value, p: string, db: Database)
    requires "password" in Attributes(app) && Attributes(app)["password"] == Str(p)
    ensures PasswordIntended(app) == p
    ensures PasswordIntended(StateV1(db, p).applicationConfig) == p
    ensures PasswordIntended(StateV2(db, p).applicationConfig) == p
  {
    StoredPasswordV1(db, p);
    StoredPasswordV2(db, p);
  }
}
