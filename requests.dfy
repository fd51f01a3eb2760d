/**
 * The requests the database resources send: the plan's service and
 * application configs go through their validating constructors, the nested
 * objects that are not unknown go through theirs and are projected onto the
 * SDK structs, and the create and update requests are assembled from the
 * parts. Any constructor error ends the building before the API is called.
 */
module Requests {
  import opened Framework
  import opened Entities
  import opened Sdk
  import opened Convert

  /** The two resource versions, `sys11dbaas_database` and its version-2 twin. */
  datatype Version = V1 | V2

  // ---------------------------------------------------------------------
  // The SDK request structs, as far as the resources fill them

  datatype ServiceRequestV1 = ServiceRequestV1(
    disksize: int, serviceType: string, flavor: string, region: string,
    maintenanceWindow: Option<MaintenanceWindowRequest>, remoteIps: seq<string>)

  datatype ServiceRequestV2 = ServiceRequestV2(
    disksize: int, serviceType: string, flavor: string, region: string,
    maintenanceWindow: Option<MaintenanceWindowRequest>)

  datatype ServiceUpdateV1 = ServiceUpdateV1(
    disksize: int, serviceType: string, flavor: string,
    maintenanceWindow: Option<MaintenanceWindowRequest>, remoteIps: seq<string>)

  datatype ServiceUpdateV2 = ServiceUpdateV2(
    disksize: int, serviceType: string, flavor: string, maintenanceWindow: Option<MaintenanceWindowRequest>)

  datatype AppRequestV1 = AppRequestV1(
    appType: string, password: string, instances: int, version: string,
    scheduledBackups: Option<ScheduledBackupsRequest>)

  datatype AppRequestV2 = AppRequestV2(
    appType: string, password: string, instances: int, version: string,
    scheduledBackups: Option<ScheduledBackupsRequest>,
    privateNetwork: Option<PrivateRequest>, publicNetwork: Option<PublicRequest>)

  datatype AppUpdateV1 = AppUpdateV1(
    password: string, instances: int, version: string, scheduledBackups: Option<ScheduledBackupsRequest>)

  datatype AppUpdateV2 = AppUpdateV2(
    password: string, instances: int, version: string, scheduledBackups: Option<ScheduledBackupsRequest>,
    privateNetwork: Option<PrivateRequest>, publicNetwork: Option<PublicRequest>)

  /** `CreatePostgreSQLRequestV1` and `CreatePostgreSQLRequestV2`. */
  datatype CreateRequest =
    | CreateV1(organization: string, project: string, name: string, description: string,
               service1: ServiceRequestV1, app1: AppRequestV1)
    | CreateV2(organization: string, project: string, name: string, description: string,
               service2: ServiceRequestV2, app2: AppRequestV2)

  /** `UpdatePostgreSQLRequestV1` and `UpdatePostgreSQLRequestV2`. */
  datatype UpdateRequest =
    | UpdateV1(uuid: string, organization: string, project: string, name: string, description: string,
               service1: ServiceUpdateV1, app1: AppUpdateV1)
    | UpdateV2(uuid: string, organization: string, project: string, name: string, description: string,
               service2: ServiceUpdateV2, app2: AppUpdateV2)

  /** What the plan's configs become before a request is assembled. */
  datatype Parts = Parts(
    service: EntityValue, remoteIps: seq<string>, window: Option<MaintenanceWindowRequest>,
    app: EntityValue, backups: Option<ScheduledBackupsRequest>,
    privateNetwork: Option<PrivateRequest>, publicNetwork: Option<PublicRequest>)

  // ---------------------------------------------------------------------
  // The kinds each version constructs

  function ServiceKind(v: Version): Custom
  {
    if v == V1 then ServiceConfigV1 else ServiceConfigV2
  }

  function AppKind(v: Version): Custom
  {
    if v == V1 then ApplicationConfigV1 else ApplicationConfigV2
  }

  function WindowKind(v: Version): Custom
  {
    if v == V1 then MaintenanceWindowV1 else MaintenanceWindowV2
  }

  function BackupsKind(v: Version): Custom
  {
    if v == V1 then ScheduledBackupsV1 else ScheduledBackupsV2
  }

  /** `NewXValue(v.AttributeTypes(ctx), v.Attributes())` on a framework object. */
  function Built(c: Custom, v: Value): EntityValue
  {
    Construct(c, ObjectTypes(v), Attributes(v))
  }

  // ---------------------------------------------------------------------
  // One nested object: skipped when unknown, converted otherwise

  /** The nested object converts without error: it is unknown, or its constructor accepts it. */
  predicate Converts(c: Custom, v: Value)
  {
    v.state == Unknown || Built(c, v).state == Known
  }

  /** A nested scheduled backups object converts, including the schedule built inside it. */
  predicate BackupsConvert(c: Custom, v: Value)
  {
    v.state == Unknown || (Built(c, v).state == Known && ScheduleOf(Built(c, v)).state == Known)
  }

  /** The request pointer of a nested object: nil when it is unknown. */
  function WindowPart(c: Custom, v: Value): Option<MaintenanceWindowRequest>
  {
    if v.state == Unknown then None else Some(MaintenanceWindowToSdk(Built(c, v)).0)
  }

  function BackupsPart(c: Custom, v: Value): Option<ScheduledBackupsRequest>
  {
    if v.state == Unknown then None
    else
      var b := Built(c, v);
      Some(ScheduledBackupsRequest(IntPtr(Field(b, "retention")), ScheduleToSdk(ScheduleOf(b)).0))
  }

  function PrivatePart(v: Value): Option<PrivateRequest>
  {
    if v.state == Unknown then None else Some(PrivateRequestOf(Built(PrivateNetworkConfigV2, v)))
  }

  function PublicPart(v: Value): Option<PublicRequest>
  {
    if v.state == Unknown then None else Some(PublicRequestOf(Built(PublicNetworkConfigV2, v)))
  }

  /** The maintenance window block of the create and update methods. */
  method WindowRequest(c: Custom, v: Value) returns (r: Option<MaintenanceWindowRequest>, diags: seq<Diagnostic>)
    requires c == MaintenanceWindowV1 || c == MaintenanceWindowV2
    ensures HasError(diags) <==> !Converts(c, v)
    ensures !HasError(diags) ==> r == WindowPart(c, v)
  {
    r := None;
    diags := [];
    if v.state != Unknown {
      var obj, d := New(c, ObjectTypes(v), Attributes(v));
      diags := diags + d;
      if !HasError(diags) {
        var (w, d2) := MaintenanceWindowToSdk(obj);
        diags := diags + d2;
        if !HasError(diags) {
          r := Some(w);
        }
      }
    }
  }

  /** The scheduled backups block of the create and update methods. */
  method BackupsRequest(c: Custom, v: Value) returns (r: Option<ScheduledBackupsRequest>, diags: seq<Diagnostic>)
    requires c == ScheduledBackupsV1 || c == ScheduledBackupsV2
    ensures HasError(diags) <==> !BackupsConvert(c, v)
    ensures !HasError(diags) ==> r == BackupsPart(c, v)
  {
    r := None;
    diags := [];
    if v.state != Unknown {
      var obj, d := New(c, ObjectTypes(v), Attributes(v));
      diags := diags + d;
      if !HasError(diags) {
        var b, d2 := ScheduledBackupsToSdk(obj);
        diags := diags + d2;
        if !HasError(diags) {
          r := Some(b);
        }
      }
    }
  }

  /** The private networking block of the version-2 create and update methods. */
  method PrivateNetworkRequest(v: Value) returns (r: Option<PrivateRequest>, diags: seq<Diagnostic>)
    ensures HasError(diags) <==> !Converts(PrivateNetworkConfigV2, v)
    ensures !HasError(diags) ==> r == PrivatePart(v)
  {
    r := None;
    diags := [];
    if v.state != Unknown {
      var obj, d := New(PrivateNetworkConfigV2, ObjectTypes(v), Attributes(v));
      diags := diags + d;
      if HasError(diags) {
        return;
      }
      ConstructKnown(PrivateNetworkConfigV2, ObjectTypes(v), Attributes(v));
      var p, d2 := PrivateToRequest(obj);
      diags := diags + d2;
      r := Some(p);
    }
  }

  /** The public networking block of the version-2 create and update methods. */
  method PublicNetworkRequest(v: Value) returns (r: Option<PublicRequest>, diags: seq<Diagnostic>)
    ensures HasError(diags) <==> !Converts(PublicNetworkConfigV2, v)
    ensures !HasError(diags) ==> r == PublicPart(v)
  {
    r := None;
    diags := [];
    if v.state != Unknown {
      var obj, d := New(PublicNetworkConfigV2, ObjectTypes(v), Attributes(v));
      diags := diags + d;
      if HasError(diags) {
        return;
      }
      ConstructKnown(PublicNetworkConfigV2, ObjectTypes(v), Attributes(v));
      var p, d2 := PublicToRequest(obj);
      diags := diags + d2;
      r := Some(p);
    }
  }

  // ---------------------------------------------------------------------
  // The plan's configs

  /** The service config the resource constructs from the plan. */
  function ServiceOf(v: Version, plan: DatabaseModel): EntityValue
  {
    Built(ServiceKind(v), plan.serviceConfig)
  }

  /** The application config the resource constructs from the plan. */
  function AppOf(v: Version, plan: DatabaseModel): EntityValue
  {
    Built(AppKind(v), plan.applicationConfig)
  }

  /** The nested objects of a constructed service config convert: its maintenance window. */
  predicate ServiceNestedConvert(v: Version, service: EntityValue)
  {
    Converts(WindowKind(v), Field(service, "maintenance_window"))
  }

  /** The nested objects of a constructed application config convert: its backups and version 2's networking. */
  predicate AppNestedConvert(v: Version, app: EntityValue)
  {
    && BackupsConvert(BackupsKind(v), Field(app, "scheduled_backups"))
    && (v == V2 ==> Converts(PrivateNetworkConfigV2, Field(app, "private_networking")))
    && (v == V2 ==> Converts(PublicNetworkConfigV2, Field(app, "public_networking")))
  }

  /** Every conversion of the plan succeeds. */
  predicate PlanConverts(v: Version, plan: DatabaseModel)
  {
    var service := ServiceOf(v, plan);
    var app := AppOf(v, plan);
    service.state == Known && ServiceNestedConvert(v, service) && app.state == Known && AppNestedConvert(v, app)
  }

  /** The remote IPs version 1 sends with the service config; version 2 has none. */
  function RemoteIpsOf(v: Version, service: EntityValue): seq<string>
  {
    if v == V1 then CidrList(Elements(Field(service, "remote_ips"))) else []
  }

  /** The request pointers of the application config's nested objects. */
  function AppNested(v: Version, app: EntityValue)
    : (Option<ScheduledBackupsRequest>, Option<PrivateRequest>, Option<PublicRequest>)
  {
    (BackupsPart(BackupsKind(v), Field(app, "scheduled_backups")),
     if v == V2 then PrivatePart(Field(app, "private_networking")) else None,
     if v == V2 then PublicPart(Field(app, "public_networking")) else None)
  }

  /** The parts of a plan that converts: the two configs and the requests of their nested objects. */
  function PartsOf(v: Version, plan: DatabaseModel): Parts
  {
    var service := ServiceOf(v, plan);
    var app := AppOf(v, plan);
    var (backups, privateNetwork, publicNetwork) := AppNested(v, app);
    Parts(service, RemoteIpsOf(v, service), WindowPart(WindowKind(v), Field(service, "maintenance_window")),
          app, backups, privateNetwork, publicNetwork)
  }

  /** What the code does with a constructed service config: version 1's remote IPs, the maintenance window. */
  method ServiceRequests(v: Version, service: EntityValue)
    returns (ipList: seq<string>, window: Option<MaintenanceWindowRequest>, diags: seq<Diagnostic>)
    ensures HasError(diags) <==> !ServiceNestedConvert(v, service)
    ensures ipList == RemoteIpsOf(v, service)
    ensures !HasError(diags) ==> window == WindowPart(WindowKind(v), Field(service, "maintenance_window"))
  {
    ipList := [];
    if v == V1 {
      ipList := CollectCidrs(Field(service, "remote_ips"));
    }
    window, diags := WindowRequest(WindowKind(v), Field(service, "maintenance_window"));
  }

  /** What the code does with a constructed application config: its backups and version 2's networking. */
  method AppRequests(v: Version, app: EntityValue)
    returns (backups: Option<ScheduledBackupsRequest>, privateNetwork: Option<PrivateRequest>,
             publicNetwork: Option<PublicRequest>, diags: seq<Diagnostic>)
    ensures HasError(diags) <==> !AppNestedConvert(v, app)
    ensures !HasError(diags) ==> (backups, privateNetwork, publicNetwork) == AppNested(v, app)
  {
    privateNetwork := None;
    publicNetwork := None;
    backups, diags := BackupsRequest(BackupsKind(v), Field(app, "scheduled_backups"));
    if HasError(diags) || v == V1 {
      return;
    }
    var d1, d2;
    privateNetwork, d1 := PrivateNetworkRequest(Field(app, "private_networking"));
    diags := diags + d1;
    if HasError(diags) {
      return;
    }
    publicNetwork, d2 := PublicNetworkRequest(Field(app, "public_networking"));
    diags := diags + d2;
  }

  /**
   * The conversions at the head of `Create` and `Update`, in the order the
   * code runs them; the first one that reports an error ends the building.
   */
  method ConvertPlan(v: Version, plan: DatabaseModel) returns (parts: Option<Parts>, diags: seq<Diagnostic>)
    ensures HasError(diags) <==> !PlanConverts(v, plan)
    ensures parts.Some? <==> !HasError(diags)
    ensures parts.Some? ==> parts.value == PartsOf(v, plan)
  {
    parts := None;
    var service, d := New(ServiceKind(v), ObjectTypes(plan.serviceConfig), Attributes(plan.serviceConfig));
    diags := d;
    if HasError(diags) {
      return;
    }
    var ipList, window, d1 := ServiceRequests(v, service);
    diags := diags + d1;
    if HasError(diags) {
      return;
    }
    var app, d2 := New(AppKind(v), ObjectTypes(plan.applicationConfig), Attributes(plan.applicationConfig));
    diags := diags + d2;
    if HasError(diags) {
      return;
    }
    var backups, privateNetwork, publicNetwork, d3 := AppRequests(v, app);
    diags := diags + d3;
    if HasError(diags) {
      return;
    }
    parts := Some(Parts(service, ipList, window, app, backups, privateNetwork, publicNetwork));
  }

  // ---------------------------------------------------------------------
  // The requests

  /** `Int64Value.ValueInt64()`: the integer, which is 0 unless known. */
  function ValueInt64(v: Value): int
  {
    if v.Int64Value? then v.num else 0
  }

  /** The create request of the converted parts; organization and project come from the provider. */
  function CreateRequestOf(v: Version, organization: Value, project: Value, plan: DatabaseModel, p: Parts): CreateRequest
  {
    var s := p.service;
    var a := p.app;
    if v == V1 then
      CreateV1(ValueString(organization), ValueString(project), ValueString(plan.name), ValueString(plan.description),
               ServiceRequestV1(ValueInt64(Field(s, "disksize")), ValueString(Field(s, "type")),
                                ValueString(Field(s, "flavor")), ValueString(Field(s, "region")), p.window, p.remoteIps),
               AppRequestV1(ValueString(Field(a, "type")), ValueString(Field(a, "password")),
                            ValueInt64(Field(a, "instances")), ValueString(Field(a, "version")), p.backups))
    else
      CreateV2(ValueString(organization), ValueString(project), ValueString(plan.name), ValueString(plan.description),
               ServiceRequestV2(ValueInt64(Field(s, "disksize")), ValueString(Field(s, "type")),
                                ValueString(Field(s, "flavor")), ValueString(Field(s, "region")), p.window),
               AppRequestV2(ValueString(Field(a, "type")), ValueString(Field(a, "password")),
                            ValueInt64(Field(a, "instances")), ValueString(Field(a, "version")), p.backups,
                            p.privateNetwork, p.publicNetwork))
  }

  /** The update request of the converted parts, for the database of the prior state's uuid. */
  function UpdateRequestOf(v: Version, uuid: Value, organization: Value, project: Value, plan: DatabaseModel,
                           p: Parts): UpdateRequest
  {
    var s := p.service;
    var a := p.app;
    if v == V1 then
      UpdateV1(ValueString(uuid), ValueString(organization), ValueString(project), ValueString(plan.name),
               ValueString(plan.description),
               ServiceUpdateV1(ValueInt64(Field(s, "disksize")), ValueString(Field(s, "type")),
                               ValueString(Field(s, "flavor")), p.window, p.remoteIps),
               AppUpdateV1(ValueString(Field(a, "password")), ValueInt64(Field(a, "instances")),
                           ValueString(Field(a, "version")), p.backups))
    else
      UpdateV2(ValueString(uuid), ValueString(organization), ValueString(project), ValueString(plan.name),
               ValueString(plan.description),
               ServiceUpdateV2(ValueInt64(Field(s, "disksize")), ValueString(Field(s, "type")),
                               ValueString(Field(s, "flavor")), p.window),
               AppUpdateV2(ValueString(Field(a, "password")), ValueInt64(Field(a, "instances")),
                           ValueString(Field(a, "version")), p.backups, p.privateNetwork, p.publicNetwork))
  }

  // ---------------------------------------------------------------------
  // Properties

  /**
   * The update request carries everything the create request carries, for
   * the same parts, except the service config's region and the application
   * config's type.
   */
  lemma UpdateOmitsRegionAndType(v: Version, uuid: Value, organization: Value, project: Value,
                                 plan: DatabaseModel, p: Parts)
    ensures var c := CreateRequestOf(v, organization, project, plan, p);
      var u := UpdateRequestOf(v, uuid, organization, project, plan, p);
      && u.organization == c.organization && u.project == c.project
      && u.name == c.name && u.description == c.description
      && (v == V1 ==>
            && u.service1 == ServiceUpdateV1(c.service1.disksize, c.service1.serviceType, c.service1.flavor,
                                             c.service1.maintenanceWindow, c.service1.remoteIps)
            && u.app1 == AppUpdateV1(c.app1.password, c.app1.instances, c.app1.version, c.app1.scheduledBackups))
      && (v == V2 ==>
            && u.service2 == ServiceUpdateV2(c.service2.disksize, c.service2.serviceType, c.service2.flavor,
                                             c.service2.maintenanceWindow)
            && u.app2 == AppUpdateV2(c.app2.password, c.app2.instances, c.app2.version, c.app2.scheduledBackups,
                                     c.app2.privateNetwork, c.app2.publicNetwork))
  {
  }

  /**
   * A null nested object is not skipped: its constructor finds none of the
   * table's attributes, so the request is not built.
   */
  lemma NullNestedRejected(c: Custom, v: Value)
    requires v.state == Null && AttrTypes(c) != map[]
    ensures !Converts(c, v)
    ensures !BackupsConvert(c, v)
  {
    var n :| n in AttrTypes(c);
    ConstructMissing(c, ObjectTypes(v), Attributes(v), n);
  }

  /** An unknown nested object is skipped and leaves its request pointer nil. */
  lemma UnknownNestedSkipped(c: Custom, v: Value)
    requires v.state == Unknown
    ensures Converts(c, v) && BackupsConvert(c, v)
    ensures WindowPart(c, v).None? && BackupsPart(c, v).None? && PrivatePart(v).None? && PublicPart(v).None?
  {
  }

  /**
   * A known maintenance window object holding exactly the window's
   * attributes converts, and its request carries the object's own integers.
   */
  lemma KnownWindowConverts(c: Custom, v: Value)
    requires c == MaintenanceWindowV1 || c == MaintenanceWindowV2
    requires v.ObjectValue? && v.state == Known && v.attrTypes == MaintenanceWindowTypes
    requires AttrsMatch(MaintenanceWindowTypes, v.attrs)
    ensures Converts(c, v)
    ensures WindowPart(c, v) == Some(MaintenanceWindowToSdk(EntityValue(c, Known, v.attrs)).0)
  {
    WindowTable(c);
    ConstructFromOwnTypes(c, v.attrs);
  }

  /** Both maintenance window kinds have the window's table. */
  lemma WindowTable(c: Custom)
    requires c == MaintenanceWindowV1 || c == MaintenanceWindowV2
    ensures AttrTypes(c) == MaintenanceWindowTypes
  {
  }

  /** A plan whose configs are known objects of their own tables yields the known configs. */
  lemma TypedPlanConfigs(v: Version, plan: DatabaseModel)
    requires plan.serviceConfig.ObjectValue? && plan.serviceConfig.state == Known
    requires plan.serviceConfig.attrTypes == AttrTypes(ServiceKind(v))
    requires AttrsMatch(AttrTypes(ServiceKind(v)), plan.serviceConfig.attrs)
    requires plan.applicationConfig.ObjectValue? && plan.applicationConfig.state == Known
    requires plan.applicationConfig.attrTypes == AttrTypes(AppKind(v))
    requires AttrsMatch(AttrTypes(AppKind(v)), plan.applicationConfig.attrs)
    ensures ServiceOf(v, plan) == EntityValue(ServiceKind(v), Known, plan.serviceConfig.attrs)
    ensures AppOf(v, plan) == EntityValue(AppKind(v), Known, plan.applicationConfig.attrs)
  {
    ConstructFromOwnTypes(ServiceKind(v), plan.serviceConfig.attrs);
    ConstructFromOwnTypes(AppKind(v), plan.applicationConfig.attrs);
  }
}
