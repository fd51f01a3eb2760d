/**
 * The resource schemas `DatabaseResourceSchema` (v1) and
 * `DatabaseResourceV2Schema` (v2): a tree of attributes, each with its
 * presence (required, optional, computed), its validators and its default.
 * The schema is data; what it means is given by `Admits` (the configuration
 * the framework accepts) and `WithDefaults` (the defaults it fills in), and
 * the lemmas at the end state the bounds, the required attributes and the
 * defaults that each version's schema imposes.
 */
module Schema {
  import opened Framework

  // ---------------------------------------------------------------------
  // The regular expressions used by `stringvalidator.RegexMatches`

  /** The character classes `[A-Za-z0-9]` and `[-A-Za-z0-9_.]`. */
  datatype CharClass = Alnum | NameChar

  predicate InClass(cls: CharClass, ch: char)
  {
    var alnum := 'A' <= ch <= 'Z' || 'a' <= ch <= 'z' || '0' <= ch <= '9';
    match cls
    case Alnum => alnum
    case NameChar => alnum || ch == '-' || ch == '_' || ch == '.'
  }

  /** Anchored regular expressions: ε, a class, `rs`, `r?` and `r*`. */
  datatype Regex =
    | Empty
    | Chars(cls: CharClass)
    | Concat(first: Regex, second: Regex)
    | Maybe(body: Regex)
    | Star(body: Regex)

  /** The language of a regular expression, the whole string matched. */
  predicate Matches(r: Regex, s: string)
    decreases r, |s|
  {
    match r
    case Empty => s == []
    case Chars(cls) => |s| == 1 && InClass(cls, s[0])
    case Concat(a, b) => exists k | 0 <= k <= |s| :: Matches(a, s[..k]) && Matches(b, s[k..])
    case Maybe(a) => s == [] || Matches(a, s)
    case Star(a) => s == [] || exists k | 0 < k <= |s| :: Matches(a, s[..k]) && Matches(Star(a), s[k..])
  }

  /** `^(([A-Za-z0-9][-A-Za-z0-9_.]*)?[A-Za-z0-9])?$`, the pattern for `name`. */
  const NamePattern: Regex :=
    Maybe(Concat(Maybe(Concat(Chars(Alnum), Star(Chars(NameChar)))), Chars(Alnum)))

  /**
   * The shape `NamePattern` describes, written out: empty, or starting and
   * ending with a letter or digit with only letters, digits, `-`, `_` and
   * `.` in between.
   */
  predicate IsDatabaseName(s: string)
  {
    s == [] ||
    (&& InClass(Alnum, s[0])
     && InClass(Alnum, s[|s| - 1])
     && forall i | 0 < i < |s| - 1 :: InClass(NameChar, s[i]))
  }

  /** A run of one character class: exactly the strings of that class. */
  lemma {:induction false} StarOfClass(cls: CharClass, s: string)
    ensures Matches(Star(Chars(cls)), s) <==> forall i | 0 <= i < |s| :: InClass(cls, s[i])
    decreases |s|
  {
    if s != [] {
      StarOfClass(cls, s[1..]);
      if Matches(Star(Chars(cls)), s) {
        var k :| 0 < k <= |s| && Matches(Chars(cls), s[..k]) && Matches(Star(Chars(cls)), s[k..]);
        assert k == 1;
        forall i | 0 <= i < |s| ensures InClass(cls, s[i]) {
          if i > 0 { assert s[i] == s[1..][i - 1]; }
        }
      }
      if forall i | 0 <= i < |s| :: InClass(cls, s[i]) {
        assert forall i | 0 <= i < |s[1..]| :: InClass(cls, s[1..][i]) by {
          forall i | 0 <= i < |s[1..]| ensures InClass(cls, s[1..][i]) { assert s[1..][i] == s[i + 1]; }
        }
        assert Matches(Chars(cls), s[..1]);
      }
    }
  }

  /** `[A-Za-z0-9][-A-Za-z0-9_.]*`: a letter or digit, then name characters. */
  lemma NameHead(s: string)
    ensures Matches(Concat(Chars(Alnum), Star(Chars(NameChar))), s) <==>
      s != [] && InClass(Alnum, s[0]) && forall i | 0 < i < |s| :: InClass(NameChar, s[i])
  {
    var r := Concat(Chars(Alnum), Star(Chars(NameChar)));
    if s != [] {
      StarOfClass(NameChar, s[1..]);
      assert forall i | 0 < i < |s| :: s[i] == s[1..][i - 1];
      if Matches(r, s) {
        var k :| 0 <= k <= |s| && Matches(Chars(Alnum), s[..k]) && Matches(Star(Chars(NameChar)), s[k..]);
        assert k == 1;
      }
      if InClass(Alnum, s[0]) && forall i | 0 < i < |s| :: InClass(NameChar, s[i]) {
        assert Matches(Chars(Alnum), s[..1]) && s[1..] == s[1..];
      }
    }
  }

  /** The name pattern describes exactly the names `IsDatabaseName` spells out. */
  lemma NamePatternMeaning(s: string)
    ensures Matches(NamePattern, s) <==> IsDatabaseName(s)
  {
    var head := Concat(Chars(Alnum), Star(Chars(NameChar)));
    if s != [] {
      var n := |s| - 1;
      NameHead(s[..n]);
      if Matches(NamePattern, s) {
        assert Matches(Concat(Maybe(head), Chars(Alnum)), s);
        var k :| 0 <= k <= |s| && Matches(Maybe(head), s[..k]) && Matches(Chars(Alnum), s[k..]);
        assert k == n;
        assert s[n] == s[k..][0];
        if k > 0 {
          assert s[0] == s[..n][0];
          assert forall i | 0 < i < n :: s[i] == s[..n][i];
        }
      }
      if IsDatabaseName(s) {
        assert Matches(Chars(Alnum), s[n..]);
        if n > 0 {
          assert s[..n][0] == s[0];
          assert forall i | 0 < i < n :: s[..n][i] == s[i];
          assert Matches(head, s[..n]);
        }
        assert Matches(Maybe(head), s[..n]);
        assert Matches(Concat(Maybe(head), Chars(Alnum)), s);
      }
    }
  }

  // ---------------------------------------------------------------------
  // Validators

  /** The validators the two schemas attach. */
  datatype Validator =
    | AtMost(max: int)                              // int64validator.AtMost
    | Between(min: int, max: int)                   // int64validator.Between
    | LengthAtLeast(minLength: nat)                 // stringvalidator.LengthAtLeast
    | LengthBetween(minLength: nat, maxLength: nat) // stringvalidator.LengthBetween
    | RegexMatches(pattern: Regex)                  // stringvalidator.RegexMatches

  /** The number of bytes of the UTF-8 encoding of `s`: what Go's `len` counts. */
  function Utf8Length(s: string): (n: nat)
    ensures |s| <= n <= 4 * |s|
    ensures (forall i | 0 <= i < |s| :: s[i] < 128 as char) ==> n == |s|
  {
    if s == [] then 0
    else
      var c := s[0] as int;
      (if c < 0x80 then 1 else if c < 0x800 then 2 else if c < 0x1_0000 then 3 else 4) + Utf8Length(s[1..])
  }

  /**
   * Whether a configuration value passes a validator. Every one of these
   * validators lets a null or unknown value through.
   */
  predicate Accepts(v: Validator, x: Value)
  {
    x.state != Known ||
    match v
    case AtMost(max) => x.Int64Value? && x.num <= max
    case Between(min, max) => x.Int64Value? && min <= x.num <= max
    case LengthAtLeast(min) => x.StringValue? && min <= Utf8Length(x.str)
    case LengthBetween(min, max) => x.StringValue? && min <= Utf8Length(x.str) <= max
    case RegexMatches(r) => x.StringValue? && Matches(r, x.str)
  }

  // ---------------------------------------------------------------------
  // Attributes

  /** `Required: true`, `Optional: true`, `Computed: true`, or both of the last two. */
  datatype Presence = Required | Optional | Computed | OptionalComputed

  /**
   * `schema.StringAttribute`, `Int64Attribute`, `BoolAttribute` and
   * `ListAttribute` (a `Leaf` of that type), and `SingleNestedAttribute`,
   * whose attributes are listed as name and attribute pairs.
   */
  datatype Attribute =
    | Leaf(ty: AttrType, presence: Presence, validators: seq<Validator>, defaultValue: Option<Value>)
    | Nested(presence: Presence, attributes: seq<(string, Attribute)>)

  /**
   * An attribute of a configuration object; a key the object does not carry
   * reads as null.
   */
  function Member(x: Value, k: string): Value
  {
    if k in Attributes(x) then Attributes(x)[k] else StringValue(Null, "")
  }

  /**
   * Whether a configuration value is acceptable for an attribute. A
   * required attribute must be set, a computed-only one must not be, every
   * validator must accept the value, and the attributes of a known nested
   * object must be acceptable in turn.
   */
  predicate Admits(a: Attribute, x: Value)
    decreases a
  {
    && (a.presence == Required ==> x.state != Null)
    && (a.presence == Computed ==> x.state == Null)
    && match a
       case Leaf(_, _, vs, _) => forall v | v in vs :: Accepts(v, x)
       case Nested(_, attrs) =>
         x.state == Known ==>
           forall i {:trigger Admits(attrs[i].1, Member(x, attrs[i].0))} | 0 <= i < |attrs| ::
             Admits(attrs[i].1, Member(x, attrs[i].0))
  }

  /** The position of the first attribute named `k`, if any. */
  function Find(attrs: seq<(string, Attribute)>, k: string): (r: Option<nat>)
    ensures r.Some? ==> r.value < |attrs| && attrs[r.value].0 == k
    ensures r.None? ==> forall i | 0 <= i < |attrs| :: attrs[i].0 != k
  {
    if attrs == [] then None
    else if attrs[0].0 == k then Some(0)
    else
      match Find(attrs[1..], k)
      case None => None
      case Some(i) => Some(i + 1)
  }

  /**
   * A `Default` fills in a null configuration value; defaults inside a known
   * nested object are filled in attribute by attribute.
   */
  function WithDefaults(a: Attribute, x: Value): Value
    decreases a
  {
    match a
    case Leaf(_, _, _, d) => if x.state == Null && d.Some? then d.value else x
    case Nested(_, attrs) =>
      if x.ObjectValue? && x.state == Known then
        x.(attrs := map k | k in x.attrs ::
                      match Find(attrs, k)
                      case Some(i) => WithDefaults(attrs[i].1, x.attrs[k])
                      case None => x.attrs[k])
      else x
  }

  /** The attribute named `k` inside a nested attribute, if it declares one. */
  function Child(a: Attribute, k: string): Option<Attribute>
  {
    if a.Nested? && Find(a.attributes, k).Some? then Some(a.attributes[Find(a.attributes, k).value].1) else None
  }

  /** The lookup of a name finds the first attribute of that name. */
  lemma {:induction false} FindsFirst(attrs: seq<(string, Attribute)>, k: string, i: nat)
    requires i < |attrs| && attrs[i].0 == k && forall j | 0 <= j < i :: attrs[j].0 != k
    ensures Find(attrs, k) == Some(i)
  {
    if i > 0 {
      FindsFirst(attrs[1..], k, i - 1);
    }
  }

  /** An acceptable known object is acceptable at each attribute it declares. */
  lemma AdmittedChild(a: Attribute, x: Value, k: string)
    requires Admits(a, x) && Child(a, k).Some? && x.state == Known
    ensures Admits(Child(a, k).value, Member(x, k))
  {
    var i := Find(a.attributes, k).value;
    assert a.attributes[i].0 == k;
  }

  /**
   * Filling defaults into a known object fills them into each attribute it
   * declares and carries.
   */
  lemma DefaultedChild(a: Attribute, x: Value, k: string)
    requires Child(a, k).Some? && x.ObjectValue? && x.state == Known && k in x.attrs
    ensures Member(WithDefaults(a, x), k) == WithDefaults(Child(a, k).value, Member(x, k))
  {
  }

  /** `x` is a known object that carries the key `k`. */
  predicate Carries(x: Value, k: string)
  {
    x.ObjectValue? && x.state == Known && k in x.attrs
  }

  /** A null value replaced by `d`. */
  function OrDefault(x: Value, d: Value): Value
  {
    if x.state == Null then d else x
  }

  /**
   * Filling defaults into a known object fills them into its `i`-th declared
   * attribute when no earlier one has the same name.
   */
  lemma DefaultedAt(a: Attribute, x: Value, i: nat)
    requires a.Nested? && i < |a.attributes| && Carries(x, a.attributes[i].0)
    requires forall j | 0 <= j < i :: a.attributes[j].0 != a.attributes[i].0
    ensures Member(WithDefaults(a, x), a.attributes[i].0) == WithDefaults(a.attributes[i].1, Member(x, a.attributes[i].0))
  {
    FindsFirst(a.attributes, a.attributes[i].0, i);
  }

  // ---------------------------------------------------------------------
  // The two schemas

  function Plain(ty: AttrType, p: Presence): Attribute
  {
    Leaf(ty, p, [], None)
  }

  const RecoveryAttributes: seq<(string, Attribute)> := [
    ("exclusive", Plain(BoolType, OptionalComputed)),
    ("source", Plain(StringType, OptionalComputed)),
    ("target_lsn", Plain(StringType, OptionalComputed)),
    ("target_name", Plain(StringType, OptionalComputed)),
    ("target_time", Plain(StringType, OptionalComputed)),
    ("target_xid", Plain(StringType, OptionalComputed))]

  /** v2 gives `recovery.exclusive` the default `false`. */
  const RecoveryV2Attributes: seq<(string, Attribute)> :=
    [("exclusive", Leaf(BoolType, OptionalComputed, [], Some(BoolValue(Known, false))))] + RecoveryAttributes[1..]

  const ScheduleAttributes: seq<(string, Attribute)> := [
    ("hour", Leaf(Int64Type, OptionalComputed, [Between(0, 23)], None)),
    ("minute", Leaf(Int64Type, OptionalComputed, [Between(0, 59)], None))]

  const ScheduledBackupsAttributes: seq<(string, Attribute)> := [
    ("retention", Leaf(Int64Type, OptionalComputed, [Between(7, 90)], Some(Int64Value(Known, 7)))),
    ("schedule", Nested(OptionalComputed, ScheduleAttributes))]

  const ApplicationConfigAttributes: seq<(string, Attribute)> := [
    ("hostname", Plain(StringType, Computed)),
    ("instances", Leaf(Int64Type, Required, [AtMost(5)], None)),
    ("ip_address", Plain(StringType, Computed)),
    ("password", Leaf(StringType, OptionalComputed, [LengthAtLeast(16)], None)),
    ("recovery", Nested(Optional, RecoveryAttributes)),
    ("scheduled_backups", Nested(OptionalComputed, ScheduledBackupsAttributes)),
    ("type", Plain(StringType, Required)),
    ("version", Plain(StringType, Required))]

  const PrivateNetworkingAttributes: seq<(string, Attribute)> := [
    ("enabled", Leaf(BoolType, OptionalComputed, [], Some(BoolValue(Known, true)))),
    ("allowed_cidrs", Plain(ListType(StringType), OptionalComputed)),
    ("hostname", Plain(StringType, Computed)),
    ("ip_address", Plain(StringType, Computed)),
    ("shared_subnet_cidr", Leaf(StringType, OptionalComputed, [], Some(StringValue(Known, "10.240.0.0/24")))),
    ("shared_subnet_id", Plain(StringType, Computed)),
    ("shared_network_id", Plain(StringType, Computed))]

  const PublicNetworkingAttributes: seq<(string, Attribute)> := [
    ("enabled", Leaf(BoolType, OptionalComputed, [], Some(BoolValue(Known, false)))),
    ("allowed_cidrs", Plain(ListType(StringType), OptionalComputed)),
    ("hostname", Plain(StringType, Computed)),
    ("ip_address", Plain(StringType, Computed))]

  /** v2 drops `hostname` and `ip_address` and adds the two networking objects. */
  const ApplicationConfigV2Attributes: seq<(string, Attribute)> := [
    ("instances", Leaf(Int64Type, Required, [AtMost(5)], None)),
    ("password", Leaf(StringType, OptionalComputed, [LengthAtLeast(16)], None)),
    ("recovery", Nested(Optional, RecoveryV2Attributes)),
    ("scheduled_backups", Nested(OptionalComputed, ScheduledBackupsAttributes)),
    ("type", Plain(StringType, Required)),
    ("version", Plain(StringType, Required)),
    ("private_networking", Nested(OptionalComputed, PrivateNetworkingAttributes)),
    ("public_networking", Nested(OptionalComputed, PublicNetworkingAttributes))]

  const MaintenanceWindowAttributes: seq<(string, Attribute)> := [
    ("day_of_week", Plain(Int64Type, OptionalComputed)),
    ("start_hour", Plain(Int64Type, OptionalComputed)),
    ("start_minute", Plain(Int64Type, OptionalComputed))]

  const ServiceConfigAttributes: seq<(string, Attribute)> := [
    ("disksize", Leaf(Int64Type, Required, [Between(5, 500)], None)),
    ("flavor", Plain(StringType, Required)),
    ("maintenance_window", Nested(OptionalComputed, MaintenanceWindowAttributes)),
    ("region", Plain(StringType, Required)),
    ("remote_ips", Plain(ListType(StringType), OptionalComputed)),
    ("type", Plain(StringType, Required))]

  /** v2 drops `remote_ips` and makes `type` optional with the default `"database"`. */
  const ServiceConfigV2Attributes: seq<(string, Attribute)> := [
    ("disksize", Leaf(Int64Type, Required, [Between(5, 500)], None)),
    ("flavor", Plain(StringType, Required)),
    ("maintenance_window", Nested(OptionalComputed, MaintenanceWindowAttributes)),
    ("region", Plain(StringType, Required)),
    ("type", Leaf(StringType, OptionalComputed, [], Some(StringValue(Known, "database"))))]

  /** The top-level attributes both versions share. */
  function ResourceAttributes(app: seq<(string, Attribute)>, service: seq<(string, Attribute)>): seq<(string, Attribute)>
  {
    [
      ("application_config", Nested(Required, app)),
      ("created_at", Plain(StringType, Computed)),
      ("created_by", Plain(StringType, Computed)),
      ("description", Leaf(StringType, OptionalComputed, [LengthBetween(0, 128)], Some(StringValue(Known, "")))),
      ("last_modified_at", Plain(StringType, Computed)),
      ("last_modified_by", Plain(StringType, Computed)),
      ("name", Leaf(StringType, Required, [LengthBetween(1, 64), RegexMatches(NamePattern)], None)),
      ("service_config", Nested(Required, service)),
      ("status", Plain(StringType, Computed)),
      ("phase", Plain(StringType, Computed)),
      ("resource_status", Plain(StringType, Computed)),
      ("uuid", Plain(StringType, Computed))]
  }

  /** `DatabaseResourceSchema`: the whole configuration is one required object. */
  const ResourceSchema: Attribute := Nested(Required, ResourceAttributes(ApplicationConfigAttributes, ServiceConfigAttributes))

  /** `DatabaseResourceV2Schema`. */
  const ResourceSchemaV2: Attribute := Nested(Required, ResourceAttributes(ApplicationConfigV2Attributes, ServiceConfigV2Attributes))

  // ---------------------------------------------------------------------
  // What the schemas impose

  /** A set integer lies in `[lo, hi]`. */
  predicate IntWithin(x: Value, lo: int, hi: int)
  {
    x.state == Known ==> x.Int64Value? && lo <= x.num <= hi
  }

  /** A set string has at least `lo` bytes. */
  predicate BytesAtLeast(x: Value, lo: nat)
  {
    x.state == Known ==> x.StringValue? && lo <= Utf8Length(x.str)
  }

  /** A set string has between `lo` and `hi` bytes. */
  predicate BytesWithin(x: Value, lo: nat, hi: int)
  {
    x.state == Known ==> x.StringValue? && lo <= Utf8Length(x.str) <= hi
  }

  /** An acceptable known object is acceptable at its `i`-th declared attribute. */
  lemma AdmittedAt(a: Attribute, x: Value, i: nat)
    requires a.Nested? && Admits(a, x) && x.state == Known && i < |a.attributes|
    ensures Admits(a.attributes[i].1, Member(x, a.attributes[i].0))
  {
  }

  /** `schedule`, the same in both versions: hour 0 to 23, minute 0 to 59. */
  lemma ScheduleBounds(schedule: Value)
    requires Admits(Nested(OptionalComputed, ScheduleAttributes), schedule)
    ensures IntWithin(Member(schedule, "hour"), 0, 23)
    ensures IntWithin(Member(schedule, "minute"), 0, 59)
  {
    var a := Nested(OptionalComputed, ScheduleAttributes);
    if schedule.state == Known {
      AdmittedAt(a, schedule, 0);
      assert Accepts(Between(0, 23), Member(schedule, "hour"));
      AdmittedAt(a, schedule, 1);
      assert Accepts(Between(0, 59), Member(schedule, "minute"));
    }
  }

  /** `scheduled_backups`, the same in both versions: a retention of 7 to 90 days and a valid schedule. */
  lemma ScheduledBackupsBounds(backups: Value)
    requires Admits(Nested(OptionalComputed, ScheduledBackupsAttributes), backups)
    ensures IntWithin(Member(backups, "retention"), 7, 90)
    ensures IntWithin(Member(Member(backups, "schedule"), "hour"), 0, 23)
    ensures IntWithin(Member(Member(backups, "schedule"), "minute"), 0, 59)
  {
    var a := Nested(OptionalComputed, ScheduledBackupsAttributes);
    if backups.state == Known {
      AdmittedAt(a, backups, 0);
      assert Accepts(Between(7, 90), Member(backups, "retention"));
      AdmittedAt(a, backups, 1);
      ScheduleBounds(Member(backups, "schedule"));
    }
  }

  /**
   * `application_config` in either version: at most 5 instances, a password
   * of at least 16 bytes, the backup bounds, and `instances`, `type` and
   * `version` set.
   */
  lemma ApplicationConfigBounds(a: Attribute, app: Value)
    requires a == Nested(Required, ApplicationConfigAttributes) || a == Nested(Required, ApplicationConfigV2Attributes)
    requires Admits(a, app)
    ensures app.state != Null
    ensures app.state == Known ==>
      && Member(app, "instances").state != Null
      && Member(app, "type").state != Null
      && Member(app, "version").state != Null
    ensures IntWithin(Member(app, "instances"), MinInt64, 5)
    ensures BytesAtLeast(Member(app, "password"), 16)
    ensures var backups := Member(app, "scheduled_backups");
      && IntWithin(Member(backups, "retention"), 7, 90)
      && IntWithin(Member(Member(backups, "schedule"), "hour"), 0, 23)
      && IntWithin(Member(Member(backups, "schedule"), "minute"), 0, 59)
  {
    if app.state == Known {
      var v1 := a == Nested(Required, ApplicationConfigAttributes);
      var instances, password, backups, ty, version :=
        if v1 then 1 else 0, if v1 then 3 else 1, if v1 then 5 else 3, if v1 then 6 else 4, if v1 then 7 else 5;
      AdmittedAt(a, app, instances);
      assert Accepts(AtMost(5), Member(app, "instances"));
      AdmittedAt(a, app, password);
      assert Accepts(LengthAtLeast(16), Member(app, "password"));
      AdmittedAt(a, app, backups);
      ScheduledBackupsBounds(Member(app, "scheduled_backups"));
      AdmittedAt(a, app, ty);
      AdmittedAt(a, app, version);
    }
  }

  /**
   * `service_config` in either version: a disk of 5 to 500 GB, and
   * `disksize`, `flavor` and `region` set; in v1, where it has no default,
   * `type` is set too.
   */
  lemma ServiceConfigBounds(a: Attribute, service: Value)
    requires a == Nested(Required, ServiceConfigAttributes) || a == Nested(Required, ServiceConfigV2Attributes)
    requires Admits(a, service)
    ensures service.state != Null
    ensures service.state == Known ==>
      && Member(service, "disksize").state != Null
      && Member(service, "flavor").state != Null
      && Member(service, "region").state != Null
    ensures service.state == Known && a == Nested(Required, ServiceConfigAttributes) ==>
      Member(service, "type").state != Null
    ensures IntWithin(Member(service, "disksize"), 5, 500)
  {
    if service.state == Known {
      AdmittedAt(a, service, 0);
      assert Accepts(Between(5, 500), Member(service, "disksize"));
      AdmittedAt(a, service, 1);
      AdmittedAt(a, service, 3);
      if a == Nested(Required, ServiceConfigAttributes) {
        AdmittedAt(a, service, 5);
      }
    }
  }

  /**
   * The top level of either version: a name of 1 to 64 bytes of the
   * database-name shape, a description of at most 128 bytes, and the two
   * nested configurations set.
   */
  lemma TopLevelBounds(app: seq<(string, Attribute)>, service: seq<(string, Attribute)>, config: Value)
    requires Admits(Nested(Required, ResourceAttributes(app, service)), config)
    ensures config.state != Null
    ensures BytesWithin(Member(config, "description"), 0, 128)
    ensures var name := Member(config, "name");
      && (config.state == Known ==> name.state != Null)
      && BytesWithin(name, 1, 64)
      && (name.state == Known ==> IsDatabaseName(name.str))
    ensures config.state == Known ==> Admits(Nested(Required, app), Member(config, "application_config"))
    ensures config.state == Known ==> Admits(Nested(Required, service), Member(config, "service_config"))
  {
    var schema := Nested(Required, ResourceAttributes(app, service));
    if config.state == Known {
      AdmittedAt(schema, config, 0);
      AdmittedAt(schema, config, 7);
      AdmittedAt(schema, config, 3);
      assert Accepts(LengthBetween(0, 128), Member(config, "description"));
      var name := Member(config, "name");
      AdmittedAt(schema, config, 6);
      assert Accepts(LengthBetween(1, 64), name) && Accepts(RegexMatches(NamePattern), name);
      if name.state == Known {
        NamePatternMeaning(name.str);
      }
    }
  }

  /**
   * The attributes of the top level only the provider sets (the audit
   * fields, the status fields and the UUID) are null in an acceptable
   * configuration.
   */
  lemma ComputedUnset(app: seq<(string, Attribute)>, service: seq<(string, Attribute)>, config: Value)
    requires Admits(Nested(Required, ResourceAttributes(app, service)), config)
    ensures config.state == Known ==>
      && Member(config, "created_at").state == Null
      && Member(config, "created_by").state == Null
      && Member(config, "last_modified_at").state == Null
      && Member(config, "last_modified_by").state == Null
      && Member(config, "status").state == Null
      && Member(config, "phase").state == Null
      && Member(config, "resource_status").state == Null
      && Member(config, "uuid").state == Null
  {
    var schema := Nested(Required, ResourceAttributes(app, service));
    if config.state == Known {
      AdmittedAt(schema, config, 1);
      AdmittedAt(schema, config, 2);
      AdmittedAt(schema, config, 4);
      AdmittedAt(schema, config, 5);
      AdmittedAt(schema, config, 8);
      AdmittedAt(schema, config, 9);
      AdmittedAt(schema, config, 10);
      AdmittedAt(schema, config, 11);
    }
  }

  /**
   * The bounds an acceptable configuration meets, in either version: those
   * of the top level, of `application_config` and of `service_config`. A
   * value inside an object that is not set reads as null and is not checked.
   */
  lemma AcceptedBounds(schema: Attribute, config: Value)
    requires schema == ResourceSchema || schema == ResourceSchemaV2
    requires Admits(schema, config)
    ensures var app := Member(config, "application_config");
      && IntWithin(Member(app, "instances"), MinInt64, 5)
      && BytesAtLeast(Member(app, "password"), 16)
      && IntWithin(Member(Member(app, "scheduled_backups"), "retention"), 7, 90)
    ensures IntWithin(Member(Member(config, "service_config"), "disksize"), 5, 500)
    ensures BytesWithin(Member(config, "description"), 0, 128)
    ensures var name := Member(config, "name");
      BytesWithin(name, 1, 64) && (name.state == Known ==> IsDatabaseName(name.str))
  {
    var v2 := schema == ResourceSchemaV2;
    var app := if v2 then ApplicationConfigV2Attributes else ApplicationConfigAttributes;
    var service := if v2 then ServiceConfigV2Attributes else ServiceConfigAttributes;
    TopLevelBounds(app, service, config);
    if config.state == Known {
      ApplicationConfigBounds(Nested(Required, app), Member(config, "application_config"));
      ServiceConfigBounds(Nested(Required, service), Member(config, "service_config"));
    }
  }

  // ---------------------------------------------------------------------
  // The defaults the schemas fill in

  /** `schedule` and `retention` inside `scheduled_backups`: a null retention becomes 7 days. */
  lemma ScheduledBackupsDefaults(backups: Value)
    ensures var planned := WithDefaults(Nested(OptionalComputed, ScheduledBackupsAttributes), backups);
      && (Carries(backups, "retention") ==>
            Member(planned, "retention") == OrDefault(Member(backups, "retention"), Int64Value(Known, 7)))
      && (Carries(backups, "schedule") ==>
            Member(planned, "schedule") == WithDefaults(Nested(OptionalComputed, ScheduleAttributes), Member(backups, "schedule")))
  {
    var a := Nested(OptionalComputed, ScheduledBackupsAttributes);
    if Carries(backups, "retention") {
      DefaultedAt(a, backups, 0);
    }
    if Carries(backups, "schedule") {
      DefaultedAt(a, backups, 1);
    }
  }

  /** v2's `recovery`: a null `exclusive` becomes false. */
  lemma RecoveryV2Defaults(recovery: Value)
    ensures Carries(recovery, "exclusive") ==>
      Member(WithDefaults(Nested(Optional, RecoveryV2Attributes), recovery), "exclusive") ==
        OrDefault(Member(recovery, "exclusive"), BoolValue(Known, false))
  {
    if Carries(recovery, "exclusive") {
      DefaultedAt(Nested(Optional, RecoveryV2Attributes), recovery, 0);
    }
  }

  /**
   * `private_networking`: a null `enabled` becomes true and a null
   * `shared_subnet_cidr` becomes 10.240.0.0/24.
   */
  lemma PrivateNetworkingDefaults(networking: Value)
    ensures var planned := WithDefaults(Nested(OptionalComputed, PrivateNetworkingAttributes), networking);
      && (Carries(networking, "enabled") ==>
            Member(planned, "enabled") == OrDefault(Member(networking, "enabled"), BoolValue(Known, true)))
      && (Carries(networking, "shared_subnet_cidr") ==>
            Member(planned, "shared_subnet_cidr") ==
              OrDefault(Member(networking, "shared_subnet_cidr"), StringValue(Known, "10.240.0.0/24")))
  {
    var a := Nested(OptionalComputed, PrivateNetworkingAttributes);
    if Carries(networking, "enabled") {
      DefaultedAt(a, networking, 0);
    }
    if Carries(networking, "shared_subnet_cidr") {
      DefaultedAt(a, networking, 4);
    }
  }

  /** `public_networking`: a null `enabled` becomes false. */
  lemma PublicNetworkingDefaults(networking: Value)
    ensures Carries(networking, "enabled") ==>
      Member(WithDefaults(Nested(OptionalComputed, PublicNetworkingAttributes), networking), "enabled") ==
        OrDefault(Member(networking, "enabled"), BoolValue(Known, false))
  {
    if Carries(networking, "enabled") {
      DefaultedAt(Nested(OptionalComputed, PublicNetworkingAttributes), networking, 0);
    }
  }

  /** v1's `application_config` fills defaults only into `scheduled_backups`. */
  lemma ApplicationConfigDefaults(app: Value)
    ensures Carries(app, "scheduled_backups") ==>
      Member(WithDefaults(Nested(Required, ApplicationConfigAttributes), app), "scheduled_backups") ==
        WithDefaults(Nested(OptionalComputed, ScheduledBackupsAttributes), Member(app, "scheduled_backups"))
  {
    if Carries(app, "scheduled_backups") {
      DefaultedAt(Nested(Required, ApplicationConfigAttributes), app, 5);
    }
  }

  /** v2's `application_config` fills defaults into `recovery` and `scheduled_backups` ... */
  lemma ApplicationConfigV2Defaults(app: Value)
    ensures var planned := WithDefaults(Nested(Required, ApplicationConfigV2Attributes), app);
      && (Carries(app, "recovery") ==>
            Member(planned, "recovery") == WithDefaults(Nested(Optional, RecoveryV2Attributes), Member(app, "recovery")))
      && (Carries(app, "scheduled_backups") ==>
            Member(planned, "scheduled_backups") ==
              WithDefaults(Nested(OptionalComputed, ScheduledBackupsAttributes), Member(app, "scheduled_backups")))
  {
    var a := Nested(Required, ApplicationConfigV2Attributes);
    if Carries(app, "recovery") {
      DefaultedAt(a, app, 2);
    }
    if Carries(app, "scheduled_backups") {
      DefaultedAt(a, app, 3);
    }
  }

  /** ... and into `private_networking` and `public_networking`. */
  lemma NetworkingV2Defaults(app: Value)
    ensures var planned := WithDefaults(Nested(Required, ApplicationConfigV2Attributes), app);
      && (Carries(app, "private_networking") ==>
            Member(planned, "private_networking") ==
              WithDefaults(Nested(OptionalComputed, PrivateNetworkingAttributes), Member(app, "private_networking")))
      && (Carries(app, "public_networking") ==>
            Member(planned, "public_networking") ==
              WithDefaults(Nested(OptionalComputed, PublicNetworkingAttributes), Member(app, "public_networking")))
  {
    var a := Nested(Required, ApplicationConfigV2Attributes);
    if Carries(app, "private_networking") {
      DefaultedAt(a, app, 6);
    }
    if Carries(app, "public_networking") {
      DefaultedAt(a, app, 7);
    }
  }

  /** `service_config`: v2 turns a null `type` into "database"; v1 has no default and keeps it. */
  lemma ServiceConfigDefaults(service: Value)
    ensures Carries(service, "type") ==>
      Member(WithDefaults(Nested(Required, ServiceConfigAttributes), service), "type") == Member(service, "type")
    ensures Carries(service, "type") ==>
      Member(WithDefaults(Nested(Required, ServiceConfigV2Attributes), service), "type") ==
        OrDefault(Member(service, "type"), StringValue(Known, "database"))
  {
    if Carries(service, "type") {
      DefaultedAt(Nested(Required, ServiceConfigAttributes), service, 5);
      DefaultedAt(Nested(Required, ServiceConfigV2Attributes), service, 4);
    }
  }

  /**
   * The top level of either version: a null description becomes the empty
   * string, and the nested configurations get their own defaults.
   */
  lemma TopLevelDefaults(app: seq<(string, Attribute)>, service: seq<(string, Attribute)>, config: Value)
    ensures var planned := WithDefaults(Nested(Required, ResourceAttributes(app, service)), config);
      && (Carries(config, "description") ==>
            Member(planned, "description") == OrDefault(Member(config, "description"), StringValue(Known, "")))
      && (Carries(config, "application_config") ==>
            Member(planned, "application_config") == WithDefaults(Nested(Required, app), Member(config, "application_config")))
      && (Carries(config, "service_config") ==>
            Member(planned, "service_config") == WithDefaults(Nested(Required, service), Member(config, "service_config")))
  {
    var a := Nested(Required, ResourceAttributes(app, service));
    if Carries(config, "description") {
      DefaultedAt(a, config, 3);
    }
    if Carries(config, "application_config") {
      DefaultedAt(a, config, 0);
    }
    if Carries(config, "service_config") {
      DefaultedAt(a, config, 7);
    }
  }

  /**
   * The defaults both versions fill into a configuration: a null
   * description becomes the empty string and a null backup retention 7
   * days; a set value is planned as configured.
   */
  lemma PlannedDefaults(schema: Attribute, config: Value)
    requires schema == ResourceSchema || schema == ResourceSchemaV2
    ensures var planned := WithDefaults(schema, config);
      Carries(config, "description") ==>
        Member(planned, "description") == OrDefault(Member(config, "description"), StringValue(Known, ""))
    ensures var planned := WithDefaults(schema, config);
      var app := Member(config, "application_config");
      var backups := Member(app, "scheduled_backups");
      Carries(config, "application_config") && Carries(app, "scheduled_backups") && Carries(backups, "retention") ==>
        Member(Member(Member(planned, "application_config"), "scheduled_backups"), "retention") ==
          OrDefault(Member(backups, "retention"), Int64Value(Known, 7))
  {
    var v2 := schema == ResourceSchemaV2;
    var app := Member(config, "application_config");
    TopLevelDefaults(if v2 then ApplicationConfigV2Attributes else ApplicationConfigAttributes,
                     if v2 then ServiceConfigV2Attributes else ServiceConfigAttributes, config);
    if v2 {
      ApplicationConfigV2Defaults(app);
    } else {
      ApplicationConfigDefaults(app);
    }
    ScheduledBackupsDefaults(Member(app, "scheduled_backups"));
  }

  /**
   * A service type: v2 plans a null one as "database"; v1, which has no
   * default and requires it, plans it as configured.
   */
  lemma PlannedServiceType(schema: Attribute, config: Value)
    requires schema == ResourceSchema || schema == ResourceSchemaV2
    ensures var service := Member(config, "service_config");
      var planned := Member(Member(WithDefaults(schema, config), "service_config"), "type");
      Carries(config, "service_config") && Carries(service, "type") ==>
        planned == if schema == ResourceSchemaV2 then OrDefault(Member(service, "type"), StringValue(Known, "database"))
                   else Member(service, "type")
  {
    var v2 := schema == ResourceSchemaV2;
    TopLevelDefaults(if v2 then ApplicationConfigV2Attributes else ApplicationConfigAttributes,
                     if v2 then ServiceConfigV2Attributes else ServiceConfigAttributes, config);
    ServiceConfigDefaults(Member(config, "service_config"));
  }

  /**
   * The defaults only v2 fills in: a null recovery `exclusive` becomes
   * false, private networking is enabled on the 10.240.0.0/24 subnet and
   * public networking is disabled.
   */
  lemma PlannedDefaultsV2(config: Value)
    ensures var app := Member(config, "application_config");
      var recovery := Member(app, "recovery");
      var planned := Member(WithDefaults(ResourceSchemaV2, config), "application_config");
      Carries(config, "application_config") && Carries(app, "recovery") && Carries(recovery, "exclusive") ==>
        Member(Member(planned, "recovery"), "exclusive") == OrDefault(Member(recovery, "exclusive"), BoolValue(Known, false))
    ensures var app := Member(config, "application_config");
      var networking := Member(app, "private_networking");
      var planned := Member(Member(WithDefaults(ResourceSchemaV2, config), "application_config"), "private_networking");
      Carries(config, "application_config") && Carries(app, "private_networking") ==>
        && (Carries(networking, "enabled") ==>
              Member(planned, "enabled") == OrDefault(Member(networking, "enabled"), BoolValue(Known, true)))
        && (Carries(networking, "shared_subnet_cidr") ==>
              Member(planned, "shared_subnet_cidr") ==
                OrDefault(Member(networking, "shared_subnet_cidr"), StringValue(Known, "10.240.0.0/24")))
    ensures var app := Member(config, "application_config");
      var networking := Member(app, "public_networking");
      var planned := Member(Member(WithDefaults(ResourceSchemaV2, config), "application_config"), "public_networking");
      Carries(config, "application_config") && Carries(app, "public_networking") && Carries(networking, "enabled") ==>
        Member(planned, "enabled") == OrDefault(Member(networking, "enabled"), BoolValue(Known, false))
  {
    var app := Member(config, "application_config");
    TopLevelDefaults(ApplicationConfigV2Attributes, ServiceConfigV2Attributes, config);
    ApplicationConfigV2Defaults(app);
    NetworkingV2Defaults(app);
    RecoveryV2Defaults(Member(app, "recovery"));
    PrivateNetworkingDefaults(Member(app, "private_networking"));
    PublicNetworkingDefaults(Member(app, "public_networking"));
  }
}
