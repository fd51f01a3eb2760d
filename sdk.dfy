/**
 * The projections of the generated values onto the request and response
 * structs of the DBaaS SDK (`ToDBaaSSdkObject`, `ToDBaaSSdkRequest`,
 * `ToDBaaSSdkResponse`), and the quote trimming that the provider applies to
 * the framework's rendering of a string value.
 */
module Sdk {
  import opened Framework
  import opened Entities
  import opened Quote

  // ---------------------------------------------------------------------
  // Accessors of framework values

  /** `Int64Value.ValueInt64()` behind a pointer: nil unless the value is known. */
  function IntPtr(v: Value): (r: Option<int>)
    ensures r.Some? <==> v.Int64Value? && v.state == Known
    ensures r.Some? ==> r.value == v.num
  {
    if v.Int64Value? && v.state == Known then Some(v.num) else None
  }

  /** `StringValue.ValueString()`: the string, which is empty unless known. */
  function ValueString(v: Value): string
  {
    if v.StringValue? then v.str else ""
  }

  /** `BoolValue.ValueBool()`: the flag, which is false unless known. */
  function ValueBool(v: Value): bool
  {
    v.BoolValue? && v.flag
  }

  /** `StringValue.ValueStringPointer()`: nil for a null value, a pointer to the string otherwise. */
  function ValueStringPointer(v: Value): (r: Option<string>)
    ensures r.None? <==> v.state == Null
  {
    if v.state == Null then None else Some(ValueString(v))
  }

  // ---------------------------------------------------------------------
  // Rendering and quote trimming

  /**
   * `StringValue.String()`: `<unknown>`, `<null>`, or the string formatted
   * with `%q`, that is between double quotes with `strconv.Quote`'s escapes
   * inside; values of other kinds render as the empty string here.
   */
  function Render(v: Value): string
  {
    if !v.StringValue? then ""
    else if v.state == Unknown then "<unknown>"
    else if v.state == Null then "<null>"
    else "\"" + EscapeAll(v.str) + "\""
  }

  /** A string that neither begins nor ends with a double quote. */
  predicate Unquoted(s: string)
  {
    s == [] || (s[0] != '"' && s[|s| - 1] != '"')
  }

  /** A string made of double quotes only. */
  predicate AllQuotes(s: string)
  {
    forall i | 0 <= i < |s| :: s[i] == '"'
  }

  /** The leading double quotes of `s` removed. */
  function TrimLeft(s: string): (r: string)
    ensures |r| <= |s|
    ensures r == [] || r[0] != '"'
    decreases |s|
  {
    if s != [] && s[0] == '"' then TrimLeft(s[1..]) else s
  }

  /** The trailing double quotes of `s` removed. */
  function TrimRight(s: string): (r: string)
    ensures |r| <= |s| && r == s[..|r|]
    ensures r == [] || r[|r| - 1] != '"'
    decreases |s|
  {
    if s != [] && s[|s| - 1] == '"' then TrimRight(s[..|s| - 1]) else s
  }

  /** `TrimLeft` removes a prefix of quotes and keeps the rest. */
  lemma {:induction false} TrimLeftShape(s: string)
    ensures TrimLeft(s) == s[|s| - |TrimLeft(s)|..] && AllQuotes(s[..|s| - |TrimLeft(s)|])
    decreases |s|
  {
    if s != [] && s[0] == '"' {
      TrimLeftShape(s[1..]);
      var k := |s| - |TrimLeft(s)|;
      assert s[1..][k - 1..] == s[k..];
      forall i | 0 <= i < k
        ensures s[i] == '"'
      {
        if i > 0 {
          assert s[i] == s[1..][..k - 1][i - 1];
        }
      }
    }
  }

  /** `TrimRight` removes a suffix of quotes and keeps the rest. */
  lemma {:induction false} TrimRightShape(s: string)
    ensures AllQuotes(s[|TrimRight(s)|..])
    decreases |s|
  {
    if s != [] && s[|s| - 1] == '"' {
      var init := s[..|s| - 1];
      TrimRightShape(init);
      var k := |TrimRight(s)|;
      forall i | k <= i < |s|
        ensures s[i] == '"'
      {
        if i < |s| - 1 {
          assert s[i] == init[k..][i - k];
        }
      }
    }
  }

  /** `strings.Trim(s, "\"")`: the leading and then the trailing double quotes removed. */
  function TrimQuotes(s: string): (r: string)
    ensures Unquoted(r)
  {
    var l := TrimLeft(s);
    var r := TrimRight(l);
    assert r != [] ==> r[0] == l[0];
    r
  }

  /**
   * What `strings.Trim` keeps is an infix of the input with only double
   * quotes around it.
   */
  lemma TrimQuotesInfix(s: string)
    ensures exists i, j | 0 <= i <= j <= |s| ::
      TrimQuotes(s) == s[i..j] && AllQuotes(s[..i]) && AllQuotes(s[j..])
  {
    var l := TrimLeft(s);
    var r := TrimRight(l);
    TrimLeftShape(s);
    TrimRightShape(l);
    var i := |s| - |l|;
    assert r == s[i..i + |r|];
    assert s[i + |r|..] == l[|r|..];
    assert AllQuotes(s[..i]) && AllQuotes(s[i + |r|..]);
  }

  /** A string that neither begins nor ends with a quote is left as it is. */
  lemma {:induction false} TrimUnquoted(s: string)
    requires Unquoted(s)
    ensures TrimQuotes(s) == s
  {
  }

  /** Trimming twice trims no more than trimming once. */
  lemma TrimIdempotent(s: string)
    ensures TrimQuotes(TrimQuotes(s)) == TrimQuotes(s)
  {
    TrimUnquoted(TrimQuotes(s));
  }

  /** Quotes of any number around a string without outer quotes are removed exactly. */
  lemma {:induction false} TrimQuoted(q1: string, s: string, q2: string)
    requires AllQuotes(q1) && AllQuotes(q2) && s != [] && Unquoted(s)
    ensures TrimQuotes(q1 + s + q2) == s
    decreases |q1| + |q2|
  {
    TrimLeftQuoted(q1, s + q2);
    assert TrimLeft(q1 + s + q2) == s + q2 by {
      assert q1 + s + q2 == q1 + (s + q2);
    }
    TrimRightQuoted(s, q2);
  }

  lemma {:induction false} TrimLeftQuoted(q: string, s: string)
    requires AllQuotes(q) && s != [] && s[0] != '"'
    ensures TrimLeft(q + s) == s
    decreases |q|
  {
    if q != [] {
      assert (q + s)[1..] == q[1..] + s;
      TrimLeftQuoted(q[1..], s);
    }
  }

  lemma {:induction false} TrimRightQuoted(s: string, q: string)
    requires AllQuotes(q) && s != [] && s[|s| - 1] != '"'
    ensures TrimRight(s + q) == s
    decreases |q|
  {
    if q != [] {
      assert (s + q)[..|s + q| - 1] == s + q[..|q| - 1];
      TrimRightQuoted(s, q[..|q| - 1]);
    }
  }

  /**
   * What the trimmed rendering of a string value gives back. A known string
   * that needs no escape comes back as it is. Any other known string comes
   * back escaped, and when it ends in a quote the escaped quote loses that
   * quote and leaves its backslash. A null or unknown value comes back as
   * its marker.
   */
  lemma RenderTrim(v: Value)
    requires v.StringValue?
    ensures v.state == Known && NoEscapes(v.str) ==> TrimQuotes(Render(v)) == v.str
    ensures v.state == Known && (v.str == [] || v.str[|v.str| - 1] != '"') ==>
      TrimQuotes(Render(v)) == EscapeAll(v.str)
    ensures v.state == Known && v.str != [] && v.str[|v.str| - 1] == '"' ==>
      TrimQuotes(Render(v)) == EscapeAll(v.str[..|v.str| - 1]) + "\\"
    ensures v.state == Null ==> TrimQuotes(Render(v)) == "<null>"
    ensures v.state == Unknown ==> TrimQuotes(Render(v)) == "<unknown>"
  {
    var s := v.str;
    if v.state == Known {
      if NoEscapes(s) {
        RenderTrimPlain(s);
      }
      if s == [] {
        RenderTrimEmpty();
      } else if s[|s| - 1] != '"' {
        RenderTrimNoEndQuote(s);
      } else {
        RenderTrimEndQuote(s);
      }
    } else if v.state == Null {
      TrimUnquoted("<null>");
    } else {
      TrimUnquoted("<unknown>");
    }
  }

  lemma RenderTrimPlain(s: string)
    requires NoEscapes(s)
    ensures TrimQuotes(Render(StringValue(Known, s))) == s
  {
    if s == [] {
      RenderTrimEmpty();
    } else {
      assert !NeedsEscape(s[|s| - 1]);
      EscapeAllPlain(s);
      TrimEscaped(s);
    }
  }

  lemma RenderTrimNoEndQuote(s: string)
    requires s != [] && s[|s| - 1] != '"'
    ensures TrimQuotes(Render(StringValue(Known, s))) == EscapeAll(s)
  {
    RenderKnown(s);
    TrimEscaped(s);
  }

  lemma RenderKnown(s: string)
    ensures Render(StringValue(Known, s)) == "\"" + EscapeAll(s) + "\""
  {
  }

  lemma RenderTrimEmpty()
    ensures TrimQuotes(Render(StringValue(Known, []))) == []
  {
    assert Render(StringValue(Known, [])) == "\"\"" by {
      assert EscapeAll([]) == [];
    }
    TrimEmptyQuotes();
  }

  lemma RenderTrimEndQuote(s: string)
    requires s != [] && s[|s| - 1] == '"'
    ensures TrimQuotes(Render(StringValue(Known, s))) == EscapeAll(s[..|s| - 1]) + "\\"
  {
    TrimEscapedEndQuote(s);
  }

  /** The trimmed rendering of a string not ending in a quote is its escaped form. */
  lemma TrimEscaped(s: string)
    requires s != [] && s[|s| - 1] != '"'
    ensures TrimQuotes("\"" + EscapeAll(s) + "\"") == EscapeAll(s)
  {
    EscapedUnquoted(s);
    TrimWrapped(EscapeAll(s));
  }

  lemma EscapedUnquoted(s: string)
    requires s != [] && s[|s| - 1] != '"'
    ensures EscapeAll(s) != [] && Unquoted(EscapeAll(s))
  {
    EscapeAllEnds(s);
  }

  /** The trimmed rendering of a string ending in a quote is its escaped form without that quote. */
  lemma TrimEscapedEndQuote(s: string)
    requires s != [] && s[|s| - 1] == '"'
    ensures TrimQuotes("\"" + EscapeAll(s) + "\"") == EscapeAll(s[..|s| - 1]) + "\\"
  {
    EscapedEndQuote(s);
    TrimWrappedQuote(EscapeAll(s[..|s| - 1]) + "\\");
  }

  /** Between one quote on each side, a non-empty string without outer quotes is cut out exactly. */
  lemma TrimWrapped(e: string)
    requires e != [] && Unquoted(e)
    ensures TrimQuotes("\"" + e + "\"") == e
  {
    TrimQuoted("\"", e, "\"");
  }

  /** The same with a second quote at the end. */
  lemma TrimWrappedQuote(e: string)
    requires e != [] && Unquoted(e)
    ensures TrimQuotes("\"" + (e + "\"") + "\"") == e
  {
    assert "\"" + (e + "\"") + "\"" == "\"" + e + "\"\"";
    TrimQuoted("\"", e, "\"\"");
  }

  lemma TrimEmptyQuotes()
    ensures TrimQuotes("\"\"") == ""
  {
    assert "\"\""[1..] == "\"";
    assert "\""[1..] == "";
  }

  /**
   * A known string that needs an escape never comes back from its trimmed
   * rendering. When it does not end in a quote, what comes back is longer
   * and needs an escape again, so every further round grows it.
   */
  lemma RenderTrimChanges(s: string)
    requires !NoEscapes(s)
    ensures TrimQuotes(Render(StringValue(Known, s))) != s
    ensures s[|s| - 1] != '"' ==>
      var t := TrimQuotes(Render(StringValue(Known, s)));
      |t| > |s| && !NoEscapes(t)
  {
    var t := TrimQuotes(Render(StringValue(Known, s)));
    RenderTrim(StringValue(Known, s));
    if s[|s| - 1] == '"' {
      assert t[|t| - 1] == '\\';
    } else {
      EscapeAllPlain(s);
    }
  }

  /**
   * A string that needs no escape followed by a quote comes back from the
   * trimmed rendering with a backslash in place of that quote.
   */
  lemma TrailingQuoteBecomesBackslash(x: string)
    requires NoEscapes(x)
    ensures TrimQuotes(Render(StringValue(Known, x + "\""))) == x + "\\"
  {
    var s := x + "\"";
    assert s[..|s| - 1] == x;
    EscapeAllPlain(x);
    RenderTrim(StringValue(Known, s));
  }

  /**
   * A string that needs no escape followed by a backslash comes back from
   * the trimmed rendering with that backslash doubled.
   */
  lemma TrailingBackslashDoubled(x: string)
    requires NoEscapes(x)
    ensures TrimQuotes(Render(StringValue(Known, x + "\\"))) == x + "\\\\"
  {
    var s := x + "\\";
    assert s[..|s| - 1] == x;
    EscapeAllPlain(x);
    assert EscapeAll(s) == x + Escape('\\');
    assert Escape('\\') == ['\\', '\\'];
    RenderTrim(StringValue(Known, s));
  }

  // ---------------------------------------------------------------------
  // The allowed CIDR and remote IP lists

  /** The strings the list loops append: each element rendered and trimmed, in order. */
  function CidrList(xs: seq<Value>): (r: seq<string>)
    ensures |r| == |xs|
    ensures forall i | 0 <= i < |xs| :: r[i] == TrimQuotes(Render(xs[i]))
    decreases |xs|
  {
    if xs == [] then []
    else
      var init := xs[..|xs| - 1];
      assert forall i | 0 <= i < |init| :: init[i] == xs[i];
      CidrList(init) + [TrimQuotes(Render(xs[|xs| - 1]))]
  }

  /** The framework list of known strings that `types.ListValueFrom` builds from a Go string slice. */
  function StringList(ss: seq<string>): (r: seq<Value>)
    ensures |r| == |ss|
    ensures forall i | 0 <= i < |ss| :: r[i] == StringValue(Known, ss[i])
  {
    seq(|ss|, i requires 0 <= i < |ss| => StringValue(Known, ss[i]))
  }

  /**
   * The loop over a list's elements in `ToDBaaSSdkRequest`,
   * `ToDBaaSSdkResponse` and the service config requests: each element is
   * rendered, trimmed of its quotes and appended.
   */
  method CollectCidrs(list: Value) returns (ips: seq<string>)
    ensures ips == CidrList(Elements(list))
  {
    var xs := Elements(list);
    ips := [];
    var i := 0;
    while i < |xs|
      invariant 0 <= i <= |xs|
      invariant ips == CidrList(xs[..i])
    {
      CidrListStep(xs, i);
      ips := ips + [TrimQuotes(Render(xs[i]))];
      i := i + 1;
    }
    assert xs[..|xs|] == xs;
  }

  lemma CidrListStep(xs: seq<Value>, i: int)
    requires 0 <= i < |xs|
    ensures CidrList(xs[..i + 1]) == CidrList(xs[..i]) + [TrimQuotes(Render(xs[i]))]
  {
    var p := xs[..i + 1];
    assert p[..|p| - 1] == xs[..i];
  }

  /**
   * A list of addresses that need no escape comes back unchanged through
   * the framework list and the loop.
   */
  lemma CidrsRoundTrip(ss: seq<string>)
    requires forall i | 0 <= i < |ss| :: NoEscapes(ss[i])
    ensures CidrList(StringList(ss)) == ss
  {
    forall i | 0 <= i < |ss|
      ensures CidrList(StringList(ss))[i] == ss[i]
    {
      RenderTrim(StringValue(Known, ss[i]));
    }
  }

  // ---------------------------------------------------------------------
  // Schedules, backups and maintenance windows

  datatype ScheduleRequest = ScheduleRequest(hour: Option<int>, minute: Option<int>)

  datatype ScheduledBackupsRequest = ScheduledBackupsRequest(retention: Option<int>, schedule: ScheduleRequest)

  datatype MaintenanceWindowRequest =
    MaintenanceWindowRequest(dayOfWeek: Option<int>, startHour: Option<int>, startMinute: Option<int>)

  /** `ScheduleValue.ToDBaaSSdkObject`: each known integer behind a pointer, no diagnostics. */
  function ScheduleToSdk(e: EntityValue): (r: (ScheduleRequest, seq<Diagnostic>))
    ensures r.1 == []
    ensures r.0.hour.Some? <==> Field(e, "hour").Int64Value? && Field(e, "hour").state == Known
    ensures r.0.minute.Some? <==> Field(e, "minute").Int64Value? && Field(e, "minute").state == Known
    ensures r.0.hour.Some? ==> r.0.hour.value == Field(e, "hour").num
    ensures r.0.minute.Some? ==> r.0.minute.value == Field(e, "minute").num
  {
    (ScheduleRequest(IntPtr(Field(e, "hour")), IntPtr(Field(e, "minute"))), [])
  }

  /** `MaintenanceWindowValue.ToDBaaSSdkObject`, in both versions. */
  function MaintenanceWindowToSdk(e: EntityValue): (r: (MaintenanceWindowRequest, seq<Diagnostic>))
    ensures r.1 == []
    ensures r.0.dayOfWeek.Some? <==> Field(e, "day_of_week").Int64Value? && Field(e, "day_of_week").state == Known
    ensures r.0.startHour.Some? <==> Field(e, "start_hour").Int64Value? && Field(e, "start_hour").state == Known
    ensures r.0.startMinute.Some? <==> Field(e, "start_minute").Int64Value? && Field(e, "start_minute").state == Known
    ensures r.0.dayOfWeek.Some? ==> r.0.dayOfWeek.value == Field(e, "day_of_week").num
    ensures r.0.startHour.Some? ==> r.0.startHour.value == Field(e, "start_hour").num
    ensures r.0.startMinute.Some? ==> r.0.startMinute.value == Field(e, "start_minute").num
  {
    (MaintenanceWindowRequest(IntPtr(Field(e, "day_of_week")), IntPtr(Field(e, "start_hour")),
                              IntPtr(Field(e, "start_minute"))), [])
  }

  /** `ObjectValue.AttributeTypes(ctx)`. */
  function ObjectTypes(v: Value): map<string, AttrType>
  {
    if v.ObjectValue? then v.attrTypes else map[]
  }

  /** The schedule kind each scheduled backups version builds with `NewScheduleValue`. */
  function ScheduleKind(c: Custom): Custom
  {
    if c == ScheduledBackupsV2 then ScheduleV2 else ScheduleV1
  }

  /** The schedule value `ScheduledBackupsValue.ToDBaaSSdkObject` constructs from its `schedule` object. */
  function ScheduleOf(e: EntityValue): EntityValue
  {
    var s := Field(e, "schedule");
    Construct(ScheduleKind(e.custom), ObjectTypes(s), Attributes(s))
  }

  /**
   * `ScheduledBackupsValue.ToDBaaSSdkObject`: the schedule object goes
   * through the schedule constructor, whose diagnostics are passed on, and
   * the retention is kept behind a pointer when known.
   */
  method ScheduledBackupsToSdk(e: EntityValue) returns (r: ScheduledBackupsRequest, diags: seq<Diagnostic>)
    ensures r.retention == IntPtr(Field(e, "retention"))
    ensures r.schedule == ScheduleToSdk(ScheduleOf(e)).0
    ensures HasError(diags) <==> ScheduleOf(e).state != Known
  {
    var s := Field(e, "schedule");
    var scheduleObj, d := New(ScheduleKind(e.custom), ObjectTypes(s), Attributes(s));
    diags := d;
    var (schedule, d2) := ScheduleToSdk(scheduleObj);
    diags := diags + d2;
    r := ScheduledBackupsRequest(IntPtr(Field(e, "retention")), schedule);
  }

  /** A known schedule object of the schedule table is carried over with its two integers. */
  lemma ScheduleOfKnown(e: EntityValue)
    requires Field(e, "schedule").ObjectValue? && Field(e, "schedule").state == Known
    requires Field(e, "schedule").attrTypes == ScheduleTypes
    requires AttrsMatch(ScheduleTypes, Field(e, "schedule").attrs)
    ensures ScheduleOf(e) == EntityValue(ScheduleKind(e.custom), Known, Field(e, "schedule").attrs)
  {
    ConstructFromOwnTypes(ScheduleKind(e.custom), Field(e, "schedule").attrs);
  }

  /** A null or unknown schedule object makes the schedule constructor report an error. */
  lemma ScheduleOfAbsent(e: EntityValue)
    requires Field(e, "schedule").state != Known
    ensures ScheduleOf(e).state != Known
  {
    var kind := ScheduleKind(e.custom);
    assert AttrTypes(kind) == ScheduleTypes && "hour" in ScheduleTypes;
    ConstructMissing(kind, ObjectTypes(Field(e, "schedule")), map[], "hour");
  }

  // ---------------------------------------------------------------------
  // Networking requests and responses

  datatype PrivateRequest = PrivateRequest(enabled: bool, allowedCidrs: seq<string>, sharedSubnetCidr: Option<string>)

  datatype PublicRequest = PublicRequest(enabled: bool, allowedCidrs: seq<string>)

  datatype PrivateResponse = PrivateResponse(
    enabled: bool, hostname: string, ipAddress: string, allowedCidrs: seq<string>,
    sharedSubnetCidr: Option<string>, sharedSubnetId: string, sharedNetworkId: string)

  datatype PublicResponse = PublicResponse(enabled: bool, hostname: string, ipAddress: string, allowedCidrs: seq<string>)

  /** The request the private networking value stands for: enabled, the trimmed CIDRs and the subnet CIDR. */
  function PrivateRequestOf(e: EntityValue): PrivateRequest
  {
    PrivateRequest(ValueBool(Field(e, "enabled")), CidrList(Elements(Field(e, "allowed_cidrs"))),
                   ValueStringPointer(Field(e, "shared_subnet_cidr")))
  }

  /** The request the public networking value stands for: enabled and the trimmed CIDRs. */
  function PublicRequestOf(e: EntityValue): PublicRequest
  {
    PublicRequest(ValueBool(Field(e, "enabled")), CidrList(Elements(Field(e, "allowed_cidrs"))))
  }

  /**
   * The response `PrivateNetworkConfigValueV2.ToDBaaSSdkResponse` builds, as
   * written: the shared subnet id is filled from the shared subnet CIDR.
   */
  function PrivateResponseOf(e: EntityValue): PrivateResponse
  {
    PrivateResponse(ValueBool(Field(e, "enabled")), ValueString(Field(e, "hostname")),
                    ValueString(Field(e, "ip_address")), CidrList(Elements(Field(e, "allowed_cidrs"))),
                    ValueStringPointer(Field(e, "shared_subnet_cidr")),
                    ValueString(Field(e, "shared_subnet_cidr")), ValueString(Field(e, "shared_network_id")))
  }

  /** The response the private networking value evidently stands for, with its own shared subnet id. */
  function PrivateResponseIntended(e: EntityValue): (r: PrivateResponse)
    ensures r.sharedSubnetId == ValueString(Field(e, "shared_subnet_id"))
    ensures r == PrivateResponseOf(e).(sharedSubnetId := ValueString(Field(e, "shared_subnet_id")))
  {
    PrivateResponseOf(e).(sharedSubnetId := ValueString(Field(e, "shared_subnet_id")))
  }

  /** The response the public networking value stands for. */
  function PublicResponseOf(e: EntityValue): PublicResponse
  {
    PublicResponse(ValueBool(Field(e, "enabled")), ValueString(Field(e, "hostname")),
                   ValueString(Field(e, "ip_address")), CidrList(Elements(Field(e, "allowed_cidrs"))))
  }

  /** `PrivateNetworkConfigValueV2.ToDBaaSSdkRequest`. */
  method PrivateToRequest(e: EntityValue) returns (r: PrivateRequest, diags: seq<Diagnostic>)
    requires e.custom == PrivateNetworkConfigV2
    ensures r == PrivateRequestOf(e) && diags == []
  {
    var ipList := CollectCidrs(Field(e, "allowed_cidrs"));
    r := PrivateRequest(ValueBool(Field(e, "enabled")), ipList, ValueStringPointer(Field(e, "shared_subnet_cidr")));
    diags := [];
  }

  /** `PublicNetworkConfigValueV2.ToDBaaSSdkRequest`. */
  method PublicToRequest(e: EntityValue) returns (r: PublicRequest, diags: seq<Diagnostic>)
    requires e.custom == PublicNetworkConfigV2
    ensures r == PublicRequestOf(e) && diags == []
  {
    var ipList := CollectCidrs(Field(e, "allowed_cidrs"));
    r := PublicRequest(ValueBool(Field(e, "enabled")), ipList);
    diags := [];
  }

  /** `PrivateNetworkConfigValueV2.ToDBaaSSdkResponse`, as written. */
  method PrivateToResponse(e: EntityValue) returns (r: PrivateResponse, diags: seq<Diagnostic>)
    requires e.custom == PrivateNetworkConfigV2
    ensures r == PrivateResponseOf(e) && diags == []
  {
    var ipList := CollectCidrs(Field(e, "allowed_cidrs"));
    r := PrivateResponse(ValueBool(Field(e, "enabled")), ValueString(Field(e, "hostname")),
                         ValueString(Field(e, "ip_address")), ipList,
                         ValueStringPointer(Field(e, "shared_subnet_cidr")),
                         ValueString(Field(e, "shared_subnet_cidr")), ValueString(Field(e, "shared_network_id")));
    diags := [];
  }

  /** `PublicNetworkConfigValueV2.ToDBaaSSdkResponse`. */
  method PublicToResponse(e: EntityValue) returns (r: PublicResponse, diags: seq<Diagnostic>)
    requires e.custom == PublicNetworkConfigV2
    ensures r == PublicResponseOf(e) && diags == []
  {
    var ipList := CollectCidrs(Field(e, "allowed_cidrs"));
    r := PublicResponse(ValueBool(Field(e, "enabled")), ValueString(Field(e, "hostname")),
                        ValueString(Field(e, "ip_address")), ipList);
    diags := [];
  }

  /**
   * The response as written reports the shared subnet CIDR as the shared
   * subnet id: a value with CIDR `10.240.0.0/24` and id `subnet-1` gives a
   * response whose id is `10.240.0.0/24`.
   */
  lemma SharedSubnetIdFromCidr(e: EntityValue)
    requires Field(e, "shared_subnet_cidr") == StringValue(Known, "10.240.0.0/24")
    requires Field(e, "shared_subnet_id") == StringValue(Known, "subnet-1")
    ensures PrivateResponseOf(e).sharedSubnetId == "10.240.0.0/24"
    ensures PrivateResponseOf(e).sharedSubnetId != ValueString(Field(e, "shared_subnet_id"))
  {
  }

  /** The intended response differs from the one as written exactly where the CIDR and the id differ. */
  lemma IntendedResponseDiffers(e: EntityValue)
    ensures PrivateResponseIntended(e) == PrivateResponseOf(e) <==>
      ValueString(Field(e, "shared_subnet_id")) == ValueString(Field(e, "shared_subnet_cidr"))
  {
  }
}
