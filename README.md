# sys11dbaas Terraform provider — a Dafny model of its core

This project models the core of the SysEleven DBaaS Terraform provider. It has three layers.

1. **Tri-state configuration values.** These are the generated value objects of the provider: ApplicationConfig, Recovery, ScheduledBackups, Schedule, ServiceConfig, MaintenanceWindow, and the private and public network configs. Most come in a version 1 and a version 2.
   - Each object is a record of fields plus a state: Null, Unknown or Known.
   - The model keeps one generic description, driven by per-entity field tables. It also keeps every place where the version 2 code points at a version 1 type.
   - It covers:
     - the batch-validating constructors and their `Must` wrappers;
     - the wire decoder (`ValueFromTerraform`) and encoder (`ToTerraformValue`);
     - `ValueFromObject`, `ToObjectValue`, `Equal` and the type equality;
     - the projections onto the SDK's request and response structs.
2. **The reconciliation handlers.** These are Read, Create, Update and Delete of both database resources.
   - The API client is an oracle whose i-th call gets the i-th answer, so the retry and poll loops are proved against every sequence of successes and failures.
   - A `Response` object holds the diagnostics, the stored state and whether the handler panicked. A `Client` object logs every call.
   - Each handler is a method proved against a function. The function computes the handler's effect from the answers: the diagnostics it adds, the state it writes, whether it panics, and the calls it makes.
   - Also modelled: the conversions from API response to Terraform state (including the password carried over from the plan or the prior state) and the conversion from plan to API request.
3. **Validity and provider configuration.**
   - The two resource schemas are a validity predicate (range, length and regular-expression validators) and a defaulting function on declared configurations.
   - The provider's `Configure` resolves each connection setting from the configuration, then the environment, then a default. It reports unknown and missing settings and builds the data handed to the resources.

Modules, one per file:

- `Framework`: the plugin framework's values and wire trees (`framework.dfy`). This is library behaviour the core relies on, not code of the repository.
- `Entities`: field tables, constructors and `Must` (`entities.dfy`).
- `Codec`: wire decode and encode (`codec.dfy`).
- `Objects`: `ValueFromObject`, `ToObjectValue`, `Equal` and type equality (`objects.dfy`).
- `Quote`: Go's `strconv.Quote`, which the `%q` rendering of a string value uses (`quote.dfy`). Like `Framework`, this is library behaviour, not code of the repository.
- `Sdk`: SDK projections and quote trimming (`sdk.dfy`).
- `Convert`: response to state (`convert.dfy`).
- `Requests`: plan to request (`requests.dfy`).
- `Reconcile`: the handlers (`reconcile.dfy`).
- `Schema`: the schemas (`schema.dfy`).
- `Provider`: `Configure` (`provider.dfy`).

Sometimes the code and its documented intent disagree. For example, the version 2 decoders use version 1 types, and `ToObjectValue` ignores the object's own state. In such cases the model follows the code, and the lemmas named below state the consequence.

## Model

| member | source | states |
|---|---|---|
| Entities.New | internal/provider/application_config.go:214-423 | The result is Unknown exactly when diagnostics were reported. When a key is missing, mistyped or extra, the diagnostics are exactly that batch, one per key and without duplicates. Otherwise they are exactly the field-by-field read errors. The value equals `Construct`: Known with the inputs when everything fits. |
| Entities.CheckDeclared | internal/provider/application_config.go:220-245 | The loop over the declared types reports each missing value and each type mismatch once, and reports nothing else, in whatever order the map is visited. |
| Entities.CheckUndeclared | internal/provider/application_config.go:247-259 | The loop over the given attributes reports exactly the keys not declared, once each. |
| Entities.ReadFields | internal/provider/application_config.go:265-407 | The per-field reads stop at the first absent field and report each wrong type. The result equals the field-error function. |
| Entities.BatchErrorsEmpty | internal/provider/application_config.go:220-263 | The batch is empty if and only if the attributes have exactly the declared keys, each with its declared type. |
| Entities.FieldErrorsEmpty | internal/provider/application_config.go:265-407 | The per-field reads report nothing if and only if every field is present with its expected kind. |
| Entities.NoFieldErrorsFits | internal/provider/application_config.go:265-407 | An empty per-field report implies every listed field is present and well typed, by induction over the field order. |
| Entities.FieldErrorsNonEmpty | internal/provider/application_config.go:265-273 | An absent field always produces an error. |
| Entities.ConstructKnown | internal/provider/application_config.go:409-423 | The constructed value is Known exactly when the attributes match the types and fit the fields. It is then Known with those fields; otherwise it is the Unknown value. |
| Entities.ConstructMissing | internal/provider/application_config.go:224-233 | A missing declared attribute always yields the Unknown value. |
| Entities.ConstructFromOwnTypes | internal/provider/application_config_v2.go:371-385 | Given the entity's own attribute types and matching attributes, the result is Known and holds exactly the inputs. This includes both networking objects of version 2. |
| Entities.Must | internal/provider/application_config.go:426-445 | `Must` panics exactly when the constructor reports an error. Otherwise it returns the constructor's Known value. |
| Entities.FieldOrderIsTable | internal/provider/application_config_v2.go:176-225 | Each entity's read order names exactly its declared keys. Version 2 has 8 application keys, service v2 has 5 without `remote_ips`, private networking has 7 and public networking has 4. The constructor lemmas `ConstructKnown` and `ConstructMissing`, the decoder's `DecodeObjectTree` and the object readers rely on it to tie the read order to the key checks. |
| Codec.DecodeAs | internal/provider/application_config.go:447-485 | Decoding gives an error for a wire type that does not match. A decoded value has the target entity. It is Null exactly for a nil type or a null tree, and Unknown exactly for an unknown tree. |
| Codec.ValueFromTerraform | internal/provider/application_config_v2.go:409-447 | Only the entities that declare the interface method return an entity from it. The others fall back to the embedded object type's decoder. |
| Codec.ToTerraformValue | internal/provider/application_config.go:505-606 | The method equals `Encoded`. Null and Unknown encode to a null or unknown object. A Known value encodes every field. A failed validation gives the unknown object with an error, except for the unvalidated public network encoder, which panics. |
| Codec.EncodeAttributes | internal/provider/application_config.go:528-596 | The field-by-field loop succeeds exactly when every field encodes. The map it fills is the encoding of every declared field. |
| Codec.KnownRoundTrip | internal/provider/application_config.go:447-606 | A well-typed Known value encodes without error. Decoding the tree with its own type gives the same value back. |
| Codec.AbsentRoundTrip | internal/provider/application_config.go:599-602 | A Null or Unknown value encodes to the null or unknown tree. That tree decodes to the decoder's target entity in the same state. |
| Codec.DecodeEncodeEntity | internal/provider/service_config.go:371-510 | The decoder inverts the encoder for every entity that decodes to its own type. |
| Codec.RecoveryV2DecodesToV1 | internal/provider/application_config_v2.go:1140-1178 | The version 2 recovery decoder returns a version 1 recovery value with the same fields. |
| Codec.ApplicationConfigV2DecodePanics | internal/provider/application_config_v2.go:409-447 | A Known version 2 application tree goes through the version 1 `Must` with the version 1 schema, so the networking keys count as extra and decoding panics. |
| Codec.ApplicationConfigV2RoundTripPanics | internal/provider/application_config_v2.go:409-572 | Encoding a well-typed version 2 application value and decoding it again always panics. |
| Codec.UnvalidatedEncoderPanics | internal/provider/network_config_v2.go:1031-1090 | When the encoded fields fail validation, only the public network encoder, which skips `ValidateValue`, panics. Every other encoder returns the unknown object with an error. |
| Objects.ValueFromObject | internal/provider/application_config.go:36-200 | Reading succeeds exactly when every listed field is present with its type. A failure carries an error. Success carries no diagnostics and a Known value of the decoder's target. For the maintenance windows the result is a plain object. |
| Objects.ToObjectValue | internal/provider/application_config.go:620-692 | The result has the entity's attribute types and is Known exactly when no error is reported. An error gives the Unknown object. Nested objects keep their own Null or Unknown state. The value's own state is ignored. |
| Objects.Rebuild | internal/provider/application_config.go:627-647 | A nested object is rebuilt with `ObjectValueMust`. It panics exactly when it is Known with mismatched attributes. Otherwise it keeps its state, and its attributes when Known. |
| Objects.ToObjectValueOfTyped | internal/provider/application_config.go:620-692 | A well-typed value becomes the Known object of its own fields, without diagnostics. |
| Objects.FromObjectInvertsToObject | internal/provider/service_config.go:36-162 | `ValueFromObject` applied to the object from `ToObjectValue` gives back a Known value with the same fields, or the same plain object for the maintenance windows. This holds for every entity except application config v2. |
| Objects.ApplicationConfigV2LosesNetworking | internal/provider/application_config_v2.go:36-162 | Reading a version 2 application object leaves both networking fields at the zero object. Encoding that value then fails. |
| Objects.AbsentServiceConfigObject | internal/provider/service_config.go:524-590 | A Null or Unknown service config still becomes a Known object with an empty `remote_ips` list and no diagnostics, because its own state is ignored. |
| Objects.AbsentNetworkObjectFails | internal/provider/network_config_v2.go:568-592 | A Null or Unknown network config becomes the Unknown object with an error, because the zero `allowed_cidrs` list has no element type. |
| Objects.EqualIsEquality | internal/provider/application_config.go:694-742 | `Equal` holds exactly when the other value is the same entity in the same state with equal fields. Two Null or two Unknown values are equal whatever their fields. |
| Objects.TypeEqualReflexive | internal/provider/application_config_v2.go:791-799 | A type equals itself, except the version 2 recovery and service types, whose `Equal` asserts the version 1 type. |
| Objects.ValueTypeMatches | internal/provider/application_config_v2.go:756-762 | A value's `Type` equals the type it was made for except for application config v2, schedule v2 and service config v2. Application config v2 and schedule v2 report the version 1 type. Service config v2 reports its own type, which its own `Equal` rejects because that asserts the version 1 type. Recovery v2 also reports the version 1 type, and still matches, because `RecoveryTypeV2.Equal` asserts the version 1 type too. |
| Sdk.IntPtr | internal/provider/application_config.go:2142-2160 | An integer field becomes a pointer to its value when it is Known, and nil when it is Null or Unknown. |
| Sdk.TrimQuotes | internal/provider/network_config_v2.go:680-694 | The trimmed string never begins or ends with a double quote. |
| Sdk.TrimQuotesInfix | internal/provider/network_config_v2.go:680-694 | The trimmed string is the input with only double quotes cut from both ends. |
| Sdk.TrimIdempotent | internal/provider/network_config_v2.go:680-694 | Trimming twice gives the same string as trimming once. |
| Quote.Escape | internal/provider/database_resource.go:507 | A character is written as itself exactly when it needs no escape. An escaped character starts with a backslash, and only `"` yields an escape ending in a quote. |
| Quote.EscapeAllPlain | internal/provider/database_resource.go:507 | Escaping leaves a string unchanged when no character needs an escape. Otherwise the escaped form is longer and holds a backslash. |
| Quote.EscapeAllEnds | internal/provider/database_resource.go:507 | The escaped form of a non-empty string never begins with a quote, and ends with one exactly when the string does. |
| Sdk.RenderTrim | internal/provider/database_resource.go:505-508 | Trimming the `%q` rendering of a Known string gives the string itself when no character needs an escape. Otherwise it gives the escaped string, and a final `"` comes back as its escaping backslash alone. Null gives `<null>` and Unknown gives `<unknown>`. |
| Sdk.RenderTrimChanges | internal/provider/database_resource.go:505-508 | A string with a character that needs an escape never comes back unchanged. Unless it ends in `"`, it comes back longer and still needing an escape. |
| Sdk.TrailingQuoteBecomesBackslash | internal/provider/database_resource.go:507 | A string needing no escape, followed by `"`, comes back with a backslash in place of the quote. |
| Sdk.TrailingBackslashDoubled | internal/provider/database_resource.go:507 | A string needing no escape, followed by a backslash, comes back with the backslash doubled. |
| Sdk.CollectCidrs | internal/provider/network_config_v2.go:680-694 | The loop keeps the list's order and length and trims each entry. |
| Sdk.CidrsRoundTrip | internal/provider/network_config_v2.go:680-694 | Addresses in which no character needs an escape survive the list rendering and trimming unchanged. |
| Sdk.ScheduleToSdk | internal/provider/application_config.go:2142-2160 | Hour and minute become pointers exactly when Known, with their values. There are no diagnostics. |
| Sdk.MaintenanceWindowToSdk | internal/provider/service_config.go:1081-1106 | Day of week, start hour and start minute each become a pointer exactly when Known, with its value. The diagnostics are empty. |
| Sdk.ScheduledBackupsToSdk | internal/provider/application_config_v2.go:1770-1787 | Retention becomes a pointer exactly when Known. The schedule is the projection of the schedule value rebuilt from the nested object. The rebuild's diagnostics are errors exactly when that value is not Known. |
| Sdk.PrivateToRequest | internal/provider/network_config_v2.go:680-694 | The private request carries only `enabled`, the trimmed `allowed_cidrs` and the subnet CIDR pointer, without diagnostics. |
| Sdk.PublicToRequest | internal/provider/network_config_v2.go:1194-1207 | The public request carries only `enabled` and the trimmed `allowed_cidrs`, without diagnostics. |
| Sdk.PrivateToResponse | internal/provider/network_config_v2.go:660-678 | The private response projects every field as written, including the subnet id taken from the CIDR. |
| Sdk.PublicToResponse | internal/provider/network_config_v2.go:1177-1192 | The public response carries `enabled`, hostname, IP address and the trimmed `allowed_cidrs`. |
| Sdk.SharedSubnetIdFromCidr | internal/provider/network_config_v2.go:675 | For a config with CIDR `10.240.0.0/24` and id `subnet-1`, the response's subnet id is the CIDR, not the id. |
| Sdk.IntendedResponseDiffers | internal/provider/network_config_v2.go:669-677 | The corrected response equals the one as written if and only if the id and the CIDR are the same string. |
| Sdk.PrivateResponseIntended | internal/provider/network_config_v2.go:669-677 | The corrected response takes the subnet id from `shared_subnet_id` and is otherwise the projection as written. |
| Convert.PasswordV1 | internal/provider/database_resource.go:505-508 | The password carried over is the attribute's rendering trimmed of quotes, or "" when there is none. It never begins or ends with a quote. |
| Convert.PasswordV2 | internal/provider/database_resource_v2.go:564 | Indexing the map without a check panics when the attribute is absent. Otherwise the result is the trimmed rendering. |
| Convert.PasswordKept | internal/provider/database_resource.go:505-512 | A Known password is carried over unchanged exactly when none of its characters needs an escape. Version 2 carries the same text as version 1. |
| Convert.PasswordMarkers | internal/provider/database_resource.go:595-602 | A Null password is carried over as `<null>` and an Unknown one as `<unknown>`. |
| Convert.PasswordV2PanicsWhereV1Defaults | internal/provider/database_resource_v2.go:661 | Version 2 panics exactly where version 1 falls back to "". Otherwise both versions carry the same password. |
| Convert.ResponseToModelV1State | internal/provider/database_resource.go:458-533 | The version 1 conversion never fails. The state it builds takes every field from the response and the password from the caller. |
| Convert.ResponseToModelV2State | internal/provider/database_resource_v2.go:501-592 | The version 2 conversion never fails. The state it builds takes every field, including both networks, from the response and the password from the caller. |
| Convert.ReadKeepsPassword | internal/provider/database_resource.go:542-610 | A read stores the prior state's password unchanged exactly when none of its characters needs an escape. Otherwise the stored password is longer and again needs an escape, so it grows on every read. Version 2 returns exactly when the prior state has a password, and stores the same text as version 1. |
| Convert.CreateStoresPlanPassword | internal/provider/database_resource.go:451-533 | With a plan password that needs no escape, both create converters return the state of the response holding that password. |
| Convert.PasswordEndingInQuoteLost | internal/provider/database_resource.go:507 | A password `x"`, with `x` needing no escape, is carried over as `x\`, while the intended carry-over gives `x"`. |
| Convert.PasswordBackslashDoubled | internal/provider/database_resource.go:507 | A password `x\`, with `x` needing no escape, is carried over as `x\\`, while the intended carry-over gives `x\`. |
| Convert.IntendedPasswordKept | internal/provider/database_resource.go:505-512 | The corrected carry-over returns the configured password unchanged, for every password. |
| Requests.WindowRequest | internal/provider/database_resource_v2.go:143-155 | A nested maintenance window is converted only when it is not Unknown. The step fails exactly when a Null or mistyped object cannot be built. Otherwise the request part is its projection. |
| Requests.BackupsRequest | internal/provider/database_resource_v2.go:163-175 | The same rule holds for scheduled backups, including the schedule's own diagnostics. |
| Requests.PrivateNetworkRequest | internal/provider/database_resource_v2.go:177-189 | The same rule holds for private networking. |
| Requests.PublicNetworkRequest | internal/provider/database_resource_v2.go:191-203 | The same rule holds for public networking. |
| Requests.ServiceRequests | internal/provider/database_resource.go:145-163 | The remote addresses are the trimmed list. The step fails exactly when the window cannot be converted. |
| Requests.AppRequests | internal/provider/database_resource_v2.go:157-203 | The step fails exactly when one of the application's nested objects cannot be converted. Otherwise the three request parts are their projections. |
| Requests.ConvertPlan | internal/provider/database_resource_v2.go:143-203 | Converting the plan fails exactly when one nested conversion fails, and then no request is built. Otherwise the request parts are those of the plan. |
| Requests.UpdateOmitsRegionAndType | internal/provider/database_resource_v2.go:411-431 | The update request equals the create request without the service region and the application type. |
| Requests.NullNestedRejected | internal/provider/database_resource_v2.go:143-203 | A Null nested object with declared fields fails conversion. |
| Requests.UnknownNestedSkipped | internal/provider/database_resource_v2.go:143-203 | An Unknown nested object converts and leaves its request pointer nil. |
| Requests.KnownWindowConverts | internal/provider/database_resource.go:151-163 | A Known, well-typed window converts to its projection. |
| Reconcile.Client.Send | internal/provider/database_resource.go:91-96 | Every call is appended to the log and answered with the oracle's next answer. |
| Reconcile.Resource.Read | internal/provider/database_resource.go:76-128 | Read applies `ReadEffect`: the retried get, then the conversion with the prior state. |
| Reconcile.Resource.GetWithRetries | internal/provider/database_resource.go:91-111 | The loop makes the gets `Retry` counts and returns its answer. |
| Reconcile.Resource.Delete | internal/provider/database_resource.go:277-304 | Delete makes one call. On error it keeps the state and adds "Unable to Delete Database". On success it removes the resource. |
| Reconcile.Resource.WaitForReady | internal/provider/database_resource.go:236-266 | The wait loop computes `Wait` and logs one get per poll. |
| Reconcile.Resource.PollForReady | internal/provider/database_resource.go:237-264 | One wait iteration is `WaitStep`, in this order: exit on ready, exit at the limit, poll, count a strike or reset it. |
| Reconcile.Resource.Create | internal/provider/database_resource.go:130-275 | A plan that does not convert adds errors, makes no call and stores nothing. Otherwise Create applies `CreateEffect`. |
| Reconcile.Resource.SubmitCreate | internal/provider/database_resource.go:211-226 | One create call. Its failure adds "Error creating database" and stores nothing. |
| Reconcile.Resource.AwaitCreation | internal/provider/database_resource.go:229-272 | After the wait: on abort the read error, on a panic the panic, otherwise the latest state, plus the limit error when the limit was reached. |
| Reconcile.Resource.PropagateUpdate | internal/provider/database_resource.go:403-443 | The propagation loop computes `Propagate` and logs one get per iteration. |
| Reconcile.Resource.PollAfterUpdate | internal/provider/database_resource.go:404-441 | One propagation iteration is `PropagateStep`. A failed read also uses up an iteration. |
| Reconcile.Resource.Update | internal/provider/database_resource.go:306-445 | A plan that does not convert adds errors, makes no call and stores nothing. Otherwise Update applies `UpdateEffect`. |
| Reconcile.Resource.AwaitPropagation | internal/provider/database_resource.go:403-443 | Every successful read stores its state, so the last one stays. Three failures in a row add the read error. |
| Reconcile.RetryTakesFirstSuccess | internal/provider/database_resource.go:93-111 | Read's retry takes the first success among the next three answers. It fails only when all three fail, and then it has made exactly three gets. |
| Reconcile.ReadRetriesAtMostThrice | internal/provider/database_resource.go:91-111 | Read makes one to three gets. It stores nothing and reports the last error exactly when three gets in a row fail. |
| Reconcile.ReadStoresAnswerWithPriorPassword | internal/provider/database_resource_v2.go:89-122 | After a successful get, Read stores the answer as the state of its version, with the prior state's password when it needs no escape and no diagnostics. |
| Reconcile.WaitEndsReadyOrAtLimit | internal/provider/database_resource.go:237-243 | The wait ends on a ready model, or at the limit of 60 successful polls with a model that is not ready. |
| Reconcile.WaitCallBound | internal/provider/database_resource.go:236-266 | The wait's gets are bounded by three per successful poll still allowed. The pair (polls left, strikes left) decreases at every iteration. |
| Reconcile.WaitAbortsOnStrikes | internal/provider/database_resource.go:245-258 | The wait aborts only after three failed gets in a row, reporting the last one's error. |
| Reconcile.WaitEffectCallBound | internal/provider/database_resource.go:18 | The wait makes at most 180 gets. |
| Reconcile.WaitEffectStoresReadyOrReportsLimit | internal/provider/database_resource.go:237-243 | What the wait stores is ready, or it is not ready and the last diagnostic is the retry-limit error. The wait never removes the resource. |
| Reconcile.CreateCallBound | internal/provider/database_resource.go:211-266 | Create's first call is the one create call. Without the wait it makes no other call; with it, at most 180 gets follow. |
| Reconcile.CreateStoresReadyOrReportsLimit | internal/provider/database_resource_v2.go:250-290 | After the wait, what Create stores is ready, or the retry-limit error is the last diagnostic. Create never removes the resource. |
| Reconcile.CreateStoresPlanPasswordEffect | internal/provider/database_resource_v2.go:250-290 | With a plan password that needs no escape, whatever Create stores, before or after the wait, holds that password. |
| Reconcile.WaitEffectKeepsPassword | internal/provider/database_resource.go:255-262 | The wait converts every poll against the plan, so the stored model keeps the plan's password. |
| Reconcile.PropagateCallCount | internal/provider/database_resource.go:404-441 | The propagation reads make at most 10 gets, and exactly 10 unless they abort or panic. |
| Reconcile.PropagateAbortsOnStrikes | internal/provider/database_resource.go:414-427 | The propagation aborts only after three failed reads in a row, reporting the last one's error. |
| Reconcile.UpdateCallCount | internal/provider/database_resource_v2.go:439-487 | Update makes one update call. When it fails, no poll follows and nothing is stored. When it succeeds and no error arises, exactly 10 gets follow. |
| Reconcile.UpdateStoresPlanPassword | internal/provider/database_resource.go:427-438 | With a plan password that needs no escape, whatever Update stores holds that password. |
| Reconcile.ConvertersKeepPlanPassword | internal/provider/database_resource_v2.go:564 | With a plan password that needs no escape, both converters of both versions store it for every response, without diagnostics. |
| Schema.NamePatternMeaning | internal/provider/schema.go:238 | The name regular expression matches exactly the empty string, or a string that starts and ends with a letter or digit and has only letters, digits, `-`, `_` and `.` between. |
| Schema.Utf8Length | internal/provider/schema.go:237 | The length validators count UTF-8 bytes, from one to four per character and one per ASCII character. |
| Schema.ScheduleBounds | internal/provider/schema.go:144-167 | An admitted schedule has an hour in [0, 23] and a minute in [0, 59] when Known. |
| Schema.ScheduledBackupsBounds | internal/provider/schema.go:129-167 | Admitted backups have a retention in [7, 90] and a schedule within bounds. |
| Schema.ApplicationConfigBounds | internal/provider/schema.go:35-63 | An admitted application config is not Null. Its required fields are not Null. It has at most 5 instances, a password of at least 16 bytes, and backups within bounds. |
| Schema.ServiceConfigBounds | internal/provider/schema.go:241-313 | An admitted service config is not Null. Its disk size is in [5, 500]. Its required fields are set, including `type` in version 1. |
| Schema.TopLevelBounds | internal/provider/schema.go:209-240 | An admitted configuration has a description of at most 128 bytes and a name of 1 to 64 bytes matching the name pattern. Its nested configs are admitted. |
| Schema.ComputedUnset | internal/provider/schema.go:193-331 | A configuration cannot set the computed-only attributes. |
| Schema.AcceptedBounds | internal/provider/schema_v2.go:28-46 | Both resource schemas impose the instance, password, retention, disk size, description and name bounds. |
| Schema.ScheduledBackupsDefaults | internal/provider/schema.go:129-141 | A retention left out of the configuration is planned as 7. |
| Schema.RecoveryV2Defaults | internal/provider/schema_v2.go:49-57 | `recovery.exclusive` defaults to false. |
| Schema.PrivateNetworkingDefaults | internal/provider/schema_v2.go:169-209 | Private networking defaults to enabled, with subnet `10.240.0.0/24`. |
| Schema.PublicNetworkingDefaults | internal/provider/schema_v2.go:233-240 | Public networking defaults to disabled. |
| Schema.ServiceConfigDefaults | internal/provider/schema_v2.go:374-379 | The service type defaults to `database` in version 2. It has no default in version 1, where it is required (schema.go:309-311). |
| Schema.TopLevelDefaults | internal/provider/schema.go:209-221 | The description defaults to "". Nested configs are defaulted by their own schemas. |
| Schema.PlannedDefaults | internal/provider/schema.go:209-221 | In both schemas the planned description defaults to "" and the planned retention to 7. |
| Schema.PlannedServiceType | internal/provider/schema.go:309-311 | The planned service type is the configured one in version 1 and defaults to `database` in version 2. |
| Schema.PlannedDefaultsV2 | internal/provider/schema_v2.go:49-240 | The version 2 plan defaults `exclusive` to false, private networking to enabled on `10.240.0.0/24`, and public networking to disabled. |
| Provider.Configure | internal/provider/sys11dbaas_provider.go:87-266 | Decoding errors are returned as they are. Unknown settings give exactly one error each and nothing else is checked. Otherwise the missing settings give one error each, and the client error is added only when there are none. The data is set exactly when no error arose. The data-source and resource data are identical. |
| Provider.AsDiagnostic | internal/provider/sys11dbaas_provider.go:101-245 | An unknown or missing setting is reported as an attribute error at that attribute's path, with the summary and detail text of the code. The client error has no path. |
| Provider.CheckKnown | internal/provider/sys11dbaas_provider.go:101-135 | url, api_key, organization and project each add their error when Unknown, in that order. |
| Provider.ResolveSettings | internal/provider/sys11dbaas_provider.go:143-178 | The environment is read, with the default URL and the wait flag defaulting to true. Then every non-null attribute overrides. |
| Provider.CheckPresent | internal/provider/sys11dbaas_provider.go:183-221 | Each resolved setting that is empty adds its error, in order. |
| Provider.UnknownErrors | internal/provider/sys11dbaas_provider.go:101-135 | Only unknown-value errors arise. Each checked attribute's error is present exactly when that attribute is Unknown. There are at most four errors. |
| Provider.MissingErrors | internal/provider/sys11dbaas_provider.go:183-221 | Only missing-value errors arise. Each checked setting's error is present exactly when that setting is empty. There are at most four errors. |
| Provider.FromEnvironment | internal/provider/sys11dbaas_provider.go:143-158 | An unset URL variable gives the public endpoint. An unset wait variable gives true. |
| Provider.ParseBool | internal/provider/sys11dbaas_provider.go:157 | The Go spellings of true and false parse. Any other string is an error. |
| Provider.ConfigOverridesEnvironment | internal/provider/sys11dbaas_provider.go:160-174 | A non-null configured string wins over the environment. |
| Provider.EnvironmentOverridesDefault | internal/provider/sys11dbaas_provider.go:145-147 | A set URL variable wins over the default, even when it is empty. |
| Provider.DefaultUrlNeverMissing | internal/provider/sys11dbaas_provider.go:145-147 | With neither configuration nor variable, the URL is the public endpoint and is never reported missing. |
| Provider.UnsetCredentialsMissing | internal/provider/sys11dbaas_provider.go:149-151 | An unset, unconfigured key, organization and project are each reported missing. |
| Provider.WaitFlagResolution | internal/provider/sys11dbaas_provider.go:153-158 | The wait flag is true when unset, the parsed value when it parses, and false when it does not. |
| Provider.UnknownWaitFlagUnchecked | internal/provider/sys11dbaas_provider.go:101-139 | The wait flag is never checked for an unknown value. |

## Left out

- The HTTP client and `sys11dbaassdk.NewClient` are not part of this model. The API answers come from an oracle, and the client constructor's error is a parameter of `Configure`.
- The process environment is a parameter of `Configure`. Sleeps (30 s while waiting, 2 s between update reads) are only loop steps. Logging and the JSON debug dumps are left out.
- The framework plumbing is left out: `req.Plan.Get`, `req.State.Get`, `resp.State.Set` and `RemoveResource`. The stored state is a field of the `Response` object, and the decoding of plan and state is assumed to succeed.
- Plan modifiers, descriptions and the Metadata, Schema, Resources, DataSources and New wiring carry no logic and are not modelled. Neither is the resources' own `Configure`, which only stores the provider data.
- Sdk.Render: the `%q` rendering escapes `"`, `\`, the named control escapes and the other ASCII control characters as `\x` with two hex digits. It keeps every other character as it is. Go's `\u` and `\U` escapes for non-printable non-ASCII characters, and for invalid UTF-8, are not modelled, because Dafny strings hold only valid characters and printability is a Unicode table.
- Recovery target times are opaque strings. RFC 3339 formatting is not modelled.
- Sdk.IntPtr: the int64 to platform int narrowing of `Int64ToIntPtr` is not modelled. Values are unbounded integers.
- The API response's pointer fields are plain values, so a nil dereference in the response converters is not modelled. A nil `allowed_cidrs` (a `*[]string`) would be stored as a null list; this affects version 2 only, because version 1 rebuilds `remote_ips` as a known list. The model always stores a known list.
- The diagnostics of the entity constructors and readers (`MissingValue`, `InvalidType`, `ExtraValue`, `AttributeMissing`, `AttributeWrongType`) carry the attribute name as their detail, not the full text the code formats around it. The provider's own diagnostics carry the code's exact texts.
- All diagnostics are errors. The core never adds a warning, so `HasError` is "the list is non-empty".
- Validators are modelled as they accept a value. Their error messages, and the order in which the host reports them, are not modelled.
- The handlers keep the code's quote-trimming password carry-over, not the corrected one.

## Findings

| source | as written | input that shows it | evidently intended | confidence | as-written member | corrected member |
|---|---|---|---|---|---|---|
| internal/provider/network_config_v2.go:675 | `SharedSubnetID` of the private network response is filled from `SharedSubnetCIDR` | `shared_subnet_cidr = "10.240.0.0/24"`, `shared_subnet_id = "subnet-1"`: the response's subnet id is `10.240.0.0/24` | the id is taken from `shared_subnet_id` | high, not executed | Sdk.SharedSubnetIdFromCidr | Sdk.PrivateResponseIntended |
| internal/provider/database_resource.go:507 | the carried-over password is `strings.Trim(attr.String(), "\"")`. `String()` renders the password with `%q`, so `"`, `\` and control characters come back escaped. The trim also cuts the quote of an escaped final `"` | password `ab"`: the state holds `ab\`. Password `ab\`: the state holds `ab\\`, and every later read doubles the backslashes again | the password string itself (`ValueString()`) | medium, not executed | Convert.PasswordEndingInQuoteLost | Convert.IntendedPasswordKept |
