# terraform-provider-openstack: configuration, validators and workflow resources

A Dafny model of the decision logic of the OpenStack Terraform provider:

- how a provider setting is resolved. The explicit value wins, then the
  first non-empty environment variable, then a default. This covers the
  plugin-framework helpers and the SDK provider's schema table.
- how `configureProvider` builds the client configuration, and returns the
  configuration it already holds instead.
- the `verify` package validators: YAML line-end normalisation and checks,
  and RFC 3339 date validation as Go's `time.Parse` performs it.
- the create, read and delete callbacks of the Mistral workflow resources
  (cron trigger, workflow, workbook).
- the two data sources that pick one object out of a listing (cron triggers,
  block storage snapshots).

Each resource and data source is a class. Its fields are the tracked state
(`id`, where "" means unset, and the attribute map), the objects the service
holds (`remote`) and, for resources, the create requests sent so far
(`sent`). Everything outside the provider is a parameter: the environment
(a map), the build information, the YAML parser (`isYAML`, `yamlError`), the
service's answers, client and transport failures, and `LoadAndValidate`.

`CheckDeleted` is called by every Read and Delete, but its source is not part
of this model. `Lifecycle.CheckDeleted` states the rule assumed for it: a
"not found" answer clears the id and is not an error. Any other failure keeps
the id and is reported as "<message> <id>: <cause>".

The date validator follows the code, and the code does not accept exactly
the `date-time` production of section 5.6 of RFC 3339. Go's `time.Parse`
with the RFC 3339 layout accepts a one-digit hour and a comma before the
fraction, and a zone offset with hour `24` or minute `60`. It rejects a
lower-case `t` or `z` and a leap second `60`.
`VerifyDate.DeparturesFromRFC3339` exhibits one string for each of these
differences. `VerifyDate.StrictDateTimeAccepted` proves that every other
RFC 3339 date-time is accepted, and `VerifyDate.AcceptedStrictIsRFC3339`
proves the converse: an accepted value that avoids the three accepted
departures is an RFC 3339 date-time.

## Model

| member | source | states |
|---|---|---|
| Environment.FirstNonEmptyIsFirstMatch | openstack/framework/provider/helpers.go:17-21 | the first variable in list order whose value is non-empty supplies the value; later variables are ignored |
| Environment.FirstNonEmptyNone | openstack/framework/provider/helpers.go:17-23 | no variable supplies a value exactly when every listed variable is empty or absent, including an empty list |
| FrameworkHelpers.GetStringValue | openstack/framework/provider/helpers.go:12-24 | a known config value is returned as it is; otherwise the first non-empty variable's value; otherwise the default |
| FrameworkHelpers.GetBoolValue | openstack/framework/provider/helpers.go:26-38 | a known value wins; otherwise the first non-empty variable decides alone (true iff "true" or "1", with no fallback); otherwise the default |
| FrameworkHelpers.GetIntValue | openstack/framework/provider/helpers.go:40-54 | a known value wins; otherwise the first variable whose value parses as an integer, skipping unparsable ones; otherwise the default |
| FrameworkHelpers.ParseDecimal | openstack/framework/provider/helpers.go:47 | `strconv.Atoi` succeeds only on non-empty text and only with a value in the int64 range |
| FrameworkHelpers.NatDigitsValue | openstack/framework/provider/helpers.go:47 | the decimal digits of a natural number read back as that number |
| FrameworkHelpers.ParseFormatRoundTrip | openstack/framework/provider/helpers.go:47 | parsing the decimal form of any int64 gives that int64 back |
| FrameworkHelpers.GetSDKVersion | openstack/framework/provider/helpers.go:56-69 | the version of the first plugin-framework dependency; the provider version when there is no build information or no such dependency |
| BuildInfo.FindDependencyVersion | openstack/framework/provider/helpers.go:57-68 | the loop over the dependencies returns what the first-match definition gives, or the fallback without build information |
| BuildInfo.DependencyVersionFirstMatch | openstack/framework/provider/helpers.go:62-66 | the first dependency with the path decides the version, whatever follows it |
| BuildInfo.DependencyVersionAbsent | openstack/framework/provider/helpers.go:68 | with no dependency of that path the fallback is returned |
| VerifyYAML.ReplaceWithoutCRLF | openstack/internal/verify/yaml.go:11-13 | text with no "\r\n" is left as it is |
| VerifyYAML.ReplaceRemovesOnlyCR | openstack/internal/verify/yaml.go:12 | only carriage returns are removed, one per "\r\n" match; every other character survives in order |
| VerifyYAML.CountCRLFBound | openstack/internal/verify/yaml.go:12 | there are never more matches than carriage returns |
| VerifyYAML.ReplaceConcat | openstack/internal/verify/yaml.go:12 | the rewrite distributes over concatenation unless a "\r\n" straddles the join |
| VerifyYAML.ReplaceNotIdempotent | openstack/internal/verify/yaml.go:12 | "\r\r\n" becomes "\r\n", which a second rewrite changes again: the rewrite is not idempotent |
| VerifyYAML.CheckYAMLString | openstack/internal/verify/yaml.go:29-41 | nil or "" gives ("", no error) without the parser; other text is returned unchanged, with an error iff the parser rejects it |
| VerifyYAML.NormalizeYAMLString | openstack/internal/verify/yaml.go:10-16 | the line-end rewrite of a string input is what gets checked; nil is checked as nil |
| VerifyYAML.NormalizedTextIgnoresParser | openstack/internal/verify/yaml.go:10-16 | the text returned is the rewrite of the input whether or not it parses |
| VerifyYAML.ValidStringIsYAML | openstack/internal/verify/yaml.go:18-24 | never a warning; exactly one error iff the check fails, and that error names key k and wraps the check's own error |
| VerifyDate.ValidateDate | openstack/internal/verify/validate.go:8-20 | never a warning; exactly one error, naming the value and the key, iff the value does not parse as an RFC 3339 time |
| VerifyDate.StrictDateTimeAccepted | openstack/internal/verify/validate.go:11 | every RFC 3339 date-time with an upper-case `T` and `Z` and a second of at most 59 is accepted |
| VerifyDate.AcceptedStrictIsRFC3339 | openstack/internal/verify/validate.go:11 | an accepted value with a two-digit hour, no comma before a fraction, and a `Z` or an offset of hour at most 23 and minute at most 59 is an RFC 3339 date-time |
| VerifyDate.AcceptedHasDateTimeAndZone | openstack/internal/verify/validate.go:11 | an accepted value has a full date, a `T`, and ends in `Z` or a numeric offset `±hh:mm` |
| VerifyDate.AcceptsTestValues | openstack/internal/verify/validate_test.go:8-18 | "2025-12-12T12:34:56Z" and "2025-12-12T12:34:56.123Z" give no error |
| VerifyDate.RejectsTestValues | openstack/internal/verify/validate_test.go:22-34 | "a", "1234", "0000-00-00" and "" give one error each |
| VerifyDate.DeparturesFromRFC3339 | openstack/internal/verify/validate.go:11 | a one-digit hour, a comma fraction and offsets `+24:00` and `+00:60` are accepted though not RFC 3339; a lower-case `t`, a lower-case `z` and a leap second are RFC 3339 but rejected |
| ProviderConfig.Resolve | openstack/provider.go:28-259 | an explicit setting wins; a fixed default applies when it is left out; a setting without a fallback stays unset |
| ProviderConfig.EnvironmentFallbackOrder | openstack/provider.go:80-83 | for a setting with environment fallbacks, the first variable in order that is set supplies the value |
| ProviderConfig.EnvironmentFallbackDefault | openstack/provider.go:174 | when none of the variables is set, the schema default applies, which may be none |
| ProviderConfig.ExplicitRegionBeatsEnvironment | openstack/provider.go:36-40 | an explicit `region` beats OS_REGION_NAME |
| ProviderConfig.DefaultDomainIsDefault | openstack/provider.go:160 | `default_domain` defaults to "default" |
| ProviderConfig.DelayedAuthDefaultsToTrue | openstack/provider.go:216 | `delayed_auth` defaults to true |
| ProviderConfig.AllowReauthDefaultsToTrue | openstack/provider.go:223 | `allow_reauth` defaults to true |
| ProviderConfig.MaxRetriesDefaultsToZero | openstack/provider.go:237 | `max_retries` defaults to 0 whatever the environment |
| ProviderConfig.InsecureHasNoDefault | openstack/provider.go:174 | `insecure` stays unset unless configured or given by OS_INSECURE |
| ProviderConfig.TenantIdEnvironmentOrder | openstack/provider.go:80-83 | `tenant_id` reads OS_TENANT_ID, then OS_PROJECT_ID |
| ProviderConfig.TokenEnvironmentOrder | openstack/provider.go:108-111 | `token` reads OS_TOKEN, then OS_AUTH_TOKEN |
| ProviderConfig.GetSDKVersion | openstack/provider.go:449-462 | the version of the first plugin-sdk/v2 dependency, else the provider version |
| ProviderConfig.BaseConfig | openstack/provider.go:491-529 | Octavia is always used; the versions, logger switch and `insecure` are the ones given |
| ProviderConfig.InsecureSetting | openstack/provider.go:531-535 | `insecure` is set iff the key was set to a boolean, and then holds that boolean |
| ProviderConfig.GetInsecure | openstack/provider.go:531-535 | the imperative check of `insecure` computes the setting above |
| ProviderConfig.DecideLogging | openstack/provider.go:477-485 | the nested conditions turn logging on exactly as the logger rule says |
| ProviderConfig.NewConfig | openstack/provider.go:470-535 | an empty Terraform version becomes "0.11+compatible"; logging is on iff `enable_logging`, or TF_LOG is DEBUG or TRACE while OS_DEBUG is empty; SDKVersion is the SDK version + " Terraform Provider OpenStack/" + the provider version; UseOctavia is true |
| ProviderConfig.Provider.ConfigureProvider | openstack/provider.go:464-542 | a held configuration is returned as it is; otherwise a `LoadAndValidate` failure gives no configuration and its error, and success gives the built configuration |
| ProviderConfig.ConfiguredProviderIsMemoised | openstack/provider.go:465-468 | a provider holding a configuration hands back exactly that configuration with no diagnostics |
| Lifecycle.CheckDeleted | openstack/resource_openstack_workflow_cron_trigger_v2.go:134-137 | assumed rule: "not found" clears the id without an error; any other failure keeps the id and reports "<msg> <id>: <cause>" |
| Lifecycle.Lookup | openstack/resource_openstack_workflow_cron_trigger_v2.go:134 | a transport failure is reported as such; otherwise the object if the service holds it, else "not found" |
| Lifecycle.VanishedObjectIsDropped | openstack/resource_openstack_workflow_cron_trigger_v2.go:134-137 | reading an object the service no longer holds clears the id and reports nothing |
| Lifecycle.DeleteIsIdempotent | openstack/resource_openstack_workflow_cron_trigger_v2.go:165-170 | a second delete after a successful one finds nothing and reports nothing |
| Selection.SelectMostRecent | openstack/data_source_openstack_blockstorage_snapshot_v3.go:89-109 | no result is an error; one result is taken whatever `most_recent` says; several are an error unless `most_recent`, which takes the chooser's pick |
| Selection.SelectedIsListed | openstack/data_source_openstack_blockstorage_snapshot_v3.go:97-100 | the selected object was listed, given a chooser that returns a member of the list |
| CronTriggerResource.CreateOptsOf | openstack/resource_openstack_workflow_cron_trigger_v2.go:93-101 | the create request carries the configured name, workflow id and name, input, params, pattern and remaining executions |
| CronTriggerResource.ReadInto | openstack/resource_openstack_workflow_cron_trigger_v2.go:141-153 | a read writes only its ten keys, keeps every other attribute, and sets the region |
| CronTriggerResource.ViewAfterRead | openstack/resource_openstack_workflow_cron_trigger_v2.go:141-153 | after a read the state describes exactly the trigger the service returned |
| CronTriggerResource.ReadIsIdempotent | openstack/resource_openstack_workflow_cron_trigger_v2.go:141-153 | reading the same trigger twice leaves the state as one read does |
| CronTriggerResource.CreateEcho | openstack/resource_openstack_workflow_cron_trigger_v2.go:115-122 | writing the configured values back does not change the create request they describe |
| CronTriggerResource.Resource.Read | openstack/resource_openstack_workflow_cron_trigger_v2.go:127-156 | a client failure or a transport failure is reported with the state untouched; a vanished trigger clears the id without error; otherwise the trigger is copied in |
| CronTriggerResource.Resource.Create | openstack/resource_openstack_workflow_cron_trigger_v2.go:86-125 | a client failure or a missing workflow id and name stops Create before any request; a failed create keeps the id; a created trigger is held by the service, becomes the id, and the result is that of the following Read |
| CronTriggerResource.Resource.Delete | openstack/resource_openstack_workflow_cron_trigger_v2.go:158-171 | failures are reported with the id kept; otherwise the trigger is gone from the service, and the id is cleared if it was already gone |
| CronTriggerResource.CreateAndRead | openstack/resource_openstack_workflow_cron_trigger_v2.go:114-124 | a trigger created and read back is the one the service holds and the one the state describes |
| CronTriggerResource.DeleteTwice | openstack/resource_openstack_workflow_cron_trigger_v2.go:165-170 | deleting an existing trigger twice succeeds both times; the second call clears the id |
| CronTriggerResource.ReadAfterOutOfBandDelete | openstack/resource_openstack_workflow_cron_trigger_v2.go:134-137 | a trigger deleted outside Terraform drops out of state on the next read, without an error |
| WorkflowResource.DefinitionState | openstack/resource_openstack_workflow_workflow_v2.go:54-57 | state keeps the line-end rewrite of the configured definition, never longer than it, whether or not it parses |
| WorkflowResource.RegisterDomain | openstack/resource_openstack_workflow_workflow_v2.go:111-116 | after a create the service holds every workflow of the returned list, besides what it held before |
| WorkflowResource.RegisterKeepsLast | openstack/resource_openstack_workflow_workflow_v2.go:116-118 | the last workflow of the list is the one held under its id |
| WorkflowResource.ReadInto | openstack/resource_openstack_workflow_workflow_v2.go:146-155 | a read writes only its nine keys, keeps every other attribute, and sets the region |
| WorkflowResource.ViewAfterRead | openstack/resource_openstack_workflow_workflow_v2.go:146-155 | after a read the state describes exactly the workflow the service returned |
| WorkflowResource.CreateEcho | openstack/resource_openstack_workflow_workflow_v2.go:118-127 | Create stores the normalised definition, the returned workflow's scope and the configured namespace |
| WorkflowResource.Resource.Read | openstack/resource_openstack_workflow_workflow_v2.go:132-158 | failures are reported with the state untouched; a vanished workflow clears the id without error; otherwise the workflow is copied in |
| WorkflowResource.Resource.Create | openstack/resource_openstack_workflow_workflow_v2.go:91-130 | a client failure or a definition the parser rejects stops Create before any request; the request carries the normalised definition; a failed create keeps the id; otherwise the last workflow becomes the id and the result is that of the following Read |
| WorkflowResource.Resource.Delete | openstack/resource_openstack_workflow_workflow_v2.go:160-173 | failures are reported with the id kept; otherwise the workflow is gone from the service, and the id is cleared if it was already gone |
| WorkflowResource.CreateTracksLastWorkflow | openstack/resource_openstack_workflow_workflow_v2.go:111-129 | a definition that creates several workflows leaves the resource tracking and describing the last one, with all of them held by the service |
| WorkbookResource.ReadInto | openstack/resource_workflow_workbook_v2.go:142-156 | a read writes only its eight keys, keeps every other attribute, and sets the region |
| WorkbookResource.ViewAfterRead | openstack/resource_workflow_workbook_v2.go:142-156 | after a read the state describes exactly the workbook the service returned |
| WorkbookResource.CreateEcho | openstack/resource_workflow_workbook_v2.go:105-120 | Create stores the region, the normalised definition, the returned workbook's scope and the configured namespace |
| WorkbookResource.Resource.Read | openstack/resource_workflow_workbook_v2.go:125-159 | failures are reported with the state untouched; a vanished workbook clears the id without error; otherwise the workbook is copied in |
| WorkbookResource.Resource.Create | openstack/resource_workflow_workbook_v2.go:82-123 | a client failure or a definition the parser rejects stops Create before any request; a failed create keeps the id; a created workbook is held by the service, becomes the id, and the result is that of the following Read |
| WorkbookResource.Resource.Delete | openstack/resource_workflow_workbook_v2.go:161-174 | failures are reported with the id kept; otherwise the workbook is gone from the service, and the id is cleared if it was already gone |
| WorkbookResource.ReadKeepsServiceDefinition | openstack/resource_workflow_workbook_v2.go:89-146 | the normalised definition is what is sent, but after the read the state holds the service's definition |
| CronTriggerDataSource.ListOptsFor | openstack/data_source_openstack_workflow_cron_trigger_v2.go:58-73 | the project id is always copied; an "eq" name filter is set iff the name is non-empty; the workflow id is set iff non-empty |
| CronTriggerDataSource.Describe | openstack/data_source_openstack_workflow_cron_trigger_v2.go:102-114 | region, name, project_id and created_at come from the trigger; every other attribute is kept |
| CronTriggerDataSource.DataSource.Read | openstack/data_source_openstack_workflow_cron_trigger_v2.go:51-100 | a client, listing or extraction failure is an error; zero or several results are errors; no state is written on any error; one result sets the id and its attributes |
| CronTriggerDataSource.DescribedTriggerMatchesFilters | openstack/data_source_openstack_workflow_cron_trigger_v2.go:58-97 | when the service honours the filters, the described trigger has every configured name, project and workflow id |
| SnapshotDataSource.ListOptsFor | openstack/data_source_openstack_blockstorage_snapshot_v3.go:73-77 | name, status and volume id are copied unchanged into the listing filters |
| SnapshotDataSource.Describe | openstack/data_source_openstack_blockstorage_snapshot_v3.go:111-128 | only the described keys are written, region last; every other attribute is kept |
| SnapshotDataSource.ViewAfterDescribe | openstack/data_source_openstack_blockstorage_snapshot_v3.go:117-128 | the described state gives back exactly the selected snapshot |
| SnapshotDataSource.DataSource.Read | openstack/data_source_openstack_blockstorage_snapshot_v3.go:65-115 | failures are errors before any selection; the selection rule decides between the two error messages and the snapshot described; no state is written on any error |
| SnapshotDataSource.DescribedSnapshotMatchesFilters | openstack/data_source_openstack_blockstorage_snapshot_v3.go:73-111 | when the service honours the filters and the chooser picks a listed snapshot, the described one has every configured name, status and volume id |

## Left out

- `LoadAndValidate`, client construction, authentication, re-authentication and retries happen in a library whose source is not part of this model. They are function parameters that succeed or fail.
- The per-key mutex (`mutexkv.NewMutexKV()`) is about concurrency and has no field in `Config`. `Config.AuthOpts` is reduced to its `systemScope` flag.
- gophercloud calls and paging: the service is a map of objects plus the answers given as parameters. The listing filters are modelled abstractly, with unset filters not constraining the result. A Read that follows Create is assumed to build its client as Create did.
- The YAML parser is the pair `isYAML`/`yamlError`. `time.Format` is not modelled: `created_at` is the service's text.
- WorkflowResource.ReadInto: stores the workflow's `created_at` as the service's text, as for the other two resources. The Go code formats nothing here: it hands the client library's `CreatedAt` field to `d.Set` and drops `d.Set`'s error. What is stored then depends on that field's type and on the SDK's conversion, neither of which is part of this model. The same holds for `WorkflowResource.CreateEcho`. Logging (`log.Printf`, `tflog.Debug`) is not modelled.
- `dataSourceBlockStorageV3MostRecentSnapshot` is not part of this model. It is the `mostRecent` parameter, assumed where needed to return a listed snapshot.
- The SDK's own work is not modelled: storing the configuration it is handed, converting environment text to a boolean or integer for typed settings, registration in `ResourcesMap`, and the declarative schema (ForceNew, ConflictsWith, the absence of Update, importers, and attaching `ValidStringIsYAML` or the StateFunc to `definition`). `ProviderConfig.Resolve` returns environment values as text.
- WorkflowResource.Resource.Create: requires a non-empty list from a successful create. Go indexes the last element without a check and would panic on an empty list.
- `map[string]any` attributes (workflow input and params, endpoint overrides, metadata) are modelled as maps to strings. Workflow and workbook tags are a set of strings.
- `int` is modelled as a 64-bit integer, as on the platforms the provider is built for. `strconv.Atoi` range errors are modelled; Go's integer wrap-around plays no part.
