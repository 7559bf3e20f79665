# fedcloud monitoring tools, modelled in Dafny

This project models the core of the EGI FedCloud monitoring tools:

- **The VO test.** `VOTest` in `vo_mon.py` writes an Infrastructure Manager (IM) auth file and renders a TOSCA template for a site and a VO. It then creates a VM and polls its state at most `MAX_NUM_CHECKS` times. Finally it either gives up or runs one SSH command in the VM, and destroys the VM.
- **The GOCDB client.** `GOCDB` in `goc.py` reads SLA service groups and finds the SLA name of a group with the regular expression `EGI_(.*)_SLA`. It maps each VO to the sites supporting it, and each site to the SLAs it takes part in. Looking up the site of an endpoint is memoised.
- **The accounting queries.** `Accounting` in `accounting.py` answers queries over the table the accounting portal returns: the VOs of a site, all sites, all VOs, and the usage of every VO at every site.
- **The SLA check.** `check_site_slas` in `sla_monitor_cli.py` compares, for one site, the VOs its SLAs cover with the accounted VOs and the VOs AppDB says are configured.

The modules follow the source files:

- `Wrappers` (`wrappers.dfy`): the `Option` type
- `Text` (`text.dfy`): `str.replace`, `in` on strings, splitting text into lines
- `VoMonText` (`vo_mon_text.dfy`): the auth file and the TOSCA template of `vo_mon.py`
- `VoMon` (`vo_mon.dfy`): the `VOTest` life cycle
- `GocSlaName` (`goc_sla_name.dfy`): `re.search(SLA_GROUP_RE, name).group(1)`
- `Goc` (`goc.dfy`): the `GOCDB` class
- `Accounting` (`accounting.dfy`): the `Accounting` class
- `SlaMonitor` (`sla_monitor.dfy`): `check_site_slas`

Each stateful part is a `class` whose methods are proved against a specification function. The properties are lemmas about those functions:

- `VOTest.LaunchTestVm` is proved against `VoMon.Launch`.
- `GOCDB.GetSitesVo` is proved against `Goc.SitesVo`. `GOCDB.GetSitesSlas` is proved against `Goc.SitesSlasAsWritten`, the code as written. Its contract also ties it to the corrected `Goc.SitesSlas`.
- `Accounting.AccountingAllVos` is proved against `Accounting.AccountingAllVosOf`.
- `SlaMonitor.CheckSiteSlas` is proved against `SlaMonitor.CheckSiteSlasOf`, the code as written. `SlaMonitor.CheckSiteSlasCorrectedOf` is the corrected check beside it.

The outside world is a parameter:

- **IM, SSH, key parser and files.** A `World` object answers from fixed replies. Its file map stands for the file system, and it records every call it receives in a trace.
- **GOCDB.** The endpoint query is the function `remote` of the `GOCDB` object. The fetched service groups are a method argument.
- **Accounting portal.** The table a fetch returns is given to the `Accounting` constructor.
- **`check_site_slas` inputs.** The AppDB and accounting answers for the site are sets.

## Model

| member | source | states |
|---|---|---|
| VoMonText.AuthFileHasTwoLines | fedcloud_monitoring_tools/vo_mon.py:31-40 | When token, site and VO hold no newline, the auth file splits into exactly two lines. The first is the IM identity with the token. The second is the EGI identity with host, VO and token. |
| VoMonText.RenderShape | fedcloud_monitoring_tools/vo_mon.py:46-72 | For every site and VO, the rendered template is the fixed text with the site at "SITE" and the VO at "VO". Every "VO" inside the site is also rewritten to the VO, because the second `replace` runs over the whole text. |
| VoMonText.RenderedTemplateImage | fedcloud_monitoring_tools/vo_mon.py:65-72 | For a site without "VO", the rendered template contains the image reference `appdb://<site>/egi.ubuntu.24.04?<vo>`. |
| VoMonText.RenderedTemplateComplete | fedcloud_monitoring_tools/vo_mon.py:65-72 | When neither site nor VO contains "SITE" or "VO", no placeholder is left in the rendered template. |
| Text.ReplaceAbsent | fedcloud_monitoring_tools/vo_mon.py:72 | `str.replace` leaves a text without the pattern unchanged. |
| Text.ReplaceConcat | fedcloud_monitoring_tools/vo_mon.py:72 | `str.replace` works on each part separately when the second part starts with a character not in the pattern. |
| VoMon.PollFromBounds | fedcloud_monitoring_tools/vo_mon.py:86-94 | From any iteration on, the poll loop: <ul><li>stays within `MAX_NUM_CHECKS + 1` attempts</li><li>makes one state query per attempt</li><li>ends configured or out of attempts, on the last reported state</li><li>stops at the first "configured"</li></ul> |
| VoMon.PollStopsAtFirstConfigured | fedcloud_monitoring_tools/vo_mon.py:86-94 | A launch makes between 1 and `MAX_NUM_CHECKS` state queries and stops at the first "configured". When it ends unconfigured it has made all `MAX_NUM_CHECKS` queries and `attempts == MAX_NUM_CHECKS + 1`. |
| VoMon.DestroyLeavesAuthFileOnFailure | fedcloud_monitoring_tools/vo_mon.py:149-157 | `destroy_test_vm`: <ul><li>makes one destroy call</li><li>raises with the IM error exactly when the call fails</li><li>leaves the rewritten auth file exactly then</li><li>changes no other file</li></ul> |
| VoMon.LaunchCreateFails | fedcloud_monitoring_tools/vo_mon.py:76-83 | A failed `create` raises `VOTestException` with the returned id. It makes no query and no destroy, and leaves the auth file written. |
| VoMon.LaunchTimesOut | fedcloud_monitoring_tools/vo_mon.py:96-105 | When polling never sees "configured", the run: <ul><li>makes exactly 10 state queries</li><li>then one `contmsg` query and one destroy, last</li><li>returns `False`, unless the destroy raises</li></ul> |
| VoMon.LaunchCannotConnect | fedcloud_monitoring_tools/vo_mon.py:107-122 | When the outputs fail, a key is missing or the key does not parse, the run: <ul><li>raises that exception after one outputs query</li><li>makes no command and no destroy</li><li>leaves the auth file written</li></ul> |
| VoMon.ProbeWithoutAccess | fedcloud_monitoring_tools/vo_mon.py:107-122 | Without SSH access, the configured path is the 60 s wait and the outputs query, ending in the exception. |
| VoMon.LaunchRunsCommand | fedcloud_monitoring_tools/vo_mon.py:123-147 | Once the SSH block is entered: <ul><li>the command runs once, and a `contmsg` query follows exactly when the session raised</li><li>the VM is destroyed once, as the last call</li><li>the run returns `True`, unless the destroy raises</li></ul> |
| VoMon.LaunchDestroysAtMostOnce | fedcloud_monitoring_tools/vo_mon.py:74-147 | On every path: <ul><li>at most 10 state queries and at most one destroy</li><li>a destroy exactly on the time-out and SSH paths</li><li>`True` exactly when SSH is reached and the destroy succeeds</li><li>`False` exactly when polling times out and the destroy succeeds</li></ul> |
| VoMon.LaunchAuthFile | fedcloud_monitoring_tools/vo_mon.py:74-157 | The auth file is removed exactly when a destroy succeeded; otherwise it holds the credentials. No other file changes. |
| VoMon.VOTest.constructor | fedcloud_monitoring_tools/vo_mon.py:25-28 | Keeps the VO, the site and the token. |
| VoMon.VOTest.CreateAuthFile | fedcloud_monitoring_tools/vo_mon.py:31-40 | Writes the auth content to the path and changes nothing else. |
| VoMon.VOTest.DeleteAuthFile | fedcloud_monitoring_tools/vo_mon.py:42-44 | The file is absent afterwards; an absent file leaves everything unchanged. |
| VoMon.VOTest.DestroyTestVm | fedcloud_monitoring_tools/vo_mon.py:149-157 | Error, calls and files are those of `DestroyVm`, whose properties `DestroyLeavesAuthFileOnFailure` gives. |
| VoMon.VOTest.LaunchTestVm | fedcloud_monitoring_tools/vo_mon.py:74-147 | Outcome, trace, files and query count equal `Launch` of the rendered template, whose properties are the `Launch*` lemmas. |
| VoMon.VOTest.LaunchFrom | fedcloud_monitoring_tools/vo_mon.py:77-147 | The same as `LaunchTestVm`, for a template already rendered. |
| VoMon.VOTest.PollState | fedcloud_monitoring_tools/vo_mon.py:86-94 | The loop ends with the state, attempts and query count of `LaunchPoll`, after one sleep and one query per iteration. |
| VoMon.VOTest.GiveUpVm | fedcloud_monitoring_tools/vo_mon.py:96-105 | Asks for `contmsg`, destroys the VM, and returns `False` unless the destroy raises (`GiveUp`). |
| VoMon.VOTest.ProbeVm | fedcloud_monitoring_tools/vo_mon.py:107-147 | Outcome, calls and files equal `Probe`. |
| VoMon.VOTest.ReadAccess | fedcloud_monitoring_tools/vo_mon.py:107-122 | After the wait and the outputs query, it returns the access or the exception that `SshAccess` gives, trying the keys in source order. |
| VoMon.VOTest.RunAndDestroy | fedcloud_monitoring_tools/vo_mon.py:123-147 | Runs the command, asks for `contmsg` exactly when the session raised, and always destroys the VM. Returns `True` unless the destroy raises. |
| GocSlaName.SlaNameIsLeftmostGreedy | fedcloud_monitoring_tools/goc.py:46-49 | An SLA name exists exactly when `EGI_(.*)_SLA` matches somewhere. It is the text between the leftmost "EGI_" and the last "_SLA" reachable from it without a newline. |
| GocSlaName.FirstMatchIsFirst | fedcloud_monitoring_tools/goc.py:46 | The search returns the leftmost match start, with the greedy end. No start is missed. |
| GocSlaName.LastEndIsLast | fedcloud_monitoring_tools/goc.py:12 | The chosen "_SLA" is the last one up to the bound that completes a match, or there is none. |
| GocSlaName.NoPrefixNoSla | fedcloud_monitoring_tools/goc.py:46-48 | A group name without "EGI_" is skipped. |
| Goc.FlattenIgnoresEmpty | fedcloud_monitoring_tools/goc.py:35-37 | An SLA whose VO list is null or empty adds no VO. |
| Goc.FlattenOverAdd | fedcloud_monitoring_tools/goc.py:33-38 | Each SLA adds exactly its listed VOs to the union. |
| Goc.GOCDB.constructor | fedcloud_monitoring_tools/goc.py:16-19 | The cache and `sla_vos` start empty and no query has been made. |
| Goc.GOCDB.FlattenVoMap | fedcloud_monitoring_tools/goc.py:33-38 | Returns the union of all VO lists. |
| Goc.LookupEndpointSpec | fedcloud_monitoring_tools/goc.py:101-121 | A lookup: <ul><li>queries exactly when the key is not cached and the type is `org.openstack.nova`</li><li>keeps every cached entry, and caches only a non-empty answer under this key</li><li>answers from the cache when cached, and nothing for another type</li></ul> |
| Goc.LookupEndpointMemoises | fedcloud_monitoring_tools/goc.py:104-105 | Once an endpoint answered a non-empty service, asking again gives the same service with no query and no change. |
| Goc.GOCDB.GetEndpointSite | fedcloud_monitoring_tools/goc.py:101-121 | The answer, cache and query count equal `LookupEndpoint`. Only non-empty services stay cached (`Valid`). |
| Goc.EndpointList | fedcloud_monitoring_tools/goc.py:64-66 | The endpoints of a group as a list: a missing `SERVICE_ENDPOINT` gives `[]`, a lone endpoint record gives a one-element list holding it, and a list is kept as it is, in order. |
| Goc.ResolveSitesBounds | fedcloud_monitoring_tools/goc.py:68-72 | Resolving endpoints: <ul><li>keeps the earlier sites and cache entries</li><li>adds at most one site and one query per endpoint</li><li>keeps the cache valid</li></ul> |
| Goc.ResolveSitesConcat | fedcloud_monitoring_tools/goc.py:68-72 | Resolving `a + b` resolves `a`, then `b` from the state and names `a` left. A missing "SITENAME" in `a` stops before `b`. |
| Goc.ResolveSitesOne | fedcloud_monitoring_tools/goc.py:68-72 | One endpoint: <ul><li>adds its "SITENAME" when the lookup gives a non-empty service holding one</li><li>adds nothing when the service is missing or empty</li><li>raises when a non-empty service has no "SITENAME"</li></ul> |
| Goc.MarkMultipleSpec | fedcloud_monitoring_tools/goc.py:55-56 | Exactly the VOs of a multi-VO SLA map to `["sla-group-with-multiple-vos"]`; other entries stay. |
| Goc.SitesVoStepSpec | fedcloud_monitoring_tools/goc.py:45-72 | Per group: <ul><li>no match or a null VO list changes nothing</li><li>a VO list whose length is not 1 marks its VOs without a query</li><li>a single VO is reset to the sites of the group's endpoints</li></ul> |
| Goc.SitesVoKeys | fedcloud_monitoring_tools/goc.py:40-73 | Every VO in the result of `get_sites_vo` is in `sla_vos`. |
| Goc.GOCDB.GetSitesVo | fedcloud_monitoring_tools/goc.py:40-73 | `sla_vos` becomes the flattened map. The result, cache and query count are those of `SitesVo`, after one query for the groups. The cache stays valid. |
| Goc.GOCDB.SitesVoOfGroup | fedcloud_monitoring_tools/goc.py:46-72 | One loop iteration equals `SitesVoStep`. The cache stays valid. |
| Goc.InsertAllSpec | fedcloud_monitoring_tools/goc.py:89-98 | After inserting an SLA for the sites found: <ul><li>the table holds exactly the earlier and the found sites</li><li>each found site keeps its other SLAs and gains this one with its VO set</li><li>other sites are unchanged</li></ul> |
| Goc.InsertSlaAsWritten | fedcloud_monitoring_tools/goc.py:93-98 | The step as written keeps the store of objects well formed, and afterwards the store knows exactly the earlier sites and `site`. |
| Goc.InsertSlaAsWrittenAgrees | fedcloud_monitoring_tools/goc.py:93-98 | While no site is literally called "site", the as-written step builds the corrected table and shares no object. |
| Goc.MergeIntoOwnObject | fedcloud_monitoring_tools/goc.py:95-96 | Updating a known site's own object gives the corrected table and keeps objects unshared. |
| Goc.NewObjectForSite | fedcloud_monitoring_tools/goc.py:97-98 | A new site gets a fresh object holding only this SLA; the table is the corrected one. |
| Goc.AliasedSiteCounterexample | fedcloud_monitoring_tools/goc.py:93 | With a site named "site" holding SLA A, inserting SLA B for site X gives X both SLAs and adds B to "site". X should have B alone. |
| Goc.SitesSlasEntries | fedcloud_monitoring_tools/goc.py:75-99 | Every SLA entry of every site holds `set(vo_map.get(sla) or [])`, and earlier entries are kept. |
| Goc.InsertAllAsWritten | fedcloud_monitoring_tools/goc.py:89-98 | As written, for the sites found in order: afterwards the table knows exactly the earlier sites and the found ones. |
| Goc.SitesSlasStepAsWritten | fedcloud_monitoring_tools/goc.py:79-98 | One iteration as written, when it does not raise, keeps every site it was given. |
| Goc.SitesSlasAsWritten | fedcloud_monitoring_tools/goc.py:78-98 | The as-written loop, when it does not raise, keeps every site it was given. |
| Goc.InsertAllAsWrittenAgrees | fedcloud_monitoring_tools/goc.py:89-98 | While no site is called "site", inserting an SLA for the sites found, as written, gives the `InsertAll` table and shares no object. |
| Goc.SitesSlasAsWrittenResolves | fedcloud_monitoring_tools/goc.py:78-98 | The as-written and the corrected loops raise, query and cache alike, whatever their tables. |
| Goc.SitesSlasAsWrittenAgrees | fedcloud_monitoring_tools/goc.py:78-98 | The as-written loop builds the corrected table whenever no site found is called "site". |
| Goc.InsertSlaAsWrittenEntries | fedcloud_monitoring_tools/goc.py:93-98 | The as-written step writes or copies only entries that hold their SLA's VO set. |
| Goc.InsertAllAsWrittenEntries | fedcloud_monitoring_tools/goc.py:89-98 | The same for all the sites of one group. |
| Goc.SitesSlasAsWrittenEntries | fedcloud_monitoring_tools/goc.py:75-99 | Even as written, every SLA entry of every site holds `set(vo_map.get(sla) or [])`. The aliasing merges wrong SLAs into a site, never a wrong VO set. |
| Goc.GOCDB.GetSitesSlas | fedcloud_monitoring_tools/goc.py:75-99 | `sla_vos` becomes the flattened map. The result, cache and query count are those of `SitesSlasAsWritten`, after one query for the groups. It raises exactly when `SitesSlas` does, and gives its table when no site is called "site". The cache stays valid. |
| Goc.GOCDB.SitesSlasOfGroup | fedcloud_monitoring_tools/goc.py:81-98 | One loop iteration equals `SitesSlasStepAsWritten`. The cache stays valid. |
| Accounting.GetSpec | fedcloud_monitoring_tools/accounting.py:41 | `col[key]` finds the key exactly when an entry has it, and gives the first such entry's value. |
| Accounting.FindSpec | fedcloud_monitoring_tools/accounting.py:40-41 | The scan: <ul><li>stops at the first column with the id</li><li>finds none exactly when every column has another id</li><li>raises `KeyError` exactly when a column without "id" comes first</li></ul> |
| Accounting.SiteVosSpec | fedcloud_monitoring_tools/accounting.py:37-51 | The VOs of a site are the keys of its first column that have a non-zero number, excluding "Total" and "Percent". There are none when no column is the site. The query raises exactly when an id is missing first. |
| Accounting.ValuesExceptKeySpec | fedcloud_monitoring_tools/accounting.py:58 | A value is kept exactly when an entry with another key holds it. |
| Accounting.ValuesExceptKey | fedcloud_monitoring_tools/accounting.py:58 | The comprehension keeps at most one value per entry of the column. Which values, and in which order, `ValuesExceptKeySpec`, `ValuesExceptKeyConcat` and `ValuesExceptKeyOne` state. |
| Accounting.ValuesExceptKeyConcat | fedcloud_monitoring_tools/accounting.py:58 | The values of `a + b` are those of `a` followed by those of `b`. |
| Accounting.ValuesExceptKeyOne | fedcloud_monitoring_tools/accounting.py:58 | One entry gives its value once, or nothing when its key is "id". With the concat lemma this fixes the order and the repeats of the list. |
| Accounting.LegendValuesSpec | fedcloud_monitoring_tools/accounting.py:66 | A value is kept exactly when it is held and is neither "ylegend" nor "id". |
| Accounting.LegendValues | fedcloud_monitoring_tools/accounting.py:66 | The filter keeps at most one value per entry of the column. Which values, and in which order, `LegendValuesSpec`, `LegendValuesConcat` and `LegendValuesOne` state. |
| Accounting.LegendValuesConcat | fedcloud_monitoring_tools/accounting.py:66 | The legend values of `a + b` are those of `a` followed by those of `b`. |
| Accounting.LegendValuesOne | fedcloud_monitoring_tools/accounting.py:66 | One entry gives its value once, unless the value is "ylegend" or "id". |
| Accounting.AllSitesSpec | fedcloud_monitoring_tools/accounting.py:53-59 | The sites are the list `ValuesExceptKey` gives for the first "xlegend" column: its non-"id" values, in column order. The list is `[]` when there is no such column, and the call raises exactly when an id is missing first. |
| Accounting.AllVosSpec | fedcloud_monitoring_tools/accounting.py:61-66 | The VOs are the list `LegendValues` gives for the first "ylegend" column: its values other than "ylegend" and "id", in column order. The answer is `None` exactly when there is no such column. |
| Accounting.VoSitesSpec | fedcloud_monitoring_tools/accounting.py:72-84 | The inner loop raises exactly when some column fails. Otherwise it records exactly the site columns with positive usage for the VO, with that usage. |
| Accounting.ActiveVosSpec | fedcloud_monitoring_tools/accounting.py:70-87 | The outer loop keeps each VO with its site map exactly when the map is non-empty, and raises exactly when an inner loop raises. |
| Accounting.AccountingAllVosSpec | fedcloud_monitoring_tools/accounting.py:68-89 | The result: <ul><li>every VO is a legend VO with a non-empty map of site columns at their positive usage</li><li>every positive usage of a legend VO is present</li><li>without "ylegend", the call raises</li></ul> |
| Accounting.Accounting.constructor | fedcloud_monitoring_tools/accounting.py:18-20 | Starts with no data and 90 days. |
| Accounting.Accounting.Load | fedcloud_monitoring_tools/accounting.py:38-39 | Loads the fetched table only when no data is held. |
| Accounting.Accounting.SiteVos | fedcloud_monitoring_tools/accounting.py:37-51 | Loads if needed, then answers `SiteVosOf`. |
| Accounting.Accounting.AllSites | fedcloud_monitoring_tools/accounting.py:53-59 | Loads if needed, then answers `AllSitesOf`. |
| Accounting.Accounting.AllVos | fedcloud_monitoring_tools/accounting.py:61-66 | Loads if needed, then answers `AllVosOf`. |
| Accounting.Accounting.AccountingAllVos | fedcloud_monitoring_tools/accounting.py:68-89 | Answers `AccountingAllVosOf` of the loaded table, whose meaning `AccountingAllVosSpec` states. |
| Accounting.Accounting.UsageOf | fedcloud_monitoring_tools/accounting.py:72-84 | The inner loop for one VO equals `VoSites`. |
| SlaMonitor.SlaVosIsUnion | fedcloud_monitoring_tools/sla_monitor_cli.py:19-21 | The SLA VOs of a site are exactly the VOs some SLA of the site lists. |
| SlaMonitor.SlaMessagesLength | fedcloud_monitoring_tools/sla_monitor_cli.py:19-34 | Each SLA prints four lines. |
| SlaMonitor.SlaMessagesSpec | fedcloud_monitoring_tools/sla_monitor_cli.py:19-34 | For the i-th SLA, in order: <ul><li>its name</li><li>`[OK]` with the accounted VOs exactly when its VOs meet the accounting set, else `[ERR]`</li><li>`[OK]` with the configured VOs exactly when they meet AppDB, else `[ERR]`</li><li>a blank line</li></ul> |
| SlaMonitor.NotInAnySlaSpec | fedcloud_monitoring_tools/sla_monitor_cli.py:16-17 | A site in no SLA gets the "not present" line and no per-SLA line. |
| SlaMonitor.CoveredSpec | fedcloud_monitoring_tools/sla_monitor_cli.py:37-38 | The covered VOs are the site's SLA VOs, or `goc.sla_vos` when those are empty. |
| SlaMonitor.AdditionalSpec | fedcloud_monitoring_tools/sla_monitor_cli.py:39-53 | Accounted VOs outside the covered VOs and "ops" are reported exactly when some exist, and named. A missing "ops" is reported separately for accounting and AppDB. The last line is blank. |
| SlaMonitor.AppdbWarningAsWritten | fedcloud_monitoring_tools/sla_monitor_cli.py:46-50 | As written, the warning about configured VOs is printed exactly when the accounting set has uncovered VOs. When printed, it names the AppDB VOs outside the covered VOs and "ops", which may be none. |
| SlaMonitor.AppdbWarningCounterexample | fedcloud_monitoring_tools/sla_monitor_cli.py:47 | Two inputs where the as-written guard goes wrong: <ul><li>an uncovered AppDB VO goes unreported</li><li>an empty set is reported</li></ul> |
| SlaMonitor.AppdbWarningCorrected | fedcloud_monitoring_tools/sla_monitor_cli.py:46-50 | With the guard on the AppDB set, the warning is printed exactly when AppDB has uncovered VOs, and names them. |
| SlaMonitor.CorrectedAgreesElsewhere | fedcloud_monitoring_tools/sla_monitor_cli.py:39-53 | Where the two guards agree, the as-written and corrected checks print the same lines. |
| SlaMonitor.SlaMessagesNoConfiguredWarning | fedcloud_monitoring_tools/sla_monitor_cli.py:19-34 | The per-SLA lines never include the warning about configured VOs. |
| SlaMonitor.CheckSiteSlasCorrectedSpec | fedcloud_monitoring_tools/sla_monitor_cli.py:12-53 | The corrected check warns about configured VOs exactly when AppDB has uncovered VOs, and names them. Where the accounting and AppDB sets agree on having such VOs, it prints what the code as written prints. |
| SlaMonitor.CheckSiteSlas | fedcloud_monitoring_tools/sla_monitor_cli.py:12-53 | Prints the lines of `CheckSiteSlasOf`, the check as written. |
| SlaMonitor.ReportSlas | fedcloud_monitoring_tools/sla_monitor_cli.py:19-34 | The loop prints `SlaMessages` and collects the union of the SLA VOs. |
| SlaMonitor.ReportSla | fedcloud_monitoring_tools/sla_monitor_cli.py:20-34 | Prints the four lines of one SLA. |
| SlaMonitor.ReportAdditional | fedcloud_monitoring_tools/sla_monitor_cli.py:39-53 | Prints the additional-VO checks as written (`AdditionalAsWritten`). |

## Left out

- **The network and parsing fetches are parameters.** This covers the HTTP, XML and JSON behind `get_sla_groups`, the `get_service` query of `get_endpoint_site` and `_get_accounting_data` (with its dates computed from today). The fetched groups, service records and accounting table are given.
- **`exit()` is not modelled.** `get_sla_groups` calls it on malformed XML.
- **The IM client, paramiko and fabric are a world of fixed replies.** The state reply depends on the query number. The `contmsg` answer is only shown, so its value is not modelled.
- **`time.sleep` becomes a `Sleep` entry in the trace.** `datetime.now` in the `VOTest` constructor is not modelled, because nothing reads it.
- **click output becomes `Message` values.** `launch_test_vm` and `destroy_test_vm` print lines that are not modelled; their effect is in the trace and the outcome.
- **Fabric raising on a non-zero exit is not modelled.** `Connection.run` without `warn=True` raises there, but the model keeps the source's three branches: success, failure and exception.
- **The shared auth file is a map of files.** Concurrent VO tests writing `auth.dat` at the same time are not modelled.
- **A missing `NAME` or `@PRIMARY_KEY` entry is not modelled.** In `goc.py` such a record would raise `KeyError`; the model's records always have these fields. A service without `SITENAME` is modelled: it raises.
- **Accounting `float()` on a string is a parameter `parse`.** Python's float syntax is not modelled.
- **Accounting keys are not merged by value.** Python counts `1`, `1.0` and `True` as the same dict key. In the model, `1` and `1.0` are both `Num(1.0)`, so they are one key, but `True` is `Bool(true)` and stays apart from them.
- **A column with a repeated key is read differently.** Python's `json` keeps the last value of a repeated key. `Get` gives the first, and `ValuesExceptKey` and `LegendValues` keep every copy. The model's columns are meant to hold each key once, as the portal's do.
- **`check_site_slas` receives the accounting and AppDB answers as sets.** An exception from `acct.site_vos` or `appdb.get_vo_for_site` is therefore not modelled.
- **The SLAs of a site are a list in table order.** This stands for the order of the Python dictionary.
- **Not modelled:** the `main` functions of the CLIs, `vo_test_cli.py`, `appdb.py`, `fedcloud_is.py`, `operations_portal.py` and `fedcloud_vm_monitoring/cli.py`.
- **`Goc.InsertSlaAsWritten` is a store of objects, not Python dictionaries.** Its own contract states that the store stays well formed and which sites it knows afterwards. The rest of its behaviour is stated by `InsertSlaAsWrittenAgrees`, `InsertSlaAsWrittenEntries` and `AliasedSiteCounterexample`.

## Findings

| source | as written | input that shows it | evidently intended | confidence | as-written member | corrected member |
|---|---|---|---|---|---|---|
| fedcloud_monitoring_tools/goc.py:93 | `sites.get("site", dict())` looks up the literal key "site". The dictionary found there is shared with the site called "site". | One group gives site "site" SLA A, then a group gives site X SLA B. X gets `{A, B}` and "site" gains B. | `sites.get(site, dict())`: X gets `{B}` only, and "site" keeps `{A}`. | not executed | Goc.InsertSlaAsWritten, Goc.AliasedSiteCounterexample, Goc.GOCDB.GetSitesSlas | Goc.SitesSlas, Goc.InsertAllSpec, Goc.SitesSlasAsWrittenAgrees |
| fedcloud_monitoring_tools/sla_monitor_cli.py:47 | The warning about configured VOs outside the SLAs is guarded by `non_sla_vos` (accounting). | Covered `{y}`, accounted `{y, ops}`, AppDB `{x, y, ops}`: VO x goes unreported. With accounted `{x, y, ops}` and AppDB `{y, ops}`, an empty set is reported. | Guard on `non_sla_appdb_vos`. | not executed | SlaMonitor.CheckSiteSlas, SlaMonitor.AppdbWarningCounterexample | SlaMonitor.CheckSiteSlasCorrectedOf, SlaMonitor.CheckSiteSlasCorrectedSpec |

`GetSitesSlas` and `CheckSiteSlas` follow the code as written. The corrected definitions sit beside them. `SitesSlasAsWrittenAgrees` and `CheckSiteSlasCorrectedSpec` state where the two agree.
