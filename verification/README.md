# Private-network discovery aggregator, modelled in Dafny

The helper finds applications and their running instances on a private
network. It uses a DNS naming convention:

| purpose | record | name |
|---|---|---|
| list all apps | TXT | `_apps.internal` |
| list an app's regions | TXT | `regions.<app>.internal` |
| instances of an app in one region | AAAA | `<region>.<app>.internal` |
| all instances of an app | AAAA | `global.<app>.internal` |

A TXT list is the first string of the first record. The empty string
means no entries. Any other value is split on `,` the way JavaScript's
`split(",")` does it. The `/apps` handler looks up the app list first.
If that lookup fails, the whole request fails. Otherwise the result list
starts with `allapps`, the full app list. Then, for each app in list
order, the handler looks up the app's regions and its global instances.
An app whose region lookup failed is skipped. Every other app gets an
entry with `appregions`, `appinstances` and `regioninstances`, which
holds one element per region in region order. A failed instance lookup
is not filtered out: the error goes into the output where the value
would have been.

The model has five modules:

- `TxtList` (txt_list.dfy): JavaScript's one-character `split` as
  `Split`, its inverse `Join`, and `ParseList`, which reads a TXT
  value.
- `Dns` (dns.dfy): the resolver, made a value with two pure functions,
  `txt` and `aaaa`. Lookups return `Result`, which is `Ok` or `Err`
  with the resolver's cause. This replaces the source's `{error: ...}`
  objects. `Dns` also holds `Query` (a record kind and a name) and
  agreement of two resolvers on a query.
- `Lookups` (lookups.dfy): the four names and the four helpers,
  `GetApps`, `GetAppRegions`, `GetRegionInstances` and
  `GetAllInstances`.
- `Discovery` (discovery.dfy): the aggregation loop of the handler.
  `Aggregate` returns a `Run`. A `Run` holds the outcome, which is the
  result list or the app-list error. It also holds the queries made,
  in the order they were made. The log lets the model state which
  lookups happen. That includes the global lookup of an app that is
  later skipped, which leaves no trace in the output.
- `Scenario` (scenario.dfy): a worked example with two apps. The first
  app runs in `us` and `eu`; the second has no region record.

## Model

| member | source | states |
|---|---|---|
| TxtList.Split | src/index.ts:23 | `split(",")` gives at least one piece, and no piece contains the separator. Joining the pieces with the separator gives back the input. |
| TxtList.SplitJoin | src/index.ts:23 | Splitting a join of separator-free pieces gives back exactly those pieces. This is the other half of the round trip. |
| TxtList.ParseList | src/index.ts:20-23 | A TXT value reads as the empty list exactly when it is empty. It never reads as `[""]`. No name contains a comma. Joining the names with `,` gives back the value. |
| TxtList.ParseJoin | src/index.ts:21-23 | Reading a `,`-join of comma-free names other than `[""]` gives back exactly those names. |
| TxtList.ParseJoinRoundTrip | src/index.ts:21-23 | Reading a joined list gives back the list if and only if it has no comma-containing name and is not `[""]`. |
| TxtList.ParseListInjective | src/index.ts:21-23 | Two TXT values read as the same list only if they are equal. |
| Lookups.ReadsAsUnique | src/index.ts:20-23 | The reading contract of a TXT answer admits exactly one result, so the helpers' contracts fix their results completely. |
| Lookups.ReadList | src/index.ts:15-23 | A failed TXT lookup gives its error unchanged. A successful one gives the list held in the first string of the first record. |
| Lookups.GetApps | src/index.ts:11-24 | The app list is the reading of the TXT answer at `_apps.internal`, with the error case included. |
| Lookups.GetAppRegions | src/index.ts:26-39 | An app's regions are the reading of the TXT answer at `regions.<app>.internal`, with the error case included. |
| Lookups.GetRegionInstances | src/index.ts:42-51 | The instances of an app in a region are the AAAA answer at `<region>.<app>.internal`, passed on unchanged, failures included. |
| Lookups.GetAllInstances | src/index.ts:53-62 | All instances of an app are the AAAA answer at `global.<app>.internal`, passed on unchanged, failures included. |
| Lookups.RegionNamedGlobalIsGlobalName | src/index.ts:45-56 | Within one app, a region's instance name equals the app's global-instance name if and only if the region is named `global`; then both lookups ask the same AAAA name and give the same answer. |
| Lookups.DottedNamesCollideAcrossApps | src/index.ts:45-56 | Names split only on `,`, so they may hold dots, and then names of different apps collide: region `global.a` of app `b` is app `a.b`'s global name, and region `x.y` of app `z` is region `x` of app `y.z`. |
| Lookups.LookupsAskTheirQuery | src/index.ts:11-62 | Each helper depends on the resolver only through its one query: TXT `_apps.internal`, TXT `regions.<app>.internal`, AAAA `<region>.<app>.internal` or AAAA `global.<app>.internal`. |
| Lookups.EmptyValueMeansNoEntries | src/index.ts:20-38 | An empty first string gives zero apps or zero regions, not one entry named `""`. |
| Lookups.OnlyFirstStringRead | src/index.ts:20 | Later strings and later records of a TXT answer are ignored. |
| Lookups.RegionsNameInjective | src/index.ts:29 | Different apps have different region-list names. |
| Lookups.GlobalNameInjective | src/index.ts:56 | Different apps have different global-instance names. |
| Lookups.RegionNameInjective | src/index.ts:45 | Within one app, different regions have different instance names. |
| Discovery.RegionEntries | src/index.ts:84-87 | `regioninstances` has one element per region, in region order. Element j is keyed by region j and holds that region's AAAA answer unchanged, failures included. |
| Discovery.RegionQueries | src/index.ts:84-85 | One AAAA query is made per region, in region order, at `<region>.<app>.internal`. |
| Discovery.Describe | src/index.ts:88-94 | The entry of an app whose regions resolved carries the app's region list, read from its TXT answer. It also carries the global AAAA answer unchanged, plus one element per region holding that region's answer unchanged. |
| Discovery.VisitApp | src/index.ts:76-94 | One turn of the app loop asks first for the app's region list and then for its global instances, whatever the outcome. It adds no entry exactly when the region lookup failed, and then asks nothing more. Otherwise it adds the app's one entry. |
| Discovery.Kept | src/index.ts:80-82 | The kept apps are exactly the apps of the list whose region lookup succeeded. |
| Discovery.Dropped | src/index.ts:80-82 | The dropped apps are exactly the apps of the list whose region lookup failed. |
| Discovery.KeptDroppedPartition | src/index.ts:75-82 | Every app is either kept or dropped, so the two counts add up to the list length. |
| Discovery.KeptPreservesOrder | src/index.ts:75-95 | Keeping distributes over concatenation, so kept apps stay in app-list order. |
| Discovery.VisitApps | src/index.ts:75-95 | The loop emits one entry per kept app, in order. Entry i describes kept app i. |
| Discovery.VisitAppsAsksEveryApp | src/index.ts:76-77 | The loop looks up the region list and the global instances of every app in the list. |
| Discovery.Aggregate | src/index.ts:64-95 | The outcome fails exactly when the app-list lookup fails. A failure carries that lookup's error, and then `_apps.internal` is the only query. The first query is always TXT `_apps.internal`. On success, the first entry is `allapps`, the reading of the app-list answer. |
| Discovery.EntriesFollowKeptApps | src/index.ts:73-94 | After `allapps`, the result has exactly one entry per app whose region lookup succeeded, in app-list order. |
| Discovery.EntryIffRegionsResolve | src/index.ts:80-82 | An app of the list has an entry if and only if its region lookup succeeded. |
| Discovery.EntryCount | src/index.ts:73-82 | The number of app entries is the number of apps minus the apps whose region lookup failed. If exactly one of N apps fails, there are N-1 entries, and `allapps` still lists all N. |
| Discovery.EveryAppLookedUp | src/index.ts:75-82 | Every app in the list, including a skipped one, has TXT `regions.<app>.internal` and AAAA `global.<app>.internal` in the query log. |
| Discovery.AppEntryContents | src/index.ts:84-94 | Every app entry names an app of the list whose regions resolved. Its regions come from that app's TXT answer, and its `appinstances` is the global AAAA answer unchanged. `regioninstances` has one element per region, in order, each with the region's AAAA answer unchanged. |
| Discovery.RunDeterminedByLoggedQueries | src/index.ts:66-87 | The query log is complete. Two resolvers that agree on every logged query give the same run. |
| Discovery.QueriesFollowConvention | src/index.ts:66-87 | Every logged query is one of two kinds. It is `_apps.internal`, or it is a query that some app of the list causes under the naming convention. |
| Scenario.ExampleRun | src/index.ts:64-95 | The example is `_apps.internal` = `app1,app2`, `regions.app1.internal` = `us,eu`, and a failing `regions.app2.internal`. The result is `allapps` followed by one `app1` entry, and `app2` gets no entry. The log is the seven queries in source order, including `global.app2.internal`. |
| Scenario.ExampleRunAllResolve | src/index.ts:84-94 | In the example, if `eu` resolves to `fdaa::2`, the `app1` entry is `us` → `fdaa::1`, `eu` → `fdaa::2`. |
| Scenario.RegionFailureStaysInline | src/index.ts:84-87 | In the example, if the `eu` lookup fails, the `eu` element carries that error, next to the resolved `us` element. |
| Scenario.AppListFailureIsFatal | src/index.ts:66-71 | In the example where every TXT lookup fails with `ENOTFOUND`, the run is that error and the single `_apps.internal` query. |

## Left out

- The Express application, the `/` and `GET /ping` HTML pages, route
  registration and `listen` (src/index.ts:102-119, 127-131) are web
  plumbing.
- The `POST /ping` handler (src/index.ts:121-125) only echoes the
  submitted address. No probe exists to model.
- The HTTP side of the handler is not modelled: the 400 status,
  `res.send` of the error, and `JSON.stringify` with indentation
  (src/index.ts:69, 97-99). The outcome is a datatype instead: `Err`
  for the 400 path and the list of entries for the JSON body.
- `console.log` of lookup errors (src/index.ts:16, 31, 47, 58) is a side
  effect with no bearing on the result.
- `async`/`await` is modelled as calls made one after another. The query
  log keeps the order of the source.
- Real DNS resolution is replaced by the resolver parameter. The
  resolver is a pure function, so asking the same name twice in one run
  gives the same answer. The real resolver may answer differently each
  time, for example in a different address order. In particular, a
  region named `global` has the instance name `global.<app>.internal`
  (see `Lookups.RegionNamedGlobalIsGlobalName`), so its element in
  `regioninstances` repeats the app's global answer. Dotted app or region
  names make names of different apps collide in the same way
  (`Lookups.DottedNamesCollideAcrossApps`); the model keeps the code's
  templates and does not reject such names.
- A Node DNS error is modelled as `DnsError(code)`. Its other fields are
  carried only as far as the code.
- The unchecked `records[0][0]` access (src/index.ts:20, 35) becomes a
  precondition: a successful TXT answer has a first record with a first
  string (`TxtShaped`). `Aggregate` and `VisitApps` ask this of every TXT
  name (`WellShaped`). The crash on an empty answer is not modelled.
- App and region lists are ordered sequences that may repeat names, as
  the code's arrays do. A malformed TXT answer (no record, or a first
  record with no string) is excluded by the precondition above; the code
  would crash on it rather than report a lookup failure.
