# Install-chart tab store

This project is a Dafny model of `InstallChartTabStore`, a class in the Lens dashboard. It holds the per-tab state of the "install a Helm chart" dock tab. The store keeps three maps keyed by tab id:

- the tab's install data (`IChartInstallData`: chart name, repo and version, the chart's default `values` and a few release settings);
- the tab's versions entry: the versions the chart repository lists;
- a details map, which these operations never write.

It has three operations:

- `loadVersions` clears the tab's versions entry, asks the chart-details provider about the tab's chart, and stores the `version` field of every chart it returns, in order.
- `loadValues` asks the chart-values provider for the chart's default values. A truthy answer replaces `values` in the tab's install data. A falsy answer (`undefined` or `""`) is retried from attempt 0 up to attempt 4, so five calls in all. After that the store gives up silently.
- `loadData` requires the tab's install data to exist. It starts `loadValues` unless `values` is truthy, starts `loadVersions` unless a versions entry exists, and settles as `Promise.all` over the loads it started.

Files:

- `wrappers.dfy`: `Option`, for JavaScript's `T | undefined`.
- `dock_tab.dfy`: `DockTabStore<T>`, a class over `map<TabId, T>`. It has `GetData`, `SetData` (replace, never merge) and `ClearData` (remove the key). Its own source, `dock-tab.store.ts`, is not part of this model; the class is modelled from how `store.ts` uses it.
- `helm_charts_api.dfy`: the two providers, each a scripted stand-in for its network call. They answer their k-th call with `script(k)` and log every call with the chart it asked about, `ChartRef(repo, name, version)`. An answer can be a rejection of the promise.
- `install_chart_spec.dfy`: the install data record, and each load's effect written as a function of the state it starts from and the replies it gets (`VersionList`, `VersionsAfter`, `RetryValues`, `ValuesAfter`). It also holds the lemmas about them.
- `install_chart_store.dfy`: the class `InstallChartTabStore`. Its methods `LoadVersions`, `LoadValues` and `LoadData` work step by step on the stores and providers. Each is proved to leave exactly the state the specification functions describe.

Modelling choices:

- The recursion in `loadValues` on `attempt` is a `while` loop. The loop re-reads the tab's install data on every attempt, as the source does.
- `waitUntilDefined` is a precondition: the tab's install data exists.
- `Promise.all` runs the two loads one after the other: values first, then versions. Both skip checks are made before either load calls a provider or writes a store. The loads write disjoint stores, so the order changes no final state.
- `InstallChartTabStore` extends `DockTabStore<IChartInstallData>` in the source. Here it holds that store as the field `installs`. `Valid()` says the three stores are distinct objects.

Two further points about the code, which the model follows:

- `loadValues` writes `values` straight into the tab's install data; the details store is never written by these loads.
- Retries follow each other with no delay (store.ts:80-81).

## Model

| member | source | states |
|---|---|---|
| `DockTab.DockTabStore.GetData` | src/renderer/components/dock/install-chart/store.ts:52-56 | returns the tab's value exactly when the tab has one |
| `DockTab.DockTabStore.SetData` | src/renderer/components/dock/install-chart/store.ts:79 | replaces the tab's value; every other tab keeps its own |
| `DockTab.DockTabStore.ClearData` | src/renderer/components/dock/install-chart/store.ts:65 | removes the tab's key; every other tab keeps its own |
| `HelmChartsApi.DetailsProvider.GetDetails` | src/renderer/components/dock/install-chart/store.ts:66 | answers the next scripted reply and logs the (repo, name, version) asked about |
| `HelmChartsApi.ValuesProvider.GetValues` | src/renderer/components/dock/install-chart/store.ts:76 | answers the next scripted reply and logs the (repo, name, version) asked about |
| `InstallChartSpec.VersionList` | src/renderer/components/dock/install-chart/store.ts:67 | the stored list has one entry per returned chart, and entry i is chart i's `version` |
| `InstallChartSpec.VersionsAfter` | src/renderer/components/dock/install-chart/store.ts:65-69 | after a details reply the tab's entry is that reply's version list; after a rejection the entry is absent, not stale; other tabs are unchanged |
| `InstallChartSpec.RetryValues` | src/renderer/components/dock/install-chart/store.ts:73-83 | a run makes between 1 and its budget of provider calls, 5 from attempt 0; giving up uses the whole budget; a loaded value is never empty |
| `InstallChartSpec.RetryStopsAtFirstAnswer` | src/renderer/components/dock/install-chart/store.ts:76-81 | the run stops at the first truthy or rejected reply, after exactly that many calls, and that reply decides the outcome |
| `InstallChartSpec.RetryGivesUp` | src/renderer/components/dock/install-chart/store.ts:78-83 | when every reply in the budget is falsy, the run makes all its calls and gives up without error |
| `InstallChartSpec.RetryGaveUpIff` | src/renderer/components/dock/install-chart/store.ts:76-83 | a run gives up if and only if every reply in its budget is falsy |
| `InstallChartSpec.FiveCallsAfterFourEmptyReplies` | src/renderer/components/dock/install-chart/store.ts:80-81 | from attempt 0, four falsy replies mean exactly five provider calls, whatever the fifth reply is |
| `InstallChartSpec.ValuesAfter` | src/renderer/components/dock/install-chart/store.ts:78-79 | a loaded value replaces `values` only; name, repo, version, releaseName, namespace, description and lastVersion are kept; other outcomes change nothing; other tabs are unchanged |
| `InstallChartSpec.Truthy` | src/renderer/components/dock/install-chart/store.ts:78 | an optional string is truthy exactly when it is neither undefined nor the empty string |
| `InstallChartSpec.AllSettled` | src/renderer/components/dock/install-chart/store.ts:60 | the combined promise rejects exactly when one of the two rejects, with the first one's error when it rejected, and otherwise settles as the second |
| `InstallChartSpec.DetailsSettled` | src/renderer/components/dock/install-chart/store.ts:66 | `loadVersions` rejects exactly when the details reply is a rejection, with that error |
| `InstallChartSpec.ValuesSettled` | src/renderer/components/dock/install-chart/store.ts:76-83 | `loadValues` rejects exactly when a values reply rejected, with that error; loading and giving up both fulfil |
| `InstallChartSpec.NeedsVersions` | src/renderer/components/dock/install-chart/store.ts:56 | a versions load starts exactly when the tab has no versions entry; an existing empty list counts as present |
| `InstallChartSpec.NeedsValues` | src/renderer/components/dock/install-chart/store.ts:52 | a values load starts exactly when `values` is undefined or the empty string |
| `InstallChartSpec.LoadedTabNeedsNothing` | src/renderer/components/dock/install-chart/store.ts:52-58 | once values and versions have both loaded, neither skip condition asks for another load |
| `InstallChartStore.InstallChartTabStore.constructor` | src/renderer/components/dock/install-chart/store.ts:34-45 | keeps the given stores and providers, and the three stores are distinct |
| `InstallChartStore.InstallChartTabStore.LoadVersions` | src/renderer/components/dock/install-chart/store.ts:64-70 | the versions store ends as `VersionsAfter` of the reply; the provider is asked once, about the chart the given install data names; the settled result is the reply's; no other store changes |
| `InstallChartStore.InstallChartTabStore.LoadValues` | src/renderer/components/dock/install-chart/store.ts:73-83 | the install store ends as `ValuesAfter` of the `RetryValues` run; the provider is asked `run.calls` times about the tab's chart; a rejection propagates; no other store changes |
| `InstallChartStore.InstallChartTabStore.LoadData` | src/renderer/components/dock/install-chart/store.ts:48-61 | runs the values load exactly when `values` is falsy and the versions load exactly when no entry exists; a skipped load makes no provider call and changes nothing; settles as `Promise.all` over the loads it started |
| `InstallChartStore.LoadDataTwice` | src/renderer/components/dock/install-chart/store.ts:48-61 | after a `loadData` that loaded both values and versions, a second `loadData` makes no provider call, leaves the install data and versions as the first left them, and settles fulfilled |

## Left out

- MobX reactivity (`@action`, `makeObservable`) is left out: it changes no state the model tracks.
- Persistence behind each store (`storageKey: "install_charts"`) is left out: the storage layer is not part of this model.
- The polling in `waitUntilDefined` is left out. It is the precondition that the tab's install data exists.
- Real concurrency is left out: the loads run sequentially, and interleaving with other tasks (user edits, closing the tab between attempts) is not modelled.
- `InstallChartStore.InstallChartTabStore.LoadData`: when both loads reject, it reports the values load's error. The real `Promise.all` reports whichever rejection happens first in time.
- `InstallChartStore.InstallChartTabStore.LoadData`: when one load rejects, the real `Promise.all` (store.ts:60) settles at once while the other load keeps running. The contract's post-state is the state once both loads have finished, not the state at the moment the promise settles.
- `InstallChartStore.InstallChartTabStore.LoadVersions`: the versions entry is absent while the details request is in flight (store.ts:65-66). The model has no in-flight state, so only the rejection case shows the cleared entry.
- Network transport is left out: both providers are scripted replies indexed by call number.
- Exceptions thrown outside a provider's promise are left out, for example a reply without a `versions` array.
- The contents of `HelmReleaseUpdateDetails` are left out. The details store is kept as an untouched map, because these operations only expose it.
