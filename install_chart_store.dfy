/**
 * `InstallChartTabStore`: the tab store of chart installs, with the three
 * loads that fill a tab's versions entry and its default values.
 */
module InstallChartStore {
  import opened Wrappers
  import opened DockTab
  import opened HelmChartsApi
  import opened InstallChartSpec

  /** The stored `HelmReleaseUpdateDetails`; these loads never look inside it. */
  datatype ReleaseUpdateDetails = ReleaseUpdateDetails(fields: map<string, string>)

  class InstallChartTabStore {
    /** The install data of each tab (the store this class extends). */
    const installs: DockTabStore<InstallData>
    /** `versions`: the versions entry of each tab. */
    const versions: DockTabStore<seq<string>>
    /** `details`: exposed, never written by the loads. */
    const details: DockTabStore<ReleaseUpdateDetails>
    const getHelmChartDetails: DetailsProvider
    const getHelmChartValues: ValuesProvider

    /** The three keyed stores are separate objects. */
    ghost predicate Valid()
    {
      && installs as object != versions as object
      && installs as object != details as object
      && versions as object != details as object
    }

    constructor (
      installs: DockTabStore<InstallData>,
      versions: DockTabStore<seq<string>>,
      details: DockTabStore<ReleaseUpdateDetails>,
      getHelmChartDetails: DetailsProvider,
      getHelmChartValues: ValuesProvider)
      requires installs as object != versions as object
      requires installs as object != details as object
      requires versions as object != details as object
      ensures Valid()
      ensures this.installs == installs && this.versions == versions && this.details == details
      ensures this.getHelmChartDetails == getHelmChartDetails
      ensures this.getHelmChartValues == getHelmChartValues
    {
      this.installs := installs;
      this.versions := versions;
      this.details := details;
      this.getHelmChartDetails := getHelmChartDetails;
      this.getHelmChartValues := getHelmChartValues;
    }

    /**
     * `loadVersions`: clears the tab's versions entry, asks the details
     * provider about the chart `d` names, and stores the versions it lists.
     * A rejection propagates and leaves the entry absent.
     */
    method LoadVersions(tabId: TabId, d: InstallData) returns (s: Settled)
      requires Valid()
      modifies versions, getHelmChartDetails
      ensures var reply := getHelmChartDetails.script(|old(getHelmChartDetails.calls)|);
        && versions.data == VersionsAfter(old(versions.data), tabId, reply)
        && s == DetailsSettled(reply)
      ensures getHelmChartDetails.calls == old(getHelmChartDetails.calls) + [RefOf(d)]
      ensures installs.data == old(installs.data) && details.data == old(details.data)
      ensures getHelmChartValues.calls == old(getHelmChartValues.calls)
    {
      versions.ClearData(tabId);
      var charts := getHelmChartDetails.GetDetails(d.repo, d.name, d.version);
      match charts
      case Details(list, _) =>
        versions.SetData(tabId, VersionList(list));
        s := Fulfilled;
      case DetailsRejected(e) =>
        s := Rejected(e);
    }

    /**
     * `loadValues(tabId, attempt)`: asks the values provider about the tab's
     * chart until it answers with a truthy value, which replaces `values`
     * in the tab's install data, or until attempt 4 has been tried.
     */
    method LoadValues(tabId: TabId, attempt: nat) returns (s: Settled)
      requires Valid() && tabId in installs.data
      modifies installs, getHelmChartValues
      ensures var run := RetryValues(getHelmChartValues.script, |old(getHelmChartValues.calls)|, attempt);
        && installs.data == ValuesAfter(old(installs.data), tabId, run.outcome)
        && getHelmChartValues.calls
             == old(getHelmChartValues.calls) + Repeat(RefOf(old(installs.data)[tabId]), run.calls)
        && s == ValuesSettled(run.outcome)
      ensures versions.data == old(versions.data) && details.data == old(details.data)
      ensures getHelmChartDetails.calls == old(getHelmChartDetails.calls)
    {
      ghost var n0 := |getHelmChartValues.calls|;
      ghost var run := RetryValues(getHelmChartValues.script, n0, attempt);
      ghost var chart := RefOf(installs.data[tabId]);
      var a := attempt;
      while true
        invariant attempt <= a
        invariant a == attempt || a <= LastRetriedAttempt
        invariant installs.data == old(installs.data)
        invariant getHelmChartValues.calls == old(getHelmChartValues.calls) + Repeat(chart, a - attempt)
        invariant var rest := RetryValues(getHelmChartValues.script, n0 + (a - attempt), a);
          run == ValuesRun(rest.calls + (a - attempt), rest.outcome)
        decreases LastRetriedAttempt - a
      {
        var d := installs.GetData(tabId).value;
        var reply := getHelmChartValues.GetValues(d.repo, d.name, d.version);
        match reply
        case ValuesRejected(e) =>
          return Rejected(e);
        case Resolved(values) =>
          if Truthy(values) {
            installs.SetData(tabId, d.(values := values));
            return Fulfilled;
          } else if a < LastRetriedAttempt {
            a := a + 1;
          } else {
            return Fulfilled;
          }
      }
    }

    /**
     * `loadData`: for a tab whose install data exists, starts `loadValues`
     * unless `values` is truthy and `loadVersions` unless a versions entry
     * exists, and settles as `Promise.all` over the loads it started.
     */
    method LoadData(tabId: TabId) returns (s: Settled)
      requires Valid() && tabId in installs.data
      modifies installs, versions, getHelmChartValues, getHelmChartDetails
      ensures details.data == old(details.data)
      ensures var run := RetryValues(getHelmChartValues.script, |old(getHelmChartValues.calls)|, 0);
        var chart := RefOf(old(installs.data)[tabId]);
        if NeedsValues(old(installs.data), tabId) then
          && installs.data == ValuesAfter(old(installs.data), tabId, run.outcome)
          && getHelmChartValues.calls == old(getHelmChartValues.calls) + Repeat(chart, run.calls)
        else
          && installs.data == old(installs.data)
          && getHelmChartValues.calls == old(getHelmChartValues.calls)
      ensures var reply := getHelmChartDetails.script(|old(getHelmChartDetails.calls)|);
        var chart := RefOf(old(installs.data)[tabId]);
        if NeedsVersions(old(versions.data), tabId) then
          && versions.data == VersionsAfter(old(versions.data), tabId, reply)
          && getHelmChartDetails.calls == old(getHelmChartDetails.calls) + [chart]
        else
          && versions.data == old(versions.data)
          && getHelmChartDetails.calls == old(getHelmChartDetails.calls)
      ensures var run := RetryValues(getHelmChartValues.script, |old(getHelmChartValues.calls)|, 0);
        var reply := getHelmChartDetails.script(|old(getHelmChartDetails.calls)|);
        s == AllSettled(
          if NeedsValues(old(installs.data), tabId) then ValuesSettled(run.outcome) else Fulfilled,
          if NeedsVersions(old(versions.data), tabId) then DetailsSettled(reply) else Fulfilled)
    {
      var data := installs.GetData(tabId).value;
      var startValues := !Truthy(data.values);
      var startVersions := versions.GetData(tabId).None?;
      var valuesSettled, versionsSettled := Fulfilled, Fulfilled;
      if startValues {
        valuesSettled := LoadValues(tabId, 0);
      }
      if startVersions {
        versionsSettled := LoadVersions(tabId, data);
      }
      s := AllSettled(valuesSettled, versionsSettled);
    }
  }

  /**
   * A second `loadData` for a tab whose first one loaded both its values
   * and its versions calls neither provider, leaves the install data and
   * the versions as the first one left them, and settles fulfilled.
   */
  method LoadDataTwice(store: InstallChartTabStore, tabId: TabId) returns (first: Settled, second: Settled)
    requires store.Valid() && tabId in store.installs.data
    modifies store.installs, store.versions, store.getHelmChartValues, store.getHelmChartDetails
    ensures var run := RetryValues(store.getHelmChartValues.script, |old(store.getHelmChartValues.calls)|, 0);
      var reply := store.getHelmChartDetails.script(|old(store.getHelmChartDetails.calls)|);
      && NeedsValues(old(store.installs.data), tabId) && run.outcome.Loaded?
      && NeedsVersions(old(store.versions.data), tabId) && reply.Details?
      ==> && |store.getHelmChartValues.calls| == |old(store.getHelmChartValues.calls)| + run.calls
          && |store.getHelmChartDetails.calls| == |old(store.getHelmChartDetails.calls)| + 1
          && store.installs.data == ValuesAfter(old(store.installs.data), tabId, run.outcome)
          && store.versions.data == VersionsAfter(old(store.versions.data), tabId, reply)
          && second == Fulfilled
  {
    first := store.LoadData(tabId);
    ghost var installsMid, versionsMid := store.installs.data, store.versions.data;
    ghost var valuesMid, detailsMid := store.getHelmChartValues.calls, store.getHelmChartDetails.calls;
    second := store.LoadData(tabId);
    ghost var run := RetryValues(store.getHelmChartValues.script, |old(store.getHelmChartValues.calls)|, 0);
    ghost var reply := store.getHelmChartDetails.script(|old(store.getHelmChartDetails.calls)|);
    if && NeedsValues(old(store.installs.data), tabId) && run.outcome.Loaded?
       && NeedsVersions(old(store.versions.data), tabId) && reply.Details?
    {
      LoadedTabNeedsNothing(old(store.installs.data), old(store.versions.data), tabId,
        store.getHelmChartValues.script, |old(store.getHelmChartValues.calls)|, 0, reply);
      assert !NeedsValues(installsMid, tabId) && !NeedsVersions(versionsMid, tabId);
      assert store.getHelmChartValues.calls == valuesMid;
      assert store.getHelmChartDetails.calls == detailsMid;
      assert store.installs.data == installsMid && store.versions.data == versionsMid;
    }
  }
}
