/**
 * What the install-chart store's loads do, as functions of the state they
 * start from and of the providers' replies, and what is proved about them.
 */
module InstallChartSpec {
  import opened Wrappers
  import opened DockTab
  import opened HelmChartsApi

  /** `IChartInstallData`: the parameters of one tab's chart install. */
  datatype InstallData = InstallData(
    name: string,
    repo: string,
    version: string,
    values: Option<string>,
    releaseName: Option<string>,
    description: Option<string>,
    namespace: Option<string>,
    lastVersion: Option<bool>)

  /** The chart a tab's install data names, as the providers are asked about it. */
  function RefOf(d: InstallData): ChartRef
  {
    ChartRef(d.repo, d.name, d.version)
  }

  /** JavaScript truthiness of a `string | undefined`. */
  function Truthy(v: Option<string>): (r: bool)
    ensures r <==> v != None && v != Some("")
  {
    v.Some? && v.value != ""
  }

  /** How a promise of the store settles. */
  datatype Settled = Fulfilled | Rejected(error: string)

  /** `Promise.all` over two promises, the first of which settles first. */
  function AllSettled(first: Settled, second: Settled): (r: Settled)
    ensures r.Rejected? <==> first.Rejected? || second.Rejected?
    ensures first.Rejected? ==> r == first
    ensures !first.Rejected? ==> r == second
  {
    if first.Rejected? then first else second
  }

  // ---------------------------------------------------------------------
  // Versions

  /** `charts.versions.map(chartVersion => chartVersion.version)`. */
  function VersionList(charts: seq<HelmChart>): (r: seq<string>)
    ensures |r| == |charts|
    ensures forall i :: 0 <= i < |charts| ==> r[i] == charts[i].version
  {
    if charts == [] then [] else [charts[0].version] + VersionList(charts[1..])
  }

  /** The versions map after `loadVersions` got `reply` from the details provider. */
  function VersionsAfter(versions: map<TabId, seq<string>>, tabId: TabId, reply: DetailsReply)
    : (r: map<TabId, seq<string>>)
    ensures forall u :: u != tabId ==> (u in r <==> u in versions)
    ensures forall u :: u != tabId && u in r ==> r[u] == versions[u]
    ensures reply.Details? ==> tabId in r && r[tabId] == VersionList(reply.versions)
    ensures reply.DetailsRejected? ==> tabId !in r
  {
    var cleared := versions - {tabId};
    match reply
    case Details(charts, _) => cleared[tabId := VersionList(charts)]
    case DetailsRejected(_) => cleared
  }

  /** How `loadVersions` settles on `reply`: a rejection propagates. */
  function DetailsSettled(reply: DetailsReply): (r: Settled)
    ensures r.Rejected? <==> reply.DetailsRejected?
    ensures r.Rejected? ==> r.error == reply.error
  {
    match reply
    case Details(_, _) => Fulfilled
    case DetailsRejected(e) => Rejected(e)
  }

  /** `loadData` starts `loadVersions` exactly when the tab has no versions entry. */
  function NeedsVersions(versions: map<TabId, seq<string>>, tabId: TabId): (r: bool)
    ensures r <==> tabId !in versions
    ensures tabId in versions && versions[tabId] == [] ==> !r
  {
    tabId !in versions
  }

  // ---------------------------------------------------------------------
  // Values

  /** The last attempt number `loadValues` still retries from. */
  const LastRetriedAttempt: nat := 4

  /** How many provider calls `loadValues` makes at most when started at `attempt`. */
  function Budget(attempt: nat): nat
  {
    if attempt < LastRetriedAttempt then LastRetriedAttempt + 1 - attempt else 1
  }

  /** A reply that makes `loadValues` try again (or give up): resolved to a falsy value. */
  predicate IsEmptyReply(r: ValuesReply)
  {
    r.Resolved? && !Truthy(r.values)
  }

  /** How a run of `loadValues` ends. */
  datatype ValuesOutcome = Loaded(values: string) | GaveUp | LoadFailed(error: string)

  /** A run of `loadValues`: how many provider calls it made and how it ended. */
  datatype ValuesRun = ValuesRun(calls: nat, outcome: ValuesOutcome)

  /** The outcome a reply that is not empty decides. */
  function OutcomeOf(r: ValuesReply): ValuesOutcome
    requires !IsEmptyReply(r)
  {
    match r
    case Resolved(v) => Loaded(v.value)
    case ValuesRejected(e) => LoadFailed(e)
  }

  /**
   * The run of `loadValues(tabId, attempt)`, when the provider has already
   * been called `n` times and answers its k-th call with `script(k)`.
   */
  function RetryValues(script: nat -> ValuesReply, n: nat, attempt: nat): (r: ValuesRun)
    ensures 1 <= r.calls <= Budget(attempt)
    ensures r.outcome.GaveUp? ==> r.calls == Budget(attempt)
    ensures r.outcome.Loaded? ==> r.outcome.values != ""
    decreases LastRetriedAttempt - attempt
  {
    if !IsEmptyReply(script(n)) then
      ValuesRun(1, OutcomeOf(script(n)))
    else if attempt < LastRetriedAttempt then
      var rest := RetryValues(script, n + 1, attempt + 1);
      ValuesRun(rest.calls + 1, rest.outcome)
    else
      ValuesRun(1, GaveUp)
  }

  /** A run stops at the first reply that is not empty, and that reply decides it. */
  lemma {:induction false} RetryStopsAtFirstAnswer(script: nat -> ValuesReply, n: nat, attempt: nat, j: nat)
    requires j < Budget(attempt)
    requires forall k :: n <= k < n + j ==> IsEmptyReply(script(k))
    requires !IsEmptyReply(script(n + j))
    ensures RetryValues(script, n, attempt) == ValuesRun(j + 1, OutcomeOf(script(n + j)))
    decreases j
  {
    if j > 0 {
      assert IsEmptyReply(script(n));
      RetryStopsAtFirstAnswer(script, n + 1, attempt + 1, j - 1);
    }
  }

  /** A run whose every reply is empty makes its whole budget of calls and gives up. */
  lemma {:induction false} RetryGivesUp(script: nat -> ValuesReply, n: nat, attempt: nat)
    requires forall k :: n <= k < n + Budget(attempt) ==> IsEmptyReply(script(k))
    ensures RetryValues(script, n, attempt) == ValuesRun(Budget(attempt), GaveUp)
    decreases LastRetriedAttempt - attempt
  {
    assert IsEmptyReply(script(n));
    if attempt < LastRetriedAttempt {
      RetryGivesUp(script, n + 1, attempt + 1);
    }
  }

  /** A run gives up exactly when every reply in its budget is empty. */
  lemma RetryGaveUpIff(script: nat -> ValuesReply, n: nat, attempt: nat)
    ensures RetryValues(script, n, attempt).outcome.GaveUp?
        <==> forall k :: n <= k < n + Budget(attempt) ==> IsEmptyReply(script(k))
  {
    if forall k :: n <= k < n + Budget(attempt) ==> IsEmptyReply(script(k)) {
      RetryGivesUp(script, n, attempt);
    } else {
      var j := FirstAnswer(script, n, Budget(attempt));
      RetryStopsAtFirstAnswer(script, n, attempt, j);
    }
  }

  /** The offset of the first reply in `script(n..n+m)` that is not empty. */
  function FirstAnswer(script: nat -> ValuesReply, n: nat, m: nat): (j: nat)
    requires exists k :: n <= k < n + m && !IsEmptyReply(script(k))
    ensures j < m && !IsEmptyReply(script(n + j))
    ensures forall k :: n <= k < n + j ==> IsEmptyReply(script(k))
    decreases m
  {
    if !IsEmptyReply(script(n)) then 0
    else
      assert exists k :: n + 1 <= k < n + 1 + (m - 1) && !IsEmptyReply(script(k));
      1 + FirstAnswer(script, n + 1, m - 1)
  }

  /** From attempt 0, four empty replies mean exactly five provider calls. */
  lemma FiveCallsAfterFourEmptyReplies(script: nat -> ValuesReply, n: nat)
    requires forall k :: n <= k < n + 4 ==> IsEmptyReply(script(k))
    ensures RetryValues(script, n, 0).calls == 5
  {
    if IsEmptyReply(script(n + 4)) {
      RetryGivesUp(script, n, 0);
    } else {
      RetryStopsAtFirstAnswer(script, n, 0, 4);
    }
  }

  /** The install-data map after a run of `loadValues` for `tabId` ended with `outcome`. */
  function ValuesAfter(installs: map<TabId, InstallData>, tabId: TabId, outcome: ValuesOutcome)
    : (r: map<TabId, InstallData>)
    requires tabId in installs
    ensures r.Keys == installs.Keys
    ensures forall u :: u in installs && u != tabId ==> r[u] == installs[u]
    ensures outcome.Loaded? ==>
      var was, now := installs[tabId], r[tabId];
      && now.values == Some(outcome.values)
      && now.name == was.name && now.repo == was.repo && now.version == was.version
      && now.releaseName == was.releaseName && now.namespace == was.namespace
      && now.description == was.description && now.lastVersion == was.lastVersion
    ensures !outcome.Loaded? ==> r == installs
  {
    match outcome
    case Loaded(v) => installs[tabId := installs[tabId].(values := Some(v))]
    case _ => installs
  }

  /** How `loadValues` settles: a rejection propagates, giving up does not. */
  function ValuesSettled(outcome: ValuesOutcome): (r: Settled)
    ensures r.Rejected? <==> outcome.LoadFailed?
    ensures r.Rejected? ==> r.error == outcome.error
  {
    match outcome
    case LoadFailed(e) => Rejected(e)
    case _ => Fulfilled
  }

  /** `loadData` starts `loadValues` exactly when the tab's `values` is falsy. */
  function NeedsValues(installs: map<TabId, InstallData>, tabId: TabId): (r: bool)
    requires tabId in installs
    ensures r <==> installs[tabId].values in {None, Some("")}
  {
    !Truthy(installs[tabId].values)
  }

  /** After both loads succeed, a further `loadData` for the tab starts neither. */
  lemma LoadedTabNeedsNothing(
    installs: map<TabId, InstallData>, versions: map<TabId, seq<string>>, tabId: TabId,
    script: nat -> ValuesReply, n: nat, attempt: nat, reply: DetailsReply)
    requires tabId in installs
    requires RetryValues(script, n, attempt).outcome.Loaded?
    requires reply.Details?
    ensures !NeedsValues(ValuesAfter(installs, tabId, RetryValues(script, n, attempt).outcome), tabId)
    ensures !NeedsVersions(VersionsAfter(versions, tabId, reply), tabId)
  {
  }

  /** `k` copies of `x`: the provider log of a run that asked about one chart `k` times. */
  function Repeat<T>(x: T, k: nat): (r: seq<T>)
    ensures |r| == k
    ensures forall i :: 0 <= i < k ==> r[i] == x
  {
    if k == 0 then [] else Repeat(x, k - 1) + [x]
  }
}
