/**
 * The two chart providers the install-chart store depends on, each as a
 * scripted stand-in for the network call: the answer to the k-th call is
 * `script(k)`, and every call is logged with the chart it asked about.
 */
module HelmChartsApi {
  import opened Wrappers

  /** The chart a provider call asks about: (repo, name, version). */
  datatype ChartRef = ChartRef(repo: string, name: string, version: string)

  /** One chart version in a details reply; only `version` is read by the store. */
  datatype HelmChart = HelmChart(name: string, repo: string, version: string)

  /** What the details provider's promise settles to. */
  datatype DetailsReply =
    | Details(versions: seq<HelmChart>, readme: string)
    | DetailsRejected(error: string)

  /** What the values provider's promise settles to; `Resolved(None)` is `undefined`. */
  datatype ValuesReply =
    | Resolved(values: Option<string>)
    | ValuesRejected(error: string)

  /** The chart-details provider, `getHelmChartDetails(repo, name, { version })`. */
  class DetailsProvider {
    const script: nat -> DetailsReply
    var calls: seq<ChartRef>

    constructor (script: nat -> DetailsReply)
      ensures this.script == script && calls == []
    {
      this.script := script;
      calls := [];
    }

    method GetDetails(repo: string, name: string, version: string) returns (r: DetailsReply)
      modifies this
      ensures calls == old(calls) + [ChartRef(repo, name, version)]
      ensures r == script(|old(calls)|)
    {
      r := script(|calls|);
      calls := calls + [ChartRef(repo, name, version)];
    }
  }

  /** The chart-values provider, `getHelmChartValues(repo, name, version)`. */
  class ValuesProvider {
    const script: nat -> ValuesReply
    var calls: seq<ChartRef>

    constructor (script: nat -> ValuesReply)
      ensures this.script == script && calls == []
    {
      this.script := script;
      calls := [];
    }

    method GetValues(repo: string, name: string, version: string) returns (r: ValuesReply)
      modifies this
      ensures calls == old(calls) + [ChartRef(repo, name, version)]
      ensures r == script(|old(calls)|)
    {
      r := script(|calls|);
      calls := calls + [ChartRef(repo, name, version)];
    }
  }
}
