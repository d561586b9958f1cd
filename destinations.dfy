/** Destination selection of the middle layout
    (internal/destinations/destinations.go). */
module Destinations {
  import opened Wrappers
  import opened Schema
  import Selection

  datatype Kind = CloudWatchDestination | SplunkDestination | OpenSearchDestination | StdoutDestination

  const NoneConfigured := "no valid destinations configured"

  /** The switch of `New`: firehose and elasticsearch are not known here. */
  function Recognise(name: string): (r: Option<Kind>)
    ensures r.Some? <==> name in ["cloudwatch", "splunk", "opensearch", "stdout"]
  {
    if name == "cloudwatch" then Some(CloudWatchDestination)
    else if name == "splunk" then Some(SplunkDestination)
    else if name == "opensearch" then Some(OpenSearchDestination)
    else if name == "stdout" then Some(StdoutDestination)
    else None
  }

  function Builds(init: Kind -> bool): Kind -> bool {
    k => k == StdoutDestination || init(k)
  }

  /** `New`: the destinations built, in configuration order, or an error iff
      none was. */
  method New(config: string, init: Kind -> bool) returns (r: Result<seq<Kind>, string>, outcomes: seq<Selection.Outcome<Kind>>)
    ensures |outcomes| == |ListTokens(config)|
    ensures forall i :: 0 <= i < |outcomes| ==>
              outcomes[i] == Selection.Classify(Recognise, Builds(init), ListTokens(config)[i])
    ensures r.Failure? <==> Selection.Selected(Recognise, Builds(init), ListTokens(config)) == []
    ensures r.Failure? ==> r.error == NoneConfigured
    ensures r.Success? ==> r.value == Selection.Selected(Recognise, Builds(init), ListTokens(config))
  {
    r, outcomes := Selection.New(config, Recognise, Builds(init), NoneConfigured);
  }

  /** Names this layout does not know, such as "firehose" and "elasticsearch",
      select nothing, whatever the constructors would do. */
  lemma {:induction false} UnknownSelectNothing(init: Kind -> bool, names: seq<string>)
    requires forall i :: 0 <= i < |names| ==> names[i] !in ["cloudwatch", "splunk", "opensearch", "stdout"]
    ensures Selection.Selected(Recognise, Builds(init), names) == []
  {
    if names != [] {
      UnknownSelectNothing(init, names[..|names| - 1]);
    }
  }
}
