/** Output selection of the current layout (internal/outputs/outputs.go). */
module Outputs {
  import opened Wrappers
  import opened Schema
  import Selection

  /** The constructor a name selects. */
  datatype Kind = CloudWatchOutput | FirehoseOutput | SplunkOutput | ElasticsearchOutput | StdoutOutput

  const NoneConfigured := "no valid outputs configured"

  /** The switch of `New`; "elasticsearch" and "opensearch" share one constructor. */
  function Recognise(name: string): (r: Option<Kind>)
    ensures r.Some? <==> name in ["cloudwatch", "firehose", "splunk", "elasticsearch", "opensearch", "stdout"]
    ensures name == "elasticsearch" || name == "opensearch" <==> r == Some(ElasticsearchOutput)
  {
    if name == "cloudwatch" then Some(CloudWatchOutput)
    else if name == "firehose" then Some(FirehoseOutput)
    else if name == "splunk" then Some(SplunkOutput)
    else if name == "elasticsearch" || name == "opensearch" then Some(ElasticsearchOutput)
    else if name == "stdout" then Some(StdoutOutput)
    else None
  }

  /** Which constructors succeed: the standard-output one cannot fail, the
      others' outcome is given. */
  function Builds(init: Kind -> bool): Kind -> bool {
    k => k == StdoutOutput || init(k)
  }

  /** `New`: the outputs built, in configuration order, or an error iff none was. */
  method New(config: string, init: Kind -> bool) returns (r: Result<seq<Kind>, string>, outcomes: seq<Selection.Outcome<Kind>>)
    ensures |outcomes| == |ListTokens(config)|
    ensures forall i :: 0 <= i < |outcomes| ==>
              outcomes[i] == Selection.Classify(Recognise, Builds(init), ListTokens(config)[i])
    ensures r.Failure? <==> Selection.Selected(Recognise, Builds(init), ListTokens(config)) == []
    ensures r.Failure? ==> r.error == NoneConfigured
    ensures r.Success? ==> r.value == Selection.Selected(Recognise, Builds(init), ListTokens(config))
  {
    r, outcomes := Selection.New(config, Recognise, Builds(init), NoneConfigured);
  }

  /** A token naming the standard output always yields an output, so a
      configuration that lists it never fails. */
  lemma StdoutSucceeds(init: Kind -> bool, names: seq<string>, i: nat)
    requires i < |names| && names[i] == "stdout"
    ensures StdoutOutput in Selection.Selected(Recognise, Builds(init), names)
  {
    Selection.SelectedMembers(Recognise, Builds(init), names, StdoutOutput);
    assert Selection.Classify(Recognise, Builds(init), names[i]) == Selection.Built(StdoutOutput);
  }
}
