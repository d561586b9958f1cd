/** Target selection of the oldest layout (internal/targets/targets.go). */
module Targets {
  import opened Wrappers
  import opened Schema
  import Selection

  datatype Kind = CloudWatchTarget | StdoutTarget

  const NoneConfigured := "no valid targets configured"

  /** The switch of `New`: only the two names are known. */
  function Recognise(name: string): (r: Option<Kind>)
    ensures r.Some? <==> name in ["cloudwatch", "stdout"]
  {
    if name == "cloudwatch" then Some(CloudWatchTarget)
    else if name == "stdout" then Some(StdoutTarget)
    else None
  }

  function Builds(init: Kind -> bool): Kind -> bool {
    k => k == StdoutTarget || init(k)
  }

  /** `New`: the targets built, in configuration order, or an error iff none was. */
  method New(config: string, init: Kind -> bool) returns (r: Result<seq<Kind>, string>, outcomes: seq<Selection.Outcome<Kind>>)
    ensures |outcomes| == |ListTokens(config)|
    ensures forall i :: 0 <= i < |outcomes| ==>
              outcomes[i] == Selection.Classify(Recognise, Builds(init), ListTokens(config)[i])
    ensures r.Failure? <==> Selection.Selected(Recognise, Builds(init), ListTokens(config)) == []
    ensures r.Failure? ==> r.error == NoneConfigured
    ensures r.Success? ==> r.value == Selection.Selected(Recognise, Builds(init), ListTokens(config))
  {
    r, outcomes := Selection.New(config, Recognise, Builds(init), NoneConfigured);
  }

  /** Only the two known names can contribute a target: every target built
      comes from a "cloudwatch" or "stdout" token. */
  lemma TargetsFromKnownNames(init: Kind -> bool, names: seq<string>, k: Kind)
    requires k in Selection.Selected(Recognise, Builds(init), names)
    ensures exists i :: 0 <= i < |names| && names[i] in ["cloudwatch", "stdout"] && Recognise(names[i]) == Some(k)
  {
    Selection.SelectedMembers(Recognise, Builds(init), names, k);
    var i :| 0 <= i < |names| && Selection.Classify(Recognise, Builds(init), names[i]) == Selection.Built(k);
    Selection.ClassifyBuilt(Recognise, Builds(init), names[i]);
    assert Recognise(names[i]) == Some(k);
  }
}
