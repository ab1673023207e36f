/**
 `checkLLMPipeline`: make sure the node runs a pipeline named `llm-example`
 holding a plugin instance named `llm-example-instance`. The host's pipeline
 list, whether the instance exists and whether a deployment succeeds are
 inputs; the client calls that change the node are recorded as actions.
 */
module Provisioning {

  const PipelineName: string := "llm-example"
  const InstanceName: string := "llm-example-instance"

  /** A call on the network client that changes what runs on a node. */
  datatype Action =
    | CreatePipeline(node: string, pipeline: string)
    | AttachInstance(node: string, pipeline: string, instance: string)
    | Deploy(node: string, pipeline: string)

  /** The answer of a check, and the calls it made. */
  datatype Provisioned = Provisioned(ready: bool, calls: seq<Action>)

  /** The number of deployments among `calls`. */
  function Deploys(calls: seq<Action>): nat {
    if calls == [] then 0
    else Deploys(calls[..|calls| - 1]) + (if calls[|calls| - 1].Deploy? then 1 else 0)
  }

  /** The number of pipeline creations among `calls`. */
  function Creations(calls: seq<Action>): nat {
    if calls == [] then 0
    else Creations(calls[..|calls| - 1]) + (if calls[|calls| - 1].CreatePipeline? then 1 else 0)
  }

  lemma {:induction false} CountsOfConcat(a: seq<Action>, b: seq<Action>)
    ensures Deploys(a + b) == Deploys(a) + Deploys(b)
    ensures Creations(a + b) == Creations(a) + Creations(b)
    decreases |b|
  {
    if b == [] {
      assert a + b == a;
    } else {
      assert (a + b)[..|a + b| - 1] == a + b[..|b| - 1];
      CountsOfConcat(a, b[..|b| - 1]);
    }
  }

  lemma CountsOfSingle(a: Action)
    ensures Deploys([a]) == (if a.Deploy? then 1 else 0)
    ensures Creations([a]) == (if a.CreatePipeline? then 1 else 0)
  {
    assert [a][..0] == [];
  }

  /** The `forEach` over the host's pipelines that sets `pipelineFound`. */
  method FindPipeline(hostPipelines: seq<string>) returns (found: bool)
    ensures found <==> PipelineName in hostPipelines
  {
    found := false;
    var i := 0;
    while i < |hostPipelines|
      invariant 0 <= i <= |hostPipelines|
      invariant found <==> PipelineName in hostPipelines[..i]
    {
      if hostPipelines[i] == PipelineName {
        found := true;
      }
      i := i + 1;
    }
    assert hostPipelines[..i] == hostPipelines;
  }

  /** The decision taken once the pipeline has been looked for. */
  function Provision(node: string, pipelineFound: bool, instancePresent: bool, deployOk: bool): (r: Provisioned)
    // pipeline and instance both there: nothing to do
    ensures pipelineFound && instancePresent ==> r == Provisioned(true, [])
    // pipeline there, instance missing: attach to it and deploy, nothing else
    ensures pipelineFound && !instancePresent ==>
              r.calls == [AttachInstance(node, PipelineName, InstanceName), Deploy(node, PipelineName)]
    // no pipeline: create it, then attach and deploy, nothing else
    ensures !pipelineFound ==>
              r.calls == [CreatePipeline(node, PipelineName), AttachInstance(node, PipelineName, InstanceName), Deploy(node, PipelineName)]
    // in both, one deployment whose outcome is the answer
    ensures !(pipelineFound && instancePresent) ==> r.ready == deployOk && Deploys(r.calls) == 1
    // a pipeline is created exactly when none was found
    ensures Creations(r.calls) == (if pipelineFound then 0 else 1)
  {
    var deploy := [AttachInstance(node, PipelineName, InstanceName), Deploy(node, PipelineName)];
    if pipelineFound && instancePresent then
      Provisioned(true, [])
    else if pipelineFound then
      assert Deploys(deploy) == 1 && Creations(deploy) == 0 by {
        CountsOfSingle(deploy[0]);
        CountsOfSingle(deploy[1]);
        CountsOfConcat([deploy[0]], [deploy[1]]);
      }
      Provisioned(deployOk, deploy)
    else
      var calls := [CreatePipeline(node, PipelineName)] + deploy;
      assert Deploys(calls) == 1 && Creations(calls) == 1 by {
        CountsOfSingle(deploy[0]);
        CountsOfSingle(deploy[1]);
        CountsOfConcat([deploy[0]], [deploy[1]]);
        CountsOfSingle(calls[0]);
        CountsOfConcat([calls[0]], deploy);
      }
      Provisioned(deployOk, calls)
  }

  /** `checkLLMPipeline` on a given view of the node. */
  function CheckLLMPipeline(node: string, hostPipelines: seq<string>, instancePresent: bool, deployOk: bool): (r: Provisioned)
    ensures PipelineName in hostPipelines && instancePresent ==> r == Provisioned(true, [])
    ensures PipelineName in hostPipelines && !instancePresent ==>
              r == Provisioned(deployOk, [AttachInstance(node, PipelineName, InstanceName), Deploy(node, PipelineName)])
    ensures PipelineName !in hostPipelines ==>
              r == Provisioned(deployOk, [CreatePipeline(node, PipelineName), AttachInstance(node, PipelineName, InstanceName), Deploy(node, PipelineName)])
  {
    Provision(node, PipelineName in hostPipelines, instancePresent, deployOk)
  }

  /** Re-running the check on a node already provisioned makes no call. */
  lemma RerunWhenProvisionedIsFree(node: string, hostPipelines: seq<string>, deployOk: bool)
    requires PipelineName in hostPipelines
    ensures CheckLLMPipeline(node, hostPipelines, true, deployOk) == Provisioned(true, [])
  {
  }

  /** A check answers true only when the instance was already there or its deployment succeeded. */
  lemma ReadyMeansDeployed(node: string, hostPipelines: seq<string>, instancePresent: bool, deployOk: bool)
    ensures CheckLLMPipeline(node, hostPipelines, instancePresent, deployOk).ready <==>
              (PipelineName in hostPipelines && instancePresent) || deployOk
  {
  }
}
