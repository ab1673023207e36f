/**
 The heartbeat handler that opens the HTTP server: on a heartbeat from the
 preferred node, while the server is not listening, run the provisioning
 check and start listening if it answers true. Each heartbeat carries the
 view of the node the check would see at that moment.
 */
module Readiness {
  import opened Provisioning

  /** A heartbeat, and what `checkLLMPipeline` would observe if run on receiving it. */
  datatype Heartbeat = Heartbeat(executionEngine: string, hostPipelines: seq<string>, instancePresent: bool, deployOk: bool)

  /** Whether the HTTP server listens, and the client calls made so far. */
  datatype Gate = Gate(listening: bool, calls: seq<Action>)

  /** The check run on receiving `hb`. */
  function CheckOn(preferredNode: string, hb: Heartbeat): Provisioned {
    CheckLLMPipeline(preferredNode, hb.hostPipelines, hb.instancePresent, hb.deployOk)
  }

  /** A heartbeat that would open the server if it were not yet open. */
  predicate Opens(preferredNode: string, hb: Heartbeat) {
    hb.executionEngine == preferredNode && CheckOn(preferredNode, hb).ready
  }

  /** One heartbeat, with the handler's short-circuit order: origin, then the
      listening flag, then the check. */
  function OnHeartbeat(preferredNode: string, g: Gate, hb: Heartbeat): (r: Gate)
    // a foreign node, or a server already listening: no check, no change
    ensures hb.executionEngine != preferredNode || g.listening ==> r == g
    ensures hb.executionEngine == preferredNode && !g.listening ==>
              && r.listening == CheckOn(preferredNode, hb).ready
              && r.calls == g.calls + CheckOn(preferredNode, hb).calls
  {
    if hb.executionEngine == preferredNode && !g.listening then
      var check := CheckOn(preferredNode, hb);
      Gate(check.ready, g.calls + check.calls)
    else
      g
  }

  /** A sequence of heartbeats handled in order. */
  function Run(preferredNode: string, g: Gate, hbs: seq<Heartbeat>): Gate
    decreases |hbs|
  {
    if hbs == [] then g else Run(preferredNode, OnHeartbeat(preferredNode, g, hbs[0]), hbs[1..])
  }

  lemma {:induction false} RunConcat(preferredNode: string, g: Gate, a: seq<Heartbeat>, b: seq<Heartbeat>)
    ensures Run(preferredNode, g, a + b) == Run(preferredNode, Run(preferredNode, g, a), b)
    decreases |a|
  {
    if a == [] {
      assert a + b == b;
    } else {
      assert (a + b)[0] == a[0] && (a + b)[1..] == a[1..] + b;
      RunConcat(preferredNode, OnHeartbeat(preferredNode, g, a[0]), a[1..], b);
    }
  }

  /** Once the server listens, later heartbeats change nothing and make no call. */
  lemma {:induction false} ListeningIsFinal(preferredNode: string, g: Gate, hbs: seq<Heartbeat>)
    requires g.listening
    ensures Run(preferredNode, g, hbs) == g
    decreases |hbs|
  {
    if hbs != [] {
      ListeningIsFinal(preferredNode, g, hbs[1..]);
    }
  }

  /** Heartbeats from other nodes never run the check nor open the server. */
  lemma {:induction false} ForeignHeartbeatsInert(preferredNode: string, g: Gate, hbs: seq<Heartbeat>)
    requires forall i :: 0 <= i < |hbs| ==> hbs[i].executionEngine != preferredNode
    ensures Run(preferredNode, g, hbs) == g
    decreases |hbs|
  {
    if hbs != [] {
      ForeignHeartbeatsInert(preferredNode, g, hbs[1..]);
    }
  }

  /** The server ends up listening exactly when it already was, or some
      heartbeat from the preferred node found the node provisioned or deployed
      successfully. */
  lemma {:induction false} OpensIffSomeCheckSucceeds(preferredNode: string, g: Gate, hbs: seq<Heartbeat>)
    ensures Run(preferredNode, g, hbs).listening <==>
              g.listening || exists i :: 0 <= i < |hbs| && Opens(preferredNode, hbs[i])
    decreases |hbs|
  {
    if hbs != [] {
      var g1 := OnHeartbeat(preferredNode, g, hbs[0]);
      OpensIffSomeCheckSucceeds(preferredNode, g1, hbs[1..]);
      if g1.listening && !g.listening {
        assert Opens(preferredNode, hbs[0]);
      }
      if exists i :: 0 <= i < |hbs| && Opens(preferredNode, hbs[i]) {
        var i :| 0 <= i < |hbs| && Opens(preferredNode, hbs[i]);
        if i > 0 {
          assert hbs[1..][i - 1] == hbs[i];
        }
      }
      if exists j :: 0 <= j < |hbs[1..]| && Opens(preferredNode, hbs[1..][j]) {
        var j :| 0 <= j < |hbs[1..]| && Opens(preferredNode, hbs[1..][j]);
        assert hbs[j + 1] == hbs[1..][j];
      }
    }
  }

  /** After the server opens, a later stretch of heartbeats adds no deployment. */
  lemma {:induction false} NoDeployAfterOpen(preferredNode: string, g: Gate, a: seq<Heartbeat>, b: seq<Heartbeat>)
    requires Run(preferredNode, g, a).listening
    ensures Run(preferredNode, g, a + b) == Run(preferredNode, g, a)
  {
    RunConcat(preferredNode, g, a, b);
    ListeningIsFinal(preferredNode, Run(preferredNode, g, a), b);
  }
}
