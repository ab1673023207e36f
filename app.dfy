/**
 The module-level state of the example application and its four handlers,
 written as the source writes them: step by step, updating the state in
 place. Each method is tied to the functions of Prompt, Correlation,
 Provisioning and Readiness, where the properties are proved.
 */
module App {
  import opened Js
  import opened Prompt
  import Correlation
  import Provisioning
  import Readiness

  class LlmExample {
    /** The node that must run the LLM pipeline (`AIXPAND_NODE`). */
    const preferredNode: string

    /** `${requestId}` to the response still waiting for its result. */
    var pendingResponses: map<string, Correlation.Handle>
    /** Whether the HTTP server has been started. */
    var httpServerListening: bool

    /** Everything written to response objects, in order. */
    var replies: seq<Correlation.Reply>
    /** Every command sent to the plugin instance, in order. */
    var commandsSent: seq<Command>
    /** Every client call that changed a node, in order. */
    var clientCalls: seq<Provisioning.Action>

    /** The request/response side of the state. */
    ghost function Exchange(): Correlation.Exchange
      reads this
    {
      Correlation.Exchange(pendingResponses, replies, commandsSent)
    }

    /** The class invariant: no two keys share a response, a pending response
        has not been answered, and no response is answered twice. */
    ghost predicate Valid()
      reads this
    {
      Correlation.Consistent(Exchange())
    }

    /** The readiness side of the state. */
    ghost function Gate(): Readiness.Gate
      reads this
    {
      Readiness.Gate(httpServerListening, clientCalls)
    }

    constructor (preferredNode: string)
      ensures Valid()
      ensures this.preferredNode == preferredNode
      ensures pendingResponses == map[] && !httpServerListening
      ensures replies == [] && commandsSent == [] && clientCalls == []
    {
      this.preferredNode := preferredNode;
      pendingResponses := map[];
      httpServerListening := false;
      replies := [];
      commandsSent := [];
      clientCalls := [];
      Correlation.EmptyExchangeConsistent();
    }

    /** The `/prompt` route, answering through `res`, a response object
        Express has created for this request. */
    method OnPrompt(res: Correlation.Handle, body: Object) returns (outcome: PromptOutcome)
      requires Valid() && Correlation.Fresh(Exchange(), res)
      modifies this
      ensures Valid()
      ensures outcome == HandlePrompt(body)
      ensures Exchange() == Correlation.OnPrompt(old(Exchange()), res, body)
      ensures Gate() == old(Gate())
    {
      Correlation.OnPromptKeepsConsistent(Exchange(), res, body);
      var requestId, prompt, history := Field(body, "requestId"), Field(body, "prompt"), Field(body, "history");
      if Falsy(requestId) || Falsy(prompt) || Falsy(history) {
        replies := replies + [Correlation.Reply(res, Correlation.BadRequest(BadRequestMessage))];
        return Rejected(BadRequestMessage);
      }
      if !history.Arr? {
        return Threw;
      }
      var mapped := MapHistory(history.items);
      if mapped.None? {
        return Threw;
      }
      var key := ToKey(requestId);
      if key.None? {
        return Threw;
      }
      pendingResponses := pendingResponses[key.value := res];
      var command := Command(mapped.value, requestId, prompt);
      commandsSent := commandsSent + [command];
      outcome := Accepted(key.value, command);
    }

    /** The `LLM_CODEGEN_01` result handler. */
    method OnResult(err: JsValue, payload: Object) returns (outcome: Correlation.ResultOutcome)
      requires Valid()
      modifies this
      ensures Valid()
      ensures outcome == Correlation.ClassifyResult(old(pendingResponses), err, payload)
      ensures Exchange() == Correlation.OnResult(old(Exchange()), err, payload)
      ensures Gate() == old(Gate())
    {
      Correlation.OnResultKeepsConsistent(Exchange(), err, payload);
      if !Falsy(err) {
        return Correlation.Ignored;
      }
      var id := ToKey(Field(payload, "REQUEST_ID"));
      if id.None? {
        return Correlation.KeyThrew;
      }
      var key := id.value;
      if key !in pendingResponses {
        // reading `.json` of undefined throws before the delete
        return Correlation.UnknownKey(key);
      }
      var to := pendingResponses[key];
      replies := replies + [Correlation.Reply(to, Correlation.Json(Field(payload, "RESPONSE")))];
      pendingResponses := pendingResponses - {key};
      outcome := Correlation.Delivered(key, to);
    }

    /** `checkLLMPipeline` against the given view of the preferred node. */
    method CheckLLMPipeline(hostPipelines: seq<string>, instancePresent: bool, deployOk: bool) returns (ok: bool)
      modifies this`clientCalls
      ensures ok == Provisioning.CheckLLMPipeline(preferredNode, hostPipelines, instancePresent, deployOk).ready
      ensures clientCalls ==
                old(clientCalls) + Provisioning.CheckLLMPipeline(preferredNode, hostPipelines, instancePresent, deployOk).calls
    {
      var pipelineFound := Provisioning.FindPipeline(hostPipelines);
      if pipelineFound {
        if !instancePresent {
          clientCalls := clientCalls + [Provisioning.AttachInstance(preferredNode, Provisioning.PipelineName, Provisioning.InstanceName),
                                        Provisioning.Deploy(preferredNode, Provisioning.PipelineName)];
          return deployOk;
        }
        return true;
      }
      clientCalls := clientCalls + [Provisioning.CreatePipeline(preferredNode, Provisioning.PipelineName),
                                    Provisioning.AttachInstance(preferredNode, Provisioning.PipelineName, Provisioning.InstanceName),
                                    Provisioning.Deploy(preferredNode, Provisioning.PipelineName)];
      ok := deployOk;
    }

    /** The heartbeat handler. */
    method OnHeartbeat(hb: Readiness.Heartbeat)
      requires Valid()
      modifies this`httpServerListening, this`clientCalls
      ensures Valid()
      ensures Gate() == Readiness.OnHeartbeat(preferredNode, old(Gate()), hb)
    {
      if hb.executionEngine == preferredNode && !httpServerListening {
        var ok := CheckLLMPipeline(hb.hostPipelines, hb.instancePresent, hb.deployOk);
        if ok {
          httpServerListening := true;
        }
      }
    }
  }
}
