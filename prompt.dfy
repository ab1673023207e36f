/**
 The `/prompt` route before it touches any shared state: the check that the
 body carries a truthy `requestId`, `prompt` and `history`, the mapping of
 each history entry `{prompt, response}` to `{request, response}`, and the
 command payload `{history, request_id, request}` sent to the plugin instance.
 */
module Prompt {
  import opened Js

  /** The reply text of a rejected body (sent with status 400). */
  const BadRequestMessage: string :=
    "Request body must have: requestId, prompt and history[]. History array should contain objects of type {prompt: string, response: string}"

  /** One entry of the outbound history. */
  datatype HistoryEntry = HistoryEntry(request: JsValue, response: JsValue)

  /** The payload of `sendCommand`. */
  datatype Command = Command(history: seq<HistoryEntry>, requestId: JsValue, request: JsValue)

  /** What the route does with a body.
      `Rejected`: the 400 reply; `Threw`: a TypeError escaped the handler before
      the table was touched (from `history.map` or from `${requestId}`); `Accepted`: the key to register and the command to send. */
  datatype PromptOutcome =
    | Rejected(message: string)
    | Threw
    | Accepted(key: string, command: Command)

  /** `history.map(entry => ({request: entry.prompt, response: entry.response}))`;
      `None` is the TypeError thrown when an entry is `null` or `undefined`. */
  function MapHistory(entries: seq<JsValue>): (r: Option<seq<HistoryEntry>>)
    ensures r.Some? <==> forall i :: 0 <= i < |entries| ==> !Nullish(entries[i])
    ensures r.Some? ==> |r.value| == |entries|
    ensures r.Some? ==> forall i :: 0 <= i < |entries| ==>
              r.value[i] == HistoryEntry(Get(entries[i], "prompt").value, Get(entries[i], "response").value)
  {
    if entries == [] then Some([])
    else if Nullish(entries[0]) then None
    else
      match MapHistory(entries[1..])
      case None => None
      case Some(rest) =>
        Some([HistoryEntry(Get(entries[0], "prompt").value, Get(entries[0], "response").value)] + rest)
  }

  /** The handler's decision for a parsed body. */
  function HandlePrompt(body: Object): (r: PromptOutcome)
    ensures r.Rejected? <==>
              Falsy(Field(body, "requestId")) || Falsy(Field(body, "prompt")) || Falsy(Field(body, "history"))
    ensures r.Rejected? ==> r.message == BadRequestMessage
    ensures r.Accepted? <==>
              && !Falsy(Field(body, "requestId")) && !Falsy(Field(body, "prompt"))
              && Field(body, "history").Arr?
              && (forall i :: 0 <= i < |Field(body, "history").items| ==> !Nullish(Field(body, "history").items[i]))
              && ToKey(Field(body, "requestId")).Some?
    ensures r.Accepted? ==> Some(r.key) == ToKey(Field(body, "requestId"))
    ensures r.Accepted? ==> r.command.requestId == Field(body, "requestId")
    ensures r.Accepted? ==> r.command.request == Field(body, "prompt")
    ensures r.Accepted? ==> r.command.history == MapHistory(Field(body, "history").items).value
  {
    var requestId, prompt, history := Field(body, "requestId"), Field(body, "prompt"), Field(body, "history");
    if Falsy(requestId) || Falsy(prompt) || Falsy(history) then
      Rejected(BadRequestMessage)
    else if !history.Arr? then
      // a truthy string, number, boolean or object has no `map` method
      Threw
    else
      match MapHistory(history.items)
      case None => Threw
      case Some(mapped) =>
        match ToKey(requestId)
        case None => Threw
        case Some(key) => Accepted(key, Command(mapped, requestId, prompt))
  }

  /** An empty history is accepted: `[]` is truthy. */
  lemma EmptyHistoryAccepted(requestId: string, prompt: string)
    requires requestId != "" && prompt != ""
    ensures HandlePrompt(map["requestId" := Str(requestId), "prompt" := Str(prompt), "history" := Arr([])])
            == Accepted(requestId, Command([], Str(requestId), Str(prompt)))
  {
    var body := map["requestId" := Str(requestId), "prompt" := Str(prompt), "history" := Arr([])];
    assert Field(body, "requestId") == Str(requestId);
    assert Field(body, "prompt") == Str(prompt);
    assert Field(body, "history") == Arr([]);
  }

  /** A body that passes validation and has a well-formed history, but whose
      id cannot be converted to a string, throws: nothing is registered. */
  lemma UnconvertibleIdThrows(body: Object)
    requires !Falsy(Field(body, "requestId")) && !Falsy(Field(body, "prompt"))
    requires Field(body, "history").Arr? && MapHistory(Field(body, "history").items).Some?
    requires ToKey(Field(body, "requestId")).None?
    ensures HandlePrompt(body) == Threw
  {
  }
}
