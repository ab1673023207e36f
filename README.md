# LLM example bridge, modelled in Dafny

The example application connects an HTTP endpoint to an LLM code-generation
plugin that runs on a remote AiXpand node. The core of `src/index.ts` is a
small sequential bridge:

- `POST /prompt` validates the body. It rewrites each history entry
  `{prompt, response}` as `{request, response}`. It stores the caller's
  response object in `pendingResponses` under `${requestId}`. Then it sends
  the command `{history, request_id, request}` to the plugin instance.
- The `LLM_CODEGEN_01` result handler looks up `${payload.REQUEST_ID}`. It
  answers that response with `{response: payload.RESPONSE}` and deletes the
  entry.
- `checkLLMPipeline` makes sure the preferred node runs the pipeline
  `llm-example` with the instance `llm-example-instance`. It creates,
  attaches and deploys only what is missing.
- The heartbeat handler starts the HTTP server. This happens on the first
  heartbeat from the preferred node, while the server is not yet listening,
  on which the check answers true.

Files:

- `js.dfy` (module `Js`) holds the JavaScript semantics the code relies on:
  JSON values, truthiness, property reads and the template-literal string
  conversion that makes table keys.
- `prompt.dfy` (module `Prompt`) holds the route's validation, the history
  mapping and the command payload.
- `correlation.dfy` (module `Correlation`) holds the pending-response table
  and the two handlers as functions on a snapshot. Its lemmas follow callers
  across several events.
- `provisioning.dfy` (module `Provisioning`) holds `checkLLMPipeline`. It
  uses the `forEach` search and the three-way decision, and records the
  client calls made.
- `readiness.dfy` (module `Readiness`) holds the heartbeat gate and runs of
  heartbeats.
- `app.dfy` (module `App`) holds class `LlmExample`. Its fields are the
  module-level state. Its methods are the handlers, updating that state in
  place, and each is tied to the functions above.

A response object is an opaque `Handle`. What the code writes to it is
appended to a `replies` log. Commands sent and client calls made are logged
the same way. Three things are parameters of the handlers: the host's
pipeline names, whether the instance exists and whether a deployment
succeeds.

Some behaviours of the code may surprise a caller. The model follows the code:

- A second request whose key is already pending overwrites the entry. There
  is no duplicate-key check. The first caller is never answered.
- A result event for a key with no entry throws a TypeError at
  `src/index.ts:101`, where `.json` is read from `undefined`. The throw comes
  before the delete at line 105, so the table and the replies are untouched.
  What happens to the error after it leaves the callback is not modelled
  (see "## Left out").
- A result event with `err` set is dropped, and the waiting caller gets no
  reply. The TODO at `src/index.ts:94` marks this as unfinished.
- A failing `sendCommand` is not handled. The TODO at `src/index.ts:88`
  marks this as unfinished.
- Validation tests truthiness. A numeric `requestId` or `prompt` is accepted,
  and so is `history: []`. Three kinds of body pass validation and then
  throw before anything is registered:
  - a truthy history that is not an array, because it has no `map`;
  - a history with a `null` entry;
  - a `requestId` whose conversion to a string throws. An example is a JSON
    object with its own `toString` field, either directly or inside an
    array.
- Nothing stops two heartbeats from running the check at the same time.

The class `App.LlmExample` keeps an invariant, `Valid()`: no two keys share a
response object, a pending response has not been answered, and no response
is answered twice. `OnPrompt` relies on Express creating a new response
object for each request. The method's precondition states that the handle
is fresh.

## Model

| member | source | states |
|---|---|---|
| `Js.Falsy` | src/index.ts:66 | the falsy values are exactly `undefined`, `null`, `false`, `0` and `""`; an empty array or object is truthy |
| `Js.Get` | src/index.ts:73-78 | reading `prompt` or `response` throws exactly on `null` or `undefined`; on an object it gives the field or `undefined`; on any other value it gives `undefined` |
| `Js.ToKey` | src/index.ts:82 | `${v}`: a string is its own key and an integer its decimal numeral; an object gives `[object Object]` unless it has its own `toString` field, in which case the conversion throws; an array converts exactly when each of its non-null elements does. Integers only, printed exactly; see "## Left out" |
| `Js.OwnToStringThrows` | src/index.ts:82 | an id with its own `toString` field cannot be converted to a key, either directly or as an element of any array |
| `Js.NumericKeysInjective` | src/index.ts:82 | two different numeric request ids give different table keys |
| `Js.KeyCollisions` | src/index.ts:82 | the number `n` and the string of its digits share a table key; so do `["s"]` and `"s"` |
| `Prompt.MapHistory` | src/index.ts:73-78 | the mapping throws exactly when some entry is `null` or `undefined`; otherwise it keeps length and order, and entry `i` is `{request: history[i].prompt, response: history[i].response}` |
| `Prompt.HandlePrompt` | src/index.ts:66-88 | a body is rejected with the 400 message exactly when `requestId`, `prompt` or `history` is falsy. It is accepted exactly when all three are truthy, `history` is an array with no nullish entry, and `${requestId}` converts without throwing. On acceptance the key is that string, and the command carries `requestId`, `prompt` and the mapped history |
| `Prompt.UnconvertibleIdThrows` | src/index.ts:66-82 | every body with a truthy id and prompt and a history array without nullish entries, whose id conversion throws, makes the route throw |
| `Prompt.EmptyHistoryAccepted` | src/index.ts:66 | an empty history array is accepted, since `[]` is truthy |
| `Correlation.OnPrompt` | src/index.ts:65-89 | a rejected body writes only the 400 reply; a body that throws changes nothing; an accepted one sets the key to the caller's handle, leaves every other entry as it was, sends exactly its command and writes no reply |
| `Correlation.ResultKey` | src/index.ts:98-101 | the key of a result event is `${payload.REQUEST_ID}`; for a string id it is the id itself, and for an integer id it is the id's exact decimal numeral (see "## Left out") |
| `Correlation.ClassifyResult` | src/index.ts:92-101 | an event with `err` set is ignored. Otherwise: if `${payload.REQUEST_ID}` throws, the key is unconvertible; if the key is pending, the event is delivered to the handle stored there; otherwise the key is unknown |
| `Correlation.OnResult` | src/index.ts:92-106 | a delivered event writes exactly `{response: payload.RESPONSE}` to the stored handle, removes only that key and sends nothing; any other event changes nothing |
| `Correlation.OnPromptKeepsConsistent` | src/index.ts:82 | registering a fresh handle keeps the invariant: no two keys share a handle, no pending handle has been answered, no handle is answered twice |
| `Correlation.OnResultKeepsConsistent` | src/index.ts:98-105 | every result event keeps the same invariant, so no caller is ever answered twice |
| `Correlation.RegisterThenResolve` | src/index.ts:82-105 | register(K) then resolve(K) leaves the table as before minus K, and the caller receives exactly the result |
| `Correlation.OutOfOrderResolution` | src/index.ts:82-105 | two requests with different keys, through fresh handles, resolved in reverse order each receive exactly their own result, and both keys are gone |
| `Correlation.InOrderResolution` | src/index.ts:82-105 | the same two requests resolved in the order they were made: each receives exactly its own result, and both keys are gone |
| `Correlation.UnconvertibleIdChangesNothing` | src/index.ts:66-89 | every validated body with a well-formed history whose id conversion throws leaves the table, the replies and the commands unchanged |
| `Correlation.DuplicateKeyOrphansFirstCaller` | src/index.ts:82 | a second request with a pending key takes over the entry; the result goes to the second caller and the first is never answered |
| `Correlation.ResolveBeforeRegister` | src/index.ts:98-105 | a result for a key never registered is an unknown key and does not affect a later registration |
| `Provisioning.FindPipeline` | src/index.ts:111-116 | the loop finds the pipeline exactly when `llm-example` is among the host's pipeline names |
| `Provisioning.Provision` | src/index.ts:118-162 | pipeline and instance present: true, no call. Pipeline present, instance absent: the calls are exactly attach then deploy. No pipeline: the calls are exactly create, attach, deploy. In the last two the answer is the deploy outcome, with one deployment, and a pipeline is created exactly when none was found |
| `Provisioning.CheckLLMPipeline` | src/index.ts:110-163 | the three branches, in terms of the host's pipeline names: pipeline and instance present gives true with no call; pipeline present and instance absent gives exactly attach then deploy; pipeline absent gives exactly create, attach and deploy; in the last two the answer is the deploy outcome |
| `Provisioning.RerunWhenProvisionedIsFree` | src/index.ts:118-144 | re-running the check on a provisioned node answers true and makes no call |
| `Provisioning.ReadyMeansDeployed` | src/index.ts:118-162 | the check answers true exactly when the instance was already there or the deployment succeeded |
| `Readiness.OnHeartbeat` | src/index.ts:166-173 | a heartbeat from another node, or one received while listening, runs no check and changes nothing; otherwise the server listens exactly when the check answers true, and the check's calls are recorded |
| `Readiness.RunConcat` | src/index.ts:166-173 | handling two stretches of heartbeats one after the other is handling their concatenation |
| `Readiness.ListeningIsFinal` | src/index.ts:167-169 | once the server listens, any later heartbeats change nothing and make no call |
| `Readiness.ForeignHeartbeatsInert` | src/index.ts:167 | heartbeats from other nodes never run the check or open the server |
| `Readiness.OpensIffSomeCheckSucceeds` | src/index.ts:166-173 | after a run, the server listens exactly when it already did, or some heartbeat from the preferred node met a check answering true |
| `Readiness.NoDeployAfterOpen` | src/index.ts:166-173 | after the server opens, later heartbeats add no client call, so no deployment |
| `App.LlmExample.constructor` | src/index.ts:11-14 | the table starts empty and the server not listening; nothing has been replied, sent or called; the invariant `Valid()` holds |
| `App.LlmExample.OnPrompt` | src/index.ts:65-89 | given a fresh response object, the route keeps `Valid()`. Its outcome is `HandlePrompt` of the body. Its effect on the table, replies and commands is `Correlation.OnPrompt`. The listening flag and client calls are unchanged |
| `App.LlmExample.OnResult` | src/index.ts:92-106 | the handler keeps `Valid()`, so no caller is answered twice. Its outcome is `ClassifyResult` of the table before, and its effect is `Correlation.OnResult`. The listening flag and client calls are unchanged |
| `App.LlmExample.CheckLLMPipeline` | src/index.ts:110-163 | the answer and the calls appended are those of `Provisioning.Provision` for whether `llm-example` is among the host's pipelines |
| `App.LlmExample.OnHeartbeat` | src/index.ts:166-173 | the listening flag and the calls are updated as `Readiness.OnHeartbeat` says |

## Left out

- Express and body-parser routing, `res.status(...)`, the 500 reply Express sends when a handler throws, and the port. A response is an opaque handle plus the log of what was written to it.
- `app.listen` and the asynchronous gap before its callback sets `httpServerListening`. The model sets the flag at once. Because the model is sequential, it cannot show two heartbeats from the preferred node both running the check while a deployment is pending.
- Promises and `await`. A deployment's rejection is the input `deployOk = false`.
- dotenv, the environment variables and the MQTT client options. `preferredNode` is a constructor parameter.
- Client boot and the connection, boot and topic-subscription logging handlers. These are network-client lifecycle.
- All `console.log` and `console.error` output.
- The AiXpand client API (`getHostPipelines`, `getPipeline`, `getPluginInstance`, `createPipeline`, `attachPluginInstance`, `deploy`, `sendCommand`). These are foreign calls. Their results are inputs, and their effects are the recorded `Action`s and commands.
- The plugin-instance lookup at `src/index.ts:80` is assumed to succeed. A failing `sendCommand` is not modelled either. The source has no error handling for it (TODO at line 88).
- `src/llm.codegen.01.plugin.ts` is not part of this model. `LLMCodegen01.make` relies on the library's `generateId`, and `getSchema` only returns constant metadata.
- Js.ToKey: numbers are integers only, and an integer is printed as its exact decimal numeral. Fractions, `-0`, `NaN` and the exponent form JavaScript uses from 1e21 up are not modelled. Above 2^53 JavaScript prints the shortest numeral that reads back as the same double, so the id 2^64 gives `18446744073709552000` there and `18446744073709551616` here; the key of such an id differs from the source's. A JSON `-0` is falsy in JavaScript, as `0` is here.
- Correlation.ResultKey: a numeric `REQUEST_ID` above 2^53 is printed exactly, as in `Js.ToKey`, so a result whose id is the string JavaScript would print for it is classified as an unknown key here, while the source delivers it.
- Js.Get: stated only for the names `prompt` and `response`, the two the history mapping reads; properties such as `length` or `toString`, which JavaScript provides on non-object values, are not modelled.
- A TypeError that escapes the result callback (an unknown key, or an id that cannot be converted) is assumed to end only that callback. What the client library and Node.js do with it is outside the source. By default Node.js ends the process on an uncaught exception, and every pending caller with it.
- `pendingResponses` is a plain object. Names it inherits from `Object.prototype` are not modelled. For example, a `requestId` of `__proto__` replaces the prototype instead of adding an entry. Keys are treated as own properties only.
- A JSON array as the whole request body is treated like an object without the three fields. Both read every field as `undefined` and get the 400 reply.
- Behaviour the code does not have is not modelled: rejecting duplicate keys, failing callers on upstream errors (TODO at line 94), rolling back on send failure, and timeouts.
