/**
 The pending-response table and what the two event handlers do to it, as
 functions on an immutable snapshot: the `/prompt` route registers the
 caller's response handle under `${requestId}` and sends a command; the
 `LLM_CODEGEN_01` result handler answers the handle registered under
 `${payload.REQUEST_ID}` with `{response: payload.RESPONSE}` and deletes the
 entry. The lemmas follow callers through several events.
 */
module Correlation {
  import opened Js
  import opened Prompt

  /** An HTTP response object, known only by identity. */
  type Handle = nat

  /** What was written to a response: the 400 text, or the JSON `{response}`. */
  datatype ReplyBody = BadRequest(message: string) | Json(response: JsValue)

  datatype Reply = Reply(to: Handle, body: ReplyBody)

  /** The table, every reply written so far, and every command sent so far. */
  datatype Exchange = Exchange(pending: map<string, Handle>, replies: seq<Reply>, sent: seq<Command>)

  /** How a result event was handled. `UnknownKey`: the table has no entry for
      the key, so reading `.json` of `undefined` throws a TypeError before the
      delete; `KeyThrew`: `${payload.REQUEST_ID}` itself throws. */
  datatype ResultOutcome = Ignored | Delivered(key: string, to: Handle) | UnknownKey(key: string) | KeyThrew

  /** The replies written to `h`, in order. */
  function RepliesTo(replies: seq<Reply>, h: Handle): seq<ReplyBody> {
    if replies == [] then []
    else
      var last := replies[|replies| - 1];
      RepliesTo(replies[..|replies| - 1], h) + (if last.to == h then [last.body] else [])
  }

  /** The effect of one `/prompt` request answered through `res`. */
  function OnPrompt(x: Exchange, res: Handle, body: Object): (r: Exchange)
    ensures HandlePrompt(body).Rejected? ==>
              r == x.(replies := x.replies + [Reply(res, BadRequest(BadRequestMessage))])
    ensures HandlePrompt(body).Threw? ==> r == x
    ensures HandlePrompt(body).Accepted? ==>
              && r.replies == x.replies
              && r.sent == x.sent + [HandlePrompt(body).command]
              && r.pending.Keys == x.pending.Keys + {HandlePrompt(body).key}
              && r.pending[HandlePrompt(body).key] == res
              && forall k :: k in x.pending && k != HandlePrompt(body).key ==> r.pending[k] == x.pending[k]
  {
    match HandlePrompt(body)
    case Rejected(message) => x.(replies := x.replies + [Reply(res, BadRequest(message))])
    case Threw => x
    case Accepted(key, command) => x.(pending := x.pending[key := res], sent := x.sent + [command])
  }

  /** The table key a result event is for. */
  function ResultKey(payload: Object): (r: Option<string>)
    ensures Field(payload, "REQUEST_ID").Str? ==> r == Some(Field(payload, "REQUEST_ID").s)
    ensures Field(payload, "REQUEST_ID").Num? ==> r == Some(IntString(Field(payload, "REQUEST_ID").n))
  {
    ToKey(Field(payload, "REQUEST_ID"))
  }

  /** How the result handler treats an event. */
  function ClassifyResult(pending: map<string, Handle>, err: JsValue, payload: Object): (r: ResultOutcome)
    ensures r.Ignored? <==> !Falsy(err)
    ensures r.KeyThrew? <==> Falsy(err) && ResultKey(payload).None?
    ensures r.Delivered? <==> Falsy(err) && ResultKey(payload).Some? && ResultKey(payload).value in pending
    ensures r.Delivered? ==> Some(r.key) == ResultKey(payload) && r.to == pending[r.key]
    ensures r.UnknownKey? ==> Some(r.key) == ResultKey(payload) && r.key !in pending
  {
    if !Falsy(err) then Ignored
    else
      match ResultKey(payload)
      case None => KeyThrew
      case Some(key) => if key in pending then Delivered(key, pending[key]) else UnknownKey(key)
  }

  /** The effect of one result event. */
  function OnResult(x: Exchange, err: JsValue, payload: Object): (r: Exchange)
    ensures !ClassifyResult(x.pending, err, payload).Delivered? ==> r == x
    ensures ClassifyResult(x.pending, err, payload).Delivered? ==>
              && r.pending == x.pending - {ResultKey(payload).value}
              && r.replies == x.replies + [Reply(x.pending[ResultKey(payload).value], Json(Field(payload, "RESPONSE")))]
              && r.sent == x.sent
  {
    match ClassifyResult(x.pending, err, payload)
    case Delivered(key, to) =>
      x.(pending := x.pending - {key}, replies := x.replies + [Reply(to, Json(Field(payload, "RESPONSE")))])
    case _ => x
  }

  /** No two keys share a handle, a pending handle has not been answered,
      and no handle has been answered twice. */
  ghost predicate Consistent(x: Exchange) {
    && (forall k1, k2 :: k1 in x.pending && k2 in x.pending && k1 != k2 ==> x.pending[k1] != x.pending[k2])
    && (forall k :: k in x.pending ==> RepliesTo(x.replies, x.pending[k]) == [])
    && (forall h :: |RepliesTo(x.replies, h)| <= 1)
  }

  /** A response object the exchange has never seen: Express makes a new one per request. */
  ghost predicate Fresh(x: Exchange, h: Handle) {
    h !in x.pending.Values && RepliesTo(x.replies, h) == []
  }

  lemma {:induction false} RepliesToAppend(replies: seq<Reply>, r: Reply, h: Handle)
    ensures RepliesTo(replies + [r], h) == RepliesTo(replies, h) + (if r.to == h then [r.body] else [])
  {
    assert (replies + [r])[..|replies|] == replies;
  }

  lemma EmptyExchangeConsistent()
    ensures Consistent(Exchange(map[], [], []))
  {
  }

  /** A request answered through a fresh handle keeps the exchange consistent. */
  lemma {:induction false} OnPromptKeepsConsistent(x: Exchange, res: Handle, body: Object)
    requires Consistent(x) && Fresh(x, res)
    ensures Consistent(OnPrompt(x, res, body))
  {
    var r := OnPrompt(x, res, body);
    match HandlePrompt(body)
    case Rejected(message) =>
      forall h ensures RepliesTo(r.replies, h) == RepliesTo(x.replies, h) + (if res == h then [BadRequest(message)] else []) {
        RepliesToAppend(x.replies, Reply(res, BadRequest(message)), h);
      }
      forall k | k in r.pending ensures RepliesTo(r.replies, r.pending[k]) == [] {
        assert r.pending[k] in x.pending.Values;
      }
    case Threw =>
    case Accepted(key, command) =>
      forall k1, k2 | k1 in r.pending && k2 in r.pending && k1 != k2 ensures r.pending[k1] != r.pending[k2] {
        if k1 != key && k2 != key {
        } else if k1 == key {
          assert r.pending[k2] == x.pending[k2] && x.pending[k2] in x.pending.Values;
        } else {
          assert r.pending[k1] == x.pending[k1] && x.pending[k1] in x.pending.Values;
        }
      }
  }

  /** A result event keeps the exchange consistent. */
  lemma {:induction false} OnResultKeepsConsistent(x: Exchange, err: JsValue, payload: Object)
    requires Consistent(x)
    ensures Consistent(OnResult(x, err, payload))
  {
    var r := OnResult(x, err, payload);
    match ClassifyResult(x.pending, err, payload)
    case Delivered(key, to) =>
      var reply := Reply(to, Json(Field(payload, "RESPONSE")));
      forall h ensures RepliesTo(r.replies, h) == RepliesTo(x.replies, h) + (if to == h then [reply.body] else []) {
        RepliesToAppend(x.replies, reply, h);
      }
      forall k | k in r.pending ensures RepliesTo(r.replies, r.pending[k]) == [] {
        assert k != key && r.pending[k] == x.pending[k] != to;
      }
      forall h ensures |RepliesTo(r.replies, h)| <= 1 {
        if h == to {
          assert RepliesTo(x.replies, to) == [];
        }
      }
    case Ignored =>
    case UnknownKey(_) =>
    case KeyThrew =>
  }

  /** register(K) followed by resolve(K): the caller receives exactly the
      result, the entry is gone, and the rest of the table is as before. */
  lemma {:induction false} RegisterThenResolve(x: Exchange, res: Handle, body: Object, payload: Object)
    requires HandlePrompt(body).Accepted? && ResultKey(payload) == Some(HandlePrompt(body).key)
    ensures var r := OnResult(OnPrompt(x, res, body), Null, payload);
            && r.pending == x.pending - {HandlePrompt(body).key}
            && r.replies == x.replies + [Reply(res, Json(Field(payload, "RESPONSE")))]
            && r.sent == x.sent + [HandlePrompt(body).command]
  {
    var m := OnPrompt(x, res, body);
    assert ClassifyResult(m.pending, Null, payload).Delivered?;
    assert m.pending - {HandlePrompt(body).key} == x.pending - {HandlePrompt(body).key};
  }

  lemma RegisterStep(x: Exchange, res: Handle, body: Object)
    requires HandlePrompt(body).Accepted?
    ensures OnPrompt(x, res, body) ==
              x.(pending := x.pending[HandlePrompt(body).key := res], sent := x.sent + [HandlePrompt(body).command])
  {
  }

  lemma ResolveStep(x: Exchange, payload: Object, key: string)
    requires ResultKey(payload) == Some(key) && key in x.pending
    ensures OnResult(x, Null, payload) ==
              x.(pending := x.pending - {key}, replies := x.replies + [Reply(x.pending[key], Json(Field(payload, "RESPONSE")))])
  {
  }

  /** Two requests resolved out of order each receive only their own result. */
  lemma {:induction false} OutOfOrderResolution(x: Exchange, ha: Handle, hb: Handle, a: Object, b: Object, ra: Object, rb: Object)
    requires Fresh(x, ha) && Fresh(x, hb) && ha != hb
    requires HandlePrompt(a).Accepted? && HandlePrompt(b).Accepted?
    requires HandlePrompt(a).key != HandlePrompt(b).key
    requires ResultKey(ra) == Some(HandlePrompt(a).key) && ResultKey(rb) == Some(HandlePrompt(b).key)
    ensures var r := OnResult(OnResult(OnPrompt(OnPrompt(x, ha, a), hb, b), Null, rb), Null, ra);
            && RepliesTo(r.replies, ha) == [Json(Field(ra, "RESPONSE"))]
            && RepliesTo(r.replies, hb) == [Json(Field(rb, "RESPONSE"))]
            && r.pending == x.pending - {HandlePrompt(a).key, HandlePrompt(b).key}
  {
    var ka, kb := HandlePrompt(a).key, HandlePrompt(b).key;
    var va, vb := Json(Field(ra, "RESPONSE")), Json(Field(rb, "RESPONSE"));
    var x1 := OnPrompt(x, ha, a);
    RegisterStep(x, ha, a);
    var x2 := OnPrompt(x1, hb, b);
    RegisterStep(x1, hb, b);
    assert x2.replies == x.replies && x2.pending == x.pending[ka := ha][kb := hb];
    var x3 := OnResult(x2, Null, rb);
    ResolveStep(x2, rb, kb);
    assert x3.replies == x.replies + [Reply(hb, vb)] && x3.pending == x2.pending - {kb};
    var x4 := OnResult(x3, Null, ra);
    ResolveStep(x3, ra, ka);
    assert x4.replies == (x.replies + [Reply(hb, vb)]) + [Reply(ha, va)];
    assert x4.pending == x.pending - {ka, kb};
    RepliesToAppend(x.replies, Reply(hb, vb), ha);
    RepliesToAppend(x.replies, Reply(hb, vb), hb);
    RepliesToAppend(x.replies + [Reply(hb, vb)], Reply(ha, va), ha);
    RepliesToAppend(x.replies + [Reply(hb, vb)], Reply(ha, va), hb);
  }

  /** Two requests resolved in the order they were made each receive only
      their own result. */
  lemma {:induction false} InOrderResolution(x: Exchange, ha: Handle, hb: Handle, a: Object, b: Object, ra: Object, rb: Object)
    requires Fresh(x, ha) && Fresh(x, hb) && ha != hb
    requires HandlePrompt(a).Accepted? && HandlePrompt(b).Accepted?
    requires HandlePrompt(a).key != HandlePrompt(b).key
    requires ResultKey(ra) == Some(HandlePrompt(a).key) && ResultKey(rb) == Some(HandlePrompt(b).key)
    ensures var r := OnResult(OnResult(OnPrompt(OnPrompt(x, ha, a), hb, b), Null, ra), Null, rb);
            && RepliesTo(r.replies, ha) == [Json(Field(ra, "RESPONSE"))]
            && RepliesTo(r.replies, hb) == [Json(Field(rb, "RESPONSE"))]
            && r.pending == x.pending - {HandlePrompt(a).key, HandlePrompt(b).key}
  {
    var ka, kb := HandlePrompt(a).key, HandlePrompt(b).key;
    var va, vb := Json(Field(ra, "RESPONSE")), Json(Field(rb, "RESPONSE"));
    var x1 := OnPrompt(x, ha, a);
    RegisterStep(x, ha, a);
    var x2 := OnPrompt(x1, hb, b);
    RegisterStep(x1, hb, b);
    assert x2.replies == x.replies && x2.pending == x.pending[ka := ha][kb := hb];
    var x3 := OnResult(x2, Null, ra);
    ResolveStep(x2, ra, ka);
    assert x3.replies == x.replies + [Reply(ha, va)] && x3.pending == x2.pending - {ka};
    var x4 := OnResult(x3, Null, rb);
    ResolveStep(x3, rb, kb);
    assert x4.replies == (x.replies + [Reply(ha, va)]) + [Reply(hb, vb)];
    assert x4.pending == x.pending - {ka, kb};
    RepliesToAppend(x.replies, Reply(ha, va), ha);
    RepliesToAppend(x.replies, Reply(ha, va), hb);
    RepliesToAppend(x.replies + [Reply(ha, va)], Reply(hb, vb), ha);
    RepliesToAppend(x.replies + [Reply(ha, va)], Reply(hb, vb), hb);
  }

  /** A validated body whose id cannot be converted to a string leaves the
      exchange untouched: no entry, no command, no reply. */
  lemma UnconvertibleIdChangesNothing(x: Exchange, res: Handle, body: Object)
    requires !Falsy(Field(body, "requestId")) && !Falsy(Field(body, "prompt"))
    requires Field(body, "history").Arr? && MapHistory(Field(body, "history").items).Some?
    requires ToKey(Field(body, "requestId")).None?
    ensures HandlePrompt(body) == Threw
    ensures OnPrompt(x, res, body) == x
  {
  }

  /** The route does not check for a key already in flight: a second request
      with the same key takes over the entry, the first caller is never
      answered, and the result goes to the second. */
  lemma {:induction false} DuplicateKeyOrphansFirstCaller(x: Exchange, h1: Handle, h2: Handle, b1: Object, b2: Object, payload: Object)
    requires Fresh(x, h1) && Fresh(x, h2) && h1 != h2
    requires HandlePrompt(b1).Accepted? && HandlePrompt(b2).Accepted?
    requires Some(HandlePrompt(b1).key) == Some(HandlePrompt(b2).key) == ResultKey(payload)
    ensures var r := OnResult(OnPrompt(OnPrompt(x, h1, b1), h2, b2), Null, payload);
            && RepliesTo(r.replies, h1) == []
            && RepliesTo(r.replies, h2) == [Json(Field(payload, "RESPONSE"))]
            && h1 !in r.pending.Values
            && HandlePrompt(b1).key !in r.pending
  {
    var key := HandlePrompt(b1).key;
    var x2 := OnPrompt(OnPrompt(x, h1, b1), h2, b2);
    assert x2.pending[key] == h2;
    var r := OnResult(x2, Null, payload);
    RepliesToAppend(x.replies, Reply(h2, Json(Field(payload, "RESPONSE"))), h1);
    RepliesToAppend(x.replies, Reply(h2, Json(Field(payload, "RESPONSE"))), h2);
    forall k | k in r.pending ensures r.pending[k] != h1 {
      assert k != key && r.pending[k] == x.pending[k] && x.pending[k] in x.pending.Values;
    }
  }

  /** A result for a key never registered changes nothing, so a later
      registration of that key is unaffected. */
  lemma {:induction false} ResolveBeforeRegister(x: Exchange, res: Handle, body: Object, payload: Object)
    requires ResultKey(payload).Some? && ResultKey(payload).value !in x.pending
    ensures ClassifyResult(x.pending, Null, payload) == UnknownKey(ResultKey(payload).value)
    ensures OnPrompt(OnResult(x, Null, payload), res, body) == OnPrompt(x, res, body)
  {
  }
}
