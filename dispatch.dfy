/**
 * The command dispatcher (`_send_command` in chrome.py:56-89 and
 * lib/chrome.py:55-88, `_sendCommand` in lib/chrome.js:36-51). The socket is
 * abstracted as the connected end of the channel: the frames sent so far and
 * the replies the agent will give, one per command, in order.
 */
module Dispatch {
  import opened Wrappers
  import opened Json

  /** What the agent does with one command. */
  datatype Reply =
    | Answer(doc: Json)  // a frame holding a JSON document
    | Garbled            // a frame that is not JSON
    | NoFrame            // the request goes out, but the receive yields nothing
    | Dropped            // the send fails: the request never reaches the agent

  /**
   * The connected end of the channel. Once `pending` is empty the agent has
   * closed the connection and every further send fails.
   */
  datatype Channel = Channel(sent: seq<Json>, pending: seq<Reply>)

  /** The wire value the agent sends for a JavaScript `undefined`. */
  const UNDEFINED: string := "<undefined>"

  // ---------------------------------------------------------------------------
  // Python (chrome.py and lib/chrome.py)

  /** The request record: `msg` always, `payload` exactly when one is given. */
  function PyRequest(msg: string, payload: Option<string>): (req: Json)
    ensures req.JObject?
    ensures Lookup(req.members, "msg") == Some(JString(msg))
    ensures Lookup(req.members, "payload") == if payload.Some? then Some(JString(payload.value)) else None
    ensures |req.members| == if payload.Some? then 2 else 1
  {
    match payload
    case None => JObject([("msg", JString(msg))])
    case Some(p) => JObject([("msg", JString(msg)), ("payload", JString(p))])
  }

  /**
   * The value a reply decodes to: the `result` member of an object, except
   * that the "<undefined>" sentinel and JSON null give None. A frame that is
   * not an object, has no `result`, is not JSON, or a failed receive give
   * None as well: the exception is logged and swallowed.
   */
  function PyDecode(reply: Reply): (r: Option<Json>)
    ensures r.Some? <==>
      && reply.Answer? && reply.doc.JObject?
      && Lookup(reply.doc.members, "result").Some?
      && Lookup(reply.doc.members, "result").value !in {JNull, JString(UNDEFINED)}
    ensures r.Some? ==> r == Lookup(reply.doc.members, "result")
  {
    match reply
    case Answer(JObject(members)) =>
      (match Lookup(members, "result")
       case Some(v) => if v == JString(UNDEFINED) || v == JNull then None else Some(v)
       case None => None)
    case _ => None
  }

  /** The value the `j`-th command from now yields (None without a client or after the channel closed). */
  function ResultAt(client: Option<Channel>, j: nat): Option<Json>
  {
    match client
    case None => None
    case Some(ch) => if j < |ch.pending| then PyDecode(ch.pending[j]) else None
  }

  /** Whether the next request reaches the agent: the channel is open and the send succeeds. */
  predicate Delivered(ch: Channel)
  {
    |ch.pending| > 0 && !ch.pending[0].Dropped?
  }

  datatype Exchange = Exchange(client: Option<Channel>, result: Option<Json>)

  /** One round trip of `_send_command(msg, payload)`. */
  function PyCall(client: Option<Channel>, msg: string, payload: Option<string>): (x: Exchange)
    ensures x.result == ResultAt(client, 0)
    ensures forall j: nat :: ResultAt(x.client, j) == ResultAt(client, j + 1)
    ensures client.None? ==> x.client.None?
    ensures client.Some? ==>
      x.client.Some? &&
      x.client.value.sent == client.value.sent + if Delivered(client.value) then [PyRequest(msg, payload)] else []
  {
    match client
    case None => Exchange(None, None)
    case Some(ch) =>
      if |ch.pending| == 0 then Exchange(client, None)
      else
        var sent := if ch.pending[0].Dropped? then ch.sent else ch.sent + [PyRequest(msg, payload)];
        Exchange(Some(Channel(sent, ch.pending[1..])), PyDecode(ch.pending[0]))
  }

  // ---------------------------------------------------------------------------
  // Node (lib/chrome.js)

  /** A JavaScript value read from a reply: `undefined`, or a JSON value (`Value(JNull)` is null). */
  datatype JsVal = Undefined | Value(v: Json)

  /** `JSON.stringify({ msg, payload })`: both members always, `payload` null when omitted. */
  function JsRequest(msg: string, payload: Option<string>): (req: Json)
    ensures req.JObject? && |req.members| == 2
    ensures Lookup(req.members, "msg") == Some(JString(msg))
    ensures Lookup(req.members, "payload") == Some(if payload.Some? then JString(payload.value) else JNull)
  {
    JObject([("msg", JString(msg)), ("payload", if payload.Some? then JString(payload.value) else JNull)])
  }

  /**
   * How the promise of one exchange settles. `JSON.parse(data).result`
   * resolves `undefined` for a document without a `result`, and null for the
   * sentinel; reading `.result` of null and parsing a non-JSON frame throw
   * inside the message listener, so the promise never settles.
   */
  function JsDecode(reply: Reply): (p: Promise<JsVal>)
    ensures reply.Dropped? <==> p.Rejected?
    ensures p == Resolved(Value(JNull)) <==>
      reply.Answer? && reply.doc.JObject? && Lookup(reply.doc.members, "result") in {Some(JNull), Some(JString(UNDEFINED))}
  {
    match reply
    case Answer(JNull) => Pending
    case Answer(JObject(members)) =>
      (match Lookup(members, "result")
       case None => Resolved(Undefined)
       case Some(v) => if v == JString(UNDEFINED) then Resolved(Value(JNull)) else Resolved(Value(v)))
    case Answer(_) => Resolved(Undefined)
    case Garbled => Pending
    case NoFrame => Pending
    case Dropped => Rejected(SendFailed)
  }

  /** How the `j`-th command from now settles, given the replies still to come. */
  function ReplyOutcome(pending: seq<Reply>, j: nat): Promise<JsVal>
  {
    if |pending| == 0 then Rejected(SendFailed)
    else if j == 0 then JsDecode(pending[0])
    else ReplyOutcome(pending[1..], j - 1)
  }

  /** How the `j`-th command from now settles. */
  function OutcomeAt(client: Option<Channel>, j: nat): Promise<JsVal>
  {
    match client
    case None => Rejected(ClientNotConnected)
    case Some(ch) => ReplyOutcome(ch.pending, j)
  }

  datatype JsExchange = JsExchange(client: Option<Channel>, outcome: Promise<JsVal>)

  /** One round trip of `_sendCommand(msg, payload)`. */
  function JsCall(client: Option<Channel>, msg: string, payload: Option<string>): (x: JsExchange)
    ensures x.outcome == OutcomeAt(client, 0)
    ensures client.None? ==> x.client.None? && x.outcome == Rejected(ClientNotConnected)
    ensures client.Some? && |client.value.pending| > 0 ==> forall j: nat :: OutcomeAt(x.client, j) == OutcomeAt(client, j + 1)
    ensures client.Some? ==>
      x.client.Some? &&
      x.client.value.sent == client.value.sent + if OutcomeAt(client, 0).Rejected? then [] else [JsRequest(msg, payload)]
  {
    match client
    case None => JsExchange(None, Rejected(ClientNotConnected))
    case Some(ch) =>
      if |ch.pending| == 0 then JsExchange(client, Rejected(SendFailed))
      else
        var sent := if ch.pending[0].Dropped? then ch.sent else ch.sent + [JsRequest(msg, payload)];
        JsExchange(Some(Channel(sent, ch.pending[1..])), JsDecode(ch.pending[0]))
  }

  /**
   * Both dispatchers read the same `result` member: where the Python one
   * gives None the Node one resolves null.
   */
  lemma DecodersAgree(reply: Reply)
    requires reply.Answer? && reply.doc.JObject? && Lookup(reply.doc.members, "result").Some?
    ensures JsDecode(reply) == Resolved(Value(match PyDecode(reply) case Some(v) => v case None => JNull))
  {
  }
}
