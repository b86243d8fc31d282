/**
 * The webhook endpoint of the `includes/` plugin
 * (`includes/class-webhook-controller.php`): the GET verification
 * handshake and the POST that forwards a payload to its lead processor.
 * Its settings and lead processor classes are not part of this model: the
 * stored verify token is a parameter, and forwarding is reported, not
 * modelled.
 */
module FbLeadsWebhook {
  import opened PhpValues
  import opened Requests

  /** The decision `verify` takes on the three parameters it reads: the
      challenge is echoed with 200 when the mode is exactly 'subscribe' and
      the token is identical to the stored one; otherwise 403. */
  function Decide(mode: Value, token: Value, challenge: Value, stored: Value): (r: Response)
    ensures r.status == 200 <==> mode == Str("subscribe") && token == stored
    ensures r.status == 200 ==> r.body == challenge
    ensures r.status != 200 ==> r == Response(403, Null)
  {
    if mode == Str("subscribe") && token == stored then Response(200, challenge) else Response(403, Null)
  }

  /** No emptiness guard: with an empty stored token, an empty token in a
      'subscribe' request verifies. */
  lemma EmptyTokenAccepted(challenge: Value)
    ensures Decide(Str("subscribe"), Str(""), challenge, Str("")) == Response(200, challenge)
  {
  }

  /** `verify($request)` as written: it reads `hub.mode`, `hub.verify_token`
      and `hub.challenge`. */
  function VerifyAsWritten(raw: seq<(string, string)>, stored: Value): Response
  {
    Decide(Param(raw, "hub.mode"), Param(raw, "hub.verify_token"), Param(raw, "hub.challenge"), stored)
  }

  /** PHP never exposes a query parameter under a dotted name, so the
      handshake as written answers 403 to every request whose parameters
      come in the query string, as Facebook's handshake does. */
  lemma VerifyAsWrittenRejects(raw: seq<(string, string)>, stored: Value)
    ensures VerifyAsWritten(raw, stored) == Response(403, Null)
  {
    DottedParamAbsent(raw, "hub.mode");
  }

  /** `verify` reading the names PHP gives Facebook's parameters. */
  function Verify(raw: seq<(string, string)>, stored: Value): Response
  {
    Decide(Param(raw, "hub_mode"), Param(raw, "hub_verify_token"), Param(raw, "hub_challenge"), stored)
  }

  /** Facebook's handshake verifies exactly when its token is the stored one. */
  lemma HandshakeVerifies(token: string, challenge: string, stored: Value)
    ensures var raw := [("hub.mode", "subscribe"), ("hub.verify_token", token), ("hub.challenge", challenge)];
      Verify(raw, stored) == if stored == Str(token) then Response(200, Str(challenge)) else Response(403, Null)
  {
    HubParams("subscribe", token, challenge);
  }

  /** What `receive` does with the decoded JSON body: an empty one is
      answered 400 without processing; any other is forwarded to the
      processor and answered 200 when that returns. */
  datatype Receipt = Receipt(response: Response, forwarded: bool)

  function Receive(payload: Value): (r: Receipt)
    ensures r.forwarded <==> Truthy(payload)
    ensures r.response.status == (if Truthy(payload) then 200 else 400)
  {
    if Empty(payload) then Receipt(Response(400, Arr([(SKey("status"), Str("ignored"))])), false)
    else Receipt(Response(200, Arr([(SKey("status"), Str("ok"))])), true)
  }
}
