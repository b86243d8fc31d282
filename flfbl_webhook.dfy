/**
 * The webhook endpoint of the FluentCRM lead plugin
 * (`fluentcrm-facebook-leads/includes/class-webhook-controller.php`): the
 * GET verification handshake and the POST that hands a payload to the lead
 * processor.
 */
module FlfblWebhook {
  import opened Wrappers
  import opened PhpValues
  import opened Requests
  import opened CrmStore
  import opened WordPress
  import opened LeadProcessor
  import FlfblSettings

  /** `verify`: the challenge comes back with 200 when challenge and token
      are both non-empty and the token is identical to the stored one. */
  function Verify(challenge: Value, token: Value, stored: Value): (r: Response)
    ensures r.status == 200 <==> Truthy(challenge) && Truthy(token) && token == stored
    ensures r.status == 200 ==> r.body == challenge
    ensures r.status != 200 ==> r == Response(403, Str("Invalid token"))
  {
    if Truthy(challenge) && Truthy(token) && token == stored then Response(200, challenge)
    else Response(403, Str("Invalid token"))
  }

  /** `verify($request)` on a raw query, against `settings->get('verify_token')`. */
  function VerifyRequest(raw: seq<(string, string)>, all: seq<(Key, Value)>): Response
  {
    Verify(Param(raw, "hub_challenge"), Param(raw, "hub_verify_token"), Lookup(all, "verify_token", Null))
  }

  /** With no verify token configured nothing verifies. */
  lemma EmptyStoredNeverVerifies(challenge: Value, token: Value, stored: Value)
    requires Empty(stored)
    ensures Verify(challenge, token, stored) == Response(403, Str("Invalid token"))
  {
  }

  /** Facebook's handshake, sent as `hub.mode`, `hub.verify_token` and
      `hub.challenge`, reaches PHP with underscores and verifies when the
      token matches the stored one and both it and the challenge are
      non-empty. */
  lemma HandshakeVerifies(token: string, challenge: string, all: seq<(Key, Value)>)
    requires Lookup(all, "verify_token", Null) == Str(token)
    requires token != "" && token != "0" && challenge != "" && challenge != "0"
    ensures VerifyRequest([("hub.mode", "subscribe"), ("hub.verify_token", token), ("hub.challenge", challenge)], all) ==
      Response(200, Str(challenge))
  {
    HubParams("subscribe", token, challenge);
  }

  /** What `receive` answers, or that PHP throws (a non-array JSON payload
      fails the `array` type of `handle_webhook`, and an error inside the
      processor is not caught). */
  datatype Received = Reply(response: Response) | Failure

  const IgnoredReply := Response(400, Arr([(SKey("status"), Str("ignored"))]))
  const OkReply := Response(200, Arr([(SKey("status"), Str("ok"))]))

  /** `receive` given the decoded JSON body `payload`. */
  method Receive(store: Store, settings: FlfblSettings.Settings, san: Sanitizers,
                 fetch: (string, Option<string>) -> Value, payload: Value)
    returns (res: Received)
    requires store.Valid()
    modifies store
    ensures store.Valid()
    ensures Empty(payload) ==> res == Reply(IgnoredReply)
    ensures Truthy(payload) && !payload.Arr? ==> res == Failure
    ensures !(Truthy(payload) && payload.Arr?) ==> store.rows == old(store.rows) && store.meta == old(store.meta)
    ensures Truthy(payload) && payload.Arr? ==>
      var h := Handle(old(store.rows), settings.All(), san, fetch, payload.a);
      res == (if h == Processed(Threw) then Failure else Reply(OkReply)) &&
      (store.rows, store.meta) == HandleStore(old(store.rows), old(store.meta), settings.All(), san, fetch, payload.a)
  {
    if Empty(payload) {
      return Reply(IgnoredReply);
    }
    if !payload.Arr? {
      return Failure;
    }
    var h := HandleWebhook(store, settings, san, fetch, payload.a);
    if h == Processed(Threw) {
      return Failure;
    }
    return Reply(OkReply);
  }
}
