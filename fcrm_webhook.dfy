/**
 * The REST endpoint of the Facebook Leads for FluentCRM plugin
 * (`facebook-leads-fluentcrm/includes/Rest/WebhookController.php`): a POST
 * to `facebook-leads-fluentcrm/v1/webhook` is let in by a shared secret,
 * its JSON body is mapped to contact data and upserted into FluentCRM.
 */
module FcrmWebhook {
  import opened Wrappers
  import opened PhpValues
  import opened OrderedMap
  import opened WordPress
  import opened Requests
  import opened CrmStore
  import opened LeadMapper
  import opened FluentCrmService
  import FcrmSettings

  /** The secret the request offers: the `secret` parameter, or the
      `x-facebook-secret` header when the parameter is empty. */
  function Provided(param: Value, header: Value): string
  {
    var p := ToStr(param);
    if p == "" then ToStr(header) else p
  }

  /** `authorized($request)`, given the stored `webhook_secret`, the
      `secret` request parameter and the `x-facebook-secret` header (null
      when absent). */
  function Authorized(configured: Value, param: Value, header: Value): (r: bool)
    ensures r ==> ToStr(configured) != ""
    ensures ToStr(param) != "" ==> (r <==> ToStr(param) == ToStr(configured))
    ensures ToStr(param) == "" ==> (r <==> ToStr(header) != "" && ToStr(header) == ToStr(configured))
  {
    var secret := ToStr(configured);
    var provided := Provided(param, header);
    if secret == "" || provided == "" then false else provided == secret
  }

  /** What `handle` answers: a `WP_Error` with its code, message and HTTP
      status, a `WP_REST_Response`, or an exception it does not catch. */
  datatype Handled = WpError(code: string, message: string, status: int) | Reply(response: Response) | Crashed

  const Unauthorized := WpError("unauthorized", "Unauthorized", 401)
  const InvalidPayload := WpError("invalid_payload", "Invalid payload", 400)
  const ProcessingError := WpError("processing_error", "Processing failed", 500)

  /** The 200 response for a saved contact. */
  function ContactReply(c: Subscriber): Handled
  {
    Reply(Response(200, Arr([(SKey("id"), Int(c.id)), (SKey("email"), Column(c, "email"))])))
  }

  /** `handle($request)` on the contact rows, with `all` the plugin's
      settings, `payload` the decoded JSON body (null when it is not JSON)
      and `available` whether FluentCRM is installed: the answer and the
      rows after it. Mapping runs outside the `try`, so a mapping error is
      not caught; the upsert, and the array type of its list and tag
      parameters, are. */
  function HandleOf(rows: seq<Subscriber>, all: seq<(Key, Value)>, san: Sanitizers, available: bool,
                    param: Value, header: Value, payload: Value): (Handled, seq<Subscriber>)
  {
    if !Authorized(Lookup(all, "webhook_secret", Str("")), param, header) then (Unauthorized, rows)
    else if !payload.Arr? then (InvalidPayload, rows)
    else ProcessOf(rows, all, san, available, payload.a)
  }

  /** `handle` past its two checks: the fields are normalized and mapped,
      then saved. */
  function ProcessOf(rows: seq<Subscriber>, all: seq<(Key, Value)>, san: Sanitizers, available: bool,
                     payload: seq<(Key, Value)>): (Handled, seq<Subscriber>)
  {
    match MapOf(san, NormalizeOf(payload), Lookup(all, "field_mappings", Arr([])))
    case None => (Crashed, rows)
    case Some(data) => SaveOf(rows, san, available, data, Lookup(all, "default_lists", Arr([])), Lookup(all, "default_tags", Arr([])))
  }

  /** The `try` block of `handle`: the upsert of the mapped data, with the
      configured lists and tags, which must be arrays. */
  function SaveOf(rows: seq<Subscriber>, san: Sanitizers, available: bool, data: seq<(Key, Value)>,
                  lists: Value, tags: Value): (Handled, seq<Subscriber>)
  {
    if !lists.Arr? || !tags.Arr? then (ProcessingError, rows)
    else
      var u := UpsertOf(rows, san, available, data, lists.a, tags.a);
      match u.0
      case Failed(_) => (ProcessingError, u.1)
      case Upserted(i) => (ContactReply(u.1[i]), u.1)
  }

  method Handle(store: Store, settings: FcrmSettings.Settings, san: Sanitizers, available: bool,
                param: Value, header: Value, payload: Value)
    returns (res: Handled)
    requires store.Valid()
    modifies store
    ensures store.Valid()
    ensures (res, store.rows) == HandleOf(old(store.rows), settings.GetSettings(), san, available, param, header, payload)
    ensures store.meta == old(store.meta)
  {
    if !Authorized(settings.Get("webhook_secret", Str("")), param, header) {
      return Unauthorized;
    }
    if !payload.Arr? {
      return InvalidPayload;
    }
    res := Process(store, settings, san, available, payload.a);
  }

  /** `handle` past its two checks. */
  method Process(store: Store, settings: FcrmSettings.Settings, san: Sanitizers, available: bool,
                 payload: seq<(Key, Value)>)
    returns (res: Handled)
    requires store.Valid()
    modifies store
    ensures store.Valid()
    ensures (res, store.rows) == ProcessOf(old(store.rows), settings.GetSettings(), san, available, payload)
    ensures store.meta == old(store.meta)
  {
    var mapped := Map(settings, san, payload);
    if mapped.None? {
      return Crashed;
    }
    var lists := settings.Get("default_lists", Arr([]));
    var tags := settings.Get("default_tags", Arr([]));
    res := Save(store, san, available, mapped.value, lists, tags);
  }

  /** The `try` block of `handle` on the contact rows. */
  method Save(store: Store, san: Sanitizers, available: bool, data: seq<(Key, Value)>, lists: Value, tags: Value)
    returns (res: Handled)
    requires store.Valid()
    modifies store
    ensures store.Valid()
    ensures (res, store.rows) == SaveOf(old(store.rows), san, available, data, lists, tags)
    ensures store.meta == old(store.meta)
  {
    if !lists.Arr? || !tags.Arr? {
      return ProcessingError;
    }
    ghost var u := UpsertOf(store.rows, san, available, data, lists.a, tags.a);
    var contact := UpsertContact(store, san, available, data, lists.a, tags.a);
    assert (contact, store.rows) == u;
    if contact.Failed? {
      return ProcessingError;
    }
    return ContactReply(store.rows[contact.row]);
  }

  // ------------------------------------------------------------ properties

  /** Only the `secret` parameter counts once it is non-empty: the header
      is then never read. */
  lemma ParamWins(configured: Value, param: Value, h1: Value, h2: Value)
    requires ToStr(param) != ""
    ensures Authorized(configured, param, h1) == Authorized(configured, param, h2)
  {
  }

  /** The status of every answer, and that only a reply that reached the
      upsert can have changed the rows: a request that fails the secret
      gets 401 whatever its body, a non-array body gets 400. */
  lemma HandleStatus(rows: seq<Subscriber>, all: seq<(Key, Value)>, san: Sanitizers, available: bool,
                     param: Value, header: Value, payload: Value)
    ensures var h := HandleOf(rows, all, san, available, param, header, payload);
      var authorized := Authorized(Lookup(all, "webhook_secret", Str("")), param, header);
      (h.0 == Unauthorized <==> !authorized) &&
      (h.0 == InvalidPayload <==> authorized && !payload.Arr?) &&
      (h.0.Reply? ==> h.0.response.status == 200) &&
      (!h.0.Reply? ==> h.1 == rows)
  {
    var h := HandleOf(rows, all, san, available, param, header, payload);
    if Authorized(Lookup(all, "webhook_secret", Str("")), param, header) && payload.Arr? {
      var m := MapOf(san, NormalizeOf(payload.a), Lookup(all, "field_mappings", Arr([])));
      if m.Some? {
        var lists := Lookup(all, "default_lists", Arr([]));
        var tags := Lookup(all, "default_tags", Arr([]));
        if lists.Arr? && tags.Arr? {
          UpsertFailures(rows, san, available, m.value, lists.a, tags.a);
        }
      }
    }
  }

  /** A 200 answer names the saved contact and its sanitized email, that of
      the mapped data; no contact is saved without a usable email. */
  lemma HandleSuccess(rows: seq<Subscriber>, all: seq<(Key, Value)>, san: Sanitizers, available: bool,
                      param: Value, header: Value, payload: Value)
    requires HandleOf(rows, all, san, available, param, header, payload).0.Reply?
    ensures payload.Arr? && MapOf(san, NormalizeOf(payload.a), Lookup(all, "field_mappings", Arr([]))).Some?
    ensures var data := MapOf(san, NormalizeOf(payload.a), Lookup(all, "field_mappings", Arr([]))).value;
      var h := HandleOf(rows, all, san, available, param, header, payload);
      available && EmailOf(san, data) != "" &&
      exists i :: 0 <= i < |h.1| && h.0 == ContactReply(h.1[i]) && Column(h.1[i], "email") == Str(EmailOf(san, data))
  {
    var fields := NormalizeOf(payload.a);
    var data := MapOf(san, fields, Lookup(all, "field_mappings", Arr([]))).value;
    MapDistinct(san, fields, Lookup(all, "field_mappings", Arr([])));
    var lists := Lookup(all, "default_lists", Arr([])).a;
    var tags := Lookup(all, "default_tags", Arr([])).a;
    var u := UpsertOf(rows, san, available, data, lists, tags);
    UpsertFailures(rows, san, available, data, lists, tags);
    UpsertStoresEmail(rows, san, available, data, lists, tags);
    assert HandleOf(rows, all, san, available, param, header, payload) == (ContactReply(u.1[u.0.row]), u.1);
  }
}
