/**
  The webhook routes: the two inbound endpoints (`/ghl`, signed with a shared secret,
  and `/incoming/:provider/:token`, authenticated by a per-user token), the three event
  handlers they dispatch to, and the create, update and delete routes for webhook
  configurations.

  Each handler is a method that performs its storage calls in the source's order. Its
  contract ties the new tables to a pure function of the old ones (`ContactEventEffect`,
  `DeletionEffect`, `EmailEffect`, `ApplyEvent`); the lemmas below state what those
  functions promise: idempotent replay, one contact per provider id, an unconditional
  status overwrite, tags only where the delivery, email and contact all exist.
*/
module WebhookRoutes {
  import opened Wrappers
  import opened Js
  import opened Signing
  import opened Storage
  import opened Events

  /** The HTTP status codes the routes answer with. */
  const Ok200: int := 200
  const Created201: int := 201
  const BadRequest400: int := 400
  const Unauthorized401: int := 401
  const NotFound404: int := 404

  /** The user every dynamic webhook token is checked against. */
  const DefaultUserId: nat := 1

  // ---------------------------------------------------------------------------
  // Effects of the three handlers, as functions of the tables

  /** The state the inbound handlers change: contacts and deliveries. */
  datatype Tables = Tables(contacts: ContactTable, deliveries: map<string, Delivery>)

  function ContactEventEffect(t: ContactTable, d: EventData): (r: ContactTable)
    requires t.Valid()
    ensures r.Valid()
  {
    match ProjectContact(d)
    case None => t
    case Some(rec) => Upsert(t, rec)
  }

  /** The deletion handler's effect: no contact carries the id afterwards, and every other contact stays. */
  function DeletionEffect(t: ContactTable, d: EventData): (r: ContactTable)
    requires t.Valid()
    ensures r.Valid()
    ensures !Truthy(d.id) ==> r == t
    ensures Truthy(d.id) ==> !r.HasGhlId(d.id.value)
    ensures Truthy(d.id) ==> forall id :: id in t.rows && t.rows[id].ghlId == d.id ==> id !in r.rows
    ensures forall id :: id in t.rows && t.rows[id].ghlId != d.id ==> id in r.rows && r.rows[id] == t.rows[id]
  {
    if Truthy(d.id) then DeleteByGhlId(t, d.id.value) else t
  }

  /** The status an email event sets, if it sets one: it needs a message id and a known suffix. */
  function EmailEventStatus(event: string, d: EventData): (r: Option<DeliveryStatus>)
    ensures r.Some? <==> Truthy(d.messageId) && StatusForEvent(event).Some?
    ensures r.Some? ==> StatusForEvent(event) == r
  {
    if Truthy(d.messageId) then StatusForEvent(event) else None
  }

  /**
    The email handler's effect: the delivery's status is overwritten, and when the delivery,
    its email and its contact all exist the contact gains the derived tags.
  */
  function EmailEffect(st: Tables, emails: map<nat, Email>, event: string, d: EventData): (r: Tables)
    requires st.contacts.Valid()
    ensures r.contacts.Valid()
    ensures EmailEventStatus(event, d).None? ==> r == st
    ensures EmailEventStatus(event, d).Some? ==>
      r.deliveries == SetStatus(st.deliveries, d.messageId.value, EmailEventStatus(event, d).value)
    ensures EmailEventStatus(event, d).Some? && d.messageId.value in st.deliveries
            && st.deliveries[d.messageId.value].emailId in emails ==>
      r.contacts == AddTags(st.contacts, st.deliveries[d.messageId.value].contactId,
                            DerivedTags(EmailEventStatus(event, d).value, emails[st.deliveries[d.messageId.value].emailId].emailType))
    ensures !(EmailEventStatus(event, d).Some? && d.messageId.value in st.deliveries
              && st.deliveries[d.messageId.value].emailId in emails) ==>
      r.contacts == st.contacts
  {
    match EmailEventStatus(event, d)
    case None => st
    case Some(s) =>
      var mid := d.messageId.value;
      var deliveries := SetStatus(st.deliveries, mid, s);
      if mid in st.deliveries && st.deliveries[mid].emailId in emails then
        var delivery := st.deliveries[mid];
        Tables(AddTags(st.contacts, delivery.contactId, DerivedTags(s, emails[delivery.emailId].emailType)), deliveries)
      else
        Tables(st.contacts, deliveries)
  }

  /** Dispatch of a well-formed event to its handler; unrecognised events change nothing. */
  function ApplyEvent(st: Tables, emails: map<nat, Email>, event: string, d: EventData): (r: Tables)
    requires st.contacts.Valid()
    ensures r.contacts.Valid()
    ensures RouteFor(event) == Unhandled ==> r == st
    ensures RouteFor(event) != EmailEvent ==> r.deliveries == st.deliveries
  {
    match RouteFor(event)
    case ContactUpsert => st.(contacts := ContactEventEffect(st.contacts, d))
    case ContactDeletion => st.(contacts := DeletionEffect(st.contacts, d))
    case EmailEvent => EmailEffect(st, emails, event, d)
    case Unhandled => st
  }

  // Error-log entries the handlers write: they catch and log, and never rethrow

  const MissingContactId: string := "Missing contact ID in webhook payload"
  const MissingMessageId: string := "Missing message ID in webhook payload"

  /**
    What a handler logs for one event: at most one entry, and none exactly when the event
    is not handled or carries what its handler needs.
  */
  function EventErrors(event: string, d: EventData): (r: seq<ErrorEntry>)
    ensures |r| <= 1
    ensures r == [] <==>
      && (RouteFor(event) == ContactUpsert || RouteFor(event) == ContactDeletion ==> Truthy(d.id))
      && (RouteFor(event) == EmailEvent ==> Truthy(d.messageId) && StatusForEvent(event).Some?)
  {
    match RouteFor(event)
    case ContactUpsert =>
      if Truthy(d.id) then [] else [ErrorEntry("GHL Contact Webhook Handler", MissingContactId)]
    case ContactDeletion =>
      if Truthy(d.id) then [] else [ErrorEntry("GHL Contact Deletion Handler", MissingContactId)]
    case EmailEvent =>
      if !Truthy(d.messageId) then [ErrorEntry("GHL Email Event Handler", MissingMessageId)]
      else if StatusForEvent(event).None? then [ErrorEntry("GHL Email Event Handler", "Unsupported email event: " + event)]
      else []
    case Unhandled => []
  }

  // ---------------------------------------------------------------------------
  // Properties of the effects

  /** A contact event applied twice leaves the contacts as applying it once. */
  lemma ContactEventIdempotent(t: ContactTable, d: EventData)
    requires t.Valid()
    ensures ContactEventEffect(ContactEventEffect(t, d), d) == ContactEventEffect(t, d)
  {
    if ProjectContact(d).Some? {
      UpsertIdempotent(t, ProjectContact(d).value);
    }
  }

  /** After a contact event with an id, exactly one contact carries that id and shows the projection. */
  lemma ContactEventSingleContact(t: ContactTable, d: EventData)
    requires t.Valid() && Truthy(d.id)
    ensures var r := ContactEventEffect(t, d);
      exists id :: id in r.rows && r.rows[id].ghlId == d.id && Reflects(r.rows[id], ProjectContact(d).value)
        && forall j :: j in r.rows && r.rows[j].ghlId == d.id ==> j == id
  {
    var r := ContactEventEffect(t, d);
    var id :| id in r.rows && Reflects(r.rows[id], ProjectContact(d).value);
    assert r.rows[id].ghlId == d.id;
  }

  /** A deletion applied twice leaves the contacts as applying it once. */
  lemma DeletionIdempotent(t: ContactTable, d: EventData)
    requires t.Valid()
    ensures DeletionEffect(DeletionEffect(t, d), d) == DeletionEffect(t, d)
  {
    if Truthy(d.id) {
      DeleteIdempotent(t, d.id.value);
    }
  }

  /** Deleting a contact nobody has changes nothing (and raises nothing: the handler logs only a missing id). */
  lemma DeletionOfUnknownContact(t: ContactTable, d: EventData)
    requires t.Valid() && Truthy(d.id) && !t.HasGhlId(d.id.value)
    ensures DeletionEffect(t, d) == t
    ensures EventErrors("contact.deleted", d) == []
  {
    DeleteAbsentIsNoOp(t, d.id.value);
  }

  /** An email event replayed leaves deliveries and tags as a single delivery of it. */
  lemma EmailEventIdempotent(st: Tables, emails: map<nat, Email>, event: string, d: EventData)
    requires st.contacts.Valid()
    ensures EmailEffect(EmailEffect(st, emails, event, d), emails, event, d) == EmailEffect(st, emails, event, d)
  {
    var st1 := EmailEffect(st, emails, event, d);
    if s :| EmailEventStatus(event, d) == Some(s) {
      var mid := d.messageId.value;
      if mid in st.deliveries && st.deliveries[mid].emailId in emails {
        var delivery := st.deliveries[mid];
        var tags := DerivedTags(s, emails[delivery.emailId].emailType);
        assert st1.deliveries[mid].emailId == delivery.emailId && st1.deliveries[mid].contactId == delivery.contactId;
        AddTagsTwice(st.contacts, delivery.contactId, tags, tags);
        assert tags + tags == tags;
        assert SetStatus(st1.deliveries, mid, s) == st1.deliveries;
      } else {
        assert SetStatus(st1.deliveries, mid, s) == st1.deliveries;
      }
    }
  }

  /**
    The status is set whatever it was before: there is no progression guard, so a late
    `email.delivered` overwrites `CLICKED`.
  */
  lemma EmailStatusOverwritesUnconditionally(st: Tables, emails: map<nat, Email>, event: string, d: EventData)
    requires st.contacts.Valid()
    requires EmailEventStatus(event, d).Some? && d.messageId.value in st.deliveries
    ensures var r := EmailEffect(st, emails, event, d);
      r.deliveries[d.messageId.value].status == EmailEventStatus(event, d).value
  {
  }

  /** The contact gains tags only when the delivery, its email and the contact all exist, and only for opens and clicks. */
  lemma EmailTagsNeedDeliveryEmailAndContact(st: Tables, emails: map<nat, Email>, event: string, d: EventData)
    requires st.contacts.Valid()
    ensures var r := EmailEffect(st, emails, event, d);
      r.contacts != st.contacts ==>
        && EmailEventStatus(event, d).Some?
        && (EmailEventStatus(event, d).value == Opened || EmailEventStatus(event, d).value == Clicked)
        && d.messageId.value in st.deliveries
        && st.deliveries[d.messageId.value].emailId in emails
        && st.deliveries[d.messageId.value].contactId in st.contacts.rows
  {
    var r := EmailEffect(st, emails, event, d);
    if s :| EmailEventStatus(event, d) == Some(s) {
      var mid := d.messageId.value;
      if mid in st.deliveries && st.deliveries[mid].emailId in emails {
        var delivery := st.deliveries[mid];
        var tags := DerivedTags(s, emails[delivery.emailId].emailType);
        if s != Opened && s != Clicked {
          AddNoTags(st.contacts, delivery.contactId);
        }
      }
    }
  }

  /** Every dispatched event is idempotent on contacts and deliveries. */
  lemma ApplyEventIdempotent(st: Tables, emails: map<nat, Email>, event: string, d: EventData)
    requires st.contacts.Valid()
    ensures ApplyEvent(ApplyEvent(st, emails, event, d), emails, event, d) == ApplyEvent(st, emails, event, d)
  {
    match RouteFor(event)
    case ContactUpsert => ContactEventIdempotent(st.contacts, d);
    case ContactDeletion => DeletionIdempotent(st.contacts, d);
    case EmailEvent => EmailEventIdempotent(st, emails, event, d);
    case Unhandled =>
  }

  // ---------------------------------------------------------------------------
  // The handlers

  /** `handleContactEvent`: upsert the projected contact, or log a missing id. */
  method HandleContactEvent(store: Store, event: string, d: EventData)
    requires store.Valid()
    modifies store`contacts, store`errorLog
    ensures store.Valid()
    ensures store.contacts == ContactEventEffect(old(store.contacts), d)
    ensures !Truthy(d.id) ==> store.errorLog == old(store.errorLog) + [ErrorEntry("GHL Contact Webhook Handler", MissingContactId)]
    ensures Truthy(d.id) ==> store.errorLog == old(store.errorLog)
  {
    var rec := ProjectContact(d);
    if rec.None? {
      store.LogError("GHL Contact Webhook Handler", MissingContactId);
      return;
    }
    store.UpsertContactByGhlId(rec.value);
  }

  /** `handleContactDeletion`: delete the contact carrying the id, if any; never an error for an unknown id. */
  method HandleContactDeletion(store: Store, d: EventData)
    requires store.Valid()
    modifies store`contacts, store`errorLog
    ensures store.Valid()
    ensures store.contacts == DeletionEffect(old(store.contacts), d)
    ensures !Truthy(d.id) ==> store.errorLog == old(store.errorLog) + [ErrorEntry("GHL Contact Deletion Handler", MissingContactId)]
    ensures Truthy(d.id) ==> store.errorLog == old(store.errorLog)
  {
    if !Truthy(d.id) {
      store.LogError("GHL Contact Deletion Handler", MissingContactId);
      return;
    }
    var g := d.id.value;
    var found := store.GetContactByGhlId(g);
    if found.Some? {
      ghost var before := store.contacts;
      store.DeleteContact(found.value);
      assert store.contacts.rows == DeleteByGhlId(before, g).rows;
    }
  }

  /** `handleEmailEvent`: overwrite the delivery status, then add the derived tags one call at a time. */
  method HandleEmailEvent(store: Store, event: string, d: EventData)
    requires store.Valid()
    modifies store`contacts, store`deliveries, store`errorLog
    ensures store.Valid()
    ensures Tables(store.contacts, store.deliveries) == EmailEffect(Tables(old(store.contacts), old(store.deliveries)), store.emails, event, d)
    ensures StartsWith(event, EmailPrefix) ==> store.errorLog == old(store.errorLog) + EventErrors(event, d)
  {
    if !Truthy(d.messageId) {
      store.LogError("GHL Email Event Handler", MissingMessageId);
      return;
    }
    var mid := d.messageId.value;
    var status := StatusForEvent(event);
    if status.None? {
      store.LogError("GHL Email Event Handler", "Unsupported email event: " + event);
      return;
    }
    var s := status.value;
    var delivery := store.UpdateEmailDeliveryByGhlMessageId(mid, s);
    if delivery.Some? && !(s == Opened || s == Clicked) {
      AddNoTags(store.contacts, delivery.value.contactId);
    }
    if delivery.Some? && (s == Opened || s == Clicked) {
      var emailId := delivery.value.emailId;
      if emailId in store.emails {
        var email := store.emails[emailId];
        var contactId := delivery.value.contactId;
        if contactId in store.contacts.rows {
          TagContact(store, contactId, s, email.emailType);
        }
      }
    }
  }

  /** The `addTagToContact` calls for one open or click, in the handler's order. */
  method TagContact(store: Store, contactId: nat, s: DeliveryStatus, emailType: string)
    requires store.Valid()
    modifies store`contacts
    ensures store.Valid()
    ensures store.contacts == AddTags(old(store.contacts), contactId, DerivedTags(s, emailType))
  {
    ghost var before := store.contacts;
    if s == Opened {
      store.AddTagToContact(contactId, "opened_email");
      if emailType == PriorityEmailType {
        store.AddTagToContact(contactId, "opened_priority_email");
        AddTagsTwice(before, contactId, {"opened_email"}, {"opened_priority_email"});
        assert DerivedTags(s, emailType) == {"opened_email"} + {"opened_priority_email"};
      } else {
        assert DerivedTags(s, emailType) == {"opened_email"};
      }
    } else if s == Clicked {
      store.AddTagToContact(contactId, "clicked_email");
      store.AddTagToContact(contactId, "high_intent");
      AddTagsTwice(before, contactId, {"clicked_email"}, {"high_intent"});
      if emailType == PriorityEmailType {
        store.AddTagToContact(contactId, "clicked_priority_email");
        AddTagsTwice(before, contactId, {"clicked_email"} + {"high_intent"}, {"clicked_priority_email"});
        assert DerivedTags(s, emailType) == {"clicked_email"} + {"high_intent"} + {"clicked_priority_email"};
      } else {
        assert DerivedTags(s, emailType) == {"clicked_email"} + {"high_intent"};
      }
    } else {
      AddNoTags(before, contactId);
    }
  }

  /** The if-chain both inbound routes run on a well-formed payload. */
  method Dispatch(store: Store, event: string, d: EventData)
    requires store.Valid()
    modifies store`contacts, store`deliveries, store`errorLog
    ensures store.Valid()
    ensures Tables(store.contacts, store.deliveries) == ApplyEvent(Tables(old(store.contacts), old(store.deliveries)), store.emails, event, d)
    ensures store.errorLog == old(store.errorLog) + EventErrors(event, d)
  {
    var route := RouteFor(event);
    if route == ContactUpsert {
      HandleContactEvent(store, event, d);
    } else if route == ContactDeletion {
      HandleContactDeletion(store, d);
    } else if route == EmailEvent {
      HandleEmailEvent(store, event, d);
    }
  }

  // ---------------------------------------------------------------------------
  // The inbound routes

  /**
    `POST /ghl`: 401 unless the signature check admits the request, 400 for a payload
    without `event` or `data`, otherwise the event is dispatched and the answer is 200,
    whatever the handler did. `rawBody` is the serialised request body the signature covers.
  */
  method HandleGhlWebhook(store: Store, mac: Mac, secret: Option<string>, signature: Option<string>,
                          payload: WebhookPayload, rawBody: string) returns (status: int)
    requires store.Valid()
    modifies store`contacts, store`deliveries, store`errorLog
    ensures store.Valid()
    ensures var check := VerifyGhlSignature(mac, secret, signature, rawBody);
      && (status == Unauthorized401 <==> !check.Admits())
      && (status == BadRequest400 <==> check.Admits() && !WellFormed(payload))
      && (status == Ok200 <==> check.Admits() && WellFormed(payload))
    ensures status != Ok200 ==>
      store.contacts == old(store.contacts) && store.deliveries == old(store.deliveries) && store.errorLog == old(store.errorLog)
    ensures status == Ok200 ==>
      && Tables(store.contacts, store.deliveries)
           == ApplyEvent(Tables(old(store.contacts), old(store.deliveries)), store.emails, payload.event.value, payload.data.value)
      && store.errorLog == old(store.errorLog) + EventErrors(payload.event.value, payload.data.value)
  {
    var check := VerifyGhlSignature(mac, secret, signature, rawBody);
    if !check.Admits() {
      return Unauthorized401;
    }
    if !WellFormed(payload) {
      return BadRequest400;
    }
    Dispatch(store, payload.event.value, payload.data.value);
    status := Ok200;
  }

  /** The message of the RangeError `timingSafeEqual` throws for buffers of different lengths. */
  const LengthMismatchMessage: string := "Input buffers must have the same byte length"

  /** What `/incoming` dispatches: only the `gohighlevel` provider with a well-formed payload and a known event. */
  predicate IncomingDispatches(provider: string, payload: WebhookPayload) {
    provider == "gohighlevel" && WellFormed(payload) && RouteFor(payload.event.value) != Unhandled
  }

  const InvalidPayloadMessage: string := "Failed to process webhook - invalid payload structure"

  /**
    The provider switch of `/incoming` once the token is accepted: `gohighlevel` events go
    to the handlers, `openai` is accepted and ignored, any other provider is logged; a
    request that was not processed is logged as an invalid payload.
  */
  method ProcessIncoming(store: Store, provider: string, payload: WebhookPayload)
    requires store.Valid()
    modifies store`contacts, store`deliveries, store`errorLog
    ensures store.Valid()
    ensures provider == "gohighlevel" && WellFormed(payload) ==>
      Tables(store.contacts, store.deliveries)
        == ApplyEvent(Tables(old(store.contacts), old(store.deliveries)), store.emails, payload.event.value, payload.data.value)
    ensures !(provider == "gohighlevel" && WellFormed(payload)) ==>
      store.contacts == old(store.contacts) && store.deliveries == old(store.deliveries)
    ensures provider == "gohighlevel" ==>
      store.errorLog == old(store.errorLog)
        + (if WellFormed(payload) then EventErrors(payload.event.value, payload.data.value) else [])
        + (if IncomingDispatches(provider, payload) then [] else [ErrorEntry(provider + " Webhook Handler", InvalidPayloadMessage)])
    ensures provider == "openai" ==> store.errorLog == old(store.errorLog)
    ensures provider != "gohighlevel" && provider != "openai" ==>
      store.errorLog == old(store.errorLog)
        + [ErrorEntry("Webhook Handler", "Received webhook for unsupported provider: " + provider),
           ErrorEntry(provider + " Webhook Handler", InvalidPayloadMessage)]
  {
    var processed := false;
    if provider == "gohighlevel" {
      if WellFormed(payload) {
        var event, d := payload.event.value, payload.data.value;
        processed := RouteFor(event) != Unhandled;
        Dispatch(store, event, d);
      }
    } else if provider == "openai" {
      processed := true;
    } else {
      store.LogError("Webhook Handler", "Received webhook for unsupported provider: " + provider);
    }
    assert processed <==> provider == "openai" || IncomingDispatches(provider, payload);
    if !processed {
      store.LogError(provider + " Webhook Handler", InvalidPayloadMessage);
    }
  }

  /**
    `POST /incoming/:provider/:token`: 401 for a token of the right length that does not
    match; a token of another length makes the comparison throw, which is caught, logged
    and answered with 200. An accepted token goes through the provider switch and is
    answered with 200.
  */
  method HandleIncomingWebhook(store: Store, mac: Mac, provider: string, token: string,
                               payload: WebhookPayload) returns (status: int)
    requires store.Valid()
    modifies store`contacts, store`deliveries, store`errorLog
    ensures store.Valid()
    ensures var check := VerifyWebhookToken(mac, token, DefaultUserId, provider);
      && (status == Unauthorized401 <==> check == TokenRejected)
      && (status == Ok200 <==> check != TokenRejected)
    ensures VerifyWebhookToken(mac, token, DefaultUserId, provider) != TokenAccepted ==>
      store.contacts == old(store.contacts) && store.deliveries == old(store.deliveries)
    ensures VerifyWebhookToken(mac, token, DefaultUserId, provider) == TokenRejected ==>
      store.errorLog == old(store.errorLog)
    ensures VerifyWebhookToken(mac, token, DefaultUserId, provider) == TokenLengthMismatch ==>
      store.errorLog == old(store.errorLog) + [ErrorEntry("Dynamic Webhook Handler", LengthMismatchMessage)]
    ensures VerifyWebhookToken(mac, token, DefaultUserId, provider) == TokenAccepted ==>
      if provider == "gohighlevel" && WellFormed(payload) then
        Tables(store.contacts, store.deliveries)
          == ApplyEvent(Tables(old(store.contacts), old(store.deliveries)), store.emails, payload.event.value, payload.data.value)
      else
        store.contacts == old(store.contacts) && store.deliveries == old(store.deliveries)
    ensures VerifyWebhookToken(mac, token, DefaultUserId, provider) == TokenAccepted && provider == "gohighlevel" ==>
      store.errorLog == old(store.errorLog)
        + (if WellFormed(payload) then EventErrors(payload.event.value, payload.data.value) else [])
        + (if IncomingDispatches(provider, payload) then [] else [ErrorEntry(provider + " Webhook Handler", InvalidPayloadMessage)])
    ensures VerifyWebhookToken(mac, token, DefaultUserId, provider) == TokenAccepted && provider == "openai" ==>
      store.errorLog == old(store.errorLog)
    ensures VerifyWebhookToken(mac, token, DefaultUserId, provider) == TokenAccepted
            && provider != "gohighlevel" && provider != "openai" ==>
      store.errorLog == old(store.errorLog)
        + [ErrorEntry("Webhook Handler", "Received webhook for unsupported provider: " + provider),
           ErrorEntry(provider + " Webhook Handler", InvalidPayloadMessage)]
  {
    var check := VerifyWebhookToken(mac, token, DefaultUserId, provider);
    if check == TokenLengthMismatch {
      store.LogError("Dynamic Webhook Handler", LengthMismatchMessage);
      return Ok200;
    }
    if check == TokenRejected {
      return Unauthorized401;
    }
    ProcessIncoming(store, provider, payload);
    status := Ok200;
  }

  /** A token other than the expected one is never accepted; it is refused with 401 exactly at 64 UTF-8 bytes. */
  lemma BadTokenNeverAccepted(mac: Mac, token: string, provider: string)
    requires token != ExpectedWebhookToken(mac, DefaultUserId, provider)
    ensures VerifyWebhookToken(mac, token, DefaultUserId, provider) != TokenAccepted
    ensures Utf8Length(token) == 64 <==> VerifyWebhookToken(mac, token, DefaultUserId, provider) == TokenRejected
  {
  }

  // ---------------------------------------------------------------------------
  // Webhook configuration routes

  /** The two webhook variants of `WebhookType`. */
  const IncomingType: string := "incoming"
  const OutgoingType: string := "outgoing"

  /** The body of `POST /`: every field may be absent. */
  datatype CreateWebhookRequest = CreateWebhookRequest(
    kind: Option<string>,
    name: Option<string>,
    description: Option<string>,
    provider: Option<string>,
    userId: Option<int>,
    secretKey: Option<string>,
    eventHandling: Option<seq<string>>,
    notificationEmail: Option<string>,
    triggerEvent: Option<string>,
    targetUrl: Option<string>,
    httpMethod: Option<string>,
    headers: Option<map<string, string>>,
    selectedFields: Option<seq<string>>,
    payloadTemplate: Option<string>)

  /** The body of `PUT /:id`. */
  datatype UpdateWebhookRequest = UpdateWebhookRequest(
    name: Option<string>,
    description: Option<string>,
    isActive: Option<bool>,
    secretKey: Option<string>,
    eventHandling: Option<seq<string>>,
    notificationEmail: Option<string>,
    triggerEvent: Option<string>,
    targetUrl: Option<string>,
    httpMethod: Option<string>,
    headers: Option<map<string, string>>,
    selectedFields: Option<seq<string>>,
    payloadTemplate: Option<string>)

  /** The owner `user_id = 1` and the provider `provider = 'custom'` when the request leaves them out. */
  function RequestUser(req: CreateWebhookRequest): int {
    if req.userId.Some? then req.userId.value else DefaultUserId
  }

  function RequestProvider(req: CreateWebhookRequest): string {
    if req.provider.Some? then req.provider.value else "custom"
  }

  /** The endpoint token of a new INCOMING webhook: hex(HMAC(key, "{user_id}:{provider}:{now in ms}")). */
  function NewEndpointToken(mac: Mac, req: CreateWebhookRequest, nowMillis: nat): (t: Option<string>)
    ensures t.Some? <==> req.kind == Some(IncomingType)
    ensures t.Some? ==> |t.value| == 64
  {
    if req.kind == Some(IncomingType) then
      Some(Hex(mac(WebhookSigningKey, IntToDecimal(RequestUser(req)) + ":" + RequestProvider(req) + ":" + NatToDecimal(nowMillis))))
    else None
  }

  /** The row `POST /` creates from a request that has a type and a name. */
  function NewWebhookRow(req: CreateWebhookRequest, token: Option<string>): (w: Webhook)
    requires Truthy(req.kind) && Truthy(req.name)
    ensures w.isActive
    ensures w.kind == req.kind.value && w.name == req.name.value && w.endpointToken == token
    ensures req.provider.Some? ==> w.provider == req.provider.value
    ensures req.provider.None? ==> w.provider == "custom"
    ensures req.userId.Some? ==> w.userId == req.userId.value
    ensures req.userId.None? ==> w.userId == 1
    ensures w.description == req.description && w.secretKey == req.secretKey
    ensures w.notificationEmail == req.notificationEmail
    ensures req.eventHandling.Some? ==> w.eventHandling == req.eventHandling.value
    ensures req.eventHandling.None? ==> w.eventHandling == []
    ensures w.triggerEvent == req.triggerEvent && w.targetUrl == req.targetUrl && w.httpMethod == req.httpMethod
    ensures req.headers.Some? ==> w.headers == req.headers.value
    ensures req.headers.None? ==> w.headers == map[]
    ensures req.selectedFields.Some? ==> w.selectedFields == req.selectedFields.value
    ensures req.selectedFields.None? ==> w.selectedFields == []
    ensures w.payloadTemplate == req.payloadTemplate
  {
    Webhook(
      RequestUser(req), req.kind.value, req.name.value, req.description, RequestProvider(req), true,
      token, req.secretKey,
      if req.eventHandling.Some? then req.eventHandling.value else [],
      req.notificationEmail,
      req.triggerEvent, req.targetUrl, req.httpMethod,
      if req.headers.Some? then req.headers.value else map[],
      if req.selectedFields.Some? then req.selectedFields.value else [],
      req.payloadTemplate)
  }

  /** `POST /`: 400 without a type or a name, otherwise 201 with a new active row. */
  method CreateWebhook(store: Store, mac: Mac, req: CreateWebhookRequest, nowMillis: nat)
    returns (status: int, id: Option<nat>)
    requires store.Valid()
    modifies store`webhooks
    ensures store.Valid()
    ensures status == BadRequest400 <==> !Truthy(req.kind) || !Truthy(req.name)
    ensures status == BadRequest400 ==> id.None? && store.webhooks == old(store.webhooks)
    ensures status != BadRequest400 ==>
      && status == Created201 && id.Some? && id.value !in old(store.webhooks.rows)
      && store.webhooks.rows == old(store.webhooks.rows)[id.value := NewWebhookRow(req, NewEndpointToken(mac, req, nowMillis))]
  {
    if !Truthy(req.kind) || !Truthy(req.name) {
      return BadRequest400, None;
    }
    var token := NewEndpointToken(mac, req, nowMillis);
    var newId := store.CreateWebhook(NewWebhookRow(req, token));
    return Created201, Some(newId);
  }

  /**
    The patch `PUT /:id` writes: name and description as given, `is_active` as given or
    else kept, then only the fields of the stored row's own variant.
  */
  function UpdatePatch(existing: Webhook, req: UpdateWebhookRequest): (p: WebhookPatch)
    ensures p.isActive == Some(if req.isActive.Some? then req.isActive.value else existing.isActive)
    ensures p.name == req.name && p.description == req.description
    ensures existing.kind == IncomingType ==>
      p.secretKey == req.secretKey && p.eventHandling == req.eventHandling && p.notificationEmail == req.notificationEmail
    ensures existing.kind == OutgoingType ==>
      && p.triggerEvent == req.triggerEvent && p.targetUrl == req.targetUrl && p.httpMethod == req.httpMethod
      && p.headers == req.headers && p.selectedFields == req.selectedFields && p.payloadTemplate == req.payloadTemplate
    ensures existing.kind != IncomingType ==> p.secretKey.None? && p.eventHandling.None? && p.notificationEmail.None?
    ensures existing.kind != OutgoingType ==>
      p.triggerEvent.None? && p.targetUrl.None? && p.httpMethod.None? && p.headers.None?
      && p.selectedFields.None? && p.payloadTemplate.None?
  {
    var common := WebhookPatch(req.name, req.description, Some(if req.isActive.Some? then req.isActive.value else existing.isActive),
                               None, None, None, None, None, None, None, None, None);
    if existing.kind == IncomingType then
      common.(secretKey := req.secretKey, eventHandling := req.eventHandling, notificationEmail := req.notificationEmail)
    else if existing.kind == OutgoingType then
      common.(triggerEvent := req.triggerEvent, targetUrl := req.targetUrl, httpMethod := req.httpMethod,
              headers := req.headers, selectedFields := req.selectedFields, payloadTemplate := req.payloadTemplate)
    else common
  }

  /**
    An update keeps the row's owner, variant, provider and endpoint token, never touches
    the other variant's fields, and keeps `is_active` when the request leaves it out.
  */
  lemma UpdateKeepsVariant(w: Webhook, req: UpdateWebhookRequest)
    ensures var r := ApplyPatch(w, UpdatePatch(w, req));
      && r.userId == w.userId && r.kind == w.kind && r.provider == w.provider && r.endpointToken == w.endpointToken
      && (req.isActive.None? ==> r.isActive == w.isActive)
      && (w.kind == IncomingType ==>
            r.triggerEvent == w.triggerEvent && r.targetUrl == w.targetUrl && r.httpMethod == w.httpMethod
            && r.headers == w.headers && r.selectedFields == w.selectedFields && r.payloadTemplate == w.payloadTemplate)
      && (w.kind == OutgoingType ==>
            r.secretKey == w.secretKey && r.eventHandling == w.eventHandling && r.notificationEmail == w.notificationEmail)
  {
  }

  /** `PUT /:id`: 404 for an unknown id, otherwise 200 with the patched row. */
  method UpdateWebhook(store: Store, id: nat, req: UpdateWebhookRequest) returns (status: int, updated: Option<Webhook>)
    requires store.Valid()
    modifies store`webhooks
    ensures store.Valid()
    ensures status == NotFound404 <==> id !in old(store.webhooks.rows)
    ensures status == NotFound404 ==> store.webhooks == old(store.webhooks) && updated.None?
    ensures status != NotFound404 ==>
      && status == Ok200
      && store.webhooks.rows == old(store.webhooks.rows)[id := ApplyPatch(old(store.webhooks.rows[id]), UpdatePatch(old(store.webhooks.rows[id]), req))]
      && updated == Some(store.webhooks.rows[id])
  {
    var existing := store.GetWebhook(id);
    if existing.None? {
      return NotFound404, None;
    }
    updated := store.UpdateWebhook(id, UpdatePatch(existing.value, req));
    status := Ok200;
  }

  /** `DELETE /:id`: 404 when there is no such row, otherwise 200 and the row is gone. */
  method DeleteWebhook(store: Store, id: nat) returns (status: int)
    requires store.Valid()
    modifies store`webhooks
    ensures store.Valid()
    ensures status == NotFound404 <==> id !in old(store.webhooks.rows)
    ensures status != NotFound404 ==> status == Ok200
    ensures store.webhooks.rows == old(store.webhooks.rows) - {id}
  {
    var removed := store.DeleteWebhook(id);
    status := if removed then Ok200 else NotFound404;
  }
}
