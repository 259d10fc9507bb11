/**
  The rows the integration code reads and writes, and the storage layer it calls into.

  The storage layer itself is not part of this model's source; its operations are
  modelled with the semantics the route handlers rely on:
  - `upsertContactByGhlId` updates the contact carrying that provider id, or inserts a
    new one; fields left `undefined` in the update are not written;
  - `updateEmailDeliveryByGhlMessageId` overwrites the status of the delivery with that
    provider message id and returns the updated row, or nothing when there is none;
  - `addTagToContact` adds to the contact's tag set;
  - `updateWebhook` and `updateIntegrationConnection` write only the fields present in
    the patch; `deleteWebhook` reports whether a row was removed.
  Each table is a value with pure update functions; the class `Store` holds one field
  per table and its methods perform one storage call each.
*/
module Storage {
  import opened Wrappers

  // ---------------------------------------------------------------------------
  // Contacts

  /** The fields a contact webhook writes into a contact. */
  datatype ContactRecord = ContactRecord(
    ghlId: string,
    email: Option<string>,
    name: string,
    customFields: map<string, string>,
    joinedDate: Option<string>,
    source: string)

  datatype Contact = Contact(
    ghlId: Option<string>,
    email: Option<string>,
    name: string,
    customFields: map<string, string>,
    joinedDate: Option<string>,
    source: string,
    tags: set<string>)

  /** Contacts by local id; `nextId` is the id the next insert receives. */
  datatype ContactTable = ContactTable(rows: map<nat, Contact>, nextId: nat) {
    /** Ids below `nextId`, and at most one contact per provider id. */
    ghost predicate Valid() {
      && (forall id :: id in rows ==> id < nextId)
      && (forall i, j :: i in rows && j in rows && rows[i].ghlId.Some? && rows[i].ghlId == rows[j].ghlId ==> i == j)
    }

    predicate HasGhlId(g: string) {
      exists id :: id in rows && rows[id].ghlId == Some(g)
    }
  }

  /** The contact shows every field of the record; fields the record leaves out may hold anything. */
  predicate Reflects(c: Contact, rec: ContactRecord) {
    && c.ghlId == Some(rec.ghlId)
    && c.name == rec.name
    && c.customFields == rec.customFields
    && c.source == rec.source
    && (rec.email.Some? ==> c.email == rec.email)
    && (rec.joinedDate.Some? ==> c.joinedDate == rec.joinedDate)
  }

  function NewContact(rec: ContactRecord): (c: Contact)
    ensures Reflects(c, rec) && c.tags == {}
  {
    Contact(Some(rec.ghlId), rec.email, rec.name, rec.customFields, rec.joinedDate, rec.source, {})
  }

  /** Overwrites a contact with a record, keeping what the record leaves undefined and the tags. */
  function Merge(c: Contact, rec: ContactRecord): (r: Contact)
    ensures Reflects(r, rec) && r.tags == c.tags
    ensures rec.email.None? ==> r.email == c.email
    ensures rec.joinedDate.None? ==> r.joinedDate == c.joinedDate
  {
    c.(ghlId := Some(rec.ghlId),
       email := if rec.email.Some? then rec.email else c.email,
       name := rec.name,
       customFields := rec.customFields,
       joinedDate := if rec.joinedDate.Some? then rec.joinedDate else c.joinedDate,
       source := rec.source)
  }

  /** Merging a record twice is merging it once. */
  lemma MergeIdempotent(c: Contact, rec: ContactRecord)
    ensures Merge(Merge(c, rec), rec) == Merge(c, rec)
  {
  }

  /**
    Upsert by provider id: afterwards exactly one contact carries `rec.ghlId` and shows
    the record; every other contact is untouched and none is removed.
  */
  function Upsert(t: ContactTable, rec: ContactRecord): (r: ContactTable)
    requires t.Valid()
    ensures r.Valid()
    ensures exists id :: id in r.rows && Reflects(r.rows[id], rec)
    ensures t.rows.Keys <= r.rows.Keys
    ensures forall id :: id in t.rows && t.rows[id].ghlId != Some(rec.ghlId) ==> r.rows[id] == t.rows[id]
    ensures forall id :: id in t.rows && t.rows[id].ghlId == Some(rec.ghlId) ==> r.rows[id] == Merge(t.rows[id], rec)
    ensures t.HasGhlId(rec.ghlId) ==> r.rows.Keys == t.rows.Keys && r.nextId == t.nextId
    ensures !t.HasGhlId(rec.ghlId) ==> r.rows.Keys == t.rows.Keys + {t.nextId} && r.rows[t.nextId] == NewContact(rec)
  {
    if t.HasGhlId(rec.ghlId) then
      var rows := map id | id in t.rows :: if t.rows[id].ghlId == Some(rec.ghlId) then Merge(t.rows[id], rec) else t.rows[id];
      var id :| id in t.rows && t.rows[id].ghlId == Some(rec.ghlId);
      assert id in rows && Reflects(rows[id], rec);
      ContactTable(rows, t.nextId)
    else
      var r := ContactTable(t.rows[t.nextId := NewContact(rec)], t.nextId + 1);
      assert t.nextId in r.rows && Reflects(r.rows[t.nextId], rec);
      r
  }

  /** Applying the same contact record twice leaves the table as applying it once. */
  lemma UpsertIdempotent(t: ContactTable, rec: ContactRecord)
    requires t.Valid()
    ensures Upsert(Upsert(t, rec), rec) == Upsert(t, rec)
  {
    var t1 := Upsert(t, rec);
    assert t1.HasGhlId(rec.ghlId) by {
      var id :| id in t1.rows && Reflects(t1.rows[id], rec);
    }
    if t.HasGhlId(rec.ghlId) {
      UpsertKnownIdempotent(t, rec);
    } else {
      UpsertNewIdempotent(t, rec);
    }
  }

  lemma UpsertKnownIdempotent(t: ContactTable, rec: ContactRecord)
    requires t.Valid() && t.HasGhlId(rec.ghlId)
    ensures Upsert(Upsert(t, rec), rec) == Upsert(t, rec)
  {
    var t1 := Upsert(t, rec);
    var t2 := Upsert(t1, rec);
    forall k | k in t1.rows
      ensures t2.rows[k] == t1.rows[k]
    {
      if t.rows[k].ghlId == Some(rec.ghlId) {
        MergeIdempotent(t.rows[k], rec);
      }
    }
    assert t2.rows == t1.rows;
  }

  lemma UpsertNewIdempotent(t: ContactTable, rec: ContactRecord)
    requires t.Valid() && !t.HasGhlId(rec.ghlId)
    ensures Upsert(Upsert(t, rec), rec) == Upsert(t, rec)
  {
    var t1 := Upsert(t, rec);
    var t2 := Upsert(t1, rec);
    assert t1.rows == t.rows[t.nextId := NewContact(rec)];
    assert t1.HasGhlId(rec.ghlId) by {
      assert t1.rows[t.nextId].ghlId == Some(rec.ghlId);
    }
    forall k | k in t1.rows
      ensures t2.rows[k] == t1.rows[k]
    {
      if k != t.nextId {
        assert t1.rows[k] == t.rows[k];
      }
    }
    assert t2.rows == t1.rows;
  }

  /** The table without the contact that carries provider id `g`. */
  function DeleteByGhlId(t: ContactTable, g: string): (r: ContactTable)
    requires t.Valid()
    ensures r.Valid() && !r.HasGhlId(g)
    ensures r.rows.Keys <= t.rows.Keys && r.nextId == t.nextId
    ensures forall id :: id in t.rows && t.rows[id].ghlId == Some(g) ==> id !in r.rows
    ensures forall id :: id in t.rows && t.rows[id].ghlId != Some(g) ==> id in r.rows && r.rows[id] == t.rows[id]
  {
    ContactTable(map id | id in t.rows && t.rows[id].ghlId != Some(g) :: t.rows[id], t.nextId)
  }

  /** Deleting a provider id nobody carries changes nothing. */
  lemma DeleteAbsentIsNoOp(t: ContactTable, g: string)
    requires t.Valid() && !t.HasGhlId(g)
    ensures DeleteByGhlId(t, g) == t
  {
    assert DeleteByGhlId(t, g).rows == t.rows;
  }

  /** Deletion by provider id is idempotent. */
  lemma DeleteIdempotent(t: ContactTable, g: string)
    requires t.Valid()
    ensures DeleteByGhlId(DeleteByGhlId(t, g), g) == DeleteByGhlId(t, g)
  {
    DeleteAbsentIsNoOp(DeleteByGhlId(t, g), g);
  }

  /** Adds tags to the contact with local id `id`; tags form a set, so adding a present tag does nothing. */
  function AddTags(t: ContactTable, id: nat, tags: set<string>): (r: ContactTable)
    ensures r.rows.Keys == t.rows.Keys && r.nextId == t.nextId
    ensures forall k :: k in t.rows && k != id ==> r.rows[k] == t.rows[k]
    ensures id in t.rows ==> r.rows[id].tags == t.rows[id].tags + tags
    ensures id in t.rows ==> r.rows[id] == t.rows[id].(tags := r.rows[id].tags)
    ensures t.Valid() ==> r.Valid()
  {
    if id in t.rows then t.(rows := t.rows[id := t.rows[id].(tags := t.rows[id].tags + tags)]) else t
  }

  /** Adding tags one call at a time adds their union. */
  lemma AddTagsTwice(t: ContactTable, id: nat, a: set<string>, b: set<string>)
    ensures AddTags(AddTags(t, id, a), id, b) == AddTags(t, id, a + b)
  {
    if id in t.rows {
      assert t.rows[id].tags + a + b == t.rows[id].tags + (a + b);
      assert AddTags(AddTags(t, id, a), id, b).rows == AddTags(t, id, a + b).rows;
    }
  }

  /** Adding no tags changes nothing. */
  lemma AddNoTags(t: ContactTable, id: nat)
    ensures AddTags(t, id, {}) == t
  {
    if id in t.rows {
      assert t.rows[id].(tags := t.rows[id].tags + {}) == t.rows[id];
      assert t.rows[id := t.rows[id]] == t.rows;
    }
  }

  // ---------------------------------------------------------------------------
  // Email deliveries and emails

  /** Delivery statuses of `EmailDeliveryStatus`. */
  datatype DeliveryStatus = Sent | Delivered | Opened | Clicked | Bounced | Complained

  /** One email sent to one contact, found by the provider's message id. */
  datatype Delivery = Delivery(emailId: nat, contactId: nat, status: DeliveryStatus)

  datatype Email = Email(emailType: string)

  /** Overwrites the status of the delivery with message id `mid`, if there is one. */
  function SetStatus(ds: map<string, Delivery>, mid: string, s: DeliveryStatus): (r: map<string, Delivery>)
    ensures r.Keys == ds.Keys
    ensures mid in ds ==> r[mid] == ds[mid].(status := s)
    ensures forall m :: m in ds && m != mid ==> r[m] == ds[m]
  {
    if mid in ds then ds[mid := ds[mid].(status := s)] else ds
  }

  // ---------------------------------------------------------------------------
  // Webhook configurations

  /** One webhook row: the common fields, then those of INCOMING, then those of OUTGOING. */
  datatype Webhook = Webhook(
    userId: int,
    kind: string,
    name: string,
    description: Option<string>,
    provider: string,
    isActive: bool,
    endpointToken: Option<string>,
    secretKey: Option<string>,
    eventHandling: seq<string>,
    notificationEmail: Option<string>,
    triggerEvent: Option<string>,
    targetUrl: Option<string>,
    httpMethod: Option<string>,
    headers: map<string, string>,
    selectedFields: seq<string>,
    payloadTemplate: Option<string>)

  /** The fields an update may write; there is no way to write the owner, kind, provider or endpoint token. */
  datatype WebhookPatch = WebhookPatch(
    name: Option<string>,
    description: Option<string>,
    isActive: Option<bool>,
    secretKey: Option<string>,
    eventHandling: Option<seq<string>>,
    notificationEmail: Option<string>,
    triggerEvent: Option<string>,
    targetUrl: Option<string>,
    httpMethod: Option<string>,
    headers: Option<map<string, string>>,
    selectedFields: Option<seq<string>>,
    payloadTemplate: Option<string>)

  function Pick<T>(patched: Option<T>, current: T): T {
    if patched.Some? then patched.value else current
  }

  function PickOpt<T>(patched: Option<T>, current: Option<T>): Option<T> {
    if patched.Some? then patched else current
  }

  /** Writes the fields present in the patch; an absent field keeps its stored value. */
  function ApplyPatch(w: Webhook, p: WebhookPatch): (r: Webhook)
    ensures r.userId == w.userId && r.kind == w.kind && r.provider == w.provider
    ensures r.endpointToken == w.endpointToken
    ensures r.name == (if p.name.Some? then p.name.value else w.name)
    ensures r.description == (if p.description.Some? then p.description else w.description)
    ensures r.isActive == (if p.isActive.Some? then p.isActive.value else w.isActive)
    ensures r.secretKey == (if p.secretKey.Some? then p.secretKey else w.secretKey)
    ensures r.eventHandling == (if p.eventHandling.Some? then p.eventHandling.value else w.eventHandling)
    ensures r.notificationEmail == (if p.notificationEmail.Some? then p.notificationEmail else w.notificationEmail)
    ensures r.triggerEvent == (if p.triggerEvent.Some? then p.triggerEvent else w.triggerEvent)
    ensures r.targetUrl == (if p.targetUrl.Some? then p.targetUrl else w.targetUrl)
    ensures r.httpMethod == (if p.httpMethod.Some? then p.httpMethod else w.httpMethod)
    ensures r.headers == (if p.headers.Some? then p.headers.value else w.headers)
    ensures r.selectedFields == (if p.selectedFields.Some? then p.selectedFields.value else w.selectedFields)
    ensures r.payloadTemplate == (if p.payloadTemplate.Some? then p.payloadTemplate else w.payloadTemplate)
  {
    w.(name := Pick(p.name, w.name),
       description := PickOpt(p.description, w.description),
       isActive := Pick(p.isActive, w.isActive),
       secretKey := PickOpt(p.secretKey, w.secretKey),
       eventHandling := Pick(p.eventHandling, w.eventHandling),
       notificationEmail := PickOpt(p.notificationEmail, w.notificationEmail),
       triggerEvent := PickOpt(p.triggerEvent, w.triggerEvent),
       targetUrl := PickOpt(p.targetUrl, w.targetUrl),
       httpMethod := PickOpt(p.httpMethod, w.httpMethod),
       headers := Pick(p.headers, w.headers),
       selectedFields := Pick(p.selectedFields, w.selectedFields),
       payloadTemplate := PickOpt(p.payloadTemplate, w.payloadTemplate))
  }

  datatype WebhookTable = WebhookTable(rows: map<nat, Webhook>, nextId: nat) {
    ghost predicate Valid() {
      forall id :: id in rows ==> id < nextId
    }
  }

  // ---------------------------------------------------------------------------
  // Integration connections

  datatype ConnKey = ConnKey(userId: nat, provider: string)

  /** Stored OAuth tokens; `expiresAt` in seconds, `None` for a token that never expires. */
  datatype Connection = Connection(
    id: nat,
    accessToken: string,
    refreshToken: string,
    expiresAt: Option<int>,
    isActive: bool,
    config: map<string, string>)

  /** The fields an update of a connection may write. */
  datatype ConnectionPatch = ConnectionPatch(
    accessToken: Option<string>,
    refreshToken: Option<string>,
    expiresAt: Option<int>,
    isActive: Option<bool>,
    config: Option<map<string, string>>)

  /** Writes the fields present in the patch; the id and every absent field are kept. */
  function ApplyConnectionPatch(c: Connection, p: ConnectionPatch): (r: Connection)
    ensures r.id == c.id
    ensures r.accessToken == (if p.accessToken.Some? then p.accessToken.value else c.accessToken)
    ensures r.refreshToken == (if p.refreshToken.Some? then p.refreshToken.value else c.refreshToken)
    ensures r.expiresAt == (if p.expiresAt.Some? then p.expiresAt else c.expiresAt)
    ensures r.isActive == (if p.isActive.Some? then p.isActive.value else c.isActive)
    ensures r.config == (if p.config.Some? then p.config.value else c.config)
  {
    c.(accessToken := Pick(p.accessToken, c.accessToken),
       refreshToken := Pick(p.refreshToken, c.refreshToken),
       expiresAt := if p.expiresAt.Some? then p.expiresAt else c.expiresAt,
       isActive := Pick(p.isActive, c.isActive),
       config := Pick(p.config, c.config))
  }

  /** One connection per (user, provider) by construction; ids below `nextId` and distinct. */
  datatype ConnectionTable = ConnectionTable(rows: map<ConnKey, Connection>, nextId: nat) {
    ghost predicate Valid() {
      && (forall k :: k in rows ==> rows[k].id < nextId)
      && (forall k1, k2 :: k1 in rows && k2 in rows && rows[k1].id == rows[k2].id ==> k1 == k2)
    }
  }

  /** Inserts a connection for a (user, provider) pair that has none, with a fresh id. */
  function CreateConnection(t: ConnectionTable, key: ConnKey, c: Connection): (r: ConnectionTable)
    requires t.Valid() && key !in t.rows
    ensures r.Valid()
    ensures r.rows.Keys == t.rows.Keys + {key}
    ensures r.rows[key] == c.(id := t.nextId)
    ensures forall k :: k in t.rows ==> r.rows[k] == t.rows[k]
  {
    ConnectionTable(t.rows[key := c.(id := t.nextId)], t.nextId + 1)
  }

  /** Patches the connection whose id is `id`; every other connection is untouched. */
  function UpdateConnection(t: ConnectionTable, id: nat, p: ConnectionPatch): (r: ConnectionTable)
    requires t.Valid()
    ensures r.Valid()
    ensures r.rows.Keys == t.rows.Keys && r.nextId == t.nextId
    ensures forall k :: k in t.rows && t.rows[k].id == id ==> r.rows[k] == ApplyConnectionPatch(t.rows[k], p)
    ensures forall k :: k in t.rows && t.rows[k].id != id ==> r.rows[k] == t.rows[k]
  {
    ConnectionTable(
      map k | k in t.rows :: if t.rows[k].id == id then ApplyConnectionPatch(t.rows[k], p) else t.rows[k],
      t.nextId)
  }

  // ---------------------------------------------------------------------------
  // The storage layer

  datatype ErrorEntry = ErrorEntry(context: string, message: string)

  class Store {
    var contacts: ContactTable
    var deliveries: map<string, Delivery>
    var emails: map<nat, Email>
    var webhooks: WebhookTable
    var connections: ConnectionTable
    /** What `storage.logError` has recorded, oldest first. */
    var errorLog: seq<ErrorEntry>

    ghost predicate Valid()
      reads this
    {
      contacts.Valid() && webhooks.Valid() && connections.Valid()
    }

    constructor ()
      ensures Valid()
      ensures contacts.rows == map[] && deliveries == map[] && emails == map[]
      ensures webhooks.rows == map[] && connections.rows == map[] && errorLog == []
    {
      contacts := ContactTable(map[], 0);
      deliveries := map[];
      emails := map[];
      webhooks := WebhookTable(map[], 0);
      connections := ConnectionTable(map[], 0);
      errorLog := [];
    }

    method LogError(context: string, message: string)
      modifies this`errorLog
      ensures errorLog == old(errorLog) + [ErrorEntry(context, message)]
    {
      errorLog := errorLog + [ErrorEntry(context, message)];
    }

    method UpsertContactByGhlId(rec: ContactRecord)
      requires Valid()
      modifies this`contacts
      ensures Valid()
      ensures contacts == Upsert(old(contacts), rec)
    {
      contacts := Upsert(contacts, rec);
    }

    /** Finds the local id of the contact carrying provider id `g`. */
    method GetContactByGhlId(g: string) returns (id: Option<nat>)
      requires Valid()
      ensures id.Some? <==> contacts.HasGhlId(g)
      ensures id.Some? ==> id.value in contacts.rows && contacts.rows[id.value].ghlId == Some(g)
    {
      if k :| k in contacts.rows && contacts.rows[k].ghlId == Some(g) {
        id := Some(k);
      } else {
        id := None;
      }
    }

    method DeleteContact(id: nat)
      requires Valid()
      modifies this`contacts
      ensures Valid()
      ensures contacts == old(contacts).(rows := old(contacts).rows - {id})
    {
      contacts := contacts.(rows := contacts.rows - {id});
    }

    method AddTagToContact(id: nat, tag: string)
      requires Valid()
      modifies this`contacts
      ensures Valid()
      ensures contacts == AddTags(old(contacts), id, {tag})
    {
      contacts := AddTags(contacts, id, {tag});
    }

    /** Overwrites the delivery's status and returns the updated row, if the message id is known. */
    method UpdateEmailDeliveryByGhlMessageId(mid: string, s: DeliveryStatus) returns (d: Option<Delivery>)
      modifies this`deliveries
      ensures deliveries == SetStatus(old(deliveries), mid, s)
      ensures d.Some? <==> mid in old(deliveries)
      ensures d.Some? ==> d.value == deliveries[mid]
    {
      deliveries := SetStatus(deliveries, mid, s);
      d := if mid in deliveries then Some(deliveries[mid]) else None;
    }

    /** Inserts a webhook row and returns its id. */
    method CreateWebhook(w: Webhook) returns (id: nat)
      requires Valid()
      modifies this`webhooks
      ensures Valid()
      ensures id == old(webhooks).nextId && id !in old(webhooks).rows
      ensures webhooks == WebhookTable(old(webhooks).rows[id := w], id + 1)
    {
      id := webhooks.nextId;
      webhooks := WebhookTable(webhooks.rows[id := w], id + 1);
    }

    method GetWebhook(id: nat) returns (w: Option<Webhook>)
      ensures w.Some? <==> id in webhooks.rows
      ensures w.Some? ==> w.value == webhooks.rows[id]
    {
      w := if id in webhooks.rows then Some(webhooks.rows[id]) else None;
    }

    /** Writes the patch into row `id`, if it exists, and returns the updated row. */
    method UpdateWebhook(id: nat, p: WebhookPatch) returns (w: Option<Webhook>)
      requires Valid()
      modifies this`webhooks
      ensures Valid()
      ensures id in old(webhooks).rows ==> webhooks == old(webhooks).(rows := old(webhooks).rows[id := ApplyPatch(old(webhooks).rows[id], p)])
      ensures id !in old(webhooks).rows ==> webhooks == old(webhooks)
      ensures w.Some? <==> id in webhooks.rows
      ensures w.Some? ==> w.value == webhooks.rows[id]
    {
      if id in webhooks.rows {
        webhooks := webhooks.(rows := webhooks.rows[id := ApplyPatch(webhooks.rows[id], p)]);
        w := Some(webhooks.rows[id]);
      } else {
        w := None;
      }
    }

    /** Removes row `id`; reports whether there was one. */
    method DeleteWebhook(id: nat) returns (removed: bool)
      requires Valid()
      modifies this`webhooks
      ensures Valid()
      ensures removed <==> id in old(webhooks).rows
      ensures webhooks == old(webhooks).(rows := old(webhooks).rows - {id})
    {
      removed := id in webhooks.rows;
      webhooks := webhooks.(rows := webhooks.rows - {id});
    }

    method GetIntegrationConnection(key: ConnKey) returns (c: Option<Connection>)
      ensures c.Some? <==> key in connections.rows
      ensures c.Some? ==> c.value == connections.rows[key]
    {
      c := if key in connections.rows then Some(connections.rows[key]) else None;
    }

    method CreateIntegrationConnection(key: ConnKey, c: Connection)
      requires Valid() && key !in connections.rows
      modifies this`connections
      ensures Valid()
      ensures connections == CreateConnection(old(connections), key, c)
    {
      connections := CreateConnection(connections, key, c);
    }

    method UpdateIntegrationConnection(id: nat, p: ConnectionPatch)
      requires Valid()
      modifies this`connections
      ensures Valid()
      ensures connections == UpdateConnection(old(connections), id, p)
    {
      connections := UpdateConnection(connections, id, p);
    }
  }
}
