/**
  Inbound provider events: the payload shape, the event-name dispatcher, the mapping
  from email events to delivery statuses, the contact projection built from a contact
  event, and the tags an email interaction earns a contact.
*/
module Events {
  import opened Wrappers
  import opened Js
  import opened Storage

  /** The `data` object of a provider event, restricted to the fields the handlers read. */
  datatype EventData = EventData(
    id: Option<string>,
    email: Option<string>,
    name: Option<string>,
    firstName: Option<string>,
    lastName: Option<string>,
    customFields: Option<map<string, string>>,
    createdAt: Option<string>,
    messageId: Option<string>)

  /** A request body `{ event, data }`. */
  datatype WebhookPayload = WebhookPayload(event: Option<string>, data: Option<EventData>)

  /** Both `event` and `data` are truthy. */
  predicate WellFormed(p: WebhookPayload) {
    Truthy(p.event) && p.data.Some?
  }

  // ---------------------------------------------------------------------------
  // Dispatch by event name

  datatype Route = ContactUpsert | ContactDeletion | EmailEvent | Unhandled

  const EmailPrefix: string := "email."

  predicate StartsWith(s: string, prefix: string) {
    |prefix| <= |s| && s[..|prefix|] == prefix
  }

  /** Exact names for the contact handlers, the `email.` prefix for the email handler, nothing otherwise. */
  function RouteFor(event: string): (r: Route)
    ensures r == ContactUpsert <==> event == "contact.created" || event == "contact.updated"
    ensures r == ContactDeletion <==> event == "contact.deleted"
    ensures r == EmailEvent <==> StartsWith(event, EmailPrefix)
  {
    if event == "contact.created" || event == "contact.updated" then
      assert event[0] != EmailPrefix[0];
      ContactUpsert
    else if event == "contact.deleted" then
      assert event[0] != EmailPrefix[0];
      ContactDeletion
    else if StartsWith(event, EmailPrefix) then EmailEvent
    else Unhandled
  }

  // ---------------------------------------------------------------------------
  // Email events and delivery statuses

  /** The event-name suffix that reports a status; `Sent` is never reported by the provider. */
  function StatusSuffix(s: DeliveryStatus): (suffix: Option<string>)
    ensures suffix.None? <==> s == Sent
  {
    match s
    case Sent => None
    case Delivered => Some("delivered")
    case Opened => Some("opened")
    case Clicked => Some("clicked")
    case Bounced => Some("bounced")
    case Complained => Some("complained")
  }

  /**
    The status an email event reports: `email.delivered|opened|clicked|bounced|complained`
    map one-to-one onto the five reportable statuses; any other name reports none.
  */
  function StatusForEvent(event: string): (r: Option<DeliveryStatus>)
    ensures r.Some? ==> r.value != Sent && event == EmailPrefix + StatusSuffix(r.value).value
    ensures r.Some? ==> RouteFor(event) == EmailEvent
  {
    if event == "email.delivered" then Some(Delivered)
    else if event == "email.opened" then Some(Opened)
    else if event == "email.clicked" then Some(Clicked)
    else if event == "email.bounced" then Some(Bounced)
    else if event == "email.complained" then Some(Complained)
    else None
  }

  /** Every reportable status has its event, so the mapping is onto as well as one-to-one. */
  lemma StatusForEventOnto(s: DeliveryStatus)
    requires s != Sent
    ensures StatusForEvent(EmailPrefix + StatusSuffix(s).value) == Some(s)
  {
    match s
    case Delivered => assert EmailPrefix + "delivered" == "email.delivered";
    case Opened => assert EmailPrefix + "opened" == "email.opened";
    case Clicked => assert EmailPrefix + "clicked" == "email.clicked";
    case Bounced => assert EmailPrefix + "bounced" == "email.bounced";
    case Complained => assert EmailPrefix + "complained" == "email.complained";
  }

  /** Two events that report the same status are the same event. */
  lemma StatusForEventInjective(e1: string, e2: string)
    requires StatusForEvent(e1).Some? && StatusForEvent(e1) == StatusForEvent(e2)
    ensures e1 == e2
  {
  }

  // ---------------------------------------------------------------------------
  // Tags derived from an email interaction

  const PriorityEmailType: string := "priority"

  /** The tags an event earns the delivery's contact, given the status and the email's type. */
  function DerivedTags(s: DeliveryStatus, emailType: string): (tags: set<string>)
    ensures tags != {} <==> s == Opened || s == Clicked
    ensures "opened_email" in tags <==> s == Opened
    ensures "opened_priority_email" in tags <==> s == Opened && emailType == PriorityEmailType
    ensures "clicked_email" in tags <==> s == Clicked
    ensures "high_intent" in tags <==> s == Clicked
    ensures "clicked_priority_email" in tags <==> s == Clicked && emailType == PriorityEmailType
    ensures tags <= {"opened_email", "opened_priority_email", "clicked_email", "high_intent", "clicked_priority_email"}
  {
    var priority := emailType == PriorityEmailType;
    match s
    case Opened => {"opened_email"} + (if priority then {"opened_priority_email"} else {})
    case Clicked => {"clicked_email", "high_intent"} + (if priority then {"clicked_priority_email"} else {})
    case _ => {}
  }

  // ---------------------------------------------------------------------------
  // The contact projection of a contact event

  const ContactSource: string := "ghl_webhook"

  /** `data.name`, or else the trimmed `firstName lastName`. */
  function DisplayName(d: EventData): (r: string)
    ensures Truthy(d.name) ==> r == d.name.value
    ensures !Truthy(d.name) ==> NoEdgeWhitespace(r)
  {
    if Truthy(d.name) then d.name.value else Trim(OrEmpty(d.firstName) + " " + OrEmpty(d.lastName))
  }

  /** The record a contact event upserts; none when the event carries no contact id. */
  function ProjectContact(d: EventData): (r: Option<ContactRecord>)
    ensures r.Some? <==> Truthy(d.id)
    ensures r.Some? ==> r.value.ghlId == d.id.value && r.value.email == d.email && r.value.source == ContactSource
    ensures r.Some? && d.customFields.None? ==> r.value.customFields == map[]
    ensures r.Some? && d.customFields.Some? ==> r.value.customFields == d.customFields.value
    ensures r.Some? ==> (r.value.joinedDate.Some? <==> Truthy(d.createdAt))
    ensures r.Some? && Truthy(d.createdAt) ==> r.value.joinedDate == d.createdAt
    ensures r.Some? && Truthy(d.name) ==> r.value.name == d.name.value
    ensures r.Some? && !Truthy(d.name) ==> r.value.name == DisplayName(d) && NoEdgeWhitespace(r.value.name)
  {
    if !Truthy(d.id) then None
    else
      Some(ContactRecord(
        d.id.value,
        d.email,
        DisplayName(d),
        if d.customFields.Some? then d.customFields.value else map[],
        if Truthy(d.createdAt) then d.createdAt else None,
        ContactSource))
  }

  /** With a first and a last name and no `name`, the name is the two joined by one space. */
  lemma DisplayNameJoinsFirstAndLast(d: EventData)
    requires !Truthy(d.name) && Truthy(d.firstName) && Truthy(d.lastName)
    requires NoEdgeWhitespace(d.firstName.value) && NoEdgeWhitespace(d.lastName.value)
    ensures DisplayName(d) == d.firstName.value + " " + d.lastName.value
  {
    var f, l := d.firstName.value, d.lastName.value;
    var full := f + " " + l;
    assert DisplayName(d) == Trim(full);
    assert NoEdgeWhitespace(full) by {
      assert full[0] == f[0];
      assert full[|full| - 1] == l[|l| - 1];
    }
    TrimOfUnpadded(full);
  }

  /** With only a first name, no separator is left dangling: the name is the trimmed first name. */
  lemma DisplayNameFirstOnly(d: EventData)
    requires !Truthy(d.name) && !Truthy(d.lastName)
    ensures DisplayName(d) == Trim(OrEmpty(d.firstName))
  {
    var f := OrEmpty(d.firstName);
    assert OrEmpty(d.firstName) + " " + OrEmpty(d.lastName) == f + " ";
    TrimIgnoresTrailingSpace(f);
  }

  /** With only a last name, no separator is left dangling: the name is the trimmed last name. */
  lemma DisplayNameLastOnly(d: EventData)
    requires !Truthy(d.name) && !Truthy(d.firstName)
    ensures DisplayName(d) == Trim(OrEmpty(d.lastName))
  {
    var l := OrEmpty(d.lastName);
    assert OrEmpty(d.firstName) + " " + OrEmpty(d.lastName) == " " + l;
    TrimIgnoresLeadingWhitespace(" ", l);
  }
}
