# GoHighLevel integration core, modelled in Dafny

This project models the server-side integration with the GoHighLevel CRM provider:

- **Inbound webhooks** (`server/api/webhookRoutes.ts`):
  - the two authentication checks: the shared-secret signature on `/ghl` and the per-user HMAC endpoint token on `/incoming/:provider/:token`;
  - the event-name dispatcher;
  - the three event handlers: contact upsert, contact deletion, and email status with derived tags;
  - the create, update and delete routes for webhook configurations.
- **OAuth 2.0 token lifecycle** (`server/api/ghlRoutes.ts`):
  - the token-response schema;
  - the authorization-code exchange and connection upsert of the callback;
  - the refresh grant;
  - the expiry predicate;
  - `/connection-status` and the refresh-on-demand rule of `getGHLAccessToken`.

## Modules

| file | module | contents |
|---|---|---|
| `wrappers.dfy` | `Wrappers` | `Option`, `Result` |
| `js.dfy` | `Js` | JavaScript truthiness of optional strings, parsed JSON values, and `String.prototype.trim` with the ECMA-262 whitespace set |
| `signing.dfy` | `Signing` | lower-case hex of a digest, UTF-8 byte length, decimal rendering of numbers, the endpoint-token check, the signature check |
| `storage.dfy` | `Storage` | the rows and tables the routes touch; the storage layer as a class `Store` with one field per table |
| `events.dfy` | `Events` | payload shape, dispatcher, email-status mapping, the contact projection, the derived tags |
| `webhook_routes.dfy` | `WebhookRoutes` | the handlers and routes of `webhookRoutes.ts` as methods on the store, with the functions that specify their effects |
| `ghl_routes.dfy` | `GhlRoutes` | the token endpoint, the schema, expiry, and the routes of `ghlRoutes.ts` |

### How the environment is modelled

- **HMAC-SHA256.** It is a parameter `mac: (key, message) -> 32-byte digest` of every check. Every property holds for any such function. `digest('hex')` is computed exactly.
- **`crypto.timingSafeEqual`.** It compares UTF-8 byte buffers. Buffers of different lengths throw a RangeError, which is an outcome of its own (`TokenLengthMismatch`).
- **Storage layer.** `server/storage` is not part of this model. Its operations are given the semantics the routes rely on:
  - contacts are keyed by local id, and at most one contact carries a given provider id;
  - an upsert merges into the contact with that provider id or inserts a new one, and fields left `undefined` are not written;
  - tags form a set;
  - deliveries are keyed by provider message id;
  - connections are keyed by (user, provider);
  - an update writes only the fields present in the patch;
  - `deleteWebhook` reports whether a row was removed.
- **The provider's token endpoint.** It is a `TokenEndpoint` object that records every request it is sent. Its answer is arbitrary, so the routes are proved for every possible answer.
- **Time.** Time is whole seconds.
- **`storage.logError`.** It appends an `ErrorEntry(context, message)` to an error log.
- **`JSON.stringify(req.body)`.** The serialised body the signature covers is a parameter `rawBody` of the `/ghl` route, given beside the parsed payload.

## Model

| member | source | states |
|---|---|---|
| Signing.Hex | server/api/webhookRoutes.ts:23 | the hex digest has two characters per byte, all lower-case hex digits |
| Signing.UnHexHex | server/api/webhookRoutes.ts:23 | decoding the hex text gives back the digest, by induction on the digest |
| Signing.HexInjective | server/api/webhookRoutes.ts:23 | two digests with the same hex text are equal |
| Signing.AsciiUtf8Length | server/api/webhookRoutes.ts:25-28 | a hex token is as many bytes long in UTF-8 as it is characters long |
| Signing.NatToDecimalInjective | server/api/webhookRoutes.ts:22 | two user ids rendered in the template string are equal only if the numbers are |
| Signing.TokenMessageInjective | server/api/webhookRoutes.ts:22 | the message `{userId}:{provider}` determines both the user id and the provider |
| Signing.ExpectedWebhookToken | server/api/webhookRoutes.ts:19-23 | the expected token is 64 hex characters, 64 bytes in UTF-8 |
| Signing.VerifyWebhookToken | server/api/webhookRoutes.ts:19-29 | accepted exactly when the token equals hex(HMAC("webhook-secret-key", "{userId}:{provider}")); a token whose UTF-8 length is not 64 makes the comparison throw; any other token is rejected |
| Signing.TokenBindsUserAndProvider | server/api/webhookRoutes.ts:19-29 | a token accepted for two (user, provider) pairs is issued for one pair, or else the two distinct messages `{userId}:{provider}` collide under the MAC: accepting a token for a foreign pair takes an HMAC collision |
| Signing.VerifyGhlSignature | server/api/webhookRoutes.ts:32-58 | the request passes exactly when no secret is configured or the header equals the hex HMAC of the body; missing header and mismatch are the two refusals, each exactly characterised |
| Js.Trim | server/api/webhookRoutes.ts:109 | the trimmed name has no whitespace at either end |
| Js.TrimStartDropsWhitespace | server/api/webhookRoutes.ts:109 | everything cut from the start of the name is whitespace |
| Js.TrimEndDropsWhitespace | server/api/webhookRoutes.ts:109 | everything cut from the end of the name is whitespace |
| Js.TrimOfPadded | server/api/webhookRoutes.ts:109 | whitespace, then a string without edge whitespace, then whitespace, trims to that string |
| Js.TrimIgnoresTrailingSpace | server/api/webhookRoutes.ts:109 | a space appended to a string does not change its trim |
| Js.TrimIgnoresLeadingWhitespace | server/api/webhookRoutes.ts:109 | whitespace prepended to a string does not change its trim |
| Js.TrimIdempotent | server/api/webhookRoutes.ts:109 | trimming twice is trimming once |
| Events.RouteFor | server/api/webhookRoutes.ts:70-80 | the contact handler exactly for `contact.created` and `contact.updated`, deletion exactly for `contact.deleted`, the email handler exactly for names starting with `email.` |
| Events.StatusForEvent | server/api/webhookRoutes.ts:168-186 | a status is reported only for `email.` followed by that status's suffix, never `SENT`, and only for events the email handler receives |
| Events.StatusForEventOnto | server/api/webhookRoutes.ts:168-186 | each of the five reportable statuses is reported by its event, so the mapping is one-to-one and onto |
| Events.StatusForEventInjective | server/api/webhookRoutes.ts:168-186 | two events that report the same status are the same event |
| Events.DerivedTags | server/api/webhookRoutes.ts:202-219 | OPENED earns `opened_email`, plus `opened_priority_email` for priority emails; CLICKED earns `clicked_email` and `high_intent`, plus `clicked_priority_email`; no other status earns a tag |
| Events.ProjectContact | server/api/webhookRoutes.ts:100-113 | no record without a truthy `data.id`; otherwise the provider id, email, `custom_fields` defaulting to `{}`, `joined_date` present exactly for a truthy `createdAt` and then equal to it, source `ghl_webhook`, and `data.name` or else a name without edge whitespace |
| Events.DisplayName | server/api/webhookRoutes.ts:109 | `data.name` when it is truthy; otherwise a name without whitespace at either end (the lemmas below say which) |
| Events.WellFormed | server/api/webhookRoutes.ts:65 | the payload passes the guard against a missing event or data: a non-empty event name and a data object |
| Events.DisplayNameJoinsFirstAndLast | server/api/webhookRoutes.ts:109 | with no name, and clean first and last names, the name is `first last` |
| Events.DisplayNameFirstOnly | server/api/webhookRoutes.ts:109 | with no name and no last name, the name is the trimmed first name, with no dangling space |
| Events.DisplayNameLastOnly | server/api/webhookRoutes.ts:109 | with no name and no first name, the name is the trimmed last name |
| Storage.Merge | server/api/webhookRoutes.ts:116 | the merged contact shows the record, keeps its tags, and keeps email and joined date when the record leaves them out |
| Storage.Upsert | server/api/webhookRoutes.ts:116 | an existing contact with the provider id becomes its merge with the record (email and joined date kept when the record leaves them out, tags kept); otherwise a new contact built from the record is inserted under a fresh id; ids stay unique per provider id; other contacts are untouched |
| Storage.UpsertIdempotent | server/api/webhookRoutes.ts:116 | upserting the same record twice is upserting it once |
| Storage.DeleteByGhlId | server/api/webhookRoutes.ts:138-143 | the contact carrying the provider id is removed, so none carries it afterwards, and every other contact is kept unchanged |
| Storage.DeleteAbsentIsNoOp | server/api/webhookRoutes.ts:138-143 | deleting an unknown provider id changes nothing |
| Storage.DeleteIdempotent | server/api/webhookRoutes.ts:138-143 | deleting twice is deleting once |
| Storage.AddTags | server/api/webhookRoutes.ts:205-217 | only the named contact's tag set grows, by exactly the tags given; an unknown contact changes nothing |
| Storage.AddTagsTwice | server/api/webhookRoutes.ts:205-217 | adding tags one call at a time adds their union |
| Storage.SetStatus | server/api/webhookRoutes.ts:189-191 | only the delivery with that message id changes, and only its status |
| Storage.ApplyPatch | server/api/webhookRoutes.ts:486 | every field present in the patch is written and every absent one keeps its stored value; owner, variant, provider and endpoint token are never written |
| Storage.CreateConnection | server/api/ghlRoutes.ts:78-86 | a new connection for the key, with a fresh id; the others are untouched |
| Storage.UpdateConnection | server/api/ghlRoutes.ts:69-75 | only the connection with that id is patched |
| Storage.ApplyConnectionPatch | server/api/ghlRoutes.ts:69-75 | each field present in the patch is written, each absent one is kept, and the id never changes |
| Storage.Store.UpsertContactByGhlId | server/api/webhookRoutes.ts:116 | the contacts become the upsert of the record |
| Storage.Store.GetContactByGhlId | server/api/webhookRoutes.ts:138 | finds the contact carrying the provider id, and nothing when none does |
| Storage.Store.DeleteContact | server/api/webhookRoutes.ts:142 | the contact with that local id is removed |
| Storage.Store.AddTagToContact | server/api/webhookRoutes.ts:205 | the tag is added to the contact's set |
| Storage.Store.UpdateEmailDeliveryByGhlMessageId | server/api/webhookRoutes.ts:189-191 | the status is overwritten, and the updated delivery is returned exactly when the message id is known |
| Storage.Store.CreateWebhook | server/api/webhookRoutes.ts:373 | the row is stored under a fresh id |
| Storage.Store.UpdateWebhook | server/api/webhookRoutes.ts:486 | the patch is written into an existing row, and the updated row is returned |
| Storage.Store.DeleteWebhook | server/api/webhookRoutes.ts:514 | the row is gone, and the result says whether it existed |
| Storage.Store.GetIntegrationConnection | server/api/ghlRoutes.ts:65 | the connection of a (user, provider) pair, if any |
| Storage.Store.CreateIntegrationConnection | server/api/ghlRoutes.ts:78-86 | the connections become the table with the new connection under the key and a fresh id |
| Storage.Store.UpdateIntegrationConnection | server/api/ghlRoutes.ts:69-75 | the connections become the table with the connection of that id patched |
| Storage.Store.GetWebhook | server/api/webhookRoutes.ts:455 | the row with that id, and nothing exactly when there is none |
| Storage.Store.LogError | server/api/webhookRoutes.ts:119-126 | the log gains exactly one entry with the context and the message, at its end |
| WebhookRoutes.ContactEventEffect | server/api/webhookRoutes.ts:98-127 | the contact table stays valid after a contact event |
| WebhookRoutes.DeletionEffect | server/api/webhookRoutes.ts:130-153 | without an id nothing changes; with one, the contact carrying it is removed, none carries it afterwards, and every contact with another provider id is kept |
| WebhookRoutes.EmailEffect | server/api/webhookRoutes.ts:156-233 | without a message id or with an unsupported event nothing changes; otherwise the deliveries become the status overwrite for that message id, and when the delivery and its email exist the delivery's contact gains exactly the derived tags; in every other case the contacts are unchanged |
| WebhookRoutes.ApplyEvent | server/api/webhookRoutes.ts:70-80 | an unrecognised event changes nothing, and only the email handler touches deliveries |
| WebhookRoutes.EventErrors | server/api/webhookRoutes.ts:98-233 | a handler logs at most one entry, and none exactly when the event is unhandled or carries the id (contact events) or a message id and a known status (email events) it needs |
| WebhookRoutes.ContactEventIdempotent | server/api/webhookRoutes.ts:100-116 | a contact event applied twice leaves the contacts as applying it once |
| WebhookRoutes.ContactEventSingleContact | server/api/webhookRoutes.ts:100-116 | after a contact event with an id, exactly one contact carries that id, and it shows the projection |
| WebhookRoutes.DeletionIdempotent | server/api/webhookRoutes.ts:130-153 | a deletion applied twice is a deletion applied once |
| WebhookRoutes.DeletionOfUnknownContact | server/api/webhookRoutes.ts:137-144 | deleting an unknown contact changes nothing and logs nothing |
| WebhookRoutes.EmailEventStatus | server/api/webhookRoutes.ts:160-186 | a status is set exactly for a truthy message id and a known event, and it is the status that event reports |
| WebhookRoutes.EmailEventIdempotent | server/api/webhookRoutes.ts:156-233 | replaying an email event leaves deliveries and tags as one delivery of it |
| WebhookRoutes.EmailStatusOverwritesUnconditionally | server/api/webhookRoutes.ts:189-191 | the known delivery takes the event's status whatever its previous status |
| WebhookRoutes.EmailTagsNeedDeliveryEmailAndContact | server/api/webhookRoutes.ts:194-219 | contacts change only for an open or click whose delivery, email and contact all exist |
| WebhookRoutes.ApplyEventIdempotent | server/api/webhookRoutes.ts:70-80 | every dispatched event is idempotent on contacts and deliveries |
| WebhookRoutes.HandleContactEvent | server/api/webhookRoutes.ts:98-127 | the contacts become the effect of the event; a missing id is logged and nothing else happens |
| WebhookRoutes.HandleContactDeletion | server/api/webhookRoutes.ts:130-153 | the contact with the id is deleted if there is one; a missing id is logged |
| WebhookRoutes.HandleEmailEvent | server/api/webhookRoutes.ts:156-233 | the delivery and contact tables become the email effect; a missing message id and an unsupported event are logged |
| WebhookRoutes.TagContact | server/api/webhookRoutes.ts:204-218 | the sequence of `addTagToContact` calls adds exactly the derived tags |
| WebhookRoutes.Dispatch | server/api/webhookRoutes.ts:70-80 | the tables become the effect of the routed handler, and the log gains exactly that handler's errors |
| WebhookRoutes.HandleGhlWebhook | server/api/webhookRoutes.ts:61-95 | 401 exactly when the signature check refuses; 400 exactly for a payload without event or data; otherwise 200 after dispatch, unrecognised events included; nothing changes unless 200 |
| WebhookRoutes.HandleIncomingWebhook | server/api/webhookRoutes.ts:236-321 | 401 exactly for a same-length wrong token, changing nothing; a token of another length is logged as a `Dynamic Webhook Handler` error and answered 200, changing no table; an accepted token is answered 200 after the provider switch, with the tables and the log as `ProcessIncoming` states |
| WebhookRoutes.ProcessIncoming | server/api/webhookRoutes.ts:255-305 | `gohighlevel` with event and data dispatches, logging the handler's errors and an invalid-payload entry when the event has no handler; without event or data it logs only the invalid-payload entry; `openai` changes and logs nothing; any other provider changes nothing and logs the unsupported-provider entry then the invalid-payload entry |
| WebhookRoutes.BadTokenNeverAccepted | server/api/webhookRoutes.ts:246-250 | a token other than the expected one is never accepted, and it is refused with 401 exactly when its length is 64 bytes |
| WebhookRoutes.NewEndpointToken | server/api/webhookRoutes.ts:338-344 | a 64-character token exactly for INCOMING webhooks |
| WebhookRoutes.NewWebhookRow | server/api/webhookRoutes.ts:346-365 | the new row is active, has the request's type, name, description, secret key, notification email, trigger event, target URL, HTTP method and payload template, the given provider and user or else `custom` and user 1, the given event handling, headers and selected fields or else `[]`, `{}` and `[]`, and the endpoint token given |
| WebhookRoutes.CreateWebhook | server/api/webhookRoutes.ts:324-396 | 400 exactly without type or name, writing nothing; otherwise 201 and the new row under a fresh id |
| WebhookRoutes.UpdatePatch | server/api/webhookRoutes.ts:465-481 | name and description as given, `is_active` as given or else kept; an INCOMING row takes the request's secret key, event handling and notification email, an OUTGOING row the request's six outgoing fields, and neither takes the other variant's |
| WebhookRoutes.UpdateKeepsVariant | server/api/webhookRoutes.ts:449-505 | an update keeps owner, variant, provider and endpoint token, keeps `is_active` when omitted, and never writes the other variant's fields |
| WebhookRoutes.UpdateWebhook | server/api/webhookRoutes.ts:449-505 | 404 exactly for an unknown id, writing nothing; otherwise 200 and the patched row |
| WebhookRoutes.DeleteWebhook | server/api/webhookRoutes.ts:508-540 | 404 exactly for an unknown id; the row is absent afterwards |
| GhlRoutes.TokenEndpoint.Post | server/api/ghlRoutes.ts:46-52 | every request is recorded with its answer |
| GhlRoutes.EncodeTokenResponse | server/api/ghlRoutes.ts:10-15 | a token response has exactly the four schema keys |
| GhlRoutes.ParseTokenResponse | server/api/ghlRoutes.ts:10-15 | accepted exactly for an object whose `access_token`, `refresh_token`, `token_type` are strings and `expires_in` is a number; the parsed values are those fields |
| GhlRoutes.ParseEncode | server/api/ghlRoutes.ts:10-15 | every well-formed response is accepted and read back unchanged |
| GhlRoutes.ParseIgnoresExtraKeys | server/api/ghlRoutes.ts:10-15 | keys beyond the schema's four do not affect the result |
| GhlRoutes.Grant | server/api/ghlRoutes.ts:46-55 | a failed request yields no tokens; a successful answer yields exactly what the schema parses from its body |
| GhlRoutes.Configured | server/api/ghlRoutes.ts:18-25 | both the client id and the client secret are set and non-empty (its use is stated by `Callback`) |
| GhlRoutes.ExpiryWindow | server/api/ghlRoutes.ts:58-59 | a token granted at `t` with lifetime `e` counts as expired exactly after `t + e`, and not at `t + e` |
| GhlRoutes.ExpiryMonotone | server/api/ghlRoutes.ts:117 | a null expiry never expires, and an expired token stays expired |
| GhlRoutes.ExpiresAt | server/api/ghlRoutes.ts:58-59 | the expiry is the current time plus `expires_in` seconds (its meaning is stated by `ExpiryWindow`) |
| GhlRoutes.IsExpired | server/api/ghlRoutes.ts:116-117 | a stored expiry that lies strictly before now; a null expiry never expires (stated by `ExpiryWindow` and `ExpiryMonotone`) |
| GhlRoutes.ExchangeEffect | server/api/ghlRoutes.ts:64-87 | the connection table stays valid after the upsert |
| GhlRoutes.ExchangeUpserts | server/api/ghlRoutes.ts:64-87 | afterwards the (1, `ghl`) key has one connection with the new tokens, expiry `now + expires_in`, active, and `{locationId}`; an existing connection keeps its id; others are untouched |
| GhlRoutes.ExchangeIdempotent | server/api/ghlRoutes.ts:64-87 | replaying a callback with the same grant leaves the connections as one callback does |
| GhlRoutes.ExchangePatch | server/api/ghlRoutes.ts:69-75 | the callback's patch: the new tokens, their expiry, active, and `{locationId}` (its effect is stated by `ExchangeUpserts`) |
| GhlRoutes.SaveConnection | server/api/ghlRoutes.ts:64-87 | the connections become the exchange effect: the existing connection of user 1 and `ghl` is patched, or a new one is created |
| GhlRoutes.Callback | server/api/ghlRoutes.ts:35-102 | 500 exactly without client id and secret, 400 exactly without code or location, neither calling the provider; otherwise one code grant is posted, and a valid answer upserts and redirects to success while any other answer writes nothing, is logged and redirects to the error page |
| GhlRoutes.RefreshToken | server/api/ghlRoutes.ts:143-175 | one refresh grant is posted; success exactly for a valid answer, writing the refresh patch; on failure nothing is written and the error is logged |
| GhlRoutes.RefreshPatch | server/api/ghlRoutes.ts:159-163 | the refresh writes the access token, the refresh token and the expiry, and nothing else (stated by `RefreshTouchesOnlyTokens`) |
| GhlRoutes.RefreshTouchesOnlyTokens | server/api/ghlRoutes.ts:159-163 | a refresh writes only the access token, the refresh token and the expiry of that one connection |
| GhlRoutes.ConnectionStatus | server/api/ghlRoutes.ts:105-140 | not connected without an active connection, and connected for an unexpired token, both without a request or a write; an expired token is refreshed with one refresh grant: a valid answer replies connected and leaves the connections patched with the refresh and the log unchanged, any other answer replies that the refresh failed, writes nothing and logs a `GHL Token Refresh` entry |
| GhlRoutes.GetAccessToken | server/api/ghlRoutes.ts:178-205 | an error exactly for a missing or inactive connection; an unexpired stored token is returned without calling the provider; an expired one is refreshed: a valid answer returns the new access token and leaves the connection with the new tokens and expiry, its `is_active`, config and id unchanged, the other connections untouched and the log unchanged; any other answer fails with nothing written and a `GHL Token Refresh` entry logged; a returned token is always the stored one |

## Left out

- HMAC-SHA256 and SHA-256 themselves: every check takes the MAC as a parameter.
- The constant-time behaviour of `timingSafeEqual` is a timing property. Only its result and its length exception are modelled.
- The `/ghl` signature header as an array (a repeated header) is not modelled: the header is a single optional string.
- Exceptions thrown by the storage layer are not modelled. These are the 500 answers of the webhook configuration routes, the storage failures reaching the catches of `/ghl` at `server/api/webhookRoutes.ts:84-93` and of `/incoming` at `server/api/webhookRoutes.ts:309-319`, and that of `/connection-status` at `server/api/ghlRoutes.ts:131-139`.
- Payload fields are modelled as optional strings, and `customFields` as a string map. A truthy `event` that is not a string (a number, an object) makes `event.startsWith` throw a TypeError in the source. It is caught at `server/api/webhookRoutes.ts:84-93` or `309-319`, logged as a `GHL Webhook Handler` or `Dynamic Webhook Handler` error, and answered 200. That path, and `data` fields of other JSON types, are not modelled.
- Concurrency: every call is sequential, so the race between two concurrent refreshes is out of scope.
- `Date`: times are whole seconds. Milliseconds, fractional `expires_in` values and `new Date(createdAt)` parsing are not modelled. `joined_date` keeps the `createdAt` text.
- `Date.now()` at webhook creation is the parameter `nowMillis`.
- `console.log` output and the `stack` and context arguments of `storage.logError` are not modelled. The log keeps the context and the message.
- The message a schema failure carries (a validation error listing the failed fields) is a single constant text in this model.
- The re-read at `server/api/ghlRoutes.ts:196-199` cannot find the connection missing: the refresh never removes it. The error branch there is therefore not modelled.
- Exchange requests are recorded with the client id, client secret, code or refresh token, and redirect URI. The token URL is not recorded.
- `GET /auth/ghl` (building the authorization URL), `GET /` and `GET /:id` of the webhook routes only read or redirect. They are not part of this model.
- `WebhookType.INCOMING` and `WebhookType.OUTGOING` come from `@shared/schema`, which is not part of this model. Their values are taken to be `incoming` and `outgoing`.
- Webhook ids arrive as `parseInt(id)`. A non-numeric id (`NaN`) is not modelled: ids are natural numbers.
- WebhookRoutes.NewEndpointToken: the token is stated to be present exactly for INCOMING webhooks and 64 characters long. Its uniqueness depends on the clock and the hash and is not stated.
