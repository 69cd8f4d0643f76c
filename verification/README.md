# License-key webhook handler, modelled in Dafny

This project models the one piece of logic in the license-key server: the `/webhook`
handler in `server.py` and the `generate_license_key` helper it calls.

When the payment provider reports a completed checkout (`checkout.session.completed`),
the handler resolves the purchaser's email. It takes the last custom field keyed
`email`, falling back to `customer_email`. It resolves the purchased price id: the first
line item's price, else `metadata.price`, else the first display item's price. It maps the
price id to a tier (`Pro`, `Standard`, `Lite`, or `Unknown`). Without an email it answers
400 "Email not found". Otherwise it generates a key such as `ARPRO-1a2b-3c4d-5e6f`,
appends `{email, tier, key, timestamp}` to the `licenses` list and answers with the key.
Any other event type is acknowledged as "ignored". A lookup that raises (a missing `type`,
`data` or `object` key, or element 0 of an empty list) is answered with 500.

Files:

- `wrappers.dfy`: `Option` (an absent JSON key) and `Result` (a lookup that may raise).
- `license_key.dfy`: the prefix table and the key format. It also has a reader `SplitKey`
  for the format, which is used to prove that generation and reading are inverse.
- `events.dfy`: the parsed event as the handler reads it, with Python's `.get` defaults.
- `webhook.dfy`: the handler. It has two parts:
  - the specification: `Decide`, for what the handler decides, and `Handle`, for the
    response and the new store;
  - the imperative model: the store as a class with an append method, the scan of
    `custom_fields` as a loop, and `HandleWebhook`, which follows the source step by step
    and is proved equal to `Handle`.

The randomness (`uuid4().hex[:4]`, three times) comes in as three 4-character lowercase-hex
strings. The clock (`datetime.utcnow().isoformat()`) comes in as the string `now`, and the
record's timestamp is `now + "Z"`.

The handler neither verifies the provider's signature nor remembers event ids, and the
model follows the code. `RedeliveryIssuesAgain` states the consequence: a redelivered
event stores a second record.

## Model

| member | source | states |
|---|---|---|
| `LicenseKey.Prefix` | server.py:13-17 | The prefix is one of `ARLITE`, `ARSTD`, `ARPRO`, `ARUNK`, and it has 5 or 6 characters. |
| `LicenseKey.PrefixOfTier` | server.py:13-17 | In both directions: `ARLITE` exactly for `Lite`, `ARSTD` for `Standard`, `ARPRO` for `Pro`, and `ARUNK` for every other tier, `Unknown` included. |
| `LicenseKey.GenerateLicenseKey` | server.py:12-18 | The key starts with the tier's prefix and is exactly 15 characters longer than it. |
| `LicenseKey.SplitGenerated` | server.py:18 | Every generated key is prefix, `-`, 4 hex, `-`, 4 hex, `-`, 4 hex, and reading it back gives that prefix and those three groups. |
| `LicenseKey.LicenseKeyIsGenerated` | server.py:18 | Conversely, every string in that format is the key generated from its own prefix's tier and groups. |
| `LicenseKey.GeneratedKeysEqual` | server.py:18 | Two keys are equal exactly when their prefixes and all three random groups are equal. |
| `LicenseKey.TierOfPrefix` | server.py:13-17 | Each known prefix has a tier that generates it. |
| `Events.SessionOf` | server.py:24-25 | `event['data']['object']` yields the session exactly when both keys are present. Otherwise it raises KeyError naming the first missing key, `data` or `object`. |
| `Events.FirstItemPriceId` | server.py:40-41 | Indexing `[0]` fails exactly on an empty list; otherwise it gives the first item's `price.id`. |
| `Webhook.Status` | server.py:52-77 | 200 exactly for success and ignored, 400 for the missing email, 500 for a caught exception. |
| `Webhook.LastEmailValue` | server.py:31-34 | The scan's result, when there is one, is the value of some field keyed `email`. `NoEmailFieldGivesNone` and `LastEmailFieldWins` say which field. |
| `Webhook.NoEmailFieldGivesNone` | server.py:26-34 | With no custom field keyed `email`, the scan leaves `email` as None. |
| `Webhook.LastEmailFieldWins` | server.py:32-34 | The scan does not stop early, so the last field keyed `email` decides the value, even when that field's value is absent. |
| `Webhook.EmailFromCustomFields` | server.py:31-34 | The loop over `custom_fields` returns the last email field's value. |
| `Webhook.ResolveEmail` | server.py:31-37 | The email is either the scanned value or `customer_email`, and it is the scanned value whenever that is truthy. |
| `Webhook.EmailFromLastField` | server.py:31-37 | A truthy value in the last email field is the purchaser's email. |
| `Webhook.EmailFallsBackToCustomer` | server.py:36-37 | With no email field, or a last email field whose value is absent or empty, `customer_email` is used. |
| `Webhook.ResolvePriceId` | server.py:40-41 | The only failure is IndexError. A resolved id is None or comes from one of the three sources: the first line item, `metadata.price`, or the first display item. `PriceIdPrecedence` and `PriceLookupFails` say which source applies. |
| `Webhook.PriceIdPrecedence` | server.py:40-41 | A truthy `line_items[0].price.id` comes first. When `line_items` is absent, or its first item's id is absent or empty, `metadata.price` is used if it is truthy. Otherwise the first display item's id is used, or None when `display_items` is absent. |
| `Webhook.PriceLookupFails` | server.py:40-41 | Price resolution raises exactly when `line_items` is present but empty, or when the chain reaches a present but empty `display_items`. The error is then IndexError. |
| `Webhook.TierOf` | server.py:43-49 | The tier is always one of `Pro`, `Standard`, `Lite`, `Unknown`. |
| `Webhook.TierOfPriceId` | server.py:43-49 | In both directions, the three listed price ids map to `Pro`, `Standard` and `Lite`. Every other id, and no id, maps to `Unknown`. |
| `Webhook.Decide` | server.py:23-52 | Each of the four outcomes, with its exact condition. The event is ignored exactly when `type` is present and is not `checkout.session.completed`. It fails exactly when `type`, `data` or `object` is missing or the price lookup raises, and the failure names that lookup. It is rejected with "Email not found" exactly when the lookups succeed and the resolved email is absent or empty. Otherwise a license is issued for `ResolveEmail`'s value under `TierOf` of the resolved price id. |
| `Webhook.Handle` | server.py:23-73 | The response is a success exactly when `Decide` issues. On success the store gains exactly one record at its end, holding the decided email and tier, the response's key and `now + "Z"`, and the key is generated for the decided tier. Otherwise the store is unchanged. |
| `Webhook.HandleAppendsOnSuccess` | server.py:55-73 | The store only grows: by one record on success and by none otherwise, with earlier records unchanged. The new record is well formed: it has the decided email and tier, `now + "Z"`, and the key returned in the response. |
| `Webhook.HandlePreservesWellFormed` | server.py:55-73 | If every stored record is well formed, they all still are after any delivery. |
| `Webhook.OtherEventsIgnored` | server.py:74-75 | Every other event type answers 200 "ignored" and leaves the store unchanged. |
| `Webhook.MissingEmailRejected` | server.py:51-52 | With neither a truthy email field nor a truthy `customer_email`, the answer is 400 "Email not found" and nothing is stored. |
| `Webhook.LookupFailureIsServerError` | server.py:76-77 | A missing `type`, `data` or `object`, or a failed price lookup, answers 500 and stores nothing. Price resolution comes before the email check, so this holds whatever the email. |
| `Webhook.UnmappedPriceIssuesUnknown` | server.py:49-55 | An unmapped or missing price id is not an error. With an email, a license is issued under tier `Unknown` with an `ARUNK` key. |
| `Webhook.ListedPriceIssuesTier` | server.py:43-73 | A completed checkout with an email and one of the three listed price ids stores one record for that email under the listed tier. The key starts with that tier's prefix (`ARPRO`, `ARSTD` or `ARLITE`), never `ARUNK`. |
| `Webhook.RedeliveryIssuesAgain` | server.py:55-73 | Delivering the same completed checkout twice stores two records for the same email. The two responses are equal only when the random groups are. |
| `Webhook.LicenseStore.constructor` | server.py:63-65 | The store holds the list loaded from an existing file. |
| `Webhook.LicenseStore.Empty` | server.py:66-67 | A missing file gives the empty list. |
| `Webhook.LicenseStore.Append` | server.py:69 | Appending adds the record at the end and changes nothing else. |
| `Webhook.HandleWebhook` | server.py:21-77 | The step-by-step handler returns exactly `Handle`'s response and leaves the store exactly as `Handle` describes. |

## Left out

- Flask routing, `request.get_json()` and `jsonify`: the model returns a `Response` value and its HTTP `Status`. The 500 body's text (`str(e)`) is represented by the `Failure` value, not by a string.
- Reading and writing `licenses.json`: the store is an in-memory list. Failures of that I/O are not modelled. These are a corrupt file, a file without a `licenses` key, and a failed write, each of which would end in a 500.
- `uuid4()` and `datetime.utcnow()` are nondeterministic, so they are parameters.
- JSON `null` is modelled only where it behaves like an absent key. That holds for the string-valued keys `customer_email`, `metadata.price`, `text.value`, `key` and `price.id`, because `.get` returns None for both. A `null` or non-string `type` never equals `checkout.session.completed`, so it is answered "ignored", like any other non-matching type string in the model.
- Containers that are `null` or of the wrong type are not modelled. These are `data`, `custom_fields`, `text`, `metadata`, `line_items`, `display_items` and `price`. Most of them raise inside the `try` and answer 500. An empty string as `custom_fields` iterates like an empty list. Non-string email or price values are not modelled either.
- Concurrent requests are not modelled; deliveries are handled one after another. The source reads `licenses.json`, appends and rewrites it without a lock, so two concurrent completed checkouts can lose a record.
- The `if __name__ == '__main__'` block is unreachable inside the handler and only starts the server.
- Signature verification and idempotency by event id are not implemented by the code, so they are not modelled.
- Catalog listing and checkout-session creation are not part of this model.
