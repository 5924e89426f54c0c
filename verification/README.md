# ZenHub client: event decoding and dispatch, in Dafny

This project models the decode-and-dispatch core of a small Go client for the
ZenHub API:

- **History dispatch** (`GetIssueEvents`). The history endpoint returns a list
  of superimposed-field envelopes. Each envelope becomes the variant its
  `type` string names (`EstimateIssueEvent` or `TransferIssueEvent`), and only
  that variant's fields are copied. One unknown tag rejects the whole list.
- **Webhook dispatch** (`ParseWebhookEvent`). A form-encoded notification
  becomes one `IssueTransferWebhookEvent`, with each field read from its form
  key. Any other `type` is rejected.
- **The event taxonomy**: the three tags, the `EventType()` of each variant,
  and the text of `ErrUnknownEventType`.
- **The client façade**: the empty-token guard of `NewClient`, the two URL
  templates, the headers and status gate of `get`, and how `GetIssueEvents`
  chains them.

Modules follow the source files:

- `Wrappers`: `Option` (nil pointers) and `Result` (Go's `(value, error)`).
- `Text`: Go's `%d` and `%q`, each with an inverse parser.
- `Errors`: the error values and their messages.
- `Boards`: `Estimate`, `Issue`, `Pipeline`, `Board`.
- `Events`: the tags, the `Event` datatype, `EventType`, and the `Envelope`.
- `History`: the dispatch loop of `GetIssueEvents`.
- `Clients`: `NewClient`, the URLs, `get`, and `GetIssueEvents`.
- `Webhooks`: `url.Values.Get` and `ParseWebhookEvent`.

The formatters (`%d`, `%q`), the route paths, the envelope decoder and the
webhook parser each come with an inverse, and lemmas prove the round trips.
The source's dispatch loop is proved equal to a recursive definition of the
decoder.

The decoders are pure functions, so decoding the same input twice gives equal
results by construction.

Two behaviours of Go's libraries shape the model:

- A key repeated in a webhook form yields its first value, because
  `url.Values.Get` returns `vs[0]`.
- `get` accepts exactly `http.StatusOK` (200). Every other status, other 2xx
  statuses included, is an error.

## Model

| member | source | states |
|---|---|---|
| Clients.NewClient | client.go:22-33 | An empty token gives the error whose text is "invalid token" and no client. Any other token gives a client at the production URL holding that token. |
| Clients.ParsePathInvertsRoutePath | client.go:37 | The events path `/p1/repositories/<repo>/issues/<issue>/events` and the board path, with ids written in decimal, read back as the route they were built from. |
| Clients.RouteURLsInjective | client.go:84 | Under one base URL, two routes have the same URL exactly when they are equal. So an events URL fixes its repository and issue, and is never the board URL. |
| Clients.TemplateURLsInjective | client.go:84 | A board URL names exactly one repository and an events URL exactly one repository and issue. No board URL is an events URL. |
| Clients.EventsURLScenario | client_test.go:192 | The test's request for repository 123, issue 456 goes to `<base>/p1/repositories/123/issues/456/events`. |
| Clients.Get | client.go:101-130 | The body is returned exactly when the reply's status is 200. Any other status gives an error carrying the status, the URL and the body verbatim. A send failure is wrapped with the URL. |
| Clients.GetSendsToken | client.go:109-110 | The request is a GET and carries the token in the `X-Authentication-Token` header. |
| Clients.GetRejectsOtherStatus | client.go:125-127 | For a reply whose status is not 200, the error text begins "failed to send request [<status>]" and ends with the body. |
| Clients.GetIssueEvents | client.go:36-79 | A transport or status failure is returned unchanged. An unmarshal failure is wrapped with the URL and body. On success, the events are one per envelope, in order, and each decodes from its envelope. Success happens exactly when every tag is a history tag. Otherwise the first unknown tag is reported. |
| Clients.GetIssueEventsKeepsStatusError | client.go:39-42 | A reply whose status is not 200 ends the history request with the status error itself, carrying the status, the events URL and the body. |
| Clients.ServerErrorScenario | client_test.go:170-176 | A 500 reply to the events request fails with a message that begins "failed to send request [500]". |
| Text.IntToDecimal | client.go:37 | `%d` writes one or more digits, with a leading minus exactly for negative ids and no leading zero (only 0 itself begins with '0'). |
| Text.DecimalInjective | client.go:37 | Different integers never have the same decimal text. |
| Text.DecimalRoundTrip | client.go:37 | The decimal text of an integer parses back to that integer. |
| Text.QuoteRoundTrip | event.go:28-30 | `%q` text of a string reads back to the same string. |
| Text.QuoteInjective | event.go:28-30 | Two strings have the same `%q` text only when they are equal. |
| Errors.UnknownEventTypeMessageRecoversTag | event.go:28-30 | The unknown-type message is "unknown event type " followed by the quoted tag. Removing the prefix and unquoting gives the tag back. |
| Errors.UnknownEventTypeMessageInjective | event.go:28-30 | Two unknown-type errors have the same message exactly when their tags are equal. |
| Errors.BadStatusMessageShape | client.go:126 | The status error begins "failed to send request [<status>]" and ends with the body. |
| Errors.BadStatusIsNotSendFailure | client.go:114-127 | The status error always differs from the send-failure message, which has a quoted URL where the bracket is. |
| Errors.ServerErrorMessage | client_test.go:170-176 | The status error of a 500 reply begins "failed to send request [500]". |
| Events.EventType | event.go:48-64 | The corrected tag map. Each variant maps to its own tag, and each tag to one variant: estimate to "estimateIssue", transfer to "transferIssue", webhook to "issue_transfer". |
| Events.EventTypeAsWritten | webhook.go:22-25 | The tag map as the source has it. It agrees with `EventType` on the history variants and gives "estimateIssue" for the webhook variant. |
| Events.EventTypeDeterminesVariant | event.go:11-20 | Under the corrected map, two events have equal tags exactly when they are the same variant. The three tag constants are pairwise distinct. |
| Events.AsWrittenTagCollision | webhook.go:23-25 | Under the source's map, a webhook event and an estimate event report the same tag, and the webhook tag is never reported. |
| History.DecodeEnvelopeSpec | client.go:54-75 | A tag "estimateIssue" gives an estimate event and "transferIssue" gives a transfer event. Each copies the user id, the time and its own optional pair unchanged, with absent fields staying absent. Any other tag gives `UnknownEventType` with that tag. |
| History.DecodeEnvelopeInvertsToEnvelope | client.go:55-72 | Writing a history event as an envelope and decoding it gives back the same event. |
| History.DecodeEnvelopeSelective | client.go:55-72 | Decoding keeps exactly the fields of the envelope's own variant. The other variant's fields have no influence on the result. |
| History.DecodeEventsSpec | client.go:51-79 | The decode succeeds exactly when every tag is a history tag. Then it returns one event per envelope, in order, each decoded from its envelope. Otherwise the error names the first unknown tag, and no events are returned. |
| History.DispatchEvents | client.go:51-79 | The source's loop, which returns on the first unknown tag, computes the same result as `DecodeEvents`. |
| History.DecodeEventsAppend | client.go:53-77 | Decoding a concatenation is all-or-nothing and left-first. A failure in the first part wins, then a failure in the second part. Otherwise the two results are concatenated. |
| History.DecodedEventsKeepTags | event.go:48-64 | Every decoded history event reports its envelope's `type` string, under both the corrected map and the source's map. |
| History.DecodeEventsRoundTrip | client.go:51-79 | Any list of history events, written as envelopes, decodes back to itself. |
| History.HistoryScenario | client_test.go:73-169 | The test's five envelopes decode to its five expected events. Absent estimates and pipelines stay absent. |
| Webhooks.GetReadsFirst | webhook.go:34 | `Get` returns the value at the first occurrence of the key, or "" when the key is missing. |
| Webhooks.GetFirstValueWins | webhook.go:37-49 | Appending another value for a key that is already present does not change what is read. For a missing key, the appended value is read. |
| Webhooks.ParseWebhookEvent | webhook.go:28-53 | A parse failure becomes "failed to parse data" before any dispatch. Type "issue_transfer" gives a webhook event whose eight fields are `Get` of their keys, raw strings with no conversion. Any other type, empty included, gives `UnknownEventType` with that value. |
| Webhooks.FieldsInjective | webhook.go:9-18 | A webhook event is determined by its eight string fields. |
| Webhooks.WebhookRoundTrip | webhook.go:37-49 | A webhook event posted as a form parses back to itself, with `IssueNumber` kept as text. |
| Webhooks.MissingFieldIsEmpty | webhook.go:39-46 | A field whose key is missing from the form is "", not an error. |
| Webhooks.MissingTypeRejected | webhook.go:50-51 | A form without `type` is rejected as an unknown event type with tag "". |
| Webhooks.WebhookTagMatchesDiscriminator | webhook.go:37 | Under the corrected map, a parsed webhook event reports the discriminator it was dispatched on. |
| Webhooks.WebhookTagAsWrittenMismatch | webhook.go:23-25 | Under the source's map, every parsed webhook event reports "estimateIssue" rather than its discriminator. The one-pair form `type=issue_transfer` exhibits this. |
| Webhooks.IssueTransferScenario | webhook_test.go:19-36 | The test's form-decoded notification gives the expected event. |
| Webhooks.OtherTypeScenario | webhook_test.go:37-41 | The form `type=estimate_set` is rejected with tag "estimate_set". |

## Findings

| source | as written | input that shows it | evidently intended | confidence | as-written member | corrected member |
|---|---|---|---|---|---|---|
| webhook.go:23-25 | `IssueTransferWebhookEvent.EventType()` returns `EventTypeEstimateIssue` | any parsed webhook, e.g. the form `type=issue_transfer`: the result reports "estimateIssue" | return `EventTypeIssueTransfer`, the tag the event was dispatched on | high; not executed | Events.EventTypeAsWritten, Webhooks.WebhookTagAsWrittenMismatch | Events.EventType, Webhooks.WebhookTagMatchesDiscriminator |

## Left out

- The HTTP transport of `get` (client.go:101-123) is not modelled: building the request, `client.Do`, reading the body, and context cancellation. It becomes the `fetch` parameter, which maps the request to a reply or to the stage that failed.
- JSON unmarshalling of the history body, including RFC 3339 parsing of `created_at`, is not modelled. It becomes the `unmarshal` parameter. `CreatedAt` is the opaque `Instant`.
- The internals of `url.ParseQuery` are not modelled: splitting on `&` and decoding `+` and `%XX`. `ParseWebhookEvent` takes the parsed pairs in order, or the parse error.
- `GetBoard` (client.go:83-99) is not modelled beyond its URL, because it only unmarshals JSON into the `Board` records. The records are declared but no operation uses them.
- Text.EscapeRune: characters outside ASCII are kept as they are. Go's `%q` writes non-printable Unicode characters as `\u`/`\U` escapes and invalid UTF-8 bytes as `\x` escapes, which needs Unicode tables that are not modelled. ASCII is escaped exactly as Go does.
- Clients.Get: whether the request can be built is decided by `fetch`, not computed from the URL the way `http.NewRequest` does.
- Go's 64-bit `int` is modelled as an unbounded integer. Ids and statuses never overflow in this code: they are only formatted and compared.
- History.DispatchEvents appends to a sequence, where the source fills a pre-sized slice. The events returned are the same.
