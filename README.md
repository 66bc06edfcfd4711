# WaaPy nodes for n8n, modelled in Dafny

This project models the two pieces of behaviour in the WaaPy integration for
the n8n workflow host:

- the **Waapy** action node's `execute`, which sends one WhatsApp message per
  input item (`sendText` or `sendImage`) to the WaaPy provider, turns each
  response into one output item, and either records a failed item in its
  output slot (continue-on-fail, as intended; as written, the handler at line
  206 throws for a failed item after the first — see "## Findings") or stops
  the run at the first failure (fail-fast);
- the **WaaPy Trigger** node's webhook lifecycle (`checkExists`, `create`,
  `delete`), which keeps the provider-side registration id in the node's
  persisted static data as `webhookId`, and its `webhook` handler, which passes
  each pushed event body through as one workflow item.

Every HTTP call goes through `helpers.httpRequest`; the model replaces it with
an oracle `Server = Request -> Result<Value, Error>` (a response or a thrown
error). The methods return the requests they issued, so "no call is made" and
"exactly one POST" are stated about that list. Credentials, node parameters,
the webhook URL and the continue-on-fail flag are plain inputs.

Files:

- `wrappers.dfy`: `Option` and `Result`.
- `js.dfy`: JavaScript values (JSON plus `undefined`) and the string a template
  literal makes of a value (used for `/n8n/webhooks/${webhookId}`).
- `host.dfy`: credentials, requests, errors with their optional `context`,
  execution records, and `Call`, the request shape every call shares (server
  URL + path, `Authorization: Bearer <apikey>`).
- `waapy.dfy`: request bodies, the per-item request and outcome, and
  `Execute`, the loop of `execute`.
- `waapy_trigger.dfy`: the `StaticData` class with the `webhookId` field and
  the three hook methods, the step functions that specify them, lemmas about
  sequences of hook calls, and `Webhook`.

Notes on the code:

- images are posted to `/n8n/messages/send-image` with the flat body
  `{connectionName, recipient, mediaUrl, caption}`; there is no upload mode, no
  base64 data URI and no connection search in the code;
- in fail-fast mode `execute` throws, so no output at all is returned;
- with continue-on-fail on, the failure handler as written reads
  `getInputData(i)[0].json`, which throws for any failed item after the first,
  so the run ends with no output; `Execute` models the intended record and
  `RunAsWritten` the code as written (see "## Findings");
- `create` only fails early when the webhook URL is undefined; an empty URL
  string is posted;
- `create` stores whatever defined value the response has under `id` (the
  `as string` cast checks nothing), so `webhookId` is a JavaScript value.

## Model

| member | source | states |
|---|---|---|
| `Waapy.Execute` | nodes/Waapy/Waapy.node.ts:149-218 | The run succeeds iff continue-on-fail is on or no item fails. On success there is one output branch with exactly one output item per input item, in order: item i's response unwrapped (first element of an array, `undefined` for an empty array, anything else unchanged) or `{json: items[i].json, error, pairedItem: i}`; the requests issued are one per item in index order. On failure, k is the first failing item, the thrown error is that error with `context.itemIndex = k` (or a `NodeApiError` around it when it has no context), and only the requests of items 0..k were issued. |
| `Waapy.IssuedOnePerItem` | nodes/Waapy/Waapy.node.ts:156-200 | For resource `message` with `sendText` or `sendImage`, a run over n items issues exactly n requests, the i-th built from item i's parameters. |
| `Waapy.IssuedNothing` | nodes/Waapy/Waapy.node.ts:160-201 | Any other resource or operation issues no HTTP call at all (each item then outputs `{json: undefined}`). |
| `Waapy.ItemResultReads` | nodes/Waapy/Waapy.node.ts:153-193 | An item's request and outcome depend only on resource and operation of item 0, and on recipient, text, image URL, caption and connection name of that item (plus credentials and the provider). |
| `Waapy.SendTextRequest` | nodes/Waapy/Waapy.node.ts:165-182 | `sendText` is one POST to server URL + `/n8n/messages/send-text`, with the bearer API key, whose body the provider reads as the text message (connection name, recipient, text). |
| `Waapy.SendImageRequest` | nodes/Waapy/Waapy.node.ts:183-199 | `sendImage` is one POST to server URL + `/n8n/messages/send-image`, with the bearer API key, whose body reads as the image message (connection name, recipient, media URL, caption, which may be empty). |
| `Waapy.ParseBody` | nodes/Waapy/Waapy.node.ts:173-197 | Each request body reads back as the message it was built from. |
| `Waapy.BodyParse` | nodes/Waapy/Waapy.node.ts:173-197 | A body that reads as a message is exactly the body built for it: `{connectionName, recipient, message: {body, type: "text"}}` or `{connectionName, recipient, mediaUrl, caption}`, no other keys. |
| `Waapy.AsWrittenFirstItemAgrees` | nodes/Waapy/Waapy.node.ts:206 | The failure handler as written gives the intended record for item 0. |
| `Waapy.AsWrittenAbortsOnLaterItem` | nodes/Waapy/Waapy.node.ts:206 | For any later item of a single-input node, the failure handler as written throws instead of recording the failure. |
| `Waapy.AsWrittenRunAborts` | nodes/Waapy/Waapy.node.ts:156-215 | With continue-on-fail on, a failure of any item after the first makes the run with the handler as written throw, so it returns no output at all. |
| `Waapy.RunAsWrittenStaysFailed` | nodes/Waapy/Waapy.node.ts:156-215 | Once the run with the handler as written has thrown at some item, the run over any longer prefix has thrown too. |
| `Host.CallRoundTrip` | nodes/Waapy/Waapy.node.ts:167-181 | Every call carries the given method and body, exactly one header `Authorization: Bearer <apikey>`, and a URL that is the server URL followed by the endpoint path. |
| `WaapyTrigger.StaticData.CheckExists` | nodes/WaapyTrigger/WaapyTrigger.node.ts:64-87 | Returns true iff a `webhookId` is stored and the GET on `/n8n/webhooks/{id}` succeeds; without an id no call is made; the field is never changed. |
| `WaapyTrigger.StaticData.Create` | nodes/WaapyTrigger/WaapyTrigger.node.ts:89-128 | The new `webhookId`, the result and the issued requests are those of `CreateStep` from the old `webhookId`; the stored id is never `undefined` afterwards. |
| `WaapyTrigger.StaticData.Delete` | nodes/WaapyTrigger/WaapyTrigger.node.ts:130-152 | The new `webhookId`, the result and the issued requests are those of `DeleteStep` from the old `webhookId`; the stored id is never `undefined` afterwards. |
| `WaapyTrigger.DeleteRegistered` | nodes/WaapyTrigger/WaapyTrigger.node.ts:132-151 | With a stored id, `delete` issues exactly one DELETE on `/n8n/webhooks/{id}`; if the provider accepts it the id is removed and the result is true, otherwise the result is false and the id is kept. |
| `WaapyTrigger.StepsKeepDefinedId` | nodes/WaapyTrigger/WaapyTrigger.node.ts:66-145 | No hook call stores `undefined` as the id, the value the code treats as "no registration". |
| `WaapyTrigger.UnregisteredMakesNoCalls` | nodes/WaapyTrigger/WaapyTrigger.node.ts:62-152 | Without a stored id, `checkExists` and `delete` return false, issue no request and leave the id absent. |
| `WaapyTrigger.CheckExistsKeepsId` | nodes/WaapyTrigger/WaapyTrigger.node.ts:64-87 | `checkExists` never changes the stored id and issues at most one request, whatever the provider answers. |
| `WaapyTrigger.CreateNeedsUrl` | nodes/WaapyTrigger/WaapyTrigger.node.ts:90-96 | Without a webhook URL, `create` throws a `NodeOperationError`, issues no request and leaves the id unchanged. |
| `WaapyTrigger.CreateStoresReturnedId` | nodes/WaapyTrigger/WaapyTrigger.node.ts:101-127 | With a URL, `create` returns true iff the POST succeeds and its response has a defined `id`, and then stores that id; otherwise it throws a `NodeApiError` and the stored id is unchanged. In every case it issues exactly one request: a POST of the subscription body to server URL + `/n8n/webhooks`. |
| `WaapyTrigger.SubscribeBodyReadBack` | nodes/WaapyTrigger/WaapyTrigger.node.ts:101-112 | The posted body has exactly the keys `url` and `events`; `url` is the webhook URL and `events` lists the selected event names in order. |
| `WaapyTrigger.CheckExistsRegistered` | nodes/WaapyTrigger/WaapyTrigger.node.ts:66-84 | With a stored id, `checkExists` issues exactly one GET on `/n8n/webhooks/{id}`, keeps the id and returns whether the provider accepted it. |
| `WaapyTrigger.CreateIgnoresPreviousId` | nodes/WaapyTrigger/WaapyTrigger.node.ts:89-123 | `create` never reads the previous id: from any two states it issues the same request, gives the same result and, on success, stores the same id. |
| `WaapyTrigger.CreateThenCheckExists` | nodes/WaapyTrigger/WaapyTrigger.node.ts:71-122 | After a successful `create`, `checkExists` issues exactly one GET, on the id just stored. |
| `WaapyTrigger.CreateThenDelete` | nodes/WaapyTrigger/WaapyTrigger.node.ts:122-146 | A successful `create` followed by a `delete` whose DELETE on the new id the provider accepts returns true and leaves no id stored. |
| `WaapyTrigger.StaleIdReplacedWithoutDelete` | nodes/WaapyTrigger/WaapyTrigger.node.ts:130-151 | A `delete` the provider rejects returns false and keeps the id; a later successful `create` replaces it issuing only a POST, so the old registration is never deleted. |
| `WaapyTrigger.QuietKeepsId` | nodes/WaapyTrigger/WaapyTrigger.node.ts:62-154 | Over any sequence of hook calls in which no `create` or `delete` reports success, the stored id stays what it was. |
| `WaapyTrigger.Webhook` | nodes/WaapyTrigger/WaapyTrigger.node.ts:156-167 | One output branch holding one item whose `json` is the request body, with no error and no paired item. |

## Findings

| source | as written | input that shows it | evidently intended | confidence | as-written member | corrected member |
|---|---|---|---|---|---|---|
| nodes/Waapy/Waapy.node.ts:206 | the continue-on-fail record takes `this.getInputData(i)[0].json`; the argument of `getInputData` is the index of an input connection, not of an item | two input items, continue-on-fail on, item 1 fails: the node has only input connection 0, so there is no item list for connection 1 and the handler throws, ending the run | `{json: items[i].json, error, pairedItem: i}`, one output item per input item | high for the reading of line 206; the host's exact reaction to a missing input index depends on the n8n host, which is not part of this model; not executed | `Waapy.AsWrittenRunAborts` | `Waapy.Execute` |

## Left out

- The node descriptions (display names, parameter definitions, request defaults) and the credential definition: declarative metadata with no behaviour.
- The HTTP transport, `getCredentials`, `getNodeParameter`, `getNodeWebhookUrl`, `getWorkflowStaticData` and `continueOnFail`: host calls, modelled as inputs or as the `Server` oracle. Errors that `getNodeParameter` or `getCredentials` might raise inside the `try` block are not modelled; only the HTTP call fails.
- `json: true` on every request: constant, not modelled.
- `async`/`await`: the logic is strictly sequential.
- `console.log` in `create`'s catch block: output only.
- How `NodeApiError` and `NodeOperationError` build their messages and their own `context`: errors are tags with the cause they wrap and an optional `context` holding only `itemIndex`; a newly constructed error is given no context.
- Persistence of the static data between activations: the `StaticData` object is the record itself.
- JSON numbers are unbounded integers in the model and a template literal prints them in full decimal; fractional numbers, the loss of precision beyond 2^53 and the exponent form JavaScript prints from 1e21 on are not modelled (this only affects a numeric `webhookId` in the registration URL).
