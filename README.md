# Kommo n8n chatbot widget — a Dafny model

This project models the decision and payload-building core of the Kommo CRM widget
that connects a lead or contact card to an n8n chatbot webhook:

- **the widget shell** (`script.js`): `getNested`, which reads a value out of the
  settings blob along a dot-separated path with optional `name[idx]` segments and an
  optional default, and `validateSettings`, the ordered guards of the settings form;
- **the card events** (`classes/events.js`): which configured event kinds bind which
  CRM event topics, which events trigger an interaction and with which tag, how one
  interaction runs (show the processing indicator, fetch the entity, call the webhook,
  write the reply back as a note and/or task, report a failure, hide the indicator),
  and the test-connection and URL-blur guards of the settings form;
- **the API client** (`classes/kommo.js`): the requests it builds (webhook headers,
  the interaction and connection-test payloads, the entity fetch, the note and the
  task), the webhook URL check, and the filtering of active users.

Values read from JSON (settings, event data, CRM and webhook responses) are
JavaScript values (`JsValue.Value`), with JavaScript truthiness, strict equality,
property reads and string conversion written out. Code that can throw a `TypeError`
returns an `Outcome` (`Returned(v)` or `Threw`). `String.prototype.split`, `trim` and
the regular expression `/(.+)\[([0-9]*)\]/` that reads an indexed segment are
modelled exactly (`JsText`): the pattern is unanchored, `.` stops at line
terminators and the greedy `(.+)` makes the last `[digits]` group win.

The host globals and asynchronous results are parameters: `Host` carries
`APP.widgets.system.subdomain`, `APP.USER.id`, `Date.now()` and
`new Date().toISOString()`; `StageOutcomes` says how the entity fetch, the webhook
call and the CRM writes settled; the browser's `new URL` is an abstract
`UrlParser`. The `Events` class holds the bound handlers, the processing flag and
a log of everything visible from outside (requests issued, dialogs, indicator), and
its methods are proved against the functions that specify them.

The model follows the code as written; in particular:

- `triggerChatbot` has no per-entity in-flight guard: a second automatic trigger for
  the same entity while one is running runs in full (`Events.Events.TriggerChatbot`
  issues the entity fetch on every call). Only the manual button is held back while
  the indicator shows, because `showProcessingState(true)` disables it.
- A missing or unknown `response_handling` writes nothing; there is no default
  "note" mode (`Events.ResponseWrites`, `Events.LeadStatusInteraction`).
- Configuration keys are read as written: the card gate and the webhook payload use
  `agent_id`, the webhook token is `api_key`, while `validateSettings` checks
  `openai_key` and `selected_agent`.
- `triggerChatbot` does not validate the configuration before fetching. The automatic
  triggers are gated by `card()` on `webhook_url` and `agent_id`; the manual button is
  gated by the same two keys only through being rendered, in the widget's `init`.
- A failed stage or CRM write produces one generic error dialog, "Failed to process
  chatbot interaction"; there is no per-write report of which write failed.

## Model

| member | source | states |
|---|---|---|
| JsText.JoinSplit | script.js:63 | joining the parts `desc.split(".")` returns gives back `desc`: splitting loses nothing |
| JsText.SplitJoin | script.js:63 | a dot-joined list of dot-free segments splits back into exactly those segments, in order |
| JsText.TrimBlank | script.js:106 | `s.trim() === ''` holds exactly when every character of `s` is ECMAScript whitespace or a line terminator |
| JsText.ExecNoBracket | script.js:67 | a segment without `[` never matches the index pattern, so it is read as a plain property name |
| JsText.ExecIndexedSegment | script.js:67-73 | a segment `name[idx]` (name non-empty without line terminators, idx all digits) matches with `arrName` = name and `arrIndex` = idx |
| Widget.GetNested | script.js:62-91 | the loop that shifts segments off the path returns exactly the walk of `NestedLookup`: segments in order, stopping at a falsy value, then the default rule |
| Widget.EmptyPath | script.js:63-90 | an absent or empty path returns the object itself, or the default when the object is null or undefined and a default is given |
| Widget.WalkAppend | script.js:65-82 | the walk goes left to right: walking `p + q` is walking `p`, then `q` from the value reached (a throw in `p` ends it) |
| Widget.WalkStopsAtFalsy | script.js:65-90 | once the walk reaches a falsy value, the remaining segments change nothing and that value is the result |
| Widget.PlainPath | script.js:63-81 | for dot-free, bracket-free segments `a.b.c` whose intermediate values are truthy, the lookup equals the member chain `obj.a.b.c` |
| Widget.IndexedPath | script.js:67-79 | the path `name[idx]` yields `obj[name][idx]`, null when `obj[name]` is undefined, and a TypeError when `obj[name]` is null |
| Widget.DefaultOnlyForNullish | script.js:84-90 | a supplied default replaces only a null or undefined result; a defined falsy result comes back as is, and without a default the raw result is returned |
| Widget.ValidateSettings | script.js:96-134 | rejection as invalid parameters exactly for falsy or non-object params; acceptance only for an object whose three fields are strings; a TypeError only for an object with a field that is truthy but not a string, on which `.trim()` throws (the full acceptance condition is `Widget.ValidateSettingsAccepts`, the guard order `Widget.FirstFailingGuardDecides`) |
| Widget.BlankFilled | script.js:106-124 | a field passes `!v \|\| v.trim() === ''` exactly when it is a string with a non-whitespace character |
| Widget.ValidateSettingsAccepts | script.js:96-134 | the settings are accepted if and only if params is an object, `webhook_url`, `openai_key` and `selected_agent` are non-blank strings and the URL passes `validateWebhookUrl` |
| Widget.ValidateSettingsBlank | script.js:99-110 | non-object params are rejected as invalid parameters; a missing or whitespace-only `webhook_url` is rejected as a required URL, whatever the other fields hold |
| Widget.FirstFailingGuardDecides | script.js:99-131 | the verdict is rejection by guard e if and only if guard e fails and every earlier guard passes, so the first failing guard alone picks the message |
| Widget.ShownErrorDecides | script.js:99-131 | the message `showValidationError` displays is guard e's message exactly when guard e is the first to fail; the five messages are distinct, so the text on screen names the failed guard |
| Kommo.WebhookHeaders | classes/kommo.js:33-39 | `Content-Type: application/json` always; `Authorization: Bearer <token>` if and only if the token is truthy; no other header |
| Kommo.SendToN8nWebhook | classes/kommo.js:32-50 | a POST to the given webhook URL with empty path, the payload as body and the headers above |
| Kommo.TestN8nConnection | classes/kommo.js:59-69 | the test request is a POST to the webhook URL itself (empty path) carrying `test: true`, the agent id, the message "Test connection from Kommo", the current time and source `kommo_widget_test`, with the webhook headers |
| Kommo.ProcessChatbotInteraction | classes/kommo.js:156-171 | the interaction request is a POST to `config.webhook_url` itself (empty path) with token `config.api_key`, agent `config.agent_id`, the entity data, the trigger (default `manual`), the current time, the account subdomain and source `kommo_widget` |
| Kommo.GetEntityData | classes/kommo.js:77-87 | a GET on the account origin at `/api/v4/<type>/<id>` embedding `contacts,custom_fields,tasks,notes` |
| Kommo.CreateChatbotNote | classes/kommo.js:96-116 | a POST of a one-element array to `/api/v4/<type>/<id>/notes`: note type `common`, text "🤖 Chatbot Response:\n" followed by the message |
| Kommo.DueInOneDay | classes/kommo.js:133 | the due time is the whole second of `now` plus 86400: `(t - 86400) * 1000 <= now < (t - 86400 + 1) * 1000` |
| Kommo.CreateChatbotTask | classes/kommo.js:126-147 | a POST of one task to `/api/v4/tasks`: entity type 2 exactly for `leads` and 1 otherwise, task type 1, the given responsible user if truthy else the current user, due one day ahead in whole seconds |
| Kommo.UsersList | classes/kommo.js:203 | the list read is always truthy: `[]` when the response has no truthy `_embedded`, and `_embedded.users` itself when both are truthy |
| Kommo.GetUsers | classes/kommo.js:202-209 | when the list read is an array the result is exactly `ActiveUsers` of it (order and multiplicity as `Kommo.ActiveUsersAppend` states); the handler throws exactly when the list read is not an array or holds a null or undefined entry; otherwise an option is returned if and only if it reshapes an active user of that list |
| Kommo.ActiveUsers | classes/kommo.js:204-208 | no contract of its own: `filter` then `map` over the entries; its properties are stated by `Kommo.ActiveUsersExact` and `Kommo.ActiveUsersAppend` |
| Kommo.ActiveUsersAppend | classes/kommo.js:204-208 | filtering keeps input order: the users kept from `xs + ys` are those kept from `xs` followed by those kept from `ys` |
| Kommo.ActiveUsersExact | classes/kommo.js:204-208 | the filter throws exactly when some entry is null or undefined; otherwise an option is in the result if and only if it reshapes an active user, and the result is no longer than the input |
| Kommo.GetUsersMissing | classes/kommo.js:203 | a response without `_embedded` or without `users` yields an empty list |
| Kommo.ValidateWebhookUrl | classes/kommo.js:217-224 | a URL is valid if and only if it parses with protocol `https:` and a non-empty hostname; a parse failure is invalid |
| Events.RouteFor | classes/events.js:128-155 | exactly the kinds `status_changed`, `note_added` and `updated` have a topic, and the topic's tag is the kind itself |
| Events.ConfigOf | classes/events.js:90 | the configuration used is the widget's params when truthy, else `{}`; it is always truthy |
| Events.ManualTrigger | classes/events.js:249-255 | the manual button triggers the open card's entity, as `leads` on a lead card and `contacts` otherwise, with the tag `manual` |
| Events.AutoTriggerListeners | classes/events.js:105-116 | nothing is bound for a falsy `events` or one whose `length` is not a positive number; a TypeError exactly when `events` is truthy with a positive length but is not an array; for an array, exactly `ListenersFor` its entries, i.e. the handlers `setupEventListener` binds for each entry in list order (topics and counts by `Events.DispatchAfterSetup`), one per occurrence of a known kind; every handler captures the card's entity id, `leads` or `contacts` by area, and the configuration |
| Events.TopicNameInjective | classes/events.js:130-148 | the three kinds listen on three distinct event names, so an event reaches only the handlers of its own kind |
| Events.Fire | classes/events.js:131-151 | no contract of its own: one handler run on non-null data, triggering when `data.entity_id === entityId`; stated by `Events.DispatchOne` and `Events.DispatchAfterSetup` |
| Events.Dispatch | classes/events.js:131-151 | delivering an event throws exactly when `data` is null or undefined and some handler is bound to that event name, since that handler's `data.entity_id` read throws |
| Events.DispatchOne | classes/events.js:127-155 | the handler bound for one configured value: an event on a topic throws exactly when the value is that topic's kind and `data` is null or undefined; otherwise it triggers once, for the bound entity with the kind as tag, exactly when the value is the kind and `data.entity_id === entityId` |
| Events.DispatchAppend | classes/events.js:131-151 | an event runs the bound handlers in binding order: the calls for `a + b` are those of `a` followed by those of `b`, and a throw in either ends the dispatch with a throw |
| Events.DispatchAfterSetup | classes/events.js:111-155 | after binding a list of kinds, an event on a topic throws exactly when `data` is null or undefined and the kind occurs in the list; otherwise it triggers once per occurrence when `data.entity_id === entityId` and never otherwise, always for the bound entity and with the kind as tag |
| Events.ListenersForKinds | classes/events.js:111-155 | one handler per known kind in the list, none for unknown kinds, each capturing the card's entity and configuration |
| Events.ResponseWrites | classes/events.js:195-218 | no write without a truthy reply message; otherwise one write for `note` or `task`, note then task for `both`, none for any other mode; each write is `createChatbotNote` or `createChatbotTask` for the open card's entity type and id with the message, the task with no responsible user (so the current user) and due one day from now |
| Events.InteractionSends | classes/events.js:169-182 | no contract of its own: the requests one interaction issues; stated in full by `Events.InteractionOrder` |
| Events.InteractionFails | classes/events.js:169-182 | no contract of its own: whether a stage rejected, which reaches the `catch`; stated by `Events.InteractionBracketed` |
| Events.InteractionEffects | classes/events.js:165-186 | no contract of its own: the whole visible run of `triggerChatbot`; its indicator and error dialog are stated by `Events.InteractionBracketed`, its requests (fetch, webhook call, then exactly the reply's writes) by `Events.InteractionOrder` |
| Events.InteractionBracketed | classes/events.js:165-186 | every run shows the indicator first and hides it last, touches it nowhere in between, and shows the error dialog once, just before hiding, exactly when a stage rejected |
| Events.InteractionOrder | classes/events.js:169-178 | the entity fetch is always issued first; after a resolved fetch the second request is exactly `processChatbotInteraction(config, entityData, trigger)`; after a resolved webhook call the rest are exactly the `ResponseWrites` of the reply, and nothing follows a rejected one |
| Events.LeadStatusRouting | classes/events.js:88-156 | for lead 42 configured with `events: ["status_changed"]`, a `pipeline:status:changed` event on lead 42 returns without throwing and triggers exactly once, for `leads` 42 with the tag `status_changed` |
| Events.LeadStatusInteraction | classes/events.js:165-214 | that interaction fetches `/api/v4/leads/42`, posts to the configured URL itself (empty path) with the tag, and with no `response_handling` writes the reply nowhere and reports no failure |
| Events.TestClickEffects | classes/events.js:12-41 | a request is sent if and only if both fields are present and the URL is valid; a missing field shows only the failed result `settings.errors.webhook_required`, an invalid URL only `settings.errors.invalid_webhook`; when sent, there are five effects: the button disabled with "Testing..." first, the old result hidden, the request carrying the three field values, the result `settings.test.success` or `settings.test.error` as the test resolved or rejected, and the button re-enabled last |
| Events.BlurEffects | classes/events.js:44-53 | the field is flagged exactly when it holds a non-empty URL that fails validation; an empty field clears the flag |
| Events.Events.SetupEventListener | classes/events.js:125-156 | binds one handler for a known kind and none for any other value, appended to the handlers already bound |
| Events.Events.SetupAutoTriggers | classes/events.js:105-116 | binds exactly the handlers of `AutoTriggerListeners`: none for a falsy `events` or one without a positive `length`, for an array the `setupEventListener` handlers of its entries in list order, a TypeError for a non-array with positive length |
| Events.Events.Card | classes/events.js:88-99 | binds nothing unless `webhook_url` and `agent_id` are both truthy, otherwise exactly what `setupAutoTriggers` binds |
| Events.Events.HandleChatbotResponse | classes/events.js:195-218 | the pushed writes are exactly `ResponseWrites` |
| Events.Events.RunStages | classes/events.js:171-182 | logs the requests of `InteractionSends` as they are issued and reports failure exactly when `InteractionFails` |
| Events.Events.TriggerChatbot | classes/events.js:165-186 | appends exactly `InteractionEffects` to the log and leaves the processing flag cleared, whichever stage fails |

## Left out

- `classes/settings.js` is not part of this model: it holds unresolved merge-conflict markers and its `load` only parses JSON.
- DOM and jQuery work (`showValidationError`, `showTestResult`, `showProcessingState` animations, `setTimeout`, the `Modal` dialog) are reduced to entries of the effect log; the processing indicator is one boolean.
- The `render`, `settings`, `init` and `onSave` callbacks, template rendering and i18n texts are left out; the test handler's messages are kept as i18n keys.
- The HTTP helper (`http.js`) is not part of this model: requests are values, and sending, caching and `JSON.stringify` of bodies are not modelled.
- `getAccount` and `getTaskTypes` only issue a cached GET and are left out.
- Asynchronous interleaving is not modelled: each interaction is one call whose stage results are given in advance, so two interactions sharing the one indicator cannot overlap in the model.
- `new URL` parsing (section 4.4 of the WHATWG URL Standard) is an abstract parameter.
- Numbers are integers: fractions, NaN, Infinity and `-0` are not modelled, and `String(n)` is the decimal text of an integer.
- Members inherited from prototypes (`obj["toString"]`, `obj["constructor"]`) are not modelled: property reads see own JSON fields, array and string indices and `length` only.
- String lengths and indices count characters, not UTF-16 code units. The code compares `config.events.length` with 0, where the two agree, but `getNested` can also index a string (`name[idx]` on a string value, `JsValue.Get` on `Str`, reached from script.js:75 and script.js:81); for a string holding characters outside the Basic Multilingual Plane the model's character index and JavaScript's code-unit index pick different characters.
- Events.AutoTriggerListeners: a `length` that is not a number counts as not positive, whereas JavaScript would coerce it (an object `{length: "3"}` would reach `forEach` and throw).
- The manual trigger button's state is not modelled: `init` renders it only when `webhook_url` and `agent_id` are truthy, and `showProcessingState` disables it while the indicator shows and re-enables it after; in the model the processing flag is read by nothing, so `Events.ManualTrigger` describes a click that is delivered.
- Object identity is not modelled: `===` on two arrays or objects is false.
- Widget.GetNested: the path is a string or absent; a non-string truthy path, whose `split` would throw, is not modelled.
