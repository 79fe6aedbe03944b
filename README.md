# FleetFox browser client — a verified model

FleetFox lets field workers ("foxes") photograph a vehicle in seven fixed slots
and submit the set to a workflow webhook that runs an automated quality check.
The result may come back in the webhook's reply or later over a realtime feed
of the `quality_checks` table. This project models the decision logic and the
small state machines of the browser client, and proves properties about them in
Dafny:

- `SlotNames.dfy`: the seven slots and the helpers that work on slot names
  (default labels, file-input ids, the ordered missing-slot list and its
  display names).
- `Submission.dfy`: the submit handler as an ordered ladder, from the filled
  slots, the two webhook URLs, the page location and the exchange with the
  webhook to the outcome shown. It also covers the request body and the
  request timeout.
- `UploadSession.dfy`: the `QAUpload` object. It holds the slot map, the
  progress counter, the submit button and the persisted copy in localStorage.
  Its methods cover upload, removal, restore, eviction and submit.
- `Onboarding.dfy`: the three-step walkthrough, what each screen shows, and
  where finishing leads.
- `Router.dfy`: the router (`checkAndRoute`, `navigate`, hash changes, sign-in
  and sign-out) and the upload page's one-time realtime subscription. It also
  covers how realtime results are shown to foxes and clients.
- `Notifications.dfy` (module `Realtime`): the subscription filter, the one
  live channel, and what a new row announces.
- `ClientConfig.dfy` and `ConfigApi.dfy`: the configuration loader's flags,
  what it accepts and its local fallback, the `/api/config` endpoint, and how
  the two agree.
- `JsText.dfy` and `Browser.dfy`: the JavaScript semantics the decisions rely
  on. These are truthiness, `includes`, `startsWith`, `trim`, ASCII case
  folding and decimal rendering, plus the two `location` fields that are read.

The network, the hosted backend, timers, the DOM and JSON parsing are inputs.
A webhook reply reaches the model as a record of optional fields, or as
"failed to parse".

Two behaviours worth noting:

- A `review_needed` result is shown as "review needed" in the webhook reply. The
  same status arriving over the realtime feed is shown as failed. The two paths
  do not converge (`Router.ReviewNeededShownDifferently`).
- Evicting a restored image that fails to load does not update the progress
  count (see Findings).

## Model

| member | source | states |
|---|---|---|
| `SlotNames.RequiredSetSize` | js/qa-upload.js:396-399 | Exactly seven distinct slots are required. |
| `SlotNames.RequiredSlotsDistinct` | js/qa-upload.js:396-399 | No required slot name is listed twice. |
| `SlotNames.DefaultLabel` | js/qa-upload.js:197-208 | A known slot gets its own label. Any other name gets "Upload" (inherited object keys aside, see Left out). A label is never empty. |
| `SlotNames.DefaultLabelInjective` | js/qa-upload.js:198-206 | Two different slots never share a label. |
| `SlotNames.InputId` | js/qa-upload.js:61 | The input id replaces every `_` with `-`. It has the same length as the slot name and no `_` remains. |
| `SlotNames.InputIdsMatchForm` | js/app.js:285-321 | Each required slot maps to the id of its file input in the upload form. |
| `SlotNames.ReplaceFirstUnderscore` | js/qa-upload.js:409 | `replace('_', ' ')` turns only the first underscore into a space. Every other character is kept. |
| `SlotNames.CapitalizeWords` | js/qa-upload.js:409 | `/\b\w/g` upper-cases exactly the word characters that start a word. |
| `SlotNames.MissingNameKeepsLaterUnderscores` | js/qa-upload.js:409 | A later underscore survives in the display name, and the letter after it is not capitalised. |
| `SlotNames.MissingNameOfSlot` | js/qa-upload.js:409 | `a_b` of two lower-case words displays as "A B". |
| `SlotNames.MissingNamesOfRequiredSlots` | js/qa-upload.js:409 | The seven slots display as "Exterior Front" … "Interior Floor". |
| `SlotNames.Absent` | js/qa-upload.js:400-401 | The filter keeps exactly the required names that are not keys. It keeps them in their order, as a subsequence. |
| `SlotNames.MissingSlots` | js/qa-upload.js:396-401 | The missing list contains exactly the required slots without an image, in the fixed order. |
| `SlotNames.MissingEmptyIffComplete` | js/qa-upload.js:403 | Nothing is missing if and only if every required slot is a key. |
| `SlotNames.SlotCountBounded` | js/qa-upload.js:371 | A map whose keys are slot names holds at most seven images. |
| `SlotNames.CountSevenIffComplete` | js/qa-upload.js:379 | When the keys are slot names, a count of 7 (which enables submit) is the same as nothing missing. |
| `Submission.ConstructorWebhookUrl` | js/qa-upload.js:7-8 | The constructor URL is the truthy configured URL, else the localhost default. It is never empty. |
| `Submission.DefaultUrlIsLoopback` | js/qa-upload.js:8 | The default webhook URL contains `localhost`. |
| `Submission.SubmitterId` | js/qa-upload.js:424-425 | The signed-in user's id wins over the typed-in Fox ID. |
| `Submission.VehicleId` | js/qa-upload.js:423 | An empty vehicle id becomes "UNKNOWN". |
| `Submission.BuildBatch` | js/qa-upload.js:427-435 | `order` lists every key of the map once. The body has one image per key, as many images as keys, in that order. Each image is its record stamped with the shared task, submitter, client and vehicle ids. |
| `Submission.BatchImagesShareSubmitter` | js/qa-upload.js:427-433 | Every image carries the batch's submitter in place of its own `fox_id`, and keeps its URL. |
| `Submission.IssueSeverity` | js/qa-upload.js:683 | The severity is `severity` when truthy, else `confidence` when truthy, else 'N/A'. |
| `Submission.Band` | js/qa-upload.js:684 | Critical if and only if ≥ 7. Moderate if and only if in [4, 7). Minor otherwise, including 'N/A'. |
| `Submission.BandMonotone` | js/qa-upload.js:684 | A higher severity never falls in a lower band. |
| `Submission.ResolveWebhookUrl` | js/qa-upload.js:443 | The configured URL if truthy, else the constructor URL. Empty only when both are. |
| `Submission.ParsedReply` | js/qa-upload.js:542-565 | A reply exists if and only if the parse gate opened and parsing succeeded. |
| `Submission.ParseGate` | js/qa-upload.js:550 | An empty body is never parsed. A non-empty JSON-typed body is parsed. So is a body whose first non-blank character is `{`. |
| `JsText.TrimmedStartsWith` | js/qa-upload.js:550 | `trim().startsWith(c)` is decided by the first character that is not whitespace. |
| `Submission.UnparsedBodyIsProcessing` | js/qa-upload.js:559-565 | A body that fails to parse, or is empty, shows the processing view. |
| `Submission.WorkflowErrorOf` | js/qa-upload.js:575-580 | The message is `error_message`, then `error`, then `message`, then the fixed text. The node is `error_node`, then `failed_node`, then "Unknown". The details are `error_details`, then `details`, then "". |
| `Submission.ErrorMarkerBeatsStatus` | js/qa-upload.js:567-608 | A reply with an error marker is a workflow error even when its status is "pass". |
| `Submission.VerdictOf` | js/qa-upload.js:615 | Only the strings pass, fail and review_needed are recognised. |
| `Submission.ReportedVerdict` | js/qa-upload.js:614-615 | A truthy `status` shadows `overall_status`. |
| `Submission.Feedback` | js/qa-upload.js:620 | `feedback`, else `feedback_text`, else "". |
| `Submission.TotalIssues` | js/qa-upload.js:619 | `total_issues`, else 0. |
| `Submission.Issues` | js/qa-upload.js:622 | `issues`, else `all_issues`, else no issues. A present `issues` array wins even when it is empty. |
| `Submission.DisplayVerdict` | js/qa-upload.js:627-630 | A pass with issues is shown as review_needed. Every other status is shown as reported. |
| `Submission.ResolvedExactly` | js/qa-upload.js:611-630 | A result is shown if and only if the reply parsed, has no error marker and names a known status. The shown verdict is the downgraded one. The box carries the reply's count (default 0), issues, feedback and processing time (default 0). |
| `Submission.PassMeansClean` | js/qa-upload.js:624-630 | A shown pass has no issues listed, a count of 0 or less, and feedback that is empty or says "clean". |
| `Submission.DowngradeOnlyFromPass` | js/qa-upload.js:627-630 | The shown verdict differs from the reported one only when a pass is turned into review_needed. |
| `Submission.AcknowledgedOf` | js/qa-upload.js:745-770 | The headline is `message`, else "Quality check is processing...". The simple-success form is used when `message` or `success` is truthy. |
| `Submission.HttpErrorMessage` | js/qa-upload.js:537 | The message starts with "HTTP ", the decimal status and ": ", and ends with the status text. |
| `Submission.HttpErrorMessageDeterminesStatus` | js/qa-upload.js:537 | Two responses with the same message have the same status and the same status text. |
| `JsText.NatToStringInjective` | js/qa-upload.js:537 | Different status codes give different decimal renderings. |
| `Submission.ProcessingTime` | js/qa-upload.js:621 | `processing_time_seconds`, else 0. |
| `Submission.ClassifyFailureAsWritten` | js/qa-upload.js:814-827 | Checked in order: AbortError or "timeout", then "Failed to fetch", then "CORS". Anything else keeps its own message and has no details. |
| `Submission.ClassifyFailure` | js/qa-upload.js:814-827 | The same order, with a "TimeoutError" also counted as a timeout. |
| `Submission.ClassifyResponse` | js/qa-upload.js:535-780 | A rejection or non-2xx status is a failure classified as the catch block is written. Otherwise an unparsed body is processing, an error marker is a workflow error, and a reply with no known status is acknowledged. |
| `Submission.ClassifySubmission` | js/qa-upload.js:396-780 | Missing photos come first and list exactly the missing slots. Once the guards pass, the outcome is the response's. |
| `Submission.DispatchIffGuardsPass` | js/qa-upload.js:403-488 | The request is sent if and only if the three guards pass. Before that, the network result does not matter. |
| `Submission.NotConfiguredOnlyWithoutUrls` | js/qa-upload.js:455-467 | With all slots filled, "not configured" happens if and only if both URLs are empty. |
| `Submission.DefaultUrlBlockedInProduction` | js/qa-upload.js:470-488 | On an https page that is not local and has no configured URL, the default URL is refused before sending. |
| `Submission.ClearsExactlyOnSuccess` | js/qa-upload.js:783-789 | The form is reset if and only if the request was sent, answered 2xx, and was not a workflow error. |
| `Submission.TimeoutSetupFor` | js/qa-upload.js:501-508 | `AbortSignal.timeout` is used whenever the browser has it. |
| `Submission.PassedSignalAsWritten` | js/qa-upload.js:514 | `abortController.signal` is missing exactly when the timeout API was used. |
| `Submission.PassedSignal` | js/qa-upload.js:501-514 | The intended signal is always attached. The timeout API's signal rejects with a "TimeoutError". |
| `Submission.NoTimeoutWithSignalApi` | js/qa-upload.js:501-514 | As written, a browser with the timeout API sends the request with no timeout. |
| `Submission.EveryTimeoutReported` | js/qa-upload.js:814 | With the intended signal, every timeout is classified as one. |
| `Submission.TimeoutErrorMisclassified` | js/qa-upload.js:814-827 | A "TimeoutError" with the browser's message is a generic failure as written, also in the submit ladder, and a timeout when corrected. |
| `UploadSession.RestoreActionFor` | js/qa-upload.js:31-56 | An entry that is absent, empty, null or `{}` changes nothing. A corrupt entry is dropped. Any other entry replaces the map whole. |
| `UploadSession.SaveRestoreRoundTrip` | js/qa-upload.js:22-40 | A saved non-empty map is restored unchanged. |
| `UploadSession.NewRecord` | js/qa-upload.js:310-319 | The record stores the slot, id and URL. `fox_id` is the user id if and only if one is signed in. |
| `UploadSession.AnonymousUploadNotInserted` | js/qa-upload.js:212-219 | The insert is attempted if and only if there is a backend and a signed-in user. |
| `UploadSession.QAUpload.constructor` | js/qa-upload.js:3-9 | Empty map, count 0, and a constructor URL that is never empty. |
| `UploadSession.QAUpload.SaveUploadedImages` | js/qa-upload.js:22-28 | Storage holds the map. Nothing else changes. |
| `UploadSession.QAUpload.UpdateProgress` | js/qa-upload.js:370-387 | The count is the map's size, and submit is enabled if and only if it is 7. |
| `UploadSession.QAUpload.HandleFileSelect` | js/qa-upload.js:272-342 | A successful upload puts the record, saves it and recounts. No file, or a failed upload, changes nothing. |
| `UploadSession.QAUpload.HandleRemove` | js/qa-upload.js:344-368 | Only that slot is removed, then the map is saved and recounted. |
| `UploadSession.QAUpload.RestoreUploadedImages` | js/qa-upload.js:31-56 | Follows `RestoreActionFor`: keep the state, drop the corrupt key, or replace the map and recount. |
| `UploadSession.QAUpload.EvictUnloadableAsWritten` | js/qa-upload.js:79-82 | Removes the slot and saves. The count is left stale, so a correct count becomes wrong. |
| `UploadSession.QAUpload.EvictUnloadable` | js/qa-upload.js:79-82 | Removes the slot, saves and recounts. |
| `UploadSession.QAUpload.SubmitEnabledIffComplete` | js/qa-upload.js:370-403 | When the keys are slot names, a counted session has submit enabled exactly when the missing-photos check finds nothing. |
| `UploadSession.QAUpload.HandleSubmit` | js/qa-upload.js:389-841 | The outcome is the ladder's. Success clears the map, count and storage. Every other outcome leaves them unchanged. Submit is re-enabled on every exit. |
| `Onboarding.Dots` | js/onboarding.js:64-66 | Dot i is active if and only if i is the current step, and completed if and only if i is an earlier step. |
| `Onboarding.OneActiveDot` | js/onboarding.js:64-66 | Exactly one dot is active. |
| `Onboarding.ScreenFor` | js/onboarding.js:52-61 | Back is shown if and only if the step is past 0. "Get Started" is shown if and only if it is the last step. |
| `Onboarding.RunStaysInRange` | js/onboarding.js:74-86 | No sequence of Next and Back leaves steps 0..2. |
| `Onboarding.NextThenBack` | js/onboarding.js:74-86 | Next then Back returns to any step but the last. Next at the last step and Back at step 0 do nothing. |
| `Onboarding.Walkthrough.constructor` | js/onboarding.js:3-5 | The walkthrough starts at step 0. |
| `Onboarding.Walkthrough.Show` | js/onboarding.js:44-72 | Renders the screen of the current step. |
| `Onboarding.Walkthrough.Next` | js/onboarding.js:74-79 | Advances and re-renders unless at the last step. |
| `Onboarding.Walkthrough.Prev` | js/onboarding.js:81-86 | Steps back and re-renders unless at step 0. |
| `Onboarding.CompletionFor` | js/onboarding.js:88-120 | Every outcome goes to /upload. The local flag is written if and only if the call failed with a non-permission, non-RLS error and a user is signed in. |
| `Realtime.FilterFor` | js/notifications.js:21-35 | A fox gets `fox_id=eq.<id>`. A client with a truthy id gets `client_id=eq.<id>`. Everyone else gets no filter. |
| `Realtime.ConfigFor` | js/notifications.js:37-42 | The event is always INSERT on public.quality_checks. The filter key is present if and only if the filter is truthy. |
| `Realtime.FilterKeyIffSelected` | js/notifications.js:21-42 | The subscription carries a filter exactly when the role selects one. |
| `Realtime.CountText` | js/notifications.js:68 | A count renders in decimal. A count absent from the row renders as "undefined", and a NULL one as "null". |
| `Realtime.NoticeFor` | js/notifications.js:65-69 | A pass gets the clean text and "PASSED". Anything else gets "FAILED" and "Found <count> issues. Action needed.", with the count rendered by `CountText`. |
| `Realtime.OnInsert` | js/notifications.js:46-50 | A new row is announced first. It is then passed to the callback if and only if one was given. |
| `Realtime.Notifications.constructor` | js/notifications.js:3-6 | No channel. |
| `Realtime.Notifications.Unsubscribe` | js/notifications.js:57-62 | Clears the channel only when there is one and a backend. Otherwise it does nothing. |
| `Realtime.Notifications.Subscribe` | js/notifications.js:9-54 | Replaces any channel with one for the role's filter, so at most one is live. Without a backend it opens none. |
| `Router.EffectiveRole` | js/app.js:73 | A falsy role reads as "fox". |
| `Router.CheckAndRoute` | js/app.js:36-79 | A known hash that is public, or has a user, is honoured first. Otherwise: /login without a user, /onboarding if not onboarded, /upload for a fox, /dashboard for anyone else. |
| `Router.SignedOutStaysPublic` | js/app.js:50-63 | Without a user, routing only reaches /login or /signup. |
| `Router.LeadingSlash` | js/app.js:127 | Hash paths always start with `/`. A path that already does is kept. |
| `Router.LeadingSlashIdempotent` | js/app.js:127 | Normalising twice is normalising once. |
| `Router.UrlChangeFor` | js/app.js:118-139 | History is pushed if and only if the page is not a file or local page, a push was asked for, and it does not throw. Otherwise the hash is set. |
| `Router.HandlerFor` | js/app.js:141 | An unknown path runs the /upload handler. |
| `Router.VisitUpload` | js/app.js:341-342 | The upload page subscribes if and only if a user is signed in and the flag is down. The flag is then up. |
| `Router.AtMostOneSubscriptionPerSession` | js/app.js:341-344 | With no sign-out in between, the upload page subscribes at most once. |
| `Router.RealtimeViewFor` | js/app.js:351-370 | Passed if and only if `overall_status` is "pass". |
| `Router.ReviewNeededShownDifferently` | js/app.js:351-370 | review_needed is shown as failed over realtime, but as review_needed by the submit handler. |
| `Router.ClientShouldShow` | js/app.js:478-483 | A client with a known id sees only rows with that id. Without an id, every row is shown. |
| `Router.ClientBannerStatus` | js/app.js:496 | A pass reads "All photos clean!". Otherwise the banner gives the issue count. |
| `Router.App.constructor` | js/app.js:3-11 | No current route and no subscription. |
| `Router.App.Navigate` | js/app.js:118-144 | Updates the URL as `UrlChangeFor` decides: a set hash keeps the path, and a pushed path clears the hash. Records the given path even when it is unknown, and shows that path's handler. |
| `Router.App.HashChanged` | js/app.js:107-115 | A known hash is shown at once, with no auth check. Any other hash changes no route or view. The path is unchanged. This method does not touch the subscription flag; the upload handler's subscription is `Router.App.ShowUpload`. |
| `Router.App.ShowUpload` | js/app.js:340-374 | Subscribes once per session, as `VisitUpload` decides, for the user's effective role. Route, view, hash and path are unchanged. |
| `Router.App.SetupClientNotifications` | js/app.js:464-485 | Subscribes as "client" with the client id. Does nothing without a user. |
| `Router.App.HandleAuthChange` | js/app.js:81-98 | Sign-out lowers the flag, drops the channel and goes to /login, with the address bar set as `UrlChangeFor` decides (a pushed /login clears the hash). Sign-in re-routes only from the entry pages. Other events change no route, view, hash, path, flag or channel. |
| `ClientConfig.FallbackValues` | js/config.js:101-142 | Off a local page, nothing changes. On a local page, a parsed developer copy replaces all three values. |
| `ClientConfig.LoadedValues` | js/config.js:64-80 | An accepted reply sets all three values, the webhook URL included even when empty. Otherwise the fallback applies. |
| `ClientConfig.DeployedPageKeepsValuesOnFailure` | js/config.js:106-116 | A deployed page gets its values only from an accepted reply. |
| `ClientConfig.LoaderAcceptsExactlyErrorFreeReplies` | js/config.js:65-74 | The loader accepts the endpoint's reply if and only if the endpoint did not mark it with `error`. |
| `ClientConfig.Config.constructor` | js/config.js:6-18 | All values are null. The first load is under way. |
| `ClientConfig.Config.GetAll` | js/config.js:153-159 | Exactly the three current values. |
| `ClientConfig.Config.TryLocalFallback` | js/config.js:101-142 | Always ends with `loaded`. The values follow `FallbackValues`. |
| `ClientConfig.Config.FinishLoad` | js/config.js:31-97 | `loaded` is set and `loading` cleared on every path. The values follow `LoadedValues`. |
| `ClientConfig.Config.LoadFromApi` | js/config.js:27-98 | A re-entrant call has no effect. Any other call ends loaded and not loading. |
| `ClientConfig.Config.WaitForLoad` | js/config.js:145-150 | Polls only while unloaded and loading. Returns `loaded`, after the running load has finished. |
| `ConfigApi.EnvText` | api/config.js:12-14 | An unset variable reads as "". |
| `ConfigApi.Handler` | api/config.js:5-35 | Status is always 200 and values pass through. `error` is present if and only if the URL or the key is empty. |
| `ConfigApi.WebhookUrlNotRequired` | api/config.js:14-34 | An unset webhook URL still yields an error-free reply. |

## Left out

- DOM construction, HTML templates, CSS classes, scrolling, the progress-bar percentage and the feedback markdown formatting: rendering only. The model keeps what decides the views.
- JSON parsing is an oracle. Non-object JSON (numbers, strings, arrays) in a reply or in localStorage is not modelled.
- Severities and counts are integers. Fractional confidences and numeric strings are not modelled.
- Non-string `feedback` is not modelled. Its `toLowerCase` would throw into the catch block.
- Key order of `uploadedImages` is not tracked. `Submission.BuildBatch` takes the order of `Object.values` as a parameter.
- The uploads to storage, the `qa_images` insert, client loading, id generation (`generateId`, `generateSimpleId`) and the dates: foreign or nondeterministic. Their results are inputs.
- Timers and retries: the `restoreImagePreview` and `checkAndRoute` retries while the DOM is not ready, the 30 s timer, and the real sleep in `waitForLoad`. In `ClientConfig.Config.WaitForLoad` the running load finishing after a given number of polls stands in for the concurrent load.
- The popstate handler and the handlers' page bodies. `Router.App.Navigate` records which handler runs. The upload handler's subscription is `Router.App.ShowUpload`.
- `show()` returning early without a container is not modelled.
- js/auth.js, js/supabase.js and js/dashboard-helpers.js are not part of this model. The signed-in user, role, onboarding status and client id are inputs.
- Failing localStorage writes are not modelled, nor the browser `Notification` API.
- Route lookups with inherited object keys such as `constructor` are not modelled. The route table is a set of its five own keys.
- `handleFileSelect` stores whatever `data-type` the input carries, and a restore takes any keys from storage. The model does not keep the keys to slot names as an invariant. `UploadSession.QAUpload.SubmitEnabledIffComplete` requires it.
- SlotNames.DefaultLabel: `labels[imageType] || 'Upload'` gives an inherited `Object.prototype` member for names such as `constructor` or `toString`. The model gives "Upload" for every name other than the seven slots.

## Findings

| source | as written | input that shows it | evidently intended | confidence | as-written member | corrected member |
|---|---|---|---|---|---|---|
| js/qa-upload.js:79-82 | An image that fails to load is deleted from the map and saved. `updateProgress` is not called, so the count and the submit button still show the old total. | Restore a full set of 7 in which one image URL no longer loads. The button stays enabled at 7/7 with 6 images. | Recount after the eviction, like every other map change. | high, not executed | `UploadSession.QAUpload.EvictUnloadableAsWritten` | `UploadSession.QAUpload.EvictUnloadable` |
| js/qa-upload.js:501-514 | With `AbortSignal.timeout`, `abortController` is already the signal. `abortController.signal` is then undefined, so the request has no timeout. | Any browser that has `AbortSignal.timeout`. | Pass the signal itself, so the request is aborted after 30 s. | high, not executed | `Submission.NoTimeoutWithSignalApi` | `Submission.PassedSignal` |
| js/qa-upload.js:814 | Once the signal of 501-514 is attached, it rejects with a "TimeoutError", not an "AbortError". Its message (the text varies by browser; "signal timed out" is one) lacks "timeout", so the catch block shows a generic failure. The submit ladder keeps the catch block as written. | name "TimeoutError", message "signal timed out" | Report it as a timeout. | medium, not executed | `Submission.TimeoutErrorMisclassified` | `Submission.ClassifyFailure` |
