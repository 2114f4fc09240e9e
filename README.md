# Sigfox callback relay — a Dafny model

The Sigfox plugin for the Thinger.io platform is a small webhook relay. Sigfox
posts a device uplink to `POST /callback`. The relay forwards the whole body to
the platform's device-callback endpoint, under a platform device id made from
the raw Sigfox id and an optional prefix. When the platform answers 400
("unknown device") and auto-provisioning is on, the relay creates the device,
creates a bucket and binds the device's callback to the bucket. Then it starts
the whole forward procedure again. Run-time settings live in one module-level
variable. `PUT /settings` replaces that variable, and start-up loads it from a
stored plugin property.

The model has four modules:

- `Configuration` (`configuration.dfy`): the settings record and the pure
  helpers `GetDeviceId`, `GetBucketId` and `GetDeviceTimeout`. Their contracts
  follow JavaScript truthiness: a `""` prefix gives the raw id back, and a
  timeout of 0 gives the default 10.
- `Requests` (`requests.dfy`): the inbound body and the four outbound requests,
  kept as abstract records (URL id plus body).
- `Callback` (`callback.dfy`): `handleCallback` as a recursive function. It
  takes the settings, the inbound body and a *script* of outcomes, with one
  outcome consumed per outbound request. It returns the ordered trace of
  requests issued and how the inbound request ended: replied with a status,
  `Silent` (the source only logs and never replies), or `Unfinished` (the
  script ran out while a request was pending). The retry after provisioning
  consumes script entries, so termination is structural.
- `Relay` (`relay.dfy`): the class `SettingsStore` holding the module-level
  `settings`. It has the `PUT /settings` replacement, the start-up bootstrap
  and the callback entry point, which reads the current settings.

Points of the code's behaviour that the model keeps exactly as written:

- Only status 400 triggers provisioning. Every other error status, 404
  included, is sent back to Sigfox verbatim.
- A failed provisioning step is only logged: Sigfox gets no reply at all.
- An error with no response, or any other rejection of the forward, is only
  logged as well: no reply.
- The callback-binding URL uses the raw Sigfox id (`task/main.js:58`, called
  with the raw id at line 128), while the device itself is created under the
  prefixed id (line 33). `Callback.BindUsesRawDeviceId` shows that the two ids
  differ exactly when a device prefix is set.
- The bucket created during provisioning carries the *bucket* prefix only. With
  no bucket prefix it keeps the raw id, even when a device prefix is set (see
  `Callback.ExampleRun`).
- The route is `POST /callback`, and the Sigfox id is the body's `device`
  member.
- The timeout falls back to 10 whenever the configured value is falsy, so 0
  also gives 10.
- There is no retry bound. `Callback.UnboundedRetry` gives a script for every
  `k` on which `k + 1` forwards are issued.

## Model

| member | source | states |
|---|---|---|
| Configuration.GetDeviceId | task/main.js:15-17 | the result is never shorter than the raw id, and it is the raw id if and only if no truthy device prefix is set |
| Configuration.GetBucketId | task/main.js:19-21 | the result is never shorter than the raw id, and it is the raw id if and only if no truthy bucket prefix is set |
| Configuration.GetDeviceTimeout | task/main.js:23-25 | the result is never 0; it is the configured timeout when that is present and non-zero, otherwise 10 |
| Configuration.DeviceIdIsPrefixed | task/main.js:15-17 | the device id is always the configured device prefix (or nothing) followed by the raw id, so a `""` prefix acts like no prefix |
| Configuration.BucketIdIsPrefixed | task/main.js:19-21 | the bucket id is always the configured bucket prefix (or nothing) followed by the raw id |
| Configuration.DeviceIdInjective | task/main.js:15-17 | under fixed settings two raw ids map to the same device id if and only if they are equal |
| Configuration.BucketIdInjective | task/main.js:19-21 | under fixed settings two raw ids map to the same bucket id if and only if they are equal |
| Configuration.FallbackBehaviour | task/main.js:169-171 | with the fallback settings both ids are the raw id, the timeout is 10 and auto-provisioning is on |
| Requests.ForwardRequest | task/main.js:71-79 | the forward carries the whole inbound body; its URL id differs from the raw id if and only if a device prefix is set |
| Requests.CreateDeviceRequest | task/main.js:27-38 | the created device has type HTTP; its id differs from the raw id if and only if a device prefix is set |
| Requests.CreateBucketRequest | task/main.js:40-53 | bucket id and bucket name are equal, enabled, with source `api`; the id differs from the raw id if and only if a bucket prefix is set |
| Requests.BindCallbackRequest | task/main.js:55-69 | the binding URL uses the device id exactly as given; the write bucket differs from the given id if and only if a bucket prefix is set; the timeout is non-zero |
| Requests.RequestIds | task/main.js:27-79 | forward and new device carry the device prefix plus the raw id, the bucket and the write bucket carry the bucket prefix plus the raw id, and the binding URL carries the raw id |
| Callback.ProvisionedSteps | task/main.js:126-138 | the count of provisioning requests that succeed in a row is at most three, every counted outcome is a success, and a count below three stops at a failure or at the end of the script |
| Callback.HandleCallback | task/main.js:98-145 | every run starts with the forward of the whole body to the prefixed id, and a 400 is never the reply sent back |
| Callback.ForwardSucceeds | task/main.js:102-113 | a successful first forward gives exactly one forward request and reply 200; nothing else is issued |
| Callback.ErrorStatusPassedThrough | task/main.js:114-119 | an error response with a status other than 400 is replied verbatim after the single forward |
| Callback.UnknownDeviceWithoutProvisioning | task/main.js:121-123 | a 400 with auto-provisioning off is answered 200 after the single forward, with no create or bind request |
| Callback.TransportFailureNeverReplies | task/main.js:139-143 | an error with no response, or with neither response nor request, leaves the single forward and no reply |
| Callback.ProvisioningOrder | task/main.js:125-129 | after a 400 with auto-provisioning on and three successes, the trace is forward, create device (prefixed id), create bucket (bucket-prefixed id as id and name), bind (raw id in the URL, bucket-prefixed write bucket, configured timeout), then a fresh run |
| Callback.ProvisioningStepFails | task/main.js:130-138 | when provisioning step k fails, the trace stops right after step k and no reply is sent |
| Callback.ShortRun | task/main.js:98-145 | a run that does not provision successfully issues at most one cycle in order, replies only after the single forward, and is unfinished exactly when it used up the script |
| Callback.TraceFollowsCycle | task/main.js:98-145 | every trace is a prefix of forward, create device, create bucket, bind, repeated in that order |
| Callback.ScriptAccounting | task/main.js:98-145 | each issued request consumes one outcome; a run is unfinished exactly when it issued one request more than the script holds |
| Callback.ReplyAfterWholeCycles | task/main.js:105-129 | a reply is only sent when the trace holds whole provisioning cycles plus one forward |
| Callback.ReplyFollowsForward | task/main.js:105-123 | the last request before any reply is the forward |
| Callback.WithoutProvisioningOneRequest | task/main.js:121-123 | with auto-provisioning off the trace is always the single forward |
| Callback.RetryRounds | task/main.js:126-129 | k rounds of 400 plus three successes issue k full cycles, and the run then continues as on the rest of the script |
| Callback.UnboundedRetry | task/main.js:126-129 | for every k some script makes the procedure issue k + 1 forwards, one every fourth request, without finishing |
| Callback.BindUsesRawDeviceId | task/main.js:126-129 | the created device gets the prefixed id while the binding URL gets the raw id; they differ if and only if a device prefix is set |
| Callback.ExampleRun | task/main.js:98-145 | with raw id 1A2B3C, device prefix `sig-` and a 400 then four successes, the trace is forward, create device, create bucket `1A2B3C`, bind `1A2B3C`, forward, then reply 200 |
| Relay.SettingsStore.constructor | task/main.js:13 | the settings start empty: no prefixes, no timeout, auto-provisioning off |
| Relay.SettingsStore.Replace | task/main.js:151-152 | after `PUT /settings` the settings equal the request body exactly; no key of the old value is merged in |
| Relay.SettingsStore.Bootstrap | task/main.js:165-171 | a successful fetch installs the fetched value; a failed fetch installs exactly `{auto_provision_resources: true}` |
| Relay.SettingsStore.OnCallback | task/main.js:147-149 | a callback under the store's current settings first forwards the whole body to the device id those settings derive; a successful forward is answered 200, an error status other than 400 verbatim, a 400 with auto-provisioning off 200, and a 400 with it on creates the device under the derived id next; with auto-provisioning off nothing else is issued; the trace follows the provisioning cycle; 400 is never the reply |
| Relay.FallbackProvisionsRawId | task/main.js:169-171 | after a failed bootstrap, an unknown device is created under its raw id |

## Left out

- Express setup, `express.json()` body parsing and listening on port 3000 are HTTP-server plumbing. The `POST /callback` route is kept only as `SettingsStore.OnCallback`, which dispatches under the current settings.
- The HTTP calls themselves are not modelled. This covers the host, user, plugin and token URL templating, the bearer headers and axios. Each call is an abstract request record whose outcome comes from the script.
- Logging through `console.log` and `console.error` is left out. Its only effect is that no reply is sent, which the `Silent` ending records.
- `setDeviceProperties` (`task/main.js:81-89`) is left out because it is unreachable: the properties list is always empty.
- The response that `PUT /settings` never sends is HTTP-response plumbing and is left out.
- Settings can change while a callback is in flight, because the source re-reads them at every step. That interleaving is concurrency and is left out: one `HandleCallback` run uses fixed settings.
- Settings values of unexpected JSON types are not modelled. Prefixes are strings, the timeout is an integer, and the auto-provisioning key is a boolean in which an absent key counts as false.
- Fractional timeouts are not modelled.
- A body whose `device` member is missing or not a string is not modelled.
- The members of the body other than `device` are kept as `Json` values whose numbers are integers; fractional members (such as a signal-to-noise ratio or a latitude) are not representable. Nothing depends on them, since the body is forwarded whole.
- `Fetched` assumes the stored settings property is an object. A fetched `response.data.value` that is absent or `null` (`task/main.js:166`) becomes `settings`, after which every callback throws at `task/main.js:16` and Express answers 500; any other non-object value (a string, number, boolean or array) reads every key as undefined and behaves like empty settings. Neither path is modelled. A missing or `null` `response.data` throws inside the handler at line 166, so the catch at line 169 installs the fallback: `FetchFailed` stands for that case too.
- `Ok` stands for any 2xx response, and `ErrStatus` carries any status that reaches the error handler. A 2xx `ErrStatus` cannot come from the HTTP client, but the model accepts it as a script entry.
