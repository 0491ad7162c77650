# Upload authorization of FileCodeBox, modelled in Dafny

FileCodeBox has a share (upload) area that administrators can lock with the
`openUpload` setting. This project models the three pieces that enforce the
lock, and proves properties about each of them.

- **The server dependencies** (`apps/admin/dependencies.py`):
  - the home-grown session token: `create_token` and `verify_token`;
  - the FastAPI dependencies that admit, or refuse with 401 or 403, a request to an admin route (`admin_required`);
  - the same for a share route (`share_required_login`), reading the password from a form field (`share_upload_required`) or from the `X-Admin-Password` header (`share_chunk_required`).
- **Two browser scripts**, modelled as two configurations (`Variant`) of one component:
  - `upload-password-addon.js`, the page add-on;
  - `console-plugin.js`, the console plugin.

  Each script does four things:
  - it polls the site configuration;
  - it shows a password container while guest upload is off;
  - it wraps `fetch` (and, in the add-on, `XMLHttpRequest.open`/`send`) to attach the typed password to upload requests;
  - it shows a message for the reply.

Layout:

| file | what it holds |
|---|---|
| `wrappers.dfy` | `Option` and `Result`. |
| `text.dfy` | Python's `str.split` and its inverse `Join`, `startswith`, `includes`, and JavaScript's `String.prototype.trim`, each with its laws. |
| `json.dfy` | Decoded JSON values, Python's `dict.get`, Python and JavaScript truthiness, and JavaScript property reads. |
| `token.dfy` | `create_token` and `verify_token`. |
| `auth.dfy` | `admin_required`, `share_required_login`, `share_upload_required` and `share_chunk_required`. |
| `client.dfy` | The request side of the scripts: upload classification, the credential, how it is attached to fetch options and XHRs, the reply message and the configuration fetch. Also the mutable `FormData`, fetch-options and XHR objects. |
| `plugin.dfy` | The scripts' state machine as pure step functions over `PluginState`, with the invariant `Consistent` of every reachable state. Also the `Plugin` class whose methods perform those steps on its fields, and `Load`, the console plugin's single-instance guard. |
| `crosslayer.dfy` | Client and server together. The channel a script puts the credential in is the one the matching dependency reads. The status the dependency raises is the message the script shows. |

The cryptographic and serialisation primitives are parameters. A `Crypto` record holds HMAC-SHA256, base64 encode and decode, and `json.dumps` and `json.loads`. Every lemma that needs their laws requires `Lawful(c)`:
- base64 decoding undoes encoding;
- encoded text stays in the base64 alphabet;
- JSON parsing undoes serialisation.

Nothing is assumed about HMAC. The clock reading (`time.time()`) is a parameter `now: real`.

The script state is abstracted to what the code reads:
- the two flags;
- the number of password containers in the document;
- the input's value;
- the message shown;
- the observer timers scheduled but not yet run.

A fetch is split at its `await`. `InterceptFetch` runs before the call of the original fetch, and `CompleteFetch` runs after it: the code reads `isGuestUploadEnabled` again at that point, and a poll may have changed it in between.

Where the code and its own documentation disagree, the model follows the code:
- The docstring of `create_token` says the default lifetime is 5 days. The code uses `3600 * 24 * 30`, which is 30 days (`Token.DefaultExpiresIn`).
- `admin_required` wraps its body in `except ValueError` → 401. No `ValueError` can reach that handler, because token failures are caught inside (`Auth.AdminClaim` ensures a failure yields `False`). The model therefore has no such path.

The server side relies on two framework facts. Of repeated `password` form fields, Starlette's form lookup returns the last one (`Auth.LastField`). FastAPI then treats an empty form field like a missing one, so `Form(default=None)` gives None for it (`Auth.FormValue`).

The scripts' environment includes the page itself. A single-page application may re-render its upload view and drop the password container (`UploadPlugin.RenderStep`). The invariant `UploadPlugin.Consistent` holds in every state reachable with such re-renders. The stronger `UploadPlugin.Settled` (exactly one container while guest upload is off) holds until the first re-render, and the scripts as written do not restore it (see "## Findings").

## Model

| member | source | states |
|---|---|---|
| `Text.Split` | apps/admin/dependencies.py:44 | `str.split(sep)` gives one more part than there are separators, and no part contains the separator |
| `Text.SplitJoin` | apps/admin/dependencies.py:44 | splitting the join of separator-free parts gives the parts back |
| `Text.JoinSplit` | apps/admin/dependencies.py:44 | joining the parts of a split gives the text back |
| `Text.Trim` | console-plugin.js:165 | `trim()` yields a text that neither starts nor ends with JavaScript white space |
| `Text.TrimIsCore` | console-plugin.js:165 | `trim()` removes exactly the leading and trailing white space: the result is a slice of the input, and everything outside the slice is white space |
| `Text.TrimEmptyIffBlank` | console-plugin.js:165 | `trim()` is empty exactly when the input is all white space |
| `Text.StartsWith` | apps/admin/dependencies.py:76 | definition: `str.startswith`, the text begins with the prefix; `Auth.BearerToken` relies on it |
| `Text.ContainsIffOccurs` | upload-password-addon.js:242-243 | `includes(sub)` holds exactly when `sub` occurs at some index |
| `Json.PyTruthy` | apps/admin/dependencies.py:87 | definition: Python truthiness, false exactly for null, false, 0, "" and empty arrays and objects; `Auth.Supplied` states it for a password |
| `Json.JsTruthy` | upload-password-addon.js:324 | definition: JavaScript truthiness of a possibly undefined value, false exactly for undefined, null, false, 0 and "" |
| `Json.Property` | upload-password-addon.js:325 | a property read is defined exactly on an object having the key, and is then that key's value |
| `Token.Truncate` | apps/admin/dependencies.py:26 | `int(time.time())` truncates toward zero: the result is within 1 of the reading and not farther from 0 |
| `Token.Claims` | apps/admin/dependencies.py:26 | the signed claims are the caller's data with `exp` set to int(now) + expires_in, every other key kept |
| `Token.CreateToken` | apps/admin/dependencies.py:16-34 | definition of `create_token`; under lawful primitives every created token is two dot-free parts followed by their signature under the secret (and `CreatedTokenParts`, `CreateThenVerify` state its round trip) |
| `Token.Base64HasNoDot` | apps/admin/dependencies.py:22-32 | base64 output never contains `.`, so the parts of a token are unambiguous |
| `Token.Base64Excludes` | apps/admin/dependencies.py:22-32 | base64 output contains no character outside the base64 alphabet |
| `Token.CreatedTokenParts` | apps/admin/dependencies.py:16-34 | a created token splits on `.` into exactly the base64 header, the base64 claims and their signature |
| `Token.ExpiryClaim` | apps/admin/dependencies.py:61 | `payload.get("exp", 0)` is 0 when missing, the integer itself for an integer, 0 or 1 for a boolean, and fails to compare for anything else |
| `Token.VerifyToken` | apps/admin/dependencies.py:37-66 | a token that is not three parts is refused; an accepted token has the signature of its first two parts, a payload that decodes to the returned object, and an `exp` not before the clock |
| `Token.VerifyRejectsBadSignature` | apps/admin/dependencies.py:47-55 | a well-shaped token with the wrong signature is refused with the signature error |
| `Token.VerifyChecksExpiry` | apps/admin/dependencies.py:58-64 | a correctly signed object payload is accepted exactly when its `exp` is comparable and not before the clock |
| `Token.AcceptedTokenIsSigned` | apps/admin/dependencies.py:44-55 | every accepted token is two dot-free parts followed by their signature under the secret |
| `Token.CreateThenVerify` | apps/admin/dependencies.py:16-66 | a token created under a secret verifies under it to the caller's data plus `exp` until `exp`, and is refused as expired after it |
| `Token.CreatedTokenHasNoSpace` | apps/admin/dependencies.py:34 | a created token contains no space, so `authorization.split(" ")[1]` recovers it whole |
| `Auth.LastField` | apps/admin/dependencies.py:145 | the form lookup is None exactly when no field has the name, and otherwise the value of the last field with that name |
| `Auth.FormValue` | apps/admin/dependencies.py:145 | `Form(default=None)` is None exactly when no field has the name or the last such field is empty, and otherwise that last field's non-empty value |
| `Auth.FormValueOfAppended` | apps/admin/dependencies.py:145 | an appended non-empty field is the one the form parameter gets, and an appended empty field gives the default None |
| `Auth.FormDefaultDecidesAsLastField` | apps/admin/dependencies.py:129-138 | the decision is the same whether the empty field is turned into None or read as "", since neither counts as supplied |
| `Auth.HeaderValue` | apps/admin/dependencies.py:155-156 | `Header(default=None)` is None exactly when the request lacks the header, and otherwise its value |
| `Auth.BearerToken` | apps/admin/dependencies.py:76-80 | a token is read exactly when the header starts with "Bearer ", and it is the text after the prefix up to the next space |
| `Auth.AdminClaim` | apps/admin/dependencies.py:76-84 | `is_admin` is `False` when there is no bearer token or the token fails verification, and otherwise exactly the verified token's `is_admin` claim (default `False`) |
| `Auth.IsAdmin` | apps/admin/dependencies.py:87 | the caller is admin when the claim is truthy, which needs a bearer token that verifies under the admin token |
| `Auth.AdminHoldsSignedToken` | apps/admin/dependencies.py:76-84 | only a holder of a token signed with the admin token is admin |
| `Auth.CreatedAdminTokenIsAdmin` | apps/admin/dependencies.py:76-84 | the bearer header of a token `create_token` made under the admin token with `is_admin` true makes its holder admin exactly until the token's `exp` (apps/admin/dependencies.py:16-34) |
| `Auth.AdminRequired` | apps/admin/dependencies.py:69-96 | on `/share/` paths a non-admin is refused with 403 exactly when guest upload is off; elsewhere a non-admin is refused with 401; otherwise the claim is returned |
| `Auth.Supplied` | apps/admin/dependencies.py:129 | `if password:` holds exactly for a present password that is truthy in Python, the non-empty text |
| `Auth.ShareRequiredLogin` | apps/admin/dependencies.py:99-140 | guest upload on admits everyone; off, an admin or a non-empty password equal to the admin token is admitted, any other non-empty password gets 401, and no password gets 403 |
| `Auth.EmptyAdminTokenAdmitsNoPassword` | apps/admin/dependencies.py:129-131 | with an empty admin token no password admits anyone; only an admin token does |
| `Auth.ShareUploadRequired` | apps/admin/dependencies.py:143-151 | the decision is `share_required_login` of the `Authorization` header and the last `password` form field; so with guest upload off a non-admin is admitted exactly when that field is the non-empty admin token, and gets 403 when that field is missing or empty |
| `Auth.ShareChunkRequired` | apps/admin/dependencies.py:154-162 | the decision is `share_required_login` of the `Authorization` header and the `X-Admin-Password` header; so with guest upload off a non-admin is admitted exactly when that header is the non-empty admin token, and gets 403 without it |
| `Auth.PasswordChannelsAreSeparate` | apps/admin/dependencies.py:143-162 | the form dependency ignores the password header and the chunk dependency ignores the form |
| `UploadClient.IsUploadUrl` | upload-password-addon.js:242-243 | definition: the add-on treats a URL as an upload when it mentions `/share/` and one of `/text/`, `/file/`, `/chunk/` (also at lines 302-303); the console plugin when it mentions `/share/` (console-plugin.js:171); `ChunkClassificationAgrees` and `AddonUploadsAreConsoleUploads` relate the two |
| `UploadClient.IsChunkUrl` | upload-password-addon.js:254 | definition: a chunk upload is a URL that mentions `/chunk/` (console-plugin.js:176); `Text.ContainsIffOccurs` states it positionally |
| `UploadClient.AddonUploadsAreConsoleUploads` | upload-password-addon.js:242-243 | every URL the add-on treats as an upload, the console plugin does too (console-plugin.js:171) |
| `UploadClient.ChunkClassificationAgrees` | upload-password-addon.js:242-243 | on chunk URLs the two scripts classify uploads alike: exactly those where `/share/` occurs (console-plugin.js:171) |
| `UploadClient.Credential` | upload-password-addon.js:231-234 | without an input the credential is ""; the add-on takes the value as typed; the console plugin takes the trimmed value, which is "" exactly when the value is all white space (console-plugin.js:163-166) |
| `UploadClient.Attached` | upload-password-addon.js:245-265 | nothing changes unless restricted with a password on an upload; a chunk upload gets exactly that password in `X-Admin-Password`; another upload gets one `password` entry appended to a FormData body and keeps its headers, which the add-on creates as `{}` when missing and the console plugin leaves absent (console-plugin.js:173-184) |
| `UploadClient.NormalizeHeaderValue` | upload-password-addon.js:255 | the browser sends a header value with leading and trailing HTTP whitespace removed and leaves a value without any as it is (console-plugin.js:178, upload-password-addon.js:310) |
| `UploadClient.NormalizeHeaderValueIsCore` | upload-password-addon.js:255 | the normalised value is the slice of the value between two all-whitespace ends |
| `UploadClient.TransmittedHeaders` | upload-password-addon.js:268 | fetch sends the headers object only when every value is header-safe (at most U+00FF, no NUL, CR or LF once normalised), and then sends each value normalised; otherwise it rejects and sends nothing (console-plugin.js:187) |
| `UploadClient.TransmittedHeadersOfUpdate` | upload-password-addon.js:255 | after setting one header, the headers are sent exactly when the new value and the other headers are header-safe, with the new value normalised |
| `UploadClient.TrimmedCredentialIsNormal` | console-plugin.js:165 | the console plugin's trimmed credential is sent in the header unchanged |
| `UploadClient.CombineHeader` | upload-password-addon.js:310 | `setRequestHeader` adds the name, keeps every other header, sets a new header to the value and joins a repeated one as "old, new" |
| `UploadClient.XhrAttached` | upload-password-addon.js:301-318 | the XHR `send` wrapper changes nothing unless restricted with a password on an upload; a chunk upload gets the normalised password through `setRequestHeader`, and `send` throws before anything is sent when the password is not header-safe; another upload keeps its headers and gets one `password` entry appended to a FormData body |
| `UploadClient.FetchAndXhrAgree` | upload-password-addon.js:237-318 | for page headers that go out as they are and lack the password header, the add-on's fetch and XHR wrappers send the same headers and form, and fail in the same case |
| `UploadClient.FetchAndXhrDifferOnPresetHeader` | upload-password-addon.js:255 | when the page had already set `X-Admin-Password` on a chunk upload, fetch replaces it with the credential while the XHR path sends "old, credential", so the two send different values (upload-password-addon.js:310) |
| `UploadClient.Feedback` | upload-password-addon.js:271-285 | a 2xx reply shows success, 401 wrong password, 403 forbidden, a network error the network message, and any other status nothing (console-plugin.js:189-203) |
| `UploadClient.SystemConfig` | upload-password-addon.js:94-111 | a failed configuration request yields `null`; a truthy configuration is the `detail` of a parsed 2xx object body (console-plugin.js:81-92) |
| `UploadClient.FormData.Append` | upload-password-addon.js:259 | `FormData.append` adds one entry at the end |
| `UploadClient.XhrRequest.Open` | upload-password-addon.js:296-299 | the patched `open` records the URL |
| `UploadClient.XhrRequest.SetRequestHeader` | upload-password-addon.js:310 | `setRequestHeader` throws and changes nothing for a value that is not header-safe; otherwise it stores the normalised value, joining a repeated header, and keeps the recorded URL |
| `UploadPlugin.AddStep` | upload-password-addon.js:161-213 | adding is a no-op once the flag is set, and otherwise adds one container with an empty input and sets the flag (console-plugin.js:124-150) |
| `UploadPlugin.AddIdempotent` | upload-password-addon.js:162 | adding twice is adding once |
| `UploadPlugin.RemoveStep` | upload-password-addon.js:216-228 | removing drops a present container with its message and input; the add-on always clears the flag, the console plugin only when a container was present (console-plugin.js:153-160) |
| `UploadPlugin.GuestUploadOn` | upload-password-addon.js:326 | definition: guest upload is on exactly when the configuration's `openUpload` is strictly the number 1 (console-plugin.js:212); `PollOnConfigReply` ties it to the fetched reply |
| `UploadPlugin.RemoveDiffersWithoutField` | upload-password-addon.js:216-228 | with the flag set and no container, a state a re-render reaches, only the add-on clears the flag (console-plugin.js:153-160) |
| `UploadPlugin.RenderLosesField` | upload-password-addon.js:360-365 | after a re-render while guest upload is off, the callback schedules nothing, a poll that keeps guest upload off changes nothing, and the credential is "" so no upload gets it (upload-password-addon.js:162, console-plugin.js:125, 232) |
| `UploadPlugin.ConsoleLossIsPermanent` | console-plugin.js:153-160 | once the console plugin has the flag set and no container, every run of polls keeps it so (console-plugin.js:125, 209-222) |
| `UploadPlugin.AddonRecoversOnToggle` | upload-password-addon.js:216-228 | the add-on settles again once guest upload is turned on and then off (upload-password-addon.js:322-340) |
| `UploadPlugin.RestoringObserveStep` | upload-password-addon.js:360-365 | the corrected callback schedules an add exactly when guest upload is off and no container is present, and changes nothing else |
| `UploadPlugin.RestoringAddStep` | upload-password-addon.js:161-213 | the corrected add changes nothing while guest upload is on; otherwise it sets the flag, keeps a present container and its input, and adds one container with an empty input when none is present |
| `UploadPlugin.RestoringTimerStep` | upload-password-addon.js:363 | a corrected timer leaves the flag set and at least one container while guest upload is off, and only counts itself down while it is on |
| `UploadPlugin.RestoringObserverSettles` | upload-password-addon.js:360-365 | with the corrected callback, a restricted page without a container gets one add whose timer restores a settled state with an empty input, and a page with its container gets none |
| `UploadPlugin.RestoringAddIdempotent` | upload-password-addon.js:363 | a second corrected add changes nothing |
| `UploadPlugin.RestoringTimers` | upload-password-addon.js:363 | running the pending corrected timers in turn leaves none pending |
| `UploadPlugin.RestoringTimersSettle` | upload-password-addon.js:360-365 | however many corrected timers the callback has scheduled, running them all has the effect of one corrected add, and a restricted page settles |
| `UploadPlugin.RestoringTimersRespectGuestUpload` | upload-password-addon.js:322-340 | when a poll turns guest upload on while corrected timers are pending, running them (line 363) leaves the page as the poll left it |
| `UploadPlugin.RestoringObserverIsQuietWhenSettled` | upload-password-addon.js:360-365 | the corrected callback schedules nothing on a settled state or while guest upload is on |
| `UploadPlugin.PollStep` | upload-password-addon.js:322-340 | a falsy configuration or an unchanged state changes nothing; a change stores the new state and adds the field when guest upload went off, removes it when it went on (console-plugin.js:209-222) |
| `UploadPlugin.PollOnConfigReply` | upload-password-addon.js:322-340 | a failed configuration request leaves the state alone; guest upload turns on only on a 2xx reply whose `detail.openUpload` is 1 |
| `UploadPlugin.ObserveStep` | upload-password-addon.js:360-371 | the mutation callback schedules one delayed add exactly when the flag is clear and guest upload is off, and changes nothing else (console-plugin.js:230-237) |
| `UploadPlugin.TimerStep` | upload-password-addon.js:363 | a fired timer is one add: the flag is set, a container with an empty input is added when the flag was clear, and nothing changes otherwise |
| `UploadPlugin.RenderStep` | upload-password-addon.js:359-371 | a re-render of the page removes every container with its message, leaves the input value empty, and leaves the scripts' variables alone (console-plugin.js:229-237) |
| `UploadPlugin.TypeStep` | upload-password-addon.js:120-126 | typing sets the input's value when an input exists |
| `UploadPlugin.ShowStep` | upload-password-addon.js:144-158 | `showMessage` removes the old message and shows the new one only inside a present container (console-plugin.js:110-121) |
| `UploadPlugin.ReplyStep` | upload-password-addon.js:267-287 | the reply's message is shown only for an upload while guest upload is off |
| `UploadPlugin.InitialIsConsistent` | upload-password-addon.js:17-18 | the state after loading satisfies the invariant and is settled |
| `UploadPlugin.PollPreservesConsistency` | upload-password-addon.js:322-340 | every poll keeps the invariant: at most one container, none while guest upload is on, the flag set while it is off, no pending timer |
| `UploadPlugin.RenderPreservesConsistency` | upload-password-addon.js:359-371 | a re-render keeps the invariant, and while guest upload is off it leaves no settled state |
| `UploadPlugin.PollKeepsSettled` | upload-password-addon.js:322-340 | a poll keeps a settled state settled (console-plugin.js:209-222) |
| `UploadPlugin.ObserverSchedulesNothing` | upload-password-addon.js:360-365 | in every reachable state, re-renders included, the mutation callback schedules nothing: the flag is always set while guest upload is off (console-plugin.js:231-235) |
| `UploadPlugin.TypingPreservesConsistency` | upload-password-addon.js:120-126 | typing keeps the invariant and a settled state |
| `UploadPlugin.ReplyPreservesConsistency` | upload-password-addon.js:267-287 | showing a reply message keeps the invariant and a settled state |
| `UploadPlugin.PollSettles` | upload-password-addon.js:322-340 | after a truthy poll, `openUpload === 1` leaves guest upload on with no container; anything else leaves it off with the flag set, and with exactly one container when the state was settled or when the add-on has just seen guest upload turn off; polling the same configuration again changes nothing |
| `UploadPlugin.VariantsAgreeOnSettledStates` | console-plugin.js:209-222 | on settled states the two scripts' polls agree (upload-password-addon.js:322-340) |
| `UploadPlugin.Plugin.constructor` | upload-password-addon.js:17-18 | a loaded script starts in the initial state, which is consistent (console-plugin.js:77-78) |
| `UploadPlugin.Plugin.AddPasswordField` | upload-password-addon.js:161-213 | performs `AddStep` on the fields (console-plugin.js:124-150) |
| `UploadPlugin.Plugin.RemovePasswordField` | upload-password-addon.js:216-228 | performs `RemoveStep` on the fields (console-plugin.js:153-160) |
| `UploadPlugin.Plugin.Poll` | upload-password-addon.js:322-340 | performs `PollStep` in any state, keeps the invariant and keeps a settled state settled (console-plugin.js:209-222) |
| `UploadPlugin.Plugin.ObserveMutation` | upload-password-addon.js:361-365 | performs `ObserveStep` in any state and keeps the invariant (console-plugin.js:231-235) |
| `UploadPlugin.Plugin.Rerender` | upload-password-addon.js:359-371 | performs `RenderStep` on the fields and keeps the invariant |
| `UploadPlugin.Plugin.FireTimer` | upload-password-addon.js:363 | runs one pending add |
| `UploadPlugin.Plugin.TypePassword` | upload-password-addon.js:120-126 | performs `TypeStep` in any state, keeps the invariant and keeps a settled state settled |
| `UploadPlugin.Plugin.CurrentPassword` | upload-password-addon.js:231-234 | returns the credential of the present input: raw in the add-on, trimmed in the console plugin (console-plugin.js:163-166) |
| `UploadPlugin.Plugin.InterceptFetch` | upload-password-addon.js:240-265 | the add-on throws on a non-string target and the console plugin forwards one untouched; for a URL the options change exactly as `Attached` says and the call is flagged as an upload by that script's rule (console-plugin.js:170-184) |
| `UploadPlugin.Plugin.CompleteFetch` | upload-password-addon.js:267-287 | in any state, the reply is passed back unchanged, its message is shown as `ReplyStep` says with the flag read anew, and the invariant and a settled state are kept (console-plugin.js:186-205) |
| `UploadPlugin.Plugin.InterceptXhrSend` | upload-password-addon.js:301-318 | the add-on throws on a non-string recorded URL and when `setRequestHeader` refuses the credential, leaving the XHR and its body unchanged; otherwise it changes them exactly as `XhrAttached` says; the console plugin changes nothing |
| `UploadPlugin.Load` | console-plugin.js:7-12 | the console plugin does nothing when its window marker is set, and otherwise sets it; a script that runs installs its wrappers and starts consistent |
| `CrossLayer.AuthorizationOf` | apps/admin/dependencies.py:155 | the `Authorization` header the server reads is the page's own, normalised, and absent exactly when the page sent none |
| `CrossLayer.ServerRequest` | upload-password-addon.js:268 | the server receives the form as sent and the headers as the browser transmits them, the `Authorization` header included, and nothing when fetch rejects the headers (console-plugin.js:187) |
| `CrossLayer.StatusOf` | apps/admin/dependencies.py:133-138 | an admitted request is taken to succeed with a 2xx status; a 401 decision is exactly status 401 and a 403 decision exactly status 403 |
| `CrossLayer.UploadReply` | upload-password-addon.js:267-286 | the fetch rejects with a network error exactly when nothing is sent, and otherwise gets the status of `share_chunk_required` for a chunk URL and of `share_upload_required` for any other (apps/admin/dependencies.py:143-162) |
| `CrossLayer.ChunkCredentialReachesChunkCheck` | console-plugin.js:176-178 | a chunk upload with the credential attached is sent exactly when the credential and the page's other headers are header-safe, and then reaches `share_chunk_required` with the normalised credential and the untouched `Authorization` header (apps/admin/dependencies.py:154-162) |
| `CrossLayer.FormCredentialReachesFormCheck` | upload-password-addon.js:258-260 | a FormData upload with the credential attached is sent exactly when the page's headers are header-safe, and then reaches `share_upload_required` with exactly that password (apps/admin/dependencies.py:143-151) |
| `CrossLayer.MessageForDecision` | upload-password-addon.js:271-279 | admission shows success, 401 the wrong-password message and 403 the forbidden message (apps/admin/dependencies.py:129-138) |
| `CrossLayer.AttachedUploadOutcome` | apps/admin/dependencies.py:117-138 | with guest upload off and no admin bearer token, an upload carrying the credential fails with the network message exactly when fetch sends nothing; otherwise it is admitted exactly when the credential as received is the admin token, gets 403 exactly when a chunk credential normalised to nothing (never for a form upload) and 401 otherwise, and the script shows the matching message |
| `CrossLayer.AddonPaddedCredentialDependsOnChannel` | upload-password-addon.js:231-234 | the add-on's untrimmed credential " pw " with admin token "pw" passes a chunk upload, whose header the browser strips, and gets 401 on a form upload (upload-password-addon.js:255, 259) |
| `CrossLayer.PaddedCredentialNormalises` | upload-password-addon.js:255 | the browser sends " pw " in a header as "pw" |
| `CrossLayer.UploadWithoutCredentialIsForbidden` | apps/admin/dependencies.py:135-138 | an upload with no credential typed, no `password` field of its own and, for a chunk upload, no password header of its own is refused with 403 and the script shows the forbidden message, unless fetch refused the page's headers |

## Findings

| source | as written | input that shows it | evidently intended | confidence | as-written member | corrected member |
|---|---|---|---|---|---|---|
| upload-password-addon.js:360-365 | the mutation callback re-adds the container only while `hasAddedPasswordField` is false, and the add returns early while it is true (line 162); nothing clears the flag when the page removes the container | guest upload off, container shown, then the page re-renders its upload view | the callback re-adds the container after a re-render, so the password can be typed again | not executed | `UploadPlugin.RenderLosesField` | `UploadPlugin.RestoringObserverSettles` |
| console-plugin.js:153-160 | `removePasswordField` clears `hasAddedField` only when it finds the container, so after a re-render the flag stays set and no later poll adds the container (line 125, 230-237) | guest upload off, container shown, the page re-renders, then guest upload is turned on and off any number of times | the container comes back when guest upload is off | not executed | `UploadPlugin.ConsoleLossIsPermanent` | `UploadPlugin.RestoringObserverSettles` |

The corrected callback tests whether a container is present instead of the flag, and the corrected add does the same. The corrected add also reads the guest-upload flag when its timer fires, so a poll that turns guest upload on while an add is pending does not get a container back (`UploadPlugin.RestoringTimersRespectGuestUpload`). The `Plugin` class keeps the callback as written, because it models the scripts as they are.

## Left out

- HMAC-SHA256, base64 and JSON are parameters, constrained only by the round-trip and alphabet laws in `Token.Lawful`. Their real definitions are not modelled. `b64decode`'s tolerance of non-alphabet characters is inside the parameter.
- JSON numbers are integers. Floats (an `exp` claim such as `1.5`, NaN) are not modelled.
- Token.ExpiryClaim: a float `exp` claim, which Python compares with the clock, is outside the model. `Json` has no floats, and `loads` is left unconstrained outside what `dumps` produces, so such a payload's reading is unspecified.
- Reading `time.time()` is not modelled. The clock is the parameter `now`.
- FastAPI's dependency injection is not modelled.
- CrossLayer.UploadReply: which endpoint a URL reaches is assumed, not modelled. The endpoint routes are not part of this model. The assumption is that a URL mentioning `/chunk/` is served by an endpoint guarded by `share_chunk_required`, and every other upload URL by one guarded by `share_upload_required`. This fits the add-on's `/share/text/`, `/share/file/` and `/share/.../chunk/` uploads. A `/share/` URL that the console plugin counts as an upload but no share dependency guards is outside this assumption, so `CrossLayer.UploadWithoutCredentialIsForbidden` and `CrossLayer.AttachedUploadOutcome` say nothing true about it.
- Header values are checked and normalised as the Fetch Standard says (`UploadClient.TransmittedHeaders`). The page's own headers are taken to be the strings it set; forbidden header names and the browser's own headers are not modelled.
- Header names are looked up by exact name. HTTP and Starlette match them case-insensitively, so a request that spells `x-admin-password` in lower case is outside the model.
- `get_file_service`, `get_config_service` and `get_local_file_service` only construct services, so they are not modelled.
- Auth.AdminRequired: the `request` object is reduced to its path. The outer `except ValueError` handler has no modelled path, because no `ValueError` reaches it.
- `addStyles` and the style text are not modelled. Neither are the HTML of the containers, the CSS selector lists that choose where a container goes, or the text search that backs them up. A container is counted, and where it is inserted is not modelled.
- The add-on's separate warning banner is abstracted into its password container. It is added and removed together with the container.
- With several containers present, the scripts use the first input and container in the document. The model keeps one input and one message.
- `setInterval`, `setTimeout` delays, `console.log` and the order in which concurrent polls and fetches interleave are not modelled. Each poll, callback, timer and fetch half is one atomic step, and any interleaving of steps is allowed.
- The HTTP exchange of the configuration request and of the upload itself is not modelled. It is the `ConfigReply` or `Reply` value the step receives.
- `options` passed as `null`, and a `Headers` instance passed as `options.headers`, are not modelled. Headers are a plain object, modelled as a map.
- An XHR `open` on a URL object that stringifies to an upload URL is not modelled. Every non-string target is one case.
- A `password` entry that the page's own FormData already carries is kept. The server then reads the last entry, which is the one the script appended.
- UploadClient.XhrAttached: when the page had already set `X-Admin-Password` on a chunk XHR, the add-on's XHR path sends the combined value "old, credential", as XMLHttpRequest joins repeated headers, and not the exact credential. `UploadClient.FetchAndXhrDifferOnPresetHeader` states this; the model promises the exact credential only on the fetch path and on XHRs without that header.
