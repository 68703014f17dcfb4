# Rollbar demo app: a Dafny model of its logic

This project models the logic of a small Next.js demo for an error-monitoring
service. The app sends sample log events and exceptions through the Rollbar
browser SDK and keeps a history of what was sent. It lets the visitor switch
session recording on and off, and keep an access token in `localStorage`. A
build script uploads JavaScript source maps to the service.

The model covers:

- **Credential and preference resolution** (`RollbarClient`). A non-empty
  stored `rollbar_client_token` wins over the build-time token. Replay is
  enabled only when `rollbar_session_replay_enabled` is exactly `"true"`.
- **The lazy singleton client** (`RollbarClient.Adapter`). It holds the
  module-level `rollbarInstance`, a construction counter and a log of SDK
  calls. Its configuration is frozen when it is built, and a page reload is
  what resets it.
- **Response normalisation** (`RollbarClient.Normalise`). The SDK callback's
  `(err, data)` becomes `{uuid, status}` through the source's `||` chains,
  where `0` and `''` count as false.
- **The dispatch coordinator** (`EventControls.Controls`). Each send passes a
  busy flag and a token guard. The asynchronous handlers are split at their
  `await`: `HandleSendLog`/`HandleSendException` start the send and
  `CompleteSend` finishes it. A completed send prepends exactly one event.
- **The token settings modal** (`TokenSettings.Modal`): loading on open,
  trimmed save, clear, and when Save is enabled.
- **The history panel's classifiers and row rules** (`EventSlideout`).
- **The version-4 UUID template fill** (`Time`), following section 4.4 of
  RFC 4122. The random nibbles are an input.
- **The source-map uploader** (`UploadSourceMaps`):
  - the environment defaults;
  - the path-to-URL mapping;
  - the `multipart/form-data` body (section 4 of RFC 7578, delimiters per
    section 5.1.1 of RFC 2046);
  - the request it sends;
  - the status-200 success rule.

The browser is the class `Browser.Page`:

- `localStorage` is a `map<string, string>`;
- `window.location.reload()` sets a "reload requested" flag;
- each `setTimeout` call is recorded as an intent (delay and action) and is
  not run;
- `typeof window !== 'undefined'` is the constant `hasWindow`.

The build-time environment (`NEXT_PUBLIC_*`, `process.env.*`), the SDK's
callback arguments, the random nibbles, timestamps, map-file contents and
network replies are parameters.

An empty stored token is treated as absent (`if (localToken)`), so resolution
then falls back to the build-time token. The model follows the code.

## Model

| member | source | states |
|---|---|---|
| JsBuiltins.Truthy | lib/rollbarClient.js:12 | truthiness of a string or `undefined`: only a present, non-empty string is truthy |
| JsBuiltins.TruthyNum | lib/rollbarClient.js:130 | truthiness of a number or `undefined`: only a present, non-zero number is truthy |
| JsBuiltins.Or | lib/rollbarClient.js:12-18 | `a \|\| b` on optional strings: `a` when it is a non-empty string, otherwise `b` |
| JsBuiltins.OrNum | lib/rollbarClient.js:130 | `a \|\| d` on optional numbers: `a` when it is present and non-zero, otherwise `d` |
| JsBuiltins.IsWhitespace | components/TokenSettings.js:23 | the characters `trim` removes: the ECMAScript WhiteSpace and LineTerminator code points |
| JsBuiltins.LeadingWhitespace | components/TokenSettings.js:23 | length of the whitespace prefix that `trim` removes: all of it is whitespace and the next character is not |
| JsBuiltins.TrailingWhitespace | components/TokenSettings.js:23 | the same for the whitespace suffix |
| JsBuiltins.Trim | components/TokenSettings.js:23-24 | the result is empty iff the input is all whitespace; otherwise it starts and ends with non-whitespace; the input is the result with only whitespace before and after it (`PaddedAt`) |
| JsBuiltins.TrimIdempotent | components/TokenSettings.js:24 | trimming a trimmed token changes nothing |
| JsBuiltins.IndexOf | scripts/upload-sourcemaps.js:129 | the index found is an occurrence of the pattern and no earlier index is one; `None` means the pattern does not occur at all |
| JsBuiltins.ReplaceFirst | scripts/upload-sourcemaps.js:129 | `replace` with a string pattern replaces only the first occurrence, or returns the input when there is none |
| JsBuiltins.Join | scripts/upload-sourcemaps.js:56 | `lines.join(sep)`: the elements with `sep` between consecutive ones |
| JsBuiltins.JoinSplit | scripts/upload-sourcemaps.js:36-56 | `join` of `xs + ys` (with `ys` non-empty) ends every element of `xs` with the separator, then joins `ys` |
| JsBuiltins.TerminatedAppend | scripts/upload-sourcemaps.js:36-56 | CRLF-terminated lines distribute over concatenation |
| JsBuiltins.ToUpperAscii | components/EventControls.js:48 | `toUpperCase` of one character: a lower-case ASCII letter becomes its capital; every other character is kept |
| JsBuiltins.Capitalize | components/EventControls.js:48 | same length; the first character is upper-cased and the rest kept |
| Browser.Page.GetItem | lib/rollbarClient.js:11 | `localStorage.getItem`: the stored value, or `None` (`null`) exactly when the key is absent |
| Browser.Page.SetItem | lib/rollbarClient.js:81 | `localStorage.setItem`: only that key's value changes; no reload and no timer |
| Browser.Page.RemoveItem | components/TokenSettings.js:35 | `localStorage.removeItem`: the key is gone and the rest is kept |
| Browser.Page.Reload | lib/rollbarClient.js:92 | `window.location.reload()` raises the reload request and leaves storage and timers alone |
| Browser.Page.SetTimeout | components/TokenSettings.js:26-30 | `setTimeout` appends one intent with its delay and action and changes nothing else |
| RollbarClient.GetAccessToken | lib/rollbarClient.js:8-19 | in a browser, a non-empty stored token wins; in every other case the build-time token is returned, even when it is absent |
| RollbarClient.ShouldEnableReplay | lib/rollbarClient.js:24-28 | false without a window; otherwise true iff the stored preference is exactly `"true"` |
| RollbarClient.ConfigFor | lib/rollbarClient.js:40-65 | the config built: the resolved token; `enabled` iff that token is non-empty; both capture flags false; `replay.enabled` always true; `autoStart` the stored preference; environment defaults to `"development"`; code version `"1.0.0"`; source maps off |
| RollbarClient.NestedUuid | lib/rollbarClient.js:134 | `data?.result?.uuid`, absent when `data` or `result` is missing |
| RollbarClient.TopUuid | lib/rollbarClient.js:134 | `data?.uuid`, absent when `data` is missing |
| RollbarClient.Normalise | lib/rollbarClient.js:124-145 | the callback flattening shared by both sends: status never 0; a uuid, when present, is non-empty and is either `data.result.uuid` or `data.uuid`; an error gives no uuid |
| RollbarClient.UuidChain | lib/rollbarClient.js:134 | on success, nested `result.uuid` wins, then top-level `uuid`, else null |
| RollbarClient.SuccessStatusChain | lib/rollbarClient.js:135 | on success: 200 when `err === 0`, else a truthy `status`, else a truthy `statusCode`, else 202 |
| RollbarClient.ErrorStatusChain | lib/rollbarClient.js:126-131 | on error: no uuid, and `err.status \|\| err.statusCode \|\| 500` |
| RollbarClient.MissingDataResolves | lib/rollbarClient.js:134-135 | a callback with no `data` still resolves, with no uuid and status 202 |
| RollbarClient.Adapter.constructor | lib/rollbarClient.js:3 | the module starts with no instance, no constructions and no SDK calls |
| RollbarClient.Adapter.GetRollbar | lib/rollbarClient.js:34-71 | an existing instance is returned unchanged, and nothing is built even if storage has changed; otherwise exactly one client is built, with `ConfigFor` of the current storage, and kept |
| RollbarClient.Adapter.StartSessionReplay | lib/rollbarClient.js:77-96 | without a window nothing changes; otherwise `"true"` is stored first and the client obtained, reusing an existing instance or building exactly one whose configuration is computed from the updated storage and has `autoStart` on; then either `triggerDirectReplay({tags: ['manual-start']})` is called or, without that capability, a reload is requested |
| RollbarClient.Adapter.StopSessionReplay | lib/rollbarClient.js:102-113 | without a window nothing changes; otherwise `"false"` is stored and a reload is always requested |
| RollbarClient.Adapter.SendLog | lib/rollbarClient.js:121-125 | obtains the client as `GetRollbar` does and records exactly one `rollbar[level](message)` call |
| RollbarClient.Adapter.SendException | lib/rollbarClient.js:153-157 | obtains the client as `GetRollbar` does and records exactly one `rollbar.error(error)` call |
| RollbarClient.Adapter.Reset | lib/rollbarClient.js:3 | a page reload leaves `rollbarInstance` null again and keeps the counter and the call log |
| RollbarClient.ReplayTakesEffectAfterReload | lib/rollbarClient.js:55-113 | after start or stop, a reload and `getRollbar()` build a client whose `autoStart` is the preference just chosen, as the newest construction |
| EventSlideout.Badge.ClassName | components/EventSlideout.js:99-134 | the Tailwind class string of each badge colour the two colour functions return |
| EventSlideout.LevelColor | components/EventSlideout.js:96-109 | `info`, `warning`, `error` and `exception` get blue, orange, red and purple; the gray default goes to exactly the other levels |
| EventSlideout.LevelColorsDistinct | components/EventSlideout.js:96-109 | the four named levels get four different class strings, each different from the default's |
| EventSlideout.DigitValue | components/EventSlideout.js:117-118 | the value of one decimal digit, as `Number` reads it |
| EventSlideout.DecimalValue | components/EventSlideout.js:117-118 | the value of a string of decimal digits |
| EventSlideout.NumberOfDigits | components/EventSlideout.js:117-118 | `Number` of a string of decimal digits is its decimal value |
| EventSlideout.NumberOf | components/EventSlideout.js:117-118 | `Number` of a blank string is 0, and any number read is non-negative |
| EventSlideout.NumericValue | components/EventSlideout.js:116-117 | `Number(status)`: a numeric status as itself, a string status as `Number` reads it, NaN as absent |
| EventSlideout.NumberColor | components/EventSlideout.js:119-123 | the numeric ranges: green for [200, 300), red from 400, otherwise no colour yet |
| EventSlideout.StringColor | components/EventSlideout.js:127-136 | the `switch` on the status string: `sent`, `queued`, `error`, default |
| EventSlideout.StatusColor | components/EventSlideout.js:115-137 | a numeric status in [200, 300) is green and one ≥ 400 red; one below 200 or in [300, 400) falls through to the gray default; a NaN string goes to the string switch |
| EventSlideout.DigitStringStatus | components/EventSlideout.js:117-124 | a status string of digits is coloured exactly like the number it spells |
| EventSlideout.NotANumber | components/EventSlideout.js:117 | a string starting with a character that is neither whitespace nor a digit reads as NaN |
| EventSlideout.WordStatus | components/EventSlideout.js:127-136 | status words: `sent` green, `queued` orange, `error` red, anything else gray |
| EventSlideout.UuidText | components/EventSlideout.js:70 | a missing or empty uuid is shown as `—`; any other uuid as itself |
| EventSlideout.RowOf | components/EventSlideout.js:59-78 | the values row `i` is rendered from: level and its class, uuid text, status and its class, timestamp, and a bottom border unless last |
| EventSlideout.View | components/EventSlideout.js:8-81 | closed gives nothing; open and empty gives "No events sent yet"; otherwise one row per event, in order |
| EventSlideout.TableRows | components/EventSlideout.js:59-78 | row `i` shows event `i`'s level and its colour, the uuid or `—`, and the status colour; it has a bottom border exactly when it is not the last row |
| Time.VariantNibble | lib/time.js:16 | `r & 0x3 \| 0x8` is `8 + r mod 4`: the variant bits `10` of section 4.1.1 of RFC 4122 |
| Time.HexValue | lib/time.js:17 | reading a hex digit back gives a nibble whose `toString(16)` is that digit |
| Time.IsHole | lib/time.js:14 | the characters `/[xy]/g` matches: `x` and `y` |
| Time.Holes | lib/time.js:14 | how many characters of a template the regular expression replaces |
| Time.HexDigit | lib/time.js:17 | `v.toString(16)` of a nibble is one lower-case hex digit |
| Time.Fill | lib/time.js:14-18 | the regular-expression `replace` over the template, one nibble per `x` or `y`, left to right |
| Time.GenerateUuid | lib/time.js:13-19 | `generateUuid()` for the given nibbles; 36 characters long (its layout is `UuidLayout`) |
| Time.FillAt | lib/time.js:14-18 | at every position of the filled template, a character other than `x` or `y` is kept, and an `x`/`y` gets the digit of the nibble whose rank is the number of holes before it |
| Time.FillLength | lib/time.js:14-18 | filling keeps the template's length |
| Time.HolesAppend | lib/time.js:14 | replaced characters add up over concatenation |
| Time.Xs | lib/time.js:14 | a run of `n` characters `x` |
| Time.HolesOfXs | lib/time.js:14 | a run of `x` has one replaced character per character |
| Time.TemplateSpelledOut | lib/time.js:14 | the template is `xxxxxxxx-xxxx-4xxx-yxxx-xxxxxxxxxxxx` |
| Time.TemplateHoles | lib/time.js:14-15 | the template takes 31 random nibbles |
| Time.UuidLayout | lib/time.js:13-19 | every generated id has 36 characters, hyphens at 8, 13, 18 and 23, version `4` at 14, and `8`, `9`, `a` or `b` at 19; hyphens and the `4` are kept verbatim; every `x` position is its own nibble as a lower-case hex digit, which reads back as that nibble |
| Time.HexRoundTrip | lib/time.js:17 | `HexValue` undoes `toString(16)` on a nibble |
| EventControls.KindLevel | components/EventControls.js:53-88 | the level a recorded event carries: the log level for a log send, `exception` for an exception send |
| EventControls.HasToken | components/EventControls.js:28-32 | true iff the stored token or the build-time token is non-empty |
| EventControls.HasTokenMatchesResolution | components/EventControls.js:28-32 | in the browser, `hasToken()` agrees with truthiness of `getAccessToken()` (lib/rollbarClient.js:8-19) |
| EventControls.LogMessage | components/EventControls.js:48 | the level with its first character upper-cased, then ` message from demo app` |
| EventControls.InfoButtonMessage | components/EventControls.js:48 | the info button sends `Info message from demo app` |
| EventControls.Controls.constructor | components/EventControls.js:13-23 | no events, panel closed, not sending, no notice; replay on iff a window exists and the stored preference is `"true"` |
| EventControls.Controls.Warn | components/EventControls.js:40-43 | the guard's failure: the fixed notice is shown and its clearing after 3000 ms scheduled; history, busy flag and replay state are kept |
| EventControls.Controls.ExpireWarning | components/EventControls.js:42 | the scheduled `setError(null)` clears the notice and nothing else |
| EventControls.Controls.HandleSendLog | components/EventControls.js:37-49 | sends iff not busy and a token exists; while busy nothing changes at all; without a token only the notice and its timer; otherwise busy, exactly one SDK call with the capitalised message, the client reused or built exactly once from the current storage; history and slideout unchanged until completion |
| EventControls.Controls.HandleSendException | components/EventControls.js:71-83 | the same guards and the same client and frame guarantees; the one SDK call is `rollbar.error` with `Test exception from demo app` |
| EventControls.Controls.CompleteSend | components/EventControls.js:50-99 | the busy flag is cleared either way; a throw leaves the history unchanged; a resolved send prepends exactly one event, with a fresh uuid, the level (or `exception`), and the normalised uuid and status, and keeps the earlier events in order |
| EventControls.Controls.HandleToggleSessionReplay | components/EventControls.js:105-119 | without a token, the notice only; otherwise the flag flips and no timer is set, with stop called when it was on and start when it was off; start without a window leaves client, storage and reload untouched, and with one stores the flag and either makes one direct-replay call or requests a reload; history, busy state and slideout untouched |
| EventControls.Controls.OpenSlideout | components/EventControls.js:133 | opens the history panel and changes no other state |
| EventControls.Controls.CloseSlideout | components/EventControls.js:233 | closes the history panel and changes no other state |
| EventControls.Controls.Slideout | components/EventControls.js:230-234 | closed exactly when the open flag is off; the empty notice exactly when open with no history; otherwise a table with one row per event, row `i` rendered from event `i` |
| EventControls.DoubleClickSendsOnce | components/EventControls.js:38-65 | a second click before the first send settles is dropped: one SDK call, then exactly one new event |
| TokenSettings.Modal.constructor | components/TokenSettings.js:10-11 | an empty field, not saved |
| TokenSettings.Modal.OnOpenChange | components/TokenSettings.js:13-20 | on opening, the stored token (or `''`) is loaded and `isSaved` cleared; on closing nothing changes |
| TokenSettings.Modal.Edit | components/TokenSettings.js:10 | typing replaces the field and keeps `isSaved` |
| TokenSettings.Modal.HandleSave | components/TokenSettings.js:22-32 | a blank or whitespace-only field changes nothing; otherwise the trimmed token is stored, `isSaved` set, and close-and-reload scheduled after 1000 ms |
| TokenSettings.Modal.HandleClear | components/TokenSettings.js:34-41 | the stored key is removed, the field emptied, `isSaved` cleared, a reload scheduled after 500 ms |
| TokenSettings.Modal.View | components/TokenSettings.js:43-107 | nothing while closed; when open, Save is disabled iff the field trims to empty or was already saved |
| TokenSettings.SavedTokenResolves | components/TokenSettings.js:24 | after a save, token resolution yields the trimmed token (lib/rollbarClient.js:11-13) |
| TokenSettings.ClearedTokenFallsBack | components/TokenSettings.js:35 | after clearing, token resolution falls back to the build-time token (lib/rollbarClient.js:18) |
| TokenSettings.SaveThenReopen | components/TokenSettings.js:13-31 | typing, saving and reopening shows the trimmed token with Save enabled again |
| UploadSourceMaps.RollbarEnv | scripts/upload-sourcemaps.js:19 | the configured environment, or `development` |
| UploadSourceMaps.CodeVersion | scripts/upload-sourcemaps.js:20 | the configured source version, or `latest` |
| UploadSourceMaps.BaseUrl | scripts/upload-sourcemaps.js:21-23 | `https://` + `VERCEL_URL` when set, else `BASE_URL` when set, else `http://localhost:3000`; never empty |
| UploadSourceMaps.RelativePath | scripts/upload-sourcemaps.js:129 | the first `.next/` renamed to `_next/`, then the first `.map` removed |
| UploadSourceMaps.MinifiedUrlAsWritten | scripts/upload-sourcemaps.js:130 | `${BASE_URL}${relativePath}`, as written: the base directly followed by the relative path |
| UploadSourceMaps.MinifiedUrl | scripts/upload-sourcemaps.js:128-130 | the intended URL: the base, a `/`, then the relative path |
| UploadSourceMaps.RelativePathOfMapFile | scripts/upload-sourcemaps.js:129 | for `.next/m.map` with `.map` only at the end, the relative path is `_next/m` |
| UploadSourceMaps.PrefixRenamed | scripts/upload-sourcemaps.js:129 | the leading `.next/` is the first occurrence, so it is the one renamed to `_next/` |
| UploadSourceMaps.ExtensionDropped | scripts/upload-sourcemaps.js:129 | when `.map` occurs only at the end, that final `.map` is the one removed |
| UploadSourceMaps.MinifiedUrlOfMapFile | scripts/upload-sourcemaps.js:128 | the intended URL of `.next/m.map` is `base/_next/m`, as the comment shows |
| UploadSourceMaps.MinifiedUrlMissesSlash | scripts/upload-sourcemaps.js:130 | as written, the URL is `base_next/m`, which never equals the intended one |
| UploadSourceMaps.LocalMinifiedUrlAsWritten | scripts/upload-sourcemaps.js:130 | with the default base, `.next/a.js.map` is registered as `http://localhost:3000_next/a.js` |
| UploadSourceMaps.StripTrailingSlashes | scripts/upload-sourcemaps.js:33 | a prefix of the path with only slashes removed and no trailing slash left |
| UploadSourceMaps.AfterLastSlash | scripts/upload-sourcemaps.js:33 | the longest slash-free suffix, preceded by a slash unless it is the whole path |
| UploadSourceMaps.Basename | scripts/upload-sourcemaps.js:33 | `path.basename`: the last segment, trailing slashes ignored |
| UploadSourceMaps.BasenameOfFile | scripts/upload-sourcemaps.js:33 | `path.basename` of `dir/name` is `name` |
| UploadSourceMaps.FormDataLayout | scripts/upload-sourcemaps.js:36-56 | the body is the parts `access_token`, `version`, `minified_url`, `source_map`, in that order, each opened by `--boundary`; values and map content are verbatim; then `--boundary--` and one CRLF |
| UploadSourceMaps.CloseDelimiter | scripts/upload-sourcemaps.js:54-56 | the last two lines give `--boundary--` followed by exactly one CRLF |
| UploadSourceMaps.PartsTerminated | scripts/upload-sourcemaps.js:37-53 | the lines of the four parts, each ended by CRLF, are the four parts in order |
| UploadSourceMaps.FieldTerminated | scripts/upload-sourcemaps.js:37-40 | a field part is its delimiter, disposition line, empty line and value, each ended by CRLF |
| UploadSourceMaps.FileTerminated | scripts/upload-sourcemaps.js:49-53 | the file part also names the file and `Content-Type: application/json` |
| UploadSourceMaps.Disposition | scripts/upload-sourcemaps.js:38-46 | the `Content-Disposition: form-data; name="…"` header of a plain field |
| UploadSourceMaps.FieldLines | scripts/upload-sourcemaps.js:37-48 | a field part's lines: delimiter, disposition, blank line, value |
| UploadSourceMaps.FileLines | scripts/upload-sourcemaps.js:49-53 | the file part's lines: delimiter, disposition with the file name, `Content-Type: application/json`, blank line, content |
| UploadSourceMaps.FormLines | scripts/upload-sourcemaps.js:36-55 | the `formData` array: three field parts, the file part, the close delimiter and an empty last element |
| UploadSourceMaps.FormData | scripts/upload-sourcemaps.js:36-56 | the array joined with CRLF (its layout is `FormDataLayout`) |
| UploadSourceMaps.Utf8Length | scripts/upload-sourcemaps.js:66 | `Buffer.byteLength`: between 1 and 4 bytes per character |
| UploadSourceMaps.Utf8LengthAscii | scripts/upload-sourcemaps.js:66 | ASCII text takes one byte per character |
| UploadSourceMaps.ConcatAppend | scripts/upload-sourcemaps.js:71-75 | accumulated chunks add up over appending |
| UploadSourceMaps.Concat | scripts/upload-sourcemaps.js:71-75 | the response chunks concatenated in order |
| UploadSourceMaps.ReadBody | scripts/upload-sourcemaps.js:71-75 | `data += chunk` over the chunks yields their concatenation in order |
| UploadSourceMaps.UploadRequest | scripts/upload-sourcemaps.js:58-93 | a POST to `api.rollbar.com:443/api/1/sourcemap`, with content type `multipart/form-data; boundary=…`, the form body, and its UTF-8 length |
| UploadSourceMaps.UploadSourceMap | scripts/upload-sourcemaps.js:25-96 | no server token means no request and a skip; otherwise the form request is sent; other statuses are rejections and a request error is an error; the upload succeeds iff a token is set and the status is exactly 200, and is skipped iff there is no token |
| UploadSourceMaps.PlanUploads | scripts/upload-sourcemaps.js:104-133 | no token means nothing is planned; otherwise each found map file, in order, is paired with `${BASE_URL}${relativePath}`, the URL as the script builds it, with no `/` between base and path |

## Left out

- RollbarClient.Adapter.SendLog: requires a level the SDK has a method for (`debug`, `info`, `warning`, `error`, `critical`, the levels its JSDoc allows). Any other level makes `rollbar[level]` fail inside the promise executor. That rejection is not modelled. The app's buttons use only `info`, `warning` and `error`.
- EventControls.Controls.HandleSendLog: carries the same level precondition, for the same reason.
- EventSlideout.NumberOf: `Number()` is modelled only for blank strings and for decimal digits with surrounding whitespace. Every other string, such as `1e3`, `0x10`, `-5`, `3.5` or `Infinity`, is treated as NaN. Statuses produced by the app are always numbers.
- JsBuiltins.ToUpperAscii: upper-cases ASCII letters only. Unicode case mapping is not modelled, and the app's levels are ASCII.
- JsBuiltins.ReplaceFirst: `$` patterns in the replacement string are not interpreted. The script's replacements are the constants `_next/` and the empty string.
- UploadSourceMaps.UploadSourceMap: the rejection's message `Upload failed: <status>` is kept as the status number. Number-to-string formatting is not modelled.
- UploadSourceMaps.Utf8Length: counts Unicode scalar values. A JavaScript string holding a lone surrogate cannot be represented as a Dafny string.
- The boundary is not checked against the map content. The script never checks that the boundary is absent from it, so no such property is claimed.
- Timer callbacks are not run; each `setTimeout` is recorded as an intent with its delay. `Controls.ExpireWarning` is the warning's callback. `Adapter.Reset` is what a reload does to the module's state.
- React's asynchronous state batching is not modelled. Handlers read current state directly, so the stale closure read of `isSending` is not modelled either. The buttons are also disabled while sending.
- The Rollbar SDK is foreign code: its transport, batching, replay capture and `triggerDirectReplay`. The model records which calls are made and takes the callback's arguments as input. Whether `triggerDirectReplay` exists is a constant. The `rollbar &&` test is always true, because `getRollbar()` always returns a client.
- The `payload.client.javascript` block of the config is flattened into the fields `codeVersion` and `sourceMapEnabled`.
- Clock and randomness are inputs: `Math.random` (as the nibble sequence), `getCurrentTimestamp` (as the timestamp) and `Date.now()` (as the boundary). `formatTimestamp` is locale-dependent `toLocaleString` and is not modelled.
- Uploader I/O is input: the glob and its ignore patterns give the map-file list; `fs.readFile` gives the map content; the HTTPS exchange gives a `Reply`.
- `PlanUploads` covers the loop only. `Promise.allSettled`, the `try`/`catch` with `process.exit(0)`, and the console output are not modelled. With no map files found, the plan is empty, just as the script returns early.
- All console output is left out: `console.log`, `console.warn` and `console.error`.
- JSX markup and styling are not modelled beyond the values the markup is computed from. This covers components/TokenBanner.js (its token test repeats `hasToken`), components/Header.js, components/Footer.js, app/page.js, app/layout.js, tailwind.config.js and next.config.js.

## Findings

| source | as written | input that shows it | evidently intended | confidence | as-written member | corrected member |
|---|---|---|---|---|---|---|
| scripts/upload-sourcemaps.js:130 | `${BASE_URL}${relativePath}`, with nothing between them; `relativePath` starts with `_next/` | base URL left at its default `http://localhost:3000`, map file `.next/a.js.map`: the URL registered is `http://localhost:3000_next/a.js` | `http://localhost:3000/_next/a.js`, with a `/` between base and path, as the comment at line 128 shows | high; not executed | UploadSourceMaps.MinifiedUrlAsWritten (shown by UploadSourceMaps.MinifiedUrlMissesSlash and UploadSourceMaps.LocalMinifiedUrlAsWritten) | UploadSourceMaps.MinifiedUrl (proved by UploadSourceMaps.MinifiedUrlOfMapFile; UploadSourceMaps.PlanUploads keeps the as-written URL, as the script does) |
