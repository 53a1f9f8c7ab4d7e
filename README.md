# artimi client core, modelled in Dafny

This project models the four stateful components of the artimi client for the
Transkribus transcription service:

- **Processes** (`process.dfy`): the status state machine of one remote
  transcription job. A `Process` class holds the job id, one of five statuses
  (CREATED, WAITING, RUNNING, FINISHED, FAILED), the last reported content,
  the log of events it has emitted (`change`, `done`, `error`) and the number
  of `error` listeners registered. An `error` event emitted with no listener
  throws the emitted error out of `update` after the state has changed; the
  model reports that error. The pure
  function `Apply` is one `update` call. The class's `Update` method is proved
  to move its state exactly as `Apply` says. The lemmas about `Apply` cover:
  rejection of unknown statuses, idempotence on repeated reports, the exact
  events of a transition, at most one change notification when a report is
  delivered twice, and coherence of the whole event history over any run of
  reports.
- **Tokens** (`token_set.dfy`): the `TokenSet` credential holder. `Refresh`
  overwrites the timestamp and the four credential fields. The expiry checks
  evaluate `value - (now - timestamp) * 1000 > 0` exactly as the source writes
  it, with the clock passed in as `now`. They are characterised by the last
  live instant `timestamp + (value - 1) div 1000`. Expiry is proved permanent
  under a clock that does not go back.
- **Images** (`image.dfy`): recognition of PNG (section 5.2 of ISO/IEC 15948),
  JPEG (ITU-T T.81, Annex B) and TIFF (section 2 of TIFF 6.0) data by leading
  bytes. Also the `^[a-z]+://` scheme test that tells URLs from paths, the
  `Image` class with its buffer and URL fields, the size-and-signature
  `validate` rule, the `{base64}` / `{imageUrl}` JSON choice, and the part of
  `Image.open` that needs no I/O.
- **Sessions** (`session.dfy`): the `Session` class. It covers the
  configuration merge and the header rules of `request`: the session cookie,
  the forced User-Agent and the defaulted Accept. The caller's header
  dictionary is a `HeaderBag` object that `request` changes in place. It also
  covers the URL built from the API base, non-ok responses turned into errors,
  and the session id set by `login` and cleared by `logout` whether or not the
  logout call fails. The network call is a `Transport` function passed in.

Facts about the code that a reader might not expect:

- The session authenticates with a `JSESSIONID` cookie. The code has no OAuth
  bearer tokens, token refresh fallback, rate limiting, polling loop or result
  retrieval.
- Job statuses are not monotonic. `update` moves a FINISHED job back to
  RUNNING (lemma `FinishedCanBeLeft`).
- Token expiry has no safety margin. It multiplies elapsed milliseconds by
  1000 instead of dividing. A lifetime of 300 is therefore dead one
  millisecond after issue (lemma `LifetimeReadAsThousandths`).
- `validate` caps buffers at 20 KiB, although its message speaks of 20 mb.

The status enumeration in `src/process.js` is written with plain strings as
property descriptors, and its membership test calls `Status.keys()`, which
does not exist. The model gives the evidently intended meaning: a raw status
is accepted exactly when it names one of the five statuses.

## Model

| member | source | states |
|---|---|---|
| Processes.ParseStatus | src/process.js:26-29 | a raw status is accepted exactly when it is the name of one of the five statuses, and then names the status returned |
| Processes.ParseName | src/process.js:4-10 | every status's own name is accepted as that status |
| Processes.ApplyRejectsUnknown | src/process.js:36-38 | `update` is rejected, before anything is stored or emitted, exactly when the status names none of the five, with the setter's message `unknown status: <raw>` |
| Processes.ApplyRepeated | src/process.js:36-41 | an update repeating the current status changes nothing, emits nothing and throws nothing |
| Processes.ApplyTransition | src/process.js:43-53 | an update to a different status sets status and content and emits exactly one `change(next, prev)`; it then emits `done` on FINISHED, the error `process#<id> failed` on FAILED, and nothing more otherwise; it throws that error exactly when it reaches FAILED with no `error` listener registered |
| Processes.ApplyTwiceNotifiesOnce | src/process.js:36-44 | delivering the same report twice leaves the second delivery without effect and adds at most one change notification |
| Processes.ApplyIsCoherent | src/process.js:36-53 | the events one update appends form a coherent history from the old status to the new one |
| Processes.RunIsCoherent | src/process.js:36-53 | over any sequence of reports, including one cut short by a rejected or throwing update, the emitted events form a coherent history from the first status to the current one: each change starts where the last ended, `done` only in FINISHED, `error` only in FAILED |
| Processes.FinishedCanBeLeft | src/process.js:36-44 | a FINISHED job accepts an update back to RUNNING (no monotonicity check) |
| Processes.Process.constructor | src/process.js:15-20 | a new process has the given id and status, no content, no events and no listeners |
| Processes.Process.Create | src/process.js:15-20 | `new Process(id, status)` starts in CREATED when no status is given, fails with `unknown status: <raw>` on an unknown one, and otherwise starts in the named status with the given id |
| Processes.Process.SetStatus | src/process.js:26-29 | the setter stores a valid status and fails, leaving the status unchanged, on an unknown one |
| Processes.Process.Done | src/process.js:31-34 | `done` holds exactly when the status is FINISHED or FAILED |
| Processes.Process.OnError | src/process.js:12 | registering an `error` listener (inherited from the event emitter) adds one listener |
| Processes.Process.Update | src/process.js:36-54 | the process's new status, content and event log are those of `Apply`; on an unknown status nothing changes and the setter's error is returned; a change to FAILED with no `error` listener changes the state and then fails with `process#<id> failed`; the id never changes |
| Processes.Process.Ready | src/process.js:56-64 | `ready()` resolves at once with the process itself exactly when it is done; otherwise it registers an `error` listener and stays pending |
| Tokens.LiveUntil | src/token-set.js:23-25 | the expiry formula holds exactly for present values up to and including the last live instant |
| Tokens.LiveAtIssue | src/token-set.js:23-25 | at the instant of refresh a value is live exactly when it is present and positive |
| Tokens.DeadStaysDead | src/token-set.js:23-25 | with a clock that does not go back and no refresh, an expired value stays expired |
| Tokens.LifetimeReadAsThousandths | src/token-set.js:24 | a lifetime of 300 is live at issue and dead one millisecond later |
| Tokens.TokenSet.constructor | src/token-set.js:3-5 | construction is one refresh: timestamp is the clock, fields are the values |
| Tokens.TokenSet.Refresh | src/token-set.js:7-13 | the timestamp becomes the clock reading and all four credential fields are overwritten from the values |
| Tokens.TokenSet.CheckExpiration | src/token-set.js:23-25 | holds exactly when the value is present and the clock has not passed its last live instant (a missing value, NaN, never holds) |
| Tokens.TokenSet.IsExpired | src/token-set.js:15-17 | expired exactly when `expires_in` is missing or the clock is past its last live instant |
| Tokens.TokenSet.IsRefreshExpired | src/token-set.js:19-21 | the same for `refresh_expires_in` |
| Images.Check | src/image.js:17-18 | true exactly when the bytes are empty or the buffer holds them at the offset; false whenever the buffer is too short for non-empty bytes |
| Images.IsPng | src/image.js:8-9 | true exactly when the buffer starts with 89 50 4E 47 0D 0A 1A 0A |
| Images.IsJpeg | src/image.js:11-12 | true exactly when the buffer starts with FF D8 FF |
| Images.IsTiff | src/image.js:14-15 | true exactly when the buffer starts with 49 49 2A 00 or 4D 4D 00 2A |
| Images.FormatsAreExclusive | src/image.js:8-15 | no buffer is recognised as two formats |
| Images.LeadingLetters | src/image.js:6 | counts exactly the ASCII letters (either case) a string starts with |
| Images.HasScheme | src/image.js:6 | the scheme test holds exactly when the string is one or more ASCII letters followed by `://` |
| Images.Serialize | src/image.js:97-107 | the JSON form is base64 exactly when a buffer is present and carries that buffer, otherwise `imageUrl` with the URL |
| Images.SerializeInput | src/image.js:33-40 | a new image is sent as base64 of its bytes exactly when built from a buffer; a URL, a scheme string or a path is sent as the URL, the parsed string or the file URL of the path |
| Images.Image.constructor | src/image.js:33-40 | a buffer input sets the buffer and leaves the URL unset; a URL object or a scheme string sets the URL; anything else is taken as a path |
| Images.Image.SetBuffer | src/image.js:42-44 | the buffer setter stores the bytes |
| Images.Image.SetPath | src/image.js:50-52 | the path setter stores the file URL of the path |
| Images.Image.SetUrl | src/image.js:54-56 | the URL setter stores the URL parsed from the text |
| Images.Image.Open | src/image.js:24-31 | an existing image is returned as the same object, and needs no loading exactly when it has a buffer; other input is first turned into a new image |
| Images.Image.Validate | src/image.js:85-95 | succeeds with the same image exactly when the buffer is under 20 KiB and starts with a known signature; a missing buffer fails first, then a buffer of 20 KiB or more with `image buffer exceeds 20 mb`, then an unrecognised one with `image buffer has unsupported magic number` |
| Images.Image.ToJson | src/image.js:97-107 | the image's JSON form is base64 of its buffer exactly when it has one, otherwise `imageUrl` with its URL |
| Sessions.Merge | src/session.js:4-9 | the configuration has the keys of both, the options' values winning over the defaults' |
| Sessions.Session.constructor | src/session.js:4-9 | the session's configuration is the merge of defaults and options, and it holds no id |
| Sessions.SessionCookie | src/session.js:53-54 | a present, non-empty id yields the cookie `JSESSIONID=<id>`; any other yields none |
| Sessions.PrepareHeaders | src/session.js:52-59 | Cookie is `JSESSIONID=<id>` when an id is held and the caller's otherwise; User-Agent is always the configured one; Accept is the caller's when given and `application/json` otherwise; every other header is the caller's, and no other header is added |
| Sessions.RequestUrl | src/session.js:61 | the URL is the API base, a slash and the path |
| Sessions.Decimal | src/session.js:71 | a status code renders as its decimal numeral: a non-empty string of digits whose value is the code, with no leading zero |
| Sessions.Checked | src/session.js:66-74 | an ok response is returned as it is; any other fails with `<path> failed with <status>` |
| Sessions.Session.Request | src/session.js:52-75 | the caller's header dictionary ends up as `PrepareHeaders` of its old contents, and the result is the checked answer of the transport to the built URL with those headers |
| Sessions.Session.Post | src/session.js:48-50 | a post sends method POST with the given body, overriding the options' method and body |
| Sessions.Session.Login | src/session.js:17-29 | login posts the configured user and password; on success the id becomes the response's `sessionId` and the details are returned; on failure the id is unchanged |
| Sessions.Session.Logout | src/session.js:31-38 | the id is cleared whether or not the logout request fails, and the request's failure is still reported |
| Sessions.Session.Details | src/session.js:11-15 | returns the JSON body of `auth/details`, or its failure |
| Sessions.Session.Check | src/session.js:40-42 | succeeds exactly when `auth/checkSession` answers ok |
| Sessions.Session.Refresh | src/session.js:44-46 | posts to `auth/refresh` with no body and reports its failure |

## Left out

- Network, file and clock access are not modelled. `fetch` is the `Transport` parameter. `Date.now()` is the `now` parameter. `readFile`, downloading and the protocol switch of `Image#open` (src/image.js:62-83) are not modelled; `Image.Open` stops where they would start.
- URL parsing is not modelled. This covers `new URL`, `pathToFileURL` and their exceptions on malformed input. A `Location` records the text or path it would be built from.
- Base64 encoding is not modelled. The JSON form records the bytes it would encode.
- The `EventEmitter` machinery is modelled only as far as `update` depends on it. Emitted events are an appended log, and `error` listeners are a count. `change` and `done` also pass the process itself, which the log omits. Listeners do not run, so a pending `ready()` is never settled in the model, and `done` and `change` listeners are not counted.
- Tokens.TokenSet.CheckExpiration: lifetimes are integers. JavaScript's `Number` conversion of strings and of `null` (which becomes 0), and floating point, are not modelled; an absent value is NaN.
- Sessions.Merge: configuration values are strings. A key that the options set to `undefined` overrides the default in the source; in the model, an absent key does not.
- Sessions.Session.Request: only the method, body and headers of the options are modelled. Other fetch options are passed through untouched in the source. The response body is taken to be a JSON object of string fields, and failures of `res.json()` are not modelled.
- Every `Session` method, and `Image.open`, is `async`. The model treats each call as one atomic step. Interleavings at `await` points are not captured. For example, a `login` still awaiting its response while a `logout` completes will set the id again afterwards.
- The logging in `request` under `verbose` is not modelled, because it is output only.
- Process ids and session ids are strings. A process's id is a constant, although the source leaves the property writable; nothing reassigns it.
- The getters (`status`, `buffer`, `url`) are the fields themselves.
- src/config.js is not part of this model: it loads a file and environment variables once at module load. The defaults are the `defaults` argument of the `Session` constructor. src/model.js is not part of this model either: it is a fetch wrapper.
