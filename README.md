# Ollama Web UI: chat gateway and system-prompt storage, modelled in Dafny

This project models the two parts of the Ollama Web UI repository that hold
real logic:

- **The chat gateway** (`backend/main.py`). It covers:
  - validation of a chat request (`Message`, `ChatRequest`, `validate_messages`);
  - parsing of the comma-separated host and origin settings;
  - the security-header middleware;
  - construction of the upstream call to `{base_url}/api/chat`, including the or-default resolution of model and temperature;
  - extraction of the answer of a non-streaming call;
  - the mapping of failures to 400/503/504/500;
  - the streaming relay generator.
- **System-prompt storage in the browser** (`frontend/vue-app/src/utils/crypto.js`). It covers:
  - the `SystemPromptCrypto` class with its memoised `keyPromise`;
  - the guards of `encrypt` and `decrypt`;
  - the 12-byte-IV-then-ciphertext framing;
  - save and load of the prompt under the `localStorage` key `ollama-webui-system-prompt`.

Exceptions become `Result` values. The HTTP and the upstream server are
inputs:
- a `Call -> PostOutcome` function for the non-streaming POST;
- a `StreamObservation` for the streaming call: a failure to connect, or a status, a body, the chunk sequence and the exception, if any, that ended it.

The browser's cryptography and encodings are the fields of a `Platform`
record: PBKDF2 key derivation, AES-GCM, TextEncoder/TextDecoder and
btoa/atob. The random IV is a parameter. The round-trip behaviour those
functions are assumed to have is the predicate `PromptCipher.Sound`. It
includes what the WHATWG Encoding Standard gives `new TextDecoder()`: with
its default `ignoreBOM: false`, a leading U+FEFF is consumed, so UTF-8
decoding undoes encoding only up to that mark. The
round-trip lemmas take it as a hypothesis. It is not proved, because it is
a property of the browser, not of this code.

Files:
- `wrappers.dfy`: `Option` and `Result`.
- `bytes.dfy`: the byte type.
- `chat_validation.dfy`: module `ChatValidation`.
- `host_list.dfy`: module `HostList`.
- `security_headers.dfy`: module `SecurityHeaders`.
- `dispatch.dfy`: module `Dispatch`.
- `stream_relay.dfy`: module `StreamRelay`.
- `prompt_cipher.dfy`: module `PromptCipher`.
- `prompt_storage.dfy`: module `PromptStorage`.

Behaviours of the code worth knowing, all stated in the model:
- `request.temperature or default` sends the default when the request asks for `0.0`. `request.model or default` does the same for `""`.
- `temperature` left out of the body defaults to 0.5. An explicit `null` is `None`, and `or` then picks the configured default.
- The non-streaming branch never looks at the upstream HTTP status. Only the JSON body decides the answer.
- A truthy `error` field gives 400 `"AI service error occurred"`, whatever the error text. A falsy one, such as `""`, is not an error.
- The streaming branch returns its `StreamingResponse` before the generator runs. Failures in the generator are therefore raised raw, not mapped to 503/504/500.
- In the browser, a failed key derivation stays cached. `keyPromise` holds the rejected promise, which is truthy. Every later encrypt and decrypt on that instance fails, and the next load removes the stored prompt.
- A prompt that starts with U+FEFF comes back from `decrypt` and `loadSystemPrompt` without it, because the decoder drops a leading byte order mark. Every other prompt comes back exactly.
- `saveSystemPrompt` with a truthy non-string value does nothing. `.trim` throws, and the error is swallowed.

## Model

| member | source | states |
|---|---|---|
| ChatValidation.Validate | backend/main.py:22-36 | a request is accepted iff messages are given, 1..50 in number, each with role user/assistant/system and content of 1..10000 characters, the model (if given) is at most 100 characters and the temperature (if given) in [0.0, 2.0]; an accepted request keeps its messages and model, temperature defaults to 0.5 and stream to false when absent, null stays None; a rejection names exactly the failing fields |
| ChatValidation.ValidateMessagesHook | backend/main.py:32-36 | the extra validator rejects exactly the empty list and otherwise returns its input |
| ChatValidation.EmptyMessagesRejected | backend/main.py:26-36 | an empty message list is rejected and reported against `messages` |
| ChatValidation.MessagesHookRedundant | backend/main.py:27-36 | the extra validator never rejects a list that met `min_length=1` |
| ChatValidation.MessageAcceptance | backend/main.py:22-36 | a request holding one message and nothing else is accepted iff the role is user, assistant or system and the content has 1..10000 characters |
| HostList.Split | backend/main.py:51-52 | `split(",")` gives one more piece than there are commas, no piece holds a comma, and joining the pieces with commas gives back the setting |
| HostList.Strip | backend/main.py:51-52 | `strip()` returns the part of the string after its leading whitespace, with no whitespace at either end, followed only by whitespace |
| HostList.ParseList | backend/main.py:51-52 | the parsed list has (number of commas + 1) entries, entry i being the i-th comma-separated piece stripped |
| HostList.EntriesAreClean | backend/main.py:51-52 | no parsed entry holds a comma or starts or ends with whitespace |
| HostList.DefaultSettingParses | backend/main.py:40-52 | the default setting `"*"` parses to `["*"]` |
| HostList.SplitJoin | backend/main.py:51-52 | splitting undoes joining for comma-free pieces |
| HostList.ParseJoinRoundTrip | backend/main.py:51-52 | clean entries joined by commas parse back to the same entries in the same order |
| SecurityHeaders.FiveSecurityHeaders | backend/main.py:73-83 | the middleware sets exactly five distinct headers |
| SecurityHeaders.Response.AddSecurityHeaders | backend/main.py:70-84 | the five headers get their fixed values, no other header is added, and every other header keeps its value |
| SecurityHeaders.AddSecurityHeadersIdempotent | backend/main.py:70-84 | applying the middleware a second time changes nothing |
| Dispatch.ResolveModel | backend/main.py:113-114 | a non-empty requested model is used; None or `""` falls back to the default |
| Dispatch.ResolveTemperature | backend/main.py:116-117 | a non-zero requested temperature is used; None or 0.0 falls back to the default |
| Dispatch.Project | backend/main.py:119 | the upstream message list has the same length and order, each element carrying the role and content of the request's message |
| Dispatch.StreamRequested | backend/main.py:120-125 | `if stream:` on an `Optional[bool]`: only `True` selects the streaming branch, `False` and `None` do not |
| Dispatch.BuildCall | backend/main.py:106-152 | the call goes to `base_url + "/api/chat"` with the configured timeout, the resolved model and temperature, the projected messages and the branch's stream flag |
| Dispatch.DefaultCall | backend/main.py:106-116 | with the literal defaults, a request without model or temperature goes to `http://localhost:11434/api/chat` with model `llama3.3`, temperature 0.5 and timeout 60 |
| Dispatch.ZeroTemperatureReplaced | backend/main.py:117 | a requested temperature of 0.0 is sent as the default |
| Dispatch.MapException | backend/main.py:161-171 | an HTTPException passes through; a timeout is 504 "AI service timeout", a connect error 503 "AI service unavailable", anything else 500 "Internal server error" |
| Dispatch.MapExceptionIdempotent | backend/main.py:161-162 | mapping an already mapped error again leaves it unchanged |
| Dispatch.UnexpectedTextHidden | backend/main.py:169-171 | the text of an unexpected exception never affects the error the caller gets |
| Dispatch.ExtractAnswer | backend/main.py:155-159 | the answer succeeds iff the body is a JSON object without a truthy `error` and with `message.content`, and is then exactly `{"response": content}`; a truthy `error` gives 400 "AI service error occurred" |
| Dispatch.NonStreamingAnswer | backend/main.py:141-171 | a POST that raised gives the mapped error of that exception; a reply gives `{"response": content}` when the body yields one and otherwise the mapped error of what extraction raised |
| Dispatch.UpstreamErrorHidden | backend/main.py:155-158 | any two replies with a truthy `error` give the same fixed 400, whatever the error value and the status |
| Dispatch.SuccessfulAnswer | backend/main.py:159 | a reply `{"message": {"content": c}}` gives exactly `{"response": c}` |
| Dispatch.StatusIgnored | backend/main.py:143-159 | the upstream status never changes the non-streaming answer |
| Dispatch.NonStreamingErrors | backend/main.py:155-171 | every non-streaming error is one of the four fixed status/detail pairs (400, 504, 503, 500) |
| Dispatch.AskOllama | backend/main.py:103-171 | a streaming request yields a stream over the call with `stream: true`; otherwise the reply is the mapped answer of the POST with `stream: false` |
| Dispatch.HandleChat | backend/main.py:103-104 | a request that fails validation is rejected with its failing fields; a valid one is handled by `ask_ollama` |
| Dispatch.RejectedBeforeDispatch | backend/main.py:103-104 | the reply to a rejected request does not depend on the upstream: no call is made |
| Dispatch.StreamingSkipsPost | backend/main.py:124-140 | in the streaming branch the reply does not depend on the POST outcome, and the call carries `stream: true` |
| Dispatch.NonStreamingFailures | backend/main.py:141-168 | in the non-streaming branch the POST carries `stream: false`, a refused connection gives 503 and a timeout 504 |
| StreamRelay.StatusGateAsWritten | backend/main.py:95-97 | as written, a status other than 200 raises `ResponseNotRead`, not an HTTPException |
| StreamRelay.StatusGate | backend/main.py:95-97 | a status other than 200 raises an HTTPException with that status and the upstream body; 200 passes |
| StreamRelay.AsWrittenLosesStatus | backend/main.py:95-97 | on every status other than 200 the code as written loses the status and the body |
| StreamRelay.RelayChunks | backend/main.py:99-100 | the emitted chunks equal the upstream chunks, element for element and in order |
| StreamRelay.GenerateStream | backend/main.py:87-100 | with the corrected gate of ## Findings: a connect failure re-raises that failure, a non-200 status raises that status with the body, and in both cases nothing is emitted; on 200 every chunk is emitted in order and the exception that ended the stream, if any, is raised |
| StreamRelay.StreamFailureUnmapped | backend/main.py:124-140 | a refused connection or a timeout in the streaming branch escapes as itself, never as the 503 or 504 of the non-streaming branch |
| PromptCipher.DeriveDomainKey | frontend/vue-app/src/utils/crypto.js:29-61 | the key is PBKDF2 of the origin with the fixed salt and 100000 iterations; a failure is "Crypto key derivation failed" |
| PromptCipher.PlaintextGuard | frontend/vue-app/src/utils/crypto.js:70-72 | encryption input is rejected iff it is not a non-empty string, with "Invalid plaintext for encryption" |
| PromptCipher.EncryptedGuard | frontend/vue-app/src/utils/crypto.js:108-110 | decryption input is rejected iff it is not a non-empty string, with "Invalid encrypted data for decryption" |
| PromptCipher.SplitIv | frontend/vue-app/src/utils/crypto.js:121-122 | the two slices put back together give the blob, and the IV part has 12 bytes (or the whole blob when it is shorter) |
| PromptCipher.SplitFrame | frontend/vue-app/src/utils/crypto.js:90-122 | splitting a 12-byte IV followed by a ciphertext gives back exactly that IV and ciphertext |
| PromptCipher.SetAt | frontend/vue-app/src/utils/crypto.js:91-92 | `set(src, offset)` writes `src` at `offset` and leaves the rest of the buffer unchanged |
| PromptCipher.Combine | frontend/vue-app/src/utils/crypto.js:90-92 | the combined buffer has `12 + |ct|` bytes: the IV first, then the ciphertext |
| PromptCipher.Seal | frontend/vue-app/src/utils/crypto.js:74-99 | encryption succeeds iff the key settled, AES-GCM succeeded and the base64 step did not throw (the byte spread of line 95 throws past the argument limit), and yields that base64 of IV ++ ciphertext; every failure is "Failed to encrypt system prompt" |
| PromptCipher.Open | frontend/vue-app/src/utils/crypto.js:112-137 | decryption succeeds iff the key settled, the text is valid base64 and AES-GCM decryption of `slice(12)` under `slice(0, 12)` succeeded, and then yields the UTF-8 decoding of the result; every failure is "Failed to decrypt system prompt" |
| PromptCipher.OpenSeal | frontend/vue-app/src/utils/crypto.js:69-137 | under the assumed cipher and encoding behaviour, decrypting an encryption with the same key gives the plaintext back less a leading U+FEFF (exactly the plaintext when it does not start with U+FEFF), and the encrypted text is never empty |
| PromptCipher.LeadingBomLost | frontend/vue-app/src/utils/crypto.js:132-133 | a plaintext starting with U+FEFF decrypts to the rest of it, which differs from what was encrypted |
| PromptStorage.DomainKeyStep | frontend/vue-app/src/utils/crypto.js:15-22 | the first call derives and caches the key, later calls return the cached value; storage is untouched; a cached key stays the origin's key |
| PromptStorage.EncryptStep | frontend/vue-app/src/utils/crypto.js:69-100 | invalid input fails with "Invalid plaintext for encryption" before the key is asked for, leaving the state unchanged; storage is never touched; errors are one of the two fixed messages; a settled key promise is kept, input that passes the guard leaves one settled, and a cached key stays the origin's key |
| PromptStorage.DecryptStep | frontend/vue-app/src/utils/crypto.js:107-138 | invalid input fails with "Invalid encrypted data for decryption" before the key is asked for; storage is never touched; errors are one of the two fixed messages; a settled key promise is kept, input that passes the guard leaves one settled, and a cached key stays the origin's key |
| PromptStorage.SaveStep | frontend/vue-app/src/utils/crypto.js:145-160 | saving changes no storage entry but the prompt's, stores a new value only for a non-blank string, keeps a settled key, and keeps the cached key the origin's key |
| PromptStorage.LoadStep | frontend/vue-app/src/utils/crypto.js:166-180 | loading either leaves storage alone or removes only the prompt's entry, and loads `''` when it removes it; a cached key stays the origin's key |
| PromptStorage.KeyDerivedOnce | frontend/vue-app/src/utils/crypto.js:15-22 | after the first `getDomainKey` the cache is set and a second call returns the same key without changing anything |
| PromptStorage.KeyFailureSticky | frontend/vue-app/src/utils/crypto.js:16-21 | a cached failed derivation makes every later encryption fail with the fixed message |
| PromptStorage.EncryptDecryptRoundTrip | frontend/vue-app/src/test-crypto.js:26-34 | decrypting what `encrypt` returned on the same instance gives the prompt less a leading U+FEFF, so exactly the prompt when it does not start with one, and leaves the state alone |
| PromptStorage.SaveBlankRemoves | frontend/vue-app/src/utils/crypto.js:147-151 | saving a falsy or whitespace-only prompt removes the key and nothing else, and a later load gives `''` |
| PromptStorage.SaveLoadRoundTrip | frontend/vue-app/src/utils/crypto.js:153-173 | saving a non-blank prompt that encrypts and fits in storage stores its encryption under the key, and loading it back gives the prompt less a leading U+FEFF (exactly the prompt otherwise) and changes nothing |
| PromptStorage.SaveThenFreshLoad | frontend/vue-app/src/utils/crypto.js:145-180 | what one instance saved, a new instance on the same origin (no key promise yet) loads back less a leading U+FEFF (exactly, otherwise), because the fixed salt makes both derive the same key |
| PromptStorage.SaveQuotaExceededKeepsStore | frontend/vue-app/src/utils/crypto.js:153-159 | when `setItem` refuses the encrypted prompt, saving leaves storage unchanged and the old prompt stays |
| PromptStorage.SaveFailureKeepsStore | frontend/vue-app/src/utils/crypto.js:153-159 | when encryption fails, saving leaves storage unchanged |
| PromptStorage.SaveNonStringIgnored | frontend/vue-app/src/utils/crypto.js:145-159 | a truthy non-string prompt changes nothing |
| PromptStorage.LoadMissing | frontend/vue-app/src/utils/crypto.js:168-171 | a missing key loads as `''` and changes nothing |
| PromptStorage.LoadCorruptClears | frontend/vue-app/src/utils/crypto.js:174-179 | when decryption fails, load gives `''`, removes only the key, and every other entry keeps its value |
| PromptStorage.SystemPromptCrypto.constructor | frontend/vue-app/src/utils/crypto.js:7-9 | a new instance has no key promise and is `Valid()` |
| PromptStorage.SystemPromptCrypto.GetDomainKey | frontend/vue-app/src/utils/crypto.js:15-22 | the field update and result agree with `DomainKeyStep`, and `Valid()` (the cached key is the origin's key) is kept |
| PromptStorage.SystemPromptCrypto.Encrypt | frontend/vue-app/src/utils/crypto.js:69-100 | result and new state agree with `EncryptStep`, the buffer being filled in place, and `Valid()` (the cached key is the origin's key) is kept |
| PromptStorage.SystemPromptCrypto.Decrypt | frontend/vue-app/src/utils/crypto.js:107-138 | result and new state agree with `DecryptStep`, and `Valid()` (the cached key is the origin's key) is kept |
| PromptStorage.SystemPromptCrypto.SaveSystemPrompt | frontend/vue-app/src/utils/crypto.js:145-160 | the new fields agree with `SaveStep`, and `Valid()` (the cached key is the origin's key) is kept |
| PromptStorage.SystemPromptCrypto.LoadSystemPrompt | frontend/vue-app/src/utils/crypto.js:166-180 | result and new fields agree with `LoadStep`, and `Valid()` (the cached key is the origin's key) is kept |

## Left out

- Configuration and the environment: `os.getenv`, `float(...)` of environment values, `.env` loading and `Settings`. The handler takes a `Config` record instead; `DEFAULT_CONFIG` holds the literal defaults.
- The media type `application/x-ndjson` of the `StreamingResponse` (backend/main.py:139). A `Streamed` reply carries only its call.
- FastAPI routing, the TrustedHost and CORS middleware internals, static file mounting, and the `catch_all` index lookup. The lookup depends on file existence.
- The shape of the framework's 422 error body. A rejection carries only the set of failing top-level fields.
- JSON-to-type coercion by the validator, such as a number sent as `role`. Raw fields are already typed.
- Temperature as an IEEE float. It is a `real`, used only in the bound checks and the truthiness test `t != 0.0`; NaN is not modelled.
- HTTP header names are exact map keys. The framework's case-insensitive header matching is not modelled.
- httpx networking and wall-clock timeouts, the async scheduling of the generator, and client disconnects. Upstream behaviour is a given input.
- What the caller sees once a streaming response has started. The framework has already sent status 200 when the generator raises, and the relay is then cut short. This behaviour is outside the repository's code.
- Logging and `console` output.
- The model-listing endpoint (`GET /api/models`) is not part of this model.
- `security_audit.py`, a file-scanning script.
- `frontend/vue-app/src/test-crypto.js` as code. Its assertions are the targets of `EncryptDecryptRoundTrip`, `SaveLoadRoundTrip` and `SaveBlankRemoves`.
- `SystemPromptCrypto.isSupported`, which feature-detects the browser.
- PBKDF2, AES-GCM, `getRandomValues`, TextEncoder/TextDecoder and btoa/atob are not interpreted. They are fields of `Platform`, the IV is a parameter, and their round-trip behaviour is the hypothesis `Sound`.
- JavaScript strings are sequences of UTF-16 code units, and a lone surrogate has no Dafny `char`. `TextEncoder` turns such a unit into U+FFFD, so a prompt holding one would not come back as it went in; such prompts are not modelled.
- `localStorage.setItem` is the `storeAccepts` field of `Env`: whether a value fits is an input, and the browser's quota is not modelled.
- `localStorage` is the `store` field of the instance, not a shared global. The singleton export is not modelled.
- A truthy non-string prompt is modelled as having no `trim` method. An object that defines its own `trim` is not modelled.

## Findings

| source | as written | input that shows it | evidently intended | confidence | as-written member | corrected member |
|---|---|---|---|---|---|---|
| backend/main.py:95-97 | `await response.text()` on a streamed httpx response whose body was never read raises `httpx.ResponseNotRead` (and `text` is a property, not a coroutine), so the `HTTPException` carrying the upstream status and body is never raised | a streaming request whose upstream answers with status 404 | read the body (`await response.aread()`), then raise `HTTPException(status_code=response.status_code, detail=response.text)` | not executed; rests on httpx raising `ResponseNotRead` for the content of an unread streamed response | StreamRelay.StatusGateAsWritten (lemma StreamRelay.AsWrittenLosesStatus) | StreamRelay.StatusGate (used by StreamRelay.GenerateStream) |
