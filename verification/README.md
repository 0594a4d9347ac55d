# Brobot MCP server and client: a Dafny model

This project models the decision logic of the Brobot MCP server and its Python client library:

- **Server side**
  - The server runs the Brobot CLI, a Java JAR, as a subprocess to read an application's state structure and current observation, and to execute automation actions.
  - The bridge that does this is modelled.
  - So are the request and response schemas, the settings with their validators, and the mock action dispatch used when no CLI is configured.
- **Client side**
  - The blocking and the asynchronous HTTP clients are modelled: URL construction, the per-request timeout, and how transport failures map onto the client's error hierarchy.
  - So are the conversion of responses into records, the convenience builders for click, type, drag and wait, and the async client's lazily created session.
  - Finally, the retry decorator: capped exponential backoff with jitter, the default retry predicate, and the attempt loop.

Neither client uses the retry decorator. `BrobotClient` and `AsyncBrobotClient` do not derive from `RetryableBrobotClient`, so every client call is exactly one request. The model states this (`Client.BrobotClient.MakeRequest` sends one request), and proves the retry loop's properties separately. The lemma `Client.RetryableTransportFaults` connects the two: it shows which client errors the decorator's default condition would retry.

Foreign code is replaced by parameters:

- The HTTP transport is a `Network` function from a request to an outcome.
- Running the JAR is a `Runner` function from an argument vector and a timeout to the process outcome.
- `json.loads`, `json.dumps`, `datetime.fromisoformat`, `Path.exists` and `random.random()` are functions or values passed in.
- `time.sleep` and `asyncio.sleep` become the recorded sequence of delays.

Error messages are kept as templates of literal pieces and formatted values (`Basics.Text`). This keeps the message structure without rendering floats.

One behaviour is worth knowing: the async client's HTTP-error handler reads `e.response`. aiohttp's `ClientResponseError` has no such attribute, so the handler's bare `except` always falls back to `str(e)`. The model reproduces this in `Http.MapAsync`: the async client never reports the server's "detail" entry, while the blocking client does (`Http.MapSync`).

Module layout, one file each:

- **Utilities**
  - `basics`: Option, Result, JSON values, truthiness, message text.
  - `exceptions`: the error hierarchy.
- **Retry**
  - `retry`: backoff, predicate and loop.
- **Client**
  - `http`: URLs, timeouts and transport error mapping.
  - `client_models`: the client's records.
  - `conversions`: response to record.
  - `builders`: action parameters.
  - `client`: the blocking client.
  - `async_client`: the asynchronous client.
- **Server**
  - `server_models`: the server's schemas.
  - `config`: the server's settings.
  - `bridge`: the CLI bridge.
  - `api`: the mock action dispatch.

## Model

| member | source | states |
|---|---|---|
| Retry.Capped | brobot_client/brobot_client/retry.py:35 | the capped delay is at most `max_delay` and at most `base_delay * 2**attempt`, and equals one of the two |
| Retry.ExponentialBackoff | brobot_client/brobot_client/retry.py:17-40 | without jitter it is `min(base * 2**attempt, max)`; with jitter it lies in [cap/2, cap], strictly below a positive cap |
| Retry.Pow2Monotone | brobot_client/brobot_client/retry.py:35 | `2**a <= 2**b` whenever `a <= b` |
| Retry.BackoffMonotone | brobot_client/brobot_client/retry.py:35 | without jitter the delay never decreases as the attempt number grows |
| Retry.BackoffSaturates | brobot_client/brobot_client/retry.py:35 | once `base * 2**a >= max`, every later unjittered delay equals `max_delay` |
| Retry.JitteredWithinMax | brobot_client/brobot_client/retry.py:35-40 | with non-negative settings a jittered delay lies in [0, max_delay] |
| Retry.ShouldRetry | brobot_client/brobot_client/retry.py:43-58 | true exactly for BrobotConnectionError and BrobotTimeoutError, false for every other error |
| Retry.MakePolicy | brobot_client/brobot_client/retry.py:61-82 | omitted exceptions catch every error; an omitted condition is `should_retry` and a given one is kept as it is; the numeric settings are kept |
| Retry.RetryFrom | brobot_client/brobot_client/retry.py:86-107 | no calls iff no attempts remain; no value iff no call; calls within `max_attempts`; one sleep fewer than calls |
| Retry.RetryStep | brobot_client/brobot_client/retry.py:89-103 | one attempt: a returned value ends the call, an error that is not retryable or comes on the last attempt is re-raised at once, a retryable error sleeps the backoff of this attempt and goes on with the next |
| Retry.SleepsAreBackoffs | brobot_client/brobot_client/retry.py:98-103 | the i-th delay slept is `exponential_backoff` of attempt i with jitter, using draw i |
| Retry.JitterBounds | brobot_client/brobot_client/retry.py:37-38 | scaling a non-negative delay by `0.5 + random() * 0.5` keeps it within [delay/2, delay], strictly below a positive delay |
| Retry.RetryLoop | brobot_client/brobot_client/retry.py:86-131 | the loop's verdict, call count and sleep trace equal RetryFrom's, so each sleep is the jittered backoff of its attempt (SleepsAreBackoffs); at most `max_attempts` calls |
| Retry.ExhaustsAttempts | brobot_client/brobot_client/retry.py:89-103 | an operation that always raises a retryable error is called exactly `max_attempts` times, sleeps `max_attempts - 1` times, and the last error is re-raised |
| Retry.SucceedsOnCall | brobot_client/brobot_client/retry.py:89-103 | first success on call k gives that value after exactly k calls and k-1 sleeps |
| Retry.StopsOnRejectedError | brobot_client/brobot_client/retry.py:90-96 | an error that is not caught, or that the condition rejects, is re-raised after one call with no sleep |
| Retry.NoAttempts | brobot_client/brobot_client/retry.py:89-107 | with `max_attempts <= 0` the operation is never called and the result is None |
| Retry.SleepsWithinMax | brobot_client/brobot_client/retry.py:98-103 | every recorded sleep lies in [0, max_delay] for non-negative settings |
| Retry.ThreeFailuresThenSuccess | brobot_client/brobot_client/retry.py:86-107 | three connection failures then success: three attempts re-raise the third failure, four attempts return the value after four calls |
| Retry.RetryableBrobotClient.constructor | brobot_client/brobot_client/retry.py:145-154 | stores `max_retries` |
| Retry.RetryableBrobotClient.RetryPolicy | brobot_client/brobot_client/retry.py:167 | `max_attempts` is `max_retries`, with the default delays, catch-all exceptions and `should_retry` |
| Retry.RetryableBrobotClient.WithRetry | brobot_client/brobot_client/retry.py:156-183 | runs the attempt loop under RetryPolicy: its outcome is RetryFrom's and it calls at most `max_retries` times |
| Exceptions.NewActionError | brobot_client/brobot_client/exceptions.py:19-25 | an action error that is also a client error, keeps its message and action type; details that are missing or falsy (`{}`, None, 0, "", []) are stored as `{}`, truthy ones as given |
| Exceptions.ClientErrorHierarchy | brobot_client/brobot_client/exceptions.py:4-30 | every error is an Exception; the four specialised errors, and only they and the base, are BrobotClientErrors; each subclass test holds exactly for its own constructor |
| Exceptions.SubclassesAreSiblings | brobot_client/brobot_client/exceptions.py:9-30 | no error is an instance of two of the four subclasses |
| Http.RStripSlash | brobot_client/brobot_client/client.py:42 | the result is a prefix of the input without a trailing '/', and only '/' characters were removed |
| Http.LStripSlash | brobot_client/brobot_client/client.py:90 | the result is a suffix of the input without a leading '/', and only '/' characters were removed |
| Http.LastSlash | brobot_client/brobot_client/client.py:90 | finds the last '/' of a URL, or proves there is none |
| Http.RequestUrlReplacesVersion | brobot_client/brobot_client/client.py:90 | `urljoin(base + "/api/v1", endpoint)` is `base + "/api/" + name`: the RFC 3986 merge (section 5.2.3) drops the final "v1" segment |
| Http.RequestTimeout | brobot_client/brobot_client/client.py:91 | a given non-zero timeout is used as is; None or 0 fall back to the client default |
| Http.MapFault | brobot_client/brobot_client/client.py:108-121 | except-clause order: a connection error maps to BrobotConnectionError, else a timeout to BrobotTimeoutError, else a plain BrobotClientError whose message is "HTTP error: ..." or "Unexpected error: ..." |
| Http.MapSync | brobot_client/brobot_client/client.py:108-121 | the decoded body is returned unchanged; a fault maps through MapFault, with the timeout in the message and the body's "detail" entry when readable; every error is a transport error |
| Http.MapAsync | brobot_client/brobot_client/async_client.py:122-135 | the same mapping with "Request timed out: ..." and the exception's text as the HTTP detail |
| Http.Prepare | brobot_client/brobot_client/client.py:90-100 | the request URL is `base + "/api/" + name`; method, body and SSL flag are passed through; the timeout falls back as in RequestTimeout |
| ClientModels.Location.ToDict | brobot_client/brobot_client/models.py:81-82 | exactly the keys x and y, holding the coordinates |
| ClientModels.Region.ToDict | brobot_client/brobot_client/models.py:93-99 | exactly the keys x, y, width and height, holding the field values |
| ClientModels.Region.Center | brobot_client/brobot_client/models.py:101-107 | the offsets are `width // 2` and `height // 2` (floor division), characterised by `2*dx <= width < 2*dx + 2` |
| ClientModels.ActionRequest.ToDict | brobot_client/brobot_client/models.py:118-124 | always the four keys; `target_state` is null when absent |
| ClientModels.DefaultActionRequest | brobot_client/brobot_client/models.py:110-116 | the dataclass defaults: empty parameters, no target state, timeout 10.0 |
| ClientModels.MostConfidentIndex | brobot_client/brobot_client/models.py:54-58 | an index whose confidence is at least every other, and strictly greater than every earlier one (first on ties) |
| ClientModels.GetMostConfidentState | brobot_client/brobot_client/models.py:54-58 | None iff there are no active states; otherwise the first element of greatest confidence |
| Conversions.Get | brobot_client/brobot_client/client.py:134 | `d.get(k, default)`: succeeds iff d is a dictionary, giving the entry or the default; otherwise an AttributeError |
| Conversions.Index | brobot_client/brobot_client/client.py:146 | `d[k]`: succeeds iff d is a dictionary holding k; KeyError for a missing key, TypeError for a non-dictionary |
| Conversions.Items | brobot_client/brobot_client/client.py:134 | succeeds exactly on a list (its elements) or an empty string or dictionary (none); a non-empty string or dictionary fails with the consumer's error, any other value with "not iterable" |
| Conversions.MapAll | brobot_client/brobot_client/client.py:135-143 | succeeds iff every element converts, then index by index; otherwise the first failing element's error |
| Conversions.MapAllCharacterized | brobot_client/brobot_client/client.py:135-143 | MapAll's characterisation has exactly one solution |
| Conversions.ToTransition | brobot_client/brobot_client/client.py:136-141 | succeeds iff the three names are present; keeps them; probability defaults to 0.0 |
| Conversions.ToState | brobot_client/brobot_client/client.py:134-153 | succeeds iff the value is a dictionary with a name whose transitions (default []) are a list, or empty, of convertible transitions; description "", images [] and both flags False by default; the transitions keep count and order |
| Conversions.StructureFromJson | brobot_client/brobot_client/client.py:130-159 | succeeds iff the body is a dictionary whose states (default []) are a list, or empty, of convertible states; states keep count and order; `current_state` defaults to None and metadata to {} |
| Conversions.ConvertStates | brobot_client/brobot_client/client.py:133-153 | the append loop converts every state in order or returns the first failure, and equals MapAll |
| Conversions.ConvertStateStructure | brobot_client/brobot_client/async_client.py:144-173 | the loop-based conversion equals StructureFromJson |
| Conversions.AsNumber | brobot_client/brobot_client/client.py:174 | ints, floats and bools are numbers with their value; anything else is a TypeError |
| Conversions.ToActiveState | brobot_client/brobot_client/client.py:172-176 | succeeds iff the value is a dictionary with a name and a numeric confidence; `matched_patterns` defaults to [] |
| Conversions.ReplaceZ | brobot_client/brobot_client/client.py:181 | no 'Z' remains; a text without 'Z' is unchanged; the text never shrinks |
| Conversions.ObservationFromJson | brobot_client/brobot_client/client.py:168-190 | succeeds iff the body is a dictionary whose active states convert and whose timestamp is a string that parses once each 'Z' is replaced; active states keep count and order; screenshot None, sizes 0 and metadata {} by default |
| Conversions.ActionResultFromJson | brobot_client/brobot_client/client.py:223-230 | succeeds iff success, action_type and duration are present; the optional fields default to None and {}; every failure is a Python runtime error |
| Conversions.ActionOutcome | brobot_client/brobot_client/client.py:221-240 | a returned result has truthy `success`; a falsy one raises BrobotActionError with the action type, the message "Action '<t>' failed: <error>" and the metadata as details |
| Builders.ClickParameters | brobot_client/brobot_client/client.py:263-273 | succeeds iff there is a non-empty pattern or a location; the pattern wins with exactly {image_pattern, confidence}; otherwise exactly {location}; with neither, ValueError |
| Builders.TypeTextParameters | brobot_client/brobot_client/client.py:292-297 | `typing_speed` is present iff it was given, 0 included |
| Builders.AddPoint | brobot_client/brobot_client/client.py:318-334 | adds either the two coordinates or the pattern of a drag end point, leaving the other entries alone |
| Builders.DragParameters | brobot_client/brobot_client/client.py:318-334 | the key set is duration plus, for each end, coordinates or pattern, never both |
| Builders.WaitParameters | brobot_client/brobot_client/client.py:351-356 | exactly `state_name` and `check_interval` 1.0 |
| Builders.ActionRequestFor | brobot_client/brobot_client/client.py:214-219 | `parameters or {}` and `timeout or fallback`, with the action type and target state kept |
| Client.RetryableTransportFaults | brobot_client/brobot_client/client.py:108-121 | a failed request's error is one `should_retry` accepts iff the transport failed to connect or timed out, for both clients |
| Client.BrobotClient.constructor | brobot_client/brobot_client/client.py:28-52 | `base_url` loses its trailing slashes, `api_base` is `base_url + "/api/v1"`, and a session is open |
| Client.BrobotClient.Close | brobot_client/brobot_client/client.py:54-64 | the session is closed (also on leaving a `with` block) |
| Client.BrobotClient.Sent | brobot_client/brobot_client/client.py:90-100 | the sent URL is `base_url + "/api/" + name`; the timeout falls back on None or 0 |
| Client.BrobotClient.MakeRequest | brobot_client/brobot_client/client.py:66-121 | one request: a delivered body is returned unchanged; a fault maps as MapFault says, and `should_retry` accepts it iff the fault is a connection error or a timeout |
| Client.BrobotClient.GetStateStructure | brobot_client/brobot_client/client.py:123-159 | the request's error, or the response converted as StructureFromJson specifies |
| Client.BrobotClient.GetObservation | brobot_client/brobot_client/client.py:161-190 | the response converted as ObservationFromJson specifies; a returned timestamp parses and holds no 'Z' |
| Client.BrobotClient.ActionBody | brobot_client/brobot_client/client.py:214-221 | the posted body has the four keys, `parameters or {}` and the action timeout falling back to the client's timeout |
| Client.BrobotClient.ExecuteAction | brobot_client/brobot_client/client.py:192-240 | the HTTP request uses the client's timeout; a returned result has truthy success; an action error names this action |
| Client.BrobotClient.Click | brobot_client/brobot_client/client.py:244-273 | without pattern or location: ValueError and no request; otherwise `execute_action("click", ...)` |
| Client.BrobotClient.TypeText | brobot_client/brobot_client/client.py:275-297 | executes "type" with TypeTextParameters; an action error names "type" |
| Client.BrobotClient.Drag | brobot_client/brobot_client/client.py:299-334 | executes "drag" with DragParameters; an action error names "drag" |
| Client.BrobotClient.WaitForState | brobot_client/brobot_client/client.py:336-356 | executes "wait" with the state as parameter and target and the given timeout |
| Client.BrobotClient.GetHealth | brobot_client/brobot_client/client.py:358-364 | the health body as delivered; failures are transport errors |
| AsyncClient.AsyncBrobotClient.constructor | brobot_client/brobot_client/async_client.py:29-47 | normalised `base_url`, `api_base`, and no session yet |
| AsyncClient.AsyncBrobotClient.EnsureSession | brobot_client/brobot_client/async_client.py:58-67 | afterwards a session is open; an open one is kept; a missing or closed one is replaced by a fresh one with the client's timeout |
| AsyncClient.AsyncBrobotClient.Close | brobot_client/brobot_client/async_client.py:69-72 | afterwards any present session is closed; without a session nothing happens |
| AsyncClient.AsyncBrobotClient.Enter | brobot_client/brobot_client/async_client.py:49-52 | returns the client itself with an open session |
| AsyncClient.AsyncBrobotClient.Exit | brobot_client/brobot_client/async_client.py:54-56 | closes the session |
| AsyncClient.AsyncBrobotClient.Sent | brobot_client/brobot_client/async_client.py:97-106 | URL as in the blocking client; a truthy timeout is used, else the client's |
| AsyncClient.AsyncBrobotClient.Response | brobot_client/brobot_client/async_client.py:108-135 | a delivered body is returned unchanged; a fault maps with the async messages; every error is a transport error |
| AsyncClient.AsyncBrobotClient.MakeRequest | brobot_client/brobot_client/async_client.py:74-135 | ensures an open session (keeping an open one), then yields Response |
| AsyncClient.AsyncBrobotClient.GetStateStructure | brobot_client/brobot_client/async_client.py:137-173 | the request's error, or the response converted as StructureFromJson specifies |
| AsyncClient.AsyncBrobotClient.GetObservation | brobot_client/brobot_client/async_client.py:175-204 | the response converted as ObservationFromJson specifies; a returned timestamp parses and holds no 'Z' |
| AsyncClient.AsyncBrobotClient.ActionBody | brobot_client/brobot_client/async_client.py:228-233 | the action timeout falls back to a fixed 30.0, not the client's timeout |
| AsyncClient.AsyncBrobotClient.ExecuteAction | brobot_client/brobot_client/async_client.py:206-254 | a returned result has truthy success; a falsy one raises BrobotActionError naming this action |
| AsyncClient.AsyncBrobotClient.Click | brobot_client/brobot_client/async_client.py:258-287 | without pattern or location: ValueError, and no session is opened; otherwise executes "click", keeping an already open session |
| AsyncClient.AsyncBrobotClient.TypeText | brobot_client/brobot_client/async_client.py:289-311 | executes "type" with TypeTextParameters |
| AsyncClient.AsyncBrobotClient.Drag | brobot_client/brobot_client/async_client.py:313-348 | executes "drag" with DragParameters |
| AsyncClient.AsyncBrobotClient.WaitForState | brobot_client/brobot_client/async_client.py:350-370 | executes "wait" with the state as parameter and target |
| AsyncClient.AsyncBrobotClient.GetHealth | brobot_client/brobot_client/async_client.py:372-378 | the health body as delivered; failures are transport errors |
| AsyncClient.ClientsAgreeOnRequests | brobot_client/brobot_client/async_client.py:98-106 | two equally configured clients send the same request for the same call |
| AsyncClient.ActionTimeoutsDiffer | brobot_client/brobot_client/async_client.py:228-233 | without an action timeout, the two clients post different bodies whenever the client timeout is not 30.0 |
| ServerModels.Require | mcp_server/models.py:10-12 | a required field is an error exactly when missing |
| ServerModels.Between | mcp_server/models.py:13 | `ge`/`le` bounds: no error iff within, otherwise the violated bound |
| ServerModels.Above | mcp_server/models.py:69 | `gt` bound: no error iff strictly above |
| ServerModels.NewStateTransition | mcp_server/models.py:8-13 | valid iff the three names are given and the probability (default 0.0) is in [0, 1] |
| ServerModels.NewState | mcp_server/models.py:16-23 | only the name is required; description None, empty lists and False flags by default |
| ServerModels.NewStateStructure | mcp_server/models.py:26-30 | states required; `current_state` None and metadata {} by default |
| ServerModels.NewActiveState | mcp_server/models.py:33-37 | valid iff the name and a confidence in [0, 1] are given |
| ServerModels.NewObservation | mcp_server/models.py:40-47 | valid iff timestamp, active states and both screen sizes are given; screenshot optional |
| ServerModels.NewActionRequest | mcp_server/models.py:64-69 | valid iff the action type is given and the timeout (default 10.0) is > 0 |
| ServerModels.NewActionResult | mcp_server/models.py:85-92 | valid iff success, action type and duration are given |
| ServerModels.NewHealthStatus | mcp_server/models.py:95-100 | valid iff status and version are given; `brobot_connected` False by default; the timestamp defaults to the clock |
| Config.ValidatePort | mcp_server/config.py:60-65 | accepts exactly 1..65535, with the source's message otherwise |
| Config.ValidateTimeout | mcp_server/config.py:67-72 | accepts exactly positive timeouts |
| Config.Absolute | mcp_server/config.py:53-58 | an absolute path is kept; a relative one is put under the working directory |
| Config.FirstExisting | mcp_server/config.py:47-51 | the first existing path of a sequence, or none when none exists |
| Config.ValidateJarPath | mcp_server/config.py:35-58 | a given path is made absolute without checking that it exists; otherwise the first existing of the four candidates, in order, or None |
| Config.LoadSettings | mcp_server/config.py:11-27 | every field is its override or default; loading succeeds iff port and CLI timeout pass their validators, which also run on defaults |
| Config.IsCliConfigured | mcp_server/config.py:74-81 | true iff a JAR is set, it exists, and mock data is off |
| Config.DefaultsUseMockData | mcp_server/config.py:15-24 | the defaults load with port 8000, timeout 30.0 and java "java", use mock data, so the CLI is not configured |
| Config.ConfiguredJarEnablesCli | mcp_server/config.py:74-81 | with an existing configured JAR, the CLI is configured iff mock data is switched off |
| Bridge.NewCLIConfig | mcp_server/brobot_bridge.py:27-38 | succeeds iff the JAR exists, else FileNotFoundError with its message |
| Bridge.Argv | mcp_server/brobot_bridge.py:76 | `[java, "-jar", jar] + args` |
| Bridge.EffectiveTimeout | mcp_server/brobot_bridge.py:73-74 | the default exactly when the timeout is None; otherwise the given value unchanged |
| Bridge.Seconds | mcp_server/brobot_bridge.py:81-87 | the numeric timeouts subprocess accepts |
| Bridge.Interpret | mcp_server/brobot_bridge.py:89-100 | success iff exit code 0; output is stdout; a failure always carries a non-blank error, stderr or "Command failed with code N" |
| Bridge.RunCommand | mcp_server/brobot_bridge.py:62-105 | a result iff the process exited; a timeout raises "Command timed out after T seconds"; any other failure raises "Failed to run command: ..." |
| Bridge.Fetch | mcp_server/brobot_bridge.py:114-122 | a failed command raises with the prefix and its error; unparsable output raises "Invalid JSON response from CLI"; a parsed document is returned unchanged |
| Bridge.Bridge.GetStateStructure | mcp_server/brobot_bridge.py:107-122 | runs exactly `["get-state-structure"]` with the default timeout; every failure is a BrobotCLIError |
| Bridge.Bridge.GetObservation | mcp_server/brobot_bridge.py:124-139 | runs exactly `["get-observation"]` with the default timeout; every failure is a BrobotCLIError |
| Bridge.Bridge.ExecuteAction | mcp_server/brobot_bridge.py:141-168 | passes `["execute-action", json]`; the request's "timeout" entry is used when present, without a positivity check |
| Bridge.Bridge.IsAvailable | mcp_server/brobot_bridge.py:170-181 | true iff `--help` exits with code 0 within 5 seconds; never raises |
| Bridge.NewBridge | mcp_server/brobot_bridge.py:44-60 | succeeds iff `--version` ran to an exit, whatever its code; otherwise "Failed to validate Brobot CLI: ..." |
| Bridge.TimeoutSelection | mcp_server/brobot_bridge.py:73-86 | None and null mean the default timeout; a given number is passed to the process as is |
| Bridge.ActionWithoutTimeoutUsesDefault | mcp_server/brobot_bridge.py:155 | an action without a "timeout" entry runs exactly as with the default timeout |
| Bridge.StateStructureOutcomes | mcp_server/brobot_bridge.py:107-122 | end to end: a parsed document comes back unchanged; bad JSON, a non-zero exit and a timeout each raise their own message |
| Bridge.BridgeRegistry.constructor | mcp_server/brobot_bridge.py:185 | no bridge before initialisation |
| Bridge.BridgeRegistry.InitializeBridge | mcp_server/brobot_bridge.py:188-199 | installs a bridge with the default timeout iff the JAR exists and the CLI validates; a missing JAR gives FileNotFoundError and a failed validation its BrobotCLIError; a failure leaves the current bridge unchanged |
| Bridge.BridgeRegistry.GetBridge | mcp_server/brobot_bridge.py:202-214 | the installed bridge, or RuntimeError with the source's message |
| Api.TargetOrUnknown | mcp_server/api.py:147 | the target state when non-empty, otherwise "unknown" |
| Api.GetMockActionResult | mcp_server/api.py:139-188 | the action type is echoed; success iff it is click, type or drag; error None iff success; the unknown-type message; click's result state is the target or "unknown"; type records the entered text |
| Api.MockWaitFails | mcp_server/api.py:180-188 | "wait" is not mocked: it fails with "Unknown action type: wait" |
| Api.MockResultsValidate | mcp_server/api.py:139-188 | every mock result passes the ActionResult schema with the same fields |

## Left out

- Process execution, HTTP transport, JSON encoding and decoding, `datetime.fromisoformat`, `Path.exists`, the clock and `random.random()` are parameters: these are foreign library calls.
- `time.sleep` and `asyncio.sleep` are a recorded sequence of delays; suspension itself is not modelled.
- Concurrency (`asyncio`, concurrent bridge calls) is not modelled, and awaiting is sequential execution: the code keeps no state shared between tasks.
- Logging calls are not modelled: they have no effect on results.
- The FastAPI application, its routes and the mock state-structure and observation fixtures are not modelled: they are wiring and canned data.
- `Observation.save_screenshot` is not modelled: it is base64 decoding and file I/O.
- Environment-variable and `.env` loading of the settings is replaced by the `Overrides` value.
- pydantic's type coercion and type checks are not modelled. The server models check only required fields and numeric bounds, and their values are already typed.
- The server's `Location` and `Region` models are not modelled: they have only required integer fields.
- The Java CLI under brobot-cli/ is an opaque program whose output is a string.
- Http.Merge: `urljoin` is modelled as the path merge of RFC 3986 section 5.2.3 for base URLs without query, fragment, empty or dot segments.
- Http.Prepare: the URL `base + "/api/" + name` is stated for every base, but `urljoin` agrees with it only on a base with a lowercase `http` or `https` scheme, a well-formed host, no leading spaces or control characters, no tab, CR or LF, and no empty or dot segments, query or fragment. Outside that domain `urlsplit` lowercases the scheme, strips leading whitespace and removes tab, CR and LF; a base such as `localhost:8000` has "localhost" read as its scheme, and `urljoin` then returns the bare endpoint name; an empty segment (`http://h//p`) is dropped.
- Client.BrobotClient.Sent: the same `urljoin` domain as Http.Prepare; outside it the sent URL differs.
- AsyncClient.AsyncBrobotClient.Sent: the same `urljoin` domain as Http.Prepare; outside it the sent URL differs.
- Client.BrobotClient.MakeRequest: a base whose bracketed IPv6 host is unterminated makes `urljoin` raise ValueError before the `try`, so that error escapes `_make_request` unmapped; the model sends the request, and every failure it reports is a transport error.
- AsyncClient.AsyncBrobotClient.MakeRequest: the same escaping ValueError as Client.BrobotClient.MakeRequest is not modelled.
- Config.Absolute: `Path(v).absolute()` also drops `.` segments, collapses repeated slashes, drops a trailing slash and turns "" into "."; these are not modelled (`..` is kept by both).
- Bridge.NewCLIConfig: the JAR path is kept as given. The source stores `Path(jar_path)`, so the FileNotFoundError message and the `-jar` argument (Bridge.Argv, Bridge.BridgeRegistry.InitializeBridge) carry its normalised form: "./brobot-cli.jar" becomes "brobot-cli.jar".
- Bridge.RunCommand: with a timeout that is not a number the model reports the TypeError without starting the process. `subprocess.run` starts the process before it adds the timeout to the clock, so when the launch itself fails (a missing java executable, say) the source reports the launch error instead. The `Runner` parameter does not separate starting a process from waiting for it.
- Retry.RetryableBrobotClient.constructor: Dafny has no default arguments; the default `max_retries=3` is `DefaultMaxAttempts`, which callers pass.
- Floats are real numbers, so there is no rounding, no NaN and no infinity. `int` and `float` values in JSON are distinguished, but their equality (1 == 1.0) is not.
- Runtime error messages of Python itself (KeyError, TypeError, AttributeError, ValueError) keep their class and a short text, not CPython's exact wording.
- Conversions.ToActiveState: a confidence that is not a number fails at conversion with a TypeError. The source stores any value and fails only when `get_most_confident_state` compares it.
- Retry.RetryFrom: the attempt counter is a natural number, and `max_attempts` must be an integer (`range` rejects anything else).
- Retry.MakePolicy: negative `base_delay` or `max_delay` are accepted and give negative delays, which the model records. In the blocking wrapper `time.sleep` then raises ValueError inside the `except` block, ending the call with that error; `asyncio.sleep` returns at once.
- Retry.Catches: the class hierarchy of Python's own exceptions is modelled only as far as the model raises them (KeyError below LookupError, everything below Exception); `BaseException` and the other built-in bases are not classes here.
- Retry.RetryLoop: the `if last_exception` tail after the loop is not modelled separately. Once the loop has run, every path returns or raises inside it, so the tail is reached only with no attempts and yields None.
- Retry.RetryableBrobotClient.WithRetry models both `_with_retry` and `_with_retry_async`: they build the same decorator, which runs the same loop.
- Bridge.Bridge.ExecuteAction: `json.dumps` is total here. A request it cannot serialise would raise TypeError before any command runs.
- Client.BrobotClient.Close models `__exit__` too. The sync client's `__enter__` only returns the client and needs no member.
