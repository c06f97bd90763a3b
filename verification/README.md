# Homelab dashboard and demo services — a Dafny model

This project models the decision logic of a small homelab setup: a React
dashboard with three panels (an API console, a service-health panel and a
metrics dashboard) and two demo back-ends (a FastAPI server and an Express
server). Everything is written as immutable records and pure functions over
maps and sequences; every HTTP result, clock reading, `Math.random()` draw and
`JSON.parse` result is an input.

Modules (one per source file, plus shared helpers):

- `ApiConsole` — the console's request form, the body-encoding decision, the
  mapping of a resolved or rejected send onto `response` / `error` / `loading`,
  the header editors and the predefined requests.
- `ServiceHealth` — the two health slots, one `checkHealth` pass, and the
  status colour and icon maps.
- `MetricsDashboard` — the 20-sample window rebuilt by each fetch, the
  last-10 bar chart, the last-sample summary and the rendered view.
- `EnvSanitizers` — the Python `/env` redaction and the Node.js `/env`
  filter, each with a reference definition, and how the two policies compare.
- `PythonServer` — the request-counting middleware and the global exception
  handler, both for requests served one at a time and for requests that
  overlap on the event loop.
- `NodeApi` — the `/hello` route and the set of GET paths the Node.js server
  routes; `NodeAuth` — the ALB token middleware.
- `Strings`, `Json`, `Wrappers` — JavaScript `trim`, ASCII case mapping,
  substring search and decimal rendering; a JSON value with JavaScript
  truthiness; `Option` and assignment to a property of a plain JavaScript
  object, which ignores the name `__proto__`.

Facts about the code that the model follows:

- the metrics dashboard fetches nothing: each refresh regenerates 20 mock
  samples and replaces the previous array; there is no ring buffer, no
  eviction and no fallback sample per failed call;
- the two health probes are awaited one after the other, not concurrently,
  and a failed probe yields the status `error` (`unhealthy` is never produced);
- the console's method is a free string (the form offers five values), and a
  blank (whitespace-only) URL is refused, not only an empty one;
- the Python middleware bumps `request_count` before awaiting the handler and
  reads it for the header after, so overlapping requests can be stamped with
  the same count;
- two of the console's Node.js presets ask for `/healthdetailed` and
  `/apienv`, which the Node.js router does not serve;
- the Python server's routes carry no `/api` prefix, so the console's three
  Python presets (`/api/health`, `/api/metrics`, `/api/env`) and the health
  panel's Python probe (`/api/health`) ask for paths it does not route;
- the process environment is read as a list of entries that may name a
  variable twice; both servers see the first entry for a name, and each name
  is visited once, in the order of its first entry.

## Model

| member | source | states |
|---|---|---|
| `Strings.Trim` | services/homelab-frontend/src/components/ApiConsole.tsx:86 | `trim()` returns the empty string exactly when every character is whitespace; otherwise the result neither starts nor ends with whitespace |
| `Strings.ContainsIffOccurs` | services/server-python/app/main.py:125 | the left-to-right substring search succeeds exactly when the word occurs at some position of the name |
| `Strings.NatToStringRoundTrip` | services/server-python/app/main.py:48 | the decimal text written into a header reads back as the same count |
| `ApiConsole.ServiceUrl` | services/homelab-frontend/src/components/ApiConsole.tsx:43-44 | a configured base URL is used unless it is missing or empty, in which case the given fallback is used |
| `ApiConsole.PythonUrl` | services/homelab-frontend/src/components/ApiConsole.tsx:43 | the Python base URL is the configured one when it is non-empty, else `http://localhost:8080`; it is never empty |
| `ApiConsole.NodeUrl` | services/homelab-frontend/src/components/ApiConsole.tsx:44 | the Node.js base URL is the configured one when it is non-empty, else `http://localhost:5000`; it is never empty |
| `ApiConsole.InitialRequest` | services/homelab-frontend/src/components/ApiConsole.tsx:33-38 | the form starts as a GET with a blank URL, an empty body and `Content-Type: application/json` as its only header |
| `ApiConsole.PredefinedRequests` | services/homelab-frontend/src/components/ApiConsole.tsx:46-83 | there are six predefined requests, all GET, and none has a blank URL whatever the base URLs are; the three Python ones are the Python base URL followed by `/api/health`, `/api/metrics` and `/api/env`, the three Node.js ones the Node.js base URL followed by `/health`, `/healthdetailed` and `/apienv` |
| `ApiConsole.PythonPresetsMissRoutes` | services/homelab-frontend/src/components/ApiConsole.tsx:48-63 | the three Python presets ask for `/api/health`, `/api/metrics` and `/api/env`, none of which the Python server routes |
| `ApiConsole.NodePresetsMissRoutes` | services/homelab-frontend/src/components/ApiConsole.tsx:65-82 | the Node.js health preset asks for a routed path, while the detailed-health and environment presets ask for `/healthdetailed` and `/apienv`, which no Node.js route serves |
| `ApiConsole.RoutedPredefinedRequests` | services/homelab-frontend/src/components/ApiConsole.tsx:46-83 | corrected presets: the same six names and descriptions, all GET with a URL; each Python one is on a path the Python server routes (`/health`, `/metrics`, `/env`) and each Node.js one on a path the Node.js server routes |
| `ApiConsole.EncodeBody` | services/homelab-frontend/src/components/ApiConsole.tsx:105-111 | a body is attached exactly when the method is not "GET" and the body is not blank; it is the parsed JSON when parsing succeeds and the raw text otherwise |
| `ApiConsole.FailureMessage` | services/homelab-frontend/src/components/ApiConsole.tsx:124 | the error is the server's truthy `message`, else the client's non-empty message, else "Request failed"; it is always truthy, so a failed send always sets an error |
| `ApiConsole.Send` | services/homelab-frontend/src/components/ApiConsole.tsx:85-137 | a blank URL sends nothing and only sets "URL is required"; otherwise the lower-cased method, the URL and headers as typed, timeout 10000 and the encoded body are sent; success shows the received status, text, headers and data with duration end − start and no banner; failure shows the banner and a response exactly when the error carried one, with duration 0; loading always ends false; durations are non-negative for a monotone clock |
| `ApiConsole.StatusBadge` | services/homelab-frontend/src/components/ApiConsole.tsx:282-286 | the badge is green exactly for a status in 200..299 and red otherwise |
| `ApiConsole.LoadPredefinedRequest` | services/homelab-frontend/src/components/ApiConsole.tsx:139-145 | choosing a predefined request replaces method and URL and keeps headers and body |
| `ApiConsole.AddHeader` | services/homelab-frontend/src/components/ApiConsole.tsx:147-152 | "Add Header" sets the placeholder `"" ↦ ""` and leaves every other header as it was |
| `Wrappers.SetProperty` | services/homelab-frontend/src/components/ApiConsole.tsx:159 | assigning to a property of a plain object sets that name to the value, except that a name `__proto__` the object does not own is not created; every other property is unchanged |
| `ApiConsole.UpdateHeader` | services/homelab-frontend/src/components/ApiConsole.tsx:154-162 | an empty value removes the header, any other value sets it, except that a header named `__proto__` is never created; every other header is unchanged |
| `ApiConsole.EditHeaderNameKeepsOldKey` | services/homelab-frontend/src/components/ApiConsole.tsx:232 | typing a new name for a header with a value keeps the old header; it adds or overwrites the header of the new name with that value, or changes nothing when the new name is an absent `__proto__` |
| `ApiConsole.PlaceholderCannotBeNamed` | services/homelab-frontend/src/components/ApiConsole.tsx:232 | typing a name into the placeholder row removes nothing it could rename: the placeholder stays and the new name never appears |
| `ApiConsole.RenameHeader` | services/homelab-frontend/src/components/ApiConsole.tsx:232 | corrected name edit: the header moves to the new name with its value, the old name disappears, the rest is unchanged |
| `ApiConsole.RenameHeaderKeepsCount` | services/homelab-frontend/src/components/ApiConsole.tsx:232 | a corrected rename to a fresh name never changes the number of headers |
| `ApiConsole.InitialSendIsRefused` | services/homelab-frontend/src/components/ApiConsole.tsx:33-41 | sending the untouched form sends nothing and shows "URL is required" |
| `ApiConsole.PredefinedRequestIsSent` | services/homelab-frontend/src/components/ApiConsole.tsx:99-111 | a loaded predefined request, as written or routed, is always dispatched as a body-less "get" with its URL and the form's headers |
| `ServiceHealth.InitialHealth` | services/homelab-frontend/src/components/ServiceHealth.tsx:26-29 | the panel starts with exactly two slots, Python then Node.js, both loading, with no response, error or details |
| `ServiceHealth.ProbeRequests` | services/homelab-frontend/src/components/ServiceHealth.tsx:36-68 | as written, a pass probes `<python>/api/health` then `<node>/health`, each with a 5000 ms timeout |
| `ServiceHealth.PythonProbeMissesRoute` | services/homelab-frontend/src/components/ServiceHealth.tsx:37-38 | the Python probe asks for `/api/health`, which the Python server does not route, while the Node.js probe's `/health` is routed |
| `ServiceHealth.RoutedProbeRequests` | services/homelab-frontend/src/components/ServiceHealth.tsx:36-68 | corrected probes: the Python probe asks for `/health`, which the Python server routes; the Node.js probe and both 5000 ms timeouts are unchanged |
| `ServiceHealth.ErrorMessage` | services/homelab-frontend/src/components/ServiceHealth.tsx:46-54 | a failed slot shows the error's message for axios errors and `Error`s, else "Unknown error" |
| `ServiceHealth.ErrorDetails` | services/homelab-frontend/src/components/ServiceHealth.tsx:47-51 | details are non-empty exactly for an axios error, and then read "Status: <status>, URL: <url>" with "undefined" for a missing part |
| `ServiceHealth.ProbeSlot` | services/homelab-frontend/src/components/ServiceHealth.tsx:39-61 | a slot keeps its service name; it is healthy with the probe's data exactly when the probe answered, and error with message and details exactly when it threw |
| `ServiceHealth.CheckHealth` | services/homelab-frontend/src/components/ServiceHealth.tsx:31-95 | a pass writes slot 0 from the Python probe and slot 1 from the Node.js probe, grows a shorter list to two slots and leaves any further slot untouched |
| `ServiceHealth.CheckHealthSettles` | services/homelab-frontend/src/components/ServiceHealth.tsx:39-91 | after a pass both slots are healthy or error, never loading or unhealthy; a healthy slot carries its probe's data |
| `ServiceHealth.SlotsAreIndependent` | services/homelab-frontend/src/components/ServiceHealth.tsx:35-94 | slot 0 depends only on the Python probe and slot 1 only on the Node.js probe, not on the earlier list |
| `ServiceHealth.PassesFromInitial` | services/homelab-frontend/src/components/ServiceHealth.tsx:31-101 | repeated passes keep exactly two slots, and the panel equals what the last pass alone produces: no history or backoff |
| `ServiceHealth.StatusColor` | services/homelab-frontend/src/components/ServiceHealth.tsx:103-116 | green exactly for "healthy", red exactly for "unhealthy" or "error", yellow exactly for "loading", grey for anything else |
| `ServiceHealth.StatusIcon` | services/homelab-frontend/src/components/ServiceHealth.tsx:118-130 | ✓ exactly for "healthy", ✗ exactly for "unhealthy" or "error", ⟳ exactly for "loading", "?" for anything else |
| `ServiceHealth.ColorAgreesWithIcon` | services/homelab-frontend/src/components/ServiceHealth.tsx:103-130 | for every status string the colour and the icon pick the same one of four classes |
| `ServiceHealth.KnownStatusesAreNotGrey` | services/homelab-frontend/src/components/ServiceHealth.tsx:103-130 | each of the four statuses has a known colour and icon, and "unhealthy" and "error" look alike |
| `MetricsDashboard.RequestCount` | services/homelab-frontend/src/components/MetricsDashboard.tsx:34 | the floor of a draw times 1000 is an integer in 0..999 |
| `MetricsDashboard.BuildWindow` | services/homelab-frontend/src/components/MetricsDashboard.tsx:29-36 | a fetch builds 20 samples one minute apart, strictly increasing, the last stamped now; sample i takes draws 4i to 4i + 3 as cpu × 100, memory × 100, the floor of request count × 1000 and response time × 500, every value in its range |
| `MetricsDashboard.Fetch` | services/homelab-frontend/src/components/MetricsDashboard.tsx:17-45 | a fetch ends with loading false; it replaces the window and clears the error, or on an exception keeps the window and sets "Failed to fetch metrics data" |
| `MetricsDashboard.BarChartData` | services/homelab-frontend/src/components/MetricsDashboard.tsx:128 | the bar chart gets the last min(10, n) samples in their original order |
| `MetricsDashboard.Summary` | services/homelab-frontend/src/components/MetricsDashboard.tsx:161-179 | the summary reads the last sample, or nothing for an empty window |
| `MetricsDashboard.Render` | services/homelab-frontend/src/components/MetricsDashboard.tsx:53-77 | loading wins over the error, a non-empty error over the charts, and the charts are shown exactly when neither applies; they show the window, its last ten and its last sample |
| `MetricsDashboard.FetchReplacesWindow` | services/homelab-frontend/src/components/MetricsDashboard.tsx:30-38 | the window after a fetch does not depend on the window before it and always holds 20 samples |
| `MetricsDashboard.WindowNeverExceedsCapacity` | services/homelab-frontend/src/components/MetricsDashboard.tsx:13-45 | from the initial state the window holds 0 samples until a fetch succeeds and exactly 20 from then on |
| `MetricsDashboard.ViewsOfFreshWindow` | services/homelab-frontend/src/components/MetricsDashboard.tsx:128-173 | after a fetch the bar chart spans now − 9 minutes to now and the summary is the sample stamped now |
| `EnvSanitizers.ToMap` | services/server-python/app/main.py:123 | the environment as a mapping holds exactly the names its entries mention |
| `EnvSanitizers.ToMapFirstEntry` | services/server-python/app/main.py:123 | a name listed more than once maps to the value of its first entry |
| `EnvSanitizers.FirstEntryWins` | services/server-node/src/routes/api.ts:25-31 | with two entries for one name, the mapping holds the first value, not the second |
| `EnvSanitizers.Items` | services/server-python/app/main.py:123 | the visited entries name each variable once and give the same mapping as the raw entries |
| `EnvSanitizers.PythonView` | services/server-python/app/main.py:118-128 | reference: the same names as the environment; a sensitive value becomes "***REDACTED***", any other is copied from the name's first entry |
| `EnvSanitizers.GetEnvironmentVariables` | services/server-python/app/main.py:114-133 | the loop over the environment yields exactly its names, redacts a value whose upper-cased name holds PASSWORD, SECRET, KEY, TOKEN or CREDENTIALS, copies the value of the name's first entry otherwise, and equals the reference |
| `EnvSanitizers.NodeView` | services/server-node/src/routes/api.ts:25-33 | reference: exactly the names without a sensitive word, other than `__proto__`, each with the value of its first entry |
| `EnvSanitizers.FilterSafeKeys` | services/server-node/src/routes/api.ts:25-29 | a name survives the filter exactly when its lower-cased form holds none of secret, password, key, token |
| `EnvSanitizers.Collect` | services/server-node/src/routes/api.ts:30-33 | the reduce builds an object with exactly the listed names other than `__proto__`, which the assignment ignores, each with its environment value |
| `EnvSanitizers.SafeEnv` | services/server-node/src/routes/api.ts:23-33 | a name is kept exactly when it is not sensitive and is not `__proto__`, a kept name keeps its value, the result is part of the environment and equals the reference |
| `EnvSanitizers.SafeEnvShowsFirstEntry` | services/server-node/src/routes/api.ts:25-31 | a name the Node.js server shows carries the value of its first entry in the environment |
| `EnvSanitizers.NodeSensitiveIsPythonSensitive` | services/server-node/src/routes/api.ts:26-29 | every name the Node.js filter drops is one the Python server redacts |
| `EnvSanitizers.PoliciesAgreeOutsideRedaction` | services/server-python/app/main.py:122-128 | a name missing from the Node.js output is `__proto__` or redacted by Python; a name other than `__proto__` that Python does not redact appears in both with the same value |
| `EnvSanitizers.CredentialsOnlyRedactedByPython` | services/server-node/src/routes/api.ts:25-29 | "CREDENTIALS" is redacted by the Python server but shown with its value by the Node.js server |
| `EnvSanitizers.ProtoOnlyShownByPython` | services/server-node/src/routes/api.ts:30-33 | a variable named `__proto__` is shown with its value by the Python server but left out by the Node.js server |
| `PythonServer.ExceptionResponse` | services/server-python/app/main.py:159-170 | an unhandled exception yields status 500 with a JSON body of exactly three fields, error "Internal server error", the exception's text and the timestamp, and `content-type: application/json`, without count or process-time headers |
| `PythonServer.Stamp` | services/server-python/app/main.py:44-48 | a returned response reads back, from its count header, the count it was stamped with; a raised exception yields the exception response, which carries no count |
| `PythonServer.HandleRequest` | services/server-python/app/main.py:37-51 | each request bumps the count by one before the handler; a returned response keeps status, body and every other header with its value, and gains the bumped count and the process time as headers; a raised exception yields the exception response |
| `PythonServer.ServeAllStamps` | services/server-python/app/main.py:40-48 | served one at a time, after n requests the count has grown by n, and response i is exchange i stamped with start + i + 1 |
| `PythonServer.ServeAllCounts` | services/server-python/app/main.py:40-48 | served one at a time, the i-th returned response carries count start + i + 1 in its header |
| `PythonServer.RequestCountsIncrease` | services/server-python/app/main.py:40-48 | served one at a time, the counts read back from the header strictly increase from one request to a later one |
| `PythonServer.AsWrittenCounts` | services/server-python/app/main.py:40-48 | on the event loop, under any interleaving, the counter grows by one per arrival and an answered request carries a count between its own number and the current counter, possibly above its own number |
| `PythonServer.OverlappingRequestsShareCount` | services/server-python/app/main.py:40-48 | two requests where the first finishes after the second arrived are both stamped with the count 2 |
| `PythonServer.CapturedCounts` | services/server-python/app/main.py:40-48 | corrected middleware, count read before the await: under any interleaving every answered request carries its own number, so distinct requests carry distinct counts and a later one a larger count |
| `PythonServer.SequentialRunsCoincide` | services/server-python/app/main.py:40-48 | when each request finishes before the next arrives, the middleware as written and the corrected one reach the same state, and request start + i + 1 is answered with exchange i stamped with its own number |
| `PythonServer.SequentialServiceAgrees` | services/server-python/app/main.py:40-48 | without overlap the event loop answers request start + i + 1 with exactly the i-th response of one-at-a-time service, and ends with the same count |
| `NodeApi.Hello` | services/server-node/src/routes/api.ts:13-20 | `/hello` sets AK-Token, leaves other response headers alone, and echoes each OIDC header exactly when present, verbatim |
| `NodeAuth.OrUndefined` | services/server-node/src/middleware/auth.ts:19-22 | the fallback to `undefined` keeps a value exactly when it is present and non-empty |
| `NodeAuth.OrEmpty` | services/server-node/src/middleware/auth.ts:26-27 | the fallback to "" is the value when present and non-empty, else "" |
| `NodeAuth.AuthMiddleware` | services/server-node/src/middleware/auth.ts:10-30 | the middleware always passes on; it sets `user` exactly when a token is non-empty and leaves it alone otherwise; it echoes both tokens (or "") in two headers and touches no other header |
| `NodeAuth.UserFieldsFollowHeaders` | services/server-node/src/middleware/auth.ts:18-23 | with a non-empty ID token the user holds it verbatim, and holds an access token exactly when that header is non-empty |
| `NodeAuth.HelloAgreesWithMiddleware` | services/server-node/src/middleware/auth.ts:11-27 | `/hello` and the middleware agree on a non-empty access token; an empty one is echoed as "" by `/hello` but treated as absent by the middleware |

## Left out

- Logging (`logger.info` and `logger.error` in the Python server, `console.log`, `console.error` and morgan in the Node.js server): output only, no effect on any response.
- HTTP transport (axios, FastAPI, Express, CORS, morgan, uvicorn): every call is an input outcome; which statuses make axios reject is library behaviour.
- Timers and React lifecycle (`setInterval` every 30 s and 60 s, `useEffect`, `useState` batching, the disabled Send button): a pass, a fetch or a send is one function call.
- Floating point: cpu, memory and response-time values are exact reals (draw × 100, draw × 500); `toFixed`, `requests_per_second`, uptime rounding, process time and the MB rounding of the detailed Node.js health route are not modelled.
- Clocks and formatting: `Date.now()` readings are integers; `toLocaleTimeString`, `isoformat()` and `toISOString()` texts are opaque inputs or integers.
- `JSON.parse` and `JSON.stringify`: parsing is an input function returning `None` when it throws; JSON numbers are integers.
- `/info`, `/`, `/ready`, `/items`, `/health`, `/actuator/health`, `/metrics` of the Python server and `/`, `/goodbye` of the Node.js API: static or clock/`psutil`/`platform` answers with no decision logic.
- Server bootstrap, route mounting, configuration loading, the 404 and error handlers and graceful shutdown of the Node.js server; the tab navigation and the static endpoint catalogue of the dashboard.
- The authentication middleware is not mounted on any route in the code; `NodeAuth.HelloAgreesWithMiddleware` compares the two as if it were.
- Order of the environment in the `/env` JSON bodies: both results are maps.
- `EnvSanitizers.IsPythonSensitive`: upper-cases ASCII letters only; Python's full Unicode `upper()` also maps, for example, "ß" to "SS" and "ſ" to "S".
- `EnvSanitizers.IsNodeSensitive`: lower-cases ASCII letters only; JavaScript's `toLowerCase()` also maps, for example, the Kelvin sign to "k", for which `NodeSensitiveIsPythonSensitive` would fail.
- `PythonServer.HandleRequest`: header names are kept as written, while Starlette stores them lower-cased and compares them case-insensitively.
- `PythonServer.ServeAll`: serves one request at a time; overlapping requests are modelled by the event-loop runs `RunAsWritten` and `RunCaptured`, in which a finish for a request that is not running is ignored, and which leave out the process-time measurement.
- `NodeApi.Hello`: the response headers are a map with names as written; Node.js compares header names case-insensitively, and `res.json` also sets `Content-Type`, `Content-Length` and `ETag`, which are not modelled.
- `ApiConsole.FailureMessage`: the error is any truthy JSON value; rendering it as a React child, which fails for an object-valued server `message`, is not modelled.
- `PythonServer.ExceptionResponse`: holds the headers the handler's `JSONResponse` is built with; the `content-length` header Starlette adds for the serialised body is framing and is not modelled, and neither is the body's serialisation.
- `PythonServer.IsPythonGetPath`: counts any one-segment path under `/items/` as routed; FastAPI answers a non-integer `item_id` with 422, which is not modelled.
- `NodeApi.NodeGetPaths`: lists the GET paths the Node.js routers serve; Express's trailing-slash and case-insensitive path matching are not modelled.
- `ServiceHealth.ErrorDetails`: a numeric status is rendered as a decimal integer; JavaScript's rendering of non-integral or huge numbers is not modelled.

## Findings

| source | as written | input that shows it | evidently intended | confidence | as-written member | corrected member |
|---|---|---|---|---|---|---|
| services/homelab-frontend/src/components/ApiConsole.tsx:232 | the header-name field calls `updateHeader(newName, value)`, which adds a header and never removes the old one; with an empty value it deletes `newName` instead | headers `{"Content-Type": "application/json"}`, type "X" at the end of the name field: it now reads "Content-TypeX", and both "Content-Type" and "Content-TypeX" exist with the value "application/json"; after "Add Header", typing any name into the placeholder row leaves `"" ↦ ""` and adds nothing | renaming the row's header, keeping its value | high, not executed | `ApiConsole.EditHeaderNameKeepsOldKey` | `ApiConsole.RenameHeader` |
| services/server-python/app/main.py:40-48 | `request_count` is bumped before `await call_next(request)` and read for `X-Request-Count` after it | two requests on the event loop, the second arriving before the first finishes: both responses carry `X-Request-Count: 2` | each response carries its own request's number, read before the await | medium, not executed | `PythonServer.OverlappingRequestsShareCount` | `PythonServer.CapturedCounts` |
| services/homelab-frontend/src/components/ApiConsole.tsx:72-81 | the Node.js detailed-health and environment presets use `${nodeUrl}/healthdetailed` and `${nodeUrl}/apienv` | with the default Node.js URL the presets send GET `http://localhost:5000/healthdetailed` and `/apienv`, which the Node.js server answers with its 404 handler; it routes `/health/detailed` and `/api/env` | the presets ask for `/health/detailed` and `/api/env` | high, not executed | `ApiConsole.NodePresetsMissRoutes` | `ApiConsole.RoutedPredefinedRequests` |
| services/homelab-frontend/src/components/ApiConsole.tsx:48-63 | the Python presets use `${pythonUrl}/api/health`, `${pythonUrl}/api/metrics` and `${pythonUrl}/api/env` | with the default Python URL the presets send GET `http://localhost:8080/api/health`, `/api/metrics` and `/api/env`; the FastAPI app declares `/health`, `/metrics` and `/env` (main.py:81, 103, 114) with no prefix, so each meets its 404 | the presets ask for `/health`, `/metrics` and `/env` | medium (a proxy outside this code could strip `/api`), not executed | `ApiConsole.PythonPresetsMissRoutes` | `ApiConsole.RoutedPredefinedRequests` |
| services/homelab-frontend/src/components/ServiceHealth.tsx:37-38 | the Python probe is `axios.get` of `${pythonUrl}/api/health` | with the default Python URL the probe asks for `http://localhost:8080/api/health`, which the FastAPI app does not route; its 404 makes axios reject, so the Python slot always settles as error | the probe asks for `/health` | medium (a proxy outside this code could strip `/api`), not executed | `ServiceHealth.PythonProbeMissesRoute` | `ServiceHealth.RoutedProbeRequests` |
