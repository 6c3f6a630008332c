# NitroOJ admin client: authenticated requests, single-flight refresh, submission cells

A Dafny model of the logic in the NitroOJ management front end that sits around its REST wrappers:

- The API gateway (`useApi`). It adds a bearer `Authorization` header when an access token is held, and raises one toast for every failed response except a 401, which enters the refresh protocol instead.
- The gateway's single-flight token refresh. A module-level `isFetchingToken` flag makes sure that only one refresh call runs however many requests fail with 401.
- The refresh call (`useRefreshToken`) and the login call (`useLogin`). Each has its own error classifier. The three classifiers really differ, so they are modelled separately.
- The credential store (`useTokensStore`) and the global route guard (`login.global`).
- The plain-text cells of the submissions table (`extendedColumns`) and its column order.

Everything is pure functions over immutable datatypes.

The refresh protocol is a state record: the flag, the store and a log of observable effects (toasts, refresh calls, store writes, redirects). Two kinds of event advance it:
- a failed response reaching the gateway's error hook (`OnResponseError`, which calls `On401` for a 401);
- the outstanding refresh call settling (`Settle`).

Asynchronous interleaving of requests is represented by arbitrary sequences of these events (`Run`).

Modules, one per source file plus shared vocabulary:

| module | file | models |
|---|---|---|
| `Wrappers` | wrappers.dfy | `Option`, for `undefined` / `null` |
| `JsValues` | js_values.dfy | JavaScript truthiness of an optional string; its text in a concatenation |
| `NumberText` | number_text.dfy | the decimal text of an integral `number`, and its parser |
| `Http` | http.dfy | request descriptors, bearer credentials, token replies, the status taxonomy, redirects |
| `Notifications` | notifications.dfy | toast severities, titles and descriptions |
| `TokensStore` | tokens_store.dfy | `app/stores/useTokensStore.ts` |
| `LoginGuard` | login_guard.dfy | `app/middleware/login.global.ts` |
| `RefreshExchange` | refresh_exchange.dfy | `app/composables/useRefreshToken.ts` |
| `LoginExchange` | login_exchange.dfy | `app/composables/useLogin.ts` |
| `Gateway` | gateway.dfy | `app/composables/useApi.ts`: request hook and response classifier |
| `RefreshCoordinator` | refresh_coordinator.dfy | `app/composables/useApi.ts`: the `isFetchingToken` protocol |
| `SubmissionColumns` | submission_columns.dfy | `app/components/Submissions/extendedColumns.ts` |

Facts about the code that the model keeps as they are:
- A failed refresh keeps the store. The code only redirects to `/login` (useApi.ts:41-43). `FailureKeepsSession` proves the consequence: a signed-in user keeps credentials the route guard accepts.
- The refresh call's classifier is not the gateway's. It warns on 401 and has no 409 branch. `Gateway.DiffersFromRefreshOnlyAt401And409` pins down exactly where they differ.
- The refresh call names no HTTP method, so it uses the transport's default, GET.
- The refresh call's header is built even without a refresh token. In that case it presents the text `undefined` as the credential.

## Model

| member | source | states |
|---|---|---|
| NumberText.NatText | app/components/Submissions/extendedColumns.ts:44 | the decimal text of a non-negative number is a canonical digit string (no leading zero unless the number is 0) |
| NumberText.IntText | app/components/Submissions/extendedColumns.ts:44 | the text of an integer is never empty and never a lone dash, and starts with a digit exactly when the integer is non-negative |
| NumberText.IntTextRoundTrip | app/components/Submissions/extendedColumns.ts:44 | parsing the text of any integer gives that integer back |
| NumberText.ParseIntText | app/components/Submissions/extendedColumns.ts:44 | every text the parser accepts is exactly the printed text of its value (the other direction of the round trip) |
| NumberText.IntTextInjective | app/components/Submissions/extendedColumns.ts:44 | different integers have different texts |
| NumberText.IntTextHasNoSpace | app/components/Submissions/extendedColumns.ts:23 | integer text contains no space, so a space can delimit it |
| NumberText.NatTextValue | app/components/Submissions/extendedColumns.ts:44 | the digits of a number's text denote that number |
| NumberText.CanonicalText | app/components/Submissions/extendedColumns.ts:44 | a canonical digit string is the text of the number it denotes |
| Http.BearerCredential | app/composables/useApi.ts:19 | a bearer credential is extracted only from a value that is the "Bearer " prefix followed by it |
| Http.Bearer | app/composables/useApi.ts:19 | the header value built for a credential reads back as exactly that credential |
| Http.MaxAttempts | app/composables/useRefreshToken.ts:16 | a request is sent at least once, and exactly once when retries are switched off |
| TokensStore.InitialSignedOut | app/stores/useTokensStore.ts:4-10 | both tokens start absent, a fresh store is signed out, and `clear` returns any store to that initial state |
| TokensStore.Clear | app/stores/useTokensStore.ts:7-10 | `clear` yields the initial, signed-out store |
| TokensStore.ClearIdempotent | app/stores/useTokensStore.ts:7-10 | clearing twice equals clearing once |
| TokensStore.ClearForgetsEverything | app/stores/useTokensStore.ts:3-12 | the two fields are the whole store: after `clear` nothing of the previous contents survives |
| TokensStore.Replace | app/composables/useApi.ts:38-39 | storing a refreshed pair sets both tokens to the new pair, never a mix; the store is signed in iff both new tokens are non-empty |
| TokensStore.ReplaceForgetsEverything | app/composables/useApi.ts:38-39 | after storing a refreshed pair no old token survives |
| LoginGuard.Redirect | app/middleware/login.global.ts:3-4 | redirects iff the path is not `/login` and a token is absent or empty; the redirect always goes to `/login`, replacing history |
| LoginGuard.LoginPageNeverRedirected | app/middleware/login.global.ts:3 | `/login` is never redirected, whatever the store holds |
| LoginGuard.RedirectCannotLoop | app/middleware/login.global.ts:3-4 | the guard admits the page it redirects to |
| LoginGuard.SignedInNeverRedirected | app/middleware/login.global.ts:3 | with both tokens non-empty no path is redirected |
| LoginGuard.ClearedStoreRedirects | app/middleware/login.global.ts:3-4 | after `clear` every page except `/login` redirects to `/login` |
| RefreshExchange.RefreshAuthorization | app/composables/useRefreshToken.ts:18-20 | the value built is always the bearer prefix followed by the stored refresh token, or by the text `undefined` when none is held (what the browser then sends is described under "## Left out") |
| RefreshExchange.RefreshRequest | app/composables/useRefreshToken.ts:12-20 | a GET to `/auth/refresh`, no body, only the `Authorization` header, a 900 ms timeout, and at most one attempt |
| RefreshExchange.Classify | app/composables/useRefreshToken.ts:21-49 | one toast for every status: a 5xx is the fixed server error; 401 is the "认证失败" warning, 403 the "禁止访问" warning and 404 the "找不到所需资源" error, each with the server message; 409 and all other statuses get the generic info toast |
| RefreshExchange.Exchange | app/composables/useRefreshToken.ts:12-53 | resolves iff the endpoint answered, with the returned pair unchanged; a toast exactly when a failed status came back, namely the classifier's |
| LoginExchange.LoginRequest | app/composables/useLogin.ts:12-19 | a POST to `/auth/login` with no `Authorization` header, one attempt, and a body of exactly the username as given and the password's hash |
| LoginExchange.RequestSeesOnlyHash | app/composables/useLogin.ts:16-19 | passwords with the same hash produce the same request, so the request depends on the password only through its hash |
| LoginExchange.RawPasswordNotSent | app/composables/useLogin.ts:18 | a password whose length differs from its digest's never appears in the body's password field |
| LoginExchange.LoginWithAbc | app/composables/useLogin.ts:18 | with a 64-character digest, logging in with "abc" never sends "abc" |
| LoginExchange.Classify | app/composables/useLogin.ts:20-50 | no toast below 400; from 400 on, the refresh handler's toast; 5xx is the fixed server error; 401 and 403 warn; 404 and 5xx are errors; 409 gets the generic info toast |
| LoginExchange.DiffersFromRefreshOnlyBelow400 | app/composables/useLogin.ts:20-50 | the text of the login and refresh handlers gives different toasts exactly below 400, where login is silent and refresh raises the generic info toast; the transport calls these handlers only for statuses 400-599, so no user sees the difference |
| LoginExchange.Exchange | app/composables/useLogin.ts:12-53 | resolves with the returned pair iff the endpoint answered; a toast exactly for a failed status of at least 400 |
| Gateway.WithAuthorization | app/composables/useApi.ts:16-20 | with a non-empty token the `Authorization` value presents that token as a bearer credential; otherwise the headers are unchanged; no other header is ever added, removed or altered |
| Gateway.Classify | app/composables/useApi.ts:21-67 | no toast exactly for 401; 5xx is the fixed server error; 403, 404 and 409 are the forbidden, not-found and conflict toasts with the server message; unclassified statuses get the generic info toast; only 403 warns; 404, 409 and 5xx are errors; 403/404/409 and no others carry the server message |
| Gateway.ClassifyFollowsKind | app/composables/useApi.ts:21-67 | the gateway's toast is the one its status's failure kind calls for (server fault, auth expired, forbidden, not found, conflict, unclassified) |
| Gateway.ClassificationTable | app/composables/useApi.ts:24-66 | the exact toast for 500, 401, 403, 404, 409 and 418; a 5xx shows the fixed text "请稍候重试" and a 404 the server's message |
| Gateway.DiffersFromRefreshOnlyAt401And409 | app/composables/useApi.ts:21-67 | the gateway and refresh classifiers disagree exactly at 401 and 409 |
| RefreshCoordinator.On401 | app/composables/useApi.ts:29-36 | with the flag set nothing changes; with it clear the flag is set and exactly one refresh call carrying the stored refresh token is issued, the store untouched |
| RefreshCoordinator.OnResponseError | app/composables/useApi.ts:21-67 | a 401 enters the refresh protocol; any other status appends exactly its one toast and leaves flag, store and refresh counts alone |
| RefreshCoordinator.Settle | app/composables/useApi.ts:35-46 | the flag is clear afterwards in every outcome; the log gains exactly the refresh handler's toast when a failed status came back, then one store write of the new pair on success or one redirect to `/login` with replace on failure; failure keeps the store; no refresh call is issued |
| RefreshCoordinator.StartConsistent | app/composables/useApi.ts:4 | a page load starts with the flag clear and no refresh call issued, so the invariant holds from the start |
| RefreshCoordinator.StepKeepsConsistent | app/composables/useApi.ts:29-46 | every event keeps the flag set exactly while one refresh call is outstanding |
| RefreshCoordinator.RunKeepsConsistent | app/composables/useApi.ts:29-46 | under any interleaving of 401s and settlements the flag is set exactly while one refresh call is outstanding |
| RefreshCoordinator.SettlementsBounded | app/composables/useApi.ts:35-46 | each settlement event settles at most one refresh |
| RefreshCoordinator.SingleFlight | app/composables/useApi.ts:30-36 | refresh calls grow by at most one more than the settlement events, and by none beyond the outstanding one when a refresh is already in flight |
| RefreshCoordinator.UnauthorizedWhileFetching | app/composables/useApi.ts:30 | any number of 401s while a refresh is in flight change nothing |
| RefreshCoordinator.UnauthorizedBurst | app/composables/useApi.ts:29-36 | any burst of 401s at an idle gateway issues exactly one refresh call and leaves the flag set |
| RefreshCoordinator.SettleReleasesFlag | app/composables/useApi.ts:44-46 | after any settlement, including failure, the next 401 issues a new refresh call |
| RefreshCoordinator.TwoRequestsOneRefresh | app/composables/useApi.ts:16-46 | two 401s then a successful refresh: one refresh call, the new pair stored, and a retried request carries the new access token |
| RefreshCoordinator.RefreshRejected | app/composables/useApi.ts:41-43 | a refresh answered with 401 raises the refresh call's warning, redirects once to `/login` with replace, and keeps the store |
| RefreshCoordinator.FailureKeepsSession | app/composables/useApi.ts:41-43 | after a failed refresh a signed-in store is still admitted by the route guard on every path |
| RefreshCoordinator.ServerErrorLeavesStateAlone | app/composables/useApi.ts:24-28 | a 503 appends one server-error toast and leaves flag and store untouched |
| SubmissionColumns.Columns | app/components/Submissions/extendedColumns.ts:6-91 | eight columns, each exactly once, in the key order id, problem, user, time, memory, status, createdAt, action |
| SubmissionColumns.KeysDistinct | app/components/Submissions/extendedColumns.ts:6-91 | no two columns share a key |
| SubmissionColumns.IdCell | app/components/Submissions/extendedColumns.ts:10-13 | the id cell reads back as the submission id |
| SubmissionColumns.MeasureCell | app/components/Submissions/extendedColumns.ts:39-58 | a dash exactly for null; the cell reads back as the value it shows |
| SubmissionColumns.TimeCell | app/components/Submissions/extendedColumns.ts:39-45 | "-" exactly for a null time; otherwise the text reads back, with unit `ms`, as the time |
| SubmissionColumns.MemoryCell | app/components/Submissions/extendedColumns.ts:52-58 | "-" exactly for a null memory; otherwise the text reads back, with unit `kB`, as the memory |
| SubmissionColumns.ProblemLabel | app/components/Submissions/extendedColumns.ts:20-23 | starts with "#"; it reads back as the problem id and the whole title |
| SubmissionColumns.CellText | app/components/Submissions/extendedColumns.ts:6-91 | the id column shows the id cell, the problem column the problem label, the time column the time cell and the memory column the memory cell; no other column is modelled as text (the formatted createdAt date is outside the model) |
| SubmissionColumns.TextCellsDetermineRow | app/components/Submissions/extendedColumns.ts:10-58 | two rows whose text cells read the same agree on id, problem, time and memory |

## Left out

- The ofetch transport. This covers the base URL, the 3000 ms timeout, `retryDelay`, `retry: 1` with `retryStatusCodes: [401]`, and the resending of a request (useApi.ts:11-15). These are library behaviour. The retry is represented only by re-applying `Gateway.WithAuthorization` to the store after settlement.
- Real asynchronous interleaving. Concurrency is represented by arbitrary event sequences. A settlement while no refresh is outstanding cannot happen in the code, and the model ignores it.
- Toast rendering, the `closeButton` option, and the `console.log` progress messages.
- The router internals of `navigateTo`. A redirect is recorded as a `Navigation` value.
- Pinia's persistence of the store (useTokensStore.ts:14).
- The internals of `sha256`. It is a function parameter with no properties assumed.
- The error body itself. `response._data.message` is taken as a given string; a body without `message` is not modelled.
- Header-name case folding of the browser's `Headers` object. Names are compared exactly.
- Gateway.WithAuthorization: its contract describes the `Authorization` value the code builds. The browser's `Headers` object trims leading and trailing whitespace from a value, and rejects with a TypeError a value holding CR, LF, NUL or a code point above U+00FF, so the gateway request then fails inside its request hook. The value built equals the value sent only for a Latin-1 token without surrounding whitespace, which every JWT is.
- RefreshExchange.RefreshAuthorization: likewise its contract describes the value the code builds; the same trimming and rejection apply, and a rejected value fails the refresh call before anything is sent. In particular an empty refresh token is built as "Bearer " but sent as "Bearer", with no credential at all.
- NumberText.IntText: the text matches JavaScript's only for integers of magnitude at most 2^53 (`Number.MAX_SAFE_INTEGER` + 1). Above that, a `number` cannot hold every integer, and JavaScript prints the shortest digits that read back to the same double, padded with zeros; from 1e21 on it uses exponent form. For such values `IntTextRoundTrip` and `IntTextInjective` describe the model, not the program. Fractions, NaN and infinities are not modelled either.
- The user, status, date and action cells, and the column header labels. They render Vue components (`UserHoverCard`, `StatusBadge`, the action menu) or dayjs-formatted dates (extendedColumns.ts:79).
- The guard's "never modifies the store" holds by construction: `LoginGuard.Redirect` returns only an optional redirect. No separate member states it.
- The per-resource CRUD wrappers, compression helpers, multipart form building and build configuration. These are one-line REST calls or library wrappers with no logic of their own.
