# Email login brute-force guard and error dispatch

This project models, in Dafny, the credential-login decision of the user
service and the error-to-response dispatch it relies on.

`emailLogin` receives a user document, the outcome of the password comparison,
two rate limiters (per IP address, and per (email, IP address) pair) and the
(email, IP) limiter's prior result. On a wrong password it consumes one point
from each limiter and answers 400 "Invalid Credentials" when both accept, 429
with a `Retry-After` header when a limiter's budget is spent, and hands a store
failure to the error handler (status 500). On a correct password it deletes the
(email, IP) counter if that counter had points, puts a token on the user, drops
the password hash and answers 200. `emailRegister` answers 201 with the created
user in the same shape, or goes to the error handler.

`ErrorHandler.handleError` answers a trusted `AppError` (operational, which is
the default) with its own status and `{message}`, answers every other error
with status 500 (setting the status only: nothing is sent), and exits the
process with code 0 when there is no response.

Modules:

- `Wrappers`: `Option`, for the source's `undefined`/`null`.
- `Http`: the Express `Response` as a class (status, headers, body, sent), with
  a value view `Reply`.
- `Decimal`: JavaScript's `String(n)` for a non-negative integer, with its
  reading back.
- `ErrorHandling`: `HttpCode`, `AppError`, the dispatch and the handler methods.
- `RateLimiting`: a limiter as a class holding a counter map and a `points`
  budget; `consume` settles as `Resolved(res)`, `Rejected(LimitReached(res))`
  or `Rejected(StoreFailure(reason))`; `delete` removes a key.
- `EmailAuth`: registration and login as methods over the user, response and
  limiter objects, each proved against a specification function (`RegisterReply`,
  `Login`).
- `LoginProperties`: the guarantees of the login, proved over `Login`.

Inputs that stand for code outside the model: the bcrypt comparison result, the
bcrypt hash, the generated token, the document returned by `User.create`, the
store's behaviour on each consume (it answers with a wait `msBeforeNext`, or it
fails, with or without the increment having taken effect), and, when both consumes reject, which rejection `Promise.all` sees first.

Behaviour of the code that a reader of the login design might not expect, kept
as the code has it:

- A store failure during a consume is not turned into a fail-closed 429: the
  `Error` goes to `handleError`, which sets status 500 and sends no body.
- There is no block pre-check before the password comparison in
  `emailAuth.ts`; the prior (email, IP) result is only used to decide the reset.
- `Retry-After` is the first rejection's `msBeforeNext` rounded to the nearest
  second (halves up), or 1 when that rounds to 0, not the larger of two waits
  rounded up.
- The user object passed in is updated in place (`const user = basicUserDoc`),
  so the caller's document gains the token and loses the password.

## Model

| member | source | states |
|---|---|---|
| `ErrorHandling.HttpCode.Value` | src/library/errorHandler.ts:5-12 | each enum member's number is one of 200, 204, 400, 401, 404, 500, and 500 is exactly INTERNAL_SERVER_ERROR |
| `ErrorHandling.HttpCodeOf` | src/library/errorHandler.ts:5-12 | the enum's reverse mapping finds a member exactly for the six numbers, and that member has the number |
| `ErrorHandling.HttpCodeRoundTrip` | src/library/errorHandler.ts:5-12 | every member is found again from its number |
| `ErrorHandling.NewAppError` | src/library/errorHandler.ts:20-39 | the built error keeps httpCode and description; its name is args.name when non-empty and 'Error' otherwise; isOperational is true unless args.isOperational is explicitly false |
| `ErrorHandling.IsTrustedError` | src/library/errorHandler.ts:42-47 | an error is trusted exactly when it is an AppError with isOperational set; a plain Error never is |
| `ErrorHandling.Dispatch` | src/library/errorHandler.ts:62-68 | the trusted branch is taken exactly for a trusted error with a response, carrying its httpCode and message; the exit branch exactly when there is no response, with code 0 |
| `ErrorHandling.Respond` | src/library/errorHandler.ts:48-61 | the trusted branch sets the error's status and sends; the critical branch sets 500 and sends nothing; no branch touches headers |
| `ErrorHandling.HandleTrustedError` | src/library/errorHandler.ts:48-50 | the response gets the error's status and the JSON body `{message}` and is sent |
| `ErrorHandling.HandleCriticalError` | src/library/errorHandler.ts:51-61 | with a response only the status changes, to 500, and there is no exit; without one the exit code is 0 |
| `ErrorHandling.HandleError` | src/library/errorHandler.ts:62-68 | the response changes as Dispatch and Respond say, and the process exits (code 0) exactly when there is no response |
| `ErrorHandling.ResponseStatusOfError` | src/library/errorHandler.ts:48-68 | with a response, a trusted error gets its own status and message and an untrusted one gets 500 with nothing sent |
| `ErrorHandling.PlainErrorIsCritical` | src/library/errorHandler.ts:42-47 | a plain Error is untrusted and is answered 500 |
| `ErrorHandling.NoResponseExits` | src/library/errorHandler.ts:58-60 | without a response every error, trusted or not, leads to exit code 0 and no reply |
| `ErrorHandling.DefaultAppErrorIsAnswered` | src/library/errorHandler.ts:23-35 | an AppError built without isOperational false is trusted and answered with the status and description it was built with |
| `RateLimiting.ConsumeStep` | src/components/users/services/emailAuth.ts:67-71 | a consume on a reachable store adds one point to its key only and resolves exactly when the new count is within the budget, reporting that count; a failing store rejects with an Error, and the key has gained its point exactly when the increment was applied before the failure |
| `RateLimiting.ConsumeRepeatedlyBudget` | src/components/users/users.test.ts:107-118 | of n consumes in a row on one key, the i-th resolves exactly when the count before it plus i + 1 is within the budget, and the key ends n points higher |
| `RateLimiting.RateLimiter.Consume` | src/components/users/services/emailAuth.ts:67-70 | the limiter's counters and the outcome are those of ConsumeStep on its old counters |
| `RateLimiting.RateLimiter.Delete` | src/components/users/services/emailAuth.ts:95 | the key is removed and every other key keeps its counter |
| `Decimal.DecimalString` | src/components/users/services/emailAuth.ts:86 | `String(n)` is a non-empty string of digits without a leading zero |
| `Decimal.DecimalRoundTrip` | src/components/users/services/emailAuth.ts:84-87 | reading the numeral of n back gives n |
| `EmailAuth.UserJson` | src/components/users/services/emailAuth.ts:97-100 | the serialised user has the id and names, a password property exactly when the user has a password, a token property holding the token exactly when there is one, every other property of the stored document (email, `__v`, timestamps) unchanged, and nothing else |
| `EmailAuth.UserJsonRoundTrip` | src/components/users/services/emailAuth.ts:100 | serialisation loses no IUser field and no other property of the stored document |
| `EmailAuth.SignedIn` | src/components/users/services/emailAuth.ts:97-99 | the returned user carries the token, has no password, and keeps every other field and every other document property |
| `EmailAuth.EmailRegister` | src/components/users/services/emailAuth.ts:31-48 | the form's password becomes the hash and its confirmation is dropped; the response is RegisterReply of the create result |
| `EmailAuth.RegisterReplyShape` | src/components/users/services/emailAuth.ts:39-47 | a created user is answered 201 with a token, without a password, every other field and document property as saved; a failed create gets status 500 with nothing sent |
| `EmailAuth.FirstRejection` | src/components/users/services/emailAuth.ts:67-71 | the combined promise resolves exactly when both consumes resolve, otherwise rejects with a rejection of one of them, the first to settle when both reject |
| `EmailAuth.RetryAfterSeconds` | src/components/users/services/emailAuth.ts:86 | the header value is at least 1, is the wait rounded to the nearest second (halves up) when the wait is at least 500 ms, and 1 below that |
| `EmailAuth.RejectedReply` | src/components/users/services/emailAuth.ts:79-90 | a budget rejection is answered 429 with a Retry-After header and sent; an Error gets status 500 with headers and sending unchanged |
| `EmailAuth.EmailLogin` | src/components/users/services/emailAuth.ts:50-101 | both limiters' counters, the response and the user object end as the specification Login says from their old values |
| `LoginProperties.WrongPasswordConsumesOncePerLimiter` | src/components/users/services/emailAuth.ts:64-71 | a wrong password adds exactly one point under ipAddr and one under emailIPkey when the store answers or fails after applying the increment, nothing when it fails before, and no other key changes |
| `LoginProperties.WrongPasswordWithinBudgetIsInvalidCredentials` | src/components/users/services/emailAuth.ts:72-78 | a wrong password both limiters accept is answered 400 with `{message: "Invalid Credentials"}` and the user is unchanged |
| `LoginProperties.RateLimitedIsTooManyRequests` | src/components/users/services/emailAuth.ts:84-88 | a budget rejection is answered 429 "Too Many Requests" with a Retry-After numeral reading as the rounded wait, at least 1; no token |
| `LoginProperties.StoreFailureIsInternalError` | src/components/users/services/emailAuth.ts:79-82 | a store failure is answered status 500 with nothing else changed, never 200 or 429, no token |
| `LoginProperties.UnreachableStoreIsNotFailClosed` | src/components/users/services/emailAuth.ts:66-91 | with a failing store a wrong password gets 500 or 429; 500 whenever both stores fail or the other limiter accepts |
| `LoginProperties.SuccessResetsOnlyPenalisedKey` | src/components/users/services/emailAuth.ts:93-96 | a correct password leaves the IP limiter alone, removes emailIPkey exactly when the prior result had consumed points, and leaves every other key |
| `LoginProperties.SuccessIssuesTokenWithoutPassword` | src/components/users/services/emailAuth.ts:97-100 | a correct password is answered 200 with the user carrying the token and no password property, every other field and document property as stored, and the caller's user object is updated the same way |
| `LoginProperties.OnlyCorrectPasswordSucceeds` | src/components/users/services/emailAuth.ts:64-100 | status 200 is given exactly for a correct password; a wrong one gets 400, 429 or 500 and leaves the user without a new token |
| `LoginProperties.WrongPasswordTwiceIsThrottled` | src/components/users/users.test.ts:107-118 | with the (email, IP) limiter allowing one point, a first wrong password from fresh counters is answered 400 and a second 429 |
| `LoginProperties.FailureAfterResetCountsFromOne` | src/components/users/services/emailAuth.ts:93-96 | after a correct password forgives a penalised key, the next wrong password leaves that key at one point |

## Left out

- Password hashing and comparison (bcrypt): the comparison result and the hash are inputs.
- Token generation (`generateToken`): the token is an input string.
- The database (`User.create`, the user model): the created document is an optional input, not related to the form.
- The limiter library's internals (key expiry, block duration, in-memory blocking, atomicity across processes): the model keeps only a counter per key and the budget; the wait `msBeforeNext` is an input of each consume.
- `Promise.all` concurrency: the two consumes are run one after the other (both always run), and which rejection settles first is an input.
- `RateLimiting.RateLimiter.Delete`: the store cannot fail on delete here; in the source such a failure would reject the `emailLogin` promise, which the caller would have to handle.
- `EmailAuth.RetryAfterSeconds`: takes `msBeforeNext` as a non-negative integer; a negative value from the store (which `Math.round` and `String` would render as "-1" and the like) is not modelled.
- `EmailAuth.EmailLogin`: requires the two limiters to be different objects; passing one limiter as both is not modelled.
- Logging (`logger.error`) and the process exit (`exitHandler.handleExit`): the exit is the returned exit code.
- `AppError`'s stack trace and prototype set-up, and the `name` of plain errors: they take no part in the dispatch.
- Express details outside the observed state: the Content-Type header `res.json` adds, and the error Express raises when a response is sent twice.
- The login controller that looks the user up and reads the prior (email, IP) result: it is not part of this model.
- Request validation (src/middleware/reqValidation.ts) and routing (src/components/users/route.ts): plumbing around the modelled code.
- Profile update, profile image upload, forgot and change password: outside the login and registration logic.
