# Task API admission: bearer-token gate and task validator

This project models the two pieces of request-path logic in the task
manager's Express backend:

- **`checkJwt`** (`backend/middlewares/keycloakMiddleware.js`). It takes the
  token from the `Authorization` header by splitting on spaces. It decodes
  the token without verifying it and requires a `kid` in the JOSE header
  (section 4.1.4 of RFC 7515). It resolves that key from the identity
  provider's JWK Set (section 5 of RFC 7517) and verifies the token
  (RFC 7519) with RS256 only. It then either sets `req.user` and calls
  `next()`, or answers 401 with one of three messages.
- **`validateTask`** (`backend/middlewares/validationMiddleware.js`). Five
  express-validator rules: `title` and `description` non-empty, `priority`
  and `status` in fixed lists, `due_date` ISO 8601. They collect one error
  per failing field. The last step answers 400 `{errors}` or calls
  `next()`.

`TaskRoutes` composes the two the way the backend mounts them. The gate
runs in front of every task route (`backend/app.js:52`). The validator runs
only on create and update (`backend/routes/taskRoutes.js:10-11`).

Modules:

- `Wrappers` (`wrappers.dfy`): `Option` and `Result`.
- `JsText` (`js_text.dfy`): JavaScript's `String.prototype.split` with a
  one-character separator, its inverse `Join`, and JSON truthiness.
- `KeycloakMiddleware` (`keycloak_middleware.dfy`):
  - the token extraction, modelled exactly;
  - the library calls `jwt.decode`, `jwksClient.getSigningKey` and
    `jwt.verify` as oracles, the fields of a `Jose` value;
  - `Gate`, the decision: an outcome plus the library calls made, in order;
  - the `Request`/`Response` classes and the `CheckJwt` method, which
    applies the decision to them. `CheckJwt` is proved against `Gate`.
- `ValidationMiddleware` (`validation_middleware.dfy`): the rule list as
  data, a recursive evaluation of it, and the final 400-or-next step.
- `TaskRoutes` (`task_routes.dfy`): what a request meets before a
  controller runs.

Three behaviours of `checkJwt` worth knowing:

- The scheme word in front of the token is never checked. `Basic abc`
  yields the token `abc` exactly as `Bearer abc` does.
- The key-set client is built with only `jwksUri`; any default caching of
  jwks-rsa sits inside the `getSigningKey` oracle.
- A failed key lookup answers 'Token verification failed'. A failed
  verification answers 'Invalid token'. Both are 401.

The test at `backend/tests/taskRoutes.test.js:131-145` sends empty `title`,
`priority`, `description` and `due_date` with `status: 'pending'`. It
expects three errors. The rules reject four fields: title, priority,
description and due_date. `FourEmptyFields` and `MissingFieldsBodyExample`
state the count of four.

## Model

| member | source | states |
|---|---|---|
| JsText.Truthy | backend/middlewares/keycloakMiddleware.js:27 | JavaScript's `!`: a value is falsy exactly when it is `undefined`, `null`, `false`, `0` or `""` |
| JsText.Split | backend/middlewares/keycloakMiddleware.js:25 | `split(' ')` always yields at least one field, even for the empty string |
| JsText.SplitFieldsFree | backend/middlewares/keycloakMiddleware.js:25 | no field of a split contains the separator |
| JsText.JoinSplit | backend/middlewares/keycloakMiddleware.js:25 | joining the fields of a split with the separator gives back the header exactly, so the split loses nothing |
| JsText.SplitJoin | backend/middlewares/keycloakMiddleware.js:25 | splitting a join of separator-free fields gives back those fields: the two are inverse |
| KeycloakMiddleware.TokenOf | backend/middlewares/keycloakMiddleware.js:25 | a token is found only in a present header that contains a space; it is space-free and shorter than the header (exact shape: TokenShape, TokenDecomposes, TokenAbsentIff) |
| KeycloakMiddleware.TokenMissing | backend/middlewares/keycloakMiddleware.js:27 | `!token`: the token counts as missing exactly when its JavaScript value is falsy |
| KeycloakMiddleware.HeaderUnusable | backend/middlewares/keycloakMiddleware.js:33 | the header is unusable exactly when the token did not decode or its `kid` is one of JavaScript's falsy values: absent, `null`, `false`, `0` or `""` |
| KeycloakMiddleware.TokenShape | backend/middlewares/keycloakMiddleware.js:25 | for any space-free scheme word `w` and token `t`, with nothing or a space after it, the header `w t…` yields `t` |
| KeycloakMiddleware.TokenDecomposes | backend/middlewares/keycloakMiddleware.js:25 | whenever a token is extracted, the header is a space-free first word, one space, the token (space-free), then its end or a space |
| KeycloakMiddleware.TokenAbsentIff | backend/middlewares/keycloakMiddleware.js:25 | no second field exactly when the header is absent or contains no space |
| KeycloakMiddleware.SchemeIgnored | backend/middlewares/keycloakMiddleware.js:25 | two headers that differ only in the scheme word yield the same token |
| KeycloakMiddleware.SameTokenSameDecision | backend/middlewares/keycloakMiddleware.js:24-55 | the gate's decision depends on the header only through the extracted token |
| KeycloakMiddleware.SchemeWordExample | backend/middlewares/keycloakMiddleware.js:25 | `Basic abc` and `Bearer abc` get the same decision |
| KeycloakMiddleware.DoubleSpaceExample | backend/middlewares/keycloakMiddleware.js:25-29 | `Bearer  x` (two spaces) yields the empty token, gets 401 'Token missing or invalid', and no library call is made |
| KeycloakMiddleware.SelectKey | backend/middlewares/keycloakMiddleware.js:18 | the resolved key is `publicKey` when it is truthy (a non-empty string), otherwise `rsaPublicKey`; it is truthy exactly when one of the two is |
| KeycloakMiddleware.GetSigningKey | backend/middlewares/keycloakMiddleware.js:12-21 | the promise rejects exactly when the key-set lookup fails, and otherwise resolves with the selected key |
| KeycloakMiddleware.Gate | backend/middlewares/keycloakMiddleware.js:24-55 | every rejection is 401; no library call is made exactly when the token is missing; the calls made are decode, lookup, verify in that order, with the decoded `kid`, the selected key and the algorithm list `["RS256"]`; admission happens only after all three |
| KeycloakMiddleware.MissingTokenRejected | backend/middlewares/keycloakMiddleware.js:25-29 | 401 'Token missing or invalid' exactly when the header is absent, has no space, or has an empty second field; no decode or lookup is made then |
| KeycloakMiddleware.UndecodableTokenRejected | backend/middlewares/keycloakMiddleware.js:32-35 | a token that does not decode, or has no truthy `kid`, gets 401 'Invalid token' after the decode alone: no key lookup |
| KeycloakMiddleware.UnknownKeyRejected | backend/middlewares/keycloakMiddleware.js:39-54 | a failed key lookup gets 401 'Token verification failed', and no verification is attempted |
| KeycloakMiddleware.UnverifiedTokenRejected | backend/middlewares/keycloakMiddleware.js:44-47 | a verification error under the resolved key with RS256 gets 401 'Invalid token' |
| KeycloakMiddleware.AdmittedIffAllStepsSucceed | backend/middlewares/keycloakMiddleware.js:24-49 | a request is admitted with claims `c` exactly when the token is present, decodes with a truthy `kid`, the key resolves, and verification with RS256 returns `c` |
| KeycloakMiddleware.RejectionMessages | backend/middlewares/keycloakMiddleware.js:27-54 | the message identifies the failing step: 'Token missing or invalid' with no calls, 'Token verification failed' after decode and lookup, 'Invalid token' after decode or after verify |
| KeycloakMiddleware.AdmittedTokensUseRS256 | backend/middlewares/keycloakMiddleware.js:44 | if the verifier keeps to its allow-list, every admitted token declares `alg` RS256, so a token declaring `none` is never admitted |
| KeycloakMiddleware.CheckJwt | backend/middlewares/keycloakMiddleware.js:24-55 | `next()` is called exactly on admission; then `req.user` is the verified claims and the response is untouched; on every rejection the status is 401 with the decision's message and `req.user` is unchanged |
| ValidationMiddleware.Errors | backend/middlewares/validationMiddleware.js:5-13 | running a rule list gives no more errors than there are rules (one per failing field: ErrorIffRuleFails, ErrorsAscending) |
| ValidationMiddleware.NoErrorsIffAllHold | backend/middlewares/validationMiddleware.js:5-13 | the error list is empty exactly when every rule holds |
| ValidationMiddleware.ErrorFromFailingRule | backend/middlewares/validationMiddleware.js:5-13 | with one rule per field, every error is the error of its field's rule, and that rule failed |
| ValidationMiddleware.FailingRuleReported | backend/middlewares/validationMiddleware.js:5-13 | every failing rule contributes its error: every field is checked |
| ValidationMiddleware.ErrorIffRuleFails | backend/middlewares/validationMiddleware.js:5-13 | with one rule per field, a field's error is in the list exactly when its rule fails |
| ValidationMiddleware.ErrorsAscending | backend/middlewares/validationMiddleware.js:5-13 | with one rule per field, consecutive errors are for fields strictly later in declaration order |
| ValidationMiddleware.AscendingPairwise | backend/middlewares/validationMiddleware.js:5-13 | consecutive order extends to every pair of errors |
| ValidationMiddleware.TaskErrors | backend/middlewares/validationMiddleware.js:5-15 | what `validationResult` collects for the task rules: at most five errors (per field: TaskFieldErrors; order: TaskErrorsOrdered) |
| ValidationMiddleware.ValidateTask | backend/middlewares/validationMiddleware.js:14-20 | when it answers, it answers 400 with the collected errors, between one and five of them (`next()` exactly for a valid body: ValidateTaskNextIffValid) |
| ValidationMiddleware.TaskFieldErrors | backend/middlewares/validationMiddleware.js:6-13 | each field has its error, with its exact message, exactly when its check fails: empty title, priority not low/medium/high, empty description, due date not ISO 8601, status not pending/in-progress/completed |
| ValidationMiddleware.TaskErrorsOrdered | backend/middlewares/validationMiddleware.js:5-13 | 0 to 5 errors, in the order title, priority, description, due_date, status, so at most one per field |
| ValidationMiddleware.ValidateTaskNextIffValid | backend/middlewares/validationMiddleware.js:14-20 | `next()` exactly for a body valid on all five fields; otherwise 400 with 1 to 5 errors |
| ValidationMiddleware.EmptyDueDateRejected | backend/middlewares/validationMiddleware.js:10-12 | an empty or absent `due_date` is always an error, given that ISO 8601 dates start with a year |
| ValidationMiddleware.FourEmptyFields | backend/middlewares/validationMiddleware.js:6-13 | empty title, priority, description and due date with a valid status give exactly four errors, for those fields in that order |
| ValidationMiddleware.MissingFieldsBodyExample | backend/tests/taskRoutes.test.js:131-145 | the test's body draws four errors, not the three the test expects |
| TaskRoutes.Dispatch | backend/routes/taskRoutes.js:8-12 | a request is answered only with 401, or with 400 and a non-empty error list on create and update; otherwise the controller of the requested route runs (exact conditions: HandledIffAuthenticatedAndValid) |
| TaskRoutes.HandledIffAuthenticatedAndValid | backend/routes/taskRoutes.js:8-12 | a controller runs with `req.user` set to claims `c` exactly when the gate's steps all succeeded with `c` and, on create and update, the body is a valid task |
| TaskRoutes.GateBeforeValidation | backend/app.js:52 | when the gate rejects, the answer is its 401 whatever the body: validation is never reached |
| TaskRoutes.BadRequestOnlyForInvalidBody | backend/routes/taskRoutes.js:10-11 | a 400 comes only on create or update, only after admission, and only for an invalid body |
| TaskRoutes.BodyIgnoredOffWriteRoutes | backend/routes/taskRoutes.js:8-12 | list, read and delete do not depend on the body |

## Left out

- Signature cryptography, JWT base64/JSON decoding and the JWK Set HTTP fetch are library calls and network I/O. They are the oracles `Jose.decode`, `Jose.getSigningKey` and `Jose.verify`. Any caching or rate limiting inside the key-set client sits inside that oracle.
- Expiry, issuer and audience checks belong to `jwt.verify` and the clock. They are part of the `verify` oracle, which is a function of its arguments only.
- `jwt.decode` is taken to return a header or `None`. If it threw, the exception would escape `checkJwt` (line 32 is outside the `try`). That path is not modelled.
- An exception thrown synchronously by `next()` inside the verify callback would be caught at lines 51-54. If no response had been sent yet, the catch would answer 401 'Token verification failed'. If a later handler had already answered, `res.status(401).json` would throw inside the catch and the exception would escape `checkJwt`. Neither path is modelled.
- The `console.error` logging at line 52 is not modelled.
- `kid`, `alg` and the other header values are a small JSON value type. Numbers are reals, and truthiness follows JavaScript.
- Request bodies are maps from field names to strings. An absent field reads as `""`, as express-validator's string conversion does. `null` is treated like an absent field. Number, boolean, array and object values, and their conversion to strings, are not modelled.
- The ISO 8601 check is the parameter `isIso8601`, because the real parser lives inside express-validator. The `.toDate()` sanitizer on `due_date` rewrites the body after validation. It is not modelled.
- EmptyDueDateRejected: holds only for an ISO 8601 predicate that accepts nothing shorter than a four-digit year (`StartsWithYear`), because the predicate is abstract.
- Error entries carry the field, its raw value and the message. The `type` and `location` fields that express-validator adds are constant and not modelled.
- The controllers, the Prisma service, the task record type, `app.js` configuration (logging, CORS, `listen`, environment) and all frontend code are not part of this model. They are I/O, UI or thin library wrappers with no logic of their own.
