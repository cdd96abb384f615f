# Error handling and user-profile lookup of the gympass API, in Dafny

This project models two pieces of the gympass API service (a Fastify app written in TypeScript):

- the terminal error handler that `src/app.ts` registers with `app.setErrorHandler`. Errors thrown by route handlers and hooks reach it, and it answers every error that does. A Zod validation error is answered with status 400, the message "Validation error" and the formatted issues. Any other error is answered with status 500 and the fixed body `{ message: "Internal server error" }`. Outside production, the error is also printed to the console.
- `GetUserProfileUseCase` from `src/usecases/get-user-profile.ts`. It looks a user up by id through its injected `UsersRepository`. When `findById` returns nothing it raises `ResourceNotFoundError`; otherwise it returns `{ user }`.

Modules, one per concern:

- `Wrappers` (`wrappers.dfy`): `Option` and `Result`.
- `JsonValues` (`json.dfy`): the JSON value a reply body is serialised from. It has key lookup (`Get`; objects are taken to have distinct keys, as every JavaScript object does), the key list (`Keys`), and `Strings`, the set of every string a body carries at any depth. `Strings` is what "nothing leaks" is stated over.
- `DomainErrors` (`domain_errors.dfy`): `ResourceNotFound`.
- `ErrorHandler` (`error_handler.dfy`): the thrown-error taxonomy, the reply and log values, and `HandleError`.
- `GetUserProfile` (`get_user_profile.dfy`): the repository as a map from ids to users, the request/response records and the use case.
- `Pipeline` (`pipeline.dfy`): what a caller sees when the use case's error reaches the handler.

The error handler's `instanceof` test is a closed, tagged taxonomy: `ZodError(formatted)`, `Domain(error)` or `Unknown(detail)`. Only `ZodError` is told apart, exactly as line 53 does. `formatted` is the output of `error.format()` and is never inspected. `detail` is everything an unexpected error carries, as a JSON value. `NODE_ENV` is a plain string compared with `"production"`, as line 59 does. The ignored `_request` argument is a type parameter. `User` is a type parameter too, because the use case never looks inside it.

The handler in `src/app.ts` has no branch for domain errors, so a `ResourceNotFoundError` that reaches it is answered with 500, not 404 (`ResourceNotFoundIsInternalError`, `Pipeline.MissingUserIsAnsweredAsInternalError`). Route controllers that might catch the error first are not part of this model.

## Model

| member | source | states |
|---|---|---|
| `ErrorHandler.HandleError` | src/app.ts:52-66 | every thrown error gets exactly one reply; status is 400 iff the error is a `ZodError` and 500 iff it is not; the 400 body has exactly the keys `message` and `issues`, with `message` = "Validation error" and `issues` = the formatted issues; the 500 body has exactly the key `message` = "Internal server error"; the error is logged to the console iff it is not a `ZodError` and NODE_ENV is not "production", and then the logged value is the error itself |
| `ErrorHandler.ValidationBody` | src/app.ts:56 | the 400 body's keys are `message`, `issues` in that order, `message` is "Validation error" and `issues` is the given formatted value |
| `ErrorHandler.InternalErrorBody` | src/app.ts:65 | the 500 body's only key is `message`, whose value is "Internal server error" |
| `ErrorHandler.InternalReplyDisclosesNothing` | src/app.ts:65 | for any non-`ZodError`, the only strings anywhere in the reply body are "message" and "Internal server error" |
| `ErrorHandler.DetailDoesNotLeak` | src/app.ts:65 | any string carried by an unknown error, other than those two constants, does not occur in its reply body |
| `ErrorHandler.InternalReplyIsUniform` | src/app.ts:59-65 | any two non-`ZodError` errors get the identical reply, so the reply reveals nothing about which error occurred |
| `ErrorHandler.ValidationReplyCarriesOnlyIssues` | src/app.ts:53-57 | the strings in a 400 body are the keys `message` and `issues`, "Validation error", and exactly the strings of the formatted issues |
| `ErrorHandler.ReplyIgnoresModeAndRequest` | src/app.ts:52-65 | the reply is the same for any NODE_ENV and any request; the mode only chooses the log |
| `ErrorHandler.ResourceNotFoundIsInternalError` | src/app.ts:53-65 | a `ResourceNotFoundError` is not a `ZodError` and is answered 500 with the fixed body |
| `GetUserProfile.UsersRepository.FindById` | src/usecases/get-user-profile.ts:17 | returns a user iff one is stored under the id, and then the stored one |
| `GetUserProfile.GetUserProfileUseCase.Execute` | src/usecases/get-user-profile.ts:16-24 | succeeds iff the repository holds `userId` and then returns that exact user; otherwise fails, and its only possible error is `ResourceNotFound`; success and failure are exclusive and exhaustive |
| `GetUserProfile.ExecuteObservesOnlyRequestedId` | src/usecases/get-user-profile.ts:17 | the outcome depends on the repository only through `findById(userId)`: repositories that agree there give the same outcome, and two calls on one repository with the same id agree |
| `Pipeline.MissingUserIsAnsweredAsInternalError` | src/usecases/get-user-profile.ts:19-21 | for an id the repository does not hold, `execute` fails and the handler answers 500 with only "Internal server error" in the body |

## Left out

- Fastify instance creation, validator/serializer compiler registration, Swagger and Swagger UI (src/app.ts:15-37): library wiring and documentation generation, with no logic of their own.
- JWT and cookie plugin registration (src/app.ts:39-50): token signing, verification and the `refreshToken` cookie live inside `@fastify/jwt` and `@fastify/cookie`, whose code is outside this model. The settings are a 10-minute expiry, cookie name `refreshToken` and `signed: false`. No token issuing, verification or refresh is modelled.
- `error.format()` and Zod's validation internals: a foreign library. The formatted issues are an arbitrary JSON value.
- `console.error` and the empty production branch (src/app.ts:59-63): I/O. The model records which log action happens (`Log`), not the output.
- `async`/`Promise` and the reply builder's side effects: `execute` is a function returning a `Result` instead of a rejected promise, and the handler returns the reply value instead of calling `reply.status(...).send(...)`.
- The Prisma `User` shape and the concrete repository: external. The repository is an abstract id-to-user map, and `User` is never inspected.
- Subclasses of `ZodError`: `instanceof` would accept them too; the closed taxonomy has no way to express them.
- JSON numbers are integers here; the model never inspects a number, so floating point plays no role.
- `GetUserProfile.ExecuteObservesOnlyRequestedId`: says which key the outcome depends on, not that `findById` is called exactly once per call. A pure model cannot observe repeated reads of an unchanged repository.
- `GetUserProfile.GetUserProfileUseCase.Execute`: "the repository is left unchanged" holds because the use case and its repository are immutable values, not through a separate contract.
- `GetUserProfile.GetUserProfileUseCase.Execute`: a `findById` that rejects (a database error, say) is not modelled, because the repository is a total map. `execute` would pass that error on unchanged, and the handler would answer it 500 as an `Unknown` error.
