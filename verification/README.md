# Keynua contracts adapter — a Dafny model

The service adapts an internal "create contract" request to the Keynua
e-signature API. It has three parts, modelled here:

- **Payload builder** (`buildPayload`). It spreads the request into a new
  object. The top-level `chosenNotificationOptions` moves into a rebuilt
  `flags`, and the top-level property is deleted. Each document keeps its
  `name` and gets its `base64` passed through `clearBase64`. Each user keeps
  `name`, `email` and `groups`, and its `phone` loses every character outside
  0-9.
- **Gateway** (`ContractsService`). The constructor reads three configuration
  variables and fixes the header set (`x-api-key`, `authorization`,
  `Content-Type: application/json`). `create` PUTs the payload to the base URL
  and answers `{data, 'Contract created successfully', 201}`. `findOne` GETs
  `{baseUrl}/{id}` and answers `{data, 'Contract found successfully', 200}`.
  Every failure goes to the error translator with context `Keynua API`.
- **Error translator** (`handleAxiosError`). An HTTP-client error is logged
  as `Error response from <context>` with the upstream status, message and
  body. Anything else is logged as `Unexpected error in <context>` with the
  raw error. Both end in an internal-server-error exception (status 500)
  carrying only the caller's message, or `External service error` by
  default. In the first branch it is built with the original error as
  `cause`, and that options argument also drops the default `error`
  description from the response body. In the second branch the body keeps
  `error: 'Internal Server Error'`.

The request record, its validation rules and its `language` default come
from the request DTO and its nested document, user and flags DTOs.

Files:

- `wire.dfy` (module `Wire`): optional values, results, and JSON values.
- `contract_dto.dfy` (module `ContractDto`): the request datatypes, `Valid`,
  `WithDefaults`, and the request as a JavaScript object.
- `error_handling.dfy` (module `ErrorHandling`): the error translator.
- `contracts_service.dfy` (module `Contracts`): phone cleaning, the payload
  builder and the `ContractsService` class.

Modelling choices:

- Throwing is modelled by returning a value. `HandleAxiosError` returns the
  record it logs together with the exception it throws. `Create` and
  `FindOne` return `Returned(...)` or `Threw(...)`; `Threw` is the only
  failure outcome, so the translator never "returns normally".
- The HTTP client is a parameter `send: HttpRequest -> Reply`. It maps the
  request actually issued (verb, URL, headers, body) to the upstream's
  answer: a 2xx body, or the error the client threw.
- `clearBase64` is a parameter of type
  `Option<string> -> Result<Option<string>, CaughtError>`. The service calls
  it on every document, also when `base64` is `undefined` (a document given
  by `storageId` only). It may throw. The throw aborts the payload and
  reaches the translator, because `create`'s `try` block covers
  `buildPayload`. Which branch of the translator it takes depends on the kind
  of error thrown, and the model leaves that kind open.
- A JavaScript object is a `map` from property to `Option<Json>`, with `None`
  for `undefined`. The top-level properties of the request are the datatype
  `Field`. The payload's object has no `ChosenNotificationOptions` key at all,
  which is what `delete` does.
- Where the request's own documentation and the code disagree, the model
  follows the code.
  - The document record offers `storageId` as an alternative to `base64`
    (`dto/document-contract.dto.ts:28-34`). The user record documents
    `validationsToSkip` (`dto/user-contract.dto.ts:44-52`). `buildPayload`
    rebuilds documents and users from a fixed list of fields
    (`contracts.service.ts:92-104`), so both are dropped (`DroppedMembers`).
  - The request's `users` description says each user belongs to a group
    (`dto/create-contract.dto.ts:111`). `groups` is only checked to be an
    array of strings, so an empty list is accepted.

## Model

| member | source | states |
|---|---|---|
| `ContractDto.WithDefaults` | src/modules/contracts/dto/create-contract.dto.ts:48-51 | an absent `language` becomes `es`, a given one is kept whatever string it is, and no other field changes |
| `ContractDto.DefaultsKeepValidity` | src/modules/contracts/dto/create-contract.dto.ts:48-51 | applying the default never changes whether a request is valid, and applying it twice equals applying it once |
| `ContractDto.EnforcedRules` | src/modules/contracts/dto/create-contract.dto.ts:30-89 | each enforced rule broken alone rejects the request: empty or over-255 title, description over 500, reference over 255, `expirationInHours` below 1, empty `templateId`, a document or user with an empty name (src/modules/contracts/dto/document-contract.dto.ts:12-18 and src/modules/contracts/dto/user-contract.dto.ts:12-18) |
| `ContractDto.SmsWithWhatsappAccepted` | src/modules/contracts/dto/create-contract.dto.ts:53-62 | a valid request may choose both `sms` and `whatsapp`: the documented exclusion is not enforced |
| `ContractDto.AnyDocumentCountAccepted` | src/modules/contracts/dto/create-contract.dto.ts:99-107 | for every count, zero and more than ten included, some valid request has that many documents |
| `ContractDto.UncheckedFields` | src/modules/contracts/dto/create-contract.dto.ts:48-107 | for every request, replacing the notification options or the language, or appending valid documents, never changes whether it is valid |
| `ContractDto.AnyLanguageAccepted` | src/modules/contracts/dto/create-contract.dto.ts:48-51 | any string is accepted as `language` and kept by the default, not only `es` and `en` |
| `ErrorHandling.HandleAxiosError` | src/common/utils/axios-error.ts:12-36 | the exception's message is `customMessage`, or `External service error` when omitted; for HTTP-client errors the exception carries the error as `cause` and no description (it is built with an options object), for any other error no cause and the default description `Internal Server Error`; the log is `Error response from <context>` with status, message and body (status and body absent without a response) or `Unexpected error in <context>` with the raw error |
| `ErrorHandling.CallerSeesOnlyKind` | src/common/utils/axios-error.ts:29-35 | every failure answers 500; with a non-empty message the body carries it and has an `error` member exactly for errors that are not HTTP-client errors; with an empty message the body has no `error`, and has a `message` (`Internal Server Error`) exactly for those errors; two failures give the same body if and only if they are of the same kind |
| `ErrorHandling.UpstreamDetailOnlyLogged` | src/common/utils/axios-error.ts:18-31 | an upstream status and body appear in the log record, while the caller's body is the same as for any other HTTP-client error |
| `ErrorHandling.LogKeepsDistinction` | src/common/utils/axios-error.ts:23-34 | an HTTP-client error and any other error never produce the same log text |
| `Contracts.StripNonDigits` | src/modules/contracts/contracts.service.ts:102 | the cleaned phone holds only the characters 0-9 and is no longer than the input |
| `Contracts.StripAppend` | src/modules/contracts/contracts.service.ts:102 | cleaning a concatenation is concatenating the cleaned parts, so digits keep their order |
| `Contracts.StripKeepsEveryDigit` | src/modules/contracts/contracts.service.ts:102 | every digit occurs in the cleaned phone exactly as often as in the input |
| `Contracts.StripFixedExactlyOnDigits` | src/modules/contracts/contracts.service.ts:102 | cleaning leaves a string unchanged if and only if it holds only digits |
| `Contracts.StripIdempotent` | src/modules/contracts/contracts.service.ts:102 | cleaning twice is cleaning once |
| `Contracts.PhoneExample` | src/modules/contracts/__test__/contracts.service.spec.ts:70-82 | any string spelling `+51 931 022 090` character by character strips to `51931022090` |
| `Contracts.TestPhoneCleans` | src/modules/contracts/__test__/contracts.service.spec.ts:70-82 | the phone cleaning turns the test's `+51 931 022 090` into `51931022090` |
| `Contracts.CleanPhone` | src/modules/contracts/contracts.service.ts:102 | an absent phone stays absent; a present one becomes exactly its stripped digits (so, by the lemmas above, its own digits in order), digits only and no longer than before |
| `Contracts.CleanDocuments` | src/modules/contracts/contracts.service.ts:92-95 | the documents map succeeds if and only if `clearBase64` succeeds on every document; then count and order are kept, with the name kept and `base64` the cleaned value; otherwise the error is the one thrown on the first failing document |
| `Contracts.CleanUser` | src/modules/contracts/contracts.service.ts:99-104 | name, email and groups unchanged; the phone is present exactly when it was, and is then the input phone's stripped digits |
| `Contracts.BuildPayload` | src/modules/contracts/contracts.service.ts:88-109 | succeeds exactly when every document cleans, else fails with the first document's error; `flags` is exactly `{chosenNotificationOptions: <top-level value>}`; documents and users keep count and order; each document keeps its name and gets the cleaned content; each user keeps name, email and groups, and its phone is the input phone's stripped digits |
| `Contracts.AgreeingValue` | src/modules/contracts/contracts.service.ts:90-91 | every property the builder does not rebuild has, in a payload that agrees with the request on the pass-through fields, the request's own value |
| `Contracts.SpreadOfAgreeingPayload` | src/modules/contracts/contracts.service.ts:90-106 | a payload that agrees with the request on the ten pass-through properties has, as an object, exactly the spread of the request with `documents`, `flags` and `users` replaced and `chosenNotificationOptions` deleted |
| `Contracts.PayloadIsSpreadWithoutOptions` | src/modules/contracts/contracts.service.ts:89-106 | the built payload, as an object, equals `{...request, documents, flags, users}` with `chosenNotificationOptions` deleted |
| `Contracts.PayloadMembers` | src/modules/contracts/contracts.service.ts:89-106 | the payload has no top-level `chosenNotificationOptions`, its `flags` holds the request's top-level value (absent included), and every other request property is copied unchanged |
| `Contracts.DroppedMembers` | src/modules/contracts/contracts.service.ts:92-104 | a document's `storageId` and a user's `validationsToSkip` appear in the request but never in the payload |
| `Contracts.FlagsOptionsOverwritten` | src/modules/contracts/contracts.service.ts:96-98 | options given only inside the caller's `flags` are lost: the payload's flags have none |
| `Contracts.PayloadPhonesStable` | src/modules/contracts/contracts.service.ts:102 | every phone in a built payload is unchanged by cleaning it again |
| `Contracts.BuildPayloadExample` | src/modules/contracts/__test__/contracts.service.spec.ts:60-84 | the payload test's request gives flags `{chosenNotificationOptions: ['email+whatsapp']}`, document content `ABCDEF123`, phone `51931022090` and no top-level options |
| `Contracts.LoadConfig` | src/modules/contracts/contracts.service.ts:24-26 | the configuration loads exactly when all three variables are set, and then holds their values |
| `Contracts.ContractsService.constructor` | src/modules/contracts/contracts.service.ts:20-35 | keeps key, token and base URL, and fixes the headers to `x-api-key`, `authorization` and `Content-Type: application/json` |
| `Contracts.ContractsService.FindOneRequest` | src/modules/contracts/contracts.service.ts:46 | a GET without body, with the fixed headers, whose target is the base URL, a `/`, and then exactly the id |
| `Contracts.ContractsService.CreateRequest` | src/modules/contracts/contracts.service.ts:68 | a PUT to the base URL unchanged, with the fixed headers and the payload as body |
| `Contracts.ContractsService.FindOne` | src/modules/contracts/contracts.service.ts:44-56 | succeeds exactly when the upstream answers 2xx, with its body, `Contract found successfully` and 200; otherwise the translator's outcome for context `Keynua API` and message `Error finding contract in Keynua` |
| `Contracts.ContractsService.Create` | src/modules/contracts/contracts.service.ts:65-78 | succeeds exactly when the payload builds and the PUT of that payload answers 2xx, with its body, `Contract created successfully` and 201; a failure in either step goes to the translator with `Keynua API` and `Error creating contract in Keynua` |
| `Contracts.RequestsCarryFixedHeaders` | src/modules/contracts/contracts.service.ts:28-34 | both requests of a constructed service carry exactly the three headers, with its key, its token and `application/json` |
| `Contracts.FindOneTargetsDistinct` | src/modules/contracts/contracts.service.ts:46 | distinct ids give distinct target strings |
| `Contracts.FailuresAreOpaque` | src/modules/contracts/contracts.service.ts:53-77 | every failure of either operation answers 500 with that operation's message, and two failures of the same operation and the same kind give the same body, whatever the upstream sent |
| `Contracts.CreateRequestFailedExample` | src/modules/contracts/__test__/contracts.service.spec.ts:137-156 | a PUT rejected with a bare `Request failed` client error is logged as `Error response from Keynua API` with no status or body, and the caller gets `{statusCode: 500, message: 'Error creating contract in Keynua'}` with no `error` member |

## Left out

- `clearBase64`: its file is not part of this model, so it is a parameter. Nothing is assumed about it except, in `BuildPayloadExample`, the one input/output pair the test shows.
- Contracts.BuildPayload: it does not state that the transmitted `base64` is free of a `data:...;base64,` prefix. It only says the value is what `clearBase64` returns, because that function's rule is not available.
- HTTP: the client (`axiosRef.get`/`put`), `await`, timeouts and status validation are reduced to the `send` parameter. A 2xx answer yields the body; anything else yields the thrown error.
- Logging: `Logger.error` is not called; the record it would receive is returned as data.
- NestJS exceptions: the framework's exception classes are not part of this model. Only the message, the description, the optional cause and the response body built from them are modelled.
- ErrorHandling.ClientBody: the rule for the body is written from the framework's published behaviour. An empty (falsy) message leaves only `statusCode`, plus the description as `message` when there is one. Otherwise, with no second argument the default description becomes `error`, and an options object without a description leaves `error` out. The framework's source is not part of this model.
- Contracts.FindOneTargetsDistinct: the id is put into the URL without encoding, and the HTTP client's URL resolution is not modelled. The client drops a `#fragment` and resolves `..` segments, so distinct target strings may still reach the same upstream resource, or one outside `{baseUrl}/`.
- AxiosError: `instanceof` is reduced to the two constructors of `CaughtError`.
- Validation library behaviour: the `IsEmail` and `IsISO8601` format checks, whitelisting, implicit conversion and Swagger metadata are not modelled. The request datatype holds exactly the declared properties, with their declared types.
- ContractDto.EnforcedRules: the validation library's length counting is not part of this model. The model measures a string by its number of Dafny characters, and the library's count may differ for some characters, such as variation selectors.
- `null`: an optional property may also be `null` in a request, which the validation lets through. `Option` has no `null`, so the model does not capture the resulting behaviours:
  - a `null` phone becomes `undefined` through `phone?.`, so the payload omits it;
  - a `null` `chosenNotificationOptions` is sent as `flags: {"chosenNotificationOptions": null}`;
  - a `null` `description` and other `null` pass-through properties are forwarded as `null`.
- Contracts.Create: it does not state which translator branch a `clearBase64` failure takes, because the kind of error that function throws is not known.
- Numbers are integers. The validated `expirationInHours` is an integer; JSON bodies holding fractions are not represented.
- Runtime type errors in `buildPayload` on a request that skipped validation (for example, `documents` not being an array) are excluded by the typed request.
- The contract entity file is not part of this model. The upstream's answer is an uninterpreted JSON value, passed back unchanged.
- Out of the core: the controller, bootstrap, CORS and helmet set-up, Swagger set-up, password hashing and the users module.

## Findings

None.
