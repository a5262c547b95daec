# Registration cancellation proxy, modelled in Dafny

The system is one serverless HTTP handler for a conference registration
flow. A GET request looks a participant up by registration `code` in an
upstream event-management API. It answers `{code, slot}`, where `slot`
says whether a consultation time is booked. A PATCH request cancels the
registration: it looks the participant up, then overwrites the record with
a fixed document. OPTIONS answers the CORS preflight. Requests whose
`Referer` or `Origin` mention `:8000`, or that carry a non-empty
`X-Sandbox` header, are sent to the upstream's port 8000 (sandbox mode).

The model is pure. The handler is a function from the event and the two
upstream outcomes to an `Exchange`: the response (status, headers, body by
shape) and the upstream requests issued, in order. Each upstream outcome is
either a rejection (a transport failure, or axios refusing the status) or a
resolved response with a status and, for the lookup, the list of records.

- `js.dfy` (module `Js`): the JavaScript semantics the handler relies on.
  This covers values, truthiness, `||`, property access (which throws on
  null and undefined) and `String.prototype.includes`.
- `upstream.dfy` (module `Upstream`): `getParticipant` and
  `updateParticipantData`, the thrown values, and the port choice.
- `handler.dfy` (module `Handler`): routing, validation, sandbox detection,
  the GET and PATCH flows and their catch blocks.
- `properties.dfy` (module `Properties`): a flat decision table for every
  response, proved equal to the handler, and lemmas for the promised
  behaviour.

Three behaviours of the code are easy to misread; the model follows the
code:

- The lookup guard `!data[0] && !data[0].id` (index.js:214) throws its 404
  only when the single record is a falsy primitive (`0`, `""` or `false`):
  reading `.id` of a primitive gives undefined and raises no error. A `null` record raises a
  TypeError, which the catch block turns into the generic 500. Any object
  passes, with or without an `id`.
- Update failures are not passed through with their own status. The
  update's own catch returns the error as a value, so every outcome other
  than status 200 ends in 500 `{errors: "Ошибка отмены консультации"}`
  with no headers.
- Not every error response carries the CORS header. The 400 response and
  the PATCH 500 response have no headers at all.

## Model

| member | source | states |
|---|---|---|
| `Js.Or` | index.js:21-23 | the `or` operator is the first operand when it is truthy (`Truthy` models `!!`), the second otherwise, so it is truthy exactly when either operand is |
| `Js.Prop` | index.js:59-72 | reading `id`, `code` or `консультация_время` from a primitive gives undefined; an object yields its own property |
| `Js.IncludesIff` | index.js:24 | `Includes`, the left-to-right scan modelling `String.prototype.includes`, holds exactly when the substring occurs at some index, by induction over the scan |
| `Js.IncludesInfix` | index.js:24 | a string that contains the substring anywhere includes it |
| `Upstream.PortFor` | index.js:159-161 | the sandbox port is chosen exactly in sandbox mode |
| `Upstream.GuardAsWritten` | index.js:214-225 | the guard short-circuits on any truthy record, throws a TypeError-like value exactly for null/undefined, and is true only for a falsy primitive |
| `Upstream.GetParticipant` | index.js:156-228 | a rejection propagates; a missing, zero or ≥400 status is thrown back as statusCode; 0 records give 404 'Пользователь не найден', several give 500 'Произошла ошибка…'; a single record is returned exactly when it is truthy, and null gives a TypeError |
| `Upstream.UpdateParticipantData` | index.js:230-257 | the result is a status (200) exactly when the PATCH resolved with status 200; a rejection or any other status is swallowed and returned as the error value |
| `Handler.HeaderText` | index.js:21-22 | a header defaulted to the empty string is the header's text, or empty when it is absent |
| `Handler.IsSandbox` | index.js:21-24 | sandbox mode holds iff Referer or Origin contains ":8000" at some index, or X-Sandbox is a non-empty string |
| `Handler.Caught` | index.js:81-89 | the catch answers the thrown status (500 when it is absent or 0), the thrown body (the generic error list when absent), and always the JSON+CORS headers |
| `Handler.GetFlow` | index.js:55-91 | one lookup is made on the chosen port; 200 exactly when the returned record has a truthy id and code, then `{code: record's code, slot: truthiness of консультация_время}` with JSON headers; every failure has the JSON+CORS headers |
| `Handler.PatchFlow` | index.js:93-154 | the update is sent exactly when the record has a truthy id, with that id and the fixed document on the same port; then 200 with no headers or body iff the update answered 200, else 500 'Ошибка отмены консультации' with no headers |
| `Handler.Handle` | index.js:20-55 | OPTIONS gives 200 with the preflight headers even without `code`; other methods than GET/PATCH give 405 with `Allow`; a missing or empty `code` gives 400 'Неправильная ссылка' with no headers; none of these calls upstream; otherwise the first call is the lookup of that code |
| `Properties.HandleMatchesTable` | index.js:20-257 | on every input the response equals a flat, ordered decision table of all outcomes |
| `Properties.CallsUseSandboxPort` | index.js:159-161 | every upstream request (lookup and update, index.js:234-236 too) targets port 8000 exactly in sandbox mode |
| `Properties.RefererWithPortIsSandbox` | index.js:21-24 | a Referer with ":8000" anywhere in it turns sandbox mode on |
| `Properties.LocalRefererIsSandbox` | index.js:24 | "http://localhost:8000/register" as Referer means sandbox mode |
| `Properties.SandboxHeaderZeroCounts` | index.js:23-24 | `X-Sandbox: 0` is a non-empty string and switches sandbox mode on |
| `Properties.NoSandboxWithoutHeaders` | index.js:21-24 | without Referer, Origin and X-Sandbox there is no sandbox mode |
| `Properties.GuardLetsEveryObjectThrough` | index.js:214-227 | a single object record, with or without an id, is returned as it came |
| `Properties.NullRecordIsServerError` | index.js:214 | a single null record yields the generic 500 through the catch block, not the guard's 404 |
| `Properties.GuardNotFoundOnlyForFalsyPrimitive` | index.js:214-225 | the lookup throws the guard's 404 exactly when the single record is a falsy primitive |
| `Properties.CaughtDiscardsHeaders` | index.js:144-153 | the catch block's response does not depend on the headers of the thrown value |
| `Properties.GetIgnoresUpdate` | index.js:55-91 | a GET never issues an update and does not depend on the update outcome |
| `Properties.GetReportsRecordCode` | index.js:72-80 | a GET answer carries the upstream record's code, not the query's, and the slot's truthiness |
| `Properties.UpdateFailuresLookAlike` | index.js:126-134 | all non-200 update outcomes give the same response |
| `Properties.PatchSucceedsIff` | index.js:93-143 | a PATCH answers 200 iff the lookup gives one object with a truthy id and the update answers 200; an update is sent only with that id and the fixed document |
| `Properties.CancellationPayloadIsFixed` | index.js:111-124 | the document sets name "DELETE" and groupId 7331, and blanks the other ten fields |
| `Properties.PatchRejectedUpdateIsCancelError` | index.js:254-256 | a rejected update ends in 500 'Ошибка отмены консультации', not in an exception |

## Left out

- Logging: the winston logger and its `logger.error` calls (index.js:1-7 and throughout). They do not affect the response.
- The axios client, its bearer-token headers and the `TOKEN`, `EVENT_ID` and `API_HOST` environment variables (index.js:9-18). These are library configuration and process globals.
- The HTTP requests themselves, axios's encoding of `filter[code]`, and its default of rejecting responses by status. Each upstream call is an input outcome; a rejection carries no `statusCode` and no `body`.
- URL parsing and serialisation (index.js:157, 232). Only the resulting port is modelled.
- Exact JSON text. Bodies are modelled by shape: an error list, an error string, or `{code, slot}`.
- async/await. The two calls are strictly sequential, so the model composes functions.
- A null `headers` or `queryStringParameters` object (index.js:21, 46). These crash outside any try block.
- Upstream data that is not an array, and record values beyond what the handler reads. Numbers are integers, so NaN and fractional numbers are not modelled. A truthy primitive record behaves like an object without the three properties.
- Header values that are not strings. Header names are matched exactly, as the code indexes them.
- The inner `catch (error) { return error }` (index.js:137-139). Nothing inside its try block can throw once the update swallows its own failures, so the model has no path for it.
