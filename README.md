# NodeTempDatabase request path, modelled in Dafny

NodeTempDatabase is a small Node.js HTTP service that receives temperature-sensor readings
as JSON and stores each one as an item of the DynamoDB table "Temperature". This project models
the two functions of `index.js` that make up the request path:

- `handleHttpRequest` (index.js:44-102): a fixed-order validation chain (method, presence of a
  Content-Type, the `application/json` prefix, JSON decoding) that leaves a status code, a status
  message and the decoded message. The storage handler runs only when the status is 200 and the
  message is not `null`; its outcome decides between 200 with a JSON body and 500.
- `handleRequest` (index.js:104-133): stamps the decoded message in place with seven properties
  taken from one instant (`ID`, `Year`, `Month` zero-based, `Day`, `Hour`, `Minute`, `Second`) and
  puts it, as `Item`, into the table "Temperature".

Modules:

- `Wrappers` (wrappers.dfy): `Option` and `Result`.
- `Json` (json.dfy): decoded JSON values. `AcceptsProperties` says which ones JavaScript lets a
  property be created on under strict mode (objects and arrays).
- `JsString` (jsstring.dfy): JavaScript's `length`, which counts UTF-16 code units, over Dafny
  strings, which are sequences of Unicode scalar values.
- `RequestHandler` (requesthandler.dfy): the instant, the stamping (`Stamped`), the put request,
  the specification `Handled` and the method `HandleRequest`, which does the seven assignments one
  by one on the message's property map.
- `HttpHandler` (httphandler.dfy): the request, the validation chain (`Validation`), the
  specification of the whole handler (`Respond`), the `Response` class with the fields the handler
  changes, and the method `HandleHttpRequest`. That method mirrors the source's mutable locals
  `status`, `statusMessage` and `message`, and models each `throw` by leaving a labelled block.

The collaborators the code calls are parameters:

- the outcome of the `body/json` decoder is a `BodyDecode` inside the request;
- the instant from `new Date()` is an `Instant`, already decomposed;
- the storage's answer to `docClient.put` is a `PutAnswer`;
- `JSON.stringify` is a function parameter `stringify`.

Edge cases the code has, kept in the model:

- The method check is the exact, case-sensitive comparison `request.method != "POST"`. Any other
  method, GET included, gets 405. The code serves only POST; there is no GET path.
- `!request.headers["content-type"]` also holds for an empty header value. So an empty
  Content-Type gets "No Content-Type".
- The message "Bad JSON body" is assigned before decoding. A failed decode keeps it with status 400.
- A body that decodes to `null` passes validation. Because the message is `null`, the handler is
  skipped: the reply is 200 "OK" with no body and no storage call.
- The file runs in strict mode (`'use strict'`, index.js:5). For a body that decodes to a number,
  a string or a boolean, `message.ID = ...` throws a TypeError. The handler's promise is then
  rejected before any put, and the reply is 500 "Internal server error".
- An array body is an object in JavaScript. It takes the seven properties and reaches storage as
  an `ArrayItem`.
- Content-Length is `responseBody.length`, a count of UTF-16 code units, while Node.js writes
  the body as UTF-8. The two agree only for an ASCII body (`ContentLengthIsByteCountIffAscii`);
  the model keeps the code's value.
- `ID` comes from `toISOString` (UTC). The other six components come from the local-time getters.
  The model takes both from one `Instant` and does not relate them.

## Model

| member | source | states |
|---|---|---|
| `JsString.Length` | index.js:87 | `responseBody.length` counts UTF-16 code units: between one and two per character, and positive for a non-empty body |
| `JsString.LengthIsCharCountIffBmp` | index.js:87 | `length` equals the character count if and only if every character lies in the Basic Multilingual Plane |
| `RequestHandler.StampFields` | index.js:106-113 | the stamp has exactly the keys ID, Year, Month, Day, Hour, Minute, Second; for a valid instant Month is zero-based (0..11) |
| `RequestHandler.Stamped` | index.js:107-113 | stamping adds exactly the seven stamp keys, each valued from the one instant, and leaves every other caller-supplied key unchanged |
| `RequestHandler.RestampedKeepsLastInstant` | index.js:107-113 | stamping a message again keeps no trace of the earlier instant: a caller-supplied value under a stamp key is overwritten |
| `RequestHandler.DistinctInstantsGiveDistinctItems` | index.js:106-107 | the same message stamped at instants with different ISO texts gives different items, so storing is not idempotent |
| `RequestHandler.Handled` | index.js:104-133 | a put to table "Temperature" is made exactly when the message is an object or array, with the stamped message as its Item; the promise resolves with the storage's data exactly when that put succeeded; a primitive message is rejected with a TypeError and never reaches storage |
| `RequestHandler.HandleRequest` | index.js:104-133 | the seven property assignments and the put give exactly the put request and outcome that `Handled` specifies |
| `HttpHandler.Validation` | index.js:48-74 | 405 exactly for a non-POST; 200 with message "OK" and the decoded body exactly when the request is an admissible POST whose body decoded; 400 otherwise; `message` stays null on every failing path |
| `HttpHandler.Respond` | index.js:44-102 | non-POST gives 405 "Only POST supported" whatever the headers and body; missing or empty Content-Type gives 400 "No Content-Type"; a Content-Type not starting with "application/json" gives 400 "Has to be application/json"; a failed decode gives 400 "Bad JSON body"; a null body gives 200 "OK" with no body; storage is reached exactly when validation passed and the message can take properties; 4xx replies have no headers, no body and no put; 500 "Internal server error" exactly when the handler rejects; on success 200 "OK" with the serialised data as body, Content-Type "application/json" and Content-Length equal to the body's `length` |
| `HttpHandler.ContentLengthIsCharCountIffBmp` | index.js:83-87 | on success Content-Length equals the body's character count if and only if the body has only Basic Multilingual Plane characters |
| `HttpHandler.ContentLengthIsByteCountIffAscii` | index.js:83-88 | on success Content-Length never exceeds the UTF-8 byte count of the body written, and equals it if and only if the body is plain ASCII |
| `HttpHandler.JsonMediaTypeWithAnySuffixIsAdmissible` | index.js:57 | the prefix test accepts "application/json" followed by any text, such as "; charset=utf-8" |
| `HttpHandler.OtherLeadingTextIsRefused` | index.js:57 | a POST whose content type is shorter than, or differs at any position (case included) from, the leading "application/json" is refused |
| `JsString.Utf8Length` | index.js:87-88 | the UTF-8 byte count of a string is never less than its JavaScript `length` |
| `JsString.Utf8LengthIsLengthIffAscii` | index.js:87-88 | the UTF-8 byte count equals `length` if and only if every character is ASCII |
| `HttpHandler.Response.constructor` | index.js:44 | the response starts with status code 200, no headers, nothing written, headers not sent, not ended |
| `HttpHandler.Response.SetHeader` | index.js:86-87 | allowed only before the headers are sent; sets one header and changes nothing else |
| `HttpHandler.Response.Write` | index.js:88 | appends the chunk to the written text, marks the headers sent and changes nothing else |
| `HttpHandler.Response.End` | index.js:101 | marks the response ended (and its headers sent) and changes nothing else |
| `HttpHandler.HandleHttpRequest` | index.js:44-102 | the final status code, status message, headers, written body and storage call are exactly those `Respond` specifies, and the response is ended |

## Left out

- HTTP server creation and port binding (index.js:18-20, 34-41): I/O bootstrap.
- TLS root-CA agent and AWS SDK region, endpoint and credential configuration (index.js:22-31): library configuration.
- The DynamoDB `docClient.put` call (index.js:117, 123-132): a foreign call, modelled only by its answer `PutAnswer`, resolved data or rejection.
- `body/json` stream decoding (index.js:59-66): a library call, modelled only by its outcome `BodyDecode`.
- `Date` decomposition and `toISOString` (index.js:106-113): they depend on the local time zone and a library. The model takes the components and the ISO text as inputs.
- `JSON.stringify` (index.js:83): a library call, modelled as the function parameter `stringify`. A result it cannot serialise (`undefined`, a cycle) is not modelled.
- `hippoHttpGetRequest` and `hippoHttpPostRequest` (index.js:138-203): network clients never called from the request path.
- All `console.log` output.
- What Node.js puts on the wire. The model records what the handler assigns to the response. It assigns its message to `response.status`, a property Node.js does not send as the reason phrase.
- Key order of objects: a JSON object is a map, so the insertion order that `JSON.stringify` and the storage see is not kept.
- Unpaired UTF-16 surrogates: `JSON.parse` accepts strings such as `"\ud800"`, which a Dafny string (Unicode scalar values only) cannot hold. Stamping passes such values through unchanged, so no behaviour of the core depends on them.
- JSON numbers are exact reals: double-precision rounding is not modelled.
- Aliasing: in the source, handleRequest mutates the very object the caller holds. The caller never reads it again, so `HandleRequest` works on the message's property map as a value.
- Asynchrony: the awaited promises are modelled as values already settled.
