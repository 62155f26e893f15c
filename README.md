# ERPNext resource client — a Dafny model

`erpnext-client-rs` is a small asynchronous client for the ERPNext REST API.
It can read, update or insert one record, identified by a *doctype* (the record
type) and a *name*. Each operation makes one HTTP round trip. Its logic is in
two places: building the request URL and the `{"data": …}` body, and reading
the JSON envelope the server returns. This project models both as pure Dafny
functions and proves the rules that govern them.

Files:

- `wrappers.dfy` (module `Wrappers`): `Option` and `Result`.
- `json_value.dfy` (module `JsonValue`): the generic JSON tree (`serde_json::Value`).
  An object is a sequence of `(key, value)` members. `Get` is `Value::get`
  with a string key, and it answers `None` for anything that is not an object.
  `DistinctKeys` is the map's "no key twice" invariant.
- `erpnext_client.dfy` (module `ErpNext`): `Settings`, `Request`, the errors,
  the URL and body builders, the two envelope interpreters, and `Client` with
  its three operations. The client's `http` field is the transport: it takes a
  request and returns the parsed response body or an I/O error.
- `erpnext_properties.dfy` (module `ErpNextProperties`): the lemmas.

The envelope rules, as the code applies them:

- A read checks three members in a fixed order. First, `exc_type` equal to the
  JSON string `"DoesNotExistError"` means "no record" (`Success(None)`).
  Next, any `exception` member is an error that carries its value. Last, a
  `data` member is decoded into the caller's type; if it is missing, the error
  is "Missing 'data' field in response".
- An update or insert looks only at `exception`.

Facts about the code that a reader might expect otherwise:

- The code accepts an `exception` of any JSON type, including `null`, not only
  a string.
- The code does not check that doctype and name are non-empty. The model has
  no such precondition.
- The code does not escape doctype or name. `SlashInDoctypeCollides` shows
  what that allows. `ResourceUrlInjective` is about the URL string that
  `format!` builds, before the transport parses it as a URL.
- The code's errors are `anyhow` messages, not typed kinds. The model keeps
  one variant per error site in `ClientError`, and `Message` gives the text
  that each variant carries.

## Model

| member | source | states |
|---|---|---|
| `JsonValue.Lookup` | src/lib.rs:43-54 | a member found under a key is one of the object's members; no result means no member has that key |
| `JsonValue.Get` | src/lib.rs:43-54 | `get` on a value that is not an object is `None`; otherwise it finds exactly the members with that key |
| `JsonValue.LookupMember` | src/lib.rs:43-54 | in an object without repeated keys, `get(k) == Some(v)` holds exactly when `(k, v)` is a member |
| `ErpNext.WrapData` | src/lib.rs:68 | the write body is a one-member object whose only member is `data`, holding the payload |
| `ErpNext.InterpretFetch` | src/lib.rs:42-58 | a read returns "no record" exactly when `exc_type` is the string "DoesNotExistError" |
| `ErpNext.InterpretWrite` | src/lib.rs:82-87 | a write fails exactly when `exception` is present, and the error carries that value |
| `ErpNext.Message` | src/lib.rs:49-54 | a remote-exception message is the fixed prefix followed by the JSON text of the value; the missing-data message is the fixed text |
| `ErpNext.Client.GetDoctypeByName` | src/lib.rs:24-59 | an I/O error is returned exactly when the transport fails; otherwise the result is the envelope's interpretation for a read |
| `ErpNext.Client.UpdateDoctype` | src/lib.rs:61-88 | sends `{"data": encode(data)}` by PUT to the record URL; a failed round trip is that I/O error, and otherwise the result is the write interpretation of the answer: a remote exception carrying the `exception` value, or success when there is none |
| `ErpNext.Client.InsertDoctype` | src/lib.rs:91-117 | sends `{"data": encode(data)}` by POST to the collection URL; a failed round trip is that I/O error, and otherwise the result is the write interpretation of the answer: a remote exception carrying the `exception` value, or success when there is none |
| `ErpNextProperties.NotFoundWins` | src/lib.rs:43-46 | an object with member `exc_type` = "DoesNotExistError" reads as "no record", whatever `exception` or `data` it also holds |
| `ErpNextProperties.OtherExcTypeFallsThrough` | src/lib.rs:43-47 | any other `exc_type` (missing, not a string, another string) leaves the outcome as if the member were absent |
| `ErpNextProperties.ExceptionMemberFails` | src/lib.rs:48-50 | an `exception` member of any value, null included, makes the read fail with that value unless not-found fired |
| `ErpNextProperties.RemoteExceptionIff` | src/lib.rs:43-50 | a read fails with a remote exception carrying `v` if and only if not-found did not fire and `exception` is `v` |
| `ErpNextProperties.MissingDataIff` | src/lib.rs:52-54 | a read fails with "missing data" if and only if there is no not-found marker, no `exception` and no `data` |
| `ErpNextProperties.NonObjectBody` | src/lib.rs:52-54 | a body that is not an object is "missing data" for a read and a success for a write |
| `ErpNextProperties.OnlyDataMatters` | src/lib.rs:52-58 | once `data` is reached, the outcome equals that of the bare envelope `{"data": data}`: `Some` of the decoded value, or the decoder's error |
| `ErpNextProperties.DecodedIff` | src/lib.rs:56-58 | a read returns `Some(t)` if and only if neither not-found nor `exception` applies and `data` decodes to `t` |
| `ErpNextProperties.WriteIgnoresExcTypeAndData` | src/lib.rs:82-87 | removing `exc_type` and `data` from a response never changes a write's outcome |
| `ErpNextProperties.WriteOutcomeByMembers` | src/lib.rs:111-116 | a write fails with the value of an `exception` member, and succeeds when no member is called `exception` |
| `ErpNextProperties.FetchAndWriteAgreeOnExceptions` | src/lib.rs:83-85 | when the not-found marker is absent, a read and a write fail with the same remote exception on the same body |
| `ErpNextProperties.NotFoundDivergence` | src/lib.rs:43-46 | `{"exc_type":"DoesNotExistError","exception":"boom"}` is "no record" to a read and an error to a write |
| `ErpNextProperties.WriteBodyReadsBack` | src/lib.rs:68 | if the decoder inverts the encoder, reading the body a write sends gives back the written value; as a write response that body is a success |
| `ErpNextProperties.UpdateThenFetch` | src/lib.rs:67-68 | if the server answers a read with the body an update sent, the read returns the updated value |
| `ErpNextProperties.CollectionUrlIsPrefix` | src/lib.rs:97 | the insert URL followed by `/name` is the update URL, so it is a proper prefix of that URL |
| `ErpNextProperties.ResourceUrlInjective` | src/lib.rs:30 | when no doctype contains '/', two record URL strings with the same base are equal if and only if their doctypes and names are equal |
| `ErpNextProperties.SlashInDoctypeCollides` | src/lib.rs:30 | segments are inserted verbatim, so doctype "a/b" with name "c" has the same URL as doctype "a" with name "b/c" |
| `ErpNextProperties.RequestShapes` | src/lib.rs:96-107 | read is a GET and update a PUT, to the same URL; insert is a POST to the collection URL; update and insert send the same body, whose `data` is the payload; all three send the same credentials |

## Left out

- Transport: sending the request, TLS, timeouts and network failures, and parsing the body text as JSON (`response.json()`). All of these are the `http` function field. Its failures are an opaque `IoError`, returned unchanged as the `?` in the source does.
- An empty response body is not valid JSON, so `response.json()` fails on it (src/lib.rs:42, 82, 111). A read or a write answered with an empty body is therefore an `Io` error, not a success. In the model this is the transport returning `BodyNotJson`.
- URL parsing is part of the transport. reqwest parses the `format!` string as a URL, and there `#`, `?` and the dot segments `.` and `..` change the request target. For example, doctypes `a#1` and `a#2` with name `b` both request `/api/resource/a`. The URL lemmas are about the string only.
- The transport returns only objects whose keys are distinct (`DistinctKeys`), as a parsed `serde_json::Value` always is. `JsonValue.Object` itself allows a repeated key, and on such a value `Lookup` finds the first occurrence, while serde_json's parser keeps the last. The lemmas that reason about members require `DistinctKeys`.
- HTTP status codes: the source never looks at them, so the transport returns only the body.
- Serde's generic conversions: decoding `data` into `T` and encoding a `T` into JSON are the `decode` and `encode` parameters.
- `json!({"data": data})` calls `to_value(..).unwrap()`, which panics if the value cannot be serialised. The model's `encode` is total, so this panic is not modelled.
- The `Authorization: Basic` header encoding and the `SecretString` redaction: the request carries the `(key, secret)` pair as a plain field.
- `tracing::instrument` and `tracing::info!`: they only log.
- `async` scheduling and concurrency: no state is shared between calls.
- `Client::new` and `Client::with_client`: these only assign fields. The model builds `Client(http, settings)` directly.
- JSON numbers are unbounded integers. Floats, and the key order of serde_json's map, play no part in the envelope rules.
- `ErpNext.Message`: the JSON text of a value (serde_json's `Display`) is the `render` parameter. Transport and decoder messages are carried as opaque strings.
