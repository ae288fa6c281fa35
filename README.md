# Panther response layer in Dafny

This project models the response layer of the Panther web framework
(`panther/response.py`), plus the small upload validator in
`panther/file_handler.py`.

The response layer works in five steps:

- It takes whatever an endpoint returns and prepares it (`prepare_data`) into
  wire-safe shapes: primitives, dicts and lists.
- It checks the status code (`check_status_code`).
- It can reshape the data through a declared output schema
  (`apply_output_model`).
- It computes the body bytes and the header set (`body`, `headers`,
  `bytes_headers`).
- It sends ASGI messages over a `send` callback and then calls
  `monitoring.after`.

`StreamingResponse` sends one body frame per chunk of a generator, followed
by an empty final frame. `HTMLResponse` and `PlainTextResponse` send bytes
unchanged, or the encoding of text.

Modules, one per component:

- `Wire` (wire.dfy): the Python values a response handles (`Value`), the
  exceptions (`Error`), `Result`, and `Runtime`. `Runtime` is a record of the
  foreign functions the layer calls: `orjson.dumps`, `str.encode`,
  `BaseModel.model_dump`, and `str()` of floats, bytes, containers and
  objects.
- `Text` (text.dfy): `str()` of None, booleans, integers and text. Integers
  are written out in decimal.
- `Dicts` (dicts.dfy): Python's insertion-ordered dict, as a sequence of
  pairs. It models `d[k] = v`, `d.pop(k)` and the union `a | b`.
- `Normalize` (normalize.dfy): `prepare_data` and `check_status_code`.
- `OutputModel` (output_model.dfy): `apply_output_model`. Its renaming loop
  is a `for` loop over the schema fields.
- `Envelope` (envelope.dfy): construction, `body`, `headers`,
  `bytes_headers` and `__str__` for `Response`, `HTMLResponse` and
  `PlainTextResponse`.
- `Protocol` (protocol.dfy): the message trace.
  - The class `EventLog` records every `send(...)` and `monitoring.after(...)`
    call, in order.
  - The class `Producer` is the generator behind a streaming response. It is
    consumed once.
  - The send methods are proved against trace functions.
- `FileHandler` (file_handler.dfy): `File.size` and
  `Image.validate_content_type`.

Behaviour of the code worth knowing:

- **Construction order.** The constructor prepares the data before it checks
  the status code (`panther/response.py:32-34`). Bad data is therefore
  reported even when the status code is bad too.
- **Schema models.** A schema model becomes its `model_dump()`, and that dump
  is not prepared again (`panther/response.py:69-70`).
- **Monitoring after a stream.** `StreamingResponse` inherits
  `Response.send`, so `monitoring.after` is called after the final frame
  (`panther/response.py:110-113`).
- **Stored stream data.** A sync generator is stored wrapped by
  `to_async_generator` (`panther/response.py:129-130`). `__str__` of a
  streaming response therefore shows that async generator.
- **Error types.** A bad status code and a scalar passed to
  `apply_output_model` both raise `TypeError`
  (`panther/response.py:81-83`, `panther/response.py:101-102`). A failed
  schema validation is the schema library's own error (`ValidationError`).
- **Alias renaming.** A field's value is moved to its alias only when the
  field's own name is a key of the dict (`panther/response.py:92-93`). A dict
  already keyed by the alias is validated as it is; see
  `OutputModel.UsernameAliasExamples`.
- **Bool status codes.** `bool` is a subclass of `int`, so `True` is accepted
  as a status code and sent as it is (`panther/response.py:81`).

## Model

| member | source | states |
|---|---|---|
| Normalize.PrepareData | panther/response.py:61-77 | Primitives come back unchanged. A dict comes back as a dict with the same keys in the same order. A list, tuple, set or cursor comes back as a list of the same length. A model comes back as its dump. It succeeds exactly when no generator or foreign object occurs outside a model. Otherwise it raises TypeError naming the class of the first rejected value. |
| Normalize.FirstUnsupported | panther/response.py:75-77 | The value whose class the TypeError names exists exactly when preparation fails, and it is always a generator or a foreign object. |
| Normalize.PrepareEntriesPointwise | panther/response.py:66-67 | Each entry of a prepared dict keeps its key and holds the preparation of the original value. |
| Normalize.PrepareItemsPointwise | panther/response.py:72-73 | Element i of a prepared list, tuple, set or cursor is the preparation of element i. |
| Normalize.NormalizedIsFixpoint | panther/response.py:63-73 | A value built only from primitives, dicts and lists is returned unchanged. |
| Normalize.PreparedIsNormalized | panther/response.py:61-77 | Prepared data is built only from primitives, dicts and lists, provided every model in the input dumps to such a value. |
| Normalize.PrepareIdempotent | panther/response.py:63-73 | Preparing prepared data changes nothing, under the same proviso about model dumps. |
| Normalize.ModelDumpNotPrepared | panther/response.py:69-70 | A model's dump is returned without being prepared, so it can hold a value that a second preparation rejects. |
| Normalize.CheckStatusCode | panther/response.py:79-84 | Every int or bool is accepted and returned unchanged, whatever its range. Every other value raises TypeError with the message that shows it and its class. |
| Envelope.NewResponse | panther/response.py:21-34 | Construction succeeds exactly when the data is supported and the status code is an int. Bad data is reported before a bad status code. The result holds the given headers (none becomes empty), the prepared data and the status code. |
| Envelope.DefaultResponse | panther/response.py:21-26 | With the default arguments the response has no data, no headers, status 200 and an empty body. |
| Envelope.BodyUsesOneEncoder | panther/response.py:36-43 | The JSON body depends only on the JSON encoder. The HTML and plain-text bodies never use the JSON encoder. |
| Envelope.BodyOfBytesAndText | panther/response.py:164-178 | Bytes pass through every body unchanged. HTML and plain-text text is encoded. The JSON body of None is empty. An HTML or plain-text body exists exactly for bytes or text. |
| Envelope.HeadersContract | panther/response.py:45-51 | Headers fail exactly when the body fails. User keys win with their own values. Otherwise Content-Type is the class's type, Content-Length is the body length and Access-Control-Allow-Origin is `*`. No other key appears. The defaults come first, then the user's other keys in the user's order. No key is repeated. |
| Envelope.BytesHeadersPointwise | panther/response.py:53-55 | There is exactly one (encoded key, encoded str of value) pair per header, in header order. |
| Envelope.Abbreviated | panther/response.py:115-118 | The data text in `__str__` is at most 30 characters long. Text of 30 characters or fewer is kept whole. Longer text becomes its first 27 characters followed by `...`. |
| Envelope.DescribeContract | panther/response.py:115-118 | `__str__`, shared by every response class, starts with `Response(status_code=` and the status code, which reads back as the same integer. It ends with `)`. It is at most 31 characters longer than that head, whatever the data. Data text of 30 characters or fewer appears whole. |
| Text.IntStrRoundTrip | panther/response.py:55 | The decimal text written for an integer header value, such as Content-Length, reads back as the same integer. |
| Dicts.LookupUnion | panther/response.py:47-51 | In `a \| b`, a key of `b` has `b`'s value and every other key has `a`'s. |
| Dicts.KeysUnion | panther/response.py:47-51 | The keys of `a \| b` are `a`'s keys in their order, followed by the keys of `b` that `a` lacks, in `b`'s order. |
| Dicts.NewKeysMembers | panther/response.py:47-51 | The keys that a union adds after the left operand's are exactly the right operand's keys that the left lacks. |
| Dicts.UniqueUnion | panther/response.py:47-51 | `a \| b` of a dict repeats no key. |
| Dicts.LookupSetItem | panther/response.py:93 | After `d[k] = v`, `k` maps to `v` and every other key is unchanged. |
| Dicts.KeysSetItem | panther/response.py:93 | `d[k] = v` keeps an existing key in its place and appends a new key at the end. |
| Dicts.LookupRemove | panther/response.py:93 | `d.pop(k)` removes `k` and leaves every other key unchanged. |
| Dicts.KeysRemove | panther/response.py:93 | After `d.pop(k)` the keys are the other keys, in their old order. |
| OutputModel.ApplyOutputModel | panther/response.py:86-102 | The method returns exactly what the function `OutputOf` defines. On a dict, the field loop renames aliased keys and its result is validated. A list, tuple, set or cursor is handled element by element. Anything else raises TypeError with the hint to remove `output_model`. |
| OutputModel.RenameFieldEffect | panther/response.py:91-93 | For an aliased field whose name is present, the value moves from the name to the alias (within a field's iteration; a later field can move it again) and every other key is unchanged. Otherwise the dict is unchanged. The keys become the other keys in their old order, with the alias kept in its place if it was already there and appended otherwise. The dict keeps unique keys. |
| OutputModel.RenameAliasesUntouched | panther/response.py:91-93 | A key that no field names or uses as an alias keeps its value through the whole loop. |
| OutputModel.RenameAliasesMoves | panther/response.py:91-93 | If a field's alias differs from its name and no other field mentions that name or alias, the loop leaves that field's value under its alias, with its name gone. |
| OutputModel.OutputOfItemsAllOrNothing | panther/response.py:96-98 | On an iterable, the result is a same-length list of the element results when every element succeeds. Otherwise it is the first failing element's error. |
| OutputModel.ScalarRejected | panther/response.py:100-102 | Every value that is neither a dict nor an iterable raises TypeError with the hint. |
| OutputModel.UsernameAliasExamples | panther/response.py:91-94 | With `name` aliased to `username`, `{id, name}` becomes `{id, username}` and `{id, username}` stays as it is. |
| Protocol.SendHeaders | panther/response.py:104-105 | Sends one start message with the status and the header bytes. It sends nothing if computing the headers raises. |
| Protocol.SendBody | panther/response.py:107-108 | Sends one body message holding the whole body with `more_body` false. It sends nothing if the body raises. |
| Protocol.Send | panther/response.py:110-113 | The events appended are exactly the trace `BufferedTrace`. If it fails, nothing is appended. |
| Protocol.BufferedTraceContract | panther/response.py:104-113 | The trace is a start message, one final body message carrying `body`, and one `monitoring.after(status)`, in that order. The start message carries exactly the `bytes_headers` of the header set. It fails exactly when the body fails. Unless the user set Content-Length, the start headers carry it as the decimal byte length of the body sent. |
| Protocol.Producer.Next | panther/response.py:147 | Each pull returns the next chunk and removes it, or returns None once the generator is exhausted. |
| Protocol.StreamingPrepare | panther/response.py:126-132 | Only a sync or async generator is accepted. An async generator is stored as it is. A sync generator is stored as an async generator over the same chunks, which is what `to_async_generator` returns. Every other value, lists included, raises TypeError naming its class. |
| Protocol.NewStreaming | panther/response.py:126-132 | The data is checked before the status code. On success the response stores the async generator and a fresh producer over the generator's chunks. |
| Protocol.StreamingHeadersContract | panther/response.py:134-139 | Content-Length is present exactly when the user sets it. Content-Type and Access-Control-Allow-Origin hold their defaults unless the user overrides them. User keys win. No other key appears. The defaults come first, then the user's other keys in the user's order. No key is repeated. |
| Protocol.StreamingSendBody | panther/response.py:155-158 | The frames appended and the chunks left are exactly those of the trace `StreamBody` of the chunks that remained before the call. |
| Protocol.StreamingSend | panther/response.py:110-113 | Sends the start message, then the frames. `monitoring.after` follows only if no chunk failed to encode. |
| Protocol.StreamBodyComplete | panther/response.py:145-158 | For n chunks that all encode, there are n frames with `more_body` set, in producer order, then one empty final frame: n + 1 frames in all. The producer is left empty. |
| Protocol.StreamBodyAborted | panther/response.py:145-158 | If chunk k is the first that fails to encode, only the k frames before it are sent and there is no final frame. The producer has moved past chunk k. |
| Protocol.ThreeChunkExample | panther/response.py:145-158 | The chunks `[b"a", None, {"x": 1}]` give four frames: `b"a"`, `b""` and the JSON with `more_body` set, then a final `b""`. |
| Protocol.ResendAfterCompleteStream | panther/response.py:145-147 | A stream is one-pass. A second send of the same response sends only the start message, an empty final frame and the monitoring call. |
| FileHandler.ValidateContentType | panther/file_handler.py:27-31 | Accepted exactly when the type is `image/` followed by anything, and then returned unchanged. Otherwise it raises APIException with status 415, whose detail begins with the rejected type. |
| FileHandler.ValidateContentTypeExamples | panther/file_handler.py:28 | The prefix test is case-sensitive: `image` and `IMAGE/png` are rejected and `image/` is accepted. |
| FileHandler.NewImage | panther/file_handler.py:14-31 | An image exists exactly when its content type validates. Its content type then starts with `image/`, and its size is the number of bytes in the file. |

## Left out

- Asynchrony and scheduling: each `await` is one step, in order. The thread hand-off that `to_async_generator` adds to a sync generator is not modelled: both kinds of generator are a finite sequence of chunks pulled in order.
- Transport failure and cancellation mid-stream: `send` never fails in the model. Only a chunk that the JSON encoder refuses stops a stream, after the chunk was pulled.
- orjson, pydantic and the UTF-8 codec: their code is not part of this model. They are the `Runtime` functions (`jsonDumps`, `modelDump`, `encode`) and the schema's `validateAndDump`. orjson may refuse a value, for example bytes inside a dict.
- `str()` of floats, bytes, containers, generators and objects is the runtime's `show` function, not Python's repr rules. Floats are opaque.
- Dict keys are text. Python allows other hashable keys, and `output_model(**data)` only accepts text keys.
- OutputModel.ApplyOutputModel: renames aliased keys in a local copy of the dict. The source pops and assigns keys on the caller's dict itself, including the dicts inside a list, so the caller's data is also changed; the model does not capture that aliasing.
- Validation aliases of the `AliasPath` / `AliasChoices` kinds: an alias here is text or absent, and an empty alias counts as absent.
- `headers or {}` with a falsy value that is not a dict, and reassigning `headers` after construction through the setter (`panther/response.py:57-59`).
- `File.__repr__` and `__str__`, and the pydantic field checks of `File` other than the content-type validator.
- `Monitoring.after`: its body is not part of this model. The log only records the call.
