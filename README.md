# fdpg_torch_api in Dafny

The bridge between the FDPG portal and the TORCH FHIR extraction service is modelled here. It has two HTTP handlers:

- `push_json` (`POST /api/data/`) takes a cohort definition and validates it against a JSON schema. It writes the definition and the configured group reference into a query template. The whole query, serialised and base64-encoded, goes into a request template. The request is posted to TORCH's `$extract-data` endpoint, and the handler returns the job id found in the `Content-Location` header, or the status code of a refused request.
- `get_uuids` (`GET /api/data/{location}`) polls the job once. When the job is done, it rehosts each result file URL from TORCH's base URL to an nginx proxy, downloads each NDJSON file and returns the `id` of every record, in file order and line order. Otherwise it returns the poll's payload.

Files:

- `Wrappers.dfy`: `Option` and `Result`.
- `Json.dfy`: JSON values as Python's `json` module returns them.
  - Objects are association lists, because a dict keeps insertion order.
  - A subscript read is `Get`/`GetPath`, on a dict, a list or a string. An assignment chain `d[a][b][c] = v` is `SetPath`.
  - `JsonDocument` is a loaded template that is edited in place.
- `Text.dfy`: Python's `str.replace`, with every occurrence replaced and the empty-target case included. Also `f"{n}"` for a non-negative int.
- `Base64.dfy`: base64 as section 4 of RFC 4648 defines it (`base64.b64encode`), plus a strict decoder. Encoding and decoding are proved to be inverse.
- `TorchRequests.dfy`: `torch_requests.py`, namely `extract_file_url`, `extract_patient_id`, `create_torch_request`, `extract_location` and `query_to_base64`.
- `Handlers.dfy`: `main.py`, namely `push_json` and `get_uuids`.

Effects become inputs:

- The environment variables are a `Config` record. Each field is `None` when its variable is unset.
- An HTTP answer is a value.
  - The poll and the NDJSON downloads are functions from URL to response.
  - The POST goes to an `ExtractionService` object. It keeps the requests it received, so "nothing was submitted" can be stated.
- `json.dumps(...).encode('utf-8')` and `json.loads` are the function parameters `dumps` and `loads`. `response.json()` is the response's `body`, which is `None` when the body does not parse.
- Schema validation is a parameter `validate` that returns a `Verdict`.
- Templates that could not be loaded are `null` documents (`None` in the functional model). A schema that could not be loaded is `None`, which validation refuses.

Every exception that escapes is a `Fault` value. For example, `BaseUrlUnset` is the `TypeError` from `None + str` when `TORCH_BASE_URL` is unset (`torch_requests.py:107`, `:127`). A handler ends in a `Reply`:

- `Served` is a 200 with a value.
- `ClientError` is the `HTTPException`.
- `ServerError` is any other exception, which the framework answers with 500.

Each loop of the source is a method proved against a specification function:

| method | specification function |
|---|---|
| `ExtractFileUrl`, with its loop `CollectLocations` | `RehostedUrls` / `RehostEach` |
| `ExtractPatientId`, with its loop `CollectIds` | `PatientIds` / `IdsOf` |
| `GetUuids`, with its loop `ExtendUuids` | `Uuids` / `CollectAll` |

The properties are lemmas about those functions. `push_json` edits the two template documents in place. `PushJson` is proved against the trace function `PushOutcome`, which gives the reply, both final templates and the POST sent.

Behaviour of the code that is easy to misread:

- The code writes the group reference into the query template before it validates the payload. A query template that is missing or has the wrong shape therefore fails the request before validation.
- The error payload of a poll is `{"error code": "<status>"}`: the status as a decimal string.
- `extract_file_url` iterates whatever the body's `output` holds:
  - a dict yields its keys and a string its characters, so an empty dict or string gives no URLs;
  - a non-empty one fails on `.get`.
- Every occurrence of the base URL in a file URL is replaced, wherever it stands.
- `json.dumps` is called with its default separators. The model leaves serialisation abstract.

## Model

| member | source | states |
|---|---|---|
| Json.Get | main.py:20 | definition of `j[s]` as an expression on a dict, a list or a string; its interplay with writes is stated by Set, GetAfterSetPath and SetPathFrame |
| Json.GetPath | main.py:20 | definition of a chain of subscript reads; stated about by SetPathDefined, GetAfterSetPath and SetPathFrame |
| Json.SetPath | main.py:20 | definition of a subscript assignment chain; its properties are stated by SetPathDefined, GetAfterSetPath and SetPathFrame |
| Json.Put | main.py:26 | after `d[k] = v`, `d[k]` is `v`; every other key keeps its value; an existing key keeps its place and a new key is appended |
| Json.Set | main.py:20 | a subscript write succeeds exactly on a dict, or on a list at a position it has; it keeps the container's kind, makes the written place read back as `v`, and leaves every other subscript as it was |
| Json.LookupFinds | torch_requests.py:93 | `d[k]` finds a value exactly when `k` is one of the dict's keys, and then it is the value of the first member with that key |
| Json.SetPathDefined | main.py:20 | an assignment chain succeeds exactly when every read before the last step succeeds and the container reached can take the write |
| Json.GetAfterSetPath | main.py:20 | after a successful assignment chain, reading the same chain gives the value written |
| Json.SetPathFrame | main.py:30 | an assignment chain leaves every place whose path parts from it as it was |
| Json.JsonDocument.Assign | main.py:20 | the in-place assignment updates the document exactly as the chain prescribes and otherwise leaves it unchanged |
| Text.ReplaceAll | torch_requests.py:60 | definition of `s.replace(t, r)`, every non-overlapping occurrence from the left, with the empty-target case; its properties are stated by the Replace lemmas below |
| Text.ReplaceUnchangedIff | torch_requests.py:60 | `s.replace(t, r)` returns `s` exactly when `t == r` or `t` does not occur in `s`; for an empty `t`, exactly when `r` is empty |
| Text.ReplaceSelf | torch_requests.py:60 | replacing a string by itself changes nothing |
| Text.ReplaceAbsent | torch_requests.py:60 | replacing a target that does not occur changes nothing |
| Text.ReplaceChanges | torch_requests.py:60 | replacing an occurring target by a different string changes the result |
| Text.ReplaceLength | torch_requests.py:119 | a replacement no longer than the target never lengthens the string, and one no shorter never shortens it |
| Text.ReplaceLeading | torch_requests.py:119 | a string made of the target followed by text that does not contain it becomes the replacement followed by that text |
| Text.Decimal | torch_requests.py:146 | `f"{n}"` is a non-empty string of digits without a leading zero |
| Text.DecimalRoundTrip | torch_requests.py:146 | reading back the decimal text of `n` gives `n` |
| Base64.Encode | torch_requests.py:41 | the encoding of `n` bytes has length 4·⌈n/3⌉ |
| Base64.EncodeAlphabet | torch_requests.py:41 | the encoding uses only the RFC 4648 alphabet and `=`, and the `=` are exactly its last `(3 - n mod 3) mod 3` characters |
| Base64.SextetOf | torch_requests.py:41 | each alphabet character is the encoding of the value it decodes to |
| Base64.DecodeEncode | torch_requests.py:41 | decoding the encoding of any byte string gives it back |
| Base64.EncodeDecode | torch_requests.py:41 | any text the decoder accepts is the encoding of what it decodes to |
| Base64.DecodeIffEncode | torch_requests.py:41 | a text decodes to `b` exactly when it is the encoding of `b` |
| TorchRequests.QueryToBase64 | torch_requests.py:38-42 | the base64 text of the serialised query has length 4·⌈n/3⌉, uses only the alphabet with closing padding, and decodes back to the serialised bytes |
| TorchRequests.Elements | torch_requests.py:56 | `for elem in v` visits a list's items, a dict's keys or a string's characters, and fails for any other JSON value |
| TorchRequests.EntryUrl | torch_requests.py:58-60 | definition of `elem.get("url")` followed by `.replace`: a string url of a dict entry, None where Python raises AttributeError; used by RehostEach's contract |
| TorchRequests.RehostEach | torch_requests.py:56-62 | the loop gives one URL per entry, in entry order, each being the entry's url with every base-URL occurrence replaced; it succeeds exactly when every entry is a dict with a string url, and fails with AttributeError otherwise |
| TorchRequests.RehostEachAll | torch_requests.py:56-62 | a list holding one rehosted URL per entry, in order, is the loop's result |
| TorchRequests.RehostEachFails | torch_requests.py:58-60 | one entry without a string url makes the whole loop fail |
| TorchRequests.RehostedUrls | torch_requests.py:46-62 | definition of `extract_file_url`; its properties are stated by RehostedUrlsConfig, RehostedList, RehostSameBase and RehostEach |
| TorchRequests.CollectLocations | torch_requests.py:56-62 | the appending loop computes the same result as RehostEach |
| TorchRequests.ExtractFileUrl | torch_requests.py:46-62 | `extract_file_url` computes RehostedUrls: the configuration checks, then the loop |
| TorchRequests.RehostedUrlsConfig | torch_requests.py:49-54 | an unset proxy URL is reported whatever else holds; an unset base URL is reported when the proxy URL is set; a configuration error arises exactly when one of them is unset, before any entry is read |
| TorchRequests.RehostedList | torch_requests.py:56-62 | for a list of well-formed entries, the result has one URL per entry, in input order (so `[]` gives `[]`), each with the base URL replaced |
| TorchRequests.RehostSameBase | torch_requests.py:60 | when the proxy URL equals the base URL, the URLs come back unchanged |
| TorchRequests.AuthFault | torch_requests.py:67-82 | definition of the configuration check made before the download; what it means for `extract_patient_id` is stated by PatientIdsConfig |
| TorchRequests.IdOfLine | torch_requests.py:92-93 | definition of `json.loads(line)['id']` for one record; what it means for the whole file is stated by IdsOfNonEmpty |
| TorchRequests.IdsOf | torch_requests.py:89-94 | definition of the loop over the lines of a file; its properties are stated by IdsOfAppend, EmptyLineSkipped, IdsOfNonEmpty and IdsOfErrNotConfig |
| TorchRequests.IdsOfAppend | torch_requests.py:90-93 | the ids of two runs of lines are those of the first followed by those of the second, the first failure winning |
| TorchRequests.EmptyLineSkipped | torch_requests.py:91 | an empty line contributes nothing wherever it stands |
| TorchRequests.IdsOfNonEmpty | torch_requests.py:90-94 | over non-empty lines the scan succeeds exactly when every line yields an id, giving one id per line in line order |
| TorchRequests.IdsOfErrNotConfig | torch_requests.py:92-93 | the line scan fails only with a JSON error or a lookup error |
| TorchRequests.CollectIds | torch_requests.py:89-94 | the appending loop over the lines computes IdsOf |
| TorchRequests.PatientIds | torch_requests.py:65-97 | definition of `extract_patient_id`; its properties are stated by PatientIdsConfig and PatientIdsNone |
| TorchRequests.ExtractPatientId | torch_requests.py:65-97 | `extract_patient_id` computes PatientIds: the configuration checks, the download, then the loop |
| TorchRequests.PatientIdsConfig | torch_requests.py:67-82 | a configuration error arises exactly when the auth flag is unset, or is "True" with a user name or password unset, and it is the same whatever the download would give |
| TorchRequests.PatientIdsNone | torch_requests.py:89-97 | the answer is None (never an empty list) exactly for a download whose status is not 200; on 200 it is the ids of the file's lines |
| TorchRequests.PostedBody | torch_requests.py:111-116 | definition of the body the POST carries, by the auth flag; what it means for the POST sent is stated by SubmitPost |
| TorchRequests.SubmitRequest | torch_requests.py:107-116 | definition of the POST `create_torch_request` builds, None where building its URL raises; what it means for the POST sent is stated by SubmitPost |
| TorchRequests.SubmissionOf | torch_requests.py:118-122 | definition of the classification of TORCH's answer to the POST; its properties are stated by SubmissionStatus, SubmissionLocation and SubmissionLocationPlain |
| TorchRequests.SubmitResult | torch_requests.py:100-122 | definition of the outcome of `create_torch_request` for a TORCH that answers with `respond`; what it promises is stated by SubmitPost |
| TorchRequests.SubmitPost | torch_requests.py:107-122 | the result is the TypeError exactly when the base URL is unset; otherwise the one POST goes to `<base>/fhir/$extract-data`, carries the payload exactly when the auth flag is "True" and no body otherwise, and its answer decides the result |
| TorchRequests.SubmissionStatus | torch_requests.py:118-122 | a status code is returned exactly for statuses other than 200, 201 and 202, and it is the status itself; an accepted answer without Content-Location fails |
| TorchRequests.SubmissionLocation | torch_requests.py:119 | for an accepted answer whose Content-Location is `/fhir/__status/` followed by an id that does not contain it, the location is that id: the inverse of the status URL a poll builds |
| TorchRequests.SubmissionLocationPlain | torch_requests.py:119 | an accepted answer always gives a location no longer than the header, and a header without the prefix is passed on unchanged |
| TorchRequests.ExtractionService.Post | torch_requests.py:112-116 | a POST is recorded as received and answered by the service |
| TorchRequests.CreateTorchRequest | torch_requests.py:100-122 | `create_torch_request` sends at most one POST, none when the base URL is unset; the POST goes to `<base>/fhir/$extract-data` and carries the payload exactly when the auth flag is "True"; the result is the classification of TORCH's answer to it |
| TorchRequests.ExtractLocation | torch_requests.py:125-146 | definition of `extract_location` for a TORCH that answers the poll with `poll`; its properties are stated by PollOutcome and PollDone |
| TorchRequests.PollOutcome | torch_requests.py:139-146 | a poll is done only on 200; it gives the processing payload exactly on 202; any other status above 200 gives an error code that reads back as the status; below 200 it gives None exactly |
| TorchRequests.PollDone | torch_requests.py:139-142 | a finished poll reports exactly the rehosted `output` of its body |
| Handlers.GroupReference | main.py:20 | definition of the value `os.getenv('FDPG_GROUP_REFERENCE')` writes into the query; what the query ends up holding is stated by PushAssembled |
| Handlers.PushOutcome | main.py:12-35 | definition of `push_json`'s reply, final templates and POST, step by step in the handler's order; its properties are stated by PushRejected, PushPostsOnlyValid, PushAssembled and PushFrame |
| Handlers.Complete | main.py:26-33 | the steps after validation never end in a client error and always leave a query |
| Handlers.PushJson | main.py:12-35 | the handler's reply, both templates as edited in place, and the POSTs received agree with PushOutcome |
| Handlers.PushValidated | main.py:26-33 | the steps after validation, done in place, agree with Complete |
| Handlers.PushRejected | main.py:24-35 | a payload the schema rejects gives status 400 with "Invalid JSON: " and the validator's message, and nothing is submitted; no other path gives a client error |
| Handlers.PushPostsOnlyValid | main.py:24-32 | an extraction request is sent only when the schema was loaded and accepts the payload |
| Handlers.Validation | main.py:24 | definition of the validation step, None for a schema that could not be loaded; what it means for the handler is stated by PushRejected and PushPostsOnlyValid |
| Handlers.CohortApartFromGroup | main.py:20-26 | the cohort slot and the group reference slot are separate places of the query |
| Handlers.PushAssembled | main.py:20-33 | when the request is sent, the query holds the payload verbatim as its cohort definition and the configured group reference; the request's parameter is the base64 of that final query and decodes to its serialisation; the POST goes to the extraction endpoint; the reply is what the submission gives |
| Handlers.CompleteAssembled | main.py:26-32 | after validation, a POST means the cohort and parameter slots hold the payload and the base64 of the final query, and the group reference is kept |
| Handlers.CompleteFrame | main.py:26-30 | the steps after validation leave the query apart from the cohort slot, and the request apart from the parameter slot, as loaded |
| Handlers.PushFrame | main.py:20-30 | apart from the three written slots, both templates stay as loaded |
| Handlers.CollectAll | main.py:45-47 | definition of the loop of `get_uuids` over the file URLs; its properties are stated by CollectAllAppend and CollectAllFiles |
| Handlers.CollectAllAppend | main.py:45-47 | the ids gathered from two runs of URLs are those of the first followed by those of the second, the first failure winning |
| Handlers.CollectAllFiles | main.py:45-48 | gathering succeeds exactly when every file is read with status 200, so a file giving None is never skipped; on success the ids are the files' id lists concatenated in URL order |
| Handlers.ExtendUuids | main.py:45-47 | the extending loop computes CollectAll |
| Handlers.Uuids | main.py:38-50 | definition of `get_uuids`; its properties are stated by UuidsOutcome |
| Handlers.GetUuids | main.py:38-50 | `get_uuids` computes Uuids |
| Handlers.UuidsOutcome | main.py:42-50 | a poll that is not done is served as its payload, unchanged; ids are served only for a poll with status 200 and are the ids gathered from its URLs |

## Left out

- `load_json_file` is not modelled, because it is file I/O and logging. The handlers take its outcome as input: a template document or `null`, and a schema or `None`.
- HTTP is not modelled: `requests.get`/`requests.post`, the `Accept` and `Content-Type` headers, basic-auth headers, `verify=False` and `urllib3.disable_warnings`. Responses are inputs. The auth flag is modelled only where it changes behaviour, namely the configuration checks and whether the POST has a body.
- `HTTPBasicAuth` is built from a user name or password that may be unset (`torch_requests.py:113`, `:134`). This is not modelled, because it only changes headers that are outside the model.
- `load_dotenv` and `os.getenv` are not modelled. The environment is a `Config` value that stays fixed during a request.
- `json.dumps`, `json.loads`, `response.json()` and jsonschema's `validate` are left abstract, because they are library code. They appear as `dumps`, `loads`, the response `body` and `validate`.
- The header names of a response are taken as already lower-cased. This stands in for the case-insensitive lookup `requests` does.
- How `iter_lines` splits a body into lines is not modelled. A download is a sequence of lines.
- FastAPI routing, `async` and the 422 answer for a body that is not a JSON object are not modelled. Any JSON payload is accepted.
- Python exception classes are grouped into the `Fault` causes. A `ServerError` stands for the framework's 500 answer.
- Logging and `print` are not modelled, because they have no effect on results.
- Json.Set: a list position used as a key on a dict (`d[0] = v`) is refused, where Python would insert an int key. JSON object keys are strings here, and every write the bridge makes ends in a string key.
- Json.Get: reading a list position on a dict (`d[0]`) is refused, which matches Python only while the dict has no int keys; Json.Set never creates one.
- RehostEach: reports an AttributeError for any malformed entry. It does not say which entry raised, because the source's message is not part of the result.
