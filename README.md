# PerfectPy request construction and response classification

A Dafny model of the core of PerfectPy, a Python 2 client for the Perfecto
device-cloud REST API. The model covers two layers.

- **The resource classes** `Scheduler`, `Repository`, `Reservations`,
  `Devices` and `Reporting`. Each operation checks its required arguments
  and fills a local parameter dictionary with guarded assignments. It then
  glues the urlencoded dictionary onto the operation's URI and hands the
  URI to the client, inside a try/except that re-raises client failures
  with an operation label.
- **`APIClient.__send_request`**. It composes the final URL as base + uri +
  `&securityToken=<token>` and drops every non-ASCII character. It adds the
  POST headers. It decodes the body by trying, in order: empty body, then
  JSON, then XML, then failure. It then returns the data or raises an
  `APIError` built from the HTTP status and the decoded body.

Modules, one per source file plus three shared ones:

| module | file | contents |
|---|---|---|
| `Py` | `py.dfy` | Python 2 values, truthiness, `str()`, the exceptions, decoded response values, decimal text |
| `Query` | `query.dfy` | `quote_plus`, `urlencode` over a dictionary with unspecified key order, and the server's reading of a query string |
| `Params` | `params.dfy` | parameter dictionaries: guarded assignments (`Entry`), `dict.update` from a set of pairs, the keyword-key unpacking |
| `Api` | `api.dfy` | `__init__.py`: `APIClient` (a class with its three fields fixed at construction), `__send_request`, `send_get`, `send_post`, `properParams`, and `APIBase` with the shared try/except |
| `Scheduler`, `Repository`, `Reservations`, `Devices`, `Reporting` | one file each | the resource operations |

Each resource operation is a method returning an `Api.Built`, which is one of:

- `Halt(exc)`: an exception raised before the try block, which escapes unwrapped;
- `Fail(exc)`: an exception raised inside the try block, which gets wrapped;
- `Send(Request(verb, uri, params, body))`: the request handed to the client.

The parameter dictionary is specified declaratively.

- Each operation's assignments are listed in source order as a sequence of
  `Entry(key, sent, value)`.
- `Params.Assign` performs them one after another.
- `Params.Reflects(p, es)` says that a key is present exactly when its
  assignment happened, that it holds `str()` of the value, and that no other
  key is present.
- The scheduler's extra `param.` and `securedParam.` keys are covered by
  `Scheduler.Extended`; the repository's `property.` keys by `Params.Augmented`.

Every URI is stated with `Query.Encodes(uri, prefix, params)`: the prefix,
then some urlencoding of the dictionary, in any key order.
`Query.ParseEncoded` shows that the server reads back exactly that
dictionary.

`Api.APIBase.Call` finishes every operation. It joins a `Built` value with
the client's answer, the `Api.Env` record described under "Left out". Each
resource module ends with one method per operation (`CreateScheduleCall`,
`UploadItemCall`, …) that runs the builder and then `Call` with the label
constant its try/except writes (`CreateLabel`, `ListLabel`, …). Its contract
is `Api.Completes`: what escapes unwrapped, what comes out wrapped with that
label, and which request goes on the wire. `Call`, and so every `…Call`
method, sends GETs through the corrected `send_get` (see Findings). As
written, `send_get` raises a TypeError before sending anything. The ending
of any of these methods as written is therefore `Api.APIBase.CallAsWritten`:
every GET ends in the wrapped TypeError, and POSTs and the errors raised
before the client call end as in `Call`.

Three behaviours of the code a reader may not expect:

- For an HTTP error whose non-empty body neither parser accepts, the code
  raises the parse failure, not the `APIError` (`Api.ParseFailureHidesApiError`).
- A `POST` with an empty payload goes out as a GET, because urllib2 chooses
  the verb from the payload (`Api.APIClient.Prepare`).
- `send_get` never reaches the request routine as written (see Findings).

## Model

| member | source | states |
|---|---|---|
| `Py.IntToDecimal` | src/PerfectPy/api/__init__.py:205 | `str()` of an integer is a sign exactly when negative, followed by decimal digits |
| `Py.ParseNatDecimal` | src/PerfectPy/api/__init__.py:170 | the decimal text of a length reads back as that length |
| `Py.ParseIntDecimal` | src/PerfectPy/api/__init__.py:205 | the status code written into an APIError message reads back as the status code |
| `Query.QuotePlus` | src/PerfectPy/api/__init__.py:161 | a quoted string never contains `&` or `=` and is at most three times as long |
| `Query.UnquoteQuote` | src/PerfectPy/api/__init__.py:161 | unquoting undoes `quote_plus` for every string |
| `Query.SplitJoin` | src/PerfectPy/api/reservations.py:46 | splitting a `sep.join(parts)` on `sep` gives the parts back when no part holds the separator |
| `Query.EnumeratesOrder` | src/PerfectPy/api/scheduler.py:111 | a key order stated key by key is exactly a duplicate-free listing of the dictionary's keys |
| `Query.Urlencode` | src/PerfectPy/api/scheduler.py:111 | `urlencode(params)` yields the pairs of every key exactly once, in some order, joined by `&` |
| `Query.ParseEncoding` | src/PerfectPy/api/scheduler.py:111 | every urlencoding of a dictionary, in any key order, reads back as that dictionary |
| `Query.ParseEncoded` | src/PerfectPy/api/repository.py:76 | the query part after the prefix of a built URI reads back as the parameter dictionary sent |
| `Query.EmptyEncoding` | src/PerfectPy/api/reporting.py:92 | the empty dictionary encodes to the empty string |
| `Query.SingleEncoding` | src/PerfectPy/api/devices.py:100 | a one-entry dictionary has exactly one encoding, `key=value` (both directions) |
| `Query.EncodingStart` | src/PerfectPy/api/scheduler.py:111 | the encoding of a non-empty dictionary is non-empty and does not start with `&` |
| `Query.NoSeparator` | src/PerfectPy/api/scheduler.py:111 | a non-empty dictionary appended with `+=` runs straight into the last path value, with no `&` |
| `Params.Prefixed` | src/PerfectPy/api/scheduler.py:108 | every positional pair appears under `param.` + its name with its value, and every key made starts with the prefix |
| `Params.KeyPairs` | src/PerfectPy/api/scheduler.py:110 | iterating a keyword dictionary unpacks each KEY: the pair is prefix + first character, second character |
| `Params.Update` | src/PerfectPy/api/scheduler.py:108 | `dict.update` from a set of pairs adds exactly the pairs' keys, keeps the value of one pair per key, and leaves every other key alone |
| `Params.UnpackKeys` | src/PerfectPy/api/scheduler.py:110 | the unpacking fails exactly when some key does not have two characters, with ValueError and Python's message; otherwise it yields `KeyPairs` |
| `Params.FillCarries` | src/PerfectPy/api/scheduler.py:91-106 | assignments to distinct new keys each leave their key and text, add exactly the keys assigned, and change nothing else |
| `Params.FillReflects` | src/PerfectPy/api/repository.py:129-136 | assignments to distinct keys, starting from `{}`, give a dictionary that `Reflects` them |
| `Params.Assign` | src/PerfectPy/api/scheduler.py:91-106 | the assignments performed one after another give the dictionary `Fill` specifies |
| `Params.ReflectsAt` | src/PerfectPy/api/reservations.py:38-50 | in a reflecting dictionary, each assigned key is present exactly when its guard holds, with `str()` of its value |
| `Params.NothingSent` | src/PerfectPy/api/reporting.py:85-91 | when no guard holds the dictionary is empty |
| `Params.Unassigned` | src/PerfectPy/api/repository.py:238-249 | a key that no assignment names is never sent |
| `Params.FilledThenAugmented` | src/PerfectPy/api/repository.py:62-75 | assignments followed by `params.update(extra)` on other keys give a dictionary holding both, and nothing else |
| `Api.GetAppended` | src/PerfectPy/api/scheduler.py:111 | `uriStr += urlencode(params)`: a GET of the path followed directly by an encoding of `params`, with no `&` when `params` is non-empty |
| `Api.GetProper` | src/PerfectPy/api/repository.py:137 | `properParams(path, urlencode(params))`: a GET of the path, `&`, then an encoding of `params` |
| `Api.PostProper` | src/PerfectPy/api/repository.py:76-79 | the same URI shape sent as a POST carrying the payload |
| `Api.AsciiIgnore` | src/PerfectPy/api/__init__.py:161 | the ASCII filter's output is pure ASCII and never longer; an ASCII string is unchanged |
| `Api.AsciiIgnoreKeeps` | src/PerfectPy/api/__init__.py:161 | every ASCII character survives the filter as often as it occurs |
| `Api.AsciiIgnoreAppend` | src/PerfectPy/api/__init__.py:161 | the filter works piece by piece over a concatenation |
| `Api.ProperParams` | src/PerfectPy/api/__init__.py:223-225 | `properParams(base, p)` is `base`, `&`, then `p` |
| `Api.ErrorDetail` | src/PerfectPy/api/__init__.py:201-204 | the detail is the quoted `error` text when present, the fallback for an empty result, the quoted `str()` of a dictionary without `error`; a list or string result is searched for `"error"`, a TypeError exactly when it holds it, else its quoted `str()`; a non-text `error` value, a number or a bool is a TypeError |
| `Api.Decode` | src/PerfectPy/api/__init__.py:184-198 | an empty body decodes to `{}`; a non-empty body is unparseable exactly when both parsers fail; otherwise JSON wins, and XML is used only when JSON fails |
| `Api.JsonFirst` | src/PerfectPy/api/__init__.py:185-186 | when JSON decoding succeeds the XML parser has no influence on the result |
| `Api.Classify` | src/PerfectPy/api/__init__.py:200-206 | without an HTTP error the result is returned; with one, `REST API returned HTTP <code> (<detail>)` is raised, or the TypeError from building the detail |
| `Api.ParseFailureHidesApiError` | src/PerfectPy/api/__init__.py:192-200 | a non-empty body neither parser accepts raises the parse failure even when the server answered with an HTTP error |
| `Api.ApiErrorQuotesError` | src/PerfectPy/api/__init__.py:201-205 | an HTTP error whose body decodes to `{"error": s}` raises an APIError quoting `s` with the status code |
| `Api.ApiErrorEmptyBody` | src/PerfectPy/api/__init__.py:196-205 | an HTTP error with an empty body raises the APIError with the fallback detail |
| `Api.SuccessReturnsDecoded` | src/PerfectPy/api/__init__.py:206 | without an HTTP error the decoded body is returned unchanged |
| `Api.CallArity` | src/PerfectPy/api/__init__.py:123 | calling with the wrong number of arguments is a TypeError, and only then |
| `Api.SecurityKeySafe` | src/PerfectPy/api/__init__.py:108 | the token's parameter name is ASCII and needs no quoting |
| `Api.TokenLast` | src/PerfectPy/api/__init__.py:161 | filtering a URL that ends in `&securityToken=` and the quoted token keeps that ending, filtered, after the filtered base |
| `Api.PostHeaders` | src/PerfectPy/api/__init__.py:165-170 | a POST adds exactly `Content-Type: application/octet-stream` and a decimal `Content-Length` that reads back as the payload length |
| `Api.DecodeBody` | src/PerfectPy/api/__init__.py:184-198 | the decoding steps compute `Decode` |
| `Api.ClassifyResult` | src/PerfectPy/api/__init__.py:200-206 | the classification steps compute `Classify` |
| `Api.APIClient.constructor` | src/PerfectPy/api/__init__.py:105-108 | the client keeps the base URL and the token as given; the key name is the constant `securityToken` |
| `Api.APIClient.Compose` | src/PerfectPy/api/__init__.py:161 | the URL is the filtered base + uri, then `&securityToken=`, then the filtered quoted token, so the token parameter is always last |
| `Api.APIClient.ComposeAscii` | src/PerfectPy/api/__init__.py:161 | the composed URL is ASCII and never longer than base + uri + `&` + the encoded token pair, and equals it when that is ASCII |
| `Api.APIClient.Prepare` | src/PerfectPy/api/__init__.py:161-170 | the request URL is `Compose(uri)`; a GET carries no headers; a POST carries the two headers with the payload length; the verb on the wire is POST exactly when the payload is non-empty, and then the payload is the data sent; a GET sends no data |
| `Api.APIClient.BuildRequest` | src/PerfectPy/api/__init__.py:160-170 | the steps building the request compute `Prepare` |
| `Api.APIClient.SendRequest` | src/PerfectPy/api/__init__.py:145-206 | `__send_request` sends `Prepare(...)` and returns or raises `Respond(env)` |
| `Api.APIClient.SendGetAsWritten` | src/PerfectPy/api/__init__.py:110-123 | `send_get` as written sends nothing and raises TypeError |
| `Api.APIClient.SendGet` | src/PerfectPy/api/__init__.py:123 | `send_get` as intended sends a header-less GET of `Compose(uri)` and returns `Respond(env)` |
| `Api.APIClient.SendPost` | src/PerfectPy/api/__init__.py:125-142 | `send_post` sends `Prepare(POST, uri, data)` with `Content-Length` equal to `len(data)`; a non-empty `data` is submitted as the POST body; returns `Respond(env)` |
| `Api.Wrapped` | src/PerfectPy/api/scheduler.py:116-118 | the re-raised Exception's message is the operation label, ` failed because '`, the original message, then `'` followed by the suffix as its exact ending |
| `Api.WrapOutcome` | src/PerfectPy/api/scheduler.py:113-119 | data passes through unchanged; an exception is replaced by its wrapped form |
| `Api.APIBase.InitClient` | src/PerfectPy/api/__init__.py:218-220 | `initClient` creates a fresh client with the given token and base URL |
| `Api.APIBase.Call` | src/PerfectPy/api/scheduler.py:113-119 | an exception raised before the try escapes as it is; one raised inside it is wrapped; a request is sent as `Prepare` says and its outcome is wrapped |
| `Api.APIBase.CallAsWritten` | src/PerfectPy/api/__init__.py:123 | with `send_get` as written every GET sends nothing and ends in the wrapped TypeError; POSTs behave as in `Call` |
| `Scheduler.AddExtras` | src/PerfectPy/api/scheduler.py:107-110 | the `param.` and `securedParam.` updates add exactly their keys, hold their pairs and keep every other key; ValueError exactly when a keyword key has other than two characters |
| `Scheduler.ExtrasNotPlain` | src/PerfectPy/api/scheduler.py:108-110 | the extra keys start with `pa` or `se`, so they cannot collide with the named parameters |
| `Scheduler.FilledThenExtended` | src/PerfectPy/api/scheduler.py:91-110 | assignments followed by the extra updates give an `Extended` dictionary |
| `Scheduler.ExtendedThenFilled` | src/PerfectPy/api/scheduler.py:280-300 | the extra updates followed by the assignments give an `Extended` dictionary |
| `Scheduler.NotSent` | src/PerfectPy/api/scheduler.py:89-110 | a named key no assignment makes is absent from an `Extended` dictionary |
| `Scheduler.Sent` | src/PerfectPy/api/scheduler.py:103 | an assignment that happens puts its key in an `Extended` dictionary |
| `Scheduler.CreateSchedule` | src/PerfectPy/api/scheduler.py:86-119 | a falsy schedule key, recurrence or script key raises before any request; a bad keyword key is a ValueError; otherwise a GET whose dictionary is `Extended` over the ten assignments, never holds `description`, and is glued on with no `&` |
| `Scheduler.GetScheduledExcutions` | src/PerfectPy/api/scheduler.py:141-157 | always a GET of the list path whose dictionary reflects owner, admin and responseFormat, appended with no `&` |
| `Scheduler.GetExecutionInfo` | src/PerfectPy/api/scheduler.py:180-198 | the key is refused exactly when falsy; otherwise a GET of `/schedules/<key>?operation=info`, the reflected dictionary appended with no `&` |
| `Scheduler.DeleteScheduledExecution` | src/PerfectPy/api/scheduler.py:218-236 | as written: a falsy key is refused; a truthy owner raises KeyError('owner') unwrapped; otherwise a GET without `owner` |
| `Scheduler.OwnerUnset` | src/PerfectPy/api/scheduler.py:223-227 | with no owner the two remaining assignments give the dictionary of all three, and `owner` is absent |
| `Scheduler.DeleteScheduledExecutionIntended` | src/PerfectPy/api/scheduler.py:218-236 | as intended: a truthy owner is sent with its value |
| `Scheduler.UpdateScheduledExecution` | src/PerfectPy/api/scheduler.py:275-309 | a falsy key is refused; a bad keyword key is a ValueError; otherwise a GET whose dictionary is `Extended` over the nine assignments, glued on with no `&` |
| `Scheduler.CreateScheduleCall` | src/PerfectPy/api/scheduler.py:28-118 | `createSchedule` end to end: a missing required argument escapes unwrapped with nothing sent; a request goes out exactly when the required arguments are truthy and every keyword key has two characters; its outcome is wrapped with "create schedule API call" |
| `Scheduler.GetScheduledExcutionsCall` | src/PerfectPy/api/scheduler.py:121-156 | `getScheduledExcutions` end to end with the corrected `send_get`: always sent; its outcome wrapped with "list scheduled executions API call" |
| `Scheduler.GetExecutionInfoCall` | src/PerfectPy/api/scheduler.py:159-197 | `getExecutionInfo` end to end: a falsy key escapes unwrapped; otherwise the info GET is sent and its outcome wrapped with "Excecution info API call" |
| `Scheduler.DeleteScheduledExecutionCall` | src/PerfectPy/api/scheduler.py:200-235 | `deleteScheduledExecution`, the builder as written, end to end with the corrected `send_get`: a truthy owner ends in the unwrapped KeyError with nothing sent; without one the delete GET is sent and its outcome wrapped with "delete scheduled execution" |
| `Scheduler.UpdateScheduledExecutionCall` | src/PerfectPy/api/scheduler.py:238-308 | `updateScheduledExecution` end to end: a falsy key escapes unwrapped; a request goes out exactly when the key is truthy and every keyword key has two characters; its outcome is wrapped with "update scheduled execution API call" |
| `Repository.OverwriteText` | src/PerfectPy/api/repository.py:70 | the text is "true" exactly for `True` itself and "false" for anything else |
| `Repository.AddProperties` | src/PerfectPy/api/repository.py:74-75 | the `property.` update adds exactly the unpacked keys and keeps every other key; ValueError exactly when a property name has other than two characters |
| `Repository.PropertyKeys` | src/PerfectPy/api/repository.py:75 | every `property.` key has ten characters |
| `Repository.UploadItem` | src/PerfectPy/api/repository.py:58-85 | a falsy repository or item key is refused; otherwise a POST of `data` to the upload path, `&`, and a dictionary holding the assignments and the property pairs |
| `Repository.UploadOverwrite` | src/PerfectPy/api/repository.py:69-73 | `overwrite` is sent exactly when truthy, as "true" for `True` and "false" otherwise; `responseFormat` is always sent |
| `Repository.RepositoryList` | src/PerfectPy/api/repository.py:125-145 | as written: refused only when both repository and item key are falsy; otherwise a GET with `&` |
| `Repository.ListWithoutRepository` | src/PerfectPy/api/repository.py:125-127 | a listing with no repository puts `None` into the path |
| `Repository.RepositoryListIntended` | src/PerfectPy/api/repository.py:125-145 | as intended: refused when either is falsy |
| `Repository.DeleteItem` | src/PerfectPy/api/repository.py:178-197 | refused when either is falsy; otherwise a GET of the delete path, `&`, and the reflected dictionary |
| `Repository.CleanupRepository` | src/PerfectPy/api/repository.py:234-258 | refused exactly when the item key is falsy; otherwise a GET of the clean path, `&`, and the reflected dictionary |
| `Repository.CleanupSends` | src/PerfectPy/api/repository.py:238-250 | a clean-up always sends `lastModified.daysToKeep` with its value and never `responseFormat` |
| `Repository.UploadItemCall` | src/PerfectPy/api/repository.py:29-84 | `uploadItem` end to end: a falsy repository or item key escapes unwrapped; the POST is built exactly when they are truthy and every property name has two characters, and goes on the wire as POST carrying `data` exactly when `data` is non-empty; its outcome is wrapped with "upload item API call" |
| `Repository.RepositoryListCall` | src/PerfectPy/api/repository.py:87-144 | `repositoryList`, the builder as written, end to end with the corrected `send_get`: nothing is sent only when both are falsy; otherwise the list GET is sent and its outcome wrapped with "list repository API call" |
| `Repository.DeleteItemCall` | src/PerfectPy/api/repository.py:147-196 | `deleteItem` end to end: a falsy repository or item key escapes unwrapped; otherwise the delete GET is sent and its outcome wrapped with "delete item API call" |
| `Repository.CleanupRepositoryCall` | src/PerfectPy/api/repository.py:199-257 | `cleanupRepository` end to end: a falsy item key escapes unwrapped; otherwise the clean-up GET is sent and its outcome wrapped with "clean up repository API call" |
| `Reservations.IdTexts` | src/PerfectPy/api/reservations.py:46 | one `str()` text per id, in order |
| `Reservations.IdListSplits` | src/PerfectPy/api/reservations.py:46 | the comma-joined id list splits back into the ids' texts when none holds a comma |
| `Reservations.AdminEntry` | src/PerfectPy/api/reservations.py:39-40 | `admin` is assigned exactly when truthy and always as "true" |
| `Reservations.ReservationList` | src/PerfectPy/api/reservations.py:36-61 | always a GET of the list path, `&`, and the reflected dictionary |
| `Reservations.ListSends` | src/PerfectPy/api/reservations.py:39-46 | `admin` is sent exactly when truthy and as "true"; `responseFormat` exactly when it is not "json"; the id list exactly when there are ids, joined by commas |
| `Reservations.ReservationInfo` | src/PerfectPy/api/reservations.py:70-85 | the id is not checked; a GET of the info path, `&`, and the reflected dictionary |
| `Reservations.CreateReservation` | src/PerfectPy/api/reservations.py:119-141 | refused exactly when the ids are empty or the start or end time is falsy (so 0 is refused); otherwise a GET with `&` |
| `Reservations.CreateSends` | src/PerfectPy/api/reservations.py:122-131 | a creation always sends the id list, start and end time with their values, and never `admin` |
| `Reservations.DeleteReservation` | src/PerfectPy/api/reservations.py:155-173 | refused exactly when the id is falsy; otherwise scope and responseFormat are always assigned |
| `Reservations.UpdateReservation` | src/PerfectPy/api/reservations.py:187-213 | refused when the id is falsy, or when all four optional fields are falsy; sent exactly otherwise |
| `Reservations.UpdateChangesSomething` | src/PerfectPy/api/reservations.py:189-201 | an update that is sent carries at least one of the four fields |
| `Reservations.ReservationListCall` | src/PerfectPy/api/reservations.py:27-60 | `reservationList` end to end with the corrected `send_get`: always sent; its outcome wrapped with "reservation list API call" |
| `Reservations.ReservationInfoCall` | src/PerfectPy/api/reservations.py:63-84 | `reservationInfo` end to end with the corrected `send_get`: always sent; its outcome wrapped with "reservation info API call" |
| `Reservations.CreateReservationCall` | src/PerfectPy/api/reservations.py:87-140 | `createReservation` end to end: no ids or a falsy start or end time escapes unwrapped; otherwise the create GET is sent and its outcome wrapped with "create reservation API call" |
| `Reservations.DeleteReservationCall` | src/PerfectPy/api/reservations.py:143-172 | `deleteReservation` end to end: a falsy id escapes unwrapped; otherwise the delete GET is sent and its outcome wrapped with "delete reservation API call" |
| `Reservations.UpdateReservationCall` | src/PerfectPy/api/reservations.py:175-212 | `updateReservation` end to end: either missing-argument error escapes unwrapped; sent exactly otherwise, its outcome wrapped with "update reservation API call" and the closing `'.` |
| `Devices.Texts` | src/PerfectPy/api/devices.py:81 | the filter texts keep the filter names, each holding `str()` of its value |
| `Devices.MoveKeys` | src/PerfectPy/api/devices.py:57-60 | moving a filter removes the short name, adds the target with the moved value and keeps every other filter |
| `Devices.AliasedKeys` | src/PerfectPy/api/devices.py:56-72 | after the renamings, a name is present exactly when it was given and is not an alias, or it is the target of a given alias |
| `Devices.AliasedEmpty` | src/PerfectPy/api/devices.py:56-80 | the renamings leave the filters empty exactly when they were empty |
| `Devices.AliasedValues` | src/PerfectPy/api/devices.py:57-72 | each renamed filter carries the value given under its short name |
| `Devices.TargetsListed` | src/PerfectPy/api/devices.py:19-36 | `operator.name`, `operator.country` and `link.type` are filter names |
| `Devices.FilterCheckIn` | src/PerfectPy/api/devices.py:74-78 | the superset check passes exactly when every filter given is known (both directions) |
| `Devices.FilterCheck` | src/PerfectPy/api/devices.py:12-37 | the same check against the handset list's 24 filter names |
| `Devices.ListWith` | src/PerfectPy/api/devices.py:56-83 | the renamings in place, then: an unknown filter fails inside the try; no filters gives the bare path; otherwise a GET of the path, `&`, and the renamed filters |
| `Devices.ListDevices` | src/PerfectPy/api/devices.py:56-90 | as written: fails exactly when some filter is unknown, and always when `code` is given |
| `Devices.ListDevicesIntended` | src/PerfectPy/api/devices.py:56-90 | as intended (`code` to `operator.code`): fails exactly when some filter is unknown |
| `Devices.AliasesKnown` | src/PerfectPy/api/devices.py:65-68 | every short name is accepted when `code` goes to `operator.code`; as written, all but `code` are |
| `Devices.AdminQuery` | src/PerfectPy/api/devices.py:98-100 | the bare path when `admin` is falsy; otherwise the path, `&`, and exactly `admin=<str(admin)>` |
| `Devices.DeviceInfo` | src/PerfectPy/api/devices.py:97-108 | the id is not checked; `AdminQuery` on the info path |
| `Devices.ReleaseDevice` | src/PerfectPy/api/devices.py:152-163 | the id is not checked; `AdminQuery` on the release path |
| `Devices.UpdateDevice` | src/PerfectPy/api/devices.py:121-142 | a missing description and roles fails first, then a falsy id, both inside the try; sent exactly otherwise, with the reflected dictionary |
| `Devices.RolesSplit` | src/PerfectPy/api/devices.py:130-131 | the roles sent split back on `,` into the roles given, when none holds a comma |
| `Devices.ListDevicesCall` | src/PerfectPy/api/devices.py:49-89 | `listDevices`, the builder as written, end to end with the corrected `send_get`: nothing is sent exactly when some filter is unknown (always when `code` is given), and then the unknown-filter error comes out wrapped with "listDevices API call"; otherwise the outcome is wrapped with that label |
| `Devices.DeviceInfoCall` | src/PerfectPy/api/devices.py:92-107 | `deviceInfo` end to end with the corrected `send_get`: always sent to the info path; its outcome wrapped with "deviceInfo API call" |
| `Devices.UpdateDeviceCall` | src/PerfectPy/api/devices.py:110-141 | `updateDevice` end to end: both missing-argument errors come out wrapped with "updateDevice" and nothing sent; sent exactly otherwise |
| `Devices.ReleaseDeviceCall` | src/PerfectPy/api/devices.py:144-162 | `releaseDevice` end to end with the corrected `send_get`: always sent to the release path; its outcome wrapped with "relase device API call" |
| `Reporting.GetExecutionReport` | src/PerfectPy/api/reporting.py:34-51 | refused exactly when the report key is falsy; otherwise a GET of the download path with the reflected dictionary appended with no `&` |
| `Reporting.GetReportAttachmentList` | src/PerfectPy/api/reporting.py:81-100 | refused exactly when the report key is falsy; with no type, owner or admin the URI is the bare path |
| `Reporting.GetExecutionReportAttachment` | src/PerfectPy/api/reporting.py:132-150 | as written: never sends; the required-argument error when one is falsy, otherwise AttributeError from `log.degug` |
| `Reporting.GetExecutionReportAttachmentIntended` | src/PerfectPy/api/reporting.py:132-150 | as intended: refused exactly when one is falsy; otherwise a GET with `reportType` as the operation and `attachment` always sent |
| `Reporting.GetExecutionReportCall` | src/PerfectPy/api/reporting.py:24-50 | `getExecutionReport` end to end: a falsy report key escapes unwrapped; otherwise the download GET is sent and its outcome wrapped with "get execution report API call" |
| `Reporting.GetReportAttachmentListCall` | src/PerfectPy/api/reporting.py:53-99 | `getReportAttachmentList` end to end: a falsy report key escapes unwrapped; otherwise the attachments GET is sent and its outcome wrapped with "report log attachment list API call" |
| `Reporting.GetExecutionReportAttachmentCall` | src/PerfectPy/api/reporting.py:102-149 | `getExecutionReportAttachment` as written, end to end: nothing is ever sent; the required-argument error or the AttributeError escapes unwrapped |
| `Reporting.GetExecutionReportAttachmentIntendedCall` | src/PerfectPy/api/reporting.py:102-149 | as intended, end to end: a falsy argument escapes unwrapped; otherwise the download is sent and its outcome wrapped with "download execution report API call" |

## Left out

- Logging is not modelled: `CustomLogging`, `loggingSetup`, the module-level logger and every `log.*` call except the misspelt one. These are global handler state and file I/O.
- The network call, `HTTPError.read()`, `json.loads` and the XML converter are inputs (`Api.Env`). The model states what follows from each answer and which parser is tried first.
- Python's `str()` of a decoded list or dictionary is an input (`Env.show`), because its key order is unspecified.
- `timeMilis` is not modelled: it reads the wall clock and rounds floats.
- Python 2 `str`/`unicode` coercion is not modelled. Py.Str and `Query.QuotePlus` pass a character above 127 through. In Python 2, `urlencode` first computes `str(v)` (`Py.Str`), which raises UnicodeEncodeError for such a character before `quote_plus` runs. `quote_plus` on a byte string percent-encodes bytes of 128 and above.
- Values are modelled as None, string, integer or bool (`Py.Val`); other Python objects passed as arguments are not.
- Decoded response bodies (`Py.PyData`) have no float case, although `json.loads` returns a float for a body such as `1.5` or `{"n": 0.5}`. Api.ErrorDetail therefore does not cover an HTTP error whose body is a float: `'error' in <float>` raises a TypeError, and `0.0` is falsy and takes the fallback detail.
- Api.ErrorDetail: the TypeError texts for a body that is not a dictionary of strings follow CPython 2.7's wording, but only the exception kind is stated in the contract.
- Api.APIClient.SendGetAsWritten: states only that a TypeError is raised, not its exact text.
- Reporting.GetExecutionReportAttachment: the AttributeError text names the logger class; the dictionary and URI built before the failing call are not part of the result, since they are never used.
- Reservations.ListSends, Reservations.ReservationList and Reservations.ReservationListCall: `responseFormat is not "json"` (reservations.py:41) is an identity test. With `unicode_literals`, CPython 2.7 does not intern the two unicode constants, so the test very likely always holds and `responseFormat` is always sent. The model uses inequality of values, the evidently intended reading.
- A string passed as `resourceIds` or `resourceIDs`, or as the `roles` of `updateDevice` (devices.py:130-131), is not modelled. Python iterates a string character by character, so `",".join` would join its characters. The model takes sequences of values or strings.
- POST payloads are byte strings, never None: `send_post(uri, None)` would raise a TypeError from `len(None)`, and that path is not modelled.
- Every argument is passed explicitly: the Python defaults (`scope="remaining"`, `responseFormat="json"`, `admin=False`, …) are not modelled.
- Positional `parameters` elements that are not two-element tuples are not modelled; they would raise while unpacking.
- `urlencode` makes no key-order claim: each URI is some ordering of the pairs.
- Each operation's straight-line assignments are modelled as one loop (`Params.Assign`) over its list of guarded assignments, instead of separate statements.
- The exception's `e.message` is modelled as the message the exception was created with.

## Findings

| source | as written | input that shows it | evidently intended | confidence | as-written member | corrected member |
|---|---|---|---|---|---|---|
| src/PerfectPy/api/__init__.py:123 | `send_get` passes `'GET', uri, None, None` to `__send_request(self, method, uri, data)` | any GET, e.g. `Scheduler.getScheduledExcutions()` | `self.__send_request('GET', uri, None)` | high; not executed | `Api.APIClient.SendGetAsWritten`, `Api.APIBase.CallAsWritten` | `Api.APIClient.SendGet`, `Api.APIBase.Call` |
| src/PerfectPy/api/scheduler.py:223-224 | `params["owner"]` reads the key from the empty dictionary | `deleteScheduledExecution("PRIVATE:s", owner="u")` raises KeyError('owner') | `params["owner"] = owner` | high; not executed | `Scheduler.DeleteScheduledExecution` | `Scheduler.DeleteScheduledExecutionIntended` |
| src/PerfectPy/api/repository.py:125 | `if not repository and not itemKey` | `repositoryList(None, "k")` is sent with `None` in the path (`Repository.ListWithoutRepository`) | `or`, as in `deleteItem` and the error message | high; not executed | `Repository.RepositoryList` | `Repository.RepositoryListIntended` |
| src/PerfectPy/api/devices.py:65-68 | `code` is renamed to `country.code`, which is not a filter name | `listDevices(code="310")` always fails the filter check | `operator.code`, the filter listed at line 21 | medium; not executed | `Devices.ListDevices` | `Devices.ListDevicesIntended` |
| src/PerfectPy/api/reporting.py:143 | `log.degug(...)` outside the try block | any call with all three required arguments raises AttributeError | `log.debug(...)` | high; not executed | `Reporting.GetExecutionReportAttachment` | `Reporting.GetExecutionReportAttachmentIntended` |
