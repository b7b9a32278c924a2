# colors: a Dafny model of the color catalog service

The colors service is a small HTTP service. It serves a fixed catalog of eight
named terminal colors, each with a foreground and a background escape code.
Every route body returns a `RichStatus` envelope: an ok/failure flag plus an
`info` map that always carries `hostname`, `time` and `version`. A shared
decorator, `standard_handler`, turns that envelope into the HTTP response:

- a raised exception becomes a failure envelope;
- the `x-colors-session` and `x-authenticated-as` headers are copied into the body;
- the status code is 200, the envelope's `status_code`, or 500;
- the session header is echoed back.

This project models that logic as pure Dafny functions and proves what a
client can rely on. It has six modules:

- `Wrappers` (`wrappers.dfy`): the `Option` type.
- `Catalog` (`catalog.dfy`): the `ColorRecord` datatype, the constant `Colors` table and the first-match name lookup.
- `Status` (`status.dfy`): the `Value` type of JSON field values and the `RichStatus` envelope with its constructor, `OK`, `FromError` and `ToDict`. `FromDict` reads a flattened dictionary back, so flattening can be shown to lose nothing.
- `Handler` (`handler.dfy`): the `standard_handler` wrapper as the pure function `Wrap`. It maps a handler outcome and a request to a `Response` of body, status code and optional echoed session header.
- `Routes` (`routes.dfy`): the bodies of `health`, `statement`, `specific_color`, `color_bg` and `color_fg`. `LastSegment` models `request.path.rsplit('/', 1)[-1]`.
- `Service` (`service.dfy`): each endpoint's body run through `Wrap`, with the end-to-end properties a client observes: status codes, mandatory fields, the session echo and concrete replies for `/red`, `/purple` and `/blue/fg`.

Inputs the source reads from the environment are parameters:

- the `HOSTNAME` environment value is `host: Option<string>` and becomes `Null` when unset;
- the `datetime.now().isoformat()` reading is `now: string`;
- the `random.choice` index is `choice`, required to lie in `[0, |Colors|)`;
- the request is its method (`verb`), its path and the two optional headers.

A header counts as given only when present and non-empty, as Python's `if session:` decides.

Two details of the code that the model keeps as written:

- The status code is copied verbatim from the envelope's `status_code` field (`code = rc.status_code`), so `Response.code` is a `Value` and not an `int`. Every route puts an integer there.
- Both `/<name>/bg` and `/<name>/fg` put their code under the key `fg`. The model keeps that key for both routes.

## Model

| member | source | states |
|---|---|---|
| Catalog.FindFrom | colors/colors.py:170 | the scan from `from` returns the first index at or after `from` whose record's name equals the query; None exactly when no record from there on matches |
| Catalog.Lookup | colors/colors.py:170 | lookup over the catalog returns the smallest index whose name equals the query (exact, case-sensitive); None iff no record has that name |
| Catalog.CatalogNamesDistinct | colors/colors.py:24-33 | the eight catalog names are pairwise distinct |
| Catalog.LookupFindsIndex | colors/colors.py:24-33 | looking up the name of the record at index i returns exactly i, so a match is unique |
| Status.ToDict | colors/colors.py:68-74 | the flattened dict has exactly the info keys plus `ok`; every info value is copied; `ok` holds the flag unless info has its own `ok` |
| Status.FromDict | colors/colors.py:68-74 | a dict with a boolean `ok` reads back as an envelope with that flag and the remaining entries; any other dict is rejected |
| Status.ToDictRoundTrip | colors/colors.py:68-74 | flattening loses nothing: reading back the dict of an envelope without an `ok` info field gives the envelope |
| Status.Make | colors/colors.py:38-43 | the constructor keeps the flag and the caller's fields, adds `hostname`, `time` and `version` over same-named caller fields, and adds no other key |
| Status.Truthy | colors/colors.py:50-51 | the envelope's truth value is its flag, the value its flattened dict reports under `ok` (Python 3 semantics) |
| Status.Contains | colors/colors.py:56-57 | membership asks `info`, not the flag: `ok` is a member only if `info` has its own `ok`; any other key is a member iff the flattened dict has it |
| Status.MakeDictHasSystemFields | colors/colors.py:38-43 | the dict of any constructed envelope holds `ok` with the flag plus the host, time and version values |
| Status.OK | colors/colors.py:81-83 | `OK` builds a success envelope holding the caller's non-system fields and nothing else, with `hostname` the host (null when unset), `time` the current time and `version` "1.4" |
| Status.FromError | colors/colors.py:76-79 | `fromError` builds a failure envelope whose `error` is the message, keeping the caller's other fields, with `hostname` the host (null when unset), `time` the current time and `version` "1.4" |
| Handler.Settle | colors/colors.py:97-101 | a returned envelope is used as is; an exception becomes a failure whose keys are exactly `error` ("<func>: <method> <path> failed: <e>"), `hostname`, `time` and `version`, the last three holding the host, the time and "1.4" |
| Handler.Wrap | colors/colors.py:103-123 | code is 200 on ok, else the envelope's `status_code` if present, else 500 (an exception always 500); a given session is put in the body and echoed as a header; a given username goes in the body only; every other field is unchanged |
| Handler.HeadersOnlyAddFields | colors/colors.py:107-111 | with or without the headers the code and every field other than `session`/`username` are the same, and no header is echoed without a session |
| Handler.WrapKeepsField | colors/colors.py:113-119 | a returned envelope's field other than `session`/`username` reaches the body unchanged, and an ok envelope gets 200 |
| Handler.WrapKeepsSystemFields | colors/colors.py:119 | every wrapped body of an envelope stamped with host and time carries `ok` with the flag, and `hostname`, `time` and `version` holding the host, the time and "1.4" |
| Routes.LastSlashBefore | colors/colors.py:188 | the position of the rightmost '/' before n, None iff there is none |
| Routes.LastSegment | colors/colors.py:188 | `rsplit('/', 1)[-1]`: the result is a suffix of the path with no '/', and either it is the whole path or a '/' precedes it |
| Routes.LastSegmentAfterSlash | colors/colors.py:188 | for any prefix, the last segment of prefix + "/" + seg is seg whenever seg has no '/' |
| Routes.NoColor | colors/colors.py:171-172 | the unknown-name failure has `ok` false, `error` "no color " + name and `status_code` 400, and no other caller field |
| Routes.Health | colors/colors.py:143-144 | the health body is a success carrying the fixed message and no error |
| Routes.Statement | colors/colors.py:152-155 | for any index in range the random route succeeds with `idx` equal to the index and `color` equal to that record's name, and no other caller field |
| Routes.SpecificColor | colors/colors.py:169-174 | success iff the name is in the catalog; on success `color` is a catalog record whose name is the query; otherwise the 400 failure |
| Routes.CodeReply | colors/colors.py:188 | the code routes' success body has `color`, `path` and `fg` set to the name, segment and code, and no other caller field |
| Routes.ColorBg | colors/colors.py:183-188 | success iff the name is known; on success `color` is the name, `path` the last path segment and `fg` the record's background code; otherwise the 400 failure |
| Routes.ColorFg | colors/colors.py:197-202 | as ColorBg with the record's foreground code under `fg` |
| Routes.KnownColorReplies | colors/colors.py:167-202 | on the name of record i, `/<name>` returns record i and the code routes return exactly record i's background and foreground codes |
| Service.Handle | colors/colors.py:141-202 | every route body is stamped with the host, the time and version "1.4"; it fails exactly for an unknown color; it carries `error` iff it fails; a failure has `status_code` 400 |
| Service.Serve | colors/colors.py:141-202 | each route decorated with `@standard_handler` (lines 142, 151, 168, 182, 196): the code is 200 or 400, and 400 exactly for an unknown color; the session header is echoed iff given. None of the five route bodies raises, so the wrapper always receives a returned envelope |
| Service.ServeShape | colors/colors.py:103-125 | every response has code 200, or 400 exactly for an unknown color; its body has `ok`, and `hostname`, `time` and `version` holding the host, the time and "1.4"; `error` appears iff ok is false; a given session is echoed |
| Service.UnknownColorReplies | colors/colors.py:113-117 | an unknown name on `/<name>`, `/<name>/bg` or `/<name>/fg` gives code 400, ok false, error "no color " + name and `status_code` 400 |
| Service.KnownColorReply | colors/colors.py:174 | a known name on `/<name>` gives code 200 and `color` equal to the full catalog record of that name |
| Service.RoutedSegment | colors/colors.py:188 | on a path `/<name>/bg` or `/<name>/fg` the last segment is the literal "bg" or "fg" |
| Service.CodeReplyServed | colors/colors.py:188 | a code-route success body comes through the wrapper with code 200 and its `color`, `path` and `fg` intact |
| Service.BgRouteReply | colors/colors.py:181-188 | `/<name>/bg` for a known name gives 200, `color` = name, `path` = "bg", `fg` = its background code |
| Service.FgRouteReply | colors/colors.py:195-202 | `/<name>/fg` for a known name gives 200, `color` = name, `path` = "fg", `fg` = its foreground code |
| Service.RandomReply | colors/colors.py:150-155 | `/` with any index in range gives 200, `idx` = the index, `color` = that record's name |
| Service.RedExample | colors/colors.py:26 | `/red` gives 200 with `color` = {red, 31, 41} |
| Service.PurpleIsUnknown | colors/colors.py:24-33 | no catalog record is called "purple" |
| Service.PurpleExample | colors/colors.py:171-172 | `/purple` gives 400 with error "no color purple" |
| Service.BlueFgExample | colors/colors.py:195-202 | `/blue/fg` gives 200 with `color` "blue", `path` "fg" and 34 under `fg` |

## Left out

- Flask routing, `jsonify`, `request` and `Response`: the router's choice of endpoint is the `Endpoint` value. The request is its method, path and headers. The response is a body map, a code and an optional header. JSON key order is not significant and is not modelled.
- `/crash` (`os.kill`, `time.sleep`, signals), `main` and `app.run`: process control and I/O. `crash` never returns an envelope, and the wrapper's behaviour on a non-envelope return value is not modelled.
- `logging` calls, `RichStatus.__str__` and `__getattr__`: diagnostics and attribute sugar. The model reads `info` directly.
- `__nonzero__` (colors/colors.py:53-54): the model assumes Python 3, where truth testing calls `__bool__`. Under Python 2, `__nonzero__` returns `bool(self)`, which calls `__nonzero__` again, until CPython 2 stops at its recursion limit with `RuntimeError`. That error escapes the wrapper because `if not rc:` (line 113) lies outside the `try`, so Flask answers with its own 500 page instead of a JSON envelope. Python 2 behaviour is not modelled.
- `in_dict` (colors/colors.py:129-133): no route calls it.
- The wrapper's initial `rc = RichStatus.fromError("impossible error")` is always overwritten before it is read, so it is not modelled.
- The `HOSTNAME` environment read, the clock and `random.choice` are parameters, as described above.
- Status.Make: requires that `ok` is not among the keyword fields. In Python such a call raises `TypeError` (the keyword collides with the positional `ok`) before any envelope exists. Status.OK and Status.FromError inherit this requirement. `self` collides in the same way and is not modelled.
- Status.FromError: accepts an `error` keyword field and overwrites it with the message. In Python, `fromError(msg, error=...)` raises `TypeError` (the keyword collides with the positional `error`), so no envelope exists. The model's result for that call has no counterpart in the source. No route passes such a keyword.
