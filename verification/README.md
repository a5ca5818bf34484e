# Game tips service — a Dafny model

This project models the core of a small JSON service over a document store
that holds games, experience levels, tips and reports. Players can read
tips, like them and report them. The model covers three parts:

- the entity schemas and identifier validation (`models.py`);
- the request handlers (`game-tip-service.py`), each a pure function from the
  store before a request and the request's inputs to the store after it and
  the response or error;
- the object hook of the restore tool (`tools/load-db-from-dump.py`), which
  turns identifier-like strings back into identifiers, and the dump tool's
  identifier encoding (`tools/dump-db-data.py`) that it is meant to undo.

Modules, one per file:

- `Wrappers` (`wrappers.dfy`): `Option` and `Result`.
- `Errors` (`errors.dfy`): the errors a request can end in.
- `ObjectIds` (`object_ids.dfy`): identifiers, held as their canonical text of 24 lower-case hex digits.
- `Documents` (`documents.dfy`): field values, documents, and equality / `$in` filters.
- `Models` (`models.dfy`): entity schemas. It holds the validators, the `Reason` label table and the JSON encoders.
- `Gateway` (`gateway.dfy`): the store as a `map` from collection name to documents keyed by `_id`, with find-one, find, insert and increment.
- `Handlers` (`handlers.dfy`): the endpoints.
- `ImportHook` (`import_hook.dfy`): the restore hook and the export encoding.

The store is a value, and the handlers return `Reply(store, result)`, so
"nothing else changes" is stated as an equation on stores. A malformed
identifier gives `Reply(st, Failure(InvalidId(raw)))`. That value holds
whatever store is passed in, so such a request never reads or writes the store.
No HTTP status is claimed for this error, because the code never catches the
identifier constructor's exception. Fresh identifiers come from the store or
from a model's default factory. They are a `freshId` parameter.

Points of the code worth knowing:

- The identifier constructor accepts 24 hex digits of either case and prints
  them in lower case, so a path parameter in upper case finds the same
  document. The restore hook converts only lower-case strings.
- A game's `title` is a plain string in the schema. No non-empty check is made.
- `report_tip` stores the report in its JSON form, so its `_id` and `tip_id`
  are stored as TEXT, not as identifiers. See Findings.

## Model

| member | source | states |
|---|---|---|
| ObjectIds.Parse | models.py:11-12 | a string names an identifier iff it is 24 hex digits (either case); the identifier is its lower-case spelling, so canonical text is kept as is |
| ObjectIds.ToString | models.py:18 | an identifier prints as 24 lower-case hex digits that parse back to the same identifier |
| ObjectIds.ToStringInjective | models.py:18 | two identifiers print alike iff they are equal |
| ObjectIds.CanonicalRoundTrip | models.py:11-12 | a 24-digit lower-case hex string is accepted, and printing the identifier gives back the same string |
| Models.ValidateObjectId | models.py:8-13 | an identifier is returned unchanged; a string is accepted iff it is 24 hex digits, naming the identifier with that (lower-cased) text; any other value is rejected |
| Models.SerializeId | models.py:15-20 | an identifier serializes as a plain string, canonical, that validates back to the same identifier |
| Models.ParseReason | models.py:52-55 | only a string equal to one of the labels is accepted, and it decodes to the reason carrying that label |
| Models.ReasonLabelsDecode | models.py:52-55 | the label table is injective and every label decodes back to its reason |
| Models.ValidateGame | models.py:22-27 | a game validates iff its `_id` (or the default id) and its string fields are acceptable; on success the fields come from the document; on failure exactly the bad fields are named |
| Models.ValidateExperienceLevel | models.py:30-36 | an experience level needs an integer `_id` and three strings; on failure exactly the bad fields are named |
| Models.ValidateTip | models.py:39-48 | a tip validates only with `1 <= experience_id < 4` and `likes >= 0`; an out-of-range or missing value is named in the error; on success every field comes from the document |
| Models.TipErrorsNameRejectedFields | models.py:39-48 | a rejected tip names each of its other failing fields, and only those |
| Models.ValidateReport | models.py:51-62 | a report validates iff its ids are identifiers, its reason is a label and its description a string; the reason kept is the one whose label was submitted |
| Models.EncodeGame | models.py:15-20 | the JSON form of a game has exactly its three fields and no identifier value: ids are plain strings |
| Models.EncodeExperienceLevel | models.py:30-34 | the JSON form of a level has exactly its four fields, none an identifier |
| Models.EncodeTip | models.py:39-46 | the JSON form of a tip has exactly its seven fields and every identifier as a string |
| Models.EncodeReport | models.py:57-60 | the JSON form of a report has its four fields, the tip id as text and the reason as its label |
| Models.GameRoundTrip | models.py:22-25 | an encoded game validates back to the same game |
| Models.ExperienceLevelRoundTrip | models.py:30-34 | an encoded level validates back to the same level |
| Models.TipRoundTrip | models.py:39-46 | an encoded tip validates back to itself iff it meets the range constraints |
| Models.ReportRoundTrip | models.py:51-60 | an encoded report validates back to the same report |
| Gateway.FindById | game-tip-service.py:38 | find-one by `_id` returns the stored document or nothing, and in a well-formed store the document carries that `_id` |
| Gateway.Find | game-tip-service.py:64 | find returns exactly the stored documents matching every filter entry; the empty filter returns the whole collection |
| Gateway.FindByIdIsFilterOnId | game-tip-service.py:48 | in a well-formed store, lookup by key equals filtering on `_id` |
| Gateway.InsertOne | game-tip-service.py:105 | insert files the document under its `_id` and reports it; a taken `_id` is refused with nothing written; well-formedness is kept |
| Gateway.IncrementOne | game-tip-service.py:74 | `$inc` on an absent id modifies nothing; otherwise it adds `delta` to the integer field (missing counts as 0) and changes nothing else |
| Handlers.ParamId | game-tip-service.py:48 | a parameter is accepted iff it is 24 hex digits; otherwise the invalid-id error carrying the raw text |
| Handlers.GetExperienceLevel | game-tip-service.py:36-39 | returns the stored level for that integer id or null, never an error, store unchanged |
| Handlers.GetAllGames | game-tip-service.py:41-44 | returns every stored game, store unchanged |
| Handlers.GetGame | game-tip-service.py:46-49 | a malformed id is rejected before any store access; otherwise the stored game or null, store unchanged |
| Handlers.GetTip | game-tip-service.py:67-70 | a malformed id is rejected before any store access; otherwise the stored tip or null, store unchanged |
| Handlers.TipsFilter | game-tip-service.py:53-62 | the filter has `game_id` iff game_id is given and non-empty, `experience_id` iff experience is given and non-zero, `spoiler_free` iff it is true; a malformed game_id is an error |
| Handlers.GetTips | game-tip-service.py:51-65 | returns exactly the stored tips matching every filter entry, store unchanged; a malformed game_id is rejected before any store access |
| Handlers.FilterMatchesSelected | game-tip-service.py:53-62 | a tip matches the built filter iff it meets, field by field, every supplied truthy parameter |
| Handlers.GetTipsReturnsSelected | game-tip-service.py:53-65 | GET /tips returns a stored tip iff it is of the given game, at the given level and spoiler-free when asked (intersection) |
| Handlers.SpoilerFreeFalseIsOmitted | game-tip-service.py:61-62 | `spoiler_free=false` and an omitted `spoiler_free` give the same filter and the same reply |
| Handlers.AddLikeToTip | game-tip-service.py:72-84 | malformed id: rejected before store access; absent tip: not-modified error, store unchanged; existing tip: likes plus one, tip returned as stored |
| Handlers.LikeNeverNotFound | game-tip-service.py:80-84 | the not-found branch after a successful increment is never taken |
| Handlers.LikeIncrementsByOne | game-tip-service.py:74-82 | liking a tip with `n` likes returns it with `n + 1`, all its other fields, all other tips and all other collections unchanged |
| Handlers.LikeTwice | game-tip-service.py:74-82 | two likes in a row add exactly two |
| Handlers.LikesNeverDecrease | game-tip-service.py:74 | a like never lowers any tip's like count, and raises it by at most one |
| Handlers.LikeExample | game-tip-service.py:72-82 | a tip with 3 likes, liked once, is returned with 4 |
| Handlers.ReportsFilter | game-tip-service.py:89-91 | a given tip_id filters on that tip, matching its identifier or its text; an empty or absent one filters on nothing |
| Handlers.GetAllReports | game-tip-service.py:86-94 | returns every report, or exactly the reports whose `tip_id` names the given tip, store unchanged (corrected filter) |
| Handlers.GetAllReportsAsWritten | game-tip-service.py:86-94 | as written: with a tip_id, returns exactly the reports whose `tip_id` equals that identifier |
| Handlers.ReportTip | game-tip-service.py:96-112 | invalid body: validation error, store unchanged; unknown tip: unprocessable, store unchanged; else the report's JSON form is inserted once under its `_id` and returned |
| Handlers.ReportAddsExactlyOne | game-tip-service.py:104-110 | reporting an existing tip adds exactly one report, changes no other collection, and returns the submitted tip id, reason label and description |
| Handlers.ReportUnknownTipInsertsNothing | game-tip-service.py:99-101 | reporting an unknown tip fails as unprocessable and leaves the store unchanged |
| Handlers.ReportUnknownTipExample | game-tip-service.py:99-101 | a report for tip `000000000000000000000000` against an empty store is refused as unprocessable |
| Handlers.FiledReportMissedAsWritten | game-tip-service.py:89-93 | as written, a report filed for tip T is never listed by GET /reports?tip_id=T |
| Handlers.FiledReportListed | game-tip-service.py:89-93 | with the corrected filter, a report filed for tip T is listed by GET /reports?tip_id=T, as stored |
| Handlers.WritesPreserveWellFormed | game-tip-service.py:72-112 | liking and reporting keep every stored document filed under its own `_id` |
| ImportHook.ConvertValue | tools/load-db-from-dump.py:12-14 | a value is converted iff it is a string of 24 characters from `0123456789abcdef`, into the identifier with that text; the result never looks like an id |
| ImportHook.ObjectHook | tools/load-db-from-dump.py:7-15 | the hook keeps the key set; a value changes iff it is an identifier-like string, and becomes that identifier |
| ImportHook.ApplyHook | tools/load-db-from-dump.py:10-15 | the in-place loop over the items computes the hook |
| ImportHook.HookIdempotent | tools/load-db-from-dump.py:12-14 | applying the hook twice equals applying it once |
| ImportHook.HookIsShallow | tools/load-db-from-dump.py:10-12 | list values are left unchanged, identifier-like strings inside them included |
| ImportHook.ExportValue | tools/dump-db-data.py:11-12 | the dump encoder leaves no identifier anywhere in a value |
| ImportHook.ExportDocument | tools/dump-db-data.py:11-12 | an exported document has the same keys and no identifier field |
| ImportHook.ExportFixesIdFree | tools/dump-db-data.py:11-12 | export leaves a value unchanged iff it holds no identifier |
| ImportHook.ImportAfterExport | tools/load-db-from-dump.py:12-14 | import after export restores a value iff it is an identifier, or holds none and is not an identifier-like string |
| ImportHook.ImportAfterExportDocument | tools/load-db-from-dump.py:7-15 | import after export is the identity on a document iff every field survives the round trip |
| ImportHook.HexLookingTextIsConverted | tools/load-db-from-dump.py:12-14 | an ordinary text field of 24 lower-case hex digits does not survive export then import |
| ImportHook.ListedIdComesBackAsText | tools/load-db-from-dump.py:10-12 | an identifier inside a list is exported as text and stays text on import |

## Left out

- Process start-up and shut-down (game-tip-service.py:18-34): connecting, the liveness ping and its logging are I/O.
- `GET /` (game-tip-service.py:14-16): it returns a constant message.
- Generating fresh identifiers: a `freshId` parameter stands in for the default factory and for the store.
- The identifier library's other inputs: 12-byte values, and the whitespace that hex decoding skips inside a 24-character string.
- HTTP status codes, the detail messages and FastAPI's response-model validation and coercion: handlers return the stored document as it is.
- Pydantic's lax coercions (numeric strings to integers, and the like): a field is accepted only with a value of its declared type.
- The database's matching of a scalar filter against array fields, and its int32/int64 widths: filters compare whole values, and integers are unbounded.
- Atomicity of the increment under concurrent requests: the model is sequential.
- Floating-point values: `Value` has no double case, so a like count stored as a double (which `$inc` still increments) and numeric matching across types (a filter on `experience_id: 2` matching a stored `2.0`) are not modelled.
- Nested sub-documents, and the JSON decoder applying the hook to every nested object: no entity has one, and the hook itself is shallow.
- The dump and restore scripts' file reading, wiping and inserting (tools/load-db-from-dump.py:18-44), and `example.py`, a smoke-test client.

## Findings

| source | as written | input that shows it | evidently intended | confidence | as-written member | corrected member |
|---|---|---|---|---|---|---|
| game-tip-service.py:89-93 | GET /reports filters `tip_id` by equality with an identifier, but POST /reports stores `tip_id` as text (its JSON form) | report tip T via POST /reports, then GET /reports?tip_id=T | the reports filed for T are listed; the corrected filter accepts `tip_id` stored as identifier or as text | medium, not executed | Handlers.FiledReportMissedAsWritten | Handlers.FiledReportListed |
