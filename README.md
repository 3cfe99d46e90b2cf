# Guestbook HTTP handler — Dafny model

A model of the request handler of a small guestbook web server (`main.py`).
The handler renders two pages (`/` and `/message`), serves other paths as
static files when they name an existing regular file, answers everything else
with the `error.html` page and status 404, and accepts form submissions
posted to `/message`. Each submission is stored as
`{timestamp: {"username": ..., "message": ...}}` in the JSON document
`storage/data.json`: the whole document is loaded (or started as `{}` when
the file does not exist), updated with the new entry, and written back.

The model has five modules:

- `Routing` — the routing decision of `do_GET` and `do_POST` as a pure
  function `Dispatch` of the method, the raw request target and an oracle
  `isFile` standing for `Path(p).exists() and Path(p).is_file()`. GET routes
  on the path component of the target (`UrlPath`, the `path` of
  `urlparse`), POST compares the raw target itself, so `POST /message?x=1`
  is answered with 404 while `GET /message?x=1` renders the form.
- `StaticFiles` — the content-type table of `send_static_file`.
- `Forms` — reading the first value of a field of the parsed form body.
- `Records` — the document as `map<string, Entry>`, the update
  `data.update({ts: entry})` as `Updated`, and the backing file as the field
  of the class `RecordStore`, whose `Append` method is the load / update /
  rewrite cycle. `Replay` applies a run of submissions in order, which is
  what successive `Append` calls leave in the file (`AppendRun`); lemmas
  about it state what several submissions leave in the document.
- `Handler` — `Handle`, one request end to end: dispatch, the store update
  for an accepted submission, and the response sent back.

No path confinement is modelled because the handler has none: the file
system is asked for the request path minus its first character
(`Routing.NoConfinement`). No locking is modelled either; `Append` is one
sequential read-modify-write.

## Model

| member | source | states |
|---|---|---|
| `Routing.Dispatch` | main.py:15-30 | GET on path `/` renders index.html (200) and on `/message` message.html (200), each if and only if; a static file is served exactly when the GET path is neither of those and the oracle says its stripped form is a regular file; a submission is accepted exactly for POST with the raw target `/message`; every other request gets error.html with 404, since the only pages ever rendered are index.html, message.html and error.html |
| `Routing.UrlPath` | main.py:16 | the routed path is a prefix of the request target containing no `?` or `#`; where it stops short, the next character is `?`, `#`, or a `;` with no `/` between it and the query; parameters are cut at the first `;` after the last `/` before the query, and no earlier |
| `Routing.StripParams` | main.py:16 | the cut is at the first `;` of the last path segment, and nothing is cut when that segment has no `;` |
| `Routing.StaticPath` | main.py:22 | the file looked up is the path with exactly its first character removed (empty for the empty path) |
| `Routing.UrlPathOfPlain` | main.py:16 | a target without `?`, `#` or `;` is routed on itself |
| `Routing.UrlPathIgnoresQuery` | main.py:16 | anything after the first `?` or `#` does not change the routed path: it is the routed path of the part before that character, `;` parameters included |
| `Routing.IndexWithAnyQuery` | main.py:16-18 | GET `/` and GET `/?q`, for every query `q`, render index.html with 200 |
| `Routing.PostWithQueryIsNotAccepted` | main.py:19-30 | for every query `q`, GET `/message?q` renders message.html but POST `/message?q` gets error.html with 404 |
| `Routing.MessageWithParams` | main.py:16-20 | GET `/message;x`, for any `x` without `/`, `?` or `#`, renders message.html with 200 |
| `Routing.PostElsewhereIsNotFound` | main.py:29-30 | a POST to any target other than exactly `/message` gets error.html with 404 |
| `Routing.UnknownGetIsNotFound` | main.py:21-26 | a GET path other than `/` and `/message` whose stripped form is not a regular file gets error.html with 404 |
| `Routing.NoConfinement` | main.py:22-24 | for GET `/rest` the file asked for is `rest` verbatim, traversal segments included |
| `StaticFiles.ContentType` | main.py:76-84 | a suffix in the table gets its listed type; every other suffix, and only those, gets `application/octet-stream` |
| `StaticFiles.UnlistedSuffixes` | main.py:77-84 | `.jpeg`, `.CSS` and the empty suffix fall back to `application/octet-stream` |
| `Forms.FormField` | main.py:35-36 | a present field yields its first value, an absent one the empty string |
| `Forms.FirstValueWins` | main.py:35 | later values of a repeated field are ignored |
| `Records.Updated` | main.py:52 | the new timestamp maps to the new entry, every other key keeps its value, the keys grow by exactly the timestamp, and the size grows by one only when the timestamp is new |
| `Records.SameTimestampOverwrites` | main.py:38-52 | two submissions under the same timestamp leave only the later entry |
| `Records.ReplayKeys` | main.py:46-55 | after a run of submissions the keys are the earlier keys plus the submitted timestamps |
| `Records.ReplaySize` | main.py:46-55 | `k` submissions with distinct new timestamps add exactly `k` entries (none is lost) |
| `Records.ReplayLatest` | main.py:46-55 | a timestamp holds the entry of the latest submission under it |
| `Records.ReplaySnoc` | main.py:46-55 | one more submission on a run is one more update of the document |
| `Records.ReplayKeepsOthers` | main.py:46-55 | keys no submission names keep their earlier entries |
| `Records.FirstSubmission` | main.py:46-52 | on a new store, whose file is absent, the first submission yields a document holding exactly that one entry |
| `Records.AppendRun` | main.py:41-55 | submissions handled one after another, each through `Append`, leave a file holding `doc` holding `Replay(doc, subs)` |
| `Records.RecordStore.constructor` | main.py:44-46 | before any submission the document file does not exist |
| `Records.RecordStore.Load` | main.py:46-50 | loading an absent file gives `{}`, a present one its document, and an unparsable one raises |
| `Records.RecordStore.Append` | main.py:41-55 | the file afterwards holds the loaded document updated with the entry: the timestamp maps to `{username, message}`, other keys are unchanged, the size grows by at most one, and an absent file becomes a one-entry document; when loading raises the file is untouched |
| `Handler.Respond` | main.py:57-84 | pages are sent as text/html with their status, static files with status 200 and the table's type for their suffix, an accepted submission with 200 and the fixed thank-you body |
| `Handler.SubmissionOf` | main.py:35-39 | the submission is keyed by the current time and carries the first `name` and `message` values, or empty strings |
| `Handler.Handle` | main.py:15-62 | every request but a POST to exactly `/message` leaves the store unchanged and gets the dispatched response; an accepted submission writes the form's entry under the timestamp into the loaded document and is thanked; an unparsable document makes the handler raise with the file untouched |

## Left out

- Socket I/O: `HTTPServer`, `run`, `serve_forever`, `send_response`, `send_header`, `wfile.write`; a response is modelled as a value.
- The Jinja2 environment and `render_read_page`: a foreign template engine, and no route reaches that method.
- Routing.UrlPath: models `urlparse` for request targets in origin form only; scheme recognition (a target such as `a:b`), `//netloc` splitting and the removal of control characters are not modelled.
- Percent-decoding and `parse_qs`: the parsed form is an input; `parse_qs` drops blank values, so `name=` arrives as an absent field.
- JSON serialisation: the document is an abstract map; values under foreign keys that are not `{username, message}` objects are not modelled.
- The clock: the timestamp is a parameter of `Handle` and `Append`.
- `pathlib`: existence and regular-file checks are the `isFile` oracle, the suffix computation is the `suffix` oracle; the `storage` directory creation (`mkdir(exist_ok=True)`) is not modelled.
- Concurrency: two handlers interleaving their read-modify-write cycles can lose an update; the model is sequential.
- A missing `Content-Length` header raising in `int(...)`: an exception path of header parsing.
- The recursive `send_html_file('error.html', 404)` fallback when a page or static file cannot be opened after the headers were sent.
