# Splunk alert receivers: a Dafny model

The repository has two Go webhook receivers:

- `go_server/main.go` is the plain receiver.
- `audit_server/main.go` is an extended receiver that also understands the payload of a bundled audit collector.

This project models the logic the two receivers share and the logic the audit receiver adds:

- **Collector recognition and summary** (`collector.dfy`).
  - The `alert`-field gate of `tryDecodeCollector`.
  - The severity rule of `severityFromCollector`: a root execution from a scratch directory is HIGH; an unknown or system-directory executable is LOW; anything else is MED.
  - The quoted key/value scanner `extractQuotedKV`.
  - The one-line title of `collectorTitle`.
- **Generic payload extraction** (`payload.dfy`, `generic.dfy`).
  - Decoded JSON is a datatype.
  - `extractResult` chooses the result object.
  - `stringify` turns a value into text.
  - `pickString` is an ordered walk over candidate keys. Each key is tried by exact lookup first, then by a case-insensitive scan.
  - `extractAlert` applies the receivers' fallback chains for host, source, srcIP, alert type and search name.
- **The bounded alert store** (`store.dfy`).
  - `AlertStore` is a class holding the receiver's `alerts`, `nextID`, `maxStore` and `dataFile`.
  - Append evicts only the oldest alert and gives out monotonic ids.
  - The history reload follows `loadHistory`.
  - The rotation follows `rotateHistory`: both as written and as evidently intended (see Findings).
  - File contents and the outcome of each write are parameters. The writes a method makes are part of its result.
- **Request handling** (`webhook.dfy`).
  - Each receiver builds its record and falls back to the peer's host for `srcIP`, then appends the record to the store.
  - `resolveAddr` and `orDash`.
  - The newest-first walk of the plain-text listing.

`gotext.dfy` models the few Go `strings` functions the receivers use. `TrimSpace` uses Go's exact white-space set. `Index`, `IndexByte`, `Contains` and `EqualFold` are also there; `EqualFold` uses ASCII folding only.

Two behaviours of the code worth knowing:

- A missing history file leaves the store exactly as it was (`audit_server/main.go:529-531`); it does not empty it.
- No record holds both `raw` and `rawText`. The alert type alone does not mark a record as unparsed, because a generic payload can carry the type "unparsed" itself.

## Model

| member | source | states |
|---|---|---|
| `Collector.TryDecodeCollector` | audit_server/main.go:347-357 | matches exactly when the body decoded and its trimmed `alert` is not blank; a failed match hands back the zero payload; an error is reported exactly when decoding failed |
| `Collector.Severity` | audit_server/main.go:359-380 | always HIGH, MED or LOW; HIGH exactly for a root `euid` with the executable under /tmp/, /dev/shm/ or /var/tmp/; otherwise LOW exactly when the executable is empty or under a system binary directory |
| `Collector.StartsWithAllowedPrefix` | audit_server/main.go:369-376 | the early-return loop finds a prefix exactly when the executable starts with one of the four allowed directories |
| `Collector.SeverityFromCollector` | audit_server/main.go:359-380 | the nested checks with early returns compute exactly the severity rule above |
| `Collector.UpToQuote` | audit_server/main.go:420-425 | the text up to the next quote holds no quote, lies right after the start, and is followed by a quote |
| `Collector.QuotedValue` | audit_server/main.go:415-425 | in a trimmed line: "" when the line is blank, the key is empty or `key="` is absent; otherwise quote-free text sitting right after the first `key="` and closed by a quote |
| `Collector.ExtractQuotedKV` | audit_server/main.go:410-426 | never contains a quote; "" for a blank line, an empty key or an absent pattern; any other result sits right after the first `key="` in the trimmed line and is followed by a quote |
| `Collector.QuotedValueComplete` | audit_server/main.go:415-425 | converse: when a quote closes the text after the first `key="`, exactly that text is returned |
| `Collector.ExtractQuotedKVComplete` | audit_server/main.go:410-426 | the same converse for the untrimmed line |
| `Collector.QuotedValueAtStart` | audit_server/main.go:415-425 | a line opening with `key="name"` yields `name` |
| `Collector.Actor` | audit_server/main.go:383-390 | never empty; the quoted AUID from the raw line when there is one, else the trimmed `auid`, else "unknown user" |
| `Collector.ActorFromLeadingAUID` | audit_server/main.go:384-387 | a raw line opening with `AUID="name"` names the actor, whatever the numeric `auid` says |
| `Collector.ShownExe` | audit_server/main.go:402-405 | never empty; the trimmed executable when it is not blank, else "(unknown exe)" |
| `Collector.ComposeTitleHead` | audit_server/main.go:392-395 | a title starts with its actor, and with ", acting as root" right after it exactly when the root flag is set |
| `Collector.ComposeTitleTail` | audit_server/main.go:397-407 | a title ends with ", successfully executed <exe>" exactly when the success flag is set, else with ", executed <exe>" |
| `Collector.CollectorTitle` | audit_server/main.go:382-408 | the title starts with the actor; the root clause follows exactly when the trimmed `euid` is "0"; it ends with the success clause exactly when the raw line contains "success=yes", else with ", executed <exe>"; its length is exactly that of these parts, so nothing else lies between them |
| `Payload.Stringify` | go_server/main.go:256-269 | strings pass unchanged and numbers give their text; any non-empty result comes from a string or a number, so null, booleans, arrays and objects give "" |
| `Payload.ExtractResult` | go_server/main.go:215-235 | the `result` object when there is one; else the first element of `results` when it is an object; else the empty object |
| `Payload.LookupCandidate` | go_server/main.go:239-251 | the map-order scan for one key: "" only when no key folding equal to it holds text; otherwise the exact key's text when non-empty, else the text of some key that folds equal |
| `Payload.PickString` | go_server/main.go:237-254 | the result is the value given by the first candidate key that does not miss, and "" exactly when every candidate misses |
| `Payload.PickUnique` | go_server/main.go:245-251 | when no two keys fold equal, map order cannot change the result |
| `Payload.PickExactAt` | go_server/main.go:238-243 | when the earlier candidates miss and key `j` is present with text, that text is the result |
| `Generic.ExtractAlert` | go_server/main.go:184-213 | host and source come from the result object; srcIP from the result object, then the payload; alert type from the result object's type keys, then the payload's search-name keys, then `sourcetype`; search name from the payload; `raw` is the JSON text; nothing else is set |
| `Generic.ExampleExtraction` | audit_server/main.go:487-516 | for `{"result":{"host":"h1","src_ip":"1.2.3.4"},"search_name":"S"}`, every possible extraction keeps that JSON text and gives host h1, srcIP 1.2.3.4, search name S, alert type S and no source |
| `Store.Appended` | audit_server/main.go:261-267 | at capacity only index 0 is dropped; the record goes last stamped with the old counter; the counter grows by one; a window within the cap stays within it |
| `Store.AppendKeepsIdsIncreasing` | audit_server/main.go:265-267 | ids that strictly increase along the window and lie below the counter still do after an append |
| `Store.AppendAllWindow` | go_server/main.go:137-143 | from an empty store, any run of appends leaves exactly the last `cap` records in arrival order with ids 1, 2, … by arrival and the counter one past the number seen |
| `Store.AlertStore.Append` | go_server/main.go:137-143 | the in-place append moves the store to `Appended` of its old state and returns the old counter |
| `Store.AlertStore.constructor` | audit_server/main.go:70-76 | a new store is empty, with ids starting at 1, saving to `alerts_history.json`, and keeps the class invariant that the id counter is at least 1 |
| `Store.Reloaded` | audit_server/main.go:523-545 | a missing or unreadable file changes nothing; a loaded snapshot replaces the window without a cap, and the counter becomes the file's when positive, else the count plus one (always at least 1) |
| `Store.ReloadError` | audit_server/main.go:527-537 | an error is reported except for a missing file or a successful load |
| `Store.ReloadSaved` | audit_server/main.go:538-543 | reloading a saved snapshot restores exactly the saved state |
| `Store.ReloadKeepsOversize` | audit_server/main.go:538-543 | an oversized file stays oversized after reload, and appends only keep its size |
| `Store.AlertStore.Reload` | audit_server/main.go:523-545 | the method moves the store to `Reloaded` and returns `ReloadError`, leaving the data file alone |
| `Store.AlertStore.Save` | audit_server/main.go:547-557 | the save writes the current state to the data file |
| `Store.ArchiveName` | audit_server/main.go:146-147 | the archive name is `alerts_history_` followed by the time stamp and `.json` |
| `Store.ArchiveNameIsNotDataFile` | audit_server/main.go:147 | no archive name is the live file's name |
| `Store.AlertStore.RotateAsWritten` | audit_server/main.go:146-165 | a failed archive write changes nothing; otherwise the store is emptied, ids restart at 1 and the data file becomes the archive, even when the save fails |
| `Store.RotateAsWrittenLosesArchive` | audit_server/main.go:156-165 | as written, a rotation whose save succeeds leaves the archive holding the empty state |
| `Store.RotateAsWrittenExample` | audit_server/main.go:156-165 | a store holding one alert is not what its archive holds afterwards |
| `Store.AlertStore.Rotate` | audit_server/main.go:146-165 | the corrected rotation: the same reset, but the data file stays the live file, where the empty state is saved; when the live file is not the archive, the archive holds the pre-rotation state on every disk |
| `Store.RotateKeepsArchive` | audit_server/main.go:150-165 | corrected: the archive holds the pre-rotation state, reloading it restores that state, and the live file holds the empty state when the save succeeds |
| `Webhook.ResolveAddr` | go_server/main.go:65-74 | the address always has a colon and no surrounding white space; blank gives ":5123"; a value with a colon is kept; anything else gets ":" in front |
| `Webhook.ResolveAddrIdempotent` | go_server/main.go:65-74 | a resolved address resolves to itself |
| `Webhook.OrDash` | audit_server/main.go:480-485 | the result is never blank; a non-blank value is kept and a blank one becomes "-" |
| `Webhook.OrDashIdempotent` | audit_server/main.go:480-485 | dashing twice is dashing once |
| `Webhook.WithPeerHost` | audit_server/main.go:252-256 | only `srcIP` can change, and only when it was empty and the peer address split |
| `Webhook.BuildAuditAlert` | audit_server/main.go:206-256 | a recognised collector payload gives the collector record; otherwise the generic extraction, or an "unparsed" record holding the body with the decode error; severity is set exactly for collector records; never both `raw` and `rawText` |
| `Webhook.BuildGoAlert` | go_server/main.go:115-132 | a read failure gives an "unparsed" record with no text and "failed to read body"; a decode failure gives one holding the body; else the generic extraction; with an error the record is "unparsed" with no JSON, without one it keeps the payload's JSON text and no raw text |
| `Webhook.AuditWebhook` | audit_server/main.go:191-281 | an unreadable body gives 400 and changes nothing; otherwise the record stored is the one the receiver builds (collector record, generic extraction, or "unparsed" with the decode error), it is appended, the store saved to its unchanged data file and 200 returned with the new id |
| `Webhook.GoWebhook` | go_server/main.go:109-155 | every request stores the record the receiver builds (the "unparsed" read-failure record, the "unparsed" record with the body and decode error, or the generic extraction), appends it without touching the data file and gets 201 with the new id |
| `Webhook.Message` | audit_server/main.go:440-446 | the trimmed text, else the trimmed raw text, else "(raw json available)" when JSON is held; empty exactly when all three are absent |
| `Webhook.NewestFirst` | audit_server/main.go:438-439 | listing order is the window reversed |
| `Webhook.WalkNewestFirst` | audit_server/main.go:438-474 | the loop from the end renders the k-th newest alert on line k |
| `Webhook.AlertsText` | audit_server/main.go:428-475 | one line per stored alert, newest first |
| `Webhook.NewestFirstDropOldest` | audit_server/main.go:261-264 | evicting the oldest alert removes the last listing entry |
| `Webhook.NewestFirstAfterAppend` | audit_server/main.go:261-267 | after an append the listing opens with the new record, then the earlier ones in order, less the evicted one when the window was full |

## Left out

- HTTP plumbing is not modelled: method checks, headers, JSON response bodies, `spaHandler`, `logRequests`, `getAlerts` and the mux. The reload and rotate handlers add only status codes around `Reload` and `Rotate`.
- Body reading and decoding are inputs, not code. This covers `io.ReadAll`, `json.Unmarshal`, `url.ParseQuery`, `decodePayload` and `decodePayloadBytes`. The collector decode and the generic decode are given as outcomes.
- The JSON encoding of snapshots is not modelled. In particular, a record with no `raw` is written as `null` and reads back as the text "null".
- The clock is not modelled: there is no `ReceivedAt` field, the listing line has no time stamp, and the rotation time stamp is a parameter. Two rotations in the same second share an archive name, in the source and in the model.
- The listing's per-line text beyond the message and the newest-first order has no contract (`Line` is only a definition).
- `net.SplitHostPort` on the peer address is an input: the host, or none when the split fails.
- The mutex is not modelled. Each operation is one atomic method, as it is under the lock.
- `stringify` of numbers: `strconv.FormatFloat` is not modelled. A number carries its rendered text.
- The `map[string]json.RawMessage` branch of `extractResult` is omitted. It cannot hold after decoding into `interface{}`.
- Case folding is ASCII only; Go's `EqualFold` also folds other Unicode letters. Strings are sequences of characters, one per Unicode code point; the source's byte offsets become code-point offsets, which agree for the ASCII delimiters searched (`key="`, `"`, `:`).
- `Store.AlertStore.Append` models `nextID` as unbounded; Go's `int` would wrap only after 2^63 appends.
- `maxStore` is at least 1 in the model. A non-positive value would make `alerts[1:]` panic on an empty slice, and the receivers use 500.
- `go_server/website.py` and `website.py` (Flask apps with a 30/50-entry list) are not part of this model.

## Findings

| source | as written | input that shows it | evidently intended | confidence | as-written member | corrected member |
|---|---|---|---|---|---|---|
| audit_server/main.go:156-165 | the archive is written to the new file; then `dataFile` is set to that file and the save writes the empty state over the archive | any rotation whose save succeeds, e.g. a store holding one alert: the archive ends up holding no alerts and next id 1 | the archive keeps the pre-rotation state and the empty state goes to the live file | high, not executed | `Store.RotateAsWrittenLosesArchive` | `Store.RotateKeepsArchive` |
