# Outbound-call measurement of spectator-go, in Dafny

This project models `log_entry.go` of spectator-go. That file measures one outbound HTTP call that the metrics client makes. It has two parts:

- **`pathFromUrl`** turns an arbitrary URL string into a low-cardinality endpoint path. It drops the scheme and authority and cuts at the first query (`?`), fragment (`#`) or matrix-parameter (`;`) delimiter. Degenerate inputs give `"/"` or the input unchanged.
- **`LogEntry`** is created when the call starts. It holds the registry, the start time and a measurement identifier: the name `ipc.client.call` plus four tags. Its setters replace the identifier with a copy in which some tag keys are overwritten. `Log` records the elapsed time under the current identifier with the registry.

Files:

- `go_lib.dfy` (module `GoLib`): the Go library behaviour the file relies on. This covers int64 wrapping subtraction, `strings.IndexByte`, `strings.IndexAny`, `strconv.Itoa` and `strconv.FormatBool`. `Itoa` is proved lossless by a parser that reads its output back.
- `ids.dfy` (module `Ids`): the identifier as an immutable value. `WithTag`/`WithTags` are map override. Lemmas show that re-setting the same keys keeps only the latest values, and that tag maps over disjoint keys commute.
- `paths.dfy` (module `Paths`): `PathFromUrl`, written with the same index arithmetic as the source. Its part after the scheme is split into `PathAfter` (the search for the path's '/') and `PathAt` (the cut at the first delimiter). `EndpointOf` is a declarative reference definition. `pathFromUrl` has six returns (log_entry.go:72, 77, 83, 89, 98, 102), and `EndpointOf` has five disjuncts: its last disjunct covers the returns at :98 and :102, because `PathEnd` lets the path end at a delimiter or at the end of the URL. Lemmas show that the reference definition is functional and that `PathFromUrl` meets it in both directions. Branch lemmas and worked examples are derived from that.
- `log_entries.dfy` (module `LogEntries`): the attempt label, the tag maps each setter merges, a `Registry` class standing for the timer sink, and the `LogEntry` class with its constructor, setters and `Log`. `CallLifecycle` is a client that walks one call through the contracts.

Modelling choices:

- Strings are `seq<char>`, and each character stands for a byte. Every character the code searches for is ASCII, so byte indices and slices map directly to sequence indices and slices.
- The registry's clock is not modelled. Its reading is the `now: int64` parameter of `NewLogEntry` and `Log`.
- The registry's timer-recording entry point (`config.IpcTimerRecord`) appends `Measurement(id, duration)` to `Registry.recorded`.
- The duration is Go's int64 subtraction `now - start`, which wraps on overflow. `GoLib.Sub` writes the wrap out. The duration may be negative, because nothing in this file makes the clock monotonic.
- `start` and `registry` are `const` fields, since the file never assigns them after construction. `id` is the one mutable field, and every setter declares `modifies this`id` only.

Behaviour of log_entry.go worth noting:

- `SetSuccess` and `SetError` write the same two keys, `ipc.result` and `ipc.status`, so whichever is called later wins (`OutcomeOverwrites`). Calling a setter twice likewise keeps only the later values. Setters that write disjoint keys give the same identifier in either order (`StatusCommutesWithAttempt`, `StatusCommutesWithOutcome`, `AttemptCommutesWithOutcome`).
- `pathFromUrl` skips the three characters after the first `:` without checking that they are `://`.
- `pathFromUrl` searches for the path's `/` before it looks for any delimiter. So a `?`, `#` or `;` in the authority does not stop the search: `"http://h?q=/a"` gives `"/a"`.
- `Log` records `now - start` as it is. The duration can be negative if the clock goes back, and it wraps if the subtraction overflows int64.
- Every entry keeps the invariant `LogEntry.Valid`: the name stays `ipc.client.call`, the four tags set at construction stay present, and no key other than the eight the file writes is ever added.

## Model

| member | source | states |
|---|---|---|
| `GoLib.Sub` | log_entry.go:54 | int64 subtraction: the result is congruent to the true difference modulo 2^64, and equals it when that difference fits in int64 |
| `GoLib.IndexByte` | log_entry.go:75 | -1 exactly when the byte is absent; otherwise the index holds the byte and no earlier index does |
| `GoLib.IndexAny` | log_entry.go:95 | -1 exactly when no character of the set occurs; otherwise the index holds one and no earlier index does |
| `GoLib.Decimal` | log_entry.go:20 | the decimal rendering is non-empty, all digits, and has no leading zero unless the number is 0 |
| `GoLib.Itoa` | log_entry.go:20 | non-empty, and starts with '-' exactly when the number is negative |
| `GoLib.DecimalRoundTrip` | log_entry.go:20 | reading back the digits of n gives n |
| `GoLib.ItoaRoundTrip` | log_entry.go:20 | Itoa's output is a signed decimal that parses back to the number given |
| `GoLib.ItoaInjective` | log_entry.go:20 | distinct status codes give distinct `http.status` values |
| `GoLib.ItoaOf200` | log_entry.go:20 | status code 200 is rendered as "200" |
| `GoLib.FormatBool` | log_entry.go:46 | the result is "true" or "false", and "true" exactly when the flag is set |
| `Ids.Id.WithTag` | log_entry.go:20 | same name; the key set gains the key; the key maps to the value; every other tag is unchanged |
| `Ids.Id.WithTags` | log_entry.go:29 | same name; the key set is the union; the added keys take the new values; every other tag is unchanged |
| `Ids.WithTagIsWithTags` | log_entry.go:18-29 | setting one tag equals merging a one-entry tag map |
| `Ids.WithTagsOverwrite` | log_entry.go:18-49 | merging tags over keys that a later merge covers leaves only the later values |
| `Ids.WithTagsCommute` | log_entry.go:18-49 | merges over disjoint key sets give the same identifier in either order |
| `Paths.PathFromUrl` | log_entry.go:70-103 | all slices are in bounds; the result is non-empty, and it is either the input or starts with '/' and contains none of `?#;` |
| `Paths.PathAfter` | log_entry.go:86-91 | for any start just past the assumed "://": the result is non-empty, starts with '/' and contains none of `?#;` |
| `Paths.PathAt` | log_entry.go:93-102 | from a '/': the result is non-empty, starts with '/' and contains none of `?#;` |
| `Paths.IndexByteFrom` | log_entry.go:87 | searching the suffix from an index gives -1 exactly when the byte is absent from there on, and otherwise the first occurrence from there, as an index into the whole URL |
| `Paths.PathAtMeetsSpec` | log_entry.go:93-102 | the path from a '/' is cut exactly at the first delimiter after it, or at the end |
| `Paths.PathEndExists` | log_entry.go:95-100 | every '/' has a path end after it |
| `Paths.PathAfterWithoutSlash` | log_entry.go:87-90 | with no '/' from the start index on, the result is "/" |
| `Paths.PathAfterWithSlash` | log_entry.go:87-102 | otherwise the result is the path from the first '/' from the start index |
| `Paths.EndpointOfUnique` | log_entry.go:70-103 | the reference definition of the endpoint allows at most one result for each URL |
| `Paths.PathFromUrlMeetsSpec` | log_entry.go:70-103 | the computed endpoint satisfies the reference definition on every input |
| `Paths.PathFromUrlIff` | log_entry.go:70-103 | `PathFromUrl(url) == r` if and only if r is the endpoint of url under the reference definition |
| `Paths.PathFromUrlOccursInUrl` | log_entry.go:91-102 | the endpoint is "/" or a contiguous run of the URL |
| `Paths.PathOfEmpty` | log_entry.go:71-73 | the empty URL gives "/" |
| `Paths.PathWithoutColon` | log_entry.go:75-78 | a non-empty URL without ':' is returned unchanged |
| `Paths.PathShortAfterColon` | log_entry.go:80-84 | if the suffix from the first ':' is shorter than 3 characters, the URL is returned unchanged |
| `Paths.PathWithoutPath` | log_entry.go:86-90 | if no '/' occurs from three past the first ':' on, the result is "/" |
| `Paths.PathSlice` | log_entry.go:91-102 | otherwise the result is `url[p..e]`: p is the first '/' from three past the colon, and e is the first delimiter after p or the end |
| `Paths.PathOfHostOnly` | log_entry.go:86-90 | "http://host" gives "/" |
| `Paths.PathDropsQuery` | log_entry.go:93-102 | "http://host/foo/bar?x=1" gives "/foo/bar" |
| `Paths.PathDropsFragment` | log_entry.go:93-102 | "http://host/foo#frag" gives "/foo" |
| `Paths.PathDropsMatrixParameters` | log_entry.go:93-102 | "http://host/foo;matrix=1" gives "/foo" |
| `Paths.PathOfShortScheme` | log_entry.go:80-84 | "a:b" is returned unchanged |
| `Paths.PathOfShortUrl` | log_entry.go:91-102 | "http://x/a/b" gives "/a/b" |
| `LogEntries.Attempt` | log_entry.go:59-68 | "initial" exactly for 0, "second" exactly for 1, and "third_up" exactly for every other number, negatives included |
| `LogEntries.OutcomeOverwrites` | log_entry.go:23-40 | after SetError then SetSuccess (or the reverse), only the later outcome's tags remain |
| `LogEntries.ErrorOverwrites` | log_entry.go:32-40 | a second SetError leaves only the later error |
| `LogEntries.AttemptOverwrites` | log_entry.go:42-49 | a second SetAttempt leaves only the later attempt tags |
| `LogEntries.StatusOverwrites` | log_entry.go:18-21 | a second SetStatusCode leaves only the later status |
| `LogEntries.StatusCommutesWithAttempt` | log_entry.go:18-49 | SetStatusCode and SetAttempt give the same identifier in either order |
| `LogEntries.StatusCommutesWithOutcome` | log_entry.go:18-40 | SetStatusCode and SetSuccess, and SetStatusCode and SetError, give the same identifier in either order |
| `LogEntries.AttemptCommutesWithOutcome` | log_entry.go:23-49 | SetAttempt and SetSuccess, and SetAttempt and SetError, give the same identifier in either order |
| `LogEntries.Registry.IpcTimerRecord` | log_entry.go:56 | recording appends exactly one measurement with the given identifier and duration |
| `LogEntries.LogEntry.NewLogEntry` | log_entry.go:105-117 | name `ipc.client.call`; tags exactly owner "spectator-go", the endpoint of the URL, the method and status "-1"; start is the clock reading; the entry invariant `Valid` holds |
| `LogEntries.LogEntry.SetStatusCode` | log_entry.go:18-21 | `http.status` becomes the decimal code; the name and all other tags are unchanged; the entry invariant `Valid` is preserved |
| `LogEntries.LogEntry.SetSuccess` | log_entry.go:23-30 | `ipc.result` and `ipc.status` become "success"; the name and all other tags are unchanged; the entry invariant `Valid` is preserved |
| `LogEntries.LogEntry.SetError` | log_entry.go:32-40 | `ipc.result` becomes "failure" and `ipc.status` becomes the error; the name and all other tags are unchanged; the entry invariant `Valid` is preserved |
| `LogEntries.LogEntry.SetAttempt` | log_entry.go:42-49 | `ipc.attempt` becomes the attempt label and `ipc.attempt.final` becomes "true"/"false"; the name and all other tags are unchanged; the entry invariant `Valid` is preserved |
| `LogEntries.LogEntry.Log` | log_entry.go:51-57 | exactly one measurement is recorded: the current identifier with duration now − start in int64; the entry is unchanged and keeps `Valid` |
| `LogEntries.CallLifecycle` | log_entry.go:18-57 | one call through construction, setters and Log yields the expected tags and records exactly one measurement |

## Left out

- The registry's storage, aggregation and export are not part of this model. Only its recording entry point is modelled, as an append to `Registry.recorded`.
- `Registry.Clock()` is not part of this model. The clock reading is an int64 parameter, because the clock is defined outside this file.
- `Registry.NewId` and the internals of `Id.WithTag`/`Id.WithTags` are not part of this model. The identifier is a name plus a map, and adding tags is map override.
- LogEntries.LogEntry.Log: gives no lower bound on the duration, because the file subtracts the two clock readings as they are and nothing in it makes the clock monotonic.
- GoLib.Itoa: renders Go's 64-bit `int` as an unbounded integer. This is the same rendering for every value a Go `int` can hold.
- `time.Duration` is the plain int64 count of nanoseconds, because the conversion does not change the value.
- Concurrency is not modelled, because a LogEntry belongs to a single call flow and nothing in the file is concurrent.
- Go pointer aliasing of the entry is not modelled, for the same reason.
