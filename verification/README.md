# shorturl storage, service and configuration — a Dafny model

This project models the core of a URL shortener written in Go: the storage
backends that map short codes to original URLs, the service layer above them,
the background worker that batches deletions, and the configuration merge.

- `StorageTypes` (`storage_types.dfy`) holds the shared records: a batch entry
  (code, original URL, correlation token), a user's URL, and the backend
  errors (conflict, not implemented, and the rest).
- `UrlMapOps` (`urlmap.dfy`) holds the code-to-URL map semantics that both map
  backends share. A batch insert keeps every code already present, and within
  a batch the first entry for a code wins. Lemmas cover its key set,
  idempotence, and the case where every code is already taken.
- `LegacyStorage` (`legacy_storage.dfy`) models the package-level store. It
  draws an 8-character code from a 62-letter alphanumeric alphabet and writes
  it into a global map. Random draws are an input: a sequence of alphabet
  indices.
- `MemoryStorage` (`memory_storage.dfy`) models the volatile backend as a class
  whose `data` map its methods update.
- `FileStorage` (`file_storage.dfy`) models the logged backend: the same map
  plus an append-only log of records.
  - Construction replays the log. Records apply in file order, so the last
    write wins; malformed lines are skipped; a line too long for the scanner
    fails construction.
  - `SaveURL`, and each `BatchSave` entry whose code is new, append one
    record when a file path is set and the write succeeds. `SaveURL` does so
    even when it overwrites a code. `ForceSet` appends nothing.
  - The class keeps a ghost predicate `Durable()`: replaying the file gives
    back exactly the in-memory map. Saves whose appends succeed, and whose
    records fit in the scanner's 64 KiB buffer, preserve it, and a restart
    of a durable store reloads the same map.
  - A record's line length is computed as `encoding/json` writes it, with
    its escapes. A record too long for the scanner is still appended, and
    from then on every load of the file fails with the scanner's error.
  - The file is a value (absent, unopenable, or present with its lines). The
    success of each append and the time-stamp token it writes are inputs.
- `Service` (`service.dfy`) models the service layer:
  - creating one link: whitespace trimming, the empty-URL error, conflict
    reported as "already exists"
  - creating a batch: one result per item, in order, or only the error
  - the optional ping
  - the statistics, where the first failing count wins
  - Go's `strings.TrimSpace`, with the `unicode.IsSpace` set.
- `DeleteWorker` (`delete_worker.dfy`) models the deletion worker as a state
  machine over events: a task, a tick, the channel closing, cancellation.
  - It keeps per-owner pending lists. A list that reaches 100 codes is sent
    at once and emptied.
  - A tick, the close and cancellation send every non-empty list, in
    unspecified order; the close and cancellation also stop the worker.
  - As written, a tick does not empty the lists it sends, so each later tick
    sends the same codes again. The model keeps this behaviour.
- `Config` (`config.dfy`) models configuration building:
  - Each string setting takes the first non-empty of environment, flag,
    config file and default; boolean settings are OR-ed.
  - With HTTPS on, an `http://` base URL is rewritten to `https://`.
  - The backend is chosen as postgres, then file, then memory.

Code generation (`idgen.Generate`) is not part of this model. Generated codes
are parameters of the operations that use them.

## Model

| member | source | states |
|---|---|---|
| UrlMapOps.BatchInsertKeepsExisting | internal/storage/memorystorage/storage.go:69-74 | a batch never overwrites a code already in the map |
| UrlMapOps.BatchInsertKeys | internal/storage/memorystorage/storage.go:69-74 | after a batch the map's codes are exactly the old codes plus the batch's codes |
| UrlMapOps.BatchInsertFirstWins | internal/storage/memorystorage/storage.go:69-74 | a code new to the map gets the URL of its first entry in the batch |
| UrlMapOps.BatchInsertAllTaken | internal/storage/memorystorage/storage.go:70-73 | a batch whose codes all exist already leaves the map unchanged |
| UrlMapOps.BatchInsertIdempotent | internal/storage/memorystorage/memory_bench_test.go:50-69 | saving the same batch twice gives the same map as saving it once |
| LegacyStorage.CharsetIsAlphanumeric | internal/storage/storage.go:11 | the alphabet has 62 distinct letters, exactly the ASCII letters and digits |
| LegacyStorage.GenerateID | internal/storage/storage.go:13-19 | the code has the requested length and its k-th letter is the alphabet letter at the k-th draw |
| LegacyStorage.GlobalStore.constructor | internal/storage/storage.go:9 | the global store starts empty |
| LegacyStorage.GlobalStore.GetURL | internal/storage/storage.go:27-30 | found exactly when the code is stored, with its URL; otherwise the empty string |
| LegacyStorage.GlobalStore.MakeShort | internal/storage/storage.go:21-25 | returns an 8-letter alphanumeric code, maps it to the URL, resolves back to the URL, leaves other codes alone |
| LegacyStorage.GlobalStore.ForceSet | internal/storage/storage.go:33-35 | the code maps to the URL afterwards and nothing else changes |
| MemoryStorage.Storage.constructor | internal/storage/memorystorage/storage.go:18-22 | a new store is empty |
| MemoryStorage.Storage.GetURL | internal/storage/memorystorage/storage.go:36-41 | found exactly when the code is stored, with its URL; otherwise the empty string |
| MemoryStorage.Storage.SaveURL | internal/storage/memorystorage/storage.go:25-33 | returns the generated code with no error, the code resolves to the URL, other codes unchanged |
| MemoryStorage.Storage.ForceSet | internal/storage/memorystorage/storage.go:45-49 | the code maps to the URL afterwards and nothing else changes |
| MemoryStorage.Storage.Ping | internal/storage/memorystorage/storage.go:52-54 | always succeeds |
| MemoryStorage.Storage.BatchSave | internal/storage/memorystorage/storage.go:65-77 | no error, and the map becomes the batch insert of the entries (existing codes kept) |
| MemoryStorage.Storage.GetUserURLs | internal/storage/memorystorage/storage.go:80-83 | an empty list and no error |
| MemoryStorage.Storage.MarkAsDeleted | internal/storage/memorystorage/storage.go:86-88 | always the not-implemented error |
| MemoryStorage.Storage.CountURLs | internal/storage/memorystorage/storage.go:96-100 | the number of stored codes, no error |
| MemoryStorage.Storage.CountUsers | internal/storage/memorystorage/storage.go:103-105 | zero users, no error |
| MemoryStorage.BatchSaveTwice | internal/storage/memorystorage/memory_bench_test.go:66-68 | a repeated batch leaves the store as one save of it does, and both saves report no error |
| FileStorage.EscapedLengthBounds | internal/storage/filestorage/storage.go:88-89 | each character of an encoded string takes between one and six bytes |
| FileStorage.LongURLNeverFits | internal/storage/filestorage/storage.go:88-89 | a record whose URL alone reaches the 64 KiB buffer is written as a line too long to scan |
| FileStorage.ShortItemFits | internal/storage/filestorage/storage.go:88-89 | a record short enough even with every character escaped is written as a line that scans back |
| FileStorage.TooLongFailsLoad | internal/storage/filestorage/storage.go:102-110 | one line too long anywhere in the log makes loading fail with the scanner's error and no map |
| FileStorage.OversizeAppendFailsLoad | internal/storage/filestorage/storage.go:78-110 | a successful append of a record that does not fit makes the next load of the file fail |
| FileStorage.ScanLimit | internal/storage/filestorage/storage.go:102-110 | the scanner delivers exactly the lines before the first over-long line |
| FileStorage.ReplayAppend | internal/storage/filestorage/storage.go:103-109 | replay applies lines in file order: one more line is applied last |
| FileStorage.ReplayUntouched | internal/storage/filestorage/storage.go:103-109 | replay leaves a code no record mentions as it was |
| FileStorage.ReplayLastWriteWins | internal/storage/filestorage/storage.go:108 | after replay a code holds the URL of its last record |
| FileStorage.ReplaySkipsMalformed | internal/storage/filestorage/storage.go:105-107 | a line that does not decode has no effect on the replay |
| FileStorage.BatchLogReplays | internal/storage/filestorage/storage.go:131-142 | with every append succeeding and every record fitting the scanner's buffer, replaying what a batch appends turns the old map into the new map |
| FileStorage.BatchLogAllTaken | internal/storage/filestorage/storage.go:132-134 | a batch of codes all already present appends nothing |
| FileStorage.BatchLogRepeat | internal/storage/filestorage/storage_test.go:91-111 | repeating a batch appends no duplicate lines |
| FileStorage.BatchLogCount | internal/storage/filestorage/storage_test.go:84-111 | a batch of distinct new codes appends exactly one line per entry |
| FileStorage.Storage.constructor | internal/storage/filestorage/storage.go:32-35 | an empty map over the given path and file |
| FileStorage.Storage.NewStorage | internal/storage/filestorage/storage.go:31-43 | fails exactly when loading fails other than by a missing file; on success the map is the replay of the log and the store is durable |
| FileStorage.Storage.LoadFromFile | internal/storage/filestorage/storage.go:92-111 | no path: nothing loaded, no error; missing file: nothing loaded, the not-exist error; unopenable: its error; present: the replay of the scanned lines, with the too-long error if the scan stopped early |
| FileStorage.Storage.AppendToFile | internal/storage/filestorage/storage.go:78-90 | without a path nothing happens; otherwise one record is appended exactly when open and write succeed, and the error says whether they did |
| FileStorage.Storage.GetURL | internal/storage/filestorage/storage.go:63-68 | found exactly when the code is stored, with its URL; otherwise the empty string |
| FileStorage.Storage.SaveURL | internal/storage/filestorage/storage.go:46-60 | the generated code is returned with no error even when the append fails; the map is updated and one encoded record is appended; durability is kept when the append succeeds and the record fits, and when it succeeds but the record does not fit, the next load fails |
| FileStorage.Storage.ForceSet | internal/storage/filestorage/storage.go:72-76 | only the map changes; a durable store stays durable exactly when the code already held that URL |
| FileStorage.Storage.Ping | internal/storage/filestorage/storage.go:114-116 | always succeeds |
| FileStorage.Storage.SaveEntry | internal/storage/filestorage/storage.go:131-141 | one pass of the batch loop: a taken code changes nothing; a free code is inserted and its record appended; a durable store stays durable when the append succeeds and the record fits |
| FileStorage.Storage.BatchSave | internal/storage/filestorage/storage.go:127-145 | no error; the map becomes the batch insert; the file is the old one with one encoded record appended per newly added code; durability kept when all appends succeed and all records fit |
| FileStorage.Storage.GetUserURLs | internal/storage/filestorage/storage.go:148-151 | an empty list and no error |
| FileStorage.Storage.MarkAsDeleted | internal/storage/filestorage/storage.go:154-156 | always the not-implemented error |
| FileStorage.Storage.CountURLs | internal/storage/filestorage/storage.go:165-169 | the number of stored codes, no error |
| FileStorage.Storage.CountUsers | internal/storage/filestorage/storage.go:172-174 | zero users, no error |
| FileStorage.Restart | internal/storage/filestorage/storage_test.go:15-40 | reopening a durable store's file succeeds and yields the same map |
| FileStorage.AppendKeepsDurable | internal/storage/filestorage/storage.go:50-57 | a successful append of a saved record that fits the scanner's buffer keeps the log's replay equal to the updated map |
| FileStorage.BatchLogNoTooLong | internal/storage/filestorage/storage.go:137-141 | when every record fits, every line a batch appends is a record the scanner delivers |
| Service.TrimLeftSpace | internal/service/service.go:56 | removes exactly the leading whitespace and stops at a non-space |
| Service.TrimRightSpace | internal/service/service.go:56 | removes exactly the trailing whitespace and stops at a non-space |
| Service.TrimSpaceShape | internal/service/service.go:56 | the trimmed URL is a slice of the input with only whitespace cut on both sides, and neither end of it is whitespace |
| Service.TrimSpaceEmpty | internal/service/service.go:56-59 | the trimmed URL is empty exactly when the input is all whitespace |
| Service.TrimSpaceIdempotent | internal/service/service.go:56 | trimming twice is trimming once |
| Service.CreateShort | internal/service/service.go:55-67 | blank input: the empty-URL error; else the trimmed URL is saved and the link is base/code; conflict becomes already-exists, no error stays no error, other errors pass through |
| Service.CreateShortIgnoresPadding | internal/service/service.go:56 | surrounding whitespace does not change the outcome |
| Service.CreateShortOnMemory | internal/service/service.go:55-67 | over the in-memory backend a blank URL is rejected with the store unchanged; any other URL is stored trimmed under its code and its link returned with no error |
| Service.CreateShortOnFile | internal/service/service.go:55-67 | over the logged backend the reply and the new map are as over the in-memory one whether or not the append succeeds; a blank URL leaves the log unchanged, any other URL appends exactly the record `SaveURL` appends, and a durable store stays durable when that record fits the line limit |
| Service.EntriesFor | internal/service/service.go:74-80 | one batch entry per item, in order, with its code, URL and correlation token |
| Service.CreateShortBatch | internal/service/service.go:70-92 | the backend gets one entry per item in order; on error there are no results; otherwise one result per item with its token and link |
| Service.BatchResultsResolve | internal/service/service.go:81-91 | after a batch save over a map backend, each result's code resolves to its item's URL unless the code was already taken |
| Service.Ping | internal/service/service.go:100-105 | no error without a ping; otherwise the backend's reply |
| Service.PingOfMapBackends | internal/service/service.go:100-105 | the service ping succeeds over either map backend |
| Service.GetStats | internal/service/service.go:173-183 | the first failing count's error with zero stats; otherwise both counts with no error |
| Service.StatsOfMapBackends | internal/service/service.go:173-183 | over a map backend: the number of stored codes and zero users |
| DeleteWorker.FlushBuffer | internal/service/service.go:151-157 | exactly one call per owner with a non-empty list, carrying that list (as a multiset, order unspecified) |
| DeleteWorker.Step | internal/service/service.go:125-146 | one event gives the next worker state and the calls it makes, as the transition relation says |
| DeleteWorker.RunWorker | internal/service/service.go:118-147 | running an event stream gives the state `Run` describes, one call set per event handled, the worker was running before each handled event, and handling stops after a close or cancellation |
| DeleteWorker.RunAfterStop | internal/service/service.go:128-131 | events after the worker stops do not change its state |
| DeleteWorker.StopIsFinal | internal/service/service.go:141-144 | once stopped, the worker stays stopped and makes no more calls |
| DeleteWorker.PendingBelowBatchSize | internal/service/service.go:133-137 | every pending list held between events is shorter than 100 |
| DeleteWorker.AcceptedCodesConserved | internal/service/service.go:133-137 | every code accepted for an owner was either sent in a full batch or is still pending, in order |
| DeleteWorker.TaskThreshold | internal/service/service.go:133-137 | a task that brings a list to 100 or more sends the whole list and empties it; one below waits |
| DeleteWorker.TickResends | internal/service/service.go:138-140 | a tick sends all non-empty lists and changes nothing, so the next tick resends them |
| DeleteWorker.StopFlushesAll | internal/service/service.go:128-131 | closing or cancellation sends every non-empty list and stops the worker |
| DeleteWorker.BatchingBoundary | internal/service/service.go:119 | 100 codes are sent at once; a single code waits and goes out with the next tick |
| Config.ChooseValue | internal/config/config.go:90-101 | the result is one of the four values, and empty only when all four are |
| Config.ChooseValueIsFirstNonEmpty | internal/config/config.go:90-101 | the choice is the first non-empty value in the order environment, flag, file, default |
| Config.FirstNonEmptyIsFirst | internal/config/config.go:90-101 | the first non-empty value is non-empty and every value before it is empty |
| Config.DetectStorageType | internal/config/config.go:103-111 | postgres exactly when a DSN is set; file exactly when only a path is set; memory exactly when neither is |
| Config.RewriteBaseURL | internal/config/config.go:80-82 | with HTTPS on, an http:// prefix becomes https:// and the rest is kept; otherwise nothing changes |
| Config.RewriteBaseURLIdempotent | internal/config/config.go:80-82 | rewriting twice is rewriting once |
| Config.ConfigFilePath | internal/config/config.go:56 | the environment's path wins, else the flag's; empty only when neither source gives one |
| Config.Merge | internal/config/config.go:68-77 | booleans are on when any source turns them on; settings with a default are never empty |
| Config.NewConfig | internal/config/config.go:68-86 | merge, then the HTTPS rewrite, then the backend choice; the backend is never memory, and it is file exactly when no DSN is set |
| Config.DefaultsWithoutInput | internal/config/config_test.go:30-37 | with nothing set: address localhost:8080, base URL http://localhost:8080, file backend |
| Config.FlagsOverrideDefaults | internal/config/config_test.go:22-29 | flags alone set the address and base URL as given |

## Left out

- Locks (`sync.RWMutex`), goroutines, the deletion channel's capacity and the ticker's one-second period are not modelled. Each operation is atomic, and the worker sees a sequence of events.
- JSON encoding and decoding are abstracted. A log line is a record, a malformed line, or a line too long; only the encoded length is computed. The model assumes the round trip of `encoding/json`: a record line that fits decodes back to the item written. It does not cover JSON text itself or a record split across lines.
- FileStorage.EscapedSize: follows the escapes of Go 1.22 and later, where `\b` and `\f` take two bytes; earlier versions write them as six-byte `\u00XX` escapes. Invalid UTF-8, which the encoder replaces by U+FFFD, cannot occur in a `seq<char>`.
- `idgen.Generate` is not part of this model. Generated codes are parameters, and so are `math/rand` draws and the time-stamp token used as a record's uuid.
- Reading the environment, command-line flags, `.env` files and the JSON config file is out of scope. Each source is given already parsed. A file that fails to open or decode is represented by the `Unset` source, so a partially decoded file is not modelled.
- `ConfigPath` is not a field of the resulting `Config`: it is never set there.
- `NewTestStorage` and `Shutdown` in both backends are constructors or no-ops. The memory store's `constructor` and the file store with an empty path cover them.
- The service's `NewURLService`, `ResolveShort`, `GetUserURLs`, `DeleteUserURLs` and `DeleteShortURLsAsync` pass straight through to the backend or the channel. They are covered by the backend models and the worker's `Task` event.
- Service.CreateShortBatch, Service.CreateShort, Service.Ping, Service.GetStats: the backend is a function or reply parameter. The PostgreSQL backend (`pgstorage`, `db`) is not part of this model, and neither are HTTP and gRPC handlers, middleware, or the static-analysis tool.
- Go strings are byte strings. The model uses `seq<char>`, whose elements are Unicode scalar values, that is, already decoded runes. Invalid UTF-8 is not modelled: Go decodes each bad byte as U+FFFD, which is not white space and so is never trimmed.
- FileStorage.Storage.AppendToFile: a failed write is assumed to append nothing. In Go, a write that fails partway (a full disk, say) can leave part of a line with no newline. The next successful append then joins that line, and on replay the joined line fails to decode and is skipped, losing a record whose own append succeeded. FileStorage.Storage.SaveURL, FileStorage.Storage.SaveEntry and FileStorage.Storage.BatchSave reach the file through AppendToFile and share this gap. Their durability clauses are unaffected, because they require every append to succeed.
- DeleteWorker.FlushBuffer: the order of calls is not stated, only their multiset, because Go's map iteration order is unspecified. Errors from `MarkAsDeleted` are ignored by the worker, so they are not modelled.
