# memc loader — a Dafny model of its core

The memc loader reads gzip-compressed, tab-separated logs of installed apps and
writes one record per line to memcached. Each device type has its own shard
(`idfa`, `gaid`, `adid`, `dvid`). This project models the loader's core from
`main.go` and proves properties of the model:

- **Line parser** (`parseAppsInstalled`). `TrimSpace`, the tab split and the
  five-field check are modelled. So are the identity and coordinate checks, and
  the app-id loop with its comma split, token trimming and
  `strconv.ParseUint(s, 10, 32)`. The parser is a specification function
  (`Parser.Parse`) plus a method (`Parser.ParseAppsInstalled`). The method runs
  the trim, split, field-count, identity and coordinate checks by calling the
  function `Parser.CheckFields`. It then runs the app-id loop statement by
  statement (`Parser.ParseApps`).
- **Routing and the write** (`deviceMemc[devType]`, `insertAppsInstalled`).
  The closed four-entry shard table and the `devType:devId` key are modelled.
  So are the serialise-then-dry-run-then-`Set` order and the failure outcomes.
- **The scan of one file** (`processFile`). Blank lines are skipped. A line that
  fails to parse, or has an unknown device type, counts as an error. The outcome
  of every dispatched write counts as processed or as an error. The loop is a
  method with its two counters (`Processor.ScanLines`), proved equal to a fold
  over the classes of the lines (`Processor.Tally`).
- **The error-rate decision and the marker rename.** There is no rate when
  nothing was processed. Otherwise the load is acceptable exactly when
  `errors / processed < 0.01`. In both cases the file is renamed to
  `dir/.base`.
- **The file order in `main`.** The exchange sort by modification time is an
  in-place method on an array. It is proved to sort and to permute.

Go's standard-library pieces the core relies on are modelled in their own
modules: `strings.TrimSpace`/`Split` (`GoStrings`), `strconv.ParseUint` for
32 bits (`StrConv`), and `filepath.Dir`/`Base`/`Join` on clean paths (`FilePath`).

Inputs the model takes as parameters, since they are I/O or foreign code:

- `strconv.ParseFloat` is a function value `string -> Option<real>`.
- The answers of protobuf serialisation and of memcache `Set` come in as one
  `Reply(marshalOk, setOk)` per line: a file line is a `Line(text, reply)`.
- A file's contents are its list of lines, or `None` when it cannot be opened
  or decompressed.
- A modification time is an integer.

In several places the code behaves differently from what a reader would expect.
For example, an empty identity field would be expected to give `MissingIdentity`.
The model follows the code:

- `TrimSpace` removes white space, tabs included, from both ends of the whole
  line before it is split into fields. So empty or white-space-only fields at
  either end of the line vanish, and the fields that are left are counted and
  read from the left (`Parser.PaddingIgnored`). Instances of this rule:
  - Each empty leading field moves every later field one place to the left
    (`Parser.LeadingSpaceIgnored`). So `"\tidfa\tX\t1\t2\t3"` is the record of
    type `idfa`, id `X` and apps `[3]`, stored under key `idfa:X`
    (`Parser.EmptyTypeShiftsFields`).
  - A five-field line whose first field (or first two fields) is empty keeps
    fewer than five fields. It is rejected as `MalformedLine`, not as
    `MissingIdentity` (`Parser.EmptyIdentityMalformed`).
  - `MissingIdentity` arises only from an empty device id
    (`Parser.MissingIdentityMeansEmptyDevId`).
  - An empty app list that ends the line vanishes, so the line is rejected as
    `MalformedLine` instead of giving an empty app list
    (`Parser.EmptyLastFieldMalformed`).
  - An empty app list followed by a field with a character that is not white
    space is kept. So `"idfa\tX\t1\t2\t\t7"` is a record with no apps
    (`ParserExamples.ExtraFieldKeepsEmptyApps`).
- A bad latitude and a bad longitude are two error kinds (`InvalidLat`,
  `InvalidLon`), in that order.
- The contents of fields after the fifth are never read.
- The exchange sort is not stable: entries with equal times can change their
  relative order (for times 2, 2, 1 the two 2s end up swapped). When all times
  differ, every ordering by time is the same one (`FileOrder.SortedUnique`).
- Serialisation runs before the dry-run test, so a serialisation failure is an
  error even in dry-run mode.
- The error rate is `errors / processed`, not errors over all lines. Files are
  renamed whatever the rate, and the rename's result is ignored.

## Model

| member | source | states |
|---|---|---|
| GoStrings.TrimSpace | main.go:61 | the result neither starts nor ends with ASCII white space and is no longer than the input |
| GoStrings.TrimSpacePadded | main.go:61 | trimming a trimmed core padded with white space on both sides gives back exactly that core |
| GoStrings.TrimSpaceLeading | main.go:61 | white space in front of a string does not change its TrimSpace |
| GoStrings.TrimSpaceTrailing | main.go:61 | white space at the end of a string does not change its TrimSpace |
| GoStrings.TrimSpaceTrimmed | main.go:90 | a string with no white space at either end is left unchanged |
| GoStrings.Split | main.go:61 | at least one piece, no piece holds the separator, and the pieces joined with the separator give back the input |
| GoStrings.SplitJoin | main.go:88 | splitting the join of separator-free pieces gives back those pieces |
| StrConv.ScanDigits | main.go:94 | the digit loop succeeds exactly when the rest are digits and the decimal value fits in 32 bits, and then returns that value |
| StrConv.ParseUint32 | main.go:94 | `ParseUint(s, 10, 32)` succeeds exactly when s is non-empty, all ASCII digits, with value at most 4294967295, and returns that value |
| StrConv.ParseFormat | main.go:94 | round trip: every uint32 written in decimal parses back to itself |
| Parser.CheckFields | main.go:61-84 | the field checks in order: fewer than five fields is MalformedLine; with five, an empty type or id is MissingIdentity; success exactly when both coordinates parse, with the fields and coordinates as values |
| Parser.Parse | main.go:60-109 | a parsed record always has non-empty device type and id; the line is rejected exactly when the field checks fail |
| Parser.ParseApps | main.go:86-100 | the app loop returns exactly the ids of the trimmed comma-separated tokens that parse as uint32, in order |
| Parser.ParseAppsInstalled | main.go:60-109 | the parser method (the field checks through `CheckFields`, then the app loop) returns exactly what `Parse` specifies, records and errors alike |
| Parser.AppIdsAppend | main.go:89-100 | tokens are filtered one by one: the ids of two token lists concatenated are the two id lists concatenated |
| Parser.AppIdsBound | main.go:89-100 | a bad token is dropped, never replaced: there are at most as many ids as tokens |
| Parser.AppIdsMembership | main.go:89-100 | an id is in the list exactly when some token, trimmed, parses to it |
| Parser.AppIdsOfDecimalTokens | main.go:88-100 | ids written in decimal all survive the filter, in order |
| Parser.ParseFormattedLine | main.go:60-109 | round trip: a well-formed line written from a record, with any extra fields, parses back to that record |
| Parser.MissingIdentityMeansEmptyDevId | main.go:61-74 | after trimming the first field is never empty, so MissingIdentity means an empty device id |
| Parser.EmptyLastFieldMalformed | main.go:61-64 | a line whose app field is empty and last loses its final tab and is MalformedLine |
| Parser.EmptyIdentityMalformed | main.go:61-64 | a five-field line whose type and id are both empty loses its two leading tabs and is MalformedLine |
| Parser.PaddingIgnored | main.go:61 | white space at either end of a line, empty or blank end fields included, does not change how it parses |
| Parser.LeadingSpaceIgnored | main.go:61 | white space (empty leading fields included) in front of a line does not change how it parses |
| Parser.EmptyTypeShiftsFields | main.go:61-74 | an empty type field in front of a well-formed line is dropped, so its fields are read one place to the left and the line parses to their record, not to MissingIdentity |
| ParserExamples.BadTokenSkipped | main.go:94-98 | "1,x,3" yields the ids [1, 3] |
| ParserExamples.BadLatitudeRejected | main.go:76-79 | a line whose latitude does not parse is rejected as InvalidLat |
| ParserExamples.LeadingTabsTrimmed | main.go:61-64 | "\t\t55.55\t42.42\t1" is MalformedLine, not MissingIdentity |
| ParserExamples.LeadingTabShiftsFields | main.go:61-74 | "\tidfa\tX\t1\t2\t3" is the record of type idfa, id X and apps [3] |
| ParserExamples.TrailingEmptyAppsTrimmed | main.go:61-64 | "idfa\tID1\t55.55\t42.42\t" is MalformedLine |
| ParserExamples.ExtraFieldKeepsEmptyApps | main.go:61-70 | "idfa\tX\t1\t2\t\t7" is the idfa record of id X with no apps: the sixth field keeps the empty fifth one |
| ParserExamples.BadTokenLineParses | main.go:86-108 | a line with a bad app token still gives a record, with only that token dropped |
| Writer.Route | main.go:190-195 | a device type reaches a shard exactly when it is one of idfa, gaid, adid, dvid |
| Writer.RouteTag | main.go:316-321 | the shard table and the tags are inverse: a type routes to a device exactly when it is that device's tag |
| Writer.Key | main.go:119 | the `devType:devId` key; its contract is stated by KeyInjective |
| Writer.KeyInjective | main.go:119 | keys `devType:devId` with a colon-free type determine the type and the id |
| Writer.RoutedKeyInjective | main.go:119 | two routed records with the same key have the same device type and id |
| Writer.Insert | main.go:111-139 | a write succeeds exactly when serialisation succeeds and, outside dry-run mode, the `Set` succeeds; a `Set` is attempted (Stored or BackendWriteError) exactly when serialisation succeeds outside dry-run mode, and DryRun is the outcome exactly when serialisation succeeds in dry-run mode; failed serialisation is SerializationError; every keyed outcome carries `devType:devId` |
| Processor.Classify | main.go:178-209 | one loop iteration; its contract is stated by ClassifyBlank, CountLine and ErrorLineCounted |
| Processor.ClassesAppend | main.go:178-210 | each line is classified on its own, with its own reply: the classes of two runs of lines are the classes of each run, concatenated |
| Processor.ScanLine | main.go:178-209 | one loop iteration changes the counters exactly as the line's class says: blank skipped, parse failure or unknown type an error, a write's outcome to processed or errors |
| Processor.ScanLines | main.go:160-210 | the scan loop ends with exactly the counters of the fold over the lines' classes |
| Processor.TallyLast | main.go:178-210 | the counters of the lines are those of all but the last, counted with the last line's class |
| Processor.TallySnoc | main.go:178-210 | one more line adds onto the counters so far by that line's class only |
| Processor.ClassifyBlank | main.go:179-182 | a line is skipped as blank exactly when it is empty once trimmed |
| Processor.Count | main.go:169-175 | the counter update for one line; its contract is stated by CountOne and CountLine |
| Processor.CountLine | main.go:169-209 | a line whose trimmed text parses, routes to a shard and is written successfully adds one to processed; any other non-blank line (parse failure, unknown type, failed write) adds one to errors; a blank line changes nothing |
| Processor.CountOne | main.go:169-175 | a blank line changes no counter; any other line adds one to exactly one of them |
| Processor.CountAllAppend | main.go:169-175 | the counters of two runs of lines add up |
| Processor.TallyBySource | main.go:160-210 | the scan's processed counter is the number of successfully written lines and its errors counter the number of other non-blank lines |
| Processor.TallyCountsNonBlank | main.go:178-210 | every non-blank line is counted exactly once, as processed or as an error |
| Processor.CountAllError | main.go:184-195 | an error class anywhere adds one error and leaves the rest of the count unchanged |
| Processor.ErrorLineCounted | main.go:184-195 | a non-blank line whose trimmed text fails to parse, or parses to a device type with no shard, adds one error and the scan goes on: the other lines count as if it were absent |
| Processor.Evaluate | main.go:223-233 | no rate exactly when nothing was processed; otherwise acceptable exactly when errors/processed < 0.01, and too many errors exactly when it is not |
| Processor.RateBelow | main.go:228-229 | errors/processed < 1/100 exactly when 100·errors < processed |
| Processor.EvaluateMonotone | main.go:228-233 | more errors at the same processed count never improve the verdict |
| Processor.ProcessFile | main.go:143-236 | an unreadable file is skipped and not renamed; a readable one gets the tally of its lines, the evaluation of that tally, and the rename to `.base` in its own directory whatever the verdict |
| FilePath.Base | main.go:54 | the base name is a normal path component without a slash |
| FilePath.Dir | main.go:53 | `filepath.Dir` on a clean path; its contract is stated by JoinDirBase and DotRename |
| FilePath.PathJoin | main.go:55 | `filepath.Join` of a directory and a name; its contract is stated by JoinDirBase and DotRename |
| FilePath.DotRename | main.go:52-57 | the marker path is a clean path in the same directory whose base name is "." followed by the old base name |
| FilePath.JoinDirBase | main.go:53-55 | joining Dir and Base of a clean path gives back the path |
| FileOrder.Swap | main.go:356 | the two entries are exchanged and nothing else changes |
| FileOrder.SortByModTime | main.go:353-359 | the array ends ordered by modification time and holds the same entries as before |
| FileOrder.SortedUnique | main.go:353-359 | with distinct times, two time-ordered permutations of the same files are equal |

## Left out

- Opening the file, the gzip reader, `bufio.Scanner` and its 64 KiB line limit, and `scanner.Err()` are left out because they are I/O. The lines passed in are the ones the scanner delivers, and a read error only ends the list.
- The memcache client, its timeouts and `Set` are left out because they are network I/O. Their answer is `Reply.setOk`.
- Protobuf serialisation and `protoTest` are left out because they are foreign code. Serialisation's answer is `Reply.marshalOk`.
- `strconv.ParseFloat` and float64 values are left out because they are floating point. Parsing is a parameter, and coordinates are reals.
- Goroutines, the `WaitGroup`, the semaphore, `resultChan` and the 100 ms sleep are left out because they are concurrency. The scan counts every outcome in line order, as if all results had arrived before the rate is computed. The code updates `errors` from two goroutines without synchronisation.
- Logging, the command-line flags, the log file, `filepath.Glob`, `os.Stat` (files whose stat fails are dropped) and the loop over the sorted files are left out because they are I/O or configuration.
- `os.Rename` is left out because it is I/O. Only the target name is computed, and its error is ignored as in the code.
- GoStrings.TrimSpace: strips ASCII white space only, because strings are sequences of characters. Go's Unicode white space (U+0085, U+00A0, …) and UTF-8 decoding are not modelled.
- FilePath.DotRename: covers clean slash-separated paths only (no empty, ".", ".." components, no trailing slash), because `filepath.Clean` is not modelled.
- Processor.ProcessFile: requires a clean path for the same reason.
- Processor.Evaluate: uses exact rational division and the exact value 1/100, not float64 division and the float64 nearest to 0.01.
- FileOrder.SortByModTime: modification times are integers, not `time.Time` values with monotonic readings.
