# DocumentUploader core, modelled in Dafny

DocumentUploader is a command-line load generator for a Directum RX integration
service. Its `import` command takes a folder of documents. It gives every
subfolder to its own agent, and each agent plans its files in portions. A portion
is uploaded either as batches of at most `batchSize` files, where each batch is
one OData batch request with three operations per document, or one file per
request ("discrete mode"). Portions are started at `portionIndex * uploadPortionsInterval`
plus a random jitter. When the upload order is sequential, the units inside a
portion are started one after another with `uploadInterval` plus jitter between
them. The run returns exit code 0, or -1 after any exception. A repository of
application ids parses a configuration string such as `"5, 7, 10..12"` and picks
one id at random for every version it creates.

The model has one module per source concern:

| module | file | models |
|---|---|---|
| `Wrappers` | `wrappers.dfy` | `Option` and `Result` |
| `Settings`, `Documents` | `settings.dfy` | `DocumentUploadSettings`, `DocumentUploadOrder`, `DocumentInfo` |
| `LinqExtensions` | `linq_extensions.dfy` | `SplitPages` and the LINQ `Take`/`Skip` it uses |
| `Text` | `text.dfy` | .NET `Trim`, `Replace`, `Split(..., RemoveEmptyEntries)`, `Contains` and `int.Parse` |
| `Repository` | `repository.dfy` | `Repository.ParseIds` and `GetRandomId` |
| `Schedule` | `schedule.dfy` | the upload plan of `ImportDocumentsParallel`/`ImportDocumentsSequential` and `GetRandomTime` |
| `Operations` | `operations.dfy` | the OData operations of discrete mode and of batch mode |
| `Importer` | `importer.dfy` | `ImportFrom`, `ImportDocuments`, `GetDocumentsFolder`, `ReplaceSpecialSymbols` |
| `DocumentsCommand` | `documents_command.dfy` | the options of `import` and `ImportDocumentsHandler` |

The outside world is passed in as values:

- The file system, the result of `IntegrationServiceClient.Create` and every
  `random.Next` draw come in as the oracles of `Importer.Environment`.
- The longest wait `Task.Delay` accepts depends on the runtime (`int.MaxValue` ms
  before .NET 6, `0xFFFFFFFE` ms from .NET 6 on), so it comes in as
  `Importer.Environment.maxDelay`. A longer wait makes an agent fail.
- A draw is a function of its *site* (`Schedule.DrawSite`). `Schedule.ValidDraws`
  states the range `random.Next(0, max)` promises: `0 <= x < max`, or `0` when `max` is 0.
- An uploaded document is described by the sequence of OData operations the
  importer sends. The service that executes them is not modelled.
- Durations are whole milliseconds (`nat`). `Int32` settings keep their 32-bit range.

## Model

| member | source | states |
|---|---|---|
| LinqExtensions.SplitPages | LinqExtensions.cs:15-22 | the loop yields exactly `Pages(source, pageSize)`: pages that concatenate back to the source, each non-empty and at most `pageSize` long, all but the last exactly `pageSize` long |
| LinqExtensions.Take | LinqExtensions.cs:19 | `Take` is a prefix of the source, of length `count` clamped to `[0, |s|]` |
| LinqExtensions.Skip | LinqExtensions.cs:20 | `Take(s, n) + Skip(s, n)` is the source |
| LinqExtensions.FlattenPages | LinqExtensions.cs:15-22 | concatenating the pages gives back the source: no element is lost, duplicated or reordered |
| LinqExtensions.PagesSized | LinqExtensions.cs:15-22 | there are no pages exactly when the source is empty; every page has 1 to `pageSize` elements and every page but the last is full |
| LinqExtensions.PagesCount | LinqExtensions.cs:15-22 | the number of pages is `ceil(|source| / pageSize)` |
| LinqExtensions.NonPositivePageSizeNeverEnds | LinqExtensions.cs:17-21 | with `pageSize <= 0` and a non-empty source, every step yields an empty page and leaves the source unchanged, so the enumeration never ends |
| LinqExtensions.PositivePageSizeEnds | LinqExtensions.cs:17-21 | with a positive page size the enumeration ends after at most `|source|` steps, having yielded exactly the pages |
| LinqExtensions.FlattenAppend | LinqExtensions.cs:15-22 | concatenation distributes over appended page lists |
| Text.TrimStartBy | Repositories/Repository.cs:61 | leading trim removes exactly a run of white characters and stops at a non-white one |
| Text.TrimEndBy | Repositories/Repository.cs:61 | trailing trim removes exactly a run of white characters and stops at a non-white one |
| Text.TrimIsSlice | DocumentsImporter.cs:447 | `Trim` returns a contiguous slice of its input, everything cut off on both sides is white space, and the result neither starts nor ends with white space |
| Text.TrimIdempotent | DocumentsImporter.cs:447 | trimming twice is trimming once |
| Text.Trim | DocumentsImporter.cs:447 | `String.Trim` over .NET's white-space set; `TrimIsSlice` states that it cuts exactly the white space at both ends and `TrimIdempotent` that a second trim changes nothing |
| Text.RemoveAll | DocumentsImporter.cs:447 | `Replace(c, "")` leaves no `c`, keeps every other character as often as before, and changes nothing when `c` is absent |
| Text.Split | Repositories/Repository.cs:54 | `Split` always yields at least one part |
| Text.JoinSplit | Repositories/Repository.cs:54 | joining the parts of a split with the delimiter gives back the input |
| Text.SplitAround | Repositories/Repository.cs:54 | splitting `a + d + b` at a one-character delimiter `d` is splitting `a` and then `b` |
| Text.SplitWithout | Repositories/Repository.cs:54 | a string with no delimiter character splits into itself alone |
| Text.SplitAfter | Repositories/Repository.cs:57 | when `a` holds no delimiter character, `a + d + b` splits into `a` followed by the parts of `b` |
| Text.NotContains | Repositories/Repository.cs:56 | a string without the delimiter's first character does not contain the delimiter |
| Text.ContainsAt | Repositories/Repository.cs:56 | an occurrence at any position makes `Contains` true |
| Text.Contains | Repositories/Repository.cs:56 | ordinal `String.Contains`: some position of the text starts with the delimiter; `ContainsAt` states that an occurrence makes it true and `NotContains` that a text without the delimiter's first character makes it false |
| Text.NonEmpty | Repositories/Repository.cs:54 | `RemoveEmptyEntries` leaves only non-empty parts |
| Text.NonEmptyAppend | Repositories/Repository.cs:54 | removing empty entries distributes over concatenation |
| Text.ParseInt32 | Repositories/Repository.cs:58 | `int.Parse` either fails or returns a value in the 32-bit range |
| Text.ParseFormatInt32 | Repositories/Repository.cs:58 | `int.Parse` of the decimal text of any 32-bit integer returns that integer |
| Text.ParseNonNegative | Repositories/Repository.cs:58 | the digits of any `m <= int.MaxValue` parse to `m` |
| Text.ParseNegative | Repositories/Repository.cs:58 | `-` followed by the digits of any `m <= 2^31` parses to `-m` |
| Text.TrimFormatInt32 | Repositories/Repository.cs:61 | the text of an integer has nothing for `Trim` to remove |
| Text.DigitsValueOfDigits | Repositories/Repository.cs:58 | reading back the decimal digits of `n` gives `n` |
| Text.FormatInt32Chars | Repositories/Repository.cs:58 | the text of an integer is digits with at most a leading minus, and it ends in a digit |
| Repository.ParseIds | Repositories/Repository.cs:46-71 | the method's result is `IdList(rawIds)`: the plain ids in token order followed by every range expanded, or no list where `int.Parse`, the range indexing, the checked `Sum`, the list capacity or `Enumerable.Range` throws |
| Repository.IdList | Repositories/Repository.cs:46-71 | what `ParseIds` returns, as a value; `ParseFormattedIds` states the round trip from valid entries, `MalformedTokenFails` the failures, `IdListLength` the length and `EmptyTokensIgnored` that extra commas do not matter |
| Repository.Assemble | Repositories/Repository.cs:60-70 | the ids followed by the expanded ranges, or no list; `BuildIdList` and `AppendRanges` are proved equal to it and `ListedSpansFit` and `SuccessMeansList` state when it gives a list |
| Repository.Tokens | Repositories/Repository.cs:54 | the non-empty comma-separated tokens; `TokensOfFormat`, `OneToken`, `TokenThenRest`, `TokensBounded` and `EmptyTokensIgnored` state what they are |
| Repository.ParseId | Repositories/Repository.cs:61 | `int.Parse(t.Trim())`; `FormattedSingle` states that the text of any 32-bit id parses back to it |
| Repository.RangeLength | Repositories/Repository.cs:51 | the unchecked `End - Start + 1`; `Wrap32` gives its range and wrap-around, `RangeAccepted` and `RangeRejected` relate it to what `Enumerable.Range` accepts |
| Repository.CheckedSum | Repositories/Repository.cs:60 | the checked `Enumerable.Sum`: a total over a non-empty list always lies in the `int` range, and `CheckedSumOfSpans` states that it fails exactly when the true total does not fit |
| Repository.BuildIdList | Repositories/Repository.cs:60-70 | the `Sum`, the `List` capacity and the `Enumerable.Range` checks fail exactly when the assembled list does not exist, and otherwise the list is the ids followed by the expanded ranges |
| Repository.AppendRanges | Repositories/Repository.cs:66-69 | the loop succeeds exactly when every range has a span in `[0, int.MaxValue]`, and then it appends exactly the expanded ranges |
| Repository.RangeRejected | Repositories/Repository.cs:68 | when `Enumerable.Range` throws for one range, not all ranges fit |
| Repository.RangeAccepted | Repositories/Repository.cs:68 | when `Enumerable.Range` accepts a range, its span is in `[0, int.MaxValue]` |
| Repository.MisfitMeansNoList | Repositories/Repository.cs:68 | a range that does not fit means no list |
| Repository.SumFailureMeansNoList | Repositories/Repository.cs:60 | an overflow of the checked sum of range lengths means no list |
| Repository.CapacityFailureMeansNoList | Repositories/Repository.cs:64 | a negative (wrapped) capacity means no list |
| Repository.SuccessMeansList | Repositories/Repository.cs:64-70 | when all checks pass the list is the ids followed by the expanded ranges |
| Repository.ListedSpansFit | Repositories/Repository.cs:60-70 | a list exists only when every span and the total fit in 32 bits |
| Repository.Wrap32 | Repositories/Repository.cs:51 | unchecked 32-bit addition: the result is in range, congruent modulo 2^32, equal to the exact value when that fits, and one wrap below it just past `int.MaxValue` |
| Repository.CheckedSumOfSpans | Repositories/Repository.cs:60 | for spans in 32-bit range, the checked `Sum` of lengths is the total span when it fits and overflows otherwise |
| Repository.MapAll | Repositories/Repository.cs:58 | the projection succeeds exactly when every element parses, and then holds each parse in order |
| Repository.Filter | Repositories/Repository.cs:56 | `Where` never lengthens the sequence |
| Repository.FilterKeeps | Repositories/Repository.cs:56 | every element that satisfies the predicate survives `Where` |
| Repository.FilterPartition | Repositories/Repository.cs:55-62 | every token is either an id token or a range token, so `tokens.Length - ranges.Length` is the id-token count |
| Repository.ParseRange | Repositories/Repository.cs:57-58 | a range that parses has both ends in `[0, int.MaxValue]` (`Range` rejects negative indices) |
| Repository.Expand | Repositories/Repository.cs:68 | a range of span `n` yields `n` consecutive ids from its start and ends at its end |
| Repository.ExpandAllLength | Repositories/Repository.cs:66-69 | the expanded ranges hold exactly `TotalSpan` ids |
| Repository.ExpandAllAppend | Repositories/Repository.cs:66-69 | expanding one more range appends exactly its ids |
| Repository.TokensBounded | Repositories/Repository.cs:54 | a string has no more non-empty tokens than characters |
| Repository.MalformedTokenFails | Repositories/Repository.cs:53-58 | one id token that does not parse, or one range token that does not parse or is reversed, makes the whole parse fail |
| Repository.IdListLength | Repositories/Repository.cs:62-64 | the list holds one id per id token plus the total span of the ranges |
| Repository.EmptyTokensIgnored | Repositories/Repository.cs:54 | doubled, leading and trailing commas change nothing |
| Repository.TokensOfFormat | Repositories/Repository.cs:54 | the tokens of a comma-joined list of entries are the entries' own texts |
| Repository.OneToken | Repositories/Repository.cs:54 | a non-empty text without a comma is a single token |
| Repository.TokenThenRest | Repositories/Repository.cs:54 | a comma-free token followed by a comma splits into that token and the tokens of the rest |
| Repository.RangeParts | Repositories/Repository.cs:57 | `a..b` splits at `..` into exactly `a` and `b` |
| Repository.FormattedSingle | Repositories/Repository.cs:61 | the text of a 32-bit id is an id token that parses back to the id |
| Repository.FormattedSpan | Repositories/Repository.cs:56-58 | the text `a..b` is a range token that parses back to the range `a..b` |
| Repository.FormattedEntryToken | Repositories/Repository.cs:54 | the text of an entry is non-empty and holds no comma |
| Repository.FormattedEntryDenotes | Repositories/Repository.cs:56-61 | the text of a valid entry parses back to that entry |
| Repository.FormattedEntriesDenote | Repositories/Repository.cs:56-61 | every formatted entry parses back to its entry |
| Repository.FormattedEntries | Repositories/Repository.cs:54 | one text per entry |
| Repository.MapFilterCollect | Repositories/Repository.cs:55-61 | filtering tokens and then parsing them collects exactly the matching entries' values |
| Repository.ParseDenoted | Repositories/Repository.cs:55-61 | tokens that denote entries parse to the entries' ids and ranges |
| Repository.ParseFormattedIds | Repositories/Repository.cs:46-71 | round trip: parsing the formatted list of any valid entries gives their ids followed by their expanded ranges |
| Repository.GetRandomId | Repositories/Repository.cs:31-38 | an empty list gives 0, one id gives that id, and more ids give the id at the drawn index; a non-empty list always gives a member |
| Schedule.ImportDocumentsParallel | DocumentsImporter.cs:138-168 | the tasks built are exactly `Plan(..., Parallel, ...)` |
| Schedule.ImportDocumentsSequential | DocumentsImporter.cs:175-219 | the tasks built are exactly `Plan(..., Sequential, ...)` |
| Schedule.ParallelTasks | DocumentsImporter.cs:143-166 | the loop over portions builds one task per portion, in order, each as planned |
| Schedule.SequentialTasks | DocumentsImporter.cs:188-217 | the loop over portions builds one task per portion, in order, each as planned |
| Schedule.ParallelPortionTask | DocumentsImporter.cs:145-164 | one portion's task in parallel order is as planned |
| Schedule.SequentialPortionTask | DocumentsImporter.cs:190-215 | one portion's task in sequential order is as planned |
| Schedule.SplitIntoPortions | DocumentsImporter.cs:143 | the portions are the pages of a positive portion size, or the whole file list |
| Schedule.PortionUnits | DocumentsImporter.cs:148-162 | a positive batch size gives one batch per page, otherwise one unit per file |
| Schedule.UploadOneAtATime | DocumentsImporter.cs:193-212 | one delay per unit, as `getDelayBeforeUpload` computes it |
| Schedule.PortionsPartitionFiles | DocumentsImporter.cs:143 | the portions concatenate back to the files; with portioning there are `ceil(n / portionSize)` portions, each non-empty and at most `portionSize` long, all but the last full; without it there is one portion |
| Schedule.UnitsPartitionPortion | DocumentsImporter.cs:148-162 | a portion's units carry exactly its files in order; batches are non-empty and at most `batchSize` long, all but the last full; in discrete mode there is one single file per unit |
| Schedule.BatchFiles | DocumentsImporter.cs:150 | batches carry exactly their pages' files |
| Schedule.SingleFiles | DocumentsImporter.cs:157 | single units carry exactly the files |
| Schedule.PlanFilesFollowPortions | DocumentsImporter.cs:143-166 | tasks that each carry their portion carry all portions, in order |
| Schedule.PlanCoversFiles | DocumentsImporter.cs:138-219 | in either order, the plan uploads every file of the folder exactly once, in enumeration order |
| Schedule.JitterBounds | DocumentsImporter.cs:466-469 | a jitter for `interval * 0.1` is below `max(1, interval / 10)`: 0 for intervals under 10 ms, and always below a positive interval |
| Schedule.AgentStartBelowTimeout | DocumentsImporter.cs:83 | an agent starts after 0 ms when the timeout is 0, and strictly before the timeout otherwise |
| Schedule.OffsetBounds | DocumentsImporter.cs:146 | portion `i` starts at least `i * uploadPortionsInterval` and less than one jitter limit later |
| Schedule.OffsetsIncrease | DocumentsImporter.cs:146 | with a positive interval, later portions start strictly later |
| Schedule.DelayBounds | DocumentsImporter.cs:178-184 | the first unit waits less than one jitter limit; every later unit waits at least `uploadInterval` and less than `uploadInterval` plus one jitter limit |
| Schedule.DelaysFit | DocumentsImporter.cs:149 | whether `Task.Delay` accepts every wait of an agent's plan: each portion's offset and, in sequential order, each unit's delay; `PlanDelaysFit`, `LatePortionBreaksDelays` and `LateUnitBreaksDelays` state when it holds |
| Schedule.PlanDelaysFit | DocumentsImporter.cs:143-217 | every wait of a plan fits the limit when the portion count times `uploadPortionsInterval` fits and, in sequential order, twice `uploadInterval` fits |
| Schedule.LatePortionBreaksDelays | DocumentsImporter.cs:146-149 | two files in portions of one with `uploadPortionsInterval` past the limit give a portion offset that `Task.Delay` refuses, in either order |
| Schedule.LateUnitBreaksDelays | DocumentsImporter.cs:178-210 | two files uploaded one by one in sequential order with `uploadInterval` past the limit give a second delay that `Task.Delay` refuses |
| Schedule.SequentialWaitGrows | DocumentsImporter.cs:193-212 | in sequential order the `k`-th unit starts no earlier than `k * uploadInterval` after its portion |
| Schedule.OrdersShareSchedule | DocumentsImporter.cs:138-219 | the two orders plan the same portions, offsets and units; parallel delivers a portion's units concurrently, sequential one at a time with one delay per unit |
| Schedule.ThreeFilesInPortionsOfTwo | DocumentsImporter.cs:175-219 | three files in portions of two, in discrete mode, give portions `[f0, f1]` and `[f2]` uploaded one file at a time |
| Schedule.FiveFilesInBatchesOfTwo | DocumentsImporter.cs:138-168 | five files with no portioning and batches of two give one portion of batches `[f0, f1]`, `[f2, f3]`, `[f4]` |
| Schedule.Plan | DocumentsImporter.cs:143 | one task per portion |
| Schedule.FilePortions | DocumentsImporter.cs:143 | the portions of the agent's files; `PortionsPartitionFiles` states that they partition the files in order with the sizes `SplitPages` gives |
| Schedule.UnitsOf | DocumentsImporter.cs:148-162 | the units of a portion; `UnitsPartitionPortion` states that they carry exactly its files, in batches or one by one |
| Schedule.PortionOffset | DocumentsImporter.cs:146 | a portion's wait; `OffsetBounds` and `OffsetsIncrease` state its bounds and order |
| Schedule.DelayBeforeUpload | DocumentsImporter.cs:178-184 | `getDelayBeforeUpload`; `DelayBounds` and `SequentialWaitGrows` state its bounds |
| Schedule.RandomTimeBound | DocumentsImporter.cs:466-469 | the bound `GetRandomTime` passes to `random.Next`; `JitterBounds` and `AgentStartBelowTimeout` state what the draws then are |
| Schedule.PortionPlans | DocumentsImporter.cs:144-166 | one task per portion |
| Schedule.UnitDelays | DocumentsImporter.cs:193-212 | one delay per unit |
| Operations.ImportDocumentsBatch | DocumentsImporter.cs:335-347 | the loop numbers documents from 1 and sends exactly `BatchOperations` |
| Operations.BatchOperationsAt | DocumentsImporter.cs:355-390 | document `k` (from 0) contributes operations `3k` to `3k+2`: the document with id `-2k-1`, its version `-2k-2` with number 1, and the body that refers to both |
| Operations.BatchLength | DocumentsImporter.cs:335-390 | a batch has exactly three operations per document, even for an empty body |
| Operations.BatchDeclaredIds | DocumentsImporter.cs:358-359 | the documents and versions of a batch, and only they, carry temporary ids, and these follow `-2*index+1` and `-2*index` |
| Operations.BatchIdsDistinct | DocumentsImporter.cs:358-359 | the temporary ids of a batch are negative and pairwise distinct |
| Operations.BatchResolves | DocumentsImporter.cs:355-390 | every version and body in a batch refers to a document or version created earlier in the same batch |
| Operations.SingleDocumentResolves | DocumentsImporter.cs:228-288 | in discrete mode every version and body refers to an entity created by an earlier request |
| Operations.BatchCarriesDocuments | DocumentsImporter.cs:335-390 | a batch creates one document per file with its full name, in order, and uploads every body, empty ones included |
| Operations.SingleDocumentCarries | DocumentsImporter.cs:265-288 | discrete mode creates the document, then two more requests when the body is non-empty and none when it is empty |
| Operations.DocumentNamesAppend | DocumentsImporter.cs:335-347 | the documents of concatenated requests are concatenated |
| Operations.BodiesAppend | DocumentsImporter.cs:335-347 | the bodies of concatenated requests are concatenated |
| Operations.CarriedByThree | DocumentsImporter.cs:355-390 | the documents and bodies of three operations are those of each operation in turn |
| Operations.FillBody | DocumentsImporter.cs:265-288 | a version and a body for a non-empty file, nothing for an empty one; `SingleDocumentCarries` and `SingleDocumentResolves` state it |
| Operations.SingleDocumentOperations | DocumentsImporter.cs:228-288 | the requests of discrete mode for one file; `SingleDocumentCarries` and `SingleDocumentResolves` state what they carry and refer to |
| Operations.AddDocumentToBatch | DocumentsImporter.cs:355-390 | one document's three batch operations; `BatchOperationsAt` states them for every index |
| Operations.BatchOperations | DocumentsImporter.cs:335-347 | the operations of one batch; `BatchOperationsAt`, `BatchLength`, `BatchDeclaredIds`, `BatchIdsDistinct`, `BatchResolves` and `BatchCarriesDocuments` state them |
| Importer.ImportFrom | DocumentsImporter.cs:63-111 | the run is `ImportRun`, and the exit code is 0 exactly when it succeeded and -1 otherwise |
| Importer.ImportDocuments | DocumentsImporter.cs:119-131 | an agent plans all its folder's files in the configured order and reports their number; an enumeration failure, a wait of the plan that `Task.Delay` refuses, or more than `int.MaxValue` files give no count |
| Importer.RunAgent | DocumentsImporter.cs:81-97 | one agent's run: the start delay, which fails when `Task.Delay` refuses it, then 0 when no client could be created, else the folder's import |
| Importer.StartAgents | DocumentsImporter.cs:79-98 | one agent per subfolder, in order, each numbered by its position |
| Importer.ReplaceSpecialSymbolsCleans | DocumentsImporter.cs:443-448 | null stays null; the result has no quotes and no surrounding white space; the function is idempotent and leaves a clean path unchanged |
| Importer.GetDocumentsFolderGuards | DocumentsImporter.cs:422-436 | a blank path, and only a blank path, fails first; a missing directory fails next; success needs both the given and the cleaned path to exist and yields the full cleaned path |
| Importer.InvalidFolderStopsRun | DocumentsImporter.cs:63-71 | a blank or missing folder fails the run with that error |
| Importer.WhenAllRuns | DocumentsImporter.cs:99 | `Task.WhenAll` succeeds exactly when every agent succeeded, and then holds their results in order |
| Importer.CheckedSumOfCounts | DocumentsImporter.cs:99 | the checked `Sum` of counts is their total when that fits in `int` and overflows otherwise |
| Importer.RunAgents | DocumentsImporter.cs:72-99 | a successful run has one agent per subfolder (or one for the folder itself when it has none), each the run of its folder, and the count is their sum, within `int` |
| Importer.AggregateRuns | DocumentsImporter.cs:79-99 | the aggregate holds each agent's run in order and the summed count |
| Importer.AgentRunFacts | DocumentsImporter.cs:81-97 | every agent reports its folder and start delay, and every wait it planned fits `Task.Delay`; a start delay past the limit fails it; with no client it reports 0 files and uploads nothing; otherwise it fails exactly when the start delay is refused, listing fails, a planned wait is refused or the count overflows, and else counts and uploads exactly the folder's files |
| Importer.AggregateOutcome | DocumentsImporter.cs:99-109 | the run fails with an agent's failure exactly when some agent failed, and with an overflow exactly when the total count exceeds `int.MaxValue` |
| Importer.TwoFoldersOfThreeFiles | DocumentsImporter.cs:63-219 | two subfolders of three files each, in portions of two and discrete sequential mode, with every wait within `Task.Delay`'s limit (twice each interval and the start timeout at most the limit), give two agents, a count of 6 and portions `[f0, f1]`, `[f2]` in each |
| Importer.AgentOfThreeFiles | DocumentsImporter.cs:81-97 | an agent with a client over three files, in portions of two in discrete sequential mode, with intervals and start timeout that `Task.Delay` accepts, counts 3 and uploads portions `[f0, f1]` and `[f2]` |
| Importer.LatePortionFailsAgent | DocumentsImporter.cs:146-167 | an agent with a client over two files in portions of one fails when `uploadPortionsInterval` exceeds `Task.Delay`'s limit: portion 1's wait is refused and `Task.WhenAll` rethrows |
| Importer.AgentOfFiveFiles | DocumentsImporter.cs:81-97 | an agent with a client over five files, unportioned with batches of two in parallel, plans one portion of batches `[f0, f1]`, `[f2, f3]`, `[f4]` started after its jitter, and counts 5 |
| Importer.OneAgentAggregate | DocumentsImporter.cs:99 | a single agent's run is the whole summary and its count the total |
| Importer.TwoAgentsAggregate | DocumentsImporter.cs:99 | two agents that each report three files give a successful run with both agents in order and a total of 6 |
| Importer.OneFolderOfFiveFiles | DocumentsImporter.cs:63-168 | a folder with no subfolders and five files, unportioned with batches of two in parallel, with a start timeout and portion interval that `Task.Delay` accepts, gives one agent of one portion with batches `[f0, f1]`, `[f2, f3]`, `[f4]` and a count of 5 |
| Importer.AgentOutcomes | DocumentsImporter.cs:79-98 | one outcome per subfolder |
| Importer.ImportRun | DocumentsImporter.cs:63-111 | the whole import as a value; `RunAgents`, `InvalidFolderStopsRun` and `AggregateOutcome` state when it succeeds and what it then holds |
| Importer.AgentRunOf | DocumentsImporter.cs:81-97 | one agent's outcome; `AgentRunFacts` states when it fails and what it holds |
| Importer.AgentFolders | DocumentsImporter.cs:72-74 | the subfolders, or the folder itself when it has none; `RunAgents` states the agents it gives |
| Importer.WhenAll | DocumentsImporter.cs:99 | `Task.WhenAll`: when every agent succeeded, one result per agent; `WhenAllRuns` states that it succeeds exactly then, with the results in order |
| Importer.Aggregate | DocumentsImporter.cs:99 | the agents' results and their checked total; `AggregateOutcome` and `AggregateRuns` state it |
| Importer.GetDocumentsFolder | DocumentsImporter.cs:422-436 | the checked and cleaned folder; `GetDocumentsFolderGuards` states its guards |
| Importer.ReplaceSpecialSymbols | DocumentsImporter.cs:443-448 | the path without quotes and surrounding white space; `ReplaceSpecialSymbolsCleans` states it |
| DocumentsCommand.HandlerRejects | DocumentsCommand.cs:48-51 | the handler refuses exactly a batch size above a positive portion size; with `portionSize <= 0` every batch size is accepted |
| DocumentsCommand.HandlerCopiesArguments | DocumentsCommand.cs:53-68 | an accepted call passes the path, every upload setting and the connection settings through unchanged, and then no batch exceeds its portion |
| DocumentsCommand.ReturnResultInDiscreteMode | DocumentsCommand.cs:64-72 | the service returns results exactly when `batchSize <= 0`, that is exactly in discrete mode, where every file is its own unit |
| DocumentsCommand.DefaultsAccepted | DocumentsCommand.cs:18-25 | the defaults (timeout 0, portion -1, intervals 0, sequential, batch 1, trace on) are accepted and select batch mode with no returned results |
| DocumentsCommand.PortionThreeBatchFiveRefused | DocumentsCommand.cs:48-51 | portion 3 with batch 5 is refused before anything is imported |
| DocumentsCommand.RunImportExitCode | DocumentsCommand.cs:44-75 | an accepted call returns 0 when the import succeeded and -1 otherwise, and -1 for a blank path |
| DocumentsCommand.ImportDocumentsHandler | DocumentsCommand.cs:46-75 | the handler's guard and the request it builds; `HandlerRejects`, `HandlerCopiesArguments` and `ReturnResultInDiscreteMode` state them |
| DocumentsCommand.RunImport | DocumentsCommand.cs:46-75 | the handler followed by the import; `RunImportExitCode` states its exit code |

## Left out

- Concurrency: `Task.Run`, `Task.WhenAll` and `Task.Delay` become a plan. Each portion carries its start offset, its units and their delivery (concurrent, or one at a time with per-unit delays). Interleavings and wall-clock time are not modelled. A wait past `Task.Delay`'s limit fails the agent. The uploads that other portions still make before `Task.WhenAll` rethrows are not recorded.
- Schedule.PortionOffset: `portionIndex * UploadPortionsInterval` is a `TimeSpan` product, which throws `OverflowException` past `TimeSpan.MaxValue`. The model does not raise that exception. Any such offset is far past `Task.Delay`'s limit, so the agent fails in the model too.
- Schedule.JitterBounds: `interval.TotalMilliseconds * 0.1` is a double. The model computes the shift in whole tenths, `interval * 1 / 10` with integer division, on whole milliseconds. Fractional milliseconds, rounding of the double and an `(int)` cast that overflows for intervals above `int.MaxValue` ms are not modelled. Durations are non-negative, so a negative `TimeSpan`, which `random.Next` would reject, cannot be expressed.
- Randomness: every `random.Next` draw comes from the `draw` oracle, constrained by `ValidDraws`. `GetRandomId` takes the drawn index as a parameter.
- Schedule.AgentStartBelowTimeout: the agent delay is in `[0, agentStartTimeout)`, as `random.Next(0, max)` excludes `max`. The setting's own doc comment (DocumentUploadSettings.cs:27) calls it the time within which all agents must start, which would admit the timeout itself. The code is followed.
- File system: `Directory.Exists`, `Path.GetFullPath`, `Directory.GetDirectories` and the recursive `Directory.EnumerateFiles` are oracles of `Importer.Environment`. `None` stands for any exception they throw.
- Importer.ImportDocuments: `files` is a lazy enumerable. The source enumerates it again at every paging step (each `Any`, `Take` and `Skip` of `SplitPages`) and once more for `Count()`. The model lists the folder once, so a folder that changes between these enumerations is not modelled.
- Importer.AgentRunFacts: the count is the number of files listed, as the source reports. Exceptions swallowed per unit by `ImportSingleDocument` and `ImportDocumentsBatch` (`HandleError`) do not change it, so the count is not the number of documents actually created.
- `GetDocumentInfo` (the `System.IO.Path` arithmetic for `Name`, `FullName` and `Extension`, and `File.ReadAllBytes`) is left out. The operations take `DocumentInfo` values directly, and a missing file is a `DocumentInfo` with an empty body.
- OData execution: `ODataBatch.ExecuteAsync`, `InsertEntryAsync` and the service's responses are left out. A request is an `Operations.Operation` value. `GetDocumentProperties` contributes only the full name. The extra properties that `CashReportImporter` sets are not modelled.
- CashReportImporter is not part of this model beyond its role as the concrete importer the handler constructs.
- Client creation: `IntegrationServiceClient.Create` is the `clientCreated` oracle. The connection settings the handler builds reach the importer only through it.
- Importer.GetDocumentsFolderGuards: the `documentsPath == null` branch at DocumentsImporter.cs:431 cannot be reached, because a non-blank path is never turned into null. The model keeps the test.
- Text.ParseInt32: .NET `int.Parse` with `NumberStyles.Integer` is modelled for ASCII digits, one leading `+` or `-`, and the white space that style allows. Culture-specific signs, non-ASCII digits and thousands separators are not modelled.
- Repository.ParseIds: `new List<int>(capacity)` throws `OutOfMemoryException` for a capacity above the largest array length (`0x7FFFFFC7`), and running out of memory while the list fills is also possible. Neither is modelled: for `"0..2147483646"` the source throws and `IdList` gives a list.
- Repository.ParseIds: a range token such as `1..2..3` has more than two parts, and the source silently ignores the third. The model does the same.
- Repository.GetRandomId: the `Lazy` cache of the parsed list and the configuration lookup (`ConfigSettingsService`) are left out. The list is passed in.
- Logging (`Logger`, `HandleError`), the `Stopwatch` and the trace switch `isTraceEnabled` have no effect on the model's results.
- System.CommandLine option binding and the MEF plugin registration (`Plugin.cs`) are left out. The handler takes its arguments as a record, with the options' defaults as constants.
