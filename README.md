# Test compaction planner and selector

This project models the two compaction plugins that Accumulo's compaction
integration test defines in `CompactionIT.java`.

- **`TestPlanner`** is a compaction planner.
  - `init` reads the options `executors`, `filesPerCompaction` and `process`. `process` is a comma list of compaction kinds, read regardless of letter case.
  - `init` then declares the executors `e0` .. `e(n-1)`, each with capacity 2.
  - `makePlan` returns one of three plans:
    - one job of every candidate, when the `compact_all` execution hint parses as true;
    - for a processed kind: the candidates grouped by the first character of their name (`F` for flush output, `C` for compaction output), each group cut into consecutive batches of exactly `filesPerCompaction` files; the files left over at the end of a group are not planned;
    - an empty plan, otherwise.
  - Each job goes to an executor picked at random.
- **`FooSelector`** is a compaction selector. It reads the `foos` and `bars` statistics of the one `FooCounter` summary. An odd `foos` throws. An even `foos` greater than `bars` selects every available file. Anything else selects nothing.

The integration tests assert how many files a tablet holds once the planner stops planning. `Settling` models this at the level of counts: every job becomes one `C` file, and rounds repeat until a round plans no job. `RoundCensus` ties this model to the planner's grouping. The lemmas about counts reproduce the tests' numbers. This is a model of what the tests expect, not of the tablet server's compaction code, which is not part of this model.

Modules:

- `JavaLang`: the Java library behaviour the plugins depend on:
  - `Integer.parseInt` and `Integer.toString`;
  - `Boolean.parseBoolean`;
  - `String.split` on a one-character delimiter;
  - ASCII `toUpperCase`;
  - `Option` and `Result`.
- `Grouping`: grouping by first character, batches and left-over files, on sequences of file names.
- `Planning`: the class `TestPlanner` with methods `Init` and `MakePlan`, and the functions that specify them (`Configure` and `PlannedFiles`).
- `Settling`: plan-then-replace rounds on file counts.
- `Selection`: the class `FooSelector` and the decision `Decide`.

Java exceptions become error values:

- `NotAnInt`: `parseInt` of a missing or malformed number.
- `MissingProcess`: `split` on a missing `process` option.
- `NoSuchKind`: `valueOf` of an unknown kind.
- `NoExecutors`: `nextInt(0)`.
- `EmptyFileName`: `substring(0, 1)` of an empty name.
- `InvertedSlice`: `subList` with a negative batch size.
- `Unbounded`: the endless loop of batch size 0.
- `FooSelectorException`: the selector's own exception.

## Model

All source cells refer to `test/src/main/java/org/apache/accumulo/test/CompactionIT.java`.

| member | source | states |
|---|---|---|
| JavaLang.ParseInt | test/src/main/java/org/apache/accumulo/test/CompactionIT.java:99-100 | a null option is an error (None); a text parses exactly when it is an optional '+' or '-' sign followed by decimal digits whose value is within the int range, and the result is that value |
| JavaLang.ParseIntDecimal | test/src/main/java/org/apache/accumulo/test/CompactionIT.java:99-100 | parseInt reads back every int value written in decimal |
| JavaLang.Decimal | test/src/main/java/org/apache/accumulo/test/CompactionIT.java:107 | the decimal text of i in "e" + i is non-empty digits denoting i, without a leading zero |
| JavaLang.ToUpperCase | test/src/main/java/org/apache/accumulo/test/CompactionIT.java:103 | upper-casing keeps the length, changes exactly the lower-case letters, leaves no lower-case letter and keeps every character's lower-case form |
| JavaLang.UpperCaseKeeps | test/src/main/java/org/apache/accumulo/test/CompactionIT.java:103 | text without lower-case letters upper-cases to itself |
| JavaLang.UpperCaseMatches | test/src/main/java/org/apache/accumulo/test/CompactionIT.java:103 | a text upper-cases to a target without lower-case letters exactly when it equals that target ignoring case |
| JavaLang.ParseBoolean | test/src/main/java/org/apache/accumulo/test/CompactionIT.java:120 | true exactly for a present "true" in any mix of letter cases |
| JavaLang.FieldsJoin | test/src/main/java/org/apache/accumulo/test/CompactionIT.java:102 | the pieces between commas contain no comma and join back to the original text |
| JavaLang.Split | test/src/main/java/org/apache/accumulo/test/CompactionIT.java:102 | split yields comma-free pieces: the whole text when there is no comma, otherwise the pieces between commas with every trailing empty piece removed and no other piece dropped |
| JavaLang.SplitTwo | test/src/main/java/org/apache/accumulo/test/CompactionIT.java:102 | "a,b" splits into [a, b] |
| JavaLang.SplitTrailing | test/src/main/java/org/apache/accumulo/test/CompactionIT.java:102 | "a,b," splits into [a, b]: a trailing comma adds no piece |
| Grouping.Group | test/src/main/java/org/apache/accumulo/test/CompactionIT.java:132 | a group holds exactly the candidates whose name starts with its key |
| Grouping.Keys | test/src/main/java/org/apache/accumulo/test/CompactionIT.java:132 | the group keys are distinct, and a key occurs exactly when some candidate starts with it |
| Grouping.GroupsPartition | test/src/main/java/org/apache/accumulo/test/CompactionIT.java:132-133 | the groups together are the candidates, each exactly once (as multisets) |
| Grouping.GroupDistinct | test/src/main/java/org/apache/accumulo/test/CompactionIT.java:132 | a group of distinct candidates has no duplicates |
| Grouping.SlicesShape | test/src/main/java/org/apache/accumulo/test/CompactionIT.java:134-136 | a group of n files gives n / b batches of exactly b files, the left-over files number n % b, and batches followed by left-over files restore the group |
| Grouping.TailIsSuffix | test/src/main/java/org/apache/accumulo/test/CompactionIT.java:134-136 | the unplanned files of a group are its last n % b files |
| Grouping.SliceAt | test/src/main/java/org/apache/accumulo/test/CompactionIT.java:134-136 | batch i of a group is subList(i*b, (i+1)*b) |
| Grouping.SliceMembers | test/src/main/java/org/apache/accumulo/test/CompactionIT.java:134-136 | every file of a batch belongs to its group |
| Grouping.SlicesDisjoint | test/src/main/java/org/apache/accumulo/test/CompactionIT.java:134-136 | batches of a distinct group share no file and repeat none |
| Grouping.BatchAllShape | test/src/main/java/org/apache/accumulo/test/CompactionIT.java:132-137 | every job is b files from the candidates, all with the key of its first file |
| Grouping.BatchAllDisjoint | test/src/main/java/org/apache/accumulo/test/CompactionIT.java:132-137 | jobs from different groups or batches share no file |
| Grouping.PlannedPlusUnplanned | test/src/main/java/org/apache/accumulo/test/CompactionIT.java:132-137 | planned files plus unplanned files are the candidates, as a multiset |
| Grouping.JobsPerGroup | test/src/main/java/org/apache/accumulo/test/CompactionIT.java:134 | a group of n files contributes exactly n / b jobs |
| Grouping.PlannedOrLeftOver | test/src/main/java/org/apache/accumulo/test/CompactionIT.java:134-136 | a candidate is in a job if and only if it is not left over, and the left-over files of every group are in no job |
| Grouping.RoundShape | test/src/main/java/org/apache/accumulo/test/CompactionIT.java:132-137 | over distinct candidates the jobs are pairwise disjoint, each b files of one group from the candidates |
| Grouping.UnplannedGroups | test/src/main/java/org/apache/accumulo/test/CompactionIT.java:134-136 | after a round, each group keeps only its own left-over files, n % b of them |
| Planning.Get | test/src/main/java/org/apache/accumulo/test/CompactionIT.java:99-102 | Map.get gives the value of a present key and null otherwise |
| Planning.KindNamed | test/src/main/java/org/apache/accumulo/test/CompactionIT.java:103 | valueOf succeeds exactly for "SYSTEM" and "USER" |
| Planning.KindNamedIgnoringCase | test/src/main/java/org/apache/accumulo/test/CompactionIT.java:103 | a process name denotes SYSTEM or USER exactly when it equals that name ignoring case, and fails otherwise |
| Planning.DeclaredExecutors | test/src/main/java/org/apache/accumulo/test/CompactionIT.java:106-109 | the loop declares n executors, none for n <= 0 |
| Planning.DeclaredExecutorAt | test/src/main/java/org/apache/accumulo/test/CompactionIT.java:107 | executor i is named "e" + i and has capacity 2 |
| Planning.ExecutorNamesDistinct | test/src/main/java/org/apache/accumulo/test/CompactionIT.java:106-109 | no two declared executors share a name |
| Planning.AddKindsStops | test/src/main/java/org/apache/accumulo/test/CompactionIT.java:102-104 | after the first name that is no kind, the remaining names are not read |
| Planning.AddKindsCollects | test/src/main/java/org/apache/accumulo/test/CompactionIT.java:102-104 | without an error, every name upper-cases to a kind, and the processed kinds are the old kinds plus exactly those |
| Planning.InitDeclares | test/src/main/java/org/apache/accumulo/test/CompactionIT.java:98-111 | a successful init keeps the parsed batch size, declares exactly max(n,0) executors "e0".. each with capacity 2 and a distinct name, and processes exactly the listed kinds plus the earlier ones |
| Planning.InitRejectsBadNumbers | test/src/main/java/org/apache/accumulo/test/CompactionIT.java:99-100 | a missing or malformed number throws before any field changes |
| Planning.AddKindsOk | test/src/main/java/org/apache/accumulo/test/CompactionIT.java:102-104 | the process names add without exception exactly when every one of them upper-cases to SYSTEM or USER |
| Planning.AddKindsFails | test/src/main/java/org/apache/accumulo/test/CompactionIT.java:103 | the first name that upper-cases to no kind is the one valueOf throws on, with the kinds of the names before it added |
| Planning.ConfigureOk | test/src/main/java/org/apache/accumulo/test/CompactionIT.java:98-111 | init succeeds exactly when both numbers parse, the process option is present and every name of its list is a kind |
| Planning.ConfigureMissingProcess | test/src/main/java/org/apache/accumulo/test/CompactionIT.java:102 | with both numbers parsed and no process option, split on null throws, with the batch size set and no executor declared |
| Planning.ConfigureUnknownKind | test/src/main/java/org/apache/accumulo/test/CompactionIT.java:102-104 | the first process name that is no kind makes init throw NoSuchKind of that name, after the kinds before it were added and before any executor is declared |
| Planning.ExecutorExamples | test/src/main/java/org/apache/accumulo/test/CompactionIT.java:106-109 | three executors are e0, e1, e2, each with capacity 2 |
| Planning.ConfiguredNumbersParse | test/src/main/java/org/apache/accumulo/test/CompactionIT.java:99-100 | the option values "1", "3" and "5" parse to 1, 3 and 5 |
| Planning.SystemListConfigured | test/src/main/java/org/apache/accumulo/test/CompactionIT.java:102-104 | the process list "SYSTEM" processes exactly the system kind |
| Planning.ServiceOneConfigured | test/src/main/java/org/apache/accumulo/test/CompactionIT.java:154-156 | the options of service cs1 give batch size 5, executors e0..e2 and the kind SYSTEM |
| Planning.KindListsConfigured | test/src/main/java/org/apache/accumulo/test/CompactionIT.java:102-104 | "system,User," adds SYSTEM and USER |
| Planning.BadKindConfigured | test/src/main/java/org/apache/accumulo/test/CompactionIT.java:100-104 | "USER,MAJOR" adds USER, then throws on MAJOR; the batch size is set and no executor is declared |
| Planning.FirstChar | test/src/main/java/org/apache/accumulo/test/CompactionIT.java:113-115 | getFirstChar is the one-character prefix of the name; an empty name is an error |
| Planning.GroupErrorIsPlanError | test/src/main/java/org/apache/accumulo/test/CompactionIT.java:132-138 | an exception in the loop over one group is the exception of the whole plan |
| Planning.KeysOutcomeStops | test/src/main/java/org/apache/accumulo/test/CompactionIT.java:132-138 | once the loop over one group throws, the groups after it are not planned and the plan's outcome is that exception |
| Planning.KeysOutcomeBatches | test/src/main/java/org/apache/accumulo/test/CompactionIT.java:132-138 | with a positive batch size the loop over the groups yields all their batches in order, or NoExecutors when there is a batch and no executor |
| Planning.KeysOutcomeNoBatchSize | test/src/main/java/org/apache/accumulo/test/CompactionIT.java:134-136 | with a batch size of zero or below the first group's loop throws: NoExecutors without executors, else InvertedSlice for a negative size and Unbounded for zero |
| Planning.GroupLoopOutcome | test/src/main/java/org/apache/accumulo/test/CompactionIT.java:132-140 | the loop over the groups of the candidates has exactly the outcome GroupedFiles states |
| Planning.FullGroupHasBatch | test/src/main/java/org/apache/accumulo/test/CompactionIT.java:134 | a group of at least b files gives the round a job |
| Planning.NoKeysNoCandidates | test/src/main/java/org/apache/accumulo/test/CompactionIT.java:132-133 | there are no groups only when there are no candidates |
| Planning.CompactAllPlansEverything | test/src/main/java/org/apache/accumulo/test/CompactionIT.java:120-124 | a compact_all hint that reads true in any case gives one job of every candidate, whatever the kind and the processed kinds |
| Planning.CompactAllWithoutExecutors | test/src/main/java/org/apache/accumulo/test/CompactionIT.java:120-122 | a compact_all hint that reads true with no declared executor throws, as nextInt(0) does |
| Planning.UnprocessedKindPlansNothing | test/src/main/java/org/apache/accumulo/test/CompactionIT.java:126-143 | without a true compact_all hint, a kind the planner does not process gets an empty plan |
| Planning.ProcessedPlan | test/src/main/java/org/apache/accumulo/test/CompactionIT.java:126-140 | for a processed kind: every job is b files of one group from the candidates, jobs are disjoint, group c yields \|c\| / b jobs, a candidate is planned iff it is not left over, and the last \|c\| % b files are in no job |
| Planning.ProcessedPlanErrors | test/src/main/java/org/apache/accumulo/test/CompactionIT.java:113-136 | an empty file name fails the plan; a batch size of 0 or less fails it once there is a candidate; batch size 0 with executors never ends |
| Planning.TestPlanner.constructor | test/src/main/java/org/apache/accumulo/test/CompactionIT.java:92-95 | a new planner has no batch size, no executors and no processed kinds |
| Planning.TestPlanner.Init | test/src/main/java/org/apache/accumulo/test/CompactionIT.java:98-111 | the fields after init, and the exception it throws, are those of Configure on the old fields; ConfigureOk, ConfigureMissingProcess, ConfigureUnknownKind and InitRejectsBadNumbers state when Configure fails and how |
| Planning.TestPlanner.AddProcessedKinds | test/src/main/java/org/apache/accumulo/test/CompactionIT.java:102-104 | the loop over the process names leaves the kinds and the exception AddKinds states, and changes no other field |
| Planning.TestPlanner.DeclareExecutors | test/src/main/java/org/apache/accumulo/test/CompactionIT.java:106-109 | the loop appends exactly the executors e0 .. e(n-1) with capacity 2 to an empty list, and changes no other field |
| Planning.TestPlanner.MakePlan | test/src/main/java/org/apache/accumulo/test/CompactionIT.java:117-144 | makePlan fails exactly when PlannedFiles fails, with the same error; otherwise its jobs carry the PlannedFiles file lists in order, with priority 1 and a declared executor each |
| Planning.TestPlanner.GroupKeys | test/src/main/java/org/apache/accumulo/test/CompactionIT.java:113-115 | getFirstChar of every candidate succeeds exactly when no name is empty, and otherwise throws EmptyFileName |
| Planning.TestPlanner.PlanGroups | test/src/main/java/org/apache/accumulo/test/CompactionIT.java:126-140 | the grouping and its loop over groups yield the jobs of GroupedFiles, each with a declared executor, or its error |
| Planning.TestPlanner.PlanEachGroup | test/src/main/java/org/apache/accumulo/test/CompactionIT.java:133-138 | the forEach over the groups appends every group's jobs in order with a declared executor, or throws the first group's exception, as KeysOutcome states |
| Planning.TestPlanner.PlanGroup | test/src/main/java/org/apache/accumulo/test/CompactionIT.java:133-137 | the loop over one group appends one job per consecutive full batch, or throws as its first iteration would |
| Settling.Step | test/src/main/java/org/apache/accumulo/test/CompactionIT.java:129-131 | after a round fewer than b flush files remain, and the file count never grows; it drops once a batch forms with b >= 2 |
| Settling.RemainderPlusQuotient | test/src/main/java/org/apache/accumulo/test/CompactionIT.java:134-136 | n files leave n % b plus n / b files, never more than n, and fewer once a batch of b >= 2 forms |
| Settling.Settle | test/src/main/java/org/apache/accumulo/test/CompactionIT.java:129-131 | repeated rounds reach a count where no group has b files, with flush files at n % b and never more files than before |
| Settling.SettleByRounds | test/src/main/java/org/apache/accumulo/test/CompactionIT.java:129-131 | SettleRounds(p, b) rounds from p arrive exactly at Settle(p, b) |
| Settling.RoundsStay | test/src/main/java/org/apache/accumulo/test/CompactionIT.java:134 | from a settled count, any number of further rounds changes nothing |
| Settling.RoundsAdd | test/src/main/java/org/apache/accumulo/test/CompactionIT.java:129-131 | m rounds followed by n rounds are m + n rounds |
| Settling.SettleReached | test/src/main/java/org/apache/accumulo/test/CompactionIT.java:129-131 | every number of rounds at least SettleRounds(p, b) ends at Settle(p, b), so the tests' counts are where the rounds stop and stay |
| Settling.SettledIsFixpoint | test/src/main/java/org/apache/accumulo/test/CompactionIT.java:134 | once every group is below b, a further round changes nothing |
| Settling.JobCount | test/src/main/java/org/apache/accumulo/test/CompactionIT.java:132-137 | a round over F and C files plans F / b + C / b jobs |
| Settling.NoJobsWhenSettled | test/src/main/java/org/apache/accumulo/test/CompactionIT.java:134 | a round plans no job if and only if both groups are smaller than b |
| Settling.RoundCensus | test/src/main/java/org/apache/accumulo/test/CompactionIT.java:129-137 | replacing each job of a round by one C file moves the file counts exactly one Step |
| Settling.UnplannedDistinct | test/src/main/java/org/apache/accumulo/test/CompactionIT.java:134-136 | the files a round leaves unplanned are distinct files of the tablet |
| Settling.RoundKeepsDistinct | test/src/main/java/org/apache/accumulo/test/CompactionIT.java:129-137 | after a round whose outputs are new, distinct files, the tablet's files are still distinct |
| Settling.FileRoundsCensus | test/src/main/java/org/apache/accumulo/test/CompactionIT.java:129-137 | k plan-then-replace rounds over the files, each replacing every job by one new C file, move the census exactly k Steps |
| Settling.FileRoundsSettle | test/src/main/java/org/apache/accumulo/test/CompactionIT.java:129-137 | once at least SettleRounds file-level rounds with fresh C outputs have run, the tablet's census is Settle of its initial census |
| Settling.FifteenByFive | test/src/main/java/org/apache/accumulo/test/CompactionIT.java:154-156 | 15 flush files in batches of 5 end at 3 files |
| Settling.DispatchSystemFirstService | test/src/main/java/org/apache/accumulo/test/CompactionIT.java:267-270 | 14 flush files in batches of 5 settle at 6 files |
| Settling.DispatchSystemFirstServiceOneMore | test/src/main/java/org/apache/accumulo/test/CompactionIT.java:273-280 | one more flush file brings that tablet to 3 |
| Settling.DispatchSystemSecondService | test/src/main/java/org/apache/accumulo/test/CompactionIT.java:268-271 | 13 flush files in batches of 7 settle at 7 files |
| Settling.DispatchSystemSecondServiceOneMore | test/src/main/java/org/apache/accumulo/test/CompactionIT.java:274-281 | one more flush file brings that tablet to 2 |
| Settling.FourteenBySeven | test/src/main/java/org/apache/accumulo/test/CompactionIT.java:159-161 | 14 flush files in batches of 7 end at 2 files |
| Settling.AddCompactionService | test/src/main/java/org/apache/accumulo/test/CompactionIT.java:246-252 | 42 flush files in batches of 7 end at 6 files |
| Settling.ReconfigureCompactionService | test/src/main/java/org/apache/accumulo/test/CompactionIT.java:207-226 | 22 flush files in batches of 11 end at 2; after the switch to batches of 5, 10 more end at 4 |
| Settling.DispatchUser | test/src/main/java/org/apache/accumulo/test/CompactionIT.java:291-318 | user compactions of 6 files in batches of 3 stop at 2, and of 33 in batches of 11 at 3, never at one file |
| Settling.SingleFileBatchesNeverSettle | test/src/main/java/org/apache/accumulo/test/CompactionIT.java:134-136 | with batches of one file, the file count never changes and rounds never stop planning |
| Selection.Stat | test/src/main/java/org/apache/accumulo/test/CompactionIT.java:747-748 | getOrDefault gives the statistic when present and 0 when absent |
| Selection.LowBit | test/src/main/java/org/apache/accumulo/test/CompactionIT.java:764 | foos & 1 is 0 or 1 |
| Selection.LowBitParity | test/src/main/java/org/apache/accumulo/test/CompactionIT.java:764 | the low bit of the two's-complement long is its parity, negative values included |
| Selection.IsOdd | test/src/main/java/org/apache/accumulo/test/CompactionIT.java:761-768 | isOdd, the bit test `(foos & 1) == 1` on the two's-complement long, holds exactly for odd values, negative ones included |
| Selection.NegativeOddCounts | test/src/main/java/org/apache/accumulo/test/CompactionIT.java:764 | -1, -3 and Long.MAX_VALUE are odd; -2 and Long.MIN_VALUE are not |
| Selection.Decide | test/src/main/java/org/apache/accumulo/test/CompactionIT.java:745-757 | the selector throws "Exception Thrown" iff there is one summary and foos is odd; otherwise it selects all or nothing, and all (non-empty) iff there is one summary with even foos > bars |
| Selection.NotOneSummary | test/src/main/java/org/apache/accumulo/test/CompactionIT.java:745-757 | with zero or several summaries nothing is selected and nothing is thrown |
| Selection.AbsentFoos | test/src/main/java/org/apache/accumulo/test/CompactionIT.java:747-754 | missing foos count as 0: no exception, and everything is selected only when bars is negative; nothing is selected when both are missing |
| Selection.FooSelector.constructor | test/src/main/java/org/apache/accumulo/test/CompactionIT.java:735 | a new selector's odd flag is false |
| Selection.FooSelector.Select | test/src/main/java/org/apache/accumulo/test/CompactionIT.java:741-759 | select returns Decide's outcome and, with one summary, records whether foos was odd; otherwise odd is unchanged |

## Left out

- The mini cluster and the tests' I/O: cluster setup and teardown, tables, writers, flushes, scanners, metadata queries and the `Thread.sleep` polling loops. They are client RPC and timing.
- `Retry`, `FailureListener`, the other plugin classes, `testIteratorsWithRange`, `testConfigurer` and `compactionTest`'s counts. They depend on library code that is not part of this model.
- Logging and `System.out.println` in `isOdd`.
- The `java.util.Random` sequence. The model picks any valid index, so it states only that each job's executor is one of the declared ones.
- `Collectors.groupingBy` collects into a `HashMap`, so Java's order of groups is unspecified. The model takes groups in order of first appearance. Only the order of jobs between groups depends on this.
- `CompactionKind` is not part of this model's source. The model has the two kinds, SYSTEM and USER, that the tests use.
- `String.toUpperCase`, `equalsIgnoreCase` and `parseInt` are modelled on ASCII only. Locale-dependent case mapping and non-ASCII digits are not modelled.
- `split(",")` is modelled for a one-character, non-regex delimiter, which is the only use here.
- `makePlan` before `init` is not modelled. In Java, `executorIds` is null and `makePlan` throws a NullPointerException. The model's fresh planner has an empty executor list, so such a plan fails with `NoExecutors` whenever Java would need an executor.
- The plan builder, the executor manager and `CompactableFile` are not part of this model. `createExecutor("e" + i, 2)` is modelled as the id (name, capacity). A candidate is its file name, and the candidates are assumed distinct (a collection of files).
- Whether the plan builder rejects a job with no files is unknown. With a batch size of 0, Java keeps adding empty jobs. The model reports this as `Unbounded`, and treats an empty `compact_all` job as a plan of one empty job.
- Planning.TestPlanner.PlanGroup: the Java `int` overflow of `i += filesPerCompaction` is not modelled. It happens only when the last value of `i` plus the batch size exceeds 2^31 - 1, which needs a group of at least 2^30 files.
- Grouping.Keys: `substring(0, 1)` takes the first UTF-16 code unit, and the model takes the first character. Names starting with different supplementary characters that share a high surrogate form one group in Java and two in the model. File names here are ASCII.
- FooSelector's `init` does nothing and is not modelled. `getSummaries` and the `FooCounter` summarizer are not part of this model. `Select` receives the collection of summaries they return, as a sequence of statistics maps.
- Settling: the count model is what the tests expect of the compaction engine, which is not part of this model. The model assumes each job's files are replaced by one `C` file before the next round. It does not model file arrival between rounds or jobs that run concurrently.
