# Models of the assistant's database services

These Dafny modules model the hardest parts of the assistant of a law-firm back office (`src/core/ai-database`
and one migration) and prove what those parts are for: rewriting read queries without changing what they mean,
running write plans that leave nothing behind when they fail, sharing a pool of OCR workers, choosing the AI engine
of each cabinet, and a handful of algorithms and encodings that other parts rely on.

Code made of expressions is modelled by functions; code that updates fields or loops is modelled by classes and
methods, each proved equal to a function, and the properties are proved about that function. Where a promise fails
for some inputs, the condition under which it holds is proved, with inputs that break it.

| module | what it models |
|---|---|
| `Relational`, `Agreement` | the meaning of a read query: joins over row sequences, NULL, WHERE, grouping, HAVING, ORDER BY, DISTINCT, LIMIT, what names without a table stand for; and what a query does not depend on |
| `DeniedJoinPruning`, `PruningLimits`, `SqlScan` | removal of the LEFT JOINs to tables a user may not read, where its tests on the text are not enough, and its character loops |
| `Subqueries`, `OuterJoinFallback`, `WideningLimits` | queries with subqueries, widening their inner joins when a query found nothing, and the queries it spoils |
| `InclusiveQuery` | `SUM(x)` made `COALESCE(SUM(x), 0)` by edits at character positions that may be out of date |
| `LiteralMask`, `EditSplice`, `NumericEnumLiterals`, `EnumComparisons` | quoting integers compared with ENUM columns: masking, splice, both together, meaning |
| `WritePlan`, `WritePlanSafety`, `WritePlanFlow`, `WritePlanResults`, `GenericWriteService` | a write plan as a saga: its functions, what failures leave, how data flows, what each operation of a plan that succeeds has done, and the service that runs it |
| `OcrPool`, `ImageReader` | the pool of OCR workers as a state machine, the class behind it, and the bounded parallel map |
| `AiConfig`, `CabinetAiSettings`, `MoveAiConfig` | which engine a cabinet uses, its settings screen, and the migration that moved the settings |
| `OcrText` | putting the lines of a page back together |
| `EditDistance` | edit distance with one row, similarity of codes, ranking |
| `LegalKnowledge` | overlapping chunks of a legal text |
| `PromptHistory` | history within a budget |
| `CacheKey` | the canonical cache key |
| `ApiKeyFormat` | the stored form of an API key |
| `Sorting`, `Strings`, `Decimals`, `Basics`, `Wrappers` | stable sort, blanks and words, integers in base ten, characters, `Option` |

## Model

| member | source | states |
|---|---|---|
| `DeniedJoinPruning.PrunedIff` | src/core/ai-database/denied-join-pruning.ts:97-188 | a query is pruned if and only if a join with ON is to a denied table, each of them, however many, is LEFT and compares its key, no selected item is `*`, one names none of them, and no word of what is left is a name of theirs or one given with AS to a dropped column; what is left is then the query without them |
| `DeniedJoinPruning.KeyTestIff` | src/core/ai-database/denied-join-pruning.ts:124-128 | a comparison with the key on the left passes the test of ON with `=` alone; on the right also with `<=`, `>=` and `!=`, which look up other rows |
| `DeniedJoinPruning.PruneKeepsResult` | src/core/ai-database/denied-join-pruning.ts:97-188 | without DISTINCT, a pruned query that MySQL accepts returns the rows of the original, in order and with their multiplicities, on the kept columns, for any number of removed joins, when each finds one row at most for the rows that reach it, no name of GROUP BY, HAVING or ORDER BY stands for something else without them, and, without GROUP BY, the last aggregate is not dropped |
| `DeniedJoinPruning.PruneKeepsDistinctResult` | src/core/ai-database/denied-join-pruning.ts:97-188 | with DISTINCT, and the same conditions, the kept columns of the original's rows begin the pruned result, and are all of it without LIMIT or when LIMIT leaves one row at most |
| `DeniedJoinPruning.PrunedRows` | src/core/ai-database/denied-join-pruning.ts:133-187 | before DISTINCT and LIMIT, on the same conditions, the sorted rows agree on every kept column, through WHERE, grouping by keys or by an aggregate alone, HAVING and ORDER BY |
| `DeniedJoinPruning.LookupMatchesOnce` | src/core/ai-database/denied-join-pruning.ts:122-128 | a join on the primary key finds one row at most for each row |
| `DeniedJoinPruning.LookupsAreRemovable` | src/core/ai-database/denied-join-pruning.ts:122-128 | joins on a conjunction with the primary key, unique in its table, find one row at most: what pruning takes for granted |
| `PruningLimits.PrunedKeepsNumberIff` | src/core/ai-database/denied-join-pruning.ts:122-131 | for any query of LEFT JOINs without conditions, whatever its other joins and the tables, pruning keeps the number of rows if and only if each removed join finds one row at most for each row that reaches it |
| `DeniedJoinPruning.LookupKeepsRows` | src/core/ai-database/denied-join-pruning.ts:122-131 | removing such a LEFT JOIN keeps every row, once and in place |
| `DeniedJoinPruning.PrunedIsClean` | src/core/ai-database/denied-join-pruning.ts:177-187 | the last test on the words of the query leaves no expression that reads a removed row, once the names of the pruned query stand for columns |
| `DeniedJoinPruning.PrunedQueryResolves` | src/core/ai-database/denied-join-pruning.ts:152-187 | MySQL refuses a pruned query if and only if a name is lost: in a kept column, WHERE, the ON clause of a kept join or an aggregate of HAVING, a column that no kept table has; in GROUP BY, one that no kept table has and that is not the name of one kept expression; in HAVING outside its aggregates, a name that neither the kept expressions nor the grouping keys have, or that differing ones have, or a column that is neither kept nor a grouping key; in ORDER BY, the name of no kept expression, and of no column of one kept table |
| `DeniedJoinPruning.NamesKeepMeaningIff` | src/core/ai-database/denied-join-pruning.ts:152-187 | in a pruned query that MySQL accepts, GROUP BY, HAVING and ORDER BY say the same of the rows, and these make one group without GROUP BY or not as before, if and only if no name of GROUP BY is a column of the removed tables alone, no name of ORDER BY, nor of HAVING without a grouping key of that name, is that of dropped columns alone, and there is a GROUP BY, or no aggregate, or one is left |
| `DeniedJoinPruning.ResultNameIsWord` | src/core/ai-database/denied-join-pruning.ts:177-187 | HAVING and ORDER BY use neither a removed table or alias, nor a name given with AS to a dropped column: the query is not pruned then |
| `DeniedJoinPruning.PruneUnreadableIsSafe` | src/core/ai-database/ai-database-permission.service.ts:570-589 | a changed query reads only tables of the original that the user may read |
| `DeniedJoinPruning.PrunedForUserIff` | src/core/ai-database/ai-database-permission.service.ts:570-589 | the query of a user is changed if and only if it is prunable of the tables the user may not read, and these are only joined, with ON |
| `PruningLimits.TextTestIsNotEnough` | src/core/ai-database/denied-join-pruning.ts:124-128 | the test on the text of ON also passes for `>=`, for `!=`, for OR and for a self reference: the pruned query then returns one row instead of two |
| `PruningLimits.BareNameIsLost` | src/core/ai-database/denied-join-pruning.ts:152-187 | a query is pruned, and MySQL refuses what is left, when it selects or filters by a column that only the removed table has, without its table, or groups or orders by a dropped column named without AS, a name that is no column, or filters groups by one, even when that name is a column |
| `PruningLimits.NameChangesMeaning` | src/core/ai-database/denied-join-pruning.ts:152-187 | `SELECT a.x name … GROUP BY name` grouped by the name of the user: pruned, it groups by `a.x` and returns two rows instead of one |
| `PruningLimits.KeepsNumberIff` | src/core/ai-database/denied-join-pruning.ts:152-187 | for any query without HAVING, DISTINCT nor LIMIT whose names keep their meaning, and joins that find one row at most, pruning keeps the number of rows if and only if there is a GROUP BY, or no aggregate, or one is left, or exactly one row was aggregated; otherwise the single row becomes as many rows, or none, as were aggregated |
| `PruningLimits.LastAggregateIsDropped` | src/core/ai-database/denied-join-pruning.ts:152-187 | `SELECT 'Actions' AS libelle, COUNT(u.id) AS total FROM a LEFT JOIN user u ON u.id = a.x` has one row and, pruned, one for each row of `a`, in every database whose users have distinct ids |
| `PruningLimits.DistinctLimitGainsRows` | src/core/ai-database/denied-join-pruning.ts:175-187 | from LIMIT 2 on, a pruned SELECT DISTINCT query returns a row more than the original showed |
| `PruningLimits.DistinctLimitAgreesIff` | src/core/ai-database/denied-join-pruning.ts:175-187 | when a column is dropped and one kept, DISTINCT and LIMIT give the same rows on the kept columns, for all rows, if and only if there is no LIMIT or it is at most 1 |
| `SqlScan.OnClauseEnd` | src/core/ai-database/denied-join-pruning.ts:39-59 | the ON clause ends at the first closing parenthesis, semicolon or clause keyword outside parentheses, or at the end of the text |
| `SqlScan.OnClauseIsBalanced` | src/core/ai-database/denied-join-pruning.ts:39-59 | the clause found closes every parenthesis it opens |
| `SqlScan.SelectItems` | src/core/ai-database/denied-join-pruning.ts:62-90 | the items are the text cut at its outermost commas, up to the first outermost FROM; none without it |
| `SqlScan.CutIsFaithful` | src/core/ai-database/denied-join-pruning.ts:62-90 | each item starts after the comma of the one before, ends at a comma or at FROM, and holds no outermost comma |
| `SqlScan.TailWithout` | src/core/ai-database/denied-join-pruning.ts:168-174 | the end of the query keeps, in order, exactly the characters no removed join covers |
| `OuterJoinFallback.WidensInnerJoins` | src/core/ai-database/outer-join-fallback.ts:37-50 | null exactly when there is no inner join, in the query or in a subquery at any depth; otherwise each one is a LEFT JOIN, and none is left |
| `OuterJoinFallback.WideningOnlyAddsRows` | src/core/ai-database/outer-join-fallback.ts:37-50 | MySQL accepts the widened query and every row of the original occurs in its result at least as often, when it has no aggregate, GROUP BY nor LIMIT, no RIGHT JOIN follows an inner one, each inner join has its ON clause, a subquery of IN or EXISTS can only gain rows, under NOT it can only lose some, and those that give a value have no inner join |
| `OuterJoinFallback.UntouchedIff` | src/core/ai-database/outer-join-fallback.ts:37-50 | the shapes of subqueries that neither gain nor lose rows are exactly those without an inner join at any depth |
| `WideningLimits.RightJoinLosesRows` | src/core/ai-database/outer-join-fallback.ts:37-50 | for any chain with a RIGHT JOIN after an inner one, and any subqueries, there is a query, each join with its own alias, whose widened form loses a row |
| `WideningLimits.NotInLosesRows` | src/core/ai-database/outer-join-fallback.ts:37-50 | for any combination of AND, OR and NOT in which an IN or EXISTS can turn the condition false, as an inner join in NOT EXISTS does, there is a query whose widened form loses its row |
| `WideningLimits.CountChangesRows` | src/core/ai-database/outer-join-fallback.ts:37-50 | for any counted subquery with an inner join, at any depth, there is a query whose row shows another count once widened |
| `OuterJoinFallback.WidenedIsAccepted` | src/core/ai-database/outer-join-fallback.ts:37-50 | MySQL accepts the widened query if and only if each inner join, at any depth, has an ON clause |
| `WideningLimits.NoOnIsRefused` | src/core/ai-database/outer-join-fallback.ts:37-50 | for any shape of query with an inner join without ON, at any depth, there is a query MySQL accepts whose widened form it refuses |
| `WideningLimits.WideningIsSafeExactlyFor` | src/core/ai-database/outer-join-fallback.ts:37-50 | for all queries of a shape of joins, conditions and subqueries, and all tables, widening only adds rows if and only if the shape is one of those `WideningOnlyAddsRows` asks for |
| `InclusiveQuery.ClosingParen` | src/core/ai-database/inclusive-query.ts:27-34 | finds the parenthesis that brings the depth back to zero, or none |
| `InclusiveQuery.CoalesceSums` | src/core/ai-database/inclusive-query.ts:42-61 | the text after the edits found by the scan, made from right to left at the character positions they had at first |
| `InclusiveQuery.FindsCalls` | src/core/ai-database/inclusive-query.ts:43-54 | on a balanced query the scan finds exactly its SUM calls to wrap, in order |
| `InclusiveQuery.WrappedIff` | src/core/ai-database/inclusive-query.ts:43-54 | a SUM call is wrapped if and only if it has its closing parenthesis, does not stand right after the parenthesis of COALESCE, IFNULL or NVL, and is not followed by OVER, IS NULL or IS NOT NULL |
| `InclusiveQuery.SpliceIsStale` | src/core/ai-database/inclusive-query.ts:55-59 | what the splice makes of a query in the middle of any text, character by character, nested calls included: the end of a call falls as many characters short as the calls in it have grown |
| `InclusiveQuery.WrapsAllIffDisjoint` | src/core/ai-database/inclusive-query.ts:42-61 | the text is that of all the calls wrapped at once if and only if no call to wrap holds another one |
| `InclusiveQuery.NestedCallsGoWrong` | src/core/ai-database/inclusive-query.ts:55-59 | with a call to wrap inside another one the text is another one, at any depth |
| `InclusiveQuery.SumOfSumIsBroken` | src/core/ai-database/inclusive-query.ts:55-59 | `SUM(SUM(x))` becomes `COALESCE(SUM(COALESC, 0)E(SUM(x), 0))` |
| `InclusiveQuery.SecondTimeChangesNothing` | src/core/ai-database/inclusive-query.ts:42-61 | wrapping again the result of a query without nested calls finds nothing to wrap |
| `InclusiveQuery.WrappedSumIsTotal` | src/core/ai-database/inclusive-query.ts:36-41 | a wrapped sum is never NULL, is the total of the values there are, and the sum itself when there was one |
| `LiteralMask.MaskLiterals` | src/core/ai-database/numeric-enum-literals.ts:54-88 | the index loops compute the lexer's text with the contents of strings and comments blanked |
| `LiteralMask.LexIsFaithful` | src/core/ai-database/numeric-enum-literals.ts:54-88 | cutting a query in code, texts and comments loses no character |
| `LiteralMask.MaskOnlyBlanks` | src/core/ai-database/numeric-enum-literals.ts:49-53 | same length; each character is kept or blank |
| `LiteralMask.MaskIsStable` | src/core/ai-database/numeric-enum-literals.ts:54-88 | a masked query has nothing left to mask |
| `EditSplice.Splice` | src/core/ai-database/numeric-enum-literals.ts:220-231 | the sorted edits, less those that run into one already made, all made at once |
| `EditSplice.OthersUnchanged` | src/core/ai-database/numeric-enum-literals.ts:220-231 | a character no edit covers is in the result, moved only by the edits on its left |
| `EditSplice.EditsAreMade` | src/core/ai-database/numeric-enum-literals.ts:220-231 | the text of each edit made stands in place of what it covers |
| `EditSplice.LeftOutOnlyForOverlap` | src/core/ai-database/numeric-enum-literals.ts:224-229 | an edit is left out only for one already made that begins before its end |
| `EditSplice.NothingIsLeftOut` | src/core/ai-database/numeric-enum-literals.ts:221-229 | edits that are equal or do not overlap are all made |
| `NumericEnumLiterals.LiteralsAreKept` | src/core/ai-database/numeric-enum-literals.ts:127-231 | no string and no comment of the query changes: each is in the result, whole, moved by the edits on its left, when the edits are those the patterns find in the masked query |
| `NumericEnumLiterals.LiteralIsSpared` | src/core/ai-database/numeric-enum-literals.ts:147-199 | an integer or a column reference found in the masked query is outside every string, and outside every comment or goes round it |
| `NumericEnumLiterals.SpanSurvives` | src/core/ai-database/numeric-enum-literals.ts:181-231 | a stretch of the query that every edit leaves, or keeps in its text, is in the result at a known place |
| `EnumComparisons.RewriteIsByValue` | src/core/ai-database/numeric-enum-literals.ts:127-218 | under MySQL's rules the rewritten condition means the original under comparison by value, for =, <>, <=>, IN, orderings, BETWEEN, simple CASE and their combinations, NULL included |
| `EnumComparisons.RewriteTwice` | src/core/ai-database/numeric-enum-literals.ts:127-231 | a condition already rewritten is left as it is |
| `EnumComparisons.AtomIsRightIff` | src/core/ai-database/numeric-enum-literals.ts:152-196 | a single comparison, or IN with a list, is right for every column if and only if each of its integers has no useless zero, or stands in the list beside the one without, and the column is not on the right of an ordering |
| `EnumComparisons.ReversedOrderGoesWrong` | src/core/ai-database/numeric-enum-literals.ts:161-168 | `8 > column` is left as it is, and is wrong for some column whatever the operator and the integer |
| `EnumComparisons.UselessZeroGoesWrong` | src/core/ai-database/numeric-enum-literals.ts:144-145 | a quoted `07` or `-0` no longer finds the value it is equal to |
| `EnumComparisons.UncoveredGoesWrong` | src/core/ai-database/numeric-enum-literals.ts:170-179 | a quoted list with `07` and not `7` misses the value 7 |
| `EnumComparisons.BareIsWrong` | src/core/ai-database/numeric-enum-literals.ts:5-8 | left as it is, `= 1` on enum('0', '1') is wrong on every row |
| `EnumComparisons.CaseWhens` | src/core/ai-database/numeric-enum-literals.ts:198-218 | exactly the integers of the CASE itself are quoted, none of an inner CASE nor after its END |
| `Decimals.CanonicalIsPrinted` | src/core/ai-database/numeric-enum-literals.ts:42 | an integer text without useless zeros or sign is the one its value is printed as |
| `WritePlanSafety.FailedPlanLeavesNoInsert` | src/core/ai-database/generic-write.service.ts:337-383 | a transactional plan that fails, by an operation or by its commit, rolls back first, then deletes each recorded row once, last first; the keys of all tables are what they were, and a row that differs was updated through a handler |
| `WritePlanSafety.AbortLeavesNoInsert` | src/core/ai-database/generic-write.service.ts:341-361 | the same from any state a run reaches, when no update makes an older recorded row depend on a newer one |
| `WritePlanSafety.FailedPlanRestoresTables` | src/core/ai-database/generic-write.service.ts:341-361 | without an update through a handler the tables are exactly what they were |
| `WritePlanSafety.FailedPlanKeepsExistingRows` | src/core/ai-database/generic-write.service.ts:290-306 | no row that existed before the plan is deleted, whatever fails; of a transactional plan, every new row left is trashed or reported |
| `WritePlanSafety.CleanupDeletesAll` | src/core/ai-database/generic-write.service.ts:1282-1344 | in reverse order no deletion is blocked by another recorded row |
| `WritePlanSafety.CleanupDeletesAllIff` | src/core/ai-database/generic-write.service.ts:1293-1333 | for rows their table deletes, without an undo of a handler, all of them are deleted if and only if the rows left that point to a recorded row were all recorded after it |
| `WritePlanSafety.CleanupForgetsNothing` | src/core/ai-database/generic-write.service.ts:1293-1333 | each recorded row is deleted, trashed or reported |
| `WritePlanSafety.EachRowIsUndone` | src/core/ai-database/generic-write.service.ts:1293-1333 | what becomes of a recorded row is decided when its turn comes: it is deleted, or trashed, or stays as it is and is reported, each exactly in its case |
| `WritePlanSafety.CleanupTouchesRecordedOnly` | src/core/ai-database/generic-write.service.ts:1293-1333 | the clean-up changes no other row |
| `WritePlanSafety.RunGood` | src/core/ai-database/generic-write.service.ts:176-335 | every run of operations keeps the invariant: recorded rows are new and distinct, every new committed row is recorded, and changes to old rows are accounted for |
| `WritePlanSafety.ActionsRunAfterCommit` | src/core/ai-database/generic-write.service.ts:337-412 | no deferred action runs in a plan that fails; in one that succeeds those prepared run after the commit, once each and in order, each result is reported by how it ended, and the tables are as committed |
| `WritePlanSafety.DeferredRunOnce` | src/core/ai-database/generic-write.service.ts:399-412 | each prepared action runs once in result order; a failure marks its own result only and stops nothing |
| `WritePlanFlow.ReferencesComeFromEarlierOperations` | src/core/ai-database/generic-write.service.ts:1182-1259 | a `{{name.field}}` or `$name.field` is replaced only by a field of the entity last produced under that name by an earlier operation; a `$name.field` that entity does not have becomes NULL |
| `WritePlanFlow.LastNamedIsProduced` | src/core/ai-database/generic-write.service.ts:308-334 | the entity a name stands for is one the plan produced under that name |
| `WritePlanFlow.InjectedKeysAreLatest` | src/core/ai-database/generic-write.service.ts:1109-1169 | an injected key is the id of the latest row of the referenced table among those earlier operations produced |
| `WritePlanFlow.MissingKeyIsTaken` | src/core/ai-database/generic-write.service.ts:1140-1160 | an INSERT after operations that succeeded takes every foreign key it lacks from the last row they produced in that table, when there is one |
| `WritePlanFlow.InjectOnlyAdds` | src/core/ai-database/generic-write.service.ts:1140-1160 | injection changes no field that has a value, and adds a key only when no name of its relation has one |
| `WritePlanFlow.BulkVisitsOnce` | src/core/ai-database/generic-write.service.ts:231-259 | a bulk update visits, in order, each matched record once at most and none already targeted |
| `WritePlanFlow.FreshMembers` | src/core/ai-database/generic-write.service.ts:240-242 | the records visited are exactly the matched ones not yet targeted, without repetition |
| `WritePlanFlow.ChoicesAreAsked` | src/core/ai-database/generic-write.service.ts:850-888 | the creations of an operation are exactly those its fields ask for, one a relation |
| `WritePlanFlow.ChoicesAreShared` | src/core/ai-database/generic-write.service.ts:850-888 | each (table, label, extra fields) is created once at most and all its users get the same id |
| `WritePlanFlow.RunFlow` | src/core/ai-database/generic-write.service.ts:176-335 | every run keeps what references, injections, targets and choices rely on |
| `WritePlanResults.ActionsAreRun` | src/core/ai-database/generic-write.service.ts:420-494 | in a plan that succeeds each ACTION has one result, in its place: on the record given, the one that matches, or the last of the plan in its table; it ran exactly once, after the commit, and reports how it ended |
| `WritePlanResults.InsertsAreDone` | src/core/ai-database/generic-write.service.ts:176-335 | each INSERT has one result, in its place, for a row that is in the tables at the end: the one made of its fields, unless it was updated later, or one that was there; its deferred work ran exactly when its handler asked for some, and once |
| `WritePlanResults.UpdatesAreDone` | src/core/ai-database/generic-write.service.ts:260-335 | each UPDATE of one record has one result, on the record given or the one that matches, which has at the end the row made of the fields, unless it was updated later |
| `WritePlanResults.BulkUpdatesAreDone` | src/core/ai-database/generic-write.service.ts:231-259 | a bulk UPDATE has one result for each matching record no earlier operation targeted, in order, with its row |
| `WritePlanResults.ChoicesAreMade` | src/core/ai-database/generic-write.service.ts:850-888 | every confirmed creation an operation asks for was made, and its row is in the tables at the end |
| `WritePlanResults.PlanSucceedsIff` | src/core/ai-database/generic-write.service.ts:147-345 | a plan succeeds if and only if each operation has what it needs when its turn comes, and the commit works |
| `WritePlanResults.OperationSucceedsIff` | src/core/ai-database/generic-write.service.ts:176-287 | an operation succeeds if and only if its action is known, has a record and is prepared; or its creations are made and the handler, or the generic path, makes or finds the rows, whose foreign keys are there |
| `WritePlanResults.WriteSucceedsIff` | src/core/ai-database/generic-write.service.ts:892-930 | a write of one record succeeds if and only if its handler, or the generic path, accepts it and its foreign keys are there |
| `WritePlanResults.ChoiceSucceedsIff` | src/core/ai-database/generic-write.service.ts:850-888 | a confirmed creation succeeds if and only if it was made before or its row can be made |
| `GenericWriteService.PlanRun.InsertRow` | src/core/ai-database/generic-write.service.ts:892-930 | an insertion through a handler or the generic path leaves the state of the model and its result |
| `GenericWriteService.PlanRun.UpdateRow` | src/core/ai-database/generic-write.service.ts:892-930 | and so does an update |
| `GenericWriteService.PlanRun.MaterializeCreateChoices` | src/core/ai-database/generic-write.service.ts:213-230 | the confirmed creations of an operation, in order |
| `GenericWriteService.PlanRun.MaterializeChoice` | src/core/ai-database/generic-write.service.ts:850-888 | one confirmed creation, made once or shared |
| `GenericWriteService.PlanRun.CreateChoice` | src/core/ai-database/generic-write.service.ts:850-888 | the row made for a choice the first time |
| `GenericWriteService.PlanRun.UpdateAll` | src/core/ai-database/generic-write.service.ts:231-259 | the loop of a bulk update is the function `BulkUpdate` |
| `GenericWriteService.PlanRun.RememberResult` | src/core/ai-database/generic-write.service.ts:288-334 | what is recorded for clean-up, references and injections after an operation |
| `GenericWriteService.PlanRun.PrepareActionAt` | src/core/ai-database/generic-write.service.ts:420-494 | an action is checked at its place and deferred |
| `GenericWriteService.PlanRun.Run` | src/core/ai-database/generic-write.service.ts:176-335 | one operation |
| `GenericWriteService.PlanRun.RunAll` | src/core/ai-database/generic-write.service.ts:176-335 | the loop over the operations |
| `GenericWriteService.PlanRun.CleanupHandlerEntities` | src/core/ai-database/generic-write.service.ts:1282-1344 | the loop from the last recorded row to the first |
| `GenericWriteService.PlanRun.UndoEntity` | src/core/ai-database/generic-write.service.ts:1295-1326 | one recorded row is deleted, trashed or reported |
| `GenericWriteService.PlanRun.RunAfterCommit` | src/core/ai-database/generic-write.service.ts:399-412 | the loop over the results |
| `GenericWriteService.PlanRun.CommitTransaction` | src/core/ai-database/generic-write.service.ts:337-340 | the pending rows are in the tables, or the commit throws and nothing is |
| `GenericWriteService.PlanRun.ExecuteAll` | src/core/ai-database/generic-write.service.ts:142-392 | a whole plan, success or failure, is the function `ExecutePlan` the properties are about |
| `OcrPool.PoolIsSafe` | src/core/ai-database/image-reader.service.ts:322-376 | after any interleaving: workers in service never exceed the list, which never exceeds the capacity; no worker has two uses; an armed timer finds none held, created or discarded, and no reading waiting (`IdleWorkersAreFreed`, `UntimedIff` say when it is armed) |
| `OcrPool.StepSafe` | src/core/ai-database/image-reader.service.ts:322-376 | each step keeps that invariant, with stale positions |
| `OcrPool.IdleWorkersAreFreed` | src/core/ai-database/image-reader.service.ts:353-361 | after any run without failures, a pool with workers that nobody uses has its timer armed, and the timer empties it |
| `OcrPool.UntimedIff` | src/core/ai-database/image-reader.service.ts:353-376 | after any run, all workers of the list are idle and no timer will free them if and only if the last step, but for terminations, took a failed worker off a list whose other workers were idle |
| `OcrPool.ReleaseArmsIff` | src/core/ai-database/image-reader.service.ts:353-361 | a release with nobody waiting leaves the timer armed if and only if no worker is in use, created or discarded and no place was lost |
| `OcrPool.ServedAtOnceIff` | src/core/ai-database/image-reader.service.ts:335-351 | a reading that asks has a worker at once if and only if one is idle or the list has room, and a worker is made only when none is idle |
| `OcrPool.ServedInOrder` | src/core/ai-database/image-reader.service.ts:335-370 | over any run, no reading overtakes one that waited before it, unless that one asks again while the list is full |
| `OcrPool.StepKeepsOrderIff` | src/core/ai-database/image-reader.service.ts:335-370 | a step keeps the order of two waiting readings, or serves the first, if and only if it does not send the first to the end |
| `OcrPool.SpliceLost` | src/core/ai-database/image-reader.service.ts:363-365 | a removal loses a place exactly when the worker is not in the copy or its position there is past the end of the list |
| `OcrPool.LostForGood` | src/core/ai-database/image-reader.service.ts:353-376 | a lost place is never regained, and from then on the timer that frees idle workers is never armed |
| `OcrPool.OverlappingFailuresLoseAPlace` | src/core/ai-database/image-reader.service.ts:363-367 | from an empty pool, two readings that fail together lose a place |
| `OcrPool.SeparateFailuresLoseNothing` | src/core/ai-database/image-reader.service.ts:322-376 | without overlapping failures the list is exactly the workers in service |
| `OcrPool.WaitingIsAttendedIff` | src/core/ai-database/image-reader.service.ts:335-370 | in every state of a run a waiting reading has a worker at work that will wake it, even when places were lost, if and only if no creation fails while a reading waits and nothing else is under way |
| `OcrPool.StepStrandsIff` | src/core/ai-database/image-reader.service.ts:335-370 | a step leaves a reading waiting with nobody to wake it if and only if it is such a failure |
| `OcrPool.FailedCreationStrandsAWaiter` | src/core/ai-database/image-reader.service.ts:339-349 | a creation that fails wakes nobody |
| `OcrPool.StuckIff` | src/core/ai-database/image-reader.service.ts:366-369 | after any run from an empty pool, a reading is left without an answer if and only if some step made a worker for it when another worker was given up, and a later step is the failure of that worker |
| `OcrPool.AskedAgainIff` | src/core/ai-database/image-reader.service.ts:366-369 | a worker is made for a waiting reading only at the end of a discard, in a list with room |
| `OcrPool.NeverAnswered` | src/core/ai-database/image-reader.service.ts:366-369 | no later step of any run serves such a reading, nor lets it fail |
| `OcrPool.WaiterIsForgotten` | src/core/ai-database/image-reader.service.ts:363-370 | with one place, a reading that waits while another one fails, and whose worker cannot be made, is forgotten |
| `ImageReader.OcrWorkers.Take` | src/core/ai-database/image-reader.service.ts:335-351 | acquiring a worker is the step of the state machine |
| `ImageReader.OcrWorkers.FinishCreation` | src/core/ai-database/image-reader.service.ts:342-348 | the end of a creation, successful or not; the failure of a worker made for a waiting reading is dropped, and that reading never ends |
| `ImageReader.OcrWorkers.ReleaseWorker` | src/core/ai-database/image-reader.service.ts:353-361 | a released worker goes to the first waiting reading, or is idle, and then the timer is armed when all are |
| `ImageReader.OcrWorkers.StartDiscard` | src/core/ai-database/image-reader.service.ts:363-364 | the list is copied before the await |
| `ImageReader.OcrWorkers.RemoveDiscarded` | src/core/ai-database/image-reader.service.ts:364-366 | the position found in the copy is removed from the list |
| `ImageReader.OcrWorkers.AfterTermination` | src/core/ai-database/image-reader.service.ts:366-369 | one waiting reading asks again |
| `ImageReader.MapWithLimit` | src/core/ai-database/image-reader.service.ts:409-420 | items are started in order, once each, never more than `limit` in flight; result i is that of item i; the call fails exactly when a started task fails |
| `AiConfig.MergedIff` | src/core/ai-database/ai-provider-config.ts:35-65 | there is a configuration if and only if the cabinet or the platform chose a provider, or the cabinet has an old flat one |
| `AiConfig.EngineWithoutChoice` | src/core/ai-database/ai-model-router.service.ts:1279-1325 | without a choice, the only provider declared is used; with none or several, the old flat configuration, or the server's own |
| `CabinetAiSettings.ReportedIsTaken` | src/core/ai-database/cabinet-ai-settings.service.ts:49-108 | the source shown is the branch the resolver takes if and only if the account is in neither of two described cases |
| `CabinetAiSettings.RegularPolicyIsReported` | src/core/ai-database/cabinet-ai-settings.service.ts:101-108 | with allowed models that have no personal id and no empty model, the source shown gives the engine resolved |
| `CabinetAiSettings.ResolvedIsPermitted` | src/core/ai-database/ai-subscription-policy.ts:47-75 | without an exception, what is resolved is what the plan or the platform gives, or a personal provider where the plan allows them, or an allowed provider with its model, the one merged from the catalogue |
| `CabinetAiSettings.ExceptionIsKept` | src/core/ai-database/cabinet-ai-settings.service.ts:223-228 | no action of a cabinet alters an exception of the platform |
| `CabinetAiSettings.ExceptionSurvivesRuns` | src/core/ai-database/cabinet-ai-settings.service.ts:123-228 | nor does any run of actions and plan changes |
| `CabinetAiSettings.TenantNeverLocks` | src/core/ai-database/cabinet-ai-settings.service.ts:144-220 | what a cabinet writes stays under its policy |
| `CabinetAiSettings.SelectionIsResolved` | src/core/ai-database/cabinet-ai-settings.service.ts:123-153 | a successful selection resolves to exactly that provider and model |
| `CabinetAiSettings.SelectionLasts` | src/core/ai-database/cabinet-ai-settings.service.ts:123-153 | over any run a selection lasts, with its model, until the choice or what is stored under its provider is changed |
| `CabinetAiSettings.ResetIsResolved` | src/core/ai-database/cabinet-ai-settings.service.ts:155-166 | a reset leaves no choice and the same personal configurations, and the account resolves to what it would without a configuration |
| `CabinetAiSettings.SaveIsStored` | src/core/ai-database/cabinet-ai-settings.service.ts:168-205 | a saved configuration is the one given, with the key it had when none is given; the others and the choice are as before |
| `CabinetAiSettings.SavedIsResolved` | src/core/ai-database/cabinet-ai-settings.service.ts:168-205 | the configuration in use is resolved as it was saved |
| `CabinetAiSettings.RemovalIsComplete` | src/core/ai-database/cabinet-ai-settings.service.ts:207-221 | a removed configuration is gone, the others stay, and the choice goes if and only if it was that one; then the account resolves as without a configuration |
| `CabinetAiSettings.RemovalMakesRoom` | src/core/ai-database/cabinet-ai-settings.service.ts:168-221 | a full list has room again after a removal |
| `CabinetAiSettings.SavedLasts` | src/core/ai-database/cabinet-ai-settings.service.ts:123-236 | over any run a personal configuration is the one saved last, until it is saved again, removed, overwritten by a selection through the allowed models, or replaced by the console |
| `CabinetAiSettings.EntryStays` | src/core/ai-database/cabinet-ai-settings.service.ts:123-236 | and one that none of these touches stays as it is |
| `CabinetAiSettings.ScreenIsRight` | src/core/ai-database/cabinet-ai-settings.service.ts:109-114 | what the screen says can be done is what is accepted, but for a full list or an unknown configuration |
| `CabinetAiSettings.OfferedIsAccepted` | src/core/ai-database/cabinet-ai-settings.service.ts:65-143 | a choice the screen offers is accepted unless it has no key or is a personal configuration without model, and no other choice is |
| `CabinetAiSettings.PlanDefaultIsResolved` | src/core/ai-database/ai-subscription-policy.ts:47-75 | where neither the platform nor the cabinet decides, the model of the plan is the one resolved |
| `CabinetAiSettings.PlatformDefaultIsResolved` | src/core/ai-database/ai-provider-config.ts:55-57 | where the platform decides, its provider is used, with its own model or the usual one |
| `CabinetAiSettings.LastExceptionDecides` | src/core/ai-database/cabinet-ai-settings.service.ts:223-236 | an exception of the platform holds over any run until the platform changes it |
| `CabinetAiSettings.LastPlanDecides` | src/core/ai-database/cabinet-ai-settings.service.ts:32-47 | the plan that decides is the last one given, whatever the cabinet did since |
| `CabinetAiSettings.RunIsBounded` | src/core/ai-database/cabinet-ai-settings.service.ts:168-205 | personal configurations stay at most twenty over every run |
| `CabinetAiSettings.EveryRunIsReported` | src/core/ai-database/cabinet-ai-settings.service.ts:49-236 | after every run of actions, plan changes and exceptions the source shown is the one used, and without an exception the engine is that of the plan or the platform, or one the current plan permits |
| `CabinetAiSettings.SelectionKeepsOwnIff` | src/core/ai-database/cabinet-ai-settings.service.ts:128-151 | a selection keeps the personal configurations of the cabinet if and only if it is not of one of them through the allowed models, unless that one is nothing but its model |
| `CabinetAiSettings.ListedTenantIdIsOverwritten` | src/core/ai-database/cabinet-ai-settings.service.ts:128-151 | with a personal id among the allowed models, selecting it erases the cabinet's own configuration |
| `CabinetAiSettings.CabinetAiSettingsService.SelectEngine` | src/core/ai-database/cabinet-ai-settings.service.ts:123-153 | the new stored configuration, or a refusal that changes nothing |
| `CabinetAiSettings.CabinetAiSettingsService.ResetChoice` | src/core/ai-database/cabinet-ai-settings.service.ts:155-166 | removes the choice and keeps the rest |
| `CabinetAiSettings.CabinetAiSettingsService.SaveCustom` | src/core/ai-database/cabinet-ai-settings.service.ts:168-205 | adds or replaces one personal configuration, with the key it had when none is given, or refuses |
| `CabinetAiSettings.CabinetAiSettingsService.DeleteCustom` | src/core/ai-database/cabinet-ai-settings.service.ts:207-221 | removes one personal configuration, and the choice when it was the one chosen |
| `MoveAiConfig.UpKeepsEngines` | src/migrations/1792100000000-MoveAiConfigToPlatform.ts:39-106 | with no platform default and agreeing ids, every cabinet has the same engine before and after, whatever the order of the rows |
| `MoveAiConfig.EngineIsKept` | src/migrations/1792100000000-MoveAiConfigToPlatform.ts:52-98 | the same for one cabinet moved under any catalogue of the loop |
| `MoveAiConfig.UpLeavesExceptions` | src/migrations/1792100000000-MoveAiConfigToPlatform.ts:39-106 | after `up` the column of a cabinet is empty or nothing but a known provider and its model, those it used when that provider is known; each provider it declared with a URL is known, and the platform loses none |
| `MoveAiConfig.DownRestores` | src/migrations/1792100000000-MoveAiConfigToPlatform.ts:108-121 | `down` after `up`, when no earlier backup is there, gives each cabinet its parsed configuration back |
| `MoveAiConfig.DownRestoresIff` | src/migrations/1792100000000-MoveAiConfigToPlatform.ts:99-121 | with a backup left by an earlier run, a cabinet gets it back if and only if that backup holds it, or does not know the cabinet and `up` left it as it was |
| `MoveAiConfig.DownUndoesUpIff` | src/migrations/1792100000000-MoveAiConfigToPlatform.ts:39-121 | `down` after `up` gives the tables back if and only if there was no `ai` setting of the platform, which it erases, no backup and no column that is not a JSON object |
| `MoveAiConfig.DeclaredEngineIsKeptIff` | src/migrations/1792100000000-MoveAiConfigToPlatform.ts:39-106 | for every order of the rows, a cabinet that declared its active provider keeps its engine through `up` if and only if the first row that declares that id with a URL has its URL and key; or has no model, when the cabinet gave none |
| `MoveAiConfig.UndeclaredEngineIsKeptIff` | src/migrations/1792100000000-MoveAiConfigToPlatform.ts:39-106 | without a platform default, a cabinet that never declared its active provider with a URL keeps having no engine of its own if and only if no row before it declares that id with a URL, or there is no model to use |
| `MoveAiConfig.ReusedIdMovesACabinet` | src/migrations/1792100000000-MoveAiConfigToPlatform.ts:61-72 | two cabinets with one id and two URLs: the second gets the engine of the first |
| `MoveAiConfig.AiConfigMigration.Collect` | src/migrations/1792100000000-MoveAiConfigToPlatform.ts:60-72 | adds the custom providers the catalogue does not have |
| `MoveAiConfig.AiConfigMigration.MoveRow` | src/migrations/1792100000000-MoveAiConfigToPlatform.ts:53-98 | the new column of one cabinet and the catalogue after it |
| `MoveAiConfig.AiConfigMigration.MigrateUp` | src/migrations/1792100000000-MoveAiConfigToPlatform.ts:39-106 | the loop over the cabinets is the function `Up` |
| `MoveAiConfig.AiConfigMigration.MigrateDown` | src/migrations/1792100000000-MoveAiConfigToPlatform.ts:108-121 | the loop over the backup is the function `Down` |
| `OcrText.Assemble` | src/core/ai-database/ocr-text.ts:132-240 | each recognised line that is not blank is in exactly one line of the result, once; each line is the faithful union of its fragments; nothing is joined if and only if no line has a neighbour to take in, in either pass; the lines are in reading order, and the text is these lines with a blank line before each paragraph; of two fragments, the text is written out: which comes first, and what stands between them |
| `OcrText.KeptIff` | src/core/ai-database/ocr-text.ts:169-203 | as many lines are kept as were recognised if and only if no horizontal line has a neighbour to take in by the gap and test of the first pass, nor by those of the second |
| `OcrText.ParagraphsIff` | src/core/ai-database/ocr-text.ts:224-239 | a paragraph begins exactly where the recogniser says so, when its order is kept; otherwise where the space above a line is more than 1.6 times the lower median of the spaces and more than half the upper median of the heights |
| `OcrText.LabelIff` | src/core/ai-database/ocr-text.ts:186 | a label is a text whose last character that is not blank is a colon |
| `OcrText.NumberIff` | src/core/ai-database/ocr-text.ts:187 | a number, a date or an hour is a text of digits, blanks and the usual signs, not of blanks alone |
| `OcrText.PageWidthIsGreatest` | src/core/ai-database/ocr-text.ts:184-185 | the width of the page is the greatest distance between two sides of its lines |
| `OcrText.PrintedKeepsInk` | src/core/ai-database/ocr-text.ts:217-239 | the text has the visible characters of its lines, in order, and no others |
| `OcrText.NothingInvented` | src/core/ai-database/ocr-text.ts:143-155 | the visible characters of a joined line are those of its fragments, in order, with those of the separators between them |
| `OcrText.FirstIsLeast` | src/core/ai-database/ocr-text.ts:152-153 | a joined line has the place of its first fragment |
| `OcrText.MergeIsFaithful` | src/core/ai-database/ocr-text.ts:143-155 | text, box, place and block of a joined line are those of what it is made of |
| `OcrText.JoinKeepsPage` | src/core/ai-database/ocr-text.ts:143-155 | joining two lines loses and duplicates nothing and leaves one line less |
| `OcrText.RightNeighbour` | src/core/ai-database/ocr-text.ts:157-166 | the leftmost acceptable line to the right on the same row, the first of them, or none |
| `OcrText.Absorb` | src/core/ai-database/ocr-text.ts:171-201 | a line takes in its neighbours one after the other |
| `OcrText.AbsorbedIsClosed` | src/core/ai-database/ocr-text.ts:171-201 | it ends with no neighbour left to take in, and the page whole |
| `OcrText.Rejoin` | src/core/ai-database/ocr-text.ts:169-202 | a pass over the lines in the given order |
| `OcrText.RejoinedKeepsPage` | src/core/ai-database/ocr-text.ts:169-202 | both passes conserve the text of the page |
| `OcrText.OrderRows` | src/core/ai-database/ocr-text.ts:214-223 | the lines by height cut in rows, each row sorted by its left edge, and lines with the same left edge as they were: nothing else moves |
| `OcrText.ContentPermutes` | src/core/ai-database/ocr-text.ts:214-223 | sorting changes no content |
| `Sorting.SortIsStable` | src/core/ai-database/ocr-text.ts:192 | the sort orders, permutes, and leaves elements of equal key as they were |
| `EditDistance.Levenshtein` | src/core/ai-database/no-results-answer.ts:214-230 | the loop with one row computes the recursive distance |
| `EditDistance.ShortestScript` | src/core/ai-database/no-results-answer.ts:214-230 | some script of insertions, deletions and substitutions as long as the distance turns one text into the other |
| `EditDistance.NoShorterScript` | src/core/ai-database/no-results-answer.ts:214-230 | no script is shorter |
| `EditDistance.LevIsLeast` | src/core/ai-database/no-results-answer.ts:221-224 | taking the diagonal on a match is optimal |
| `EditDistance.LevTriangle` | src/core/ai-database/no-results-answer.ts:214-230 | the triangle inequality |
| `EditDistance.LevSymmetric` | src/core/ai-database/no-results-answer.ts:214-230 | the distance is symmetric |
| `EditDistance.LevBounds` | src/core/ai-database/no-results-answer.ts:214-230 | at most the longer length, at least the difference of the lengths |
| `EditDistance.LevZero` | src/core/ai-database/no-results-answer.ts:214-230 | zero exactly for equal texts |
| `EditDistance.SimilarityIsShare` | src/core/ai-database/no-results-answer.ts:233-244 | between 0 and 1, and 1 exactly for codes that are the same and not empty |
| `EditDistance.SimilarityLost` | src/core/ai-database/no-results-answer.ts:233-244 | two codes lose one share of the longer one for each edit between them, and a fifth of that when the second has the numbers of the first |
| `EditDistance.NumberIsRead` | src/core/ai-database/no-results-answer.ts:211-212 | each number of a code, whole, is read with its value, between those on its left and those on its right |
| `EditDistance.NormalizedAt` | src/core/ai-database/no-results-answer.ts:204-209 | a code is made character by character, in upper case, without what is neither letter nor digit |
| `EditDistance.SameNumbersAreClose` | src/core/ai-database/no-results-answer.ts:239-243 | the same numbers give at least 0.8 |
| `EditDistance.ScoreIsWholeIff` | src/core/ai-database/no-results-answer.ts:253-268 | a record scores 1 exactly when its code is the reference and not empty, or an alias is the reference |
| `EditDistance.BlankAliasMatches` | src/core/ai-database/no-results-answer.ts:255-261 | an alias without letter or digit scores 1 for a reference without any, although their similarity is 0 |
| `EditDistance.RankingIsBest` | src/core/ai-database/no-results-answer.ts:247-274 | best first, all good enough; a good enough record left out means a full list of records at least as close |
| `LegalKnowledge.ChunkLegalText` | src/core/ai-database/legal-knowledge.ts:79-97 | the loop ends; its chunks are the trimmed slices of windows that follow each other without gap to the end of the text |
| `LegalKnowledge.WindowsAreChained` | src/core/ai-database/legal-knowledge.ts:81-95 | each window starts after the one before starts and no later than it ends, and is no longer than allowed |
| `LegalKnowledge.NothingIsLost` | src/core/ai-database/legal-knowledge.ts:79-97 | every character that is not blank is in a chunk, at its place in the text |
| `LegalKnowledge.ChunksAreSlices` | src/core/ai-database/legal-knowledge.ts:92-93 | chunks are slices of the text, trimmed, not empty, no longer than allowed |
| `LegalKnowledge.CutsAfterBoundary` | src/core/ai-database/legal-knowledge.ts:83-91 | a window is full without a boundary in its last part, or ends after the last boundary in it |
| `PromptHistory.RecentHistory` | src/core/ai-database/conversation-manager.service.ts:898-930 | oldest first, the most recent messages that are not from the system, as many as both limits allow and at least one when there may be one |
| `PromptHistory.StopsAtLimit` | src/core/ai-database/conversation-manager.service.ts:914-924 | where the loop stops, one more message would pass a limit |
| `PromptHistory.FormatHistory` | src/core/ai-database/cited-records.ts:246-261 | the last blocks, as many as fit |
| `PromptHistory.HistoryFits` | src/core/ai-database/cited-records.ts:253-260 | the text never exceeds the limit, separators included, and only a block alone is cut |
| `PromptHistory.LimitIsKeptIff` | src/core/ai-database/cited-records.ts:246-261 | the text never holds more messages than asked for, whatever the length allowed, if and only if at least one is asked for or there is none |
| `CacheKey.KeyIsCanonical` | src/core/ai-database/ai-cache-key.util.ts:25-30 | in a scope, two objects have the same key if and only if they agree up to the order of keys, entries without value or named `__proto__`, null items, case and blanks, at every depth, for any lower case that works word by word and changes nothing the second time |
| `CacheKey.NormalIffSame` | src/core/ai-database/ai-cache-key.util.ts:1-23 | same normal form if and only if the same thing is said |
| `CacheKey.NormalizeTwice` | src/core/ai-database/ai-cache-key.util.ts:1-23 | the normal form is its own normal form |
| `CacheKey.JsonIsPrefixFree` | src/core/ai-database/ai-cache-key.util.ts:25-30 | compact JSON printing is injective, whatever follows the value |
| `CacheKey.QuotedIsRead` | src/core/ai-database/ai-cache-key.util.ts:25-30 | a reader of JSON texts (section 7 of RFC 8259) finds the text that was printed, whatever follows it |
| `CacheKey.NullEntryCounts` | src/core/ai-database/ai-cache-key.util.ts:11-15 | a null entry changes the key, an entry without value does not |
| `CacheKey.ProtoIsIgnored` | src/core/ai-database/ai-cache-key.util.ts:7-15 | objects that differ only by an entry named `__proto__` share their key |
| `Strings.NormalIsWordsIff` | src/core/ai-database/ai-cache-key.util.ts:18-20 | two texts have the same normal form exactly when they have the same words, whatever their case |
| `Strings.NormalTwice` | src/core/ai-database/ai-cache-key.util.ts:18-20 | normalising a text twice is normalising it once |
| `ApiKeyFormat.RevealProtected` | src/core/ai-database/ai-model-router.service.ts:415-457 | with a secret, revealing a protected key gives the trimmed key back |
| `ApiKeyFormat.ProtectTwice` | src/core/ai-database/ai-model-router.service.ts:415-431 | protecting twice is protecting once |
| `ApiKeyFormat.EncodingIsFaithful` | src/core/ai-database/ai-model-router.service.ts:431 | base64url gives the bytes back, without colon nor blank |
| `ApiKeyFormat.FormatFields` | src/core/ai-database/ai-model-router.service.ts:440 | splitting on colons gives the five fields of the format |
| `ApiKeyFormat.RevealGivesKeyIff` | src/core/ai-database/ai-model-router.service.ts:415-457 | revealing what was stored gives the trimmed key back if and only if it is not empty and does not start like a protected one |
| `ApiKeyFormat.PrefixedKeyIsNotProtected` | src/core/ai-database/ai-model-router.service.ts:416-417 | a key that starts like a protected one is stored as it is |
| `ApiKeyFormat.RevealsAsIsIff` | src/core/ai-database/ai-model-router.service.ts:433-457 | a text is revealed as it is, secret or not, if and only if it is not empty and does not look protected |

## Left out

- Regular expressions: queries are parsed trees or tokens, with identifiers in lower case; how a pattern finds them in a text is not modelled (`NumericEnumLiterals.LiteralsAreKept` says of the edits what the patterns can match), nor are comment markers inside SQL strings for `maskSql`.
- `DeniedJoinPruning.PruneKeepsResult`: for removed joins that find one row at most (`LookupsAreRemovable`), which the program only reads off the text of ON (`PruningLimits.PrunedKeepsNumberIff`, `PruningLimits.TextTestIsNotEnough`), and for names and grouping that keep their meaning (`NamesKeepMeaningIff`, `PruningLimits.KeepsNumberIff`); UNION and window functions, which the program rewrites as text too, ordinals in ORDER BY, subqueries, and tables joined by a comma after an ON clause, which the program removes with that clause, are not modelled.
- `DeniedJoinPruning.PrunedQueryResolves`: MySQL refuses a query here for its joins and for names that stand for nothing; aggregates in WHERE, ON, GROUP BY or another aggregate, unknown columns of a known table, and what the mode ONLY_FULL_GROUP_BY refuses are not told apart.
- `OuterJoinFallback.WideningOnlyAddsRows`: for queries without aggregation, GROUP BY or LIMIT; subqueries are those of IN, NOT IN, EXISTS and NOT EXISTS in WHERE, and those that give one value, with joins and conditions of their own and qualified names; subqueries in FROM or ON, with a LIMIT or grouping of their own, or that select an aggregate under IN or EXISTS, nested joins, FULL and NATURAL joins and `targetsSpecificRecord` are not modelled; unknown columns of a known alias read as NULL.
- `InclusiveQuery.WrapsAllIffDisjoint`: for balanced queries whose SUM calls have one argument; how the text is cut in tokens, strings and comments being blanks, is given, and anchors of the retried query are not modelled.
- `EnumComparisons.RewriteIsByValue`: the resolution of aliases to tables is not modelled, nor literals that are not integers, which the program leaves as they are; each item of an IN list is compared by its own rule.
- `EnumComparisons.AtomIsRightIff`: for single comparisons and lists; in CASE and combinations a wrong comparison may have no effect.
- `EnumComparisons.RewriteTwice`: on the condition; that the patterns find nothing more in the rewritten text is not modelled.
- Write plans: handlers are atomic and either create one row or fail, and a commit that throws has written nothing; their cascades, ON DELETE CASCADE, and updates made by handlers before a failure are not compensated by the program and are described, not undone, in the model.
- Write plans: `{{today}}` and `{{now}}`, references inside lists and objects, templates in the id of an action, permission checks and progress messages are not modelled.
- `WritePlanResults.PlanSucceedsIff`: of a plan whose foreign keys given as ids were found in the cabinet; that check, before the first operation, is not modelled.
- `WritePlanFlow.ChoicesAreShared`: choices are taken in the order of the relations of the table.
- `OcrPool.PoolIsSafe`: waiting for a copied list ends when no worker of the copy is being created; what a worker does, and closing the pool at shutdown, are not modelled.
- `ImageReader.MapWithLimit`: tasks are functions of their item and index; the failure seen first is not told apart from the others.
- AI settings: stored texts are already trimmed and valid; labels, URL checks and the search for an API key at run time (a flag of `Select`) are not modelled. Per-profile models are not modelled.
- `MoveAiConfig.UpKeepsEngines`: requires that custom ids agree and that configurations are flat or have an active provider; `DeclaredEngineIsKeptIff` and `UndeclaredEngineIsKeptIff` say when a cabinet keeps its engine otherwise.
- `OcrText.Assemble`: coordinates are exact numbers; masking of doubtful words and the collapsing of masked lines are not modelled; blanks are the four usual ones.
- `EditDistance.SimilarityIsShare`: exact numbers; accents are removed before, and letters outside the alphabet are dropped.
- `LegalKnowledge.ChunkLegalText`: on a text already cleaned, for a length of at least one and an overlap of at least zero; ranking of the chunks is not modelled.
- `PromptHistory.RecentHistory`: the text of each message in a prompt is given; negative limits are not modelled, nor is the temporary session.
- `CacheKey.KeyIsCanonical`: numbers are finite, each given by the text it is printed as; the lower case of a text is a parameter with the laws of `Strings.Lowering`, and blanks are the four usual ones.
- `ApiKeyFormat.RevealProtected`: the cipher and UTF-8 are assumed to invert, and to need a byte for each character (`RevealGivesKeyIff`); a key that already starts with the prefix is excluded (`PrefixedKeyIsNotProtected`).
- Of the permission service only the READ check on the tables of a query is modelled; of the cited records only the history of the planner.
- The other services of the directory (model calls, streaming, catalogues of providers, transcription, prompts, word lists, the cache of tenant configurations) and the other migrations: wiring and foreign code, or nothing deep to prove.
