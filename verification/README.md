# Steampipe Postgres FDW: a verified model

The extension lets Postgres read cloud APIs as foreign tables. A query is planned and translated in C and Go
inside the Postgres process; plugins on the other side of a gRPC stream produce the rows. This project models
the logic of that translation and of the scan that follows, and proves what the two keep.

- **Pushdown.** `Sql` gives restriction clauses a meaning under three-valued logic. `Canonical` and `Quals`
  translate them into quals, `QualShapes` says which clauses become which quals, `SortPushdown` and `LimitPushdown` decide which of ORDER BY and LIMIT a plugin is
  sent, `Pushdown` says what a plugin may do with that (filter, sort with any ties, truncate) and what Postgres
  does afterwards (recheck, sort as far as it does not trust the order of arrival, OFFSET and LIMIT).
  `PushdownTheorem` composes all of it: no answer changes. `PushdownFaults` and `PushdownExactness` say exactly when
  every answer comes out right: what the number, the plugin's order, the rows that fail the recheck and the trusted
  order of arrival must meet; the theorem asks the same, of the rows in the tables. `WithTies` is about FETCH FIRST ...
  WITH TIES, `Instances` and `OrderInstances` are queries at concrete sites.
- **The scan.** `ScanProtocol` is a step relation over the reader goroutine, the goroutine of one receive, the
  bounded channel, cancellation and the consumer. `ScanErrors` settles when a recorded error is overwritten,
  `ScanEnds` when a scan can end early and when a row can follow its end; both build their runs with `ScanRuns`.
  `ScanIterator` is the object, each method proved to be steps of the protocol. `EndToEnd` puts the protocol
  under the pushdown theorem, also where Postgres stops reading early. `Hub`, `ExecStates` and `Lifecycle` follow
  iterators, their scan metadata and saved states through begin, iterate, rescan, explain, end and abort.
- **Planning paths.** `PathKeys` builds the column sets over shared Go slices (`GoSlices`), `PathKeysMeaning`
  says which sets they are, `FindPaths` searches join clauses for them.
- **Bookkeeping.** `QueryTiming` (the slowest 500 scans beside an unbounded summary), `CacheTtl`, `JsonNulls`,
  `PlanState`, `Timestamps`; `Int64`, `Ordering` and `Wrappers` are shared.

## What the outside is taken to do

`Sql.Lawful` lists the laws assumed of operators and of plugins: a commutator agrees with its operator on swapped
operands, a plugin reads an operator name as Postgres reads the operator, a list under `=` is IN and under `<>` is
NOT IN. `Sql.EqualityWorldIsLawful` shows they can be met, with an operator that is equality and one that is its
negation. A column tested as a boolean holds booleans (`QualMeaning.Faithful`). A plugin may drop only rows that
fail a qual and must apply those its key columns support (`Pushdown.MayKeep`); a limit of -1 is no limit, and what
it makes of any other negative number is left open (`Pushdown.PluginReturns`). A stream is a list of replies.
`sort.Slice` gives some sorted permutation; the traversal order of Go maps is arbitrary; `append` grows to any
capacity; the clock does not go back.

## Where the code does less than it should

Each of these is a lemma with the exact condition, or with an input or a run that shows the fault.

- `IS NOT TRUE` and `IS FALSE` become the same qual, so a NULL is lost under `IS NOT TRUE`
  (`QualMeaning.BooleanTestExactlyWhen`); `useOr` is dropped, so `= ALL` and `<> ANY` change meaning
  (`ArrayOpExactlyWhen`, `AllAndAnyConfused`); an operator over a whole array, such as `jsonb ?| text[]`, is sent as
  a comparison with each element (`ArrayOperandReadAsList`; `ArrayOperandGoesWrong` is a clause and the row it loses);
  any one-argument boolean expression is read as a column
  (`OneArgumentExactlyWhen`).
- The planned limit ignores an OFFSET that is no constant and is computed in 32 bits; a schema mode other than
  static and dynamic skips the key column test. `PushdownExactness.AnsweredExactlyWhen` says exactly when a query,
  with or without ORDER BY, is answered all the same; `Instances.UntestedLimitGoesWrong` is a query that is not.
- An ORDER BY that is no plain column counts as pushed (`PushdownTheorem.LimitKeptExactlyWhen`), which is right
  exactly when it tells no two passing rows apart (`PushdownExactness.ExpressionOrderRightExactlyWhen`); null placement
  and collation are not sent, which is right exactly when what the plugin makes of the column and the direction implies
  the key (`OneKeyRightExactlyWhen`). `OrderInstances.ExpressionOrderGoesWrong` and `NullsFirstGoesWrong` are queries
  that are not answered. A column that ORDER BY repeats under another collation is matched by
  its number alone, so a plugin can be asked for a direction its table does not declare
  (`SortPushdown.AskedDeclaredExactlyWhen`, `RepeatedColumnAsksUndeclared`). The arrival order of an aggregator can be trusted only over one connection
  (`PushdownFaults.TrustedArrivalRightExactlyWhen`).
- Window functions and set-returning targets are not looked at, although they need every row, which the scan brings
  exactly when no limit is sent (`PushdownExactness.WholeScanExactlyWhen`). Nor is WITH TIES, under which a limit
  that is sent is right for LIMIT 0 alone (`WithTies.TiedExactlyWhen`, `OrderInstances.TiesGoWrong`).
- A response without a row ends a scan early (`ScanEnds.EndsEarlyExactlyWhen`). A call of Next already waiting may
  still return a row after the stream has failed (`ScanEnds.RowFollowsExactlyWhen`); after completion nothing is
  returned (`NothingAfterCompletion`). A recorded error can be overwritten (`ScanErrors.OverwrittenExactlyWhen`).
  The comment in hub/scan_iterator_base.go:298 gives cancellation precedence over rows; a Go select does not, and
  the model follows the code.
- StartScan keeps an iterator whose execute failed, and Abort then calls a nil cancel function
  (`Lifecycle.AbortClosesAll`); a rescan, and EXPLAIN ANALYZE before the end of the node, leave a started iterator
  running that only Abort will find (`RescanLeavesOrphan`, `OrphanHappens`, `ExplainLeavesOrphan`,
  `ExplainedOrphanHappens`); a scan read to its end and then aborted has its metadata counted twice
  (`RecordedTwiceExactlyWhen`, `CountedTwiceHappens`).
- Reading the scan table before the summary can leave two summaries, after which the summary table is refused for
  good (`QueryTiming.ReadingDetailOrphansSummary`, `RefusedForever`); `SingleExactlyWhen` says which runs avoid it.
- A key column listed twice, or that is no column of the table, overruns an array
  (`PathKeysMeaning.PanicFreeExactlyWhen`); one that is no live attribute is silently left out of a path
  (`FindPaths.LooksUpExactlyResolved`).
- A NUL behind escaped backslashes behind a NUL survives the null stripper (`JsonNulls.NulsGoneExactlyWhen`).

## Model

| member | source | states |
|---|---|---|
| Sql.ScanConstant | quals.go:105-130 | an operand neither volatile nor about the scanned table has one value for the whole scan, so evaluating it when the scan begins is right for every row |
| Sql.VolatileExactly | quals.go:101-105 | an expression counts as volatile iff a volatile function is called somewhere in it |
| Sql.MentionsExactly | quals.go:101-105 | and as being about a relation iff a variable of it stands somewhere in it |
| Canonical.SwapOperandsAsNeeded | fdw/query.c:158-200 | swaps only a commuting operator with a variable on the right, and the value of the expression is unchanged |
| Canonical.CanonicalOpExpr | fdw/query.c:207-250 | returns the canonical form, computed through the rewritten operands |
| Canonical.CanonicalOpExprCorrect | fdw/query.c:207-250 | there is a form exactly for comparisons of a column of the scanned table (attribute at least 1) that can stand on the left, and it means what the expression meant on every row |
| Canonical.CanonicalArrayPreservesMeaning | fdw/query.c:259-295 | the form of an array comparison has the column on the left and the same value |
| Quals.DatumArrayToQualValue | quals.go:539-600 | the deduplicating loop gives the list without repeated values, or an error if an element cannot be encoded |
| Quals.DedupMembers | quals.go:559-600 | deduplication drops no value, invents none, and leaves no value twice |
| Quals.DedupGrows | quals.go:559-600 | values stand in the order of their first occurrence |
| Quals.DedupKeepsNulls | quals.go:559-600 | and every NULL is kept |
| Quals.OrMembers | quals.go:290-304 | collects the quals of an OR, nothing as soon as one member has none |
| Quals.GatherInList | quals.go:306-340 | an OR of equalities on one column becomes one list, any other OR nothing |
| Quals.QualFromVar | quals.go:133-146 | a boolean column alone is column = true |
| Quals.QualFromScalarOpExpr | quals.go:148-190 | the canonical form's column, operator and list, or nothing for volatile and self-referring arrays |
| Quals.QualFromNullTest | quals.go:193-224 | a null test of a column, by its two operators |
| Quals.QualFromBooleanTest | quals.go:227-262 | = true or <> true for the first three boolean tests, nothing for the others |
| Quals.SingleRestrictionToQual | quals.go:23-46 | the recursive dispatch over clauses computes the specified qual; which one that is, `QualShapes.BecomesExactly` says |
| Quals.RestrictionsToQuals | quals.go:48-84 | the quals in order, and the number of clauses without one; together as many as there are clauses |
| QualShapes.BecomesExactly | quals.go:23-343 | a clause becomes a qual iff it is a comparison of a live column with an operand the scan can evaluate and encode, a boolean column, a null test of one, one of three boolean tests, a one-argument expression or NOT over a variable, or an OR of several members that all become equalities on one column; with field, operator and values given |
| QualShapes.RestrictionsCounted | quals.go:48-84 | the unhandled restrictions are exactly the clauses of no such shape, and each of the others gives one qual |
| QualShapes.RestrictionsInOrder | quals.go:48-84 | the qual of a clause stands after those of the clauses before it |
| QualShapes.OrOfTwo | quals.go:290-340 | c = x OR c = y becomes c IN (x, y) and is handled, for any x and y |
| QualMeaning.QualExact | quals.go:87-343 | a clause that got a qual passes exactly the rows the qual passes, through nested ORs |
| QualMeaning.OrMeansIn | quals.go:306-340 | the IN list passes a row iff some member of the OR is TRUE on it |
| QualMeaning.DedupReadsAlike | quals.go:539-600 | a deduplicated list is read like the array it was made from |
| QualMeaning.QualsLoseNothing | quals.go:48-84 | a row on which every clause is TRUE satisfies every qual; with nothing unhandled the converse holds |
| QualMeaning.BooleanTestExactlyWhen | quals.go:227-263 | on a boolean column the qual of a boolean test is right except for IS NOT TRUE on NULL, where it loses the row |
| QualMeaning.ArrayOpExactlyWhen | quals.go:148-190 | with useOr dropped, a comparison of a column with an array under = or <> is right on every row iff it is = ANY, <> ALL, or over one distinct element |
| QualMeaning.AllAndAnyConfused | quals.go:181-187 | so = ALL and <> ANY over two different values are sent as what they are not |
| QualMeaning.ArrayOperandReadAsList | quals.go:115-127 | an operator over a whole array is sent as a comparison with each element |
| QualMeaning.ArrayOperandGoesWrong | quals.go:115-127 | an operator that is TRUE of x and the array of x alone: the row whose column is x passes the clause and fails the qual, for any x |
| QualMeaning.OneArgumentExactlyWhen | quals.go:265-280 | a one-argument boolean expression is read right however the misreading comes out iff it is NOT over a column of the table |
| SortPushdown.DeparseSortgroup | fdw/query.c:557-621 | every key as a column with its collation, or nothing at all once one is no plain column |
| SortPushdown.PlainColumnExactly | fdw/query.c:557-621 | a key is a plain column iff the first member of its class made of the table alone is a variable, bare or relabelled; what is kept is its name and number, the direction, the NULLs, and a collation other than the default |
| SortPushdown.CanSort | fdw.go:93-130 | the longest leading part whose every direction its column is declared for: Asc allows the ascending one only, Desc the descending one only, All both, no declaration neither |
| SortPushdown.SupportedPrefixIsShorter | fdw.go:93-130 | every supported prefix is a prefix of that one |
| SortPushdown.ComputeDeparsedSortGroup | fdw/query.c:400-441 | the two lists match the supported prefix entry by entry, and the flag is true iff the prefix is the whole list |
| SortPushdown.PushedIsPrefixExactlyWhen | fdw/query.c:417-438 | the pushed list is the longest supported prefix iff each of its attribute numbers occurs once in ORDER BY |
| SortPushdown.DistinctKeysPushPrefix | fdw/query.c:400-441 | with distinct columns it always is |
| SortPushdown.AskedDeclaredExactlyWhen | fdw/query.c:417-438 | the plugin is asked for declared directions only iff no column of the supported prefix is repeated with an undeclared one |
| SortPushdown.RepeatedColumnAsksUndeclared | fdw/query.c:417-438 | a column declared ascending and repeated descending: it is asked for both |
| SortPushdown.PlanSort | fdw/fdw.c:240-254 | what is pushed and whether all of ORDER BY counts as pushed |
| SortPushdown.OneKeyPlan | fdw.go:93-130 | a single key that is a column is pushed iff its direction is declared |
| SortPushdown.AscendingOnly | fdw.go:93-130 | with c declared ascending, ORDER BY c is pushed and ORDER BY c DESC is not |
| LimitPushdown.BuildQualMap | hub/hub_quals.go:7-24 | every non-nil qual once, in order, under its column |
| LimitPushdown.OnColumnCounts | hub/hub_quals.go:7-24 | a column gets each of its quals as often as the list holds it |
| LimitPushdown.GroupingKeepsMeaning | hub/hub_quals.go:7-24 | a row satisfies the map iff it satisfies the list |
| LimitPushdown.ShouldPushdownLimit | hub/hub_base.go:392-439 | for any traversal order: true iff nothing is unhandled, the table exists and every operator is supported |
| LimitPushdown.SupportedExactlyWhen | hub/hub_base.go:405-436 | an operator is supported iff the last Get entry of the column has it, or, if Get has none, the last List entry |
| LimitPushdown.GetOverList | hub/hub_base.go:405-436 | List with = and <>, Get with = alone: a limit is pushed with the qual = and not with <> |
| LimitPushdown.GroupedTestIsListTest | hub/hub_base.go:392-439 | the test on the map is the test on the list |
| LimitPushdown.BuildConnectionLimitMap | hub/hub_remote.go:212-247 | every connection gets the limit, or none if the schema is static or dynamic and the test fails |
| LimitPushdown.SentExactlyWhen | hub/hub_remote.go:212-247 | a limit is sent iff there is one and the mode is neither static nor dynamic or the test passes, and then unchanged |
| LimitPushdown.DeparseLimit | fdw/fdw.c:173-211 | the planned number, in 32 bits |
| LimitPushdown.PlannedExactlyWhen | fdw/fdw.c:173-211 | with a constant LIMIT, a number is planned iff the query is plain and LIMIT + OFFSET has not the low 32 bits of -1; it is their sum in 32 bits |
| LimitPushdown.PlannedIsSeen | fdw/fdw.c:189-201 | and for no other LIMIT |
| LimitPushdown.PlannedLimitSafeExactlyWhen | fdw/fdw.c:173-211 | the planned limit covers what LIMIT and OFFSET reach exactly when the OFFSET is known or 0 and the sum fits, or nothing is planned, or LIMIT is 0, or the sum wraps to -1 |
| Ordering.CutPartsKeepFirstN | hub/hub_remote.go:231-241 | the first rows of a sorted union of parts cut at n are the first n rows of a sorted union of the whole parts |
| Pushdown.CompleteScan | fdw/fdw.c:173-211 | without a limit every row that passes arrives, whatever the plugins filter and sort |
| Pushdown.PushedAnswer | hub/hub_remote.go:212-247 | a pushed limit that covers the window gives an answer of the whole, over any number of connections and for any tie-breaking, if on the passing rows the plugin's order implies ORDER BY, the other rows it may keep sort after them, and any trust in the order of arrival holds |
| Pushdown.UnpushedAnswer | fdw/fdw.c:276-289 | without a limit the answer is right wherever the trust in the order of arrival holds, also if only the first keys are relied on |
| PushdownFaults.PushedRightExactlyWhen | fdw/fdw.c:173-211 | a limit pushed for a LIMIT above 0, with any quals, OFFSET, orders and trust, is right for all tables iff it covers the window, the plugin's order implies ORDER BY on the passing rows, and no row the plugin may keep and the recheck drops sorts at or before one that passes |
| PushdownFaults.UnlimitedRightExactlyWhen | fdw/fdw.c:276-289 | with no limit pushed the result is right for all tables iff the plugin's order implies the order Postgres takes the rows to arrive in |
| PushdownFaults.UncoveredWindowLosesRows | fdw/fdw.c:202-208 | a sent limit short of the window, or negative, loses rows of some table, under any exact quals and total preorders |
| PushdownFaults.TrustedArrivalRightExactlyWhen | hub/hub_remote.go:212-247 | trusting the order of arrival over n connections is right for all tables iff n is at most 1 or there is no order to keep |
| PushdownFaults.ScanCompleteExactlyWhen | fdw/fdw.c:179-187 | the scan brings every passing row of every table iff no limit is sent, whatever the orders |
| PushdownTheorem.PushdownPreservesAnswer | fdw/fdw.c:173-290 | translation, sort plan, limit plan and limit map composed: the result of any execution is one the query could give over the whole tables; the plugin's order need only imply the keys relied on, and ORDER BY if a limit is sent, on the rows that pass |
| PushdownTheorem.SentLimitCovers | fdw.go:323-331 | a limit that is sent and safe is the planned one and covers exactly the window, or LIMIT is 0 |
| PushdownTheorem.SentLimitIsTested | hub/hub_remote.go:212-247 | from a static or dynamic schema a limit is sent only with nothing unhandled and every qual supported |
| PushdownTheorem.TrustBorneOut | fdw/fdw.c:276-289 | the keys Postgres relies on were pushed as the columns they are, so, where it was asked for declared directions, the order of a plugin that agrees on those implies them |
| PushdownTheorem.DistinctKeysAskDeclared | fdw/query.c:400-441 | of an ORDER BY of distinct plain columns only declared directions are asked for |
| PushdownTheorem.OrderByRefined | fdw/query.c:400-441 | where all of an ORDER BY of distinct plain columns was pushed, the order of an agreeing plugin implies it |
| PushdownTheorem.AgreeingOrdersFit | fdw/fdw.c:173-290 | distinct plain columns, an agreeing plugin, a right number and a static or dynamic schema are all the theorem asks of a limit that is sent |
| PushdownTheorem.AllPushedIsOrderBy | fdw/query.c:400-441 | when all sort fields are called pushed, the pushed list is the whole ORDER BY, in declared directions |
| PushdownTheorem.OtherQueriesScanEverything | fdw/fdw.c:177-187 | for grouping, DISTINCT, aggregates and joins the scan brings every row that passes |
| PushdownTheorem.LimitKeptExactlyWhen | fdw/fdw.c:241-254 | the plan keeps its limit iff every key is declared for its direction or some key is no plain column |
| PushdownTheorem.LimitSentExactlyWhen | fdw.go:323-331 | over translation, sort plan, limit plan and limit map: a connection is sent a limit iff one was planned, the keys are all declared or not all plain columns, and, unless the schema is neither static nor dynamic, every clause becomes a qual that its table supports; it is the planned one |
| PushdownExactness.AnsweredExactlyWhen | fdw/fdw.c:173-290 | any query that some row passes, relying on any number of its keys, is answered over all tables and plugins iff LIMIT is 0; or no limit is sent and the plugin's order implies the keys relied on; or the planned number is right, the plugin's order implies ORDER BY on the passing rows and no failing row it may keep sorts at or before one |
| PushdownExactness.TestedAnsweredExactlyWhen | hub/hub_remote.go:218-241 | with a static or dynamic schema and a limit sent: iff the number is right and the plugin's order implies ORDER BY on the rows that pass |
| PushdownExactness.OtherModeRightExactlyWhen | hub/hub_remote.go:218-241 | with any other schema mode the planned limit is sent, and it takes besides that no failing row the supported quals let through sorts at or before a passing one |
| PushdownExactness.ExpressionOrderRightExactlyWhen | fdw/query.c:557-621 | an ORDER BY that is no plain column, with a limit sent: answered over all tables iff the number is right and ORDER BY tells no two passing rows apart |
| PushdownExactness.OneKeyRightExactlyWhen | fdw.go:349-366 | an ORDER BY of one column, with a limit sent: answered over all tables iff the number is right and the plugin's order by column and direction implies the key, with its NULLs and collation, on the passing rows |
| PushdownExactness.WholeScanExactlyWhen | fdw/fdw.c:179-187 | every passing row arrives iff no limit is sent, whatever the sort keys, and window functions, set-returning targets and WITH TIES make no difference to what is sent |
| WithTies.TiedExactlyWhen | fdw/fdw.c:189-211 | FETCH FIRST ... WITH TIES is answered over all tables iff LIMIT is 0, or no limit is sent and the plugin's order implies the keys relied on |
| Instances.UntestedLimitGoesWrong | hub/hub_remote.go:218-241 | WHERE c = 1 LIMIT 1 without key columns under another schema mode: the limit is sent and the query is not always answered |
| OrderInstances.ExpressionOrderGoesWrong | fdw/query.c:557-621 | ORDER BY f(c) LIMIT 1 at a static site: the limit 1 is sent and the query is not always answered |
| OrderInstances.NullsFirstGoesWrong | fdw.go:349-366 | ORDER BY c NULLS FIRST LIMIT 1, pushed to a plugin that places NULLs last: likewise |
| OrderInstances.TiesGoWrong | fdw/fdw.c:189-211 | ORDER BY c FETCH FIRST 1 ROW WITH TIES: likewise |
| Instances.TheoremApplies | hub/scan_iterator_base.go:77-130 | the same with c a key column: a run with a limit sent that meets all the end-to-end theorem asks for |
| EndToEnd.DeliveredIsSent | hub/scan_iterator_base.go:77-130 | over every interleaving, what Next returned when it ends the scan is what the plugin sent |
| EndToEnd.DeliveredIsPrefix | hub/scan_iterator_base.go:77-130 | and at any other moment the first rows of it |
| EndToEnd.RestMakesNoDifference | hub/hub_base.go:183-194 | where the returned rows fill the window, or LIMIT is 0, some execution over all the rows has the same result |
| EndToEnd.RestOfGroups | hub/hub_base.go:183-194 | likewise where Postgres sorts group by group on top of the keys relied on and stops after a group |
| EndToEnd.QueryIsAnswered | hub/scan_iterator_base.go:77-337 | from the restrictions through plugin, stream, goroutines, channel and Next to the result: an answer of the whole table, whether the scan ran to its end or Postgres stopped when it had the window, also in the middle of an incremental sort |
| ScanProtocol.DeliveryIsPrefix | hub/scan_iterator_base.go:77-130 | over every interleaving the rows Next returned are the first rows received, in order, and the reader leads by at most 101 |
| ScanProtocol.NilMeansOver | hub/scan_iterator_base.go:77-130 | a call that returns (nil, nil), over every interleaving, finds no error recorded and no failure handled, and the returned rows are all the rows, unless the plugin sent a response without a row |
| ScanProtocol.FailedMeansError | hub/scan_iterator_base.go:77-113 | an error that a call returns is the recorded one, and that of a failure in the stream or of a row that does not decode; a call that finds the iterator in error returns it |
| ScanProtocol.CallReturns | hub/scan_iterator_base.go:77-113 | a row that a call returns is the next one of the stream, and a refusal comes exactly from an iterator not started or complete |
| ScanProtocol.NoRowAfterwards | hub/scan_iterator_base.go:77-142 | once complete or in error a scan stays so, and at most the one call already waiting returns another row |
| ScanProtocol.ClosedCanStop | hub/scan_iterator_base.go:120-130 | once closed, in error or not, the reader can stop at every later wait for a reply |
| ScanProtocol.NothingRead | hub/scan_iterator_base.go:258-274 | an iterator that leaves the started state before its reader begins never receives or returns anything |
| ScanEnds.EndsEarlyExactlyWhen | hub/scan_iterator_base.go:91-103 | over all interleavings a scan can end with (nil, nil) before its stream does iff a response without a row follows nothing but rows that decode |
| ScanEnds.NothingAfterCompletion | hub/scan_iterator_base.go:120-142 | after completion no row is returned, in any run |
| ScanEnds.RowFollowsExactlyWhen | hub/scan_iterator_base.go:77-142 | over all interleavings a row can follow the end of a scan iff a row that decodes can still be in the channel when the stream fails |
| ScanErrors.ErrorOtherwiseStable | hub/scan_iterator_base.go:332-337 | nothing but the two overwriting steps changes a recorded error |
| ScanErrors.OverwrittenExactlyWhen | hub/scan_iterator_base.go:276-337 | an error can be overwritten in some interleaving iff the first undecodable row is followed by a stream failure within the reader's lead |
| ScanIterator.ScanIteratorBase.Start | hub/scan_iterator_base.go:168-187 | is the start step when execute succeeds, and changes nothing when it fails |
| ScanIterator.ScanIteratorBase.SetError | hub/scan_iterator_base.go:332-337 | is the protocol's setError |
| ScanIterator.ScanIteratorBase.Close | hub/scan_iterator_base.go:120-130 | cancels, and completes an iterator that is not in error |
| ScanIterator.ScanIteratorBase.ReadPluginResult | hub/scan_iterator_base.go:276-325 | is the cancellation step or the reply step, by the branch of the select, and continues exactly after data |
| ScanIterator.ScanIteratorBase.SendRow | hub/scan_iterator_base.go:308-315 | is the send step |
| ScanIterator.ScanIteratorBase.Next | hub/scan_iterator_base.go:77-113 | is the two consumer steps; returns the recorded error of an iterator in error, refuses exactly one not started or complete, returns a row exactly when a decodable one is next, and (nil, nil) only without an error |
| ExecStates.ExecStateTable.SaveExecState | exec.go:42-51 | files the state under the next number and returns its low 32 bits |
| ExecStates.ExecStateTable.ClearExecState | exec.go:53-63 | removes the entry of the token |
| ExecStates.ExecStateTable.GetExecState | exec.go:65-75 | finds the entry of the token |
| ExecStates.ClearedIsGone | exec.go:53-63 | clearing takes away one entry and leaves every other |
| ExecStates.EntryKept | exec.go:42-75 | an entry stays until its token is cleared |
| ExecStates.HandleFindsState | exec.go:42-75 | an uncleared handle finds its state while fewer than 2^32 were saved |
| ExecStates.HandleFindsStateExactlyWhen | exec.go:42-51 | just after saving it does iff the counter fits the token or the entry the token names holds the same state |
| Hub.HubBase.StartScan | hub/hub_base.go:158-180 | adds the iterator whether or not execute succeeded |
| Hub.HubBase.EndScan | hub/hub_base.go:183-194 | records and closes a started iterator, and forgets it |
| Hub.HubBase.Abort | hub/hub_base.go:263-276 | records and closes every running iterator, in any order, and forgets all |
| Lifecycle.RunningExactly | hub/hub_base.go:158-194 | over every run the running set is the started iterators without EndScan or Abort since, each cancellable iff its execute succeeded, and nothing outside it is started |
| Lifecycle.AbortClosesAll | hub/hub_base.go:263-276 | Abort goes through iff every running iterator's execute succeeded, and leaves nothing running or started |
| Lifecycle.NodeFindsItsState | fdw.go:270-347 | in every run a scan node finds the state it was begun with |
| Lifecycle.BeginMakes | fdw.go:270-347 | beginning makes one new iterator, not yet started, and none if the scan is only explained or reads a command table |
| Lifecycle.EndForgetsState | fdw.go:458-476 | the end of a node forgets what it was begun with and nothing else |
| Lifecycle.ErroredStays | hub/scan_iterator_base.go:120-130 | an iterator in error stays in error through iteration, end and abort |
| Lifecycle.RescanLeavesOrphan | fdw.go:443-457 | after a rescan the replaced iterator is running, also after the node ends, iff it had been started |
| Lifecycle.RescanLeaksState | fdw.go:443-457 | nor is its saved state ever forgotten |
| Lifecycle.OrphanHappens | fdw.go:443-457 | there is such a session |
| Lifecycle.ExplainLeavesOrphan | fdw.go:247-267 | explaining a scan before its end forgets its state: its iterator is still running iff it had been started, and no node finds it any more |
| Lifecycle.ExplainedOrphanHappens | fdw.go:247-267 | there is such a session, with no node left |
| Lifecycle.RecordedTwiceExactlyWhen | hub/hub_base.go:183-276 | where no Abort panicked, metadata is recorded at most twice, twice iff the scan had come to its end when aborted, and never not for a complete scan |
| Lifecycle.CountedTwiceHappens | hub/hub_base.go:263-276 | there is such a session |
| QueryTiming.AddedBelowCap | hub/query_timing_metadata.go:29-37 | below 500 the sorted list holds the whole history |
| QueryTiming.AddedTooFast | hub/query_timing_metadata.go:40-42 | a scan faster than the slowest 500 is rightly ignored |
| QueryTiming.AddedAtCap | hub/query_timing_metadata.go:44-50 | otherwise the 501 sorted and cut are the slowest 500 of the history |
| QueryTiming.RunKeepsSlowest | hub/query_timing_metadata.go:26-51 | after any sequence of adds, ties sorted anyhow, the list is the slowest 500 of all that was added |
| QueryTiming.SlowestIsTopOfSorted | hub/query_timing_metadata.go:26-51 | that is: exactly the lists one gets by sorting the whole history and keeping 500 |
| QueryTiming.QueryTimingMetadata.AddOne | hub/query_timing_metadata.go:26-51 | a list that is the slowest 500 of a history becomes that of the longer one, other queries' lists unchanged |
| QueryTiming.QueryTimingMetadata.RemoveStale | hub/query_timing_metadata.go:60-71 | drops detail and summary of every other query that has detail |
| QueryTiming.QueryTimingMetadata.AddScanMetadata | hub/hub_base.go:199-250 | detail stays the slowest 500 and the summary the fold of all rows added since each was last cleared |
| QueryTiming.QueryTimingMetadata.ReadSummary | hub/hub_base.go:341-354 | refused and left as it is with more than one summary; otherwise lists the only one and clears it |
| QueryTiming.QueryTimingMetadata.ReadDetail | hub/hub_base.go:355-369 | never refused; lists the detail of the only query and clears it |
| QueryTiming.SingleSummaryExactlyWhen | hub/query_timing_metadata.go:60-71 | adding leaves one summary iff every summary was for this query or for one whose detail is still there |
| QueryTiming.SingleQueryKept | hub/hub_base.go:199-250 | over any run detail is kept for one query, and so is the summary while only it is read |
| QueryTiming.SingleExactlyWhen | hub/hub_base.go:199-250 | over any run of adds and reads there is never more than one summary iff no query is added while the summary of another stands whose detail was read, or never there |
| QueryTiming.ReadingDetailOrphansSummary | hub/hub_base.go:339-373 | the detail read and another query run: two summaries |
| QueryTiming.RefusedForever | hub/hub_base.go:341-345 | from then on the summary table is refused in every run |
| GoSlices.Append | types/pathkeys.go:103-112 | in place when there is room, else into a fresh array; nothing before the end changes |
| GoSlices.AppendTwiceClashes | types/pathkeys.go:105-106 | the clash the code avoids: appending twice to a slice with room, the second result overwrites the first |
| PathKeys.AppendPath | types/pathkeys.go:100-118 | appending to columnPaths keeps what requiredColumnPaths, which shares its array, holds |
| PathKeys.KeyColumnsToColumnPath | types/pathkeys.go:60-121 | the slices built hold exactly the specified paths, uncorrupted, with the base cost |
| PathKeys.RemoveKeyColumnsFromAllColumns | types/pathkeys.go:38-48 | panics iff fewer table columns are key columns than there are key columns; otherwise holds the others, then blanks |
| PathKeys.ColumnPathsToPathKeys | types/pathkeys.go:123-153 | each path at twice the base cost, then with each other column at the base cost |
| PathKeys.KeyColumnsToPathKeys | types/pathkeys.go:29-36 | the three composed |
| PathKeysMeaning.PathsAreTheKeySets | types/pathkeys.go:60-121 | the paths are exactly the sets with all required keys, one any-of if there are any, and at most one optional |
| PathKeysMeaning.CheapExactlyWhen | types/pathkeys.go:92-98 | the base cost is the low one iff some key column is required or any-of, and 0 without key columns |
| PathKeysMeaning.PathsDiffer | types/pathkeys.go:60-121 | no set is offered twice, and how many there are |
| PathKeysMeaning.PanicFreeExactlyWhen | types/pathkeys.go:38-48 | for distinct table columns the remainder is filled exactly iff the key columns are distinct columns of the table, and otherwise overrun |
| PathKeysMeaning.PathKeysOfTable | types/pathkeys.go:29-36 | the path keys are exactly the paths alone or with one other column, paths x (1 + other columns) of them, at the stated costs |
| PathKeysMeaning.PathKeyCovers | types/pathkeys.go:29-36 | every path key names every required column, and an any-of one if there are any |
| FindPaths.LookupAttNums | fdw.go:222-236 | the attributes of the names found, each once; which ones, `AttNumsExactly` says |
| FindPaths.AttNumsExactly | fdw.go:222-236 | an attribute is listed, once, iff it is the number of the first live attribute with one of the names |
| FindPaths.ResolveExactly | fdw.go:228-235 | a name finds the number of the first live attribute of that name, and nothing iff there is none |
| FindPaths.PossiblePaths | fdw.go:219-242 | one item for each path key, with its attributes and rows |
| FindPaths.FindClauses | fdw/query.c:470-499 | clauses and relations from the equivalence classes, then from the outer joins |
| FindPaths.ClausesCounted | fdw/query.c:470-499 | a clause about the attribute is taken as often as the classes of more than one member hold it, and once more if it is an outer join's, also one of both sides |
| FindPaths.FindAll | fdw/query.c:443-550 | the paths of the items that have one, in order |
| FindPaths.PathsGrow | fdw/query.c:443-550 | more path keys only add paths, at the end |
| FindPaths.EmittedExactlyWhen | fdw/query.c:463-550 | a path is emitted iff there are attributes, each has a clause and some other relation is brought in; its rows are the item's, its clauses and outer relations exactly theirs |
| FindPaths.LooksUpExactlyResolved | fdw.go:222-236 | an emitted path has a clause for a key column iff the table has a live attribute of its name |
| FindPaths.UnresolvedKeyIsNoBar | fdw.go:222-236 | a name of no live attribute changes nothing in the path |
| FindPaths.UsablePaths | fdw/query.c:443-550 | key columns to paths: each has a clause for every required key and for an any-of one, and needs a relation other than the table |
| JsonNulls.DecodeEncode | helpers.go:204-219 | the escapes of JSON text read back as written (section 7 of RFC 8259) |
| JsonNulls.MatchHereMatches | helpers.go:214-215 | the match taken is one of the regular expression |
| JsonNulls.MatchHereIsGreedy | helpers.go:214-215 | and the longest; its group is the same in all |
| JsonNulls.JsonTextStrips | helpers.go:204-219 | what comes out is JSON text, and its tokens are the input's with the matched NULs removed |
| JsonNulls.OnlyNulsDeleted | helpers.go:211-215 | nothing but NULs is deleted, escaped ones stay |
| JsonNulls.NulsGoneExactlyWhen | helpers.go:204-219 | no NUL is left iff none is separated from an earlier one by escaped backslashes alone |
| CacheTtl.HubCacheSettings.SetTtl | settings/setter_func.go:19-28 | seconds to nanoseconds in 64 bits; a value that does not decode changes nothing |
| CacheTtl.HubCacheSettings.SetClearTime | settings/setter_func.go:30-34 | the clear time becomes now |
| CacheTtl.HubCacheSettings.CacheTTL | hub/hub_remote.go:302-316 | the setting, or the time since the clear if that is less |
| CacheTtl.TtlIsLesser | hub/hub_remote.go:302-316 | it is the lesser of the setting and the time since the clear |
| CacheTtl.SettingTakesEffect | hub/hub_remote.go:302-316 | a setting of n seconds, or five minutes without one, is what counts until the last clear is more recent |
| CacheTtl.ClearedIsNotServed | hub/scan_iterator_base.go:216-220 | over every run a result stored before a clear is not served after it, but for a fraction of a second at 194 days |
| CacheTtl.ServedExactlyWhen | hub/scan_iterator_base.go:216-220 | a result is served iff its age in started seconds is within the setting and the last clear; less than a second is open from 194 days on, and a negative setting serves only the same instant |
| CacheTtl.TtlSetExactlyWhen | settings/setter_func.go:19-28 | the setting is the seconds asked for iff they fit 64 bits of nanoseconds |
| PlanState.SerializeDeparsedSortGroup | fdw/query.c:649-675 | one list of six cells a group |
| PlanState.DeserializeDeparsedSortGroup | fdw/query.c:677-718 | decodes whatever group was encoded, with or without collation |
| PlanState.ReadBackExactlyWhen | fdw/fdw.c:371-379 | reading an integer back from a Datum is right iff it fits the type |
| PlanState.InitializeExecState | fdw/fdw.c:365-392 | finds the state a serialized list carries |
| PlanState.CarriesOne | fdw/fdw.c:340-392 | no list carries two states |
| PlanState.RoundTrip | fdw/fdw.c:340-392 | any plan state comes back as it was |
| Timestamps.EpochIsNewYear2000 | helpers.go:221-239 | the epoch is the first of January 2000, by the calendar |
| Timestamps.AlwaysNormalised | helpers.go:230-239 | never an error, nanoseconds counted forward also before 1970 |
| Timestamps.OutAndBackExactlyWhen | helpers.go:221-239 | Postgres time to instant and back is the identity iff its nanoseconds fit 64 bits |
| Timestamps.InAndBackExactlyWhen | helpers.go:221-239 | the other way loses less than a microsecond, toward the epoch, iff the instant is within 292 years of it |

## Left out

- The columns a scan asks for (fdw/query.c:51-90) and the size estimates of the planner.
- What window functions and set-returning targets make of the rows: only whether they get them all.
- OneArgumentExactlyWhen: the attribute number read from an expression that is no variable is any function of it; which bytes of the node it is depends on Postgres's headers, which are not part of this model.
- Data-race behaviour of unsynchronised fields, and liveness of the reader after Close: steps are atomic and only safety is claimed.
- The step of setError is one step, although the source writes the status before the error.
- Panic recovery; Datum decoding and its errors; the conversion of JSON columns beyond whether it fails.
- goFdwIterateForeignScan takes a row without columns for the end of the scan; the model stops at what Next returns.
- The limit that the query context carries beside the limit map, tracing, and the counters of AddScanMetadata.
- QueryRowSummary.Update is any fold: the model keeps the rows it was given, so any other summary is a function of it.
- Legacy key column sets (types/pathkeys.go:155-192): a list of singletons and one list.
- newExecuteRequest beyond the limit and the time to live it sends: the rest of the request is copied fields.
- Lifecycle.RunningExactly: the status Next leaves is any a started scan can have; which one is the business of `ScanProtocol`.
- readThread as a loop of its own: its turns are the reader's steps in `ScanProtocol`.
- PathKeys.ColumnPathsToPathKeys: the path keys are values; that the first key of each path shares the path's own array is not modelled, since nothing appends to it afterwards.
- CacheTtl.ClearedIsNotServed: the rounding of Seconds() is an upper bound on what the floating point can do, not the floating point itself.
- How a plugin's cache measures the age of an entry; whether caching is enabled at all.
- gRPC clients, the plugin manager, configuration, schema import, settings dispatch, the local hub, in-memory iterators, SQL formatting and build tooling.
