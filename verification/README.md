# AgentHub: verified core

AgentHub is a platform for tool-using agents together with the benchmarks that measure it. This
project models the parts where a mistake would cost money or leak data, and proves what they keep:

- the gate that admits one read-only SQL statement to the demo warehouse;
- the durable ledger of paid model calls, the halting client on top of it, and the three-stage
  B/C coordinator that persists its record around every external call;
- the QMSum study: balanced arm orders, the offline planner, the executor that stops at the first
  unconfirmed call, the record checks, the score summary and the cost accounting;
- the generated warehouse tables, the refund desk and the abstract reader.

One module stands for one component. Code that updates state or scans with an index is a method or
a class whose contract refers to a specification function; the laws are lemmas about those functions.
Exceptions are `Err`, `None` or a named outcome. Whatever the file system, a provider, a budget
policy, a token counter or a budget adapter does is an arbitrary input, interrupts
included; the few behaviours that are not represented are named under "Left out".

Where a method and its specification use the same function, such as an upper-casing, a price or a count,
separate lemmas say what that function computes in other terms; `BcCosts`, `QmsumCounts` and `SqlCase`
hold most of them.

How the main results are built:

- **SQL.** `SqlLexer.Lex` reads a text into quoted runs, comments and plain characters, and
  `LexRender`/`LexCanonical` show that rendering and reading again gives the same tokens. From this
  follows that all four scans of the gate agree on what is quoted. An independent two-state automaton
  (`SqlStatements.Toggle`) marks the quoted characters; `LexToggles` shows that the scans mark the same.
- **Ledger.** `TrialLedger.Run` is a history of calls, refused or interrupted saves, deaths before or
  after a replacement, and restarts. `Safe` is what every history keeps of disk, memory and what the
  callers were told; `Consistent` adds that disk and memory agree, which holds under an exact condition.
  `LedgerReplay.Replay` shows that the object goes through exactly these histories.
- **Coordinator.** Every run emits events to a monitor (`BcRunner.Next`) that states the protocol.
  Each run is accepted by it; `CrashSafe` and `DispatchDiscipline` say what acceptance means at every
  moment. `RunEnd` says which outcome each environment must have unless a save fails.
- **QMSum.** `Acceptable` states which record sequences are legal without reference to the loop
  that checks them; planner, executor, summary and accounting are all connected to it.

Where the code does not meet its description:

- `record_issued_refund` is meant to refuse whatever exceeds the amount outstanding. A NaN amount
  passes its comparisons, which are all false, and makes the outstanding amount NaN, after which no
  positive amount is refused (`RefundDesk.NanExample`, `UnlimitedAfterNan`). `IssueWithin` and
  `NeverOverRefundedIff` give the exact condition: totals are kept if and only if no NaN amount
  comes in a call that names a known order with its currency, a reason and something outstanding.
- `reconstruct_abstract` is described as leaving a gap between positions as a gap, so that no
  adjacency is invented. It joins the placed words with single spaces (`Abstracts.GapExample`,
  `GapsAreClosed`). `AdjacencyIff` gives the exact condition: no adjacency is invented if and only
  if the index leaves no position unclaimed between two claimed ones.
- `ensure_read_only` is described as refusing REPLACE as a statement. It does so for the leading word
  (`SqlWrites.LeadingReplaceRefused`); behind WITH it is accepted (`ReplaceExample`). `ReplaceIff` gives the
  exact condition on the text the caller has, and `OnlyReplaceWrites` shows that REPLACE is the only one of
  the seven writing verbs that can stand in an accepted text.
- `settle` and `increase_limit` are meant to keep the old state in memory when storing the new one fails.
  They do so for operating-system errors; anything else a save raises, such as an interrupt or an encoding
  error, leaves memory ahead of the file (`TrialLedger.EscapeExample`). `StepConsistentIff` and
  `RunConsistentIff` give the exact condition; `RunSafe`, `ReservationsSurvive` and `GrantedOnce` hold regardless.
- `BudgetedAdapter` is meant to halt after an uncertain attempt. An interrupt passes its handler by
  (`BudgetedAdapter.InterruptExample`); `RunOpen` counts what is left open, interrupt by interrupt.
- `run_experiment` contains stops that no run reaches: exact counts required, summary unusable, the
  single-request cost gate, the unavailable count behind the counter (a counter that fails raises) and
  the usage mismatch behind a settlement. `BcRunner.RunExperiment` proves that no live run ends with
  one of them; for the last one, because every branch that notes an issue on a stage also stops.

## Model

| member | source | states |
|---|---|---|
| SqlLexer.ReadRunSound | apps/warehouse_mcp/sql_guard.py:253-270 | a quoted run that was read is its opener's escaped payload, a closer and the rest, and could not have been longer; doubling escapes every closer but `]` |
| SqlLexer.ReadRunComplete | apps/warehouse_mcp/sql_guard.py:253-270 | conversely every payload that fits in front of a rest is read back exactly |
| SqlLexer.QuoteTable | apps/warehouse_mcp/sql_guard.py:77-80 | the four pairs of quotes, of which all but the bracket escape by repetition |
| Text.TrimIs | apps/commerce_mcp/commerce_data.py:371-374 | stripping takes away exactly the white space at both ends |
| SqlLexer.LexRender | apps/warehouse_mcp/sql_guard.py:99-159 | scanning rendered canonical tokens gives the same tokens, with or without comment recognition |
| SqlLexer.LexCanonical | apps/warehouse_mcp/sql_guard.py:99-133 | whatever a scan read, with its comments turned into spaces, is canonical: no new comment opener or longer quote can arise |
| SqlStatements.StrippedRelex | apps/warehouse_mcp/sql_guard.py:99-133 | the stripped text is scanned to the original tokens with spaces for comments, whether or not comments are recognised |
| SqlStatements.LexToggles | apps/warehouse_mcp/sql_guard.py:136-159 | a scan refuses a text exactly when the quote automaton ends inside a run, and otherwise marks the same characters as quoted |
| SqlGuard.SkipQuoted | apps/warehouse_mcp/sql_guard.py:253-270 | returns the index just past the run, which is the rendered quoted token; fails exactly on an unterminated run |
| SqlGuard.StripSqlComments | apps/warehouse_mcp/sql_guard.py:99-133 | the loop renders the tokens of the text with a space for each comment, or reports the scan's error |
| SqlGuard.SplitStatements | apps/warehouse_mcp/sql_guard.py:136-159 | the loop returns the trimmed non-blank pieces between unquoted semicolons, or reports the scan's error |
| SqlGuard.LeadingKeyword | apps/warehouse_mcp/sql_guard.py:273-280 | the loop finds the statement kind behind white space and opening parentheses |
| SqlGuard.WrappersIgnored | apps/warehouse_mcp/sql_guard.py:273-280 | parentheses, blanks, tabs and line ends in front do not change the kind; any other character that cannot be in an identifier leaves none |
| SqlGuard.Keywords | apps/warehouse_mcp/sql_guard.py:283-303 | the loop returns the upper-cased bare words of the tokens, or reports an unterminated quote |
| SqlGuard.EnsureReadOnly | apps/warehouse_mcp/sql_guard.py:162-208 | the composition of the four scans gives the verdict of the specification with the source's forbidden words |
| SqlGuard.StripIdempotent | apps/warehouse_mcp/sql_guard.py:99-133 | stripping again returns the same text, no comment is left, and every quoted run is kept in order |
| SqlGuard.SplitAndRejoin | apps/warehouse_mcp/sql_guard.py:136-159 | on stripped text the untrimmed pieces joined by semicolons rebuild it, each is quote-balanced, and no later scan can report an unterminated quote |
| SqlGuard.GuardVerdict | apps/warehouse_mcp/sql_guard.py:162-208 | the verdict is decided on one token stream: each rescan inside the gate sees the same tokens |
| SqlGuard.GuardFixedPoint | apps/warehouse_mcp/sql_guard.py:162-208 | what the gate returns passes the gate unchanged, for any list of forbidden words |
| SqlGuard.AcceptedText | apps/warehouse_mcp/sql_guard.py:162-208 | what the gate returns is trimmed, not empty, quote-balanced and has no unquoted semicolon or comment opener, judged by the automaton |
| SqlGuard.AcceptedWords | apps/warehouse_mcp/sql_guard.py:162-208 | its first bare word is SELECT or WITH and is the statement kind, SELECT occurs, and no forbidden word does |
| SqlGuard.QuotedTextIsData | apps/warehouse_mcp/sql_guard.py:136-208 | texts that differ only inside quoted runs have the same pieces, bare words, verdict and error |
| SqlStatements.UpperIs | apps/warehouse_mcp/sql_guard.py:273-303 | upper-casing keeps the length, turns each small letter into its capital and leaves every other character |
| SqlCase.CaseIsIgnored | apps/warehouse_mcp/sql_guard.py:162-303 | texts that differ only in the case of letters, anywhere, have the same bare words, verdict and error |
| SqlWrites.GateIff | apps/warehouse_mcp/sql_guard.py:162-208 | every text is accepted exactly when it is not blank, its quotes and comments close, it is one statement that starts with SELECT or WITH, and its bare words have SELECT and no forbidden word |
| SqlWrites.ReturnedWords | apps/warehouse_mcp/sql_guard.py:162-208 | the bare words of the returned text are those of the text that was given |
| SqlWrites.ReplaceIff | apps/warehouse_mcp/sql_guard.py:162-208 | the gate returns a text with REPLACE among its bare words exactly when the text it is given meets the condition of `GateIff` and has REPLACE among its bare words |
| SqlWrites.LeadingReplaceRefused | apps/warehouse_mcp/sql_guard.py:162-208 | a text that begins with REPLACE is refused |
| SqlWrites.OnlyReplaceWrites | apps/warehouse_mcp/sql_guard.py:162-208 | an accepted text has INSERT, UPDATE, DELETE, REPLACE, CREATE, DROP or ALTER among its bare words exactly when REPLACE is one of them |
| SqlWrites.ReplaceExample | apps/warehouse_mcp/sql_guard.py:162-208 | `WITH x AS (SELECT 1) REPLACE INTO t SELECT * FROM x` is accepted and has REPLACE among its bare words |
| TrialLedger.TrialBudget.Open | benchmarks/evaluation/budget.py:17-36 | reopens exactly a ledger of the same limit and price, starts a new one durably, and otherwise fails; however the first save ends, the file holds the new ledger exactly when it was replaced |
| TrialLedger.TrialBudget.Save | benchmarks/evaluation/budget.py:101-116 | ends with the first replacement, among five, that is not denied; the file is replaced exactly when that one replaced it, also when something else is raised behind it |
| TrialLedger.RetriesFour | benchmarks/evaluation/budget.py:109-116 | up to four denied replacements are followed by a further one, which decides; after five the save is refused |
| TrialLedger.TrialBudget.Reserve | benchmarks/evaluation/budget.py:68-83 | a reservation that passes its checks is in memory however its save ends; a refused one changes nothing |
| TrialLedger.TrialBudget.Settle | benchmarks/evaluation/budget.py:85-99 | a settlement is undone in memory exactly when its save ends with an operating-system error |
| TrialLedger.TrialBudget.IncreaseLimit | benchmarks/evaluation/budget.py:44-66 | an increase is undone in memory exactly when its save ends with an operating-system error |
| TrialLedger.ReservingSound | benchmarks/evaluation/budget.py:68-83 | a reservation is for a new id, takes its full cost from what is left and keeps allocated <= limit <= 50 |
| TrialLedger.SettlingSound | benchmarks/evaluation/budget.py:85-99 | a settlement changes one open row and gives back exactly the difference |
| TrialLedger.RunSafe | benchmarks/evaluation/budget.py:17-116 | over every history of calls, refused or interrupted saves, deaths and reopens: allocated <= limit <= 50 on disk and in memory, and each accounts for every reservation that returned and every settlement it knows of |
| TrialLedger.StepConsistentIff | benchmarks/evaluation/budget.py:44-99 | from agreeing file and memory, a step keeps the file rows equal to a prefix of the memory rows with only unresolved rows beyond it, exactly when it is not a settlement or increase that passes its checks and whose save raises something other than an operating-system error before the file is replaced |
| TrialLedger.RunConsistentIff | benchmarks/evaluation/budget.py:17-116 | over every history, file and memory agree at every moment exactly when no step escapes in that way |
| TrialLedger.EscapeExample | benchmarks/evaluation/budget.py:94-99 | a new ledger with a stored reserve of 2 whose settlement at 1 is interrupted: memory has the 1, the file still the 2 |
| TrialLedger.ReservationsSurvive | benchmarks/evaluation/budget.py:68-99 | over every history, every attempt whose reserve returned is on disk with its full reserve until a settlement is stored, then with that cost |
| TrialLedger.NotGrantedAgain | benchmarks/evaluation/budget.py:68-83 | what was granted stays granted at its amount and is never granted again |
| TrialLedger.GrantedOnce | benchmarks/evaluation/budget.py:68-83 | no id is successfully reserved twice, whatever fails in between |
| LedgerReplay.ServeOpen | benchmarks/evaluation/budget.py:44-99 | a call of the object takes its file and its state exactly as the step of the history does, and returns normally exactly when the history says so |
| LedgerReplay.Replay | benchmarks/evaluation/budget.py:17-116 | the object driven through any sequence of opens, calls, failing saves and exits goes through the states of the history; so it is safe, no id is granted twice, and file and object agree if no step escapes |
| BudgetedAdapter.BudgetedAdapter.CompleteCall | benchmarks/evaluation/live_pilot.py:175-182 | a halted adapter refuses; any failure but an interrupt halts it |
| BudgetedAdapter.BudgetedAdapter.CompleteBounded | benchmarks/evaluation/live_pilot.py:184-219 | reserve, dispatch, check the bounds, settle and record, over the mutable ledger |
| BudgetedAdapter.CostFits | benchmarks/evaluation/live_pilot.py:184-219 | the cost of usage within the bounds never exceeds the 0.0704 reserve |
| BudgetedAdapter.CostIs | benchmarks/evaluation/live_pilot.py:202-203 | the largest bounded usage costs exactly the reserve; an input token adds 2 and an output token 8 millionths |
| BudgetedAdapter.SettlesOpenRow | benchmarks/evaluation/live_pilot.py:184-219 | the settlement of a bounded usage finds its open row and is never refused as an overrun |
| BudgetedAdapter.CompleteSerial | benchmarks/evaluation/live_pilot.py:167-219 | one call adds exactly the row that its guards say, changes nothing when halted, halts on every failure but an interrupt, and cannot fail with an overrun or a lost reservation |
| BudgetedAdapter.RunSerial | benchmarks/evaluation/live_pilot.py:167-219 | in every run the ledger is its start plus the rows of the calls that reserved, the recorded calls are those that settled, and only the last row can belong to a failure without an interrupt |
| BudgetedAdapter.RunGrowth | benchmarks/evaluation/live_pilot.py:167-219 | the ledger grows by the recorded costs, the costs of settlements whose save raised something, and one full reserve for each row left open |
| BudgetedAdapter.RunOpen | benchmarks/evaluation/live_pilot.py:167-219 | the rows left open are those of interrupted calls and at most one more, which means a halt; so at most one is open exactly when these are at most one |
| BudgetedAdapter.UninterruptedGrowth | benchmarks/evaluation/live_pilot.py:167-219 | in a run without an interrupt the ledger grows by the recorded costs plus at most one full reserve, and by more than the recorded costs only if the adapter is halted |
| BudgetedAdapter.UninterruptedRun | benchmarks/evaluation/live_pilot.py:167-219 | without an interrupt no row is left open by one, so with `RunOpen` at most one is open |
| BudgetedAdapter.InterruptExample | benchmarks/evaluation/live_pilot.py:175-182 | two interrupted calls leave two open rows and an adapter that is not halted |
| BudgetedAdapter.NothingAfterFailure | benchmarks/evaluation/live_pilot.py:175-182 | after the first call that fails without an interrupt no later call reserves, dispatches or records |
| BcRunner.EligibleIff | benchmarks/evaluation/memory_bc_runner.py:632-721 | a counted plan is eligible exactly when it raises no issue except an unenforced occupancy one |
| BcCosts.EligibleMeans | benchmarks/evaluation/memory_bc_runner.py:632-721 | eligible means: every request fits the workset with its full output, C behind every summary within its cap, the three reserves fit the budget, and an enforced occupancy holds |
| BcCosts.PricePerMillion | benchmarks/evaluation/memory_bc_runner.py:377-386 | a million input or output tokens add the input or the output price |
| BcCosts.ReservationCovers | benchmarks/evaluation/memory_bc_runner.py:377-386 | a reservation covers every call within the context limit and the output cap of its stage |
| BcCosts.ReservationIsLargestCall | benchmarks/evaluation/memory_bc_runner.py:377-386 | and it is the least amount that does |
| BcRunner.StageAffordable | benchmarks/evaluation/memory_bc_runner.py:377-386 | in an eligible plan every stage fits the budget on top of the earlier ones, so the single-request cost gate never closes |
| BcRunner.Session.Write | benchmarks/evaluation/memory_bc_runner.py:432-462 | a write replaces the whole persisted record or leaves it, and only truthful records are written |
| BcRunner.Session.Attempt | benchmarks/evaluation/memory_bc_runner.py:825-946 | one stage ends as its adapters decide unless a save fails, and continues only when dispatched once and settled |
| BcRunner.Session.Reserve | benchmarks/evaluation/memory_bc_runner.py:848-873 | the intent is persisted before the budget is asked and the grant before anything else; a rejection is persisted |
| BcRunner.Session.Dispatch | benchmarks/evaluation/memory_bc_runner.py:874-905 | one dispatch behind the persisted reservation; it ends as provider, checks and budget decide unless a save fails, and whatever stops it is noted on the stage |
| BcRunner.Session.Receive | benchmarks/evaluation/memory_bc_runner.py:898-927 | an invalid reply or a usage that differs from the count stops with the outcome unknown and noted; a valid reply whose text cannot be encoded raises with the reservation left on file; any other is settled |
| BcRunner.Session.Settle | benchmarks/evaluation/memory_bc_runner.py:928-946 | a stage is recorded as settled only after the budget settled it |
| BcRunner.Session.GateC | benchmarks/evaluation/memory_bc_runner.py:794-824 | C passes exactly with a usable summary and a count within the reduction limit and the workset |
| BcCosts.CAdmittedMeans | benchmarks/evaluation/memory_bc_runner.py:801-824 | C is admitted exactly when its count is within the ratio of B's and fits the workset, so it is smaller than B |
| BcCosts.UsableMeans | benchmarks/evaluation/memory_bc_runner.py:947-965 | a summary is sent on exactly when finished, not blank, and citing source segments and nothing else |
| BcCosts.ValidReplyMeans | benchmarks/evaluation/memory_bc_runner.py:1003-1036 | a reply is valid exactly with a usage that its cached and reasoning tokens are part of, a cost under the frozen price, a finish reason and no foreign model |
| BcCosts.ReviewMeans | benchmarks/evaluation/memory_bc_runner.py:966-999 | a run ends without citation issues exactly when C cites something, and only source segments that the summary cited |
| BcRunner.Session.Conclude | benchmarks/evaluation/memory_bc_runner.py:947-999 | behind a settlement the run stops, skips C for an unusable summary, ends in a review, or goes on unchanged |
| BcRunner.ConcludeStage | benchmarks/evaluation/memory_bc_runner.py:947-999 | behind a settlement the run ends as its environment decides or goes on with what it keeps of the summary; nothing is noted on a settled stage, so the usage-mismatch stop is not taken |
| BcRunner.RunStage | benchmarks/evaluation/memory_bc_runner.py:791-999 | one round of the stage loop ends the run as its environment decides or leaves one more stage settled with nothing noted |
| BcRunner.RunStages | benchmarks/evaluation/memory_bc_runner.py:789-1000 | an eligible run ends as `StagesEnd` says or with an exception of a failed save, and awaits review only with all three stages settled |
| BcRunner.RunExperiment | benchmarks/evaluation/memory_bc_runner.py:724-1000 | every run is accepted by the monitor, ends as its environment decides unless a save fails, persists its final status, never dispatches in a dry run, and does nothing when the run file exists |
| BcRunner.RunSeries | benchmarks/evaluation/memory_bc_runner.py:432-462 | of all invocations with one run id at most one causes any event, so nothing is resumed or replayed |
| BcRunner.MonitorMeans | benchmarks/evaluation/memory_bc_runner.py:741-1000 | the counters of the monitor are the dispatched prefix, its summed reserves, the last persisted record and the granted and settled stages |
| BcRunner.CrashSafe | benchmarks/evaluation/memory_bc_runner.py:741-1000 | at every moment the dispatches are a prefix of summary, B, C, their reserves fit the maximum cost, each is on file as reserved, unknown or settled, and settled on file means settled |
| BcRunner.DispatchDiscipline | benchmarks/evaluation/memory_bc_runner.py:787-946 | each dispatch follows its granted reservation, a persisted reserved-or-unknown record and the settlement of all earlier stages; C also a complete, fully cited summary and a count within the gate |
| BcCosts.AnswersAffordable | benchmarks/evaluation/memory_bc_runner.py:741-1000 | in every run whose answers stay within the declared limits, all answers together cost at most the maximum total |
| QmsumPlan.PlannedKeysDistinct | benchmarks/evaluation/memory_qmsum_protocol.py:571-593 | no arm of a valid plan is planned twice |
| QmsumPlan.ValidCaseMeans | benchmarks/evaluation/memory_qmsum_protocol.py:501-544 | a valid case has its arms numbered in order from one, B among them if any, and number of arms, candidates and reason follow from its status and arms |
| QmsumOrders.ShuffleInPlace | benchmarks/evaluation/memory_qmsum_protocol.py:1155-1191 | the in-place swaps compute the specified shuffle and generator state |
| QmsumOrders.ShufflePermutes | benchmarks/evaluation/memory_qmsum_protocol.py:1155-1191 | for every seed the shuffle is a permutation |
| QmsumOrders.AssignBalances | benchmarks/evaluation/memory_qmsum_protocol.py:1155-1191 | the number of B-first questions is half of all, rounded up, or down when inverted |
| QmsumOrders.AssignAt | benchmarks/evaluation/memory_qmsum_protocol.py:1177-1191 | arms alternate along the permutation, B first unless inverted |
| QmsumOrders.GeneratorIs | benchmarks/evaluation/memory_qmsum_protocol.py:1167-1175 | the generator is linear with its two constants, and a seed counts by its low 32 bits |
| QmsumOrders.BalancedArmOrders | benchmarks/evaluation/memory_qmsum_protocol.py:1155-1191 | succeeds exactly on twelve distinct questions, and then has each once, both arms, half of them B first, in the order of the shuffle and with the inversion of the next draw |
| QmsumPlanner.RequireB | benchmarks/evaluation/memory_qmsum_protocol.py:1088-1105 | B is admitted exactly when complete and below 85 percent |
| QmsumPlanner.RequireC | benchmarks/evaluation/memory_qmsum_protocol.py:1108-1152 | C is admitted exactly when its view is smaller than its source and its request is complete, below 85 percent, under B's budget and strictly smaller than B |
| QmsumPlanner.PlanCaseValid | benchmarks/evaluation/memory_qmsum_protocol.py:1194-1401 | every case that is built passes the case validator and the gates; Committee and invalid-summary questions have their status and no arm |
| QmsumPlanner.PlanCaseFollows | benchmarks/evaluation/memory_qmsum_protocol.py:1194-1401 | exactly the arms that are ready are planned, with what the policy admitted and the candidate's id; a blocked arm is reported with what its gate said |
| QmsumPlanner.BuildCases | benchmarks/evaluation/memory_qmsum_protocol.py:1194-1401 | one case for each question in source order; fails exactly on a blank compressed view that reaches C |
| QmsumPlanner.PreferredIs | benchmarks/evaluation/memory_qmsum_protocol.py:1194-1401 | the preferred arm of a question is the first one of its own order |
| QmsumPlanner.DomainIs | benchmarks/evaluation/memory_qmsum_protocol.py:1194-1401 | a frozen question is looked up with its own domain |
| QmsumPlanner.PlanOffline | benchmarks/evaluation/memory_qmsum_protocol.py:1194-1401 | exactly when a plan is returned; it passes the plan validator, keeps every question in source order, and each C arm has B's budget, a smaller estimate and is below the threshold; two planned arms come in the order of their question |
| QmsumRecords.RecordObservations | benchmarks/evaluation/memory_qmsum_protocol.py:1471-1522 | accepts exactly the planned, distinct, ordered, correctly cited records with nothing behind an unresolved one, and returns them unchanged; otherwise reports what is wrong with the first objectionable record, or the order when there is none |
| QmsumSummary.PairsDivide | benchmarks/evaluation/memory_qmsum_protocol.py:1568-1730 | planned pairs divide into untouched, partly and fully attempted ones |
| QmsumSummary.PartialOutcomes | benchmarks/evaluation/memory_qmsum_protocol.py:1568-1730 | failed, unknown and unverified partial pairs are disjoint |
| QmsumSummary.SummaryPasses | benchmarks/evaluation/memory_qmsum_protocol.py:800-895 | for every legal plan and acceptable records the counts pass all cross-checks of the summary |
| QmsumSummary.OneUnresolved | benchmarks/evaluation/memory_qmsum_protocol.py:1568-1730 | a summary never counts more than one unknown or unverified arm |
| QmsumSummary.QualifiedCounts | benchmarks/evaluation/memory_qmsum_protocol.py:1624-1642 | a pair counted as qualified is counted in each arm, and no reviewed arm is counted both as qualified and as unsupported |
| QmsumCounts.StatusCounts | benchmarks/evaluation/memory_qmsum_protocol.py:1676-1730 | arms are counted by the positions of the records with each status |
| QmsumCounts.ReviewKindCounts | benchmarks/evaluation/memory_qmsum_protocol.py:1621-1623 | observed arms are counted as reviewed by a human, by an agent, or not |
| QmsumCounts.ArmCounts | benchmarks/evaluation/memory_qmsum_protocol.py:1624-1637 | the qualified and unsupported counts of an arm are the positions of that arm's observed records with only passes, or failing for unsupported claims |
| QmsumCounts.QuestionCounts | benchmarks/evaluation/memory_qmsum_protocol.py:1676-1691 | questions are counted by the positions of the cases with each status and each planned arm |
| QmsumCounts.PlannedPairCounts | benchmarks/evaluation/memory_qmsum_protocol.py:1586-1616 | planned pairs are counted by which arms have a record and how these ended |
| QmsumCounts.ObservedPairCounts | benchmarks/evaluation/memory_qmsum_protocol.py:1579-1645 | observed pairs are counted as complete, comparable and qualified by which arms passed |
| QmsumCounts.AnswerableBounds | benchmarks/evaluation/memory_qmsum_protocol.py:1617-1675 | comparable pairs are at most the qualified B arms, and pairs inside the band at most the comparable ones |
| QmsumCounts.BudgetIs | benchmarks/evaluation/memory_qmsum_protocol.py:1668-1670 | the band is measured against the budget of the question's own B arm |
| QmsumSummary.SummarizeScoreRecords | benchmarks/evaluation/memory_qmsum_protocol.py:1568-1730 | a summary is built exactly for acceptable records, and it is valid |
| QmsumAccounting.FiltersAgree | benchmarks/evaluation/memory_qmsum_accounting.py:55-73 | the filter of the accounting and the filter of the summary keep the same pairs |
| QmsumAccounting.PressureCountsAgree | benchmarks/evaluation/memory_qmsum_protocol.py:1657-1675 | the two independently written counters give the same number |
| QmsumAccounting.NothingLostOrDoubled | benchmarks/evaluation/memory_qmsum_accounting.py:75-147 | with every price known, candidate cost plus unpaired summary cost counts every dispatched summary once and every eligible C call once |
| QmsumAccounting.PricedIff | benchmarks/evaluation/memory_qmsum_accounting.py:78-106 | a pair has a price exactly when its summary call was valid and made C's candidate, the three calls share a price identity, and every figure is known |
| QmsumAccounting.TotalsAre | benchmarks/evaluation/memory_qmsum_accounting.py:107-120 | with every pair priced, the baseline is the sum of the B costs and the tokens are those of the B calls, and of the summary and C calls |
| QmsumAccounting.AccountIs | benchmarks/evaluation/memory_qmsum_accounting.py:118-147 | the reported costs, tokens and change are known exactly when there is a pair and every pair has a price, and are these totals |
| QmsumAccounting.Change | benchmarks/evaluation/memory_qmsum_accounting.py:118-126 | the relative cost change is known exactly for a positive baseline, and applied to it gives the candidate cost |
| QmsumAccounting.GroupRows | benchmarks/evaluation/memory_qmsum_accounting.py:44-47 | the loop groups distinct records by question in order of first appearance |
| QmsumAccounting.SelectEligible | benchmarks/evaluation/memory_qmsum_accounting.py:55-73 | the loop keeps exactly the eligible pairs |
| QmsumAccounting.PricePairs | benchmarks/evaluation/memory_qmsum_accounting.py:75-116 | the loop prices exactly the pairs with known costs and collects the summaries used |
| QmsumAccounting.AccountPressurePairs | benchmarks/evaluation/memory_qmsum_accounting.py:33-147 | succeeds exactly on acceptable records and distinct summaries; its count is the summary's and its totals conserve cost |
| QmsumAnswers.ObservedRecord | benchmarks/evaluation/memory_qmsum_answers.py:248-289 | a record is made exactly for a reply of the model and price with usage in bounds, the cost of that usage and no malformed counter; it has that usage, text and cost, and is observed exactly when finished, not blank and counted alike |
| QmsumAnswers.TerminalAre | benchmarks/evaluation/memory_qmsum_answers.py:137-141 | the terminal cases are those whose summary is invalid |
| QmsumAnswers.AnswerArm | benchmarks/evaluation/memory_qmsum_answers.py:142-243 | one dispatch ends the run with the right reason or adds the record of its reply |
| QmsumAnswers.StopUnresolved | benchmarks/evaluation/memory_qmsum_answers.py:145-163 | a stop with an unresolved record is never rejected by the record check |
| QmsumAnswers.ExecuteAnswerPlan | benchmarks/evaluation/memory_qmsum_answers.py:129-245 | for every dispatch behaviour: recorded keys plus unattempted ones are the planned sequence, only the last record can be unresolved, no stop reason means every arm is resolved, each record is what its dispatch gave, and the first reason to stop ends the run; an interrupted run was cancelled behind dispatches that all gave a record and no reason to stop |
| QmsumStudy.RunStudy | benchmarks/evaluation/memory_qmsum_answers.py:129-245 | planner, executor and summary composed: a plan that is returned never ends in a blank terminal reason, its records always give a valid summary, and without a stop reason no arm is unattempted, unknown or unverified |
| Warehouse.PrefixCount | apps/warehouse_mcp/warehouse.py:470-480 | the first k >= 1 indices hold exactly floor((k-1)*converted/total)+1 conversions |
| Warehouse.PrefixShare | apps/warehouse_mcp/warehouse.py:470-480 | every prefix is within one of its ideal share |
| Warehouse.CohortCount | apps/warehouse_mcp/warehouse.py:470-480 | a whole cohort has exactly the conversions asked for, as far as there are views |
| Warehouse.AddCohort | apps/warehouse_mcp/warehouse.py:397-414 | one cohort appends its views in order, and for each view that converts exactly its signup, numbered on |
| Warehouse.CountriesRotate | apps/warehouse_mcp/warehouse.py:400 | countries rotate over the views, from the second one on |
| Warehouse.StampIs | apps/warehouse_mcp/warehouse.py:488-493 | time stamps lie in the eleven hours behind eight o'clock, seven minutes further for each index |
| Warehouse.BuildViewsAndSignups | apps/warehouse_mcp/warehouse.py:382-417 | for every calendar: contiguous ids, sourced signups, and signups equal to the sum of the conversions |
| Warehouse.OrderTotalIs | apps/warehouse_mcp/warehouse.py:420-467 | n signups give ceil(n/2) + ceil(n/5) orders |
| Warehouse.AddOrders | apps/warehouse_mcp/warehouse.py:437-466 | one signup appends exactly its orders and their payments |
| Warehouse.UserOrders | apps/warehouse_mcp/warehouse.py:437-448 | every second user has one order and every fifth one more, on the days behind the signup, and no user has any other |
| Warehouse.OrderTerms | apps/warehouse_mcp/warehouse.py:440-446 | every seventeenth order is cancelled, every eleventh of the others refunded, and the amounts repeat after five |
| Warehouse.BuildOrdersAndPayments | apps/warehouse_mcp/warehouse.py:420-467 | orders are numbered from one and are exactly those of the signups; the payments are exactly those of the orders |
| Warehouse.PaymentsResolve | apps/warehouse_mcp/warehouse.py:420-467 | payments are numbered from one and each pays the amount of an existing, uncancelled order |
| Warehouse.OneSettlingPayment | apps/warehouse_mcp/warehouse.py:420-467 | a cancelled order has no payment that did not fail, every other exactly one, of its own amount, refunded exactly when the order is |
| Warehouse.MoneyAgrees | apps/warehouse_mcp/warehouse.py:420-467 | succeeded payments sum to paid orders, refunded ones to refunded orders |
| Warehouse.BuildSeed | apps/warehouse_mcp/warehouse.py:382-417 | all of this holds of the four generated tables, for every calendar |
| RefundDesk.OldestKeeps | apps/commerce_mcp/commerce_data.py:259-271 | listing refunds loses none and adds none |
| RefundDesk.FindsAll | apps/commerce_mcp/commerce_data.py:259-271 | on an order exactly its seeded and its issued refunds are found |
| RefundDesk.OutstandingIs | apps/commerce_mcp/commerce_data.py:274-289 | what is outstanding is the total less the amounts of exactly the issued and the settled refunds |
| RefundDesk.WholeTotalOutstanding | apps/commerce_mcp/commerce_data.py:274-289 | an order without an issued or settled refund has its whole total outstanding |
| RefundDesk.CorrectiveRefund | apps/commerce_mcp/commerce_data.py:274-331 | behind refunds that are stuck or failed, a refund up to the whole total is accepted |
| RefundDesk.SuffixIs | apps/commerce_mcp/commerce_data.py:335 | a refund reference takes what stands behind the last dash of the order's |
| RefundDesk.OldestFirst | apps/commerce_mcp/commerce_data.py:259-271 | refunds are listed oldest first, and those of one time keep their order |
| RefundDesk.Desk.RecordIssuedRefund | apps/commerce_mcp/commerce_data.py:292-348 | the checks in their order, with the comparisons of floating-point numbers; a refused call leaves the desk as it was, an accepted one appends its receipt |
| RefundDesk.IssueEffect | apps/commerce_mcp/commerce_data.py:274-348 | a refused call changes nothing; an accepted one lowers what is outstanding by exactly its amount, also when that is not a number, and its refund is found |
| RefundDesk.IssueWithin | apps/commerce_mcp/commerce_data.py:303-331 | from a desk within its totals, a call leaves it within them exactly when it is not a NaN amount on a known order with its currency, a reason and something outstanding |
| RefundDesk.NeverOverRefundedIff | apps/commerce_mcp/commerce_data.py:292-348 | a sequence of calls ends within the totals exactly when none of its calls is such a NaN refund |
| RefundDesk.NumbersAreSafe | apps/commerce_mcp/commerce_data.py:292-348 | calls without a NaN amount contain no such refund, so they never refund more than a total |
| RefundDesk.StaysNan | apps/commerce_mcp/commerce_data.py:274-289 | once the outstanding amount is NaN it stays NaN, whatever is called |
| RefundDesk.UnlimitedAfterNan | apps/commerce_mcp/commerce_data.py:321-331 | behind such a NaN refund every positive amount of cents on that order is accepted |
| RefundDesk.NanExample | apps/commerce_mcp/commerce_data.py:304-331 | on an order of 64.00 a NaN refund and then one of 1000.00 are both accepted |
| RefundDesk.DeskKeepsTotals | apps/commerce_mcp/commerce_data.py:209-348 | on a new desk no reference is issued twice on an order; from seeds within their totals, no order ends beyond its total exactly when no such NaN refund got through |
| RefundDesk.OthersUntouched | apps/commerce_mcp/commerce_data.py:259-348 | a call on one order leaves refunds and outstanding amount of every other order |
| RefundDesk.StaysFound | apps/commerce_mcp/commerce_data.py:259-271 | a refund once found is found after every later sequence of calls |
| Abstracts.Reconstruct | apps/literature_mcp/openalex.py:104-126 | the text of the placed words in order of position, and nothing for a missing index, no placed word or a blank text |
| Abstracts.PlacedIsClaimed | apps/literature_mcp/openalex.py:115-122 | every placed word was claimed there, and every claimed position is filled |
| Abstracts.FirstListedWins | apps/literature_mcp/openalex.py:115-122 | a position goes to the first entry that claims it |
| Abstracts.OrderDoesNotMatter | apps/literature_mcp/openalex.py:104-126 | when no two words claim one position, every order of the entries gives the same text |
| Abstracts.IndexReadsBack | apps/literature_mcp/openalex.py:104-126 | any index that claims for each word exactly its positions reads back as the words joined by single spaces |
| Abstracts.RoundTrip | apps/literature_mcp/openalex.py:104-126 | indexing tidy words by position and reconstructing gives the words joined by single spaces |
| Abstracts.JoinIs | apps/literature_mcp/openalex.py:125 | in the text every word stands behind the words before it and one space for each |
| Abstracts.JoinLength | apps/literature_mcp/openalex.py:125 | and the text ends with the last word |
| Abstracts.PositionsMatch | apps/literature_mcp/openalex.py:125-126 | word i of the text stood at the i-th filled position |
| Abstracts.AdjacencyIff | apps/literature_mcp/openalex.py:104-126 | neighbours in the text stood at neighbouring positions exactly when the index has no unclaimed position between two claimed ones |
| Abstracts.GapsAreClosed | apps/literature_mcp/openalex.py:104-126 | opening a gap anywhere in an index, of any width, does not change its text |
| Abstracts.GapExample | apps/literature_mcp/openalex.py:104-126 | two words at positions 0 and 5 read like neighbours |

## Left out

- The FastAPI application, Celery wiring, migrations, MCP servers and their schemas: composition and input/output.
- `connect_read_only`, `statement_timeout` and `Warehouse.query`: decided by SQLite and clocks.
- Everything under `packages/`: the budget policy and the token counters are arbitrary functions here.
- SHA-256 identities, JSON text, regular expressions and time stamps: values are compared as they are; the citations of a reply are given as a list of ids, and times as numbers.
- Upper-casing is that of ASCII letters in the SQL gate; the currency of a refund call is given stripped and upper-cased.
- Decimal arithmetic is exact over reals: the 28-digit context of Python's `decimal` is not modelled. Refund amounts are whole cents, infinities or NaN, so rounding of floats and overflow of their sums are not modelled.
- `build_seed` takes the number of conversions of a cohort as given; the float product that yields it is not modelled.
- QmsumSummary.SummarizeScoreRecords: does not model the two medians of token reductions, which are floats that no check compares.
- Elapsed times, HTTP status codes and diagnostic texts in the coordinator's record: they decide nothing.
- The construction of the online messages and their completeness check; a question id stands for a question that was already matched.
- `MemoryTrialBudget` and the accounting hook in `deepseek_v41_summary_experiment.py`: the ledger they rest on is `packages/` code.
- Two processes on one ledger file, or one adapter used concurrently: the source allows one owner and serial calls.
- TrialLedger.RunSafe: a death in the middle of a call is a step of the history on values, because a method of a class cannot be cut short; the methods themselves are proved for every save that ends while the process lives on.
- QmsumPlanner.PlanOffline: does not say which error is reported when several apply, and a policy that raises something other than its own error class, which ends planning with that exception, is not modelled.
- QmsumAnswers.ExecuteAnswerPlan: the metadata kept for an answered arm is modelled by its key alone.
- RefundDesk.Desk.RecordIssuedRefund: the copies a caller is handed are values, so mutating a returned record is not modelled.
- Abstracts.Reconstruct: reads the placed words by counting positions upwards instead of sorting the keys, which gives the same order.
