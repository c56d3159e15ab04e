# Models and proofs of the gateway's accounting, rewriting and streaming core

This project models seven components of the gateway in Dafny and proves what they promise. The
models follow the code branch by branch. Pure code is functions, code that changes things step by
step is classes and methods with loops, each proved against a specification function, and the
properties are lemmas about those functions. Whole-run properties quantify over every finite sequence
of steps.

`dafny verify dfyconfig.toml` checks everything.

**Wallet funding** (`FundingLots`, `FundingBatch`, `FundingAllocator`, `FundingLedger`, `FundingOrder`,
`FundingOrigins`, `FundingEconomics`, `EconomicsMeaning`; `Division` and `Text` are helpers). A settled request consumes funding lots oldest
first. The row loop and the PostgreSQL batch (bounded candidates past a keyset cursor, running sums,
an update joined on physical row ids of which any subset may be stale, a savepoint and a keyed retry)
are proved to do the same thing: one oldest-first draw plus a legacy lot for exactly the shortfall.
Over every serialized run of credits, paid top-ups and settlements each lot keeps original = remaining
+ allocations, every request is charged its first amount once, and paid shares telescope. The
first-in-first-out shape of an account is a property of the lot key only: a run keeps it at every point
if and only if no credit that goes in is put in front of a lot of its account already drawn on
(`RunFifoExactly`), and two lots with one timestamp can break it. Every allocation row carries the
source and multiplier of its lot, and every lot those of its credit's reason and policy. The daily
report conserves cost over the allocations of any such run.

**Tool schemas** (`Json`, `ToolSchema`, `ToolList`, `ToolMeaning`). Top-level unions of a function's parameter schema
become one object schema. Acceptance is that of JSON Schema Core draft 2020-12, sections 10.2.1 and
10.3.2, and JSON Schema Validation draft 2020-12, section 6.5.3; keywords outside those are an arbitrary
predicate. What the rewritten root accepts is characterized exactly, and so are the objects that are
lost. The variable names of `dto/openai_tool_schema.go` (`disallow`, `allDisallowAdditional`, line 145)
suggest that a root is closed when all branches are closed. The code tests the opposite: it closes the
root exactly when every branch says `additionalProperties: true`. The model follows the code. Hence the
promise that closed branches, or branches declaring every merged property, lose no argument object
holds for an object if and only if the branches do not all say `true` or the object has no undeclared
property (`NormalizationKeepsAcceptance`); `OpenUnionIsClosed` and `ClosedUnionIsOpened` show both
consequences.

**Responses input** (`JsonText`, `MarkerScan`, `ResponsesInput`, `RewriteMeaning`). A raw scan for `\u` and quoted
markers decides whether a rewrite may skip decoding. JSON text, with the string escapes of section 7
of RFC 8259 and the decoder's nesting bound, is parsed in the model, and for every text the scan
clears the decoding path is proved to change nothing, for all five rewrites.

**Daily usage and the archiver** (`UsageDaily`, `UsageRuns`, `UsageStore`). A cursor-driven projection
is rebuilt by separate reads and one commit, and old logs are stored, then deleted. In every
interleaving with inserts and failures no log is lost before it is stored and counted, and without
deletions the tables always cover the cursor and, once it has caught up, hold exactly the counts and
sums of all logs.

**Hot metrics** (`Histogram`, `MetricCounters`, `HotRuns`, `HotOrigins`, `HotStore`,
`GroupSeries`). Counters move
between shared buckets, an in-flight drain and the database, and a series is read from database, Redis
and memory. Percentiles read from a histogram are the bounds of the exact nearest-rank samples.
Counters are conserved at every point of a run if and only if every add finds its bucket still mapped
and no bucket is deleted that took a sample since its drain (`ConservedExactly`). It is enough that the
delay of an add and the gap between a drain and its delete together stay within a day; a delay below 24
hours alone does not suffice (`SlowFlushLoses`).

**Credit-pack referrals** (`ReferralContext`, `ReferralRuns`, `ReferralDebits`, `ReferralStore`). Settlement events of a
request share one immutable context and are delivered in any order, repeatedly, and with aborts. A
request completes exactly once if a delivery of each of its settlements has committed, with the last
receipt, and not otherwise; each settlement is debited by exactly what its first committed delivery
asked for; money stays split exactly; and the context that attaching writes is one that
consuming accepts.

**Stream bench** (`StreamEvents`, `StreamEmitter`, `StreamChecker`, `StreamReader`, `StreamRoundTrip`,
`StreamMeaning`, `Sse`). The mock's emission for four protocols is accepted by the reader in full, and every proper
prefix of it, every truncation and the synthetic failure are rejected. A stream of any other shape is
accepted exactly when its messages say what was expected and none of them is refused (`AcceptedExactly`).

**Price sync** (`RatioSync`, `RatioDiff`, `RatioMeaning`). The choice among models.dev prices under a comparison that
is not transitive, and the three-phase difference report with its declarative meaning for all inputs. A
value that is null or literally "same" can hide a difference; exactly when is stated by `ReportedExactly`.

## Model

| member | source | states |
|---|---|---|
| FundingLots.RowsTotal | internal/billing/app/funding_attribution.go:268-316 | the allocation rows of an oldest-first draw add up to the amount asked, or to all live quota when that is less |
| FundingLots.TotalAfter | internal/billing/app/funding_attribution.go:268-316 | a draw lowers the live quota by exactly what it gives |
| FundingLots.AfterCompose | internal/billing/app/funding_attribution.go:268-277 | drawing x and then y leaves the lots as one draw of x + y does, so an amount may be drawn in pieces |
| FundingLots.RowsCompose | internal/billing/app/funding_attribution.go:268-277 | after a draw of whole rows, the rows of the next draw continue those of the first: batches change no allocation |
| FundingLots.DrawCapped | internal/billing/app/funding_attribution.go:280-303 | asking for more than is live draws everything there is and nothing else |
| FundingBatch.CompleteExactly | internal/billing/app/funding_attribution.go:338-341 | the completeness test of a batch holds exactly when no lot it meant to charge was lost to a stale physical row id |
| FundingBatch.CompleteIsKeyed | internal/billing/app/funding_attribution.go:343-376 | a batch that passes the test left lots, allocations and totals as the statement joined on primary keys does, whichever row ids are stale |
| FundingBatch.ConsumedIsDraw | internal/billing/app/funding_attribution.go:396-412 | the running-sum predicate of the statement charges the oldest-first draw, bounded by the candidates' quota |
| FundingBatch.CandidatesPrefix | internal/billing/app/funding_attribution.go:379-396 | the limited candidates past the cursor are the oldest live rows; there are none only when nothing is live, and what they leave behind the cursor is spent |
| FundingBatch.BatchIsDraw | internal/billing/app/funding_attribution.go:378-436 | one keyed batch is an oldest-first draw of what it reports as used; when part of the amount stays open all its candidates were spent, so rows at or before the cursor never matter again |
| FundingAllocator.FundingStore.RecordFundingLot | internal/billing/app/funding_attribution.go:201-236 | a positive credit inserts one full lot in key order with its multiplier; a repeated idempotency key changes nothing, a clash of keys fails and changes nothing |
| FundingAllocator.FundingStore.SnapshotTopupPaidQuota | internal/billing/app/referral_consumption_rebate.go:20-34 | a top-up lot's paid part is frozen once, only within the lot's size; everything else fails and changes nothing |
| FundingAllocator.FundingStore.AllocateBatch | internal/billing/app/funding_attribution.go:343-376 | whatever subset of row ids is stale, the attempt ends complete and with exactly the keyed statement's lots, rows, totals and cursor: a partial attempt is undone before the retry |
| FundingAllocator.FundingStore.AllocateRow | internal/billing/app/funding_attribution.go:280-316 | the row step charges the oldest live lot, or creates and spends a legacy lot for exactly what is open |
| FundingAllocator.FundingStore.AllocateSettledFunding | internal/billing/app/funding_attribution.go:252-318 | with or without batches, for every batch limit, batch count and stale set, the call does what the oldest-first settlement does: nothing on a repeated request, otherwise one draw plus a legacy lot for exactly the shortfall, or failure with no change |
| FundingLedger.PaidShareStep | internal/billing/app/referral_consumption_rebate.go:249-252 | the paid share of a draw is the step of floor(consumed * paid / original) and lies between 0 and the draw |
| FundingLedger.PaidWhenExhausted | internal/billing/app/referral_consumption_rebate.go:249-252 | the whole paid part has been given out exactly when the lot is exhausted |
| FundingLedger.PaidSharesTelescope | internal/billing/app/funding_attribution.go:301-305 | over any run, the paid shares a lot frozen while full has given out add up to floor(consumed * paid / original), however its consumption was cut into requests |
| FundingLedger.SettleCovered | internal/billing/app/funding_attribution.go:268-316 | a settlement covered by live lots keeps every ledger invariant |
| FundingLedger.SettleShort | internal/billing/app/funding_attribution.go:284-316 | a settlement with a shortfall keeps every ledger invariant, its legacy lot being spent on it at once |
| FundingLedger.RunGood | internal/billing/app/funding_attribution.go:201-316 | every reachable ledger is good: per lot original = remaining + allocations with remaining >= 0, each settled request holds exactly its first amount, legacy lots are exact shortfalls |
| FundingLedger.ChargedOnce | internal/billing/app/funding_attribution.go:259-265 | whatever credits, top-ups and settlements a run repeats, a request is charged its first committed amount exactly once |
| FundingOrigins.SourceExactly | internal/billing/app/funding_attribution.go:438-448 | a reason is a top-up when it mentions, in any case, a top-up, otherwise a blind box when it mentions one, and other without either; stated on the characters of the reason |
| FundingOrigins.LotsAreMade | internal/billing/app/funding_attribution.go:201-236 | in every run every lot is that of one of its credits, with the source its reason mentions and the multiplier that source's policy gives, or the worthless legacy lot of one of its settlements |
| FundingOrigins.RowsCarryTheirLots | internal/billing/app/funding_attribution.go:301-312 | in every run every allocation row has its lot, and carries exactly that lot's account, source and revenue multiplier |
| FundingOrigins.PaidIsFrozen | internal/billing/app/referral_consumption_rebate.go:22-34 | in every run a lot's paid part is what a paid top-up of the run with its trade number said |
| FundingOrder.FifoMeaning | internal/billing/app/funding_attribution.go:280-299 | in an ordered account at most one lot is partly spent, with empty lots before it and full lots after it |
| FundingOrder.InsertFifo | internal/billing/app/funding_attribution.go:220-236 | a new lot keeps the oldest-first shape exactly when it is not put in front of touched lots of its account, nor already drawn on behind lots that still hold quota |
| FundingOrder.StepFifo | internal/billing/app/funding_attribution.go:201-316 | a credit, paid top-up or settlement keeps the oldest-first shape exactly when it does not put a new lot in front of one of its account already drawn on; settlements always keep it |
| FundingOrder.RunFifoExactly | internal/billing/app/funding_attribution.go:280-283 | for every run: lots are spent oldest first at every point of it if and only if every credit that goes in lands behind the touched lots of its account |
| FundingOrder.RunFifo | internal/billing/app/funding_attribution.go:280-283 | a clock that runs forward on each account is enough for lots to be spent oldest first at every point of the run, whatever the clocks of other accounts and of repeated credits do |
| FundingOrder.SameInstantBreaksFifo | internal/billing/app/funding_attribution.go:280-283 | two credits with one timestamp and a smaller second lot id put a full lot in front of one already drawn on: the order is only that of the key |
| FundingEconomics.RecordConserved | internal/billing/app/funding_attribution.go:157-174 | a record's cost is posted in full exactly when it is a subscription or unallocated, its allocations add up to its amount, or it cost nothing |
| FundingEconomics.CostConserved | internal/billing/app/funding_attribution.go:156-174 | when every allocated request is allocated in full, the cost posted to sources is the sum of the base costs |
| FundingEconomics.DailyFundingEconomics | internal/billing/app/funding_attribution.go:119-188 | the loops over records and rows yield the report: every source posted to once, in order, with its totals, and no revenue recognized from legacy or other sources; a non-positive unit is refused, and the outcome is no number exactly when a record without amount has allocations |
| FundingEconomics.PostRecords | internal/billing/app/funding_attribution.go:156-174 | each record is posted once: to the subscription source, to the legacy source, or to the sources of its allocations |
| FundingEconomics.ReportConservesCost | internal/billing/app/funding_attribution.go:175-185 | recognized plus unattributed cost is all the cost posted, and all base cost when allocations are full |
| FundingEconomics.AllocatorDivisible | internal/billing/app/funding_attribution.go:169-173 | over the allocations any run of the allocator leaves, no record divides by zero |
| FundingEconomics.AllocatorCostConserved | internal/billing/app/funding_attribution.go:119-188 | over the allocations any run of the allocator leaves, a day's report loses no cost |
| EconomicsMeaning.SourceTotals | internal/billing/app/funding_attribution.go:156-174 | for every source: its quota, revenue and cost in a day's postings are what the records give it, record by record and row by row |
| EconomicsMeaning.EntriesMean | internal/billing/app/funding_attribution.go:175-185 | each entry of the report holds its source's quota, revenue and cost as the records give them, and profit is revenue less cost |
| EconomicsMeaning.RecognizedMeans | internal/billing/app/funding_attribution.go:175-185 | recognized revenue and cost are the sums over top-ups, blind boxes and subscriptions, unattributed cost that of the other sources |
| ToolSchema.MergeAccepts | dto/openai_tool_schema.go:243-248 | a merged property schema accepts a value exactly when one of the two declarations does |
| ToolSchema.MergedAccepts | dto/openai_tool_schema.go:130-138 | after merging all branches, a property accepts a value exactly when the root or some branch declares it with a schema that does |
| ToolSchema.NormalizedAccepts | dto/openai_tool_schema.go:110-174 | the rewritten root accepts exactly the objects that have the names it still requires, meet one declaration of each declared property, satisfy what is kept, and, where the rewriting closes the root, have nothing else |
| ToolSchema.KeptExactly | dto/openai_tool_schema.go:110-174 | for every schema: an object the original accepts is still accepted exactly when it has the names the rewritten root requires, each declared property it has meets one of its declarations and, where the rewriting closes the root, it has no other property |
| ToolSchema.NormalizationKeepsAcceptance | dto/openai_tool_schema.go:110-174 | when every union branch is an object schema that is closed or declares every merged property, an accepted object is still accepted if and only if the branches do not all say additionalProperties true, or the object has no property nobody declares |
| ToolSchema.UndeclaredInBranchLoses | dto/openai_tool_schema.go:134-138 | an object accepted through one branch is lost whenever it has a property that only the other branch declares, by a schema its value does not meet |
| ToolSchema.OpenBranchLosesObjects | dto/openai_tool_schema.go:134-138 | a concrete open union and an argument object that the rewriting turns away |
| ToolSchema.BooleanBranchLoses | dto/openai_tool_schema.go:176-187 | a union member that is no object schema is skipped, and objects accepted through it lack names the rewritten root requires |
| ToolSchema.ClosedUnionIsOpened | dto/openai_tool_schema.go:145-154 | where every branch is in fact closed the root is left open: a property nobody declares, added to an accepted object, is accepted by the rewritten schema and not by the original |
| ToolSchema.OpenUnionIsClosed | dto/openai_tool_schema.go:145-154 | a union left open is closed: a concrete schema whose one branch says additionalProperties true, accepting every object before and no object with a member after |
| ToolSchema.NormalizedType | dto/openai_tool_schema.go:156-159 | the rewritten root is an object schema without any root union, enum, const or not |
| ToolSchema.NormalizedNames | dto/openai_tool_schema.go:139-172 | what the rewritten root requires is the base list plus the intersection of the branches' lists |
| ToolList.MergeProperties | dto/openai_tool_schema.go:136-138 | the loop over one branch's properties merges each of them once with what was there |
| ToolList.MergeBranches | dto/openai_tool_schema.go:132-151 | the branch loop computes the merged properties, the intersection of required names, and whether every branch says additionalProperties true, the test by which the code closes the root |
| ToolList.NeedsRewriting | dto/openai_tool_schema.go:115-123 | the scan over forbidden keywords finds whether the root needs rewriting |
| ToolList.NormalizeFunctionParametersSchema | dto/openai_tool_schema.go:110-174 | filling the fresh schema step by step gives the rewritten root, and reports a change exactly when the root needed it |
| ToolList.ToolOnce | dto/openai_tool_schema.go:83-105 | rewriting a tool tree twice changes nothing more, and a change is reported exactly when there is one |
| ToolList.ToolsOnce | dto/openai_tool_schema.go:83-105 | the same for a tool list with nested lists |
| ToolMeaning.FunctionTypeIs | dto/openai_tool_schema.go:90-91 | a tool is a function tool exactly when its type, without surrounding space, is the word function in any case; stated on characters |
| ToolMeaning.ToolsAre | dto/openai_tool_schema.go:83-104 | in every tool list each tool keeps its place; a function tool with an object of parameters that are not portable gets the rewritten parameters and strict false, and everything else stays, nested tools alike |
| ToolMeaning.NormalizedIsAllPortable | dto/openai_tool_schema.go:83-104 | afterwards every function tool anywhere in the tree has portable parameters |
| ToolList.NormalizeToolList | dto/openai_tool_schema.go:83-105 | the recursive in-place walk computes the rewriting of the whole tree |
| ToolList.ResponsesTools.NormalizeToolSchemas | dto/openai_tool_schema.go:58-81 | a tools value that is neither an array nor null is an error and stays; otherwise the field holds the rewritten tree, and a change is reported exactly when it differs |
| JsonText.WrittenReads | dto/openai_responses_input.go:441-450 | round trip: a string written in quotes with its escapes, wherever it stands in a text, is decoded to itself and the token ends where it ends |
| MarkerScan.TokenSpells | dto/openai_responses_input.go:13-23 | without a \u escape, a string token that decodes to a plain marker spells the quoted marker in the raw text |
| MarkerScan.ScanIsExact | dto/openai_responses_input.go:13-23 | when neither \u nor a quoted marker occurs in the raw text, no member name and no string anywhere in the decoded value is that marker |
| ResponsesInput.FastPathIsExact | dto/openai_responses_input.go:72-95 | for the delegation, agent-message, metadata and compaction rewrites, on every input the scan clears, decoding changes nothing |
| ResponsesInput.LiftFastPathIsExact | dto/openai_responses_input.go:159-176 | with no tools declared, the scan is exact for lifting tool declarations too |
| ResponsesInput.ItemOnce | dto/openai_responses_input.go:108-153 | rewriting an item twice changes nothing more |
| ResponsesInput.ItemsOnce | dto/openai_responses_input.go:215-240 | the same for a list of items |
| RewriteMeaning.DelegationMeaning | dto/openai_responses_input.go:72-102 | a delegated call's output becomes a user message with exactly one text part that holds that output; every other item stays |
| RewriteMeaning.AgentMeaning | dto/openai_responses_input.go:108-153 | an agent message becomes a user message that keeps every member but those of the agent protocol, and each encrypted part becomes text that says what it held, its other members kept; every other item stays |
| RewriteMeaning.StripMeaning | dto/openai_responses_input.go:215-238 | exactly author, recipient and phase are removed, from exactly the messages that have one of them |
| RewriteMeaning.CompactionMeaning | dto/openai_responses_input.go:315-345 | exactly the id is removed, from exactly the items that have one |
| RewriteMeaning.DecodedMeaning | dto/openai_responses_input.go:76-102 | an input is rewritten exactly when it decodes to a list with an item the rewrite changes, and then each item is rewritten in its place |
| RewriteMeaning.CarrierMeaning | dto/openai_responses_input.go:177-196 | which items carry additional tools, which tools each of them carries, and exactly when it is malformed |
| ResponsesInput.CollectSplits | dto/openai_responses_input.go:177-210 | lifting keeps every other item in order, moves every carried tool behind the declared ones, and changes something exactly when an item carried tools |
| ResponsesInput.RewriteAll | dto/openai_responses_input.go:84-104 | the loop over decoded items rewrites each once and reports whether any changed |
| ResponsesInput.CollectAll | dto/openai_responses_input.go:180-205 | the lifting loop keeps, collects and fails as the walk over the items does |
| ResponsesInput.ResponsesRequest.NormalizeItems | dto/openai_responses_input.go:72-95 | scan, decode, rewrite and encode: the input field changes exactly when decoding alone finds something to change, and to that |
| ResponsesInput.ResponsesRequest.LiftCodexAdditionalTools | dto/openai_responses_input.go:159-210 | input and tools change together, exactly when decoding finds items to lift; undecodable declared or carried tools are an error and change nothing |
| UsageDaily.AggregateSkips | internal/audit/projection/usage_daily.go:131-160 | logs of other days do not change a day's rows |
| UsageDaily.AggregateIs | internal/audit/projection/usage_daily.go:131-166 | a user or channel has a row on a day exactly when some consume log of it falls on that day; the row counts those logs and sums their prompt tokens, completion tokens and quota |
| UsageDaily.BatchMembers | internal/audit/projection/log_archive.go:28-35 | an archive batch holds only live logs older than the cutoff and at or below the cursor |
| UsageRuns.StepSafe | internal/audit/projection/usage_daily.go:24-45 | every insert, read, commit, cursor read, selection, store and delete, failing or not, keeps the safety invariant |
| UsageRuns.NothingLost | internal/audit/projection/log_archive.go:13-16 | in every interleaved run, every log ever inserted is still live, or is in the sink and, if it is a consume log, was counted by a committed rebuild |
| UsageRuns.DeleteIsExact | internal/audit/projection/log_archive.go:54-68 | in every run, a delete removes exactly the stored batch or nothing |
| UsageRuns.CursorIsCovered | internal/audit/projection/usage_daily.go:168-192 | in every insert-only run, with inserts between a rebuild's own reads, each day's rows aggregate a prefix of the logs that holds at least all logs at or below the cursor |
| UsageRuns.CaughtUpIsFullAggregation | internal/audit/projection/usage_daily.go:24-45 | once the cursor has reached the last log, both tables equal the aggregation of all logs |
| UsageRuns.CaughtUpRowsAreSums | internal/audit/projection/usage_daily.go:131-166 | in every run without deletions, once the cursor has caught up every row of both tables is the count and the sums of the logs ever inserted that fall on its day |
| UsageStore.BatchIsOldest | internal/audit/projection/log_archive.go:30-35 | a batch leaves an eligible log behind only when it is full, and then none older than what it takes |
| UsageStore.DeleteCommits | internal/audit/projection/log_archive.go:55-67 | with unique ids the delete affects exactly as many rows as the batch holds, so the row-count check passes, and removes exactly the batch |
| UsageStore.RebuildIsFull | internal/audit/projection/usage_daily.go:24-45 | replacing the affected days of tables that cover up to the cursor gives the aggregation of all logs |
| UsageStore.FullTableIs | internal/audit/projection/usage_daily.go:131-166 | a full table holds, on every day, exactly the counts and sums of the logs |
| UsageStore.UsageWorker.AffectedUsageDays | internal/audit/projection/usage_daily.go:65-92 | for any largest id read before, the day set is today, yesterday and the changed days, each once and in order |
| UsageStore.UsageWorker.AggregateUsageDays | internal/audit/projection/usage_daily.go:131-160 | the loop aggregates each listed day, by user and by channel |
| UsageStore.UsageWorker.ReplaceUsageDays | internal/audit/projection/usage_daily.go:168-192 | the listed days are replaced and the cursor moved in one transaction, or nothing changes |
| UsageStore.UsageWorker.Rebuild | internal/audit/projection/usage_daily.go:24-45 | one rebuild replaces exactly the affected days by their aggregation and moves the cursor to the largest id, or changes nothing |
| UsageStore.UsageWorker.RebuildUsageDailyAt | internal/audit/projection/usage_daily.go:24-45 | an undisturbed rebuild of covering tables leaves both equal to aggregating all logs, and a failed one leaves them as they were |
| UsageStore.UsageWorker.ArchiveOldLogsBatch | internal/audit/projection/log_archive.go:17-69 | the batch is in the sink before anything is deleted; the delete takes exactly the batch or nothing; without a positive cursor, retention or limit nothing happens |
| Histogram.MetricHistogramIndex | internal/audit/projection/latency_histogram.go:17-24 | the first bound at or above the value, or the overflow slot |
| Histogram.SlotMonotone | internal/audit/projection/latency_histogram.go:17-24 | a larger sample is never counted in a lower slot |
| Histogram.ShownCovers | internal/audit/projection/latency_histogram.go:8-15 | the displayed value is the least bound at or above the sample, capped at the last |
| Histogram.SortedIs | internal/audit/projection/latency_histogram.go:53-77 | the reference order used for exact percentiles is an ordered permutation of the samples |
| Histogram.NearestRank | internal/audit/projection/latency_histogram.go:53-77 | for every sample multiset and every rank, the value read from the histogram is the displayed bound of the exact sample of that rank |
| Histogram.PercentileIsNearestRank | internal/audit/projection/latency_histogram.go:53-77 | for a percentile between 0 and 1 the rank lies among the samples and the value read is the bound of the nearest-rank sample |
| Histogram.RankIsLeast | internal/audit/projection/latency_histogram.go:64-67 | the rank read is the least one that is at least 1 and at least n times the percentile |
| Histogram.PercentileSplitsSamples | internal/audit/projection/latency_histogram.go:53-77 | the percentile read is the bound of a sample such that at least n times p samples lie at or below it and fewer than that below it |
| Histogram.HistogramPercentile | internal/audit/projection/latency_histogram.go:53-77 | the two loops read the first slot whose running count reaches the rank; a histogram of the wrong length or without samples reads 0 |
| Histogram.MergeHistogram | internal/audit/projection/latency_histogram.go:79-90 | the target array is updated in place to the slot-wise sum; a target of the wrong length stays as it is and a fresh array is returned |
| Histogram.MergeHolds | internal/audit/projection/latency_histogram.go:79-90 | merging two histograms gives the histogram of both sample sets together |
| Histogram.MergedPercentile | internal/audit/projection/latency_histogram.go:79-90 | percentiles of a merged histogram are those of the concatenated samples |
| MetricCounters.PlusAdds | internal/audit/projection/channel_metrics.go:237-254 | merging counters adds every counter and every histogram slot |
| MetricCounters.AtomicBucket.Add | internal/audit/projection/types.go:183-218 | adding a sample adds exactly what it contributes, histogram slots included |
| MetricCounters.AtomicBucket.Drain | internal/audit/projection/types.go:241-260 | draining returns the contents and leaves the bucket empty |
| MetricCounters.AtomicBucket.AddCounters | internal/audit/projection/types.go:262-307 | restored counters are added to what has arrived since |
| HotRuns.BucketStartMonotone | internal/audit/projection/metrics.go:147-153 | a later time never falls into an earlier bucket, for every configured width, also before the epoch |
| HotRuns.ConservedExactly | internal/audit/projection/flush.go:23-70 | for every interleaving of stamps, bucket loads, adds, drains, failing or successful upserts and deletes: hot plus in-flight plus persisted equals the recorded total at every point of the run, for every persisted counter of model buckets and every counter and slot of channel buckets, if and only if every add finds its bucket still mapped and no bucket is deleted that took a sample since its drain |
| HotRuns.StepConservesExactly | internal/audit/projection/flush.go:31-62 | one step conserves every count exactly when it lands |
| HotRuns.MissedAdd | internal/audit/projection/metrics.go:92-93 | an add into a bucket object the map no longer holds for its key is counted nowhere |
| HotRuns.NothingIsLost | internal/audit/projection/flush.go:23-70 | when the delay of an add and the drain-to-delete gap together stay within a day, every step lands, so nothing is lost at any point of the run |
| HotRuns.DeleteKeepsExactly | internal/audit/projection/flush.go:66-70 | deleting a flushed bucket keeps every count exactly when the bucket is not old enough to be deleted or took no sample since its drain |
| HotRuns.SlowFlushLoses | internal/audit/projection/flush.go:23-70 | adding within a day of the stamp is not enough by itself: with a minute between drain and delete, a sample added 86391 seconds after its stamp is nowhere |
| HotOrigins.BucketStartIs | internal/audit/projection/metrics.go:147-153 | a bucket starts at the multiple of the width that the time falls behind, rounded toward the epoch |
| HotOrigins.StampedKeys | internal/audit/projection/metrics.go:72-93 | a sample goes to exactly two places at most, each once: the bucket of its model and group, or "default", and, with a channel, the channel's |
| HotOrigins.RecordedIsAsked | internal/audit/projection/metrics.go:72-93 | in every run, for every bucket and counter, what was recorded or is on its way is exactly what the record calls of the run asked for there, by their own times |
| HotOrigins.AskedIsKept | internal/audit/projection/flush.go:23-70 | in every run whose adds and deletes land, what the record calls asked for is hot, in flight, persisted or on its way: nothing is lost between the call and the row |
| HotOrigins.DrainedIsOver | internal/audit/projection/flush.go:23-30 | a flush takes a bucket only when its time is over |
| HotStore.FlushMoves | internal/audit/projection/flush.go:31-62 | flushing one bucket moves counters between bucket and row and neither makes nor loses any |
| HotStore.MetricStore.RecordHotBucket | internal/audit/projection/metrics.go:86-93 | a sample lands in its key's bucket, created on first use; no other bucket changes |
| HotStore.MetricStore.SettleDrained | internal/audit/projection/flush.go:32-61 | drained counters are dropped when empty, written to the row, or put back when the upsert fails |
| HotStore.MetricStore.FlushBucket | internal/audit/projection/flush.go:26-62 | one bucket is drained, persisted or restored, and forgotten only when old and empty |
| HotStore.MetricStore.FlushCompletedBuckets | internal/audit/projection/flush.go:23-64 | every bucket of the map goes through the flush exactly once, whichever upserts fail, and no other row changes |
| HotStore.FlushConserves | internal/audit/projection/flush.go:23-64 | a whole flush conserves every field a row keeps, whatever fails |
| GroupSeries.AppendedReports | internal/audit/projection/metric_group_series.go:38-48 | merging a value changes exactly one bucket, by that value, and a value without requests changes none |
| GroupSeries.SeriesQuery.AppendGroupModelBucket | internal/audit/projection/metric_group_series.go:38-48 | the nested maps are updated as merging one value requires |
| GroupSeries.SeriesQuery.MergeRows | internal/audit/projection/metric_group_series.go:14-21 | every row of an allowed group in the window is merged once |
| GroupSeries.SeriesQuery.MergeRecentGroupModelRedisBuckets | internal/audit/projection/metric_group_series.go:73-110 | exactly the recent, unpersisted buckets of series that have a row are read from Redis, and those with requests are marked as merged |
| GroupSeries.SeriesQuery.MergeHotGroupModelBuckets | internal/audit/projection/metric_group_series.go:50-62 | the shared bucket objects of allowed groups in the window are read through snapshots and added unless Redis covered them |
| GroupSeries.SeriesQuery.QuerySeriesByGroupModels | internal/audit/projection/metric_group_series.go:12-26 | the three sources are combined rows first, then Redis, then hot buckets |
| GroupSeries.SeriesIsTotal | internal/audit/projection/metric_group_series.go:12-26 | when rows and hot buckets make up the recorded totals and each Redis hash is complete or absent, every allowed bucket in the window reports exactly its recorded total |
| GroupSeries.RunThenQuery | internal/audit/projection/metric_group_series.go:12-26 | the same after any run of recording and flushing whose adds and deletions land and that leaves no flush in flight |
| GroupSeries.SummarizeMetricBuckets | internal/audit/projection/metric_group_series.go:132-146 | the series lists every bucket once in time order and the total is the sum over them, field by field |
| ReferralContext.ValidateCreditPackReferralContext | internal/billing/app/credit_pack_referral_context.go:256-298 | a context passes exactly when it names the event's reservation, account, consumer and pack terms, its route is sound, its settlement ids are distinct and include the event's own, and they are all settled for this funding with amounts that add up to the debit |
| ReferralContext.CountIsAll | internal/billing/app/credit_pack_referral_context.go:244-251 | counting the listed receipts finds as many as are listed exactly when every one is there |
| ReferralStore.ReferralLedger.CollectSettlements | internal/billing/app/credit_pack_referral_context.go:99-110 | the settlement ids are collected exactly when the positive amounts add up to what was charged |
| ReferralStore.ReferralLedger.AttachCreditPackReferralContext | internal/billing/app/credit_pack_referral_context.go:78-153 | a request no pack pays for is left alone; otherwise, with evidence, an unambiguous route and settlements that add up, all events of the context carry it afterwards, or it fails and nothing changed |
| ReferralStore.ReferralLedger.WriteContext | internal/billing/app/credit_pack_referral_context.go:111-152 | the events of a context are all written or none: it fails exactly when some event has another identity, carries another context, or was published without one |
| ReferralStore.AttachedIsSound | internal/billing/app/credit_pack_referral_context.go:85-110 | what attaching writes, consuming accepts: the context built from a request's route and settlements passes validation for every event it is written into |
| ReferralDebits.FirstDeliveryAccepted | internal/billing/app/credit_pack_referral_context.go:188-230 | the first delivery of a marketplace settlement commits exactly when its context is sound, the rebate routine succeeds, no earlier rebate is there, the market is new and recordable or pending as recorded, and the owner's share covers what is asked |
| ReferralDebits.FirstDeliveryDebits | internal/marketplace/settlement/referral.go:39-72 | the first committed delivery debits its settlement by exactly what was asked, takes exactly that from the owner's share, and touches no other request |
| ReferralDebits.DebitsExactly | internal/billing/app/credit_pack_referral_context.go:218-226 | in every run a settlement is debited by exactly what its first committed delivery asked for, and not at all without one or when it asked for nothing |
| ReferralDebits.OwnerShareExactly | internal/marketplace/settlement/referral.go:39-72 | in every run the owner's share is the recorded gross less commission, fee and what the first committed deliveries asked for |
| ReferralStore.ReferralLedger.LockCreditPackReferral | internal/marketplace/settlement/referral.go:15-35 | the marketplace row is created when missing and accepted only while pending, for a sound route, and with the parameters it was recorded with |
| ReferralStore.ReferralLedger.ConsumeReferralSettlement | internal/billing/app/credit_pack_referral_context.go:155-254 | one delivery, including settlements of nothing and those no pack pays for, does what the transition says, and an error or abort leaves no trace |
| ReferralStore.ReferralLedger.FundFromMarket | internal/billing/app/credit_pack_referral_context.go:211-252 | locking, funding, the receipt and the completion test do what the funded transition says |
| ReferralRuns.GuardNeverFires | internal/marketplace/settlement/referral.go:39-72 | a debit of a settlement not debited before succeeds exactly when it is zero or positive and within the pending owner share: the conservation check never rejects it |
| ReferralRuns.AttachedTogether | internal/billing/app/credit_pack_referral_context.go:111-152 | in every reachable state a context is on all its events or on none |
| ReferralRuns.StepGood | internal/billing/app/credit_pack_referral_context.go:155-254 | every attach, delivery, projection, foreign receipt and release keeps the settlement invariant |
| ReferralRuns.CompletesOnce | internal/billing/app/credit_pack_referral_context.go:243-252 | in every run with any order, repetition and abort of deliveries, a request has completed once if all its settlements have their receipt and never otherwise |
| ReferralRuns.MatchedExactly | internal/billing/app/credit_pack_referral_context.go:237-243 | in every run a settlement's receipt is marked for a request exactly when a delivery of it has committed for that request |
| ReferralRuns.CompletesWhenAllDelivered | internal/billing/app/credit_pack_referral_context.go:155-254 | in every run, with deliveries in any order, repeated and aborted: a request has completed exactly once if a delivery of each of its settlements has committed, and not at all otherwise |
| ReferralRuns.CompletesWithLastReceipt | internal/billing/app/credit_pack_referral_context.go:243-252 | completion fires in exactly the step that adds the last missing receipt |
| ReferralRuns.CompleteIsFinal | internal/billing/app/credit_pack_referral_context.go:201-210 | once all settlements of a request have their receipts it stays complete and no later event moves money for it |
| ReferralRuns.StepKeeps | internal/billing/app/credit_pack_referral_context.go:130-143 | a written context, a marked receipt and a debit are never taken back or changed, so a settlement is debited at most once |
| ReferralRuns.SplitConserved | internal/marketplace/settlement/referral.go:66-70 | in every run gross = commission + fee + referral debits + owner share with the owner share never negative, and a market leaves the pending status only when complete |
| StreamEvents.FragmentsWhole | cmd/local-streambench/mock.go:400-405 | the tool-argument fragments cut at len*i/total concatenate to the whole, for every number of frames |
| StreamEmitter.ServeFrames | cmd/local-streambench/mock.go:303-330 | the frame loop sends the opening and all frames, or stops after more than half of them |
| StreamEmitter.ServeStream | cmd/local-streambench/mock.go:303-348 | a request is answered with the full stream, a cut-off one, or one that ends in the synthetic error |
| StreamReader.StreamState.TakeFrame | cmd/local-streambench/protocol.go:153-294 | updating the builders and flags message by message computes the transition of one message, for every protocol and every event, malformed and failing ones included |
| StreamReader.StreamState.TakeChatFrame | cmd/local-streambench/protocol.go:181-198 | the loop over choices accumulates text, thought and tool arguments and fails on a non-success finish |
| StreamReader.StreamState.TakeResponsesFrame | cmd/local-streambench/protocol.go:199-233 | each Responses event type has its effect |
| StreamReader.StreamState.TakeClaudeFrame | cmd/local-streambench/protocol.go:234-263 | each Claude event type has its effect |
| StreamReader.StreamState.TakeGeminiFrame | cmd/local-streambench/protocol.go:264-291 | the loops over candidates and parts accumulate text, thought and function-call arguments |
| StreamReader.StreamState.Finish | cmd/local-streambench/protocol.go:296-333 | a stream is accepted at its end exactly when it is terminal and done and text, parts, thought, tool arguments and usage all match |
| StreamReader.StreamState.ReadStream | cmd/local-streambench/protocol.go:153-333 | reading a whole stream succeeds exactly when every message is good and the end is accepted |
| StreamRoundTrip.SentIsReached | cmd/local-streambench/mock.go:303-330 | after the opening and any number of frames the reader holds exactly their texts and is not finished |
| StreamRoundTrip.FullStreamAccepted | cmd/local-streambench/mock.go:303-348 | for every protocol, scenario, frame count and chunk size, the full emission is accepted with exactly the expected text, thought, tool arguments and usage |
| StreamRoundTrip.ProperPrefixRejected | cmd/local-streambench/protocol.go:296-303 | every proper prefix of the emission is rejected, whatever the reader expects |
| StreamRoundTrip.TruncationRejected | cmd/local-streambench/mock.go:326-329 | a stream cut off after any number of frames is rejected |
| StreamRoundTrip.FailureRejected | cmd/local-streambench/mock.go:331-335 | a stream ending in the synthetic error is rejected at that message |
| StreamMeaning.FailsExactly | cmd/local-streambench/protocol.go:153-294 | in every state of the reader a message is refused exactly when it is no JSON, carries an error, or finishes without success, for each of the four protocols |
| StreamMeaning.RefusedIsRejected | cmd/local-streambench/protocol.go:153-294 | one refused message anywhere, and the stream is rejected whatever is expected of it |
| StreamMeaning.AcceptedExactly | cmd/local-streambench/protocol.go:153-333 | a stream of any shape is accepted exactly when no message is refused, its texts, thoughts and call arguments add up to what was expected, some message ends the answer and some the stream, the last positive counts are the expected ones, and each finished text part says what its deltas said |
| Sse.ReadSSE | cmd/local-streambench/protocol.go:339-365 | the line loop dispatches exactly the messages the framing defines |
| Sse.BlockReads | cmd/local-streambench/protocol.go:339-365 | lines without a blank one are one message: their data lines without the prefix and one space, joined by newlines; none when there is no data line |
| Sse.BlankSeparates | cmd/local-streambench/protocol.go:339-365 | a blank line ends a message, and what comes after it is read on its own |
| Sse.FramingRoundTrip | cmd/local-streambench/mock.go:284-289 | reading the written lines gives back the payloads, in order and whole |
| Sse.CutRoundTrip | cmd/local-streambench/protocol.go:361-364 | a stream cut after a data line still dispatches that message at its end, and one cut before it shows nothing of the message |
| RatioSync.NotTransitive | internal/adminops/app/ratio_sync_shared.go:90-95 | nearness up to the epsilon is not transitive |
| RatioSync.BuildCandidate | internal/adminops/app/ratio_sync_convert.go:134-165 | a candidate exists exactly for a non-negative input with a non-negative output and no charged output on a free input; its cache price is kept exactly when it is non-negative |
| RatioSync.EpsilonMinimum | internal/adminops/app/ratio_sync_convert.go:167-177 | with providers in order, a non-zero price is chosen exactly when there is one, and it lies below every non-zero candidate plus the epsilon |
| RatioSync.OrderMatters | internal/adminops/app/ratio_sync_convert.go:167-177 | out of provider order the tie-break climbs past the epsilon |
| RatioSync.SelectCandidates | internal/adminops/app/ratio_sync_convert.go:188-216 | the nested loops choose, for every model, among its usable candidates in provider order |
| RatioSync.SelectionIsLow | internal/adminops/app/ratio_sync_convert.go:179-216 | whatever upstream says, a model with a usable non-zero price gets a non-zero one below each of them plus the epsilon |
| RatioSync.SelectionIsOffered | internal/adminops/app/ratio_sync_convert.go:179-216 | the selected price is a usable one that its named provider offers, and it is zero only when every usable price of the model is |
| RatioSync.SelectionIsFirst | internal/adminops/app/ratio_sync_convert.go:167-216 | no provider before the selected one offers a usable non-zero price at or below the selected one, and when all prices are zero the first provider is selected |
| RatioDiff.AllModels | internal/adminops/app/ratio_sync_diff.go:6-21 | the model set holds every model named locally or by some channel |
| RatioDiff.BuildTrust | internal/adminops/app/ratio_sync_diff.go:23-49 | a channel is distrusted for a model exactly when it gives the placeholder pair of ratios |
| RatioDiff.CompareValue | internal/adminops/app/ratio_sync_diff.go:63-78 | the branches on one channel value compute what is shown and whether it differs |
| RatioDiff.CompareField | internal/adminops/app/ratio_sync_diff.go:52-100 | the channel loop computes the item and whether it is included |
| RatioDiff.BuildFirst | internal/adminops/app/ratio_sync_diff.go:50-102 | before pruning the report holds exactly the included pairs, each with its item |
| RatioDiff.ChannelsWithDiff | internal/adminops/app/ratio_sync_diff.go:104-113 | the second phase finds exactly the channels that show something of their own in some item |
| RatioDiff.Prune | internal/adminops/app/ratio_sync_diff.go:115-139 | the third phase removes such channels' opposites from every item, then items showing nothing but sameness, then models without items |
| RatioDiff.BuildDifferences | internal/adminops/app/ratio_sync_diff.go:5-142 | the three phases compose to the pruned report |
| RatioDiff.ReportedExactly | internal/adminops/app/ratio_sync_diff.go:50-141 | for all inputs: a model's field is reported exactly when some channel's value differs from the local one and some channel with a visible difference anywhere shows something other than sameness there |
| RatioDiff.ListsExactly | internal/adminops/app/ratio_sync_diff.go:104-134 | for all inputs: each reported item lists exactly the channels with a visible difference anywhere, each with what it shows, and a trust for exactly those; of two channels with one name the later speaks |
| RatioDiff.ListsOnlyChannels | internal/adminops/app/ratio_sync_diff.go:104-134 | a reported item lists no name that is not such a channel |
| RatioDiff.PlainPairIsReported | internal/adminops/app/ratio_sync_diff.go:50-141 | with unique names, a pair at which no channel's value is null or literally "same" is reported exactly when some channel's value differs from the local one, whatever the other fields hold |
| RatioDiff.IncludedMeans | internal/adminops/app/ratio_sync_diff.go:84-92 | before pruning, for all inputs, a pair is in the report exactly when some channel differs |
| RatioDiff.LiteralSameIsHidden | internal/adminops/app/ratio_sync_diff.go:67-78 | a channel whose value is literally "same" is not reported although the local side has no such value |
| RatioMeaning.DifferentMeans | internal/adminops/app/ratio_sync_shared.go:97-144 | a channel differs exactly when it has a value and the local side has none that agrees: as numbers up to the epsilon however they are given, as themselves otherwise |
| RatioMeaning.ShownMeans | internal/adminops/app/ratio_sync_diff.go:63-78 | what each channel shows: its own value where it differs, sameness where it agrees or neither side has a value, nothing where only the local side has one |
| RatioMeaning.CurrentMeans | internal/adminops/app/ratio_sync_diff.go:52-62 | each reported item carries the local value, as a number when it is one, or null without one |
| RatioMeaning.TrustMeans | internal/adminops/app/ratio_sync_diff.go:23-48 | a listed channel is trusted exactly when it does not give a model ratio of 37.5 with a completion ratio of 1, up to the epsilon and however the numbers are given |

## Left out

Everywhere:

- Databases, Redis, HTTP, files and encoders: tables are sequences or maps, a transaction is one step that commits or restores, and encoders and the XML check are parameters.
- 64-bit overflow: integers are unbounded; prices, costs and rates are exact reals, so rounding and infinities are not modelled, and a value that is no number only as an outcome of the daily report.

Funding:

- PostgreSQL visibility beyond "a projected physical row id may be stale", and lot inserts that bypass the account lock.
- Table-missing early exits, and policy reads that fail.
- DailyFundingEconomics: a report that holds values that are no number, because a record without amount has allocations, is one outcome without its entries; the day window and its time zone are left to the caller.

Tool schemas:

- Schemas given as raw JSON bytes instead of decoded values, and the typed tools of a Chat Completions request, which call the same rewriting.
- `$ref`, `unevaluatedProperties` and every other keyword outside the modelled ones: opaque predicates of their own value and the instance.
- NormalizationKeepsAcceptance: is stated for unions whose members are all object schemas; a boolean member is skipped by the code, and what is kept then is given by `KeptExactly` and `BooleanBranchLoses`.

Responses input:

- The namespace and item-id rewrites, which have no scan, and the reasoning-effort fallback.
- Replacement of invalid UTF-8: a text is a sequence of characters, not bytes.

Usage and archive:

- Re-aggregation of a day that was already partly archived: the archiver bounds logs by the cursor, not by day, so the equality with full aggregation is stated for stretches without deletions.
- Day strings are day numbers; the batch's partition label and id are not modelled.
- Read models that are not empty when the first cursor is written.

Metrics:

- ConservedExactly: `add` and `drain` are single steps, so an add interleaved with a drain field by field is not covered; in the code such a drain can discard what it took.
- A clock that goes backwards, a bucket width changed during a run, and retention cleanup.
- Summaries, rates and the consumer metrics; the other queries merge the same way.
- SeriesIsTotal: a Redis hash that has lost some fields is not covered, only complete or absent ones.
- Fixed histogram arrays are values inside the bucket object.

Referrals:

- Reservation, account and subscription rows are read through one native-settlement record; missing rows are a missing record. Events of other types are not deliveries.
- The rebate routine is opaque: it fails, or leaves a receipt with some rebate and calls its funder at most once.
- Commission and fee formulas: the amounts come with the context.

Stream bench:

- Timing fields, the mock response id, WebSocket control frames, load generation, and the tokenizer, whose counts are parameters.
- Event encoding: events are values with enumerated member names, and tool arguments go through a codec whose round trip is assumed of the parameter.
- Sse lines are given already split.

Price sync:

- The OpenRouter conversion, endpoint fetching, and the rounding of ratios computed from the chosen prices.
- Values that Go cannot compare, such as maps, on which the comparison panics.
