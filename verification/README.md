# Run integrity of the autonomous agent runner

The runner executes tool calls for a language model over long runs that may crash and be
resumed. What this project models is the state it keeps consistent meanwhile, and what it
promises about that state:

* **Chat payloads.** The pre-send validator and its three-pass repair (`ChatPayload`), the
  grammar of call/result groups it accepts or restores (`WellFormedPayload`), what the repair
  keeps (`RepairConservation`) and what its defects mean (`RepairAnswers`), the functions that
  cut, clip, splice and extend payloads (`ContextCuts`, `SnapshotTail`, `PayloadInsertion`,
  `CutAnswers`), and the preparation of a request within the context window (`RequestBudget`,
  `BudgetAnswers`).
* **Tiered summary.** Printer and parser (`TieredSummary`), what the parser recovers
  (`SummaryRoundTrip`, `SummaryWatermark`, `SummaryIdempotence`), also of a text that is cut
  (`SummaryCuts`), and the rewriting of stored summaries by flushes and resumes
  (`SummaryRewrites`, `SummaryAnswers`).
* **Trajectory.** The hash-chained log (`Trajectory`, `AppendAnswers`, `TrajectoryIntegrity`), its bounded
  consumers (`Watermark`, `MicroIndex`), and the Tier 3 watermark, which is kept in the text of
  the summary alone (`SummaryCoverage`, `WatermarkRuns`, `RolloverAnswers`, `WatermarkLoss`).
* **Dispatch.** Which calls of a batch are executed (`Admission`, `AdmissionAnswers`), and the
  protocol of durable reservations around their execution (`Dispatch`, `DispatchAnswers`,
  `DispatchSafety`, `DispatchTheorems`).
* **Research ledger** (`Ledger`, `LedgerAnswers`, `LedgerRules`, `LedgerTheorems`), **run
  catalog** (`RunCatalog`, `CatalogAnswers`, `CatalogRules`) and **playbook** (`Playbook`,
  `PlaybookRules`, `PlaybookSharing`).

`Text` holds the Python string operations all of this rests on.

Code that updates objects is modelled by classes, and code that loops by methods with loops;
each is proved equal to a specification function, and the promises are lemmas about those
functions. The modules named `...Answers` state what each single operation answers and changes,
in terms of its input alone and without the functions that compute it; the others state what
operations keep together, over runs and over every failure. The dispatch protocol is a state
machine: memory, one durable record replaced as a whole, the log, and history variables for
what was really executed. A crash may fall between any two of its steps, every save may fail,
and an append may fail having written any part of its lines. Token counts, hashes, renderings,
compacted texts and tool results are parameters.

Where a promise does not hold for every input, the project states exactly when it does and
gives an input for which it does not:

* a result placed before its announcement is accepted unrepaired (`bot.py:2308-2317`);
* behind a playbook block, with an early result in front of a system message, the request sent
  is not the one that was counted;
* a Tier 2 or discovery line that is itself a section header breaks the summary, and clipping a
  damaged summary can bring a watermark back;
* a printed entry that spreads over several lines may be read as more lines than are printed
  again;
* the last record of a group can be rewritten, with its id, without being noticed until the
  next group;
* a recorded tool name of several lines that holds a section header makes the next rollover's
  summary unreadable: the watermark is lost and records are handed over again;
* a restarted run whose watermark trails its log appends a source from the first step on to
  the procedure its summary keeps, so that records up to the watermark are handed over again;
* the loop guard forgets an action within its window when the run comes back to a trajectory
  gap at or below the window's end;
* the first transition of a hypothesis stores the evidence id untrimmed, so that a reopen can
  cite the same item;
* a prepared run stays unselected when a write of `run.json` fails before its selection;
* a reservation does not keep a resume from preparing a run of its owner or channel;
* a rule that starts like a heading below its list marker is answered with success but not
  recorded.

`dafny verify dfyconfig.toml` checks the whole project.

## Model

| member | source | states |
|---|---|---|
| `ChatPayload.SurvivingCalls` | `bot.py:2227-2251` | The surviving calls, the announced ids and the defects of one announcement, call by call: an id counts once in the whole payload, a call without id or name is dropped, an argument object becomes its JSON form. |
| `ChatPayload.CollectAnnouncements` | `bot.py:2203-2251` | Pass 1: `announced`, `kept_calls` and its defects equal their specification over the whole payload. |
| `ChatPayload.CollectAnswers` | `bot.py:2238-2272` | Pass 2: `answers`, `answer_positions`, `demoted_orphans` and its defects equal their specification: the first result for an announced id, filled when it has no text. |
| `ChatPayload.Reassemble` | `bot.py:2274-2328` | Pass 3: the repaired list and its defects equal their specification, place by place. |
| `ChatPayload.ValidateChatPayload` | `bot.py:2190-2334` | The three passes compute `Validate`: the input and no defect, or the repaired list and every defect found. |
| `WellFormedPayload.AcceptedIffWellFormed` | `bot.py:2330-2334` | A payload is well-formed (unique good calls, each group followed by exactly its results in call order, no other result, system only at index 0) if and only if it is accepted unchanged and has no result before its announcement. |
| `WellFormedPayload.EarlyResultIsAccepted` | `bot.py:2308-2317` | The proviso is needed: a result placed before its announcement is accepted as it is although the payload is not well-formed, because the range behind the announcement is then empty. |
| `WellFormedPayload.RepairIsWellFormed` | `bot.py:2274-2334` | Whatever payload has a defect, its repair is well-formed, and validating the repair reports nothing and changes nothing. |
| `WellFormedPayload.ValidateIdempotent` | `bot.py:2190-2334` | Validating what the validator returned reports nothing and changes nothing, for every payload. |
| `WellFormedPayload.OutputWellFormedIff` | `bot.py:2330-2334` | What the validator returns is well-formed if and only if it found a defect or the input has no early result. |
| `RepairAnswers.NamedIffThere` | `bot.py:2213-2321` | Each of the ten defects is named if and only if the payload has it: a call without id, with an id asked for before, without tool name or with arguments that are no string; a result nobody asked for, one behind another of its id, or one without text; a system message behind a message that stays; results out of the order of their calls or with something between them; a call nobody answers. |
| `RepairConservation.MessagesConserved` | `bot.py:2213-2306` | Every message that is not the result of an announced call keeps its place in the order: an orphan result as a user message with its text, a system message as it is if nothing comes before it and as a user note otherwise, an announcement with, in order and in canonical form, exactly those of its calls that are the first in the payload to carry their id together with a tool name, any other message unchanged. |
| `RepairConservation.CallsConserved` | `bot.py:2213-2251` | The repair announces exactly the non-empty ids that some call with a tool name carried. |
| `RepairConservation.ResultsConserved` | `bot.py:2318-2328` | The result behind a repaired call is the first one the input had for its id, unchanged when it has text; it is a placeholder only when the input had none. |
| `RepairConservation.FirstResultSurvives` | `bot.py:2257-2272` | No first result is lost: it stands behind its call, or its id was never asked for and it keeps a place of its own. Only later duplicates disappear. |
| `RepairAnswers.KeptCallsSay` | `bot.py:2213-2251` | The calls an announcement keeps are, in order, exactly those that are the first to carry their id together with a tool name, each with its own id, name and arguments. |
| `RepairAnswers.DemotedSays` | `bot.py:2274-2306` | A result nobody asked for becomes a user message that names its tool and keeps its text, a late system message one that keeps its text. |
| `RepairAnswers.PlacedSays` | `bot.py:2257-2328` | A placed result keeps id, name and text, and is filled if it has no text; a call nobody answered gets a placeholder under its id and name. |
| `ContextCuts.SpliceWellFormed` | `bot.py:2384-2390` | A prefix and a later suffix of a well-formed payload, both cut where no result stands, fit together to a well-formed payload. |
| `ContextCuts.RecentGroups` | `bot.py:4100-4113` | The recent part of the split holds exactly the last `keep` groups when there are more, and none otherwise (so a flush keeping one group drops the only one); `keep = 0` keeps all, as `[-0]` is the first. |
| `ContextCuts.SplitWellFormed` | `bot.py:4100-4113` | Both parts of the split of a well-formed payload are well-formed, and the recent one carries no system message. |
| `ContextCuts.FlushKeepsWholeGroups` | `bot.py:3943-3952` | The flushed payload of a well-formed one is well-formed, is exactly system message, recent groups and note, and the validator changes nothing. |
| `ContextCuts.RolloverKeepsWholeGroups` | `bot.py:4411-4428` | The same for the splice of a rollover. |
| `ContextCuts.ChooseGroups` | `bot.py:2363-2375` | The loop over group counts keeps as many groups as `BoundKeeps` says. |
| `ContextCuts.GroupsKeptIsLargest` | `bot.py:2363-2375` | The number of groups kept is the largest allowed one whose text fits, or the minimum. |
| `ContextCuts.BoundAgentPayload` | `bot.py:2344-2390` | The bounded payload equals its specification, for every limit and configuration. |
| `ContextCuts.BoundKeepsWholeGroups` | `bot.py:2344-2390` | Bounding a well-formed payload gives it back, or prefix, notice and whole last groups; the result is well-formed and the validator changes nothing. |
| `CutAnswers.BoundLeaves` | `bot.py:2344-2362` | A payload within the limit, or with a single group, stays as it is. |
| `CutAnswers.BoundSays` | `bot.py:2363-2390` | Of any other well-formed one its first part, a notice with the two numbers, and its last groups are left: fewer than there were, no more than configured but at least one; they fit unless it is a single one, and no larger allowed number of groups would fit. |
| `ContextCuts.RequestIsWellFormed` | `bot.py:2393-2405` | The request built from any payload without early results is well-formed, with or without a playbook block. |
| `CutAnswers.BlockSays` | `bot.py:2393-2405` | A playbook block goes in as one assistant message behind a leading system message, or in front of everything; all other messages keep their order. |
| `SnapshotTail.RewrittenIsWellFormed` | `bot.py:4131-4159` | Rewriting texts while keeping roles, ids and calls keeps a payload well-formed. |
| `SnapshotTail.ClipToolResultMessages` | `bot.py:2551-2561` | The clipping loop equals its specification. |
| `SnapshotTail.ClippedIsWellFormed` | `bot.py:2551-2561` | Clipping a well-formed payload leaves every result text within the limit and every group whole; the validator changes nothing. |
| `CutAnswers.ClipSays` | `bot.py:1993-2002` | A clipped text is the stripped text if that fits, else its beginning, marked where there is room for the mark. |
| `CutAnswers.ClippedSays` | `bot.py:2551-2561` | Clipping changes exactly the result texts that are too long, and nothing else of them. |
| `SnapshotTail.IsSettled` | `bot.py:4181-4196` | Decides whether every call of a group has a result behind it. |
| `SnapshotTail.SnapshotTail` | `bot.py:4162-4200` | The loops of `snapshot_tail` equal its specification. |
| `SnapshotTail.TailIsWellFormed` | `bot.py:4162-4200` | The stored tail of a well-formed payload is the rewriting of a suffix cut between groups, and is well-formed. |
| `SnapshotTail.OpenTailIsWellFormed` | `bot.py:4181-4200` | Even with an unanswered last group the stored tail is well-formed: the group is dropped whole, with the results it already has. |
| `CutAnswers.TailSays` | `bot.py:4162-4200` | The stored tail of a well-formed payload is its last `max` messages without the system message and without the results in front, each as its bounded record. |
| `CutAnswers.RecordSays` | `bot.py:4131-4159` | A bounded record keeps role, ids and names; its texts and arguments are clipped to 2000 characters. |
| `SnapshotTail.RebasedIsWellFormed` | `bot.py:2564-2608` | The emergency context is system message, note, and the clipped whole latest group with what follows it; it is well-formed and the validator changes nothing. |
| `CutAnswers.LatestSays` | `bot.py:2571-2590` | The context keeps the latest group with all its results and at most twelve messages behind it. |
| `CutAnswers.LatestAlone` | `bot.py:2571-2590` | Without any group it keeps the last message that is no system message. |
| `CutAnswers.RebasedSays` | `bot.py:2564-2608` | The emergency context, message by message: system message, note, and these messages, recorded and with results clipped to 160 characters. |
| `PayloadInsertion.InsertedIsSpotless` | `bot.py:2190-2334` | A plain message put into a payload without defect, in front of every announcement, leaves it without defect as long as no system message comes to stand late; early results included. |
| `PayloadInsertion.BlockAcceptedIff` | `bot.py:2393-2405` | A playbook block put into a payload the validator accepts is accepted with it if and only if no system message stands behind index 0. |
| `PayloadInsertion.SentAsCountedIff` | `bot.py:2393-2405` | The request built from any live list passes the second validation unchanged if and only if the block is empty, or bounding cut the payload, or the validated live list has no system message behind index 0. |
| `RequestBudget.BudgetIsSafeIff` | `bot.py:2626-2633` | Staying within the input budget keeps the window for every input if and only if the limit is at least the output plus 2304. |
| `RequestBudget.PrepareRequest` | `bot.py:2611-2844` | Whatever the counter says: the stages are, for a resumed run, three compactions of the summary, then the rollover, for a resumed run one more compaction, then bounding at 0, then clipping results to 1000, 400 and 160 characters. The first draft within the budget, before any stage or behind one, is sent with the requested output. If none is, the last one is sent with what it leaves of the output, if that is at least 512; else its emergency context is, with what that leaves, or the request is refused. A request is sent only within its budget and with the count of a request that was built; if the limit is at least the requested output plus 2304, input + output + 1280 fits the limit. The payload sent is the payload counted if and only if there is no playbook block, or bounding cut the payload, or the validated live list has no system message behind index 0; so it always is if no such message comes in. |
| `RequestBudget.PrepareLateSystem` | `bot.py:2820-2821` | The other case is real: behind a playbook block, a payload with an early result in front of a system message is counted in one form and sent in another. |
| `BudgetAnswers.CompactedDraft` | `bot.py:2679-2711` | In a resumed run under a system message the k-th compaction puts the summary compacted to 6, 3 and 0 steps, 1200, 800 and 400 characters, 4, 2 and 0 discoveries into the system message and changes no other message. |
| `BudgetAnswers.RolledDraft` | `bot.py:2713-2729` | The rollover leaves the recent groups behind a fresh summary and a note, or everything if there is nothing older. |
| `BudgetAnswers.RecompactedDraft` | `bot.py:2731-2753` | Behind the rollover a resumed run compacts the new summary to 400 characters. |
| `BudgetAnswers.BoundedDraft` | `bot.py:2755-2759` | Bounding at 0 leaves one group behind a notice, or several if they hold no text. |
| `BudgetAnswers.ClippedDraft` | `bot.py:2761-2767` | Then exactly the result texts longer than 1000, 400 and 160 characters are clipped to these. |
| `BudgetAnswers.LastDraftIsTrimmed` | `bot.py:2761-2767` | So no result of the last draft is longer than 160 characters. |
| `BudgetAnswers.SmallerOutput` | `bot.py:2769-2779` | A last draft over budget that leaves 512 tokens is sent with the smaller of the requested output and what it leaves. |
| `BudgetAnswers.EmergencyOutput` | `bot.py:2780-2816` | One that leaves less is replaced by its emergency context: sent with what that leaves, sent as requested if it is within the budget, or refused. |
| `BudgetAnswers.EmergencySays` | `bot.py:2564-2608` | That context is the summary at its shortest, the note and the latest group with short results. |
| `TieredSummary.ScanLines` | `bot.py:3223-3283` | The parser's loop equals the fold over the stripped non-blank lines. |
| `TieredSummary.ParseTieredSummary` | `bot.py:3210-3294` | The parser equals `Parse` on every text. |
| `TieredSummary.MarkLines` | `bot.py:3173-3181` | The printer's loop marks the lines of the procedure one by one, in order. |
| `TieredSummary.FormatTieredSummary` | `bot.py:3151-3207` | The printer equals `Format`. |
| `SummaryAnswers.TailClipSays` | `bot.py:2005-2032` | A text that fits is only stripped; of a longer one the newest characters are left, from the first whole line on and behind a mark, or, without room for the mark, as they are. |
| `SummaryAnswers.PrintedSays` | `bot.py:3186-3207` | Of two lists without blank entries the first 20 and 10 are printed, clipped to 280 and 140 characters. |
| `SummaryRoundTrip.Tier3TextIsProse` | `bot.py:3163-3185` | For every Tier 3 text, even one imitating headers or coverage lines, the printed body contains no reserved line, or is the placeholder alone; this includes the tail clip. |
| `SummaryWatermark.WatermarkIff` | `bot.py:3186-3207` | For every Tier 3 text, parsing the printed summary gives the watermark back if and only if it is 0 or no Tier 2 or discovery line is a section header out of order. |
| `SummaryIdempotence.HeaderLineLosesWatermark` | `bot.py:3186-3207` | The exception is real: a Tier 2 line that is the Tier 3 header costs the summary its watermark. |
| `SummaryWatermark.ParseRecovers` | `bot.py:3151-3294` | With single-line Tier 2 and discovery lines that are no headers, the parser recovers the watermark, the clipped first 20 and 10 lines, and the printed procedure. |
| `SummaryCuts.ParseReads` | `bot.py:3210-3294` | The parser finds watermark n > 0 in a text if and only if its non-blank lines follow the grammar: version, Tier 3 header, notice, coverage n, body lines, Tier 2 header, and no header out of order behind it. |
| `SummaryCuts.ClipKeepsWatermarkIff` | `bot.py:1993-2002` | A text clipped to n characters keeps its watermark if and only if the whole lines left follow that grammar just when those of the text do. |
| `SummaryIdempotence.ProcedureKept` | `bot.py:3163-3185` | A procedure that fits is recovered line by line, with reserved lines marked and nothing else changed. |
| `SummaryIdempotence.FormatParseIdempotentIff` | `bot.py:3151-3294` | For any lists: what was parsed from a printed summary is parsed again unchanged from its own printing if and only if it holds at most 20 Tier 2 lines of 280 and 10 discoveries of 140 characters. |
| `SummaryIdempotence.SpreadEntryIsCut` | `bot.py:3187-3207` | The exception is real: an entry of 21 lines is read as 21 lines and printed again as 20. |
| `SummaryIdempotence.FormatParseIdempotent` | `bot.py:3151-3294` | So it is for all single-line lists without headers, whatever the procedure. |
| `SummaryRewrites.FlushKeepsWatermark` | `bot.py:3886-3931` | A flush of any summary keeps its watermark and its printed discoveries and drops Tier 2. |
| `SummaryRewrites.FlushesKeepWatermark` | `bot.py:3886-3931` | Any number of flushes keeps the watermark. |
| `SummaryAnswers.MilestoneStays` | `bot.py:3904-3931` | Whatever the summary, the milestone of a flush (one line of prose of at most 1900 characters) is the last line of its Tier 3, on a line of its own. Before it stand the lines that were no milestones, all of them if they fit, else the newest; prose lines exactly as they were. |
| `SummaryAnswers.MilestoneGoes` | `bot.py:3904-3912` | So the next flush that knows the milestone takes it away, and keeps every line it does not know. |
| `SummaryRewrites.CompactionKeepsTiered` | `bot.py:3297-3325` | Compacting a tiered summary keeps its watermark and the last lines of both lists. |
| `SummaryAnswers.CompactionKeepsProcedure` | `bot.py:3317-3325` | It keeps a procedure of prose that fits as it is. |
| `SummaryAnswers.CompactionDrops` | `bot.py:3317-3325` | Compacted to no characters it keeps nothing of it. |
| `SummaryAnswers.EmptyStays` | `bot.py:3302-3308` | The printed summary of nothing stays itself. |
| `SummaryRewrites.CompactionKeepsWatermarkIff` | `bot.py:3297-3325` | Compaction keeps the watermark of every tiered summary and of every text that does not start like one; a damaged summary keeps having none if and only if the whole lines left by the clip do not follow the grammar. |
| `SummaryRewrites.CompactionNeverLowers` | `bot.py:3297-3325` | Compaction never lowers a watermark, whatever the text and the limits. |
| `SummaryRewrites.ResumeKeepsWatermarkIff` | `bot.py:3344-3352` | The summary a resumed run starts from has the watermark of the stored one if and only if that starts with the version line, or has at most 2000 characters, or the whole lines left of it follow the grammar just when its own do. |
| `SummaryAnswers.ResumeDropsProcedure` | `bot.py:3344-3352` | From a tiered summary that starts with the version line a resumed run takes the watermark, the last six steps and the last four discoveries, and nothing of Tier 3. |
| `SummaryAnswers.ResumeClips` | `bot.py:3344-3352` | Of a stored text that does not start with the version line it takes the first 2000 characters. |
| `SummaryRewrites.DamagedRegainsWatermark` | `bot.py:3300-3310` | The damaged case is real: clipping off the damage makes a lost watermark readable again. |
| `Trajectory.DecodeRecords` | `trajectory.py:84-148` | The decoding loop equals `Decode` on every sequence of lines. |
| `Trajectory.DecodePrefix` | `trajectory.py:84-148` | Decoding any line prefix of a sound log gives exactly the whole groups before the cut, and is complete if and only if the cut is at a group boundary. |
| `AppendAnswers.SoundIff` | `trajectory.py:84-148` | A log is sound if and only if no line is broken, every record is under its own hash, names the one before it as parent and continues its group or begins one of a later step, and the last one ends its group. |
| `AppendAnswers.TrustedLog` | `trajectory.py:84-148` | Of any log the trusted records are the whole groups in front of its first line that is broken or does not fit. |
| `Trajectory.DecodeAppended` | `trajectory.py:200-263` | Behind a sound log a whole later group decodes to the old records followed by the group, complete; any shorter part of it decodes to the old records alone. |
| `Trajectory.ClaimsIff` | `trajectory.py:207-226` | A record counts as executed if and only if its id was executed and no earlier call of the group carries the same id. |
| `Trajectory.BuildRecords` | `trajectory.py:207-251` | The loop over calls and results builds the chained records of the group. |
| `Trajectory.AppendIsAtomic` | `trajectory.py:179-263` | Whatever happens to an append, the trusted records are the old ones or the old ones with the whole group; success means the latter and a sound log; a refusal changes nothing. |
| `Trajectory.TrajectoryFile.AppendToolGroup` | `trajectory.py:179-263` | The file and the answer after an append equal `AppendTo`, including failed and torn writes. |
| `AppendAnswers.AppendTells` | `trajectory.py:207-251` | After a success, record k holds the name, the arguments, the result and the failure flag of call k, its id or an empty one, the step, and the call's artifact if and only if the call counts as executed and the path is in order; the records are chained behind the last trusted one, and only the last ends the group. |
| `AppendAnswers.AppendRefusedIff` | `trajectory.py:179-206` | An append is refused if and only if the step is not positive, results do not match calls, the log is unsound, or calls would not come behind every trusted record. |
| `AppendAnswers.SoundAfterFailureIff` | `trajectory.py:252-263` | Behind a failed write the log is sound, so that it can be appended to, if and only if all of the lines or nothing at all came into the file; the old records are trusted in any case. |
| `TrajectoryIntegrity.RewindIsSound` | `bot.py:5012-5016` | Keeping only the records of steps up to a bound decodes completely, to exactly those records. |
| `TrajectoryIntegrity.LastIdDecides` | `trajectory.py:98-139` | Unless two of their trusted records collide, two logs whose trusted records end in the same id agree on all of them. |
| `TrajectoryIntegrity.TamperingCutsOff` | `trajectory.py:98-139` | Replacing one record of a sound log by any other line leaves exactly the groups before it trusted, unless the new line is itself accepted there as the end of its group; nothing behind it is ever trusted. The hash is assumed to tell apart only the records of the log and the new one. |
| `TrajectoryIntegrity.RewrittenEndIsTrusted` | `trajectory.py:98-139` | That exception is real: the last record of any group can be rewritten with a fresh id and is trusted. |
| `TrajectoryIntegrity.RewritableLogExists` | `trajectory.py:98-139` | A log, a hash into 64 hex digits and a rewriting of that kind, for any first record. |
| `Watermark.ProceduralSource` | `trajectory.py:369-420` | The grouping and selecting loops equal `SourceOf`. |
| `Watermark.SourceHolds` | `trajectory.py:369-420` | A source is within its bound, renders exactly the eligible records from its start through its reported step in order, reports no step the log cannot be relied on for, and is maximal: no larger range of reliable steps would fit. |
| `Watermark.RenderedSays` | `trajectory.py:384-397` | Rendered are exactly the records of these steps but those of `record_state` and `finish_task`, each once and in order. |
| `MicroIndex.BuildMicroIndex` | `trajectory.py:337-366` | The loops of `micro_index` equal its specification: the actions of each step in one line, clipped to 280 characters, the tool name as recorded. |
| `MicroIndex.MergeDiscoveries` | `bot.py:3120-3146` | The merging loop gives the first ten different entries that may be listed. |
| `MicroIndex.MergedHolds` | `bot.py:3120-3146` | The merged list holds entries that may be listed, each once, at most ten. |
| `MicroIndex.MergedKeeps` | `bot.py:3120-3146` | An entry that may be listed is in it unless ten others come first. |
| `MicroIndex.MergedInOrder` | `bot.py:3120-3146` | The entries stand in the order in which they were first given. |
| `MicroIndex.IndexHolds` | `trajectory.py:337-366` | The index has exactly one line for each step of the range that has records, in order, with all its actions as long as they fit. |
| `MicroIndex.ActionSays` | `trajectory.py:344-358` | An action prints its tool as recorded, then its arguments, then its result. |
| `MicroIndex.PreviewSays` | `trajectory.py:311-334` | A short text is previewed whole, with whitespace collapsed; of a longer one its beginning and its end. |
| `MicroIndex.IndexIsPlain` | `trajectory.py:337-366` | If every recorded tool name is one line, every line of the index is a line of its own and no header, whatever arguments and results are. |
| `SummaryCoverage.PrintedMark` | `bot.py:3151-3294` | The watermark read back from a printed summary is the one printed, or 0 if a Tier 2 or discovery line is a header out of order. |
| `SummaryCoverage.CompactionIsHonest` | `bot.py:3297-3325` | A summary is honest if nothing its lines start with reads as a summary with another watermark. Compaction to any size keeps honesty and watermark. |
| `SummaryCoverage.ResumeIsHonest` | `bot.py:3344-3352` | So does the shortening for a resumed run. |
| `SummaryCoverage.FlushIsHonest` | `bot.py:3886-3931` | A flush makes an honest summary of the same watermark of any summary. |
| `WatermarkRuns.RolloverKeepsIff` | `bot.py:4289-4409` | A rollover reads the watermark from the summary text and prints the new one into the next. It keeps the sources a partition of the log up to the readable watermark, and lets that not fall, if and only if the new watermark is 0 or no printed Tier 2 or discovery line is a header out of order, or there was no watermark before and no eligible record to hand over. Otherwise the watermark read back is 0. |
| `WatermarkRuns.RolloverReaches` | `bot.py:4289-4302` | It covers every reliable step thirty back and in front of the gap as far as its bound allows, and none behind. |
| `RolloverAnswers.RolloverTells` | `bot.py:4289-4409` | With single-line names and discoveries a rollover prints the new procedure, the watermark reached, one line for each of the last thirty steps but the last ten, and the discoveries; step and gap of the run stay. |
| `WatermarkRuns.FoundKeeps` | `bot.py:3120-3146` | A rollover lists an earlier discovery that may still be listed again, unless the list is full. |
| `WatermarkRuns.FoundHolds` | `bot.py:3120-3146` | It lists nothing but these and the general entries, and nothing twice. |
| `WatermarkRuns.RebuiltKeepsIff` | `bot.py:3496-3541` | A rebuilt record appends a source from the first step on to those the summary was made of. It keeps the sources a partition of the log, and does not let the watermark fall, if and only if its summary was up to date, or reads back and no eligible record lies at or below both the old watermark and the new source's end, or there was no watermark and no record to hand over. |
| `WatermarkRuns.RebuiltReaches` | `bot.py:3496-3541` | A rebuilt summary covers every trusted step below the gap as far as its bound allows. |
| `RolloverAnswers.NeedlessStays` | `bot.py:3499-3507` | A summary that reaches the last trusted step and holds a procedure or an index stays as it is. |
| `RolloverAnswers.RebuiltTells` | `bot.py:3496-3541` | Any other is printed anew: the procedure, one line for each of the last twenty trusted steps, and the discoveries found. |
| `RolloverAnswers.RestartTells` | `bot.py:3546-3716` | A restarted loop has the summary of the rebuilt record, or of the record as it was if that could not be saved or read back, shortened where the run is resumed so. |
| `RolloverAnswers.SaveTells` | `bot.py:7000-7041` | A save makes the durable record from the running loop, with the next step behind a finished one and the gap not above the step where a batch is reserved. |
| `RolloverAnswers.OtherStepsTell` | `bot.py:7305-7362` | A failing append lowers the gap to its step; no other step but a restart moves it, and the summary changes only by rollover, flush and compaction. |
| `WatermarkRuns.RestartKeepsIff` | `bot.py:3546-3716` | A run restarted from its durable record has handed over every record up to its watermark, which is the durable one or a later one; exactly once if and only if no saved rebuilding repeats an eligible record. |
| `WatermarkRuns.NextKeepsIff` | `bot.py:4271-4409` | Each append, rollover, flush, compaction, save and restart whose printed summary reads back leaves every record up to the watermark handed over, for the running loop and for its durable record, and exactly once if and only if it is no restart that repeats a record; none but a restart lets the watermark fall. |
| `WatermarkRuns.RunCompletes` | `bot.py:4402-4409` | Over every sequence of such events, with any restarts, every step up to the watermark stands in a source, and each source is what the log renders for its steps; without a restart the watermark never falls. |
| `WatermarkRuns.EveryRecordIsHandedOver` | `bot.py:4402-4409` | From the empty start, with any restarts, each eligible record up to the watermark stands in a source. |
| `WatermarkRuns.SourcesPartitionTheLog` | `bot.py:4402-4409` | If in addition no restart repeats a record, the sources behind the current summary hold every eligible record up to its watermark exactly once, in order. |
| `WatermarkRuns.RunFromBegin` | `bot.py:4402-4409` | So it is for every run from its empty start. |
| `WatermarkLoss.SingleLinesKeepWatermark` | `trajectory.py:344-366` | In every run whose recorded tool names and listed discoveries are single lines, every printed summary reads back and every record up to the watermark is handed over; exactly once if no restart repeats one. |
| `WatermarkLoss.RestartHandsOverAgain` | `bot.py:3501-3524` | The exception is real, and common: a plain rollover, a save and a restart, all names single lines, hand the record of step 1 over a second time, because the watermark trails the log. |
| `WatermarkLoss.WatermarkIsLost` | `trajectory.py:355-365` | The exception is real: with a tool name that holds a section header, a run reaches watermark 1, reads back none, and hands the records of step 1 over a second time. |
| `Admission.Judge` | `bot.py:6763-6985` | The checks of one call, in the order the loop makes them, equal `Answered`. |
| `Admission.SelectCalls` | `bot.py:6758-6998` | The batch loop gives the executed calls and an answer per call. |
| `AdmissionAnswers.ExecutedIff` | `bot.py:6763-6985` | A call is executed if and only if its id and arguments are in order, no known call before it is the same or (unless forced) has its fingerprint, it is not projected to be a third failure in a row, it is (unless forced) outside the loop window, no repeated observation, not known to be bad and no fourth artifact read in a chain, it owes no record and no thought, and the budget has room. |
| `AdmissionAnswers.FirstReasonIsGiven` | `bot.py:6763-6985` | The answer to a call is the first reason, in the order of the checks, that holds of it; none before it does. |
| `AdmissionAnswers.SameFailureIff` | `bot.py:6779-6800` | Two guarded calls are the same failure if and only if tool and fingerprint are the same, two others if tool and arguments are. |
| `Admission.ThroughSound` | `bot.py:6779-6998` | In every batch: executed calls differ, unless a same-fingerprint call is forced; an unforced guarded call is not among the recent fingerprints; no executed call was projected to be one failure too many; the budget holds. |
| `Admission.TakeResults` | `bot.py:7104-7149` | Taking over the results gives the streak of the whole history. |
| `AdmissionAnswers.BatchIsRecorded` | `bot.py:7043-7149` | A process counts every executed call of a batch and records it with its result, in order; an aborted execution ends it. |
| `Admission.ProjectionCovers` | `bot.py:6758-6998` | The in-batch projection over-approximates the real failure streak after every executed call, and the real streak stays within the limit. |
| `Admission.NeverThreeInARow` | `bot.py:7043` | Over a process lifetime, for any batches, results and force flags: executions never exceed the budget, and no three executions in a row with the same failure signature all fail. |
| `Dispatch.AnnounceIds` | `bot.py:6638-6668` | The identity loop announces exactly the ids that are non-empty, first in the response and new to the run, in order, and refuses the others. |
| `DispatchAnswers.FreshIff` | `bot.py:6638-6668` | An id is announced if and only if it is not empty, stands in the response, and is new to the run. |
| `DispatchAnswers.RefusedIff` | `bot.py:6638-6668` | A call is refused if and only if its id is empty, stands earlier in the response, or was announced before. |
| `DispatchAnswers.AnnounceSays` | `bot.py:6665-6677` | Announcing adds the new ids in memory and in the record, and hands them to the gate; if that save fails the loop stops with the record it had. |
| `DispatchAnswers.MarkedIff` | `bot.py:7104-7149` | A fingerprint stands at this step if and only if an action with it succeeded, and elsewhere as before. |
| `DispatchAnswers.GateForgetsIff` | `bot.py:6741-6747` | The gate forgets a fingerprint if and only if it is ahead of the step or more than eight steps behind it. |
| `DispatchAnswers.ReservationSays` | `bot.py:7000-7041` | A saved reservation is memory's record with every guarded action of the batch at this step and the gap at the step or below; memory stays as it was. |
| `DispatchAnswers.SaveSays` | `bot.py:7356-7362` | A save in the run, behind an announcement or behind a group writes memory as it is then. |
| `DispatchAnswers.GapAndCursorMove` | `bot.py:7305-7362` | The gap in memory moves only when an append fails, and then to the step or stays below it; a step ends with its group, one by one. |
| `DispatchAnswers.PhasesFollow` | `bot.py:6638-7362` | The batch goes unchanged from the gate through reservation, execution and log; a failing save and a crash end the loop. |
| `DispatchAnswers.ResumesAt` | `bot.py:3644-3716` | A resumed loop goes on at the durable gap if that is not behind the durable step, and otherwise at the least step from the durable one on that is greater than every trusted record's step below the gap; at the durable step if the rebuilt record cannot be saved or read back. |
| `DispatchAnswers.ResumesWith` | `bot.py:3644-3716` | It holds the ids, fingerprints and gap of the record. |
| `DispatchSafety.StartKeeps` | `bot.py:5736-5741` | Starting a run that has no record, whatever its log holds, keeps the protocol's invariant. |
| `DispatchSafety.AnnounceKeeps` | `bot.py:6665-6677` | Announcing, with a save that succeeds or fails, keeps it. |
| `DispatchSafety.GateKeeps` | `bot.py:6741-6747` | Filtering the fingerprints at a tool step keeps it. |
| `DispatchSafety.ReserveKeeps` | `bot.py:7000-7041` | Reserving fingerprints and gap before dispatch keeps it, whether the reservation is saved (also when only the order of the fingerprints changes), fails to save, or changes nothing. |
| `DispatchSafety.DispatchKeeps` | `bot.py:7043-7090` | Executing the calls keeps it: the durable gap is already at or below the step. |
| `DispatchSafety.AppendKeeps` | `bot.py:7305-7330` | Appending the group keeps it, for every failure of the write; a failure lowers the gap to the step. |
| `DispatchSafety.GroupSaveKeeps` | `bot.py:7356-7362` | Saving behind the group keeps it, or stops the loop with the reservation still on disk. |
| `DispatchSafety.ResumeKeeps` | `bot.py:3644-3716` | Resuming from the record keeps it, whether or not the rebuilt record can be saved and read back. |
| `DispatchSafety.NextKeeps` | `bot.py:6638-7362` | Every step of the protocol keeps the invariant. |
| `DispatchTheorems.NoSilentLoss` | `run_state.py:240-306` | Over every run with crashes and resumes, each dispatched step has the records of all its calls in the trusted log or the durable gap is at or below it; the gap is above the durable watermark, which is below every step with a missing record. |
| `DispatchTheorems.MemoryClaimsNothingLost` | `bot.py:4289-4302` | The same for the watermark in memory. |
| `DispatchTheorems.NoIdTwice` | `bot.py:6638-6677` | No call id is executed twice in the life of a run, across any crashes and resumes. |
| `DispatchTheorems.RecordAlwaysLoads` | `run_state.py:309-388` | Any record the protocol saved passes the loader's checks on ids, cursor, gap and fingerprints (64 hex digits, positive steps), holds every executed id, and resumes above its watermark. |
| `DispatchTheorems.GuardHolds` | `bot.py:6816-6850` | Over every run, a guarded action that succeeded or was never settled at step s is executed again without force only behind step s + 8, or with a trajectory gap at or below s + 8; in front of s only with a gap at or below s. |
| `DispatchTheorems.WindowIsForgotten` | `bot.py:3651-3655` | The exception is real for every step s and every gap from 1 to s + 8: a reachable run with that gap executes the action again without force at a step from s to s + 8. |
| `Ledger.ResearchLedger.RegisterEvidence` | `ledger.py:273-305` | The whole new ledger after registering or correcting an item; `retracted` is three-valued. |
| `LedgerAnswers.RegisterSays` | `ledger.py:273-305` | Registering is refused if and only if there is no id; else the item has the new texts where they are not empty and the old ones elsewhere, is retracted as told or as before, every other item stays, and the revision moves if and only if something changed. |
| `LedgerAnswers.CorrectionRetracts` | `ledger.py:748-770` | An item that corrects another one retracts that one, noting why and keeping its texts, and is registered itself. |
| `LedgerAnswers.ContradictionChangesNothing` | `ledger.py:710-747` | An item that contradicts itself changes nothing. |
| `Ledger.ResearchLedger.DeclareHypothesis` | `ledger.py:307-347` | The whole new ledger after a declaration, refused or not; a refused one may have reworded the statement. |
| `Ledger.ResearchLedger.ReopenHypothesis` | `ledger.py:349-352` | The whole new ledger after a reopen. |
| `Ledger.ResearchLedger.Transit` | `ledger.py:377-409` | The whole new ledger after a transition, and exactly when it is refused. |
| `LedgerAnswers.TransitionsCiteStanding` | `ledger.py:432-438` | Over any sequence of updates: when a transition was made that cites an item, that item was registered and not retracted. |
| `LedgerAnswers.BatchCitesStanding` | `ledger.py:677-870` | So it is in every batch. |
| `LedgerAnswers.RetractedIsRefused` | `ledger.py:391-409` | A declaration that would change a status, or a reopen, is refused on a retracted item and leaves every history as it was. |
| `LedgerAnswers.DeclareRefusedIff` | `ledger.py:307-347` | A declaration is refused if and only if it lacks id or status, cites what does not stand, would bring a rejected hypothesis back, or would move one without evidence to another state than active. |
| `LedgerAnswers.FirstDeclarationSays` | `ledger.py:315-336` | A first declaration adds the hypothesis with its one transition and changes no other. |
| `LedgerAnswers.LaterDeclarationSays` | `ledger.py:337-347` | A later one rewords the statement, where it brings one, and adds one transition, where it brings another status. |
| `LedgerAnswers.ReopenSays` | `ledger.py:349-409` | A reopen is refused if and only if there is no such hypothesis, or no standing evidence that none of its transitions cites; else it makes the hypothesis active on that evidence. |
| `Ledger.ResearchLedger.RecordConclusion` | `ledger.py:354-375` | The whole new ledger after recording a conclusion with its premises pinned. |
| `LedgerAnswers.ConclusionSays` | `ledger.py:354-375` | A conclusion is recorded with its premises at the revisions they have; every other one stays. |
| `LedgerAnswers.GoalSays` | `ledger.py:267-271` | The goal changes if and only if another one is given that is not empty. |
| `Ledger.ResearchLedger.ApplyUpdates` | `ledger.py:677-870` | A batch changes the ledger as its items do one after the other. |
| `LedgerAnswers.BatchDoesAll` | `ledger.py:677-870` | A batch does all its items one after the other: its goal, its evidence, its hypotheses, its conclusions, each list in order. |
| `Ledger.ResearchLedger.Restore` | `ledger.py:500-541` | Rebuilding from a payload equals `FromDict`. |
| `LedgerAnswers.LoadRejectsIff` | `ledger.py:500-541` | A payload is rejected if and only if its revision is negative; goal and revision are taken over. |
| `LedgerAnswers.KeyedLast` | `ledger.py:505-541` | Of several stored values of one id the last counts. |
| `LedgerRules.ApplyKeeps` | `ledger.py:267-438` | Every single update keeps the ledger sound and only extends histories. |
| `LedgerTheorems.BatchOps` | `ledger.py:677-870` | Every batch does what some sequence of single updates does, each of which one of its items asks for. |
| `LedgerTheorems.HistoriesHold` | `ledger.py:307-409` | In every reachable ledger a hypothesis has as many transitions as its revision, numbered from 1, the status of the last one, and cites only registered evidence. |
| `LedgerTheorems.RevivalCitesAnewIff` | `ledger.py:391-409` | An adjacent step from rejected back to active cites evidence, and cites it for the first time if and only if the first transition's id is trimmed or names another item. |
| `LedgerTheorems.PaddedIdIsCitedTwice` | `ledger.py:329-335` | The exception is real: a hypothesis first rejected on an id with a leading space is reopened on the same item. |
| `LedgerTheorems.RefusalKeepsHistories` | `ledger.py:341-346` | A refused declaration changes at most the statement of its hypothesis. |
| `LedgerTheorems.ValidIffPremisesStand` | `ledger.py:449-463` | A conclusion is valid now if and only if, when last recorded, every premise existed and was not rejected, and no premise has made a transition since. |
| `LedgerTheorems.InvalidStays` | `ledger.py:449-463` | Once invalid, a conclusion stays invalid until it is recorded again. |
| `LedgerTheorems.InvalidStaysOverBatches` | `ledger.py:677-870` | So it does over any batches that do not record it. |
| `LedgerTheorems.RetractedStays` | `ledger.py:281-305` | A retracted item stays retracted until an explicit `retracted=false`. |
| `LedgerTheorems.RetractedStaysOverBatches` | `ledger.py:677-870` | So it does over any batches none of whose items says so. |
| `LedgerTheorems.UnchangedRevision` | `ledger.py:677-870` | A batch never lowers the revision, and one that leaves it unchanged leaves the whole ledger unchanged. |
| `LedgerTheorems.SavedLedgerLoads` | `ledger.py:484-541` | Loading what was saved gives the same ledger, for every reachable one: entries, their order, and with them every derived validity. |
| `RunCatalog.Runs.SelectPreparedRun` | `run_workspace.py:348-361` | The loop over selections and the displacement equal `SelectPrepared`, also when the displaced run cannot be written. |
| `RunCatalog.Runs.Reserve` | `run_workspace.py:402-427` | The whole new catalog after reserving, and when it is refused. |
| `RunCatalog.Runs.Cancel` | `run_workspace.py:429-433` | The whole new catalog after cancelling with a token. |
| `CatalogAnswers.ReserveGivesIff` | `run_workspace.py:402-427` | A reservation is given if and only if nothing of the owner or the channel is reserved or active. |
| `CatalogAnswers.ReservationStaysIff` | `run_workspace.py:429-445` | A reservation goes if and only if it is cancelled or used under its own token; no operation changes its token. |
| `RunCatalog.Runs.PrepareReservedRun` | `run_workspace.py:435-445` | The whole new catalog after preparing under a reservation, which is given back in any case. |
| `RunCatalog.Runs.PrepareRun` | `run_workspace.py:477-482` | The whole new catalog after preparing. |
| `CatalogAnswers.PrepareGivesIff` | `run_workspace.py:477-482` | Where its metadata can be written, a new run is prepared and selected if and only if nothing of the owner or the channel is reserved or active; the run prepared there before is interrupted. |
| `CatalogAnswers.PrepareReservedGivesIff` | `run_workspace.py:435-445` | So it is under its own token, which is used up; under any other token nothing happens. |
| `RunCatalog.Runs.AcquireRun` | `run_workspace.py:447-475` | The whole new catalog after acquiring: the selected prepared run, the resumable one, or a new one. |
| `CatalogAnswers.AcquireGives` | `run_workspace.py:447-475` | Without a reservation of the owner or channel, an acquire gives the prepared run that the place's selection names; else the run to be resumed, if it is stopped, exhausted, failed or interrupted and of that owner and channel; else a new one. It becomes active, and every other run is as it was. |
| `CatalogAnswers.AcquireRefusedIff` | `run_workspace.py:447-475` | It is refused if and only if the owner or the channel is reserved, and then changes nothing. |
| `RunCatalog.Runs.ResumeRun` | `run_workspace.py:484-495` | The whole new catalog after resuming. |
| `CatalogAnswers.ResumeGivesIff` | `run_workspace.py:484-495` | Where its metadata can be written, a run is prepared again, in the given channel, if and only if it is the owner's and not active. |
| `RunCatalog.Runs.FinishRun` | `run_workspace.py:497-506` | The whole new catalog after finishing. |
| `CatalogAnswers.FinishEnds` | `run_workspace.py:497-506` | A run ends in one of the five final states, and only its status changes; any other state is refused. |
| `RunCatalog.Runs.DeleteRun` | `run_workspace.py:508-561` | The whole new catalog after deleting, or the old one when the directory cannot be moved. |
| `CatalogAnswers.DeleteRemovesIff` | `run_workspace.py:508-561` | A run is deleted if and only if it is the owner's, is not active and its directory can be moved; with it go the selections that name it, and nothing else. |
| `CatalogAnswers.RunsStay` | `run_workspace.py:402-561` | Nothing but a deletion makes a run disappear, and nothing changes its owner. |
| `RunCatalog.Runs.Scan` | `run_workspace.py:233-281` | The whole catalog found at startup. |
| `CatalogAnswers.ScannedHolds` | `run_workspace.py:233-281` | A scan finds exactly the runs with metadata: an active one is interrupted, a prepared one may have been interrupted in favour of a selected one, any other is as it was left. |
| `CatalogAnswers.LastIsSelected` | `run_workspace.py:270-281` | Of the prepared runs of one place the last in the order is selected. |
| `CatalogRules.OnePrepared` | `run_workspace.py:348-361` | In a sound catalog an owner has at most one prepared run in a channel. |
| `CatalogRules.PerformKeepsIff` | `run_workspace.py:402-561` | Each operation keeps the rules (prepared runs are the selected ones of their owner and channel; selections name existing runs of that owner and channel that are not active; reservations share neither owner nor channel and no run of theirs is active) if and only if it does not strand a run between a failed write and its selection. |
| `CatalogRules.ReachedIsSound` | `run_workspace.py:402-561` | Every catalog reached without a stranded run keeps all the rules. |
| `CatalogRules.FailedResumeStrands` | `run_workspace.py:484-495` | The exception is real: a reached catalog and a resume whose failing write leaves a run prepared and unselected. |
| `CatalogRules.PerformKeepsReservations` | `run_workspace.py:402-561` | Every operation, whichever of its writes fails, keeps the reservations apart and no run of a reserved owner or channel active. |
| `CatalogRules.ReservedStaysIdle` | `run_workspace.py:402-561` | Over every sequence of operations, failed writes included: every selection names an existing run of its owner; two reservations share neither owner nor channel, and while one is held no run of its owner or channel is active. |
| `CatalogRules.ResumePreparesUnderReservation` | `run_workspace.py:484-495` | Idle is all they are: a resume, which checks no reservation, prepares a run of a reserved owner. |
| `CatalogRules.ScannedIsSound` | `run_workspace.py:233-281` | Whatever metadata is found at startup, the catalog keeps the rules. |
| `Playbook.SortLines` | `bot.py:1577-1600` | The loop over the lines gives the sections and the existing rules. |
| `Playbook.MergePlaybookRule` | `bot.py:1577-1606` | The merge equals `Merge`. |
| `PlaybookRules.MergedRules` | `bot.py:1577-1606` | The merged text holds exactly the old rules and the new one. |
| `PlaybookRules.MergedSections` | `bot.py:1577-1606` | A new rule is the last line of the section it was given for; every other line stays in its section, in order. |
| `PlaybookRules.MergedReadsInOrder` | `bot.py:1577-1606` | The merged text holds, in this order and nothing else, what stands in front of all sections, the environment rules, the dead ends and the strategies, each under its heading. |
| `PlaybookRules.KeySays` | `bot.py:1570-1574` | The key of a rule is its text with whitespace collapsed, without one list marker in front; a heading has none. |
| `PlaybookRules.MergeAgain` | `bot.py:1577-1606` | Merging a rule the merged text already holds, in whatever section, changes nothing, not even the layout. |
| `PlaybookSharing.PlaybookFile.WriteBytes` | `workspace_io.py:219-246` | The file is replaced if and only if it has the expected revision. |
| `PlaybookSharing.PlaybookFile.TryRecord` | `bot.py:1631-1654` | One try: a success overwrites exactly the text it merged from, a conflict means another writer came between. |
| `PlaybookSharing.PlaybookFile.RecordPlaybook` | `bot.py:1609-1655` | Two tries: the file after a success, after a refusal, and after two conflicts. |
| `PlaybookSharing.NoRuleLost` | `bot.py:1625-1655` | Under any interleaving of recorders with one retry each, as long as no write compares two different files of one revision, no rule of the file and no successfully recorded rule is lost. |
| `PlaybookSharing.TwoTriesAtMost` | `bot.py:1625-1655` | Over every run a recorder writes at most twice: it answers a conflict only after two writes, a success after one or two, and an empty rule exactly if the rule has no key. |
| `PlaybookSharing.FileStaysShort` | `bot.py:1631-1655` | Over every run of recorders a file within 4000 characters stays within them. |
| `PlaybookSharing.FullIff` | `bot.py:1631-1655` | A recorder answers that the playbook is full if and only if its rule would not fit. |
| `PlaybookSharing.RecordedIff` | `bot.py:1570-1580` | A success records something if and only if the rule's key does not start with `#`, because the key is taken twice. |
| `PlaybookSharing.HeadingIsNotRecorded` | `bot.py:1570-1580` | The exception is real: the rule `- # x` is answered with success and is not recorded. |

## Left out

- Discord handlers, commands, status cards, prompts and reports: user interface.
- HTTP, streaming, the tokenizer and the model's answers: arbitrary values here.
- Deadlines, steering, authorization, configuration, the tool sandbox and worker: small counters or operating system behaviour.
- Observation, grounding and stagnation heuristics, duplicate evidence and the delta of a batch (`ledger.py:59-168`): similarity measures that decide reports and gates, not ledger contents. `substantive` is not claimed to imply a change.
- `split_markdown_chunks`: its length bound does not hold exactly when an opening fence is added to a chunk.
- JSON, SHA-256, files and locks: records are values, hash and revision are parameters, assumed to tell apart only the records and files a lemma names, a file is its contents.
- Reading the log as bytes: the log is written with `ensure_ascii=False` and read with `splitlines()`, so U+0085, U+2028 or U+2029 inside a record would split its line (`trajectory.py:34-40`, `trajectory.py:91-92`). Here the file is a sequence of record lines, and a torn line is a line of its own.
- Bounding of arguments and results in a record (`trajectory.py:43-81`): the fields hold the bounded texts.
- Messages that are not dictionaries, results or calls on roles that cannot carry them, and the difference between an empty list and an empty string as content.
- Messages are values: that `prepare_agent_request_payload` replaces the system message in the caller's list is not captured.
- The printed form of an argument object is taken to be its JSON form, also in a stored tail.
- TieredSummary.ParseTieredSummary: digits other than ASCII in a coverage line are refused here; Python's `int` accepts them.
- The order of a conclusion's premises: they are a map.
- Stored premises of a conclusion are read back as they were written; repairing foreign ledger payloads is not modelled beyond the negative revision.
- Timestamps and generated run ids: new ids are given and new, and the startup order of prepared runs is any order.
- Inheriting canonical files into a new run, retention sweeps and listing runs: they do not change what the catalog's rules speak of, except through the purge that is modelled.
- Other writers of the playbook: a `write_file` may replace its text, and with it its rules, on purpose; `PlaybookSharing.NoRuleLost` speaks of recorders only.
- `fork_run`, `handover_run` and rewinding as steps of the dispatch protocol: they start another run or reset the record deliberately.
- How arguments and results print in a line of the index, the model's compacted procedure, and which files behind a listed path exist (`trajectory.py:314-330`, `bot.py:3100-3130`): parameters of a rollover. Extracting paths and URLs from texts is left out; the entries found are given.
- A source handed over to make a summary that a crash loses before it is saved: the claims count the sources that went into the summary a run goes on with.
- Watermark across runs: a channel's next run starts from the old summary (`bot.py:6055`); the claims here are about one run from its empty start, over its crashes and resumes.
- Fingerprints are a map from fingerprint to step: the list in the code holds each at most once. That a reservation may change only their order is a choice of the step `Reserve`.
- `record_state`, known-bad calls, thinking debt and stale records: answers of other policies to a call, given as flags to `Admission.Judge`.
- `lookup`: a reader of the trusted records without state of its own.
