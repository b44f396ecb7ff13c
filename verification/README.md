# Verification of Garyx's stateful cores

This project models eight components of Garyx that are state machines, concurrent protocols or
refinements of one representation by another, and proves what they are for. `dafny verify
dfyconfig.toml` checks all of it.

| file | component |
|---|---|
| `TranscriptDecoder.dfy` | the Antigravity transcript decoder: re-reading a growing log, pairing tool results with tool calls through two redundant indexes |
| `SessionPaths.dfy`, `ProjectKey.dfy` | session keys, the files they name, the keys of mirrored files, and the project-key hash |
| `SessionDisk.dfy`, `Reconcile.dfy` | the Claude session store on disk: append, delete, load, and last-writer-wins over several roots |
| `Materialize.dfy`, `ResumeOutcome.dfy`, `ResumeWitness.dfy` | copying a session into a profile before a resume, as a machine that may stop between any two of its steps; with the profile as the only legacy root, and with any others beside it; runs that succeed and runs that lose |
| `MirrorWorker.dfy`, `MirrorOrder.dfy`, `FlushBarrier.dfy` | the transcript mirror batcher, the order of a session key in it, and the reader's flush-before-result barrier in front of it, as one interleaved system |
| `StreamAccumulator.dfy` | the self-healing accumulator of the Claude CLI's line-delimited JSON |
| `InputGate.dfy`, `AckQueue.dfy` | when a Claude run may close its standard input, and the queue of unacknowledged inputs |
| `DeferredFanout.dfy` | the fan-out that buffers events until its callbacks are attached |
| `TurnUsage.dfy` | per-turn token usage out of Codex's cumulative counters |
| `GrokMapper.dfy` | the Grok mapper that derives an event stream and a message ledger from one stream of updates |
| `RpcCorrelation.dfy` | request correlation of the Codex JSON-RPC transport |
| `Common.dfy`, `Text.dfy` | sequences, runs of machines, and strings as the Rust standard library cuts them |

Two styles are used throughout. Code that runs alone is a function on values plus, where the
source updates fields or local variables, a class or a method with a loop that is proved to
compute that function. Code that runs concurrently is a step function: a list of steps is one
interleaving of all tasks, every block under one lock (or between two awaits) is one step, and
results are stated for every list of steps. The step functions are total: a step that is not
enabled changes nothing.

The JSON parser of the accumulator, the replies of a session store behind the batcher, the times
files are dated, and the widths of printed values are parameters. Entries, JSON values, snapshots
and events are datatypes.

Places where the code does less than its surroundings suggest, each stated as a lemma:

- A full transcript row that arrives after its step was shown is never shown (`LateFullRow`;
  exactly when it does harm: `TailingFilesEqualsOneShot`).
- Mirror order is kept per file, not per session key: `a` and `a.jsonl` are one subagent
  (`SameMirrorKey`, `KeyOrderCanBreak`; exactly when it is kept: `DrainKeepsKeyOrder`,
  `FilesKeepKeyOrder` and, for whole runs, `KeyOrderIsKept`).
- A second reconciliation can promote again, exactly when a subagent copy with metadata lines
  carries a date later than the first call (`SecondReconcile`, `SecondCallCanPromote`).
- With a third root, removing the profile's newer but equal copy can let an older copy win, and so
  can a third copy dated after the resume's own writes (`ThirdRootCanWin`, `ResumeCanLose`,
  `ResumeLosesTheNewest`; exactly when not, for one load: `KeptWithThirdRoots`, and for a whole
  resume: `ResumeWithAnyRoots`, `NothingIsLostWithAnyRoots`).
- With two attachers the fan-out splits the stream between their sets, out of order, and with two
  producers it may deliver the later event first (`TwoAttachersSplitTheStream`,
  `TwoProducersReorder`; exactly when order holds: `OrderNeedsOneOfEach`).
- An abort that has unregistered a run but not yet closed it lets the gate close standard input on
  an accepted input that was never acknowledged (`AbortLosesTheAck`; exactly when none is lost:
  `GateClosesSafely`).
- A request that passes the fatal check and inserts after the drain is not ended by the fatal
  error (`LateInsertOutlivesTheFatal`, `LateInsertEndsAlone`).

## Model

| member | source | states |
|---|---|---|
| TranscriptDecoder.RereadDecodesTheNewRows | antigravity-sdk/src/transcript.rs:324-339 | Reading an extension of the rows read before emits only the events of the rows that are new. |
| TranscriptDecoder.TailingEqualsOneShot | antigravity-sdk/src/transcript.rs:315-488 | However a growing log is cut into polls, for any baseline, all polls together emit the events, and leave the decoder, of decoding the last read alone. |
| TranscriptDecoder.OverlayKeepsSteps | antigravity-sdk/src/transcript.rs:165-190 | The overlay of full rows on compact rows never adds, drops, reorders or renumbers a step. |
| TranscriptDecoder.SaysMoreMeans | antigravity-sdk/src/transcript.rs:105-151 | A full row says more exactly when the compact one is truncated, or has a field that the full row has and that is marked as truncated, missing, or shorter in bytes. |
| TranscriptDecoder.OverlayPicks | antigravity-sdk/src/transcript.rs:165-190 | At each place the full row of the step is shown exactly when it says more and no earlier compact row had that step. |
| TranscriptDecoder.TailingDecodesFirstSight | antigravity-sdk/src/transcript.rs:165-190 | However the files are cut into polls, and whatever becomes of the full file, all polls together emit the events, and leave the decoder, of decoding each row as it was first seen. |
| TranscriptDecoder.FirstSightPicks | antigravity-sdk/src/transcript.rs:165-190 | A row at first sight is the row the overlay shows in the first poll whose compact file reaches it. |
| TranscriptDecoder.TailingFilesEqualsOneShot | antigravity-sdk/src/transcript.rs:165-190 | With a growing compact file and any full file, tailing the two files decodes the rows of the last read exactly when every row past the baseline that is the first of its step was picked at first sight as it is in the last read; all other late full rows do no harm. |
| TranscriptDecoder.LateFullRow | antigravity-sdk/src/transcript.rs:324-339 | A pick that comes too late: tailing keeps the compact text of a step whose full row came after it was shown, whatever the two texts are; decoding the last read alone shows the full one. |
| TranscriptDecoder.EachStepOnce | antigravity-sdk/src/transcript.rs:324-339 | The rows decoded are exactly the first ones of the steps past the baseline. |
| TranscriptDecoder.DecodedDecides | antigravity-sdk/src/transcript.rs:324-339 | Decoding a read comes to decoding only the rows that are the first of a step past the baseline not yet processed. |
| TranscriptDecoder.DecodesMeans | antigravity-sdk/src/transcript.rs:324-339 | The rows that count as decoded are those the decoder does not skip when it comes to them. |
| TranscriptDecoder.ResultAnswersItsName | antigravity-sdk/src/transcript.rs:452-467 | After any rows a result answers the oldest outstanding use of its canonical name, else of that name without `_result`, else the oldest of all, as the event log has them. |
| TranscriptDecoder.CanonicalNamesTheTool | antigravity-sdk/src/transcript.rs:221-240 | Two names have one canonical name exactly when they have the same words, the stretches of ASCII letters and digits in lower case, or both are `list dir` or `list directory`. |
| TranscriptDecoder.SpellingIsFree | antigravity-sdk/src/transcript.rs:221-240 | Neither case nor the choice of separators changes the words of a name. |
| TranscriptDecoder.ResultAnswersItsTool | antigravity-sdk/src/transcript.rs:452-467 | A result answers the oldest outstanding use of the tool it is named after, and if there is none and its last word is `result`, the oldest use of the tool the other words name; it carries the row's type and text. |
| TranscriptDecoder.UpperCaseNamesTheTool | antigravity-sdk/src/transcript.rs:225-228 | A row type that is a tool's name in upper case names that tool. |
| TranscriptDecoder.ListingNamesTheTool | antigravity-sdk/src/transcript.rs:236-239 | The listing of a directory is one tool under both of its names, in upper case too. |
| TranscriptDecoder.PlannerRowSays | antigravity-sdk/src/transcript.rs:355-400 | A planner row shows one use per call, numbered from zero and with its name and input, and then its text if it has any to show. |
| TranscriptDecoder.ErrorRowSays | antigravity-sdk/src/transcript.rs:420-450 | An error row reports its error, else its content, else a standing text, and is the result of the oldest outstanding call. |
| TranscriptDecoder.OtherRowSays | antigravity-sdk/src/transcript.rs:338-353 | Any other row is one tool result with its type and text, unless it is one of four kinds that are not shown or has no content; those change nothing but the steps processed. |
| TranscriptDecoder.ReasoningIsGathered | antigravity-sdk/src/transcript.rs:360-400 | Over any rows the decoder holds exactly the reasoning that no text has carried yet, in order. |
| TranscriptDecoder.TextCarriesTheReasoning | antigravity-sdk/src/transcript.rs:360-400 | A planner text carries all reasoning since the last one, its own included, and none is carried twice. |
| TranscriptDecoder.EveryRunIsWellPaired | antigravity-sdk/src/transcript.rs:355-488 | Over any run the event log is well paired, the decoder remembers exactly the uses without an answer, in order, and it reports visible output and the last error as the log has them; a result carries no id only when nothing is outstanding. |
| TranscriptDecoder.WellPairedMeans | antigravity-sdk/src/transcript.rs:402-450 | In a well-paired log every answered id names an earlier use, no id is used twice, and none is answered twice. |
| TranscriptDecoder.QueuesPartitionAnonymous | antigravity-sdk/src/transcript.rs:452-488 | The per-name queues partition the duplicate-free anonymous FIFO, each of them a subsequence of it. |
| TranscriptDecoder.AgreeAfterPush | antigravity-sdk/src/transcript.rs:355-400 | Entering a call in both indexes keeps them in agreement. |
| TranscriptDecoder.AgreeAfterPop | antigravity-sdk/src/transcript.rs:469-478 | Cutting an answered call out of its queue and out of the FIFO keeps them in agreement. |
| TranscriptDecoder.HeadPops | antigravity-sdk/src/transcript.rs:452-467 | The head of a name's queue is the oldest outstanding call of that name, and popping it takes that call out of both indexes. |
| TranscriptDecoder.QueueHolding | antigravity-sdk/src/transcript.rs:469-478 | The search over all queues, in any order, finds one that holds the id. |
| TranscriptDecoder.Decoder.PopAnyToolId | antigravity-sdk/src/transcript.rs:469-478 | Answers with the oldest outstanding call and removes it from both indexes. |
| TranscriptDecoder.Decoder.PopToolIdForName | antigravity-sdk/src/transcript.rs:452-467 | Answers with the oldest call under the canonical name, then under the name without its `_result` suffix, then with the oldest of all. |
| TranscriptDecoder.Decoder.RemoveAnonymousPending | antigravity-sdk/src/transcript.rs:480-488 | Takes an id out of the FIFO. |
| TranscriptDecoder.Decoder.EmitToolUses | antigravity-sdk/src/transcript.rs:355-400 | The loop over a planner row's calls emits one use per call, numbered from zero. |
| TranscriptDecoder.Decoder.ApplyPlannerResponse | antigravity-sdk/src/transcript.rs:355-400 | The two-index decoder treats a planner row as the one-list decoder does. |
| TranscriptDecoder.Decoder.ApplyToolResult | antigravity-sdk/src/transcript.rs:402-418 | The same for a tool result row. |
| TranscriptDecoder.Decoder.ApplyErrorMessage | antigravity-sdk/src/transcript.rs:420-450 | The same for an error row, which also answers the oldest outstanding call. |
| TranscriptDecoder.Decoder.ApplyRows | antigravity-sdk/src/transcript.rs:324-353 | One read by the two-index decoder emits and leaves what the one-list decoder does, and keeps the indexes in agreement. |
| SessionPaths.NormalizedIsSafe | claude-agent-sdk/src/session_store.rs:216-238 | An accepted subpath is a non-empty list of names that can not leave the session directory. |
| SessionPaths.NormalizedJoin | claude-agent-sdk/src/session_store.rs:216-238 | Joined names normalize to themselves exactly when each is a safe name. |
| SessionPaths.KeysShareFilesByName | claude-agent-sdk/src/session_store.rs:299-325 | Two keys share a transcript or a sidecar exactly when they have the same names; a transcript is never a sidecar. |
| SessionPaths.MirroredFileHasKey | claude-agent-sdk/src/session_store.rs:1102-1136 | A mirrored file has a key exactly when it lies below the root, under plain names, and is the `.jsonl` file of a session or at least two levels below the directory of one. |
| SessionPaths.MirrorUndoesPathForKey | claude-agent-sdk/src/session_store.rs:1102-1136 | A main key comes back from the file it names, a subagent key with two or more components comes back with its subpath in normal form, and one with a single component is not recognized. |
| SessionPaths.PathForMirroredKey | claude-agent-sdk/src/session_store.rs:1102-1136 | A mirrored file is the file of its key, up to one suffix, exactly when its directories are valid segments and its names are safe. |
| SessionPaths.SameMirrorKey | claude-agent-sdk/src/session_store.rs:1127-1136 | Two mirrored files belong to one key exactly when they differ at most in one `.jsonl` at the end. |
| ProjectKey.MapUnits | claude-agent-sdk/src/session_store.rs:159-168 | Every UTF-16 unit becomes itself when alphanumeric and a dash otherwise. |
| ProjectKey.HashUnits | claude-agent-sdk/src/session_store.rs:175-178 | The wrapping loop computes the base-31 polynomial of the units modulo 2^32 as a signed value. |
| ProjectKey.WrapStep | claude-agent-sdk/src/session_store.rs:177 | Wrapping after the multiplication and after the addition is wrapping once. |
| ProjectKey.Base36 | claude-agent-sdk/src/session_store.rs:183-201 | The numeral parses back to the value and has no leading zero. |
| ProjectKey.NumeralsAreUnique | claude-agent-sdk/src/session_store.rs:183-201 | A value has one such numeral. |
| ProjectKey.SixDigits | claude-agent-sdk/src/session_store.rs:179-180 | The magnitude of a 32-bit value takes at most six digits. |
| ProjectKey.SessionProjectKey | claude-agent-sdk/src/session_store.rs:154-181 | The key is the mapped text up to 200 units, otherwise its first 200 characters, a dash and the hash magnitude in base 36. |
| ProjectKey.ProjectKeyIsASegment | claude-agent-sdk/src/session_store.rs:203-214 | The key uses only alphanumerics and dashes, has at most 207 characters, and is a valid path segment for every text but the empty one. |
| ProjectKey.LettersStay | claude-agent-sdk/src/session_store.rs:159-168 | Of a text of one-unit characters the first 200 ASCII letters and digits stand in the key as they are, upper case included, and every other character as a dash. |
| ProjectKey.ProjectKeyIsUnique | claude-agent-sdk/src/session_store.rs:154-181 | A text has exactly one project key. |
| SessionDisk.SplitEntries | claude-agent-sdk/src/session_store.rs:695-708 | The loop splits a batch into the entries that are no metadata, in order, and the last metadata entry. |
| SessionDisk.TypeRoundTrip | claude-agent-sdk/src/session_store.rs:386-392 | The tag taken off for the sidecar is put back on by reading. |
| SessionDisk.ArrangedTwice | claude-agent-sdk/src/session_store.rs:473-508 | Moving the metadata to the end is idempotent and keeps what the transcript and the sidecar get. |
| SessionDisk.ParseJsonLines | claude-agent-sdk/src/session_store.rs:358-371 | Written lines parse back to the entries. |
| SessionDisk.ParseLinesMeans | claude-agent-sdk/src/session_store.rs:358-371 | Reading any lines fails at the first that is neither blank nor JSON, counted from one, and otherwise yields the values in order. |
| SessionDisk.ReadCellMeans | claude-agent-sdk/src/session_store.rs:351-406 | Any two files of a key read as an error for the first bad line, else for a sidecar that is no object, and otherwise as the values of the transcript and then the tagged metadata. |
| SessionDisk.ReadHeld | claude-agent-sdk/src/session_store.rs:351-406 | The files of a key read back as its entries, the metadata last, and as nothing when there are none. |
| SessionDisk.AppendHolds | claude-agent-sdk/src/session_store.rs:686-732 | Appending extends what the files hold by the batch; an older sidecar survives a batch without metadata. |
| SessionDisk.CellAfterPut | claude-agent-sdk/src/session_store.rs:299-325 | Writing the files of a key in one root changes no other key and no other root. |
| SessionDisk.CellAfterRemoveDir | claude-agent-sdk/src/session_store.rs:775-784 | Removing a session directory removes the files of its subagents and of no other key. |
| SessionDisk.HistoryHolds | claude-agent-sdk/src/session_store.rs:686-784 | Any appends and deletes keep, key by key, exactly what was appended since the last delete that covers it. |
| SessionDisk.DiskRefinesHistory | claude-agent-sdk/src/session_store.rs:351-406 | Reading a key yields everything appended to it since it was last deleted: in order for a main key, metadata last and latest for a subagent; deleting a main key clears its subagents and other keys do not interfere. |
| SessionDisk.OtherRootsUntouched | claude-agent-sdk/src/session_store.rs:686-784 | Nothing a store does on its root touches a file of another root. |
| Reconcile.WinsIsAnOrder | claude-agent-sdk/src/session_store.rs:458-463 | Any two different candidates are ordered by date, canonical copy and root, never in a circle. |
| Reconcile.BestIsTheMaximum | claude-agent-sdk/src/session_store.rs:533-542 | The fold returns exactly the candidate that wins over all others. |
| Reconcile.BestIgnoresOrder | claude-agent-sdk/src/session_store.rs:533-542 | The result of the fold does not depend on the order of the candidates. |
| Reconcile.WinnerIgnoresRootOrder | claude-agent-sdk/src/session_store.rs:523-542 | The winner does not depend on the order of the legacy roots. |
| Reconcile.WinnerIsACopy | claude-agent-sdk/src/session_store.rs:408-456 | The winner is the canonical copy or a copy found in a legacy root. |
| Reconcile.NewestWins | claude-agent-sdk/src/session_store.rs:408-463 | No file of the key in any root is newer than the winner's date, which is that of one of its own files; canonical wins a tie, then the least path. |
| Reconcile.ReconcileIsLastWriterWins | claude-agent-sdk/src/session_store.rs:518-560 | Reconciling fails only when the winner can not be read and then changes nothing; otherwise canonical holds what was written last, and a promotion is reported exactly when it held something else. |
| Reconcile.ReconcileFrame | claude-agent-sdk/src/session_store.rs:465-513 | Reconciling writes at most the two canonical files of its key. |
| Reconcile.LegacyUntouched | claude-agent-sdk/src/session_store.rs:518-560 | No file of a legacy root is ever changed. |
| Reconcile.WinnerAfterPut | claude-agent-sdk/src/session_store.rs:458-463 | After a promotion the old winner still wins exactly when its date is later than the promotion. |
| Reconcile.SecondReconcile | claude-agent-sdk/src/session_store.rs:515-560 | A second call promotes again exactly when, before the first, the winner reads as entries that canonical does not hold, these are not in the arrangement they are read back in, and the winner's date is later than the first call; even then canonical reads the same. |
| Reconcile.SecondCallCanPromote | claude-agent-sdk/src/session_store.rs:515-560 | Such a subagent copy exists: one with a metadata line before another entry, dated after the first call; both calls promote it. |
| Reconcile.SecondReconcileOfMain | claude-agent-sdk/src/session_store.rs:515-560 | For a main transcript a second call changes nothing and reports no promotion. |
| Reconcile.LoadIsLastWritten | claude-agent-sdk/src/session_store.rs:734-737 | Loading returns what was written last, or the error of a winner that can not be read. |
| Reconcile.LoadReturnsHistory | claude-agent-sdk/src/session_store.rs:734-737 | A store without legacy roots loads everything appended since the last delete. |
| Reconcile.BadKeysAreRefused | claude-agent-sdk/src/session_store.rs:201-238 | A key whose names can not be files is refused by append, delete, reconcile and load alike, and nothing changes. |
| Reconcile.LocalDirectorySessionStore.constructor | claude-agent-sdk/src/session_store.rs:273-293 | Legacy roots are kept once each and never include the canonical root. |
| Reconcile.LocalDirectorySessionStore.Append | claude-agent-sdk/src/session_store.rs:686-732 | Writing the transcript and then the sidecar in place is the append on the disk; an empty batch changes nothing, even for a bad key. |
| Reconcile.LocalDirectorySessionStore.Delete | claude-agent-sdk/src/session_store.rs:775-784 | Removing the files in place is the delete on the disk. |
| Reconcile.LocalDirectorySessionStore.CollectCandidates | claude-agent-sdk/src/session_store.rs:523-531 | The loop over the roots collects the canonical copy and then the legacy copies. |
| Reconcile.LocalDirectorySessionStore.ReplaceCanonicalEntries | claude-agent-sdk/src/session_store.rs:465-513 | Rewrites the transcript, and writes or removes the sidecar, of one key. |
| Reconcile.LocalDirectorySessionStore.ReconcileKey | claude-agent-sdk/src/session_store.rs:518-560 | The object reconciles as the function on the disk does, error cases included. |
| Reconcile.LocalDirectorySessionStore.Load | claude-agent-sdk/src/session_store.rs:734-737 | Reconciles and then reads canonical. |
| Materialize.SessionIdsAreFiveGroups | claude-agent-sdk/src/session_store.rs:929-941 | A session identifier is 8, 4, 4, 4 and 12 hexadecimal digits between dashes, exactly. |
| Materialize.ListedMeans | claude-agent-sdk/src/session_store.rs:806-842 | A file is listed exactly when it carries one of the two suffixes after a subpath. |
| Materialize.FilesAreListed | claude-agent-sdk/src/session_store.rs:806-842 | Both files of a subagent are listed under its normal subpath. |
| Materialize.UnlistedIsAbsent | claude-agent-sdk/src/session_store.rs:806-842 | A subagent the listing does not mention has no files in the store. |
| Materialize.ResumeFinishes | claude-agent-sdk/src/session_store.rs:976-1080 | A resume that is not interrupted comes to an end. |
| Materialize.LastWithoutTarget | claude-agent-sdk/src/session_store.rs:1024 | Once the profile's session directory is gone, the other roots decide what was written last. |
| Materialize.KeptWithThirdRoots | claude-agent-sdk/src/session_store.rs:1024-1053 | With further legacy roots, the later load returns what canonical held exactly when that was written last among the other roots. |
| Materialize.ThirdRootCanWin | claude-agent-sdk/src/session_store.rs:551-556 | In one load, a profile copy that equals canonical but is newer hides a third root's copy until it is removed; then that copy wins. |
| ResumeOutcome.ReconcileEarly | claude-agent-sdk/src/session_store.rs:786-799 | Until the profile is written, reconciling a key leaves canonical as it was or with what the resume is expected to leave, however often it happens, when every file of a legacy root besides the profile is dated no later than a date before the resume's writes, or after all of them. |
| ResumeOutcome.SettledMeans | claude-agent-sdk/src/session_store.rs:786-799 | Once a key is reconciled canonical holds what was written last, and the roots other than the profile agree on what the resume will leave. |
| ResumeOutcome.LastWhileWriting | claude-agent-sdk/src/session_store.rs:1037-1053 | A load while the profile is being written finds either the profile's complete copy or the best of the other roots, which agree. |
| ResumeOutcome.StepIsSound | claude-agent-sdk/src/session_store.rs:976-1080 | Every step of a resume keeps every key of the session on its way to what is expected, with any legacy roots, when every file of a legacy root besides the profile is dated no later than a date before the resume's writes, or after all of them. |
| ResumeOutcome.NothingIsLost | claude-agent-sdk/src/session_store.rs:976-1080 | Wherever a resume into the sole legacy root stops, what was written last for any key of the session is still in canonical or in the profile. |
| ResumeOutcome.ResumeCopiesLastWritten | claude-agent-sdk/src/session_store.rs:976-1080 | A resume into the sole legacy root that succeeds leaves the profile and canonical with the same entries, those written last when it began, for the session and every subagent. |
| ResumeOutcome.ResumeWithAnyRoots | claude-agent-sdk/src/session_store.rs:976-1080 | With any legacy roots a successful resume leaves the profile with exactly canonical's entries. They are those written last if and only if the key is the main transcript; or it was promoted and the best copy of the roots besides the profile, if dated after the resume's writes, reads the same; or it was not promoted and these roots agree that it was written last. The files of these roots are dated before the resume's writes or after all of them. |
| ResumeOutcome.NothingIsLostWithAnyRoots | claude-agent-sdk/src/session_store.rs:976-1080 | Wherever such a resume stops, with the same condition on dates, what was written last for a key that leaves it so is still in canonical or a legacy root. |
| ResumeWitness.ReadableResumeSucceeds | claude-agent-sdk/src/session_store.rs:976-1080 | A resume that is not interrupted, of a session that was written, whose files can all be read and whose listed subpaths are valid, succeeds, be the store the profile itself or not. |
| ResumeWitness.NothingToResume | claude-agent-sdk/src/session_store.rs:984-1003 | With an identifier that is none, or when no root holds anything of the session, the resume says so; when what was written last can not be read it fails with that error; the disk stays as it was. |
| ResumeWitness.ResumeInPlace | claude-agent-sdk/src/session_store.rs:1011-1016 | Into a store that is the profile itself a resume removes no directory and writes to no root but canonical, whatever happens. |
| ResumeWitness.ResumeCanLose | claude-agent-sdk/src/session_store.rs:976-1080 | A resume can succeed and leave something else than what was written last: with a third root's older copy, when the profile's newest copy equals canonical's, or when the third copy is dated after the resume's writes. |
| ResumeWitness.ResumeLosesTheNewest | claude-agent-sdk/src/session_store.rs:551-556 | A concrete session, subagent and three roots on which a resume at any date does so. |
| MirrorWorker.GroupingKeepsEntries | claude-agent-sdk/src/session_store.rs:1315-1325 | Grouping makes one group of each file and keeps its entries in order. |
| MirrorWorker.AttemptsAreBounded | claude-agent-sdk/src/session_store.rs:1350-1370 | At most three append calls: all but the last were refused, and the last succeeded, timed out, or was the third refusal. |
| MirrorWorker.EntriesAreConserved | claude-agent-sdk/src/session_store.rs:1285-1348 | Over any commands, what was handed over for a file in all drains, followed by what is pending, is what was enqueued for it, in order. |
| MirrorWorker.FlushHandsOverEverything | claude-agent-sdk/src/session_store.rs:1298-1304 | After a flush, or the end of the channel, everything enqueued for a file has been handed over and nothing is pending. |
| MirrorWorker.CountsAreSums | claude-agent-sdk/src/session_store.rs:1288-1297 | Between commands the counters are the sums over the pending frames and within both limits. |
| MirrorWorker.EagerLeavesNothing | claude-agent-sdk/src/session_store.rs:1183-1203 | Under the eager policy nothing is pending between commands, whatever the widths of printed entries, because even a frame without entries weighs an empty array. |
| MirrorWorker.JsonWidthAdds | claude-agent-sdk/src/session_store.rs:1249-1251 | A frame weighs two brackets, its printed entries, and a comma between each two. |
| MirrorWorker.OutcomesAreSound | claude-agent-sdk/src/session_store.rs:1327-1348 | Every group ends in success within three attempts, in exactly one failure report, or in the drop of a file without a key; no append call belongs to two groups. |
| MirrorOrder.DrainKeepsKeyOrder | claude-agent-sdk/src/session_store.rs:1315-1325 | One drain keeps the order of a key for all entries of the given lengths exactly when no batch of it comes after one of another of its files that appeared later. |
| MirrorOrder.FilesKeepKeyOrder | claude-agent-sdk/src/session_store.rs:1315-1325 | It keeps it for all lengths as well exactly when no two batches of one file of the key have one of another file of it in between. |
| MirrorOrder.RunKeepsWhatDrainsKeep | claude-agent-sdk/src/session_store.rs:1285-1348 | A run that ends in a flush keeps the order of a key exactly when each of its drains does; flushes and the two limits decide where drains fall. |
| MirrorOrder.GroupOrder | claude-agent-sdk/src/session_store.rs:1315-1325 | The groups of a drain stand in the order in which their files first appear. |
| MirrorOrder.KeyOrderIsKept | claude-agent-sdk/src/session_store.rs:1285-1348 | For any commands ending in a flush: all runs over commands of the same shape keep the order of a session key, whatever the entries are, if and only if in each drain of the run no batch of the key comes after one of another of its files that appeared later. |
| MirrorOrder.KeyOrderCanBreak | claude-agent-sdk/src/session_store.rs:1285-1348 | A run of three frames and a flush, of two files of one key, hands over the third entry before the second. |
| MirrorWorker.TranscriptMirrorWorker.GroupFrames | claude-agent-sdk/src/session_store.rs:1315-1325 | The loop with the index map computes the groups in order of first appearance. |
| MirrorWorker.TranscriptMirrorWorker.SendWithRetry | claude-agent-sdk/src/session_store.rs:1350-1370 | The bounded retry loop makes exactly the calls, and returns the result, of the retry policy. |
| MirrorWorker.TranscriptMirrorWorker.HandOver | claude-agent-sdk/src/session_store.rs:1327-1347 | One group is dropped or sent, and a failure reported once. |
| MirrorWorker.TranscriptMirrorWorker.Drain | claude-agent-sdk/src/session_store.rs:1307-1348 | Takes all pending frames, resets the counters and hands the groups over in order. |
| MirrorWorker.TranscriptMirrorWorker.Enqueue | claude-agent-sdk/src/session_store.rs:1288-1297 | Takes a frame in and drains as soon as a limit is passed. |
| FlushBarrier.EveryRunKeeps | claude-agent-sdk/src/client.rs:589-767 | In every interleaving the worker, taken apart at its visible points, is on the way to where its commands lead one after the other; no frame read is lost; and at most one flush is under way. |
| FlushBarrier.CommandRefines | claude-agent-sdk/src/session_store.rs:1285-1305 | Handling a command in visible steps comes to handling it at once. |
| FlushBarrier.ResultComesAfterItsFrames | claude-agent-sdk/src/client.rs:720-738 | Whenever the consumer is handed a result, the groups handed over hold, file by file, exactly the entries read before it, in order; each group was appended, dropped as outside the root, or failed; and the consumer has the errors of exactly those that failed. |
| FlushBarrier.EndComesAfterItsFrames | claude-agent-sdk/src/client.rs:740-766 | The same holds when the reader leaves at the end of the stream or at a read error. |
| FlushBarrier.EverythingReadIsTold | claude-agent-sdk/src/client.rs:589-767 | Until the reader is stopped the consumer is told exactly what was read, in order: every ordinary message, every result, and one error for a read error, at most the last of them still behind the barrier; a clean end adds nothing. |
| FlushBarrier.EveryFrameIsRead | claude-agent-sdk/src/client.rs:629-647 | Every mirror frame that comes in while the reader reads is sent to the worker, in order. |
| FlushBarrier.EveryBarrierOpens | claude-agent-sdk/src/client.rs:720-766 | In every interleaving a reader at its barrier can get past it: the worker can finish and answer the flush, and the reader pass on all failures and then what it holds back. |
| FlushBarrier.WaitingFailureIsTold | claude-agent-sdk/src/client.rs:604-622 | While it reads, the reader can pass on the oldest failure that waits. |
| FlushBarrier.NothingAfterStop | claude-agent-sdk/src/client.rs:589-592 | After a stop nothing more is read or told. |
| FlushBarrier.NothingIsInvented | claude-agent-sdk/src/client.rs:95-120 | At any time the consumer has received the first failures, each once and in order, and no entries were handed over that were not read for their file, in order. |
| FlushBarrier.ForwardReadyMirrorFailures | claude-agent-sdk/src/client.rs:95-120 | The forwarding loop empties the channel and sends every failure, the oldest first. |
| StreamAccumulator.AcceptKeepsSound | claude-agent-sdk/src/transport.rs:46-110 | The buffer is empty or an opened object that fits the limit and does not parse. |
| StreamAccumulator.ObjectLineHeals | claude-agent-sdk/src/transport.rs:75-92 | A line that is a complete object empties the buffer, whatever it held. |
| StreamAccumulator.NoiseNeverEnters | claude-agent-sdk/src/transport.rs:57-69 | A line that can not start an object never opens an accumulation. |
| StreamAccumulator.ObjectsArePrefixFree | claude-agent-sdk/src/transport.rs:71-74 | No object text is a proper prefix of another (sections 4 and 7 of RFC 8259). |
| StreamAccumulator.PendingKeepsLines | claude-agent-sdk/src/transport.rs:75-92 | As long as every line is held back the buffer is exactly the lines read. |
| StreamAccumulator.SplitDocumentIsRebuilt | claude-agent-sdk/src/transport.rs:71-92 | A document split into lines is rebuilt exactly if and only if it is one line, or it fits the limit and no line between the first and the last is a complete object. |
| StreamAccumulator.PrintedDocumentIsRebuilt | claude-agent-sdk/src/transport.rs:46-92 | The same for lines with any white space around them. |
| StreamAccumulator.NextMessageIsTheFirst | claude-agent-sdk/src/transport.rs:284-325 | A read returns the first outcome among the lines that is a message, a message after a dropped prefix, or an overflow, with the buffer as that line leaves it and the lines after it still to read; it returns the end of the stream exactly when no line has one. |
| StreamAccumulator.ReadsDeliverAll | claude-agent-sdk/src/transport.rs:284-325 | One read after the other delivers every message and every overflow of the stream, each once and in order. |
| StreamAccumulator.TransportReader.FinishAccumulated | claude-agent-sdk/src/transport.rs:98-110 | Clears an overlong or complete buffer and keeps an incomplete one. |
| StreamAccumulator.TransportReader.AcceptStreamLine | claude-agent-sdk/src/transport.rs:46-96 | Appending in place and taking the prefix back out is the accumulator's step on values, and keeps the buffer sound. |
| StreamAccumulator.TransportReader.ReadMessage | claude-agent-sdk/src/transport.rs:284-325 | The loop leaves the buffer and the lines, and returns the message, the overflow or the end of the stream, that NextMessageIsTheFirst describes; what is left in the buffer at the end never yields a message. |
| InputGate.ObserveReflects | garyx-bridge/src/claude_provider.rs:148-203 | The loop's variables always say what the whole message history says. |
| InputGate.TakeKeeps | garyx-bridge/src/claude_provider.rs:2272-2295 | Every step of every task keeps the books of inputs and the gate's control state. |
| InputGate.GateClosesSafely | garyx-bridge/src/claude_provider.rs:2272-2295 | In every interleaving the gate closes standard input at most once, and only when a result is the latest turn-relevant message, no task is tracked, the last stop-hook snapshot reports none and nobody is in the middle of a write. Then every accepted input, and every one still on its way, is acknowledged if and only if every one rolled back or waiting when an abort unregistered the run was refused; without such an abort it always is. |
| InputGate.DrainEndsDecides | garyx-bridge/src/claude_provider.rs:2272-2295 | At the end of the post-result window nothing happens unless the history lets the input end; if it does, the queue goes and the closing starts exactly when every input is acknowledged, rolled back or dropped, and otherwise the gate waits for another result. |
| InputGate.GateCloses | garyx-bridge/src/claude_provider.rs:2272-2295 | Wherever a run stands, when the history lets the input end, every input is settled, no close has begun and nobody holds the lock, the end of the window and the stages of `end_input` close standard input, for the first time. |
| InputGate.PlainTurnCloses | garyx-bridge/src/claude_provider.rs:2272-2283 | A turn ends, nothing is queued: standard input is closed. |
| InputGate.TaskHoldsTheInput | garyx-bridge/src/claude_provider.rs:132-194 | A background task holds the input until an update gives it a terminal status; an update without a status does not let go. |
| InputGate.EchoAcknowledges | garyx-bridge/src/claude_provider.rs:1803-1812 | In every interleaving a user echo acknowledges the input that waits longest; only before any assistant message an echo takes the root marker instead. |
| InputGate.AddedWaitsLast | garyx-bridge/src/claude_provider.rs:1786-1794 | An input added to a registered run waits behind all others. |
| InputGate.RefusedIsTakenBack | garyx-bridge/src/claude_provider.rs:1796-1801 | Once the run is closed, an input not sent yet is refused and leaves the queue if it still waits there. |
| InputGate.FailedIsTakenBack | garyx-bridge/src/claude_provider.rs:1796-1801 | The same for an input whose send failed. |
| InputGate.MessagesAreHeard | garyx-bridge/src/claude_provider.rs:2257-2300 | Every message that comes in while the loop reads is heard, in order. |
| InputGate.LoopIsOver | garyx-bridge/src/claude_provider.rs:2257-2300 | Once the loop has ended, whatever comes, nothing is heard and the gate closes nothing. |
| InputGate.NoWriteIsCutOff | claude-agent-sdk/src/run_streaming.rs:68-92 | A sender that holds the lock and has passed its checks finds the pipe open, whatever the gate and a concurrent close do in between. |
| InputGate.EndStepKeeps | claude-agent-sdk/src/run_streaming.rs:191-203 | Each stage of ending the input keeps the order of flags, lock and pipe. |
| InputGate.EndAloneIs | claude-agent-sdk/src/run_streaming.rs:191-203 | All stages of `end_input` together: a closed run refuses, an ended input stays ended, otherwise the pipe is shut, unless it fails to close and the flag is taken back. |
| InputGate.CloseAloneShuts | claude-agent-sdk/src/run_streaming.rs:169-189 | All stages of a close together shut the pipe and set both flags; a second close changes nothing. |
| InputGate.NoEnqueueAfterRemoval | garyx-bridge/src/claude_provider.rs:1816-1838 | Once the queue is removed no enqueue for the run succeeds. |
| InputGate.AfterTheGate | claude-agent-sdk/src/run_streaming.rs:169-203 | Once the loop has ended its input, by closing the pipe or because a concurrent close does, the gate closes nothing again and nothing more is written, accepted or queued. |
| InputGate.AbortLosesTheAck | garyx-bridge/src/claude_provider.rs:3157-3192 | A run in which an accepted input waits when an abort unregisters it, is not refused, and is never acknowledged although the gate closes. |
| InputGate.PendingInputs.Enqueue | garyx-bridge/src/claude_provider.rs:1786-1794 | Succeeds exactly for a registered run, appends to its queue and leaves other runs alone. |
| InputGate.PendingInputs.Rollback | garyx-bridge/src/claude_provider.rs:1796-1801 | Takes an input back out of its run's queue and leaves other runs alone. |
| InputGate.PendingInputs.AcknowledgeNext | garyx-bridge/src/claude_provider.rs:1803-1812 | Acknowledges the next input of its run and leaves other runs alone. |
| InputGate.PendingInputs.TryClose | garyx-bridge/src/claude_provider.rs:1823-1838 | Closes exactly when the run has no queue or only root markers in it; then the queue is gone, and otherwise nothing changes. It is the machine's one step of check and removal. |
| InputGate.PendingInputs.Clear | garyx-bridge/src/claude_provider.rs:3157-3192 | Unregisters a run as the machine's step does and leaves other runs alone. |
| InputGate.RunControl.SendUserMessage | claude-agent-sdk/src/run_streaming.rs:68-92 | All stages of the machine's send in place, when nobody else is inside: the outcome and the control are those of the three stages run one after the other. |
| InputGate.SendAloneIs | claude-agent-sdk/src/run_streaming.rs:68-92 | The three stages together write exactly when the handle is open, its input not ended and the pipe is open and takes it; an input written is accepted, any other is to be rolled back, and nothing else changes. |
| InputGate.RunControl.EndInput | claude-agent-sdk/src/run_streaming.rs:191-203 | All stages of ending the input in place; a pipe that fails to close takes the flag back. |
| InputGate.RunControl.Close | claude-agent-sdk/src/run_streaming.rs:169-189 | All stages of a close in place; a second one does nothing. |
| InputGate.MessageLoop.UpdateBackgroundTasks | garyx-bridge/src/claude_provider.rs:148-203 | Updates the tracked tasks in place as the messages about them say. |
| InputGate.MessageLoop.ReportsBackgroundWork | garyx-bridge/src/claude_provider.rs:205-232 | A snapshot holds the input exactly when some listed task is not in a terminal status. |
| InputGate.MessageLoop.Observe | garyx-bridge/src/claude_provider.rs:2257-2300 | Taking a message into account keeps the variables in step with the history. |
| InputGate.MessageLoop.WaitsToEndInput | garyx-bridge/src/claude_provider.rs:2272-2275 | The gate's question is answered from the history: latest turn-relevant message, tracked tasks, last snapshot. |
| AckQueue.InputsAreConserved | garyx-bridge/src/provider_common.rs:137-197 | From a fresh queue, in either mode, the queue is at most one root marker and the waiting ids; every input is waiting, acknowledged or rolled back and only one of these; acknowledged ids come in enqueue order and never past a waiting one. |
| AckQueue.EchoTakesTheOldest | garyx-bridge/src/provider_common.rs:169-186 | An echo acknowledges the oldest waiting input, or nothing only when none waits or the root marker is in front in the in-order mode. |
| AckQueue.LedgerListsInputs | garyx-bridge/src/provider_common.rs:137-197 | The ledger lists every input put in, once and in order, for any mix of operations. |
| AckQueue.CallsAreOps | garyx-bridge/src/codex_provider.rs:1851-1960 | A run's queue on its thread lives on by itself, however calls on other threads, and echoes and rollbacks of other runs on its own, are interleaved, and however often an empty queue is taken out. |
| AckQueue.CodexInputsAreConserved | garyx-bridge/src/codex_provider.rs:1851-1960 | Among such calls a Codex run acknowledges exactly the inputs it enqueued and did not roll back, in order, each at most once. |
| AckQueue.PendingAckQueue.AcknowledgeNext | garyx-bridge/src/provider_common.rs:169-186 | Pops the next marker in place, a root marker first unless queued inputs are preferred. |
| AckQueue.PendingAckQueue.Rollback | garyx-bridge/src/provider_common.rs:161-167 | Removes the first marker of the id in place. |
| AckQueue.PendingAckQueue.HasQueuedInput | garyx-bridge/src/provider_common.rs:188-192 | True exactly when some marker is a queued input. |
| AckQueue.SessionAcks.EnqueueStreamingInputAck | garyx-bridge/src/codex_provider.rs:1851-1873 | Refuses a blank id; otherwise appends to the run's queue, replacing that of another run. |
| AckQueue.SessionAcks.RollbackStreamingInputAck | garyx-bridge/src/codex_provider.rs:1875-1892 | Takes an id back out of the queue its run owns. |
| AckQueue.SessionAcks.AcknowledgeNext | garyx-bridge/src/codex_provider.rs:1924-1947 | Acknowledges the next marker of the run's queue and takes an empty queue out of the map. |
| DeferredFanout.EachEventGoesToOneSet | garyx-channels/src/bound_fanout.rs:133-198 | With any producers and attachers no callback sees an event twice and no two sets share one; when callbacks are installed and nobody holds an event, each event has gone to every callback of one set. |
| DeferredFanout.EveryEventCanBeDelivered | garyx-channels/src/bound_fanout.rs:133-257 | No event is stuck: wherever a run stands, when one attacher works to its end and the others go on with what they hold, every event produced has gone to every callback of exactly one set. |
| DeferredFanout.CallbacksStay | garyx-channels/src/bound_fanout.rs:173-190 | Callbacks once installed are never replaced. |
| DeferredFanout.DeliveryInOrder | garyx-channels/src/bound_fanout.rs:114-198 | With one producer and one attacher, delivered, owed, buffered and held events together are what was produced, in order, at every step; once attach has returned every callback has seen all. |
| DeferredFanout.OrderNeedsOneOfEach | garyx-channels/src/bound_fanout.rs:133-198 | Given some producers and attachers, all runs of them deliver in order to every callback exactly when there is one of each. |
| DeferredFanout.TwoAttachersSplitTheStream | garyx-channels/src/bound_fanout.rs:133-198 | With any two attachers a later event can reach one set before an earlier one reaches only the other. |
| DeferredFanout.TwoProducersReorder | garyx-channels/src/bound_fanout.rs:236-257 | With any two producers the later event can be delivered first. |
| DeferredFanout.TakeKeeps | garyx-channels/src/bound_fanout.rs:236-257 | Every step keeps each event in exactly one place. |
| DeferredFanout.DeferredState.DispatchOrBuffer | garyx-channels/src/bound_fanout.rs:236-252 | The producer's critical section hands back the installed callbacks or buffers the event. |
| DeferredFanout.DeferredState.AttachTurn | garyx-channels/src/bound_fanout.rs:173-190 | The attacher's critical section takes the buffer, or installs the callbacks when it is empty and none are installed. |
| TurnUsage.CodexTurnUsageTracker.Observe | garyx-bridge/src/codex_provider.rs:579-602 | A notification is consumed exactly when it carries usage for this thread. |
| TurnUsage.WatchSummarizes | garyx-bridge/src/codex_provider.rs:579-602 | After any notifications the tracker holds the turn's first and last own snapshot and the maximum of the replayed totals. |
| TurnUsage.TurnAccount | garyx-bridge/src/codex_provider.rs:609-666 | What one turn adds to the stored totals is its usage plus the gap of a replay ahead of them. |
| TurnUsage.UsageNeverDoubleCounts | garyx-bridge/src/codex_provider.rs:2286-2296 | Over any turns from a stored baseline the growth of the stored totals is the reported usage plus the gaps, so usage never exceeds it and equals it exactly when the gaps are zero, even for totals that go back. |
| TurnUsage.GapsAreReplaysAhead | garyx-bridge/src/codex_provider.rs:609-656 | The gaps are zero exactly when no turn saw a replay ahead of the stored totals. |
| TurnUsage.EveryThreadCountsFromItsStart | garyx-bridge/src/codex_provider.rs:609-656 | From a thread's first turn on, what is stored is the offset that turn starts from, plus everything reported, plus the gaps; a fresh thread starts from zero and is reported whole. |
| TurnUsage.StartIsWhatPrecedesTheFirstRequest | garyx-bridge/src/codex_provider.rs:609-656 | When a first turn's totals do not go back, a thread resumed in it that replays nothing starts from its first snapshot's total less that snapshot's own request; every other thread starts from zero. The turn then reports what came since, and never more than the growth since a replay. |
| TurnUsage.SilentTurnsCountNothing | garyx-bridge/src/codex_provider.rs:609-666 | Turns that saw no usage of the thread report and store nothing, and make no difference to the turns after them. |
| TurnUsage.OtherThreadsHaveNoEffect | garyx-bridge/src/codex_provider.rs:583-588 | Other threads' notifications have no effect, however they are interleaved. |
| TurnUsage.CodexUsageTotals.Settle | garyx-bridge/src/codex_provider.rs:2286-2296 | Reads the stored baseline, reports the turn's usage and remembers the maximum, for its thread only. |
| GrokMapper.OneStreamTwoRecords | garyx-bridge/src/grok_provider.rs:518-587 | The ledger is the event stream with adjacent deltas merged; the response is the concatenated deltas and the concatenated assistant texts, no two of which are adjacent; each tool has at most one use and one result, the use first. |
| GrokMapper.EveryChunkIsADelta | garyx-bridge/src/grok_provider.rs:518-542 | Every text of a message chunk that is not empty becomes one delta, in order, and there are no others. |
| GrokMapper.OrderedMeans | garyx-bridge/src/grok_provider.rs:544-587 | In such a stream no id has two uses or two results, and no result comes before its use. |
| GrokMapper.UseCarriesTheInput | garyx-bridge/src/grok_provider.rs:607-657 | A use is emitted by an update about its tool, carries the last input given so far, and has none only when the tool ends without one. |
| GrokMapper.TitleIsTheLastGiven | garyx-bridge/src/grok_provider.rs:607-628 | A tool's title is the last one given, trimmed, or none when that is blank. |
| GrokMapper.NameIsTheLastGiven | garyx-bridge/src/grok_provider.rs:607-628 | A tool goes by the last name given, in its metadata or else as its kind; an empty name stands for the title at that moment, or `Grok tool`. |
| GrokMapper.NameNeverGiven | garyx-bridge/src/grok_provider.rs:607-628 | A tool that is never named goes by the title of the first update about it, or `Grok tool`. |
| GrokMapper.RowsCarryNameAndTitle | garyx-bridge/src/grok_provider.rs:630-657 | Both rows of a tool carry the name it goes by when they are emitted, and its use the title. |
| GrokMapper.EveryToolIsReported | garyx-bridge/src/grok_provider.rs:544-587 | A tool has a use exactly when some update gave it an input or ended it, and a result exactly when some update ended it. |
| GrokMapper.ResultSaysHowItEnded | garyx-bridge/src/grok_provider.rs:544-587 | A result goes out with the first update that ends its tool, and is an error exactly when that one does not say `completed`. |
| GrokMapper.LedgerSaysTheEvents | garyx-bridge/src/grok_provider.rs:659-675 | The ledger of any event stream spells its deltas, has its tool rows, and no two adjacent assistant segments. |
| GrokMapper.CleanIsTidy | garyx-bridge/src/grok_provider.rs:392-412 | Cleaning a tool result leaves nothing to remove, at any depth. |
| GrokMapper.TidyIsFixed | garyx-bridge/src/grok_provider.rs:392-412 | Cleaning leaves exactly the tidy values as they are, so cleaning twice is cleaning once. |
| GrokMapper.CleanKeepsTheRest | garyx-bridge/src/grok_provider.rs:392-412 | Of an object exactly the fields that are not to be removed survive, each once, under its key and with its value cleaned. |
| GrokMapper.GrokEventMapper.AppendAssistantMessage | garyx-bridge/src/grok_provider.rs:659-675 | Extends the last assistant segment in place or starts a new one. |
| GrokMapper.GrokEventMapper.ApplyUpdate | garyx-bridge/src/grok_provider.rs:518-587 | The object's updates of its response, ledger and tools are the mapper's step on values. |
| RpcCorrelation.EveryRunKeeps | codex-sdk/src/transport.rs:436-504 | In every interleaving each request's id, sender and mailbox agree with where the request is. |
| RpcCorrelation.IdsAreFresh | codex-sdk/src/transport.rs:453 | No two requests ever get the same id. |
| RpcCorrelation.FlagsSayTheRun | codex-sdk/src/transport.rs:269-281 | The transport is closed once a shutdown has begun, the fatal error is the first one reported, and without a shutdown it is ready once it became so. |
| RpcCorrelation.RequestBegins | codex-sdk/src/transport.rs:436-451 | A new request is turned away on a closed transport, then on one not initialized unless it is the initialize request, then after a fatal error; otherwise it goes on. |
| RpcCorrelation.RequestIsSent | codex-sdk/src/transport.rs:453-475 | It then gets an id that nobody had, its sender enters the map, and it is written. |
| RpcCorrelation.ResponseReachesItsRequest | codex-sdk/src/transport.rs:621-631 | In every reached state a response to a pending id ends the request that waits for it with that response, takes its sender out, and touches no other request, sender or mailbox. |
| RpcCorrelation.ReplyEndsItsRequest | codex-sdk/src/transport.rs:477-483 | A waiting request ends with its reply as soon as it has one, and waits as long as it has none. |
| RpcCorrelation.FailureEndsItsRequest | codex-sdk/src/transport.rs:472-483 | A request that times out, or whose write failed, ends so; its sender leaves the map and nobody else is touched. |
| RpcCorrelation.AnswerIsItsOwn | codex-sdk/src/transport.rs:621-631 | An answered request got a response sent for its own id, the recorded fatal error, or the notice of a shutdown that has begun. |
| RpcCorrelation.OneOutcome | codex-sdk/src/transport.rs:436-504 | A request that has ended never moves again. |
| RpcCorrelation.OneReply | codex-sdk/src/transport.rs:621-631 | A request gets at most one reply and it is never replaced. |
| RpcCorrelation.LateResponsesAreIgnored | codex-sdk/src/transport.rs:621-631 | A repeated, late or unknown response changes nothing. |
| RpcCorrelation.WaitingIsNeverAbandoned | codex-sdk/src/transport.rs:472-483 | A waiting request is pending or has its reply, never neither and never both. |
| RpcCorrelation.FirstFatalOnly | codex-sdk/src/transport.rs:796-825 | The first fatal error is the only one recorded and the only one broadcast, at most once. |
| RpcCorrelation.FatalErrorReachesAll | codex-sdk/src/transport.rs:796-825 | The first fatal error ends every pending request with that error, and no other, empties the map, is remembered and is broadcast. |
| RpcCorrelation.ShutdownReachesAll | codex-sdk/src/transport.rs:277-294 | The first shutdown ends every pending request with its notice, and leaves the transport closed and not ready; a later one does nothing. |
| RpcCorrelation.DrainReachesAllInserted | codex-sdk/src/transport.rs:808-818 | The fatal drain ends every request inserted before it. |
| RpcCorrelation.LateInsertEndsAlone | codex-sdk/src/transport.rs:449-456 | A request that inserts after the drain can, when no response comes for its own id and nothing shuts the transport down, end only by its timeout or a failed write, whatever else happens. |
| RpcCorrelation.LateInsertOutlivesTheFatal | codex-sdk/src/transport.rs:449-456 | Such a request exists. |
| RpcCorrelation.PendingRequests.Insert | codex-sdk/src/transport.rs:449-483 | Files the request's sender as the machine's step does. |
| RpcCorrelation.PendingRequests.Complete | codex-sdk/src/transport.rs:621-631 | Exactly a pending id is known: its sender leaves the map and its mailbox gets the response; otherwise nothing changes. These are the map and the mailboxes of the machine's step. |
| RpcCorrelation.PendingRequests.Remove | codex-sdk/src/transport.rs:472-483 | Takes the sender out as the machine's timeout and failed write do. |
| RpcCorrelation.PendingRequests.Drain | codex-sdk/src/transport.rs:277-294 | The drain loop, in any order, leaves the map and the mailboxes of the machine's drain: one reply to every pending sender, an empty map, no other mailbox touched. |

## Left out

- Nested projects roots, symbolic links, and a file where a directory is expected: roots are disjoint trees here, and a key's paths are plain files.
- Torn writes: a transcript without a final newline before an append, and a crash between the writes of a transcript and its sidecar.
- Path normalization against the file system (`canonicalize`) and the sorting of legacy roots; the winner is proved independent of their order.
- A NUL in a subpath: the source accepts it as a name and every file call then fails.
- The summary counters and the sweep over all sessions of reconciliation.
- Materialization as loops over mutable state: it is a machine of atomic steps on values, because it may stop between any two; the timeouts of store calls are the points where it stops.
- ResumeOutcome.ResumeWithAnyRoots: takes no file of the legacy roots besides the profile to be dated between two writes of the same resume, and so do NothingIsLostWithAnyRoots, ReconcileEarly and StepIsSound; a copy dated so wins over what was promoted before its date and loses to what is promoted after. With the profile as the only legacy root nothing is assumed of dates.
- What an append that failed or timed out has already written before it is retried.
- FlushBarrier: a worker task that panics, a batcher that is absent, control requests and the waking of pending ones when the reader exits.
- InputGate.GateClosesSafely: covers one attempt of a run; the retry after a failed connect starts a new queue.
- The answers, titles, models and quota texts the Claude message loop collects; the flag for assistant text in flight.
- DeferredFanout: a poisoned lock, the callback of the origin, and the choice of bound targets.
- Overflow of 64-bit token counts, the usage of `turn/completed`, and the zero report of a failed run.
- The content of Grok tool results besides the removed fields, image payloads, and the in-place edit of JSON objects, which is a function here.
- The creation times and raw rows copied into Antigravity events, and tool ids as text: an id is its step and its index.
- RpcCorrelation: the classification of messages, server requests, the reset after a failed start, and the writer's lock.
- The JSON parser: PrintedDocumentIsRebuilt needs of it only that an accepted object text closes its first brace at its end.
- Process spawning, pipes, permissions, temporary file names, and real time.
