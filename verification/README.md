# Verified model of the semantic cache, its agents and its evidence pipeline

This Dafny project models the stateful core of the repository and proves what that code is meant to guarantee.
Each module follows one source file or one part of it; a class stands for each object whose fields the source
updates, a specification function or a step relation says what every operation does to that state, and lemmas
prove what follows over every input, every run or every reachable state. `dafny verify dfyconfig.toml` checks it.

The five areas, with their main results:

- **Document agent** (`PlanValidation`, `DocumentTask`, `TaskTable`, `AgentProtocol`, `TaskOrigins`, `DocumentAgent`). The durable
  state machine behind `advance`, as imperative code over a shared table and as a transition system with any number
  of runners, crashes between the two transactions, human decisions and deletions. A result is saved only over the
  state its own runner reserved, each reservation is executed at most once within the budget, every status, draft,
  piece of evidence and released text is traced to the step that gave it, and max_calls + 9 counted advances always
  suffice.
- **Quota journal and response store** (`PilotJournal`, `JournalProtocol`, `JournalAnswers`, `ResponseStore`,
  `StoreProtocol`, `StoreRecency`). Quotas hold over every window, run, crash and clock reading; each call reaches the
  network at most once; what a session is shown answers what it asked. The SQLite store refines a plain list in order
  of last use, and no answer survives the invalidation of its tenant.
- **Answer provenance** (`SemanticCache`, `AnswerTrace`, `CacheRecency`). The mutable semantic cache, the paired run that records
  its decisions, and the independent validator, which accepts every completed run of a consistent verifier.
- **Streaming** (`SseReader`, `SseBlocks`, `StreamSession`, `GatewaySlots`). Reading is independent of chunk boundaries and
  inverts encoding; a session emits exactly the grammatical frames; slots are conserved in every interleaving. The
  framing is the part of sections 9.2.5 and 9.2.6 of the WHATWG HTML Living Standard that the code reads: LF and CRLF
  line ends, `data` fields only, and, unlike the standard, all leading spaces of a field dropped.
- **Algorithms** (`PairGrouping`, `AnswerWorkload`, `StreamBuilder`, `SealedEvaluation`, `RoutingRule`, `ArtifactAudit`,
  `Repetition`, `ThresholdSweep`). Union-find with path halving, the slot-allocating stream builder, the evaluator and its auditor,
  one-pass repetition counting, and the threshold sweep with an exact binomial test.

Conventions:

- A digest of a document stands for the document itself, so digests of different documents differ. In the pair
  grouping a text key is a number, as only equality and order of keys matter; in the semantic cache the order of
  digests is a given `rank`, used only to break ties between equal scores.
- Models, encoders, verifiers, providers, eligibility policies and clocks answer arbitrarily: their answers are
  parameters. The gateway contract of `DocumentAgent` is that one completion makes at most one provider call.
- Time, thresholds and byte counts are integers (thresholds in ten-thousandths); similarities are reals. Rounding of
  floating-point values is not modelled.
- A transaction is one atomic step, and a crash can fall between any two of them. A journal session may ask anything
  and go on after a pause; determinism is assumed only of the run `JournalProtocol.ReplayIsStable` speaks of.
- A JSON codec is given. What is read back is proved for the events it renders as one line and parses back, not for
  all values of the JSON type, whose numbers are reals.
- Integers and integral floats of a JSON document are one kind of number.

Where the code does not do what its surroundings suggest:

- `audit_phase_a_artifacts.py` compares the evaluator's path table, which keeps zero entries, with a counter that has
  none. A faithful summary is reported as mismatched exactly when some path was never used
  (`ArtifactAudit.EvaluationReconciles`, `ArtifactAudit.PathsAgreeIff`); fewer than four records are enough for that
  (`ArtifactAudit.FewRecordsNeverReconcile`).
- A verifier that reports approval together with an error is recorded as it is, and the validator then refuses the
  whole completed trace. `AnswerTrace.RunIsAcceptedIff` proves that this is the only way a completed run is refused,
  and `AnswerTrace.ContradictoryVerdictIsRefused` gives such a run.
- The minute quota's `retry_at` is exact when no recorded call lies in the future
  (`PilotJournal.RetryIsEarliest`). After a clock step backwards it can be too early
  (`PilotJournal.RetryTooEarlyAfterClockStep`); `PilotJournal.RetryPassesIff` says exactly when it works.
- `encode_event` sends the JSON string `[DONE]` without quotes, so as an event it is indistinguishable from the end
  marker; `SseReader.RoundTrip` states what is read back for every list of events the codec carries.
- The calibration gates admit domains of 20 pairs, but with the shipped ceiling and confidence no threshold of a
  domain with fewer than 36 hits can clear (`ThresholdSweep.ThirtySixHits`, `ThresholdSweep.SmallDomainsFallBack`).
- A comment in `build_phaseA_sealed_stream.py` gives lags of 2 to 12; the code draws 2 to 10, and so does the model.

## Model

| member | source | states |
|---|---|---|
| PlanValidation.ValidatePlan | src/agents/document_agent.py:57-76 | Accepts a JSON document exactly when it encodes a well-formed plan (1 to 8 steps, fresh identities, earlier dependencies, one bounded argument) and returns the plan it encodes. |
| PlanValidation.PlanRoundTrip | src/agents/document_agent.py:57-76 | Every well-formed plan is what its own JSON is read as. |
| PlanValidation.EncodeInjective | src/agents/document_agent.py:57-76 | A document has only one reading as a plan. |
| PlanValidation.RejectionIsJustified | src/agents/document_agent.py:61-74 | When the gate refuses the next step, no well-formed plan has this document as its encoding. |
| PlanValidation.SearchThenRead | src/agents/document_agent.py:62-74 | Spelt out: a plan that searches for a query and then reads a document, each under its own argument name, is read as exactly that. |
| DocumentTask.DependenciesRanFirst | src/agents/document_agent.py:163-169 | Every dependency of an executed step is among the steps executed before it. |
| DocumentTask.RunToolSound | src/agents/document_agent.py:163-172 | A tool step keeps executed steps a prefix of the plan, release safety and the call account, and adds one executed step or fails. |
| DocumentTask.AbsorbSound | src/agents/document_agent.py:181-219 | Whatever a model replies, absorbing it keeps executed steps a prefix of the plan, release safety and the call account. |
| DocumentTask.SettleSound | src/agents/document_agent.py:142-154 | A human decision keeps an answer tied to completion and records itself. |
| DocumentTask.NewTaskSound | src/agents/document_agent.py:101-112 | A created task satisfies all of this. |
| AgentProtocol.InvAlways | src/agents/document_agent.py:79-220 | The protocol invariant holds in every state of every interleaving of runners, crashes, decisions and deletions. |
| AgentProtocol.VersionsNeverRecur | src/agents/document_agent.py:156-180 | No committed version of a task's state ever recurs, so comparing rows cannot be misled by an old state. |
| AgentProtocol.ResultExtendsOwnReservation | src/agents/document_agent.py:176-220 | A model result is saved only as the direct successor of the very version its own runner reserved, and its call is logged under that reservation number. |
| AgentProtocol.ReleaseHasGrounds | src/agents/document_agent.py:142-220 | Behind every completed row of every reachable table lies, earlier in the run, the step that wrote it: the owner approving or modifying the waiting draft, or a runner saving an admissible approving review of read evidence on a row without approval duty. |
| AgentProtocol.AutomaticReleaseWasReviewed | src/agents/document_agent.py:204-213 | A completed row without a human release was written by such a review, and owed no approval. |
| AgentProtocol.EachReservationRunsOnce | src/agents/document_agent.py:176-180 | Each reservation number is executed at most once, and never again by a runner still holding it. |
| AgentProtocol.ExecutionsWithinBudget | src/agents/document_agent.py:173-177 | Executions never exceed reservations, and reservations never exceed the budget of at most 20. |
| AgentProtocol.AdvancesHalt | src/agents/document_agent.py:156-220 | After max_calls + 8 + 1 counted `advance` calls, contended or crashed ones included, a task has halted or awaits approval. |
| AgentProtocol.ReachableTasksSound | src/agents/document_agent.py:142-220 | Every reachable row is sound: prefix-of-plan tools, an answer only when completed, human decision recorded where owed. |
| TaskOrigins.StatusHasGrounds | src/agents/document_agent.py:101-219 | Every row of every reachable table was put into its status by an earlier step for the reason the status stands for: created as asked, planned by a reply, drafted by one, sent back with that feedback, escalated, decided by the owner or failed, each with the text that step was given. |
| TaskOrigins.ReleasedTextHasSource | src/agents/document_agent.py:150-151 | A released answer is word for word what a person wrote in place of the draft, or the draft that the person or the review approved. |
| TaskOrigins.EvidenceIsReal | src/agents/document_agent.py:43-54 | All evidence of a task was fetched by its own steps in plan order: the documents of its own revision, and what the search answered. |
| TaskOrigins.TracesAccount | src/agents/document_agent.py:101-219 | In every reachable table the trace accounts for all provider calls and tools, cached answers were used for drafting only, and settings and owner are those of the creation. |
| TaskOrigins.OnlyOwnersChange | src/agents/document_agent.py:114-154 | A row changes only through its owner acting over the same documents and model, and disappears exactly when its owner deletes it or invalidates his tasks. |
| TaskOrigins.CreatedIff | src/agents/document_agent.py:101-112 | A row appears exactly by creation with nonblank inputs of at most 8000 characters. |
| TaskOrigins.DecisionIsTaken | src/agents/document_agent.py:142-154 | The owner's decision on a waiting draft is refused exactly when it replaces the answer by a blank text or by more than 16000 characters. |
| DocumentAgent.Runner.Create | src/agents/document_agent.py:101-112 | Inserts the new row, or refuses blank or oversized inputs and leaves the table alone. |
| DocumentAgent.Runner.BeginAdvance | src/agents/document_agent.py:156-177 | The first transaction of `advance`: halting states return unchanged, tools run at once, an exhausted budget fails, otherwise a call is reserved and committed. |
| DocumentAgent.Runner.FinishAdvance | src/agents/document_agent.py:178-220 | The second transaction: saves the absorbed reply if the row still equals what this runner wrote, otherwise changes nothing. |
| DocumentAgent.Runner.Receive | src/agents/document_agent.py:191-218 | The try block and its handler compute the declared successor state for every reply. |
| DocumentAgent.Runner.DecideTask | src/agents/document_agent.py:142-154 | Human decisions are the declared transaction, whose every outcome `TaskOrigins.StatusHasGrounds` and `TaskOrigins.DecisionIsTaken` fix: taken only while approval is awaited, with the text given. |
| DocumentAgent.Runner.DeleteTask | src/agents/document_agent.py:134-136 | Deletes the row of that owner only. |
| DocumentAgent.Runner.Advance | src/agents/document_agent.py:156-220 | One uninterrupted `advance` is the declared pass over the table. |
| DocumentAgent.Runner.Drive | scripts/demo_document_agent.py:57-59 | The drivers' loop of thirty advances ends in a halted, sound task whatever the gateway replies, and reports access faults unchanged. |
| DocumentAgent.DriveOutcome | src/benchmark/paired_runtime.py:177-179 | Thirty passes over a table amount to the row's own run, which has halted. |
| DocumentAgent.SoloRunHalts | src/agents/document_agent.py:156-220 | From any sound task, max_calls + 8 + 1 uninterrupted advances halt it. |
| DocumentAgent.FreshRunHalts | src/agents/document_agent.py:156-220 | A lone runner needs at most 1 + 8 + 2(max_revisions + 1), that is 17, advances from creation. |
| PilotJournal.RunJournal.ReserveCall | src/benchmark/free_pilot.py:68-86 | Replays a finished ordinal, pauses on divergence, uncertainty, upstream pause or any of three quotas with its retry time, or inserts one reserved row; what each branch means is proved in `JournalAnswers`. |
| PilotJournal.RunJournal.FinishCall | src/benchmark/free_pilot.py:87-90 | Changes exactly one reserved row, or reports that there is none. |
| PilotJournal.RunJournal.BlockRateLimit | src/benchmark/free_pilot.py:91-94 | Extends the shared pause to the next UTC midnight and never shortens it. |
| PilotJournal.JournaledProvider.CallProvider | src/benchmark/free_pilot.py:114-138 | The network is used exactly for a fresh reservation; counters, saved outcome and what the caller sees are fixed in every case. |
| PilotJournal.ReserveKeepsQuotas | src/benchmark/free_pilot.py:68-86 | Reservation keeps the per-run, UTC-day and rolling-minute caps whatever the clock reads. |
| PilotJournal.FinishKeepsQuotas | src/benchmark/free_pilot.py:87-90 | Recording an outcome moves no quota window. |
| PilotJournal.RegisterKeepsQuotas | src/benchmark/free_pilot.py:52-59 | Registering a run moves no quota window. |
| PilotJournal.RetryIsNotEarly | src/benchmark/free_pilot.py:83-84 | Without new calls the minute check fails at every moment before the announced retry time. |
| PilotJournal.RetryIsExact | src/benchmark/free_pilot.py:83-84 | With one shared limit and no call dated in the future, the minute check passes at the announced retry time. |
| PilotJournal.RetryIsEarliest | src/benchmark/free_pilot.py:83-84 | Under the same conditions the time a refused reservation announces is the earliest at which the check passes. |
| PilotJournal.RetryPassesIff | src/benchmark/free_pilot.py:83-84 | Whatever the clock did, the announced time works exactly when fewer than the cap of the recent rows remain after dropping those that share the oldest start, which the refused check can count. |
| PilotJournal.RetryTooEarlyAfterClockStep | src/benchmark/free_pilot.py:68-86 | Two reservations under a limit of one, then a clock stepping back: the refusal announces 1060, and the same reservation is refused again at 1060. |
| JournalProtocol.InvAlways | src/benchmark/free_pilot.py:45-138 | The journal invariant holds in every state of every interleaving of sessions with arbitrary requests, pauses, lost writes, crashes and clock readings. |
| JournalProtocol.QuotasAlwaysHold | src/benchmark/free_pilot.py:46-86 | Over all runs sharing the journal, starts in any 60 seconds and on any UTC day stay within any caps that bound the limits of the sessions, and each run within its registered cap. |
| JournalProtocol.HardCapsAlwaysHold | src/benchmark/free_pilot.py:48-49 | Never more than 10 starts in 60 seconds or 40 on a UTC day, whatever limits were chosen. |
| JournalProtocol.AnnouncedRetryIsEarliest | src/benchmark/free_pilot.py:83-84 | In every behaviour with one shared minute limit and no call dated in the future, the retry time announced to a session is the earliest at which the minute check passes. |
| JournalProtocol.AttemptedAtMostOnce | src/benchmark/free_pilot.py:68-90 | Each (run, ordinal) reaches the network at most once, and only after its row exists. |
| JournalProtocol.OutcomesAreFinal | src/benchmark/free_pilot.py:87-90 | Rows never disappear and a saved outcome never changes. |
| JournalProtocol.SessionsAgree | src/benchmark/free_pilot.py:114-138 | Any two sessions of a run, at any two moments, were shown the same outcome at every ordinal both were shown one. |
| JournalProtocol.ResumedSeesPrefix | src/benchmark/free_pilot.py:114-138 | Of two sessions of a run that were never paused, the one that got less far saw a prefix of what the other saw. |
| JournalProtocol.ReplayIsStable | src/benchmark/free_pilot.py:72-76 | If all sessions of a run resume one deterministic client, other runs being arbitrary, no request of it diverges, and an ordinal with a saved outcome is replayed with journal, network and new-call count left as they are. |
| JournalProtocol.FinishAlwaysLands | src/benchmark/free_pilot.py:87-90 | Recording an outcome always finds its reserved row, so the state-changed pause cannot occur. |
| JournalAnswers.ShownAnswersTheRequest | src/benchmark/free_pilot.py:72-76 | Whatever callers ask, the outcome a session is shown for a call is the one saved for exactly the request it made there. |
| JournalAnswers.DivergenceIsTold | src/benchmark/free_pilot.py:74-74 | Another request than the journal has at this ordinal changes nothing except that the session is told of the divergence. |
| JournalAnswers.KnownCallIsTold | src/benchmark/free_pilot.py:73-76 | The same request again is answered from the journal, or reported as uncertain if its outcome was never saved; nothing else changes. |
| JournalAnswers.ReservedIff | src/benchmark/free_pilot.py:77-86 | A new call is reserved, exactly as asked, when and only when nothing blocks it and the run, day and minute counts are below the limits. |
| JournalAnswers.RetryTimesHold | src/benchmark/free_pilot.py:77-84 | Every announced retry time lies in the future, the call is refused at every moment before it, and then the block, or a daily quota without future rows, has ended. |
| JournalAnswers.BlockHolds | src/benchmark/free_pilot.py:77-94 | After a rate limit of the provider no session of any run starts a new call on that UTC day. |
| JournalAnswers.CapsInNumbers | src/benchmark/free_pilot.py:46-49 | At most 30 calls per run, 40 per UTC day and 10 in any 60 seconds, whatever was configured. |
| ResponseStore.EvictIsShortestPrefix | src/policy/sqlite_store.py:64-68 | Eviction drops the shortest least-recent prefix after which both bounds hold. |
| ResponseStore.AdmittedSurvives | src/policy/sqlite_store.py:54-69 | The entry just admitted survives its own eviction exactly when at least one entry is allowed. |
| ResponseStore.HitIsRefreshed | src/policy/sqlite_store.py:45-52 | A lookup finds a key exactly when a live item has it; that item is then last and all other live ones keep their order. |
| ResponseStore.AdmissionEvictsLeast | src/policy/sqlite_store.py:61-69 | An admission drops the shortest least-recent front of the other live items that makes room, and nothing if there is room. |
| ResponseStore.PutRepresents | src/policy/sqlite_store.py:63-63 | Writing a row with a counter above all others is moving its item to the recent end of the abstract list. |
| ResponseStore.DeleteRepresents | src/policy/sqlite_store.py:62-62 | Deleting rows by a condition deletes the same items from the abstract list. |
| ResponseStore.HeadIsLeast | src/policy/sqlite_store.py:68-68 | The row with the least counter is the head of the abstract list. |
| ResponseStore.Store.Lookup | src/policy/sqlite_store.py:45-52 | Refines the abstract lookup; expired entries go, a hit returns the payload of the live entry and leaves it last behind the other live ones in their order; the current epoch is reported. |
| ResponseStore.Store.Admit | src/policy/sqlite_store.py:54-69 | Admits exactly payloads that fit and whose epoch is current, and then equals the abstract admission, eviction loop included. |
| ResponseStore.Store.Invalidate | src/policy/sqlite_store.py:71-77 | Raises the epoch and removes exactly the tenant's entries, or all. |
| ResponseStore.Store.Totals | src/policy/sqlite_store.py:65-65 | The counted rows and summed bytes are those of the abstract list. |
| StoreProtocol.NoStaleHit | src/policy/sqlite_store.py:45-77 | After an invalidation no lookup returns an answer of that tenant whose own lookup came before it, and never an expired one, in any interleaving. |
| StoreProtocol.AlwaysFresh | src/policy/sqlite_store.py:54-77 | Every stored item and every pending admission stays consistent with the invalidations so far. |
| StoreProtocol.OriginsAreLookups | src/policy/sqlite_store.py:45-69 | The origin attributed to a stored item is a lookup of its key that really took place. |
| StoreRecency.OrderIsLastUse | src/policy/sqlite_store.py:45-69 | In every reachable store the items stand in order of the last step that hit or admitted them. |
| StoreRecency.EvictedWereUsedBefore | src/policy/sqlite_store.py:64-68 | Whatever live answer an admission evicts was last used before every answer it keeps. |
| StoreRecency.ItemIsLatestAdmission | src/policy/sqlite_store.py:54-69 | Every item is exactly what the latest admission under its key stored: payload, tenant, size and expiry. |
| StoreRecency.HitIsLatestAnswer | src/policy/sqlite_store.py:45-63 | A hit returns the latest answer admitted under its key, within the time to live it was admitted with. |
| StoreRecency.AdmittedIsLast | src/policy/sqlite_store.py:54-69 | An admission that fits and whose epoch is current stores its answer, as the most recent item. |
| SseReader.Reader.ReadAll | src/api/streaming.py:28-57 | Events and outcome depend only on the bytes, not on how they were cut into chunks; beyond the byte limit exactly the chunks before it are read, and unless they end the stream it is too large. |
| SseReader.Reader.DrainLines | src/api/streaming.py:39-42 | The inner loop takes exactly the complete lines off the buffer. |
| SseReader.ReadLinesAppend | src/api/streaming.py:28-57 | Bytes after an unfinished line continue it, bytes after a stop are never looked at. |
| SseReader.OversizedLineDecides | src/api/streaming.py:43-48 | An unfinished line over the limit already decides the outcome. |
| SseReader.ChunkStep | src/api/streaming.py:31-43 | Reading one more chunk agrees with reading the concatenation. |
| SseReader.RoundTrip | src/api/streaming.py:19-57 | Reading encoded events gives back the events before the end marker, and finishes exactly when there is one; only those events need to survive rendering and parsing. |
| SseReader.ReadBack | src/api/streaming.py:19-57 | However an encoded stream ending in the marker is cut, the reader returns the original events, for every list the codec carries. |
| SseReader.LiteralsRoundTrip | src/api/streaming.py:19-57 | A concrete codec that meets these conditions for every list of JSON literals, read back whatever follows the marker. |
| SseBlocks.BlockIsRead | src/api/streaming.py:44-57 | Any block of lines another server may send is one event, the values of its data lines joined by line feeds, or the end marker, or nothing, whatever the line ends, leading spaces and other fields. |
| SseBlocks.OnlyValuesMatter | src/api/streaming.py:44-57 | Two blocks with the same values are read alike. |
| SseBlocks.OversizedBlockStops | src/api/streaming.py:46-48 | A block over the event limit ends the reading as too large, with no event of its own. |
| SseBlocks.BadTextStops | src/api/streaming.py:49-49 | A line that is not UTF-8 ends the reading as such. |
| StreamSession.Session.NextFrame | src/api/streaming.py:69-106 | Each call emits the one frame the grammar allows after what was emitted, ends only when closed, and gives the slot back once, with the final frame. |
| StreamSession.Session.Close | src/api/streaming.py:107-119 | Idempotent: only the first close releases the slot and counts a cancellation. |
| StreamSession.AcceptanceIsGrammar | src/api/streaming.py:73-101 | The checks on the session's flags decide exactly whether a frame may follow. |
| StreamSession.StopIsUnique | src/api/streaming.py:81-97 | No two emitted chunks both carry a stop. |
| StreamSession.OrdinaryStreamPasses | src/api/streaming.py:69-101 | Text chunks, a last one that stops, perhaps usage, then the end marker: all of it passes, for every such stream with any text; without text the end marker fails. |
| StreamSession.NeverForwarded | src/api/streaming.py:77-97 | Tool and function calls, refusals, other content than text, later choices, errors and other finishes than a stop are never forwarded. |
| GatewaySlots.Gateway.Complete | src/api/service.py:195-232 | A completion is refused exactly when no slot is free, and leaves the number of free slots as it was. |
| GatewaySlots.Gateway.OpenStream | src/api/service.py:165-193 | Opening a stream keeps a slot exactly when it returns a session. |
| GatewaySlots.SlotsConserved | src/api/service.py:165-232 | In every interleaving, free slots, running completions and unclosed streams add up to the limit, and each stream releases at most once. |
| GatewaySlots.ServedWhileFree | src/api/service.py:165-232 | Whoever asks gets a slot exactly while one is free, and finished completions and failed openings give theirs back. |
| GatewaySlots.ClosedForGood | src/api/streaming.py:107-119 | Once some thread has closed a stream it has given back exactly one slot and holds none, for good. |
| PairGrouping.UnionFind.Find | scripts/prepare_answer_workload.py:20-24 | Returns the root, terminates because parents never exceed children, and path halving changes no root. |
| PairGrouping.UnionFind.Union | scripts/prepare_answer_workload.py:25-28 | Adds exactly one connection to the represented relation. |
| PairGrouping.HalvingKeepsRoot | scripts/prepare_answer_workload.py:22-23 | Pointing a key at its grandparent changes no root. |
| PairGrouping.UnionRedirects | scripts/prepare_answer_workload.py:28-28 | Pointing the larger root at the smaller redirects exactly the keys below it. |
| PairGrouping.RootIsGroup | scripts/prepare_answer_workload.py:20-28 | The root of a key is the smallest key of its connected component. |
| PairGrouping.ConvertPairs | scripts/prepare_answer_workload.py:14-39 | Two rows per pair in order, each with the smallest key of its component as group; refused exactly for blank texts or missing sources. |
| AnswerWorkload.PrepareWorkload | scripts/prepare_answer_workload.py:14-46 | Conversion with the final validation: accepted exactly for a nonempty list of usable pairs with a license note, and then a valid workload of the grouped rows in order. |
| AnswerWorkload.ConvertedRowsAreClean | scripts/prepare_answer_workload.py:29-46 | Converted rows always pass the row checks: distinct names, filled fields, one split. |
| AnswerWorkload.EventIdInjective | scripts/prepare_answer_workload.py:36-36 | Event names of different pairs or sides differ. |
| AnswerWorkload.RowsAskThePairs | scripts/prepare_answer_workload.py:29-37 | Row by row: pair k asks its first query as row 2k and its second as row 2k + 1 under its own name and source, and rows share a group exactly when a chain of pairs connects their texts. |
| PairGrouping.SameGroupIffConnected | scripts/prepare_answer_workload.py:37-37 | Two texts share a group exactly when a chain of pairs connects them. |
| PairGrouping.GroupsIgnoreOrder | scripts/prepare_answer_workload.py:25-37 | Reordering or repeating pairs changes no group. |
| StreamBuilder.FindSlot | scripts/build_phaseA_sealed_stream.py:198-203 | The follow-up's slot is free, every slot skipped inside the list was taken, and the list grows only when its end is passed. |
| StreamBuilder.HeadRoom | scripts/build_phaseA_sealed_stream.py:188-193 | The head never passes twice the number of pairs placed, so a seed's slot is always inside the list. |
| StreamBuilder.PlacePair | scripts/build_phaseA_sealed_stream.py:190-229 | Puts the seed at the head and the follow-up at least the lag later, into free slots, and disturbs nothing else. |
| StreamBuilder.PlacePairs | scripts/build_phaseA_sealed_stream.py:182-229 | All pairs are placed; the occupied set is exactly the used slots. |
| StreamBuilder.Compact | scripts/build_phaseA_sealed_stream.py:231-249 | Compaction neither loses nor repeats an event, uses every organic query, and keeps each seed before its follow-up. |
| StreamBuilder.Link | scripts/build_phaseA_sealed_stream.py:251-259 | Numbers events by position and links each follow-up to an earlier seed of its pair. |
| StreamBuilder.AssembleSealedStream | scripts/build_phaseA_sealed_stream.py:170-261 | For all pairs, lags from 2 to 10 and organic queries: exactly 2 x pairs + organic events, each planned event once, ids are positions, every seed carries a first or organic query, and every follow-up carries its pair's second query and label and names its own pair's earlier seed. |
| SealedEvaluation.Evaluate | scripts/run_phaseA_sealed_evaluation.py:113-286 | Telemetry is the replay of routing every event against the caches of that moment, and every counter is the tally of the telemetry. |
| SealedEvaluation.RouteIsKnown | scripts/run_phaseA_sealed_evaluation.py:152-217 | A reported candidate was indexed earlier; a reuse always has one with a finite score. |
| SealedEvaluation.MemoryIsKnown | scripts/run_phaseA_sealed_evaluation.py:228-268 | Every entry of both caches carries the id and text of an event indexed before. |
| SealedEvaluation.ReplayIsFaithful | scripts/run_phaseA_sealed_evaluation.py:141-286 | Every record agrees with its event, its outcome label, its path and its candidate's provenance. |
| RoutingRule.CanonicalFirst | scripts/run_phaseA_sealed_evaluation.py:163-170 | The canonical path is taken exactly when an earlier indexed event has the same nonempty normalized text; the latest such event is the candidate. |
| RoutingRule.GuardedReuse | scripts/run_phaseA_sealed_evaluation.py:176-216 | Otherwise the nearest indexed event is the candidate: reused automatically exactly in the auto tier with passing guards, judged locally exactly in the ambiguous tier, bypassed in all other cases. |
| RoutingRule.LabelIs | scripts/run_phaseA_sealed_evaluation.py:222-262 | Every label follows from what the event is and what was decided. |
| ArtifactAudit.CheckRecord | scripts/audit_phase_a_artifacts.py:55-110 | The checks made with the id table and the indexed set are exactly the declared demands on a record. |
| ArtifactAudit.ReplayRecords | scripts/audit_phase_a_artifacts.py:54-132 | The loop stops at the first record that does not fit, and its counters are the tallies of the rest. |
| ArtifactAudit.AuditRecords | scripts/audit_phase_a_artifacts.py:29-156 | Refuses exactly unacceptable telemetry, naming the first fault, and otherwise recomputes all counts and lists every difference. |
| ArtifactAudit.AcceptanceGuarantees | scripts/audit_phase_a_artifacts.py:55-110 | What acceptance vouches for: fields, label and path agree, reuse names an earlier indexed event by id and text, and every designated seed came before its probe. |
| ArtifactAudit.Recount | scripts/audit_phase_a_artifacts.py:135-151 | Hits as true plus false positives, canonical and non-exact alike, equal the evaluator's direct counts. |
| ArtifactAudit.EvaluationIsAcceptable | scripts/audit_phase_a_artifacts.py:36-132 | Everything the evaluator writes over a linked stream is accepted. |
| ArtifactAudit.PathsAgreeIff | scripts/audit_phase_a_artifacts.py:150-156 | Path counts agree with absent read as zero, and as tables exactly when every path occurred. |
| ArtifactAudit.EvaluationReconciles | scripts/audit_phase_a_artifacts.py:135-156 | All counts agree; the only possible mismatch is the path table. |
| ArtifactAudit.FewRecordsNeverReconcile | scripts/audit_phase_a_artifacts.py:150-156 | With fewer records than paths a faithful summary is always reported as mismatched. |
| ArtifactAudit.EvaluateAndAudit | scripts/audit_phase_a_artifacts.py:29-156 | Evaluation followed by audit: never refused, and free of mismatches exactly when all four paths were used. |
| ArtifactAudit.BuildEvaluateAudit | scripts/build_phaseA_sealed_stream.py:170-261 | The same from the stream builder onwards, for all pairs, lags and organic queries. |
| ArtifactAudit.ReconciledIff | scripts/audit_phase_a_artifacts.py:139-156 | For any accepted telemetry, no mismatch means exactly that the summary states the tallies, for every source it reports. |
| SemanticCache.ExperimentalSemanticCache.Process | src/benchmark/semantic.py:86-174 | One request is one declared step: bypass, exact hit, convincing approved leader, or generation with admission and eviction; byte total and bounds stay right. |
| SemanticCache.ExperimentalSemanticCache.Retrieve | src/benchmark/semantic.py:113-160 | Encoding, scoring, ranking, thresholds and verification decide exactly the declared retrieval. |
| SemanticCache.ExperimentalSemanticCache.DropExpired | src/benchmark/semantic.py:103-107 | Removes exactly the expired entries and their bytes. |
| SemanticCache.ExperimentalSemanticCache.Generate | src/benchmark/semantic.py:161-174 | Stores the answer exactly when it is complete, still eligible, encoded and small enough. |
| SemanticCache.ExperimentalSemanticCache.Admit | src/benchmark/semantic.py:165-172 | The new entry is last and survives; least recent entries go until both bounds hold. |
| SemanticCache.TopLeads | src/benchmark/semantic.py:124-130 | Comparing the head of the ranking with the runner-up alone decides whether it beats every other entry by the margin. |
| SemanticCache.EvictedIsShortest | src/benchmark/semantic.py:169-171 | Eviction drops the shortest least-recent prefix that restores both bounds. |
| SemanticCache.NewestSurvives | src/benchmark/semantic.py:166-171 | An entry that fits on its own survives the eviction it causes. |
| SemanticCache.StepsKeepSound | src/benchmark/semantic.py:86-174 | Every step keeps distinct keys, both bounds and the completeness of every stored answer. |
| SemanticCache.HitIsJustified | src/benchmark/semantic.py:109-154 | A hit returns, unchanged, an unexpired entry of the same tenant and scope; a semantic one leads, meets the threshold, beats the rest by the margin and, in verified mode, was approved. |
| SemanticCache.StoredIsReplayed | src/benchmark/semantic.py:108-112 | What one call stores, the next eligible call for the same request gets back unchanged until it expires, without a provider call. |
| SemanticCache.SemanticHitIff | src/benchmark/semantic.py:114-154 | Without an exact entry, reuse happens exactly for a convincing leader that is approved and still eligible. |
| SemanticCache.FailureNeverReuses | src/benchmark/semantic.py:151-160 | Encoder and verifier failures never lead to reuse, except of the identical request's own answer. |
| SemanticCache.ScopeDecidesCompleteness | src/policy/response_cache.py:128-147 | Whether an answer is complete depends only on the scope of the request. |
| SemanticCache.SameScopeIff | src/benchmark/semantic.py:24-27 | Two requests share a scope exactly when they differ at most in the text of their last message. |
| SemanticCache.ExpiredIsNotReplayed | src/benchmark/semantic.py:103-112 | Once its time to live is over a stored answer is never returned; a hit is then on an older entry of another request. |
| SemanticCache.BypassIff | src/benchmark/semantic.py:99-101 | The cache is passed by exactly for ineligible, streaming and unfinished requests, and then unchanged. |
| SemanticCache.StoredIff | src/benchmark/semantic.py:161-174 | An answer is stored exactly when it is complete, still eligible, encoded and small enough. |
| SemanticCache.VerificationIff | src/benchmark/semantic.py:130-160 | The verifier is asked exactly about a convincing leader in verified mode; its verdict or its failure is recorded, and failed processing is reported exactly when something failed. |
| SemanticCache.StoringEvictsLeast | src/benchmark/semantic.py:166-171 | A stored answer goes last, and the shortest least-recent front goes that makes room. |
| SemanticCache.DotAppend | src/benchmark/semantic.py:120-120 | The similarity is the sum of the products of the components. |
| SemanticCache.TextAnswerIsComplete | src/policy/response_cache.py:128-147 | One stopped assistant answer is complete exactly when it is not blank. |
| SemanticCache.NeverComplete | src/policy/response_cache.py:128-147 | Errors, another number of choices, cut off and tool-calling choices are never complete. |
| CacheRecency.OrderIsLastUse | src/benchmark/semantic.py:108-171 | In every cache state of a run over distinct rows the entries stand in order of the last row that stored or reused them. |
| CacheRecency.EvictedWereUsedBefore | src/benchmark/semantic.py:169-171 | Whatever unexpired entry a row makes go was last used before every entry that stays. |
| AnswerTrace.ValidateTrace | src/benchmark/report.py:42-129 | One pass with a table of seen events accepts exactly the declared traces. |
| AnswerTrace.SeenSource | src/benchmark/report.py:107-125 | Looking up the named candidate among seen events decides whether an earlier event justifies the hit. |
| AnswerTrace.AcceptanceGuarantees | src/benchmark/report.py:53-128 | What acceptance vouches for: requests, answers and calls are consistent, and every hit repeats, for free, the stored answer of an earlier miss of the same tenant whose request differs in its last text at most, approved in verified mode. |
| AnswerTrace.ValidateWorkload | src/benchmark/schema.py:50-85 | Accepts exactly workloads with filled names, distinct event ids, nonblank messages, and no group or normalized request in two splits. |
| AnswerTrace.SplitsDoNotLeak | src/benchmark/schema.py:50-85 | In a valid workload no group and no conversation, however its texts are written, occurs in two splits. |
| AnswerTrace.RunWorkload | src/benchmark/runner.py:25-124 | A completed run records every selected row in order, each served by one cache step from the state the previous row left; it is abandoned only if something paused. |
| SemanticCache.StepsEntries | src/benchmark/semantic.py:162-172 | A cache entry comes from before or from the answer this very call stored. |
| AnswerTrace.StatesAreBacked | src/benchmark/runner.py:75-114 | Every entry of every cache state was generated by a recorded, stored, error-free miss with that answer and request, by the vector of its turn, and expires one time to live after it. |
| AnswerTrace.HitIsComplete | src/benchmark/runner.py:81-92 | A reused answer is complete for the incoming request, so a hit never becomes an error. |
| AnswerTrace.HitHasSource | src/benchmark/report.py:107-125 | A recorded hit has zero generation calls and names an earlier stored miss of the same tenant and scope with the identical answer, whose time to live has not run out. |
| AnswerTrace.HitIsInTime | src/benchmark/semantic.py:103-107 | In a completed run no answer is reused once its time to live has run out. |
| AnswerTrace.TurnsDecide | src/benchmark/runner.py:60-114 | What is recorded agrees with the answers of the turn: passed by only if ineligible, stored only while admission was allowed, another request's answer reused only while reuse was. |
| AnswerTrace.UsageIff | src/benchmark/runner.py:14-19 | Usage is read exactly from an object with both counts, prompt and completion, as whole numbers. |
| AnswerTrace.UsageIsRecorded | src/benchmark/runner.py:68-95 | Each arm records the usage of its own provider answer, and none where nothing was called. |
| AnswerTrace.RunIsAcceptedIff | src/benchmark/report.py:53-128 | The validator accepts a completed run exactly when no recorded verdict claims approval and an error at once; so always without a verifier or with a consistent one. |
| AnswerTrace.RunAndValidate | src/benchmark/runner.py:25-124 | The same for running and then validating. |
| AnswerTrace.ContradictoryVerdictIsRefused | src/benchmark/report.py:99-100 | A concrete completed two-row run that the validator refuses. |
| Repetition.SummarizeFirstTurns | src/benchmark/natural_repetition.py:13-103 | One pass gives exactly the quadratic counts over the sample; refused exactly for a bad limit, an unreadable time or too few roots. |
| Repetition.LookupsDecide | src/benchmark/natural_repetition.py:85-101 | The set and table lookups answer the quadratic questions. |
| Repetition.PriorGrows | src/benchmark/natural_repetition.py:91-95 | The table keeps, per key, the earliest answer of any tree opened with it. |
| Repetition.RepeatsAreSizeMinusDistinct | src/benchmark/natural_repetition.py:85-90 | Repeats are the sample size minus the number of different keys. |
| Repetition.SpecialRepeatsAreRepeats | src/benchmark/natural_repetition.py:85-103 | Same-user repeats and repeats with a prior answer never exceed repeats. |
| Repetition.CoarserKeysRepeatMore | src/benchmark/natural_repetition.py:83-103 | A coarser key can only raise each of the three counts. |
| Repetition.SummaryRelations | src/benchmark/natural_repetition.py:107-125 | How the six reported numbers relate. |
| Repetition.SortedFacts | src/benchmark/natural_repetition.py:53-53 | Processing order is a reordering of the eligible roots by time and id. |
| Repetition.SampleFacts | src/benchmark/natural_repetition.py:53-63 | One root per tree, in order, and of each tree an earliest one. |
| Repetition.SampleRunsForward | src/benchmark/natural_repetition.py:53-63 | In times: the sample runs forward, ties by id, and every tree is represented by a root no later than any of its roots. |
| Repetition.TextLeqIff | src/benchmark/natural_repetition.py:53-53 | The order of ids is lexicographic. |
| Repetition.EligibleIff | src/benchmark/natural_repetition.py:30-51 | The roots considered are exactly the kept, nonblank opening prompts with their own fields. |
| Repetition.RepliesIff | src/benchmark/natural_repetition.py:17-29 | The answers considered are exactly the kept assistant messages below a root, under their tree. |
| Repetition.CountsAreSizes | src/benchmark/natural_repetition.py:83-103 | The three counts are the numbers of positions that repeat an earlier key, repeat the user's own, or repeat one answered before. |
| ThresholdSweep.Sweep | src/decision/adaptive_threshold_engine.py:379-446 | One point per grid threshold, with its confusion counts and its verdict. |
| ThresholdSweep.ConfusionPartitions | src/decision/adaptive_threshold_engine.py:410-415 | True and false positives and negatives add up to the pairs at every threshold. |
| ThresholdSweep.ConfusionCounts | src/decision/adaptive_threshold_engine.py:408-415 | The four numbers count the pairs at or above, and below, the threshold by their label. |
| ThresholdSweep.HitsFall | src/decision/adaptive_threshold_engine.py:408-415 | Raising the threshold never adds a hit, true or false. |
| ThresholdSweep.ClearingIsMonotone | src/decision/adaptive_threshold_engine.py:317-346 | Fewer false positives, or more hits with as many, never turn a clearing point into a failing one. |
| ThresholdSweep.MassIsBinomial | src/decision/adaptive_threshold_engine.py:317-346 | The probabilities of the exact test are the binomial ones. |
| ThresholdSweep.ThirtySixHits | src/decision/adaptive_threshold_engine.py:421-424 | With the shipped ceiling and confidence, 36 hits are necessary to clear, and sufficient when none is false. |
| ThresholdSweep.Calibrate | src/decision/adaptive_threshold_engine.py:476-575 | Both sample gates first, then exactly the lowest clearing threshold, else the fallback, with the reason. |
| ThresholdSweep.SmallDomainsFallBack | src/decision/adaptive_threshold_engine.py:535-575 | A domain with fewer than 36 hits at the lowest threshold never adopts one. |
| ThresholdSweep.FewPairsFallBack | src/decision/adaptive_threshold_engine.py:484-575 | A domain with fewer than 36 pairs falls back although the gates let 20 pass. |
| ThresholdSweep.CalibrateDomain | src/decision/adaptive_threshold_engine.py:449-460 | The shipped settings: the gates of 20 pairs and 10 of either label, then the lowest of 0.50, 0.51 to 0.95 that clears, with its hits counted, else 0.85; an adopted threshold has at least 36 hits. |

## Left out

- HTTP, FastAPI, credentials, command lines, dashboards, reports and progress pages: input, output and presentation.
- Dataset downloads, query lists, classifier tables, model training, embeddings and vector indexes: data and libraries; they enter as given answers.
- Floating-point rounding and `round(..., 4)`: reals and integers are used instead.
- Latencies, the stream deadline, `quantile`, `interval`, bootstrap intervals, `summarize` and review labels of `src/benchmark/report.py`: timing and statistics over recorded values.
- `WorkMetrics` counters, histogram and token totals of `src/api/service.py`: simple counters; only the two session counters that close a stream are kept.
- DocumentAgent.Runner.FinishAdvance: the prompt payload and `memories` are not built; a reply is any value the gateway contract allows.
- DocumentTask.RunToolSound: the ranking of `search` is a given function; only the identity, arguments and outcome of a tool step are modelled.
- Names of exceptions: a refusal carries the branch that raised it, not its text.
- ResponseStore.Store.Lookup: the namespace check and database errors are not modelled.
- PilotJournal.JournaledProvider.CallProvider: progress notifications are not modelled; a journal write that fails is a step of `JournalProtocol` only.
- AnswerWorkload.PrepareWorkload: the provenance text is abbreviated, and the source digest and grouping note, which no check reads, are not carried.
- StreamSession.Session.Close: a close that races a running `__next__` is covered for slots (`GatewaySlots.SlotsConserved`) but not for its counters, which need not be exclusive.
- SemanticCache.ExperimentalSemanticCache.Process: the diagnosis record is not modelled; the vector is given already normalized, so unit length is not claimed.
- SemanticCache.ExperimentalSemanticCache.Retrieve: scores are sorted by a stable insertion of the scored candidates.
- AnswerTrace.RunWorkload: the exact-match policy, field checks of requests and the random order of the two arms are not modelled; each arm's answers are given separately.
- AnswerTrace.ValidateTrace: JSON typing of recorded fields and latencies are fixed by the model's types.
- ArtifactAudit.AuditRecords: training and validation overlap, candidate partitions, id lists and JSON typing of saved fields are not modelled.
- SealedEvaluation.Evaluate: rates, intervals and latency summaries derived from the counters are not modelled; they also make an empty stream fail.
- StreamBuilder.AssembleSealedStream: the shuffle is a given order; no minimum lag is claimed after compaction, because compaction can shorten it.
- Repetition.SummarizeFirstTurns: language counts, shares and Unicode normalization (a given function) are not modelled.
- ThresholdSweep.Calibrate: the logistic fit, Wilson intervals and `get_threshold`, `decide` and `fit` are not modelled; the binomial test is decided by a given function required to agree with the declared one.
- ThresholdSweep.Sweep: a step below one ten-thousandth, with which the source's loop does not end, is excluded.
- `src/agents/workflow.py`, `src/decision/decision_step.py`, `src/benchmark/reuse_diagnosis.py` and `src/benchmark/review_agreement.py`: they would add easier versions of the members above.
