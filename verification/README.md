# Verified model of the Melitta Barista integration

A Dafny model of the parts of the Home Assistant integration for Melitta coffee machines that are driven by unbounded
event sequences, with proofs over every run. Each component is modelled in its own form: the objects that update fields
in place are classes whose methods are proved against functions on their state, and what the component promises is proved
about those functions.

| modules | component |
|---|---|
| `Domain`, `LifecycleSpec`, `Lifecycle`, `LifecycleTrace`, `LifecycleLedger` | the lifecycle detector, which folds status frames into brew, prompt and maintenance events: equal to a declarative function of the whole trace, and conservation over runs with disconnects |
| `HandOff` | the brew commands, the client's one-slot stage and cancel flag, the event entity and the detector, composed |
| `BondState` | the bond health machine: exact meaning of its state, persistence, noise |
| `ConnectSpec`, `BleClient`, `ConnectSafety`, `ConnectEvidence`, `ConnectOutage`, `ConnectLearning`, `ConnectRestart`, `ConnectLadder`, `ConnectRadio` | device selection, connect ladder and destructive unpair: safety over all runs of cycles, advertisements, notes, saves and restarts; whether the evidence is real; which source is learned |
| `Reconnect`, `InitialConnect`, `RepairThrottle` | failure counter, the two backoff loops driven by the client, circuit breaker and disconnect window |
| `RecipeCache`, `BrandStatsSpec`, `BrandStats` | the recipe refresh as an overlay, the coalescing statistics refresh |
| `FreeText`, `NarrationText`, `NarrationPlan`, `Narration`, `NarrationSafety`, `NarrationSpeech`, `NarrationFacts` | narration: cleaning, substitution, planning, composition, language fallback |

`dafny verify dfyconfig.toml` checks the whole project.

Conventions. Time is a real number read by the caller, and readings may go backwards unless a member asks for order. What
the radio, the machine and the callbacks do is a script or an action: any link outcome, failure class, connected source,
unpair reply and interleaving of advertisements is allowed. Asynchronous code is cut at its awaits. Ghost logs and traces
record what happened and are read by nothing. String keys of the narration files are taken apart into family and token;
a value that is not a string behaves as a blank one.

## Where the code differs from its documentation

- The bond machine is described as counting rejected cycles. `_connect_impl` (ble_client.py:1586-1587) resets the AUTH
  flag of a cycle but not `_last_failure_class`, and `_note_connect_failure` (ble_client.py:2033-2035) falls back to it,
  so a cycle that records no class of its own repeats an old AUTH verdict. `ConnectEvidence.ReportIsOwnOrStale` and
  `ConnectOutage.CountIsRealPlusStale` say exactly when: the count equals the real rejections if and only if no cycle is
  stale and none was rejected before its own handshake. `ConnectEvidence.DestructionRestsOnTwoCycles` carries this to the
  unpair rung of every run. `ConnectOutage.OneRejectionDestroysTheBond` is a concrete outage in which one rejection costs
  the bond.
- A handshake is described as proof that the bond is good. The AUTH flag of its cycle survives it: a cycle that is rejected on one
  rung, handshaken on the next and then fails while the machine is read (ble_client.py:1785-1880) is reported as AUTH
  after the handshake. `ConnectOutage.VerdictOutlivesHandshake` is a run in which one rejected cycle after such a handshake
  costs the bond.
- Wake-ups are documented to be honoured only outside a failure episode (ble_client.py:1906-1913). The counter they are
  tested on returns to zero when the repair callback fires, in the middle of an episode, so the backoff is also cut short
  after every failure that completes the repair threshold, and after an absence. `Reconnect.WakeIsHonouredIff` is the exact
  condition.
- The first success is documented to learn the source that completed the cycle. It learns the source that is read after
  the rung that succeeded. That is the scanner the link was verified on exactly when the rung started with a source, frozen
  for the cycle or adopted before the rung, and no advertisement adopted during the rung changed it
  (`ConnectLearning.LearnedIsVerifiedIff`, `ConnectLearning.UnverifiedSourceIsLearned`).
- The once-per-episode rule for the destructive rung does not survive every restart. The latch lives in memory, and the
  bond document is saved five seconds after a change (__init__.py:1425). `ConnectSafety.DestructionIsNeverDoubled` gives
  the two ways a second request can be sent without a handshake, and `ConnectRestart` a run for each.
- A stored bond document whose state and counter disagree is restored as it stands.
  `BondState.TwoVerdictsIffConsistent` says exactly which documents break the two-verdict rule, counted in AUTH reports
  since the last handshake, and `BondState.MalformedStoreAllowsUnpair` has two of them. A machine that began fresh
  writes none (`BondState.WrittenDocumentsAreConsistent`).
- `complete` is documented as telling every fact of the payload. It tells every planned clause
  (`NarrationSpeech.CompleteLosesNothing`), as far as the template of its head has a place for the details; a component whose value differs from an earlier one of the same family goes
  untold (`NarrationPlan.CompleteOmitsLaterValues`).
- A missing planned key is documented to mark the sentence incomplete. For every other language it does
  (`NarrationSafety.GapMeansEnglish`). For English it does exactly when the key belongs to a clause
  (`NarrationSafety.EnglishReportsClauseGaps`); a missing head that is not spoken goes unreported
  (`NarrationSafety.EnglishGapCanBeComplete`) and changes nothing (`NarrationSafety.UnreportedGapsAreHarmless`).

## Model

| member | source | states |
|---|---|---|
| `Lifecycle.LifecycleDetector.Reset` | custom_components/melitta_barista/lifecycle.py:335-356 | A disconnect empties every latch and starts a new trace. |
| `Lifecycle.LifecycleDetector.Feed` | custom_components/melitta_barista/lifecycle.py:387-429 | The events of a frame are the declarative function `Expected` of every frame since the last reset, and the latches move as the step specification says. |
| `Lifecycle.LifecycleDetector.ExpireStaleBrew` | custom_components/melitta_barista/lifecycle.py:431-451 | A brew older than 30 minutes is dropped silently, with all its latches. |
| `Lifecycle.LifecycleDetector.LatchCancels` | custom_components/melitta_barista/lifecycle.py:455-476 | Cancels are latched while a brew is in flight and at no other time. |
| `Lifecycle.LifecycleDetector.FeedProcess` | custom_components/melitta_barista/lifecycle.py:480-540 | The process edges: end of a procedure, end or start of a brew, start of a procedure, in that order. |
| `Lifecycle.LifecycleDetector.StartBrew` | custom_components/melitta_barista/lifecycle.py:523-550 | A start replaces every brew latch; a record is consumed whether fresh or stale, and captured only when fresh. |
| `Lifecycle.LifecycleDetector.TerminalEvent` | custom_components/melitta_barista/lifecycle.py:552-594 | The terminal event of the latches of this brew, which it empties. |
| `Lifecycle.LifecycleDetector.FeedManipulation` | custom_components/melitta_barista/lifecycle.py:614-668 | The prompt edges of a frame, with silent adoption on the first one. |
| `LifecycleTrace.EventsAreTraceFunction` | custom_components/melitta_barista/lifecycle.py:387-668 | The incremental machine and the trace specification emit the same events on every frame of every sequence: starts, terminals with cancel priority HA, machine, power-off, shapes of exactly the frames from the start in to the terminal out, procedures and prompts. |
| `LifecycleTrace.ShapeFollowsTrace` | custom_components/melitta_barista/lifecycle.py:191-220 | The shape of a finished brew, from the legs its frames reported: steam and coffee or grinding is coffee with milk, either alone milk or coffee, water counts without both, None otherwise; an iff for each, in which preparing says nothing. |
| `LifecycleTrace.TerminalFollowsTrace` | custom_components/melitta_barista/lifecycle.py:552-594 | A terminal event is final exactly when no phase is left of the record captured at the start, and lasts the whole seconds between the two frames. |
| `LifecycleTrace.RaisedPromptSays` | custom_components/melitta_barista/lifecycle.py:636-668 | A raised prompt names the new prompt of its frame, whether it is soft, will be confirmed, and came during a brew. |
| `Domain.CancelIsFourthBit` | custom_components/melitta_barista/coffee_platform/domain.py:50-60 | The machine's cancel is the bit of value 16 of the status byte, whatever the other bits are. |
| `LifecycleTrace.BrewFollowsTrace` | custom_components/melitta_barista/lifecycle.py:455-610 | The brew latches hold exactly what the frames of the open brew say (start time, sub-processes, cancels, captured record) and nothing of an earlier one. |
| `LifecycleTrace.MaintenanceFollowsTrace` | custom_components/melitta_barista/lifecycle.py:505-540 | The procedure latches hold the first frame of the open procedure. |
| `LifecycleTrace.PromptsFollowTrace` | custom_components/melitta_barista/lifecycle.py:614-668 | The prompt latches hold the standing prompt and the frame it has stood since. |
| `LifecycleLedger.ReachableIsCoherent` | custom_components/melitta_barista/lifecycle.py:335-540 | Every reachable state: brewing means last known code PRODUCT with a start time, not brewing means empty brew latches, a procedure means a procedure code; the two exclude each other. |
| `LifecycleLedger.OneFrame` | custom_components/melitta_barista/lifecycle.py:387-429 | One frame in any reachable state emits at most four events, a brew duration is at most 1800 s for arbitrary clock readings, a clear names the standing prompt, and no procedure ends while a brew is in flight. |
| `LifecycleLedger.FourEventsInOneFrame` | custom_components/melitta_barista/lifecycle.py:387-429 | The bound of four events is met by a concrete run. |
| `LifecycleLedger.ReplacementClearsThenRaises` | custom_components/melitta_barista/lifecycle.py:636-668 | A different prompt over a standing one is reported as clear, then raise. |
| `LifecycleLedger.BrewsAreConserved` | custom_components/melitta_barista/lifecycle.py:431-594 | Starts = finished + cancelled + expired + dropped by resets + (1 if brewing), over any run with resets. |
| `LifecycleLedger.PromptsAreConserved` | custom_components/melitta_barista/lifecycle.py:614-668 | Raises + adopted = clears + dropped by resets + (1 if standing), over any run with resets. |
| `HandOff.BrewStage.CancelProcess` | custom_components/melitta_barista/_ble_commands.py:494-515 | Only an acknowledged PRODUCT cancel is recorded, on the staged record and in the separate flag. |
| `HandOff.BrewStage.RecordBrewIntent` | custom_components/melitta_barista/_ble_commands.py:75-105 | The command of an acknowledged brew makes the staging step of the composed system, which `StageIsExact` and `StartOrigin` are about. |
| `HandOff.BrewStage.AnnotateBrewIntent` | custom_components/melitta_barista/ble_client.py:811-824 | Annotating makes the annotation step of the composed system: a staged record gains facts, and nothing is staged when none is. |
| `HandOff.MachineEvent.OnStatus` | custom_components/melitta_barista/event.py:217-241 | The composed step: pop the cancel flag, feed the staged record, pop it exactly when the detector consumed it. |
| `HandOff.MachineEvent.OnConnectionChange` | custom_components/melitta_barista/event.py:243-256 | A disconnect empties the detector, the stage and the flag. |
| `HandOff.DetectorIsOfItsFrames` | custom_components/melitta_barista/event.py:217-256 | The detector has seen exactly the frames since the last disconnect. |
| `HandOff.EventsAreOfItsFrames` | custom_components/melitta_barista/event.py:217-256 | What the entity fires for a status is the trace function of those frames, the last of which carries the status with what was staged and pending. |
| `HandOff.StageIsExact` | custom_components/melitta_barista/ble_client.py:791-846 | The stage holds exactly the last staged record that no newer record, no start and no disconnect removed, with everything recorded on it since. |
| `HandOff.ExtrasMerge` | custom_components/melitta_barista/ble_client.py:811-824 | Each extra key of a staged record has the value of the last annotation that carried it; no other key is there. |
| `HandOff.LastFactsStand` | custom_components/melitta_barista/ble_client.py:811-824 | Its facts are those of the last annotation that has any, else the staged ones. |
| `HandOff.PendingIsExact` | custom_components/melitta_barista/ble_client.py:848-872 | The flag is up exactly when a PRODUCT cancel was acknowledged after the last frame and disconnect. |
| `HandOff.StartOrigin` | custom_components/melitta_barista/lifecycle.py:542-550 | A start says it came from HA exactly when a record staged at most 60 s earlier is waiting, and quotes it. |
| `HandOff.RecordIsUsedOnce` | custom_components/melitta_barista/event.py:217-241 | A record decorates at most one brew: a later HA start has a record of its own, staged after the earlier start. |
| `HandOff.InFlightLatches` | custom_components/melitta_barista/lifecycle.py:467-476 | While a brew is in flight its captured record stands, and a cancel is latched or pending once acknowledged. |
| `HandOff.HaCancelIsExact` | custom_components/melitta_barista/event.py:217-282 | A brew is reported as cancelled by HA exactly when the cancel was acknowledged between its start and terminal frames, or between the staging of its fresh record and its start frame. |
| `BondState.BondStateMachine.OnHandshakeSuccess` | custom_components/melitta_barista/bond_state.py:84-88 | A handshake makes the bond TRUSTED with no counted failure. |
| `BondState.BondStateMachine.OnCycleFailure` | custom_components/melitta_barista/bond_state.py:90-110 | Only an AUTH class counts; it moves towards MISMATCH unless pairing is required. |
| `BondState.BondStateMachine.OnBondDestroyed` | custom_components/melitta_barista/bond_state.py:112-117 | A destruction makes pairing required and is recorded with its trigger. |
| `BondState.RunStaysValid` | custom_components/melitta_barista/bond_state.py:145-181 | Every reachable machine has well-formed stamps and a history of at most 20 entries. |
| `BondState.RestoreIsBisimilar` | custom_components/melitta_barista/bond_state.py:134-163 | A machine restored from its snapshot is the original: same states, answers and history for every future call sequence. |
| `BondState.RestoreIsBestEffort` | custom_components/melitta_barista/bond_state.py:145-163 | A value a field cannot hold costs that field only, which falls back to its default. |
| `BondState.RestoredHistoryIsLatest` | custom_components/melitta_barista/bond_state.py:159-163 | A restored history is the dictionaries among the newest twenty items of the stored list. |
| `BondState.NoiseChangesNothing` | custom_components/melitta_barista/bond_state.py:90-110 | Deleting every non-AUTH failure report from a run changes nothing. |
| `BondState.StateIsExact` | custom_components/melitta_barista/bond_state.py:84-117 | From a fresh machine, the state is exactly determined by the AUTH reports and destructions since the last handshake. |
| `BondState.HistoryIsExact` | custom_components/melitta_barista/bond_state.py:58-181 | From a fresh machine the history is the newest twenty entries of the whole audit trail: one per call that is not noise, with its time, event, and the state and counter the calls lead to. |
| `BondState.StampsAreExact` | custom_components/melitta_barista/bond_state.py:84-117 | Each stamp is the time of the last call of its own kind. |
| `BondState.UnpairNeedsTwoVerdicts` | custom_components/melitta_barista/bond_state.py:119-129 | Destruction is allowed exactly on two AUTH verdicts since the last handshake with no destruction since it. |
| `BondState.TwoVerdictsIffConsistent` | custom_components/melitta_barista/bond_state.py:84-163 | For every stored document: the restored machine allows destruction only on two AUTH reports since the last handshake (while there is none, those a SUSPECT or MISMATCH document attests included), for every future call sequence, exactly when UNKNOWN and TRUSTED carry no count, SUSPECT at least one and MISMATCH at least two. |
| `BondState.WrittenDocumentsAreConsistent` | custom_components/melitta_barista/bond_state.py:134-163 | Every document that a machine which began fresh writes, after any calls, is such a one. |
| `BondState.MalformedStoreAllowsUnpair` | custom_components/melitta_barista/bond_state.py:145-163 | Two documents that break the rule: MISMATCH with a null counter allows destruction at once, TRUSTED with count 1 after a single report. |
| `BleClient.MelittaBleClient.SetBleDevice` | custom_components/melitta_barista/ble_client.py:874-940 | An advertisement is adopted unless a preferred source is set and differs. |
| `ConnectRadio.LastWantedIsCached` | custom_components/melitta_barista/ble_client.py:886-926 | After any advertisements the cached device is that of the last one that came through the affinity, or else the hint, or else anything; nothing else moves. |
| `ConnectRadio.SeparatorsAndCaseAreIgnored` | custom_components/melitta_barista/ble_client.py:86-88 | A separator anywhere or the case of an ASCII letter makes no difference between sources. |
| `ConnectRadio.NormIsCanonical` | custom_components/melitta_barista/ble_client.py:86-88 | Any other character does: texts without separators and capitals are compared as they stand. |
| `BleClient.MelittaBleClient.SetBleSourceAffinity` | custom_components/melitta_barista/ble_client.py:589-616 | A new affinity drops the cached and frozen device of another source. |
| `ConnectRadio.AffinityKeepsItsDevice` | custom_components/melitta_barista/ble_client.py:589-616 | A new affinity keeps a device that came through it, drops a foreign one with the frozen pair, and ends the search a hint stood for; forgetting an affinity drops nothing. |
| `BleClient.MelittaBleClient.TryConnectAndHandshake` | custom_components/melitta_barista/ble_client.py:1088-1350 | One rung: frozen pair, source check before any handshake traffic, failure class. |
| `ConnectSafety.SuspicionIsExact` | custom_components/melitta_barista/ble_client.py:1386-1423 | At every moment of every run a stale bond is suspected exactly outside migration, with the affinity known, on at least two remembered AUTH verdicts since the last handshake and no destruction since it. |
| `BleClient.MelittaBleClient.TryUnpair` | custom_components/melitta_barista/ble_client.py:1435-1564 | Callback first, with advertisements arriving while it is awaited; connect-then-unpair only when it sent nothing. |
| `ConnectLadder.UnpairIs` | custom_components/melitta_barista/ble_client.py:1435-1564 | An unpair counts as sent exactly when the callback raised or answered anything but not-sent, or the fallback link came up on the pinned scanner of a backend that knows the call. |
| `ConnectLadder.UnpairIsRecorded` | custom_components/melitta_barista/ble_client.py:1435-1564 | The bond machine hears of exactly those requests, by who sent them and whether they were confirmed. |
| `BleClient.MelittaBleClient.Connect` | custom_components/melitta_barista/ble_client.py:1253-1284 | Freeze, climb, and drop a rejected hint at the end. |
| `ConnectLadder.ConnectsIff` | custom_components/melitta_barista/ble_client.py:1253-1889 | A cycle connects exactly when the link is alive already, or the machine can be read and the first rung that is reached and does not fail completes; the third is reached exactly after two failures, with the gates open, once a request may have left. |
| `ConnectLadder.RequestIff` | custom_components/melitta_barista/ble_client.py:1641-1743 | A cycle logs a request exactly when the third rung is reached, and a rung follows every request in the same cycle. |
| `ConnectLadder.RequestsAreFollowed` | custom_components/melitta_barista/ble_client.py:1671-1743 | In every run each destructive request is followed by another rung of the same cycle. |
| `ConnectLadder.CycleRemembers` | custom_components/melitta_barista/ble_client.py:1586-1743 | What a cycle remembers of its failures, read off the script: a rejection on some reached rung, and the last class any of them recorded. |
| `ConnectRadio.RejectedHintIsDropped` | custom_components/melitta_barista/ble_client.py:1253-1284 | As long as no source is learned, a hint is given up exactly when a rung of a cycle frozen on its own source was rejected, and then with the cached device; the frozen pair is released in any case. |
| `BleClient.MelittaBleClient.ConnectImpl` | custom_components/melitta_barista/ble_client.py:1566-1889 | One cycle: reset of the AUTH flag, ladder, bookkeeping of a success. |
| `BleClient.MelittaBleClient.ClimbLadder` | custom_components/melitta_barista/ble_client.py:1596-1743 | pair=False, pair=True, at most one unpair, pair=True. |
| `BleClient.MelittaBleClient.HandshakeComplete` | custom_components/melitta_barista/ble_client.py:1746-1784 | A success begins a new failure episode (counters, classes, absence, latch) and may learn the source. |
| `BleClient.MelittaBleClient.NoteConnectFailure` | custom_components/melitta_barista/ble_client.py:2021-2072 | Counts a failed cycle, adds its class to the episode and reports it (LINK in place of AUTH while migrating), fires the repair at the threshold. |
| `ConnectLadder.ReportIs` | custom_components/melitta_barista/ble_client.py:2033-2045 | The class a failed cycle is reported with: AUTH (a lost link while migrating) when a reached rung was rejected or nothing newer than an old rejection was recorded, else the last class recorded. |
| `ConnectLadder.MigrationSparesTheBond` | custom_components/melitta_barista/ble_client.py:2036-2045 | While migrating no failure counts against the bond that is being replaced. |
| `BleClient.MelittaBleClient.EpisodeLooksLikePowerOff` | custom_components/melitta_barista/ble_client.py:1980-2019 | The tests that suppress a repair for a machine that was simply switched off. |
| `ConnectSafety.AtMostOneRequest` | custom_components/melitta_barista/ble_client.py:1435-1564 | One unpair attempt sends at most one destructive request and sets the episode latch exactly when it may have. |
| `ConnectSafety.RunIsSafe` | custom_components/melitta_barista/ble_client.py:1566-1784 | The invariant of every run of cycles, advertisements, failure notes, link losses, saves and restarts from storage. |
| `ConnectSafety.CycleIsSafe` | custom_components/melitta_barista/ble_client.py:1253-1784 | One whole connect cycle, whatever the radio does, keeps the invariant and a known affinity. |
| `ConnectSafety.DestructionIsNeverDoubled` | custom_components/melitta_barista/ble_client.py:1641-1754 | Two destructive requests with no handshake in between are separated by a restart, and the later one was sent while migrating or the restart lost the record of the earlier one because no save had fired since. |
| `ConnectRestart.MigrationRestartDoubles` | custom_components/melitta_barista/ble_client.py:1641-1680 | A run with a restart while migrating: two destructive requests, no handshake in between. |
| `ConnectRestart.UnsavedRestartDoubles` | custom_components/melitta_barista/__init__.py:1414-1446 | A run outside migration whose destruction was not saved before the restart: two destructive requests, no handshake in between. |
| `ConnectSafety.DestructionIsJustified` | custom_components/melitta_barista/ble_client.py:1386-1423 | The unpair rung runs only while migrating on an AUTH rejection of the target, or with known affinity and at least two remembered AUTH verdicts since the last handshake. |
| `ConnectSafety.MemoryIsTheHistory` | custom_components/melitta_barista/__init__.py:1414-1446 | What the client remembers is everything that happened, when no restart lost a bond call. |
| `ConnectSafety.LinksStayOnAffinity` | custom_components/melitta_barista/ble_client.py:1124-1191 | Every link that carries handshake traffic was verified on its pinned source, and on the affinity once one is known. |
| `ConnectSafety.CyclesNeverRoam` | custom_components/melitta_barista/ble_client.py:1253-1284 | A cycle that starts with a device and a source uses that pair on every rung and learns no other source. |
| `ConnectSafety.AffinityIsForever` | custom_components/melitta_barista/ble_client.py:589-616 | Once known, the affinity never changes while the client lives, and the cached device is absent or on it. |
| `ConnectEvidence.ReportIsOwnOrStale` | custom_components/melitta_barista/ble_client.py:2033-2045 | Outside migration a failed cycle is reported as AUTH exactly in three exclusive cases: it was rejected with no handshake after it, it was rejected and then got a handshake through, or it recorded no class while an older AUTH is still remembered. |
| `ConnectEvidence.DestructionRestsOnTwoCycles` | custom_components/melitta_barista/ble_client.py:1386-1423 | In every run that notes each failed cycle once, at every unpair rung outside migration four numbers total at least two: the cycles rejected since the last remembered handshake (the one in flight included), those rejected before that handshake in its own cycle, the stale ones, and the reports from before the run; with the last three zero, the machine rejected two cycles since the handshake. |
| `ConnectEvidence.NotesAreOfDistinctCycles` | custom_components/melitta_barista/ble_client.py:2021-2045 | In such a run two noted failures are of two different cycles. |
| `ConnectEvidence.ReportsAreTallied` | custom_components/melitta_barista/ble_client.py:2033-2045 | Whatever was saved or lost, the remembered AUTH reports are at most the rejected and stale cycles remembered. |
| `ConnectEvidence.PowerOffIsExact` | custom_components/melitta_barista/ble_client.py:1980-2019 | In every run an episode passes for a power-off exactly when something was noted since the last handshake, all of it timeouts and lost links, and the device is off the air. |
| `ConnectOutage.CountIsRealPlusStale` | custom_components/melitta_barista/ble_client.py:2021-2045 | Over an outage of failed cycles, handshaken ones included, with any events between them: the counter is what it was, or 0 since a handshake, plus the cycles rejected since that handshake, those rejected before it in its own cycle, and the stale ones. |
| `ConnectOutage.OneRejectionDestroysTheBond` | custom_components/melitta_barista/ble_client.py:1586-1587 | A concrete outage with one rejected cycle ends with the bond destroyed, through a stale report. |
| `ConnectOutage.VerdictOutlivesHandshake` | custom_components/melitta_barista/ble_client.py:1785-1880 | A concrete outage: a cycle rejected, then handshaken, then failed while the machine is read leaves a count of 1, and one rejected cycle after it destroys the bond, with nothing stale and nothing from before. |
| `ConnectLearning.FirstSuccessLearns` | custom_components/melitta_barista/ble_client.py:1765-1770 | On whatever rung it comes, a first success learns the source that is read after that rung. |
| `ConnectLearning.MigrationEndsIff` | custom_components/melitta_barista/ble_client.py:1765-1768 | A cycle ends a migration exactly with a handshake after which a source can be read. |
| `ConnectLearning.LearnedIsVerifiedIff` | custom_components/melitta_barista/ble_client.py:1121-1186 | Whatever scanner the rung comes up on is the one learned, exactly when the rung started with a source and no advertisement adopted during it changed the one that is read. |
| `ConnectLearning.AdoptedSourceHolds` | custom_components/melitta_barista/ble_client.py:1121-1122 | In a cycle frozen without a source, that is: the device adopted before the rung has a source and the one adopted last agrees with it. |
| `ConnectLearning.UnverifiedSourceIsLearned` | custom_components/melitta_barista/ble_client.py:1765-1770 | For a success on the first rung with no hint: the rung without a source comes up anywhere, and the source of the last advertisement that arrived meanwhile is learned. |
| `Reconnect.FailuresWrapAtThreshold` | custom_components/melitta_barista/ble_client.py:2046-2066 | After n failed cycles since the last handshake of an outage, with any events between them, threshold k and the callback installed: n = k * fired + counter, 0 <= counter < k; otherwise the counter is n. |
| `BleClient.MelittaBleClient.WaitBackoff` | custom_components/melitta_barista/ble_client.py:1903-1932 | The waiting loop computes `Reconnect.Wait`: advertisements move the device, and an honoured one clears the absence. |
| `Reconnect.FirstWakeDecides` | custom_components/melitta_barista/ble_client.py:1903-1932 | The wait ends early exactly when its first advertisement comes before the deadline and meets counter 0 or an absence; nothing else of the episode changes. |
| `Reconnect.WaitHears` | custom_components/melitta_barista/ble_client.py:1903-1932 | A wait that is ended hears the advertisement that ends it, any other one all those before its deadline. |
| `BleClient.MelittaBleClient.ShouldAttemptConnect` | custom_components/melitta_barista/ble_client.py:1934-1978 | The presence gate: closed, noting the absence, while the scanner of the affinity is unavailable, or the machine is absent and no scanner starves. |
| `Reconnect.GateOpensIff` | custom_components/melitta_barista/ble_client.py:1934-1978 | An attempt is made unless the scanner of a known affinity is away, or the machine is off the air and no scanner is starved; a refusal notes an absence and only that. |
| `BleClient.MelittaBleClient.ReconnectLoop` | custom_components/melitta_barista/ble_client.py:2074-2121 | Driven by the client: waits, wake-ups, gate, attempts and notes are those of `Reconnect.Reconnecting`, which serves the closed-form delays. |
| `Reconnect.WaitsAreDelays` | custom_components/melitta_barista/ble_client.py:2085-2121 | Every delay served is min(base * 2^m, max), m turns after the last honoured wake-up, or max since pairing became required; always in [base, max]. |
| `Reconnect.WakeIsHonouredIff` | custom_components/melitta_barista/ble_client.py:1903-1932 | In the reconnect loop, for every history of rounds: an advertisement before the deadline is honoured exactly when an absence was noted since the last wake-up and handshake, or the failed attempts since that handshake are a multiple of the repair threshold. |
| `Reconnect.FirstWakeIsHonouredIff` | custom_components/melitta_barista/__init__.py:1734-1780 | The same for the initial-connect loop, whose attempt comes before the wait of its turn. |
| `InitialConnect.ConnectAndPoll` | custom_components/melitta_barista/__init__.py:1734-1780 | The initial-connect loop on the same client computes `Reconnect.Connecting`: a lost bond slows down the very next wait. |
| `RepairThrottle.CircuitBreaker.TriggerRepair` | custom_components/melitta_barista/__init__.py:1459-1534 | The card is raised exactly when no migration is pending and the episode does not look like a power-off; the proxy is reloaded exactly when, besides, its proven owner is not rejected and fewer than three reloads of the full history lie within the hour. |
| `RepairThrottle.AnyHourHoldsThreeReloads` | custom_components/melitta_barista/__init__.py:1518-1534 | Any window of 3600 s of the full history, wherever it starts, holds at most three reloads. |
| `RepairThrottle.PruningComposes` | custom_components/melitta_barista/__init__.py:1518-1522 | Pruning a pruned list loses nothing a later pruning of the full history keeps. |
| `RepairThrottle.RecentIsExact` | custom_components/melitta_barista/__init__.py:1518-1522 | Pruning keeps exactly the times within the window, as many as there are. |
| `RepairThrottle.DisconnectTracker.TrackConnection` | custom_components/melitta_barista/__init__.py:1606-1629 | Warns exactly when the full history holds five disconnects of the last hour. |
| `RecipeCache.BleRecipes.RefreshRecipeCache` | custom_components/melitta_barista/_ble_recipes.py:566-627 | For any read failures and any timeout point, the caches become the overlay of the successful reads, and the status reports them; complete iff every expected slot was read. |
| `RecipeCache.OverlayIsExact` | custom_components/melitta_barista/_ble_recipes.py:585-610 | Each slot holds its fresh recipe if its read succeeded and its previous value otherwise; the generation grows by the number of successes. |
| `RecipeCache.CompleteIff` | custom_components/melitta_barista/_ble_recipes.py:617-620 | Both counts meet their expectation exactly when every slot was read. |
| `RecipeCache.FreshIsCardinality` | custom_components/melitta_barista/_ble_recipes.py:585-620 | The counts of a report are the numbers of successful reads. |
| `RecipeCache.SlotsAreExactly` | custom_components/melitta_barista/_ble_recipes.py:576-610 | A refresh reads exactly the recipes of the model and seven categories of each of its profiles: four on a T, eight otherwise, and the one without a user. |
| `RecipeCache.BleRecipes.StoreRefreshedRecipe` | custom_components/melitta_barista/_ble_recipes.py:99-122 | For every integer id: its own base slot, the one DirectKey slot whose id it is, or nothing. |
| `RecipeCache.BleRecipes.ReadRecipeWithRetries` | custom_components/melitta_barista/_ble_recipes.py:529-542 | The first recipe within the bounded number of attempts made while connected. |
| `RecipeCache.FirstSuccessIff` | custom_components/melitta_barista/_ble_recipes.py:529-542 | A recipe is read exactly when one of the first n attempts gave it, with the link up at each and nothing before. |
| `RecipeCache.ResultIff` | custom_components/melitta_barista/_ble_recipes.py:529-610 | In a refresh that number is the retries, and at least one. |
| `RecipeCache.GetAvailableRecipes` | custom_components/melitta_barista/const.py:393-397 | Exactly the recipe ids of the machine, increasing; only the T model lacks three. |
| `BrandStats.BrandStatsCoordinator.RequestRefresh` | custom_components/melitta_barista/_brand_stats.py:72-80 | Joins the running pass or starts one; remembers a follow-up. |
| `BrandStats.BrandStatsCoordinator.OnStatus` | custom_components/melitta_barista/_brand_stats.py:83-87 | A busy-to-ready edge asks for a follow-up. |
| `BrandStats.BrandStatsCoordinator.OnConnection` | custom_components/melitta_barista/_brand_stats.py:90-98 | A connection asks for a pass, a disconnect cancels it. |
| `BrandStats.BusyIsAnnounced` | custom_components/melitta_barista/_brand_stats.py:60-98 | Over every run of an open coordinator: it believes the machine busy exactly when the last announcement (a status, or a connection that met the stored status busy; before any, the initial status) left it so; client, descriptors and flags are those the actions announced. |
| `BrandStats.DisconnectStopsReading` | custom_components/melitta_barista/_brand_stats.py:90-126 | A disconnect or a shutdown leaves no live task and no follow-up. |
| `BrandStats.BrandStatsCoordinator.CancelRefresh` | custom_components/melitta_barista/_brand_stats.py:122-126 | The held task is cancelled and forgotten, the follow-up dropped. |
| `BrandStats.BrandStatsCoordinator.Resume` | custom_components/melitta_barista/_brand_stats.py:100-120 | The part of the refresh task between two awaits. |
| `BrandStats.AtMostOneLiveTask` | custom_components/melitta_barista/_brand_stats.py:72-126 | At every moment of every run at most one task is alive, the one the coordinator holds. |
| `BrandStats.ReadsOnlyWhenReadable` | custom_components/melitta_barista/_brand_stats.py:100-110 | A task that ran and waits for a read found the machine connected and not busy; nothing else makes a task wait. |
| `BrandStats.NoFollowUpIsLost` | custom_components/melitta_barista/_brand_stats.py:83-120 | When a ready status follows a busy announcement, with descriptors and a live link, and the machine stays readable and the coordinator open, a pass that starts after that status is due; once no task runs, one has read every descriptor. |
| `BrandStats.FollowUpsCoalesce` | custom_components/melitta_barista/_brand_stats.py:72-120 | However many edges asked for it, exactly one more pass follows, and the refresh task ends after exactly the reads that remain. |
| `BrandStats.PassesAreRequested` | custom_components/melitta_barista/_brand_stats.py:72-126 | Over any run: accepted requests = passes started + owed + joined to a pass already owed + dropped by a disconnect, a shutdown or an unreadable machine; so passes never outnumber accepted requests. |
| `BrandStats.ValuesComeFromReads` | custom_components/melitta_barista/_brand_stats.py:108-114 | Over any run the values are what the successful reads left there. |
| `NarrationText.BraceFreeIffWellFormed` | custom_components/melitta_barista/narration.py:410-435 | With brace-free values a filled template is brace-free exactly when all its braces belong to placeholders. |
| `NarrationText.SinglePass` | custom_components/melitta_barista/narration.py:425-435 | A placeholder anywhere in a template becomes its value, copied and never scanned again, or vanishes; the text around it is filled as if it stood alone. |
| `NarrationText.SubstituteSplits` | custom_components/melitta_barista/narration.py:425-435 | Substitution goes piece by piece wherever no placeholder is cut. |
| `FreeText.Speak` | custom_components/melitta_barista/narration.py:438-466 | The cleaning loop computes the specified text. |
| `FreeText.SpeakableIsClean` | custom_components/melitta_barista/narration.py:438-466 | Every result is empty, or free of silent and dropped characters, single-spaced, without edge punctuation, within its limit and with an alphanumeric. |
| `FreeText.FixedPointsAreClean` | custom_components/melitta_barista/narration.py:438-466 | The texts that pass unchanged are exactly those and the empty one. |
| `FreeText.SpeakableKeepsLetters` | custom_components/melitta_barista/narration.py:438-466 | Nothing else is lost: all spoken letters in order but for edge punctuation, whole or cut at the last space within the limit, and nothing only when no alphanumeric is left. |
| `FreeText.SpeakableIsIdempotent` | custom_components/melitta_barista/narration.py:438-466 | Cleaning twice is cleaning once. |
| `NarrationPlan.PlanBrew` | custom_components/melitta_barista/narration.py:598-674 | The planning loops, sort and cut compute the specified plan. |
| `NarrationPlan.ValueToken` | custom_components/melitta_barista/narration.py:555-582 | The first component that speaks for the family and states no default decides; none does exactly when there is no such component. |
| `NarrationPlan.ClausesAreInSlotOrder` | custom_components/melitta_barista/narration.py:616-654 | Clauses are planned in slot order with distinct slots, so the sort is the identity; their values hold no brace. |
| `NarrationPlan.BudgetDropsTheTail` | custom_components/melitta_barista/narration.py:654-657 | The six-clause cut drops exactly the clauses of the last slots and reports incompleteness. |
| `NarrationPlan.CompleteOmitsLaterValues` | custom_components/melitta_barista/narration.py:555-582 | What a complete plan leaves out of the values its components state: exactly those that differ from the first one stated in their family. |
| `NarrationPlan.RoundHalfEven` | custom_components/melitta_barista/narration.py:469-481 | Volumes are rounded to the nearest integer, halves to even. |
| `NarrationPlan.DecimalReads` | custom_components/melitta_barista/narration.py:586-596 | Read back, the numeral of n is n, with no leading zero. |
| `NarrationFacts.ClausesAreExact` | custom_components/melitta_barista/narration.py:512-654 | The clauses of a finished brew are exactly these: the phase of a drink in several, the first two components with what can be said of their amounts, the first stated value of each family when it is known, two cups, the profile. |
| `NarrationFacts.PlanIsCompleteIff` | custom_components/melitta_barista/narration.py:598-674 | A finished brew is planned as complete exactly when it has at most two components and six clauses, all of each component can be said, and every stated value is known. |
| `NarrationFacts.PlannedIff` | custom_components/melitta_barista/narration.py:676-712 | An event has a plan exactly when its kind is known, a finished procedure has a sentence, and a finished brew lists no component whose process cannot be looked up. |
| `NarrationFacts.EventTypeComesFirst` | custom_components/melitta_barista/narration.py:873-880 | The kind of an event is that of its type; the payload is asked only when there is none. |
| `NarrationFacts.BlankIsMissing` | custom_components/melitta_barista/narration.py:719-724 | A template of whitespace only is as good as none. |
| `NarrationFacts.DetectorAndNarratorAgree` | custom_components/melitta_barista/lifecycle.py:147-175 | The procedures the detector reports are exactly those with a sentence, and its shapes exactly those the narrator knows. |
| `NarrationFacts.EventsKeepTheirKind` | custom_components/melitta_barista/narration.py:676-712 | Every event of the detector is told as what it is. |
| `Narration.SpeakClauses` | custom_components/melitta_barista/narration.py:800-814 | The clause loop: the spoken texts in slot order, the missing keys, and whether every clause was spoken. |
| `Narration.ComposeSentence` | custom_components/melitta_barista/narration.py:780-870 | The composition loop computes the specified sentence, its missing keys and its completeness. |
| `NarrationSpeech.TextIsSaid` | custom_components/melitta_barista/narration.py:816-870 | The text is the template of its head with the drink, the joined clauses and the spoken label each in its own place, single-spaced and stripped: for every template in pieces. |
| `NarrationSpeech.EverySentenceIsSaid` | custom_components/melitta_barista/narration.py:816-990 | So with well-formed templates every rendered sentence says the pieces of its head, from the maps that were used. |
| `NarrationSpeech.ClausesAreSaid` | custom_components/melitta_barista/narration.py:800-814 | When every clause was spoken, the texts are those of the clauses one by one, each its template with its own values. |
| `NarrationSpeech.DrinkIsHeard` | custom_components/melitta_barista/narration.py:816-870 | The name of the drink is heard word for word wherever the template of the head has its placeholder. |
| `NarrationSpeech.OneSpacedIsExact` | custom_components/melitta_barista/narration.py:856-858 | The text is single-spaced, and a single-spaced text stays as it is. |
| `NarrationSafety.NoCodeSwitching` | custom_components/melitta_barista/narration.py:949-975 | A sentence labelled with a language other than English takes its head and every clause from that one map; only drink names of the English map can reach it. |
| `NarrationSafety.GapMeansEnglish` | custom_components/melitta_barista/narration.py:949-990 | Corollary of the guard: for a language other than English, a missing planned key yields no text, or a wholly English sentence marked incomplete that depends on nothing else of the locale. |
| `NarrationSafety.LabelIsExact` | custom_components/melitta_barista/narration.py:949-990 | Corollary: the label is the locale exactly when no planned key is missing and the sentence can be composed there. |
| `NarrationFacts.LocaleIsSpoken` | custom_components/melitta_barista/narration.py:949-990 | An event is told in the locale of the home whenever that has every planned key and can compose the sentence. |
| `NarrationSafety.EnglishGapCanBeComplete` | custom_components/melitta_barista/narration.py:975-983 | For English itself a missing planned key can go unreported: a concrete case. |
| `NarrationPlan.PlansAreSound` | custom_components/melitta_barista/narration.py:598-712 | Every plan of every payload satisfies what the composition theorems assume of a plan; no clause value and no free name holds a brace. |
| `Narration.FirstNonEmpty` | custom_components/melitta_barista/narration.py:766-777 | The drink name is the first candidate that can be spoken, and empty exactly when none can. |
| `NarrationSafety.CandidatesAreChained` | custom_components/melitta_barista/narration.py:766-777 | For each key of the payload in order: the spoken name of the locale, the English one, the UI label. |
| `NarrationFacts.RecipeNamesTheDrink` | custom_components/melitta_barista/narration.py:766-777 | With a recipe key the drink is called what the locale calls that recipe, else what English does, else the title of the user interface. |
| `NarrationFacts.FirstSoundIsTheDrink` | custom_components/melitta_barista/narration.py:766-777 | The first candidate that can be spoken is the drink, and the typed name only when there is none. |
| `NarrationSafety.FlagIsExact` | custom_components/melitta_barista/narration.py:798-870 | A sentence is complete exactly when its plan was, every clause was spoken, and no asked-for shape sentence was missing. |
| `NarrationSafety.EnglishReportsClauseGaps` | custom_components/melitta_barista/narration.py:949-983 | For English a missing planned key is reported exactly when it belongs to a clause; the others are heads that are not spoken. |
| `NarrationSafety.UnreportedGapsAreHarmless` | custom_components/melitta_barista/narration.py:816-870 | Had such a head been there, with any text, the result would be the same. |
| `NarrationSafety.HeadSlotsAreFilled` | custom_components/melitta_barista/narration.py:816-850 | Which head is spoken, as an iff for each: with the drink, the detail, both, the prompt or neither, and a shape sentence exactly for a finished brew of which nothing else is known and whose language has it. |
| `NarrationSpeech.CompleteLosesNothing` | custom_components/melitta_barista/narration.py:598-870 | A sentence of a finished brew marked complete, in any language, tells every clause planned for the payload; with any clause it has a detail head, and where the template of that has its placeholder all the clauses are heard in the text. |
| `NarrationSafety.SlotsAreBraceFree` | custom_components/melitta_barista/narration.py:798-850 | Whatever the user text, no slot of a head holds a brace. |
| `NarrationSafety.BraceTestIsExact` | custom_components/melitta_barista/narration.py:856-863 | The brace rejection fires exactly for a head template that is not well formed. |
| `NarrationSafety.OnlyTheHeadCanFail` | custom_components/melitta_barista/narration.py:852-870 | With well-formed templates a sentence fails exactly for a missing or blank head. |
| `NarrationSafety.EventIsSilentIff` | custom_components/melitta_barista/narration.py:881-990 | With well-formed templates an event gets no sentence exactly when it has no plan, or neither its gap-free locale nor English has a head to say. |
| `NarrationSafety.EventsNeverSwitchCode` | custom_components/melitta_barista/narration.py:881-990 | The sentence of an event labelled with a language other than English is that language only. |

## Left out

- Payload rendering: the key-by-key dictionaries of lifecycle events (`_intent_payload`, `_components_payload`,
  `_total_ml`) are one constructor per event type; they would add easy members only.
- The detector's change callback and `state_snapshot`.
- Task cancellation in the connect code, and exceptions outside the classes the code handles there; a cancelled
  statistics task is modelled.
- The raw client path of `_establish_connection`, D-Bus and proxy calls, the brew lock and polling.
- `BleClient.MelittaBleClient.SetBleDevice`: the record of seen sources, and the start of a reconnect loop when none runs; the
  wake-up of a running one is the `Wake` of `BleClient.MelittaBleClient.WaitBackoff`.
- `BleClient.MelittaBleClient.ConnectImpl`: the device information, firmware and cached data read after a handshake; one
  flag of the cycle script says whether that phase fails.
- `BleClient.MelittaBleClient.HandshakeComplete`: the callback that persists a learned source.
- `ConnectSafety.RunIsSafe`: a restart comes between cycles, and a save inside a cycle is modelled where it can matter,
  between the unpair and the end of the ladder; a crash inside a cycle is not.
- `ConnectSafety.DestructionIsJustified`: evidence the client restored from an older save counts as evidence; it is what
  happened when nothing was lost (`ConnectSafety.MemoryIsTheHistory`).
- The `_external_loop_active` and `_auto_reconnect` flags, which decide which reconnect loop runs, not what it does.
- `BleClient.MelittaBleClient.ReconnectLoop`: the gate's callbacks answer freely, and nobody else connects or disconnects
  the client while the loop runs.
- `ConnectLearning.UnverifiedSourceIsLearned`: the witness family is a success on the first rung with no hint; the exact
  condition on every rung is `ConnectLearning.LearnedIsVerifiedIff`.
- `ConnectSpec.Lower`: only ASCII letters are lower-cased, while the source lower-cases any text; scanner sources are MAC
  addresses and adapter names.
- `HandOff.BrewStage.AnnotateBrewIntent`: annotations that replace components, the staging time or the cancel mark.
- `RecipeCache.BleRecipes.RefreshRecipeCache`: no other writer runs between two reads, so the generation counts this
  refresh alone; the subscribers other than the client's own cache, and the shared task of `refresh_recipes`, are not
  modelled.
- `BrandStats.FollowUpsCoalesce`: for a task left alone until it ends; `BrandStats.PassesAreRequested` is the bound over
  every run.
- `BrandStats.NoFollowUpIsLost`: listeners are total and call nothing back, and `async_create_task` starts the refresh later
  or at once, which the model covers as one resumed at once.
- `FreeText.SpeakableIsIdempotent`: a second normalisation, which could compose characters anew.
- `FreeText.Speakable`: Unicode normalisation; character categories, whitespace and alphanumerics are parameters of
  which only the space character is assumed.
- Non-finite volumes, and the `str` of a mapping or number handed to a placeholder: narration substitutes strings only.
- The loading of narration and UI string files, and the order of `missing_keys`, which is a set here.
- Timestamps of audit entries are numbers; JSON text encoding is not modelled.
- Scanner reach, the pairing agent, config flow, entity platforms, the panel, recipe generation, protocol codecs and
  brand internals.
