# Verification of Loonext's call switch, capacity driver and scan engines

A Dafny model of the parts of the Loonext repository that decide something hard, and proofs about them.

* **The call switch** (`VoiceSpec`, `Cascade`, `CascadeLog`, `CascadeOrder`, `CascadeRoutes`, `VoiceHistory`,
  `VoiceInvariants`, `VoiceRuns`, `VoiceTheorems`, `VoiceEffects`, `VoiceReplays`, `VoiceOrphans`, `VoiceModel`).
  Telephone legs ring, are answered, bridged, parked, transferred, recorded and hung up, by people at the far end and
  by commands with idempotency keys. `VoiceModel` is the switch as mutable legs and maps; each of its methods is
  proved to do what a function of `VoiceSpec` says. The theorems are about those functions: what each operation
  answers and does, when an answered transfer target is bridged, what a hang-up takes with it and announces, how far
  its outcome depends on the order the legs were made in, what every run keeps, what a replayed command changes, and
  when a transfer leaves a phone ringing for nobody.
* **The session objects and the drain** (`SessionsSpec`, `CallSessions`). The stand-in for the call session namespace
  and the loop that delivers the switch's events through it, run against the mutable switch. What a session object
  does when it runs is whatever an arbitrary finite script says.
* **The capacity driver** (`CapacityBudget`, `CapacityWorld`, `CapacityApi`, `RealtimeHistory`, `CapacityRealtime`,
  `CapacityRamp`, `CapacityLevels`, `CapacityRun`, `CapacityLeak`, `CapacitySlow`). Ramps of API requests and Realtime
  connections, with a confirmation protocol behind every suspect level, against services that may answer anything, at
  any time, or never.
* **The Swift scan** (`SwiftBlocks`, `SwiftTaint`, `SwiftReach`). Two brace walks in opposite directions, two
  fixpoints and a worklist.
* **The JSONC reader** (`Jsonc`, `JsoncTokens`), **the PNG writer** (`Crc`, `Png`) and **the database-pressure
  protocol** (`DbPressure`, `DbInterleavings`).

Six properties hold only under a condition. Each is proved with its condition, and an input that fails is proved to
fail: a transfer can leave its new target ringing for a leg that is over (`VoiceOrphans.TransferCanOrphan`); the order
legs were inserted in can decide the hang-up causes of contested legs (`CascadeOrder.CausesDependOnOrder`); a capacity
run whose control or confirmation dwell breaks leaves a connection open (`CapacityLeak.BrokenControlDwellLeaks`); the
two brace walks agree only on a header that opens more than it closes (`SwiftBlocks.BraceBelowDisagrees`); the
trailing-comma pass edits string literals (`JsoncTokens.LiteralLosesComma`); a chunk longer than its length field is
not read back (`Png.LongChunkIsLost`).

`Basics` holds the few steps of arithmetic and sequences that several modules spell out.

`dafny verify dfyconfig.toml` checks everything.

## Model

| member | source | states |
|---|---|---|
| `Cascade.EndLegCascade` | apps/api/e2e/fake-telnyx-voice.ts:336-368 | Ending a live leg ends exactly the least set that holds it and is closed under "bridged partner that did not ask to be parked" and "transfer target still ringing for a member"; those legs lose bridge and recording, a surviving partner is unbridged, no other leg changes. The mutual recursion terminates because the set of live legs shrinks. |
| `CascadeLog.EndLegLog` | apps/api/e2e/fake-telnyx-voice.ts:348-368 | The hang-ups of a cascade in the order they are announced: the ended leg first with the given cause, then every other leg that goes, each for a reason given by the legs over before it: "normal_clearing" iff its bridge partner is over and it did not ask to be parked, otherwise "originator_cancel" by an origin that is over and whose targets listed earlier are over too. |
| `CascadeLog.EndLegTells` | apps/api/e2e/fake-telnyx-voice.ts:348-407 | A hang-up emits exactly one `call.hangup` for each leg that goes, followed by `recording.saved` for the recording that leg had open, and nothing else; each record has the cause announced; those recordings are kept as their legs', and no others change (an open recording having one leg, as `RecordingsAreOwned` says it has in every run). |
| `CascadeOrder.OrderDoesNotMatter` | apps/api/e2e/fake-telnyx-voice.ts:363-367 | Two switches alike but for the insertion order of their legs: a hang-up ends the same legs, leaves every leg alike up to its cause, keeps the same recordings, ledger and ids, and emits the same multiset of events up to causes. A leg is contested when both ends of its bridge ring for legs that end, neither for the other; every other leg gets one and the same cause, read off the state before the call, and where no leg is contested the legs are equal and so are the multisets of events. |
| `CascadeOrder.CauseSettled` | apps/api/e2e/fake-telnyx-voice.ts:336-368 | The cause of a leg that is not contested, in every log of the cascade, as a function of the legs before it. |
| `CascadeOrder.SiblingsDisagree` | apps/api/e2e/fake-telnyx-voice.ts:363-367 | For a contested leg whose partner rings for the same leg, swapping the two in the insertion order changes its cause. |
| `CascadeRoutes.CausePossible` | apps/api/e2e/fake-telnyx-voice.ts:336-368 | Of the two ends of a bridge, a hang-up reaches a given one first in some insertion order, and leaves the causes that follow from that, iff there is a route to it, read off the legs before the call: by the dropped partner where its side of the cascade holds either end, otherwise by any ringing target, never by the other end. |
| `CascadeRoutes.OrderDecides` | apps/api/e2e/fake-telnyx-voice.ts:363-367 | Every insertion order leaves the same legs, causes included, iff there are no two bridged legs each of which has a route that avoids the other. |
| `CascadeOrder.CausesDependOnOrder` | apps/api/e2e/fake-telnyx-voice.ts:363-367 | A state reached by four operations (a call transferred twice, its two ringing targets bridged) in which the order decides whether a target is cancelled or dropped. |
| `Cascade.UnbridgeEnds` | apps/api/e2e/fake-telnyx-voice.ts:336-346 | Splitting the bridge of a leg that stays on ends the least closed set around the dropped partner, and bridges still pair up. |
| `Cascade.CutInvolution` | apps/api/e2e/fake-telnyx-voice.ts:336-368 | Cutting out a closed set of legs keeps `bridgedWith` a pairing of live legs. |
| `VoiceRuns.BridgeKeeps` | apps/api/e2e/fake-telnyx-voice.ts:409-419 | `bridge` keeps every invariant even when splitting an old bridge cascades into one of the two legs being joined. |
| `VoiceRuns.PerformKeeps` | apps/api/e2e/fake-telnyx-voice.ts:440-712 | Every far-end action, command, take and reset keeps the whole invariant: pairing, register, ledger, peaks and chronicle. |
| `VoiceTheorems.BridgesPairUp` | apps/api/e2e/fake-telnyx-voice.ts:336-419 | In every state a run reaches, A names B iff B names A, both are live, and every named leg exists. |
| `VoiceTheorems.HistoryWellFormed` | apps/api/e2e/fake-telnyx-voice.ts:269-429 | In every run each leg's events start with its one `call.initiated`, hold at most one `call.answered`, exactly one `call.hangup` iff the leg is over, media only after an answer and before the hang-up, and after it at most one saved recording; no ended leg keeps an open recording. |
| `VoiceTheorems.RecordingsAreOwned` | apps/api/e2e/fake-telnyx-voice.ts:608-615 | In every run an open recording belongs to one leg only, and that leg is answered. |
| `VoiceTheorems.LedgerIsTrue` | apps/api/e2e/fake-telnyx-voice.ts:242-254 | In every run `dials + farEndLegs` is the number of legs, and the peaks, sampled only when a leg is made, are the true maxima over every moment since the reset, attained at some moment; peak outbound is at most both `dials` and peak live. |
| `VoiceHistory.PeakIsMaximum` | apps/api/e2e/fake-telnyx-voice.ts:246-254 | The peak read off a history is reached by one of its prefixes and exceeded by none. |
| `VoiceHistory.PhaseReads` | apps/api/e2e/fake-telnyx-voice.ts:269-429 | The automaton behind the event rules accepts exactly what the list of rules describes. |
| `VoiceTheorems.DeliveredInOrder` | apps/api/e2e/fake-telnyx-voice.ts:499-512 | Within one reset window the events handed out, followed by the outbox, are the emissions in order. |
| `VoiceTheorems.PerformAppends` | apps/api/e2e/fake-telnyx-voice.ts:269-280 | Every operation but taking and resetting only appends, to history and outbox alike. |
| `VoiceReplays.DuplicateErased` | apps/api/e2e/fake-telnyx-voice.ts:645-663 | Erasing any later copy of an accepted dial or action with the same non-empty id, whatever it asks for, leaves the same final legs, outbox, recordings, ids and ledger. |
| `VoiceReplays.DialAnsweredOnce` | apps/api/e2e/fake-telnyx-voice.ts:645-675 | A later dial under an id answers, as a replay, with the leg the first one made: one id never owns two legs. |
| `VoiceReplays.PerformOnward` | apps/api/e2e/fake-telnyx-voice.ts:440-712 | No operation but a reset forgets a leg, revives one, or drops a command id from a live one. |
| `VoiceOrphans.TransferOrphans` | apps/api/e2e/fake-telnyx-voice.ts:574-593 | A transfer leaves its new target ringing for a leg that is over iff the transferred leg cancels itself: it still rings as somebody's target and its dropped partner's cascade reaches that somebody. |
| `VoiceOrphans.PerformNoOrphans` | apps/api/e2e/fake-telnyx-voice.ts:363-367 | From a state without orphaned targets, an operation leads to one with them iff it is such a transfer. |
| `VoiceOrphans.OrphanFreeRuns` | apps/api/e2e/fake-telnyx-voice.ts:574-593 | Over every run: no target ever rings for a leg that is over iff no transfer of the run cancels its own leg. |
| `VoiceOrphans.AnsweredTransfersAreSafe` | apps/api/e2e/fake-telnyx-voice.ts:574-593 | A run whose transfers are all of legs no longer ringing never orphans a target. |
| `VoiceOrphans.BridgedToOriginCancels` | apps/api/e2e/fake-telnyx-voice.ts:472-475 | Any ringing target bridged to the unparked leg it rings for would cancel itself when transferred. |
| `VoiceOrphans.TransferCanOrphan` | apps/api/e2e/fake-telnyx-voice.ts:574-593 | A four-step run that orphans a target, against the promise in the file's heading (lines 16-20). |
| `VoiceEffects.AnswerBridges` | apps/api/e2e/fake-telnyx-voice.ts:461-472 | A ringing transfer target that answers, its origin alive: the answer succeeds, and the two name each other and the history ends in their two `call.bridged`, unless one of them is over, which is so exactly when it is in the least closed set around the dropped old partner of the origin, or, in what that leaves, of the target. If neither was bridged, they are joined and the three events are all the news. |
| `VoiceEffects.AnswerOnBridge` | apps/api/e2e/fake-telnyx-voice.ts:461-472 | A target already bridged to its origin is only answered; the bridge stays. |
| `VoiceEffects.OtherAnswers` | apps/api/e2e/fake-telnyx-voice.ts:461-467 | An answer is refused iff the leg is unknown, over or not outgoing; a second one changes nothing; one of a leg that is nobody's target, or whose origin is gone, answers the leg and announces just that. |
| `VoiceEffects.BridgeOutcome` | apps/api/e2e/fake-telnyx-voice.ts:409-419 | Bridging two live legs that are not each other's: the legs that end are those the two splits drag along, each a least closed set; the two are joined and announced iff neither is among them. |
| `VoiceEffects.HangUpOwnLeg` | apps/api/e2e/fake-telnyx-voice.ts:348-368 | A hang-up announces its own leg first, under the cause it was given; that leg keeps everything but its state, cause, bridge and recording, and an open recording is kept and announced next with its seconds. |
| `VoiceEffects.FarEndEnds` | apps/api/e2e/fake-telnyx-voice.ts:475-491 | A far end's hang-up, a ring that runs out ("timeout") and a refusal ("call_rejected"): refused for a leg unknown or over, the last two also unless it rings, and otherwise the leg ends with that cause. |
| `VoiceEffects.MessageLeft` | apps/api/e2e/fake-telnyx-voice.ts:492-498 | A message is refused unless the leg is alive and recording; otherwise the leg clears normally and its recording is kept and announced with the seconds given. |
| `VoiceEffects.CommandRefused` | apps/api/e2e/fake-telnyx-voice.ts:698-711 | A command to no leg, to a leg that is over, or seen by it before changes nothing, and which of the three it was decides the reply. |
| `VoiceEffects.CommandReplies` | apps/api/e2e/fake-telnyx-voice.ts:529-624 | The reply of every accepted command, told by the leg before it; one that is refused is noted and does nothing else. |
| `VoiceEffects.HangUpCommand` | apps/api/e2e/fake-telnyx-voice.ts:553-563 | A ringing outgoing leg is cancelled and any other clears normally; the leg keeps the client state the command brings. |
| `VoiceEffects.RejectCommand` | apps/api/e2e/fake-telnyx-voice.ts:544-552 | `reject` ends the ringing call with the cause it gives. |
| `VoiceEffects.OwnLegCommand` | apps/api/e2e/fake-telnyx-voice.ts:537-624 | `answer`, the media commands, both recording commands and any unknown one touch their own leg only: the legs, the news, the recordings and the ids they leave, client state and media family included. |
| `VoiceEffects.BridgeCommand` | apps/api/e2e/fake-telnyx-voice.ts:564-573 | `bridge` keeps the client state and whether its leg asked to be parked before the two legs are bridged. |
| `VoiceEffects.TransferCommand` | apps/api/e2e/fake-telnyx-voice.ts:574-593 | `transfer` ends the least closed set around the leg's dropped partner and then makes one ringing outgoing target for the leg, with the target's own client state. |
| `VoiceEffects.CallComesIn` | apps/api/e2e/fake-telnyx-voice.ts:443-460 | A call that comes in is a fresh ringing leg, announced and counted as a far end's. |
| `VoiceEffects.DialAnswers` | apps/api/e2e/fake-telnyx-voice.ts:628-676 | A dial is refused, or answered as a replay with the leg of its command id, alive or not, or makes a fresh ringing outgoing leg that is announced and counted; the reply says which and whether the leg lives. |
| `VoiceEffects.DeletedOnce` | apps/api/e2e/fake-telnyx-voice.ts:731-742 | A recording is deleted once; unknown and deleted ones are not found, and nothing else changes. |
| `VoiceEffects.TakenAndForgotten` | apps/api/e2e/fake-telnyx-voice.ts:499-512 | The oldest waiting event is handed out; a reset leaves only the source of ids. |
| `VoiceModel.VoiceModel.CountLive` | apps/api/e2e/fake-telnyx-voice.ts:242-248 | The walk of the map counts exactly the live legs and the live legs that are not far-end. |
| `VoiceModel.VoiceModel.CreateLeg` | apps/api/e2e/fake-telnyx-voice.ts:282-333 | A fresh leg joins map, order, ledger and peaks, and announces itself; nothing else changes. |
| `VoiceModel.VoiceModel.SaveRecording` | apps/api/e2e/fake-telnyx-voice.ts:385-407 | An open recording is closed, kept and announced; without one nothing happens. |
| `VoiceModel.VoiceModel.Unbridge` | apps/api/e2e/fake-telnyx-voice.ts:336-346 | The mutable split, partner's cascade included, is the specification's. |
| `VoiceModel.VoiceModel.EndLeg` | apps/api/e2e/fake-telnyx-voice.ts:348-368 | The mutable cascade over shared legs ends in the state the specification gives, and terminates. |
| `VoiceModel.VoiceModel.Bridge` | apps/api/e2e/fake-telnyx-voice.ts:409-419 | Both old bridges are split in order; the two legs are joined and announced only if both survived. |
| `VoiceModel.VoiceModel.AnswerLeg` | apps/api/e2e/fake-telnyx-voice.ts:421-429 | The leg is answered, its client state replaced if one came, and the answer announced. |
| `VoiceModel.VoiceModel.Answer` | apps/api/e2e/fake-telnyx-voice.ts:461-472 | A far-end answer on the mutable switch is the specification's, refusals and bridge included; `VoiceEffects.AnswerBridges` and `VoiceEffects.OtherAnswers` say what that comes to. |
| `VoiceModel.VoiceModel.RunAction` | apps/api/e2e/fake-telnyx-voice.ts:529-624 | Every command, with its refusals, leaves the state and gives the reply the specification gives; the `VoiceEffects` lemmas say what these are. |
| `VoiceModel.VoiceModel.PostCalls` | apps/api/e2e/fake-telnyx-voice.ts:628-676 | A dial is refused, replayed or made, and its id noted. |
| `VoiceModel.VoiceModel.PostAction` | apps/api/e2e/fake-telnyx-voice.ts:698-711 | An action is refused, skipped as already seen, or noted and run. |
| `VoiceModel.VoiceModel.TakeEvent` | apps/api/e2e/fake-telnyx-voice.ts:499 | The oldest waiting event is handed out and no longer waits. |
| `VoiceModel.VoiceModel.ResetCalls` | apps/api/e2e/fake-telnyx-voice.ts:506-512 | Everything is forgotten but the source of fresh ids. |
| `VoiceModel.VoiceModel.Perform` | apps/api/e2e/fake-telnyx-voice.ts:440-712 | Any operation on the mutable switch refines the same operation on values, so every theorem above is about the mutable switch. |
| `SessionsSpec.IdleIsQuiet` | apps/api/e2e/call-sessions.ts:128-139 | A normal return of `idle` follows a whole pass over all objects that made no RPC and no object; a refusal follows as many passes as were allowed, each of which made one. |
| `SessionsSpec.TenPasses` | apps/api/e2e/call-sessions.ts:128-139 | Going idle ends after the first pass that calls no object, if that is one of the first ten, and otherwise refuses after exactly ten. |
| `SessionsSpec.SwitchObeys` | apps/api/e2e/call-sessions.ts:92-118 | A run drives the switch by exactly the commands it makes, in order. |
| `SessionsSpec.LastArmStays` | apps/api/e2e/call-sessions.ts:92-118 | The alarm a run sets last for an object is the one the object has after it. |
| `SessionsSpec.StretchGrows` | apps/api/e2e/call-sessions.ts:131-135 | A stretch of runs leaves the RPC count as it was iff none of them called an object, and then it made no object either. |
| `SessionsSpec.FiresWhatIsDue` | apps/api/e2e/call-sessions.ts:154-164 | Whatever the runs of the walk do, arming alarms included: an alarm none of them set is cleared if it was due and kept if it was not; an object still due at the end was set so by a run of this very walk; as many alarms fire as there are runs. The walk terminates because the script of the runs is finite: handlers that went on creating due objects for ever would keep the source's loop running for ever. |
| `SessionsSpec.FiresAsMany` | apps/api/e2e/call-sessions.ts:154-164 | When no run arms an alarm, as many fire as were due. |
| `SessionsSpec.FiringRests` | apps/api/e2e/call-sessions.ts:154-166 | After the due alarms every session is brought to rest: after the first quiet pass if that is one of ten; otherwise the answer is no. |
| `SessionsSpec.AnyInterleaving` | apps/api/e2e/call-sessions.ts:134 | Whatever sequence of effects several objects' steps make together in one pass, some script makes it in a pass of one run after another; so what is proved of every script holds of every interleaving. |
| `SessionsSpec.DrainSettles` | apps/api/e2e/call-budget.ts:188-212 | Against any runs that enqueue more the drain terminates. It brings every session to rest before the first delivery, after each one and before it ends, and answers "still busy" iff the last of these rests was not reached, ten passes in a row having each made a call. Delivered events followed by the outbox are what waited followed by every emission; at most limit + 1 deliveries, exactly that many when it gives up for want of settling; a normal return means at most limit of them, an empty outbox, and a quiet pass of every session just before. |
| `CallSessions.Sessions.ObjectFor` | apps/api/e2e/call-sessions.ts:77-90 | One object per name, appended to the creation order when new, nothing else changed. |
| `CallSessions.Sessions.Execute` | apps/api/e2e/call-sessions.ts:92-118 | What a run does to objects, alarms, RPC count and the mutable switch is what its effects do in order. |
| `CallSessions.Sessions.Pass` | apps/api/e2e/call-sessions.ts:134 | A pass runs each of the objects there were at its start once. |
| `CallSessions.Sessions.Idle` | apps/api/e2e/call-sessions.ts:128-139 | The mutable loop over passes leaves the state, and gives the answer, the specification gives. |
| `CallSessions.Sessions.NextAlarmAt` | apps/api/e2e/call-sessions.ts:146-153 | The minimum of the armed alarms, and none iff none is armed. |
| `CallSessions.Sessions.FireDueAlarms` | apps/api/e2e/call-sessions.ts:154-166 | The mutable walk, each alarm cleared before it fires, and the idle after it are the specification's. |
| `CallSessions.Sessions.Drain` | apps/api/e2e/call-budget.ts:188-212 | The mutable drain of the mutable switch delivers the events, ends in the state and gives the result the specification gives, of which `SessionsSpec.DrainSettles` tells all three results. |
| `CapacityBudget.ValidateRamp` | apps/api/scripts/deployed-capacity-lib.ts:403-416 | Comparing neighbours accepts exactly the ramps of 1 to 12 values between 1 and 500 that increase throughout. |
| `CapacityBudget.LeastValidity` | apps/api/scripts/deployed-capacity-lib.ts:441-444 | The validity asked of the token is the least whole number of seconds that is at least 600 and leaves 120 s after the worst case. |
| `CapacityBudget.ValidityRange` | apps/api/scripts/deployed-capacity-lib.ts:418-445 | Never less than 600 s nor more than 9840 s, which the longest configuration asks for. |
| `CapacitySlow.LateRun` | apps/api/scripts/deployed-capacity-lib.ts:418-433 | For services that answer everything at the last moment, with 200 but for the last level's first wave of 429, whatever a run's contract allows goes through the whole ramp and confirms its last level. |
| `CapacitySlow.WorstCaseIsReached` | apps/api/scripts/deployed-capacity-lib.ts:418-433 | For every ramp such a run of the API scenario takes exactly the worst case written down for it: the budget cannot be smaller. |
| `CapacityWorld.OutcomeMeans` | apps/api/scripts/deployed-capacity-lib.ts:552-608 | What an answer counts as, told from the answer and the deadline: late or missing, failed, a 3xx, or its own code. |
| `CapacityWorld.AttemptMeans` | apps/api/scripts/deployed-capacity-lib.ts:770-803 | What a join counts as, told from the answer and the deadline: a handle, a cleanup failure only if it was answered so in time, a deadline if it was late or missing, otherwise its own terminal or network trouble. |
| `CapacityBudget.ToleranceFitsBuffer` | apps/api/scripts/deployed-capacity-lib.ts:418-445 | The slack the budget does not count is at most 20 s, exactly that for twelve Realtime levels after an API ramp, so a hundred of the buffer's seconds are always left. |
| `CapacityRun.RunHostedCapacity` | apps/api/scripts/deployed-capacity-lib.ts:1238-1551 | On every path through preflight, API ramp, confirmation, Realtime ramp and teardown the time spent is within the written budget plus the tolerances and at least 100 s short of the required token validity; the evidence is sound, its shape explains the way the run ended, and a refused API level or a stopped Realtime level is explained by where it stopped, the API part in status codes (the run calls its target invalid iff the wave it stopped at holds a redirect or a 4xx other than 429); no load follows a failed preflight; every step of the trace was asked in its turn and is what the services answered, and the traffic is exactly preflight, recorded API levels, refused level, probe, recorded Realtime levels, stopped level and last closes, whatever the failure; a cleanup failure is blamed on a join only if one was answered so in time; the connections handed over and not asked to close are exactly those a broken control or confirmation dwell lost, so none if every dwell completes. |
| `CapacityRun.Preflight` | apps/api/scripts/deployed-capacity-lib.ts:1208-1236 | Passes iff the health check answered 200 and then the hot path 2xx, and asks nothing else. |
| `CapacityRun.Probe` | apps/api/scripts/deployed-capacity-lib.ts:1366-1386 | One connection is joined and its close attempted on every path that got it; the two failures tell which of the two did not work. |
| `CapacityRun.RunRealtime` | apps/api/scripts/deployed-capacity-lib.ts:1366-1548 | No Realtime record comes out when the final cleanup failed, which is exactly when one of the last closes did; everything left open is closed first, and all the traffic is a probe, the levels, the level that stopped the run and those closes; only a control or confirmation dwell that broke leaves connections unclosed. |
| `CapacityRun.LostIsTold` | apps/api/scripts/deployed-capacity-lib.ts:1441-1461 | A run that lost a connection shows a broken dwell in its trace. |
| `CapacityLeak.LeakyRun` | apps/api/scripts/deployed-capacity-lib.ts:1441-1461 | For services whose connections are never up and whose eleventh answer is a wait that never ends, whatever a run's contract allows loses exactly the connection of the control batch. |
| `CapacityLeak.BrokenControlDwellLeaks` | apps/api/scripts/deployed-capacity-lib.ts:1441-1461 | Such a run fails in that dwell and leaves one connection handed to it that it never asked to close. |
| `CapacityApi.RunApiWave` | apps/api/scripts/deployed-capacity-lib.ts:1094-1118 | Rounds times concurrency answers, the n-th being the service's n-th, within one deadline a round. |
| `CapacityApi.RunLevel` | apps/api/scripts/deployed-capacity-lib.ts:1256-1364 | A level ends in a sound record of everything it sent, or in an error explained by where it stopped, the traffic accounted for to the last request and pause. In status codes: the target is called invalid iff the wave it stopped at holds a redirect or a 4xx other than 429; a record is a ceiling iff both its waves hold a missed deadline, a 429 or a code of 500 or more. |
| `CapacityApi.ConfirmSuspect` | apps/api/scripts/deployed-capacity-lib.ts:1294-1362 | A suspect level is a cooldown, one healthy request, a cooldown and the exact wave again; a ceiling iff both waves hold a 429, 5xx or deadline. |
| `CapacityApi.RunApiRamp` | apps/api/scripts/deployed-capacity-lib.ts:1254-1365 | Recorded concurrencies are a prefix of the ramp, all but the last healthy; the run ends without error iff every level was healthy or the last is a ceiling; the traffic is the records' followed by the refused level's; the time fits the API part of the budget. |
| `CapacityApi.EvidenceIsClean` | apps/api/scripts/deployed-capacity-lib.ts:629-672 | No record rests on a redirect or a 4xx other than 429; a suspect record is the last and has a healthy control, and it is a ceiling iff both its waves hold a missed deadline, a 429 or a code of 500 or more. |
| `CapacityApi.WaveTold` | apps/api/scripts/deployed-capacity-lib.ts:629-672 | The tests of a wave see exactly what its codes show. |
| `CapacityApi.RefusalTold` | apps/api/scripts/deployed-capacity-lib.ts:661-672 | The error of a refused level, in codes: invalid iff the wave it stopped at holds a redirect or a 4xx other than 429, and for any other stop the one error that goes with it. |
| `RealtimeHistory.FoldMatchesHistory` | apps/api/scripts/deployed-capacity-lib.ts:811-850 | After any callbacks each post-join counter is the number of such terminals after the first SUBSCRIBED. |
| `RealtimeHistory.StableMeansEventless` | apps/api/scripts/deployed-capacity-lib.ts:805-850 | A joined connection counts as stable iff no terminal followed its first SUBSCRIBED: recovering does not hide the event. |
| `RealtimeHistory.AssessRealtime` | apps/api/scripts/deployed-capacity-lib.ts:1017-1043 | The loop's counts are the number of stable connections, the number with an event, and the sum of the events. |
| `RealtimeHistory.JoinedAreStableOrEventful` | apps/api/scripts/deployed-capacity-lib.ts:1017-1043 | Among connections that joined, `stableConnections + connectionsWithPostJoinTerminalEvent` is the total. |
| `CapacityRealtime.UnstableMeansNotSteady` | apps/api/scripts/deployed-capacity-lib.ts:1046-1056 | A level is unstable iff some join failed, a connection is missing, or one is down or ever dropped. |
| `CapacityRealtime.SignalKinds` | apps/api/scripts/deployed-capacity-lib.ts:1058-1070 | The kinds listed are exactly those with a positive count. |
| `CapacityRealtime.SignalsAreShown` | apps/api/scripts/deployed-capacity-lib.ts:1058-1070 | A kind has a positive count iff some attempt was refused that way or some connection saw that terminal after joining. |
| `CapacityRealtime.AttemptsSplit` | apps/api/scripts/deployed-capacity-lib.ts:1120-1172 | Without a cleanup failure every attempt is one handle or one counted failure. |
| `CapacityRamp.CloseConnections` | apps/api/scripts/deployed-capacity-lib.ts:1072-1080 | Every close is attempted, whatever the others do, within one bound, and success means each was acknowledged in time. |
| `CapacityRamp.JoinAll` | apps/api/scripts/deployed-capacity-lib.ts:1120-1156 | Every sibling is waited for. From the services' answers: the handles are as many as the joins answered with one in time, each late or missing answer is one deadline, each refusal in time counts for its own terminal, and a cleanup failure is among the attempts iff one was answered so in time. The connections handed over are the handles. |
| `CapacityRamp.Observe` | apps/api/scripts/deployed-capacity-lib.ts:1120-1172 | A batch, its dwell and the look at everything open; it ends in the immediate closing of the siblings iff some join was answered in time with a cleanup failure, and the counts it is judged by are those of the answers. |
| `CapacityLevels.CandidateIsSound` | apps/api/scripts/deployed-capacity-lib.ts:1475-1501 | The verdict is a ceiling iff one and the same signal shows in both waves, and "not reproduced" iff the repeat was steady. |
| `CapacityLevels.RunLevel` | apps/api/scripts/deployed-capacity-lib.ts:1389-1540 | A Realtime level ends in a sound record of its traffic or an error explained by where it stopped, every connection accounted for; a healthy one leaves exactly the connections asked for. |
| `CapacityLevels.Recover` | apps/api/scripts/deployed-capacity-lib.ts:1441-1461 | The control batch is one connection, watched and closed, and the level is refused unless it was steady and closed. |
| `CapacityLevels.RunRamp` | apps/api/scripts/deployed-capacity-lib.ts:1388-1541 | Every level starts from exactly the connections the previous one looked at, as many as that one asked for (none at first); records are a prefix of the ramp, all but the last healthy; an error is explained by the level after them; the time fits the Realtime part of the budget. |
| `CapacityLevels.LevelsChain` | apps/api/scripts/deployed-capacity-lib.ts:1389-1420 | What a recorded level looked at is what the previous one looked at followed by its own handles, no two the same. |
| `SwiftBlocks.BlockRange` | apps/ios/LoonextTests/CancelOneActionTests.swift:281-297 | The block found is the lines between the first rise of the depth above zero and its first fall back, and none is found iff there is none. |
| `SwiftBlocks.EnclosingHeaders` | apps/ios/LoonextTests/CancelOneActionTests.swift:1198-1213 | The headers found are exactly the lines from which every way down to the line has opened more than it closed, innermost first. |
| `SwiftBlocks.WalksAgree` | apps/ios/LoonextTests/CancelOneActionTests.swift:281-297 | For any nets and any header whose block closes: the header encloses exactly the block's lines and its closing line iff the header line itself opens more than it closes. |
| `SwiftBlocks.BraceBelowDisagrees` | apps/ios/LoonextTests/CancelOneActionTests.swift:281-297 | A header whose brace is on the next line has a block, and the walks disagree on it. |
| `SwiftBlocks.UnclosedEnclosesAll` | apps/ios/LoonextTests/CancelOneActionTests.swift:1198-1213 | A header of positive net without a block encloses every later line. |
| `SwiftBlocks.EnclosingBlocksNest` | apps/ios/LoonextTests/CancelOneActionTests.swift:1198-1213 | Of two headers around a line, the outer one encloses the inner one and everything the inner one still encloses. |
| `SwiftTaint.PauseDerived` | apps/ios/LoonextTests/CancelOneActionTests.swift:1495-1543 | Terminates, and the names found are the least set that holds the incoming ones and is closed under the declaration rule and the assignment rule, a declaration being judged by the rows substituted for it where there are any. |
| `SwiftTaint.SubstitutedRowsAlone` | apps/ios/LoonextTests/CancelOneActionTests.swift:1512 | Two scans whose declarations differ only in rows that others are substituted for find the same names. |
| `SwiftTaint.NotWithoutReason` | apps/ios/LoonextTests/CancelOneActionTests.swift:1495-1543 | A name that does not come in, that no assignment sets, and whose declarations' rows neither say "pause" nor mention another name found is not found. |
| `SwiftTaint.HolderIsSpared` | apps/ios/LoonextTests/CancelOneActionTests.swift:1648 | The holder of the exit is not found for a line past the exit. |
| `SwiftReach.Renders` | apps/ios/LoonextTests/CancelOneActionTests.swift:1686-1698 | Terminates, and finds the least set with the holder that is closed under "mentions a member of the set". |
| `SwiftReach.FollowNames` | apps/ios/LoonextTests/CancelOneActionTests.swift:1711-1735 | Terminates, visits each (view, name) key once, sees exactly the keys reachable from the first frontier, and takes exactly their declarations' rows that are not blank and were not taken, each once; a declaration with a slice stands for the rows of its slice and no others. |
| `SwiftReach.SlicedRowsAlone` | apps/ios/LoonextTests/CancelOneActionTests.swift:1722-1724 | The keys seen and the rows taken do not depend on the rows a sliced declaration has of its own. |
| `Jsonc.StripComments` | apps/api/e2e/rig-stack.ts:113-132 | The index loop computes the comment pass token by token. |
| `JsoncTokens.StripUndoesRendering` | apps/api/e2e/rig-stack.ts:113-132 | Any tokens printed with line and block comments between them, and an unfinished comment at the end, strip to the same tokens with every literal verbatim. |
| `JsoncTokens.StripIdempotent` | apps/api/e2e/rig-stack.ts:113-132 | On any text at all a second pass changes nothing. |
| `JsoncTokens.ReplaceTrailingCommas` | apps/api/e2e/rig-stack.ts:133 | The global replacement, match by match from the left, keeps every character but the commas that go: those after which the first character that is not white space is `}` or `]`, white space being listed character by character. |
| `JsoncTokens.PassesKeepTokens` | apps/api/e2e/rig-stack.ts:112-134 | Both passes give the tokens without their trailing commas iff no literal holds a comma, white space and a closing bracket. |
| `JsoncTokens.LiteralLosesComma` | apps/api/e2e/rig-stack.ts:133 | A literal that loses its comma, against "inside strings left alone" (line 112). |
| `JsoncTokens.EscapedQuoteKept` | apps/api/e2e/rig-stack.ts:118-120 | A quote after a backslash does not end a literal: a comment mark after it stays and the comment after the literal goes. |
| `Crc.Crc32` | scripts/dev-seed.ts:96-107 | The table-driven loop computes the bit-serial CRC of every byte string (section 3.4 of RFC 2083). |
| `Crc.MakeTable` | scripts/dev-seed.ts:97-103 | Entry n of the table is n after eight shifts. |
| `Crc.TableStep` | scripts/dev-seed.ts:105 | One look-up, one shift and one exclusive or do the work of feeding eight bits. |
| `Crc.FeedIsSteps` | scripts/dev-seed.ts:96-107 | Feeding bits one at a time is combining them all first and shifting, because the shift is linear. |
| `Crc.KnownCrc` | scripts/dev-seed.ts:96-107 | The CRC of the bytes of "IEND" is 0xae426082. |
| `Png.PngChunk` | scripts/dev-seed.ts:109-118 | For a type of any length: none is written iff the type runs past the buffer; otherwise the buffer written by offsets is length, type field (a shorter type padded with zeros, a longer one overwritten after four bytes), data and the CRC of the last two. |
| `Png.Concatenate` | scripts/dev-seed.ts:165-171 | The buffer written at running offsets is the parts one after another, and their lengths add up to its size. |
| `Png.Assemble` | scripts/dev-seed.ts:159-172 | The file is the eight bytes of the signature followed by every chunk in order, and there is none iff some chunk's type does not fit. |
| `Png.FileRoundTrip` | scripts/dev-seed.ts:109-171 | A reader that checks signature, lengths and CRCs recovers the same (type, data) list iff every type has four bytes and no chunk's data outgrows its 32-bit length field (sections 3.1 and 3.2 of RFC 2083). |
| `Png.LastChunk` | scripts/dev-seed.ts:163 | The chunk every file ends with, byte by byte. |
| `Png.LongChunkIsLost` | scripts/dev-seed.ts:109-118 | Data of 2^32 bytes are not read back. |
| `DbPressure.OnReject` | apps/api/src/db.ts:149-160 | What a rejected fetch marks and what its caller gets: in a request a deadline is answered as overloaded and sets that mark alone, an abort changes no mark, a call lost in transit sets the other mark; outside a request each is an error like any other. |
| `DbPressure.OnAnswer` | apps/api/src/db.ts:162-166 | What an answer marks and what its caller gets, an overload in a request being refused. |
| `DbPressure.Fetch` | apps/api/src/db.ts:143-167 | The whole wrapper, nothing settling meanwhile: a request that is marked overloaded does not fetch, is told so and marks nothing; any other call fetches, marks and answers as its fetch settles, a deadline being answered as overloaded and marking the request so. |
| `DbPressure.Rewrite` | apps/api/src/db-pressure.ts:90-112 | A 5xx of a request in trouble becomes the busy 503 with every header the reply does not name kept, `vary` appended and `content-length` gone; anything else is untouched. |
| `DbPressure.UnnamedKept` | apps/api/src/db-pressure.ts:95-110 | A header the busy reply does not name keeps its values. |
| `DbPressure.VaryGrows` | apps/api/src/db-pressure.ts:103-106 | Every `vary` value already set is kept, in front. |
| `DbInterleavings.FlagsTellHistory` | apps/api/src/db.ts:143-167 | In every interleaving a request is overloaded iff a call of its own was refused, and unreachable iff its last call that died or was answered died. |
| `DbInterleavings.FlagsTellEvents` | apps/api/src/db.ts:143-167 | In every interleaving, on the events themselves: a request is overloaded iff a call of its own ran into its deadline or was answered 502, 503, 504, or 500 with code 53300 or with no code and the gateway's message; it is unreachable iff, of its calls lost in transit and those answered otherwise, the last was lost. |
| `DbInterleavings.AbortSaysNothing` | apps/api/src/db.ts:149-160 | A caller that gives up changes no flag of any request. |
| `DbInterleavings.StopsAsking` | apps/api/src/db.ts:143-155 | After such a deadline or answer no call of the request fetches, and the one that asks is told to stop. |
| `DbInterleavings.MarkStays` | apps/api/src/db-pressure.ts:54-59 | The overload mark is never cleared. |
| `DbInterleavings.NoFetchAfterMark` | apps/api/src/db.ts:143-144 | In every interleaving no fetch of a request begins after its first overload mark, and the call that asks is told to stop. |
| `DbInterleavings.OthersDoNotMatter` | apps/api/src/db-pressure.ts:8-22 | A request's flags and calls are those of the run with every other request's, cron's and alarm's events taken out. |
| `DbInterleavings.AnswersBusy` | apps/api/src/db-pressure.ts:85-112 | A request answers 503 iff its route did, or ended in a 5xx after a call of its own ran into its deadline or found the database out of room, or after the last of its calls lost or answered was lost; below 500 nothing changes. |

## Left out

* HTTP, signing, the Supabase, docker and wrangler plumbing, and the suites that drive them: input and output over systems that are not shown.
* `src/calls/*`: the session object itself is not part of this model; `SessionsSpec` runs an arbitrary script in its place. The script is finite, which every terminating execution is.
- CallSessions.Sessions.Pass: runs the objects one after another where the source awaits them together; since a run may do anything, `SessionsSpec.AnyInterleaving` shows that every interleaving of one pass is that of some script, but which run did which part is then not told.
* Telephony credentials, SIP destinations, numbers, timestamps, durations and payload fields of the switch: an event is its kind, its leg and what the kind carries.
* The GET routes of the switch and the media download: they only read.
* A UUID is the next number of a counter, so two are never equal.
* `record_start` over a recording still open loses the first one's id, and a leg can be bridged to itself; the model does both as the code does.
* Aliasing of the legs `voice.legs()` and `voice.leg()` hand out: nothing outside the switch writes to them in the model.
* `setTimeout` is taken to fire exactly at its delay, an operation that settles exactly at its bound counts as in time, and durations are whole milliseconds.
* `openSupabaseRealtimeConnection` beyond its outcome: it is taken to resolve or fail within its deadline plus the scheduling tolerance, as an injected one is made to.
* Host, token, confirmation and content checks of the capacity driver, percentiles and the prose of its evidence: single branches. A record keeps whole waves instead of their summaries, and `states` is not counted.
* CapacityRun.RunHostedCapacity: the list of results is given as its API part and its Realtime part, which is the order the driver emits them in.
* `identifiers`, `readable`, `withoutLiterals`, `declarations`, `attachedModifiers` and `arguments` of the Swift scan: a line is its net brace change, or the names, assignments and "pause" on it, and declarations come with their rows.
* SwiftReach.FollowNames: the place labels and pause names of the path lines are not carried, only the rows.
* `JSON.parse`: the JSONC passes are proved up to the text handed to it.
* The type handed to `pngChunk` is taken as its bytes: a character above 255 would lose its upper bits on the way in.
* Pixels, floating-point rounding and `deflateSync` of `makeSeedPng`: the chunk data are arbitrary.
* The memoised client and the merged abort signal of `getDb`, and the console warning of the middleware.
* A request's scope stays open in `DbInterleavings` after its response; nothing reads it then.
