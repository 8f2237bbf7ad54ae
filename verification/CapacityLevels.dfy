/** One level of the Realtime ramp and the whole ramp (apps/api/scripts/
    deployed-capacity-lib.ts, lines 1388-1548). */
module CapacityLevels {
  import opened Basics
  import opened Wrappers
  import opened RealtimeHistory
  import opened CapacityBudget
  import opened CapacityWorld
  import opened CapacityRealtime
  import opened CapacityRamp

  /** An observed wave and its assessment agree on whether it was steady. */
  lemma Judged(o: Observation, held: seq<ConnectionId>, connections: int)
    requires Batch(o, held, connections - |held|) && o.Observed?
    ensures Unstable(connections, FailuresOf(o.attempts), AssessmentOf(o.snapshots)) <==> !SteadyAt(o, connections)
  {
    AttemptsSplit(o.attempts);
    UnstableMeansNotSteady(o.attempts, o.snapshots, connections);
    hide Unstable, FailuresOf, AssessmentOf, Steady, Handles, FailureTotal;
  }

  lemma KindsAreShown(o: Observation, kinds: seq<SignalKind>)
    requires o.Observed?
    requires forall k :: k in kinds <==> Signals(FailuresOf(o.attempts), AssessmentOf(o.snapshots), k)
    ensures forall k :: k in kinds <==> ShownIn(o, k)
  {
    forall k ensures k in kinds <==> ShownIn(o, k) {
      SignalsAreShown(o.attempts, o.snapshots, k);
      hide Signals, FailuresOf, AssessmentOf, Shows;
    }
  }

  lemma ShownUnsettles(o: Observation, k: SignalKind, connections: int)
    requires ShownIn(o, k)
    ensures !SteadyAt(o, connections)
  {
    SignalsUnsettle(o.attempts, o.snapshots, k, connections);
  }

  /** The verdict the source computes is the one the waves call for. */
  lemma CandidateIsSound(r: RealtimeRecord, held: seq<ConnectionId>, unstable: bool)
    requires r.JoinCandidate?
    requires Suspected(r.initial, held, r.connections) && Control(r.baseline)
    requires Batch(r.confirmation, [], r.connections) && r.confirmation.Observed?
    requires forall k :: k in r.initialKinds <==> ShownIn(r.initial, k)
    requires forall k :: k in r.confirmationKinds <==> ShownIn(r.confirmation, k)
    requires forall k :: k in r.repeatedKinds <==> k in r.initialKinds && k in r.confirmationKinds
    requires unstable <==> !SteadyAt(r.confirmation, r.connections)
    requires r.ceilingReached <==> unstable && |r.repeatedKinds| > 0
    requires r.classification ==
             if r.ceilingReached then ConfirmedJoinOrStabilityLimit
             else if unstable then InconclusiveJoinCandidate else JoinBurstCandidateNotReproduced
    ensures Sound(r, held)
  {
    hide Suspected, Control, Batch, ShownIn, SteadyAt;
    if |r.repeatedKinds| > 0 {
      assert r.repeatedKinds[0] in r.repeatedKinds;
      ShownUnsettles(r.confirmation, r.repeatedKinds[0], r.connections);
      assert ShownIn(r.initial, r.repeatedKinds[0]) && ShownIn(r.confirmation, r.repeatedKinds[0]);
    }
    if k :| ShownIn(r.initial, k) && ShownIn(r.confirmation, k) {
      assert k in r.repeatedKinds;
    }
  }

  /** How a level ends: with a sound record of everything it did, or explained by
      where it stopped. Only an unrepeated candidate leaves a record and an error. */
  ghost predicate Ends(record: Option<RealtimeRecord>, failure: Option<RealtimeError>, stop: Stop,
                       held: seq<ConnectionId>, connections: int, before: seq<Step>, trace: seq<Step>) {
    match record
    case Some(r) =>
      && r.connections == connections && Sound(r, held) && trace == before + StepsOf(r)
      && (if r.HealthyJoin? || r.ceilingReached then failure == None else failure == Some(JoinInconclusive))
    case None =>
      && failure.Some? && failure.value != JoinInconclusive && Explains(stop, failure.value, held, connections)
      && trace == before + StopSteps(stop)
  }

  lemma AllClosed(handed: set<ConnectionId>, closeTried: set<ConnectionId>, calls: nat,
                  active: set<ConnectionId>, later: nat)
    requires Accounted(handed, closeTried, calls, active, {}) && calls <= later
    ensures Accounted(handed, closeTried + active, later, {}, {})
  {
  }

  /** A batch cut short leaves open what its unfinished dwell left open. */
  lemma CutShortAccounted(o: Observation, active: seq<ConnectionId>, handed: set<ConnectionId>,
                          closeTried: set<ConnectionId>, calls: nat)
    requires !o.Observed? && active == if o.NotCleaned? then [] else Handles(o.attempts)
    requires Accounted(handed, closeTried, calls, Ids(active), {}) && LeftOpen(o) !! closeTried
    ensures Accounted(handed, closeTried, calls, {}, LeftOpen(o))
  {
  }

  lemma NoIds()
    ensures Ids([]) == {} && Distinct([])
  {
  }

  lemma ThreeParts(before: seq<Step>, a: seq<Step>, b: seq<Step>, c: seq<Step>)
    ensures before + a + b + c == before + (a + (b + c))
  {
    Regroup(a, b, c);
    Regroup(before, a + b, c);
    Regroup(before, a, b);
  }

  /** How each way out of a level is explained. */
  lemma InitialCutShort(o: Observation, held: seq<ConnectionId>, connections: int, before: seq<Step>, trace: seq<Step>)
    requires Batch(o, held, connections - |held|) && !o.Observed? && trace == before + ObservationSteps(o)
    ensures Ends(None, Some(if o.NotCleaned? then CleanupFailureSeen else DwellUnfinished), AtInitial(o),
                 held, connections, before, trace)
    ensures Lost(AtInitial(o)) == {}
  {
    hide Batch, ObservationSteps;
  }

  lemma HealthyEnds(r: RealtimeRecord, stop: Stop, held: seq<ConnectionId>, before: seq<Step>, trace: seq<Step>)
    requires r.HealthyJoin? && r.attempted == r.connections - |held|
    requires Batch(r.seen, held, r.attempted) && SteadyAt(r.seen, r.connections)
    requires trace == before + ObservationSteps(r.seen)
    ensures Ends(Some(r), None, stop, held, r.connections, before, trace)
  {
    hide Batch, SteadyAt, ObservationSteps;
  }

  lemma SuspectedIs(o: Observation, held: seq<ConnectionId>, connections: int)
    requires Batch(o, held, connections - |held|) && o.Observed? && !SteadyAt(o, connections)
    ensures Suspected(o, held, connections)
  {
    hide Batch, SteadyAt;
  }

  lemma SuspectedIsObserved(o: Observation, held: seq<ConnectionId>, connections: int)
    requires Suspected(o, held, connections)
    ensures o.Observed? && |o.snapshots| == |o.active|
  {
  }

  lemma ControlIs(o: Observation)
    requires Batch(o, [], 1) && SteadyAt(o, 1)
    ensures Control(o)
  {
  }

  lemma ResetNotClosed(initial: Observation, closes: seq<bool>, held: seq<ConnectionId>, connections: int,
                       before: seq<Step>, trace: seq<Step>)
    requires Suspected(initial, held, connections) && initial.Observed?
    requires |closes| == |initial.active| && closes != Trues(|initial.active|)
    requires trace == before + ObservationSteps(initial) + CloseSteps(initial.active, closes)
    ensures Ends(None, Some(SuspectCleanupFailed), AtReset(initial, closes), held, connections, before, trace)
    ensures Lost(AtReset(initial, closes)) == {}
  {
    hide Suspected, Trues, CloseSteps, ObservationSteps;
    Regroup(before, ObservationSteps(initial), CloseSteps(initial.active, closes));
  }

  lemma CooldownEnds(initial: Observation, held: seq<ConnectionId>, connections: int, before: seq<Step>, trace: seq<Step>)
    requires Suspected(initial, held, connections) && initial.Observed?
    requires trace == before + ObservationSteps(initial)
                      + CloseSteps(initial.active, Trues(|initial.active|)) + [Dwell(false)]
    ensures Ends(None, Some(DwellUnfinished), AtCooldown(initial), held, connections, before, trace)
    ensures Lost(AtCooldown(initial)) == {}
  {
    hide Suspected, Trues, CloseSteps, ObservationSteps;
  }

  lemma BaselineCutShort(initial: Observation, o: Observation, held: seq<ConnectionId>, connections: int,
                         before: seq<Step>, trace: seq<Step>)
    requires Suspected(initial, held, connections) && Batch(o, [], 1) && !o.Observed?
    requires trace == before + ResetSteps(initial) + ObservationSteps(o)
    ensures Ends(None, Some(if o.NotCleaned? then CleanupFailureSeen else DwellUnfinished), AtBaseline(initial, o),
                 held, connections, before, trace)
    ensures Lost(AtBaseline(initial, o)) == LeftOpen(o)
  {
    hide Suspected, Batch, ObservationSteps, ResetSteps;
    Regroup(before, ResetSteps(initial), ObservationSteps(o));
  }

  lemma RepeatCutShort(initial: Observation, baseline: Observation, o: Observation, held: seq<ConnectionId>,
                       connections: int, before: seq<Step>, trace: seq<Step>)
    requires Suspected(initial, held, connections) && Control(baseline)
    requires Batch(o, [], connections) && !o.Observed?
    requires trace == before + (ResetSteps(initial) + ResetSteps(baseline)) + ObservationSteps(o)
    ensures Ends(None, Some(if o.NotCleaned? then CleanupFailureSeen else DwellUnfinished),
                 AtConfirmation(initial, baseline, o), held, connections, before, trace)
    ensures Lost(AtConfirmation(initial, baseline, o)) == LeftOpen(o)
  {
    hide Suspected, Control, Batch, ObservationSteps, ResetSteps;
    Regroup(before, ResetSteps(initial) + ResetSteps(baseline), ObservationSteps(o));
  }

  lemma RepeatNotClosed(initial: Observation, baseline: Observation, o: Observation, closes: seq<bool>,
                        held: seq<ConnectionId>, connections: int, before: seq<Step>, trace: seq<Step>)
    requires Suspected(initial, held, connections) && Control(baseline)
    requires Batch(o, [], connections) && o.Observed?
    requires |closes| == |o.active| && closes != Trues(|o.active|)
    requires trace == before + (ResetSteps(initial) + ResetSteps(baseline)) + ObservationSteps(o)
                      + CloseSteps(o.active, closes)
    ensures Ends(None, Some(ConfirmationCleanupFailed), AtConfirmationClose(initial, baseline, o, closes),
                 held, connections, before, trace)
    ensures Lost(AtConfirmationClose(initial, baseline, o, closes)) == {}
  {
    hide Suspected, Control, Batch, ObservationSteps, ResetSteps, Trues, CloseSteps;
    ThreeParts(before, ResetSteps(initial) + ResetSteps(baseline), ObservationSteps(o), CloseSteps(o.active, closes));
  }

  lemma RepeatRecorded(r: RealtimeRecord, failure: Option<RealtimeError>, stop: Stop, held: seq<ConnectionId>,
                       before: seq<Step>, trace: seq<Step>)
    requires r.JoinCandidate? && Sound(r, held) && r.confirmation.Observed?
    requires failure == if r.ceilingReached then None else Some(JoinInconclusive)
    requires trace == before + (ResetSteps(r.initial) + ResetSteps(r.baseline)) + ObservationSteps(r.confirmation)
                      + CloseSteps(r.confirmation.active, Trues(|r.confirmation.active|))
    ensures Ends(Some(r), failure, stop, held, r.connections, before, trace)
  {
    hide Sound, ObservationSteps, ResetSteps, Trues, CloseSteps;
    ThreeParts(before, ResetSteps(r.initial) + ResetSteps(r.baseline), ObservationSteps(r.confirmation),
               CloseSteps(r.confirmation.active, Trues(|r.confirmation.active|)));
  }

  /** The full-concurrency repeat, after a reset and a healthy control. */
  method Repeat(s: Services, w0: World, c: Config, held: seq<ConnectionId>, connections: nat, initial: Observation,
                initialKinds: seq<SignalKind>, baseline: Observation, ghost before: seq<Step>)
    returns (w: World, record: Option<RealtimeRecord>, failure: Option<RealtimeError>, stop: Stop)
    requires Validated(c) && Accounted(w0.handed, w0.closeTried, w0.calls, {}, {})
    requires Honest(s, c, w0.calls, w0.trace)
    ensures Honest(s, c, w.calls, w.trace)
    requires Suspected(initial, held, connections) && Control(baseline)
    requires forall k :: k in initialKinds <==> ShownIn(initial, k)
    requires w0.trace == before + (ResetSteps(initial) + ResetSteps(baseline))
    ensures Ends(record, failure, stop, held, connections, before, w.trace)
    ensures Accounted(w.handed, w.closeTried, w.calls, {}, if record.Some? then {} else Lost(stop))
    ensures record.Some? ==> record.value.JoinCandidate?
    ensures w.clock <= w0.clock + 2 * OperationMs(c) + RestMs(c)
  {
    w := w0;
    hide *;
    NoIds();
    TakesTime(c);
    record, failure, stop := None, None, AtInitial(initial);
    var confirmation, active, failures, assessment;
    w, confirmation, active, failures, assessment := Observe(s, w, c, [], connections);
    if !confirmation.Observed? {
      failure := Some(if confirmation.NotCleaned? then CleanupFailureSeen else DwellUnfinished);
      stop := AtConfirmation(initial, baseline, confirmation);
      CutShortAccounted(confirmation, active, w.handed, w.closeTried, w.calls);
      RepeatCutShort(initial, baseline, confirmation, held, connections, before, w.trace);
      return;
    }
    var unstable := Unstable(connections, failures, assessment);
    Judged(confirmation, [], connections);
    AllClosed(w.handed, w.closeTried, w.calls, Ids(active), w.calls + |active|);
    var closed, closes;
    w, closed, closes := CloseConnections(s, w, c, active);
    if !closed {
      failure, stop := Some(ConfirmationCleanupFailed), AtConfirmationClose(initial, baseline, confirmation, closes);
      RepeatNotClosed(initial, baseline, confirmation, closes, held, connections, before, w.trace);
      return;
    }
    var confirmationKinds := SignalKinds(failures, assessment);
    KindsAreShown(confirmation, confirmationKinds);
    var repeated := RepeatedKinds(initialKinds, confirmationKinds);
    var confirmed := unstable && |repeated| > 0;
    var classification :=
      if confirmed then ConfirmedJoinOrStabilityLimit
      else if unstable then InconclusiveJoinCandidate
      else JoinBurstCandidateNotReproduced;
    record := Some(JoinCandidate(connections, initial, baseline, confirmation, initialKinds, confirmationKinds,
                                 repeated, confirmed, classification));
    CandidateIsSound(record.value, held, unstable);
    if !confirmed {
      failure := Some(JoinInconclusive);
    }
    RepeatRecorded(record.value, failure, stop, held, before, w.trace);
  }

  lemma ResetTrace(o: Observation, before: seq<Step>, trace: seq<Step>)
    requires o.Observed?
    requires trace == before + ObservationSteps(o) + CloseSteps(o.active, Trues(|o.active|)) + [Dwell(true)]
    ensures trace == before + ResetSteps(o)
  {
  }

  lemma BaselineCloseEnds(initial: Observation, baseline: Observation, closes: seq<bool>, held: seq<ConnectionId>,
                          connections: int, before: seq<Step>, trace: seq<Step>)
    requires Suspected(initial, held, connections) && Batch(baseline, [], 1) && baseline.Observed?
    requires |closes| == |baseline.active| && (closes != Trues(|closes|) || !SteadyAt(baseline, 1))
    requires trace == before + ResetSteps(initial) + ObservationSteps(baseline) + CloseSteps(baseline.active, closes)
    ensures Ends(None, Some(RecoveryBaselineFailed), AtBaselineClose(initial, baseline, closes),
                 held, connections, before, trace)
    ensures Lost(AtBaselineClose(initial, baseline, closes)) == {}
  {
    hide Suspected, Batch, SteadyAt, Trues, CloseSteps, ObservationSteps, ResetSteps;
  }

  lemma SecondCooldownEnds(initial: Observation, baseline: Observation, held: seq<ConnectionId>, connections: int,
                           before: seq<Step>, trace: seq<Step>)
    requires Suspected(initial, held, connections) && Control(baseline)
    requires trace == before + ResetSteps(initial) + ObservationSteps(baseline)
                      + CloseSteps(baseline.active, Trues(|baseline.active|)) + [Dwell(false)]
    ensures Ends(None, Some(DwellUnfinished), AtSecondCooldown(initial, baseline), held, connections, before, trace)
    ensures Lost(AtSecondCooldown(initial, baseline)) == {}
  {
    hide Suspected, Batch, Trues, CloseSteps, ObservationSteps, ResetSteps;
  }

  /** One connection watched and closed, a rest, and the repeat. */
  method Recover(s: Services, w0: World, c: Config, held: seq<ConnectionId>, connections: nat, initial: Observation,
                 initialKinds: seq<SignalKind>, ghost before: seq<Step>)
    returns (w: World, record: Option<RealtimeRecord>, failure: Option<RealtimeError>, stop: Stop)
    requires Validated(c) && Accounted(w0.handed, w0.closeTried, w0.calls, {}, {})
    requires Honest(s, c, w0.calls, w0.trace)
    ensures Honest(s, c, w.calls, w.trace)
    requires Suspected(initial, held, connections)
    requires forall k :: k in initialKinds <==> ShownIn(initial, k)
    requires w0.trace == before + ResetSteps(initial)
    ensures Ends(record, failure, stop, held, connections, before, w.trace)
    ensures Accounted(w.handed, w.closeTried, w.calls, {}, if record.Some? then {} else Lost(stop))
    ensures record.Some? ==> record.value.JoinCandidate?
    ensures w.clock <= w0.clock + 4 * OperationMs(c) + 3 * RestMs(c)
  {
    w := w0;
    hide *;
    NoIds();
    TakesTime(c);
    record, failure, stop := None, None, AtInitial(initial);
    var baseline, one, failures, assessment;
    w, baseline, one, failures, assessment := Observe(s, w, c, [], 1);
    if !baseline.Observed? {
      failure := Some(if baseline.NotCleaned? then CleanupFailureSeen else DwellUnfinished);
      stop := AtBaseline(initial, baseline);
      CutShortAccounted(baseline, one, w.handed, w.closeTried, w.calls);
      BaselineCutShort(initial, baseline, held, connections, before, w.trace);
      return;
    }
    var unstable := Unstable(1, failures, assessment);
    Judged(baseline, [], 1);
    AllClosed(w.handed, w.closeTried, w.calls, Ids(one), w.calls + |one|);
    AllClosed(w.handed, w.closeTried, w.calls, Ids(one), w.calls + |one| + 1);
    var closed, closes;
    w, closed, closes := CloseConnections(s, w, c, one);
    if unstable || !closed {
      failure, stop := Some(RecoveryBaselineFailed), AtBaselineClose(initial, baseline, closes);
      BaselineCloseEnds(initial, baseline, closes, held, connections, before, w.trace);
      return;
    }
    ControlIs(baseline);
    var rested;
    w, rested := Rest(s, w, c);
    if !rested {
      failure, stop := Some(DwellUnfinished), AtSecondCooldown(initial, baseline);
      SecondCooldownEnds(initial, baseline, held, connections, before, w.trace);
      return;
    }
    ResetTrace(baseline, before + ResetSteps(initial), w.trace);
    w, record, failure, stop := Repeat(s, w, c, held, connections, initial, initialKinds, baseline, before);
  }

  /** A suspect wave: everything closed, a rest, one connection watched and
      closed, a rest, and the repeat. */
  method Confirm(s: Services, w0: World, c: Config, held: seq<ConnectionId>, connections: nat, initial: Observation,
                 initialKinds: seq<SignalKind>, active: seq<ConnectionId>, ghost before: seq<Step>)
    returns (w: World, record: Option<RealtimeRecord>, failure: Option<RealtimeError>, stop: Stop,
             open: seq<ConnectionId>)
    requires Validated(c) && Accounted(w0.handed, w0.closeTried, w0.calls, Ids(active), {})
    requires Honest(s, c, w0.calls, w0.trace)
    ensures Honest(s, c, w.calls, w.trace)
    requires Suspected(initial, held, connections) && initial.active == active
    requires forall k :: k in initialKinds <==> ShownIn(initial, k)
    requires w0.trace == before + ObservationSteps(initial)
    ensures Ends(record, failure, stop, held, connections, before, w.trace)
    ensures Accounted(w.handed, w.closeTried, w.calls, Ids(open), if record.Some? then {} else Lost(stop))
    ensures record.Some? ==> record.value.JoinCandidate? && open == []
    ensures w.clock <= w0.clock + 5 * OperationMs(c) + 4 * RestMs(c)
  {
    w := w0;
    hide *;
    NoIds();
    TakesTime(c);
    SuspectedIsObserved(initial, held, connections);
    record, failure, stop, open := None, None, AtInitial(initial), active;
    ghost var tried, calls := w.closeTried, w.calls;
    StaysAccounted(w.handed, tried, calls, Ids(active), Ids(active), calls + |active|);
    var closed, closes;
    w, closed, closes := CloseConnections(s, w, c, active);
    if !closed {
      failure, stop := Some(SuspectCleanupFailed), AtReset(initial, closes);
      ResetNotClosed(initial, closes, held, connections, before, w.trace);
      return;
    }
    open := [];
    AllClosed(w.handed, tried, calls, Ids(active), w.calls + 1);
    var rested;
    w, rested := Rest(s, w, c);
    if !rested {
      failure, stop := Some(DwellUnfinished), AtCooldown(initial);
      CooldownEnds(initial, held, connections, before, w.trace);
      return;
    }
    ResetTrace(initial, before, w.trace);
    w, record, failure, stop := Recover(s, w, c, held, connections, initial, initialKinds, before);
  }

  /** The connections a recorded level leaves open for the next one. */
  ghost function LeavesOpen(r: RealtimeRecord): seq<ConnectionId> {
    if r.HealthyJoin? && r.seen.Observed? then r.seen.active else []
  }

  lemma HealthyLeaves(r: RealtimeRecord, active: seq<ConnectionId>)
    requires r.HealthyJoin? && r.seen.Observed? && r.seen.active == active
    ensures LeavesOpen(r) == active
  {
  }

  lemma CandidateLeaves(record: Option<RealtimeRecord>)
    ensures record.Some? && record.value.JoinCandidate? ==> LeavesOpen(record.value) == []
  {
  }

  /** One level: enough joins to bring the open connections up to `connections`,
      a dwell, and the confirmation if something was not steady. */
  method RunLevel(s: Services, w0: World, c: Config, connections: nat, active: seq<ConnectionId>)
    returns (w: World, record: Option<RealtimeRecord>, failure: Option<RealtimeError>, stop: Stop,
             open: seq<ConnectionId>)
    requires Validated(c) && Accounted(w0.handed, w0.closeTried, w0.calls, Ids(active), {})
    requires Honest(s, c, w0.calls, w0.trace)
    ensures Honest(s, c, w.calls, w.trace)
    requires |active| < connections && Distinct(active)
    ensures Ends(record, failure, stop, active, connections, w0.trace, w.trace)
    ensures Accounted(w.handed, w.closeTried, w.calls, Ids(open), if record.Some? then {} else Lost(stop))
    ensures record.Some? ==> open == LeavesOpen(record.value) && Distinct(open)
    ensures record.Some? && record.value.HealthyJoin? ==> |open| == connections
    ensures w.clock <= w0.clock + OperationMs(c) + RestMs(c)
      + if record.Some? && record.value.HealthyJoin? then 0 else 5 * OperationMs(c) + 4 * RestMs(c)
  {
    w := w0;
    hide *;
    TakesTime(c);
    record, failure := None, None;
    var additions := connections - |active|;
    var initial, failures, assessment;
    w, initial, open, failures, assessment := Observe(s, w, c, active, additions);
    stop := AtInitial(initial);
    if !initial.Observed? {
      failure := Some(if initial.NotCleaned? then CleanupFailureSeen else DwellUnfinished);
      InitialCutShort(initial, active, connections, w0.trace, w.trace);
      return;
    }
    Judged(initial, active, connections);
    if !Unstable(connections, failures, assessment) {
      record := Some(HealthyJoin(connections, additions, initial));
      HealthyEnds(record.value, stop, active, w0.trace, w.trace);
      SteadyIsFull(initial, active, connections);
      HealthyLeaves(record.value, open);
      return;
    }
    SuspectedIs(initial, active, connections);
    var kinds := SignalKinds(failures, assessment);
    KindsAreShown(initial, kinds);
    w, record, failure, stop, open :=
      Confirm(s, w, c, active, connections, initial, kinds, open, w0.trace);
    CandidateLeaves(record);
    NoIds();
  }

  /** A steady level leaves exactly the connections it was asked for. */
  lemma SteadyIsFull(o: Observation, held: seq<ConnectionId>, connections: int)
    requires Batch(o, held, connections - |held|) && SteadyAt(o, connections)
    ensures |o.active| == connections
  {
  }

  // ------------------------------------------------------------------ the ramp

  /** The connections open when level `i` of a ramp begins: those its predecessor
      looked at last. */
  ghost function OpenBefore(rs: seq<RealtimeRecord>, i: nat): seq<ConnectionId>
    requires i <= |rs|
  {
    if i == 0 then [] else LeavesOpen(rs[i - 1])
  }

  /** How many those are. */
  function OpenBeforeLevel(ramp: seq<int>, i: nat): int
    requires i <= |ramp|
  {
    if i == 0 then 0 else ramp[i - 1]
  }

  /** Level `i` was recorded soundly, from exactly the connections the previous one
      looked at, which are as many as that one asked for. */
  ghost predicate RecordAt(rs: seq<RealtimeRecord>, ramp: seq<int>, i: nat)
    requires i < |rs| <= |ramp|
  {
    && rs[i].connections == ramp[i] && Sound(rs[i], OpenBefore(rs, i))
    && |OpenBefore(rs, i)| == OpenBeforeLevel(ramp, i)
  }

  /** Sound records for a prefix of the ramp, every level but the last healthy. */
  ghost predicate Evidence(rs: seq<RealtimeRecord>, ramp: seq<int>) {
    && |rs| <= |ramp|
    && (forall i {:trigger RecordAt(rs, ramp, i)} :: 0 <= i < |rs| ==> RecordAt(rs, ramp, i))
    && (forall i :: 0 <= i < |rs| - 1 ==> rs[i].HealthyJoin?)
  }

  /** The wave a level began with. */
  ghost function FirstSeen(r: RealtimeRecord): Observation { if r.HealthyJoin? then r.seen else r.initial }

  /** What one recorded level looked at is what the level before it looked at,
      followed by its own handles, no two the same. */
  lemma LevelsChain(rs: seq<RealtimeRecord>, ramp: seq<int>, i: nat)
    requires Evidence(rs, ramp) && 0 < i < |rs|
    ensures FirstSeen(rs[i - 1]).Observed? && FirstSeen(rs[i]).Observed?
    ensures FirstSeen(rs[i]).active == FirstSeen(rs[i - 1]).active + Handles(FirstSeen(rs[i]).attempts)
    ensures Distinct(FirstSeen(rs[i]).active) && |FirstSeen(rs[i - 1]).active| == ramp[i - 1]
  {
    assert RecordAt(rs, ramp, i - 1) && RecordAt(rs, ramp, i) && rs[i - 1].HealthyJoin?;
  }

  ghost predicate AllHealthy(rs: seq<RealtimeRecord>) { forall i :: 0 <= i < |rs| ==> rs[i].HealthyJoin? }

  lemma EvidenceSnoc(rs: seq<RealtimeRecord>, r: RealtimeRecord, ramp: seq<int>)
    requires Evidence(rs, ramp) && AllHealthy(rs)
    requires |rs| < |ramp| && r.connections == ramp[|rs|] && Sound(r, OpenBefore(rs, |rs|))
    requires |OpenBefore(rs, |rs|)| == OpenBeforeLevel(ramp, |rs|)
    ensures Evidence(rs + [r], ramp)
    ensures AllHealthy(rs + [r]) <==> r.HealthyJoin?
  {
    var more := rs + [r];
    forall i | 0 <= i < |more| ensures RecordAt(more, ramp, i) {
      if i < |rs| { RecordStays(rs, r, ramp, i); } else { RecordAdded(rs, r, ramp); }
    }
    hide RecordAt;
    assert forall i :: 0 <= i < |rs| ==> more[i] == rs[i];
    assert more[|rs|] == r;
  }

  lemma RecordStays(rs: seq<RealtimeRecord>, r: RealtimeRecord, ramp: seq<int>, i: nat)
    requires i < |rs| < |ramp| && RecordAt(rs, ramp, i)
    ensures RecordAt(rs + [r], ramp, i)
  {
    hide Sound;
    assert (rs + [r])[i] == rs[i] && OpenBefore(rs + [r], i) == OpenBefore(rs, i);
  }

  lemma RecordAdded(rs: seq<RealtimeRecord>, r: RealtimeRecord, ramp: seq<int>)
    requires |rs| < |ramp| && r.connections == ramp[|rs|] && Sound(r, OpenBefore(rs, |rs|))
    requires |OpenBefore(rs, |rs|)| == OpenBeforeLevel(ramp, |rs|)
    ensures RecordAt(rs + [r], ramp, |rs|)
  {
    hide Sound;
    assert (rs + [r])[|rs|] == r && OpenBefore(rs + [r], |rs|) == OpenBefore(rs, |rs|);
  }

  ghost function AllSteps(rs: seq<RealtimeRecord>): seq<Step> {
    if rs == [] then [] else AllSteps(rs[..|rs| - 1]) + StepsOf(rs[|rs| - 1])
  }

  lemma AllStepsSnoc(rs: seq<RealtimeRecord>, r: RealtimeRecord)
    ensures AllSteps(rs + [r]) == AllSteps(rs) + StepsOf(r)
  {
    assert (rs + [r])[..|rs|] == rs;
  }

  predicate LimitReached(r: RealtimeRecord) { r.JoinCandidate? && r.ceilingReached }

  /** How a run of the ramp may end: every level healthy, or the last a confirmed
      limit; inconclusive on the last; or stopped at the level after the records. */
  ghost predicate EndsProperly(rs: seq<RealtimeRecord>, ramp: seq<int>, failure: Option<RealtimeError>,
                               stop: Option<Stop>) {
    match failure
    case None => stop == None && if AllHealthy(rs) then |rs| == |ramp| else LimitReached(rs[|rs| - 1])
    case Some(JoinInconclusive) =>
      stop == None && rs != [] && rs[|rs| - 1].JoinCandidate? && !LimitReached(rs[|rs| - 1])
    case Some(e) =>
      && stop.Some? && AllHealthy(rs) && |rs| < |ramp|
      && Explains(stop.value, e, OpenBefore(rs, |rs|), ramp[|rs|])
  }

  ghost function LostBy(stop: Option<Stop>): set<ConnectionId> { if stop.Some? then Lost(stop.value) else {} }

  ghost function StopStepsOf(stop: Option<Stop>): seq<Step> { if stop.Some? then StopSteps(stop.value) else [] }

  /** What one more level may cost, within what the ramp has left. */
  lemma LevelFits(c: Config, i: int)
    requires Validated(c) && 0 <= i < |c.realtimeRamp|
    ensures OpenBeforeLevel(c.realtimeRamp, i) < c.realtimeRamp[i]
    ensures (i + 1) * (OperationMs(c) + RestMs(c)) == i * (OperationMs(c) + RestMs(c)) + OperationMs(c) + RestMs(c)
    ensures (i + 1) * (OperationMs(c) + RestMs(c)) <= |c.realtimeRamp| * (OperationMs(c) + RestMs(c))
  {
    var level := OperationMs(c) + RestMs(c);
    Product(i, level);
    AtMost(i + 1, |c.realtimeRamp|, level);
  }

  lemma RampStarts(ramp: seq<int>)
    ensures AllSteps([]) == [] && Evidence([], ramp) && AllHealthy([]) && OpenBeforeLevel(ramp, 0) == 0
    ensures OpenBefore([], 0) == []
    ensures LostBy(None) == {} && StopStepsOf(None) == []
  {
  }

  lemma LevelBefore(rs: seq<RealtimeRecord>, r: RealtimeRecord, ramp: seq<int>)
    requires |rs| < |ramp|
    ensures OpenBeforeLevel(ramp, |rs| + 1) == ramp[|rs|]
    ensures OpenBefore(rs + [r], |rs| + 1) == LeavesOpen(r)
  {
  }

  /** A level without a record stops the ramp, explained. */
  lemma RampStops(rs: seq<RealtimeRecord>, ramp: seq<int>, failure: Option<RealtimeError>, where: Stop,
                  before: seq<Step>, trace: seq<Step>)
    requires AllHealthy(rs) && |rs| < |ramp|
    requires Ends(None, failure, where, OpenBefore(rs, |rs|), ramp[|rs|], before, trace)
    ensures EndsProperly(rs, ramp, failure, Some(where))
    ensures LostBy(Some(where)) == Lost(where) && trace == before + StopStepsOf(Some(where))
  {
    hide AllHealthy, Explains, OpenBefore;
  }

  lemma RampRecords(r: RealtimeRecord, failure: Option<RealtimeError>, where: Stop, held: seq<ConnectionId>,
                    connections: int, before: seq<Step>, trace: seq<Step>)
    requires Ends(Some(r), failure, where, held, connections, before, trace)
    ensures r.connections == connections && Sound(r, held) && trace == before + StepsOf(r)
    ensures failure == if r.HealthyJoin? || r.ceilingReached then None else Some(JoinInconclusive)
  {
    hide Sound, StepsOf;
  }

  lemma RampEndsEarly(rs: seq<RealtimeRecord>, ramp: seq<int>, failure: Option<RealtimeError>)
    requires rs != [] && rs[|rs| - 1].JoinCandidate?
    requires failure == if rs[|rs| - 1].ceilingReached then None else Some(JoinInconclusive)
    ensures EndsProperly(rs, ramp, failure, None)
  {
  }

  lemma RampCompletes(rs: seq<RealtimeRecord>, ramp: seq<int>)
    requires AllHealthy(rs) && |rs| == |ramp|
    ensures EndsProperly(rs, ramp, None, None)
  {
    hide AllHealthy;
  }

  method RunRamp(s: Services, w0: World, c: Config)
    returns (w: World, records: seq<RealtimeRecord>, failure: Option<RealtimeError>, stop: Option<Stop>,
             open: seq<ConnectionId>)
    requires Validated(c) && Accounted(w0.handed, w0.closeTried, w0.calls, {}, {})
    requires Honest(s, c, w0.calls, w0.trace)
    ensures Honest(s, c, w.calls, w.trace)
    ensures Evidence(records, c.realtimeRamp)
    ensures EndsProperly(records, c.realtimeRamp, failure, stop)
    ensures w.trace == w0.trace + AllSteps(records) + StopStepsOf(stop)
    ensures Accounted(w.handed, w.closeTried, w.calls, Ids(open), LostBy(stop))
    ensures w.clock <= w0.clock + |c.realtimeRamp| * (OperationMs(c) + RestMs(c))
                       + 5 * OperationMs(c) + 4 * RestMs(c)
  {
    w, records, failure, stop, open := w0, [], None, None, [];
    hide *;
    NoIds();
    TakesTime(c);
    RampStarts(c.realtimeRamp);
    var level := OperationMs(c) + RestMs(c);
    for i := 0 to |c.realtimeRamp|
      invariant |records| == i && Evidence(records, c.realtimeRamp) && AllHealthy(records)
      invariant open == OpenBefore(records, i) && |open| == OpenBeforeLevel(c.realtimeRamp, i) && Distinct(open)
      invariant Honest(s, c, w.calls, w.trace)
      invariant failure == None && stop == None
      invariant Accounted(w.handed, w.closeTried, w.calls, Ids(open), {})
      invariant w.trace == w0.trace + AllSteps(records)
      invariant w.clock <= w0.clock + i * level
    {
      LevelFits(c, i);
      var record, where;
      w, record, failure, where, open := RunLevel(s, w, c, c.realtimeRamp[i], open);
      if record.None? {
        stop := Some(where);
        RampStops(records, c.realtimeRamp, failure, where, w0.trace + AllSteps(records), w.trace);
        return;
      }
      RampRecords(record.value, failure, where, OpenBefore(records, i), c.realtimeRamp[i], w0.trace + AllSteps(records),
                  w.trace);
      AllStepsSnoc(records, record.value);
      LevelBefore(records, record.value, c.realtimeRamp);
      EvidenceSnoc(records, record.value, c.realtimeRamp);
      records := records + [record.value];
      if record.value.JoinCandidate? {
        RampEndsEarly(records, c.realtimeRamp, failure);
        return;
      }
    }
    RampCompletes(records, c.realtimeRamp);
  }
}
