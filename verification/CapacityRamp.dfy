/** The Realtime ramp of the capacity driver (apps/api/scripts/
    deployed-capacity-lib.ts, lines 1072-1092, 1120-1172 and 1366-1548). */
module CapacityRamp {
  import opened Wrappers
  import opened RealtimeHistory
  import opened CapacityBudget
  import opened CapacityWorld
  import opened CapacityRealtime

  /** One batch of joins, the dwell after it, and the look at everything open.
      A batch may instead end in a failed cleanup or an unfinished dwell. */
  datatype Observation =
    | Observed(attempts: seq<Attempt>, active: seq<ConnectionId>, snapshots: seq<Snapshot>)
    | NotCleaned(attempts: seq<Attempt>, closes: seq<bool>)
    | NotDwelt(attempts: seq<Attempt>)

  datatype JoinClassification =
    | ConfirmedJoinOrStabilityLimit
    | InconclusiveJoinCandidate
    | JoinBurstCandidateNotReproduced

  datatype RealtimeRecord =
    | HealthyJoin(connections: int, attempted: int, seen: Observation)
    | JoinCandidate(connections: int, initial: Observation, baseline: Observation, confirmation: Observation,
                    initialKinds: seq<SignalKind>, confirmationKinds: seq<SignalKind>,
                    repeatedKinds: seq<SignalKind>, ceilingReached: bool, classification: JoinClassification)

  datatype RealtimeError =
    | CleanupFailureSeen
    | DwellUnfinished
    | SuspectCleanupFailed
    | RecoveryBaselineFailed
    | ConfirmationCleanupFailed
    | JoinInconclusive

  /** What a level that left no record had done when it failed. */
  datatype Stop =
    | AtInitial(seen: Observation)
    | AtReset(initial: Observation, closes: seq<bool>)
    | AtCooldown(initial: Observation)
    | AtBaseline(initial: Observation, seen: Observation)
    | AtBaselineClose(initial: Observation, baseline: Observation, closes: seq<bool>)
    | AtSecondCooldown(initial: Observation, baseline: Observation)
    | AtConfirmation(initial: Observation, baseline: Observation, seen: Observation)
    | AtConfirmationClose(initial: Observation, baseline: Observation, confirmation: Observation,
                          closes: seq<bool>)

  // ---------------------------------------------------------------- the trace

  ghost function JoinSteps(attempts: seq<Attempt>): seq<Step> {
    seq(|attempts|, i requires 0 <= i < |attempts| => Join(attempts[i]))
  }

  ghost function LookSteps(ids: seq<ConnectionId>, ss: seq<Snapshot>): seq<Step> {
    if |ids| == |ss| then seq(|ids|, i requires 0 <= i < |ids| => Look(ids[i], ss[i])) else []
  }

  ghost function CloseSteps(ids: seq<ConnectionId>, oks: seq<bool>): seq<Step> {
    if |ids| == |oks| then seq(|ids|, i requires 0 <= i < |ids| => Close(ids[i], oks[i])) else []
  }

  ghost function Trues(n: nat): seq<bool> { seq(n, _ => true) }

  ghost predicate Distinct(ids: seq<ConnectionId>) { forall i, j :: 0 <= i < j < |ids| ==> ids[i] != ids[j] }

  /** An observation of a batch of `count` joins beside the open connections `held`:
      what is looked at is those, followed by the batch's own handles, no two the
      same. */
  ghost predicate Batch(o: Observation, held: seq<ConnectionId>, count: int) {
    && |o.attempts| == count
    && (o.NotCleaned? <==> CleanupFailed in o.attempts)
    && (o.NotCleaned? ==> |o.closes| == |Handles(o.attempts)|)
    && (o.Observed? ==>
          |o.snapshots| == |o.active| && o.active == held + Handles(o.attempts) && Distinct(o.active))
  }

  ghost function ObservationSteps(o: Observation): seq<Step> {
    match o
    case Observed(attempts, active, snapshots) =>
      JoinSteps(attempts) + ([Dwell(true)] + LookSteps(active, snapshots))
    case NotCleaned(attempts, closes) => JoinSteps(attempts) + CloseSteps(Handles(attempts), closes)
    case NotDwelt(attempts) => JoinSteps(attempts) + [Dwell(false)]
  }

  ghost function ClosingSteps(o: Observation, oks: seq<bool>): seq<Step> {
    ObservationSteps(o) + if o.Observed? then CloseSteps(o.active, oks) else []
  }

  ghost function ClosedSteps(o: Observation): seq<Step> {
    ClosingSteps(o, if o.Observed? then Trues(|o.active|) else [])
  }

  /** A finished wave, its connections closed, and the rest after it. */
  ghost function ResetSteps(o: Observation): seq<Step> { ClosedSteps(o) + [Dwell(true)] }

  /** The traffic a record stands for, in order. */
  ghost function StepsOf(r: RealtimeRecord): seq<Step> {
    match r
    case HealthyJoin(_, _, seen) => ObservationSteps(seen)
    case JoinCandidate(_, initial, baseline, confirmation, _, _, _, _, _) =>
      ResetSteps(initial) + ResetSteps(baseline) + ClosedSteps(confirmation)
  }

  ghost function StopSteps(s: Stop): seq<Step> {
    match s
    case AtInitial(o) => ObservationSteps(o)
    case AtReset(i, closes) => ClosingSteps(i, closes)
    case AtCooldown(i) => ClosedSteps(i) + [Dwell(false)]
    case AtBaseline(i, o) => ResetSteps(i) + ObservationSteps(o)
    case AtBaselineClose(i, b, closes) => ResetSteps(i) + ClosingSteps(b, closes)
    case AtSecondCooldown(i, b) => ResetSteps(i) + (ClosedSteps(b) + [Dwell(false)])
    case AtConfirmation(i, b, o) => ResetSteps(i) + ResetSteps(b) + ObservationSteps(o)
    case AtConfirmationClose(i, b, o, closes) => ResetSteps(i) + ResetSteps(b) + ClosingSteps(o, closes)
  }

  // ------------------------------------------------------------- what it means

  ghost predicate SteadyAt(o: Observation, connections: int) {
    o.Observed? && Steady(o.attempts, o.snapshots, connections)
  }

  ghost predicate ShownIn(o: Observation, k: SignalKind) {
    o.Observed? && Shows(o.attempts, o.snapshots, k)
  }

  /** A finished wave that was not steady. */
  ghost predicate Suspected(o: Observation, held: seq<ConnectionId>, connections: int) {
    Batch(o, held, connections - |held|) && o.Observed? && !SteadyAt(o, connections)
  }

  /** The healthy control: one connection, joined and stable. */
  ghost predicate Control(o: Observation) { Batch(o, [], 1) && SteadyAt(o, 1) }

  /** What a record must have behind it, the connections `held` being open when its
      level began. */
  ghost predicate Sound(r: RealtimeRecord, held: seq<ConnectionId>) {
    match r
    case HealthyJoin(connections, attempted, seen) =>
      attempted == connections - |held| && Batch(seen, held, attempted) && SteadyAt(seen, connections)
    case JoinCandidate(connections, initial, baseline, confirmation, ik, ck, rk, ceiling, verdict) =>
      && Suspected(initial, held, connections) && Control(baseline)
      && Batch(confirmation, [], connections) && confirmation.Observed?
      && (forall k :: k in ik <==> ShownIn(initial, k))
      && (forall k :: k in ck <==> ShownIn(confirmation, k))
      && (forall k :: k in rk <==> ShownIn(initial, k) && ShownIn(confirmation, k))
      && (ceiling <==> exists k :: ShownIn(initial, k) && ShownIn(confirmation, k))
      && (verdict == ConfirmedJoinOrStabilityLimit <==> ceiling)
      && (verdict == JoinBurstCandidateNotReproduced <==> SteadyAt(confirmation, connections))
  }

  /** A batch that ended the level before its connections could be judged. */
  ghost predicate CutShort(o: Observation, held: seq<ConnectionId>, count: int, e: RealtimeError) {
    Batch(o, held, count) && !o.Observed? && e == if o.NotCleaned? then CleanupFailureSeen else DwellUnfinished
  }

  ghost predicate NotAllClosed(o: Observation, closes: seq<bool>) {
    o.Observed? && |closes| == |o.active| && closes != Trues(|o.active|)
  }

  /** The error a level without a record ends in, and why. */
  ghost predicate Explains(s: Stop, e: RealtimeError, held: seq<ConnectionId>, connections: int) {
    match s
    case AtInitial(o) => CutShort(o, held, connections - |held|, e)
    case AtReset(i, closes) =>
      Suspected(i, held, connections) && NotAllClosed(i, closes) && e == SuspectCleanupFailed
    case AtCooldown(i) => Suspected(i, held, connections) && e == DwellUnfinished
    case AtBaseline(i, o) => Suspected(i, held, connections) && CutShort(o, [], 1, e)
    case AtBaselineClose(i, b, closes) =>
      && Suspected(i, held, connections) && Batch(b, [], 1) && b.Observed? && |closes| == |b.active|
      && (NotAllClosed(b, closes) || !SteadyAt(b, 1)) && e == RecoveryBaselineFailed
    case AtSecondCooldown(i, b) => Suspected(i, held, connections) && Control(b) && e == DwellUnfinished
    case AtConfirmation(i, b, o) =>
      Suspected(i, held, connections) && Control(b) && CutShort(o, [], connections, e)
    case AtConfirmationClose(i, b, o, closes) =>
      && Suspected(i, held, connections) && Control(b) && Batch(o, [], connections)
      && NotAllClosed(o, closes) && e == ConfirmationCleanupFailed
  }

  ghost function LeftOpen(o: Observation): set<ConnectionId> {
    if o.NotDwelt? then Ids(Handles(o.attempts)) else {}
  }

  /** The connections no one closes: those of a control or confirmation batch
      whose dwell did not complete. */
  ghost function Lost(s: Stop): set<ConnectionId> {
    match s
    case AtBaseline(_, o) => LeftOpen(o)
    case AtConfirmation(_, _, o) => LeftOpen(o)
    case _ => {}
  }

  // --------------------------------------------------------------- operations

  /** Nothing handed over is forgotten: it was closed, or is in `active`, or is
      one of the `lost`, which were not closed. */
  ghost predicate Accounted(handed: set<ConnectionId>, closeTried: set<ConnectionId>, calls: nat,
                            active: set<ConnectionId>, lost: set<ConnectionId>) {
    && closeTried <= handed && active <= handed && lost <= handed
    && handed <= closeTried + active + lost
    && lost !! closeTried && (lost != {} ==> active == {})
    && forall id :: id in handed ==> id < calls
  }

  lemma IdsConcat(a: seq<ConnectionId>, b: seq<ConnectionId>)
    ensures Ids(a + b) == Ids(a) + Ids(b)
  {
  }

  lemma IdsSnoc(ids: seq<ConnectionId>, i: nat)
    requires i < |ids|
    ensures Ids(ids[..i + 1]) == Ids(ids[..i]) + {ids[i]}
  {
    assert ids[..i + 1] == ids[..i] + [ids[i]];
  }

  lemma JoinStepsSnoc(attempts: seq<Attempt>, a: Attempt)
    ensures JoinSteps(attempts + [a]) == JoinSteps(attempts) + [Join(a)]
  {
  }

  lemma TruesSnoc(oks: seq<bool>, ok: bool)
    ensures oks + [ok] == Trues(|oks| + 1) <==> oks == Trues(|oks|) && ok
  {
    assert Trues(|oks| + 1) == Trues(|oks|) + [true];
    if oks + [ok] == Trues(|oks| + 1) {
      assert oks == (oks + [ok])[..|oks|];
      assert (oks + [ok])[|oks|];
    }
  }

  lemma CloseStepsSnoc(ids: seq<ConnectionId>, oks: seq<bool>, ok: bool)
    requires |oks| < |ids|
    ensures CloseSteps(ids[..|oks| + 1], oks + [ok]) == CloseSteps(ids[..|oks|], oks) + [Close(ids[|oks|], ok)]
  {
  }

  lemma LookStepsSnoc(ids: seq<ConnectionId>, ss: seq<Snapshot>, s: Snapshot)
    requires |ss| < |ids|
    ensures LookSteps(ids[..|ss| + 1], ss + [s]) == LookSteps(ids[..|ss|], ss) + [Look(ids[|ss|], s)]
  {
  }

  /** Every close is attempted, and the slowest decides when the group is over. */
  method CloseConnections(s: Services, w0: World, c: Config, ids: seq<ConnectionId>)
    returns (w: World, closed: bool, oks: seq<bool>)
    requires Validated(c) && Honest(s, c, w0.calls, w0.trace)
    ensures Honest(s, c, w.calls, w.trace)
    ensures |oks| == |ids| && (closed <==> oks == Trues(|ids|))
    ensures w.trace == w0.trace + CloseSteps(ids, oks)
    ensures w.closeTried == w0.closeTried + Ids(ids) && w.handed == w0.handed
    ensures w.calls == w0.calls + |ids|
    ensures w0.clock <= w.clock <= w0.clock + OperationMs(c)
    ensures ids == [] ==> closed && w.clock == w0.clock
  {
    w := w0;
    closed, oks := true, [];
    assert Trues(0) == [] && CloseSteps(ids[..0], []) == [] && Ids(ids[..0]) == {};
    TakesTime(c);
    hide ValidRamp, CloseSteps, Trues, Ids, Honest;
    var slowest: nat := 0;
    var bound := OperationMs(c);
    for i := 0 to |ids|
      invariant |oks| == i && (closed <==> oks == Trues(i)) && slowest <= bound
      invariant i == 0 ==> slowest == 0
      invariant w.calls == w0.calls + i && w.clock == w0.clock && Honest(s, c, w.calls, w.trace)
      invariant w.trace == w0.trace + CloseSteps(ids[..i], oks)
      invariant w.closeTried == w0.closeTried + Ids(ids[..i]) && w.handed == w0.handed
    {
      var ok, ms;
      ghost var was := w;
      w, ok, ms := CloseBefore(s, w, ids[i], bound);
      HonestSnoc(s, c, was.calls, was.trace, Close(ids[i], ok));
      IdsSnoc(ids, i);
      CloseStepsSnoc(ids, oks, ok);
      TruesSnoc(oks, ok);
      closed := closed && ok;
      oks := oks + [ok];
      slowest := Max(slowest, ms);
    }
    assert ids[..|ids|] == ids;
    w := Advance(w, slowest);
  }

  lemma HandleAccounted(handed: set<ConnectionId>, closeTried: set<ConnectionId>, calls: nat,
                        active: set<ConnectionId>, id: ConnectionId)
    requires Accounted(handed, closeTried, calls, active, {}) && calls <= id
    ensures Accounted(handed + {id}, closeTried, id + 1, active + {id}, {}) && id !in closeTried
  {
  }

  lemma CallsGoOn(handed: set<ConnectionId>, closeTried: set<ConnectionId>, calls: nat,
                  active: set<ConnectionId>, lost: set<ConnectionId>, later: nat)
    requires Accounted(handed, closeTried, calls, active, lost) && calls <= later
    ensures Accounted(handed, closeTried, later, active, lost)
  {
  }

  lemma OpenedUnderCall(answer: Option<JoinResult>, id: ConnectionId)
    ensures AttemptOf(answer, id).Opened? ==> AttemptOf(answer, id).id == id
  {
  }

  lemma IdsOne(id: ConnectionId)
    ensures Ids([id]) == {id}
  {
  }

  lemma AssessmentIs(ss: seq<Snapshot>)
    ensures AssessmentOf(ss) == Assessment(CountStable(ss), CountEventful(ss), SumOf(ss))
  {
  }

  /** Connections drawn one after another from the calls between `from` and `to`. */
  ghost predicate Drawn(ids: seq<ConnectionId>, from: nat, to: nat) {
    Distinct(ids) && forall i :: 0 <= i < |ids| ==> from <= ids[i] < to
  }

  /** The next call draws one more connection, or none. */
  lemma DrawnNext(ids: seq<ConnectionId>, from: nat, to: nat)
    requires from <= to && Drawn(ids, from, to)
    ensures Drawn(ids, from, to + 1) && Drawn(ids + [to], from, to + 1)
  {
  }

  lemma NoneDrawn(from: nat)
    ensures Drawn([], from, from)
  {
  }

  /** What was open before and what is drawn after are all distinct. */
  lemma DrawnAfter(held: seq<ConnectionId>, handles: seq<ConnectionId>, handed: set<ConnectionId>,
                   closeTried: set<ConnectionId>, from: nat, to: nat)
    requires Distinct(held) && Drawn(handles, from, to) && Accounted(handed, closeTried, from, Ids(held), {})
    ensures Distinct(held + handles)
  {
    forall i | 0 <= i < |held| ensures held[i] < from { assert held[i] in Ids(held); }
  }

  lemma NoneAttempted(s: Services, from: nat, bound: int)
    ensures bound >= 0 ==> AttemptsFrom(s, from, bound, [])
  {
  }

  lemma NoAttempts()
    ensures Handles([]) == [] && FailuresOf([]) == NO_FAILURES && JoinSteps([]) == []
  {
  }

  /** The books while a batch joins: what was handed over before is still accounted
      for, and the handles of the batch were handed over and none of them closed. */
  ghost predicate Joining(w0: World, w: World, active: set<ConnectionId>, handles: seq<ConnectionId>) {
    && Accounted(w.handed, w.closeTried, w.calls, active + Ids(handles), {})
    && Ids(handles) !! w.closeTried
    && w.handed == w0.handed + Ids(handles) && w.closeTried == w0.closeTried
  }

  lemma NoneJoined(w0: World, active: set<ConnectionId>)
    requires Accounted(w0.handed, w0.closeTried, w0.calls, active, {})
    ensures Joining(w0, w0, active, [])
  {
    assert Ids([]) == {} && active + {} == active;
  }

  lemma OneJoined(w0: World, was: World, w: World, active: set<ConnectionId>, handles: seq<ConnectionId>,
                  attempt: Attempt)
    requires Joining(w0, was, active, handles) && (attempt.Opened? ==> attempt.id == was.calls)
    requires w.calls == was.calls + 1 && w.closeTried == was.closeTried
    requires w.handed == if attempt.Opened? then was.handed + {attempt.id} else was.handed
    ensures Joining(w0, w, active, if attempt.Opened? then handles + [attempt.id] else handles)
  {
    var all := active + Ids(handles);
    if attempt.Opened? {
      HandleAccounted(was.handed, w.closeTried, was.calls, all, attempt.id);
      IdsConcat(handles, [attempt.id]);
      IdsOne(attempt.id);
      assert all + {attempt.id} == active + Ids(handles + [attempt.id]);
    } else {
      CallsGoOn(was.handed, w.closeTried, was.calls, all, {}, w.calls);
    }
  }

  /** Each attempt is what the answer to its own join makes it. */
  ghost predicate AttemptsFrom(s: Services, from: nat, bound: nat, attempts: seq<Attempt>) {
    forall i {:trigger attempts[i]} :: 0 <= i < |attempts| ==>
      attempts[i] == AttemptOf(Race(s.opens(from + i), bound), from + i)
  }

  lemma AttemptsFromSnoc(s: Services, from: nat, bound: nat, attempts: seq<Attempt>, a: Attempt)
    requires AttemptsFrom(s, from, bound, attempts)
    requires a == AttemptOf(Race(s.opens(from + |attempts|), bound), from + |attempts|)
    ensures AttemptsFrom(s, from, bound, attempts + [a])
  {
    hide AttemptOf;
  }

  /** The counts of a batch are those of the answers to its joins: each late or missing
      one is a deadline, and each refusal counts for its own terminal. */
  ghost predicate CountedFrom(s: Services, from: nat, n: nat, bound: int, handles: seq<ConnectionId>, f: Failures) {
    && |handles| == CountCame(s, from, n, bound, Handle)
    && f.pastDeadline == CountMissed(s, from, n, bound) + CountCame(s, from, n, bound, Failure(PastDeadline))
    && f.network == CountCame(s, from, n, bound, OtherCause) + CountCame(s, from, n, bound, Failure(NetworkTrouble))
    && f.refused.channelError == CountCame(s, from, n, bound, Failure(Refused(ChannelError)))
    && f.refused.timedOut == CountCame(s, from, n, bound, Failure(Refused(TimedOut)))
    && f.refused.closed == CountCame(s, from, n, bound, Failure(Refused(Closed)))
  }

  lemma {:induction false} AttemptsCounted(s: Services, from: nat, bound: nat, attempts: seq<Attempt>)
    requires AttemptsFrom(s, from, bound, attempts)
    ensures CountedFrom(s, from, |attempts|, bound, Handles(attempts), FailuresOf(attempts))
  {
    hide AttemptOf, Race, Came, Missed;
    if attempts == [] {
    } else {
      var n := |attempts| - 1;
      var front, last := attempts[..n], attempts[n];
      assert attempts == front + [last];
      AttemptsCounted(s, from, bound, front);
      AttemptMeans(s, from + n, bound);
      CameOnce(s, from + n, bound);
      HandlesSnoc(front, last);
    }
  }

  /** An answer comes once, or not at all. */
  lemma CameOnce(s: Services, n: nat, bound: int)
    ensures forall r, q :: Came(s, n, bound, r) && Came(s, n, bound, q) ==> r == q
    ensures forall r :: Came(s, n, bound, r) ==> !Missed(s, n, bound)
  {
  }

  lemma SomeNotCleaned(s: Services, from: nat, bound: nat, attempts: seq<Attempt>)
    requires AttemptsFrom(s, from, bound, attempts)
    ensures CleanupFailed in attempts <==> exists n: nat :: from <= n < from + |attempts| && Came(s, n, bound, CleanupFailure)
  {
    hide AttemptOf, Race, Came;
    if n: nat :| from <= n < from + |attempts| && Came(s, n, bound, CleanupFailure) {
      AttemptMeans(s, n, bound);
      assert attempts[n - from] == CleanupFailed;
    }
    if CleanupFailed in attempts {
      var i :| 0 <= i < |attempts| && attempts[i] == CleanupFailed;
      AttemptMeans(s, from + i, bound);
      assert Came(s, from + i, bound, CleanupFailure);
    }
  }

  /** The joins of a batch. All of them are waited for. */
  method JoinAll(s: Services, w0: World, c: Config, count: nat, ghost active: set<ConnectionId>)
    returns (w: World, attempts: seq<Attempt>, handles: seq<ConnectionId>, failures: Failures)
    requires Validated(c) && Accounted(w0.handed, w0.closeTried, w0.calls, active, {})
    requires Honest(s, c, w0.calls, w0.trace)
    ensures Honest(s, c, w.calls, w.trace)
    ensures Drawn(handles, w0.calls, w.calls) && w.calls == w0.calls + count
    ensures CountedFrom(s, w0.calls, count, OperationMs(c), handles, failures)
    ensures CleanupFailed in attempts <==>
            exists n: nat :: w0.calls <= n < w0.calls + count && Came(s, n, OperationMs(c), CleanupFailure)
    ensures |attempts| == count && handles == Handles(attempts) && failures == FailuresOf(attempts)
    ensures Accounted(w.handed, w.closeTried, w.calls, active + Ids(handles), {})
    ensures Ids(handles) !! w.closeTried
    ensures w.handed == w0.handed + Ids(handles) && w.closeTried == w0.closeTried
    ensures w.trace == w0.trace + JoinSteps(attempts)
    ensures w0.clock <= w.clock <= w0.clock + OperationMs(c)
  {
    hide ValidRamp, CountFailure, Accounted, Ids, JoinSteps, Handles, FailuresOf, AttemptOf, Honest, Drawn, Distinct,
      Joining, AttemptsFrom, CountedFrom, Came;
    w := w0;
    attempts, handles, failures := [], [], NO_FAILURES;
    NoAttempts();
    NoneAttempted(s, w0.calls, OperationMs(c));
    TakesTime(c);
    NoneJoined(w0, active);
    NoneDrawn(w0.calls);
    var slowest: nat := 0;
    var bound := OperationMs(c);
    for i := 0 to count
      invariant |attempts| == i && handles == Handles(attempts) && failures == FailuresOf(attempts)
      invariant slowest <= bound && w.clock == w0.clock && Honest(s, c, w.calls, w.trace)
      invariant w.calls == w0.calls + i && Drawn(handles, w0.calls, w.calls) && Joining(w0, w, active, handles)
      invariant AttemptsFrom(s, w0.calls, bound, attempts)
      invariant w.trace == w0.trace + JoinSteps(attempts)
    {
      ghost var was := w;
      var attempt, ms;
      w, attempt, ms := OpenBefore(s, w, bound);
      OpenedUnderCall(Race(s.opens(was.calls), bound), was.calls);
      HonestSnoc(s, c, was.calls, was.trace, Join(attempt));
      DrawnNext(handles, w0.calls, was.calls);
      OneJoined(w0, was, w, active, handles, attempt);
      HandlesSnoc(attempts, attempt);
      JoinStepsSnoc(attempts, attempt);
      AttemptsFromSnoc(s, w0.calls, bound, attempts, attempt);
      attempts := attempts + [attempt];
      failures := CountFailure(failures, attempt);
      if attempt.Opened? { handles := handles + [attempt.id]; }
      slowest := Max(slowest, ms);
    }
    JoinedIs(w0, w, active, handles);
    AttemptsCounted(s, w0.calls, bound, attempts);
    SomeNotCleaned(s, w0.calls, bound, attempts);
    w := Advance(w, slowest);
  }

  lemma JoinedIs(w0: World, w: World, active: set<ConnectionId>, handles: seq<ConnectionId>)
    requires Joining(w0, w, active, handles)
    ensures Accounted(w.handed, w.closeTried, w.calls, active + Ids(handles), {})
    ensures Ids(handles) !! w.closeTried
    ensures w.handed == w0.handed + Ids(handles) && w.closeTried == w0.closeTried
  {
  }

  method TakeSnapshots(s: Services, w0: World, c: Config, ids: seq<ConnectionId>)
    returns (w: World, ss: seq<Snapshot>)
    requires Validated(c) && Honest(s, c, w0.calls, w0.trace)
    ensures Honest(s, c, w.calls, w.trace)
    ensures |ss| == |ids| && w.trace == w0.trace + LookSteps(ids, ss)
    ensures w0.calls <= w.calls && w.clock == w0.clock
    ensures w.handed == w0.handed && w.closeTried == w0.closeTried
  {
    w := w0;
    ss := [];
    assert LookSteps(ids[..0], []) == [];
    TakesTime(c);
    hide LookSteps, Honest, ValidRamp;
    for i := 0 to |ids|
      invariant Honest(s, c, w.calls, w.trace)
      invariant |ss| == i && w.trace == w0.trace + LookSteps(ids[..i], ss)
      invariant w0.calls <= w.calls && w.clock == w0.clock
      invariant w.handed == w0.handed && w.closeTried == w0.closeTried
    {
      var snapshot;
      ghost var was := w;
      w, snapshot := TakeSnapshot(s, w, ids[i]);
      HonestSnoc(s, c, was.calls, was.trace, Look(ids[i], snapshot));
      LookStepsSnoc(ids, ss, snapshot);
      ss := ss + [snapshot];
    }
    assert ids[..|ids|] == ids;
  }

  method Rest(s: Services, w0: World, c: Config) returns (w: World, completed: bool)
    requires Validated(c) && Honest(s, c, w0.calls, w0.trace)
    ensures Honest(s, c, w.calls, w.trace)
    ensures w.trace == w0.trace + [Dwell(completed)]
    ensures w.handed == w0.handed && w.closeTried == w0.closeTried
    ensures w.calls == w0.calls + 1 && w0.clock <= w.clock <= w0.clock + RestMs(c)
  {
    TakesTime(c);
    hide Honest;
    w, completed := WaitFor(s, w0, RestMs(c));
    HonestSnoc(s, c, w0.calls, w0.trace, Dwell(completed));
  }

  /** Closing some of the active connections and making further calls. */
  lemma StaysAccounted(handed: set<ConnectionId>, closeTried: set<ConnectionId>, calls: nat,
                       active: set<ConnectionId>, closing: set<ConnectionId>, later: nat)
    requires Accounted(handed, closeTried, calls, active, {}) && closing <= active && calls <= later
    ensures Accounted(handed, closeTried + closing, later, active, {})
    ensures Accounted(handed, closeTried + closing, later, active - closing, {})
  {
  }

  /** A batch of joins and the dwell after it, beside the connections `held`.
      A cleanup failure among the joins closes the others at once. */
  method Observe(s: Services, w0: World, c: Config, held: seq<ConnectionId>, count: nat)
    returns (w: World, o: Observation, active: seq<ConnectionId>, failures: Failures, a: Assessment)
    requires Validated(c) && Accounted(w0.handed, w0.closeTried, w0.calls, Ids(held), {})
    requires Honest(s, c, w0.calls, w0.trace) && Distinct(held)
    ensures Honest(s, c, w.calls, w.trace) && Distinct(active)
    ensures o.NotCleaned? <==> exists n: nat :: w0.calls <= n < w0.calls + count && Came(s, n, OperationMs(c), CleanupFailure)
    ensures o.Observed? ==> CountedFrom(s, w0.calls, count, OperationMs(c), Handles(o.attempts), failures)
    ensures Batch(o, held, count)
    ensures active == held + if o.NotCleaned? then [] else Handles(o.attempts)
    ensures o.Observed? ==> o.active == active && failures == FailuresOf(o.attempts)
                            && a == AssessmentOf(o.snapshots)
    ensures w.trace == w0.trace + ObservationSteps(o)
    ensures Accounted(w.handed, w.closeTried, w.calls, Ids(active), {})
    ensures LeftOpen(o) !! w.closeTried
    ensures w0.clock <= w.clock
    ensures w.clock <= w0.clock + OperationMs(c) + if o.NotCleaned? then OperationMs(c) else RestMs(c)
  {
    w := w0;
    hide ValidRamp, FailuresOf, AssessmentOf, JoinSteps, LookSteps, CloseSteps, Ids, Accounted, Handles, Honest, Distinct,
      Drawn, Came, CountedFrom;
    var attempts, handles;
    w, attempts, handles, failures := JoinAll(s, w, c, count, Ids(held));
    active, a := held, Assessment(0, 0, NONE);
    ghost var tried, calls := w.closeTried, w.calls;
    DrawnAfter(held, handles, w0.handed, w0.closeTried, w0.calls, w.calls);
    if CleanupFailed in attempts {
      var closed, oks;
      w, closed, oks := CloseConnections(s, w, c, handles);
      o := NotCleaned(attempts, oks);
      StaysAccounted(w.handed, tried, calls, Ids(held) + Ids(handles), Ids(handles), w.calls);
      Covered(w.handed, w.closeTried, w.calls, Ids(held), Ids(handles));
      return;
    }
    IdsConcat(held, handles);
    active := held + handles;
    var rested;
    w, rested := Rest(s, w, c);
    if !rested {
      o := NotDwelt(attempts);
      StaysAccounted(w.handed, tried, calls, Ids(active), {}, w.calls);
      assert tried + {} == tried;
      return;
    }
    var snapshots;
    w, snapshots := TakeSnapshots(s, w, c, active);
    a := AssessRealtime(snapshots);
    o := Observed(attempts, active, snapshots);
    AssessmentIs(snapshots);
    StaysAccounted(w.handed, tried, calls, Ids(active), {}, w.calls);
    assert tried + {} == tried;
  }

  lemma Covered(handed: set<ConnectionId>, closeTried: set<ConnectionId>, calls: nat,
                before: set<ConnectionId>, closing: set<ConnectionId>)
    requires Accounted(handed, closeTried, calls, before + closing, {}) && closing <= closeTried
    ensures Accounted(handed, closeTried, calls, before, {})
  {
  }
}
