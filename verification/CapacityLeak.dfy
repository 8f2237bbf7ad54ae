/** A capacity run that leaves a connection open: its control batch joins, the dwell
    after it never ends, and nothing closes what it joined (apps/api/scripts/
    deployed-capacity-lib.ts, lines 1441-1461 and 1541-1548). */
module CapacityLeak {
  import opened Basics
  import opened Wrappers
  import opened RealtimeHistory
  import opened CapacityBudget
  import opened CapacityWorld
  import opened CapacityRealtime
  import opened CapacityRamp
  import opened CapacityRun
  import R = CapacityLevels
  import A = CapacityApi

  /** Services that answer everything at once, but for a connection that is never up
      when it is looked at, and a wait that never ends: the eleventh thing asked. */
  const LEAKY := Services(
    _ => Settles(Some(200), 0),
    _ => Settles(Handle, 0),
    _ => Settles(true, 0),
    n => if n < 10 then Settles(true, 0) else Never,
    _ => Snapshot(false, NONE))

  const SMALL := Config(Realtime, [1], [1], 1, 1_000, 1_000)

  lemma LeakyAnswers(n: nat, step: Step)
    requires Validated(SMALL) && Answered(LEAKY, SMALL, n, step)
    ensures step.Join? ==> step.attempt == Opened(n)
    ensures step.Close? ==> step.ok
    ensures step.Dwell? ==> step.completed == (n < 10)
    ensures step.Look? ==> !Stable(step.snapshot)
  {
  }

  lemma SmallIsValid()
    ensures Validated(SMALL) && RunsRealtime(SMALL) && !RunsApi(SMALL)
  {
  }

  /** A position of a trace whose first four steps are set apart. */
  lemma AfterFour(s: Services, c: Config, calls: nat, head: seq<Step>, rest: seq<Step>, k: nat)
    requires Honest(s, c, calls, head + rest) && |head| == 4 && k < |rest|
    ensures 0 <= c.deadlineMs && 0 <= OperationMs(c) && 0 <= RestMs(c) && Answered(s, c, k + 4, rest[k])
  {
    assert (head + rest)[k + 4] == rest[k];
  }

  /** What the first level does: the one join succeeds, and if its dwell completes
      the connection is looked at and found down. */
  lemma FirstWave(calls: nat, head: seq<Step>, o: Observation, tail: seq<Step>)
    requires Honest(LEAKY, SMALL, calls, head + (ObservationSteps(o) + tail)) && |head| == 4 && Batch(o, [], 1)
    ensures o.Observed? && |o.active| == 1 && |ObservationSteps(o)| == 3 && !SteadyAt(o, 1)
  {
    SmallIsValid();
    var rest := ObservationSteps(o) + tail;
    hide Honest, Answered, Handles;
    assert JoinSteps(o.attempts) == [Join(o.attempts[0])] && rest[0] == Join(o.attempts[0]);
    AfterFour(LEAKY, SMALL, calls, head, rest, 0);
    LeakyAnswers(4, rest[0]);
    HandlesOne(o.attempts);
    if !o.Observed? {
      assert o.NotDwelt? && rest[1] == Dwell(false);
      AfterFour(LEAKY, SMALL, calls, head, rest, 1);
      LeakyAnswers(5, rest[1]);
      assert false;
    } else {
      assert rest[2] == Look(o.active[0], o.snapshots[0]);
      AfterFour(LEAKY, SMALL, calls, head, rest, 2);
      LeakyAnswers(6, rest[2]);
    }
  }

  lemma HandlesOne(attempts: seq<Attempt>)
    requires |attempts| == 1 && attempts[0].Opened?
    ensures Handles(attempts) == [attempts[0].id] && CleanupFailed !in attempts
  {
    assert attempts == [] + [attempts[0]];
    HandlesSnoc([], attempts[0]);
  }

  /** The parts of a wave's traffic up to the dwell after its closes. */
  lemma ResetParts(o: Observation)
    requires Batch(o, [], 1) && o.Observed? && |ObservationSteps(o)| == 3 && |o.active| == 1
    ensures ResetSteps(o) == ObservationSteps(o) + [Close(o.active[0], true), Dwell(true)]
    ensures |ResetSteps(o)| == 5
  {
    assert CloseSteps(o.active, Trues(1)) == [Close(o.active[0], true)];
    hide ObservationSteps, CloseSteps;
    Regroup(ObservationSteps(o), [Close(o.active[0], true)], [Dwell(true)]);
  }

  /** A reset begins with the wave it resets. */
  lemma ResetBegins(o: Observation, more: seq<Step>) returns (after: seq<Step>)
    requires o.Observed?
    ensures ResetSteps(o) + more == ObservationSteps(o) + after
  {
    var closing := CloseSteps(o.active, Trues(|o.active|)) + [Dwell(true)];
    ResetIs(o);
    after := closing + more;
    hide *;
    Regroup(ObservationSteps(o), closing, more);
  }

  lemma ResetIs(o: Observation)
    requires o.Observed?
    ensures ResetSteps(o) == ObservationSteps(o) + (CloseSteps(o.active, Trues(|o.active|)) + [Dwell(true)])
  {
    hide ObservationSteps, CloseSteps;
    Regroup(ObservationSteps(o), CloseSteps(o.active, Trues(|o.active|)), [Dwell(true)]);
  }

  /** A wave of one join shows the join and then the dwell. */
  lemma OneJoinSteps(o: Observation)
    requires Batch(o, [], 1)
    ensures |ObservationSteps(o)| > 0 && ObservationSteps(o)[0] == Join(o.attempts[0])
    ensures o.Observed? ==> |ObservationSteps(o)| > 1 && ObservationSteps(o)[1] == Dwell(true)
  {
    assert JoinSteps(o.attempts) == [Join(o.attempts[0])];
  }

  /** What the control batch does: its join succeeds and its dwell breaks. */
  lemma ControlWave(calls: nat, head: seq<Step>, i: Observation, o: Observation, tail: seq<Step>)
    requires Honest(LEAKY, SMALL, calls, head + (ResetSteps(i) + (ObservationSteps(o) + tail))) && |head| == 4
    requires Batch(i, [], 1) && i.Observed? && Batch(o, [], 1)
    ensures o.NotDwelt? && Handles(o.attempts) == [9]
  {
    hide Honest, Answered, ResetSteps, ObservationSteps, Handles, SteadyAt;
    SmallIsValid();
    var rest := ResetSteps(i) + (ObservationSteps(o) + tail);
    var after := ResetBegins(i, ObservationSteps(o) + tail);
    FirstWave(calls, head, i, after);
    ResetParts(i);
    OneJoinSteps(o);
    assert rest[5] == Join(o.attempts[0]);
    AfterFour(LEAKY, SMALL, calls, head, rest, 5);
    LeakyAnswers(9, rest[5]);
    HandlesOne(o.attempts);
    if o.Observed? {
      assert rest[6] == Dwell(true);
      AfterFour(LEAKY, SMALL, calls, head, rest, 6);
      LeakyAnswers(10, rest[6]);
      assert false;
    }
  }

  /** The wave before the reset closed everything, and the rest after it completed. */
  lemma ResetHolds(calls: nat, head: seq<Step>, i: Observation, closes: seq<bool>, tail: seq<Step>)
    requires |head| == 4 && Batch(i, [], 1) && i.Observed? && |closes| == |i.active|
    requires Honest(LEAKY, SMALL, calls, head + (ObservationSteps(i) + (CloseSteps(i.active, closes) + tail)))
    ensures closes == Trues(|i.active|) && (tail != [] && tail[0].Dwell? ==> tail[0].completed)
  {
    SmallIsValid();
    var rest := ObservationSteps(i) + (CloseSteps(i.active, closes) + tail);
    FirstWave(calls, head, i, CloseSteps(i.active, closes) + tail);
    assert CloseSteps(i.active, closes) == [Close(i.active[0], closes[0])];
    hide Honest, Answered, ObservationSteps;
    assert rest[3] == Close(i.active[0], closes[0]);
    AfterFour(LEAKY, SMALL, calls, head, rest, 3);
    LeakyAnswers(7, rest[3]);
    if tail != [] {
      assert rest[4] == tail[0];
      AfterFour(LEAKY, SMALL, calls, head, rest, 4);
      LeakyAnswers(8, rest[4]);
    }
  }

  /** The one way the first level of such a run can stop. */
  lemma LeakyStop(calls: nat, head: seq<Step>, stop: Stop, e: RealtimeError, tail: seq<Step>)
    requires Honest(LEAKY, SMALL, calls, head + (StopSteps(stop) + tail)) && |head| == 4 && Explains(stop, e, [], 1)
    ensures stop.AtBaseline? && Lost(stop) == {9} && e == DwellUnfinished
  {
    hide Honest, ObservationSteps, ResetSteps, CloseSteps, SteadyAt;
    match stop {
      case AtInitial(o) => FirstWave(calls, head, o, tail); assert false;
      case AtReset(i, closes) =>
        Regroup(ObservationSteps(i), CloseSteps(i.active, closes), tail);
        ResetHolds(calls, head, i, closes, tail);
        assert false;
      case AtCooldown(i) =>
        var closes := Trues(|i.active|);
        Regroup(ObservationSteps(i), CloseSteps(i.active, closes), [Dwell(false)]);
        Regroup(ObservationSteps(i) + CloseSteps(i.active, closes), [Dwell(false)], tail);
        Regroup(ObservationSteps(i), CloseSteps(i.active, closes), [Dwell(false)] + tail);
        ResetHolds(calls, head, i, closes, [Dwell(false)] + tail);
        assert false;
      case AtBaseline(i, o) =>
        Regroup(ResetSteps(i), ObservationSteps(o), tail);
        ControlWave(calls, head, i, o, tail);
        assert Lost(stop) == {9};
      case AtBaselineClose(i, b, _) => LeakyEnd(calls, head, stop, i, b, e, tail); assert false;
      case AtSecondCooldown(i, b) => LeakyEnd(calls, head, stop, i, b, e, tail); assert false;
      case AtConfirmation(i, b, _) => LeakyEnd(calls, head, stop, i, b, e, tail); assert false;
      case AtConfirmationClose(i, b, _, _) => LeakyEnd(calls, head, stop, i, b, e, tail); assert false;
    }
  }

  /** A level that stopped past its control batch had watched that batch first. */
  ghost predicate PastControl(stop: Stop, i: Observation, b: Observation) {
    match stop
    case AtBaselineClose(initial, baseline, _) => i == initial && b == baseline
    case AtSecondCooldown(initial, baseline) => i == initial && b == baseline
    case AtConfirmation(initial, baseline, _) => i == initial && b == baseline
    case AtConfirmationClose(initial, baseline, _, _) => i == initial && b == baseline
    case _ => false
  }

  lemma PastControlWaves(stop: Stop, i: Observation, b: Observation, e: RealtimeError)
    requires PastControl(stop, i, b) && Explains(stop, e, [], 1)
    ensures Batch(i, [], 1) && i.Observed? && Batch(b, [], 1) && b.Observed?
  {
    hide Batch;
  }

  lemma PastControlSteps(stop: Stop, i: Observation, b: Observation) returns (more: seq<Step>)
    requires PastControl(stop, i, b) && b.Observed?
    ensures StopSteps(stop) == ResetSteps(i) + (ObservationSteps(b) + more)
  {
    hide ObservationSteps, CloseSteps, SteadyAt, Batch;
    var closes := if stop.AtBaselineClose? then stop.closes else Trues(|b.active|);
    var closing := CloseSteps(b.active, closes);
    more := match stop
      case AtBaselineClose(_, _, _) => closing
      case AtSecondCooldown(_, _) => closing + [Dwell(false)]
      case AtConfirmation(_, _, o) => closing + [Dwell(true)] + ObservationSteps(o)
      case AtConfirmationClose(_, _, o, oks) => closing + [Dwell(true)] + ClosingSteps(o, oks)
      case _ => [];
    WatchedFirst(stop, i, b, closing, more);
  }

  lemma WatchedFirst(stop: Stop, i: Observation, b: Observation, closing: seq<Step>, more: seq<Step>)
    requires PastControl(stop, i, b) && b.Observed?
    requires closing == CloseSteps(b.active, if stop.AtBaselineClose? then stop.closes else Trues(|b.active|))
    requires more == match stop
               case AtBaselineClose(_, _, _) => closing
               case AtSecondCooldown(_, _) => closing + [Dwell(false)]
               case AtConfirmation(_, _, o) => closing + [Dwell(true)] + ObservationSteps(o)
               case AtConfirmationClose(_, _, o, oks) => closing + [Dwell(true)] + ClosingSteps(o, oks)
               case _ => []
    ensures StopSteps(stop) == ResetSteps(i) + (ObservationSteps(b) + more)
  {
    var r := ResetSteps(b);
    Regroup(ObservationSteps(b), closing, [Dwell(true)]);
    Regroup(ObservationSteps(b), closing, [Dwell(false)]);
    match stop {
      case AtBaselineClose(_, _, _) =>
      case AtSecondCooldown(_, _) =>
      case AtConfirmation(_, _, o) =>
        assert r == ObservationSteps(b) + (closing + [Dwell(true)]);
        hide ObservationSteps, ResetSteps, CloseSteps;
        Regroup(ObservationSteps(b), closing + [Dwell(true)], ObservationSteps(o));
        Regroup(ResetSteps(i), r, ObservationSteps(o));
      case AtConfirmationClose(_, _, o, oks) =>
        assert r == ObservationSteps(b) + (closing + [Dwell(true)]);
        hide ObservationSteps, ResetSteps, CloseSteps, ClosingSteps;
        Regroup(ObservationSteps(b), closing + [Dwell(true)], ClosingSteps(o, oks));
        Regroup(ResetSteps(i), r, ClosingSteps(o, oks));
    }
  }

  /** No such run goes past the control batch. */
  lemma LeakyEnd(calls: nat, head: seq<Step>, stop: Stop, i: Observation, b: Observation, e: RealtimeError,
                 tail: seq<Step>)
    requires Honest(LEAKY, SMALL, calls, head + (StopSteps(stop) + tail)) && |head| == 4
    requires Explains(stop, e, [], 1)
    ensures !PastControl(stop, i, b)
  {
    hide Honest, ObservationSteps, ResetSteps, StopSteps, Explains;
    if PastControl(stop, i, b) {
      PastControlWaves(stop, i, b, e);
      var more := PastControlSteps(stop, i, b);
      Regroup(ResetSteps(i), ObservationSteps(b) + more, tail);
      Regroup(ObservationSteps(b), more, tail);
      ControlWave(calls, head, i, b, more + tail);
      assert false;
    }
  }

  /** A recorded level would hold a steady wave, or have got past its control. */
  lemma NothingRecorded(calls: nat, head: seq<Step>, r: RealtimeRecord, tail: seq<Step>)
    requires Honest(LEAKY, SMALL, calls, head + (StepsOf(r) + tail)) && |head| == 4
    ensures !(Sound(r, []) && r.connections == 1)
  {
    hide Honest, ObservationSteps, ResetSteps, SteadyAt, ClosedSteps;
    if Sound(r, []) && r.connections == 1 {
      if r.HealthyJoin? {
        FirstWave(calls, head, r.seen, tail);
        assert false;
      } else {
        ControlSeen(r);
        var more := CloseSteps(r.baseline.active, Trues(|r.baseline.active|)) + [Dwell(true)];
        ResetIs(r.baseline);
        Regroup(ResetSteps(r.initial), ResetSteps(r.baseline), ClosedSteps(r.confirmation));
        Regroup(ResetSteps(r.initial), ResetSteps(r.baseline) + ClosedSteps(r.confirmation), tail);
        Regroup(ObservationSteps(r.baseline), more, ClosedSteps(r.confirmation));
        Regroup(ObservationSteps(r.baseline), more + ClosedSteps(r.confirmation), tail);
        ControlWave(calls, head, r.initial, r.baseline, more + ClosedSteps(r.confirmation) + tail);
        assert false;
      }
    }
  }

  lemma ControlSeen(r: RealtimeRecord)
    requires r.JoinCandidate? && Sound(r, []) && r.connections == 1
    ensures Batch(r.initial, [], 1) && r.initial.Observed? && Batch(r.baseline, [], 1) && r.baseline.Observed?
  {
    hide Batch;
  }

  lemma LeakyPreflight()
    ensures PassesPreflight(LEAKY, START, SMALL) && |PreflightSteps(LEAKY, START, SMALL.deadlineMs)| == 2
  {
    SmallIsValid();
  }

  /** The probe joins and closes. */
  lemma LeakyProbe(calls: nat, pre: seq<Step>, attempt: Attempt, closed: bool, more: seq<Step>)
    requires Honest(LEAKY, SMALL, calls, pre + (ProbeSteps(attempt, closed) + more)) && |pre| == 2
    ensures attempt.Opened? && closed
  {
    SmallIsValid();
    var trace := pre + (ProbeSteps(attempt, closed) + more);
    assert trace[2] == Join(attempt) && Answered(LEAKY, SMALL, 2, trace[2]);
    LeakyAnswers(2, trace[2]);
    assert trace[3] == Close(attempt.id, closed) && Answered(LEAKY, SMALL, 3, trace[3]);
    LeakyAnswers(3, trace[3]);
  }

  /** Whatever the run made of those services, it ended in the control batch. */
  lemma LeakyRun(calls: nat, trace: seq<Step>, api: seq<A.ApiRecord>, realtime: seq<RealtimeRecord>,
                 failure: Option<RunError>, apiSteps: seq<Step>, realtimeSteps: seq<Step>,
                 refusal: Option<A.Refusal>, records: seq<RealtimeRecord>, stop: Option<Stop>)
    requires Honest(LEAKY, SMALL, calls, trace)
    requires trace == PreflightSteps(LEAKY, START, SMALL.deadlineMs) + apiSteps + realtimeSteps
    requires RunEnds(LEAKY, SMALL, api, realtime, failure, refusal, records, stop)
    requires Traffic(SMALL, api, failure, refusal, records, stop, apiSteps, realtimeSteps)
    ensures R.LostBy(stop) == {9}
  {
    var pre := PreflightSteps(LEAKY, START, SMALL.deadlineMs);
    SmallIsValid();
    LeakyPreflight();
    LeakyReaches(api, realtime, failure, refusal, records, stop);
    LeakySilentApi(api, refusal, apiSteps);
    assert trace == pre + realtimeSteps;
    var attempt, closed, ids, oks :| AccountedBy(realtimeSteps, failure, records, stop, attempt, closed, ids, oks);
    hide Honest, PreflightSteps, RunEnds, Traffic, R.AllSteps, R.StopStepsOf, CloseSteps, Trues;
    var a, b, d, z := ProbeSteps(attempt, closed), R.AllSteps(records), R.StopStepsOf(stop), CloseSteps(ids, oks);
    Regroup(a, b, d);
    Regroup(a, b + d, z);
    LeakyProbe(calls, pre, attempt, closed, b + d + z);
    Regroup(pre, a, b + d + z);
    assert |pre + a| == 4;
    ProbeKept(failure, attempt, closed);
    LeakyRamp(calls, pre + a, realtime, failure, records, stop, z);
  }

  lemma ProbeKept(failure: Option<RunError>, attempt: Attempt, closed: bool)
    requires ProbeTells(failure, attempt, closed) && attempt.Opened? && closed
    ensures failure != Some(TopicPreflightFailed) && failure != Some(ProbeCleanupFailed)
  {
  }

  lemma LeakyReaches(api: seq<A.ApiRecord>, realtime: seq<RealtimeRecord>, failure: Option<RunError>,
                     refusal: Option<A.Refusal>, records: seq<RealtimeRecord>, stop: Option<Stop>)
    requires RunEnds(LEAKY, SMALL, api, realtime, failure, refusal, records, stop)
    requires PassesPreflight(LEAKY, START, SMALL) && RunsRealtime(SMALL) && !RunsApi(SMALL)
    ensures ReachesRealtime(SMALL, failure) && api == [] && refusal == None
    ensures RealtimeEnds(records, realtime, SMALL.realtimeRamp, failure, stop) && R.Evidence(records, SMALL.realtimeRamp)
  {
    hide PassesPreflight, R.Evidence, RealtimeEnds, A.Evidence;
  }

  lemma LeakySilentApi(api: seq<A.ApiRecord>, refusal: Option<A.Refusal>, apiSteps: seq<Step>)
    requires api == [] && refusal == None && apiSteps == A.AllSteps(api) + RefusedSteps(refusal)
    ensures apiSteps == []
  {
  }

  lemma LeakyRamp(calls: nat, head: seq<Step>, realtime: seq<RealtimeRecord>, failure: Option<RunError>,
                  records: seq<RealtimeRecord>, stop: Option<Stop>, z: seq<Step>)
    requires Honest(LEAKY, SMALL, calls, head + (R.AllSteps(records) + R.StopStepsOf(stop) + z)) && |head| == 4
    requires RealtimeEnds(records, realtime, SMALL.realtimeRamp, failure, stop) && R.Evidence(records, SMALL.realtimeRamp)
    requires failure != Some(TopicPreflightFailed) && failure != Some(ProbeCleanupFailed)
    ensures R.LostBy(stop) == {9}
  {
    var why := RampEnded(realtime, failure, records, stop);
    if records == [] {
      EmptyRampStops(why, stop);
      hide Honest, StopSteps, Explains;
      assert R.AllSteps(records) + R.StopStepsOf(stop) == StopSteps(stop.value);
      LeakyStop(calls, head, stop.value, why.value, z);
    } else {
      assert R.RecordAt(records, [1], 0) && records[..0] == [] && records == [records[0]];
      hide Honest, StepsOf, R.StopStepsOf, Sound;
      assert R.AllSteps(records) == StepsOf(records[0]);
      Regroup(StepsOf(records[0]), R.StopStepsOf(stop), z);
      NothingRecorded(calls, head, records[0], R.StopStepsOf(stop) + z);
      assert false;
    }
  }

  lemma RampEnded(realtime: seq<RealtimeRecord>, failure: Option<RunError>, records: seq<RealtimeRecord>,
                  stop: Option<Stop>) returns (why: Option<RealtimeError>)
    requires RealtimeEnds(records, realtime, SMALL.realtimeRamp, failure, stop)
    requires failure != Some(TopicPreflightFailed) && failure != Some(ProbeCleanupFailed)
    ensures R.EndsProperly(records, SMALL.realtimeRamp, why, stop)
  {
    hide R.EndsProperly;
    match failure {
      case None => why := None;
      case Some(RealtimeFailed(e)) => why := Some(e);
      case Some(FinalCleanupFailed) => why :| R.EndsProperly(records, SMALL.realtimeRamp, why, stop);
      case Some(_) => assert false; why := None;
    }
  }

  lemma EmptyRampStops(why: Option<RealtimeError>, stop: Option<Stop>)
    requires R.EndsProperly([], SMALL.realtimeRamp, why, stop)
    ensures why.Some? && stop.Some? && Explains(stop.value, why.value, [], 1)
  {
    hide Explains;
  }

  /** A run in which every close asked for succeeds, and which still ends with a
      connection that was handed to it and that it never asked to close. */
  method BrokenControlDwellLeaks() returns (w: World, failure: Option<RunError>)
    ensures failure == Some(RealtimeFailed(DwellUnfinished)) && w.handed - w.closeTried == {9}
  {
    var api, realtime;
    ghost var apiSteps, realtimeSteps, refusal, records, stop;
    SmallIsValid();
    w, api, realtime, failure, apiSteps, realtimeSteps, refusal, records, stop := RunHostedCapacity(LEAKY, SMALL);
    LeakyRun(w.calls, w.trace, api, realtime, failure, apiSteps, realtimeSteps, refusal, records, stop);
  }
}
