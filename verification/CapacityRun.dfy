/** A whole capacity run: preflight, the API ramp, the Realtime ramp and the final
    cleanup (apps/api/scripts/deployed-capacity-lib.ts, lines 1209-1551). */
module CapacityRun {
  import opened Basics
  import opened Wrappers
  import opened RealtimeHistory
  import opened CapacityBudget
  import opened CapacityWorld
  import opened CapacityRealtime
  import opened CapacityRamp
  import A = CapacityApi
  import R = CapacityLevels

  datatype RunError =
    | HealthPreflightFailed
    | HotPathPreflightFailed
    | ApiFailed(api: A.ApiError)
    | TopicPreflightFailed
    | ProbeCleanupFailed
    | RealtimeFailed(realtime: RealtimeError)
    | FinalCleanupFailed

  /** Whether the run stopped in a dwell it could not finish. */
  predicate DwellFailed(failure: Option<RunError>) { failure == Some(RealtimeFailed(DwellUnfinished)) }

  /** The answer comes in time, and its code is in the range. */
  ghost predicate InTime(answer: Timed<Option<int>>, bound: int, low: int, high: int) {
    answer.Settles? && answer.after <= bound && answer.value.Some? && low <= answer.value.value <= high
  }

  /** The two questions asked before any load. */
  ghost predicate PassesPreflight(s: Services, w: World, c: Config) {
    && Validated(c)
    && InTime(s.fetches(w.calls), c.deadlineMs, 200, 200)
    && InTime(s.fetches(w.calls + 1), c.deadlineMs, 200, 299)
  }

  /** The health check, and the hot path if it was healthy. */
  ghost function PreflightSteps(s: Services, w: World, deadline: nat): seq<Step> {
    var health := OutcomeOf(s.fetches(w.calls), deadline);
    [Request(Health, health)]
    + if health.status == Code(200) then [Request(HotPath, OutcomeOf(s.fetches(w.calls + 1), deadline))] else []
  }

  method Preflight(s: Services, w0: World, c: Config) returns (w: World, failure: Option<RunError>)
    requires Validated(c) && Honest(s, c, w0.calls, w0.trace)
    ensures Honest(s, c, w.calls, w.trace)
    ensures failure == None <==> PassesPreflight(s, w0, c)
    ensures failure in {None, Some(HealthPreflightFailed), Some(HotPathPreflightFailed)}
    ensures failure == Some(HealthPreflightFailed) <==> !InTime(s.fetches(w0.calls), c.deadlineMs, 200, 200)
    ensures w.trace == w0.trace + PreflightSteps(s, w0, c.deadlineMs)
    ensures w.clock <= w0.clock + 2 * c.deadlineMs
    ensures A.Slow(s, c) && failure == None ==> w.clock == w0.clock + 2 * c.deadlineMs
    ensures w.handed == w0.handed && w.closeTried == w0.closeTried && w0.calls <= w.calls
  {
    TakesTime(c);
    hide ValidRamp, Honest;
    failure := None;
    OutcomeMeans(s.fetches(w0.calls), c.deadlineMs);
    OutcomeMeans(s.fetches(w0.calls + 1), c.deadlineMs);
    var health, hotPath;
    w, health := BoundedGet(s, w0, Health, c.deadlineMs);
    HonestSnoc(s, c, w0.calls, w0.trace, Request(Health, health));
    w := Advance(w, health.ms);
    if health.status != Code(200) {
      failure := Some(HealthPreflightFailed);
      return;
    }
    ghost var was := w;
    w, hotPath := BoundedGet(s, w, HotPath, c.deadlineMs);
    HonestSnoc(s, c, was.calls, was.trace, Request(HotPath, hotPath));
    w := Advance(w, hotPath.ms);
    if !A.IsSuccess(hotPath.status) {
      failure := Some(HotPathPreflightFailed);
    }
  }

  /** How a Realtime run may end, given what its ramp did. */
  ghost predicate RealtimeEnds(records: seq<RealtimeRecord>, results: seq<RealtimeRecord>, ramp: seq<int>,
                               failure: Option<RunError>, stop: Option<Stop>) {
    match failure
    case None => results == records && R.EndsProperly(records, ramp, None, stop)
    case Some(RealtimeFailed(e)) => results == records && R.EndsProperly(records, ramp, Some(e), stop)
    case Some(FinalCleanupFailed) =>
      results == [] && exists why {:trigger R.EndsProperly(records, ramp, why, stop)} ::
        R.EndsProperly(records, ramp, why, stop)
    case Some(TopicPreflightFailed) => results == [] == records && stop == None
    case Some(ProbeCleanupFailed) => results == [] == records && stop == None
    case Some(_) => false
  }

  /** A probe joins, and closes what it joined. */
  function ProbeSteps(attempt: Attempt, closed: bool): seq<Step> {
    if attempt.Opened? then [Join(attempt), Close(attempt.id, closed)] else [Join(attempt)]
  }

  /** What a probe says of the run. */
  ghost predicate ProbeTells(failure: Option<RunError>, attempt: Attempt, closed: bool) {
    && (failure == Some(TopicPreflightFailed) <==> !attempt.Opened?)
    && (failure == Some(ProbeCleanupFailed) <==> attempt.Opened? && !closed)
  }

  /** One connection joined and closed, to show that the topic can be joined. */
  method Probe(s: Services, w0: World, c: Config)
    returns (w: World, failure: Option<RunError>, ghost attempt: Attempt, closed: bool)
    requires Validated(c) && Accounted(w0.handed, w0.closeTried, w0.calls, {}, {})
    requires Honest(s, c, w0.calls, w0.trace)
    ensures Honest(s, c, w.calls, w.trace)
    ensures Accounted(w.handed, w.closeTried, w.calls, {}, {})
    ensures w.trace == w0.trace + ProbeSteps(attempt, closed) && ProbeTells(failure, attempt, closed)
    ensures failure in {None, Some(TopicPreflightFailed), Some(ProbeCleanupFailed)}
    ensures attempt == AttemptOf(Race(s.opens(w0.calls), OperationMs(c)), w0.calls)
    ensures w.clock <= w0.clock + 2 * OperationMs(c)
  {
    TakesTime(c);
    hide ValidRamp, AttemptOf, Honest;
    failure, closed := None, false;
    var probe, ms;
    w, probe, ms := OpenBefore(s, w0, OperationMs(c));
    HonestSnoc(s, c, w0.calls, w0.trace, Join(probe));
    attempt := probe;
    w := Advance(w, ms);
    if !probe.Opened? {
      failure := Some(TopicPreflightFailed);
      return;
    }
    OpenedUnderCall(Race(s.opens(w0.calls), OperationMs(c)), w0.calls);
    ghost var was := w;
    w, closed, ms := CloseBefore(s, w, probe.id, OperationMs(c));
    HonestSnoc(s, c, was.calls, was.trace, Close(probe.id, closed));
    w := Advance(w, ms);
    if !closed {
      failure := Some(ProbeCleanupFailed);
    }
  }

  /** The traffic of a Realtime run, told by its probe and its last closes: the probe,
      the recorded levels, the level that stopped it, and the closing of what was
      left. A probe that failed is all there was; the final cleanup failed exactly
      when one of the last closes did. */
  ghost predicate AccountedBy(steps: seq<Step>, failure: Option<RunError>, records: seq<RealtimeRecord>,
                              stop: Option<Stop>, attempt: Attempt, closed: bool,
                              ids: seq<ConnectionId>, oks: seq<bool>) {
    && |oks| == |ids| && ProbeTells(failure, attempt, closed)
    && steps == ProbeSteps(attempt, closed) + R.AllSteps(records) + R.StopStepsOf(stop) + CloseSteps(ids, oks)
    && if attempt.Opened? && closed then failure == Some(FinalCleanupFailed) <==> oks != Trues(|ids|)
       else records == [] && stop == None && ids == []
  }

  ghost predicate Accounts(steps: seq<Step>, failure: Option<RunError>, records: seq<RealtimeRecord>,
                           stop: Option<Stop>) {
    exists attempt: Attempt, closed: bool, ids: seq<ConnectionId>, oks: seq<bool> ::
      AccountedBy(steps, failure, records, stop, attempt, closed, ids, oks)
  }

  lemma ProbeAccounts(attempt: Attempt, closed: bool, failure: Option<RunError>)
    requires !(attempt.Opened? && closed) && ProbeTells(failure, attempt, closed)
    ensures Accounts(ProbeSteps(attempt, closed), failure, [], None)
  {
    var steps := ProbeSteps(attempt, closed);
    assert R.AllSteps([]) == [] && R.StopStepsOf(None) == [] && CloseSteps([], []) == [];
    assert steps == steps + [] + [] + [];
    assert AccountedBy(steps, failure, [], None, attempt, closed, [], []);
  }

  lemma RampAccounts(attempt: Attempt, closed: bool, failure: Option<RunError>, records: seq<RealtimeRecord>,
                     stop: Option<Stop>, ids: seq<ConnectionId>, oks: seq<bool>)
    requires attempt.Opened? && closed && |oks| == |ids| && ProbeTells(failure, attempt, closed)
    requires failure == Some(FinalCleanupFailed) <==> oks != Trues(|ids|)
    ensures Accounts(ProbeSteps(attempt, closed) + R.AllSteps(records) + R.StopStepsOf(stop) + CloseSteps(ids, oks),
                     failure, records, stop)
  {
    hide ProbeSteps, CloseSteps, Trues;
    assert AccountedBy(ProbeSteps(attempt, closed) + R.AllSteps(records) + R.StopStepsOf(stop) + CloseSteps(ids, oks),
                       failure, records, stop, attempt, closed, ids, oks);
  }

  lemma FourParts(w: seq<Step>, p: seq<Step>, r: seq<Step>, t: seq<Step>, z: seq<Step>)
    ensures w + p + r + t + z == w + (p + r + t + z)
  {
    Regroup(w, p, r);
    Regroup(w, p + r, t);
    Regroup(w, p + r + t, z);
  }

  /** A probe, the ramp, and the closing of whatever is left. The evidence is
      handed out only once everything is closed. */
  method RunRealtime(s: Services, w0: World, c: Config)
    returns (w: World, results: seq<RealtimeRecord>, failure: Option<RunError>,
             ghost records: seq<RealtimeRecord>, ghost stop: Option<Stop>)
    requires Validated(c) && Accounted(w0.handed, w0.closeTried, w0.calls, {}, {})
    requires Honest(s, c, w0.calls, w0.trace)
    ensures Honest(s, c, w.calls, w.trace)
    ensures R.Evidence(records, c.realtimeRamp)
    ensures RealtimeEnds(records, results, c.realtimeRamp, failure, stop)
    ensures Accounted(w.handed, w.closeTried, w.calls, {}, R.LostBy(stop))
    ensures R.LostBy(stop) != {} ==> DwellFailed(failure)
    ensures w0.trace <= w.trace && Accounts(w.trace[|w0.trace|..], failure, records, stop)
    ensures w.clock <= w0.clock + RealtimeBudgetMs(c) + RealtimeToleranceMs(c)
  {
    hide *;
    TakesTime(c);
    R.NoIds();
    RampFits(c);
    results, records, stop := [], [], None;
    R.RampStarts(c.realtimeRamp);
    ghost var attempt;
    var probed;
    w, failure, attempt, probed := Probe(s, w0, c);
    if failure.Some? {
      ProbeEnds(c.realtimeRamp, failure);
      ProbeFailed(failure, attempt, probed);
      ProbeAccounts(attempt, probed, failure);
      assert w.trace[|w0.trace|..] == ProbeSteps(attempt, probed);
      return;
    }
    ProbeHeld(attempt, probed);
    var collected, rampFailure, where, open, closed, closes;
    w, collected, rampFailure, where, open := R.RunRamp(s, w, c);
    records, stop := collected, where;
    LostMeansDwell(records, c.realtimeRamp, rampFailure, stop);
    FinalClose(w, open, R.LostBy(stop));
    w, closed, closes := CloseConnections(s, w, c, open);
    if !closed {
      failure := Some(FinalCleanupFailed);
    } else {
      results := collected;
      failure := if rampFailure.Some? then Some(RealtimeFailed(rampFailure.value)) else None;
    }
    RampEnds(records, results, c.realtimeRamp, rampFailure, failure, stop);
    HeldTells(failure, attempt, probed);
    RampAccounts(attempt, probed, failure, records, stop, open, closes);
    ghost var p, r, t, z := ProbeSteps(attempt, probed), R.AllSteps(records), R.StopStepsOf(stop), CloseSteps(open, closes);
    FourParts(w0.trace, p, r, t, z);
    assert w.trace[|w0.trace|..] == p + r + t + z;
  }

  lemma ProbeFailed(failure: Option<RunError>, attempt: Attempt, closed: bool)
    requires failure in {Some(TopicPreflightFailed), Some(ProbeCleanupFailed)} && ProbeTells(failure, attempt, closed)
    ensures !(attempt.Opened? && closed)
  {
  }

  lemma ProbeHeld(attempt: Attempt, closed: bool)
    requires ProbeTells(None, attempt, closed)
    ensures attempt.Opened? && closed
  {
  }

  lemma HeldTells(failure: Option<RunError>, attempt: Attempt, closed: bool)
    requires attempt.Opened? && closed && failure != Some(TopicPreflightFailed) && failure != Some(ProbeCleanupFailed)
    ensures ProbeTells(failure, attempt, closed)
  {
  }

  lemma ProbeEnds(ramp: seq<int>, failure: Option<RunError>)
    requires failure in {Some(TopicPreflightFailed), Some(ProbeCleanupFailed)}
    ensures RealtimeEnds([], [], ramp, failure, None)
  {
  }

  lemma RampEnds(records: seq<RealtimeRecord>, results: seq<RealtimeRecord>, ramp: seq<int>,
                 rampFailure: Option<RealtimeError>, failure: Option<RunError>, stop: Option<Stop>)
    requires R.EndsProperly(records, ramp, rampFailure, stop)
    requires (results == [] && failure == Some(FinalCleanupFailed))
             || (results == records
                 && failure == if rampFailure.Some? then Some(RealtimeFailed(rampFailure.value)) else None)
    ensures RealtimeEnds(records, results, ramp, failure, stop)
    ensures rampFailure == Some(DwellUnfinished) && failure != Some(FinalCleanupFailed) ==> DwellFailed(failure)
  {
    hide R.EndsProperly;
  }

  /** Only a dwell that did not complete loses connections. */
  lemma LostMeansDwell(records: seq<RealtimeRecord>, ramp: seq<int>, failure: Option<RealtimeError>, stop: Option<Stop>)
    requires R.EndsProperly(records, ramp, failure, stop)
    ensures R.LostBy(stop) != {} ==> failure == Some(DwellUnfinished)
  {
  }

  /** Closing what is open accounts for everything but what was lost before. */
  lemma FinalClose(w: World, open: seq<ConnectionId>, lost: set<ConnectionId>)
    requires Accounted(w.handed, w.closeTried, w.calls, Ids(open), lost)
    ensures forall later: nat :: w.calls <= later ==>
      Accounted(w.handed, w.closeTried + Ids(open), later, {}, lost)
    ensures lost != {} ==> open == []
  {
    if open != [] { assert open[0] in Ids(open); }
  }

  /** The ramp's own bound, with the probe and the final cleanup, is the budget. */
  lemma RampFits(c: Config)
    requires Validated(c)
    ensures 2 * OperationMs(c) + |c.realtimeRamp| * (OperationMs(c) + RestMs(c)) + 5 * OperationMs(c)
              + 4 * RestMs(c) + OperationMs(c)
         == RealtimeBudgetMs(c) + RealtimeToleranceMs(c)
    ensures 0 <= |c.realtimeRamp| * (OperationMs(c) + RestMs(c))
  {
  }

  /** How the API part ended, or that there was none; a level that left no record is
      explained by where it was refused. */
  ghost predicate ApiEnded(c: Config, api: seq<A.ApiRecord>, why: Option<A.ApiError>, refusal: Option<A.Refusal>) {
    if RunsApi(c) then
      && A.EndsProperly(api, c.apiRamp, why)
      && (refusal.Some? <==> why.Some? && why.value != A.Inconclusive)
      && (refusal.Some? ==>
            |api| < |c.apiRamp| && A.Explains(refusal.value, why.value, c.apiRounds * c.apiRamp[|api|]))
    else api == [] && why == None && refusal == None
  }

  predicate Preflighted(failure: Option<RunError>) {
    failure != Some(HealthPreflightFailed) && failure != Some(HotPathPreflightFailed)
  }

  predicate ReachesRealtime(c: Config, failure: Option<RunError>) {
    RunsRealtime(c) && Preflighted(failure) && !(failure.Some? && failure.value.ApiFailed?)
  }

  /** How a whole run may end. */
  ghost predicate RunEnds(s: Services, c: Config, api: seq<A.ApiRecord>, realtime: seq<RealtimeRecord>,
                          failure: Option<RunError>, refusal: Option<A.Refusal>, records: seq<RealtimeRecord>,
                          stop: Option<Stop>) {
    && A.Evidence(api, c.apiRamp, c.apiRounds) && R.Evidence(records, c.realtimeRamp)
    && (Preflighted(failure) <==> PassesPreflight(s, START, c))
    && if !Preflighted(failure) then
         api == [] && realtime == [] && refusal == None && records == [] && stop == None
       else
         && ApiEnded(c, api, if failure.Some? && failure.value.ApiFailed? then Some(failure.value.api) else None, refusal)
         && if ReachesRealtime(c, failure) then RealtimeEnds(records, realtime, c.realtimeRamp, failure, stop)
            else realtime == [] && records == [] && stop == None && (failure == None || failure.value.ApiFailed?)
  }

  /** Everything a run did after its preflight, part by part: the API levels as
      recorded and the one that was refused, then the probe, the Realtime levels as
      recorded, the one that stopped the run, and the closing of what was left. */
  ghost predicate Traffic(c: Config, api: seq<A.ApiRecord>, failure: Option<RunError>, refusal: Option<A.Refusal>,
                          records: seq<RealtimeRecord>, stop: Option<Stop>,
                          apiSteps: seq<Step>, realtimeSteps: seq<Step>) {
    && apiSteps == A.AllSteps(api) + RefusedSteps(refusal)
    && if ReachesRealtime(c, failure) then Accounts(realtimeSteps, failure, records, stop) else realtimeSteps == []
  }

  ghost function RefusedSteps(refusal: Option<A.Refusal>): seq<Step> {
    if refusal.Some? then A.RefusalSteps(refusal.value) else []
  }

  /** The API part, if the scenario has one. */
  method RunApi(s: Services, w0: World, c: Config)
    returns (w: World, api: seq<A.ApiRecord>, why: Option<A.ApiError>, ghost refusal: Option<A.Refusal>)
    requires Validated(c) && Honest(s, c, w0.calls, w0.trace)
    ensures Honest(s, c, w.calls, w.trace)
    ensures A.Evidence(api, c.apiRamp, c.apiRounds) && ApiEnded(c, api, why, refusal)
    ensures w.trace == w0.trace + (A.AllSteps(api) + RefusedSteps(refusal))
    ensures w.handed == w0.handed && w.closeTried == w0.closeTried && w0.calls <= w.calls
    ensures w.clock <= w0.clock + if RunsApi(c) then ApiBudgetMs(c) + ApiToleranceMs(c) else 0
    ensures A.Slow(s, c) && RunsApi(c) && refusal == None ==> w.clock == w0.clock + A.SlowMs(c, api)
  {
    hide *;
    A.NoEvidence(c.apiRamp, c.apiRounds);
    NothingRefused();
    if RunsApi(c) {
      w, api, why, refusal := A.RunApiRamp(s, w0, c);
      ApiEndedIs(c, api, why, refusal);
      RefusedIs(refusal);
      Regroup(w0.trace, A.AllSteps(api), RefusedSteps(refusal));
    } else {
      w, api, why, refusal := w0, [], None, None;
      ApiSkipped(c);
    }
  }

  lemma NothingRefused()
    ensures RefusedSteps(None) == []
  {
  }

  lemma RefusedIs(refusal: Option<A.Refusal>)
    ensures RefusedSteps(refusal) == if refusal.Some? then A.RefusalSteps(refusal.value) else []
  {
  }

  lemma ApiEndedIs(c: Config, api: seq<A.ApiRecord>, why: Option<A.ApiError>, refusal: Option<A.Refusal>)
    requires RunsApi(c) && A.EndsProperly(api, c.apiRamp, why)
    requires refusal.Some? <==> why.Some? && why.value != A.Inconclusive
    requires refusal.Some? ==>
               |api| < |c.apiRamp| && A.Explains(refusal.value, why.value, c.apiRounds * c.apiRamp[|api|])
    ensures ApiEnded(c, api, why, refusal)
  {
    hide A.EndsProperly, A.Explains;
  }

  lemma ApiSkipped(c: Config)
    requires !RunsApi(c)
    ensures ApiEnded(c, [], None, None)
  {
  }

  /** The Realtime part, if the scenario has one and the API part ended well. */
  method RunAfterApi(s: Services, w0: World, c: Config, api: seq<A.ApiRecord>, ghost refusal: Option<A.Refusal>)
    returns (w: World, realtime: seq<RealtimeRecord>, failure: Option<RunError>,
             ghost steps: seq<Step>, ghost records: seq<RealtimeRecord>, ghost stop: Option<Stop>)
    requires Validated(c) && Accounted(w0.handed, w0.closeTried, w0.calls, {}, {}) && PassesPreflight(s, START, c)
    requires Honest(s, c, w0.calls, w0.trace)
    requires A.Evidence(api, c.apiRamp, c.apiRounds) && ApiEnded(c, api, None, refusal)
    ensures Honest(s, c, w.calls, w.trace)
    ensures RunEnds(s, c, api, realtime, failure, refusal, records, stop)
    ensures w.trace == w0.trace + steps
    ensures Traffic(c, api, failure, refusal, records, stop, A.AllSteps(api) + RefusedSteps(refusal), steps)
    ensures Accounted(w.handed, w.closeTried, w.calls, {}, R.LostBy(stop))
    ensures R.LostBy(stop) != {} ==> DwellFailed(failure)
    ensures w.clock <= w0.clock + if RunsRealtime(c) then RealtimeBudgetMs(c) + RealtimeToleranceMs(c) else 0
    ensures !RunsRealtime(c) ==> w.clock == w0.clock
  {
    hide *;
    R.RampStarts(c.realtimeRamp);
    if RunsRealtime(c) {
      w, realtime, failure, records, stop := RunRealtime(s, w0, c);
      steps := w.trace[|w0.trace|..];
      RealtimeSettles(s, c, api, records, realtime, failure, refusal, stop, steps);
    } else {
      w, realtime, failure, steps, records, stop := w0, [], None, [], [], None;
      ApiSettles(s, c, api, None, refusal);
    }
  }

  /** Everything after a passed preflight. */
  method RunLoad(s: Services, w0: World, c: Config)
    returns (w: World, api: seq<A.ApiRecord>, realtime: seq<RealtimeRecord>, failure: Option<RunError>,
             ghost apiSteps: seq<Step>, ghost realtimeSteps: seq<Step>, ghost refusal: Option<A.Refusal>,
             ghost records: seq<RealtimeRecord>, ghost stop: Option<Stop>)
    requires Validated(c) && Accounted(w0.handed, w0.closeTried, w0.calls, {}, {}) && PassesPreflight(s, START, c)
    requires Honest(s, c, w0.calls, w0.trace)
    ensures Honest(s, c, w.calls, w.trace)
    ensures RunEnds(s, c, api, realtime, failure, refusal, records, stop)
    ensures w.trace == w0.trace + apiSteps + realtimeSteps
    ensures Traffic(c, api, failure, refusal, records, stop, apiSteps, realtimeSteps)
    ensures Accounted(w.handed, w.closeTried, w.calls, {}, R.LostBy(stop))
    ensures R.LostBy(stop) != {} ==> DwellFailed(failure)
    ensures w.clock <= w0.clock + (if RunsApi(c) then ApiBudgetMs(c) + ApiToleranceMs(c) else 0)
                       + if RunsRealtime(c) then RealtimeBudgetMs(c) + RealtimeToleranceMs(c) else 0
    ensures A.Slow(s, c) && RunsApi(c) && !RunsRealtime(c) && refusal == None ==>
              w.clock == w0.clock + A.SlowMs(c, api)
  {
    hide *;
    BudgetParts(c);
    R.RampStarts(c.realtimeRamp);
    var why;
    w, api, why, refusal := RunApi(s, w0, c);
    apiSteps := A.AllSteps(api) + RefusedSteps(refusal);
    CallsGoOn(w0.handed, w0.closeTried, w0.calls, {}, {}, w.calls);
    if why.Some? {
      realtime, failure, realtimeSteps, records, stop := [], Some(ApiFailed(why.value)), [], [], None;
      ApiSettles(s, c, api, why, refusal);
      assert w.trace == w0.trace + apiSteps + realtimeSteps;
      return;
    }
    w, realtime, failure, realtimeSteps, records, stop := RunAfterApi(s, w, c, api, refusal);
  }

  /** What the API part came to, told by the codes of the answers: each record by its
      waves, and a refusal by the wave or the pause it stopped at. */
  ghost predicate ApiTold(api: seq<A.ApiRecord>, failure: Option<RunError>, refusal: Option<A.Refusal>) {
    && (forall i {:trigger api[i]} :: 0 <= i < |api| ==>
          A.Told(Some(api[i]), if A.Inconclusively(api[i]) then Some(A.Inconclusive) else None, A.AtInitial([])))
    && (refusal.Some? ==>
          failure.Some? && failure.value.ApiFailed? && A.Told(None, Some(failure.value.api), refusal.value))
    && (failure == Some(ApiFailed(A.InvalidTarget)) <==> refusal.Some? && A.Turned(A.LastWave(refusal.value)))
    && (failure == Some(ApiFailed(A.Inconclusive)) <==> api != [] && A.Inconclusively(api[|api| - 1]))
  }

  lemma RunTold(s: Services, c: Config, api: seq<A.ApiRecord>, realtime: seq<RealtimeRecord>,
                failure: Option<RunError>, refusal: Option<A.Refusal>, records: seq<RealtimeRecord>, stop: Option<Stop>)
    requires RunEnds(s, c, api, realtime, failure, refusal, records, stop)
    ensures ApiTold(api, failure, refusal)
  {
    hide PassesPreflight, A.Sound, R.Evidence, RealtimeEnds, A.Told, A.Turned, A.LastWave, A.Explains, Validated;
    if refusal.Some? {
      A.RefusalTold(refusal.value, failure.value.api, c.apiRounds * c.apiRamp[|api|]);
    }
    forall i {:trigger api[i]} | 0 <= i < |api|
      ensures A.Told(Some(api[i]), if A.Inconclusively(api[i]) then Some(A.Inconclusive) else None, A.AtInitial([]))
    {
      A.RecordTold(api[i], c.apiRounds);
    }
  }

  lemma ApiAlone(c: Config)
    ensures c.scenario == Api <==> RunsApi(c) && !RunsRealtime(c)
  {
  }

  /** Every run fits its token with a hundred seconds to spare, leaves only sound
      evidence whose shape explains how it ended, did nothing its outcome does not
      account for, and closes every connection handed to it but those lost to a
      control or confirmation dwell that broke. */
  method RunHostedCapacity(s: Services, c: Config)
    returns (w: World, api: seq<A.ApiRecord>, realtime: seq<RealtimeRecord>, failure: Option<RunError>,
             ghost apiSteps: seq<Step>, ghost realtimeSteps: seq<Step>, ghost refusal: Option<A.Refusal>,
             ghost records: seq<RealtimeRecord>, ghost stop: Option<Stop>)
    requires Validated(c)
    ensures RunEnds(s, c, api, realtime, failure, refusal, records, stop)
    ensures w.trace == PreflightSteps(s, START, c.deadlineMs) + apiSteps + realtimeSteps
    ensures Traffic(c, api, failure, refusal, records, stop, apiSteps, realtimeSteps)
    ensures !PassesPreflight(s, START, c) ==> apiSteps == [] && realtimeSteps == []
    ensures Honest(s, c, w.calls, w.trace)
    ensures w.clock <= WorstCaseMs(c) + ToleranceMs(c)
    ensures w.clock + 100_000 <= 1_000 * RequiredTokenValiditySeconds(c)
    ensures ApiTold(api, failure, refusal)
    ensures A.Slow(s, c) && c.scenario == Api && PassesPreflight(s, START, c) && refusal == None ==>
              w.clock == 2 * c.deadlineMs + A.SlowMs(c, api)
    ensures w.closeTried <= w.handed && w.handed - w.closeTried == R.LostBy(stop)
    ensures R.LostBy(stop) != {} ==> DwellFailed(failure)
    ensures EveryDwellCompletes(s, c) ==> w.handed == w.closeTried
    ensures failure == Some(RealtimeFailed(CleanupFailureSeen)) ==> SomeJoinLeaks(s, c)
  {
    hide *;
    StartsAccounted(s, c);
    R.RampStarts(c.realtimeRamp);
    A.NoEvidence(c.apiRamp, c.apiRounds);
    BudgetParts(c);
    w, failure := Preflight(s, START, c);
    ghost var pre := w.trace;
    CallsGoOn({}, {}, 0, {}, {}, w.calls);
    if failure.Some? {
      api, realtime, apiSteps, realtimeSteps, refusal, records, stop := [], [], [], [], None, [], None;
      PreflightEnds(s, c, failure);
      FitsAndClosed(c, w, {});
      RunTold(s, c, api, realtime, failure, refusal, records, stop);
      assert pre == pre + [] + [];
      return;
    }
    w, api, realtime, failure, apiSteps, realtimeSteps, refusal, records, stop := RunLoad(s, w, c);
    FitsAndClosed(c, w, R.LostBy(stop));
    RunTold(s, c, api, realtime, failure, refusal, records, stop);
    ApiAlone(c);
    LostIsBroken(s, c, api, realtime, failure, refusal, records, stop, apiSteps, realtimeSteps, pre, w.calls, w.trace);
    LeakIsTold(s, c, api, realtime, failure, refusal, records, stop, apiSteps, realtimeSteps, pre, w.calls, w.trace);
  }

  /** Some join is answered in time with a failure to clean up after itself. */
  ghost predicate SomeJoinLeaks(s: Services, c: Config) {
    exists n: nat :: Came(s, n, OperationMs(c), CleanupFailure)
  }

  /** A run blames a join for what it left behind only if one was answered so. */
  lemma LeakIsTold(s: Services, c: Config, api: seq<A.ApiRecord>, realtime: seq<RealtimeRecord>,
                   failure: Option<RunError>, refusal: Option<A.Refusal>, records: seq<RealtimeRecord>,
                   stop: Option<Stop>, apiSteps: seq<Step>, realtimeSteps: seq<Step>, pre: seq<Step>,
                   calls: nat, trace: seq<Step>)
    requires Validated(c) && Honest(s, c, calls, trace) && trace == pre + apiSteps + realtimeSteps
    requires PassesPreflight(s, START, c) && RunEnds(s, c, api, realtime, failure, refusal, records, stop)
    requires Traffic(c, api, failure, refusal, records, stop, apiSteps, realtimeSteps)
    ensures failure == Some(RealtimeFailed(CleanupFailureSeen)) ==> SomeJoinLeaks(s, c)
  {
    hide *;
    if failure == Some(RealtimeFailed(CleanupFailureSeen)) {
      LeakStops(s, c, api, realtime, failure, refusal, records, stop);
      JoinInStop(stop.value);
      StopInTraffic(c, api, failure, refusal, records, stop, apiSteps, realtimeSteps, Join(CleanupFailed));
      LeakyJoin(s, c, calls, trace);
    }
  }

  lemma LeakyJoin(s: Services, c: Config, calls: nat, trace: seq<Step>)
    requires Validated(c) && Honest(s, c, calls, trace) && Join(CleanupFailed) in trace
    ensures SomeJoinLeaks(s, c)
  {
    TakesTime(c);
    var n :| 0 <= n < |trace| && trace[n] == Join(CleanupFailed);
    assert Answered(s, c, n, trace[n]);
    AttemptMeans(s, n, OperationMs(c));
  }

  /** The batch a level stopped at. */
  ghost predicate StoppedIn(stop: Stop, o: Observation) {
    match stop
    case AtInitial(seen) => o == seen
    case AtBaseline(_, seen) => o == seen
    case AtConfirmation(_, _, seen) => o == seen
    case _ => false
  }

  ghost predicate LeakSeen(stop: Stop) {
    exists o :: StoppedIn(stop, o) && o.NotCleaned? && CleanupFailed in o.attempts
  }

  lemma LeakStops(s: Services, c: Config, api: seq<A.ApiRecord>, realtime: seq<RealtimeRecord>,
                  failure: Option<RunError>, refusal: Option<A.Refusal>, records: seq<RealtimeRecord>,
                  stop: Option<Stop>)
    requires PassesPreflight(s, START, c) && RunEnds(s, c, api, realtime, failure, refusal, records, stop)
    requires failure == Some(RealtimeFailed(CleanupFailureSeen))
    ensures ReachesRealtime(c, failure) && stop.Some? && LeakSeen(stop.value)
  {
    hide PassesPreflight, A.Evidence, R.Evidence, ApiEnded, Suspected, Control;
    var v := stop.value;
    assert StoppedIn(v, match v case AtInitial(o) => o case AtBaseline(_, o) => o case AtConfirmation(_, _, o) => o
                              case _ => NotDwelt([]));
  }

  lemma JoinInStop(stop: Stop)
    requires LeakSeen(stop)
    ensures Join(CleanupFailed) in StopSteps(stop)
  {
    var o :| StoppedIn(stop, o) && o.NotCleaned? && CleanupFailed in o.attempts;
    var i :| 0 <= i < |o.attempts| && o.attempts[i] == CleanupFailed;
    assert JoinSteps(o.attempts)[i] == Join(CleanupFailed);
    hide CloseSteps, ResetSteps, JoinSteps;
    assert Join(CleanupFailed) in ObservationSteps(o);
  }

  lemma StopInTraffic(c: Config, api: seq<A.ApiRecord>, failure: Option<RunError>, refusal: Option<A.Refusal>,
                      records: seq<RealtimeRecord>, stop: Option<Stop>, apiSteps: seq<Step>,
                      realtimeSteps: seq<Step>, step: Step)
    requires Traffic(c, api, failure, refusal, records, stop, apiSteps, realtimeSteps) && ReachesRealtime(c, failure)
    requires stop.Some? && step in StopSteps(stop.value)
    ensures step in realtimeSteps
  {
    hide A.AllSteps, RefusedSteps, ReachesRealtime, R.AllSteps, CloseSteps, ProbeSteps, StopSteps, ProbeTells, Trues;
    var attempt, closed, ids, oks :| AccountedBy(realtimeSteps, failure, records, stop, attempt, closed, ids, oks);
    assert R.StopStepsOf(stop) == StopSteps(stop.value);
  }

  lemma LostIsBroken(s: Services, c: Config, api: seq<A.ApiRecord>, realtime: seq<RealtimeRecord>,
                     failure: Option<RunError>, refusal: Option<A.Refusal>, records: seq<RealtimeRecord>,
                     stop: Option<Stop>, apiSteps: seq<Step>, realtimeSteps: seq<Step>, pre: seq<Step>,
                     calls: nat, trace: seq<Step>)
    requires Validated(c) && Honest(s, c, calls, trace) && trace == pre + apiSteps + realtimeSteps
    requires PassesPreflight(s, START, c) && RunEnds(s, c, api, realtime, failure, refusal, records, stop)
    requires Traffic(c, api, failure, refusal, records, stop, apiSteps, realtimeSteps)
    ensures R.LostBy(stop) != {} ==> !EveryDwellCompletes(s, c)
  {
    hide *;
    if R.LostBy(stop) != {} {
      Preflights(s, c, api, realtime, failure, refusal, records, stop);
      LostIsTold(c, api, failure, refusal, records, stop, apiSteps, realtimeSteps, pre, trace);
      BrokenDwell(s, c, calls, trace);
    }
  }

  /** No wait is late or fails. */
  ghost predicate EveryDwellCompletes(s: Services, c: Config)
    requires Validated(c)
  {
    TakesTime(c);
    forall n: nat :: Race(s.sleeps(n), RestMs(c)) == Some(true)
  }

  /** A dwell that the trace shows broken did not complete. */
  lemma BrokenDwell(s: Services, c: Config, calls: nat, trace: seq<Step>)
    requires Validated(c) && Honest(s, c, calls, trace) && Dwell(false) in trace
    ensures !EveryDwellCompletes(s, c)
  {
    var n :| 0 <= n < |trace| && trace[n] == Dwell(false);
    assert Answered(s, c, n, trace[n]);
  }

  /** A connection is lost only in a dwell the trace shows broken. */
  lemma LostIsTold(c: Config, api: seq<A.ApiRecord>, failure: Option<RunError>, refusal: Option<A.Refusal>,
                   records: seq<RealtimeRecord>, stop: Option<Stop>, apiSteps: seq<Step>, realtimeSteps: seq<Step>,
                   pre: seq<Step>, trace: seq<Step>)
    requires R.LostBy(stop) != {} && Traffic(c, api, failure, refusal, records, stop, apiSteps, realtimeSteps)
    requires ReachesRealtime(c, failure) && trace == pre + apiSteps + realtimeSteps
    ensures Dwell(false) in trace
  {
    LostInStop(stop.value);
    hide *;
    StopInTraffic(c, api, failure, refusal, records, stop, apiSteps, realtimeSteps, Dwell(false));
  }

  lemma LostInStop(stop: Stop)
    requires Lost(stop) != {}
    ensures Dwell(false) in StopSteps(stop)
  {
    var o := if stop.AtBaseline? then stop.seen else stop.seen;
    assert o.NotDwelt? && ObservationSteps(o) == JoinSteps(o.attempts) + [Dwell(false)];
    hide JoinSteps, ResetSteps;
    assert Dwell(false) in ObservationSteps(o);
  }

  lemma Preflights(s: Services, c: Config, api: seq<A.ApiRecord>, realtime: seq<RealtimeRecord>,
                   failure: Option<RunError>, refusal: Option<A.Refusal>, records: seq<RealtimeRecord>,
                   stop: Option<Stop>)
    requires PassesPreflight(s, START, c) && RunEnds(s, c, api, realtime, failure, refusal, records, stop)
    ensures R.LostBy(stop) != {} ==> ReachesRealtime(c, failure)
  {
    hide PassesPreflight, A.Evidence, R.Evidence, ApiEnded, RealtimeEnds;
  }

  lemma StartsAccounted(s: Services, c: Config)
    requires Validated(c)
    ensures START == World(0, 0, [], {}, {}) && Accounted({}, {}, 0, {}, {}) && Honest(s, c, 0, [])
  {
    TakesTime(c);
  }

  lemma PreflightEnds(s: Services, c: Config, failure: Option<RunError>)
    requires failure in {Some(HealthPreflightFailed), Some(HotPathPreflightFailed)} && !PassesPreflight(s, START, c)
    requires A.Evidence([], c.apiRamp, c.apiRounds) && R.Evidence([], c.realtimeRamp)
    ensures RunEnds(s, c, [], [], failure, None, [], None)
    ensures A.AllSteps([]) == [] && Traffic(c, [], failure, None, [], None, [], [])
    ensures R.LostBy(None) == {}
  {
    hide PassesPreflight, A.Evidence, R.Evidence;
    assert RefusedSteps(None) == [];
  }

  lemma ApiSettles(s: Services, c: Config, api: seq<A.ApiRecord>, why: Option<A.ApiError>, refusal: Option<A.Refusal>)
    requires A.Evidence(api, c.apiRamp, c.apiRounds) && R.Evidence([], c.realtimeRamp) && PassesPreflight(s, START, c)
    requires ApiEnded(c, api, why, refusal) && (why == None ==> !RunsRealtime(c))
    ensures var failure := if why.Some? then Some(ApiFailed(why.value)) else None;
            && RunEnds(s, c, api, [], failure, refusal, [], None)
            && Traffic(c, api, failure, refusal, [], None, A.AllSteps(api) + RefusedSteps(refusal), [])
    ensures R.LostBy(None) == {}
  {
    hide PassesPreflight, A.Evidence, R.Evidence, ApiEnded, RefusedSteps, A.AllSteps;
  }

  lemma RealtimeSettles(s: Services, c: Config, api: seq<A.ApiRecord>, records: seq<RealtimeRecord>,
                        results: seq<RealtimeRecord>, failure: Option<RunError>, refusal: Option<A.Refusal>,
                        stop: Option<Stop>, steps: seq<Step>)
    requires PassesPreflight(s, START, c) && RunsRealtime(c)
    requires A.Evidence(api, c.apiRamp, c.apiRounds) && ApiEnded(c, api, None, refusal)
    requires R.Evidence(records, c.realtimeRamp) && RealtimeEnds(records, results, c.realtimeRamp, failure, stop)
    requires Accounts(steps, failure, records, stop)
    ensures RunEnds(s, c, api, results, failure, refusal, records, stop)
    ensures Traffic(c, api, failure, refusal, records, stop, A.AllSteps(api) + RefusedSteps(refusal), steps)
  {
    hide A.Evidence, R.Evidence, ApiEnded, PassesPreflight, R.EndsProperly, Accounts, RefusedSteps, A.AllSteps;
  }

  lemma FitsAndClosed(c: Config, w: World, lost: set<ConnectionId>)
    requires Validated(c) && Accounted(w.handed, w.closeTried, w.calls, {}, lost)
    requires w.clock <= WorstCaseMs(c) + ToleranceMs(c)
    ensures w.clock + 100_000 <= 1_000 * RequiredTokenValiditySeconds(c)
    ensures w.closeTried <= w.handed && w.handed - w.closeTried == lost
    ensures lost == {} ==> w.handed == w.closeTried
  {
    ToleranceFitsBuffer(c, w.clock);
  }

  /** The parts of the budget, none of them negative. */
  lemma BudgetParts(c: Config)
    requires Validated(c)
    ensures 0 <= ApiBudgetMs(c) + ApiToleranceMs(c)
    ensures 0 <= RealtimeBudgetMs(c) + RealtimeToleranceMs(c)
    ensures 0 <= c.deadlineMs
    ensures WorstCaseMs(c) + ToleranceMs(c) == 2 * c.deadlineMs
              + (if RunsApi(c) then ApiBudgetMs(c) + ApiToleranceMs(c) else 0)
              + (if RunsRealtime(c) then RealtimeBudgetMs(c) + RealtimeToleranceMs(c) else 0)
  {
    NotNegative(c.apiRounds, c.deadlineMs);
    NotNegative(|c.apiRamp|, c.apiRounds * c.deadlineMs);
    NotNegative(|c.realtimeRamp|, c.deadlineMs + c.dwellMs);
  }
}
