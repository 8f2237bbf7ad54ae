/** A capacity run that takes the whole of the time written down for it: every request
    is answered at the last moment and only the last level needs confirming
    (apps/api/scripts/deployed-capacity-lib.ts, lines 418-445 and 1254-1364). */
module CapacitySlow {
  import opened Basics
  import opened Wrappers
  import opened CapacityBudget
  import opened CapacityWorld
  import opened CapacityRun
  import A = CapacityApi
  import R = CapacityLevels
  import opened RealtimeHistory
  import opened CapacityRamp

  /** How many requests the first waves of the first `n` levels send in all. */
  function Sent(c: Config, n: nat): int
    requires n <= |c.apiRamp|
  {
    if n == 0 then 0 else Sent(c, n - 1) + c.apiRounds * c.apiRamp[n - 1]
  }

  /** The calls of the last level's first wave: two of the preflight come before them,
      and one for every request of the levels below. */
  predicate LastWave(c: Config, n: int)
    requires |c.apiRamp| > 0
  {
    var last := |c.apiRamp| - 1;
    2 + Sent(c, last) <= n < 2 + Sent(c, last) + c.apiRounds * c.apiRamp[last]
  }

  /** Services that answer everything with 200 but those calls, which get 429, and all
      of it as late as can be. */
  function Late(c: Config): Services
    requires Validated(c)
  {
    Services(
      n => Settles(Some(if LastWave(c, n) then 429 else 200), c.deadlineMs),
      _ => Never,
      _ => Never,
      _ => Settles(true, c.dwellMs),
      _ => Snapshot(false, NONE))
  }

  lemma LateIsSlow(c: Config)
    requires Validated(c)
    ensures A.Slow(Late(c), c)
  {
  }

  lemma LatePreflight(c: Config)
    requires Validated(c)
    ensures PassesPreflight(Late(c), START, c) && |PreflightSteps(Late(c), START, c.deadlineMs)| == 2
  {
    var last := |c.apiRamp| - 1;
    SentGrows(c, 0, last);
    assert !LastWave(c, 0) && !LastWave(c, 1);
  }

  lemma {:induction false} SentGrows(c: Config, i: nat, j: nat)
    requires Validated(c) && i <= j <= |c.apiRamp|
    ensures Sent(c, i) <= Sent(c, j)
    decreases j
  {
    if j > i {
      SentGrows(c, i, j - 1);
      NotNegative(c.apiRounds, c.apiRamp[j - 1]);
    }
  }

  lemma LateAnswers(c: Config, n: nat, step: Step)
    requires Validated(c) && Answered(Late(c), c, n, step)
    ensures step.Request? ==> step.outcome.status == Code(if LastWave(c, n) then 429 else 200)
    ensures step.Dwell? ==> step.completed
  {
    hide LastWave;
  }

  lemma StepAt(c: Config, calls: nat, head: seq<Step>, rest: seq<Step>, k: nat)
    requires Validated(c) && Honest(Late(c), c, calls, head + rest) && k < |rest|
    ensures rest[k].Request? ==> rest[k].outcome.status == Code(if LastWave(c, |head| + k) then 429 else 200)
    ensures rest[k].Dwell? ==> rest[k].completed
  {
    assert (head + rest)[|head| + k] == rest[k];
    hide Late, LastWave, Answered;
    LateAnswers(c, |head| + k, rest[k]);
  }

  /** A wave of such a run, told from where it stands in the trace. */
  lemma WaveAt(c: Config, calls: nat, head: seq<Step>, w: A.Wave, tail: seq<Step>)
    requires Validated(c) && Honest(Late(c), c, calls, head + (A.Requests(w) + tail))
    ensures (forall n :: |head| <= n < |head| + |w| ==> !LastWave(c, n)) ==> A.Good(w)
    ensures |w| > 0 && (forall n :: |head| <= n < |head| + |w| ==> LastWave(c, n)) ==> A.Candidate(w)
  {
    hide Honest, Late, LastWave;
    var rest := A.Requests(w) + tail;
    forall i {:trigger w[i]} | 0 <= i < |w|
      ensures w[i].status == Code(if LastWave(c, |head| + i) then 429 else 200)
    {
      assert rest[i] == Request(HotPath, w[i]);
      StepAt(c, calls, head, rest, i);
    }
    if |w| > 0 { assert w[0].status == Code(if LastWave(c, |head| + 0) then 429 else 200); }
  }

  /** Where the waves of the levels stand. */
  lemma LevelStands(c: Config, level: nat, n: int)
    requires Validated(c) && level < |c.apiRamp|
    requires 0 <= n - (2 + Sent(c, level)) < c.apiRounds * c.apiRamp[level]
    ensures LastWave(c, n) <==> level == |c.apiRamp| - 1
  {
    hide Validated, Sent;
    var last := |c.apiRamp| - 1;
    if level < last {
      SentNext(c, level);
      SentGrows(c, level + 1, last);
    }
  }

  lemma SentNext(c: Config, level: nat)
    requires level < |c.apiRamp|
    ensures Sent(c, level + 1) == Sent(c, level) + c.apiRounds * c.apiRamp[level]
  {
  }

  /** The last level's first wave stands where its answers are 429, and no wave of
      another level does. */
  lemma WaveOfLevel(c: Config, calls: nat, head: seq<Step>, w: A.Wave, tail: seq<Step>, level: nat)
    requires Validated(c) && Honest(Late(c), c, calls, head + (A.Requests(w) + tail)) && level < |c.apiRamp|
    requires |head| == 2 + Sent(c, level) && |w| == c.apiRounds * c.apiRamp[level]
    ensures if level == |c.apiRamp| - 1 then A.Candidate(w) else A.Good(w)
  {
    hide Honest, Late, LastWave, Sent, A.Candidate, A.Good, A.Requests;
    AtLeastOne(c.apiRounds, c.apiRamp[level]);
    hide ValidRamp, Validated;
    WaveAt(c, calls, head, w, tail);
    forall n | |head| <= n < |head| + |w| ensures LastWave(c, n) <==> level == |c.apiRamp| - 1 {
      LevelStands(c, level, n);
    }
  }

  lemma AtLeastOne(a: int, b: int)
    requires 1 <= a && 1 <= b
    ensures 1 <= a * b
  {
  }

  /** A wave that comes after the last level's first one. */
  lemma WaveLater(c: Config, calls: nat, head: seq<Step>, w: A.Wave, tail: seq<Step>)
    requires Validated(c) && Honest(Late(c), c, calls, head + (A.Requests(w) + tail))
    requires |head| >= 2 + Sent(c, |c.apiRamp| - 1) + c.apiRounds * c.apiRamp[|c.apiRamp| - 1]
    ensures A.Good(w)
  {
    WaveAt(c, calls, head, w, tail);
  }

  lemma PauseHolds(c: Config, calls: nat, head: seq<Step>, completed: bool, tail: seq<Step>)
    requires Validated(c) && Honest(Late(c), c, calls, head + ([Dwell(completed)] + tail))
    ensures completed
  {
    StepAt(c, calls, head, [Dwell(completed)] + tail, 0);
  }

  /** What healthy levels send. */
  lemma {:induction false} HealthyLength(c: Config, rs: seq<A.ApiRecord>)
    requires A.Evidence(rs, c.apiRamp, c.apiRounds) && A.AllHealthy(rs)
    ensures |A.AllSteps(rs)| == Sent(c, |rs|)
  {
    if rs == [] {
    } else {
      var n := |rs| - 1;
      assert A.Evidence(rs[..n], c.apiRamp, c.apiRounds) && A.AllHealthy(rs[..n]);
      HealthyLength(c, rs[..n]);
      assert A.Sound(rs[n], c.apiRounds) && rs[n].Healthy?;
    }
  }

  /** The wave a refused level began with, and what came after it. */
  lemma RefusalBegins(f: A.Refusal) returns (first: A.Wave, rest: seq<Step>)
    ensures A.RefusalSteps(f) == A.Requests(first) + rest
    ensures first == if f.AtInitial? then f.wave else f.initial
    ensures match f
            case AtInitial(_) => rest == []
            case AtFirstPause(_) => rest == [Dwell(false)] + []
            case AtBaseline(_, w) => rest == A.PAUSE + (A.Requests(w) + [])
            case AtSecondPause(_, b) => rest == A.PAUSE + A.Requests(b) + ([Dwell(false)] + [])
            case AtConfirmation(_, b, w) => rest == A.PAUSE + A.Requests(b) + A.PAUSE + (A.Requests(w) + [])
  {
    hide A.Requests;
    match f {
      case AtInitial(w) => first, rest := w, [];
      case AtFirstPause(i) => first, rest := i, [Dwell(false)];
      case AtBaseline(i, w) =>
        first, rest := i, A.PAUSE + A.Requests(w);
        Regroup(A.Requests(i), A.PAUSE, A.Requests(w));
      case AtSecondPause(i, b) =>
        first, rest := i, A.PAUSE + A.Requests(b) + [Dwell(false)];
        FourTogether(A.Requests(i), A.PAUSE, A.Requests(b), [Dwell(false)]);
      case AtConfirmation(i, b, w) =>
        first, rest := i, A.PAUSE + A.Requests(b) + A.PAUSE + A.Requests(w);
        FourTogether(A.Requests(i), A.PAUSE, A.Requests(b), A.PAUSE);
        Regroup(A.Requests(i), A.PAUSE + A.Requests(b) + A.PAUSE, A.Requests(w));
    }
  }

  lemma FourTogether(a: seq<Step>, b: seq<Step>, d: seq<Step>, e: seq<Step>)
    ensures a + b + d + e == a + (b + d + e)
  {
    Regroup(a, b, d);
    Regroup(a, b + d, e);
  }

  /** No level of such a run is refused. */
  lemma NothingRefused(c: Config, calls: nat, head: seq<Step>, f: A.Refusal, e: A.ApiError, level: nat)
    requires Validated(c) && Honest(Late(c), c, calls, head + A.RefusalSteps(f)) && level < |c.apiRamp|
    requires |head| == 2 + Sent(c, level)
    ensures !A.Explains(f, e, c.apiRounds * c.apiRamp[level])
  {
    hide Honest, A.RefusalSteps, A.Requests, A.Good, A.Candidate, A.Turned, A.Told;
    if A.Explains(f, e, c.apiRounds * c.apiRamp[level]) {
      A.RefusalTold(f, e, c.apiRounds * c.apiRamp[level]);
      var first, rest := RefusalBegins(f);
      RefusedWave(f, e, c.apiRounds * c.apiRamp[level]);
      WaveOfLevel(c, calls, head, first, rest, level);
      FirstWaveTold(f, Some(e));
      var at := head + A.Requests(first);
      assert |A.Requests(first)| == |first| by { Count(first); }
      Regroup(head, A.Requests(first), rest);
      match f {
        case AtInitial(_) => assert false;
        case AtFirstPause(_) => PauseHolds(c, calls, at, false, []); assert false;
        case AtBaseline(_, w) =>
          Regroup(at, A.PAUSE, A.Requests(w) + []);
          WaveLater(c, calls, at + A.PAUSE, w, []);
          assert false;
        case AtSecondPause(_, b) =>
          Regroup(at, A.PAUSE + A.Requests(b), [Dwell(false)] + []);
          PauseHolds(c, calls, at + (A.PAUSE + A.Requests(b)), false, []);
          assert false;
        case AtConfirmation(_, b, w) =>
          var before := A.PAUSE + A.Requests(b) + A.PAUSE;
          Regroup(at, before, A.Requests(w) + []);
          WaveLater(c, calls, at + before, w, []);
          assert false;
      }
    }
  }

  lemma Count(w: A.Wave)
    ensures |A.Requests(w)| == |w|
  {
  }

  lemma RefusedWave(f: A.Refusal, e: A.ApiError, size: int)
    requires A.Explains(f, e, size)
    ensures |if f.AtInitial? then f.wave else f.initial| == size
  {
  }

  /** What a verdict says of the first wave of a refused level and of its last one. */
  lemma FirstWaveTold(f: A.Refusal, failure: Option<A.ApiError>)
    requires A.Told(None, failure, f)
    ensures A.Candidate(if f.AtInitial? then f.wave else f.initial) <==> !f.AtInitial?
    ensures !A.Good(if f.AtInitial? then f.wave else f.initial)
    ensures f.AtBaseline? || f.AtConfirmation? ==> !A.Good(f.wave)
  {
    hide A.Good, A.Turned, A.Limited, A.Dropped;
  }

  /** What a ramp that left its last record at `level` sent before it. */
  lemma UpTo(c: Config, rs: seq<A.ApiRecord>)
    requires A.Evidence(rs, c.apiRamp, c.apiRounds) && rs != []
    ensures |rs| <= |c.apiRamp|
    ensures var n := |rs| - 1;
            && A.AllSteps(rs) == A.AllSteps(rs[..n]) + A.StepsOf(rs[n])
            && |A.AllSteps(rs[..n])| == Sent(c, n)
            && A.Sound(rs[n], c.apiRounds) && rs[n].concurrency == c.apiRamp[n]
            && (A.AllHealthy(rs) <==> rs[n].Healthy?)
  {
    var n := |rs| - 1;
    assert A.Evidence(rs[..n], c.apiRamp, c.apiRounds) && A.AllHealthy(rs[..n]);
    HealthyLength(c, rs[..n]);
  }

  lemma RecordBegins(r: A.ApiRecord) returns (first: A.Wave, rest: seq<Step>)
    ensures A.StepsOf(r) == A.Requests(first) + rest
    ensures first == if r.Healthy? then r.wave else r.initial
  {
    hide A.Requests;
    match r {
      case Healthy(_, wave) => first, rest := wave, [];
      case Suspect(_, initial, baseline, confirmation, _, _) =>
        first, rest := initial, A.PAUSE + A.Requests(baseline) + A.PAUSE + A.Requests(confirmation);
        FourTogether(A.Requests(initial), A.PAUSE, A.Requests(baseline), A.PAUSE);
        Regroup(A.Requests(initial), A.PAUSE + A.Requests(baseline) + A.PAUSE, A.Requests(confirmation));
    }
  }

  /** A level of such a run is suspect if and only if it is the last. */
  lemma OnlyLastSuspect(c: Config, calls: nat, head: seq<Step>, r: A.ApiRecord, level: nat)
    requires Validated(c) && Honest(Late(c), c, calls, head + A.StepsOf(r)) && level < |c.apiRamp|
    requires |head| == 2 + Sent(c, level)
    requires A.Sound(r, c.apiRounds) && r.concurrency == c.apiRamp[level]
    ensures r.Suspect? <==> level == |c.apiRamp| - 1
  {
    var first, rest := RecordBegins(r);
    A.RecordTold(r, c.apiRounds);
    hide Honest, A.StepsOf, A.Requests, A.Good, A.Turned, A.Limited, A.Dropped;
    assert |first| == c.apiRounds * c.apiRamp[level];
    WaveOfLevel(c, calls, head, first, rest, level);
  }

  /** Whatever the run made of those services, it went through the whole ramp and
      confirmed the last level. */
  lemma LateRun(c: Config, calls: nat, trace: seq<Step>, api: seq<A.ApiRecord>, realtime: seq<RealtimeRecord>,
                failure: Option<RunError>, apiSteps: seq<Step>, realtimeSteps: seq<Step>,
                refusal: Option<A.Refusal>, records: seq<RealtimeRecord>, stop: Option<Stop>)
    requires Validated(c) && c.scenario == Api && Honest(Late(c), c, calls, trace)
    requires trace == PreflightSteps(Late(c), START, c.deadlineMs) + apiSteps + realtimeSteps
    requires RunEnds(Late(c), c, api, realtime, failure, refusal, records, stop)
    requires Traffic(c, api, failure, refusal, records, stop, apiSteps, realtimeSteps)
    ensures refusal == None && |api| == |c.apiRamp| && api[|api| - 1].Suspect?
  {
    hide *;
    TakesTime(c);
    var pre := PreflightSteps(Late(c), START, c.deadlineMs);
    OnlyApi(c);
    LatePreflight(c);
    var why := LateEnds(c, api, realtime, failure, refusal, records, stop);
    LateTraffic(c, api, failure, refusal, records, stop, apiSteps, realtimeSteps);
    assert trace == pre + apiSteps;
    if refusal.Some? {
      HealthyLength(c, api);
      Regroup(pre, A.AllSteps(api), A.RefusalSteps(refusal.value));
      NothingRefused(c, calls, pre + A.AllSteps(api), refusal.value, why.value, |api|);
      assert false;
    } else {
      LastLevel(c, calls, pre, api);
    }
  }

  lemma OnlyApi(c: Config)
    requires c.scenario == Api
    ensures RunsApi(c)
  {
  }

  lemma LastLevel(c: Config, calls: nat, pre: seq<Step>, api: seq<A.ApiRecord>)
    requires Validated(c) && |pre| == 2 && Honest(Late(c), c, calls, pre + A.AllSteps(api))
    requires A.Evidence(api, c.apiRamp, c.apiRounds) && api != [] && (A.AllHealthy(api) ==> |api| == |c.apiRamp|)
    ensures |api| == |c.apiRamp| && api[|api| - 1].Suspect?
  {
    hide *;
    UpTo(c, api);
    var n := |api| - 1;
    Regroup(pre, A.AllSteps(api[..n]), A.StepsOf(api[n]));
    OnlyLastSuspect(c, calls, pre + A.AllSteps(api[..n]), api[n], n);
  }

  lemma LateEnds(c: Config, api: seq<A.ApiRecord>, realtime: seq<RealtimeRecord>, failure: Option<RunError>,
                 refusal: Option<A.Refusal>, records: seq<RealtimeRecord>, stop: Option<Stop>)
    returns (why: Option<A.ApiError>)
    requires Validated(c) && RunsApi(c) && PassesPreflight(Late(c), START, c)
    requires RunEnds(Late(c), c, api, realtime, failure, refusal, records, stop)
    ensures A.Evidence(api, c.apiRamp, c.apiRounds)
    ensures refusal.Some? ==>
              && why.Some? && |api| < |c.apiRamp| && A.AllHealthy(api)
              && A.Explains(refusal.value, why.value, c.apiRounds * c.apiRamp[|api|])
    ensures refusal == None ==> api != [] && (A.AllHealthy(api) ==> |api| == |c.apiRamp|)
  {
    hide PassesPreflight, R.Evidence, RealtimeEnds, A.Sound, A.Explains;
    A.RampNotEmpty(c);
    why := if failure.Some? && failure.value.ApiFailed? then Some(failure.value.api) else None;
  }

  lemma LateTraffic(c: Config, api: seq<A.ApiRecord>, failure: Option<RunError>, refusal: Option<A.Refusal>,
                    records: seq<RealtimeRecord>, stop: Option<Stop>,
                    apiSteps: seq<Step>, realtimeSteps: seq<Step>)
    requires c.scenario == Api && Traffic(c, api, failure, refusal, records, stop, apiSteps, realtimeSteps)
    ensures realtimeSteps == []
    ensures apiSteps == A.AllSteps(api) + if refusal.Some? then A.RefusalSteps(refusal.value) else []
    ensures refusal == None ==> apiSteps == A.AllSteps(api)
  {
    hide A.AllSteps, A.RefusalSteps;
  }

  /** For every ramp there is a run of the API scenario that lasts exactly as long as
      the worst case written down for it. */
  method WorstCaseIsReached(c: Config) returns (w: World, api: seq<A.ApiRecord>, failure: Option<RunError>)
    requires Validated(c) && c.scenario == Api
    ensures w.clock == WorstCaseMs(c)
    ensures |api| == |c.apiRamp| && api[|api| - 1].Suspect?
  {
    var realtime;
    ghost var apiSteps, realtimeSteps, refusal, records, stop;
    LatePreflight(c);
    LateIsSlow(c);
    w, api, realtime, failure, apiSteps, realtimeSteps, refusal, records, stop := RunHostedCapacity(Late(c), c);
    LateRun(c, w.calls, w.trace, api, realtime, failure, apiSteps, realtimeSteps, refusal, records, stop);
  }
}
