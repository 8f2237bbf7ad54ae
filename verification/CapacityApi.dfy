/** The API half of the capacity driver (apps/api/scripts/
    deployed-capacity-lib.ts, lines 629-672, 1094-1118 and 1254-1364). */
module CapacityApi {
  import opened Basics
  import opened Wrappers
  import opened CapacityBudget
  import opened CapacityWorld

  type Wave = seq<ApiOutcome>

  predicate IsSuccess(s: ApiStatus) { s.Code? && 200 <= s.code < 300 }

  predicate IsClientFailure(s: ApiStatus) { s.Code? && 400 <= s.code < 500 && s.code != 429 }

  predicate IsLimitSignal(s: ApiStatus) { s.Deadline? || (s.Code? && (s.code == 429 || s.code >= 500)) }

  predicate AllSuccessful(w: Wave) { forall o :: o in w ==> IsSuccess(o.status) }

  predicate HasClientFailure(w: Wave) { exists o :: o in w && IsClientFailure(o.status) }

  predicate HasRedirect(w: Wave) { exists o :: o in w && o.status.Redirect? }

  predicate HasLimitSignal(w: Wave) { exists o :: o in w && IsLimitSignal(o.status) }

  predicate HasNetworkSignal(w: Wave) { exists o :: o in w && o.status.NetworkError? }

  /** A wave that says the target is wrong, not that it is busy. */
  predicate Invalidates(w: Wave) { HasClientFailure(w) || HasRedirect(w) }

  datatype Classification =
    | HealthyLevel
    | ConfirmedCapacityCeiling
    | TransientCandidateNotReproduced
    | InconclusiveNetworkCandidate

  /** The evidence of one level. A suspect level keeps all three waves. */
  datatype ApiRecord =
    | Healthy(concurrency: int, wave: Wave)
    | Suspect(concurrency: int, initial: Wave, baseline: Wave, confirmation: Wave,
              ceilingReached: bool, classification: Classification)

  predicate CeilingReached(r: ApiRecord) { r.Suspect? && r.ceilingReached }

  predicate Inconclusively(r: ApiRecord) { r.Suspect? && !r.ceilingReached }

  datatype ApiError =
    | InvalidTarget
    | UnexpectedResponse
    | BaselineFailed
    | DwellIncomplete
    | Inconclusive

  function Requests(w: Wave): seq<Step> {
    seq(|w|, i requires 0 <= i < |w| => Request(HotPath, w[i]))
  }

  lemma RequestsSnoc(w: Wave, o: ApiOutcome)
    ensures Requests(w + [o]) == Requests(w) + [Request(HotPath, o)]
  {
  }

  lemma NoRequests()
    ensures Requests([]) == []
  {
  }

  lemma RequestsConcat(v: Wave, w: Wave)
    ensures Requests(v + w) == Requests(v) + Requests(w)
  {
  }

  const PAUSE := [Dwell(true)]

  /** The traffic a record stands for, in order: a suspect wave, a cooldown, one
      request, a cooldown, the wave again. */
  ghost function StepsOf(r: ApiRecord): seq<Step> {
    match r
    case Healthy(_, wave) => Requests(wave)
    case Suspect(_, initial, baseline, confirmation, _, _) =>
      Requests(initial) + PAUSE + Requests(baseline) + PAUSE + Requests(confirmation)
  }

  ghost function AllSteps(rs: seq<ApiRecord>): seq<Step> {
    if rs == [] then [] else AllSteps(rs[..|rs| - 1]) + StepsOf(rs[|rs| - 1])
  }

  /** What a record must have behind it. */
  ghost predicate Sound(r: ApiRecord, rounds: int) {
    match r
    case Healthy(concurrency, wave) => |wave| == rounds * concurrency && AllSuccessful(wave)
    case Suspect(concurrency, initial, baseline, confirmation, ceiling, verdict) =>
      && |initial| == |confirmation| == rounds * concurrency
      && |baseline| == 1 && AllSuccessful(baseline)
      && !AllSuccessful(initial)
      && !Invalidates(initial) && !Invalidates(confirmation)
      && (HasLimitSignal(initial) || HasNetworkSignal(initial))
      && (AllSuccessful(confirmation) || HasLimitSignal(confirmation) || HasNetworkSignal(confirmation))
      && (ceiling <==> HasLimitSignal(initial) && HasLimitSignal(confirmation))
      && (verdict == ConfirmedCapacityCeiling <==> ceiling)
      && (verdict == TransientCandidateNotReproduced <==> AllSuccessful(confirmation))
      && verdict != HealthyLevel
  }

  /** What a level that left no record did: what it sent before the last wave or
      pause, and why that one ended the run. */
  datatype Refusal =
    | AtInitial(wave: Wave)
    | AtFirstPause(initial: Wave)
    | AtBaseline(initial: Wave, wave: Wave)
    | AtSecondPause(initial: Wave, baseline: Wave)
    | AtConfirmation(initial: Wave, baseline: Wave, wave: Wave)

  ghost function RefusalSteps(f: Refusal): seq<Step> {
    match f
    case AtInitial(w) => Requests(w)
    case AtFirstPause(i) => Requests(i) + [Dwell(false)]
    case AtBaseline(i, w) => Requests(i) + PAUSE + Requests(w)
    case AtSecondPause(i, b) => Requests(i) + PAUSE + Requests(b) + [Dwell(false)]
    case AtConfirmation(i, b, w) => Requests(i) + PAUSE + Requests(b) + PAUSE + Requests(w)
  }

  ghost predicate Suspicious(w: Wave, size: int) {
    |w| == size && !Invalidates(w) && !AllSuccessful(w) && (HasLimitSignal(w) || HasNetworkSignal(w))
  }

  ghost predicate Baffling(w: Wave) {
    !AllSuccessful(w) && !HasLimitSignal(w) && !HasNetworkSignal(w)
  }

  /** The error a refused level ends in: an invalid wave first, then a response
      that is no signal at all. */
  ghost predicate Explains(f: Refusal, e: ApiError, size: int) {
    match f
    case AtInitial(w) =>
      |w| == size
      && if Invalidates(w) then e == InvalidTarget else e == UnexpectedResponse && Baffling(w)
    case AtFirstPause(i) => Suspicious(i, size) && e == DwellIncomplete
    case AtBaseline(i, w) =>
      Suspicious(i, size) && |w| == 1
      && if Invalidates(w) then e == InvalidTarget else e == BaselineFailed && !AllSuccessful(w)
    case AtSecondPause(i, b) => Suspicious(i, size) && |b| == 1 && AllSuccessful(b) && e == DwellIncomplete
    case AtConfirmation(i, b, w) =>
      Suspicious(i, size) && |b| == 1 && AllSuccessful(b) && |w| == size
      && if Invalidates(w) then e == InvalidTarget else e == UnexpectedResponse && Baffling(w)
  }

  /** How a level ends: with a sound record of everything it sent, or explained by
      where it stopped. Only an unrepeated candidate leaves a record and an error. */
  ghost predicate Ends(record: Option<ApiRecord>, failure: Option<ApiError>, refusal: Refusal, rounds: int,
                       concurrency: int, before: seq<Step>, trace: seq<Step>) {
    match record
    case Some(r) =>
      && r.concurrency == concurrency && Sound(r, rounds) && trace == before + StepsOf(r)
      && (if r.Healthy? || r.ceilingReached then failure == None else failure == Some(Inconclusive))
    case None =>
      && failure.Some? && failure.value != Inconclusive
      && Explains(refusal, failure.value, rounds * concurrency)
      && trace == before + RefusalSteps(refusal)
  }

  // ------------------------------------------------------------ told in codes

  /** Some answer is a redirect, or a client error other than 429. */
  ghost predicate Turned(w: Wave) {
    exists i {:trigger w[i]} :: 0 <= i < |w|
      && match w[i].status { case Redirect => true case Code(code) => 400 <= code <= 499 && code != 429 case _ => false }
  }

  /** Some answer missed its deadline, or is 429, or is 500 or more. */
  ghost predicate Limited(w: Wave) {
    exists i {:trigger w[i]} :: 0 <= i < |w|
      && match w[i].status { case Deadline => true case Code(code) => code == 429 || 500 <= code case _ => false }
  }

  /** Some request failed on the way. */
  ghost predicate Dropped(w: Wave) { exists i {:trigger w[i]} :: 0 <= i < |w| && w[i].status == NetworkError }

  /** Every answer is from 200 to 299. */
  ghost predicate Good(w: Wave) {
    forall i {:trigger w[i]} :: 0 <= i < |w| ==>
      match w[i].status { case Code(code) => 200 <= code <= 299 case _ => false }
  }

  /** A wave worth a second look: no answer says the target is wrong, and what is not
      good about it may be load. */
  ghost predicate Candidate(w: Wave) { !Turned(w) && !Good(w) && (Limited(w) || Dropped(w)) }

  /** The verdict on a level, told by its answers' codes: where it stopped and the wave
      it stopped at, or its record, decide every ending. */
  ghost predicate Told(record: Option<ApiRecord>, failure: Option<ApiError>, refusal: Refusal) {
    match record
    case Some(Healthy(_, wave)) => Good(wave) && failure == None
    case Some(Suspect(_, initial, baseline, confirmation, ceiling, verdict)) =>
      && Candidate(initial) && Good(baseline) && (Good(confirmation) || Candidate(confirmation))
      && (ceiling <==> Limited(initial) && Limited(confirmation))
      && failure == (if ceiling then None else Some(Inconclusive))
      && verdict == (if ceiling then ConfirmedCapacityCeiling
                     else if Good(confirmation) then TransientCandidateNotReproduced else InconclusiveNetworkCandidate)
    case None =>
      match refusal
      case AtInitial(w) =>
        !Good(w) && !Candidate(w) && failure == Some(if Turned(w) then InvalidTarget else UnexpectedResponse)
      case AtFirstPause(i) => Candidate(i) && failure == Some(DwellIncomplete)
      case AtBaseline(i, w) =>
        Candidate(i) && !Good(w) && failure == Some(if Turned(w) then InvalidTarget else BaselineFailed)
      case AtSecondPause(i, b) => Candidate(i) && Good(b) && failure == Some(DwellIncomplete)
      case AtConfirmation(i, b, w) =>
        && Candidate(i) && Good(b) && !Good(w) && !Candidate(w)
        && failure == Some(if Turned(w) then InvalidTarget else UnexpectedResponse)
  }

  /** The wave a level was refused at; none if it was a pause. */
  ghost function LastWave(refusal: Refusal): Wave {
    match refusal
    case AtInitial(w) => w
    case AtBaseline(_, w) => w
    case AtConfirmation(_, _, w) => w
    case _ => []
  }

  /** What the source's tests of a wave see is what its codes show. */
  lemma WaveTold(w: Wave)
    ensures Turned(w) <==> Invalidates(w)
    ensures Limited(w) <==> HasLimitSignal(w)
    ensures Dropped(w) <==> HasNetworkSignal(w)
    ensures Good(w) <==> AllSuccessful(w)
    ensures Good(w) ==> !Turned(w) && !Limited(w) && !Dropped(w)
  {
  }

  lemma RecordTold(r: ApiRecord, rounds: int)
    requires Sound(r, rounds)
    ensures Told(Some(r), if Inconclusively(r) then Some(Inconclusive) else None, AtInitial([]))
  {
    match r {
      case Healthy(_, wave) => WaveTold(wave);
      case Suspect(_, initial, baseline, confirmation, _, _) =>
        WaveTold(initial);
        WaveTold(baseline);
        WaveTold(confirmation);
        hide Turned, Limited, Dropped, Good, AllSuccessful, Invalidates, HasLimitSignal, HasNetworkSignal;
    }
  }

  /** A refused level stopped at a redirect or an ordinary client error if and only if
      the error says that the target is wrong. */
  lemma RefusalTold(f: Refusal, e: ApiError, size: int)
    requires Explains(f, e, size)
    ensures Told(None, Some(e), f)
    ensures e == InvalidTarget <==> Turned(LastWave(f))
  {
    match f {
      case AtInitial(w) => WaveTold(w);
      case AtFirstPause(i) => WaveTold(i);
      case AtBaseline(i, w) => WaveTold(i); WaveTold(w);
      case AtSecondPause(i, b) => WaveTold(i); WaveTold(b);
      case AtConfirmation(i, b, w) => WaveTold(i); WaveTold(b); WaveTold(w);
    }
    assert !Turned([]);
    hide Turned, Limited, Dropped, Good, AllSuccessful, Invalidates, HasLimitSignal, HasNetworkSignal;
  }

  lemma LevelTold(record: Option<ApiRecord>, failure: Option<ApiError>, refusal: Refusal, rounds: int,
                  concurrency: int, before: seq<Step>, trace: seq<Step>)
    requires Ends(record, failure, refusal, rounds, concurrency, before, trace)
    ensures Told(record, failure, refusal)
    ensures failure == Some(InvalidTarget) <==> record == None && Turned(LastWave(refusal))
  {
    match record {
      case Some(r) => RecordTold(r, rounds);
      case None => RefusalTold(refusal, failure.value, rounds * concurrency);
    }
    hide Turned, Limited, Dropped, Good, Sound, Explains, StepsOf, RefusalSteps, LastWave;
  }

  // --------------------------------------------------------------- operations

  /** Every request is answered at the last moment, and every wait takes what it was
      asked for. */
  ghost predicate Slow(s: Services, c: Config) {
    && (forall n: nat {:trigger s.fetches(n)} :: s.fetches(n).Settles? && s.fetches(n).after == c.deadlineMs)
    && forall n: nat {:trigger s.sleeps(n)} :: s.sleeps(n).Settles? && s.sleeps(n).value && s.sleeps(n).after == c.dwellMs
  }

  lemma SlowRequest(s: Services, c: Config, n: nat)
    requires Slow(s, c) && 0 <= c.deadlineMs
    ensures OutcomeOf(s.fetches(n), c.deadlineMs).ms == c.deadlineMs
  {
  }

  lemma SlowWait(s: Services, c: Config, n: nat)
    requires Slow(s, c) && 0 <= RestMs(c)
    ensures Race(s.sleeps(n), RestMs(c)) == Some(true) && Lasted(s.sleeps(n), RestMs(c)) == c.dwellMs
  {
  }

  /** `concurrency` requests at once, and the slowest of them decides when the
      round is over. */
  method RunRound(s: Services, w0: World, c: Config, concurrency: nat) returns (w: World, wave: Wave)
    requires Validated(c) && Honest(s, c, w0.calls, w0.trace)
    ensures Honest(s, c, w.calls, w.trace)
    ensures |wave| == concurrency
    ensures w.calls == w0.calls + concurrency && w.handed == w0.handed && w.closeTried == w0.closeTried
    ensures forall i :: 0 <= i < |wave| ==> wave[i] == OutcomeOf(s.fetches(w0.calls + i), c.deadlineMs)
    ensures w.trace == w0.trace + Requests(wave)
    ensures w.clock <= w0.clock + c.deadlineMs
    ensures Slow(s, c) && concurrency > 0 ==> w.clock == w0.clock + c.deadlineMs
  {
    w := w0;
    wave := [];
    TakesTime(c);
    hide Validated, Honest, Requests, Slow;
    NoRequests();
    assert w0.trace == w0.trace + [];
    var slowest: nat := 0;
    for k := 0 to concurrency
      invariant |wave| == k && slowest <= c.deadlineMs && (Slow(s, c) && k > 0 ==> slowest == c.deadlineMs)
      invariant w.calls == w0.calls + k && w.clock == w0.clock && Honest(s, c, w.calls, w.trace)
      invariant w.handed == w0.handed && w.closeTried == w0.closeTried
      invariant forall i :: 0 <= i < k ==> wave[i] == OutcomeOf(s.fetches(w0.calls + i), c.deadlineMs)
      invariant w.trace == w0.trace + Requests(wave)
    {
      var outcome;
      ghost var was := w;
      w, outcome := BoundedGet(s, w, HotPath, c.deadlineMs);
      HonestSnoc(s, c, was.calls, was.trace, Request(HotPath, outcome));
      RequestsSnoc(wave, outcome);
      if Slow(s, c) { SlowRequest(s, c, was.calls); }
      wave := wave + [outcome];
      slowest := Max(slowest, outcome.ms);
    }
    w := Advance(w, slowest);
  }

  /** Rounds follow one another, so a wave takes at most one deadline each. */
  method RunApiWave(s: Services, w0: World, c: Config, concurrency: int) returns (w: World, outcomes: Wave)
    requires Validated(c) && InRange(concurrency) && Honest(s, c, w0.calls, w0.trace)
    ensures Honest(s, c, w.calls, w.trace)
    ensures |outcomes| == c.apiRounds * concurrency
    ensures w.calls == w0.calls + |outcomes| && w.handed == w0.handed && w.closeTried == w0.closeTried
    ensures forall i :: 0 <= i < |outcomes| ==>
      outcomes[i] == OutcomeOf(s.fetches(w0.calls + i), c.deadlineMs)
    ensures w.trace == w0.trace + Requests(outcomes)
    ensures w.clock <= w0.clock + c.apiRounds * c.deadlineMs
    ensures Slow(s, c) ==> w.clock == w0.clock + c.apiRounds * c.deadlineMs
  {
    w := w0;
    outcomes := [];
    assert w0.trace == w0.trace + Requests([]);
    hide Honest, Slow;
    for round := 0 to c.apiRounds
      invariant |outcomes| == round * concurrency
      invariant Honest(s, c, w.calls, w.trace)
      invariant w.calls == w0.calls + |outcomes| && w.handed == w0.handed && w.closeTried == w0.closeTried
      invariant forall i :: 0 <= i < |outcomes| ==>
        outcomes[i] == OutcomeOf(s.fetches(w0.calls + i), c.deadlineMs)
      invariant w.trace == w0.trace + Requests(outcomes)
      invariant w.clock <= w0.clock + round * c.deadlineMs
      invariant Slow(s, c) ==> w.clock == w0.clock + round * c.deadlineMs
    {
      var wave;
      w, wave := RunRound(s, w, c, concurrency);
      RequestsConcat(outcomes, wave);
      Product(round, concurrency);
      Product(round, c.deadlineMs);
      outcomes := outcomes + wave;
    }
  }

  lemma RequestOne(o: ApiOutcome)
    ensures Requests([o]) == [Request(HotPath, o)]
  {
  }

  lemma LimitIsNoSuccess(w: Wave)
    ensures HasLimitSignal(w) ==> !AllSuccessful(w)
  {
  }

  /** The verdict the source computes, on waves that reached one. */
  lemma SuspectIsSound(r: ApiRecord, rounds: int)
    requires r.Suspect? && Suspicious(r.initial, rounds * r.concurrency)
    requires |r.baseline| == 1 && AllSuccessful(r.baseline)
    requires |r.confirmation| == rounds * r.concurrency && !Invalidates(r.confirmation)
    requires AllSuccessful(r.confirmation) || HasLimitSignal(r.confirmation) || HasNetworkSignal(r.confirmation)
    requires r.ceilingReached <==> HasLimitSignal(r.initial) && HasLimitSignal(r.confirmation)
    requires r.classification == if r.ceilingReached then ConfirmedCapacityCeiling
                                 else if AllSuccessful(r.confirmation) then TransientCandidateNotReproduced
                                 else InconclusiveNetworkCandidate
    ensures Sound(r, rounds)
  {
    LimitIsNoSuccess(r.confirmation);
    hide AllSuccessful, HasLimitSignal, HasNetworkSignal, Invalidates;
  }

  /** A level and its confirmation fit what the ramp has left. */
  lemma LevelFits(c: Config, i: int)
    requires Validated(c) && 0 <= i < |c.apiRamp|
    ensures InRange(c.apiRamp[i])
    ensures (i + 1) * (c.apiRounds * c.deadlineMs) == i * (c.apiRounds * c.deadlineMs) + c.apiRounds * c.deadlineMs
    ensures (i + 1) * (c.apiRounds * c.deadlineMs) + 2 * RestMs(c) + c.deadlineMs
              + c.apiRounds * c.deadlineMs <= ApiBudgetMs(c) + ApiToleranceMs(c)
    ensures |c.apiRamp| * (c.apiRounds * c.deadlineMs) <= ApiBudgetMs(c) + ApiToleranceMs(c)
    ensures 0 <= c.apiRounds * c.deadlineMs <= ApiBudgetMs(c)
  {
    var wave := c.apiRounds * c.deadlineMs;
    NotNegative(c.apiRounds, c.deadlineMs);
    NotNegative(|c.apiRamp|, wave);
    Product(i, wave);
    AtMost(i + 1, |c.apiRamp|, wave);
  }

  lemma AllStepsSnoc(rs: seq<ApiRecord>, r: ApiRecord)
    ensures AllSteps(rs + [r]) == AllSteps(rs) + StepsOf(r)
  {
    assert (rs + [r])[..|rs|] == rs;
  }

  method Pause(s: Services, w0: World, c: Config) returns (w: World, completed: bool)
    requires Validated(c) && Honest(s, c, w0.calls, w0.trace)
    ensures Honest(s, c, w.calls, w.trace)
    ensures w.trace == w0.trace + [Dwell(completed)]
    ensures w.handed == w0.handed && w.closeTried == w0.closeTried && w0.calls <= w.calls
    ensures w.clock <= w0.clock + RestMs(c)
    ensures Slow(s, c) ==> completed && w.clock == w0.clock + c.dwellMs
  {
    TakesTime(c);
    hide Honest, Slow;
    w, completed := WaitFor(s, w0, RestMs(c));
    if Slow(s, c) { SlowWait(s, c, w0.calls); }
    HonestSnoc(s, c, w0.calls, w0.trace, Dwell(completed));
  }

  /** A suspect level: a cooldown, a single request, a second cooldown and the
      wave once more. */
  method ConfirmSuspect(s: Services, w0: World, c: Config, concurrency: int, initial: Wave, ghost before: seq<Step>)
    returns (w: World, record: Option<ApiRecord>, failure: Option<ApiError>, ghost refusal: Refusal)
    requires Validated(c) && InRange(concurrency) && Suspicious(initial, c.apiRounds * concurrency)
    requires w0.trace == before + Requests(initial) && Honest(s, c, w0.calls, w0.trace)
    ensures Honest(s, c, w.calls, w.trace)
    ensures Ends(record, failure, refusal, c.apiRounds, concurrency, before, w.trace)
    ensures record.Some? ==> record.value.Suspect?
    ensures w.handed == w0.handed && w.closeTried == w0.closeTried && w0.calls <= w.calls
    ensures w.clock <= w0.clock + 2 * RestMs(c) + c.deadlineMs
                       + c.apiRounds * c.deadlineMs
    ensures Slow(s, c) && record.Some? ==>
              w.clock == w0.clock + 2 * c.dwellMs + c.deadlineMs + c.apiRounds * c.deadlineMs
  {
    w := w0;
    hide AllSuccessful, HasClientFailure, HasRedirect, HasLimitSignal, HasNetworkSignal, Requests, ValidRamp,
      Sound, Honest, Slow;
    TakesTime(c);
    record, failure, refusal := None, None, AtInitial([]);
    NotNegative(c.apiRounds, c.deadlineMs);
    var initialLimit := HasLimitSignal(initial);
    var rested;
    w, rested := Pause(s, w, c);
    if !rested {
      failure, refusal := Some(DwellIncomplete), AtFirstPause(initial);
      return;
    }
    var only;
    ghost var was := w;
    w, only := BoundedGet(s, w, HotPath, c.deadlineMs);
    HonestSnoc(s, c, was.calls, was.trace, Request(HotPath, only));
    if Slow(s, c) { SlowRequest(s, c, was.calls); }
    w := Advance(w, only.ms);
    var baseline := [only];
    RequestOne(only);
    if Invalidates(baseline) {
      failure, refusal := Some(InvalidTarget), AtBaseline(initial, baseline);
      return;
    }
    if !AllSuccessful(baseline) {
      failure, refusal := Some(BaselineFailed), AtBaseline(initial, baseline);
      return;
    }
    w, rested := Pause(s, w, c);
    if !rested {
      failure, refusal := Some(DwellIncomplete), AtSecondPause(initial, baseline);
      return;
    }
    var confirmation;
    w, confirmation := RunApiWave(s, w, c, concurrency);
    if Invalidates(confirmation) {
      failure, refusal := Some(InvalidTarget), AtConfirmation(initial, baseline, confirmation);
      return;
    }
    if !AllSuccessful(confirmation) && !HasLimitSignal(confirmation) && !HasNetworkSignal(confirmation) {
      failure, refusal := Some(UnexpectedResponse), AtConfirmation(initial, baseline, confirmation);
      return;
    }
    var confirmed := initialLimit && HasLimitSignal(confirmation);
    var classification :=
      if confirmed then ConfirmedCapacityCeiling
      else if AllSuccessful(confirmation) then TransientCandidateNotReproduced
      else InconclusiveNetworkCandidate;
    record := Some(Suspect(concurrency, initial, baseline, confirmation, confirmed, classification));
    SuspectIsSound(record.value, c.apiRounds);
    if !confirmed {
      failure := Some(Inconclusive);
    }
  }

  /** What a slow confirmation takes: two waits, a single request and the wave again. */
  ghost function ConfirmationMs(c: Config, r: ApiRecord): int {
    if r.Healthy? then 0 else 2 * c.dwellMs + c.deadlineMs + c.apiRounds * c.deadlineMs
  }

  /** One level: a wave, and its confirmation if it is suspect. */
  method RunLevel(s: Services, w0: World, c: Config, concurrency: int)
    returns (w: World, record: Option<ApiRecord>, failure: Option<ApiError>, ghost refusal: Refusal)
    requires Validated(c) && InRange(concurrency) && Honest(s, c, w0.calls, w0.trace)
    ensures Honest(s, c, w.calls, w.trace)
    ensures Ends(record, failure, refusal, c.apiRounds, concurrency, w0.trace, w.trace)
    ensures Told(record, failure, refusal)
    ensures failure == Some(InvalidTarget) <==> record == None && Turned(LastWave(refusal))
    ensures w.handed == w0.handed && w.closeTried == w0.closeTried && w0.calls <= w.calls
    ensures w.clock <= w0.clock + c.apiRounds * c.deadlineMs +
      (if record.Some? && record.value.Healthy? then 0
       else 2 * RestMs(c) + c.deadlineMs + c.apiRounds * c.deadlineMs)
    ensures Slow(s, c) && record.Some? ==>
              w.clock == w0.clock + c.apiRounds * c.deadlineMs + ConfirmationMs(c, record.value)
  {
    w := w0;
    hide AllSuccessful, HasClientFailure, HasRedirect, HasLimitSignal, HasNetworkSignal, Requests, ValidRamp, Honest,
      Slow, Told, Turned, LastWave;
    TakesTime(c);
    record, failure, refusal := None, None, AtInitial([]);
    NotNegative(c.apiRounds, c.deadlineMs);
    var initial;
    w, initial := RunApiWave(s, w, c, concurrency);
    if Invalidates(initial) {
      failure, refusal := Some(InvalidTarget), AtInitial(initial);
      LevelTold(record, failure, refusal, c.apiRounds, concurrency, w0.trace, w.trace);
      return;
    }
    if AllSuccessful(initial) {
      record := Some(Healthy(concurrency, initial));
      LevelTold(record, failure, refusal, c.apiRounds, concurrency, w0.trace, w.trace);
      return;
    }
    if !HasLimitSignal(initial) && !HasNetworkSignal(initial) {
      failure, refusal := Some(UnexpectedResponse), AtInitial(initial);
      LevelTold(record, failure, refusal, c.apiRounds, concurrency, w0.trace, w.trace);
      return;
    }
    w, record, failure, refusal := ConfirmSuspect(s, w, c, concurrency, initial, w0.trace);
    LevelTold(record, failure, refusal, c.apiRounds, concurrency, w0.trace, w.trace);
  }

  /** The evidence of an API run: sound records for a prefix of the ramp, every
      level but the last healthy. */
  ghost predicate Evidence(rs: seq<ApiRecord>, ramp: seq<int>, rounds: int) {
    && |rs| <= |ramp|
    && (forall i :: 0 <= i < |rs| ==> rs[i].concurrency == ramp[i] && Sound(rs[i], rounds))
    && (forall i :: 0 <= i < |rs| - 1 ==> rs[i].Healthy?)
  }

  ghost predicate AllHealthy(rs: seq<ApiRecord>) { forall i :: 0 <= i < |rs| ==> rs[i].Healthy? }

  lemma RampNotEmpty(c: Config)
    requires Validated(c)
    ensures |c.apiRamp| > 0
  {
  }

  lemma NoEvidence(ramp: seq<int>, rounds: int)
    ensures AllSteps([]) == [] && Evidence([], ramp, rounds) && AllHealthy([])
  {
  }

  lemma EvidenceSnoc(rs: seq<ApiRecord>, r: ApiRecord, ramp: seq<int>, rounds: int)
    requires Evidence(rs, ramp, rounds) && AllHealthy(rs)
    requires |rs| < |ramp| && r.concurrency == ramp[|rs|] && Sound(r, rounds)
    ensures Evidence(rs + [r], ramp, rounds)
    ensures AllHealthy(rs + [r]) <==> r.Healthy?
  {
    hide Sound;
    assert (rs + [r])[|rs|] == r;
  }

  /** Every answer behind a record. */
  ghost function Outcomes(r: ApiRecord): Wave {
    match r
    case Healthy(_, wave) => wave
    case Suspect(_, initial, baseline, confirmation, _, _) => initial + baseline + confirmation
  }

  /** No record rests on a redirect or an ordinary client error, and a record is a
      ceiling if and only if it is suspect and a missed deadline, a 429 or a 5xx is in
      both its waves; it is then the last, with a healthy control between the waves. */
  lemma EvidenceIsClean(rs: seq<ApiRecord>, ramp: seq<int>, rounds: int, i: nat)
    requires Evidence(rs, ramp, rounds) && i < |rs|
    ensures !Turned(Outcomes(rs[i]))
    ensures CeilingReached(rs[i]) <==> rs[i].Suspect? && Limited(rs[i].initial) && Limited(rs[i].confirmation)
    ensures rs[i].Suspect? ==> i == |rs| - 1 && Good(rs[i].baseline)
  {
    var r := rs[i];
    assert Sound(r, rounds);
    RecordTold(r, rounds);
    match r {
      case Healthy(_, wave) => WaveTold(wave);
      case Suspect(_, initial, baseline, confirmation, _, _) =>
        WaveTold(baseline);
        WaveTold(confirmation);
        assert forall o :: o in Outcomes(r) ==> o in initial || o in baseline || o in confirmation;
    }
  }

  /** How a run of the API ramp may end: every level healthy, or the last one a
      confirmed ceiling; inconclusive on a level that did not repeat; or refused
      at the level after the records. */
  ghost predicate EndsProperly(rs: seq<ApiRecord>, ramp: seq<int>, failure: Option<ApiError>) {
    match failure
    case None => if AllHealthy(rs) then |rs| == |ramp| else CeilingReached(rs[|rs| - 1])
    case Some(Inconclusive) => rs != [] && rs[|rs| - 1].Suspect? && !CeilingReached(rs[|rs| - 1])
    case Some(_) => AllHealthy(rs) && |rs| < |ramp|
  }

  /** What a slow ramp takes that left these records: a wave each, and the confirmation
      of a last one that was suspect. */
  ghost function SlowMs(c: Config, rs: seq<ApiRecord>): int {
    |rs| * (c.apiRounds * c.deadlineMs) + if rs == [] then 0 else ConfirmationMs(c, rs[|rs| - 1])
  }

  lemma SlowStarts(c: Config)
    ensures SlowMs(c, []) == 0
  {
  }

  lemma SlowSnoc(c: Config, rs: seq<ApiRecord>, r: ApiRecord)
    requires AllHealthy(rs)
    ensures SlowMs(c, rs + [r]) == SlowMs(c, rs) + c.apiRounds * c.deadlineMs + ConfirmationMs(c, r)
  {
    Product(|rs|, c.apiRounds * c.deadlineMs);
    if rs != [] { assert rs[|rs| - 1].Healthy?; }
  }

  method RunApiRamp(s: Services, w0: World, c: Config)
    returns (w: World, records: seq<ApiRecord>, failure: Option<ApiError>, ghost refusal: Option<Refusal>)
    requires Validated(c) && Honest(s, c, w0.calls, w0.trace)
    ensures Honest(s, c, w.calls, w.trace)
    ensures Evidence(records, c.apiRamp, c.apiRounds)
    ensures EndsProperly(records, c.apiRamp, failure)
    ensures w.trace == w0.trace + AllSteps(records)
                     + if refusal.Some? then RefusalSteps(refusal.value) else []
    ensures refusal.Some? <==> failure.Some? && failure.value != Inconclusive
    ensures refusal.Some? ==>
              |records| < |c.apiRamp| && Explains(refusal.value, failure.value, c.apiRounds * c.apiRamp[|records|])
    ensures w.handed == w0.handed && w.closeTried == w0.closeTried && w0.calls <= w.calls
    ensures w.clock <= w0.clock + ApiBudgetMs(c) + ApiToleranceMs(c)
    ensures Slow(s, c) && refusal == None ==> w.clock == w0.clock + SlowMs(c, records)
  {
    w := w0;
    hide Slow, SlowMs, ConfirmationMs, Sound, Explains, StepsOf, RefusalSteps, AllSteps, Validated, ValidRamp,
      ApiBudgetMs, Evidence, AllHealthy, Honest, RestMs;
    records, failure, refusal := [], None, None;
    RampNotEmpty(c);
    NoEvidence(c.apiRamp, c.apiRounds);
    var wave := c.apiRounds * c.deadlineMs;
    LevelFits(c, 0);
    SlowStarts(c);
    for i := 0 to |c.apiRamp|
      invariant |records| == i && Evidence(records, c.apiRamp, c.apiRounds) && AllHealthy(records)
      invariant failure == None && refusal == None && Honest(s, c, w.calls, w.trace)
      invariant w.handed == w0.handed && w.closeTried == w0.closeTried && w0.calls <= w.calls
      invariant w.trace == w0.trace + AllSteps(records)
      invariant w.clock <= w0.clock + i * wave
      invariant Slow(s, c) ==> w.clock == w0.clock + SlowMs(c, records)
    {
      LevelFits(c, i);
      var record, why;
      ghost var refused;
      w, record, why, refused := RunLevel(s, w, c, c.apiRamp[i]);
      if record.None? {
        failure, refusal := why, Some(refused);
        return;
      }
      AllStepsSnoc(records, record.value);
      EvidenceSnoc(records, record.value, c.apiRamp, c.apiRounds);
      SlowSnoc(c, records, record.value);
      records := records + [record.value];
      if record.value.Suspect? {
        failure := why;
        return;
      }
    }
  }
}
