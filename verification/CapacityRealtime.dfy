/** What the Realtime half of the capacity driver sees and how it judges it
    (apps/api/scripts/deployed-capacity-lib.ts, lines 1004-1070 and 1120-1172). */
module CapacityRealtime {
  import opened Wrappers
  import opened RealtimeHistory
  import opened CapacityWorld

  /** The failed joins of a batch, by code. */
  datatype Failures = Failures(refused: Tally, pastDeadline: nat, network: nat)

  const NO_FAILURES := Failures(NONE, 0, 0)

  function FailureTotal(f: Failures): nat { Total(f.refused) + f.pastDeadline + f.network }

  function CountFailure(f: Failures, a: Attempt): Failures {
    match a
    case JoinFailed(Refused(t)) => f.(refused := Plus(f.refused, t, 1))
    case JoinFailed(PastDeadline) => f.(pastDeadline := f.pastDeadline + 1)
    case JoinFailed(NetworkTrouble) => f.(network := f.network + 1)
    case _ => f
  }

  ghost function FailuresOf(attempts: seq<Attempt>): Failures {
    if attempts == [] then NO_FAILURES
    else CountFailure(FailuresOf(attempts[..|attempts| - 1]), attempts[|attempts| - 1])
  }

  ghost function Handles(attempts: seq<Attempt>): seq<ConnectionId> {
    if attempts == [] then []
    else
      var last := attempts[|attempts| - 1];
      Handles(attempts[..|attempts| - 1]) + if last.Opened? then [last.id] else []
  }

  ghost function Ids(ids: seq<ConnectionId>): set<ConnectionId> { set id | id in ids }

  lemma {:induction false} HandlesSnoc(attempts: seq<Attempt>, a: Attempt)
    ensures Handles(attempts + [a]) == Handles(attempts) + if a.Opened? then [a.id] else []
    ensures FailuresOf(attempts + [a]) == CountFailure(FailuresOf(attempts), a)
  {
    assert (attempts + [a])[..|attempts|] == attempts;
  }

  lemma CountFailureTotal(f: Failures, a: Attempt)
    ensures FailureTotal(CountFailure(f, a)) == FailureTotal(f) + if a.JoinFailed? then 1 else 0
  {
    match a {
      case JoinFailed(Refused(t)) => AddPlus(NONE, f.refused, t, 1);
      case JoinFailed(PastDeadline) =>
      case JoinFailed(NetworkTrouble) =>
      case Opened(_) =>
      case CleanupFailed =>
    }
  }

  lemma NoFailuresTotal()
    ensures FailureTotal(NO_FAILURES) == 0
  {
  }

  ghost predicate AllOpened(attempts: seq<Attempt>) { forall a :: a in attempts ==> a.Opened? }

  /** Every attempt is a handle, a counted failure or a cleanup failure. */
  lemma {:induction false} AttemptsSplit(attempts: seq<Attempt>)
    requires CleanupFailed !in attempts
    ensures |Handles(attempts)| + FailureTotal(FailuresOf(attempts)) == |attempts|
    ensures FailureTotal(FailuresOf(attempts)) == 0 <==> AllOpened(attempts)
  {
    hide FailureTotal, CountFailure;
    if attempts == [] {
      NoFailuresTotal();
    } else {
      var front, last := attempts[..|attempts| - 1], attempts[|attempts| - 1];
      assert attempts == front + [last];
      AttemptsSplit(front);
      CountFailureTotal(FailuresOf(front), last);
      if AllOpened(attempts) { assert last in attempts; }
    }
  }

  // ------------------------------------------------------------------ judging

  predicate Unstable(expected: int, failures: Failures, a: Assessment) {
    FailureTotal(failures) > 0 || a.stable < expected || a.withTerminal > 0
  }

  /** Every attempt joined, and every connection is up and never dropped. */
  ghost predicate Steady(attempts: seq<Attempt>, ss: seq<Snapshot>, expected: int) {
    AllOpened(attempts) && |ss| == expected && forall i :: 0 <= i < |ss| ==> Stable(ss[i])
  }

  ghost function AssessmentOf(ss: seq<Snapshot>): Assessment {
    Assessment(CountStable(ss), CountEventful(ss), SumOf(ss))
  }

  lemma UnstableMeansNotSteady(attempts: seq<Attempt>, ss: seq<Snapshot>, expected: int)
    requires CleanupFailed !in attempts && |ss| <= expected
    ensures Unstable(expected, FailuresOf(attempts), AssessmentOf(ss)) <==> !Steady(attempts, ss, expected)
  {
    hide CountStable, CountEventful, SumOf, FailureTotal, FailuresOf, Stable, Handles, Total, AllOpened;
    AttemptsSplit(attempts);
    AllStable(ss);
  }

  // ------------------------------------------------------------------ signals

  datatype SignalKind = JoinSignal(terminal: Terminal) | PostJoinSignal(terminal: Terminal)

  /** The wave holds the event `k` names. */
  ghost predicate Shows(attempts: seq<Attempt>, ss: seq<Snapshot>, k: SignalKind) {
    match k
    case JoinSignal(t) => JoinFailed(Refused(t)) in attempts
    case PostJoinSignal(t) => SomeSaw(ss, t)
  }

  predicate Signals(failures: Failures, a: Assessment, k: SignalKind) {
    match k
    case JoinSignal(t) => Of(failures.refused, t) > 0
    case PostJoinSignal(t) => Of(a.events, t) > 0
  }

  lemma CountRefused(f: Failures, a: Attempt, t: Terminal)
    ensures Of(CountFailure(f, a).refused, t) == Of(f.refused, t) + if a == JoinFailed(Refused(t)) then 1 else 0
  {
  }

  lemma {:induction false} RefusalsCounted(attempts: seq<Attempt>, t: Terminal)
    ensures Of(FailuresOf(attempts).refused, t) > 0 <==> JoinFailed(Refused(t)) in attempts
  {
    if attempts == [] {
      OfNone(t);
    } else {
      var front, last := attempts[..|attempts| - 1], attempts[|attempts| - 1];
      assert attempts == front + [last];
      RefusalsCounted(front, t);
      CountRefused(FailuresOf(front), last, t);
      hide Of, CountFailure;
    }
  }

  lemma SignalsAreShown(attempts: seq<Attempt>, ss: seq<Snapshot>, k: SignalKind)
    ensures Signals(FailuresOf(attempts), AssessmentOf(ss), k) <==> Shows(attempts, ss, k)
  {
    match k {
      case JoinSignal(t) => RefusalsCounted(attempts, t);
      case PostJoinSignal(t) => SumShows(ss, t);
    }
  }

  /** A wave that shows a signal is not steady. */
  lemma SignalsUnsettle(attempts: seq<Attempt>, ss: seq<Snapshot>, k: SignalKind, expected: int)
    requires Shows(attempts, ss, k)
    ensures !Steady(attempts, ss, expected)
  {
    match k {
      case JoinSignal(t) => assert !JoinFailed(Refused(t)).Opened?;
      case PostJoinSignal(t) =>
        var s :| s in ss && Saw(s, t);
        var i :| 0 <= i < |ss| && ss[i] == s;
        assert !Stable(ss[i]) by { TotalAtLeast(s.postJoin, t); }
    }
  }

  lemma TotalAtLeast(tally: Tally, t: Terminal)
    ensures Of(tally, t) <= Total(tally)
  {
  }

  /** The kinds of a wave, terminal by terminal. */
  method SignalKinds(failures: Failures, a: Assessment) returns (kinds: seq<SignalKind>)
    ensures forall k :: k in kinds <==> Signals(failures, a, k)
  {
    kinds := [];
    for n := 0 to 3
      invariant forall k :: k in kinds <==> Signals(failures, a, k) && Rank(k.terminal) < n
    {
      var t := TerminalAt(n);
      RankAt(n);
      hide Rank, TerminalAt;
      if Of(failures.refused, t) > 0 { kinds := kinds + [JoinSignal(t)]; }
      if Of(a.events, t) > 0 { kinds := kinds + [PostJoinSignal(t)]; }
    }
  }

  function Rank(t: Terminal): nat {
    match t
    case ChannelError => 0
    case TimedOut => 1
    case Closed => 2
  }

  lemma RankAt(n: nat)
    requires n < 3
    ensures forall t :: Rank(t) == n <==> t == TerminalAt(n)
    ensures forall t :: Rank(t) <= n <==> Rank(t) < n || t == TerminalAt(n)
  {
  }

  /** The kinds of the first wave that the second one repeats. */
  method RepeatedKinds(initial: seq<SignalKind>, confirmation: seq<SignalKind>) returns (kinds: seq<SignalKind>)
    ensures forall k :: k in kinds <==> k in initial && k in confirmation
  {
    kinds := [];
    for i := 0 to |initial|
      invariant forall k :: k in kinds <==> k in initial[..i] && k in confirmation
    {
      if initial[i] in confirmation { kinds := kinds + [initial[i]]; }
      assert initial[..i + 1] == initial[..i] + [initial[i]];
    }
    assert initial[..|initial|] == initial;
  }
}
