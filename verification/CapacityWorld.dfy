/** What the capacity driver talks to (apps/api/scripts/
    deployed-capacity-lib.ts, lines 552-608, 699-803 and 1082-1092): requests,
    connections and timers, each raced against its deadline. */
module CapacityWorld {
  import opened Wrappers
  import opened RealtimeHistory
  import opened CapacityBudget

  /** Something that settles after a while, or never. */
  datatype Timed<T> = Settles(value: T, after: nat) | Never

  /** The race against a timer: what won, and how long it took. */
  function Race<T>(t: Timed<T>, bound: nat): Option<T> {
    if t.Settles? && t.after <= bound then Some(t.value) else None
  }

  function Lasted<T>(t: Timed<T>, bound: nat): (ms: nat)
    ensures ms <= bound
    ensures Race(t, bound).None? ==> ms == bound
  {
    if t.Settles? && t.after <= bound then t.after else bound
  }

  datatype Path = Health | HotPath

  datatype ApiStatus = Code(code: int) | Deadline | NetworkError | Redirect

  datatype ApiOutcome = ApiOutcome(status: ApiStatus, ms: nat)

  function StatusOf(answer: Option<Option<int>>): ApiStatus {
    match answer
    case None => Deadline
    case Some(None) => NetworkError
    case Some(Some(code)) => if 300 <= code < 400 then Redirect else Code(code)
  }

  function OutcomeOf(t: Timed<Option<int>>, bound: nat): ApiOutcome {
    ApiOutcome(StatusOf(Race(t, bound)), Lasted(t, bound))
  }

  /** What an answer counts as, told from the answer itself: one that has not come by
      the bound is a deadline, a request that fails is a network error, a 3xx is a
      redirect and any other status is itself. */
  lemma OutcomeMeans(t: Timed<Option<int>>, bound: nat)
    ensures var o := OutcomeOf(t, bound); var inTime := t.Settles? && t.after <= bound;
            && (o.status == Deadline <==> !inTime)
            && (o.status == NetworkError <==> inTime && t.value == None)
            && (o.status == Redirect <==> inTime && t.value.Some? && 300 <= t.value.value <= 399)
            && (forall c :: o.status == Code(c) <==> inTime && t.value == Some(c) && !(300 <= c <= 399))
            && o.ms == if inTime then t.after else bound
  {
  }

  datatype JoinCode = Refused(terminal: Terminal) | PastDeadline | NetworkTrouble

  datatype JoinResult = Handle | CleanupFailure | Failure(code: JoinCode) | OtherCause

  type ConnectionId = nat

  datatype Attempt = Opened(id: ConnectionId) | CleanupFailed | JoinFailed(code: JoinCode)

  function AttemptOf(answer: Option<JoinResult>, id: ConnectionId): Attempt {
    match answer
    case None => JoinFailed(PastDeadline)
    case Some(Handle) => Opened(id)
    case Some(CleanupFailure) => CleanupFailed
    case Some(Failure(code)) => JoinFailed(code)
    case Some(OtherCause) => JoinFailed(NetworkTrouble)
  }

  /** The `n`-th join is answered by its bound, with `r`. */
  ghost predicate Came(s: Services, n: nat, bound: int, r: JoinResult) {
    s.opens(n).Settles? && s.opens(n).after <= bound && s.opens(n).value == r
  }

  /** No answer to it comes by its bound. */
  ghost predicate Missed(s: Services, n: nat, bound: int) { !(s.opens(n).Settles? && s.opens(n).after <= bound) }

  /** How many of the `n` joins from the call `from` on are answered with `r` in time. */
  ghost function CountCame(s: Services, from: nat, n: nat, bound: int, r: JoinResult): nat {
    if n == 0 then 0 else CountCame(s, from, n - 1, bound, r) + if Came(s, from + n - 1, bound, r) then 1 else 0
  }

  ghost function CountMissed(s: Services, from: nat, n: nat, bound: int): nat {
    if n == 0 then 0 else CountMissed(s, from, n - 1, bound) + if Missed(s, from + n - 1, bound) then 1 else 0
  }

  /** What an attempt counts as, told from the answer itself. */
  lemma AttemptMeans(s: Services, n: nat, bound: nat)
    ensures var a := AttemptOf(Race(s.opens(n), bound), n);
            && (a == Opened(n) <==> Came(s, n, bound, Handle)) && (a.Opened? ==> a.id == n)
            && (a == CleanupFailed <==> Came(s, n, bound, CleanupFailure))
            && (a == JoinFailed(PastDeadline) <==> Missed(s, n, bound) || Came(s, n, bound, Failure(PastDeadline)))
            && (a == JoinFailed(NetworkTrouble) <==>
                  Came(s, n, bound, OtherCause) || Came(s, n, bound, Failure(NetworkTrouble)))
            && forall t :: a == JoinFailed(Refused(t)) <==> Came(s, n, bound, Failure(Refused(t)))
  {
  }

  /** One thing the driver did, with what came of it. */
  datatype Step =
    | Request(path: Path, outcome: ApiOutcome)
    | Join(attempt: Attempt)
    | Look(id: ConnectionId, snapshot: Snapshot)
    | Close(id: ConnectionId, ok: bool)
    | Dwell(completed: bool)

  function Max(a: nat, b: nat): nat { if a < b then b else a }

  /** The other side of every call. The n-th thing asked is answered by the n-th
      entry of the matching table, so the tables stand for any behaviour of the
      services and of the clock. */
  datatype Services = Services(
    fetches: nat -> Timed<Option<int>>,
    opens: nat -> Timed<JoinResult>,
    closes: nat -> Timed<bool>,
    sleeps: nat -> Timed<bool>,
    snapshots: nat -> Snapshot
  )

  /** How far the driver has come: what it has asked, how late it is, what it did,
      and which connections were handed to it or asked to close. */
  datatype World = World(
    calls: nat,
    clock: nat,
    trace: seq<Step>,
    handed: set<ConnectionId>,
    closeTried: set<ConnectionId>
  )

  const START := World(0, 0, [], {}, {})

  /** A group of concurrent operations is over when its slowest is. */
  function Advance(w: World, ms: nat): World { w.(clock := w.clock + ms) }

  function Note(w: World, step: Step): World { w.(calls := w.calls + 1, trace := w.trace + [step]) }

  /** The step is what the services say to the `n`-th thing asked, within the bound
      the configuration gives it. */
  ghost predicate Answered(s: Services, c: Config, n: nat, step: Step)
    requires 0 <= c.deadlineMs && 0 <= OperationMs(c) && 0 <= RestMs(c)
  {
    match step
    case Request(_, outcome) => outcome == OutcomeOf(s.fetches(n), c.deadlineMs)
    case Join(attempt) => attempt == AttemptOf(Race(s.opens(n), OperationMs(c)), n)
    case Look(_, snapshot) => snapshot == s.snapshots(n)
    case Close(_, ok) => ok == (Race(s.closes(n), OperationMs(c)) == Some(true))
    case Dwell(completed) => completed == (Race(s.sleeps(n), RestMs(c)) == Some(true))
  }

  /** Every step of the trace was asked in its turn and is what came of it. */
  ghost predicate Honest(s: Services, c: Config, calls: nat, trace: seq<Step>) {
    && |trace| == calls && 0 <= c.deadlineMs && 0 <= OperationMs(c) && 0 <= RestMs(c)
    && forall n {:trigger trace[n]} :: 0 <= n < |trace| ==> Answered(s, c, n, trace[n])
  }

  lemma HonestSnoc(s: Services, c: Config, calls: nat, trace: seq<Step>, step: Step)
    requires Honest(s, c, calls, trace)
    requires 0 <= c.deadlineMs && 0 <= OperationMs(c) && 0 <= RestMs(c) && Answered(s, c, calls, step)
    ensures Honest(s, c, calls + 1, trace + [step])
  {
    hide Answered;
  }

  method BoundedGet(s: Services, before: World, path: Path, bound: nat) returns (w: World, outcome: ApiOutcome)
    ensures outcome == OutcomeOf(s.fetches(before.calls), bound)
    ensures w == Note(before, Request(path, outcome))
  {
    outcome := OutcomeOf(s.fetches(before.calls), bound);
    w := Note(before, Request(path, outcome));
  }

  /** A join that settles past its bound is lost: its handle reaches no one. */
  method OpenBefore(s: Services, before: World, bound: nat) returns (w: World, attempt: Attempt, ms: nat)
    ensures attempt == AttemptOf(Race(s.opens(before.calls), bound), before.calls)
    ensures ms == Lasted(s.opens(before.calls), bound)
    ensures w == Note(before, Join(attempt)).(
                   handed := if attempt.Opened? then before.handed + {attempt.id} else before.handed)
  {
    attempt := AttemptOf(Race(s.opens(before.calls), bound), before.calls);
    ms := Lasted(s.opens(before.calls), bound);
    w := Note(before, Join(attempt));
    if attempt.Opened? {
      w := w.(handed := w.handed + {attempt.id});
    }
  }

  method CloseBefore(s: Services, before: World, id: ConnectionId, bound: nat)
    returns (w: World, ok: bool, ms: nat)
    ensures ok == (Race(s.closes(before.calls), bound) == Some(true))
    ensures ms == Lasted(s.closes(before.calls), bound)
    ensures w == Note(before, Close(id, ok)).(closeTried := before.closeTried + {id})
  {
    ok := Race(s.closes(before.calls), bound) == Some(true);
    ms := Lasted(s.closes(before.calls), bound);
    w := Note(before, Close(id, ok)).(closeTried := before.closeTried + {id});
  }

  /** The wait itself is raced against a second more than it was asked for. */
  method WaitFor(s: Services, before: World, bound: nat) returns (w: World, completed: bool)
    ensures completed == (Race(s.sleeps(before.calls), bound) == Some(true))
    ensures w == Advance(Note(before, Dwell(completed)), Lasted(s.sleeps(before.calls), bound))
  {
    completed := Race(s.sleeps(before.calls), bound) == Some(true);
    w := Advance(Note(before, Dwell(completed)), Lasted(s.sleeps(before.calls), bound));
  }

  method TakeSnapshot(s: Services, before: World, id: ConnectionId) returns (w: World, snapshot: Snapshot)
    ensures snapshot == s.snapshots(before.calls)
    ensures w == Note(before, Look(id, snapshot))
  {
    snapshot := s.snapshots(before.calls);
    w := Note(before, Look(id, snapshot));
  }
}
