/** Any interleaving of the database calls of any number of requests (apps/api/src/
    db.ts, lines 143-167, and apps/api/src/db-pressure.ts, lines 54-112). A call is
    three moments: it asks whether to start, its fetch settles, and an answer is
    classified; anything may happen in between. */
module DbInterleavings {
  import opened Wrappers
  import opened DbPressure

  type RequestId = nat
  type CallId = nat

  datatype Phase = InFlight | Classifying(response: Response) | Done(result: Result)

  /** A call and the request it was made for; crons and alarms have none. */
  datatype Call = Call(scope: Option<RequestId>, phase: Phase)

  datatype World = World(requests: map<RequestId, Pressure>, calls: map<CallId, Call>)

  datatype Event =
    | Opens(request: RequestId)
    | Starts(call: CallId, scope: Option<RequestId>)
    | Rejects(call: CallId, error: FetchError)
    | Answers(call: CallId, response: Response)
    | Classifies(call: CallId)

  const NOTHING := World(map[], map[])

  predicate Enabled(w: World, e: Event) {
    match e
    case Opens(r) => r !in w.requests
    case Starts(c, scope) => c !in w.calls && (scope.Some? ==> scope.value in w.requests)
    case Rejects(c, _) => c in w.calls && w.calls[c].phase.InFlight?
    case Answers(c, _) => c in w.calls && w.calls[c].phase.InFlight?
    case Classifies(c) => c in w.calls && w.calls[c].phase.Classifying?
  }

  /** The request an event is about, if it is about one. */
  function ScopeOf(w: World, e: Event): Option<RequestId> {
    match e
    case Opens(r) => Some(r)
    case Starts(_, scope) => scope
    case Rejects(c, _) => if c in w.calls then w.calls[c].scope else None
    case Answers(c, _) => if c in w.calls then w.calls[c].scope else None
    case Classifies(c) => if c in w.calls then w.calls[c].scope else None
  }

  /** What an event says of the database. */
  function WordOf(w: World, e: Event): Word
    requires Enabled(w, e)
  {
    match e
    case Rejects(_, error) => WordOfError(error)
    case Classifies(c) => WordOfResponse(w.calls[c].phase.response)
    case Opens(_) => Silent
    case Starts(_, _) => Silent
    case Answers(_, _) => Silent
  }

  predicate MayAsk(w: World, scope: Option<RequestId>) {
    !(scope.Some? && scope.value in w.requests && Stops(w.requests[scope.value]))
  }

  function NextPhase(w: World, e: Event): Phase
    requires Enabled(w, e) && !e.Opens?
  {
    match e
    case Starts(_, scope) => if MayAsk(w, scope) then InFlight else Done(StoppedAsking)
    case Rejects(c, error) =>
      Done(ResultOfError(error, w.calls[c].scope.Some?))
    case Answers(_, response) => Classifying(response)
    case Classifies(c) =>
      Done(ResultOfResponse(w.calls[c].phase.response, w.calls[c].scope.Some?))
  }

  function Listen(requests: map<RequestId, Pressure>, scope: Option<RequestId>, word: Word): map<RequestId, Pressure> {
    if scope.Some? && scope.value in requests
    then requests[scope.value := Heard(requests[scope.value], word)] else requests
  }

  /** One moment. An event that cannot happen does nothing. */
  function Next(w: World, e: Event): World {
    if !Enabled(w, e) then w
    else
      match e
      case Opens(r) => w.(requests := w.requests[r := CALM])
      case Starts(c, scope) => w.(calls := w.calls[c := Call(scope, NextPhase(w, e))])
      case Rejects(c, _) =>
        World(Listen(w.requests, w.calls[c].scope, WordOf(w, e)), w.calls[c := w.calls[c].(phase := NextPhase(w, e))])
      case Answers(c, _) => w.(calls := w.calls[c := w.calls[c].(phase := NextPhase(w, e))])
      case Classifies(c) =>
        World(Listen(w.requests, w.calls[c].scope, WordOf(w, e)), w.calls[c := w.calls[c].(phase := NextPhase(w, e))])
  }

  function After(es: seq<Event>): World {
    if es == [] then NOTHING else Next(After(es[..|es| - 1]), es[|es| - 1])
  }

  /** What event `i` of a run says to request `r`. */
  function Says(es: seq<Event>, i: nat, r: RequestId): Word
    requires i < |es|
  {
    var w := After(es[..i]);
    if Enabled(w, es[i]) && ScopeOf(w, es[i]) == Some(r) then WordOf(w, es[i]) else Silent
  }

  lemma AfterSnoc(es: seq<Event>, e: Event)
    ensures After(es + [e]) == Next(After(es), e)
  {
    assert (es + [e])[..|es|] == es;
  }

  lemma SaysPrefix(es: seq<Event>, e: Event, r: RequestId)
    ensures forall i :: 0 <= i < |es| ==> Says(es + [e], i, r) == Says(es, i, r)
  {
    forall i | 0 <= i < |es| ensures Says(es + [e], i, r) == Says(es, i, r) {
      assert (es + [e])[..i] == es[..i];
    }
  }

  /** A request's pressure moves by what is said to it, and by nothing else. */
  lemma PressureMoves(w: World, e: Event, r: RequestId)
    requires r in w.requests
    ensures r in Next(w, e).requests
    ensures Next(w, e).requests[r]
         == if Enabled(w, e) && ScopeOf(w, e) == Some(r) then Heard(w.requests[r], WordOf(w, e)) else w.requests[r]
  {
  }

  /** A request that is not open has heard nothing. */
  ghost predicate CallsAreScoped(w: World) {
    forall c :: c in w.calls && w.calls[c].scope.Some? ==> w.calls[c].scope.value in w.requests
  }

  lemma {:induction false} ScopesOpen(es: seq<Event>)
    ensures CallsAreScoped(After(es))
  {
    if es != [] { ScopesOpen(es[..|es| - 1]); }
  }

  // ------------------------------------------------------------------ overload

  ghost predicate WasRefused(es: seq<Event>, r: RequestId) {
    exists i :: 0 <= i < |es| && Says(es, i, r) == Refused
  }

  predicate Telling(word: Word) { word == Died || word == Reached }

  /** Call `i` of `r` died in transit, and none has died or been answered since. */
  ghost predicate DiedAt(es: seq<Event>, r: RequestId, i: nat) {
    i < |es| && Says(es, i, r) == Died && forall j :: i < j < |es| ==> !Telling(Says(es, j, r))
  }

  ghost predicate LastDied(es: seq<Event>, r: RequestId) { exists i: nat :: DiedAt(es, r, i) }

  lemma RefusedSnoc(es: seq<Event>, e: Event, r: RequestId)
    ensures WasRefused(es + [e], r) <==> WasRefused(es, r) || Says(es + [e], |es|, r) == Refused
  {
    var more := es + [e];
    SaysPrefix(es, e, r);
    hide Says;
    if i :| 0 <= i < |es| && Says(es, i, r) == Refused { assert Says(more, i, r) == Refused; }
    if i :| 0 <= i < |more| && Says(more, i, r) == Refused { assert i < |es| ==> Says(es, i, r) == Refused; }
  }

  lemma DiedAtSnoc(es: seq<Event>, e: Event, r: RequestId, i: nat)
    ensures i < |es| ==>
      (DiedAt(es + [e], r, i) <==> DiedAt(es, r, i) && !Telling(Says(es + [e], |es|, r)))
    ensures DiedAt(es + [e], r, |es|) <==> Says(es + [e], |es|, r) == Died
  {
    SaysPrefix(es, e, r);
    hide Says;
    var more := es + [e];
    if i < |es| {
      assert Says(more, i, r) == Says(es, i, r);
      assert DiedAt(more, r, i) ==> forall j :: i < j < |es| ==> !Telling(Says(more, j, r));
    }
  }

  lemma DiedSnoc(es: seq<Event>, e: Event, r: RequestId)
    ensures LastDied(es + [e], r) <==>
            Says(es + [e], |es|, r) == Died || (LastDied(es, r) && Says(es + [e], |es|, r) != Reached)
  {
    DiedAtSnoc(es, e, r, |es|);
    forall i: nat | i < |es|
      ensures DiedAt(es + [e], r, i) <==> DiedAt(es, r, i) && !Telling(Says(es + [e], |es|, r))
    {
      DiedAtSnoc(es, e, r, i);
    }
    assert forall i: nat :: DiedAt(es + [e], r, i) ==> i <= |es|;
    assert forall i: nat :: DiedAt(es, r, i) ==> i < |es|;
    hide Says, DiedAt;
  }

  lemma UnopenedIsSilent(es: seq<Event>, r: RequestId)
    requires r !in After(es).requests
    ensures !WasRefused(es, r) && !LastDied(es, r)
  {
    forall i | 0 <= i < |es| ensures Says(es, i, r) == Silent { UnopenedSaysNothing(es, i, r); }
  }

  lemma {:induction false} StaysOpen(es: seq<Event>, i: nat, r: RequestId)
    requires i <= |es| && r in After(es[..i]).requests
    ensures r in After(es).requests
  {
    if i < |es| {
      var front := es[..|es| - 1];
      assert front[..i] == es[..i];
      StaysOpen(front, i, r);
    } else {
      assert es[..i] == es;
    }
  }

  lemma UnopenedSaysNothing(es: seq<Event>, i: nat, r: RequestId)
    requires i < |es| && r !in After(es).requests
    ensures Says(es, i, r) == Silent
  {
    var w, e := After(es[..i]), es[i];
    if r in w.requests { StaysOpen(es, i, r); }
    ScopesOpen(es[..i]);
    hide After;
    assert !e.Opens? && !e.Starts? && e.call in w.calls && w.calls[e.call].scope == Some(r) ==> r in w.requests;
  }

  /** In every run, a request is overloaded exactly when some call of its own was
      refused, and unreachable exactly when its last telling call died. */
  lemma {:induction false} FlagsTellHistory(es: seq<Event>, r: RequestId)
    requires r in After(es).requests
    ensures After(es).requests[r] == Pressure(WasRefused(es, r), LastDied(es, r))
  {
    var front, e := es[..|es| - 1], es[|es| - 1];
    assert es == front + [e];
    var w := After(front);
    RefusedSnoc(front, e, r);
    DiedSnoc(front, e, r);
    if r in w.requests {
      FlagsTellHistory(front, r);
      PressureMoves(w, e, r);
      assert Says(es, |front|, r)
          == if Enabled(w, e) && ScopeOf(w, e) == Some(r) then WordOf(w, e) else Silent by { assert es[..|front|] == front; }
      hide Next, Says, WasRefused, LastDied, WordOf, Enabled, ScopeOf;
    } else {
      UnopenedIsSilent(front, r);
      assert es[..|front|] == front && Says(es, |front|, r) == Silent;
    }
  }

  // ------------------------------------------------- the same on the events themselves

  /** Event `i` settles or classifies a call of request `r`. */
  ghost predicate OfOwnCall(es: seq<Event>, i: nat, r: RequestId) {
    && i < |es| && Enabled(After(es[..i]), es[i]) && (es[i].Rejects? || es[i].Classifies?)
    && After(es[..i]).calls[es[i].call].scope == Some(r)
  }

  /** The fetch ran into its deadline. */
  ghost predicate TimedOut(es: seq<Event>, i: nat, r: RequestId) {
    OfOwnCall(es, i, r) && es[i].Rejects? && es[i].error == TimeoutError
  }

  ghost predicate LostInTransit(es: seq<Event>, i: nat, r: RequestId) {
    OfOwnCall(es, i, r) && es[i].Rejects? && es[i].error == InTransit
  }

  /** The database says it is out of room: a gateway's status, or a 500 whose body
      has the code for no more connections, or no code and the gateway's sentence. */
  ghost predicate OutOfRoom(a: Response) {
    || a.status == 502 || a.status == 503 || a.status == 504
    || (a.status == 500 && a.body.Fields?
        && (|| a.body.code == Text("53300")
            || (a.body.code == Undefined && a.body.message == Text("An unexpected error occurred"))))
  }

  /** An answer is found to say, or not to say, that the database is out of room. */
  ghost predicate Found(es: seq<Event>, i: nat, r: RequestId, outOfRoom: bool) {
    && OfOwnCall(es, i, r) && es[i].Classifies?
    && OutOfRoom(After(es[..i]).calls[es[i].call].phase.response) == outOfRoom
  }

  /** The answer that is classified is the one that came for the call. */
  lemma {:induction false} AnswerCame(es: seq<Event>, c: CallId) returns (j: nat)
    requires c in After(es).calls && After(es).calls[c].phase.Classifying?
    ensures j < |es| && es[j] == Answers(c, After(es).calls[c].phase.response) && Enabled(After(es[..j]), es[j])
  {
    var front, e := es[..|es| - 1], es[|es| - 1];
    assert es == front + [e];
    var w := After(front);
    if c in w.calls && w.calls[c] == After(es).calls[c] {
      j := AnswerCame(front, c);
      assert es[..j] == front[..j];
    } else {
      j := |es| - 1;
      assert es[..j] == front;
    }
  }

  lemma SaysOnEvents(es: seq<Event>, i: nat, r: RequestId)
    requires i < |es|
    ensures Says(es, i, r) == Refused <==> TimedOut(es, i, r) || Found(es, i, r, true)
    ensures Says(es, i, r) == Died <==> LostInTransit(es, i, r)
    ensures Says(es, i, r) == Reached <==> Found(es, i, r, false)
  {
    hide After;
  }

  /** A call of `r` ran into its deadline or was told the database is out of room. */
  ghost predicate Exhausted(es: seq<Event>, r: RequestId) {
    exists i: nat {:trigger TimedOut(es, i, r)} :: TimedOut(es, i, r) || Found(es, i, r, true)
  }

  /** A call of `r` was lost in transit, and none was answered with room since. */
  ghost predicate Lost(es: seq<Event>, r: RequestId) {
    exists i: nat {:trigger LostInTransit(es, i, r)} ::
      LostInTransit(es, i, r) && forall j: nat :: i < j ==> !Found(es, j, r, false)
  }

  /** In every run, on the events themselves: a request is overloaded exactly when a
      call of its own ran into its deadline or was answered that the database is out
      of room, and unreachable exactly when, of its calls lost in transit and those
      answered with room, the last was lost. */
  lemma FlagsTellEvents(es: seq<Event>, r: RequestId)
    requires r in After(es).requests
    ensures After(es).requests[r].overloaded <==> Exhausted(es, r)
    ensures After(es).requests[r].unreachable <==> Lost(es, r)
  {
    FlagsTellHistory(es, r);
    forall i: nat | i < |es|
      ensures Says(es, i, r) == Refused <==> TimedOut(es, i, r) || Found(es, i, r, true)
      ensures Says(es, i, r) == Died <==> LostInTransit(es, i, r)
      ensures Says(es, i, r) == Reached <==> Found(es, i, r, false)
    {
      SaysOnEvents(es, i, r);
    }
    EventsAreWithin(es, r);
    hide After, Says, TimedOut, Found, LostInTransit;
    WordsToEvents(es, r);
  }

  lemma EventsAreWithin(es: seq<Event>, r: RequestId)
    ensures forall i: nat :: TimedOut(es, i, r) ==> i < |es|
    ensures forall i: nat :: LostInTransit(es, i, r) ==> i < |es|
    ensures forall i: nat :: Found(es, i, r, true) || Found(es, i, r, false) ==> i < |es|
  {
    hide After;
  }

  lemma WordsToEvents(es: seq<Event>, r: RequestId)
    requires forall i: nat :: i < |es| ==> (Says(es, i, r) == Refused <==> TimedOut(es, i, r) || Found(es, i, r, true))
    requires forall i: nat :: i < |es| ==> (Says(es, i, r) == Died <==> LostInTransit(es, i, r))
    requires forall i: nat :: i < |es| ==> (Says(es, i, r) == Reached <==> Found(es, i, r, false))
    requires forall i: nat :: TimedOut(es, i, r) || Found(es, i, r, true) ==> i < |es|
    requires forall i: nat :: LostInTransit(es, i, r) || Found(es, i, r, false) ==> i < |es|
    ensures WasRefused(es, r) <==> Exhausted(es, r)
    ensures LastDied(es, r) <==> Lost(es, r)
  {
    hide After, Says, TimedOut, Found, LostInTransit;
    if i :| 0 <= i < |es| && Says(es, i, r) == Refused { assert TimedOut(es, i, r) || Found(es, i, r, true); }
    if LastDied(es, r) { LastIsLost(es, r); }
    if Lost(es, r) { LostIsLast(es, r, |es|); }
  }

  lemma LastIsLost(es: seq<Event>, r: RequestId)
    requires LastDied(es, r)
    requires forall i: nat :: i < |es| ==> (Says(es, i, r) == Died <==> LostInTransit(es, i, r))
    requires forall i: nat :: i < |es| ==> (Says(es, i, r) == Reached <==> Found(es, i, r, false))
    requires forall i: nat :: Found(es, i, r, false) ==> i < |es|
    ensures Lost(es, r)
  {
    hide After, Says, TimedOut, Found, LostInTransit;
    var i: nat :| DiedAt(es, r, i);
    assert LostInTransit(es, i, r);
    forall j: nat | i < j ensures !Found(es, j, r, false) {
      if j < |es| { assert !Telling(Says(es, j, r)); }
    }
  }

  /** Of several lost calls the last one is followed by no telling one. */
  lemma {:induction false} LostIsLast(es: seq<Event>, r: RequestId, n: nat)
    requires n <= |es|
    requires forall i: nat :: i < |es| ==> (Says(es, i, r) == Died <==> LostInTransit(es, i, r))
    requires forall i: nat :: i < |es| ==> (Says(es, i, r) == Reached <==> Found(es, i, r, false))
    requires exists i: nat :: i < n && LostInTransit(es, i, r) && forall j: nat :: i < j ==> !Found(es, j, r, false)
    requires forall j: nat :: n <= j < |es| ==> !Telling(Says(es, j, r))
    ensures LastDied(es, r)
  {
    hide After, Says, TimedOut, Found, LostInTransit;
    if LostInTransit(es, n - 1, r) {
      assert Says(es, n - 1, r) == Died;
      assert DiedAt(es, r, n - 1);
    } else {
      assert !Found(es, n - 1, r, false) && !Telling(Says(es, n - 1, r));
      LostIsLast(es, r, n - 1);
    }
  }

  /** A caller that gives up says nothing about the database. */
  lemma AbortSaysNothing(es: seq<Event>, c: CallId)
    ensures After(es + [Rejects(c, AbortError)]).requests == After(es).requests
  {
    AfterSnoc(es, Rejects(c, AbortError));
    hide After;
  }

  // ------------------------------------------------------ it stops asking

  /** The mark is never cleared. */
  lemma {:induction false} MarkStays(es: seq<Event>, i: nat, r: RequestId)
    requires i <= |es| && r in After(es[..i]).requests && After(es[..i]).requests[r].overloaded
    ensures r in After(es).requests && After(es).requests[r].overloaded
  {
    if i < |es| {
      var front := es[..|es| - 1];
      assert front[..i] == es[..i];
      MarkStays(front, i, r);
      PressureMoves(After(front), es[|es| - 1], r);
    } else {
      assert es[..i] == es;
    }
  }

  /** Event `i` of a run begins a fetch for request `r`. */
  ghost predicate BeginsFetch(es: seq<Event>, i: nat, r: RequestId)
    requires i < |es|
  {
    && es[i].Starts? && es[i].scope == Some(r)
    && es[i].call !in After(es[..i]).calls
    && es[i].call in After(es[..i + 1]).calls && After(es[..i + 1]).calls[es[i].call].phase.InFlight?
  }

  /** In every interleaving, no fetch of a request begins once one of its calls has
      marked it: the call that asks is told to stop. */
  lemma NoFetchAfterMark(es: seq<Event>, i: nat, j: nat, r: RequestId)
    requires i <= j < |es| && r in After(es[..i]).requests && After(es[..i]).requests[r].overloaded
    ensures !BeginsFetch(es, j, r)
    ensures es[j].Starts? && es[j].scope == Some(r) && es[j].call !in After(es[..j]).calls ==>
      var calls := After(es[..j + 1]).calls;
      es[j].call in calls && calls[es[j].call] == Call(Some(r), Done(StoppedAsking))
  {
    assert es[..j][..i] == es[..i];
    MarkStays(es[..j], i, r);
    assert es[..j + 1] == es[..j] + [es[j]];
    AfterSnoc(es[..j], es[j]);
    hide After;
  }

  /** Once a call of `r` ran into its deadline or was told the database is out of
      room, every call of it that asks is told to stop, and none begins a fetch. */
  lemma StopsAsking(es: seq<Event>, k: nat, j: nat, r: RequestId)
    requires k < j < |es| && (TimedOut(es, k, r) || Found(es, k, r, true))
    ensures !BeginsFetch(es, j, r)
    ensures es[j].Starts? && es[j].scope == Some(r) && es[j].call !in After(es[..j]).calls ==>
      var calls := After(es[..j + 1]).calls;
      es[j].call in calls && calls[es[j].call] == Call(Some(r), Done(StoppedAsking))
  {
    MarkedBy(es, k, r);
    hide After, TimedOut, Found, Says;
    NoFetchAfterMark(es, k + 1, j, r);
  }

  lemma MarkedBy(es: seq<Event>, k: nat, r: RequestId)
    requires k < |es| && (TimedOut(es, k, r) || Found(es, k, r, true))
    ensures r in After(es[..k + 1]).requests && After(es[..k + 1]).requests[r].overloaded
  {
    ScopesOpen(es[..k]);
    PressureMoves(After(es[..k]), es[k], r);
    assert es[..k + 1] == es[..k] + [es[k]];
    AfterSnoc(es[..k], es[k]);
    hide After;
  }

  // ----------------------------------------------------------------- isolation

  /** What is left of a world when only one request is looked at. */
  ghost function Restrict(w: World, r: RequestId): World {
    World(map q | q in w.requests && q == r :: w.requests[q],
          map c | c in w.calls && w.calls[c].scope == Some(r) :: w.calls[c])
  }

  predicate Belongs(w: World, e: Event, r: RequestId) { Enabled(w, e) && ScopeOf(w, e) == Some(r) }

  /** The events of a run that are about request `r`. */
  ghost function Own(es: seq<Event>, r: RequestId): seq<Event> {
    if es == [] then []
    else Own(es[..|es| - 1], r)
         + if Belongs(After(es[..|es| - 1]), es[|es| - 1], r) then [es[|es| - 1]] else []
  }

  lemma OwnEventsCarryOver(w: World, e: Event, r: RequestId)
    requires Belongs(w, e, r)
    ensures Next(Restrict(w, r), e) == Restrict(Next(w, e), r)
  {
    var a, b := Next(Restrict(w, r), e), Restrict(Next(w, e), r);
    assert Enabled(Restrict(w, r), e);
    assert a.requests == b.requests;
    assert a.calls == b.calls;
  }

  lemma OtherEventsDoNotShow(w: World, e: Event, r: RequestId)
    requires !Belongs(w, e, r)
    ensures Restrict(Next(w, e), r) == Restrict(w, r)
  {
    var a, b := Restrict(Next(w, e), r), Restrict(w, r);
    assert a.requests == b.requests;
    assert a.calls == b.calls;
  }

  /** A request's flags and calls are those of the run with everyone else's events
      taken out: no other request, cron or alarm can be told from its absence. */
  lemma {:induction false} OthersDoNotMatter(es: seq<Event>, r: RequestId)
    ensures After(Own(es, r)) == Restrict(After(es), r)
  {
    if es == [] {
      assert Restrict(NOTHING, r) == NOTHING;
    } else {
      var front, e := es[..|es| - 1], es[|es| - 1];
      OthersDoNotMatter(front, r);
      if Belongs(After(front), e, r) {
        OwnEventsCarryOver(After(front), e, r);
        AfterSnoc(Own(front, r), e);
      } else {
        OtherEventsDoNotShow(After(front), e, r);
        assert Own(front, r) + [] == Own(front, r);
      }
    }
  }

  // ---------------------------------------------------------------- the answer

  /** A request answers 503 exactly when its route did, or ended in a 5xx after some
      call of its own ran into its deadline or found the database out of room, or
      after the last of its calls lost or answered was lost. Below 500 nothing
      changes. */
  lemma AnswersBusy(es: seq<Event>, r: RequestId, status: int)
    requires r in After(es).requests
    ensures AnswerStatus(After(es).requests[r], status) == 503 <==>
            status == 503 || (status >= 500 && (Exhausted(es, r) || Lost(es, r)))
    ensures status < 500 ==> AnswerStatus(After(es).requests[r], status) == status
  {
    FlagsTellEvents(es, r);
    hide After, Exhausted, Lost;
  }
}
