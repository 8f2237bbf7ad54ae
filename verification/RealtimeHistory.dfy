/** The reconnect history of one Realtime connection (apps/api/scripts/
    deployed-capacity-lib.ts, lines 805-850) and the count a level takes of many
    (lines 1004-1070). */
module RealtimeHistory {

  datatype Terminal = ChannelError | TimedOut | Closed

  /** What the client library reports. */
  datatype Callback = SubscribedNow | Ended(terminal: Terminal) | OtherStatus

  datatype Connection = Connecting | Subscribed | Down(terminal: Terminal)

  /** A count for each terminal event. */
  datatype Tally = Tally(channelError: nat, timedOut: nat, closed: nat)

  function Of(a: Tally, t: Terminal): nat {
    match t
    case ChannelError => a.channelError
    case TimedOut => a.timedOut
    case Closed => a.closed
  }

  function Plus(a: Tally, t: Terminal, n: nat): Tally {
    match t
    case ChannelError => a.(channelError := a.channelError + n)
    case TimedOut => a.(timedOut := a.timedOut + n)
    case Closed => a.(closed := a.closed + n)
  }

  function Add(a: Tally, b: Tally): Tally {
    Tally(a.channelError + b.channelError, a.timedOut + b.timedOut, a.closed + b.closed)
  }

  function Total(a: Tally): nat { a.channelError + a.timedOut + a.closed }

  /** The terminals in the order their counts are walked, and the first `k` counts. */
  function TerminalAt(k: nat): Terminal {
    if k == 0 then ChannelError else if k == 1 then TimedOut else Closed
  }

  function First(a: Tally, k: nat): Tally {
    Tally(if k > 0 then a.channelError else 0, if k > 1 then a.timedOut else 0, if k > 2 then a.closed else 0)
  }

  const NONE := Tally(0, 0, 0)

  datatype TransitionState = TransitionState(current: Connection, subscribedOnce: bool, postJoin: Tally)

  const INITIAL_TRANSITION := TransitionState(Connecting, false, NONE)

  function Transition(previous: TransitionState, status: Callback): TransitionState {
    match status
    case SubscribedNow => previous.(current := Subscribed, subscribedOnce := true)
    case Ended(t) =>
      TransitionState(Down(t), previous.subscribedOnce,
                      Plus(previous.postJoin, t, if previous.subscribedOnce then 1 else 0))
    case OtherStatus => previous
  }

  /** The state after a history of callbacks. */
  function Fold(h: seq<Callback>): TransitionState {
    if h == [] then INITIAL_TRANSITION else Transition(Fold(h[..|h| - 1]), h[|h| - 1])
  }

  // -------------------------------------------- what the history itself says

  ghost predicate Joined(h: seq<Callback>) { SubscribedNow in h }

  /** How often `t` is reported at or after position `from`. */
  ghost function CountFrom(h: seq<Callback>, from: nat, t: Terminal): nat {
    if |h| <= from then 0
    else CountFrom(h[..|h| - 1], from, t) + if h[|h| - 1] == Ended(t) then 1 else 0
  }

  /** The position of the first SUBSCRIBED, or the length if there is none. */
  ghost function FirstJoin(h: seq<Callback>): nat {
    if h == [] then 0
    else if h[0] == SubscribedNow then 0 else 1 + FirstJoin(h[1..])
  }

  lemma {:induction false} FirstJoinExtends(h: seq<Callback>, c: Callback)
    ensures FirstJoin(h) <= |h| && (FirstJoin(h) < |h| <==> Joined(h))
    ensures FirstJoin(h + [c]) == if Joined(h) || c == SubscribedNow then FirstJoin(h) else |h| + 1
  {
    if h != [] {
      assert (h + [c])[1..] == h[1..] + [c];
      FirstJoinExtends(h[1..], c);
      assert Joined(h) <==> h[0] == SubscribedNow || Joined(h[1..]);
    }
  }

  lemma CountPastEnd(h: seq<Callback>, from: nat, t: Terminal)
    requires |h| <= from
    ensures CountFrom(h, from, t) == 0
  {
  }

  /** After any callbacks, each counter holds the number of such terminals after
      the first SUBSCRIBED, and `subscribedOnce` whether there was one. */
  lemma {:induction false} FoldMatchesHistory(h: seq<Callback>, t: Terminal)
    ensures Of(Fold(h).postJoin, t) == CountFrom(h, FirstJoin(h), t)
    ensures Fold(h).subscribedOnce <==> Joined(h)
  {
    if h != [] {
      var g, c := h[..|h| - 1], h[|h| - 1];
      assert h == g + [c];
      FoldMatchesHistory(g, t);
      FirstJoinExtends(g, c);
      assert Joined(h) <==> Joined(g) || c == SubscribedNow;
      if !Joined(g) {
        CountPastEnd(g, FirstJoin(h), t);
        CountPastEnd(g, FirstJoin(g), t);
      }
    }
  }

  // --------------------------------------------------------------- assessment

  /** What a level sees of a connection. */
  datatype Snapshot = Snapshot(subscribed: bool, postJoin: Tally)

  function SnapshotOf(h: seq<Callback>): Snapshot {
    Snapshot(Fold(h).current == Subscribed, Fold(h).postJoin)
  }

  predicate Stable(s: Snapshot) { s.subscribed && Total(s.postJoin) == 0 }

  lemma JoinedSplits(h: seq<Callback>)
    requires h != []
    ensures Joined(h) <==> Joined(h[..|h| - 1]) || h[|h| - 1] == SubscribedNow
  {
    assert h == h[..|h| - 1] + [h[|h| - 1]];
  }

  lemma {:induction false} EventlessIsSubscribed(h: seq<Callback>)
    requires Joined(h) && Total(Fold(h).postJoin) == 0
    ensures Fold(h).current == Subscribed
  {
    JoinedSplits(h);
    FoldMatchesHistory(h[..|h| - 1], ChannelError);
    if h[|h| - 1] != SubscribedNow { EventlessIsSubscribed(h[..|h| - 1]); }
  }

  /** No terminal was reported after the first SUBSCRIBED. */
  ghost predicate Eventless(h: seq<Callback>) {
    && CountFrom(h, FirstJoin(h), ChannelError) == 0
    && CountFrom(h, FirstJoin(h), TimedOut) == 0
    && CountFrom(h, FirstJoin(h), Closed) == 0
  }

  lemma EventlessMeansZero(h: seq<Callback>)
    ensures Eventless(h) <==> Total(Fold(h).postJoin) == 0
  {
    FoldMatchesHistory(h, ChannelError);
    FoldMatchesHistory(h, TimedOut);
    FoldMatchesHistory(h, Closed);
    hide Fold, CountFrom, FirstJoin;
  }

  /** A joined connection is stable exactly when no terminal followed its first
      SUBSCRIBED: recovering does not hide the event. */
  lemma StableMeansEventless(h: seq<Callback>)
    requires Joined(h)
    ensures Stable(SnapshotOf(h)) <==> Eventless(h)
    ensures Stable(SnapshotOf(h)) <==> Total(SnapshotOf(h).postJoin) == 0
  {
    EventlessMeansZero(h);
    if Total(Fold(h).postJoin) == 0 { EventlessIsSubscribed(h); }
    hide Fold, Eventless, Total;
  }

  datatype Assessment = Assessment(stable: nat, withTerminal: nat, events: Tally)

  /** The counts of `assessRealtime`, read off the snapshots. */
  ghost function CountStable(ss: seq<Snapshot>): nat {
    if ss == [] then 0 else CountStable(ss[..|ss| - 1]) + if Stable(ss[|ss| - 1]) then 1 else 0
  }

  ghost function CountEventful(ss: seq<Snapshot>): nat {
    if ss == [] then 0 else CountEventful(ss[..|ss| - 1]) + if Total(ss[|ss| - 1].postJoin) > 0 then 1 else 0
  }

  ghost function SumOf(ss: seq<Snapshot>): Tally {
    if ss == [] then NONE else Add(SumOf(ss[..|ss| - 1]), ss[|ss| - 1].postJoin)
  }

  lemma AddPlus(a: Tally, b: Tally, t: Terminal, n: nat)
    ensures Plus(Add(a, b), t, n) == Add(a, Plus(b, t, n))
    ensures Total(Plus(b, t, n)) == Total(b) + n
  {
  }

  lemma FirstGrows(own: Tally, k: nat)
    requires k < 3
    ensures First(own, k + 1) == Plus(First(own, k), TerminalAt(k), Of(own, TerminalAt(k)))
  {
  }

  lemma FirstNone(own: Tally)
    ensures First(own, 0) == NONE && Total(NONE) == 0
  {
  }

  lemma AddNone(a: Tally)
    ensures Add(a, NONE) == a
  {
  }

  lemma FirstAll(own: Tally)
    ensures First(own, 3) == own
  {
  }

  /** The inner loop: one connection's events, added up and added on. */
  method AddEvents(before: Tally, own: Tally) returns (events: Tally, connectionEvents: nat)
    ensures events == Add(before, own) && connectionEvents == Total(own)
  {
    hide *;
    FirstNone(own);
    AddNone(before);
    FirstAll(own);
    events, connectionEvents := before, 0;
    for k := 0 to 3
      invariant events == Add(before, First(own, k))
      invariant connectionEvents == Total(First(own, k))
    {
      var count := Of(own, TerminalAt(k));
      FirstGrows(own, k);
      AddPlus(before, First(own, k), TerminalAt(k), count);
      events := Plus(events, TerminalAt(k), count);
      connectionEvents := connectionEvents + count;
    }
  }

  method AssessRealtime(ss: seq<Snapshot>) returns (a: Assessment)
    ensures a == Assessment(CountStable(ss), CountEventful(ss), SumOf(ss))
  {
    var events, stable, withTerminal := NONE, 0, 0;
    for i := 0 to |ss|
      invariant Assessment(stable, withTerminal, events)
             == Assessment(CountStable(ss[..i]), CountEventful(ss[..i]), SumOf(ss[..i]))
    {
      assert ss[..i + 1][..i] == ss[..i];
      var connectionEvents;
      events, connectionEvents := AddEvents(events, ss[i].postJoin);
      if connectionEvents > 0 {
        withTerminal := withTerminal + 1;
      }
      if ss[i].subscribed && connectionEvents == 0 {
        stable := stable + 1;
      }
    }
    assert ss[..|ss|] == ss;
    a := Assessment(stable, withTerminal, events);
  }

  /** Among connections that joined, every one is counted stable or eventful,
      never both. */
  lemma {:induction false} JoinedAreStableOrEventful(hs: seq<seq<Callback>>, ss: seq<Snapshot>)
    requires |hs| == |ss| && forall i :: 0 <= i < |hs| ==> Joined(hs[i]) && ss[i] == SnapshotOf(hs[i])
    ensures CountStable(ss) + CountEventful(ss) == |hs|
  {
    if hs != [] {
      JoinedAreStableOrEventful(hs[..|hs| - 1], ss[..|ss| - 1]);
      StableMeansEventless(hs[|hs| - 1]);
    }
  }

  /** A connection is never counted twice, so a full count of stable ones means
      each is stable. */
  lemma {:induction false} AllStable(ss: seq<Snapshot>)
    ensures CountStable(ss) + CountEventful(ss) <= |ss|
    ensures CountStable(ss) == |ss| <==> forall i :: 0 <= i < |ss| ==> Stable(ss[i])
  {
    if ss != [] {
      var front, last := ss[..|ss| - 1], ss[|ss| - 1];
      AllStable(front);
      assert ss == front + [last];
      if CountStable(ss) == |ss| {
        forall i | 0 <= i < |ss| ensures Stable(ss[i]) { if i < |front| { assert ss[i] == front[i]; } }
      } else if Stable(last) {
        var i :| 0 <= i < |front| && !Stable(front[i]);
        assert ss[i] == front[i];
      }
    }
  }

  lemma AddOf(a: Tally, b: Tally, t: Terminal)
    ensures Of(Add(a, b), t) == Of(a, t) + Of(b, t)
  {
  }

  predicate Saw(s: Snapshot, t: Terminal) { Of(s.postJoin, t) > 0 }

  ghost predicate SomeSaw(ss: seq<Snapshot>, t: Terminal) { exists s :: s in ss && Saw(s, t) }

  lemma OfNone(t: Terminal)
    ensures Of(NONE, t) == 0
  {
  }

  lemma SomeSawSnoc(front: seq<Snapshot>, last: Snapshot, t: Terminal)
    ensures SomeSaw(front + [last], t) <==> SomeSaw(front, t) || Saw(last, t)
  {
    hide Saw;
    if s :| s in front && Saw(s, t) { assert s in front + [last]; }
    assert last in front + [last];
  }

  /** An event is in the sum exactly when some connection saw it. */
  lemma {:induction false} SumShows(ss: seq<Snapshot>, t: Terminal)
    ensures Of(SumOf(ss), t) > 0 <==> SomeSaw(ss, t)
  {
    assert !SomeSaw([], t);
    hide Of, Add, SomeSaw;
    if ss == [] {
      OfNone(t);
    } else {
      var front, last := ss[..|ss| - 1], ss[|ss| - 1];
      SumShows(front, t);
      AddOf(SumOf(front), last.postJoin, t);
      assert ss == front + [last];
      SomeSawSnoc(front, last, t);
    }
  }
}
