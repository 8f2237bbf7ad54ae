/** What each operation of the call switch does, as its caller sees it: the reply,
    what becomes of the leg it names, and what is announced (apps/api/e2e/
    fake-telnyx-voice.ts, lines 409-472 and 513-711). */
module VoiceEffects {
  import opened Wrappers
  import opened VoiceSpec
  import opened Cascade
  import opened CascadeLog
  import opened VoiceInvariants
  import opened VoiceRuns
  import opened VoiceTheorems

  // --------------------------------------------------------------- two legs joined

  /** The legs once `x` and the other end of its bridge, if it has one, forgot each
      other. */
  ghost function Parted(legs: map<LegId, Leg>, x: LegId): map<LegId, Leg>
    requires x in legs
  {
    map z | z in legs :: if z == x || legs[x].bridgedWith == Some(z) then legs[z].(bridgedWith := None) else legs[z]
  }

  /** The other end of the bridge of `x`, if the end of the bridge hangs it up. */
  ghost function DropsOf(legs: map<LegId, Leg>, x: LegId): set<LegId>
    requires x in legs
  {
    set y | y in legs && legs[x].bridgedWith == Some(y) && y != x && !legs[y].parkAfterUnbridge
  }

  /** Splitting the bridge of a leg ends the least closed set around its partner. */
  lemma SplitEnds(s: State, x: LegId) returns (r: State, D: set<LegId>)
    requires Indexed(s) && Involution(s.legs) && x in s.legs
    ensures r == Unbridge(s, x) && D == Gone(s, r) && Live(r) <= Live(s)
    ensures LeastClosed(Parted(s.legs, x), DropsOf(s.legs, x), D) && IsCut(Parted(s.legs, x), r.legs, D)
    ensures Indexed(r) && Involution(r.legs) && r.legs.Keys == s.legs.Keys && x in r.legs && r.legs[x].bridgedWith == None
    ensures DropsOf(s.legs, x) == {} ==> r == s.(legs := Parted(s.legs, x)) && D == {}
  {
    var u, R;
    u, r, R, D := UnbridgeEnds(s, x);
    UnlinkParts(s, x);
    UnbridgeClears(s, x);
    hide Unbridge, Unlink, Involution;
    assert u.legs == Parted(s.legs, x);
  }

  lemma UnlinkParts(s: State, x: LegId)
    requires Involution(s.legs) && x in s.legs
    ensures Unlink(s, x) == s.(legs := Parted(s.legs, x)) && DroppedSet(s, x) == DropsOf(s.legs, x)
    ensures DropsOf(s.legs, x) == {} ==> Unbridge(s, x) == Unlink(s, x)
    ensures Live(Unlink(s, x)) == Live(s) && Live(Unbridge(s, x)) <= Live(s)
  {
    hide EndLeg, Unlink, Unbridge, DropsOf, DroppedSet, Involution, Unbridged, Parted;
    UnlinkOnly(s, x);
    PartedIs(s.legs, Unlink(s, x).legs, x);
    UnlinkTouchesLegs(s, x);
    DropsIsDropped(s, x);
    UnbridgeOfNobody(s, x);
  }

  lemma PartedIs(legs: map<LegId, Leg>, u: map<LegId, Leg>, x: LegId)
    requires x in legs && u.Keys == legs.Keys && forall z | z in legs :: u[z] == Unbridged(legs, x, z)
    ensures u == Parted(legs, x)
  {
  }

  lemma UnlinkTouchesLegs(s: State, x: LegId)
    requires x in s.legs
    ensures Unlink(s, x) == s.(legs := Unlink(s, x).legs)
  {
  }

  lemma DropsIsDropped(s: State, x: LegId)
    requires Involution(s.legs) && x in s.legs
    ensures DroppedSet(s, x) == DropsOf(s.legs, x)
  {
    assert Paired(s.legs, x);
  }

  lemma UnbridgeOfNobody(s: State, x: LegId)
    requires x in s.legs
    ensures DroppedSet(s, x) == {} ==> Unbridge(s, x) == Unlink(s, x)
    ensures Live(Unbridge(s, x)) <= Live(s)
  {
    hide EndLeg, Unlink;
  }

  ghost predicate EndsWith(h: seq<Event>, tail: seq<Event>) {
    |tail| <= |h| && h[|h| - |tail|..] == tail
  }

  /** The two name each other. */
  ghost predicate Joined(legs: map<LegId, Leg>, a: LegId, b: LegId) {
    a in legs && b in legs && legs[a].bridgedWith == Some(b) && legs[b].bridgedWith == Some(a)
  }

  /** What bridging two live legs comes to. `D` goes with the old partner of `a`, and
      `E`, in the switch `mid` that is left, with the old partner of `b`. The two are
      joined and announced exactly when neither is among those. */
  lemma BridgeOutcome(s: State, a: LegId, b: LegId)
      returns (r: State, mid: map<LegId, Leg>, D: set<LegId>, E: set<LegId>)
    requires Indexed(s) && Involution(s.legs) && a in s.legs && b in s.legs
    requires s.legs[a].state != Ended && s.legs[b].state != Ended && s.legs[a].bridgedWith != Some(b)
    ensures r == Bridge(s, a, b) && r.legs.Keys == s.legs.Keys && Gone(s, r) == D + E
    ensures LeastClosed(Parted(s.legs, a), DropsOf(s.legs, a), D) && IsCut(Parted(s.legs, a), mid, D)
    ensures b in mid && LeastClosed(Parted(mid, b), DropsOf(mid, b), E)
    ensures a in D + E || b in D + E ==> IsCut(Parted(mid, b), r.legs, E)
    ensures a !in D + E && b !in D + E ==>
              Joined(r.legs, a, b) && EndsWith(r.history, [CallBridged(a), CallBridged(b)])
    ensures s.legs[a].bridgedWith == None && s.legs[b].bridgedWith == None ==>
              && D == {} && E == {} && r.history == s.history + [CallBridged(a), CallBridged(b)]
              && forall x :: x in s.legs && x != a && x != b ==> r.legs[x] == s.legs[x]
  {
    hide Unbridge, Bridge, Gone, Live, LeastClosed, IsCut, Parted, DropsOf, Indexed, Involution, Joined, EndsWith;
    var s1, s2;
    s1, D := SplitEnds(s, a);
    mid := s1.legs;
    s2, E := SplitEnds(s1, b);
    r := Bridge(s, a, b);
    TwiceGone(s, s1, s2, D, E);
    GoneIsOver(s, s2, a, D + E);
    GoneIsOver(s, s2, b, D + E);
    BridgeIs(s, s2, a, b);
    NoPartner(s, s1, a, b);
    SameGone(s, s2, r);
  }

  lemma TwiceGone(s: State, s1: State, s2: State, D: set<LegId>, E: set<LegId>)
    requires D == Gone(s, s1) && E == Gone(s1, s2) && Live(s2) <= Live(s1) <= Live(s)
    ensures Gone(s, s2) == D + E
  {
  }

  lemma SameGone(s: State, s2: State, r: State)
    requires Live(r) == Live(s2)
    ensures Gone(s, r) == Gone(s, s2)
  {
  }

  lemma GoneIsOver(s: State, r: State, x: LegId, D: set<LegId>)
    requires x in s.legs && s.legs[x].state != Ended && r.legs.Keys == s.legs.Keys && D == Gone(s, r)
    ensures x in D <==> r.legs[x].state == Ended
  {
  }

  /** The last step of a bridge, the two being parted from their old partners. */
  lemma BridgeIs(s: State, s2: State, a: LegId, b: LegId)
    requires a in s.legs && b in s.legs && s2 == Unbridge(Unbridge(s, a), b) && s2.legs.Keys == s.legs.Keys
    requires s.legs[a].bridgedWith != Some(b)
    ensures var r := Bridge(s, a, b);
            && r.legs.Keys == s.legs.Keys && Live(r) == Live(s2)
            && if s2.legs[a].state == Ended || s2.legs[b].state == Ended then r == s2
               else && Joined(r.legs, a, b) && r.history == s2.history + [CallBridged(a), CallBridged(b)]
                    && EndsWith(r.history, [CallBridged(a), CallBridged(b)])
                    && forall x :: x in s.legs && x != a && x != b ==> r.legs[x] == s2.legs[x]
  {
    hide Unbridge, Live, Joined, EndsWith, Join;
    JoinAnnounced(s2, a, b);
  }

  lemma JoinAnnounced(s: State, a: LegId, b: LegId)
    requires a in s.legs && b in s.legs
    ensures var r := Emit(Emit(Join(s, a, b), CallBridged(a)), CallBridged(b));
            && r.legs.Keys == s.legs.Keys && Live(r) == Live(s)
            && Joined(r.legs, a, b) && r.history == s.history + [CallBridged(a), CallBridged(b)]
            && EndsWith(r.history, [CallBridged(a), CallBridged(b)])
            && forall x :: x in s.legs && x != a && x != b ==> r.legs[x] == s.legs[x]
  {
    var news := [CallBridged(a), CallBridged(b)];
    assert s.history + [CallBridged(a)] + [CallBridged(b)] == s.history + news;
  }

  lemma NoPartner(s: State, s1: State, a: LegId, b: LegId)
    requires Indexed(s) && Involution(s.legs) && a in s.legs && b in s.legs && s1 == Unbridge(s, a)
    requires b in s1.legs && Involution(s1.legs)
    ensures s.legs[a].bridgedWith == None ==> s1 == s && DropsOf(s.legs, a) == {}
    ensures s.legs[a].bridgedWith == None && s.legs[b].bridgedWith == None ==>
              Unbridge(s1, b) == s && DropsOf(s1.legs, b) == {}
  {
    hide EndLeg;
  }

  // ---------------------------------------------------------- a far end answers

  /** A transfer target that answers is bridged to the leg it was made for, unless an
      old partner of one of the two takes one of them along when it is dropped. */
  lemma AnswerBridges(s: State, id: LegId, o: LegId)
      returns (legs: map<LegId, Leg>, r: State, mid: map<LegId, Leg>, D: set<LegId>, E: set<LegId>)
    requires Inv(s) && id in s.legs && s.legs[id].state == Ringing && s.legs[id].direction == Outgoing
    requires s.legs[id].transferOf == Some(o) && o in s.legs && s.legs[o].state != Ended
    requires s.legs[o].bridgedWith != Some(id)
    ensures legs == s.legs[id := s.legs[id].(state := Answered)]
    ensures Perform(s, FarEndAnswers(id)) == Outcome(r, Okay) && r.legs.Keys == s.legs.Keys && Gone(s, r) == D + E
    ensures LeastClosed(Parted(legs, o), DropsOf(legs, o), D) && IsCut(Parted(legs, o), mid, D)
    ensures id in mid && LeastClosed(Parted(mid, id), DropsOf(mid, id), E)
    ensures r.legs[o].state == Ended <==> o in D + E
    ensures r.legs[id].state == Ended <==> id in D + E
    ensures o !in D + E && id !in D + E ==>
              Joined(r.legs, o, id) && EndsWith(r.history, [CallBridged(o), CallBridged(id)])
    ensures s.legs[o].bridgedWith == None && s.legs[id].bridgedWith == None ==>
              && Joined(r.legs, o, id) && r.legs[o].state != Ended && r.legs[id].state != Ended
              && r.history == s.history + [CallAnswered(id), CallBridged(o), CallBridged(id)]
  {
    hide *;
    var s1 := AnsweredState(s, id, o);
    legs := s1.legs;
    r, mid, D, E := BridgeOutcome(s1, o, id);
    StillLive(s, s1, r, o, D + E);
    StillLive(s, s1, r, id, D + E);
    assert s.history + [CallAnswered(id)] + [CallBridged(o), CallBridged(id)]
        == s.history + [CallAnswered(id), CallBridged(o), CallBridged(id)];
  }

  lemma AnsweredState(s: State, id: LegId, o: LegId) returns (s1: State)
    requires Inv(s) && id in s.legs && s.legs[id].state == Ringing && s.legs[id].direction == Outgoing
    requires s.legs[id].transferOf == Some(o) && o in s.legs && s.legs[o].state != Ended
    ensures Indexed(s1) && Involution(s1.legs) && Live(s1) == Live(s) && s1.history == s.history + [CallAnswered(id)]
    ensures s1.legs == s.legs[id := s.legs[id].(state := Answered)] && o != id
    ensures s1.legs[o].state != Ended && s1.legs.Keys == s.legs.Keys
    ensures Perform(s, FarEndAnswers(id)) == Outcome(Bridge(s1, o, id), Okay)
  {
    hide *;
    s1 := AnswerLeg(s, id, None);
    AnswerLegKeeps(s, id, None);
    AnsweredIs(s, id, None);
    NothingStored(s.legs[id]);
    InvHolds(s, id);
    AnswerThenBridge(s, id, o);
    InvHolds(s1, o);
    StateChanged(s, s1, id, s1.legs[id]);
  }

  lemma InvHolds(s: State, x: LegId)
    requires Inv(s) && x in s.legs
    ensures Indexed(s) && Involution(s.legs)
    ensures s.legs[x].transferOf.Some? ==> s.legs[x].transferOf.value in s.legs && s.legs[x].transferOf.value != x
  {
    assert LegFacts(s, x);
  }

  lemma StateChanged(s: State, r: State, x: LegId, leg: Leg)
    requires x in s.legs && r.legs == s.legs[x := leg] && (leg.state == Ended <==> s.legs[x].state == Ended)
    ensures Live(r) == Live(s) && r.legs.Keys == s.legs.Keys
  {
  }

  lemma AnswerThenBridge(s: State, id: LegId, o: LegId)
    requires id in s.legs && s.legs[id].state == Ringing && s.legs[id].direction == Outgoing && o != id
    requires s.legs[id].transferOf == Some(o) && o in s.legs && s.legs[o].state != Ended
    ensures o in AnswerLeg(s, id, None).legs && id in AnswerLeg(s, id, None).legs
    ensures Perform(s, FarEndAnswers(id)) == Outcome(Bridge(AnswerLeg(s, id, None), o, id), Okay)
  {
    AnsweredIs(s, id, None);
    hide AnswerLeg, Bridge;
  }

  lemma StillLive(s: State, s1: State, r: State, x: LegId, D: set<LegId>)
    requires x in s.legs && x in s1.legs && s1.legs[x].state != Ended
    requires r.legs.Keys == s1.legs.Keys == s.legs.Keys && Live(s1) == Live(s) && D == Gone(s1, r)
    ensures Gone(s, r) == D && (r.legs[x].state == Ended <==> x in D)
  {
    GoneIsOver(s1, r, x, D);
  }

  /** A target already bridged to its origin is only answered. */
  lemma AnswerOnBridge(s: State, id: LegId, o: LegId)
    requires Inv(s) && id in s.legs && s.legs[id].state == Ringing && s.legs[id].direction == Outgoing
    requires s.legs[id].transferOf == Some(o) && o in s.legs && s.legs[o].bridgedWith == Some(id)
    ensures var r := Perform(s, FarEndAnswers(id)).next;
            && Perform(s, FarEndAnswers(id)).reply == Okay && Joined(r.legs, o, id)
            && r.legs == s.legs[id := s.legs[id].(state := Answered)] && r.history == s.history + [CallAnswered(id)]
  {
    BridgeIsMutual(s, id, o);
    hide *;
    var s1 := AnsweredState(s, id, o);
    BridgedAlready(s1, o, id);
    StillJoined(s.legs, s1.legs, o, id);
  }

  lemma BridgeIsMutual(s: State, id: LegId, o: LegId)
    requires Inv(s) && o in s.legs && s.legs[o].bridgedWith == Some(id)
    ensures s.legs[o].state != Ended && Joined(s.legs, o, id)
  {
    assert Paired(s.legs, o);
  }

  lemma BridgedAlready(s: State, a: LegId, b: LegId)
    requires a in s.legs && b in s.legs && s.legs[a].bridgedWith == Some(b)
    ensures Bridge(s, a, b) == s
  {
  }

  lemma StillJoined(before: map<LegId, Leg>, after: map<LegId, Leg>, a: LegId, b: LegId)
    requires Joined(before, a, b) && after == before[b := before[b].(state := Answered)]
    ensures Joined(after, a, b)
  {
  }

  /** Every other answer of a far end: refused, already given, or taken with nobody
      to be bridged to. */
  lemma OtherAnswers(s: State, id: LegId)
    ensures var o := Perform(s, FarEndAnswers(id));
            && (o.reply == Throws <==> id !in s.legs || s.legs[id].state == Ended || s.legs[id].direction != Outgoing)
            && (o.reply == Throws || o.reply == Okay)
            && (o.reply == Throws || s.legs[id].state == Answered ==> o.next == s)
            && (o.reply == Okay && s.legs[id].state == Ringing
                && (s.legs[id].transferOf.Some? ==> var t := s.legs[id].transferOf.value;
                                                    t !in s.legs || (t != id && s.legs[t].state == Ended)) ==>
                  && o.next.legs == s.legs[id := s.legs[id].(state := Answered)]
                  && o.next.history == s.history + [CallAnswered(id)])
  {
    if id in s.legs { AnsweredIs(s, id, None); }
    hide AnswerLeg, Bridge;
  }

  /** What the leg keeps as its client state: the one a command brings, if it does. */
  ghost function Stored(leg: Leg, clientState: Option<string>): Option<string> {
    if clientState.Some? then clientState else leg.clientState
  }

  lemma AnsweredIs(s: State, id: LegId, clientState: Option<string>)
    requires id in s.legs
    ensures var leg := s.legs[id].(state := Answered, clientState := Stored(s.legs[id], clientState));
            AnswerLeg(s, id, clientState)
            == s.(legs := s.legs[id := leg], history := s.history + [CallAnswered(id)],
                  outbox := s.outbox + [CallAnswered(id)])
  {
    var leg := s.legs[id].(state := Answered, clientState := Stored(s.legs[id], clientState));
    assert AnswerLeg(s, id, clientState).legs == s.legs[id := leg];
  }

  lemma NothingStored(leg: Leg)
    ensures leg.(state := Answered, clientState := Stored(leg, None)) == leg.(state := Answered)
  {
  }

  // ---------------------------------------------------------- hang-ups and their causes

  /** The news of an operation, oldest first. */
  ghost predicate Begins(s: State, r: State, e: Event) {
    |r.history| > |s.history| && r.history[..|s.history|] == s.history && r.history[|s.history|] == e
  }

  /** A leg once it is over. */
  ghost function Over(leg: Leg, cause: string): Leg {
    leg.(state := Ended, hangupCause := Some(cause), bridgedWith := None, recording := None)
  }

  /** A hang-up ends its own leg first, with the cause it was given, and then keeps
      and announces what that leg had recorded. */
  lemma HangUpOwnLeg(s: State, id: LegId, cause: string) returns (r: State)
    requires Indexed(s) && Involution(s.legs) && OwnRecordings(s.legs) && id in s.legs && s.legs[id].state != Ended
    ensures r == EndLeg(s, id, cause) && id in r.legs && r.legs[id] == Over(s.legs[id], cause)
    ensures Begins(s, r, CallHangup(id, cause)) && Live(r) <= Live(s) - {id}
    ensures s.legs[id].recording.Some? ==>
              var rec := s.legs[id].recording.value;
              && |r.history| > |s.history| + 1 && rec in r.recordings && r.recordings[rec] == Recording(id, false)
              && r.history[|s.history| + 1] == RecordingSaved(id, rec, s.legs[id].messageSeconds)
  {
    hide EndLeg, Notices, Kept, Told, Involution, Indexed;
    r := EndLeg(s, id, cause);
    var hs := EndLegLog(s, id, cause);
    EndLegCascade(s, id, cause);
    FirstNotice(s.legs, hs);
    OwnCause(s, r, hs, id, cause);
    OwnTape(s, r, hs, id);
    var news := Notices(s.legs, hs);
    assert r.history[..|s.history|] == s.history;
    assert forall i :: 0 <= i < |news| ==> r.history[|s.history| + i] == news[i];
  }

  lemma FirstNotice(legs: map<LegId, Leg>, hs: seq<Hangup>)
    requires Named(legs, hs) && hs != []
    ensures hs[0] in hs && Notice(legs[hs[0].leg], hs[0]) <= Notices(legs, hs)
  {
    assert hs == [hs[0]] + hs[1..];
    assert Named(legs, hs[1..]);
    NoticesJoin(legs, legs, map[], [hs[0]], hs[1..]);
    OneNotice(legs, map[], hs[0]);
  }

  lemma OwnCause(s: State, r: State, hs: seq<Hangup>, id: LegId, cause: string)
    requires Announces(s, r, hs) && LegsOf(hs) == Gone(s, r) && hs != [] && hs[0] == Hangup(id, cause)
    requires id in s.legs && s.legs[id].state != Ended && IsCut(s.legs, r.legs, Gone(s, r)) && Live(r) <= Live(s)
    ensures id in r.legs && r.legs[id] == Over(s.legs[id], cause) && Live(r) <= Live(s) - {id}
  {
    assert hs[0] in hs && hs[0].leg in LegsOf(hs);
    assert CutAt(s.legs, r.legs, Gone(s, r), id);
    assert r.legs[id] == r.legs[id].(hangupCause := None).(hangupCause := Some(cause));
  }

  lemma OwnTape(s: State, r: State, hs: seq<Hangup>, id: LegId)
    requires Announces(s, r, hs) && OwnRecordings(s.legs) && hs != [] && hs[0].leg == id
    ensures s.legs[id].recording.Some? ==>
              s.legs[id].recording.value in r.recordings && r.recordings[s.legs[id].recording.value] == Recording(id, false)
  {
    KeptTapes(s.legs, s.recordings, hs);
    assert hs[0] in hs && id in LegsOf(hs);
    hide LegsOf, Kept;
  }

  /** The far end, or a ring that ran out: refused for a leg that is unknown or over,
      or no longer rings where it must, and nothing changes; otherwise the leg ends
      with the cause that goes with the operation. */
  lemma FarEndEnds(s: State, op: Op, id: LegId) returns (cause: string)
    requires Inv(s) && (op == RingsOut(id) || op == Declines(id) || exists c :: op == FarEndHangsUp(id, c))
    ensures op == RingsOut(id) ==> cause == "timeout"
    ensures op == Declines(id) ==> cause == "call_rejected"
    ensures op.FarEndHangsUp? ==> cause == op.cause
    ensures var o := Perform(s, op);
            var refused := id !in s.legs || s.legs[id].state == Ended || (!op.FarEndHangsUp? && s.legs[id].state != Ringing);
            if refused then o == Outcome(s, Throws)
            else && o.reply == Okay && id in o.next.legs && o.next.legs[id] == Over(s.legs[id], cause)
                 && Begins(s, o.next, CallHangup(id, cause))
  {
    cause := if op.RingsOut? then "timeout" else if op.Declines? then "call_rejected" else op.cause;
    FarEndIs(s, op, id, cause);
    if id in s.legs && s.legs[id].state != Ended {
      hide *;
      InvHolds(s, id);
      TapesOwned(s);
      var r := HangUpOwnLeg(s, id, cause);
    }
  }

  lemma FarEndIs(s: State, op: Op, id: LegId, cause: string)
    requires op == RingsOut(id) || op == Declines(id) || exists c :: op == FarEndHangsUp(id, c)
    requires cause == if op.RingsOut? then "timeout" else if op.Declines? then "call_rejected" else op.cause
    ensures Perform(s, op)
         == if id !in s.legs || s.legs[id].state == Ended || (!op.FarEndHangsUp? && s.legs[id].state != Ringing)
            then Outcome(s, Throws) else Outcome(EndLeg(s, id, cause), Okay)
  {
    hide EndLeg;
  }

  lemma TapesOwned(s: State)
    requires Inv(s)
    ensures OwnRecordings(s.legs)
  {
  }

  /** A message left: refused unless the leg is alive and recording; otherwise the leg
      ends and its recording is kept and announced with the seconds given. */
  lemma MessageLeft(s: State, id: LegId, seconds: nat)
    requires Inv(s)
    ensures var o := Perform(s, LeavesMessage(id, seconds));
            if id !in s.legs || s.legs[id].state == Ended || s.legs[id].recording == None then o == Outcome(s, Throws)
            else
              var rec := s.legs[id].recording.value;
              && o.reply == Okay && id in o.next.legs && o.next.legs[id].state == Ended
              && o.next.legs[id].hangupCause == Some("normal_clearing")
              && Begins(s, o.next, CallHangup(id, "normal_clearing")) && |o.next.history| > |s.history| + 1
              && o.next.history[|s.history| + 1] == RecordingSaved(id, rec, seconds)
              && rec in o.next.recordings && o.next.recordings[rec] == Recording(id, false)
  {
    MessageIs(s, id, seconds);
    if id in s.legs && s.legs[id].state != Ended && s.legs[id].recording.Some? {
      var s1 := SetLeg(s, id, s.legs[id].(messageSeconds := seconds));
      assert s1 == s.(legs := s.legs[id := s.legs[id].(messageSeconds := seconds)]);
      hide *;
      TweakKeeps(s, id, s1.legs[id]);
      InvHolds(s1, id);
      TapesOwned(s1);
      var r := HangUpOwnLeg(s1, id, "normal_clearing");
      OverIs(s1.legs[id], "normal_clearing");
      BeginsAlike(s, s1, r, CallHangup(id, "normal_clearing"));
    }
  }

  lemma OverIs(leg: Leg, cause: string)
    ensures Over(leg, cause).state == Ended && Over(leg, cause).hangupCause == Some(cause)
  {
  }

  lemma BeginsAlike(s: State, s1: State, r: State, e: Event)
    requires s1.history == s.history
    ensures Begins(s1, r, e) == Begins(s, r, e)
  {
  }

  lemma MessageIs(s: State, id: LegId, seconds: nat)
    ensures Perform(s, LeavesMessage(id, seconds))
         == if id !in s.legs || s.legs[id].state == Ended || s.legs[id].recording == None then Outcome(s, Throws)
            else Outcome(EndLeg(SetLeg(s, id, s.legs[id].(messageSeconds := seconds)), id, "normal_clearing"), Okay)
  {
    hide EndLeg, SetLeg;
  }

  // ------------------------------------------------------------------- commands

  /** The command names a live leg and has not been seen by it. */
  ghost predicate Accepted(s: State, id: LegId, commandId: string) {
    id in s.legs && s.legs[id].state != Ended && (commandId == "" || commandId !in s.legs[id].commandIds)
  }

  /** The leg once it has noted the command. */
  ghost function NotedLeg(leg: Leg, commandId: string): Leg {
    if commandId == "" then leg else leg.(commandIds := leg.commandIds + {commandId})
  }

  /** A command to no leg, to one that is over, or seen before changes nothing. */
  lemma CommandRefused(s: State, id: LegId, action: Action, commandId: string, clientState: Option<string>)
    requires !Accepted(s, id, commandId)
    ensures Perform(s, PostAction(id, action, commandId, clientState))
         == Outcome(s, if id !in s.legs then NotFound else if s.legs[id].state == Ended then AlreadyEnded else Okay)
  {
    hide RunAction;
  }

  lemma CommandRuns(s: State, id: LegId, action: Action, commandId: string, clientState: Option<string>)
      returns (s1: State)
    requires Inv(s) && Accepted(s, id, commandId)
    ensures s1 == s.(legs := s.legs[id := NotedLeg(s.legs[id], commandId)]) && id in s1.legs
    ensures Inv(s1) && Indexed(s1) && Involution(s1.legs) && OwnRecordings(s1.legs) && Live(s1) == Live(s)
    ensures Perform(s, PostAction(id, action, commandId, clientState)) == RunAction(s1, id, action, clientState)
  {
    s1 := Noted(s, id, commandId);
    NotedIs(s, id, commandId);
    CommandIs(s, id, action, commandId, clientState);
    AcceptedIs(s, id, commandId);
    SetLegIs(s, id, NotedLeg(s.legs[id], commandId));
    NotedTweaks(s.legs[id], commandId);
    hide *;
    TweakKeeps(s, id, NotedLeg(s.legs[id], commandId));
    StateChanged(s, s1, id, s1.legs[id]);
    InvHolds(s1, id);
    TapesOwned(s1);
  }

  lemma NotedTweaks(leg: Leg, commandId: string)
    ensures var l := NotedLeg(leg, commandId); l == leg.(commandIds := l.commandIds)
  {
  }

  lemma SetLegIs(s: State, id: LegId, leg: Leg)
    ensures SetLeg(s, id, leg) == s.(legs := s.legs[id := leg])
  {
  }

  lemma AcceptedIs(s: State, id: LegId, commandId: string)
    requires Accepted(s, id, commandId)
    ensures id in s.legs && s.legs[id].state != Ended && NotedLeg(s.legs[id], commandId).state == s.legs[id].state
  {
  }

  lemma NotedIs(s: State, id: LegId, commandId: string)
    requires id in s.legs
    ensures Noted(s, id, commandId) == s.(legs := s.legs[id := NotedLeg(s.legs[id], commandId)])
  {
    assert s.legs[id := s.legs[id]] == s.legs;
  }

  lemma CommandIs(s: State, id: LegId, action: Action, commandId: string, clientState: Option<string>)
    requires Accepted(s, id, commandId)
    ensures Perform(s, PostAction(id, action, commandId, clientState))
         == RunAction(Noted(s, id, commandId), id, action, clientState)
  {
    hide RunAction, Noted;
  }

  /** What each command is answered, and that a refused one is noted and does nothing
      else. */
  lemma CommandReplies(s: State, id: LegId, action: Action, commandId: string, clientState: Option<string>)
    requires Inv(s) && Accepted(s, id, commandId)
    ensures var o := Perform(s, PostAction(id, action, commandId, clientState)); var leg := s.legs[id];
            && o.reply == (match action
                 case AnswerCommand => if leg.direction == Incoming && leg.state == Ringing then Okay else Unprocessable
                 case Reject(_) => if leg.direction == Incoming && leg.state == Ringing then Okay else Unprocessable
                 case HangUp => Okay
                 case BridgeTo(partner, _) =>
                   if partner !in s.legs then NotFound
                   else if s.legs[partner].state == Ended then AlreadyEnded else Okay
                 case TransferTo(to, _) => if to == "" then Unprocessable else Okay
                 case PlayMedia(_) => if leg.state == Answered then Okay else Unprocessable
                 case RecordStart => if leg.state == Answered then Okay else Unprocessable
                 case RecordStop => Okay
                 case OtherAction => Okay)
            && (o.reply != Okay ==> o.next == s.(legs := s.legs[id := NotedLeg(leg, commandId)]))
  {
    var s1 := CommandRuns(s, id, action, commandId, clientState);
    hide Inv, EndLeg, Bridge, TransferLeg, AnswerLeg, Live, SaveRecording, OpenRecording;
  }

  /** `hangup`: a ringing outgoing leg is cancelled, any other clears normally; the
      client state the command brings is kept. */
  lemma HangUpCommand(s: State, id: LegId, commandId: string, clientState: Option<string>)
    requires Inv(s) && Accepted(s, id, commandId)
    ensures var r := Perform(s, PostAction(id, HangUp, commandId, clientState)).next; var leg := s.legs[id];
            var cause := if leg.state == Ringing && leg.direction == Outgoing then "originator_cancel" else "normal_clearing";
            && Begins(s, r, CallHangup(id, cause)) && id in r.legs
            && r.legs[id] == Over(NotedLeg(leg, commandId), cause).(clientState := Stored(leg, clientState))
  {
    var leg := s.legs[id];
    var s1 := CommandRuns(s, id, HangUp, commandId, clientState);
    NotedTweaks(leg, commandId);
    hide *;
    var s2, cause := HangUpIs(s1, id, clientState);
    var r := HangUpOwnLeg(s2, id, cause);
    OverKeepsClientState(s1.legs[id], clientState, cause);
    StoredIs(leg, s1.legs[id], clientState);
    BeginsAlike(s, s2, r, CallHangup(id, cause));
  }

  lemma OverKeepsClientState(leg: Leg, clientState: Option<string>, cause: string)
    ensures Over(leg.(clientState := Stored(leg, clientState)), cause)
         == Over(leg, cause).(clientState := Stored(leg, clientState))
  {
  }

  lemma StoredIs(a: Leg, b: Leg, clientState: Option<string>)
    requires a.clientState == b.clientState
    ensures Stored(a, clientState) == Stored(b, clientState)
  {
  }

  lemma HangUpIs(s: State, id: LegId, clientState: Option<string>) returns (s2: State, cause: string)
    requires Inv(s) && id in s.legs && s.legs[id].state != Ended
    ensures s2 == s.(legs := s.legs[id := s.legs[id].(clientState := Stored(s.legs[id], clientState))])
    ensures cause == if s.legs[id].state == Ringing && s.legs[id].direction == Outgoing
                     then "originator_cancel" else "normal_clearing"
    ensures Indexed(s2) && Involution(s2.legs) && OwnRecordings(s2.legs)
    ensures RunAction(s, id, HangUp, clientState) == Outcome(EndLeg(s2, id, cause), Okay)
  {
    s2 := SetClientState(s, id, clientState);
    cause := if s.legs[id].state == Ringing && s.legs[id].direction == Outgoing then "originator_cancel" else "normal_clearing";
    HangUpRuns(s, id, clientState);
    hide *;
    ClientStateIs(s, id, clientState);
    ClientStateKeeps(s, id, clientState);
    InvHolds(s2, id);
    TapesOwned(s2);
  }

  lemma HangUpRuns(s: State, id: LegId, clientState: Option<string>)
    requires id in s.legs
    ensures RunAction(s, id, HangUp, clientState)
         == Outcome(EndLeg(SetClientState(s, id, clientState), id,
                           if s.legs[id].state == Ringing && s.legs[id].direction == Outgoing
                           then "originator_cancel" else "normal_clearing"), Okay)
  {
    hide EndLeg, SetClientState;
  }

  lemma ClientStateIs(s: State, id: LegId, clientState: Option<string>)
    requires id in s.legs
    ensures SetClientState(s, id, clientState)
         == s.(legs := s.legs[id := s.legs[id].(clientState := Stored(s.legs[id], clientState))])
  {
    assert s.legs[id := s.legs[id]] == s.legs;
    assert s.legs[id].(clientState := s.legs[id].clientState) == s.legs[id];
  }

  /** `reject` of a call that rings: it ends with the cause given. */
  lemma RejectCommand(s: State, id: LegId, cause: string, commandId: string, clientState: Option<string>)
    requires Inv(s) && Accepted(s, id, commandId) && s.legs[id].direction == Incoming && s.legs[id].state == Ringing
    ensures var r := Perform(s, PostAction(id, Reject(cause), commandId, clientState)).next;
            && Begins(s, r, CallHangup(id, cause)) && id in r.legs
            && r.legs[id] == Over(NotedLeg(s.legs[id], commandId), cause)
  {
    var s1 := CommandRuns(s, id, Reject(cause), commandId, clientState);
    hide Inv, EndLeg, Involution, Indexed, OwnRecordings, Live;
    var r := HangUpOwnLeg(s1, id, cause);
  }

  /** From `s` to `r` a command touched its own leg only, in this way, and announced
      this. */
  ghost predicate OwnEffect(s: State, r: State, id: LegId, action: Action, clientState: Option<string>)
    requires id in s.legs
  {
    var leg := s.legs[id];
    var kept := leg.(clientState := Stored(leg, clientState));
    && r.order == s.order && r.ledger == s.ledger && r.dialsByCommandId == s.dialsByCommandId
    && match action
       case AnswerCommand =>
         && r.legs == s.legs[id := kept.(state := Answered)]
         && r.history == s.history + [CallAnswered(id)] && r.recordings == s.recordings && r.nextId == s.nextId
       case PlayMedia(family) =>
         && r.legs == s.legs[id := kept] && r.recordings == s.recordings && r.nextId == s.nextId
         && r.history == s.history + [MediaStarted(id, family), MediaEnded(id, family)]
       case RecordStart =>
         && r.legs == s.legs[id := kept.(recording := Some(s.nextId))] && r.nextId == s.nextId + 1
         && r.history == s.history && r.recordings == s.recordings
       case RecordStop =>
         && r.legs == s.legs[id := leg.(recording := None)] && r.nextId == s.nextId
         && if leg.recording.None? then r.history == s.history && r.recordings == s.recordings
            else && r.history == s.history + [RecordingSaved(id, leg.recording.value, leg.messageSeconds)]
                 && r.recordings == s.recordings[leg.recording.value := Recording(id, false)]
       case OtherAction =>
         r.legs == s.legs[id := kept] && r.history == s.history && r.recordings == s.recordings && r.nextId == s.nextId
       case _ => false
  }

  /** The commands that touch their own leg only, once it has noted the command. */
  lemma OwnLegCommand(s: State, id: LegId, action: Action, commandId: string, clientState: Option<string>)
      returns (s1: State)
    requires Inv(s) && Accepted(s, id, commandId)
    requires Perform(s, PostAction(id, action, commandId, clientState)).reply == Okay
    requires !action.Reject? && action != HangUp && !action.BridgeTo? && !action.TransferTo?
    ensures s1 == s.(legs := s.legs[id := NotedLeg(s.legs[id], commandId)]) && id in s1.legs
    ensures OwnEffect(s1, Perform(s, PostAction(id, action, commandId, clientState)).next, id, action, clientState)
  {
    s1 := CommandRuns(s, id, action, commandId, clientState);
    hide Inv, Involution, Indexed, OwnRecordings, Live, RunAction, Stored, Accepted, Perform;
    match action {
      case AnswerCommand => AnswerRuns(s1, id, clientState);
      case PlayMedia(family) => MediaRuns(s1, id, family, clientState);
      case RecordStart => RecordStartRuns(s1, id, clientState);
      case RecordStop => RecordStopRuns(s1, id, clientState);
      case OtherAction => OtherRuns(s1, id, clientState);
    }
  }

  lemma AnswerRuns(s: State, id: LegId, clientState: Option<string>)
    requires id in s.legs && RunAction(s, id, AnswerCommand, clientState).reply == Okay
    ensures var leg := s.legs[id];
            RunAction(s, id, AnswerCommand, clientState).next
            == s.(legs := s.legs[id := leg.(clientState := Stored(leg, clientState), state := Answered)],
                  history := s.history + [CallAnswered(id)], outbox := s.outbox + [CallAnswered(id)])
  {
    AnsweredIs(s, id, clientState);
    hide AnswerLeg;
  }

  lemma MediaRuns(s: State, id: LegId, family: Family, clientState: Option<string>)
    requires id in s.legs && RunAction(s, id, PlayMedia(family), clientState).reply == Okay
    ensures var leg := s.legs[id]; var news := [MediaStarted(id, family), MediaEnded(id, family)];
            RunAction(s, id, PlayMedia(family), clientState).next
            == s.(legs := s.legs[id := leg.(clientState := Stored(leg, clientState))],
                  history := s.history + news, outbox := s.outbox + news)
  {
    ClientStateIs(s, id, clientState);
    hide SetClientState;
    var news := [MediaStarted(id, family), MediaEnded(id, family)];
    assert s.history + [news[0]] + [news[1]] == s.history + news && s.outbox + [news[0]] + [news[1]] == s.outbox + news;
  }

  lemma RecordStartRuns(s: State, id: LegId, clientState: Option<string>)
    requires id in s.legs && RunAction(s, id, RecordStart, clientState).reply == Okay
    ensures var leg := s.legs[id];
            RunAction(s, id, RecordStart, clientState).next
            == s.(legs := s.legs[id := leg.(clientState := Stored(leg, clientState), recording := Some(s.nextId))],
                  nextId := s.nextId + 1)
  {
    ClientStateIs(s, id, clientState);
    hide SetClientState;
    var leg := s.legs[id].(clientState := Stored(s.legs[id], clientState));
    assert s.legs[id := leg][id := leg.(recording := Some(s.nextId))] == s.legs[id := leg.(recording := Some(s.nextId))];
  }

  lemma RecordStopRuns(s: State, id: LegId, clientState: Option<string>)
    requires id in s.legs
    ensures var leg := s.legs[id]; var r := RunAction(s, id, RecordStop, clientState).next;
            && r == s.(legs := s.legs[id := leg.(recording := None)], history := r.history, outbox := r.outbox,
                       recordings := r.recordings)
            && if leg.recording.None? then r.history == s.history && r.recordings == s.recordings
               else && r.history == s.history + [RecordingSaved(id, leg.recording.value, leg.messageSeconds)]
                    && r.recordings == s.recordings[leg.recording.value := Recording(id, false)]
  {
    if s.legs[id].recording.None? {
      assert s.legs[id].(recording := None) == s.legs[id] && s.legs[id := s.legs[id]] == s.legs;
    }
  }

  lemma OtherRuns(s: State, id: LegId, clientState: Option<string>)
    requires id in s.legs
    ensures var leg := s.legs[id];
            RunAction(s, id, OtherAction, clientState)
            == Outcome(s.(legs := s.legs[id := leg.(clientState := Stored(leg, clientState))]), Okay)
  {
    ClientStateIs(s, id, clientState);
  }

  /** `bridge`: the client state and the wish to be parked are kept first, and then
      the two legs are bridged. */
  lemma BridgeCommand(s: State, id: LegId, partner: LegId, parkSelf: bool, commandId: string, clientState: Option<string>)
      returns (s1: State, r: State)
    requires Inv(s) && Accepted(s, id, commandId) && partner in s.legs && s.legs[partner].state != Ended
    ensures var leg := NotedLeg(s.legs[id], commandId);
            s1 == s.(legs := s.legs[id := leg.(clientState := Stored(leg, clientState), parkAfterUnbridge := parkSelf)])
    ensures Indexed(s1) && Involution(s1.legs) && id in s1.legs && partner in s1.legs
    ensures s1.legs[id].state != Ended && s1.legs[partner].state != Ended
    ensures Perform(s, PostAction(id, BridgeTo(partner, parkSelf), commandId, clientState)) == Outcome(r, Okay)
    ensures r == Bridge(s1, id, partner)
  {
    AcceptedIs(s, id, commandId);
    hide *;
    var leg := NotedLeg(s.legs[id], commandId);
    var s0 := CommandRuns(s, id, BridgeTo(partner, parkSelf), commandId, clientState);
    var kept := leg.(clientState := Stored(leg, clientState), parkAfterUnbridge := parkSelf);
    Overwritten(s.legs, id, leg, kept);
    s1 := s.(legs := s.legs[id := kept]);
    r := Bridge(s1, id, partner);
    BridgeRuns(s0, s1, id, partner, parkSelf, clientState);
    SetLegIs(s0, id, kept);
    TweakKeeps(s0, id, kept);
    InvHolds(s1, id);
  }

  lemma Overwritten(legs: map<LegId, Leg>, id: LegId, a: Leg, b: Leg)
    ensures legs[id := a][id := b] == legs[id := b]
  {
  }

  lemma BridgeRuns(s0: State, s1: State, id: LegId, partner: LegId, parkSelf: bool, clientState: Option<string>)
    requires id in s0.legs && partner in s0.legs && s0.legs[partner].state != Ended
    requires s1 == s0.(legs := s0.legs[id := s0.legs[id].(clientState := Stored(s0.legs[id], clientState),
                                                          parkAfterUnbridge := parkSelf)])
    ensures id in s1.legs && partner in s1.legs
    ensures RunAction(s0, id, BridgeTo(partner, parkSelf), clientState) == Outcome(Bridge(s1, id, partner), Okay)
  {
    ClientStateIs(s0, id, clientState);
    var s2 := SetClientState(s0, id, clientState);
    hide SetClientState, Bridge;
    assert SetLeg(s2, id, s2.legs[id].(parkAfterUnbridge := parkSelf)).legs == s1.legs;
  }

  /** `transfer`: the client state is kept, the leg's bridge is split, which ends the
      least closed set around the partner it drops, and a new leg rings out for it,
      whatever became of it meanwhile. */
  lemma TransferCommand(s: State, id: LegId, to: string, targetClientState: Option<string>, commandId: string,
                        clientState: Option<string>)
      returns (legs: map<LegId, Leg>, v: State, r: State, D: set<LegId>)
    requires Inv(s) && Accepted(s, id, commandId) && to != ""
    ensures var leg := NotedLeg(s.legs[id], commandId);
            legs == s.legs[id := leg.(clientState := Stored(leg, clientState))]
    ensures LeastClosed(Parted(legs, id), DropsOf(legs, id), D) && IsCut(Parted(legs, id), v.legs, D)
    ensures Perform(s, PostAction(id, TransferTo(to, targetClientState), commandId, clientState)) == Outcome(r, Okay)
    ensures s.nextId !in s.legs && r.nextId == s.nextId + 1 && r.order == s.order + [s.nextId]
    ensures r.legs == v.legs[s.nextId := Leg(Transfer, Outgoing, targetClientState, Ringing, None, false, Some(id),
                                             None, None, 0, {})]
    ensures r.history == v.history + [CallInitiated(s.nextId, Outgoing)] && s.history <= v.history
  {
    AcceptedIs(s, id, commandId);
    InvFacts(s);
    FreshId(s);
    hide *;
    var leg := NotedLeg(s.legs[id], commandId);
    var s0 := CommandRuns(s, id, TransferTo(to, targetClientState), commandId, clientState);
    var kept := leg.(clientState := Stored(leg, clientState));
    legs := s.legs[id := kept];
    var s1 := s.(legs := legs);
    ClientStateIs(s0, id, clientState);
    Overwritten(s.legs, id, leg, kept);
    TransferRuns(s0, id, to, targetClientState, clientState);
    SetLegIs(s0, id, kept);
    TweakKeeps(s0, id, kept);
    InvHolds(s1, id);
    v, D := SplitEnds(s1, id);
    UnbridgeAppends(s1, id);
    UnbridgeRegister(s1, id);
    TransferUnfolds(s1, id, targetClientState);
    CreateLegIs(v, Transfer, Outgoing, targetClientState, Some(id));
    r := TransferLeg(s1, id, targetClientState);
    AppendsIs(s1, v);
  }

  lemma InvFacts(s: State)
    requires Inv(s)
    ensures Facts(s)
  {
  }

  lemma AppendsIs(s: State, r: State)
    requires Appends(s, r)
    ensures s.history <= r.history
  {
  }

  lemma UnbridgeRegister(s: State, id: LegId)
    requires id in s.legs
    ensures Unbridge(s, id).nextId == s.nextId && Unbridge(s, id).order == s.order
  {
  }

  lemma TransferRuns(s: State, id: LegId, to: string, targetClientState: Option<string>, clientState: Option<string>)
    requires id in s.legs && to != ""
    ensures id in SetClientState(s, id, clientState).legs
    ensures RunAction(s, id, TransferTo(to, targetClientState), clientState)
         == Outcome(TransferLeg(SetClientState(s, id, clientState), id, targetClientState), Okay)
  {
    hide TransferLeg;
  }

  lemma TransferUnfolds(s: State, id: LegId, targetClientState: Option<string>)
    requires id in s.legs
    ensures TransferLeg(s, id, targetClientState)
         == CreateLeg(Unbridge(s, id), Transfer, Outgoing, targetClientState, Some(id))
  {
    hide Unbridge, CreateLeg;
  }

  lemma CreateLegIs(s: State, origin: Origin, direction: Direction, clientState: Option<string>,
                    transferOf: Option<LegId>)
    ensures var r := CreateLeg(s, origin, direction, clientState, transferOf);
            && r.nextId == s.nextId + 1 && r.order == s.order + [s.nextId]
            && r.legs == s.legs[s.nextId := Leg(origin, direction, clientState, Ringing, None, false, transferOf,
                                                None, None, 0, {})]
            && r.history == s.history + [CallInitiated(s.nextId, direction)]
            && r.dialsByCommandId == s.dialsByCommandId
            && r.ledger.dials == s.ledger.dials + (if origin == FarEnd then 0 else 1)
            && r.ledger.farEndLegs == s.ledger.farEndLegs + (if origin == FarEnd then 1 else 0)
  {
    hide Live, LiveOutbound, Max;
  }

  // -------------------------------------------------------- dials, recordings, events

  /** A call comes in: a fresh leg rings, and is announced. */
  lemma CallComesIn(s: State)
    requires Inv(s)
    ensures var o := Perform(s, FarEndDials); var r := o.next;
            && o.reply == Created(s.nextId) && s.nextId !in s.legs && r.nextId == s.nextId + 1
            && r.legs == s.legs[s.nextId := Leg(FarEnd, Incoming, None, Ringing, None, false, None, None, None, 0, {})]
            && r.history == s.history + [CallInitiated(s.nextId, Incoming)]
            && r.ledger.farEndLegs == s.ledger.farEndLegs + 1 && r.ledger.dials == s.ledger.dials
  {
    FreshId(s);
    CreateLegIs(s, FarEnd, Incoming, None, None);
    hide CreateLeg, Inv;
  }

  /** A dial: refused without its three fields; answered, as a replay, with the leg
      its command id made before, alive or not; otherwise a fresh leg rings out. */
  lemma DialAnswers(s: State, valid: bool, commandId: string, clientState: Option<string>)
    requires Inv(s)
    ensures var o := Perform(s, PostCalls(valid, commandId, clientState)); var r := o.next;
            if !valid then o == Outcome(s, Unprocessable)
            else if commandId != "" && commandId in s.dialsByCommandId && s.dialsByCommandId[commandId] in s.legs then
              var id := s.dialsByCommandId[commandId];
              o == Outcome(s, Dialled(id, true, s.legs[id].state != Ended))
            else
              && o.reply == Dialled(s.nextId, false, true) && s.nextId !in s.legs && r.nextId == s.nextId + 1
              && r.legs == s.legs[s.nextId := Leg(Dial, Outgoing, clientState, Ringing, None, false, None, None, None, 0, {})]
              && r.history == s.history + [CallInitiated(s.nextId, Outgoing)]
              && r.dialsByCommandId == (if commandId == "" then s.dialsByCommandId
                                        else s.dialsByCommandId[commandId := s.nextId])
              && r.ledger.dials == s.ledger.dials + 1 && r.ledger.farEndLegs == s.ledger.farEndLegs
  {
    FreshId(s);
    CreateLegIs(s, Dial, Outgoing, clientState, None);
    hide CreateLeg, Inv;
    if commandId in s.dialsByCommandId { SameEntry(s.dialsByCommandId, commandId); }
  }

  lemma SameEntry(dials: map<string, LegId>, commandId: string)
    requires commandId in dials
    ensures dials[commandId := dials[commandId]] == dials
  {
  }

  /** A recording is deleted once. */
  lemma DeletedOnce(s: State, rec: RecordingId)
    ensures var o := Perform(s, DeleteRecording(rec));
            if rec in s.recordings && !s.recordings[rec].deleted
            then o == Outcome(s.(recordings := s.recordings[rec := Recording(s.recordings[rec].leg, true)]), Okay)
            else o == Outcome(s, NotFound)
  {
  }

  /** The oldest waiting event is handed out, and a reset forgets all but which ids
      were drawn. */
  lemma TakenAndForgotten(s: State)
    ensures Perform(s, TakeEvent)
         == if s.outbox == [] then Outcome(s, Taken(None))
            else Outcome(s.(outbox := s.outbox[1..]), Taken(Some(s.outbox[0])))
    ensures Perform(s, ResetCalls)
         == Outcome(State(map[], [], [], [], map[], map[], Ledger(0, 0, 0, 0), s.nextId), Okay)
  {
  }
}
