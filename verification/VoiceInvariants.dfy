/** What every operation of the call switch keeps. */
module VoiceInvariants {
  import opened Wrappers
  import opened VoiceSpec
  import opened VoiceHistory
  import opened Cascade

  // ------------------------------------------------- the state and its history

  /** A leg's record and its events tell the same story. */
  ghost predicate Agrees(legs: map<LegId, Leg>, id: LegId, p: Phase) {
    if id !in legs then p == Unseen
    else match legs[id].state
      case Ringing => p == InRing
      case Answered => p == InTalk
      case Ended => p.Over?
  }

  ghost predicate Suffix(a: seq<Event>, b: seq<Event>) {
    |a| <= |b| && a == b[|b| - |a|..]
  }

  /** The legs alive, the peaks of the ledger, the recordings kept and the outbox,
      all read off the history. */
  ghost predicate Chronicle(s: State) {
    && (forall id: LegId {:trigger PhaseOf(s.history, id)} :: Agrees(s.legs, id, PhaseOf(s.history, id)))
    && Alive(s.history, false) == Live(s)
    && Alive(s.history, true) == LiveOutbound(s)
    && s.ledger.peakLegs == Peak(s.history, false)
    && s.ledger.peakOutbound == Peak(s.history, true)
    && s.recordings.Keys == SavedIn(s.history)
    && Suffix(s.outbox, s.history)
  }

  /** A change the history does not record. */
  lemma Unrecorded(s: State, r: State)
    requires Chronicle(s)
    requires r.legs.Keys == s.legs.Keys && r.recordings.Keys == s.recordings.Keys && r.ledger == s.ledger
    requires r.history == s.history && Suffix(r.outbox, r.history)
    requires forall id :: id in s.legs ==> r.legs[id].state == s.legs[id].state && r.legs[id].origin == s.legs[id].origin
    ensures Chronicle(r)
  {
    assert Live(r) == Live(s) && LiveOutbound(r) == LiveOutbound(s);
  }

  /** A change recorded by one event, about the leg it names. */
  lemma Recorded(s: State, r: State, e: Event)
    requires Chronicle(s)
    requires r.history == s.history + [e] && r.outbox == s.outbox + [e]
    requires forall id :: id != e.leg ==> (id in r.legs <==> id in s.legs) && (id in s.legs ==> r.legs[id] == s.legs[id])
    requires r.recordings.Keys == s.recordings.Keys + if e.RecordingSaved? then {e.recording} else {}
    requires Agrees(r.legs, e.leg, NextPhase(PhaseOf(s.history, e.leg), e.leg, e))
    requires Live(r) == NextAlive(Live(s), e, false) && LiveOutbound(r) == NextAlive(LiveOutbound(s), e, true)
    requires r.ledger.peakLegs == Max(s.ledger.peakLegs, |Live(r)|)
    requires r.ledger.peakOutbound == Max(s.ledger.peakOutbound, |LiveOutbound(r)|)
    ensures Chronicle(r)
  {
    Appended(s.history, e, e.leg, false);
    Appended(s.history, e, e.leg, true);
    forall id: LegId ensures Agrees(r.legs, id, PhaseOf(r.history, id)) {
      assert Agrees(s.legs, id, PhaseOf(s.history, id));
      AgreesOn(s, r, e, id);
    }
    hide Agrees, PhaseOf, Alive, Peak, SavedIn, Live, LiveOutbound, NextAlive;
  }

  lemma AgreesOn(s: State, r: State, e: Event, id: LegId)
    requires r.history == s.history + [e] && Agrees(s.legs, id, PhaseOf(s.history, id))
    requires id != e.leg ==> (id in r.legs <==> id in s.legs) && (id in s.legs ==> r.legs[id] == s.legs[id])
    requires Agrees(r.legs, e.leg, NextPhase(PhaseOf(s.history, e.leg), e.leg, e))
    ensures Agrees(r.legs, id, PhaseOf(r.history, id))
  {
    Appended(s.history, e, id, false);
    hide PhaseOf, Alive, Peak;
  }

  lemma PeaksBound(s: State)
    requires Chronicle(s)
    ensures |Live(s)| <= s.ledger.peakLegs && |LiveOutbound(s)| <= s.ledger.peakOutbound
  {
    var _ := PeakIsMaximum(s.history, false);
    var _ := PeakIsMaximum(s.history, true);
    assert s.history[..|s.history|] == s.history;
  }

  /** One event about a leg already made: its state may move on, nothing else the
      history knows of changes, and no new peak is set. */
  lemma AliveMoves(s: State, r: State, e: Event)
    requires e.leg in s.legs && !e.CallInitiated?
    requires r.legs.Keys == s.legs.Keys && r.legs[e.leg].origin == s.legs[e.leg].origin
    requires forall id :: id in s.legs && id != e.leg ==> r.legs[id] == s.legs[id]
    requires if e.CallHangup? then r.legs[e.leg].state == Ended
             else (r.legs[e.leg].state == Ended <==> s.legs[e.leg].state == Ended)
    ensures Live(r) == NextAlive(Live(s), e, false)
    ensures LiveOutbound(r) == NextAlive(LiveOutbound(s), e, true)
  {
  }

  lemma RecordedOf(s: State, r: State, e: Event)
    requires Chronicle(s) && e.leg in s.legs && !e.CallInitiated?
    requires r.history == s.history + [e] && r.outbox == s.outbox + [e] && r.ledger == s.ledger
    requires r.legs.Keys == s.legs.Keys && r.legs[e.leg].origin == s.legs[e.leg].origin
    requires forall id :: id in s.legs && id != e.leg ==> r.legs[id] == s.legs[id]
    requires r.recordings.Keys == s.recordings.Keys + if e.RecordingSaved? then {e.recording} else {}
    requires Agrees(r.legs, e.leg, NextPhase(PhaseOf(s.history, e.leg), e.leg, e))
    requires if e.CallHangup? then r.legs[e.leg].state == Ended
             else (r.legs[e.leg].state == Ended <==> s.legs[e.leg].state == Ended)
    ensures Chronicle(r)
  {
    PeaksBound(s);
    AliveMoves(s, r, e);
    hide Live, LiveOutbound;
    if e.CallHangup? {
      assert Live(s) - {e.leg} <= Live(s) && LiveOutbound(s) - {e.leg} <= LiveOutbound(s);
      NoMore(Live(s), Live(r));
      NoMore(LiveOutbound(s), LiveOutbound(r));
    }
    Recorded(s, r, e);
  }

  lemma NoMore(a: set<LegId>, b: set<LegId>)
    requires b <= a
    ensures |b| <= |a|
  {
    assert a == b + (a - b);
  }

  lemma SaveRecordingChronicle(s: State, id: LegId)
    requires Chronicle(s) && id in s.legs
    requires s.legs[id].recording.Some? ==>
               PhaseOf(s.history, id) == InTalk || PhaseOf(s.history, id) == Over(false)
    ensures Chronicle(SaveRecording(s, id))
  {
    if s.legs[id].recording.Some? {
      var e := RecordingSaved(id, s.legs[id].recording.value, s.legs[id].messageSeconds);
      SaveRecordingIs(s, id, e);
      SavedPhase(s, id, e);
      hide SaveRecording, PhaseOf, NextPhase;
      RecordedOf(s, SaveRecording(s, id), e);
    }
  }

  lemma SaveRecordingIs(s: State, id: LegId, e: Event)
    requires id in s.legs && s.legs[id].recording.Some?
    requires e == RecordingSaved(id, s.legs[id].recording.value, s.legs[id].messageSeconds)
    ensures var r := SaveRecording(s, id);
            && r.history == s.history + [e] && r.outbox == s.outbox + [e] && r.ledger == s.ledger
            && r.legs == s.legs[id := s.legs[id].(recording := None)]
            && r.recordings.Keys == s.recordings.Keys + {e.recording}
  {
  }

  /** A saved recording leaves the leg where it stood, or over for good. */
  lemma SavedPhase(s: State, id: LegId, e: Event)
    requires Chronicle(s) && id in s.legs && e.RecordingSaved? && e.leg == id
    requires PhaseOf(s.history, id) == InTalk || PhaseOf(s.history, id) == Over(false)
    ensures Agrees(s.legs[id := s.legs[id].(recording := None)], id, NextPhase(PhaseOf(s.history, id), id, e))
  {
    assert Agrees(s.legs, id, PhaseOf(s.history, id));
    hide PhaseOf;
  }

  lemma MarkEndedChronicle(s: State, id: LegId, cause: string)
    requires Chronicle(s) && id in s.legs && s.legs[id].state != Ended
    ensures Chronicle(MarkEnded(s, id, cause))
  {
    var e := CallHangup(id, cause);
    var m := Emit(SetLeg(s, id, s.legs[id].(state := Ended, hangupCause := Some(cause))), e);
    assert Agrees(s.legs, id, PhaseOf(s.history, id));
    RecordedOf(s, m, e);
    Appended(s.history, e, id, false);
    SaveRecordingChronicle(m, id);
  }

  lemma UnlinkChronicle(s: State, id: LegId)
    requires Chronicle(s) && id in s.legs
    ensures Chronicle(Unlink(s, id))
  {
    UnlinkKeepsStates(s, id);
    hide Unlink;
    Unrecorded(s, Unlink(s, id));
  }

  lemma UnlinkKeepsStates(s: State, id: LegId)
    requires id in s.legs
    ensures var u := Unlink(s, id);
            && u.legs.Keys == s.legs.Keys && u.recordings == s.recordings && u.ledger == s.ledger
            && u.history == s.history && u.outbox == s.outbox
            && forall x :: x in s.legs ==> u.legs[x].state == s.legs[x].state && u.legs[x].origin == s.legs[x].origin
  {
  }

  lemma {:induction false} UnbridgeChronicle(s: State, id: LegId)
    requires Indexed(s) && Chronicle(s) && id in s.legs
    ensures Chronicle(Unbridge(s, id))
    decreases Live(s), 2, 0
  {
    UnlinkChronicle(s, id);
    if Dropped(s, id).Some? {
      EndLegChronicle(Unlink(s, id), Dropped(s, id).value, "normal_clearing");
    }
  }

  lemma {:induction false} EndLegChronicle(s: State, id: LegId, cause: string)
    requires Indexed(s) && Chronicle(s) && id in s.legs
    ensures Chronicle(EndLeg(s, id, cause))
    decreases Live(s), 1, 0
  {
    if s.legs[id].state != Ended {
      var m := MarkEnded(s, id, cause);
      MarkEndedChronicle(s, id, cause);
      assert id in Live(s);
      UnbridgeChronicle(m, id);
      EndPendingChronicle(Unbridge(m, id), id, 0);
    }
  }

  lemma {:induction false} EndPendingChronicle(s: State, id: LegId, k: nat)
    requires Indexed(s) && Chronicle(s) && id in s.legs && k <= |s.order|
    ensures Chronicle(EndPending(s, id, k))
    decreases Live(s), 2, |s.order| - k
  {
    if k < |s.order| {
      var t := s.order[k];
      var hit := RingsFor(s.legs, t, id);
      if hit { EndLegChronicle(s, t, "originator_cancel"); }
      EndPendingChronicle(if hit then EndLeg(s, t, "originator_cancel") else s, id, k + 1);
    }
  }

  // ------------------------------------------------------------ the invariant

  /** What is always so of one leg: only an answered leg records, under an id
      already drawn, the far end's legs are the incoming ones, and a transfer
      target names a leg. */
  ghost predicate LegFacts(s: State, id: LegId)
    requires id in s.legs
  {
    var leg := s.legs[id];
    && id < s.nextId
    && (leg.recording.Some? ==> leg.state == Answered && leg.recording.value < s.nextId)
    && (leg.origin == FarEnd <==> leg.direction == Incoming)
    && (leg.transferOf.Some? ==> leg.transferOf.value in s.legs && leg.transferOf.value < id)
  }

  ghost predicate Facts(s: State) {
    && (forall id {:trigger LegFacts(s, id)} :: id in s.legs ==> LegFacts(s, id))
    && OwnRecordings(s.legs)
    && (forall c :: c in s.dialsByCommandId ==> s.dialsByCommandId[c] in s.legs)
  }

  ghost function MadeBy(legs: map<LegId, Leg>, farEnd: bool): set<LegId> {
    set id | id in legs && (legs[id].origin == FarEnd) == farEnd
  }

  /** The ledger counts every leg ever made, by who made it, and the outbound peak
      is within both the dials and the peak of all legs. */
  ghost predicate Counted(s: State) {
    && s.ledger.dials == |MadeBy(s.legs, false)| && s.ledger.farEndLegs == |MadeBy(s.legs, true)|
    && s.ledger.peakOutbound <= s.ledger.dials && s.ledger.peakOutbound <= s.ledger.peakLegs
  }

  ghost predicate Inv(s: State) {
    Indexed(s) && Involution(s.legs) && Facts(s) && Counted(s) && Chronicle(s)
  }

  /** A leg that records goes on with the recording it had, and is answered. */
  ghost predicate OldTape(before: Leg, after: Leg) {
    after.recording.Some? ==> after.state == Answered && after.recording == before.recording
  }

  /** Everything but the history: kept by any change that leaves the legs' origins,
      directions and transfers alone and records only on answered legs. */
  lemma RegisterKept(s: State, r: State)
    requires Facts(s) && Counted(s)
    requires r.legs.Keys == s.legs.Keys && SameRegister(s, r)
    requires forall id :: id in s.legs ==>
               && r.legs[id].origin == s.legs[id].origin && r.legs[id].direction == s.legs[id].direction
               && r.legs[id].transferOf == s.legs[id].transferOf
               && OldTape(s.legs[id], r.legs[id])
    ensures Facts(r) && Counted(r)
  {
    forall id | id in r.legs ensures LegFacts(r, id) { assert LegFacts(s, id); }
    assert MadeBy(r.legs, false) == MadeBy(s.legs, false) && MadeBy(r.legs, true) == MadeBy(s.legs, true);
  }

  lemma CutRegister(s: State, r: State, D: set<LegId>)
    requires Facts(s) && Counted(s) && IsCut(s.legs, r.legs, D) && SameRegister(s, r)
    ensures Facts(r) && Counted(r)
  {
    forall id | id in s.legs ensures
        && r.legs[id].origin == s.legs[id].origin && r.legs[id].direction == s.legs[id].direction
        && r.legs[id].transferOf == s.legs[id].transferOf
        && OldTape(s.legs[id], r.legs[id])
    {
      assert CutAt(s.legs, r.legs, D, id) && LegFacts(s, id);
    }
    RegisterKept(s, r);
  }

  lemma EndLegKeeps(s: State, id: LegId, cause: string)
    requires Inv(s) && id in s.legs
    ensures Inv(EndLeg(s, id, cause))
  {
    var r := EndLeg(s, id, cause);
    EndLegChronicle(s, id, cause);
    if s.legs[id].state != Ended {
      EndLegCascade(s, id, cause);
      CutInvolution(s.legs, r.legs, Gone(s, r));
      CutRegister(s, r, Gone(s, r));
    }
  }

  lemma UnlinkRegister(s: State, id: LegId)
    requires Facts(s) && Counted(s) && Involution(s.legs) && id in s.legs
    ensures Facts(Unlink(s, id)) && Counted(Unlink(s, id)) && SameRegister(s, Unlink(s, id))
  {
    hide Unlink, Facts, Counted, Involution;
    UnlinkOnly(s, id);
    UnlinkKeepsRegister(s, id);
    UnlinkTapes(s, id);
    RegisterKept(s, Unlink(s, id));
  }

  lemma UnlinkTapes(s: State, id: LegId)
    requires Facts(s) && Involution(s.legs) && id in s.legs
    ensures forall x :: x in s.legs ==> OldTape(s.legs[x], Unlink(s, id).legs[x])
  {
    UnlinkOnly(s, id);
    hide Unlink;
    forall x | x in s.legs ensures OldTape(s.legs[x], Unlink(s, id).legs[x]) { assert LegFacts(s, x); }
  }

  lemma UnlinkKeepsRegister(s: State, id: LegId)
    requires id in s.legs
    ensures SameRegister(s, Unlink(s, id))
  {
  }

  lemma UnbridgeKeeps(s: State, id: LegId)
    requires Inv(s) && id in s.legs
    ensures Inv(Unbridge(s, id))
  {
    UnbridgeChronicle(s, id);
    var u, r, R, D := UnbridgeEnds(s, id);
    UnlinkRegister(s, id);
    CutRegister(u, r, D);
  }

  /** A change of one leg that keeps who made it, what it is bridged to and what
      it transfers. */
  lemma OneLegKeeps(s: State, r: State, id: LegId, leg: Leg)
    requires Inv(s) && Chronicle(r) && id in s.legs
    requires r.legs == s.legs[id := leg] && SameRegister(s, r)
    requires var l := s.legs[id];
             && leg.origin == l.origin && leg.direction == l.direction && leg.transferOf == l.transferOf
             && leg.bridgedWith == l.bridgedWith && (leg.state == Ended <==> l.state == Ended)
             && OldTape(l, leg)
    ensures Inv(r)
  {
    forall x | x in r.legs ensures Paired(r.legs, x) { assert Paired(s.legs, x); }
    forall x | x in s.legs ensures LegFacts(s, x) {}
    RegisterKept(s, r);
  }

  /** A change to parts of one leg that neither its life nor its links depend on. */
  lemma TweakKeeps(s: State, id: LegId, leg: Leg)
    requires Inv(s) && id in s.legs
    requires var l := s.legs[id];
             leg == l.(clientState := leg.clientState, parkAfterUnbridge := leg.parkAfterUnbridge,
                       messageSeconds := leg.messageSeconds, commandIds := leg.commandIds)
    ensures Inv(SetLeg(s, id, leg))
  {
    Unrecorded(s, SetLeg(s, id, leg));
    assert LegFacts(s, id);
    OneLegKeeps(s, SetLeg(s, id, leg), id, leg);
  }

  lemma ClientStateKeeps(s: State, id: LegId, clientState: Option<string>)
    requires Inv(s) && id in s.legs
    ensures Inv(SetClientState(s, id, clientState))
  {
    if clientState.Some? { TweakKeeps(s, id, s.legs[id].(clientState := clientState)); }
  }

  /** Events about one leg that leave the legs as they were. */
  lemma EmitKeeps(s: State, e: Event)
    requires Inv(s) && e.leg in s.legs && (e.CallBridged? || e.MediaStarted? || e.MediaEnded?)
    requires NextPhase(PhaseOf(s.history, e.leg), e.leg, e) == PhaseOf(s.history, e.leg)
    ensures Inv(Emit(s, e)) && PhaseOf(Emit(s, e).history, e.leg) == PhaseOf(s.history, e.leg)
  {
    RecordedOf(s, Emit(s, e), e);
    Appended(s.history, e, e.leg, false);
    assert LegFacts(s, e.leg);
    OneLegKeeps(s, Emit(s, e), e.leg, s.legs[e.leg]);
  }

  lemma AnsweredKeeps(s: State, r: State, id: LegId)
    requires Inv(s) && id in s.legs && s.legs[id].state == Ringing
    requires r == Emit(SetLeg(s, id, s.legs[id].(state := Answered)), CallAnswered(id))
    ensures Inv(r)
  {
    assert Agrees(s.legs, id, PhaseOf(s.history, id)) && LegFacts(s, id);
    hide Facts, Counted, Involution, PhaseOf;
    RecordedOf(s, r, CallAnswered(id));
    OneLegKeeps(s, r, id, r.legs[id]);
  }

  lemma AnswerLegKeeps(s: State, id: LegId, clientState: Option<string>)
    requires Inv(s) && id in s.legs && s.legs[id].state == Ringing
    ensures Inv(AnswerLeg(s, id, clientState))
  {
    var s1 := SetClientState(s, id, clientState);
    ClientStateKeeps(s, id, clientState);
    assert s1.legs[id].state == Ringing;
    AnsweredKeeps(s1, AnswerLeg(s, id, clientState), id);
  }

  lemma SaveRecordingKeeps(s: State, id: LegId)
    requires Inv(s) && id in s.legs
    ensures Inv(SaveRecording(s, id))
  {
    assert LegFacts(s, id) && Agrees(s.legs, id, PhaseOf(s.history, id));
    SaveRecordingChronicle(s, id);
    if s.legs[id].recording.Some? {
      OneLegKeeps(s, SaveRecording(s, id), id, s.legs[id].(recording := None));
    }
  }

  lemma NewLegMade(legs: map<LegId, Leg>, id: LegId, leg: Leg, farEnd: bool)
    requires id !in legs
    ensures MadeBy(legs[id := leg], farEnd)
         == MadeBy(legs, farEnd) + if (leg.origin == FarEnd) == farEnd then {id} else {}
  {
  }

  /** A new leg with a fresh id is counted once. */
  lemma NewLegCounted(s: State, r: State, leg: Leg)
    requires Counted(s) && s.nextId !in s.legs
    requires r.legs == s.legs[s.nextId := leg]
    requires r.ledger.dials == CountLeg(s.ledger, leg.origin).dials
    requires r.ledger.farEndLegs == CountLeg(s.ledger, leg.origin).farEndLegs
    requires r.ledger.peakOutbound == Max(s.ledger.peakOutbound, |LiveOutbound(r)|)
    requires r.ledger.peakLegs == Max(s.ledger.peakLegs, |Live(r)|)
    ensures Counted(r)
  {
    NewLegMade(s.legs, s.nextId, leg, true);
    NewLegMade(s.legs, s.nextId, leg, false);
    NoMore(MadeBy(r.legs, false), LiveOutbound(r));
    NoMore(Live(r), LiveOutbound(r));
  }

  lemma NewLegAlive(s: State, r: State, id: LegId, leg: Leg)
    requires id !in s.legs && r.legs == s.legs[id := leg] && leg.state != Ended
    ensures Live(r) == Live(s) + {id}
    ensures LiveOutbound(r) == if leg.origin == FarEnd then LiveOutbound(s) else LiveOutbound(s) + {id}
  {
  }

  lemma NewLegFacts(s: State, r: State, leg: Leg)
    requires Facts(s) && Involution(s.legs) && s.nextId !in s.legs
    requires r.nextId == s.nextId + 1 && r.dialsByCommandId == s.dialsByCommandId
    requires r.legs == s.legs[s.nextId := leg]
    requires leg.bridgedWith.None? && leg.recording.None? && (leg.origin == FarEnd <==> leg.direction == Incoming)
    requires leg.transferOf.Some? ==> leg.transferOf.value in s.legs
    ensures Facts(r) && Involution(r.legs)
  {
    forall x | x in r.legs ensures LegFacts(r, x) && Paired(r.legs, x) {
      if x != s.nextId { assert LegFacts(s, x) && Paired(s.legs, x); }
      else if leg.transferOf.Some? { assert LegFacts(s, leg.transferOf.value); }
    }
  }

  lemma FreshId(s: State)
    requires Facts(s)
    ensures s.nextId !in s.legs
  {
    assert s.nextId in s.legs ==> LegFacts(s, s.nextId);
  }

  /** The peaks noted with a new leg are those of the state it leaves. */
  lemma NewLegPeaks(s: State, origin: Origin, direction: Direction, clientState: Option<string>,
                    transferOf: Option<LegId>)
    requires s.nextId !in s.legs
    ensures var r := CreateLeg(s, origin, direction, clientState, transferOf);
            && Live(r) == Live(s) + {s.nextId}
            && LiveOutbound(r) == (if origin == FarEnd then LiveOutbound(s) else LiveOutbound(s) + {s.nextId})
            && r.ledger.peakLegs == Max(s.ledger.peakLegs, |Live(r)|)
            && r.ledger.peakOutbound == Max(s.ledger.peakOutbound, |LiveOutbound(r)|)
  {
    var id := s.nextId;
    var leg := NewLeg(origin, direction, clientState, transferOf);
    var made := s.(legs := s.legs[id := leg], order := s.order + [id], ledger := CountLeg(s.ledger, origin), nextId := id + 1);
    NewLegAlive(s, made, id, leg);
    NewLegAlive(s, CreateLeg(s, origin, direction, clientState, transferOf), id, leg);
  }

  lemma NewLegChronicle(s: State, origin: Origin, direction: Direction, clientState: Option<string>,
                        transferOf: Option<LegId>)
    requires Chronicle(s) && s.nextId !in s.legs && (origin == FarEnd <==> direction == Incoming)
    ensures Chronicle(CreateLeg(s, origin, direction, clientState, transferOf))
  {
    var id := s.nextId;
    var r := CreateLeg(s, origin, direction, clientState, transferOf);
    assert Agrees(s.legs, id, PhaseOf(s.history, id));
    NewLegPeaks(s, origin, direction, clientState, transferOf);
    Recorded(s, r, CallInitiated(id, direction));
  }

  lemma CreateLegKeeps(s: State, origin: Origin, direction: Direction, clientState: Option<string>,
                       transferOf: Option<LegId>)
    requires Inv(s) && (origin == FarEnd <==> direction == Incoming)
    requires transferOf.Some? ==> transferOf.value in s.legs
    ensures Inv(CreateLeg(s, origin, direction, clientState, transferOf)) && s.nextId !in s.legs
  {
    FreshId(s);
    NewLegChronicle(s, origin, direction, clientState, transferOf);
    NewLegPeaks(s, origin, direction, clientState, transferOf);
    NewLegKept(s, CreateLeg(s, origin, direction, clientState, transferOf),
               NewLeg(origin, direction, clientState, transferOf));
  }

  lemma NewLegKept(s: State, r: State, leg: Leg)
    requires Inv(s) && Chronicle(r) && s.nextId !in s.legs
    requires r.legs == s.legs[s.nextId := leg] && r.order == s.order + [s.nextId]
    requires r.nextId == s.nextId + 1 && r.dialsByCommandId == s.dialsByCommandId
    requires r.ledger.dials == CountLeg(s.ledger, leg.origin).dials
    requires r.ledger.farEndLegs == CountLeg(s.ledger, leg.origin).farEndLegs
    requires r.ledger.peakOutbound == Max(s.ledger.peakOutbound, |LiveOutbound(r)|)
    requires r.ledger.peakLegs == Max(s.ledger.peakLegs, |Live(r)|)
    requires leg.bridgedWith.None? && leg.recording.None? && (leg.origin == FarEnd <==> leg.direction == Incoming)
    requires leg.transferOf.Some? ==> leg.transferOf.value in s.legs
    ensures Inv(r)
  {
    ListsMore(s.order, s.legs.Keys, s.nextId);
    assert r.legs.Keys == s.legs.Keys + {s.nextId};
    NewLegCounted(s, r, leg);
    NewLegFacts(s, r, leg);
  }
}
