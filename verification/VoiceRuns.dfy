/** The call switch over whole runs: every operation keeps the invariant, so it
    holds in every state a run reaches. */
module VoiceRuns {
  import opened Wrappers
  import opened VoiceSpec
  import opened VoiceHistory
  import opened Cascade
  import opened VoiceInvariants

  // ------------------------------------------------------- bridge and unbridge

  /** Splitting a bridge only ever clears bridges, its own leg's among them. */
  lemma UnbridgeClears(s: State, id: LegId)
    requires Indexed(s) && Involution(s.legs) && id in s.legs
    ensures var r := Unbridge(s, id);
            && r.legs[id].bridgedWith == None
            && forall x :: x in s.legs ==> OnlyCleared(s.legs, r.legs, x)
  {
    UnlinkClears(s, id);
    var u, r, R, D := UnbridgeEnds(s, id);
    CutClears(u.legs, r.legs, D);
    hide Unlink, Unbridge, IsCut, LeastClosed;
    forall x | x in s.legs ensures OnlyCleared(s.legs, r.legs, x) {
      assert OnlyCleared(s.legs, u.legs, x) && OnlyCleared(u.legs, r.legs, x);
    }
    assert OnlyCleared(u.legs, r.legs, id);
  }

  lemma UnlinkClears(s: State, id: LegId)
    requires Involution(s.legs) && id in s.legs
    ensures var u := Unlink(s, id);
            u.legs[id].bridgedWith == None && forall x :: x in s.legs ==> OnlyCleared(s.legs, u.legs, x)
  {
    UnlinkOnly(s, id);
    hide Unlink;
  }

  lemma CutClears(a: map<LegId, Leg>, b: map<LegId, Leg>, D: set<LegId>)
    requires IsCut(a, b, D)
    ensures forall x :: x in a ==> OnlyCleared(a, b, x)
  {
    forall x | x in a ensures OnlyCleared(a, b, x) { assert CutAt(a, b, D, x); }
  }

  ghost predicate OnlyCleared(before: map<LegId, Leg>, after: map<LegId, Leg>, x: LegId)
    requires x in before
  {
    x in after && (after[x].bridgedWith == None || after[x].bridgedWith == before[x].bridgedWith)
  }

  lemma LinkKeeps(s: State, id: LegId, partner: LegId)
    requires Inv(s) && id in s.legs && partner in s.legs
    requires s.legs[id].state != Ended && s.legs[partner].state != Ended
    requires s.legs[id].bridgedWith == None && s.legs[partner].bridgedWith == None
    ensures Inv(Join(s, id, partner))
  {
    var r := Join(s, id, partner);
    LinkPairs(s, id, partner);
    JoinOnlyLinks(s, id, partner);
    AllLegFacts(s);
    hide Join, Involution, Chronicle, Facts, Counted;
    RegisterKept(s, r);
    Unrecorded(s, r);
  }

  lemma AllLegFacts(s: State)
    requires Facts(s)
    ensures forall x :: x in s.legs && s.legs[x].recording.Some? ==> s.legs[x].state == Answered
  {
    forall x | x in s.legs ensures LegFacts(s, x) {}
  }

  lemma JoinOnlyLinks(s: State, id: LegId, partner: LegId)
    requires id in s.legs && partner in s.legs
    ensures var r := Join(s, id, partner);
            && r == s.(legs := r.legs) && r.legs.Keys == s.legs.Keys
            && forall x :: x in s.legs ==> r.legs[x] == s.legs[x].(bridgedWith := r.legs[x].bridgedWith)
  {
  }

  lemma LinkPairs(s: State, id: LegId, partner: LegId)
    requires Involution(s.legs) && id in s.legs && partner in s.legs
    requires s.legs[id].state != Ended && s.legs[partner].state != Ended
    requires s.legs[id].bridgedWith == None && s.legs[partner].bridgedWith == None
    ensures Involution(Join(s, id, partner).legs)
  {
    var r := Join(s, id, partner);
    forall x | x in r.legs ensures Paired(r.legs, x) { assert Paired(s.legs, x); }
  }

  lemma LinkedIsAnnounced(s: State, id: LegId)
    requires Inv(s) && id in s.legs && s.legs[id].state != Ended
    ensures Inv(Emit(s, CallBridged(id)))
  {
    assert Agrees(s.legs, id, PhaseOf(s.history, id));
    EmitKeeps(s, CallBridged(id));
  }

  lemma JoinKeeps(s: State, id: LegId, partner: LegId)
    requires Inv(s) && id in s.legs && partner in s.legs
    requires s.legs[id].state != Ended && s.legs[partner].state != Ended
    requires s.legs[id].bridgedWith == None && s.legs[partner].bridgedWith == None
    ensures Inv(Emit(Emit(Join(s, id, partner), CallBridged(id)), CallBridged(partner)))
  {
    LinkKeeps(s, id, partner);
    LinkedIsAnnounced(Join(s, id, partner), id);
    LinkedIsAnnounced(Emit(Join(s, id, partner), CallBridged(id)), partner);
  }

  /** The two legs of a coming bridge, each parted from its old partner. */
  lemma PartBoth(s: State, id: LegId, partner: LegId) returns (b: State)
    requires Inv(s) && id in s.legs && partner in s.legs
    ensures b == Unbridge(Unbridge(s, id), partner) && Inv(b)
    ensures b.legs.Keys == s.legs.Keys && b.legs[id].bridgedWith == None && b.legs[partner].bridgedWith == None
  {
    var a := Unbridge(s, id);
    b := Unbridge(a, partner);
    UnbridgeKeeps(s, id);
    UnbridgeClears(s, id);
    UnbridgeKeeps(a, partner);
    UnbridgeClears(a, partner);
    assert OnlyCleared(a.legs, b.legs, id);
  }

  /** `bridge` keeps the invariant even when splitting an old bridge cascades into
      one of the two legs being joined: then it joins nothing. */
  lemma BridgeKeeps(s: State, id: LegId, partner: LegId)
    requires Inv(s) && id in s.legs && partner in s.legs
    ensures Inv(Bridge(s, id, partner))
  {
    hide Inv, Unbridge;
    var b := PartBoth(s, id, partner);
    if b.legs[id].state != Ended && b.legs[partner].state != Ended { JoinKeeps(b, id, partner); }
  }

  // ------------------------------------------------------------ each operation

  lemma FarEndAnswerKeeps(s: State, id: LegId)
    requires Inv(s)
    ensures Inv(FarEndAnswer(s, id).next)
  {
    hide Inv;
    if !FarEndThrows(s, id) && s.legs[id].direction == Outgoing && s.legs[id].state == Ringing {
      var s1 := AnswerLeg(s, id, None);
      AnswerLegKeeps(s, id, None);
      if s.legs[id].transferOf.Some? && s.legs[id].transferOf.value in s1.legs {
        BridgeKeeps(s1, s.legs[id].transferOf.value, id);
      }
    }
  }

  /** A dial's command id noted against a leg. */
  lemma NotedKeeps(s: State, commandId: string, id: LegId)
    requires Inv(s) && id in s.legs
    ensures Inv(s.(dialsByCommandId := s.dialsByCommandId[commandId := id]))
  {
    var r := s.(dialsByCommandId := s.dialsByCommandId[commandId := id]);
    forall x | x in r.legs ensures LegFacts(r, x) { assert LegFacts(s, x); }
    Unrecorded(s, r);
  }

  lemma PostCallKeeps(s: State, commandId: string, clientState: Option<string>)
    requires Inv(s)
    ensures Inv(PostCall(s, commandId, clientState).next)
  {
    hide Inv;
    CreateLegKeeps(s, Dial, Outgoing, clientState, None);
    if commandId != "" && commandId in s.dialsByCommandId && s.dialsByCommandId[commandId] in s.legs {
      NotedKeeps(s, commandId, s.dialsByCommandId[commandId]);
    } else {
      NotedKeeps(CreateLeg(s, Dial, Outgoing, clientState, None), commandId, s.nextId);
    }
  }

  lemma MediaKeeps(s: State, id: LegId, family: Family)
    requires Inv(s) && id in s.legs && s.legs[id].state == Answered
    ensures Inv(Emit(Emit(s, MediaStarted(id, family)), MediaEnded(id, family)))
  {
    InTalkWhenAnswered(s, id);
    hide Inv, PhaseOf;
    EmitKeeps(s, MediaStarted(id, family));
    EmitKeeps(Emit(s, MediaStarted(id, family)), MediaEnded(id, family));
  }

  lemma InTalkWhenAnswered(s: State, id: LegId)
    requires Inv(s) && id in s.legs && s.legs[id].state == Answered
    ensures PhaseOf(s.history, id) == InTalk
  {
    assert Agrees(s.legs, id, PhaseOf(s.history, id));
  }

  lemma RecordStartKeeps(s: State, id: LegId)
    requires Inv(s) && id in s.legs && s.legs[id].state == Answered
    ensures Inv(OpenRecording(s, id))
  {
    var r := OpenRecording(s, id);
    OpenedFacts(s, r, id);
    OpenedPairs(s, r, id);
    OpenedCounted(s, r, id);
    hide Facts, Counted, Involution;
    Unrecorded(s, r);
  }

  lemma OpenedPairs(s: State, r: State, id: LegId)
    requires Involution(s.legs) && id in s.legs && r == OpenRecording(s, id)
    ensures Involution(r.legs)
  {
    forall x | x in r.legs ensures Paired(r.legs, x) { assert Paired(s.legs, x); }
  }

  lemma OpenedCounted(s: State, r: State, id: LegId)
    requires Counted(s) && id in s.legs && r == OpenRecording(s, id)
    ensures Counted(r)
  {
    assert MadeBy(r.legs, true) == MadeBy(s.legs, true) && MadeBy(r.legs, false) == MadeBy(s.legs, false);
  }

  /** A fresh id is nobody else's recording. */
  lemma OpenedFacts(s: State, r: State, id: LegId)
    requires Facts(s) && id in s.legs && s.legs[id].state == Answered && r == OpenRecording(s, id)
    ensures Facts(r)
  {
    forall x | x in r.legs ensures LegFacts(r, x) && (x != id ==> r.legs[x].recording != Some(s.nextId)) {
      assert LegFacts(s, x);
    }
  }

  lemma TransferKeeps(s: State, id: LegId, targetClientState: Option<string>)
    requires Inv(s) && id in s.legs
    ensures Inv(TransferLeg(s, id, targetClientState))
  {
    UnbridgeKeeps(s, id);
    CreateLegKeeps(Unbridge(s, id), Transfer, Outgoing, targetClientState, Some(id));
  }

  lemma RunActionKeeps(s: State, id: LegId, action: Action, clientState: Option<string>)
    requires Inv(s) && id in s.legs
    ensures Inv(RunAction(s, id, action, clientState).next)
  {
    hide Inv, EndLeg, Unbridge, Bridge;
    var s1 := SetClientState(s, id, clientState);
    ClientStateKeeps(s, id, clientState);
    match action
    case AnswerCommand => if s.legs[id].state == Ringing { AnswerLegKeeps(s, id, clientState); }
    case Reject(cause) => EndLegKeeps(s, id, cause);
    case HangUp =>
      EndLegKeeps(s1, id, "originator_cancel");
      EndLegKeeps(s1, id, "normal_clearing");
    case BridgeTo(partner, parkSelf) =>
      if partner in s.legs {
        TweakKeeps(s1, id, s1.legs[id].(parkAfterUnbridge := parkSelf));
        BridgeKeeps(SetLeg(s1, id, s1.legs[id].(parkAfterUnbridge := parkSelf)), id, partner);
      }
    case TransferTo(to, targetClientState) => TransferKeeps(s1, id, targetClientState);
    case PlayMedia(family) => if s.legs[id].state == Answered { MediaKeeps(s1, id, family); }
    case RecordStart => if s.legs[id].state == Answered { RecordStartKeeps(s1, id); }
    case RecordStop => SaveRecordingKeeps(s, id);
    case OtherAction =>
  }

  lemma PostActionKeeps(s: State, id: LegId, action: Action, commandId: string, clientState: Option<string>)
    requires Inv(s)
    ensures Inv(PostActionOn(s, id, action, commandId, clientState).next)
  {
    hide Inv;
    if id in s.legs && s.legs[id].state != Ended && !(commandId != "" && commandId in s.legs[id].commandIds) {
      var leg := s.legs[id].(commandIds := s.legs[id].commandIds + {commandId});
      TweakKeeps(s, id, leg);
      RunActionKeeps(if commandId == "" then s else SetLeg(s, id, leg), id, action, clientState);
    }
  }

  lemma LeavesMessageKeeps(s: State, id: LegId, seconds: nat)
    requires Inv(s) && id in s.legs
    ensures Inv(EndLeg(SetLeg(s, id, s.legs[id].(messageSeconds := seconds)), id, "normal_clearing"))
  {
    TweakKeeps(s, id, s.legs[id].(messageSeconds := seconds));
    EndLegKeeps(SetLeg(s, id, s.legs[id].(messageSeconds := seconds)), id, "normal_clearing");
  }

  /** A change of the outbox or of a recording's fate. */
  lemma BooksKeep(s: State, r: State)
    requires Inv(s) && r.legs == s.legs && SameRegister(s, r)
    requires r.history == s.history && r.recordings.Keys == s.recordings.Keys
    requires r.outbox == s.outbox || (s.outbox != [] && r.outbox == s.outbox[1..])
    ensures Inv(r)
  {
    if s.outbox != [] { assert s.outbox[1..] == s.history[|s.history| - |s.outbox[1..]|..]; }
    forall x | x in s.legs ensures LegFacts(s, x) {}
    RegisterKept(s, r);
    Unrecorded(s, r);
  }

  lemma ForgetKeeps(s: State)
    ensures Inv(Forget(s))
  {
    var r := Forget(s);
    assert Live(r) == {} && LiveOutbound(r) == {} && MadeBy(r.legs, true) == {} == MadeBy(r.legs, false);
    assert r.outbox == r.history[|r.history| - |r.outbox|..];
  }

  /** Every operation of the switch keeps the invariant. */
  lemma PerformKeeps(s: State, op: Op)
    requires Inv(s)
    ensures Inv(Perform(s, op).next)
  {
    hide Inv, EndLeg;
    match op
    case FarEndDials => CreateLegKeeps(s, FarEnd, Incoming, None, None);
    case FarEndAnswers(id) => FarEndAnswerKeeps(s, id);
    case FarEndHangsUp(id, cause) => if id in s.legs { EndLegKeeps(s, id, cause); }
    case RingsOut(id) => if id in s.legs { EndLegKeeps(s, id, "timeout"); }
    case Declines(id) => if id in s.legs { EndLegKeeps(s, id, "call_rejected"); }
    case LeavesMessage(id, seconds) => if id in s.legs { LeavesMessageKeeps(s, id, seconds); }
    case PostCalls(valid, commandId, clientState) => PostCallKeeps(s, commandId, clientState);
    case PostAction(id, action, commandId, clientState) => PostActionKeeps(s, id, action, commandId, clientState);
    case DeleteRecording(rec) => BooksKeep(s, Perform(s, op).next);
    case TakeEvent =>
      if s.outbox != [] { BooksKeep(s, Perform(s, op).next); }
    case ResetCalls => ForgetKeeps(s);
  }
}
