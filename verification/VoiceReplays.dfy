/** Idempotency keys: a command sent again under its `command_id` changes nothing. */
module VoiceReplays {
  import opened Wrappers
  import opened VoiceSpec
  import opened Cascade
  import opened VoiceInvariants
  import opened VoiceRuns
  import opened VoiceTheorems

  /** How a leg may change short of a reset: it stays known, remembers its command
      ids, never comes back to life and never starts ringing again. */
  ghost predicate OnwardAt(s: State, r: State, x: LegId)
    requires x in s.legs
  {
    && x in r.legs
    && s.legs[x].commandIds <= r.legs[x].commandIds
    && (s.legs[x].state == Ended ==> r.legs[x].state == Ended)
    && (r.legs[x].state == Ringing ==> s.legs[x].state == Ringing)
    && r.legs[x].transferOf == s.legs[x].transferOf
  }

  ghost predicate Onward(s: State, r: State) {
    forall x {:trigger OnwardAt(s, r, x)} :: x in s.legs ==> OnwardAt(s, r, x)
  }

  lemma OnwardTrans(a: State, b: State, c: State)
    requires Onward(a, b) && Onward(b, c)
    ensures Onward(a, c)
  {
    forall x | x in a.legs ensures OnwardAt(a, c, x) { assert OnwardAt(a, b, x) && OnwardAt(b, c, x); }
  }

  lemma CutOnward(a: State, b: State, D: set<LegId>)
    requires IsCut(a.legs, b.legs, D)
    ensures Onward(a, b)
  {
    forall x | x in a.legs ensures OnwardAt(a, b, x) { assert CutAt(a.legs, b.legs, D, x); }
  }

  /** A change of one leg's record that moves it on. */
  lemma OneLegOnward(s: State, r: State, id: LegId, leg: Leg)
    requires id in s.legs && r.legs == s.legs[id := leg]
    requires s.legs[id].commandIds <= leg.commandIds && leg.transferOf == s.legs[id].transferOf
    requires s.legs[id].state != Ended && (leg.state == Ringing ==> s.legs[id].state == Ringing)
    ensures Onward(s, r)
  {
    forall x | x in s.legs ensures OnwardAt(s, r, x) {}
  }

  lemma SameLegsOnward(s: State, r: State)
    requires r.legs == s.legs
    ensures Onward(s, r)
  {
    forall x | x in s.legs ensures OnwardAt(s, r, x) {}
  }

  lemma EndLegOnward(s: State, id: LegId, cause: string)
    requires Inv(s) && id in s.legs
    ensures Onward(s, EndLeg(s, id, cause))
  {
    if s.legs[id].state == Ended {
      SameLegsOnward(s, s);
    } else {
      EndLegCascade(s, id, cause);
      CutOnward(s, EndLeg(s, id, cause), Gone(s, EndLeg(s, id, cause)));
    }
  }

  lemma UnbridgeOnward(s: State, id: LegId)
    requires Inv(s) && id in s.legs
    ensures Onward(s, Unbridge(s, id))
  {
    UnlinkOnly(s, id);
    var u, r, R, D := UnbridgeEnds(s, id);
    forall x | x in s.legs ensures OnwardAt(s, u, x) {}
    CutOnward(u, r, D);
    OnwardTrans(s, u, r);
  }

  lemma BridgeOnward(s: State, id: LegId, partner: LegId)
    requires Inv(s) && id in s.legs && partner in s.legs
    ensures Onward(s, Bridge(s, id, partner))
  {
    var a := Unbridge(s, id);
    var b := Unbridge(a, partner);
    UnbridgeKeeps(s, id);
    UnbridgeOnward(s, id);
    UnbridgeOnward(a, partner);
    OnwardTrans(s, a, b);
    var r := Bridge(s, id, partner);
    if s.legs[id].bridgedWith == Some(partner) {
      SameLegsOnward(s, r);
    } else {
      LinkOnward(b, id, partner);
      OnwardTrans(s, b, r);
    }
  }

  lemma LinkOnward(s: State, id: LegId, partner: LegId)
    requires id in s.legs && partner in s.legs
    ensures Onward(s, s)
    ensures Onward(s, Emit(Emit(Join(s, id, partner), CallBridged(id)), CallBridged(partner)))
  {
    forall x | x in s.legs ensures OnwardAt(s, s, x) {}
    var r := Emit(Emit(Join(s, id, partner), CallBridged(id)), CallBridged(partner));
    forall x | x in s.legs ensures OnwardAt(s, r, x) {}
  }

  lemma ClientStateOnward(s: State, id: LegId, clientState: Option<string>)
    requires id in s.legs && s.legs[id].state != Ended
    ensures Onward(s, SetClientState(s, id, clientState))
  {
    OneLegOnward(s, SetClientState(s, id, clientState), id, SetClientState(s, id, clientState).legs[id]);
  }

  lemma CreateLegOnward(s: State, origin: Origin, direction: Direction, clientState: Option<string>,
                        transferOf: Option<LegId>)
    requires Inv(s)
    ensures Onward(s, CreateLeg(s, origin, direction, clientState, transferOf))
  {
    FreshId(s);
    var r := CreateLeg(s, origin, direction, clientState, transferOf);
    forall x | x in s.legs ensures OnwardAt(s, r, x) {}
  }

  lemma FarEndAnswerOnward(s: State, id: LegId)
    requires Inv(s)
    ensures Onward(s, FarEndAnswer(s, id).next)
  {
    hide Inv;
    SameLegsOnward(s, s);
    if !FarEndThrows(s, id) && s.legs[id].direction == Outgoing && s.legs[id].state == Ringing {
      var s1 := AnswerLeg(s, id, None);
      AnswerLegKeeps(s, id, None);
      OneLegOnward(s, s1, id, s1.legs[id]);
      if s.legs[id].transferOf.Some? && s.legs[id].transferOf.value in s1.legs {
        var o := s.legs[id].transferOf.value;
        BridgeOnward(s1, o, id);
        OnwardTrans(s, s1, Bridge(s1, o, id));
      }
    }
  }

  lemma ParkedBridgeOnward(s: State, id: LegId, partner: LegId, parkSelf: bool)
    requires Inv(s) && id in s.legs && partner in s.legs && s.legs[id].state != Ended
    ensures Onward(s, Bridge(SetLeg(s, id, s.legs[id].(parkAfterUnbridge := parkSelf)), id, partner))
  {
    hide Inv, Bridge, Onward;
    var parked := SetLeg(s, id, s.legs[id].(parkAfterUnbridge := parkSelf));
    TweakKeeps(s, id, parked.legs[id]);
    OneLegOnward(s, parked, id, parked.legs[id]);
    BridgeOnward(parked, id, partner);
    OnwardTrans(s, parked, Bridge(parked, id, partner));
  }

  lemma TransferOnward(s: State, id: LegId, targetClientState: Option<string>)
    requires Inv(s) && id in s.legs
    ensures Onward(s, TransferLeg(s, id, targetClientState))
  {
    hide Inv, Unbridge, Onward;
    var u := Unbridge(s, id);
    UnbridgeOnward(s, id);
    UnbridgeKeeps(s, id);
    CreateLegOnward(u, Transfer, Outgoing, targetClientState, Some(id));
    OnwardTrans(s, u, TransferLeg(s, id, targetClientState));
  }

  lemma RunActionOnward(s: State, id: LegId, action: Action, clientState: Option<string>)
    requires Inv(s) && id in s.legs && s.legs[id].state != Ended
    ensures Onward(s, RunAction(s, id, action, clientState).next)
  {
    hide Inv, EndLeg, TransferLeg, Bridge, Onward;
    var r := RunAction(s, id, action, clientState).next;
    var s1 := SetClientState(s, id, clientState);
    ClientStateKeeps(s, id, clientState);
    ClientStateOnward(s, id, clientState);
    SameLegsOnward(s, s);
    match action
    case AnswerCommand => if r != s { OneLegOnward(s, r, id, r.legs[id]); }
    case Reject(cause) => EndLegOnward(s, id, cause);
    case HangUp =>
      EndLegOnward(s1, id, "originator_cancel");
      EndLegOnward(s1, id, "normal_clearing");
      OnwardTrans(s, s1, r);
    case BridgeTo(partner, parkSelf) =>
      if partner in s.legs && r != s {
        ParkedBridgeOnward(s1, id, partner, parkSelf);
        OnwardTrans(s, s1, r);
      }
    case TransferTo(to, targetClientState) =>
      if to != "" {
        TransferOnward(s1, id, targetClientState);
        OnwardTrans(s, s1, r);
      }
    case PlayMedia(family) => if r != s { OneLegOnward(s, r, id, r.legs[id]); }
    case RecordStart => if r != s { OneLegOnward(s, r, id, r.legs[id]); }
    case RecordStop => OneLegOnward(s, r, id, r.legs[id]);
    case OtherAction =>
  }

  lemma PostActionOnward(s: State, id: LegId, action: Action, commandId: string, clientState: Option<string>)
    requires Inv(s)
    ensures Onward(s, PostActionOn(s, id, action, commandId, clientState).next)
  {
    hide Inv;
    SameLegsOnward(s, s);
    if id in s.legs && s.legs[id].state != Ended && !(commandId != "" && commandId in s.legs[id].commandIds) {
      var leg := s.legs[id].(commandIds := s.legs[id].commandIds + {commandId});
      TweakKeeps(s, id, leg);
      var s1 := if commandId == "" then s else SetLeg(s, id, leg);
      if commandId != "" { OneLegOnward(s, s1, id, leg); }
      RunActionOnward(s1, id, action, clientState);
      OnwardTrans(s, s1, PostActionOn(s, id, action, commandId, clientState).next);
    }
  }

  /** Short of a reset, every operation moves every leg on. */
  lemma PerformOnward(s: State, op: Op)
    requires Inv(s) && op != ResetCalls
    ensures Onward(s, Perform(s, op).next)
  {
    hide Inv, EndLeg;
    SameLegsOnward(s, s);
    match op
    case FarEndDials => CreateLegOnward(s, FarEnd, Incoming, None, None);
    case FarEndAnswers(id) => FarEndAnswerOnward(s, id);
    case FarEndHangsUp(id, cause) => if id in s.legs { EndLegOnward(s, id, cause); }
    case RingsOut(id) => if id in s.legs { EndLegOnward(s, id, "timeout"); }
    case Declines(id) => if id in s.legs { EndLegOnward(s, id, "call_rejected"); }
    case LeavesMessage(id, seconds) =>
      if !FarEndThrows(s, id) {
        var s1 := SetLeg(s, id, s.legs[id].(messageSeconds := seconds));
        TweakKeeps(s, id, s1.legs[id]);
        OneLegOnward(s, s1, id, s1.legs[id]);
        EndLegOnward(s1, id, "normal_clearing");
        OnwardTrans(s, s1, EndLeg(s1, id, "normal_clearing"));
      }
    case PostCalls(valid, commandId, clientState) =>
      CreateLegOnward(s, Dial, Outgoing, clientState, None);
      forall x | x in s.legs ensures OnwardAt(s, Perform(s, op).next, x) {
        assert OnwardAt(s, CreateLeg(s, Dial, Outgoing, clientState, None), x);
      }
    case PostAction(id, action, commandId, clientState) => PostActionOnward(s, id, action, commandId, clientState);
    case DeleteRecording(_) => SameLegsOnward(s, Perform(s, op).next);
    case TakeEvent => SameLegsOnward(s, Perform(s, op).next);
    case ResetCalls =>
  }

  // ------------------------------------------------------------------ replays

  /** What makes sending `op` again harmless: for a dial, its id is noted against a
      leg still known; for an action, its leg is over or has seen the id. */
  ghost predicate Settled(s: State, op: Op) {
    match op
    case PostCalls(_, c, _) => c != "" && c in s.dialsByCommandId && s.dialsByCommandId[c] in s.legs
    case PostAction(id, _, c, _) =>
      c != "" && id in s.legs && (s.legs[id].state == Ended || c in s.legs[id].commandIds)
    case _ => false
  }

  /** Commands with one non-empty id to one place: two dials, or two actions on one leg. */
  ghost predicate SameCommand(a: Op, b: Op) {
    match (a, b)
    case (PostCalls(_, c, _), PostCalls(_, d, _)) => c == d && c != ""
    case (PostAction(i, _, c, _), PostAction(j, _, d, _)) => i == j && c == d && c != ""
    case _ => false
  }

  /** The first copy was accepted: a well-formed dial, or an action that found its
      leg alive. */
  ghost predicate Found(s: State, op: Op) {
    match op
    case PostCalls(valid, _, _) => valid
    case PostAction(id, _, _, _) => id in s.legs && s.legs[id].state != Ended
    case _ => false
  }

  lemma FirstCopySettles(s: State, op: Op, again: Op)
    requires Inv(s) && Found(s, op) && SameCommand(op, again)
    ensures Settled(Perform(s, op).next, again)
  {
    if op.PostAction? && op.commandId !in s.legs[op.id].commandIds {
      var leg := s.legs[op.id].(commandIds := s.legs[op.id].commandIds + {op.commandId});
      var s1 := SetLeg(s, op.id, leg);
      TweakKeeps(s, op.id, leg);
      RunActionOnward(s1, op.id, op.action, op.clientState);
      assert OnwardAt(s1, Perform(s, op).next, op.id);
    }
  }

  lemma CopyChangesNothing(s: State, op: Op)
    requires Settled(s, op)
    ensures Perform(s, op).next == s
  {
    if op.PostCalls? {
      assert s.dialsByCommandId[op.commandId := s.dialsByCommandId[op.commandId]] == s.dialsByCommandId;
    }
  }

  lemma SettledStays(s: State, op: Op, again: Op)
    requires Inv(s) && Settled(s, again) && op != ResetCalls
    ensures Settled(Perform(s, op).next, again)
    ensures again.PostCalls? ==>
              Perform(s, op).next.dialsByCommandId[again.commandId] == s.dialsByCommandId[again.commandId]
  {
    PerformOnward(s, op);
    var r := Perform(s, op).next;
    match again
    case PostCalls(_, c, _) =>
      DialsKept(s, op, c);
      assert OnwardAt(s, r, s.dialsByCommandId[c]);
    case PostAction(id, _, c, _) => assert OnwardAt(s, r, id);
    case _ =>
  }

  lemma ActionsNoteNoDials(s: State, id: LegId, action: Action, clientState: Option<string>)
    requires id in s.legs
    ensures RunAction(s, id, action, clientState).next.dialsByCommandId == s.dialsByCommandId
  {
    hide EndLeg, Bridge, Unbridge;
  }

  /** A dial id stays with its leg. */
  lemma DialsKept(s: State, op: Op, c: string)
    requires op != ResetCalls && c in s.dialsByCommandId && s.dialsByCommandId[c] in s.legs
    ensures c in Perform(s, op).next.dialsByCommandId
    ensures Perform(s, op).next.dialsByCommandId[c] == s.dialsByCommandId[c]
  {
    hide EndLeg, Bridge, Unbridge, RunAction;
    if op.PostAction? && op.id in s.legs {
      var leg := s.legs[op.id].(commandIds := s.legs[op.id].commandIds + {op.commandId});
      ActionsNoteNoDials(if op.commandId == "" then s else SetLeg(s, op.id, leg), op.id, op.action, op.clientState);
    }
  }

  lemma {:induction false} SettledAlongRun(s: State, ops: seq<Op>, again: Op)
    requires Inv(s) && Settled(s, again) && ResetCalls !in ops
    ensures Settled(Run(s, ops), again)
    ensures again.PostCalls? ==> Run(s, ops).dialsByCommandId[again.commandId] == s.dialsByCommandId[again.commandId]
  {
    if ops != [] {
      SettledAlongRun(s, ops[..|ops| - 1], again);
      RunKeeps(s, ops[..|ops| - 1]);
      SettledStays(Run(s, ops[..|ops| - 1]), ops[|ops| - 1], again);
    }
  }

  /** Duplicate transparency: within one reset window, a later copy of an accepted
      dial or action can be erased from a run without a trace, whatever it asks
      for: legs, outbox, history, recordings, dial ids and ledger are the same. */
  lemma DuplicateErased(a: seq<Op>, first: Op, b: seq<Op>, again: Op, c: seq<Op>)
    requires SameCommand(first, again) && Found(After(a), first) && ResetCalls !in b
    ensures After(a + [first] + b + [again] + c) == After(a + [first] + b + c)
  {
    Reached(a);
    Reached(a + [first]);
    RunStep(INITIAL, a, first);
    FirstCopySettles(After(a), first, again);
    SettledAlongRun(After(a + [first]), b, again);
    RunAppend(INITIAL, a + [first], b);
    RunStep(INITIAL, a + [first] + b, again);
    CopyChangesNothing(After(a + [first] + b), again);
    RunAppend(INITIAL, a + [first] + b + [again], c);
    RunAppend(INITIAL, a + [first] + b, c);
  }

  /** One dial id never owns two legs: a later dial under it answers with the leg
      the first one made, as a replay. */
  lemma DialAnsweredOnce(a: seq<Op>, b: seq<Op>, commandId: string, x: Option<string>, y: Option<string>)
    requires commandId != "" && ResetCalls !in b
    ensures var first := Perform(After(a), PostCalls(true, commandId, x)).reply;
            var again := Perform(After(a + [PostCalls(true, commandId, x)] + b), PostCalls(true, commandId, y)).reply;
            first.Dialled? && again.Dialled? && again.replayed && again.leg == first.leg
  {
    var first, again := PostCalls(true, commandId, x), PostCalls(true, commandId, y);
    Reached(a + [first]);
    Reached(a);
    RunStep(INITIAL, a, first);
    FirstCopySettles(After(a), first, again);
    SettledAlongRun(After(a + [first]), b, again);
    RunAppend(INITIAL, a + [first], b);
  }
}
