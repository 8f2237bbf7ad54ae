/** Transfer targets and the legs they transfer. The header of
    apps/api/e2e/fake-telnyx-voice.ts (lines 17-18) promises that a pending target
    is cancelled when the leg it was transferring dies. That holds of every
    operation but one: a `transfer` can end its own leg before it makes the
    target. This module says exactly when. */
module VoiceOrphans {
  import opened Wrappers
  import opened VoiceSpec
  import opened Cascade
  import opened VoiceInvariants
  import opened VoiceRuns
  import opened VoiceTheorems
  import opened VoiceReplays

  /** No target rings for a leg that is over. */
  ghost predicate NoOrphans(legs: map<LegId, Leg>) {
    forall t, o {:trigger RingsFor(legs, t, o)} :: RingsFor(legs, t, o) ==> o in legs && legs[o].state != Ended
  }

  lemma CascadeLeavesNoOrphans(a: map<LegId, Leg>, b: map<LegId, Leg>, roots: set<LegId>, D: set<LegId>)
    requires Ends(a, b, roots, D) && NoOrphans(a)
    ensures NoOrphans(b)
  {
    forall t, o | RingsFor(b, t, o) ensures o in b && b[o].state != Ended {
      assert CutAt(a, b, D, t) && RingsFor(a, t, o);
      if o in D { assert Drags(a, o, t); }
      assert CutAt(a, b, D, o);
    }
  }

  /** Nobody dies and nobody starts ringing. */
  ghost predicate NoDeaths(s: State, r: State) {
    && s.legs.Keys <= r.legs.Keys
    && (forall x :: x in s.legs ==> (s.legs[x].state == Ended <==> r.legs[x].state == Ended))
    && (forall t, o {:trigger RingsFor(r.legs, t, o)} :: RingsFor(r.legs, t, o) ==> RingsFor(s.legs, t, o))
  }

  lemma QuietLeavesNoOrphans(s: State, r: State)
    requires NoDeaths(s, r) && NoOrphans(s.legs)
    ensures NoOrphans(r.legs)
  {
    forall t, o | RingsFor(r.legs, t, o) ensures o in r.legs && r.legs[o].state != Ended {
      assert RingsFor(s.legs, t, o);
    }
  }

  lemma OneLegNoOrphans(s: State, r: State, id: LegId, leg: Leg)
    requires NoOrphans(s.legs)
    requires id in s.legs && r.legs == s.legs[id := leg] && leg.transferOf == s.legs[id].transferOf
    requires (leg.state == Ended <==> s.legs[id].state == Ended) && (leg.state == Ringing ==> s.legs[id].state == Ringing)
    ensures NoOrphans(r.legs)
  {
    OneLegQuiet(s, r, id, leg);
    QuietLeavesNoOrphans(s, r);
  }

  lemma OneLegQuiet(s: State, r: State, id: LegId, leg: Leg)
    requires id in s.legs && r.legs == s.legs[id := leg] && leg.transferOf == s.legs[id].transferOf
    requires (leg.state == Ended <==> s.legs[id].state == Ended) && (leg.state == Ringing ==> s.legs[id].state == Ringing)
    ensures NoDeaths(s, r)
  {
  }

  lemma EndLegNoOrphans(s: State, id: LegId, cause: string)
    requires Inv(s) && id in s.legs && NoOrphans(s.legs)
    ensures NoOrphans(EndLeg(s, id, cause).legs)
  {
    if s.legs[id].state != Ended {
      EndLegCascade(s, id, cause);
      CascadeLeavesNoOrphans(s.legs, EndLeg(s, id, cause).legs, {id}, Gone(s, EndLeg(s, id, cause)));
    }
  }

  lemma UnlinkQuiet(s: State, id: LegId)
    requires Involution(s.legs) && id in s.legs
    ensures NoDeaths(s, Unlink(s, id))
  {
    UnlinkOnly(s, id);
    forall t, o | RingsFor(Unlink(s, id).legs, t, o) ensures RingsFor(s.legs, t, o) {
      assert Unlink(s, id).legs[t] == Unbridged(s.legs, id, t);
    }
  }

  lemma UnbridgeNoOrphans(s: State, id: LegId)
    requires Inv(s) && id in s.legs && NoOrphans(s.legs)
    ensures NoOrphans(Unbridge(s, id).legs)
  {
    UnlinkQuiet(s, id);
    QuietLeavesNoOrphans(s, Unlink(s, id));
    var u, r, R, D := UnbridgeEnds(s, id);
    CascadeLeavesNoOrphans(u.legs, r.legs, R, D);
  }

  lemma BridgeNoOrphans(s: State, id: LegId, partner: LegId)
    requires Inv(s) && id in s.legs && partner in s.legs && NoOrphans(s.legs)
    ensures NoOrphans(Bridge(s, id, partner).legs)
  {
    hide Inv, Unbridge;
    var a := Unbridge(s, id);
    UnbridgeKeeps(s, id);
    UnbridgeNoOrphans(s, id);
    UnbridgeNoOrphans(a, partner);
    LinkQuiet(Unbridge(a, partner), id, partner);
  }

  lemma LinkQuiet(s: State, id: LegId, partner: LegId)
    requires NoOrphans(s.legs) && id in s.legs && partner in s.legs
    ensures NoOrphans(Emit(Emit(Join(s, id, partner), CallBridged(id)), CallBridged(partner)).legs)
  {
    var s1 := SetLeg(s, id, s.legs[id].(bridgedWith := Some(partner)));
    OneLegNoOrphans(s, s1, id, s1.legs[id]);
    var r := Emit(Emit(Join(s, id, partner), CallBridged(id)), CallBridged(partner));
    OneLegNoOrphans(s1, r, partner, r.legs[partner]);
  }

  lemma NewLegNoOrphans(s: State, origin: Origin, direction: Direction, clientState: Option<string>,
                        transferOf: Option<LegId>)
    requires NoOrphans(s.legs) && s.nextId !in s.legs
    ensures NoOrphans(CreateLeg(s, origin, direction, clientState, transferOf).legs)
       <==> (transferOf.None? || transferOf.value == s.nextId
             || (transferOf.value in s.legs && s.legs[transferOf.value].state != Ended))
  {
    var r := CreateLeg(s, origin, direction, clientState, transferOf);
    forall t, o | RingsFor(r.legs, t, o) && t != s.nextId ensures o in r.legs && r.legs[o].state != Ended {
      assert RingsFor(s.legs, t, o);
    }
    if transferOf.Some? { assert RingsFor(r.legs, s.nextId, transferOf.value); }
  }

  // ----------------------------------------------------------------- transfer

  /** A leg still ringing as the target of `o`, bridged to a partner whose hang-up
      takes `o` along: transferring it ends it first. */
  ghost predicate CancelsItself(s: State, id: LegId)
    requires id in s.legs
  {
    && s.legs[id].state == Ringing && s.legs[id].transferOf.Some? && Dropped(s, id).Some?
    && exists D {:trigger LeastClosed(Unlink(s, id).legs, {Dropped(s, id).value}, D)} ::
         LeastClosed(Unlink(s, id).legs, {Dropped(s, id).value}, D) && s.legs[id].transferOf.value in D
  }

  /** In a cascade from another leg, an unbridged leg ends only as the ringing
      target of a leg that ends. */
  lemma UnbridgedEndsAsTarget(legs: map<LegId, Leg>, p: LegId, id: LegId, D: set<LegId>)
    requires Involution(legs) && id in legs && legs[id].bridgedWith == None && id != p
    requires legs[id].transferOf.Some? ==> legs[id].transferOf.value in legs
    requires LeastClosed(legs, {p}, D)
    ensures id in D <==> legs[id].state == Ringing && legs[id].transferOf.Some? && legs[id].transferOf.value in D
  {
    if legs[id].transferOf.Some? && RingsFor(legs, id, legs[id].transferOf.value)
       && legs[id].transferOf.value in D {
      assert Drags(legs, legs[id].transferOf.value, id);
    } else if id in D {
      forall x, y | x in D - {id} && Drags(legs, x, y) ensures y in D - {id} {
        assert Paired(legs, x);
      }
      assert Closed(legs, D - {id}) && {p} <= D - {id};
      assert false;
    }
  }

  /** Splitting a live leg's bridge ends the leg itself exactly when it cancels itself. */
  lemma UnbridgeSparesLeg(s: State, id: LegId)
    requires Inv(s) && id in s.legs && s.legs[id].state != Ended
    ensures Unbridge(s, id).legs[id].state == Ended <==> CancelsItself(s, id)
  {
    var u, r, R, D := UnbridgeEnds(s, id);
    UnlinkOnly(s, id);
    UnlinkInvolution(s, id);
    assert u.legs[id] == Unbridged(s.legs, id, id) && LegFacts(s, id);
    assert CutAt(u.legs, r.legs, D, id);
    match Dropped(s, id)
    case None =>
      assert R == {} && LeastClosed(u.legs, {}, {}) by { NothingEnds(u.legs); }
      LeastIsUnique(u.legs, {}, D, {});
    case Some(p) =>
      assert R == {p};
      UnbridgedEndsAsTarget(u.legs, p, id, D);
      forall E | LeastClosed(u.legs, {p}, E) ensures E == D { LeastIsUnique(u.legs, {p}, D, E); }
  }

  /** A transfer leaves its new target orphaned exactly when it cancels its own leg. */
  lemma TransferOrphans(s: State, id: LegId, targetClientState: Option<string>)
    requires Inv(s) && NoOrphans(s.legs) && id in s.legs && s.legs[id].state != Ended
    ensures NoOrphans(TransferLeg(s, id, targetClientState).legs) <==> !CancelsItself(s, id)
  {
    UnbridgeSparesLeg(s, id);
    UnbridgeNoOrphans(s, id);
    UnbridgeKeeps(s, id);
    FreshId(Unbridge(s, id));
    NewLegNoOrphans(Unbridge(s, id), Transfer, Outgoing, targetClientState, Some(id));
  }

  /** Two legs alike but for their client state and command ids. */
  ghost predicate SameLeg(a: Leg, b: Leg) {
    b == a.(clientState := b.clientState, commandIds := b.commandIds)
  }

  ghost predicate SameLegs(a: map<LegId, Leg>, b: map<LegId, Leg>) {
    a.Keys == b.Keys && forall x {:trigger SameLeg(a[x], b[x])} :: x in a ==> SameLeg(a[x], b[x])
  }

  lemma SameLegsUnlink(s: State, r: State, id: LegId)
    requires Involution(s.legs) && Involution(r.legs) && id in s.legs && SameLegs(s.legs, r.legs)
    ensures SameLegs(Unlink(s, id).legs, Unlink(r, id).legs)
  {
    UnlinkOnly(s, id);
    UnlinkOnly(r, id);
    assert SameLeg(s.legs[id], r.legs[id]);
    forall x | x in s.legs ensures SameLeg(Unlink(s, id).legs[x], Unlink(r, id).legs[x]) {
      assert SameLeg(s.legs[x], r.legs[x]);
    }
  }

  lemma SameLegsDropped(s: State, r: State, id: LegId)
    requires id in s.legs && SameLegs(s.legs, r.legs)
    ensures Dropped(s, id) == Dropped(r, id)
  {
    assert SameLeg(s.legs[id], r.legs[id]);
    if s.legs[id].bridgedWith.Some? && s.legs[id].bridgedWith.value in s.legs {
      assert SameLeg(s.legs[s.legs[id].bridgedWith.value], r.legs[s.legs[id].bridgedWith.value]);
    }
  }

  /** What cancels itself does not depend on client states and command ids. */
  lemma CancelsItselfTweaked(s: State, r: State, id: LegId)
    requires Inv(s) && Inv(r) && id in s.legs && SameLegs(s.legs, r.legs)
    ensures CancelsItself(s, id) <==> CancelsItself(r, id)
  {
    assert SameLeg(s.legs[id], r.legs[id]);
    SameLegsUnlink(s, r, id);
    SameLegsDropped(s, r, id);
    if Dropped(s, id).Some? {
      forall D { SameDrags(Unlink(s, id).legs, Unlink(r, id).legs, {Dropped(s, id).value}, D); }
    }
  }

  lemma SameDrags(a: map<LegId, Leg>, b: map<LegId, Leg>, roots: set<LegId>, D: set<LegId>)
    requires SameLegs(a, b)
    ensures LeastClosed(a, roots, D) <==> LeastClosed(b, roots, D)
  {
    forall x, y ensures Drags(a, x, y) <==> Drags(b, x, y) {
      if x in a && y in a { assert SameLeg(a[x], b[x]) && SameLeg(a[y], b[y]); }
    }
    assert forall S :: Closed(a, S) <==> Closed(b, S);
  }

  /** The one command that can orphan a target. */
  ghost predicate OrphansItsTarget(s: State, op: Op) {
    && op.PostAction? && op.action.TransferTo? && op.action.to != ""
    && op.id in s.legs && s.legs[op.id].state != Ended
    && !(op.commandId != "" && op.commandId in s.legs[op.id].commandIds)
    && CancelsItself(s, op.id)
  }

  lemma TransferCommandOrphans(s: State, s1: State, id: LegId, clientState: Option<string>,
                               targetClientState: Option<string>)
    requires Inv(s) && Inv(s1) && NoOrphans(s1.legs) && id in s.legs && s.legs[id].state != Ended
    requires s1 == SetClientState(s, id, clientState)
    ensures NoOrphans(TransferLeg(s1, id, targetClientState).legs) <==> !CancelsItself(s, id)
  {
    hide Inv, NoOrphans, CancelsItself, TransferLeg;
    TransferOrphans(s1, id, targetClientState);
    forall x | x in s.legs ensures SameLeg(s.legs[x], s1.legs[x]) {}
    CancelsItselfTweaked(s, s1, id);
  }

  lemma RunActionNoOrphans(s: State, id: LegId, action: Action, clientState: Option<string>)
    requires Inv(s) && NoOrphans(s.legs) && id in s.legs && s.legs[id].state != Ended
    ensures NoOrphans(RunAction(s, id, action, clientState).next.legs)
       <==> !(action.TransferTo? && action.to != "" && CancelsItself(s, id))
  {
    hide Inv, EndLeg, Unbridge, Bridge, CancelsItself, NoOrphans;
    var r := RunAction(s, id, action, clientState).next;
    var s1 := SetClientState(s, id, clientState);
    ClientStateKeeps(s, id, clientState);
    OneLegNoOrphans(s, s1, id, s1.legs[id]);
    match action
    case AnswerCommand => if r != s { OneLegNoOrphans(s, r, id, r.legs[id]); }
    case Reject(cause) => EndLegNoOrphans(s, id, cause);
    case HangUp =>
      EndLegNoOrphans(s1, id, "originator_cancel");
      EndLegNoOrphans(s1, id, "normal_clearing");
    case BridgeTo(partner, parkSelf) =>
      if partner in s.legs && r != s {
        var s2 := SetLeg(s1, id, s1.legs[id].(parkAfterUnbridge := parkSelf));
        TweakKeeps(s1, id, s2.legs[id]);
        OneLegNoOrphans(s1, s2, id, s2.legs[id]);
        BridgeNoOrphans(s2, id, partner);
      }
    case TransferTo(to, targetClientState) => TransferCommandOrphans(s, s1, id, clientState, targetClientState);
    case PlayMedia(family) => if r != s { OneLegNoOrphans(s, r, id, r.legs[id]); }
    case RecordStart => if r != s { OneLegNoOrphans(s, r, id, r.legs[id]); }
    case RecordStop => OneLegNoOrphans(s, r, id, r.legs[id]);
    case OtherAction =>
  }

  lemma PostActionNoOrphans(s: State, op: Op)
    requires Inv(s) && NoOrphans(s.legs) && op.PostAction?
    ensures NoOrphans(Perform(s, op).next.legs) <==> !OrphansItsTarget(s, op)
  {
    hide Inv, RunAction, NoOrphans, CancelsItself;
    var id := op.id;
    if id in s.legs && s.legs[id].state != Ended && !(op.commandId != "" && op.commandId in s.legs[id].commandIds) {
      var leg := s.legs[id].(commandIds := s.legs[id].commandIds + {op.commandId});
      TweakKeeps(s, id, leg);
      var s1 := if op.commandId == "" then s else SetLeg(s, id, leg);
      OneLegNoOrphans(s, s1, id, s1.legs[id]);
      RunActionNoOrphans(s1, id, op.action, op.clientState);
      forall x | x in s.legs ensures SameLeg(s.legs[x], s1.legs[x]) {}
      CancelsItselfTweaked(s, s1, id);
    }
  }

  lemma FarEndAnswerNoOrphans(s: State, id: LegId)
    requires Inv(s) && NoOrphans(s.legs)
    ensures NoOrphans(FarEndAnswer(s, id).next.legs)
  {
    hide Inv, Bridge;
    if !FarEndThrows(s, id) && s.legs[id].direction == Outgoing && s.legs[id].state == Ringing {
      var s1 := AnswerLeg(s, id, None);
      AnswerLegKeeps(s, id, None);
      OneLegNoOrphans(s, s1, id, s1.legs[id]);
      if s.legs[id].transferOf.Some? && s.legs[id].transferOf.value in s1.legs {
        BridgeNoOrphans(s1, s.legs[id].transferOf.value, id);
      }
    }
  }

  /** Every operation but that one leaves no orphans where there were none, and
      that one always leaves one. */
  lemma PerformNoOrphans(s: State, op: Op)
    requires Inv(s) && NoOrphans(s.legs)
    ensures NoOrphans(Perform(s, op).next.legs) <==> !OrphansItsTarget(s, op)
  {
    hide Inv, EndLeg, RunAction, NoOrphans;
    match op
    case FarEndDials => NewLegFresh(s); NewLegNoOrphans(s, FarEnd, Incoming, None, None);
    case FarEndAnswers(id) => FarEndAnswerNoOrphans(s, id);
    case FarEndHangsUp(id, cause) => if id in s.legs { EndLegNoOrphans(s, id, cause); }
    case RingsOut(id) => if id in s.legs { EndLegNoOrphans(s, id, "timeout"); }
    case Declines(id) => if id in s.legs { EndLegNoOrphans(s, id, "call_rejected"); }
    case LeavesMessage(id, seconds) =>
      if !FarEndThrows(s, id) {
        var s1 := SetLeg(s, id, s.legs[id].(messageSeconds := seconds));
        TweakKeeps(s, id, s1.legs[id]);
        OneLegNoOrphans(s, s1, id, s1.legs[id]);
        EndLegNoOrphans(s1, id, "normal_clearing");
      }
    case PostCalls(valid, commandId, clientState) => NewLegFresh(s); NewLegNoOrphans(s, Dial, Outgoing, clientState, None);
    case PostAction(_, _, _, _) => PostActionNoOrphans(s, op);
    case DeleteRecording(_) =>
    case TakeEvent =>
    case ResetCalls => NobodyNoOrphans();
  }

  lemma NewLegFresh(s: State)
    requires Inv(s)
    ensures s.nextId !in s.legs
  {
    FreshId(s);
  }

  lemma NobodyNoOrphans()
    ensures NoOrphans(map[])
  {
  }

  /** After the first `k` operations no target is orphaned. */
  ghost predicate OrphanFreeAt(ops: seq<Op>, k: nat)
    requires k <= |ops|
  {
    NoOrphans(After(ops[..k]).legs)
  }

  /** Operation `k` is not a transfer that cancels its own leg. */
  ghost predicate SparesLegAt(ops: seq<Op>, k: nat)
    requires k < |ops|
  {
    !OrphansItsTarget(After(ops[..k]), ops[k])
  }

  lemma OrphanFreeStep(ops: seq<Op>, k: nat)
    requires k < |ops| && OrphanFreeAt(ops, k)
    ensures OrphanFreeAt(ops, k + 1) <==> SparesLegAt(ops, k)
  {
    hide Inv, NoOrphans, OrphansItsTarget, Perform;
    Reached(ops[..k]);
    assert ops[..k + 1] == ops[..k] + [ops[k]];
    RunStep(INITIAL, ops[..k], ops[k]);
    PerformNoOrphans(After(ops[..k]), ops[k]);
  }

  lemma {:induction false} OrphanFreeUpTo(ops: seq<Op>, n: nat)
    requires n <= |ops|
    ensures (forall k {:trigger OrphanFreeAt(ops, k)} :: 0 <= k <= n ==> OrphanFreeAt(ops, k))
       <==> (forall k {:trigger SparesLegAt(ops, k)} :: 0 <= k < n ==> SparesLegAt(ops, k))
  {
    hide OrphanFreeAt, SparesLegAt;
    if n == 0 {
      NobodyOrphaned(ops);
    } else {
      OrphanFreeUpTo(ops, n - 1);
      if OrphanFreeAt(ops, n - 1) { OrphanFreeStep(ops, n - 1); }
    }
  }

  lemma NobodyOrphaned(ops: seq<Op>)
    ensures OrphanFreeAt(ops, 0)
  {
  }

  /** Over every run: no target ever rings for a leg that is over if and only if
      no transfer of the run cancels its own leg. */
  lemma OrphanFreeRuns(ops: seq<Op>)
    ensures (forall k {:trigger OrphanFreeAt(ops, k)} :: 0 <= k <= |ops| ==> OrphanFreeAt(ops, k))
       <==> (forall k {:trigger SparesLegAt(ops, k)} :: 0 <= k < |ops| ==> SparesLegAt(ops, k))
  {
    OrphanFreeUpTo(ops, |ops|);
  }

  /** A transfer of a leg that has been answered, if it finds its leg at all. */
  ghost predicate TransfersAnswered(s: State, op: Op) {
    op.PostAction? && op.action.TransferTo? && op.id in s.legs ==> s.legs[op.id].state != Ringing
  }

  /** A run whose transfers are all of answered legs never orphans a target. */
  lemma AnsweredTransfersAreSafe(ops: seq<Op>, k: nat)
    requires k <= |ops| && forall i :: 0 <= i < |ops| ==> TransfersAnswered(After(ops[..i]), ops[i])
    ensures NoOrphans(After(ops[..k]).legs)
  {
    forall i | 0 <= i < |ops| ensures SparesLegAt(ops, i) { assert TransfersAnswered(After(ops[..i]), ops[i]); }
    OrphanFreeRuns(ops);
    assert OrphanFreeAt(ops, k);
  }

  // ----------------------------------------------------------- counterexample

  /** Three commands after a call comes in: transfer it, bridge the ringing target
      to it, transfer the target. */
  const SELF_CANCELLING: seq<Op> := [
    FarEndDials,
    PostAction(0, TransferTo("a", None), "", None),
    PostAction(1, BridgeTo(0, false), "", None),
    PostAction(1, TransferTo("b", None), "", None)]

  lemma CallTransferred()
    ensures var s := After(SELF_CANCELLING[..2]);
            && s.legs.Keys == {0, 1}
            && s.legs[0] == NewLeg(FarEnd, Incoming, None, None)
            && s.legs[1] == NewLeg(Transfer, Outgoing, None, Some(0))
  {
    var ops := SELF_CANCELLING;
    RunStep(INITIAL, [], ops[0]);
    RunStep(INITIAL, ops[..1], ops[1]);
    assert ops[..1] == [] + [ops[0]] && ops[..2] == ops[..1] + [ops[1]];
    assert After(ops[..1]) == CreateLeg(INITIAL, FarEnd, Incoming, None, None);
  }

  lemma TargetBridgedToOrigin()
    ensures var s := After(SELF_CANCELLING[..3]);
            && s.legs.Keys == {0, 1}
            && s.legs[0] == NewLeg(FarEnd, Incoming, None, None).(bridgedWith := Some(1))
            && s.legs[1] == NewLeg(Transfer, Outgoing, None, Some(0)).(bridgedWith := Some(0))
  {
    var ops := SELF_CANCELLING;
    CallTransferred();
    RunStep(INITIAL, ops[..2], ops[2]);
    assert ops[..3] == ops[..2] + [ops[2]];
  }

  /** A target bridged to the leg it still rings for would cancel itself. */
  lemma BridgedToOriginCancels(s: State, id: LegId, origin: LegId)
    requires Inv(s) && RingsFor(s.legs, id, origin) && s.legs[id].bridgedWith == Some(origin)
    requires origin in s.legs && origin != id && !s.legs[origin].parkAfterUnbridge
    ensures CancelsItself(s, id)
  {
    assert Paired(s.legs, id);
    var u, r, R, D := UnbridgeEnds(s, id);
    assert R == {origin} && origin in D;
    assert LeastClosed(Unlink(s, id).legs, {Dropped(s, id).value}, D);
  }

  lemma LastTransferOrphans(ops: seq<Op>, to: string)
    requires |ops| == 4 && ops[3] == PostAction(1, TransferTo(to, None), "", None) && to != ""
    requires var s := After(ops[..3]);
             && s.legs.Keys == {0, 1}
             && s.legs[0] == NewLeg(FarEnd, Incoming, None, None).(bridgedWith := Some(1))
             && s.legs[1] == NewLeg(Transfer, Outgoing, None, Some(0)).(bridgedWith := Some(0))
    ensures !NoOrphans(After(ops).legs)
  {
    hide Run, CancelsItself, Inv;
    var s := After(ops[..3]);
    Reached(ops[..3]);
    BridgedToOriginCancels(s, 1, 0);
    forall t, o | RingsFor(s.legs, t, o) ensures o == 0 { assert t in {0, 1}; }
    OrphanFreeStep(ops, 3);
    assert ops[..4] == ops;
  }

  /** The unrestricted promise fails: the last transfer ends its own leg, because
      splitting its bridge hangs up the leg it is still ringing for. */
  lemma TransferCanOrphan()
    ensures exists ops :: !NoOrphans(After(ops).legs)
  {
    hide Run;
    TargetBridgedToOrigin();
    LastTransferOrphans(SELF_CANCELLING, "b");
  }
}
