/** The mutable call switch: the closure state of `createVoiceModel` and the legs
    it shares by reference, each method proved against `VoiceSpec`. */
module VoiceModel {
  import opened Wrappers
  import S = VoiceSpec

  class FakeLeg {
    const id: S.LegId
    const origin: S.Origin
    const direction: S.Direction
    const transferOf: Option<S.LegId>
    var clientState: Option<string>
    var state: S.LegState
    var bridgedWith: Option<S.LegId>
    var parkAfterUnbridge: bool
    var hangupCause: Option<string>
    var recording: Option<S.RecordingId>
    var messageSeconds: nat
    var commandIds: set<string>

    constructor (id: S.LegId, origin: S.Origin, direction: S.Direction, clientState: Option<string>,
                 transferOf: Option<S.LegId>)
      ensures this.id == id && Value() == S.NewLeg(origin, direction, clientState, transferOf)
    {
      this.id := id;
      this.origin := origin;
      this.direction := direction;
      this.clientState := clientState;
      this.transferOf := transferOf;
      state := S.Ringing;
      bridgedWith := None;
      parkAfterUnbridge := false;
      hangupCause := None;
      recording := None;
      messageSeconds := 0;
      commandIds := {};
    }

    ghost function Value(): S.Leg
      reads this
    {
      S.Leg(origin, direction, clientState, state, bridgedWith, parkAfterUnbridge, transferOf,
            hangupCause, recording, messageSeconds, commandIds)
    }
  }

  class VoiceModel {
    var legs: map<S.LegId, FakeLeg>
    var order: seq<S.LegId>
    var outbox: seq<S.Event>
    var recordings: map<S.RecordingId, S.Recording>
    var dialsByCommandId: map<string, S.LegId>
    var ledger: S.Ledger
    var nextId: nat
    ghost var history: seq<S.Event>

    ghost predicate Valid()
      reads this, legs.Values
    {
      && (forall id :: id in legs ==> legs[id].id == id)
      && S.Lists(order, legs.Keys)
      && (forall id :: id in legs ==> id < nextId)
    }

    ghost function Values(): (m: map<S.LegId, S.Leg>)
      reads this`legs, legs.Values
      ensures m.Keys == legs.Keys
    {
      map id | id in legs :: legs[id].Value()
    }

    ghost function Abs(): S.State
      reads this, legs.Values
    {
      S.State(Values(), order, outbox, history, recordings,
              dialsByCommandId, ledger, nextId)
    }

    /** The leg is one of the switch's own. */
    ghost predicate Has(leg: FakeLeg)
      reads this
    {
      leg.id in legs && legs[leg.id] == leg
    }

    /** One leg's record changed, and with it one entry of the legs' values. */
    twostate lemma LegChanged(leg: FakeLeg)
      requires old(Valid()) && legs == old(legs) && Has(leg)
      requires forall id :: id in legs && id != leg.id ==> legs[id].Value() == old(legs[id].Value())
      ensures Values() == old(Values())[leg.id := leg.Value()]
    {
    }

    constructor ()
      ensures Valid() && Abs() == S.INITIAL
    {
      legs, order, outbox, recordings := map[], [], [], map[];
      dialsByCommandId, ledger, nextId := map[], S.EMPTY_LEDGER, 0;
      history := [];
    }

    method Emit(e: S.Event)
      requires Valid()
      modifies this`outbox, this`history
      ensures Valid() && Abs() == S.Emit(old(Abs()), e)
    {
      outbox := outbox + [e];
      history := history + [e];
    }

    /** The walk of `liveLegs` and the count `notePeaks` takes of it. */
    method CountLive() returns (live: nat, outbound: nat)
      requires Valid()
      ensures live == |S.Live(Abs())| && outbound == |S.LiveOutbound(Abs())|
    {
      hide S.Lists, S.Among;
      live, outbound := 0, 0;
      ghost var all, out := S.Live(Abs()), S.LiveOutbound(Abs());
      S.AmongAll(order, legs.Keys, all);
      S.AmongAll(order, legs.Keys, out);
      for k := 0 to |order|
        invariant live == |S.Among(order, k, all)| && outbound == |S.Among(order, k, out)|
      {
        S.ListedAt(order, legs.Keys, k);
        S.AmongNext(order, k, all);
        S.AmongNext(order, k, out);
        var leg := legs[order[k]];
        if leg.state != S.Ended {
          live := live + 1;
          if leg.origin != S.FarEnd {
            outbound := outbound + 1;
          }
        }
      }
    }

    method NotePeaks()
      requires Valid()
      modifies this`ledger
      ensures Valid() && Abs() == S.NotePeaks(old(Abs()))
    {
      hide S.Live, S.LiveOutbound, S.Lists;
      var live, outbound := CountLive();
      ledger := ledger.(
        peakLegs := if ledger.peakLegs >= live then ledger.peakLegs else live,
        peakOutbound := if ledger.peakOutbound >= outbound then ledger.peakOutbound else outbound);
    }

    method CreateLeg(origin: S.Origin, direction: S.Direction, clientState: Option<string>,
                     transferOf: Option<S.LegId>) returns (leg: FakeLeg)
      requires Valid()
      modifies this
      ensures Valid() && fresh(leg) && leg.id == old(nextId) && legs == old(legs)[leg.id := leg]
      ensures Abs() == S.CreateLeg(old(Abs()), origin, direction, clientState, transferOf)
    {
      hide S.Lists, S.Live, S.LiveOutbound;
      leg := new FakeLeg(nextId, origin, direction, clientState, transferOf);
      Register(leg);
      NotePeaks();
      Emit(S.CallInitiated(leg.id, direction));
    }

    /** `createLeg` up to `notePeaks`: the leg joins the map and the count. */
    method Register(leg: FakeLeg)
      requires Valid() && leg.id == nextId
      modifies this`legs, this`order, this`nextId, this`ledger
      ensures Valid() && legs == old(legs)[leg.id := leg] && nextId == old(nextId) + 1
      ensures order == old(order) + [leg.id] && ledger == S.CountLeg(old(ledger), leg.origin)
      ensures Values() == old(Values())[leg.id := leg.Value()]
    {
      hide S.Lists;
      legs := legs[leg.id := leg];
      order := order + [leg.id];
      nextId := nextId + 1;
      ledger := if leg.origin == S.FarEnd then ledger.(farEndLegs := ledger.farEndLegs + 1)
                else ledger.(dials := ledger.dials + 1);
      S.ListsMore(old(order), old(legs.Keys), leg.id);
      assert legs.Keys == old(legs.Keys) + {leg.id};
      assert forall id :: id in old(legs) ==> legs[id] == old(legs[id]) && legs[id].Value() == old(legs[id].Value());
    }

    method SaveRecording(leg: FakeLeg)
      requires Valid() && Has(leg)
      modifies this`outbox, this`history, this`recordings, leg`recording
      ensures Valid() && Abs() == S.SaveRecording(old(Abs()), leg.id)
    {
      hide S.Lists, S.Live;
      if leg.recording.Some? {
        var rec := leg.recording.value;
        leg.recording := None;
        recordings := recordings[rec := S.Recording(leg.id, false)];
        LegChanged(leg);
        Emit(S.RecordingSaved(leg.id, rec, leg.messageSeconds));
      }
    }

    /** The two assignments of `unbridge`; the partner it has to hang up, if any. */
    method Part(leg: FakeLeg) returns (dropped: FakeLeg?)
      requires Valid() && Has(leg)
      modifies legs.Values
      ensures Valid() && Abs() == S.Unlink(old(Abs()), leg.id)
      ensures dropped != null ==> Has(dropped) && S.Dropped(old(Abs()), leg.id) == Some(dropped.id)
      ensures dropped == null ==> S.Dropped(old(Abs()), leg.id) == None
    {
      hide S.Lists, S.Live, S.LiveOutbound;
      dropped := null;
      ghost var before := Abs();
      if leg.bridgedWith.Some? {
        var partnerId := leg.bridgedWith.value;
        leg.bridgedWith := None;
        LegChanged(leg);
        ghost var half := Abs();
        assert half == S.SetLeg(before, leg.id, before.legs[leg.id].(bridgedWith := None));
        if partnerId in legs && legs[partnerId].bridgedWith == Some(leg.id) {
          var partner := legs[partnerId];
          label parted:
          partner.bridgedWith := None;
          LegChanged@parted(partner);
          assert Abs() == S.SetLeg(half, partnerId, half.legs[partnerId].(bridgedWith := None));
          if partner.state != S.Ended && !partner.parkAfterUnbridge {
            dropped := partner;
          }
        }
      }
    }

    method Unbridge(leg: FakeLeg)
      requires Valid() && Has(leg)
      modifies this`outbox, this`history, this`recordings, legs.Values
      ensures Valid() && Abs() == S.Unbridge(old(Abs()), leg.id)
      decreases S.Live(Abs()), 2, 0
    {
      var dropped := Part(leg);
      if dropped != null {
        EndLeg(dropped, "normal_clearing");
      }
    }

    /** `endLeg` up to the cascade. */
    method MarkEnded(leg: FakeLeg, cause: string)
      requires Valid() && Has(leg)
      modifies this`outbox, this`history, this`recordings, leg
      ensures Valid() && Abs() == S.MarkEnded(old(Abs()), leg.id, cause)
    {
      leg.state := S.Ended;
      leg.hangupCause := Some(cause);
      LegChanged(leg);
      Emit(S.CallHangup(leg.id, cause));
      SaveRecording(leg);
    }

    method EndLeg(leg: FakeLeg, cause: string)
      requires Valid() && Has(leg)
      modifies this`outbox, this`history, this`recordings, legs.Values
      ensures Valid() && Abs() == S.EndLeg(old(Abs()), leg.id, cause)
      decreases S.Live(Abs()), 1, 0
    {
      hide S.MarkEnded, S.Unbridge, S.EndPending, S.Lists;
      if leg.state == S.Ended { return; }
      assert leg.id in S.Live(Abs());
      MarkEnded(leg, cause);
      Unbridge(leg);
      CancelPending(leg);
    }

    /** The loop of `endLeg`: the transfer targets still ringing for the leg. */
    method CancelPending(leg: FakeLeg)
      requires Valid() && Has(leg)
      modifies this`outbox, this`history, this`recordings, legs.Values
      ensures Valid() && Abs() == S.EndPending(old(Abs()), leg.id, 0)
      decreases S.Live(Abs()), 3, 0
    {
      hide S.EndPending, S.EndLeg, S.Live, S.Lists, S.CancelIfRinging;
      ghost var before := Abs();
      for k := 0 to |order|
        invariant Valid() && Abs().order == before.order
        invariant S.Live(Abs()) <= S.Live(before)
        invariant S.EndPending(Abs(), leg.id, k) == S.EndPending(before, leg.id, 0)
      {
        ghost var s := Abs();
        S.ListedAt(order, legs.Keys, k);
        CancelOne(leg, legs[order[k]]);
        S.EndPendingStep(s, Abs(), leg.id, k);
      }
      S.EndPendingDone(Abs(), leg.id);
    }

    method CancelOne(leg: FakeLeg, pending: FakeLeg)
      requires Valid() && Has(leg) && Has(pending)
      modifies this`outbox, this`history, this`recordings, legs.Values
      ensures Valid() && Abs() == S.CancelIfRinging(old(Abs()), leg.id, pending.id)
      decreases S.Live(Abs()), 2, 0
    {
      if pending.transferOf == Some(leg.id) && pending.state == S.Ringing {
        EndLeg(pending, "originator_cancel");
      }
    }

    method Bridge(leg: FakeLeg, partner: FakeLeg)
      requires Valid() && Has(leg) && Has(partner)
      modifies this`outbox, this`history, this`recordings, legs.Values
      ensures Valid() && Abs() == S.Bridge(old(Abs()), leg.id, partner.id)
    {
      hide S.Lists, S.Live, S.Unbridge;
      if leg.bridgedWith == Some(partner.id) { return; }
      Unbridge(leg);
      Unbridge(partner);
      if leg.state == S.Ended || partner.state == S.Ended { return; }
      Join(leg, partner);
      Emit(S.CallBridged(leg.id));
      Emit(S.CallBridged(partner.id));
    }

    method Join(leg: FakeLeg, partner: FakeLeg)
      requires Valid() && Has(leg) && Has(partner)
      modifies leg`bridgedWith, partner`bridgedWith
      ensures Valid() && Abs() == S.Join(old(Abs()), leg.id, partner.id)
    {
      hide S.Lists, S.Live;
      leg.bridgedWith := Some(partner.id);
      LegChanged(leg);
      label half:
      partner.bridgedWith := Some(leg.id);
      LegChanged@half(partner);
    }

    method SetClientState(leg: FakeLeg, clientState: Option<string>)
      requires Valid() && Has(leg)
      modifies leg`clientState
      ensures Valid() && Abs() == S.SetClientState(old(Abs()), leg.id, clientState)
    {
      hide S.Lists, S.Live;
      if clientState.Some? {
        leg.clientState := clientState;
        LegChanged(leg);
      }
    }

    method AnswerLeg(leg: FakeLeg, clientState: Option<string>)
      requires Valid() && Has(leg)
      modifies this`outbox, this`history, leg
      ensures Valid() && Abs() == S.AnswerLeg(old(Abs()), leg.id, clientState)
    {
      hide S.Lists, S.Live;
      SetClientState(leg, clientState);
      label noted:
      leg.state := S.Answered;
      LegChanged@noted(leg);
      Emit(S.CallAnswered(leg.id));
    }

    // ------------------------------------------------------------ the far end

    method Answer(id: S.LegId) returns (reply: S.Reply)
      requires Valid()
      modifies this`outbox, this`history, this`recordings, legs.Values
      ensures Valid() && S.Outcome(Abs(), reply) == S.FarEndAnswer(old(Abs()), id)
    {
      hide S.Lists, S.Live, S.Bridge;
      if id !in legs || legs[id].state == S.Ended { return S.Throws; }
      var leg := legs[id];
      if leg.direction != S.Outgoing { return S.Throws; }
      if leg.state == S.Answered { return S.Okay; }
      AnswerLeg(leg, None);
      if leg.transferOf.Some? {
        var o := leg.transferOf.value;
        if o in legs && legs[o].state != S.Ended {
          Bridge(legs[o], leg);
        }
      }
      reply := S.Okay;
    }

    /** `hangup`, and with `onlyRinging` the body `ringOut` and `decline` share. */
    method HangUpFarEnd(id: S.LegId, cause: string, onlyRinging: bool) returns (reply: S.Reply)
      requires Valid()
      modifies this`outbox, this`history, this`recordings, legs.Values
      ensures Valid()
      ensures S.Outcome(Abs(), reply)
           == if S.FarEndThrows(old(Abs()), id) || (onlyRinging && old(Abs()).legs[id].state != S.Ringing)
              then S.Outcome(old(Abs()), S.Throws)
              else S.Outcome(S.EndLeg(old(Abs()), id, cause), S.Okay)
    {
      hide S.Lists, S.Live, S.EndLeg;
      if id !in legs || legs[id].state == S.Ended { return S.Throws; }
      if onlyRinging && legs[id].state != S.Ringing { return S.Throws; }
      EndLeg(legs[id], cause);
      reply := S.Okay;
    }

    method LeaveMessage(id: S.LegId, seconds: nat) returns (reply: S.Reply)
      requires Valid()
      modifies this`outbox, this`history, this`recordings, legs.Values
      ensures Valid() && S.Outcome(Abs(), reply) == S.Perform(old(Abs()), S.LeavesMessage(id, seconds))
    {
      hide S.Lists, S.Live, S.EndLeg;
      if id !in legs || legs[id].state == S.Ended { return S.Throws; }
      var leg := legs[id];
      if leg.recording.None? { return S.Throws; }
      leg.messageSeconds := seconds;
      LegChanged(leg);
      EndLeg(leg, "normal_clearing");
      reply := S.Okay;
    }

    // ------------------------------------------------------------ the commands

    method RunBridge(leg: FakeLeg, partnerId: S.LegId, parkSelf: bool, clientState: Option<string>)
        returns (reply: S.Reply)
      requires Valid() && Has(leg)
      modifies this`outbox, this`history, this`recordings, legs.Values
      ensures Valid()
      ensures S.Outcome(Abs(), reply)
           == S.RunAction(old(Abs()), leg.id, S.BridgeTo(partnerId, parkSelf), clientState)
    {
      hide S.Lists, S.Live, S.Bridge;
      if partnerId !in legs { return S.NotFound; }
      if legs[partnerId].state == S.Ended { return S.AlreadyEnded; }
      SetClientState(leg, clientState);
      label noted:
      leg.parkAfterUnbridge := parkSelf;
      LegChanged@noted(leg);
      Bridge(leg, legs[partnerId]);
      reply := S.Okay;
    }

    method RunTransfer(leg: FakeLeg, to: string, targetClientState: Option<string>, clientState: Option<string>)
        returns (reply: S.Reply)
      requires Valid() && Has(leg)
      modifies this, legs.Values
      ensures Valid()
      ensures S.Outcome(Abs(), reply)
           == S.RunAction(old(Abs()), leg.id, S.TransferTo(to, targetClientState), clientState)
      ensures fresh(legs.Values - old(legs.Values))
    {
      hide S.Lists, S.Live, S.Unbridge, S.CreateLeg;
      if to == "" { return S.Unprocessable; }
      SetClientState(leg, clientState);
      Unbridge(leg);
      var _ := CreateLeg(S.Transfer, S.Outgoing, targetClientState, Some(leg.id));
      reply := S.Okay;
    }

    method RunHangUp(leg: FakeLeg, clientState: Option<string>) returns (reply: S.Reply)
      requires Valid() && Has(leg)
      modifies this`outbox, this`history, this`recordings, legs.Values
      ensures Valid() && S.Outcome(Abs(), reply) == S.RunAction(old(Abs()), leg.id, S.HangUp, clientState)
    {
      hide S.Lists, S.Live, S.EndLeg;
      SetClientState(leg, clientState);
      EndLeg(leg, if leg.state == S.Ringing && leg.direction == S.Outgoing then "originator_cancel" else "normal_clearing");
      reply := S.Okay;
    }

    /** A fresh recording, even over one still open. */
    method OpenRecording(leg: FakeLeg)
      requires Valid() && Has(leg)
      modifies this`nextId, leg`recording
      ensures Valid() && Abs() == S.OpenRecording(old(Abs()), leg.id)
    {
      hide S.Lists, S.Live;
      leg.recording := Some(nextId);
      LegChanged(leg);
      nextId := nextId + 1;
    }

    /** Media start and end at once. */
    method Play(leg: FakeLeg, family: S.Family)
      requires Valid()
      modifies this`outbox, this`history
      ensures Valid() && Abs() == S.Emit(S.Emit(old(Abs()), S.MediaStarted(leg.id, family)), S.MediaEnded(leg.id, family))
    {
      Emit(S.MediaStarted(leg.id, family));
      Emit(S.MediaEnded(leg.id, family));
    }

    method RunAction(leg: FakeLeg, action: S.Action, clientState: Option<string>) returns (reply: S.Reply)
      requires Valid() && Has(leg)
      modifies this, legs.Values
      ensures Valid() && S.Outcome(Abs(), reply) == S.RunAction(old(Abs()), leg.id, action, clientState)
      ensures fresh(legs.Values - old(legs.Values))
    {
      hide S.Lists, S.Live, S.EndLeg, S.Bridge, S.TransferLeg;
      reply := S.Okay;
      match action
      case AnswerCommand =>
        if leg.direction != S.Incoming || leg.state != S.Ringing { return S.Unprocessable; }
        AnswerLeg(leg, clientState);
      case Reject(cause) =>
        if leg.direction != S.Incoming || leg.state != S.Ringing { return S.Unprocessable; }
        EndLeg(leg, cause);
      case HangUp => reply := RunHangUp(leg, clientState);
      case BridgeTo(partner, parkSelf) => reply := RunBridge(leg, partner, parkSelf, clientState);
      case TransferTo(to, targetClientState) => reply := RunTransfer(leg, to, targetClientState, clientState);
      case PlayMedia(family) =>
        if leg.state != S.Answered { return S.Unprocessable; }
        SetClientState(leg, clientState);
        Play(leg, family);
      case RecordStart =>
        if leg.state != S.Answered { return S.Unprocessable; }
        SetClientState(leg, clientState);
        OpenRecording(leg);
      case RecordStop => SaveRecording(leg);
      case OtherAction => SetClientState(leg, clientState);
    }

    method NoteCommand(leg: FakeLeg, commandId: string)
      requires Valid() && Has(leg)
      modifies leg`commandIds
      ensures Valid()
      ensures Abs() == S.SetLeg(old(Abs()), leg.id, old(Abs()).legs[leg.id].(
                                  commandIds := old(leg.commandIds) + {commandId}))
    {
      hide S.Lists, S.Live;
      leg.commandIds := leg.commandIds + {commandId};
      LegChanged(leg);
    }

    /** An action whose command id, if it has one, the leg has not seen. */
    method RunOnce(leg: FakeLeg, action: S.Action, commandId: string, clientState: Option<string>)
        returns (reply: S.Reply)
      requires Valid() && Has(leg)
      modifies this, legs.Values
      ensures Valid()
      ensures S.Outcome(Abs(), reply) == S.RunAction(S.Noted(old(Abs()), leg.id, commandId), leg.id, action, clientState)
      ensures fresh(legs.Values - old(legs.Values))
    {
      hide S.Lists, S.Live, S.RunAction, S.SetLeg;
      if commandId != "" {
        NoteCommand(leg, commandId);
      }
      reply := RunAction(leg, action, clientState);
    }

    /** POST /v2/calls/:id/actions/:action. */
    method PostAction(id: S.LegId, action: S.Action, commandId: string, clientState: Option<string>)
        returns (reply: S.Reply)
      requires Valid()
      modifies this, legs.Values
      ensures Valid()
      ensures S.Outcome(Abs(), reply) == S.PostActionOn(old(Abs()), id, action, commandId, clientState)
      ensures fresh(legs.Values - old(legs.Values))
    {
      hide S.Lists, S.Live, S.RunAction, S.Noted;
      if id !in legs { return S.NotFound; }
      var leg := legs[id];
      if leg.state == S.Ended { return S.AlreadyEnded; }
      if commandId != "" && commandId in leg.commandIds { return S.Okay; }
      reply := RunOnce(leg, action, commandId, clientState);
    }

    /** A dial: the leg its command id already made, or a new one. */
    method Dial(commandId: string, clientState: Option<string>) returns (reply: S.Reply)
      requires Valid()
      modifies this
      ensures Valid() && S.Outcome(Abs(), reply) == S.PostCall(old(Abs()), commandId, clientState)
      ensures fresh(legs.Values - old(legs.Values))
    {
      hide S.Lists, S.Live, S.NotePeaks;
      var leg: FakeLeg;
      var replayed := commandId != "" && commandId in dialsByCommandId && dialsByCommandId[commandId] in legs;
      if replayed {
        leg := legs[dialsByCommandId[commandId]];
      } else {
        leg := CreateLeg(S.Dial, S.Outgoing, clientState, None);
      }
      hide S.CreateLeg;
      if commandId != "" {
        dialsByCommandId := dialsByCommandId[commandId := leg.id];
      }
      reply := S.Dialled(leg.id, replayed, leg.state != S.Ended);
    }

    /** POST /v2/calls. */
    method PostCalls(valid: bool, commandId: string, clientState: Option<string>) returns (reply: S.Reply)
      requires Valid()
      modifies this
      ensures Valid()
      ensures S.Outcome(Abs(), reply) == S.Perform(old(Abs()), S.PostCalls(valid, commandId, clientState))
      ensures fresh(legs.Values - old(legs.Values))
    {
      hide S.Lists, S.Live, S.PostCall;
      if !valid { return S.Unprocessable; }
      reply := Dial(commandId, clientState);
    }

    method DeleteRecording(rec: S.RecordingId) returns (reply: S.Reply)
      requires Valid()
      modifies this`recordings
      ensures Valid() && S.Outcome(Abs(), reply) == S.Perform(old(Abs()), S.DeleteRecording(rec))
    {
      hide S.Lists, S.Live;
      if rec !in recordings || recordings[rec].deleted { return S.NotFound; }
      recordings := recordings[rec := recordings[rec].(deleted := true)];
      reply := S.Okay;
    }

    method TakeEvent() returns (event: Option<S.Event>)
      requires Valid()
      modifies this`outbox
      ensures Valid() && S.Outcome(Abs(), S.Taken(event)) == S.Perform(old(Abs()), S.TakeEvent)
    {
      hide S.Lists, S.Live;
      if outbox == [] { return None; }
      event := Some(outbox[0]);
      outbox := outbox[1..];
    }

    method ResetCalls()
      modifies this
      ensures Valid() && Abs() == S.Forget(old(Abs()))
    {
      legs, order, outbox, recordings := map[], [], [], map[];
      dialsByCommandId, ledger := map[], S.EMPTY_LEDGER;
      history := [];
    }

    /** One operation on the switch, from a far end, the Worker or the harness: the
        state it leaves and the answer it gets are those of the specification. */
    method Perform(op: S.Op) returns (reply: S.Reply)
      requires Valid()
      modifies this, legs.Values
      ensures Valid() && S.Outcome(Abs(), reply) == S.Perform(old(Abs()), op)
      ensures fresh(legs.Values - old(legs.Values))
    {
      hide S.Lists, S.Live, S.EndLeg, S.CreateLeg;
      reply := S.Okay;
      match op
      case FarEndDials =>
        var leg := CreateLeg(S.FarEnd, S.Incoming, None, None);
        reply := S.Created(leg.id);
      case FarEndAnswers(id) => reply := Answer(id);
      case FarEndHangsUp(id, cause) => reply := HangUpFarEnd(id, cause, false);
      case RingsOut(id) => reply := HangUpFarEnd(id, "timeout", true);
      case Declines(id) => reply := HangUpFarEnd(id, "call_rejected", true);
      case LeavesMessage(id, seconds) => reply := LeaveMessage(id, seconds);
      case PostCalls(valid, commandId, clientState) => reply := PostCalls(valid, commandId, clientState);
      case PostAction(id, action, commandId, clientState) => reply := PostAction(id, action, commandId, clientState);
      case DeleteRecording(rec) => reply := DeleteRecording(rec);
      case TakeEvent =>
        var event := TakeEvent();
        reply := S.Taken(event);
      case ResetCalls => ResetCalls();
    }
  }
}
