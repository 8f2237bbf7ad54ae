/** The call switch of apps/api/e2e/fake-telnyx-voice.ts as values: what every
    operation makes of the state it finds. `VoiceModel.dfy` holds the mutable
    switch and ties each of its methods to a function of this module.

    A UUID is a number drawn from `nextId`, so no id is ever handed out twice.
    `order` is the insertion order of the `legs` map, which is the order the
    switch walks it in. `history` is every event emitted since the last reset;
    `outbox` is what is left of it to deliver. */
module VoiceSpec {
  import opened Wrappers

  type LegId = nat
  type RecordingId = nat

  datatype Origin = FarEnd | Dial | Transfer
  datatype Direction = Incoming | Outgoing
  datatype LegState = Ringing | Answered | Ended

  datatype Leg = Leg(
    origin: Origin,
    direction: Direction,
    clientState: Option<string>,
    state: LegState,
    bridgedWith: Option<LegId>,
    parkAfterUnbridge: bool,
    transferOf: Option<LegId>,
    hangupCause: Option<string>,
    recording: Option<RecordingId>,
    messageSeconds: nat,
    commandIds: set<string>)

  datatype Family = Speak | Playback

  datatype Event =
    | CallInitiated(leg: LegId, direction: Direction)
    | CallAnswered(leg: LegId)
    | CallBridged(leg: LegId)
    | CallHangup(leg: LegId, cause: string)
    | MediaStarted(leg: LegId, family: Family)
    | MediaEnded(leg: LegId, family: Family)
    | RecordingSaved(leg: LegId, recording: RecordingId, seconds: nat)

  datatype Recording = Recording(leg: LegId, deleted: bool)

  datatype Ledger = Ledger(dials: nat, farEndLegs: nat, peakLegs: nat, peakOutbound: nat)

  const EMPTY_LEDGER := Ledger(0, 0, 0, 0)

  datatype State = State(
    legs: map<LegId, Leg>,
    order: seq<LegId>,
    outbox: seq<Event>,
    history: seq<Event>,
    recordings: map<RecordingId, Recording>,
    dialsByCommandId: map<string, LegId>,
    ledger: Ledger,
    nextId: nat)

  const INITIAL := State(map[], [], [], [], map[], map[], EMPTY_LEDGER, 0)

  /** `order` lists the ids of `ids`, each once. */
  ghost predicate Lists(order: seq<LegId>, ids: set<LegId>) {
    && (forall i :: 0 <= i < |order| ==> order[i] in ids)
    && (forall id :: id in ids ==> id in order)
    && (forall i, j :: 0 <= i < j < |order| ==> order[i] != order[j])
  }

  /** The map and its iteration order name the same legs. */
  ghost predicate Indexed(s: State) { Lists(s.order, s.legs.Keys) }

  /** A fresh id is listed once. */
  lemma ListsMore(order: seq<LegId>, ids: set<LegId>, id: LegId)
    requires Lists(order, ids) && id !in ids
    ensures Lists(order + [id], ids + {id})
  {
    var more := order + [id];
    forall x | x in ids + {id} ensures x in more {
      if x == id { assert more[|order|] == x; } else { assert x in order; }
    }
  }

  lemma ListedAt(order: seq<LegId>, ids: set<LegId>, k: nat)
    requires Lists(order, ids) && k < |order|
    ensures order[k] in ids && order[k] !in order[..k]
  {
  }

  /** No two legs have the same recording open. */
  ghost predicate OwnRecordings(legs: map<LegId, Leg>) {
    forall x, y :: x in legs && y in legs && x != y && legs[x].recording.Some? ==> legs[x].recording != legs[y].recording
  }

  ghost function Live(s: State): set<LegId> {
    set id | id in s.legs && s.legs[id].state != Ended
  }

  ghost function LiveOutbound(s: State): set<LegId> {
    set id | id in s.legs && s.legs[id].state != Ended && s.legs[id].origin != FarEnd
  }

  /** The legs of `ids` among the first `k` of the switch's walk. */
  ghost function Among(order: seq<LegId>, k: nat, ids: set<LegId>): set<LegId>
    requires k <= |order|
  {
    set id | id in order[..k] && id in ids
  }

  lemma AmongNext(order: seq<LegId>, k: nat, ids: set<LegId>)
    requires k < |order| && order[k] !in order[..k]
    ensures |Among(order, k + 1, ids)| == |Among(order, k, ids)| + if order[k] in ids then 1 else 0
  {
    assert order[..k + 1] == order[..k] + [order[k]];
    if order[k] in ids {
      assert Among(order, k + 1, ids) == Among(order, k, ids) + {order[k]};
    } else {
      assert Among(order, k + 1, ids) == Among(order, k, ids);
    }
  }

  lemma AmongAll(order: seq<LegId>, all: set<LegId>, ids: set<LegId>)
    requires Lists(order, all) && ids <= all
    ensures Among(order, 0, ids) == {} && Among(order, |order|, ids) == ids
  {
    assert order[..|order|] == order;
  }

  // ---------------------------------------------------------------- helpers

  ghost function Emit(s: State, e: Event): State {
    s.(outbox := s.outbox + [e], history := s.history + [e])
  }

  ghost function SetLeg(s: State, id: LegId, leg: Leg): State {
    s.(legs := s.legs[id := leg])
  }

  ghost function SetClientState(s: State, id: LegId, clientState: Option<string>): State
    requires id in s.legs
  {
    if clientState.Some? then SetLeg(s, id, s.legs[id].(clientState := clientState)) else s
  }

  ghost function Max(a: nat, b: nat): nat { if a >= b then a else b }

  ghost function NotePeaks(s: State): State {
    s.(ledger := s.ledger.(
      peakLegs := Max(s.ledger.peakLegs, |Live(s)|),
      peakOutbound := Max(s.ledger.peakOutbound, |LiveOutbound(s)|)))
  }

  ghost function NewLeg(origin: Origin, direction: Direction, clientState: Option<string>,
                        transferOf: Option<LegId>): Leg {
    Leg(origin, direction, clientState, Ringing, None, false, transferOf, None, None, 0, {})
  }

  ghost function CountLeg(l: Ledger, origin: Origin): Ledger {
    if origin == FarEnd then l.(farEndLegs := l.farEndLegs + 1) else l.(dials := l.dials + 1)
  }

  /** The new leg's id is the `nextId` of the state before. */
  ghost function CreateLeg(s: State, origin: Origin, direction: Direction,
                           clientState: Option<string>, transferOf: Option<LegId>): State {
    var id := s.nextId;
    var s1 := s.(
      legs := s.legs[id := NewLeg(origin, direction, clientState, transferOf)],
      order := s.order + [id],
      ledger := CountLeg(s.ledger, origin),
      nextId := id + 1);
    Emit(NotePeaks(s1), CallInitiated(id, direction))
  }

  // ---------------------------------------------------------------- hang-up

  ghost function SaveRecording(s: State, id: LegId): State
    requires id in s.legs
  {
    match s.legs[id].recording
    case None => s
    case Some(rec) =>
      var leg := s.legs[id];
      Emit(SetLeg(s, id, leg.(recording := None)).(recordings := s.recordings[rec := Recording(id, false)]),
           RecordingSaved(id, rec, leg.messageSeconds))
  }

  /** The part of `endLeg` before the cascade: the leg itself is over. */
  ghost function MarkEnded(s: State, id: LegId, cause: string): (r: State)
    requires id in s.legs
    ensures r.legs.Keys == s.legs.Keys && r.order == s.order
    ensures Live(r) == Live(s) - {id}
  {
    var ended := SetLeg(s, id, s.legs[id].(state := Ended, hangupCause := Some(cause)));
    SaveRecording(Emit(ended, CallHangup(id, cause)), id)
  }

  /** `unbridge` up to the hang-up: both ends of the bridge forget each other. */
  ghost function Unlink(s: State, id: LegId): (r: State)
    requires id in s.legs
    ensures r.legs.Keys == s.legs.Keys && r.order == s.order
    ensures Live(r) == Live(s)
  {
    match s.legs[id].bridgedWith
    case None => s
    case Some(p) =>
      var s1 := SetLeg(s, id, s.legs[id].(bridgedWith := None));
      if p !in s1.legs || s1.legs[p].bridgedWith != Some(id) then s1
      else SetLeg(s1, p, s1.legs[p].(bridgedWith := None))
  }

  /** The partner a split bridge hangs up, if it does: one that still named this
      leg, is not over, and did not ask to be parked. */
  ghost function Dropped(s: State, id: LegId): Option<LegId>
    requires id in s.legs
  {
    match s.legs[id].bridgedWith
    case None => None
    case Some(p) =>
      if p == id || p !in s.legs || s.legs[p].bridgedWith != Some(id) then None
      else if s.legs[p].state == Ended || s.legs[p].parkAfterUnbridge then None
      else Some(p)
  }

  /** The parts of the state a hang-up never touches. */
  ghost predicate SameRegister(s: State, r: State) {
    && r.order == s.order && r.nextId == s.nextId && r.ledger == s.ledger
    && r.dialsByCommandId == s.dialsByCommandId
  }

  ghost function Unbridge(s: State, id: LegId): (r: State)
    requires id in s.legs
    ensures r.legs.Keys == s.legs.Keys && Live(r) <= Live(s) && SameRegister(s, r)
    decreases Live(s), 2, 0
  {
    match Dropped(s, id)
    case None => Unlink(s, id)
    case Some(p) => EndLeg(Unlink(s, id), p, "normal_clearing")
  }

  ghost function EndLeg(s: State, id: LegId, cause: string): (r: State)
    requires id in s.legs
    ensures r.legs.Keys == s.legs.Keys && Live(r) <= Live(s) && SameRegister(s, r)
    decreases Live(s), 1, 0
  {
    if s.legs[id].state == Ended then s
    else
      var s1 := MarkEnded(s, id, cause);
      assert id in Live(s);
      EndPending(Unbridge(s1, id), id, 0)
  }

  /** The loop of `endLeg` over the legs from position `k` on: ringing transfer
      targets of `id` are cancelled. */
  ghost function EndPending(s: State, id: LegId, k: nat): (r: State)
    requires id in s.legs && k <= |s.order|
    ensures r.legs.Keys == s.legs.Keys && Live(r) <= Live(s) && SameRegister(s, r)
    decreases Live(s), 2, |s.order| - k
  {
    if k == |s.order| then s
    else
      var t := s.order[k];
      var s1 := if t in s.legs && s.legs[t].transferOf == Some(id) && s.legs[t].state == Ringing
                then EndLeg(s, t, "originator_cancel") else s;
      EndPending(s1, id, k + 1)
  }

  /** One turn of that loop. */
  ghost function CancelIfRinging(s: State, id: LegId, t: LegId): State {
    if t in s.legs && s.legs[t].transferOf == Some(id) && s.legs[t].state == Ringing
    then EndLeg(s, t, "originator_cancel") else s
  }

  lemma EndPendingStep(s: State, n: State, id: LegId, k: nat)
    requires id in s.legs && k < |s.order| && n == CancelIfRinging(s, id, s.order[k])
    ensures n.legs.Keys == s.legs.Keys && n.order == s.order && Live(n) <= Live(s)
    ensures EndPending(s, id, k) == EndPending(n, id, k + 1)
  {
  }

  lemma EndPendingDone(s: State, id: LegId)
    requires id in s.legs
    ensures EndPending(s, id, |s.order|) == s
  {
  }

  // ---------------------------------------------------------- bridge, answer

  /** The two ends of a new bridge name each other. */
  ghost function Join(s: State, id: LegId, partner: LegId): State
    requires id in s.legs && partner in s.legs
  {
    var s1 := SetLeg(s, id, s.legs[id].(bridgedWith := Some(partner)));
    SetLeg(s1, partner, s1.legs[partner].(bridgedWith := Some(id)))
  }

  ghost function Bridge(s: State, id: LegId, partner: LegId): (r: State)
    requires id in s.legs && partner in s.legs
    ensures r.legs.Keys == s.legs.Keys && r.dialsByCommandId == s.dialsByCommandId
  {
    if s.legs[id].bridgedWith == Some(partner) then s
    else
      var s1 := Unbridge(Unbridge(s, id), partner);
      if s1.legs[id].state == Ended || s1.legs[partner].state == Ended then s1
      else
        Emit(Emit(Join(s1, id, partner), CallBridged(id)), CallBridged(partner))
  }

  ghost function AnswerLeg(s: State, id: LegId, clientState: Option<string>): State
    requires id in s.legs
  {
    var s1 := SetClientState(s, id, clientState);
    Emit(SetLeg(s1, id, s1.legs[id].(state := Answered)), CallAnswered(id))
  }

  // ------------------------------------------------------------- operations

  datatype Action =
    | AnswerCommand
    | Reject(cause: string)
    | HangUp
    | BridgeTo(partner: LegId, parkSelf: bool)
    | TransferTo(to: string, targetClientState: Option<string>)
    | PlayMedia(family: Family)
    | RecordStart
    | RecordStop
    | OtherAction

  datatype Op =
    | FarEndDials
    | FarEndAnswers(id: LegId)
    | FarEndHangsUp(id: LegId, cause: string)
    | RingsOut(id: LegId)
    | Declines(id: LegId)
    | LeavesMessage(id: LegId, seconds: nat)
    | PostCalls(valid: bool, commandId: string, clientState: Option<string>)
    | PostAction(id: LegId, action: Action, commandId: string, clientState: Option<string>)
    | DeleteRecording(recording: RecordingId)
    | TakeEvent
    | ResetCalls

  datatype Reply =
    | Okay
    | NotFound
    | AlreadyEnded
    | Unprocessable
    | Throws
    | Created(leg: LegId)
    | Dialled(leg: LegId, replayed: bool, alive: bool)
    | Taken(event: Option<Event>)

  datatype Outcome = Outcome(next: State, reply: Reply)

  ghost predicate FarEndThrows(s: State, id: LegId) {
    id !in s.legs || s.legs[id].state == Ended
  }

  ghost function FarEndAnswer(s: State, id: LegId): Outcome
  {
    if FarEndThrows(s, id) || s.legs[id].direction != Outgoing then Outcome(s, Throws)
    else if s.legs[id].state == Answered then Outcome(s, Okay)
    else
      var s1 := AnswerLeg(s, id, None);
      match s.legs[id].transferOf
      case None => Outcome(s1, Okay)
      case Some(o) =>
        if o in s1.legs && s1.legs[o].state != Ended then Outcome(Bridge(s1, o, id), Okay)
        else Outcome(s1, Okay)
  }

  ghost function PostCall(s: State, commandId: string, clientState: Option<string>): Outcome {
    var replayed := commandId != "" && commandId in s.dialsByCommandId
                    && s.dialsByCommandId[commandId] in s.legs;
    var id := if replayed then s.dialsByCommandId[commandId] else s.nextId;
    var s1 := if replayed then s else CreateLeg(s, Dial, Outgoing, clientState, None);
    var s2 := if commandId != "" then s1.(dialsByCommandId := s1.dialsByCommandId[commandId := id]) else s1;
    Outcome(s2, Dialled(id, replayed, s1.legs[id].state != Ended))
  }

  ghost function OpenRecording(s: State, id: LegId): State
    requires id in s.legs
  {
    SetLeg(s, id, s.legs[id].(recording := Some(s.nextId))).(nextId := s.nextId + 1)
  }

  ghost function TransferLeg(s: State, id: LegId, targetClientState: Option<string>): State
    requires id in s.legs
  {
    CreateLeg(Unbridge(s, id), Transfer, Outgoing, targetClientState, Some(id))
  }

  ghost function RunAction(s: State, id: LegId, action: Action, clientState: Option<string>): Outcome
    requires id in s.legs
  {
    var leg := s.legs[id];
    match action
    case AnswerCommand =>
      if leg.direction != Incoming || leg.state != Ringing then Outcome(s, Unprocessable)
      else Outcome(AnswerLeg(s, id, clientState), Okay)
    case Reject(cause) =>
      if leg.direction != Incoming || leg.state != Ringing then Outcome(s, Unprocessable)
      else Outcome(EndLeg(s, id, cause), Okay)
    case HangUp =>
      var cause := if leg.state == Ringing && leg.direction == Outgoing
                   then "originator_cancel" else "normal_clearing";
      Outcome(EndLeg(SetClientState(s, id, clientState), id, cause), Okay)
    case BridgeTo(partner, parkSelf) =>
      if partner !in s.legs then Outcome(s, NotFound)
      else if s.legs[partner].state == Ended then Outcome(s, AlreadyEnded)
      else
        var s1 := SetClientState(s, id, clientState);
        var s2 := SetLeg(s1, id, s1.legs[id].(parkAfterUnbridge := parkSelf));
        Outcome(Bridge(s2, id, partner), Okay)
    case TransferTo(to, targetClientState) =>
      if to == "" then Outcome(s, Unprocessable)
      else Outcome(TransferLeg(SetClientState(s, id, clientState), id, targetClientState), Okay)
    case PlayMedia(family) =>
      if leg.state != Answered then Outcome(s, Unprocessable)
      else
        var s1 := SetClientState(s, id, clientState);
        Outcome(Emit(Emit(s1, MediaStarted(id, family)), MediaEnded(id, family)), Okay)
    case RecordStart =>
      if leg.state != Answered then Outcome(s, Unprocessable)
      else
        Outcome(OpenRecording(SetClientState(s, id, clientState), id), Okay)
    case RecordStop => Outcome(SaveRecording(s, id), Okay)
    case OtherAction => Outcome(SetClientState(s, id, clientState), Okay)
  }

  /** A leg remembers the command ids it has seen; an empty one is no id. */
  ghost function Noted(s: State, id: LegId, commandId: string): (r: State)
    requires id in s.legs
    ensures r.legs.Keys == s.legs.Keys
  {
    if commandId == "" then s
    else SetLeg(s, id, s.legs[id].(commandIds := s.legs[id].commandIds + {commandId}))
  }

  ghost function PostActionOn(s: State, id: LegId, action: Action, commandId: string,
                              clientState: Option<string>): Outcome
  {
    if id !in s.legs then Outcome(s, NotFound)
    else if s.legs[id].state == Ended then Outcome(s, AlreadyEnded)
    else if commandId != "" && commandId in s.legs[id].commandIds then Outcome(s, Okay)
    else RunAction(Noted(s, id, commandId), id, action, clientState)
  }

  ghost function Forget(s: State): State {
    INITIAL.(nextId := s.nextId)
  }

  ghost function Perform(s: State, op: Op): Outcome
  {
    match op
    case FarEndDials => Outcome(CreateLeg(s, FarEnd, Incoming, None, None), Created(s.nextId))
    case FarEndAnswers(id) => FarEndAnswer(s, id)
    case FarEndHangsUp(id, cause) =>
      if FarEndThrows(s, id) then Outcome(s, Throws) else Outcome(EndLeg(s, id, cause), Okay)
    case RingsOut(id) =>
      if FarEndThrows(s, id) || s.legs[id].state != Ringing then Outcome(s, Throws)
      else Outcome(EndLeg(s, id, "timeout"), Okay)
    case Declines(id) =>
      if FarEndThrows(s, id) || s.legs[id].state != Ringing then Outcome(s, Throws)
      else Outcome(EndLeg(s, id, "call_rejected"), Okay)
    case LeavesMessage(id, seconds) =>
      if FarEndThrows(s, id) || s.legs[id].recording == None then Outcome(s, Throws)
      else Outcome(EndLeg(SetLeg(s, id, s.legs[id].(messageSeconds := seconds)), id, "normal_clearing"), Okay)
    case PostCalls(valid, commandId, clientState) =>
      if !valid then Outcome(s, Unprocessable) else PostCall(s, commandId, clientState)
    case PostAction(id, action, commandId, clientState) =>
      PostActionOn(s, id, action, commandId, clientState)
    case DeleteRecording(rec) =>
      if rec !in s.recordings || s.recordings[rec].deleted then Outcome(s, NotFound)
      else Outcome(s.(recordings := s.recordings[rec := s.recordings[rec].(deleted := true)]), Okay)
    case TakeEvent =>
      if s.outbox == [] then Outcome(s, Taken(None))
      else Outcome(s.(outbox := s.outbox[1..]), Taken(Some(s.outbox[0])))
    case ResetCalls => Outcome(Forget(s), Okay)
  }
}
