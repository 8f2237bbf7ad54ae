/** What the call switch promises over every run from its first state. */
module VoiceTheorems {
  import opened Wrappers
  import opened VoiceSpec
  import opened VoiceHistory
  import opened Cascade
  import opened VoiceInvariants
  import opened VoiceRuns

  ghost function Run(s: State, ops: seq<Op>): State {
    if ops == [] then s else Perform(Run(s, ops[..|ops| - 1]), ops[|ops| - 1]).next
  }

  /** The state a run of operations reaches from an empty switch. */
  ghost function After(ops: seq<Op>): State { Run(INITIAL, ops) }

  lemma RunStep(s: State, ops: seq<Op>, op: Op)
    ensures Run(s, ops + [op]) == Perform(Run(s, ops), op).next
  {
    assert (ops + [op])[..|ops|] == ops;
  }

  lemma {:induction false} RunAppend(s: State, a: seq<Op>, b: seq<Op>)
    ensures Run(s, a + b) == Run(Run(s, a), b)
  {
    hide Perform;
    if b == [] {
      assert a + b == a;
    } else {
      var b' := b[..|b| - 1];
      RunAppend(s, a, b');
      RunStep(s, a + b', b[|b| - 1]);
      assert a + b == a + b' + [b[|b| - 1]];
    }
  }

  lemma InitialHolds()
    ensures Inv(INITIAL)
  {
    assert Live(INITIAL) == {} && LiveOutbound(INITIAL) == {};
    assert MadeBy(INITIAL.legs, true) == {} == MadeBy(INITIAL.legs, false);
    assert INITIAL.outbox == INITIAL.history[|INITIAL.history| - |INITIAL.outbox|..];
  }

  lemma {:induction false} RunKeeps(s: State, ops: seq<Op>)
    requires Inv(s)
    ensures Inv(Run(s, ops))
  {
    if ops != [] {
      RunKeeps(s, ops[..|ops| - 1]);
      PerformKeeps(Run(s, ops[..|ops| - 1]), ops[|ops| - 1]);
    }
  }

  lemma Reached(ops: seq<Op>)
    ensures Inv(After(ops))
  {
    InitialHolds();
    RunKeeps(INITIAL, ops);
  }

  // ------------------------------------------------------------------ bridges

  /** In every state a run reaches, A names B iff B names A, both are live, and
      every leg named exists. */
  lemma BridgesPairUp(ops: seq<Op>, a: LegId, b: LegId)
    ensures var legs := After(ops).legs;
            && (a in legs && legs[a].bridgedWith == Some(b) ==>
                  b in legs && legs[b].bridgedWith == Some(a) && legs[a].state != Ended && legs[b].state != Ended)
            && (a in legs && b in legs ==> (legs[a].bridgedWith == Some(b) <==> legs[b].bridgedWith == Some(a)))
  {
    Reached(ops);
    var legs := After(ops).legs;
    if a in legs { assert Paired(legs, a); }
    if b in legs { assert Paired(legs, b); }
  }

  // ------------------------------------------------------------------ history

  /** Every leg's events follow the rules, its record says how far they went, and
      no ended leg keeps an open recording. A leg the switch does not know has no
      events. */
  lemma HistoryWellFormed(ops: seq<Op>, id: LegId)
    ensures var s := After(ops);
            && (id in s.legs ==> WellFormed(Of(s.history, id), s.legs[id].state == Ended))
            && (id in s.legs && s.legs[id].state == Ended ==> s.legs[id].recording == None)
            && (id !in s.legs ==> Of(s.history, id) == [])
  {
    Reached(ops);
    var s := After(ops);
    assert Agrees(s.legs, id, PhaseOf(s.history, id));
    PhaseReads(s.history, id);
    if id in s.legs { assert LegFacts(s, id); }
  }

  /** In every state a run reaches, an open recording belongs to one leg only, and
      that leg is answered. */
  lemma RecordingsAreOwned(ops: seq<Op>)
    ensures OwnRecordings(After(ops).legs)
    ensures forall x :: x in After(ops).legs && After(ops).legs[x].recording.Some? ==> After(ops).legs[x].state == Answered
  {
    Reached(ops);
    hide Run;
    AllLegFacts(After(ops));
  }

  // ------------------------------------------------------------------- ledger

  /** The ledger, sampled only when a leg is made, holds the true maxima over
      every moment since the reset, and counts every leg made since. */
  lemma LedgerIsTrue(ops: seq<Op>, k: nat)
    ensures var s := After(ops);
            && s.ledger.dials + s.ledger.farEndLegs == |s.legs|
            && s.ledger.peakOutbound <= s.ledger.dials && s.ledger.peakOutbound <= s.ledger.peakLegs
            && (k <= |s.history| ==> |Alive(s.history[..k], false)| <= s.ledger.peakLegs)
            && (k <= |s.history| ==> |Alive(s.history[..k], true)| <= s.ledger.peakOutbound)
            && (exists i :: 0 <= i <= |s.history| && |Alive(s.history[..i], false)| == s.ledger.peakLegs)
            && (exists i :: 0 <= i <= |s.history| && |Alive(s.history[..i], true)| == s.ledger.peakOutbound)
            && Alive(s.history, false) == Live(s) && Alive(s.history, true) == LiveOutbound(s)
  {
    Reached(ops);
    var s := After(ops);
    var i := PeakIsMaximum(s.history, false);
    var j := PeakIsMaximum(s.history, true);
    MadeByAll(s);
  }

  lemma MadeByAll(s: State)
    ensures |MadeBy(s.legs, false)| + |MadeBy(s.legs, true)| == |s.legs|
  {
    var a, b := MadeBy(s.legs, false), MadeBy(s.legs, true);
    assert a !! b && a + b == s.legs.Keys;
  }

  // ----------------------------------------------------------------- delivery

  /** The events a run hands out, in order. */
  ghost function Deliveries(ops: seq<Op>): seq<Event> {
    if ops == [] then []
    else
      var before := After(ops[..|ops| - 1]);
      Deliveries(ops[..|ops| - 1])
      + if ops[|ops| - 1].TakeEvent? && before.outbox != [] then [before.outbox[0]] else []
  }

  /** The history only grows, and the outbox grows with it. */
  ghost predicate Appends(s: State, r: State) {
    s.history <= r.history && |r.history| - |r.outbox| == |s.history| - |s.outbox|
  }

  lemma AppendsTrans(a: State, b: State, c: State)
    requires Appends(a, b) && Appends(b, c)
    ensures Appends(a, c)
  {
  }

  lemma {:induction false} UnbridgeAppends(s: State, id: LegId)
    requires id in s.legs
    ensures Appends(s, Unbridge(s, id))
    decreases Live(s), 2, 0
  {
    if Dropped(s, id).Some? {
      EndLegAppends(Unlink(s, id), Dropped(s, id).value, "normal_clearing");
      AppendsTrans(s, Unlink(s, id), Unbridge(s, id));
    }
  }

  lemma {:induction false} EndLegAppends(s: State, id: LegId, cause: string)
    requires id in s.legs
    ensures Appends(s, EndLeg(s, id, cause))
    decreases Live(s), 1, 0
  {
    if s.legs[id].state != Ended {
      var m := MarkEnded(s, id, cause);
      assert id in Live(s);
      UnbridgeAppends(m, id);
      EndPendingAppends(Unbridge(m, id), id, 0);
      AppendsTrans(s, m, Unbridge(m, id));
      AppendsTrans(s, Unbridge(m, id), EndLeg(s, id, cause));
    }
  }

  lemma {:induction false} EndPendingAppends(s: State, id: LegId, k: nat)
    requires id in s.legs && k <= |s.order|
    ensures Appends(s, EndPending(s, id, k))
    decreases Live(s), 2, |s.order| - k
  {
    if k < |s.order| {
      var t := s.order[k];
      var hit := RingsFor(s.legs, t, id);
      var n := if hit then EndLeg(s, t, "originator_cancel") else s;
      if hit { EndLegAppends(s, t, "originator_cancel"); }
      EndPendingAppends(n, id, k + 1);
      AppendsTrans(s, n, EndPending(s, id, k));
    }
  }

  lemma JoinIsSilent(s: State, id: LegId, partner: LegId)
    requires id in s.legs && partner in s.legs
    ensures Join(s, id, partner).history == s.history && Join(s, id, partner).outbox == s.outbox
  {
  }

  lemma BridgeAppends(s: State, id: LegId, partner: LegId)
    requires id in s.legs && partner in s.legs
    ensures Appends(s, Bridge(s, id, partner))
  {
    var a := Unbridge(s, id);
    var b := Unbridge(a, partner);
    hide Unbridge, Join;
    UnbridgeAppends(s, id);
    UnbridgeAppends(a, partner);
    AppendsTrans(s, a, b);
    JoinIsSilent(b, id, partner);
    if s.legs[id].bridgedWith != Some(partner) { AppendsTrans(s, b, Bridge(s, id, partner)); }
  }

  lemma RunActionAppends(s: State, id: LegId, action: Action, clientState: Option<string>)
    requires id in s.legs
    ensures Appends(s, RunAction(s, id, action, clientState).next)
  {
    hide EndLeg, Unbridge, Bridge;
    var s1 := SetClientState(s, id, clientState);
    match action
    case Reject(cause) => EndLegAppends(s, id, cause);
    case HangUp =>
      EndLegAppends(s1, id, "originator_cancel");
      EndLegAppends(s1, id, "normal_clearing");
    case BridgeTo(partner, parkSelf) =>
      if partner in s.legs { BridgeAppends(SetLeg(s1, id, s1.legs[id].(parkAfterUnbridge := parkSelf)), id, partner); }
    case TransferTo(to, targetClientState) =>
      UnbridgeAppends(s1, id);
      AppendsTrans(s1, Unbridge(s1, id), TransferLeg(s1, id, targetClientState));
    case _ =>
  }

  lemma FarEndAnswerAppends(s: State, id: LegId)
    ensures Appends(s, FarEndAnswer(s, id).next)
  {
    if !FarEndThrows(s, id) && s.legs[id].transferOf.Some? {
      var o := s.legs[id].transferOf.value;
      var s1 := AnswerLeg(s, id, None);
      if o in s1.legs {
        BridgeAppends(s1, o, id);
        AppendsTrans(s, s1, Bridge(s1, o, id));
      }
    }
  }

  lemma PerformAppends(s: State, op: Op)
    requires op != ResetCalls && !(op.TakeEvent? && s.outbox != [])
    ensures Appends(s, Perform(s, op).next)
  {
    hide EndLeg, RunAction;
    match op
    case FarEndAnswers(id) => FarEndAnswerAppends(s, id);
    case FarEndHangsUp(id, cause) => if id in s.legs { EndLegAppends(s, id, cause); }
    case RingsOut(id) => if id in s.legs { EndLegAppends(s, id, "timeout"); }
    case Declines(id) => if id in s.legs { EndLegAppends(s, id, "call_rejected"); }
    case LeavesMessage(id, seconds) =>
      if id in s.legs {
        EndLegAppends(SetLeg(s, id, s.legs[id].(messageSeconds := seconds)), id, "normal_clearing");
      }
    case PostAction(id, action, commandId, clientState) =>
      if id in s.legs {
        var leg := s.legs[id].(commandIds := s.legs[id].commandIds + {commandId});
        RunActionAppends(if commandId == "" then s else SetLeg(s, id, leg), id, action, clientState);
      }
    case _ =>
  }

  /** Within one reset window nothing emitted is lost, repeated or reordered: what
      was handed out, followed by what waits, is the history. */
  lemma {:induction false} DeliveredInOrder(ops: seq<Op>)
    requires ResetCalls !in ops
    ensures Deliveries(ops) + After(ops).outbox == After(ops).history
  {
    if ops != [] {
      var ops', op := ops[..|ops| - 1], ops[|ops| - 1];
      var s, r := After(ops'), After(ops);
      DeliveredInOrder(ops');
      OutboxIsTail(ops);
      if op.TakeEvent? && s.outbox != [] {
        assert r.history == s.history && r.outbox == s.outbox[1..];
        assert Deliveries(ops) == Deliveries(ops') + [s.outbox[0]];
        hide *;
        HeadMoves(Deliveries(ops'), s.outbox);
      } else {
        PerformAppends(s, op);
        assert Deliveries(ops) == Deliveries(ops') + [];
        hide Perform, Run, After, Deliveries;
        TailGrows(Deliveries(ops'), s.history, s.outbox, r.history, r.outbox);
      }
    }
  }

  lemma HeadMoves(delivered: seq<Event>, outbox: seq<Event>)
    requires outbox != []
    ensures delivered + [outbox[0]] + outbox[1..] == delivered + outbox
  {
  }

  /** What was handed out before the outbox began stays handed out as both grow. */
  lemma TailGrows(delivered: seq<Event>, h: seq<Event>, o: seq<Event>, h': seq<Event>, o': seq<Event>)
    requires delivered + o == h && h <= h' && |h'| - |o'| == |h| - |o|
    requires |o'| <= |h'| && o' == h'[|h'| - |o'|..]
    ensures delivered + [] + o' == h'
  {
    assert delivered == h[..|delivered|] == h'[..|delivered|];
  }

  /** The outbox is the end of the history. */
  lemma OutboxIsTail(ops: seq<Op>)
    ensures var s := After(ops);
            |s.outbox| <= |s.history| && s.outbox == s.history[|s.history| - |s.outbox|..]
  {
    Reached(ops);
  }
}
