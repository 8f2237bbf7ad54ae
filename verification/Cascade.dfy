/** What a hang-up takes with it (`endLeg` and `unbridge`, lines 336-368 of
    apps/api/e2e/fake-telnyx-voice.ts): exactly the least set of legs that holds
    the leg and is closed under the two ways one leg's end drags another along. */
module Cascade {
  import opened Wrappers
  import opened VoiceSpec

  /** A leg's bridge, if it has one, joins two live legs that name each other. */
  ghost predicate Paired(legs: map<LegId, Leg>, id: LegId)
    requires id in legs
  {
    match legs[id].bridgedWith
    case None => true
    case Some(p) => legs[id].state != Ended && p in legs && legs[p].state != Ended && legs[p].bridgedWith == Some(id)
  }

  /** Bridges pair up live legs; a leg may be bridged to itself. */
  ghost predicate Involution(legs: map<LegId, Leg>) {
    forall id {:trigger Paired(legs, id)} :: id in legs ==> Paired(legs, id)
  }

  /** The end of `x` ends `y`: `y` is the other end of its bridge and did not ask
      to be parked, or `y` is a transfer target still ringing for it. */
  ghost predicate Drags(legs: map<LegId, Leg>, x: LegId, y: LegId) {
    && x in legs && y in legs
    && ((legs[x].bridgedWith == Some(y) && y != x && !legs[y].parkAfterUnbridge)
        || (legs[y].transferOf == Some(x) && legs[y].state == Ringing))
  }

  ghost predicate Closed(legs: map<LegId, Leg>, S: set<LegId>) {
    forall x, y :: x in S && Drags(legs, x, y) ==> y in S
  }

  /** `D` is the least closed set holding every leg of `roots`. */
  ghost predicate LeastClosed(legs: map<LegId, Leg>, roots: set<LegId>, D: set<LegId>) {
    && roots <= D
    && Closed(legs, D)
    && forall S {:trigger Closed(legs, S)} :: roots <= S && Closed(legs, S) ==> D <= S
  }

  /** A leg once the legs of `D` are over: ended if it is one of them, unbridged
      if it was bridged to one of them, otherwise as it was. */
  ghost function Severed(leg: Leg, id: LegId, D: set<LegId>): Leg {
    if id in D then leg.(state := Ended, bridgedWith := None, recording := None, hangupCause := None)
    else if leg.bridgedWith.Some? && leg.bridgedWith.value in D then leg.(bridgedWith := None)
    else leg
  }

  ghost predicate CutAt(before: map<LegId, Leg>, after: map<LegId, Leg>, D: set<LegId>, id: LegId) {
    && id in before && id in after
    && (if id in D then after[id].(hangupCause := None) else after[id]) == Severed(before[id], id, D)
  }

  /** `after` is `before` with exactly the legs of `D` ended, whatever their causes. */
  ghost predicate IsCut(before: map<LegId, Leg>, after: map<LegId, Leg>, D: set<LegId>) {
    && after.Keys == before.Keys
    && forall id {:trigger CutAt(before, after, D, id)} :: id in before ==> CutAt(before, after, D, id)
  }

  lemma CutDrags(a: map<LegId, Leg>, b: map<LegId, Leg>, D: set<LegId>, x: LegId, y: LegId)
    requires IsCut(a, b, D)
    ensures Drags(b, x, y) ==> Drags(a, x, y)
    ensures Drags(a, x, y) && x !in D ==> y in D || Drags(b, x, y)
  {
    if x in a && y in a { assert CutAt(a, b, D, x) && CutAt(a, b, D, y); }
  }

  lemma CutCompose(a: map<LegId, Leg>, b: map<LegId, Leg>, c: map<LegId, Leg>, D: set<LegId>, E: set<LegId>)
    requires IsCut(a, b, D) && IsCut(b, c, E)
    ensures IsCut(a, c, D + E)
  {
    forall id | id in a ensures CutAt(a, c, D + E, id) {
      assert CutAt(a, b, D, id) && CutAt(b, c, E, id);
    }
  }

  lemma CutInvolution(a: map<LegId, Leg>, b: map<LegId, Leg>, D: set<LegId>)
    requires Involution(a) && IsCut(a, b, D)
    ensures Involution(b)
  {
    forall id | id in b ensures Paired(b, id) {
      assert CutAt(a, b, D, id) && Paired(a, id);
      if b[id].bridgedWith.Some? { assert CutAt(a, b, D, b[id].bridgedWith.value); }
    }
  }

  lemma CutCloses(a: map<LegId, Leg>, b: map<LegId, Leg>, D: set<LegId>, S: set<LegId>)
    requires IsCut(a, b, D) && Closed(a, S)
    ensures Closed(b, S)
  {
    forall x, y | x in S && Drags(b, x, y) ensures y in S { CutDrags(a, b, D, x, y); }
  }

  /** `MarkEnded` changes one leg, and of it only what an ended leg loses. */
  lemma MarkEndedLeg(s: State, id: LegId, cause: string)
    requires id in s.legs
    ensures MarkEnded(s, id, cause).legs
         == s.legs[id := s.legs[id].(state := Ended, recording := None, hangupCause := Some(cause))]
  {
  }

  /** Ending a leg and splitting its bridge severs exactly that leg. */
  lemma UnlinkCuts(s: State, m: State, id: LegId, cause: string)
    requires Involution(s.legs) && id in s.legs && s.legs[id].state != Ended
    requires m.legs == s.legs[id := s.legs[id].(state := Ended, recording := None, hangupCause := Some(cause))]
    ensures IsCut(s.legs, Unlink(m, id).legs, {id})
  {
    var u := Unlink(m, id);
    assert Paired(s.legs, id);
    forall x | x in s.legs ensures CutAt(s.legs, u.legs, {id}, x) {
      assert Paired(s.legs, x);
      UnlinkAt(m, id, x);
      hide Unlink;
    }
  }

  /** A leg after the bridge of `id`, if it has one, is split. */
  lemma UnlinkAt(m: State, id: LegId, x: LegId)
    requires id in m.legs && x in m.legs
    requires m.legs[id].bridgedWith.Some? && m.legs[id].bridgedWith.value != id ==>
               var p := m.legs[id].bridgedWith.value; p in m.legs && m.legs[p].bridgedWith == Some(id)
    ensures x in Unlink(m, id).legs && Unlink(m, id).legs[x] == Unbridged(m.legs, id, x)
  {
  }

  /** The partner a hang-up drops, as a set. */
  ghost function DroppedSet(s: State, id: LegId): set<LegId>
    requires id in s.legs
  {
    if Dropped(s, id).Some? then {Dropped(s, id).value} else {}
  }

  /** It is the one leg the end of the bridge drags. */
  lemma DroppedIsDragged(s: State, id: LegId, cause: string)
    requires Involution(s.legs) && id in s.legs && s.legs[id].state != Ended
    ensures var R := DroppedSet(MarkEnded(s, id, cause), id);
            && (forall y :: y in R ==> y != id && Drags(s.legs, id, y) && s.legs[y].state != Ended)
            && (forall y {:trigger Drags(s.legs, id, y)} ::
                  Drags(s.legs, id, y) && !RingsFor(s.legs, y, id) ==> y in R)
  {
    MarkEndedLeg(s, id, cause);
    assert Paired(s.legs, id);
  }

  /** Leg `t` is a transfer target ringing for `id`. */
  ghost predicate RingsFor(legs: map<LegId, Leg>, t: LegId, id: LegId) {
    t in legs && legs[t].transferOf == Some(id) && legs[t].state == Ringing
  }

  /** The legs a call ended. */
  ghost function Gone(s: State, r: State): set<LegId> { Live(s) - Live(r) }

  lemma GoneCompose(a: set<LegId>, b: set<LegId>, c: set<LegId>, I: set<LegId>, D: set<LegId>)
    requires b == a - (I + D) && I + D <= a && c <= b
    ensures a - c == I + (D + (b - c))
  {
  }

  lemma GoneAfter(s: State, u: State, v: State, id: LegId, D: set<LegId>)
    requires id in Live(s) && Live(u) == Live(s) - {id} && Live(v) <= Live(u) && D == Gone(u, v)
    ensures {id} + D <= Live(s) && Live(v) == Live(s) - ({id} + D)
  {
  }

  lemma GoneSplits(s: State, n: State, r: State)
    requires Live(r) <= Live(n) <= Live(s)
    ensures Gone(s, r) == Gone(s, n) + Gone(n, r)
  {
  }

  /** From `before` to `after`, exactly the least closed set around `roots` ended. */
  ghost predicate Ends(before: map<LegId, Leg>, after: map<LegId, Leg>, roots: set<LegId>, D: set<LegId>) {
    LeastClosed(before, roots, D) && IsCut(before, after, D)
  }

  /** Two cascades in a row are one cascade from both root sets. */
  lemma CascadesCompose(a: map<LegId, Leg>, b: map<LegId, Leg>, c: map<LegId, Leg>,
                        R: set<LegId>, D: set<LegId>, Q: set<LegId>, E: set<LegId>, roots: set<LegId>)
    requires Ends(a, b, R, D) && Ends(b, c, Q, E)
    requires R + Q <= roots <= D + Q
    ensures Ends(a, c, roots, D + E)
  {
    CutCompose(a, b, c, D, E);
    forall x, y | x in D + E && Drags(a, x, y) ensures y in D + E { CutDrags(a, b, D, x, y); }
    forall S | roots <= S && Closed(a, S) ensures D + E <= S { CutCloses(a, b, D, S); }
  }

  /** A leg ended alone, then the cascade from the legs it drags. */
  lemma CascadeFromLeg(a: map<LegId, Leg>, b: map<LegId, Leg>, c: map<LegId, Leg>,
                       id: LegId, Q: set<LegId>, E: set<LegId>)
    requires IsCut(a, b, {id}) && Ends(b, c, Q, E)
    requires forall y {:trigger Drags(a, id, y)} :: Drags(a, id, y) && y != id ==> y in Q
    requires forall y :: y in Q ==> Drags(a, id, y)
    ensures Ends(a, c, {id}, {id} + E)
  {
    CutCompose(a, b, c, {id}, E);
    forall x, y | x in {id} + E && Drags(a, x, y) ensures y in {id} + E { CutDrags(a, b, {id}, x, y); }
    forall S | {id} <= S && Closed(a, S) ensures {id} + E <= S {
      CutCloses(a, b, {id}, S);
      assert Q <= S;
    }
  }

  lemma NothingEnds(a: map<LegId, Leg>)
    ensures Ends(a, a, {}, {})
  {
    forall id | id in a ensures CutAt(a, a, {}, id) {}
  }

  /** The transfer targets ringing for `id` among the legs from position `k` on. */
  ghost function Targets(s: State, id: LegId, k: nat): set<LegId> {
    set i | k <= i < |s.order| && RingsFor(s.legs, s.order[i], id) :: s.order[i]
  }

  lemma TargetsAfterCut(a: State, b: State, D: set<LegId>, id: LegId, k: nat)
    requires IsCut(a.legs, b.legs, D) && a.order == b.order && Indexed(a)
    ensures Targets(b, id, k) <= Targets(a, id, k) <= D + Targets(b, id, k)
  {
    forall i | k <= i < |a.order| ensures RingsFor(b.legs, a.order[i], id) ==> RingsFor(a.legs, a.order[i], id)
      ensures RingsFor(a.legs, a.order[i], id) && a.order[i] !in D ==> RingsFor(b.legs, a.order[i], id)
    {
      assert CutAt(a.legs, b.legs, D, a.order[i]);
    }
  }

  lemma TargetsFrom(s: State, id: LegId, k: nat)
    requires k < |s.order|
    ensures Targets(s, id, k) == (if RingsFor(s.legs, s.order[k], id) then {s.order[k]} else {}) + Targets(s, id, k + 1)
  {
  }

  lemma AllTargets(s: State, id: LegId, y: LegId)
    requires Indexed(s) && RingsFor(s.legs, y, id)
    ensures y in Targets(s, id, 0)
  {
    assert y in s.order;
  }

  /** The three parts of a hang-up, joined: the leg itself, what its bridge took
      along, and the transfer targets still ringing for it. */
  lemma AssembleHangup(s: State, u: State, v: State, r: State, id: LegId,
                       R: set<LegId>, D: set<LegId>, E: set<LegId>)
    requires Indexed(s) && id in s.legs && s.order == u.order == v.order
    requires IsCut(s.legs, u.legs, {id}) && Ends(u.legs, v.legs, R, D)
    requires Ends(v.legs, r.legs, Targets(v, id, 0), E)
    requires forall y :: y in R ==> Drags(s.legs, id, y)
    requires forall y {:trigger Drags(s.legs, id, y)} :: Drags(s.legs, id, y) && !RingsFor(s.legs, y, id) ==> y in R
    ensures Ends(s.legs, r.legs, {id}, {id} + (D + E))
  {
    TargetsAfterCut(u, v, D, id, 0);
    TargetsAfterCut(s, u, {id}, id, 0);
    var Q := R + Targets(u, id, 0);
    CascadesCompose(u.legs, v.legs, r.legs, R, D, Targets(v, id, 0), E, Q);
    forall y | Drags(s.legs, id, y) && y != id ensures y in Q {
      if y !in R { AllTargets(s, id, y); }
    }
    forall y | y in Q ensures Drags(s.legs, id, y) {
      if y !in R { assert y in Targets(s, id, 0) && RingsFor(s.legs, y, id); }
    }
    CascadeFromLeg(s.legs, u.legs, r.legs, id, Q, D + E);
  }

  lemma AssemblePending(s: State, n: State, r: State, id: LegId, k: nat, R: set<LegId>, D: set<LegId>, E: set<LegId>)
    requires Indexed(s) && s.order == n.order && k < |s.order|
    requires R == if RingsFor(s.legs, s.order[k], id) then {s.order[k]} else {}
    requires Ends(s.legs, n.legs, R, D) && Ends(n.legs, r.legs, Targets(n, id, k + 1), E)
    ensures Ends(s.legs, r.legs, Targets(s, id, k), D + E)
  {
    TargetsAfterCut(s, n, D, id, k + 1);
    TargetsFrom(s, id, k);
    CascadesCompose(s.legs, n.legs, r.legs, R, D, Targets(n, id, k + 1), E, Targets(s, id, k));
  }

  /** The theorem of the cascade: ending a live leg ends the least closed set
      that holds it, clears the bridges and recordings of those legs, unbridges
      the legs that survive them, and changes no other leg. */
  lemma {:induction false} EndLegCascade(s: State, id: LegId, cause: string)
    requires Indexed(s) && Involution(s.legs) && id in s.legs && s.legs[id].state != Ended
    ensures var r := EndLeg(s, id, cause);
            Ends(s.legs, r.legs, {id}, Gone(s, r))
    decreases Live(s), 2, 0
  {
    var r := EndLeg(s, id, cause);
    var u, v, R, D := DroppedCascade(s, id, cause);
    EndPendingCascade(v, id, 0);
    AssembleHangup(s, u, v, r, id, R, D, Gone(v, r));
    GoneCompose(Live(s), Live(v), Live(r), {id}, D);
  }

  /** The state in which the leg is over and its bridge split, before anything
      else ends; `R` is what the end of the bridge drags. */
  lemma LegAlone(s: State, id: LegId, cause: string) returns (u: State, R: set<LegId>)
    requires Indexed(s) && Involution(s.legs) && id in s.legs && s.legs[id].state != Ended
    ensures u == Unlink(MarkEnded(s, id, cause), id) && R == DroppedSet(MarkEnded(s, id, cause), id)
    ensures IsCut(s.legs, u.legs, {id}) && Involution(u.legs) && Indexed(u)
    ensures u.order == s.order && id in Live(s) && Live(u) == Live(s) - {id}
    ensures forall y :: y in R ==> y in u.legs && u.legs[y].state != Ended && Drags(s.legs, id, y)
    ensures forall y {:trigger Drags(s.legs, id, y)} :: Drags(s.legs, id, y) && !RingsFor(s.legs, y, id) ==> y in R
  {
    var m := MarkEnded(s, id, cause);
    u, R := Unlink(m, id), DroppedSet(m, id);
    MarkEndedLeg(s, id, cause);
    UnlinkCuts(s, m, id, cause);
    DroppedIsDragged(s, id, cause);
    CutInvolution(s.legs, u.legs, {id});
    forall y | y in R ensures y in u.legs && u.legs[y].state != Ended { assert CutAt(s.legs, u.legs, {id}, y); }
  }

  /** `endLeg` up to its loop: the leg, and what the end of its bridge takes
      along, which is nothing or the cascade from the partner. */
  lemma {:induction false} DroppedCascade(s: State, id: LegId, cause: string)
      returns (u: State, v: State, R: set<LegId>, D: set<LegId>)
    requires Indexed(s) && Involution(s.legs) && id in s.legs && s.legs[id].state != Ended
    ensures v == Unbridge(MarkEnded(s, id, cause), id)
    ensures IsCut(s.legs, u.legs, {id}) && Ends(u.legs, v.legs, R, D)
    ensures {id} + D <= Live(s) && Live(v) == Live(s) - ({id} + D)
    ensures s.order == u.order == v.order && Involution(v.legs) && Indexed(v)
    ensures forall y :: y in R ==> Drags(s.legs, id, y)
    ensures forall y {:trigger Drags(s.legs, id, y)} :: Drags(s.legs, id, y) && !RingsFor(s.legs, y, id) ==> y in R
    decreases Live(s), 1, 0
  {
    u, R := LegAlone(s, id, cause);
    v := Unbridge(MarkEnded(s, id, cause), id);
    D := Gone(u, v);
    match Dropped(MarkEnded(s, id, cause), id) {
      case None =>
        assert u == v && R == {} && D == {};
        NothingEnds(u.legs);
      case Some(p) =>
        assert R == {p} && p in R;
        EndLegCascade(u, p, "normal_clearing");
        CutInvolution(u.legs, v.legs, D);
    }
    GoneAfter(s, u, v, id, D);
  }

  lemma {:induction false} EndPendingCascade(s: State, id: LegId, k: nat)
    requires Indexed(s) && Involution(s.legs) && id in s.legs && k <= |s.order|
    ensures var r := EndPending(s, id, k);
            Ends(s.legs, r.legs, Targets(s, id, k), Gone(s, r))
    decreases Live(s), 3, |s.order| - k
  {
    var r := EndPending(s, id, k);
    if k == |s.order| {
      NothingEnds(s.legs);
      assert Gone(s, r) == {} == Targets(s, id, k);
    } else {
      var n, R := EndOneTarget(s, id, k);
      EndPendingCascade(n, id, k + 1);
      AssemblePending(s, n, r, id, k, R, Gone(s, n), Gone(n, r));
      GoneSplits(s, n, r);
    }
  }

  /** One turn of the loop. */
  lemma {:induction false} EndOneTarget(s: State, id: LegId, k: nat) returns (n: State, R: set<LegId>)
    requires Indexed(s) && Involution(s.legs) && id in s.legs && k < |s.order|
    ensures R == if RingsFor(s.legs, s.order[k], id) then {s.order[k]} else {}
    ensures n.order == s.order && n.legs.Keys == s.legs.Keys && Live(n) <= Live(s)
    ensures Indexed(n) && Involution(n.legs)
    ensures n == CancelIfRinging(s, id, s.order[k]) && EndPending(s, id, k) == EndPending(n, id, k + 1)
    ensures Ends(s.legs, n.legs, R, Gone(s, n))
    decreases Live(s), 2, 1
  {
    hide EndPending, EndLeg;
    n, R := CancelIfRinging(s, id, s.order[k]), {};
    EndPendingStep(s, n, id, k);
    if RingsFor(s.legs, s.order[k], id) {
      R := {s.order[k]};
      EndLegCascade(s, s.order[k], "originator_cancel");
      CutInvolution(s.legs, n.legs, Gone(s, n));
    } else {
      NothingEnds(s.legs);
      assert Gone(s, n) == {};
    }
  }

  lemma LeastIsUnique(legs: map<LegId, Leg>, roots: set<LegId>, D: set<LegId>, E: set<LegId>)
    requires LeastClosed(legs, roots, D) && LeastClosed(legs, roots, E)
    ensures D == E
  {
    assert D <= E && E <= D;
  }

  /** Leg `x` once the bridge of leg `id` is split. */
  ghost function Unbridged(legs: map<LegId, Leg>, id: LegId, x: LegId): Leg
    requires id in legs && x in legs
  {
    if x == id || legs[id].bridgedWith == Some(x) then legs[x].(bridgedWith := None) else legs[x]
  }

  /** Two ends of a bridge that forgot each other; every other leg as it was. */
  lemma UnlinkOnly(s: State, id: LegId)
    requires Involution(s.legs) && id in s.legs
    ensures forall x | x in s.legs :: Unlink(s, id).legs[x] == Unbridged(s.legs, id, x)
  {
    assert Paired(s.legs, id);
  }

  lemma UnlinkInvolution(s: State, id: LegId)
    requires Involution(s.legs) && id in s.legs
    ensures Involution(Unlink(s, id).legs)
  {
    var u := Unlink(s, id);
    assert Paired(s.legs, id);
    forall x | x in u.legs ensures Paired(u.legs, x) { assert Paired(s.legs, x); }
  }

  lemma DroppedIsLive(s: State, id: LegId, p: LegId)
    requires id in s.legs && Dropped(s, id) == Some(p)
    ensures p in Unlink(s, id).legs && Unlink(s, id).legs[p].state != Ended
  {
  }

  /** Splitting the bridge of a leg that stays on: the partner it drops ends with
      its own least closed set, in the state where the two forgot each other. */
  lemma UnbridgeEnds(s: State, id: LegId) returns (u: State, r: State, R: set<LegId>, D: set<LegId>)
    requires Indexed(s) && Involution(s.legs) && id in s.legs
    ensures u == Unlink(s, id) && r == Unbridge(s, id) && R == DroppedSet(s, id) && D == Gone(u, r)
    ensures Ends(u.legs, r.legs, R, D) && Involution(r.legs)
  {
    u, r, R := Unlink(s, id), Unbridge(s, id), DroppedSet(s, id);
    D := Gone(u, r);
    UnlinkInvolution(s, id);
    match Dropped(s, id) {
      case None =>
        assert u == r && R == {} && D == {};
        NothingEnds(u.legs);
      case Some(p) =>
        assert R == {p};
        DroppedIsLive(s, id, p);
        EndLegCascade(u, p, "normal_clearing");
        CutInvolution(u.legs, r.legs, D);
    }
  }
}
