/** Exactly when the order of the `legs` map decides how a hang-up ends (`endLeg`,
    lines 348-368 of apps/api/e2e/fake-telnyx-voice.ts). Of two bridged legs the one
    the hang-up reaches first decides the cause of both, and it can be made to reach
    a leg first when there is a route to it, read off the legs before the call. */
module CascadeRoutes {
  import opened Wrappers
  import opened VoiceSpec
  import opened Cascade
  import opened CascadeLog
  import opened CascadeOrder

  // --------------------------------------------------------------------- routes

  /** Closed under dragging legs that are not gone. */
  ghost predicate ClosedOn(legs: map<LegId, Leg>, gone: set<LegId>, S: set<LegId>) {
    forall a, b :: a in S && Drags(legs, a, b) && b !in gone ==> b in S
  }

  /** The legs that go with `q` once those of `gone` are over. */
  ghost function Side(legs: map<LegId, Leg>, gone: set<LegId>, q: LegId): set<LegId> {
    set z | z in legs && forall S {:trigger ClosedOn(legs, gone, S)} :: q in S && ClosedOn(legs, gone, S) ==> z in S
  }

  lemma SideIsLeast(legs: map<LegId, Leg>, gone: set<LegId>, q: LegId)
    requires q in legs
    ensures q in Side(legs, gone, q) && Side(legs, gone, q) <= legs.Keys
    ensures ClosedOn(legs, gone, Side(legs, gone, q))
    ensures forall S {:trigger ClosedOn(legs, gone, S)} :: q in S && ClosedOn(legs, gone, S) ==> Side(legs, gone, q) <= S
  {
  }

  /** The other end of the bridge of `x`, if it is there to be dropped. */
  ghost function DropOf(legs: map<LegId, Leg>, gone: set<LegId>, x: LegId): (q: Option<LegId>)
    requires x in legs
    ensures q.Some? ==> q.value in legs && q.value !in gone && !legs[q.value].parkAfterUnbridge
    ensures q.Some? ==> legs[x].bridgedWith == q
  {
    match legs[x].bridgedWith
    case None => None
    case Some(q) => if q in legs && q !in gone && !legs[q].parkAfterUnbridge then Some(q) else None
  }

  /** The legs over once `x` is and its bridge has taken along what it does. */
  ghost function Dropping(legs: map<LegId, Leg>, gone: set<LegId>, x: LegId): set<LegId>
    requires x in legs
  {
    var g := gone + {x};
    g + if DropOf(legs, g, x).Some? then Side(legs, g, DropOf(legs, g, x).value) else {}
  }

  /** `ts` leads a hang-up of `x` to `first` before it touches `other`: by the dropped
      partner if its side holds either of them, and otherwise by the next ringing
      target in `ts`. */
  ghost predicate Route(legs: map<LegId, Leg>, gone: set<LegId>, x: LegId, first: LegId, other: LegId, ts: seq<LegId>)
    requires x in legs && x !in gone
    decreases legs.Keys - gone
  {
    if x == first then ts == []
    else if x == other then false
    else
      var g := gone + {x};
      var q := DropOf(legs, g, x);
      if q.Some? && (first in Side(legs, g, q.value) || other in Side(legs, g, q.value)) then
        Route(legs, g, q.value, first, other, ts)
      else
        && ts != [] && RingsFor(legs, ts[0], x) && ts[0] !in Dropping(legs, gone, x)
        && Route(legs, Dropping(legs, gone, x), ts[0], first, other, ts[1..])
  }

  /** Some order of the legs makes a hang-up of `root` reach `first` before `other`. */
  ghost predicate CanReachFirst(legs: map<LegId, Leg>, root: LegId, first: LegId, other: LegId)
    requires root in legs
  {
    exists ts :: Route(legs, {}, root, first, other, ts)
  }

  /** The order decides how `y` ends: it can be reached before the other end of its
      bridge, and after it. */
  ghost predicate Undecided(legs: map<LegId, Leg>, root: LegId, y: LegId)
    requires root in legs
  {
    && y in legs && legs[y].bridgedWith.Some? && !legs[y].parkAfterUnbridge
    && var p := legs[y].bridgedWith.value;
       p != y && y != root && p != root && p in legs
       && CanReachFirst(legs, root, y, p) && CanReachFirst(legs, root, p, y)
  }

  // ------------------------------------------------- routes with fewer legs gone

  /** Legs over beforehand that lead to neither end of the bridge are no detour: the
      same route is there without them. */
  lemma {:induction false} RouteEarlier(legs: map<LegId, Leg>, gone: set<LegId>, E: set<LegId>, x: LegId,
                                        first: LegId, other: LegId, ts: seq<LegId>)
    requires Involution(legs) && x in legs && x !in gone + E
    requires E <= legs.Keys && ClosedOn(legs, gone, E) && first !in E && other !in E
    requires Route(legs, gone + E, x, first, other, ts)
    ensures Route(legs, gone, x, first, other, ts)
    decreases legs.Keys - gone
  {
    if x != first {
      var g, g' := gone + {x}, gone + E + {x};
      var q, q' := DropOf(legs, g, x), DropOf(legs, g', x);
      assert g' == g + E;
      StillClosed(legs, gone, g, E);
      if q'.Some? {
        assert q == q';
        SidesCompare(legs, g, E, q.value);
        var S, S' := Side(legs, g, q.value), Side(legs, g', q.value);
        if first in S' || other in S' {
          assert gone + E + {x} == g + E;
          RouteEarlier(legs, g, E, q.value, first, other, ts);
        } else {
          RouteRest(legs, gone, E, x, S, S', first, other, ts);
        }
      } else if q.Some? {
        assert q.value in E;
        SideIsLeast(legs, g, q.value);
        RouteRest(legs, gone, E, x, Side(legs, g, q.value), {}, first, other, ts);
      } else {
        RouteRest(legs, gone, E, x, {}, {}, first, other, ts);
      }
    }
  }

  lemma StillClosed(legs: map<LegId, Leg>, gone: set<LegId>, more: set<LegId>, E: set<LegId>)
    requires gone <= more && ClosedOn(legs, gone, E)
    ensures ClosedOn(legs, more, E)
  {
  }

  lemma SidesCompare(legs: map<LegId, Leg>, g: set<LegId>, E: set<LegId>, q: LegId)
    requires q in legs && q !in E && ClosedOn(legs, g, E)
    ensures Side(legs, g + E, q) <= Side(legs, g, q) <= Side(legs, g + E, q) + E
  {
    SideIsLeast(legs, g, q);
    SideIsLeast(legs, g + E, q);
    hide Side;
    var S, S' := Side(legs, g, q), Side(legs, g + E, q);
    assert ClosedOn(legs, g + E, S);
    assert ClosedOn(legs, g, S' + E);
  }

  lemma {:induction false} RouteRest(legs: map<LegId, Leg>, gone: set<LegId>, E: set<LegId>, x: LegId,
                                     S: set<LegId>, S': set<LegId>, first: LegId, other: LegId, ts: seq<LegId>)
    requires Involution(legs) && x in legs && x !in gone + E && x != first && x != other
    requires E <= legs.Keys && ClosedOn(legs, gone, E) && first !in E && other !in E
    requires Dropping(legs, gone, x) == gone + {x} + S && Dropping(legs, gone + E, x) == gone + E + {x} + S'
    requires S' <= S <= S' + E && first !in S && other !in S
    requires ts != [] && RingsFor(legs, ts[0], x) && ts[0] !in Dropping(legs, gone + E, x)
    requires Route(legs, Dropping(legs, gone + E, x), ts[0], first, other, ts[1..])
    ensures ts[0] !in Dropping(legs, gone, x) && Route(legs, Dropping(legs, gone, x), ts[0], first, other, ts[1..])
    decreases legs.Keys - gone, 0
  {
    var h := Dropping(legs, gone, x);
    assert h + (E - S) == Dropping(legs, gone + E, x);
    RouteEarlier(legs, h, E - S, ts[0], first, other, ts[1..]);
  }

  // ------------------------------------------------- the cascade along the routes

  /** `s` is the switch of `legs` with the legs of `gone` ended. */
  ghost predicate At(legs: map<LegId, Leg>, gone: set<LegId>, s: State) {
    IsCut(legs, s.legs, gone) && gone <= legs.Keys && Indexed(s) && Involution(legs) && Involution(s.legs)
  }

  lemma AtFurther(legs: map<LegId, Leg>, gone: set<LegId>, s: State, r: State, D: set<LegId>)
    requires At(legs, gone, s) && IsCut(s.legs, r.legs, D) && D <= legs.Keys && r.order == s.order && Indexed(r)
    ensures At(legs, gone + D, r)
  {
    CutCompose(legs, s.legs, r.legs, gone, D);
    CutInvolution(s.legs, r.legs, D);
  }

  lemma LiveIsNotGone(legs: map<LegId, Leg>, gone: set<LegId>, s: State, x: LegId)
    requires At(legs, gone, s) && x in legs
    ensures x in s.legs && (x in gone ==> s.legs[x].state == Ended)
    ensures x !in gone ==> s.legs[x].state == legs[x].state && s.legs[x].transferOf == legs[x].transferOf
    ensures x !in gone ==> s.legs[x].parkAfterUnbridge == legs[x].parkAfterUnbridge
  {
    assert CutAt(legs, s.legs, gone, x);
  }

  lemma RingsAt(legs: map<LegId, Leg>, gone: set<LegId>, s: State, t: LegId, x: LegId)
    requires At(legs, gone, s)
    ensures RingsFor(s.legs, t, x) <==> RingsFor(legs, t, x) && t !in gone
  {
    if t in legs { LiveIsNotGone(legs, gone, s, t); }
  }

  /** What ends with a leg is its side. */
  lemma SideIsGone(legs: map<LegId, Leg>, gone: set<LegId>, s: State, q: LegId, D: set<LegId>)
    requires At(legs, gone, s) && q in legs && LeastClosed(s.legs, {q}, D) && D <= Live(s)
    ensures D == Side(legs, gone, q)
  {
    SideIsLeast(legs, gone, q);
    hide Side;
    forall a, b | a in D && Drags(legs, a, b) && b !in gone ensures b in D {
      LiveIsNotGone(legs, gone, s, a);
      CutDrags(legs, s.legs, gone, a, b);
    }
    var S := Side(legs, gone, q);
    forall a, b | a in S && Drags(s.legs, a, b) ensures b in S {
      CutDrags(legs, s.legs, gone, a, b);
      DraggedIsLive(legs, gone, s, a, b);
    }
    assert Closed(s.legs, S) && ClosedOn(legs, gone, D);
  }

  lemma DraggedIsLive(legs: map<LegId, Leg>, gone: set<LegId>, s: State, a: LegId, b: LegId)
    requires At(legs, gone, s) && Drags(s.legs, a, b)
    ensures b !in gone
  {
    LiveIsNotGone(legs, gone, s, b);
    assert Paired(s.legs, a);
  }

  lemma DropAgrees(legs: map<LegId, Leg>, gone: set<LegId>, s: State, x: LegId, cause: string)
    requires At(legs, gone, s) && x in s.legs && s.legs[x].state != Ended
    ensures x in legs && x !in gone && Dropped(MarkEnded(s, x, cause), x) == DropOf(legs, gone + {x}, x)
  {
    LiveIsNotGone(legs, gone, s, x);
    MarkEndedLeg(s, x, cause);
    assert CutAt(legs, s.legs, gone, x) && Paired(legs, x) && Paired(s.legs, x);
    if legs[x].bridgedWith.Some? { LiveIsNotGone(legs, gone, s, legs[x].bridgedWith.value); }
  }

  /** A hang-up up to its loop, on a switch some of whose legs are gone. */
  lemma Descend(legs: map<LegId, Leg>, gone: set<LegId>, s: State, x: LegId, cause: string)
      returns (u: State, v: State, q: Option<LegId>)
    requires At(legs, gone, s) && x in s.legs && s.legs[x].state != Ended
    ensures x in legs && x !in gone && q == DropOf(legs, gone + {x}, x)
    ensures At(legs, gone + {x}, u) && At(legs, Dropping(legs, gone, x), v)
    ensures q.Some? ==> q.value in u.legs && u.legs[q.value].state != Ended
    ensures q.Some? ==> v == EndLeg(u, q.value, "normal_clearing") && Gone(u, v) == Side(legs, gone + {x}, q.value)
    ensures q.None? ==> u == v
    ensures EndLeg(s, x, cause) == EndPending(v, x, 0) && x in Live(s)
    ensures Live(v) <= Live(u) && Live(u) == Live(s) - {x} && v.order == u.order == s.order
  {
    AtParts(legs, gone, s);
    DropAgrees(legs, gone, s, x, cause);
    hide At, IsCut, Indexed, Involution, MarkEnded, Unbridge, EndLeg, EndPending, Unlink, Dropped, Drags, Side, Dropping;
    var R;
    u, R := LegAlone(s, x, cause);
    v := Unbridge(MarkEnded(s, x, cause), x);
    q := DropOf(legs, gone + {x}, x);
    AtFurther(legs, gone, s, u, {x});
    EndLegUpToLoop(s, x, cause, v);
    DroppingIs(legs, gone, x);
    if q.Some? {
      DropsPartner(s, x, cause, u, v, R, q.value);
      DescendSide(legs, gone + {x}, u, v, q.value);
    } else {
      KeepsPartner(s, x, cause, u, v);
    }
  }

  lemma AtParts(legs: map<LegId, Leg>, gone: set<LegId>, s: State)
    requires At(legs, gone, s)
    ensures Indexed(s) && Involution(s.legs) && s.legs.Keys == legs.Keys
  {
  }

  lemma DroppingIs(legs: map<LegId, Leg>, gone: set<LegId>, x: LegId)
    requires x in legs
    ensures Dropping(legs, gone, x)
         == match DropOf(legs, gone + {x}, x)
            case None => gone + {x}
            case Some(q) => gone + {x} + Side(legs, gone + {x}, q)
  {
  }

  /** The dropped partner takes its side along. */
  lemma DescendSide(legs: map<LegId, Leg>, gone: set<LegId>, u: State, v: State, q: LegId)
    requires At(legs, gone, u) && q in u.legs && u.legs[q].state != Ended && v == EndLeg(u, q, "normal_clearing")
    ensures Gone(u, v) == Side(legs, gone, q) && At(legs, gone + Side(legs, gone, q), v)
    ensures v.order == u.order && Live(v) <= Live(u)
  {
    EndLegCascade(u, q, "normal_clearing");
    EndLegShape(u, q, "normal_clearing", v);
    hide EndLeg;
    SideIsGone(legs, gone, u, q, Gone(u, v));
    AtFurther(legs, gone, u, v, Gone(u, v));
  }

  lemma EndLegShape(s: State, x: LegId, cause: string, r: State)
    requires Indexed(s) && x in s.legs && r == EndLeg(s, x, cause)
    ensures Indexed(r) && r.order == s.order && r.legs.Keys == s.legs.Keys && Live(r) <= Live(s)
  {
  }

  lemma DropsPartner(s: State, x: LegId, cause: string, u: State, v: State, R: set<LegId>, q: LegId)
    requires x in s.legs && Dropped(MarkEnded(s, x, cause), x) == Some(q)
    requires u == Unlink(MarkEnded(s, x, cause), x) && R == DroppedSet(MarkEnded(s, x, cause), x)
    requires v == Unbridge(MarkEnded(s, x, cause), x)
    requires forall y :: y in R ==> y in u.legs && u.legs[y].state != Ended
    ensures q in u.legs && u.legs[q].state != Ended && v == EndLeg(u, q, "normal_clearing")
    ensures Live(v) <= Live(u) && v.order == u.order && v.legs.Keys == u.legs.Keys
  {
    assert q in R;
  }

  lemma KeepsPartner(s: State, x: LegId, cause: string, u: State, v: State)
    requires x in s.legs && Dropped(MarkEnded(s, x, cause), x) == None
    requires u == Unlink(MarkEnded(s, x, cause), x) && v == Unbridge(MarkEnded(s, x, cause), x)
    ensures u == v
  {
  }

  // ------------------------------------------------------ a cause shows a route

  /** `y` is bridged to `p` and did not ask to be parked; `first` is one of the two
      and `other` the other one. */
  ghost predicate TwoEnds(legs: map<LegId, Leg>, y: LegId, p: LegId, first: LegId, other: LegId) {
    && y in legs && p in legs && y != p && legs[y].bridgedWith == Some(p) && !legs[y].parkAfterUnbridge
    && ((first == y && other == p) || (first == p && other == y))
  }

  /** How `y` ends when `first` is reached first. */
  ghost function CauseWhen(y: LegId, first: LegId): string {
    if first == y then "originator_cancel" else "normal_clearing"
  }

  ghost predicate EndedWith(s: State, r: State, y: LegId, cause: string) {
    y in Gone(s, r) && y in r.legs && r.legs[y].hangupCause == Some(cause)
  }

  lemma RootCause(s: State, x: LegId, cause: string)
    requires Indexed(s) && Involution(s.legs) && x in s.legs && s.legs[x].state != Ended
    ensures EndedWith(s, EndLeg(s, x, cause), x, cause)
  {
    hide EndLeg, Notices, Kept, Told;
    var hs := EndLegLog(s, x, cause);
    assert hs[0] in hs && hs[0].leg in LegsOf(hs);
  }

  /** A cause once given stays. */
  lemma CauseStays(s: State, n: State, r: State, y: LegId)
    requires IsCut(n.legs, r.legs, Gone(n, r)) && Live(r) <= Live(n) <= Live(s) && y in Gone(s, n) && y in n.legs
    ensures y in Gone(s, r) && y in r.legs && r.legs[y].hangupCause == n.legs[y].hangupCause
  {
    assert CutAt(n.legs, r.legs, Gone(n, r), y);
  }

  /** With the other end of its bridge, `y` goes too. */
  lemma GoesAlong(legs: map<LegId, Leg>, gone: set<LegId>, q: LegId, y: LegId, p: LegId, first: LegId, other: LegId)
    requires Involution(legs) && q in legs && TwoEnds(legs, y, p, first, other) && y !in gone
    ensures p in Side(legs, gone, q) ==> y in Side(legs, gone, q)
  {
    SideIsLeast(legs, gone, q);
    hide Side;
    assert Paired(legs, y);
    assert Drags(legs, p, y);
  }

  /** If a hang-up leaves `y` the cause it has when `first` is reached first, there
      is a route to `first`. */
  lemma {:induction false} RouteFound(legs: map<LegId, Leg>, gone: set<LegId>, s: State, x: LegId, cause: string,
                                      y: LegId, p: LegId, first: LegId, other: LegId) returns (ts: seq<LegId>)
    requires At(legs, gone, s) && x in s.legs && s.legs[x].state != Ended && x != y
    requires TwoEnds(legs, y, p, first, other) && y !in gone && p !in gone
    requires EndedWith(s, EndLeg(s, x, cause), y, CauseWhen(y, first))
    ensures x in legs && x !in gone && Route(legs, gone, x, first, other, ts)
    decreases Live(s), 2, 0
  {
    hide EndLeg, EndPending, At, Involution, Side, Dropping, Gone, Live;
    var u, v, q := Descend(legs, gone, s, x, cause);
    var r := EndPending(v, x, 0);
    ts := [];
    if x != first {
      DroppingIs(legs, gone, x);
      var inSide := q.Some? && (first in Side(legs, gone + {x}, q.value) || other in Side(legs, gone + {x}, q.value));
      if inSide || x == p {
        SideDecides(legs, gone, s, u, v, x, cause, q, y, p, first, other);
        ts := RouteFound(legs, gone + {x}, u, q.value, "normal_clearing", y, p, first, other);
      } else {
        SideSpares(legs, gone, s, u, v, x, q, y, p, first, other, CauseWhen(y, first));
        ts := LoopRouteFound(legs, Dropping(legs, gone, x), v, x, 0, y, p, first, other);
      }
    }
  }

  /** Where the dropped partner's side holds an end of the bridge, it settles how `y`
      ends; and `x` is not the other end itself. */
  lemma SideDecides(legs: map<LegId, Leg>, gone: set<LegId>, s: State, u: State, v: State, x: LegId, cause: string,
                    q: Option<LegId>, y: LegId, p: LegId, first: LegId, other: LegId)
    requires x in legs && At(legs, gone, s) && At(legs, gone + {x}, u) && At(legs, Dropping(legs, gone, x), v)
    requires x !in gone && q == DropOf(legs, gone + {x}, x) && x != y && x != first
    requires q.Some? ==> q.value in u.legs && u.legs[q.value].state != Ended
    requires q.Some? ==> v == EndLeg(u, q.value, "normal_clearing") && Gone(u, v) == Side(legs, gone + {x}, q.value)
    requires Live(v) <= Live(u) && Live(u) == Live(s) - {x}
    requires TwoEnds(legs, y, p, first, other) && y !in gone && p !in gone
    requires x in s.legs && x in v.legs && EndLeg(s, x, cause) == EndPending(v, x, 0)
    requires EndedWith(s, EndLeg(s, x, cause), y, CauseWhen(y, first))
    requires x == p || (q.Some? && (first in Side(legs, gone + {x}, q.value) || other in Side(legs, gone + {x}, q.value)))
    ensures x != p && q.Some? && q.value != y && EndedWith(u, v, y, CauseWhen(y, first))
  {
    hide EndLeg, EndPending, Side, Dropping, Gone, Live, IsCut, At, Involution;
    AtParts(legs, Dropping(legs, gone, x), v);
    AtParts(legs, gone + {x}, u);
    InvolutionAt(legs, gone, s);
    if x == p {
      PartnerDrops(legs, gone, x, y, first, other);
      DroppedCause(u, v, x, y);
      hide *;
      assert false;
    }
    NotItsPartner(legs, gone, x, y, p, first, other);
    GoesAlong(legs, gone + {x}, q.value, y, p, first, other);
    EndedInSide(s, u, v, x, y, CauseWhen(y, first));
  }

  lemma EndedInSide(s: State, u: State, v: State, x: LegId, y: LegId, wanted: string)
    requires Indexed(v) && Involution(v.legs) && x in v.legs && y in v.legs && Live(v) <= Live(u)
    requires y in Gone(u, v) && EndedWith(s, EndPending(v, x, 0), y, wanted)
    ensures EndedWith(u, v, y, wanted)
  {
    hide EndPending;
    var r := LoopCut(v, x, 0);
    CauseStays(u, v, r, y);
  }

  lemma DroppedCause(u: State, v: State, x: LegId, y: LegId)
    requires Indexed(u) && Involution(u.legs) && y in u.legs && u.legs[y].state != Ended
    requires v == EndLeg(u, y, "normal_clearing") && x in v.legs && Indexed(v) && Involution(v.legs)
    ensures y in EndPending(v, x, 0).legs && EndPending(v, x, 0).legs[y].hangupCause == Some("normal_clearing")
  {
    hide EndLeg, EndPending, Gone, Live, IsCut;
    RootCause(u, y, "normal_clearing");
    EndLegShape(u, y, "normal_clearing", v);
    var r := LoopCut(v, x, 0);
    CauseStays(u, v, r, y);
  }

  lemma InvolutionAt(legs: map<LegId, Leg>, gone: set<LegId>, s: State)
    requires At(legs, gone, s)
    ensures Involution(legs)
  {
  }

  lemma PartnerDrops(legs: map<LegId, Leg>, gone: set<LegId>, p: LegId, y: LegId, first: LegId, other: LegId)
    requires Involution(legs) && TwoEnds(legs, y, p, first, other) && y !in gone
    ensures DropOf(legs, gone + {p}, p) == Some(y)
  {
    assert Paired(legs, y);
  }

  lemma NotItsPartner(legs: map<LegId, Leg>, gone: set<LegId>, x: LegId, y: LegId, p: LegId, first: LegId, other: LegId)
    requires Involution(legs) && x in legs && TwoEnds(legs, y, p, first, other) && x != p
    ensures DropOf(legs, gone + {x}, x) != Some(y)
  {
    assert Paired(legs, y) && Paired(legs, x);
  }

  /** Otherwise both ends outlive it. */
  lemma SideSpares(legs: map<LegId, Leg>, gone: set<LegId>, s: State, u: State, v: State, x: LegId, q: Option<LegId>,
                   y: LegId, p: LegId, first: LegId, other: LegId, wanted: string)
    requires x in legs && q == DropOf(legs, gone + {x}, x) && x != y && x != p
    requires At(legs, gone, s) && At(legs, Dropping(legs, gone, x), v) && x in v.legs
    requires Live(v) <= Live(u) && Live(u) == Live(s) - {x} && (q.None? ==> u == v)
    requires q.Some? ==> Gone(u, v) == Side(legs, gone + {x}, q.value)
    requires TwoEnds(legs, y, p, first, other) && y !in gone && p !in gone
    requires !(q.Some? && (first in Side(legs, gone + {x}, q.value) || other in Side(legs, gone + {x}, q.value)))
    requires EndedWith(s, EndPending(v, x, 0), y, wanted)
    ensures y !in Dropping(legs, gone, x) && p !in Dropping(legs, gone, x) && x in Dropping(legs, gone, x)
    ensures EndedWith(v, EndPending(v, x, 0), y, wanted)
  {
    hide EndPending, At, Side;
  }

  /** A turn of the loop that ends `y` gives it the cause it keeps. */
  lemma TurnDecides(legs: map<LegId, Leg>, gone: set<LegId>, s: State, n: State, id: LegId, k: nat, t: LegId,
                    y: LegId, wanted: string)
    requires At(legs, gone, s) && id in s.legs && k < |s.order| && t == s.order[k] && RingsFor(s.legs, t, id)
    requires n == CancelIfRinging(s, id, t)
    requires Indexed(n) && Involution(n.legs) && n.order == s.order && n.legs.Keys == s.legs.Keys && Live(n) <= Live(s)
    requires EndPending(s, id, k) == EndPending(n, id, k + 1)
    requires y in Gone(s, n) && EndedWith(s, EndPending(s, id, k), y, wanted)
    ensures t in s.legs && s.legs[t].state != Ended && n == EndLeg(s, t, "originator_cancel") && EndedWith(s, n, y, wanted)
  {
    hide EndLeg, EndPending;
    var r := LoopCut(n, id, k + 1);
    CauseStays(s, n, r, y);
  }

  /** A turn that does not end `y` ends neither end of its bridge, and a set closed
      under dragging. */
  lemma TurnSpares(legs: map<LegId, Leg>, gone: set<LegId>, s: State, n: State, id: LegId, k: nat, t: LegId,
                   y: LegId, p: LegId, first: LegId, other: LegId, wanted: string)
    requires At(legs, gone, s) && id in gone && id in s.legs && k < |s.order| && t == s.order[k]
    requires RingsFor(s.legs, t, id) && Ends(s.legs, n.legs, {t}, Gone(s, n))
    requires Indexed(n) && n.order == s.order && n.legs.Keys == s.legs.Keys && Live(n) <= Live(s)
    requires EndPending(s, id, k) == EndPending(n, id, k + 1)
    requires TwoEnds(legs, y, p, first, other) && y !in gone && p !in gone
    requires y !in Gone(s, n) && EndedWith(s, EndPending(s, id, k), y, wanted)
    ensures var E := Gone(s, n);
            && At(legs, gone + E, n) && id in n.legs && E <= legs.Keys && ClosedOn(legs, gone, E)
            && y !in gone + E && p !in gone + E && EndedWith(n, EndPending(n, id, k + 1), y, wanted)
  {
    hide EndPending;
    var E := Gone(s, n);
    SideIsGone(legs, gone, s, t, E);
    SideIsLeast(legs, gone, t);
    GoesAlong(legs, gone, t, y, p, first, other);
    hide Side;
    AtFurther(legs, gone, s, n, E);
  }

  lemma NothingRings(s: State, id: LegId, t: LegId)
    requires !RingsFor(s.legs, t, id)
    ensures CancelIfRinging(s, id, t) == s
  {
  }

  lemma RouteHere(legs: map<LegId, Leg>, gone: set<LegId>, x: LegId, first: LegId, other: LegId)
    requires x in legs && x !in gone && x == first
    ensures Route(legs, gone, x, first, other, [])
  {
  }

  /** A turn that ends `y`: the route begins with its target. */
  lemma {:induction false} TurnRouteFound(legs: map<LegId, Leg>, gone: set<LegId>, s: State, n: State, t: LegId,
                                          id: LegId, y: LegId, p: LegId, first: LegId, other: LegId)
      returns (ts: seq<LegId>)
    requires At(legs, gone, s) && t in s.legs && s.legs[t].state != Ended && RingsFor(legs, t, id) && t !in gone
    requires TwoEnds(legs, y, p, first, other) && y !in gone && p !in gone
    requires n == EndLeg(s, t, "originator_cancel") && EndedWith(s, n, y, CauseWhen(y, first))
    ensures IsRoute(legs, gone, id, first, other, ts)
    decreases Live(s), 2, 1
  {
    hide At, EndLeg, Gone, Route;
    var more := [];
    AtParts(legs, gone, s);
    if t == y {
      RootCause(s, y, "originator_cancel");
      RouteHere(legs, gone, y, first, other);
    } else {
      more := RouteFound(legs, gone, s, t, "originator_cancel", y, p, first, other);
    }
    ts := [t] + more;
    assert ts[1..] == more;
  }

  /** The rest of a route after a leg that is gone: a ringing target, and on. */
  ghost predicate IsRoute(legs: map<LegId, Leg>, gone: set<LegId>, id: LegId, first: LegId, other: LegId,
                          ts: seq<LegId>) {
    ts != [] && RingsFor(legs, ts[0], id) && ts[0] !in gone && Route(legs, gone, ts[0], first, other, ts[1..])
  }

  lemma IsRouteEarlier(legs: map<LegId, Leg>, gone: set<LegId>, E: set<LegId>, id: LegId, first: LegId, other: LegId,
                       ts: seq<LegId>)
    requires Involution(legs) && E <= legs.Keys && ClosedOn(legs, gone, E) && first !in E && other !in E
    requires IsRoute(legs, gone + E, id, first, other, ts)
    ensures IsRoute(legs, gone, id, first, other, ts)
  {
    RouteEarlier(legs, gone, E, ts[0], first, other, ts[1..]);
  }

  lemma {:induction false} LoopRouteFound(legs: map<LegId, Leg>, gone: set<LegId>, s: State, id: LegId, k: nat,
                                          y: LegId, p: LegId, first: LegId, other: LegId) returns (ts: seq<LegId>)
    requires At(legs, gone, s) && id in gone && id in s.legs && k <= |s.order|
    requires TwoEnds(legs, y, p, first, other) && y !in gone && p !in gone
    requires EndedWith(s, EndPending(s, id, k), y, CauseWhen(y, first))
    ensures IsRoute(legs, gone, id, first, other, ts)
    decreases Live(s), 3, |s.order| - k
  {
    AtParts(legs, gone, s);
    if k == |s.order| {
      EndPendingDone(s, id);
      assert false;
      ts := [];
    } else {
      hide EndLeg, EndPending, At, Involution, Side, Indexed, Gone, Live, IsCut, LeastClosed, CancelIfRinging, ClosedOn,
        IsRoute, RingsFor;
      var t := s.order[k];
      var n, R := EndOneTarget(s, id, k);
      RingsAt(legs, gone, s, t, id);
      if !RingsFor(s.legs, t, id) {
        NothingRings(s, id, t);
        ts := LoopRouteFound(legs, gone, n, id, k + 1, y, p, first, other);
      } else if y in Gone(s, n) {
        TurnDecides(legs, gone, s, n, id, k, t, y, CauseWhen(y, first));
        ts := TurnRouteFound(legs, gone, s, n, t, id, y, p, first, other);
      } else {
        TurnSpares(legs, gone, s, n, id, k, t, y, p, first, other, CauseWhen(y, first));
        InvolutionAt(legs, gone, s);
        ts := LoopRouteFound(legs, gone + Gone(s, n), n, id, k + 1, y, p, first, other);
        IsRouteEarlier(legs, gone, Gone(s, n), id, first, other, ts);
      }
    }
  }

  // ------------------------------------------------------ a route can be taken

  /** Of the targets of one origin, the order lists the one in `ts` first. */
  ghost predicate Leads(legs: map<LegId, Leg>, order: seq<LegId>, ts: seq<LegId>) {
    forall i, w {:trigger Before(order, w, ts[i])} ::
      (0 <= i < |ts| && ts[i] in legs && w in legs && w != ts[i]
       && legs[w].state == Ringing && legs[w].transferOf == legs[ts[i]].transferOf) ==> !Before(order, w, ts[i])
  }

  lemma LeadsOn(legs: map<LegId, Leg>, order: seq<LegId>, ts: seq<LegId>)
    requires ts != [] && Leads(legs, order, ts)
    ensures Leads(legs, order, ts[1..])
  {
    var rest := ts[1..];
    forall i, w | 0 <= i < |rest| && rest[i] in legs && w in legs && w != rest[i]
                  && legs[w].state == Ringing && legs[w].transferOf == legs[rest[i]].transferOf
      ensures !Before(order, w, rest[i])
    {
      assert rest[i] == ts[i + 1];
      assert !Before(order, w, ts[i + 1]);
    }
  }

  /** Turns of the loop that find nobody ringing change nothing. */
  lemma {:induction false} SkipTo(s: State, id: LegId, k: nat, j: nat)
    requires id in s.legs && k <= j <= |s.order|
    requires forall i :: k <= i < j ==> !RingsFor(s.legs, s.order[i], id)
    ensures EndPending(s, id, k) == EndPending(s, id, j)
    decreases j - k
  {
    hide EndPending;
    if k < j {
      NothingRings(s, id, s.order[k]);
      EndPendingStep(s, s, id, k);
      SkipTo(s, id, k + 1, j);
    }
  }

  /** The loop comes to the target that leads before any other. */
  lemma LoopLeads(legs: map<LegId, Leg>, gone: set<LegId>, v: State, x: LegId, ts: seq<LegId>) returns (n: State, k: nat)
    requires At(legs, gone, v) && x in v.legs && ts != [] && Leads(legs, v.order, ts)
    requires RingsFor(legs, ts[0], x) && ts[0] !in gone
    ensures ts[0] in v.legs && v.legs[ts[0]].state != Ended && n == EndLeg(v, ts[0], "originator_cancel")
    ensures x in n.legs && k <= |n.order| && EndPending(v, x, 0) == EndPending(n, x, k)
    ensures Indexed(n) && Involution(n.legs) && Live(n) <= Live(v)
  {
    AtParts(legs, gone, v);
    RingsAt(legs, gone, v, ts[0], x);
    var j := PlaceOf(v, ts[0]);
    forall i | 0 <= i < j ensures !RingsFor(v.legs, v.order[i], x) {
      RingsAt(legs, gone, v, v.order[i], x);
      BeforeAt(v.order, i, j);
      ListedAt(v.order, v.legs.Keys, j);
      assert v.order[i] in v.order[..j];
    }
    hide EndPending, EndLeg, Leads, At;
    SkipTo(v, x, 0, j);
    var R;
    n, R := EndOneTarget(v, x, j);
    k := j + 1;
  }

  /** In an order that leads along the route, the hang-up takes it. */
  lemma {:induction false} RouteTaken(legs: map<LegId, Leg>, gone: set<LegId>, s: State, x: LegId, cause: string,
                                      y: LegId, p: LegId, first: LegId, other: LegId, ts: seq<LegId>)
    requires At(legs, gone, s) && x in s.legs && s.legs[x].state != Ended
    requires TwoEnds(legs, y, p, first, other) && y !in gone && p !in gone
    requires x in legs && x !in gone && Route(legs, gone, x, first, other, ts) && Leads(legs, s.order, ts)
    requires x == y && first == y ==> cause == "originator_cancel"
    ensures EndedWith(s, EndLeg(s, x, cause), y, CauseWhen(y, first))
    decreases Live(s), 2
  {
    hide EndLeg, EndPending, At, Involution, Side, Dropping, Gone, Live, Leads, IsCut;
    AtParts(legs, gone, s);
    if x == first && x == y {
      RootCause(s, y, cause);
    } else {
      var u, v, q := Descend(legs, gone, s, x, cause);
      AtParts(legs, gone + {x}, u);
      AtParts(legs, Dropping(legs, gone, x), v);
      InvolutionAt(legs, gone, s);
      DroppingIs(legs, gone, x);
      if x == first {
        PartnerDrops(legs, gone, x, y, first, other);
        RootCause(u, y, "normal_clearing");
        EndsInSide(s, u, v, x, y, "normal_clearing");
      } else if q.Some? && (first in Side(legs, gone + {x}, q.value) || other in Side(legs, gone + {x}, q.value)) {
        NotItsPartner(legs, gone, x, y, p, first, other);
        RouteTaken(legs, gone + {x}, u, q.value, "normal_clearing", y, p, first, other, ts);
        EndsInSide(s, u, v, x, y, CauseWhen(y, first));
      } else {
        BothSpared(legs, gone, u, v, x, q, y, p, first, other);
        var n, k := LoopLeads(legs, Dropping(legs, gone, x), v, x, ts);
        LeadsOn(legs, s.order, ts);
        RouteTaken(legs, Dropping(legs, gone, x), v, ts[0], "originator_cancel", y, p, first, other, ts[1..]);
        EndsInLoop(s, v, n, x, k, y, CauseWhen(y, first));
      }
    }
  }

  lemma EndsInSide(s: State, u: State, v: State, x: LegId, y: LegId, wanted: string)
    requires Live(v) <= Live(u) && Live(u) == Live(s) - {x} && EndedWith(u, v, y, wanted)
    requires x in v.legs && Indexed(v) && Involution(v.legs)
    ensures EndedWith(s, EndPending(v, x, 0), y, wanted)
  {
    hide EndPending;
    var r := LoopCut(v, x, 0);
    CauseStays(s, v, r, y);
  }

  lemma EndsInLoop(s: State, v: State, n: State, x: LegId, k: nat, y: LegId, wanted: string)
    requires Live(n) <= Live(v) <= Live(s) && EndedWith(v, n, y, wanted)
    requires x in n.legs && k <= |n.order| && Indexed(n) && Involution(n.legs)
    ensures EndedWith(s, EndPending(n, x, k), y, wanted)
  {
    hide EndPending;
    var r := LoopCut(n, x, k);
    CauseStays(s, n, r, y);
  }

  lemma BothSpared(legs: map<LegId, Leg>, gone: set<LegId>, u: State, v: State, x: LegId, q: Option<LegId>,
                   y: LegId, p: LegId, first: LegId, other: LegId)
    requires x in legs && q == DropOf(legs, gone + {x}, x) && x != y && x != p
    requires TwoEnds(legs, y, p, first, other) && y !in gone && p !in gone
    requires !(q.Some? && (first in Side(legs, gone + {x}, q.value) || other in Side(legs, gone + {x}, q.value)))
    ensures y !in Dropping(legs, gone, x) && p !in Dropping(legs, gone, x)
  {
    hide Side;
  }

  /** The targets of a route ring for different legs. */
  lemma {:induction false} RouteOrigins(legs: map<LegId, Leg>, gone: set<LegId>, x: LegId, first: LegId, other: LegId,
                                        ts: seq<LegId>)
    requires x in legs && x !in gone && Route(legs, gone, x, first, other, ts)
    ensures forall i :: 0 <= i < |ts| ==> ts[i] in legs && legs[ts[i]].transferOf.Some? && legs[ts[i]].transferOf.value !in gone
    ensures forall i, j :: 0 <= i < j < |ts| ==> legs[ts[i]].transferOf != legs[ts[j]].transferOf
    decreases legs.Keys - gone
  {
    if x != first {
      var g := gone + {x};
      var q := DropOf(legs, g, x);
      if q.Some? && (first in Side(legs, g, q.value) || other in Side(legs, g, q.value)) {
        RouteOrigins(legs, g, q.value, first, other, ts);
      } else {
        var rest := ts[1..];
        RouteOrigins(legs, Dropping(legs, gone, x), ts[0], first, other, rest);
        assert forall i :: 0 < i < |ts| ==> ts[i] == rest[i - 1];
      }
    }
  }

  // ------------------------------------------------------------- the order to take

  /** The list without the legs of `ts`. */
  ghost function Without(order: seq<LegId>, ts: seq<LegId>): seq<LegId> {
    if order == [] then []
    else Without(order[..|order| - 1], ts) + if order[|order| - 1] in ts then [] else [order[|order| - 1]]
  }

  ghost predicate Unique(xs: seq<LegId>) { forall i, j :: 0 <= i < j < |xs| ==> xs[i] != xs[j] }

  lemma UniqueSnoc(xs: seq<LegId>, x: LegId)
    requires Unique(xs) && x !in xs
    ensures Unique(xs + [x])
  {
  }

  lemma {:induction false} WithoutIs(order: seq<LegId>, ts: seq<LegId>)
    requires Unique(order)
    ensures forall z :: z in Without(order, ts) <==> z in order && z !in ts
    ensures Unique(Without(order, ts))
  {
    if order != [] {
      var init, last := order[..|order| - 1], order[|order| - 1];
      WithoutIs(init, ts);
      assert order == init + [last];
      assert last !in init;
      if last !in ts { UniqueSnoc(Without(init, ts), last); }
    }
  }

  /** The same switch with the legs of `ts` inserted first. */
  lemma LeadingOrder(s: State, ts: seq<LegId>) returns (t: State)
    requires Indexed(s) && (forall i :: 0 <= i < |ts| ==> ts[i] in s.legs && s.legs[ts[i]].transferOf.Some?)
    requires forall i, j :: 0 <= i < j < |ts| ==> s.legs[ts[i]].transferOf != s.legs[ts[j]].transferOf
    ensures Reordered(s, t) && Leads(s.legs, t.order, ts)
  {
    var w := Without(s.order, ts);
    WithoutIs(s.order, ts);
    t := s.(order := ts + w);
    ListsInFront(s.order, s.legs.Keys, ts, w);
    forall i, z | 0 <= i < |ts| && ts[i] in s.legs && z in s.legs && z != ts[i]
                  && s.legs[z].state == Ringing && s.legs[z].transferOf == s.legs[ts[i]].transferOf
      ensures !Before(t.order, z, ts[i])
    {
      InFront(s, t, ts, w, i, z);
    }
  }

  lemma ListsInFront(order: seq<LegId>, ids: set<LegId>, ts: seq<LegId>, w: seq<LegId>)
    requires Lists(order, ids) && (forall i :: 0 <= i < |ts| ==> ts[i] in ids)
    requires Unique(ts) && Unique(w)
    requires forall z :: z in w <==> z in order && z !in ts
    ensures Lists(ts + w, ids)
  {
    var all := ts + w;
    forall i | 0 <= i < |all| ensures all[i] in ids {
      if i >= |ts| { assert w[i - |ts|] in w; }
    }
    forall id | id in ids ensures id in all { assert id in order; assert id in ts || id in w; }
    forall i, j | 0 <= i < j < |all| ensures all[i] != all[j] {
      if i < |ts| <= j { assert w[j - |ts|] in w && all[i] in ts; }
    }
  }

  lemma InFront(s: State, t: State, ts: seq<LegId>, w: seq<LegId>, i: nat, z: LegId)
    requires Indexed(t) && t.order == ts + w && i < |ts| && t.legs == s.legs && z in s.legs && ts[i] in s.legs
    requires z != ts[i] && s.legs[z].transferOf == s.legs[ts[i]].transferOf
    requires forall k :: 0 <= k < |ts| ==> ts[k] in s.legs
    requires forall k, j :: 0 <= k < j < |ts| ==> s.legs[ts[k]].transferOf != s.legs[ts[j]].transferOf
    ensures !Before(t.order, z, ts[i])
  {
    assert t.order[i] == ts[i];
  }

  /** A leg can end with the cause it has when `first` is reached first, in some
      order of the legs, exactly when there is a route to `first`. */
  lemma CausePossible(s: State, id: LegId, cause: string, y: LegId, p: LegId, first: LegId, other: LegId)
    requires Indexed(s) && Involution(s.legs) && id in s.legs && s.legs[id].state != Ended && id != y && id != p
    requires TwoEnds(s.legs, y, p, first, other)
    ensures CanReachFirst(s.legs, id, first, other) <==>
            exists t :: Reordered(s, t) && EndedWith(t, EndLeg(t, id, cause), y, CauseWhen(y, first))
  {
    if t :| Reordered(s, t) && EndedWith(t, EndLeg(t, id, cause), y, CauseWhen(y, first)) {
      AtStart(s, t);
      hide EndLeg, Route;
      var ts := RouteFound(s.legs, {}, t, id, cause, y, p, first, other);
    }
    if ts :| Route(s.legs, {}, id, first, other, ts) {
      var t := OrderAlong(s, id, cause, y, p, first, other, ts);
    }
  }

  lemma AtStart(s: State, t: State)
    requires Indexed(s) && Involution(s.legs) && Reordered(s, t)
    ensures At(s.legs, {}, t)
  {
    forall x | x in s.legs ensures CutAt(s.legs, s.legs, {}, x) {}
  }

  lemma OrderAlong(s: State, id: LegId, cause: string, y: LegId, p: LegId, first: LegId, other: LegId, ts: seq<LegId>)
      returns (t: State)
    requires Indexed(s) && Involution(s.legs) && id in s.legs && s.legs[id].state != Ended && id != y && id != p
    requires TwoEnds(s.legs, y, p, first, other) && Route(s.legs, {}, id, first, other, ts)
    ensures Reordered(s, t) && EndedWith(t, EndLeg(t, id, cause), y, CauseWhen(y, first))
  {
    RouteOrigins(s.legs, {}, id, first, other, ts);
    hide EndLeg, Route, Leads;
    t := LeadingOrder(s, ts);
    AtStart(s, t);
    RouteTaken(s.legs, {}, t, id, cause, y, p, first, other, ts);
  }

  // ------------------------------------------------------------------- the theorem

  /** A contested leg ends in one of two ways. */
  lemma TwoCauses(s: State, id: LegId, cause: string, y: LegId) returns (first: LegId)
    requires Indexed(s) && Involution(s.legs) && id in s.legs && s.legs[id].state != Ended
    requires var D := Gone(s, EndLeg(s, id, cause)); y in D && Contested(s.legs, D, id, y)
    ensures first == y || Some(first) == s.legs[y].bridgedWith
    ensures EndedWith(s, EndLeg(s, id, cause), y, CauseWhen(y, first))
  {
    hide EndLeg, Told, Notices, Kept;
    var a, hs := LogOf(s, id, cause);
    var D := Gone(s, a);
    var i := AnnouncedCause(s, a, hs, D, y);
    WhyAt(s.legs, s.order, D, id, cause, hs, i);
    first := if hs[i].cause == "originator_cancel" then y else s.legs[y].bridgedWith.value;
  }

  /** If two orders give `y` different causes, the order decides how it ends. */
  lemma DifferenceIsUndecided(s: State, t: State, id: LegId, cause: string, y: LegId)
    requires Indexed(s) && Involution(s.legs) && Reordered(s, t) && id in s.legs && s.legs[id].state != Ended
    requires var D := Gone(s, EndLeg(s, id, cause));
             y in D && D == Gone(t, EndLeg(t, id, cause)) && Contested(s.legs, D, id, y)
    requires y in EndLeg(s, id, cause).legs && y in EndLeg(t, id, cause).legs
    requires EndLeg(s, id, cause).legs[y].hangupCause != EndLeg(t, id, cause).legs[y].hangupCause
    ensures Undecided(s.legs, id, y)
  {
    hide EndLeg, CanReachFirst;
    var p := s.legs[y].bridgedWith.value;
    var f := TwoCauses(s, id, cause, y);
    var g := TwoCauses(t, id, cause, y);
    assert Reordered(s, s);
    CausePossible(s, id, cause, y, p, f, if f == y then p else y);
    CausePossible(s, id, cause, y, p, g, if g == y then p else y);
  }

  /** Every order of the legs leaves the same legs, causes included, exactly when no
      leg's end is left to the order: when no two bridged legs can each be reached
      before the other. */
  lemma OrderDecides(s: State, id: LegId, cause: string)
    requires Indexed(s) && Involution(s.legs) && id in s.legs && s.legs[id].state != Ended
    ensures (forall t :: Reordered(s, t) ==> EndLeg(t, id, cause).legs == EndLeg(s, id, cause).legs)
       <==> (forall y :: !Undecided(s.legs, id, y))
  {
    hide EndLeg, Undecided;
    if y :| Undecided(s.legs, id, y) {
      var t, r := UndecidedDiffers(s, id, cause, y);
    } else {
      forall t | Reordered(s, t) ensures EndLeg(t, id, cause).legs == EndLeg(s, id, cause).legs {
        DecidedAgrees(s, t, id, cause);
      }
    }
  }

  lemma UndecidedDiffers(s: State, id: LegId, cause: string, y: LegId) returns (t: State, r: State)
    requires Indexed(s) && Involution(s.legs) && id in s.legs && s.legs[id].state != Ended
    requires Undecided(s.legs, id, y)
    ensures Reordered(s, t) && Reordered(s, r) && EndLeg(t, id, cause).legs != EndLeg(r, id, cause).legs
  {
    var p := s.legs[y].bridgedWith.value;
    var ts :| Route(s.legs, {}, id, y, p, ts);
    var rs :| Route(s.legs, {}, id, p, y, rs);
    hide EndLeg, Route;
    t := OrderAlong(s, id, cause, y, p, y, p, ts);
    r := OrderAlong(s, id, cause, y, p, p, y, rs);
  }

  lemma DecidedAgrees(s: State, t: State, id: LegId, cause: string)
    requires Indexed(s) && Involution(s.legs) && id in s.legs && s.legs[id].state != Ended && Reordered(s, t)
    requires forall y :: !Undecided(s.legs, id, y)
    ensures EndLeg(t, id, cause).legs == EndLeg(s, id, cause).legs
  {
    hide EndLeg, Undecided, Contested;
    var a, b, D := OrderDoesNotMatter(s, t, id, cause);
    var _, _, _ := OrderOfLegs(s, t, id, cause);
    forall x | x in s.legs ensures a.legs[x] == b.legs[x] {
      if x in D && a.legs[x].hangupCause != b.legs[x].hangupCause {
        if Contested(s.legs, D, id, x) { DifferenceIsUndecided(s, t, id, cause, x); }
        assert false;
      }
      SameButCause(a.legs[x], b.legs[x]);
    }
  }

  lemma SameButCause(a: Leg, b: Leg)
    requires a.(hangupCause := None) == b.(hangupCause := None)
    ensures a.hangupCause == b.hangupCause ==> a == b
  {
    assert a == a.(hangupCause := None).(hangupCause := a.hangupCause);
  }
}
