/** What the event history of the switch says on its own: where each leg of it
    stands, which legs are alive after it, and the most that ever were. Nothing
    here looks at a `State`; `VoiceInvariants.dfy` proves the two agree. */
module VoiceHistory {
  import opened VoiceSpec

  /** How far a leg has come, read off its events alone. */
  datatype Phase = Unseen | InRing | InTalk | Over(saved: bool) | Broken

  /** Broken when the event may not follow: a leg is initiated once, answered at
      most once while ringing, bridged only while alive, played to and recorded
      only while answered, hung up once, and afterwards at most one recording of
      it is saved. */
  ghost function NextPhase(p: Phase, id: LegId, e: Event): Phase {
    if e.leg != id then p
    else match (p, e)
      case (Unseen, CallInitiated(_, _)) => InRing
      case (InRing, CallAnswered(_)) => InTalk
      case (InRing, CallBridged(_)) => InRing
      case (InTalk, CallBridged(_)) => InTalk
      case (InTalk, MediaStarted(_, _)) => InTalk
      case (InTalk, MediaEnded(_, _)) => InTalk
      case (InTalk, RecordingSaved(_, _, _)) => InTalk
      case (InRing, CallHangup(_, _)) => Over(false)
      case (InTalk, CallHangup(_, _)) => Over(false)
      case (Over(false), RecordingSaved(_, _, _)) => Over(true)
      case _ => Broken
  }

  ghost function PhaseOf(h: seq<Event>, id: LegId): Phase {
    if h == [] then Unseen else NextPhase(PhaseOf(h[..|h| - 1], id), id, h[|h| - 1])
  }

  /** The legs initiated and not hung up; `outbound` keeps the outgoing ones. */
  ghost function NextAlive(a: set<LegId>, e: Event, outboundOnly: bool): set<LegId> {
    match e
    case CallInitiated(id, direction) => if outboundOnly && direction == Incoming then a else a + {id}
    case CallHangup(id, _) => a - {id}
    case _ => a
  }

  ghost function Alive(h: seq<Event>, outboundOnly: bool): set<LegId> {
    if h == [] then {} else NextAlive(Alive(h[..|h| - 1], outboundOnly), h[|h| - 1], outboundOnly)
  }

  /** The most legs alive after any prefix of the history, that is, at any moment
      of it: every leg made or ended is made or ended together with its event. */
  ghost function Peak(h: seq<Event>, outboundOnly: bool): nat {
    if h == [] then 0 else Max(Peak(h[..|h| - 1], outboundOnly), |Alive(h, outboundOnly)|)
  }

  /** The recordings the history says were saved. */
  ghost function SavedIn(h: seq<Event>): set<RecordingId> {
    if h == [] then {}
    else SavedIn(h[..|h| - 1]) + if h[|h| - 1].RecordingSaved? then {h[|h| - 1].recording} else {}
  }

  lemma Appended(h: seq<Event>, e: Event, id: LegId, outboundOnly: bool)
    ensures PhaseOf(h + [e], id) == NextPhase(PhaseOf(h, id), id, e)
    ensures Alive(h + [e], outboundOnly) == NextAlive(Alive(h, outboundOnly), e, outboundOnly)
    ensures SavedIn(h + [e]) == SavedIn(h) + if e.RecordingSaved? then {e.recording} else {}
    ensures Peak(h + [e], outboundOnly) == Max(Peak(h, outboundOnly), |Alive(h + [e], outboundOnly)|)
  {
    assert (h + [e])[..|h|] == h;
  }

  /** `Peak` is the true maximum: no prefix has more, and some prefix has as many. */
  lemma {:induction false} PeakIsMaximum(h: seq<Event>, outboundOnly: bool) returns (k: nat)
    ensures k <= |h| && |Alive(h[..k], outboundOnly)| == Peak(h, outboundOnly)
    ensures forall i :: 0 <= i <= |h| ==> |Alive(h[..i], outboundOnly)| <= Peak(h, outboundOnly)
  {
    if h == [] {
      k := 0;
    } else {
      var h' := h[..|h| - 1];
      k := PeakIsMaximum(h', outboundOnly);
      forall i | 0 <= i <= |h| ensures |Alive(h[..i], outboundOnly)| <= Peak(h, outboundOnly) {
        if i == |h| { assert h[..i] == h; } else { assert h[..i] == h'[..i]; }
      }
      if |Alive(h, outboundOnly)| > Peak(h', outboundOnly) {
        k := |h|;
        assert h[..k] == h;
      } else {
        assert h[..k] == h'[..k];
      }
    }
  }

  /** The events of one leg, in order. */
  ghost function Of(h: seq<Event>, id: LegId): seq<Event> {
    if h == [] then []
    else Of(h[..|h| - 1], id) + if h[|h| - 1].leg == id then [h[|h| - 1]] else []
  }

  /** A leg's events as a reader would list the rules. */
  ghost predicate WellFormed(es: seq<Event>, ended: bool) {
    && es != []
    && (forall i :: 0 <= i < |es| ==> (es[i].CallInitiated? <==> i == 0))
    && (forall i, j :: 0 <= i < j < |es| ==> !(es[i].CallAnswered? && es[j].CallAnswered?))
    && (ended <==> exists i :: 0 <= i < |es| && es[i].CallHangup?)
    && (forall i, j :: 0 <= i < |es| && 0 <= j < |es| && es[i].CallHangup? && es[j].CallHangup? ==> i == j)
    && (forall i, j :: 0 <= i < j < |es| && es[i].CallHangup? ==> es[j].RecordingSaved? && j == |es| - 1 == i + 1)
    && (forall j :: 0 <= j < |es| && (es[j].MediaStarted? || es[j].MediaEnded?) ==>
          exists i :: 0 <= i < j && es[i].CallAnswered?)
  }

  /** What the automaton knows of the list it has read. */
  ghost predicate Reads(es: seq<Event>, p: Phase) {
    match p
    case Unseen => es == []
    case InRing => WellFormed(es, false) && forall i :: 0 <= i < |es| ==> !es[i].CallAnswered?
    case InTalk => WellFormed(es, false) && exists i :: 0 <= i < |es| && es[i].CallAnswered?
    case Over(saved) => WellFormed(es, true) && (!saved ==> es[|es| - 1].CallHangup?)
    case Broken => true
  }

  lemma ReadsNext(es: seq<Event>, p: Phase, e: Event)
    requires Reads(es, p)
    ensures Reads(es + [e], NextPhase(p, e.leg, e))
  {
    var q := NextPhase(p, e.leg, e);
    var fs := es + [e];
    assert forall i :: 0 <= i < |es| ==> fs[i] == es[i];
    assert fs[|es|] == e;
    if q.InTalk? {
      if p.InTalk? {
        var i :| 0 <= i < |es| && es[i].CallAnswered?;
        assert fs[i].CallAnswered?;
      }
    } else if q.Over? && p.Over? {
      assert es[|es| - 1].CallHangup?;
      assert fs[|es| - 1].CallHangup?;
    }
  }

  /** A history whose automaton for a leg is in no broken phase lists the leg's
      events by the rules. */
  lemma {:induction false} PhaseReads(h: seq<Event>, id: LegId)
    ensures Reads(Of(h, id), PhaseOf(h, id))
  {
    if h != [] {
      PhaseReads(h[..|h| - 1], id);
      var e := h[|h| - 1];
      if e.leg == id { ReadsNext(Of(h[..|h| - 1], id), PhaseOf(h[..|h| - 1], id), e); }
      else { assert Of(h, id) == Of(h[..|h| - 1], id); }
    }
  }
}
