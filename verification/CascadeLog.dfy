/** What a hang-up tells the world (`endLeg`, lines 348-368 of
    apps/api/e2e/fake-telnyx-voice.ts): which events it emits and which
    recordings it keeps, in the order the legs end, and why each leg ends. */
module CascadeLog {
  import opened Wrappers
  import opened VoiceSpec
  import opened Cascade

  /** A leg that ended, and the cause it ended with. */
  datatype Hangup = Hangup(leg: LegId, cause: string)

  ghost predicate Named(legs: map<LegId, Leg>, hs: seq<Hangup>) {
    forall h :: h in hs ==> h.leg in legs
  }

  ghost function LegsOf(hs: seq<Hangup>): set<LegId> { set h | h in hs :: h.leg }

  /** A leg's end is announced, and then the recording it had open, if any. */
  ghost function Notice(leg: Leg, h: Hangup): seq<Event> {
    [CallHangup(h.leg, h.cause)]
    + match leg.recording
      case None => []
      case Some(rec) => [RecordingSaved(h.leg, rec, leg.messageSeconds)]
  }

  ghost function Notices(legs: map<LegId, Leg>, hs: seq<Hangup>): seq<Event>
    requires Named(legs, hs)
  {
    if hs == [] then []
    else Notices(legs, hs[..|hs| - 1]) + Notice(legs[hs[|hs| - 1].leg], hs[|hs| - 1])
  }

  ghost function KeptNext(leg: Leg, recordings: map<RecordingId, Recording>, h: Hangup): map<RecordingId, Recording> {
    match leg.recording
    case None => recordings
    case Some(rec) => recordings[rec := Recording(h.leg, false)]
  }

  /** The recordings kept once the legs of `hs` are over. */
  ghost function Kept(legs: map<LegId, Leg>, recordings: map<RecordingId, Recording>,
                      hs: seq<Hangup>): map<RecordingId, Recording>
    requires Named(legs, hs)
  {
    if hs == [] then recordings
    else KeptNext(legs[hs[|hs| - 1].leg], Kept(legs, recordings, hs[..|hs| - 1]), hs[|hs| - 1])
  }

  /** From `s` to `r` the legs of `hs` ended: their notices, leg by leg, are all
      that was emitted, their recordings all that was kept, and each leg's record
      has the cause that was announced. */
  ghost predicate Announces(s: State, r: State, hs: seq<Hangup>) {
    && Named(s.legs, hs)
    && r.history == s.history + Notices(s.legs, hs)
    && r.outbox == s.outbox + Notices(s.legs, hs)
    && r.recordings == Kept(s.legs, s.recordings, hs)
    && (forall h :: h in hs ==> h.leg in r.legs && r.legs[h.leg].hangupCause == Some(h.cause))
  }

  // --------------------------------------------------- notices one after another

  lemma LegsOfJoin(a: seq<Hangup>, b: seq<Hangup>)
    ensures LegsOf(a + b) == LegsOf(a) + LegsOf(b)
  {
    forall x | x in LegsOf(a) + LegsOf(b) ensures x in LegsOf(a + b) {
      var h :| (h in a || h in b) && h.leg == x;
      assert h in a + b;
    }
  }

  /** Notices look at nothing of a leg but its recording. */
  ghost predicate SameTape(a: map<LegId, Leg>, b: map<LegId, Leg>, x: LegId) {
    x in a && x in b && a[x].recording == b[x].recording && a[x].messageSeconds == b[x].messageSeconds
  }

  lemma NoticesLast(legs: map<LegId, Leg>, recordings: map<RecordingId, Recording>, hs: seq<Hangup>, h: Hangup)
    requires Named(legs, hs) && h.leg in legs
    ensures Named(legs, hs + [h]) && Notices(legs, hs + [h]) == Notices(legs, hs) + Notice(legs[h.leg], h)
    ensures Kept(legs, recordings, hs + [h]) == KeptNext(legs[h.leg], Kept(legs, recordings, hs), h)
  {
    assert (hs + [h])[..|hs|] == hs;
  }

  lemma NoNotices(legs: map<LegId, Leg>, recordings: map<RecordingId, Recording>)
    ensures Notices(legs, []) == [] && Kept(legs, recordings, []) == recordings
  {
  }

  lemma SplitLast(hs: seq<Hangup>) returns (init: seq<Hangup>, last: Hangup)
    requires hs != []
    ensures hs == init + [last] && |init| < |hs| && LegsOf(hs) == LegsOf(init) + {last.leg}
  {
    init, last := hs[..|hs| - 1], hs[|hs| - 1];
    assert hs == init + [last];
    LegsOfJoin(init, [last]);
    assert LegsOf([last]) == {last.leg};
  }

  lemma {:induction false} NoticesJoin(a: map<LegId, Leg>, b: map<LegId, Leg>,
                                       recordings: map<RecordingId, Recording>, g: seq<Hangup>, h: seq<Hangup>)
    requires Named(a, g) && Named(b, h)
    requires forall x :: x in LegsOf(h) ==> SameTape(a, b, x)
    ensures Named(a, g + h)
    ensures Notices(a, g + h) == Notices(a, g) + Notices(b, h)
    ensures Kept(a, recordings, g + h) == Kept(b, Kept(a, recordings, g), h)
    decreases |h|
  {
    hide Notices, Kept, LegsOf, Notice, KeptNext;
    if h == [] {
      assert g + h == g;
      NoNotices(b, Kept(a, recordings, g));
    } else {
      var h', last := SplitLast(h);
      assert last in h;
      assert SameTape(a, b, last.leg);
      NoticesJoin(a, b, recordings, g, h');
      assert g + h == g + h' + [last];
      NoticesLast(a, recordings, g + h', last);
      NoticesLast(b, Kept(a, recordings, g), h', last);
      SameNotice(a[last.leg], b[last.leg], Kept(a, recordings, g + h'), last);
    }
  }

  lemma SameNotice(a: Leg, b: Leg, recordings: map<RecordingId, Recording>, h: Hangup)
    requires a.recording == b.recording && a.messageSeconds == b.messageSeconds
    ensures Notice(a, h) == Notice(b, h) && KeptNext(a, recordings, h) == KeptNext(b, recordings, h)
  {
  }

  lemma AnnouncesJoin(a: State, b: State, c: State, g: seq<Hangup>, h: seq<Hangup>)
    requires Announces(a, b, g) && Announces(b, c, h)
    requires forall x :: x in LegsOf(h) ==> SameTape(a.legs, b.legs, x)
    requires forall x :: x in LegsOf(g) ==> x in c.legs && c.legs[x].hangupCause == b.legs[x].hangupCause
    ensures Announces(a, c, g + h)
  {
    hide Notices, Kept;
    NoticesJoin(a.legs, b.legs, a.recordings, g, h);
    assert a.history + Notices(a.legs, g) + Notices(b.legs, h) == a.history + (Notices(a.legs, g) + Notices(b.legs, h));
    assert a.outbox + Notices(a.legs, g) + Notices(b.legs, h) == a.outbox + (Notices(a.legs, g) + Notices(b.legs, h));
    forall x | x in g + h ensures x.leg in c.legs && c.legs[x.leg].hangupCause == Some(x.cause) {
      if x in g { assert x.leg in LegsOf(g); }
    }
  }

  /** Two cascades in a row announce the one's legs and then the other's. */
  lemma CascadesAnnounce(a: State, b: State, c: State, g: seq<Hangup>, h: seq<Hangup>, D: set<LegId>, E: set<LegId>)
    requires Announces(a, b, g) && Announces(b, c, h)
    requires IsCut(a.legs, b.legs, D) && IsCut(b.legs, c.legs, E)
    requires LegsOf(g) == D && LegsOf(h) == E && D !! E
    ensures Announces(a, c, g + h) && LegsOf(g + h) == D + E
  {
    forall x | x in LegsOf(h) ensures SameTape(a.legs, b.legs, x) { assert CutAt(a.legs, b.legs, D, x); }
    forall x | x in LegsOf(g) ensures x in c.legs && c.legs[x].hangupCause == b.legs[x].hangupCause {
      assert CutAt(b.legs, c.legs, E, x);
    }
    AnnouncesJoin(a, b, c, g, h);
    LegsOfJoin(g, h);
  }

  // ------------------------------------------------------------- why a leg ends

  /** `a` comes before `b` in the order the switch walks its legs in. */
  ghost predicate Before(order: seq<LegId>, a: LegId, b: LegId) {
    exists i, j :: 0 <= i < j < |order| && order[i] == a && order[j] == b
  }

  /** The other end of the leg's bridge is over, and the leg did not ask to be parked. */
  ghost predicate DroppedBy(legs: map<LegId, Leg>, gone: set<LegId>, x: LegId)
    requires x in legs
  {
    legs[x].bridgedWith.Some? && legs[x].bridgedWith.value in gone && !legs[x].parkAfterUnbridge
  }

  /** The leg rings for one that is over, whose targets listed earlier are over too. */
  ghost predicate CancelledBy(legs: map<LegId, Leg>, order: seq<LegId>, gone: set<LegId>, x: LegId)
    requires x in legs
  {
    && legs[x].state == Ringing && legs[x].transferOf.Some? && legs[x].transferOf.value in gone
    && forall t :: RingsFor(legs, t, legs[x].transferOf.value) && Before(order, t, x) ==> t in gone
  }

  /** Once the legs of `gone` are over, `h` is a leg that ends next, and why: its
      bridge dropped it, or else its origin cancelled it. */
  ghost predicate Justified(legs: map<LegId, Leg>, order: seq<LegId>, gone: set<LegId>, h: Hangup) {
    && h.leg in legs && h.leg !in gone
    && if DroppedBy(legs, gone, h.leg) then h.cause == "normal_clearing"
       else h.cause == "originator_cancel" && CancelledBy(legs, order, gone, h.leg)
  }

  /** Each leg of `hs` ends for a reason given by the legs over before it. */
  ghost predicate Told(legs: map<LegId, Leg>, order: seq<LegId>, seed: set<LegId>, hs: seq<Hangup>) {
    forall i :: 0 <= i < |hs| ==> Justified(legs, order, seed + LegsOf(hs[..i]), hs[i])
  }

  lemma ToldJoin(legs: map<LegId, Leg>, order: seq<LegId>, seed: set<LegId>, g: seq<Hangup>, h: seq<Hangup>)
    requires Told(legs, order, seed, g) && Told(legs, order, seed + LegsOf(g), h)
    ensures Told(legs, order, seed, g + h)
  {
    forall i | 0 <= i < |g + h| ensures Justified(legs, order, seed + LegsOf((g + h)[..i]), (g + h)[i]) {
      if i < |g| {
        assert (g + h)[..i] == g[..i];
      } else {
        assert (g + h)[..i] == g + h[..i - |g|];
        LegsOfJoin(g, h[..i - |g|]);
        assert seed + (LegsOf(g) + LegsOf(h[..i - |g|])) == seed + LegsOf(g) + LegsOf(h[..i - |g|]);
      }
    }
  }

  lemma {:induction false} ToldOne(legs: map<LegId, Leg>, order: seq<LegId>, seed: set<LegId>, h: Hangup, hs: seq<Hangup>)
    requires Justified(legs, order, seed, h) && Told(legs, order, seed + {h.leg}, hs)
    ensures Told(legs, order, seed, [h] + hs)
  {
    assert [h][..0] == [] && LegsOf([]) == {} && seed + {} == seed;
    assert LegsOf([h]) == {h.leg};
    ToldJoin(legs, order, seed, [h], hs);
  }

  /** The reasons found after the legs of `X` were cut out are reasons in the
      state before, where those legs count as over. */
  lemma ToldBefore(a: map<LegId, Leg>, b: map<LegId, Leg>, order: seq<LegId>, X: set<LegId>,
                   seed: set<LegId>, hs: seq<Hangup>)
    requires IsCut(a, b, X) && Told(b, order, seed, hs)
    requires forall x :: x in LegsOf(hs) ==> x !in X && x in a && !DroppedBy(a, X, x)
    ensures Told(a, order, seed + X, hs)
  {
    forall i | 0 <= i < |hs| ensures Justified(a, order, seed + X + LegsOf(hs[..i]), hs[i]) {
      assert hs[i].leg in LegsOf(hs);
      JustifiedBefore(a, b, order, X, seed + LegsOf(hs[..i]), hs[i]);
      assert seed + LegsOf(hs[..i]) + X == seed + X + LegsOf(hs[..i]);
    }
  }

  lemma JustifiedBefore(a: map<LegId, Leg>, b: map<LegId, Leg>, order: seq<LegId>, X: set<LegId>,
                        gone: set<LegId>, h: Hangup)
    requires IsCut(a, b, X) && Justified(b, order, gone, h)
    requires h.leg !in X && h.leg in a && !DroppedBy(a, X, h.leg)
    ensures Justified(a, order, gone + X, h)
  {
    assert CutAt(a, b, X, h.leg);
    if !DroppedBy(b, gone, h.leg) {
      var o := b[h.leg].transferOf.value;
      forall t | RingsFor(a, t, o) && Before(order, t, h.leg) ensures t in gone + X {
        assert CutAt(a, b, X, t);
      }
    }
  }

  /** A leg that was over all along may be counted among those that are. */
  lemma ToldOver(legs: map<LegId, Leg>, order: seq<LegId>, seed: set<LegId>, id: LegId, hs: seq<Hangup>)
    requires Involution(legs) && id in legs && legs[id].state == Ended && id !in LegsOf(hs)
    requires Told(legs, order, seed, hs)
    ensures Told(legs, order, {id} + seed, hs)
  {
    forall i | 0 <= i < |hs| ensures Justified(legs, order, {id} + seed + LegsOf(hs[..i]), hs[i]) {
      assert hs[i].leg in LegsOf(hs) && Justified(legs, order, seed + LegsOf(hs[..i]), hs[i]);
      assert Paired(legs, hs[i].leg);
    }
  }

  // ------------------------------------------------------------- the whole log

  /** Whoever is bridged to a leg of `D` and did not ask to be parked is in `D`. */
  ghost predicate KeepsBridges(legs: map<LegId, Leg>, D: set<LegId>) {
    forall x :: x in legs && DroppedBy(legs, D, x) ==> x in D
  }

  lemma ClosedKeepsBridges(legs: map<LegId, Leg>, D: set<LegId>)
    requires Involution(legs) && Closed(legs, D)
    ensures KeepsBridges(legs, D)
  {
    forall x | x in legs && DroppedBy(legs, D, x) ensures x in D {
      assert Paired(legs, x);
      assert legs[x].bridgedWith.value == x || Drags(legs, legs[x].bridgedWith.value, x);
    }
  }

  lemma OneNotice(legs: map<LegId, Leg>, recordings: map<RecordingId, Recording>, h: Hangup)
    requires h.leg in legs
    ensures Named(legs, [h]) && Notices(legs, [h]) == Notice(legs[h.leg], h)
    ensures Kept(legs, recordings, [h]) == KeptNext(legs[h.leg], recordings, h)
  {
    NoNotices(legs, recordings);
    assert [] + [h] == [h];
    NoticesLast(legs, recordings, [], h);
    assert [] + Notice(legs[h.leg], h) == Notice(legs[h.leg], h);
  }

  lemma MarkEndedTells(s: State, id: LegId, cause: string)
    requires id in s.legs
    ensures var m := MarkEnded(s, id, cause); var h := Hangup(id, cause);
            && m.history == s.history + Notice(s.legs[id], h) && m.outbox == s.outbox + Notice(s.legs[id], h)
            && m.recordings == KeptNext(s.legs[id], s.recordings, h) && m.legs[id].hangupCause == Some(cause)
  {
  }

  lemma UnlinkIsSilent(m: State, id: LegId)
    requires id in m.legs
    ensures var u := Unlink(m, id);
            && u.history == m.history && u.outbox == m.outbox && u.recordings == m.recordings
            && u.legs[id].hangupCause == m.legs[id].hangupCause
  {
  }

  lemma AloneAnnounced(s: State, id: LegId, cause: string)
    requires id in s.legs
    ensures Announces(s, Unlink(MarkEnded(s, id, cause), id), [Hangup(id, cause)])
  {
    hide MarkEnded, Unlink, Notices, Kept, Notice, KeptNext;
    MarkEndedTells(s, id, cause);
    UnlinkIsSilent(MarkEnded(s, id, cause), id);
    OneNotice(s.legs, s.recordings, Hangup(id, cause));
  }

  /** `endLeg` up to its loop. */
  lemma {:induction false} DroppedLog(s: State, id: LegId, cause: string) returns (v: State, hs: seq<Hangup>)
    requires Indexed(s) && Involution(s.legs) && id in s.legs && s.legs[id].state != Ended
    ensures v == Unbridge(MarkEnded(s, id, cause), id)
    ensures Announces(s, v, hs) && LegsOf(hs) == Gone(s, v) && IsCut(s.legs, v.legs, Gone(s, v))
    ensures Live(v) <= Live(s) - {id} && id in Live(s)
    ensures v.order == s.order && Indexed(v) && Involution(v.legs) && KeepsBridges(s.legs, Gone(s, v))
    ensures hs != [] && hs[0] == Hangup(id, cause) && Told(s.legs, s.order, {id}, hs[1..])
    decreases Live(s), 1, 0
  {
    var u, R := LegAlone(s, id, cause);
    AloneAnnounced(s, id, cause);
    v := Unbridge(MarkEnded(s, id, cause), id);
    var first := [Hangup(id, cause)];
    match Dropped(MarkEnded(s, id, cause), id) {
      case None =>
        hs := first;
        AloneTold(s, u, id, cause, hs);
      case Some(p) =>
        assert R == {p};
        EndLegCascade(u, p, "normal_clearing");
        hide Announces, Told, IsCut, Notices, Involution, Indexed;
        var more := EndLegLog(u, p, "normal_clearing");
        DroppedJoin(s, u, v, id, p, cause, first, more);
        hs := first + more;
        assert hs[1..] == more;
    }
  }

  lemma AloneTold(s: State, u: State, id: LegId, cause: string, hs: seq<Hangup>)
    requires Involution(s.legs) && id in s.legs && s.legs[id].state != Ended
    requires Dropped(MarkEnded(s, id, cause), id).None? && hs == [Hangup(id, cause)]
    requires Live(u) == Live(s) - {id}
    ensures LegsOf(hs) == {id} == Gone(s, u) && KeepsBridges(s.legs, {id})
    ensures Told(s.legs, s.order, {id}, hs[1..])
  {
    assert hs[1..] == [];
    MarkEndedLeg(s, id, cause);
    forall x | x in s.legs && DroppedBy(s.legs, {id}, x) ensures x == id { assert Paired(s.legs, x); }
  }

  lemma GoneOnce(a: set<LegId>, b: set<LegId>, c: set<LegId>, id: LegId)
    requires id in a && b == a - {id} && c <= b
    ensures a - c == {id} + (b - c) && id !in b - c
  {
  }

  lemma DroppedJoin(s: State, u: State, v: State, id: LegId, p: LegId, cause: string,
                    first: seq<Hangup>, more: seq<Hangup>)
    requires Indexed(s) && Involution(s.legs) && id in s.legs && s.legs[id].state != Ended
    requires Dropped(MarkEnded(s, id, cause), id) == Some(p) && first == [Hangup(id, cause)]
    requires Announces(s, u, first) && IsCut(s.legs, u.legs, {id}) && Involution(u.legs) && u.order == s.order
    requires Live(u) == Live(s) - {id} && id in Live(s) && Live(v) <= Live(u)
    requires v.legs.Keys == u.legs.Keys && v.order == u.order && Indexed(u)
    requires Announces(u, v, more) && LegsOf(more) == Gone(u, v) && Ends(u.legs, v.legs, {p}, Gone(u, v))
    requires more != [] && more[0] == Hangup(p, "normal_clearing") && Told(u.legs, u.order, {p}, more[1..])
    ensures Announces(s, v, first + more) && LegsOf(first + more) == Gone(s, v)
    ensures IsCut(s.legs, v.legs, Gone(s, v)) && Involution(v.legs) && Indexed(v)
    ensures KeepsBridges(s.legs, Gone(s, v)) && Told(s.legs, s.order, {id}, more)
  {
    var D := Gone(u, v);
    MarkEndedLeg(s, id, cause);
    assert LegsOf(first) == {id};
    GoneOnce(Live(s), Live(u), Live(v), id);
    hide Gone, Live, Notices, Announces;
    CascadesAnnounce(s, u, v, first, more, {id}, D);
    CutCompose(s.legs, u.legs, v.legs, {id}, D);
    CutInvolution(u.legs, v.legs, D);
    DroppedPartner(s, u, id, p, cause, D);
    PartnerTold(s, u, id, p, more, D);
  }

  /** What a partner's cascade takes along is closed under the bridges there were. */
  lemma DroppedPartner(s: State, u: State, id: LegId, p: LegId, cause: string, D: set<LegId>)
    requires Involution(s.legs) && id in s.legs && s.legs[id].state != Ended
    requires MarkEnded(s, id, cause).legs
          == s.legs[id := s.legs[id].(state := Ended, recording := None, hangupCause := Some(cause))]
    requires Dropped(MarkEnded(s, id, cause), id) == Some(p)
    requires IsCut(s.legs, u.legs, {id}) && Involution(u.legs) && Closed(u.legs, D) && p in D
    ensures p in s.legs && p != id && DroppedBy(s.legs, {id}, p)
    ensures forall x :: x in s.legs && DroppedBy(s.legs, {id}, x) ==> x == id || x == p
    ensures KeepsBridges(s.legs, {id} + D)
  {
    assert Paired(s.legs, id);
    forall x | x in s.legs && DroppedBy(s.legs, {id}, x) ensures x == id || x == p { assert Paired(s.legs, x); }
    ClosedKeepsBridges(u.legs, D);
    forall x | x in s.legs && DroppedBy(s.legs, {id} + D, x) ensures x in {id} + D {
      assert CutAt(s.legs, u.legs, {id}, x);
      if x != id && s.legs[x].bridgedWith != Some(id) { assert DroppedBy(u.legs, D, x); }
    }
  }

  lemma PartnerTold(s: State, u: State, id: LegId, p: LegId, more: seq<Hangup>, D: set<LegId>)
    requires IsCut(s.legs, u.legs, {id}) && u.order == s.order
    requires p in s.legs && p != id && DroppedBy(s.legs, {id}, p)
    requires forall x :: x in s.legs && DroppedBy(s.legs, {id}, x) ==> x == id || x == p
    requires LegsOf(more) == D && id !in D && D <= s.legs.Keys
    requires more != [] && more[0] == Hangup(p, "normal_clearing") && Told(u.legs, u.order, {p}, more[1..])
    ensures Told(s.legs, s.order, {id}, more)
  {
    var rest := more[1..];
    assert more == [more[0]] + rest;
    LegsOfJoin([more[0]], rest);
    forall i | 0 <= i < |rest| ensures rest[i].leg != p {
      assert Justified(u.legs, u.order, {p} + LegsOf(rest[..i]), rest[i]);
    }
    ToldBefore(s.legs, u.legs, s.order, {id}, {p}, rest);
    assert {p} + {id} == {id} + {p};
    ToldOne(s.legs, s.order, {id}, more[0], rest);
  }

  /** No target of `id` listed before position `k` still rings for it. */
  ghost predicate Settled(s: State, id: LegId, k: nat)
    requires k <= |s.order|
  {
    forall i :: 0 <= i < k ==> !RingsFor(s.legs, s.order[i], id)
  }

  /** The theorem of the log. Ending a live leg announces the end of every leg
      that goes, once each and the leg itself first, saves their recordings and no
      others, and emits nothing else; and each of the others ends for a reason
      given by the legs over before it. */
  lemma {:induction false} EndLegLog(s: State, id: LegId, cause: string) returns (hs: seq<Hangup>)
    requires Indexed(s) && Involution(s.legs) && id in s.legs && s.legs[id].state != Ended
    ensures var r := EndLeg(s, id, cause);
            Announces(s, r, hs) && LegsOf(hs) == Gone(s, r)
    ensures hs != [] && hs[0] == Hangup(id, cause) && Told(s.legs, s.order, {id}, hs[1..])
    decreases Live(s), 2, 0
  {
    hide EndLeg, EndPending, Unbridge, MarkEnded, Announces, Told, Involution, Indexed, IsCut, LegsOf, KeepsBridges, Notices;
    var v, g := DroppedLog(s, id, cause);
    EndLegUpToLoop(s, id, cause, v);
    CutEnds(s.legs, v.legs, Gone(s, v), id);
    NoneSettled(v, id);
    var h := EndPendingLog(v, id, 0);
    var r := LoopCut(v, id, 0);
    LoopJoin(s, v, r, id, g, h);
    hs := g + h;
    assert hs[1..] == g[1..] + h;
  }

  lemma EndLegUpToLoop(s: State, id: LegId, cause: string, v: State)
    requires id in s.legs && s.legs[id].state != Ended && v == Unbridge(MarkEnded(s, id, cause), id)
    ensures id in v.legs && id in s.legs && EndLeg(s, id, cause) == EndPending(v, id, 0)
    ensures id in Gone(s, v) && Live(v) <= Live(s)
  {
  }

  lemma LoopCut(v: State, id: LegId, k: nat) returns (r: State)
    requires Indexed(v) && Involution(v.legs) && id in v.legs && k <= |v.order|
    ensures r == EndPending(v, id, k) && IsCut(v.legs, r.legs, Gone(v, r)) && Live(r) <= Live(v)
  {
    r := EndPending(v, id, k);
    EndPendingCascade(v, id, k);
  }

  lemma NoneSettled(s: State, id: LegId)
    ensures Settled(s, id, 0)
  {
  }

  lemma CutEnds(a: map<LegId, Leg>, b: map<LegId, Leg>, D: set<LegId>, id: LegId)
    requires IsCut(a, b, D) && id in a && id in D
    ensures id in b && b[id].state == Ended
  {
    assert CutAt(a, b, D, id);
  }

  lemma LoopJoin(s: State, v: State, r: State, id: LegId, g: seq<Hangup>, h: seq<Hangup>)
    requires Announces(s, v, g) && LegsOf(g) == Gone(s, v) && IsCut(s.legs, v.legs, Gone(s, v))
    requires Announces(v, r, h) && LegsOf(h) == Gone(v, r) && IsCut(v.legs, r.legs, Gone(v, r))
    requires Live(r) <= Live(v) <= Live(s) && v.order == s.order && KeepsBridges(s.legs, Gone(s, v))
    requires g != [] && g[0].leg == id && Told(s.legs, s.order, {id}, g[1..]) && Told(v.legs, s.order, {id}, h)
    ensures Announces(s, r, g + h) && LegsOf(g + h) == Gone(s, r)
    ensures Told(s.legs, s.order, {id}, g[1..] + h)
  {
    var G, E := Gone(s, v), Gone(v, r);
    GoneSplits(s, v, r);
    NotBridged(s, v, r, G, E);
    assert g == [g[0]] + g[1..];
    LegsOfJoin([g[0]], g[1..]);
    assert LegsOf([g[0]]) == {id};
    hide Announces, Told, LegsOf, Gone, IsCut, KeepsBridges, Live;
    CascadesAnnounce(s, v, r, g, h, G, E);
    ToldBefore(s.legs, v.legs, s.order, G, {id}, h);
    assert {id} + G == {id} + LegsOf(g[1..]);
    ToldJoin(s.legs, s.order, {id}, g[1..], h);
  }

  /** Legs that end later were not dropped by those that ended before. */
  lemma NotBridged(s: State, v: State, r: State, G: set<LegId>, E: set<LegId>)
    requires G == Gone(s, v) && E == Gone(v, r) && Live(r) <= Live(v) <= Live(s) && KeepsBridges(s.legs, G)
    ensures G !! E
    ensures forall x :: x in E ==> x !in G && x in s.legs && !DroppedBy(s.legs, G, x)
  {
  }

  lemma NothingTold(s: State, id: LegId)
    ensures Announces(s, s, []) && LegsOf([]) == Gone(s, s) && Told(s.legs, s.order, {id}, [])
  {
    NoNotices(s.legs, s.recordings);
  }

  lemma {:induction false} EndPendingLog(s: State, id: LegId, k: nat) returns (hs: seq<Hangup>)
    requires Indexed(s) && Involution(s.legs) && id in s.legs && s.legs[id].state == Ended
    requires k <= |s.order| && Settled(s, id, k)
    ensures var r := EndPending(s, id, k);
            Announces(s, r, hs) && LegsOf(hs) == Gone(s, r)
    ensures Told(s.legs, s.order, {id}, hs)
    decreases Live(s), 3, |s.order| - k
  {
    hide EndPending, Announces, Told, Involution, Indexed, IsCut, LegsOf, KeepsBridges, Notices, Settled, Gone;
    if k == |s.order| {
      EndPendingDone(s, id);
      hs := [];
      NothingTold(s, id);
    } else {
      var n, g := TurnLog(s, id, k);
      var h := EndPendingLog(n, id, k + 1);
      var r := LoopCut(n, id, k + 1);
      TurnsJoin(s, n, r, id, g, h);
      hs := g + h;
    }
  }

  lemma TurnsJoin(s: State, n: State, r: State, id: LegId, g: seq<Hangup>, h: seq<Hangup>)
    requires Announces(s, n, g) && LegsOf(g) == Gone(s, n) && IsCut(s.legs, n.legs, Gone(s, n))
    requires Announces(n, r, h) && LegsOf(h) == Gone(n, r) && IsCut(n.legs, r.legs, Gone(n, r))
    requires Live(r) <= Live(n) <= Live(s) && n.order == s.order && KeepsBridges(s.legs, Gone(s, n))
    requires Told(s.legs, s.order, {id}, g) && Told(n.legs, s.order, {id}, h)
    ensures Announces(s, r, g + h) && LegsOf(g + h) == Gone(s, r)
    ensures Told(s.legs, s.order, {id}, g + h)
  {
    var G, E := Gone(s, n), Gone(n, r);
    GoneSplits(s, n, r);
    NotBridged(s, n, r, G, E);
    hide Announces, Told, LegsOf, Gone, IsCut, KeepsBridges, Live;
    CascadesAnnounce(s, n, r, g, h, G, E);
    ToldBefore(s.legs, n.legs, s.order, G, {id}, h);
    ToldJoin(s.legs, s.order, {id}, g, h);
  }

  /** A turn of the loop settles the leg at its position. */
  lemma TurnSettles(s: State, n: State, id: LegId, k: nat, R: set<LegId>)
    requires k < |s.order| && n.order == s.order && Settled(s, id, k)
    requires R == if RingsFor(s.legs, s.order[k], id) then {s.order[k]} else {}
    requires Ends(s.legs, n.legs, R, Gone(s, n)) && id in s.legs && s.legs[id].state == Ended
    ensures Settled(n, id, k + 1) && n.legs[id].state == Ended
  {
    forall i | 0 <= i < k + 1 ensures !RingsFor(n.legs, n.order[i], id) {
      if s.order[i] in s.legs { assert CutAt(s.legs, n.legs, Gone(s, n), s.order[i]); }
    }
    assert CutAt(s.legs, n.legs, Gone(s, n), id);
  }

  lemma TurnTold(s: State, id: LegId, k: nat, hs: seq<Hangup>, D: set<LegId>)
    requires Indexed(s) && Involution(s.legs) && id in s.legs && s.legs[id].state == Ended
    requires k < |s.order| && Settled(s, id, k) && RingsFor(s.legs, s.order[k], id)
    requires LegsOf(hs) == D && id !in D
    requires hs != [] && hs[0] == Hangup(s.order[k], "originator_cancel")
    requires Told(s.legs, s.order, {s.order[k]}, hs[1..])
    ensures Told(s.legs, s.order, {id}, hs)
  {
    var t := s.order[k];
    assert hs == [hs[0]] + hs[1..];
    LegsOfJoin([hs[0]], hs[1..]);
    ToldOver(s.legs, s.order, {t}, id, hs[1..]);
    assert Paired(s.legs, t);
    assert Justified(s.legs, s.order, {id}, hs[0]);
    ToldOne(s.legs, s.order, {id}, hs[0], hs[1..]);
  }

  /** One turn of the loop. */
  lemma {:induction false} TurnLog(s: State, id: LegId, k: nat) returns (n: State, hs: seq<Hangup>)
    requires Indexed(s) && Involution(s.legs) && id in s.legs && s.legs[id].state == Ended
    requires k < |s.order| && Settled(s, id, k)
    ensures n.order == s.order && n.legs.Keys == s.legs.Keys && Live(n) <= Live(s) && Indexed(n)
    ensures Involution(n.legs) && n.legs[id].state == Ended && Settled(n, id, k + 1)
    ensures EndPending(s, id, k) == EndPending(n, id, k + 1)
    ensures Announces(s, n, hs) && LegsOf(hs) == Gone(s, n) && IsCut(s.legs, n.legs, Gone(s, n))
    ensures KeepsBridges(s.legs, Gone(s, n)) && Told(s.legs, s.order, {id}, hs)
    decreases Live(s), 2, 1
  {
    hide EndPending, EndLeg;
    var t := s.order[k];
    var R;
    n, R := EndOneTarget(s, id, k);
    ClosedKeepsBridges(s.legs, Gone(s, n));
    TurnSettles(s, n, id, k, R);
    if RingsFor(s.legs, t, id) {
      hs := EndLegLog(s, t, "originator_cancel");
      TurnTold(s, id, k, hs, Gone(s, n));
    } else {
      hs := [];
    }
  }

  // ------------------------------------------------------ what the log amounts to

  /** No leg ends twice. */
  ghost predicate Once(hs: seq<Hangup>) {
    forall i, j :: 0 <= i < j < |hs| ==> hs[i].leg != hs[j].leg
  }

  lemma ToldOnce(legs: map<LegId, Leg>, order: seq<LegId>, h: Hangup, hs: seq<Hangup>)
    requires Told(legs, order, {h.leg}, hs)
    ensures Once([h] + hs)
  {
    var all := [h] + hs;
    forall i, j | 0 <= i < j < |all| ensures all[i].leg != all[j].leg {
      assert Justified(legs, order, {h.leg} + LegsOf(hs[..j - 1]), hs[j - 1]);
      if i > 0 { assert hs[i - 1] == hs[..j - 1][i - 1]; }
    }
  }

  /** The recordings open on legs of `D`. */
  ghost function Tapes(legs: map<LegId, Leg>, D: set<LegId>): set<RecordingId> {
    set x | x in D && x in legs && legs[x].recording.Some? :: legs[x].recording.value
  }

  /** The recordings open on legs of `D` were kept as theirs, and no others changed. */
  ghost predicate KeepsTapes(legs: map<LegId, Leg>, D: set<LegId>, before: map<RecordingId, Recording>,
                             after: map<RecordingId, Recording>) {
    && after.Keys == before.Keys + Tapes(legs, D)
    && (forall x :: x in D && x in legs && legs[x].recording.Some? ==>
          after[legs[x].recording.value] == Recording(x, false))
    && (forall rec :: rec in before && rec !in Tapes(legs, D) ==> after[rec] == before[rec])
  }

  lemma {:induction false} KeptTapes(legs: map<LegId, Leg>, recordings: map<RecordingId, Recording>, hs: seq<Hangup>)
    requires Named(legs, hs) && OwnRecordings(legs)
    ensures KeepsTapes(legs, LegsOf(hs), recordings, Kept(legs, recordings, hs))
    decreases |hs|
  {
    hide Kept, LegsOf;
    if hs == [] {
      NoNotices(legs, recordings);
      NobodyEnds(hs);
    } else {
      var init, last := SplitLast(hs);
      assert last in hs;
      KeptTapes(legs, recordings, init);
      NoticesLast(legs, recordings, init, last);
      OneTape(legs, LegsOf(init), recordings, Kept(legs, recordings, init), last);
    }
  }

  lemma NobodyEnds(hs: seq<Hangup>)
    requires hs == []
    ensures LegsOf(hs) == {}
  {
  }

  lemma OneTape(legs: map<LegId, Leg>, D: set<LegId>, recordings: map<RecordingId, Recording>,
                kept: map<RecordingId, Recording>, h: Hangup)
    requires OwnRecordings(legs) && h.leg in legs && KeepsTapes(legs, D, recordings, kept)
    ensures KeepsTapes(legs, D + {h.leg}, recordings, KeptNext(legs[h.leg], kept, h))
  {
    var own := if legs[h.leg].recording.Some? then {legs[h.leg].recording.value} else {};
    assert Tapes(legs, D + {h.leg}) == Tapes(legs, D) + own;
  }

  /** Ending a live leg emits exactly one hang-up for each leg that goes, each
      followed by the recording that leg had open, and nothing else; those
      recordings are kept, and no others change. */
  lemma EndLegTells(s: State, id: LegId, cause: string) returns (hs: seq<Hangup>)
    requires Indexed(s) && Involution(s.legs) && id in s.legs && s.legs[id].state != Ended
    ensures var r := EndLeg(s, id, cause);
            && Announces(s, r, hs) && LegsOf(hs) == Gone(s, r) && Once(hs)
            && (OwnRecordings(s.legs) ==> KeepsTapes(s.legs, Gone(s, r), s.recordings, r.recordings))
  {
    hide EndLeg, Notices, Kept, Told;
    hs := EndLegLog(s, id, cause);
    assert hs == [hs[0]] + hs[1..];
    ToldOnce(s.legs, s.order, hs[0], hs[1..]);
    if OwnRecordings(s.legs) { KeptTapes(s.legs, s.recordings, hs); }
  }
}
