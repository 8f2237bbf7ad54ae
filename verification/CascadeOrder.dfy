/** How far the outcome of a hang-up depends on the order of the `legs` map, which
    is the order the loop of `endLeg` walks it in (lines 363-367 of
    apps/api/e2e/fake-telnyx-voice.ts). Everything but the causes of contested
    legs is the same for every order. */
module CascadeOrder {
  import opened Wrappers
  import opened VoiceSpec
  import opened Cascade
  import opened CascadeLog
  import opened VoiceInvariants
  import opened VoiceTheorems

  /** The same switch with its legs inserted in another order. */
  ghost predicate Reordered(s: State, t: State) {
    t == s.(order := t.order) && Indexed(t)
  }

  /** The leg rings for a leg of `D` other than `x`. */
  ghost predicate RingsWithin(leg: Leg, D: set<LegId>, x: LegId) {
    leg.state == Ringing && leg.transferOf.Some? && leg.transferOf.value in D && leg.transferOf.value != x
  }

  /** Two ways lead to the end of `y`, and the order may decide which is taken:
      both ends of its bridge ring for legs that end, neither for the other. */
  ghost predicate Contested(legs: map<LegId, Leg>, D: set<LegId>, root: LegId, y: LegId) {
    && y in legs && y != root && legs[y].bridgedWith.Some? && !legs[y].parkAfterUnbridge
    && var p := legs[y].bridgedWith.value;
       p != y && p != root && p in legs && RingsWithin(legs[y], D, p) && RingsWithin(legs[p], D, y)
  }

  /** The cause a leg that is not contested ends with, read off the legs before. */
  ghost function CauseOf(legs: map<LegId, Leg>, D: set<LegId>, root: LegId, cause: string, x: LegId): string
    requires x in legs
  {
    if x == root then cause
    else if DroppedBy(legs, D, x) && legs[x].bridgedWith.value != x
            && (legs[x].bridgedWith.value == root || !RingsWithin(legs[x], D, legs[x].bridgedWith.value))
    then "normal_clearing"
    else "originator_cancel"
  }

  /** The log of a cascade from `root` through the legs of `D`. */
  ghost predicate IsLog(legs: map<LegId, Leg>, order: seq<LegId>, D: set<LegId>, root: LegId, cause: string,
                        hs: seq<Hangup>) {
    && hs != [] && hs[0] == Hangup(root, cause) && Told(legs, order, {root}, hs[1..])
    && LegsOf(hs) == D && D <= legs.Keys && Involution(legs)
  }

  /** The legs over before the one at position `i` ends. */
  ghost function GoneBy(hs: seq<Hangup>, i: nat): set<LegId>
    requires i <= |hs|
  {
    LegsOf(hs[..i])
  }

  lemma WhyAt(legs: map<LegId, Leg>, order: seq<LegId>, D: set<LegId>, root: LegId, cause: string,
              hs: seq<Hangup>, i: nat)
    requires IsLog(legs, order, D, root, cause, hs) && 0 < i < |hs|
    ensures Justified(legs, order, GoneBy(hs, i), hs[i]) && GoneBy(hs, i) <= D && root in GoneBy(hs, i)
  {
    var rest := hs[1..];
    TailAt(hs, i);
    GoneByParts(hs, i);
    hide LegsOf, GoneBy, Justified, Involution;
    assert Justified(legs, order, {root} + LegsOf(rest[..i - 1]), rest[i - 1]);
  }

  lemma TailAt(hs: seq<Hangup>, i: nat)
    requires 0 < i < |hs|
    ensures hs[1..][..i - 1] == hs[1..i] && hs[1..][i - 1] == hs[i]
  {
  }

  lemma GoneByParts(hs: seq<Hangup>, i: nat)
    requires 0 < i < |hs|
    ensures GoneBy(hs, i) == {hs[0].leg} + LegsOf(hs[1..i]) && GoneBy(hs, i) <= LegsOf(hs)
  {
    assert hs[..i] == [hs[0]] + hs[1..i];
    LegsOfJoin([hs[0]], hs[1..i]);
    assert LegsOf([hs[0]]) == {hs[0].leg};
    assert hs == hs[..i] + hs[i..];
    LegsOfJoin(hs[..i], hs[i..]);
  }

  /** Where the other end of a bridge ended, if it did so before position `i`. */
  lemma EndedAt(hs: seq<Hangup>, i: nat, x: LegId) returns (j: nat)
    requires i <= |hs| && x in GoneBy(hs, i)
    ensures j < i && hs[j].leg == x
  {
    var h :| h in hs[..i] && h.leg == x;
    j :| 0 <= j < i && hs[..i][j] == h;
  }

  lemma GoneGrows(hs: seq<Hangup>, j: nat, i: nat)
    requires j <= i <= |hs|
    ensures GoneBy(hs, j) <= GoneBy(hs, i)
  {
    assert hs[..i] == hs[..j] + hs[j..i];
    LegsOfJoin(hs[..j], hs[j..i]);
  }

  /** A leg whose partner is gone before it, in the other direction: the partner was
      not dropped by the leg, so it rang for a leg that is over. */
  lemma PartnerRang(legs: map<LegId, Leg>, order: seq<LegId>, D: set<LegId>, root: LegId, cause: string,
                    hs: seq<Hangup>, i: nat, p: LegId) returns (j: nat)
    requires IsLog(legs, order, D, root, cause, hs) && 0 < i < |hs|
    requires hs[i].leg in legs && legs[hs[i].leg].bridgedWith == Some(p) && p in GoneBy(hs, i) && p != root
    ensures 0 < j < i && hs[j].leg == p && p in legs && p != hs[i].leg
    ensures CancelledBy(legs, order, GoneBy(hs, j), p) && GoneBy(hs, j) <= D
    ensures hs[i].leg !in GoneBy(hs, j)
  {
    var y := hs[i].leg;
    WhyAt(legs, order, D, root, cause, hs, i);
    j := EndedAt(hs, i, p);
    WhyAt(legs, order, D, root, cause, hs, j);
    GoneGrows(hs, j, i);
    assert Paired(legs, y);
  }

  /** A leg that is not contested ends with one and the same cause in every log. */
  lemma CauseSettled(legs: map<LegId, Leg>, order: seq<LegId>, D: set<LegId>, root: LegId, cause: string,
                     hs: seq<Hangup>, i: nat)
    requires IsLog(legs, order, D, root, cause, hs) && i < |hs|
    requires !Contested(legs, D, root, hs[i].leg)
    ensures hs[i].leg in legs && hs[i].cause == CauseOf(legs, D, root, cause, hs[i].leg)
  {
    var y := hs[i].leg;
    if i == 0 {
    } else {
      WhyAt(legs, order, D, root, cause, hs, i);
      var gone := GoneBy(hs, i);
      if legs[y].bridgedWith.Some? && !legs[y].parkAfterUnbridge && legs[y].bridgedWith.value in gone {
        var p := legs[y].bridgedWith.value;
        if p != root && RingsWithin(legs[y], D, p) {
          var j := PartnerRang(legs, order, D, root, cause, hs, i, p);
          assert RingsWithin(legs[p], D, y);
          assert false;
        }
      }
    }
  }

  // ------------------------------------------------------------ two of the logs

  lemma {:induction false} OnceCounts(hs: seq<Hangup>, h: Hangup)
    requires Once(hs)
    ensures multiset(hs)[h] == if h in hs then 1 else 0
    decreases |hs|
  {
    if hs != [] {
      var init, last := hs[..|hs| - 1], hs[|hs| - 1];
      assert hs == init + [last];
      OnceCounts(init, h);
    }
  }

  /** Two logs of the same hang-ups hold them equally often. */
  lemma SameHangups(g: seq<Hangup>, h: seq<Hangup>)
    requires Once(g) && Once(h) && (forall x :: x in g <==> x in h)
    ensures multiset(g) == multiset(h)
  {
    forall x ensures multiset(g)[x] == multiset(h)[x] {
      OnceCounts(g, x);
      OnceCounts(h, x);
    }
  }

  /** The notices of a log, whatever its order. */
  lemma {:induction false} NoticesPermute(legs: map<LegId, Leg>, g: seq<Hangup>, h: seq<Hangup>)
    requires Named(legs, g) && Named(legs, h) && multiset(g) == multiset(h)
    ensures multiset(Notices(legs, g)) == multiset(Notices(legs, h))
    decreases |g|
  {
    if g == [] {
      assert |multiset(h)| == 0;
    } else {
      var init, last := SplitLast(g);
      assert last in multiset(h);
      var a, b := Around(h, last);
      assert h == a + ([last] + b);
      TakenOut(init, a, b, last);
      hide Notices;
      assert Named(legs, a + b);
      NoticesPermute(legs, init, a + b);
      NoticesLast(legs, map[], init, last);
      NoticesJoin(legs, legs, map[], a, [last] + b);
      NoticesJoin(legs, legs, map[], [last], b);
      NoticesJoin(legs, legs, map[], a, b);
      OneNotice(legs, map[], last);
    }
  }

  lemma TakenOut(init: seq<Hangup>, a: seq<Hangup>, b: seq<Hangup>, x: Hangup)
    requires multiset(init + [x]) == multiset(a + ([x] + b))
    ensures multiset(init) == multiset(a + b)
  {
    assert multiset(init) == multiset(init + [x]) - multiset{x};
    assert multiset(a + b) == multiset(a + ([x] + b)) - multiset{x};
  }

  lemma Around(h: seq<Hangup>, x: Hangup) returns (a: seq<Hangup>, b: seq<Hangup>)
    requires x in h
    ensures h == a + [x] + b
  {
    var i :| 0 <= i < |h| && h[i] == x;
    a, b := h[..i], h[i + 1..];
  }

  // ---------------------------------------------------------- up to the causes

  ghost function Uncaused(e: Event): Event {
    if e.CallHangup? then CallHangup(e.leg, "") else e
  }

  /** The events, each hang-up without its cause. */
  ghost function Causeless(events: seq<Event>): seq<Event> {
    seq(|events|, i requires 0 <= i < |events| => Uncaused(events[i]))
  }

  ghost function Blank(hs: seq<Hangup>): seq<Hangup> {
    seq(|hs|, i requires 0 <= i < |hs| => hs[i].(cause := ""))
  }

  lemma {:induction false} CauselessNotices(legs: map<LegId, Leg>, hs: seq<Hangup>)
    requires Named(legs, hs)
    ensures Named(legs, Blank(hs)) && Causeless(Notices(legs, hs)) == Notices(legs, Blank(hs))
    decreases |hs|
  {
    forall h | h in Blank(hs) ensures h.leg in legs {
      var i :| 0 <= i < |hs| && Blank(hs)[i] == h;
      assert hs[i] in hs;
    }
    if hs == [] {
      assert Blank(hs) == [];
    } else {
      var init, last := SplitLast(hs);
      CauselessNotices(legs, init);
      assert Blank(hs) == Blank(init) + [last.(cause := "")];
      NoticesLast(legs, map[], init, last);
      assert last in hs;
      NoticesLast(legs, map[], Blank(init), last.(cause := ""));
      CauselessNotice(legs[last.leg], Notices(legs, init), last);
    }
  }

  lemma CauselessNotice(leg: Leg, news: seq<Event>, h: Hangup)
    ensures Causeless(news + Notice(leg, h)) == Causeless(news) + Notice(leg, h.(cause := ""))
  {
  }

  lemma BlankOnce(hs: seq<Hangup>, D: set<LegId>)
    requires Once(hs) && LegsOf(hs) == D
    ensures Once(Blank(hs)) && forall h: Hangup :: h in Blank(hs) <==> h.leg in D && h.cause == ""
  {
    forall h: Hangup | h.leg in D && h.cause == "" ensures h in Blank(hs) {
      var g :| g in hs && g.leg == h.leg;
      var i :| 0 <= i < |hs| && hs[i] == g;
      assert Blank(hs)[i] == h;
    }
    forall h | h in Blank(hs) ensures h.leg in D && h.cause == "" {
      var i :| 0 <= i < |hs| && Blank(hs)[i] == h;
      assert hs[i] in hs;
    }
  }

  // ------------------------------------------------------------------- the theorem

  /** The events a call emitted. */
  ghost function News(s: State, r: State): seq<Event> {
    if |s.history| <= |r.history| then r.history[|s.history|..] else []
  }

  lemma LogOf(s: State, id: LegId, cause: string) returns (r: State, hs: seq<Hangup>)
    requires Indexed(s) && Involution(s.legs) && id in s.legs && s.legs[id].state != Ended
    ensures r == EndLeg(s, id, cause) && Announces(s, r, hs) && Once(hs)
    ensures IsLog(s.legs, s.order, Gone(s, r), id, cause, hs) && Ends(s.legs, r.legs, {id}, Gone(s, r))
    ensures News(s, r) == Notices(s.legs, hs)
  {
    hide EndLeg, Notices, Kept, Told, LegsOf, Involution, Ends, Indexed, Announces;
    r := EndLeg(s, id, cause);
    hs := EndLegLog(s, id, cause);
    EndLegCascade(s, id, cause);
    assert hs == [hs[0]] + hs[1..];
    ToldOnce(s.legs, s.order, hs[0], hs[1..]);
    NewsAnnounced(s, r, hs);
  }

  lemma NewsAnnounced(s: State, r: State, hs: seq<Hangup>)
    requires Announces(s, r, hs)
    ensures Named(s.legs, hs) && News(s, r) == Notices(s.legs, hs)
  {
    hide Notices, Kept;
  }

  /** The cause the log of a call announces for one of its legs. */
  lemma AnnouncedCause(s: State, r: State, hs: seq<Hangup>, D: set<LegId>, x: LegId) returns (i: nat)
    requires Announces(s, r, hs) && LegsOf(hs) == D && x in D
    ensures i < |hs| && hs[i].leg == x && x in r.legs && r.legs[x].hangupCause == Some(hs[i].cause)
  {
    var h :| h in hs && h.leg == x;
    i :| 0 <= i < |hs| && hs[i] == h;
  }

  /** One call in two orders: the same legs go. */
  lemma SameGone(s: State, t: State, a: State, b: State, id: LegId)
    requires t.legs == s.legs && Ends(s.legs, a.legs, {id}, Gone(s, a)) && Ends(t.legs, b.legs, {id}, Gone(t, b))
    ensures Gone(s, a) == Gone(t, b)
    ensures forall x :: x in s.legs ==> x in a.legs && x in b.legs
    ensures forall x :: x in s.legs ==> a.legs[x].(hangupCause := None) == b.legs[x].(hangupCause := None)
    ensures forall x :: x in s.legs && x !in Gone(s, a) ==> a.legs[x] == b.legs[x]
  {
    LeastIsUnique(s.legs, {id}, Gone(s, a), Gone(t, b));
    forall x | x in s.legs ensures x in a.legs && x in b.legs
      ensures a.legs[x].(hangupCause := None) == b.legs[x].(hangupCause := None)
      ensures x !in Gone(s, a) ==> a.legs[x] == b.legs[x]
    {
      assert CutAt(s.legs, a.legs, Gone(s, a), x) && CutAt(t.legs, b.legs, Gone(t, b), x);
    }
  }

  /** A leg that is not contested gets the same cause whatever the order. */
  lemma SameCause(s: State, t: State, a: State, b: State, g: seq<Hangup>, h: seq<Hangup>, D: set<LegId>,
                  id: LegId, cause: string, x: LegId)
    requires t.legs == s.legs && Announces(s, a, g) && Announces(t, b, h)
    requires IsLog(s.legs, s.order, D, id, cause, g) && IsLog(t.legs, t.order, D, id, cause, h)
    requires x in D && !Contested(s.legs, D, id, x)
    ensures x in a.legs && x in b.legs && a.legs[x].hangupCause == b.legs[x].hangupCause
    ensures a.legs[x].hangupCause == Some(CauseOf(s.legs, D, id, cause, x))
  {
    var i := AnnouncedCause(s, a, g, D, x);
    var j := AnnouncedCause(t, b, h, D, x);
    CauseSettled(s.legs, s.order, D, id, cause, g, i);
    CauseSettled(t.legs, t.order, D, id, cause, h, j);
  }

  /** The events of two logs of the same legs are the same up to their causes. */
  lemma SameNewsUpToCause(legs: map<LegId, Leg>, g: seq<Hangup>, h: seq<Hangup>, D: set<LegId>)
    requires Named(legs, g) && Named(legs, h) && Once(g) && Once(h) && LegsOf(g) == D == LegsOf(h)
    ensures multiset(Causeless(Notices(legs, g))) == multiset(Causeless(Notices(legs, h)))
  {
    CauselessNotices(legs, g);
    CauselessNotices(legs, h);
    BlankOnce(g, D);
    BlankOnce(h, D);
    hide Notices, Causeless, Blank;
    SameHangups(Blank(g), Blank(h));
    NoticesPermute(legs, Blank(g), Blank(h));
  }

  /** If every leg has one cause in both logs, the logs hold the same hang-ups. */
  lemma SameNews(legs: map<LegId, Leg>, orderG: seq<LegId>, orderH: seq<LegId>, g: seq<Hangup>, h: seq<Hangup>,
                 D: set<LegId>, id: LegId, cause: string)
    requires Named(legs, g) && Named(legs, h) && Once(g) && Once(h)
    requires IsLog(legs, orderG, D, id, cause, g) && IsLog(legs, orderH, D, id, cause, h)
    requires forall x :: x in D ==> !Contested(legs, D, id, x)
    ensures multiset(Notices(legs, g)) == multiset(Notices(legs, h))
  {
    forall x ensures x in g <==> x in h {
      HangupIn(legs, orderG, D, id, cause, g, x);
      HangupIn(legs, orderH, D, id, cause, h, x);
    }
    SameHangups(g, h);
    NoticesPermute(legs, g, h);
  }

  lemma HangupIn(legs: map<LegId, Leg>, order: seq<LegId>, D: set<LegId>, id: LegId, cause: string,
                 hs: seq<Hangup>, x: Hangup)
    requires IsLog(legs, order, D, id, cause, hs) && forall y :: y in D ==> !Contested(legs, D, id, y)
    ensures x in hs <==> x.leg in D && x.cause == CauseOf(legs, D, id, cause, x.leg)
  {
    if x in hs {
      var i :| 0 <= i < |hs| && hs[i] == x;
      CauseSettled(legs, order, D, id, cause, hs, i);
    }
    if x.leg in D {
      var h :| h in hs && h.leg == x.leg;
      var i :| 0 <= i < |hs| && hs[i] == h;
      CauseSettled(legs, order, D, id, cause, hs, i);
    }
  }

  /** The theorem of the order. Whatever order the legs were inserted in, a hang-up
      ends the same legs, leaves every leg alike up to its cause, keeps the same
      recordings, emits the same events up to their causes and touches the same
      ledger and ids; the cause of every leg that is not contested is the same, and
      where no leg is contested so is everything. */
  lemma OrderDoesNotMatter(s: State, t: State, id: LegId, cause: string) returns (a: State, b: State, D: set<LegId>)
    requires Indexed(s) && Reordered(s, t) && Involution(s.legs)
    requires id in s.legs && s.legs[id].state != Ended
    ensures a == EndLeg(s, id, cause) && b == EndLeg(t, id, cause) && D == Gone(s, a) == Gone(t, b)
    ensures SameRegister(a.(order := b.order), b) && (OwnRecordings(s.legs) ==> b.recordings == a.recordings)
    ensures a.legs.Keys == s.legs.Keys == b.legs.Keys
    ensures forall x :: x in s.legs ==> a.legs[x].(hangupCause := None) == b.legs[x].(hangupCause := None)
    ensures multiset(Causeless(News(s, a))) == multiset(Causeless(News(t, b)))
    ensures forall x :: x in D && !Contested(s.legs, D, id, x) ==> SettledCause(s.legs, D, id, cause, x, a, b)
    ensures (forall x :: x in D ==> !Contested(s.legs, D, id, x)) ==>
              a.legs == b.legs && multiset(News(s, a)) == multiset(News(t, b))
  {
    hide EndLeg, Told, Causeless, Notices, Kept, Announces;
    a, b, D := OrderOfLegs(s, t, id, cause);
    forall x | x in D && !Contested(s.legs, D, id, x) ensures SettledCause(s.legs, D, id, cause, x, a, b) {
      OrderOfCauses(s, t, id, cause, x);
    }
    OrderOfNews(s, t, id, cause);
    if forall x :: x in D ==> !Contested(s.legs, D, id, x) { AllAlike(s.legs, a, b, D, id, cause); }
  }

  /** In both outcomes the leg has the one cause its record before gives it. */
  ghost predicate SettledCause(legs: map<LegId, Leg>, D: set<LegId>, id: LegId, cause: string, x: LegId,
                               a: State, b: State) {
    && x in legs && x in a.legs && x in b.legs
    && a.legs[x].hangupCause == b.legs[x].hangupCause == Some(CauseOf(legs, D, id, cause, x))
  }

  lemma OrderOfLegs(s: State, t: State, id: LegId, cause: string) returns (a: State, b: State, D: set<LegId>)
    requires Indexed(s) && Reordered(s, t) && Involution(s.legs)
    requires id in s.legs && s.legs[id].state != Ended
    ensures a == EndLeg(s, id, cause) && b == EndLeg(t, id, cause) && D == Gone(s, a) == Gone(t, b)
    ensures SameRegister(a.(order := b.order), b) && (OwnRecordings(s.legs) ==> b.recordings == a.recordings)
    ensures a.legs.Keys == s.legs.Keys == b.legs.Keys
    ensures forall x :: x in s.legs ==> a.legs[x].(hangupCause := None) == b.legs[x].(hangupCause := None)
    ensures forall x :: x in s.legs && x !in D ==> a.legs[x] == b.legs[x]
  {
    var g, h;
    a, g := LogOf(s, id, cause);
    b, h := LogOf(t, id, cause);
    SameGone(s, t, a, b, id);
    D := Gone(s, a);
    if OwnRecordings(s.legs) { SameTapes(s, a, b, g, h, D); }
  }

  lemma OrderOfCauses(s: State, t: State, id: LegId, cause: string, x: LegId)
    requires Indexed(s) && Reordered(s, t) && Involution(s.legs)
    requires id in s.legs && s.legs[id].state != Ended
    requires var D := Gone(s, EndLeg(s, id, cause)); x in D && !Contested(s.legs, D, id, x)
    ensures SettledCause(s.legs, Gone(s, EndLeg(s, id, cause)), id, cause, x, EndLeg(s, id, cause), EndLeg(t, id, cause))
  {
    var a, g := LogOf(s, id, cause);
    var b, h := LogOf(t, id, cause);
    SameGone(s, t, a, b, id);
    SameCause(s, t, a, b, g, h, Gone(s, a), id, cause, x);
  }

  lemma OrderOfNews(s: State, t: State, id: LegId, cause: string)
    requires Indexed(s) && Reordered(s, t) && Involution(s.legs)
    requires id in s.legs && s.legs[id].state != Ended
    ensures var a := EndLeg(s, id, cause); var b := EndLeg(t, id, cause); var D := Gone(s, a);
            && multiset(Causeless(News(s, a))) == multiset(Causeless(News(t, b)))
            && ((forall x :: x in D ==> !Contested(s.legs, D, id, x)) ==> multiset(News(s, a)) == multiset(News(t, b)))
  {
    var a, g := LogOf(s, id, cause);
    var b, h := LogOf(t, id, cause);
    SameGone(s, t, a, b, id);
    var D := Gone(s, a);
    SameNewsUpToCause(s.legs, g, h, D);
    if forall x :: x in D ==> !Contested(s.legs, D, id, x) {
      SameNews(s.legs, s.order, t.order, g, h, D, id, cause);
    }
  }

  lemma AllAlike(legs: map<LegId, Leg>, a: State, b: State, D: set<LegId>, id: LegId, cause: string)
    requires a.legs.Keys == legs.Keys == b.legs.Keys
    requires forall x :: x in legs ==> a.legs[x].(hangupCause := None) == b.legs[x].(hangupCause := None)
    requires forall x :: x in legs && x !in D ==> a.legs[x] == b.legs[x]
    requires forall x :: x in D ==> SettledCause(legs, D, id, cause, x, a, b)
    ensures a.legs == b.legs
  {
    forall x | x in legs ensures a.legs[x] == b.legs[x] {
      if x in D {
        assert SettledCause(legs, D, id, cause, x, a, b);
        assert a.legs[x] == a.legs[x].(hangupCause := None).(hangupCause := a.legs[x].hangupCause);
      }
    }
  }

  lemma TapesAgree(legs: map<LegId, Leg>, D: set<LegId>, recordings: map<RecordingId, Recording>,
                   a: map<RecordingId, Recording>, b: map<RecordingId, Recording>)
    requires KeepsTapes(legs, D, recordings, a) && KeepsTapes(legs, D, recordings, b)
    ensures a == b
  {
    forall rec | rec in a ensures a[rec] == b[rec] {
      if rec in Tapes(legs, D) {
        var x :| x in D && x in legs && legs[x].recording == Some(rec);
      }
    }
  }

  lemma SameTapes(s: State, a: State, b: State, g: seq<Hangup>, h: seq<Hangup>, D: set<LegId>)
    requires OwnRecordings(s.legs) && Named(s.legs, g) && Named(s.legs, h) && LegsOf(g) == D == LegsOf(h)
    requires a.recordings == Kept(s.legs, s.recordings, g) && b.recordings == Kept(s.legs, s.recordings, h)
    ensures a.recordings == b.recordings
  {
    KeptTapes(s.legs, s.recordings, g);
    KeptTapes(s.legs, s.recordings, h);
    hide Kept, LegsOf, OwnRecordings;
    TapesAgree(s.legs, D, s.recordings, a.recordings, b.recordings);
  }

  // ------------------------------------------------- where the order does decide

  /** The two contested ends ring for the same leg. */
  ghost predicate Siblings(legs: map<LegId, Leg>, y: LegId) {
    && y in legs && legs[y].bridgedWith.Some? && legs[y].bridgedWith.value in legs
    && legs[y].transferOf == legs[legs[y].bridgedWith.value].transferOf
  }

  /** Of two contested siblings the one listed first is cancelled by their origin,
      and drops the other. */
  lemma FirstListed(legs: map<LegId, Leg>, order: seq<LegId>, D: set<LegId>, root: LegId, cause: string,
                    hs: seq<Hangup>, i: nat)
    requires IsLog(legs, order, D, root, cause, hs) && i < |hs|
    requires Contested(legs, D, root, hs[i].leg) && Siblings(legs, hs[i].leg)
    ensures var y := hs[i].leg; var p := legs[y].bridgedWith.value;
            && (Before(order, y, p) ==> hs[i].cause == "originator_cancel")
            && (Before(order, p, y) ==> hs[i].cause == "normal_clearing")
  {
    var y := hs[i].leg;
    var p := legs[y].bridgedWith.value;
    assert i > 0;
    WhyAt(legs, order, D, root, cause, hs, i);
    assert RingsFor(legs, y, legs[y].transferOf.value) && RingsFor(legs, p, legs[y].transferOf.value);
    if p in GoneBy(hs, i) && Before(order, y, p) {
      var j := PartnerRang(legs, order, D, root, cause, hs, i, p);
      assert false;
    }
  }

  /** Swapping two entries of a list keeps what it lists. */
  lemma SwapLists(order: seq<LegId>, ids: set<LegId>, i: nat, j: nat)
    requires Lists(order, ids) && i < |order| && j < |order| && i != j
    ensures Lists(order[i := order[j]][j := order[i]], ids)
  {
    var swapped := order[i := order[j]][j := order[i]];
    forall id | id in ids ensures id in swapped {
      var k :| 0 <= k < |order| && order[k] == id;
      assert swapped[if k == i then j else if k == j then i else k] == id;
    }
  }

  lemma PlaceOf(s: State, x: LegId) returns (i: nat)
    requires Indexed(s) && x in s.legs
    ensures i < |s.order| && s.order[i] == x
  {
    i :| 0 <= i < |s.order| && s.order[i] == x;
  }

  lemma BeforeAt(order: seq<LegId>, i: nat, j: nat)
    requires i < j < |order|
    ensures Before(order, order[i], order[j])
  {
  }

  /** In a list of distinct legs only one of two comes before the other. */
  lemma BeforeOnce(order: seq<LegId>, ids: set<LegId>, i: nat, j: nat)
    requires Lists(order, ids) && i < j < |order|
    ensures !Before(order, order[j], order[i])
  {
  }

  /** Two legs swapped in the order of insertion. */
  lemma Swapped(s: State, x: LegId, y: LegId) returns (t: State)
    requires Indexed(s) && x in s.legs && y in s.legs && x != y
    ensures Reordered(s, t) && (Before(s.order, x, y) || Before(s.order, y, x))
    ensures Before(s.order, x, y) ==> Before(t.order, y, x)
    ensures Before(s.order, y, x) ==> Before(t.order, x, y)
  {
    var i := PlaceOf(s, x);
    var j := PlaceOf(s, y);
    t := s.(order := s.order[i := s.order[j]][j := s.order[i]]);
    SwapLists(s.order, s.legs.Keys, i, j);
    hide Before, Lists;
    if i < j {
      BeforeAt(s.order, i, j);
      BeforeAt(t.order, i, j);
      BeforeOnce(s.order, s.legs.Keys, i, j);
    } else {
      BeforeAt(s.order, j, i);
      BeforeAt(t.order, j, i);
      BeforeOnce(s.order, s.legs.Keys, j, i);
    }
  }

  /** Swapping two contested siblings swaps how they end: the order the legs were
      inserted in does decide. */
  lemma SiblingsDisagree(s: State, id: LegId, cause: string, y: LegId) returns (t: State)
    requires Indexed(s) && Involution(s.legs) && id in s.legs && s.legs[id].state != Ended
    requires var D := Gone(s, EndLeg(s, id, cause));
             y in D && Contested(s.legs, D, id, y) && Siblings(s.legs, y)
    ensures Reordered(s, t) && y in EndLeg(s, id, cause).legs && y in EndLeg(t, id, cause).legs
    ensures EndLeg(s, id, cause).legs[y].hangupCause != EndLeg(t, id, cause).legs[y].hangupCause
  {
    var p := s.legs[y].bridgedWith.value;
    t := Swapped(s, y, p);
    var a, g := LogOf(s, id, cause);
    var b, h := LogOf(t, id, cause);
    SameGone(s, t, a, b, id);
    var D := Gone(s, a);
    var i := AnnouncedCause(s, a, g, D, y);
    var j := AnnouncedCause(t, b, h, D, y);
    FirstListed(s.legs, s.order, D, id, cause, g, i);
    FirstListed(t.legs, t.order, D, id, cause, h, j);
  }

  /** A call comes in and is transferred twice, and the two ringing targets are
      bridged to each other. */
  const TWO_TARGETS: seq<Op> := [
    FarEndDials,
    PostAction(0, TransferTo("a", None), "", None),
    PostAction(0, TransferTo("b", None), "", None),
    PostAction(1, BridgeTo(2, false), "", None)]

  lemma TransferredTwice()
    ensures var s := After(TWO_TARGETS[..3]);
            && s.legs.Keys == {0, 1, 2}
            && s.legs[0] == NewLeg(FarEnd, Incoming, None, None)
            && s.legs[1] == NewLeg(Transfer, Outgoing, None, Some(0))
            && s.legs[2] == NewLeg(Transfer, Outgoing, None, Some(0))
  {
    var ops := TWO_TARGETS;
    RunStep(INITIAL, [], ops[0]);
    RunStep(INITIAL, ops[..1], ops[1]);
    RunStep(INITIAL, ops[..2], ops[2]);
    assert ops[..1] == [] + [ops[0]] && ops[..2] == ops[..1] + [ops[1]] && ops[..3] == ops[..2] + [ops[2]];
    assert After(ops[..1]) == CreateLeg(INITIAL, FarEnd, Incoming, None, None);
    assert After(ops[..2]) == CreateLeg(After(ops[..1]), Transfer, Outgoing, None, Some(0));
  }

  lemma TargetsBridged()
    ensures var s := After(TWO_TARGETS);
            && s.legs.Keys == {0, 1, 2}
            && s.legs[0] == NewLeg(FarEnd, Incoming, None, None)
            && s.legs[1] == NewLeg(Transfer, Outgoing, None, Some(0)).(bridgedWith := Some(2))
            && s.legs[2] == NewLeg(Transfer, Outgoing, None, Some(0)).(bridgedWith := Some(1))
  {
    var ops := TWO_TARGETS;
    TransferredTwice();
    RunStep(INITIAL, ops[..3], ops[3]);
    assert ops[..3] + [ops[3]] == ops;
  }

  /** The causes do depend on the order, in a state a run reaches: when the caller
      hangs up, the order of the two targets decides which of them is cancelled
      and which is dropped by the other. */
  lemma CausesDependOnOrder() returns (s: State, t: State)
    ensures s == After(TWO_TARGETS) && Reordered(s, t) && 0 in s.legs && s.legs[0].state != Ended
    ensures 1 in EndLeg(s, 0, "normal_clearing").legs && 1 in EndLeg(t, 0, "normal_clearing").legs
    ensures EndLeg(s, 0, "normal_clearing").legs[1].hangupCause != EndLeg(t, 0, "normal_clearing").legs[1].hangupCause
  {
    s := After(TWO_TARGETS);
    TargetsBridged();
    Reached(TWO_TARGETS);
    hide After, EndLeg;
    EndLegCascade(s, 0, "normal_clearing");
    assert Drags(s.legs, 0, 1);
    t := SiblingsDisagree(s, 0, "normal_clearing", 1);
  }
}
