/** The stand-in for the session objects and the loop that drains the switch
    through them, as values (apps/api/e2e/call-sessions.ts, lines 68-168, and
    call-budget.ts, lines 188-212). `CallSessions.dfy` holds the mutable ones.

    What a session object or the webhook router does when it is run is not part of
    this model: the n-th time anything is run it does whatever `script` says,
    calls to objects, commands to the switch and alarms included. */
module SessionsSpec {
  import opened Basics
  import opened Wrappers
  import S = VoiceSpec
  import I = VoiceInvariants
  import R = VoiceRuns
  import T = VoiceTheorems

  type Name = string

  /** What the Worker and the far ends may ask of the switch; taking events and
      resetting are the harness's own. */
  type Command = op: S.Op | op != S.ResetCalls && op != S.TakeEvent witness S.FarEndDials

  datatype Effect = Rpc(name: Name) | Arm(name: Name, at: Option<int>) | Ask(command: Command)

  type Script = seq<seq<Effect>>

  const MAX_IDLE_PASSES := 10

  function EffectsAt(script: Script, step: nat): seq<Effect> {
    if step < |script| then script[step] else []
  }

  /** The switch, the objects' armed alarms and creation order, the count of calls
      into objects, and how many runs there have been. */
  datatype Rig = Rig(voice: S.State, objects: map<Name, Option<int>>, order: seq<Name>, rpcCalls: nat, step: nat)

  /** The objects, each once, in creation order. */
  ghost predicate Listed(objects: map<Name, Option<int>>, order: seq<Name>) {
    && (forall i :: 0 <= i < |order| ==> order[i] in objects)
    && (forall name :: name in objects ==> name in order)
    && (forall i, j :: 0 <= i < j < |order| ==> order[i] != order[j])
  }

  /** One object per name. */
  ghost function WithObject(g: Rig, name: Name): Rig {
    if name in g.objects then g else g.(objects := g.objects[name := None], order := g.order + [name])
  }

  ghost function WithAlarm(g: Rig, name: Name, at: Option<int>): Rig {
    if name in g.objects then g.(objects := g.objects[name := at]) else g
  }

  ghost function Affected(g: Rig, e: Effect): Rig {
    match e
    case Rpc(name) => WithObject(g.(rpcCalls := g.rpcCalls + 1), name)
    case Arm(name, at) => WithAlarm(g, name, at)
    case Ask(command) => g.(voice := S.Perform(g.voice, command).next)
  }

  ghost function Played(g: Rig, effects: seq<Effect>): Rig {
    if effects == [] then g else Affected(Played(g, effects[..|effects| - 1]), effects[|effects| - 1])
  }

  /** Whatever a session object or the router does when it is run. */
  ghost function Executed(script: Script, g: Rig): Rig {
    Played(g, EffectsAt(script, g.step)).(step := g.step + 1)
  }

  ghost function ExecutedTimes(script: Script, g: Rig, n: nat): Rig
    decreases n
  {
    if n == 0 then g else Executed(script, ExecutedTimes(script, g, n - 1))
  }

  /** One pass: every object there is at its start runs to idle once. */
  ghost function Passed(script: Script, g: Rig): Rig { ExecutedTimes(script, g, |g.order|) }

  datatype IdleOutcome = IdleOutcome(rig: Rig, ok: bool)

  /** Passes until one neither creates an object nor calls into one. */
  ghost function Idled(script: Script, g: Rig, passes: nat): IdleOutcome
    decreases passes
  {
    if passes == 0 then IdleOutcome(g, false)
    else
      var r := Passed(script, g);
      if |r.order| == |g.order| && r.rpcCalls == g.rpcCalls then IdleOutcome(r, true)
      else Idled(script, r, passes - 1)
  }

  predicate Due(alarm: Option<int>, now: int) { alarm.Some? && alarm.value <= now }

  /** An alarm is cleared as it is delivered. */
  ghost function Fired(script: Script, g: Rig, name: Name): Rig { Executed(script, WithAlarm(g, name, None)) }

  /** The runs the script still has something to say about. */
  ghost function Left(script: Script, step: nat): nat { if step < |script| then |script| - step else 0 }

  datatype FireOutcome = FireOutcome(rig: Rig, fired: nat)

  /** The walk over the objects from the `k`-th, those made meanwhile included. */
  ghost function FiredFrom(script: Script, g: Rig, k: nat, now: int, fired: nat): FireOutcome
    decreases Left(script, g.step), |g.order| - k
  {
    if |g.order| <= k then FireOutcome(g, fired)
    else if g.order[k] in g.objects && Due(g.objects[g.order[k]], now) then
      Spent(script, WithAlarm(g, g.order[k], None));
      FiredFrom(script, Fired(script, g, g.order[k]), k + 1, now, fired + 1)
    else FiredFrom(script, g, k + 1, now, fired)
  }

  /** Past its end the script has nothing to say. */
  lemma Spent(script: Script, g: Rig)
    ensures |script| <= g.step ==> Executed(script, g) == g.(step := g.step + 1)
    ensures Executed(script, g).step == g.step + 1
  {
  }

  lemma PlayedNothing(g: Rig)
    ensures Played(g, []) == g
  {
  }

  lemma PlayedOneMore(g: Rig, effects: seq<Effect>, i: nat)
    requires i < |effects|
    ensures Played(g, effects[..i + 1]) == Affected(Played(g, effects[..i]), effects[i])
  {
    assert effects[..i + 1][..i] == effects[..i];
    hide Affected;
  }

  lemma {:induction false} PlayedKeepsStep(g: Rig, effects: seq<Effect>)
    ensures Played(g, effects).step == g.step
  {
    if effects != [] { PlayedKeepsStep(g, effects[..|effects| - 1]); }
  }

  /** `fireDueAlarms`: the walk, and then every session goes idle. */
  ghost function FiredDue(script: Script, g: Rig, now: int): (FireOutcome, bool) {
    var o := FiredFrom(script, g, 0, now, 0);
    var idle := Idled(script, o.rig, MAX_IDLE_PASSES);
    (FireOutcome(idle.rig, o.fired), idle.ok)
  }

  datatype Result = Settled(delivered: nat) | DidNotSettle(last: S.Event) | StillBusy

  datatype Drained = Drained(rig: Rig, result: Result, events: seq<S.Event>)

  ghost function Taken(g: Rig): Rig
    requires g.voice.outbox != []
  {
    g.(voice := g.voice.(outbox := g.voice.outbox[1..]))
  }

  /** The loop of `drainCallEvents`, `delivered` events in. */
  ghost function DrainedFrom(script: Script, g: Rig, delivered: nat, limit: nat): Drained
    requires delivered <= limit
    decreases limit - delivered, if g.voice.outbox == [] then 1 else 0
  {
    if g.voice.outbox == [] then
      var idle := Idled(script, g, MAX_IDLE_PASSES);
      if !idle.ok then Drained(idle.rig, StillBusy, [])
      else if idle.rig.voice.outbox == [] then Drained(idle.rig, Settled(delivered), [])
      else DrainedFrom(script, idle.rig, delivered, limit)
    else
      var event := g.voice.outbox[0];
      var idle := Idled(script, Executed(script, Taken(g)), MAX_IDLE_PASSES);
      if !idle.ok then Drained(idle.rig, StillBusy, [event])
      else if delivered + 1 > limit then Drained(idle.rig, DidNotSettle(event), [event])
      else
        var rest := DrainedFrom(script, idle.rig, delivered + 1, limit);
        Drained(rest.rig, rest.result, [event] + rest.events)
  }

  /** `drainCallEvents`: every session goes idle first. */
  ghost function DrainedAll(script: Script, g: Rig, limit: nat): Drained {
    var idle := Idled(script, g, MAX_IDLE_PASSES);
    if idle.ok then DrainedFrom(script, idle.rig, 0, limit) else Drained(idle.rig, StillBusy, [])
  }

  /** A drain whose first events were handed over before. */
  ghost function After(events: seq<S.Event>, d: Drained): Drained {
    Drained(d.rig, d.result, events + d.events)
  }

  lemma NothingDelivered(d: Drained)
    ensures After([], d) == d
  {
    assert [] + d.events == d.events;
  }

  /** One turn of the loop, as the definition has it. */
  lemma DrainTurn(script: Script, g: Rig, delivered: nat, limit: nat, events: seq<S.Event>)
    requires delivered <= limit
    ensures g.voice.outbox == [] ==>
      var idle := Idled(script, g, MAX_IDLE_PASSES);
      After(events, DrainedFrom(script, g, delivered, limit))
      == if !idle.ok then Drained(idle.rig, StillBusy, events)
         else if idle.rig.voice.outbox == [] then Drained(idle.rig, Settled(delivered), events)
         else After(events, DrainedFrom(script, idle.rig, delivered, limit))
    ensures g.voice.outbox != [] ==>
      var event := g.voice.outbox[0];
      var idle := Idled(script, Executed(script, Taken(g)), MAX_IDLE_PASSES);
      After(events, DrainedFrom(script, g, delivered, limit))
      == if !idle.ok then Drained(idle.rig, StillBusy, events + [event])
         else if delivered + 1 > limit then Drained(idle.rig, DidNotSettle(event), events + [event])
         else After(events + [event], DrainedFrom(script, idle.rig, delivered + 1, limit))
  {
    hide Idled, Executed, Taken;
    if g.voice.outbox != [] {
      var event := g.voice.outbox[0];
      var idle := Idled(script, Executed(script, Taken(g)), MAX_IDLE_PASSES);
      if delivered + 1 <= limit {
        Regroup(events, [event], DrainedFrom(script, idle.rig, delivered + 1, limit).events);
      }
    } else {
      assert events + [] == events;
    }
  }

  /** A pass plays its runs one after another. Whatever one interleaving of several
      objects' steps does, some script does in a pass of such runs, so what holds of
      every script holds of every interleaving. */
  lemma {:induction false} AnyInterleaving(g: Rig, effects: seq<Effect>) returns (script: Script)
    requires g.order != []
    ensures Passed(script, g) == Played(g, effects).(step := g.step + |g.order|)
  {
    script := seq(g.step, _ => []) + [effects];
    OneRunSpeaks(script, g, effects, |g.order|);
  }

  lemma {:induction false} OneRunSpeaks(script: Script, g: Rig, effects: seq<Effect>, n: nat)
    requires n > 0 && |script| == g.step + 1 && script[g.step] == effects
    ensures ExecutedTimes(script, g, n) == Played(g, effects).(step := g.step + n)
  {
    hide Played;
    if n == 1 {
      assert ExecutedTimes(script, g, 0) == g;
    } else {
      OneRunSpeaks(script, g, effects, n - 1);
      Spent(script, ExecutedTimes(script, g, n - 1));
    }
  }

  // --------------------------------------------------------------------- idle

  ghost predicate NoRpc(effects: seq<Effect>) { forall e :: e in effects ==> !e.Rpc? }

  /** Every run from `from` up to `to` left the session objects alone. */
  ghost predicate Quiet(script: Script, from: nat, to: nat) {
    forall i :: from <= i < to ==> NoRpc(EffectsAt(script, i))
  }

  /** What any stretch of runs does to the objects and the count. */
  ghost predicate GrewOnly(g: Rig, r: Rig) {
    g.order <= r.order && g.rpcCalls <= r.rpcCalls && (g.rpcCalls == r.rpcCalls ==> g.order == r.order)
  }

  lemma {:induction false} PlayedGrows(g: Rig, effects: seq<Effect>)
    ensures GrewOnly(g, Played(g, effects)) && Played(g, effects).step == g.step
    ensures Played(g, effects).rpcCalls == g.rpcCalls <==> NoRpc(effects)
  {
    if effects != [] {
      var front, last := effects[..|effects| - 1], effects[|effects| - 1];
      PlayedGrows(g, front);
      assert effects == front + [last];
      assert NoRpc(effects) <==> NoRpc(front) && !last.Rpc?;
      hide NoRpc, Played, S.Perform;
      var p := Played(g, front);
      assert Affected(p, last).rpcCalls == p.rpcCalls + if last.Rpc? then 1 else 0;
      assert p.order <= Affected(p, last).order && (!last.Rpc? ==> Affected(p, last).order == p.order);
    }
  }

  lemma GrewTwice(a: Rig, b: Rig, c: Rig)
    requires GrewOnly(a, b) && GrewOnly(b, c)
    ensures GrewOnly(a, c)
  {
  }

  lemma ExecutedGrows(script: Script, g: Rig)
    ensures GrewOnly(g, Executed(script, g)) && Executed(script, g).step == g.step + 1
    ensures Executed(script, g).rpcCalls == g.rpcCalls <==> NoRpc(EffectsAt(script, g.step))
  {
    PlayedGrows(g, EffectsAt(script, g.step));
    hide Played, NoRpc;
  }

  lemma QuietSnoc(script: Script, from: nat, to: nat)
    requires from <= to
    ensures Quiet(script, from, to + 1) <==> Quiet(script, from, to) && NoRpc(EffectsAt(script, to))
  {
  }

  /** A stretch of runs leaves the call count alone exactly when none of them calls
      an object, and then it makes none either. */
  lemma {:induction false} StretchGrows(script: Script, g: Rig, n: nat)
    ensures GrewOnly(g, ExecutedTimes(script, g, n)) && ExecutedTimes(script, g, n).step == g.step + n
    ensures ExecutedTimes(script, g, n).rpcCalls == g.rpcCalls <==> Quiet(script, g.step, g.step + n)
  {
    if n > 0 {
      var m := ExecutedTimes(script, g, n - 1);
      StretchGrows(script, g, n - 1);
      ExecutedGrows(script, m);
      GrewTwice(g, m, ExecutedTimes(script, g, n));
      QuietSnoc(script, g.step, m.step);
      hide Executed, Quiet, NoRpc;
    }
  }

  /** Ten passes that each made a call, say: `starts` lists the runs they began at. */
  ghost predicate BusyThrough(script: Script, starts: seq<nat>, from: nat, to: nat, passes: nat) {
    && |starts| == passes + 1 && starts[0] == from && starts[passes] == to
    && forall i :: 0 <= i < passes ==> !Quiet(script, starts[i], starts[i + 1])
  }

  lemma BusierStill(script: Script, starts: seq<nat>, from: nat, mid: nat, to: nat, passes: nat)
    requires BusyThrough(script, starts, mid, to, passes) && !Quiet(script, from, mid)
    ensures BusyThrough(script, [from] + starts, from, to, passes + 1)
  {
    hide Quiet;
  }

  /** The last thing done was a whole quiet pass over all objects. */
  ghost predicate EndsQuiet(script: Script, g: Rig) { |g.order| <= g.step && Quiet(script, g.step - |g.order|, g.step) }

  /** A pass that makes no call is a quiet one, and any other is not. */
  lemma PassIsQuiet(script: Script, g: Rig)
    ensures var r := Passed(script, g);
            && GrewOnly(g, r) && g.step <= r.step
            && (r.rpcCalls == g.rpcCalls ==> r.order == g.order && g.step + |r.order| == r.step && EndsQuiet(script, r))
            && (r.rpcCalls != g.rpcCalls ==> !Quiet(script, g.step, r.step))
  {
    StretchGrows(script, g, |g.order|);
    hide ExecutedTimes, Quiet;
  }

  /** A normal return of `idle` follows a whole pass over all objects that made no
      call and no object; a refusal follows `passes` passes that each made a call. */
  lemma {:induction false} IdleIsQuiet(script: Script, g: Rig, passes: nat) returns (starts: seq<nat>)
    ensures var o := Idled(script, g, passes);
            && GrewOnly(g, o.rig)
            && (o.ok ==> g.step + |o.rig.order| <= o.rig.step && EndsQuiet(script, o.rig))
            && (!o.ok ==> BusyThrough(script, starts, g.step, o.rig.step, passes))
    decreases passes
  {
    starts := [g.step];
    if passes > 0 {
      var r := Passed(script, g);
      PassIsQuiet(script, g);
      hide Passed, Quiet, EndsQuiet;
      if r.rpcCalls != g.rpcCalls {
        var more := IdleIsQuiet(script, r, passes - 1);
        var o := Idled(script, r, passes - 1);
        GrewTwice(g, r, o.rig);
        if !o.ok { BusierStill(script, more, g.step, r.step, o.rig.step, passes - 1); }
        starts := [g.step] + more;
      }
    }
  }

  /** The rig after `n` passes. */
  ghost function PassedTimes(script: Script, g: Rig, n: nat): Rig
    decreases n
  {
    if n == 0 then g else Passed(script, PassedTimes(script, g, n - 1))
  }

  /** The pass that starts at `m` calls no object. */
  ghost predicate QuietPass(script: Script, m: Rig) { Quiet(script, m.step, m.step + |m.order|) }

  lemma {:induction false} PassedFirst(script: Script, g: Rig, n: nat)
    ensures PassedTimes(script, Passed(script, g), n) == PassedTimes(script, g, n + 1)
  {
    hide Passed;
    if n > 0 { PassedFirst(script, g, n - 1); }
  }

  lemma PassCounts(script: Script, m: Rig)
    ensures var r := Passed(script, m);
            QuietPass(script, m) <==> |r.order| == |m.order| && r.rpcCalls == m.rpcCalls
  {
    StretchGrows(script, m, |m.order|);
    hide ExecutedTimes, Quiet;
  }

  /** Going idle takes as many passes as the first quiet one needs, if it is allowed
      that many. */
  lemma {:induction false} IdleAfter(script: Script, g: Rig, passes: nat, k: nat)
    requires k < passes && QuietPass(script, PassedTimes(script, g, k))
    requires forall i :: 0 <= i < k ==> !QuietPass(script, PassedTimes(script, g, i))
    ensures Idled(script, g, passes) == IdleOutcome(PassedTimes(script, g, k + 1), true)
    decreases k
  {
    hide Passed, QuietPass;
    PassCounts(script, g);
    assert PassedTimes(script, g, 0) == g && PassedTimes(script, g, 1) == Passed(script, g);
    if k > 0 {
      var r := Passed(script, g);
      assert !QuietPass(script, PassedTimes(script, g, 0));
      PassedFirst(script, g, k - 1);
      PassedFirst(script, g, k);
      forall i | 0 <= i < k - 1 ensures !QuietPass(script, PassedTimes(script, r, i)) { PassedFirst(script, g, i); }
      IdleAfter(script, r, passes - 1, k - 1);
    }
  }

  lemma {:induction false} IdleNever(script: Script, g: Rig, passes: nat)
    requires forall i :: 0 <= i < passes ==> !QuietPass(script, PassedTimes(script, g, i))
    ensures Idled(script, g, passes) == IdleOutcome(PassedTimes(script, g, passes), false)
    decreases passes
  {
    hide Passed, QuietPass;
    if passes > 0 {
      var r := Passed(script, g);
      PassCounts(script, g);
      assert PassedTimes(script, g, 0) == g;
      forall i | 0 <= i < passes - 1 ensures !QuietPass(script, PassedTimes(script, r, i)) { PassedFirst(script, g, i); }
      PassedFirst(script, g, passes - 1);
      IdleNever(script, r, passes - 1);
    }
  }

  /** Everything the objects do is at rest after the first quiet pass, if that is one
      of the first ten; otherwise going idle is given up on after ten. */
  lemma TenPasses(script: Script, g: Rig, k: nat)
    ensures k < 10 && QuietPass(script, PassedTimes(script, g, k))
            && (forall i :: 0 <= i < k ==> !QuietPass(script, PassedTimes(script, g, i))) ==>
              Idled(script, g, MAX_IDLE_PASSES) == IdleOutcome(PassedTimes(script, g, k + 1), true)
    ensures (forall i :: 0 <= i < 10 ==> !QuietPass(script, PassedTimes(script, g, i))) ==>
              Idled(script, g, MAX_IDLE_PASSES) == IdleOutcome(PassedTimes(script, g, 10), false)
  {
    hide Idled, PassedTimes, QuietPass;
    if k < 10 && QuietPass(script, PassedTimes(script, g, k))
       && forall i :: 0 <= i < k ==> !QuietPass(script, PassedTimes(script, g, i)) {
      IdleAfter(script, g, 10, k);
    }
    if forall i :: 0 <= i < 10 ==> !QuietPass(script, PassedTimes(script, g, i)) { IdleNever(script, g, 10); }
  }

  /** Once every due alarm has fired the sessions are brought to rest: after the first
      quiet pass if that is one of ten, and otherwise not at all. */
  lemma FiringRests(script: Script, g: Rig, now: int) returns (k: nat)
    ensures var walked := FiredFrom(script, g, 0, now, 0); var (o, ok) := FiredDue(script, g, now);
            && o.fired == walked.fired && k <= 10
            && (forall i :: 0 <= i < k ==> !QuietPass(script, PassedTimes(script, walked.rig, i)))
            && (ok <==> k < 10 && QuietPass(script, PassedTimes(script, walked.rig, k)))
            && o.rig == PassedTimes(script, walked.rig, if ok then k + 1 else 10)
  {
    hide Idled, PassedTimes, QuietPass, FiredFrom;
    var rig := FiredFrom(script, g, 0, now, 0).rig;
    k := 0;
    while k < 10 && !QuietPass(script, PassedTimes(script, rig, k))
      invariant k <= 10 && forall i :: 0 <= i < k ==> !QuietPass(script, PassedTimes(script, rig, i))
    {
      k := k + 1;
    }
    TenPasses(script, rig, k);
  }

  // ------------------------------------------------------------ what a run does

  /** The alarm a run sets last is the one the object has after it. */
  lemma {:induction false} LastArmStays(g: Rig, front: seq<Effect>, name: Name, at: Option<int>, rest: seq<Effect>)
    requires name in Played(g, front).objects
    requires forall e :: e in rest && e.Arm? ==> e.name != name
    ensures var r := Played(g, front + [Arm(name, at)] + rest); name in r.objects && r.objects[name] == at
  {
    hide S.Perform;
    var effects := front + [Arm(name, at)] + rest;
    var before := effects[..|effects| - 1];
    if rest == [] {
      assert before == front && effects[|effects| - 1] == Arm(name, at);
    } else {
      var last := rest[|rest| - 1];
      assert before == front + [Arm(name, at)] + rest[..|rest| - 1] && effects[|effects| - 1] == last;
      LastArmStays(g, front, name, at, rest[..|rest| - 1]);
    }
  }

  /** What a run asks of the switch. */
  ghost function Commands(effects: seq<Effect>): seq<S.Op> {
    if effects == [] then []
    else
      var last := effects[|effects| - 1];
      Commands(effects[..|effects| - 1]) + if last.Ask? then [last.command] else []
  }

  /** The switch does what a run asks of it, in order, and nothing else. */
  lemma {:induction false} SwitchObeys(g: Rig, effects: seq<Effect>)
    ensures Played(g, effects).voice == T.Run(g.voice, Commands(effects))
  {
    hide S.Perform;
    if effects != [] {
      var front, last := effects[..|effects| - 1], effects[|effects| - 1];
      SwitchObeys(g, front);
      if last.Ask? {
        T.RunStep(g.voice, Commands(front), last.command);
      } else {
        assert Commands(front) + [] == Commands(front);
      }
    }
  }

  // ---------------------------------------------------------------- the switch

  lemma AppendsNothing(s: S.State)
    ensures T.Appends(s, s)
  {
  }

  /** Every effect keeps the switch's invariant and only appends to its history. */
  lemma AffectedAppends(g: Rig, e: Effect)
    requires I.Inv(g.voice)
    ensures I.Inv(Affected(g, e).voice) && T.Appends(g.voice, Affected(g, e).voice)
  {
    hide S.Perform, I.Inv, T.Appends;
    AppendsNothing(g.voice);
    if e.Ask? {
      R.PerformKeeps(g.voice, e.command);
      T.PerformAppends(g.voice, e.command);
    }
  }

  lemma {:induction false} PlayedAppends(g: Rig, effects: seq<Effect>)
    requires I.Inv(g.voice)
    ensures I.Inv(Played(g, effects).voice) && T.Appends(g.voice, Played(g, effects).voice)
  {
    hide I.Inv, T.Appends, Affected;
    AppendsNothing(g.voice);
    if effects != [] {
      var p := Played(g, effects[..|effects| - 1]);
      PlayedAppends(g, effects[..|effects| - 1]);
      AffectedAppends(p, effects[|effects| - 1]);
      T.AppendsTrans(g.voice, p.voice, Played(g, effects).voice);
    }
  }

  lemma ExecutedAppends(script: Script, g: Rig)
    requires I.Inv(g.voice)
    ensures I.Inv(Executed(script, g).voice) && T.Appends(g.voice, Executed(script, g).voice)
  {
    PlayedAppends(g, EffectsAt(script, g.step));
    hide I.Inv, T.Appends, Played;
  }

  lemma {:induction false} StretchAppends(script: Script, g: Rig, n: nat)
    requires I.Inv(g.voice)
    ensures I.Inv(ExecutedTimes(script, g, n).voice) && T.Appends(g.voice, ExecutedTimes(script, g, n).voice)
  {
    hide I.Inv, T.Appends, Executed;
    AppendsNothing(g.voice);
    if n > 0 {
      var m := ExecutedTimes(script, g, n - 1);
      StretchAppends(script, g, n - 1);
      ExecutedAppends(script, m);
      T.AppendsTrans(g.voice, m.voice, Executed(script, m).voice);
    }
  }

  lemma {:induction false} IdleAppends(script: Script, g: Rig, passes: nat)
    requires I.Inv(g.voice)
    ensures I.Inv(Idled(script, g, passes).rig.voice) && T.Appends(g.voice, Idled(script, g, passes).rig.voice)
    decreases passes
  {
    hide I.Inv, T.Appends, ExecutedTimes;
    AppendsNothing(g.voice);
    if passes > 0 {
      var r := Passed(script, g);
      StretchAppends(script, g, |g.order|);
      IdleAppends(script, r, passes - 1);
      T.AppendsTrans(g.voice, r.voice, Idled(script, r, passes - 1).rig.voice);
    }
  }

  // ----------------------------------------------------------------- the drain

  /** What was handed out, followed by what waits, is what waited at first,
      followed by everything emitted since. */
  ghost predicate HandedOver(first: S.State, s: S.State, events: seq<S.Event>) {
    first.history <= s.history && events + s.outbox == first.outbox + s.history[|first.history|..]
  }

  /** Emissions alone hand nothing out. */
  lemma EmissionsWait(s: S.State, r: S.State)
    requires I.Inv(s) && I.Inv(r) && T.Appends(s, r)
    ensures HandedOver(s, r, [])
  {
    hide I.Inv;
    InvIsSuffix(s);
    InvIsSuffix(r);
    var news := r.history[|s.history|..];
    assert r.history == s.history + news && r.outbox == s.outbox + news;
    assert [] + r.outbox == r.outbox;
  }

  lemma InvIsSuffix(s: S.State)
    requires I.Inv(s)
    ensures I.Suffix(s.outbox, s.history)
  {
  }

  lemma OneTaken(s: S.State)
    requires s.outbox != []
    ensures HandedOver(s, s.(outbox := s.outbox[1..]), [s.outbox[0]])
  {
    assert s.history[|s.history|..] == [];
    assert [s.outbox[0]] + s.outbox[1..] == s.outbox + [];
  }

  /** Handing over composes. */
  lemma HandedOverTwice(a: S.State, b: S.State, c: S.State, x: seq<S.Event>, y: seq<S.Event>)
    requires HandedOver(a, b, x) && HandedOver(b, c, y)
    ensures HandedOver(a, c, x + y)
  {
    var u, v := b.history[|a.history|..], c.history[|b.history|..];
    assert c.history == b.history + v;
    assert c.history[|a.history|..] == u + v;
    Regroup(x, b.outbox, v);
    Regroup(a.outbox, u, v);
    Regroup(x, y, c.outbox);
  }

  lemma TakenKeeps(g: Rig)
    requires I.Inv(g.voice) && g.voice.outbox != []
    ensures I.Inv(Taken(g).voice) && HandedOver(g.voice, Taken(g).voice, [g.voice.outbox[0]])
  {
    hide I.Inv, S.Perform;
    R.PerformKeeps(g.voice, S.TakeEvent);
    TakeIs(g.voice);
    OneTaken(g.voice);
  }

  lemma TakeIs(s: S.State)
    requires s.outbox != []
    ensures S.Perform(s, S.TakeEvent).next == s.(outbox := s.outbox[1..])
  {
  }

  /** Taking one event, running its delivery and going idle hands over that event. */
  lemma DeliveryHandsOver(script: Script, g: Rig)
    requires I.Inv(g.voice) && g.voice.outbox != []
    ensures var r := Idled(script, Executed(script, Taken(g)), MAX_IDLE_PASSES).rig;
            I.Inv(r.voice) && HandedOver(g.voice, r.voice, [g.voice.outbox[0]])
  {
    hide I.Inv, T.Appends, HandedOver, Executed, Idled;
    var t := Taken(g);
    TakenKeeps(g);
    hide Taken;
    var e := Executed(script, t);
    ExecutedAppends(script, t);
    IdleAppends(script, e, MAX_IDLE_PASSES);
    var r := Idled(script, e, MAX_IDLE_PASSES).rig;
    T.AppendsTrans(t.voice, e.voice, r.voice);
    EmissionsWait(t.voice, r.voice);
    HandedOverTwice(g.voice, t.voice, r.voice, [g.voice.outbox[0]], []);
    assert [g.voice.outbox[0]] + [] == [g.voice.outbox[0]];
  }

  lemma IdleHandsOver(script: Script, g: Rig)
    requires I.Inv(g.voice)
    ensures var r := Idled(script, g, MAX_IDLE_PASSES).rig;
            I.Inv(r.voice) && HandedOver(g.voice, r.voice, [])
  {
    hide I.Inv, T.Appends, HandedOver, Idled;
    IdleAppends(script, g, MAX_IDLE_PASSES);
    EmissionsWait(g.voice, Idled(script, g, MAX_IDLE_PASSES).rig.voice);
  }

  /** The promise of the drain: delivered events followed by the outbox are what
      waited followed by every emission; at most limit + 1 deliveries, that many only
      when it gives up; a normal return means an empty outbox and a quiet pass. */
  ghost predicate DrainKept(script: Script, g: Rig, d: Drained, delivered: nat, limit: nat) {
    && I.Inv(d.rig.voice) && HandedOver(g.voice, d.rig.voice, d.events)
    && delivered + |d.events| <= limit + 1
    && (d.result.Settled? ==>
          && d.result.delivered == delivered + |d.events| <= limit && d.rig.voice.outbox == []
          && EndsQuiet(script, d.rig))
    && (d.result.DidNotSettle? ==>
          delivered + |d.events| == limit + 1 && d.events != [] && d.events[|d.events| - 1] == d.result.last)
  }

  lemma IdleEndsQuiet(script: Script, g: Rig)
    ensures var o := Idled(script, g, MAX_IDLE_PASSES); o.ok ==> EndsQuiet(script, o.rig)
  {
    hide Idled, EndsQuiet, BusyThrough;
    var _ := IdleIsQuiet(script, g, MAX_IDLE_PASSES);
  }

  /** A drain that starts after `events` were handed over. */
  lemma DrainExtends(script: Script, g: Rig, r: Rig, events: seq<S.Event>, d: Drained, delivered: nat, limit: nat)
    requires HandedOver(g.voice, r.voice, events) && DrainKept(script, r, d, delivered + |events|, limit)
    ensures DrainKept(script, g, Drained(d.rig, d.result, events + d.events), delivered, limit)
  {
    HandedOverTwice(g.voice, r.voice, d.rig.voice, events, d.events);
    hide I.Inv, HandedOver, EndsQuiet;
  }

  lemma {:induction false} LoopKeeps(script: Script, g: Rig, delivered: nat, limit: nat)
    requires I.Inv(g.voice) && delivered <= limit
    ensures DrainKept(script, g, DrainedFrom(script, g, delivered, limit), delivered, limit)
    decreases limit - delivered, if g.voice.outbox == [] then 1 else 0
  {
    hide I.Inv, HandedOver, EndsQuiet, Idled, Executed;
    if g.voice.outbox == [] {
      var o := Idled(script, g, MAX_IDLE_PASSES);
      IdleHandsOver(script, g);
      IdleEndsQuiet(script, g);
      if o.ok && o.rig.voice.outbox != [] {
        LoopKeeps(script, o.rig, delivered, limit);
        DrainExtends(script, g, o.rig, [], DrainedFrom(script, o.rig, delivered, limit), delivered, limit);
        assert [] + DrainedFrom(script, o.rig, delivered, limit).events
            == DrainedFrom(script, o.rig, delivered, limit).events;
      }
    } else {
      var event := g.voice.outbox[0];
      var o := Idled(script, Executed(script, Taken(g)), MAX_IDLE_PASSES);
      DeliveryHandsOver(script, g);
      if o.ok && delivered + 1 <= limit {
        LoopKeeps(script, o.rig, delivered + 1, limit);
        DrainExtends(script, g, o.rig, [event], DrainedFrom(script, o.rig, delivered + 1, limit), delivered, limit);
      }
    }
  }

  lemma DrainLoopKeeps(script: Script, g: Rig, limit: nat)
    requires I.Inv(g.voice)
    ensures DrainKept(script, g, DrainedAll(script, g, limit), 0, limit)
  {
    hide I.Inv, HandedOver, EndsQuiet, Idled, DrainedFrom;
    var o := Idled(script, g, MAX_IDLE_PASSES);
    IdleHandsOver(script, g);
    if o.ok {
      LoopKeeps(script, o.rig, 0, limit);
      DrainExtends(script, g, o.rig, [], DrainedFrom(script, o.rig, 0, limit), 0, limit);
      assert [] + DrainedFrom(script, o.rig, 0, limit).events == DrainedFrom(script, o.rig, 0, limit).events;
    }
  }

  /** Bringing every session to rest, in at most ten passes. */
  ghost function Rest(script: Script, g: Rig): IdleOutcome { Idled(script, g, 10) }

  /** From what one rest left, the next begins: once more where nothing waits, and
      after the oldest waiting event was delivered where something does. */
  ghost predicate RestsNext(script: Script, r: Rig, next: Rig) {
    next == if r.voice.outbox == [] then r else Executed(script, Taken(r))
  }

  /** A drain as its rests: each but the last is reached, and the last one decides.
      The answer is "still busy" exactly when it is not reached. */
  ghost predicate Rested(script: Script, rests: seq<Rig>, d: Drained) {
    && rests != []
    && (forall k :: 0 <= k < |rests| - 1 ==>
          Rest(script, rests[k]).ok && RestsNext(script, Rest(script, rests[k]).rig, rests[k + 1]))
    && (d.result.StillBusy? <==> !Rest(script, rests[|rests| - 1]).ok)
    && d.rig == Rest(script, rests[|rests| - 1]).rig
  }

  lemma OneRest(script: Script, g: Rig, d: Drained)
    requires d.rig == Rest(script, g).rig && (d.result.StillBusy? <==> !Rest(script, g).ok)
    ensures Rested(script, [g], d)
  {
    hide Rest;
  }

  lemma RestedBefore(script: Script, g: Rig, rests: seq<Rig>, d: Drained, e: Drained)
    requires Rest(script, g).ok && Rested(script, rests, d) && RestsNext(script, Rest(script, g).rig, rests[0])
    requires e.result == d.result && e.rig == d.rig
    ensures Rested(script, [g] + rests, e)
  {
    hide Rest, RestsNext;
    var all := [g] + rests;
    assert all[|all| - 1] == rests[|rests| - 1];
    forall k | 0 <= k < |all| - 1
      ensures Rest(script, all[k]).ok && RestsNext(script, Rest(script, all[k]).rig, all[k + 1])
    {
      if k > 0 { assert all[k] == rests[k - 1] && all[k + 1] == rests[k]; }
    }
  }

  lemma {:induction false} LoopRests(script: Script, r: Rig, delivered: nat, limit: nat) returns (rests: seq<Rig>)
    requires delivered <= limit
    ensures Rested(script, rests, DrainedFrom(script, r, delivered, limit)) && RestsNext(script, r, rests[0])
    decreases limit - delivered, if r.voice.outbox == [] then 1 else 0
  {
    hide Idled, Executed, Taken, Rested;
    var d := DrainedFrom(script, r, delivered, limit);
    var next := if r.voice.outbox == [] then r else Executed(script, Taken(r));
    var o := Rest(script, next);
    assert o == Idled(script, next, MAX_IDLE_PASSES);
    if r.voice.outbox == [] {
      if o.ok && o.rig.voice.outbox != [] {
        var more := LoopRests(script, o.rig, delivered, limit);
        RestedBefore(script, next, more, DrainedFrom(script, o.rig, delivered, limit), d);
        rests := [next] + more;
      } else {
        OneRest(script, next, d);
        rests := [next];
      }
    } else if o.ok && delivered + 1 <= limit {
      var more := LoopRests(script, o.rig, delivered + 1, limit);
      RestedBefore(script, next, more, DrainedFrom(script, o.rig, delivered + 1, limit), d);
      rests := [next] + more;
    } else {
      OneRest(script, next, d);
      rests := [next];
    }
  }

  lemma DrainRests(script: Script, g: Rig, limit: nat) returns (rests: seq<Rig>)
    ensures Rested(script, rests, DrainedAll(script, g, limit)) && rests[0] == g
  {
    hide Idled, DrainedFrom, Rested;
    var o := Rest(script, g);
    var d := DrainedAll(script, g, limit);
    assert o == Idled(script, g, MAX_IDLE_PASSES);
    if o.ok {
      var more := LoopRests(script, o.rig, 0, limit);
      RestedBefore(script, g, more, DrainedFrom(script, o.rig, 0, limit), d);
      rests := [g] + more;
    } else {
      OneRest(script, g, d);
      rests := [g];
    }
  }

  /** Every rest begins at the first one's run or later. */
  lemma {:induction false} RestsGoOn(script: Script, rests: seq<Rig>, k: nat)
    requires k < |rests|
    requires forall i :: 0 <= i < |rests| - 1 ==> RestsNext(script, Rest(script, rests[i]).rig, rests[i + 1])
    ensures rests[0].step <= rests[k].step
  {
    if k > 0 {
      RestsGoOn(script, rests, k - 1);
      IdleSteps(script, rests[k - 1], 10);
      assert RestsNext(script, Rest(script, rests[k - 1]).rig, rests[k]);
      hide Idled, Executed, Taken;
      RestSteps(script, Rest(script, rests[k - 1]).rig, rests[k]);
    }
  }

  lemma RestSteps(script: Script, r: Rig, next: Rig)
    requires RestsNext(script, r, next)
    ensures r.step <= next.step
  {
    if r.voice.outbox != [] { ExecutedGrows(script, Taken(r)); }
  }

  lemma {:induction false} IdleSteps(script: Script, g: Rig, passes: nat)
    ensures g.step <= Idled(script, g, passes).rig.step
    decreases passes
  {
    if passes > 0 {
      PassIsQuiet(script, g);
      hide Passed, Quiet;
      IdleSteps(script, Passed(script, g), passes - 1);
    }
  }

  /** The promise of the drain, and when it breaks off: it brings every session to
      rest before the first delivery, after each, and before it ends; it answers
      "still busy" exactly when the last of these is not reached, and then ten passes
      in a row each made a call. */
  lemma DrainSettles(script: Script, g: Rig, limit: nat) returns (rests: seq<Rig>, starts: seq<nat>)
    requires I.Inv(g.voice)
    ensures var d := DrainedAll(script, g, limit);
            && DrainKept(script, g, d, 0, limit)
            && Rested(script, rests, d) && rests[0] == g
            && (d.result.StillBusy? ==>
                  var last := rests[|rests| - 1];
                  g.step <= last.step && BusyThrough(script, starts, last.step, d.rig.step, 10))
  {
    hide DrainKept, DrainedAll, I.Inv, Idled, BusyThrough;
    DrainLoopKeeps(script, g, limit);
    rests := DrainRests(script, g, limit);
    starts := IdleIsQuiet(script, rests[|rests| - 1], 10);
    RestsGoOn(script, rests, |rests| - 1);
  }

  // ---------------------------------------------------------------- the alarms

  ghost predicate NoArm(effects: seq<Effect>) { forall e :: e in effects ==> !e.Arm? }

  /** No run re-arms an alarm. */
  ghost predicate Unarmed(script: Script) { forall i :: 0 <= i < |script| ==> NoArm(script[i]) }

  /** Objects keep their alarms; new ones have none. */
  ghost predicate AlarmsKept(g: Rig, r: Rig) {
    && g.order <= r.order
    && (forall name :: name in g.objects ==> name in r.objects && r.objects[name] == g.objects[name])
    && (forall name :: name in r.objects && name !in g.objects ==> r.objects[name] == None)
  }

  lemma {:induction false} PlayedKeepsAlarms(g: Rig, effects: seq<Effect>)
    requires NoArm(effects)
    ensures AlarmsKept(g, Played(g, effects))
  {
    hide S.Perform;
    if effects != [] {
      var front, last := effects[..|effects| - 1], effects[|effects| - 1];
      assert last in effects && NoArm(front);
      PlayedKeepsAlarms(g, front);
    }
  }

  lemma ExecutedKeepsAlarms(script: Script, g: Rig)
    requires Unarmed(script)
    ensures AlarmsKept(g, Executed(script, g))
  {
    PlayedKeepsAlarms(g, EffectsAt(script, g.step));
    hide Played;
  }

  lemma {:induction false} PlayedListed(g: Rig, effects: seq<Effect>)
    requires Listed(g.objects, g.order)
    ensures Listed(Played(g, effects).objects, Played(g, effects).order)
  {
    if effects != [] {
      PlayedListed(g, effects[..|effects| - 1]);
      AffectedListed(Played(g, effects[..|effects| - 1]), effects[|effects| - 1]);
    }
  }

  lemma AffectedListed(g: Rig, e: Effect)
    requires Listed(g.objects, g.order)
    ensures Listed(Affected(g, e).objects, Affected(g, e).order)
  {
    hide S.Perform;
    if e.Rpc? && e.name !in g.objects {
      var order := g.order + [e.name];
      assert order[|g.order|] == e.name;
      forall name | name in g.objects ensures name in order { assert name in g.order; }
    }
  }

  /** How many of the objects from the `k`-th on are due. */
  ghost function CountDue(g: Rig, k: nat, now: int): nat
    decreases |g.order| - k
  {
    if |g.order| <= k then 0
    else CountDue(g, k + 1, now) + if g.order[k] in g.objects && Due(g.objects[g.order[k]], now) then 1 else 0
  }

  /** `r` is `g` with more objects, none of them armed, and the same alarms from the
      `k`-th object on. */
  ghost predicate SameFrom(g: Rig, r: Rig, k: nat) {
    && g.order <= r.order
    && (forall i :: k <= i < |g.order| ==>
          g.order[i] in g.objects && g.order[i] in r.objects && r.objects[g.order[i]] == g.objects[g.order[i]])
    && (forall i :: |g.order| <= i < |r.order| ==> r.order[i] in r.objects && r.objects[r.order[i]] == None)
  }

  lemma {:induction false} CountDueSame(g: Rig, r: Rig, k: nat, now: int)
    requires SameFrom(g, r, k)
    ensures CountDue(r, k, now) == CountDue(g, k, now)
    decreases |r.order| - k
  {
    if k < |r.order| {
      CountDueSame(g, r, k + 1, now);
      if k < |g.order| { assert r.order[k] == g.order[k]; }
    }
  }

  /** One alarm fired: its object's is cleared, every other is as it was. */
  ghost predicate ClearedOne(g: Rig, r: Rig, k: nat) {
    && k < |g.order| && g.order <= r.order
    && (forall i :: 0 <= i < |g.order| ==>
          && g.order[i] in g.objects && g.order[i] in r.objects
          && r.objects[g.order[i]] == if i == k then None else g.objects[g.order[i]])
    && (forall i :: |g.order| <= i < |r.order| ==> r.order[i] in r.objects && r.objects[r.order[i]] == None)
  }

  lemma FiredClearsOne(script: Script, g: Rig, k: nat)
    requires Unarmed(script) && Listed(g.objects, g.order) && k < |g.order|
    ensures ClearedOne(g, Fired(script, g, g.order[k]), k)
    ensures Listed(Fired(script, g, g.order[k]).objects, Fired(script, g, g.order[k]).order)
  {
    var c := WithAlarm(g, g.order[k], None);
    ExecutedListed(script, c);
    hide Executed, Unarmed;
    ExecutedKeepsAlarms(script, c);
    KeptButOne(g, c, Executed(script, c), k);
  }

  lemma ExecutedListed(script: Script, g: Rig)
    requires Listed(g.objects, g.order)
    ensures Listed(Executed(script, g).objects, Executed(script, g).order)
  {
    PlayedListed(g, EffectsAt(script, g.step));
    hide Listed, Played;
  }

  lemma KeptButOne(g: Rig, c: Rig, r: Rig, k: nat)
    requires Listed(g.objects, g.order) && k < |g.order| && c == WithAlarm(g, g.order[k], None)
    requires AlarmsKept(c, r) && Listed(r.objects, r.order)
    ensures ClearedOne(g, r, k)
  {
    InOrder(g);
    forall i | 0 <= i < |g.order|
      ensures g.order[i] in r.objects && r.objects[g.order[i]] == if i == k then None else g.objects[g.order[i]]
    {
      assert g.order[i] in c.objects;
    }
    NewcomersUnarmed(g.objects.Keys, g.order, r);
    hide Listed;
    forall i | |g.order| <= i < |r.order| ensures r.order[i] in r.objects && r.objects[r.order[i]] == None {
      assert r.order[i] !in c.objects;
    }
  }

  /** Objects listed after the old ones are new. */
  lemma NewcomersUnarmed(olds: set<Name>, order: seq<Name>, r: Rig)
    requires (forall name :: name in olds ==> name in order) && order <= r.order && Listed(r.objects, r.order)
    ensures forall i :: |order| <= i < |r.order| ==> r.order[i] in r.objects && r.order[i] !in olds
  {
    forall i | |order| <= i < |r.order| ensures r.order[i] !in olds {
      assert forall j :: 0 <= j < |order| ==> order[j] == r.order[j] && r.order[j] != r.order[i];
    }
  }

  lemma FiredIs(script: Script, g: Rig, k: nat)
    requires k < |g.order|
    ensures Fired(script, g, g.order[k]) == Executed(script, WithAlarm(g, g.order[k], None))
    ensures Fired(script, g, g.order[k]).step == g.step + 1
    ensures |script| <= g.step ==> Fired(script, g, g.order[k]).order == g.order
  {
    Spent(script, WithAlarm(g, g.order[k], None));
    hide Executed;
  }

  lemma InOrder(g: Rig)
    requires Listed(g.objects, g.order)
    ensures forall i :: 0 <= i < |g.order| ==> g.order[i] in g.objects
  {
  }

  /** One turn of the walk, as the definition has it. */
  lemma FireTurn(script: Script, g: Rig, k: nat, now: int, fired: nat)
    requires Listed(g.objects, g.order) && k < |g.order|
    ensures g.order[k] in g.objects
    ensures FiredFrom(script, g, k, now, fired)
         == if Due(g.objects[g.order[k]], now)
            then FiredFrom(script, Fired(script, g, g.order[k]), k + 1, now, fired + 1)
            else FiredFrom(script, g, k + 1, now, fired)
  {
    InOrder(g);
    hide Fired;
  }

  lemma FireEnds(script: Script, g: Rig, k: nat, now: int, fired: nat)
    requires |g.order| <= k
    ensures FiredFrom(script, g, k, now, fired) == FireOutcome(g, fired)
  {
  }

  // What becomes of every alarm, whatever the runs arm.

  /** A run from `from` up to `to` set the alarm of `name` to `at`. */
  ghost predicate ArmedTo(script: Script, from: nat, to: nat, name: Name, at: Option<int>) {
    exists i :: from <= i < to && Arm(name, at) in EffectsAt(script, i)
  }

  ghost predicate ArmedIn(script: Script, from: nat, to: nat, name: Name) {
    exists at :: ArmedTo(script, from, to, name, at)
  }

  lemma ArmedOnward(script: Script, from: nat, mid: nat, to: nat, name: Name, at: Option<int>)
    requires from <= mid <= to && ArmedTo(script, mid, to, name, at)
    ensures ArmedTo(script, from, to, name, at) && ArmedIn(script, from, to, name)
  {
  }

  lemma ArmedFirst(script: Script, from: nat, to: nat, name: Name, at: Option<int>)
    requires from < to && Arm(name, at) in EffectsAt(script, from)
    ensures ArmedTo(script, from, to, name, at) && ArmedIn(script, from, to, name)
  {
  }

  ghost function AlarmOf(g: Rig, name: Name): Option<int> {
    if name in g.objects then g.objects[name] else None
  }

  /** What the walk from the `k`-th object on makes of the `i`-th alarm by itself. */
  ghost function Walked(g: Rig, k: nat, now: int, i: nat, name: Name): Option<int> {
    if k <= i && Due(AlarmOf(g, name), now) then None else AlarmOf(g, name)
  }

  /** An alarm is what the walk by itself makes of it, or what a run of the walk set
      it to, or it was set by a run and then fired. */
  ghost predicate Traced(script: Script, g: Rig, r: Rig, k: nat, now: int, i: nat)
    requires i < |r.order|
  {
    var name := r.order[i];
    && name in r.objects
    && (|| r.objects[name] == Walked(g, k, now, i, name)
        || ArmedTo(script, g.step, r.step, name, r.objects[name])
        || (r.objects[name] == None && ArmedIn(script, g.step, r.step, name)))
  }

  /** One run sets alarms only by arming them. */
  ghost predicate ArmsOnly(g: Rig, r: Rig, effects: seq<Effect>) {
    && g.order <= r.order && g.objects.Keys <= r.objects.Keys
    && forall name :: name in r.objects && r.objects[name] != AlarmOf(g, name) ==> Arm(name, r.objects[name]) in effects
  }

  lemma {:induction false} PlayedArms(g: Rig, effects: seq<Effect>)
    ensures ArmsOnly(g, Played(g, effects), effects)
  {
    if effects != [] {
      var front, last := effects[..|effects| - 1], effects[|effects| - 1];
      PlayedArms(g, front);
      assert effects == front + [last];
      ArmsOneMore(g, Played(g, front), front, last);
    }
  }

  lemma ArmsOneMore(g: Rig, p: Rig, front: seq<Effect>, last: Effect)
    requires ArmsOnly(g, p, front)
    ensures ArmsOnly(g, Affected(p, last), front + [last])
  {
    hide S.Perform;
    assert last in front + [last] && forall e :: e in front ==> e in front + [last];
  }

  lemma FiredArms(script: Script, g: Rig, k: nat)
    requires Listed(g.objects, g.order) && k < |g.order|
    ensures var m := Fired(script, g, g.order[k]);
            && m.step == g.step + 1 && Listed(m.objects, m.order)
            && ArmsOnly(WithAlarm(g, g.order[k], None), m, EffectsAt(script, g.step))
  {
    var c := WithAlarm(g, g.order[k], None);
    FiredIs(script, g, k);
    ExecutedListed(script, c);
    PlayedArms(c, EffectsAt(script, c.step));
    hide Played, Listed;
  }

  /** An alarm traced to a run of the rest of the walk, or untouched by it, is traced
      over the walk that began one firing before. */
  lemma TracedEarlier(script: Script, g: Rig, m: Rig, r: Rig, k: nat, now: int, i: nat)
    requires Listed(g.objects, g.order) && k < |g.order| && Due(AlarmOf(g, g.order[k]), now)
    requires ArmsOnly(WithAlarm(g, g.order[k], None), m, EffectsAt(script, g.step))
    requires m.step == g.step + 1 <= r.step && i < |r.order| && Traced(script, m, r, k + 1, now, i)
    requires Listed(m.objects, m.order) && Listed(r.objects, r.order) && g.order <= m.order <= r.order
    ensures Traced(script, g, r, k, now, i)
  {
    var name := r.order[i];
    var c := WithAlarm(g, g.order[k], None);
    if ArmedTo(script, m.step, r.step, name, r.objects[name]) {
      ArmedOnward(script, g.step, m.step, r.step, name, r.objects[name]);
    } else if ArmedIn(script, m.step, r.step, name) && r.objects[name] == None {
      var at :| ArmedTo(script, m.step, r.step, name, at);
      ArmedOnward(script, g.step, m.step, r.step, name, at);
    } else if name in m.objects && m.objects[name] != AlarmOf(c, name) {
      ArmedFirst(script, g.step, r.step, name, m.objects[name]);
    } else {
      OnlyAt(g, r, k, i);
      AlarmBefore(g, c, m, k, now, i, name);
    }
  }

  lemma AlarmBefore(g: Rig, c: Rig, m: Rig, k: nat, now: int, i: nat, name: Name)
    requires Listed(g.objects, g.order) && k < |g.order| && Due(AlarmOf(g, g.order[k]), now)
    requires c == WithAlarm(g, g.order[k], None) && (name == g.order[k] <==> i == k)
    requires name in m.objects ==> m.objects[name] == AlarmOf(c, name)
    requires forall x :: x in c.objects ==> x in m.objects
    ensures Walked(m, k + 1, now, i, name) == Walked(g, k, now, i, name)
  {
  }

  /** In a longer list the `k`-th object stands at position `k` only. */
  lemma OnlyAt(g: Rig, r: Rig, k: nat, i: nat)
    requires k < |g.order| && g.order <= r.order && i < |r.order| && Listed(r.objects, r.order)
    ensures r.order[i] == g.order[k] <==> i == k
  {
    assert r.order[k] == g.order[k];
  }

  lemma {:induction false} WalkTraced(script: Script, g: Rig, k: nat, now: int, fired: nat)
    requires Listed(g.objects, g.order)
    ensures var o := FiredFrom(script, g, k, now, fired); var r := o.rig;
            && g.order <= r.order && Listed(r.objects, r.order) && g.step <= r.step
            && o.fired - fired == r.step - g.step
            && forall i :: 0 <= i < |r.order| ==> Traced(script, g, r, k, now, i)
    decreases Left(script, g.step), |g.order| - k
  {
    hide Executed, Listed, Fired, ArmsOnly, Traced, Due;
    InOrder(g);
    if |g.order| <= k {
      FireEnds(script, g, k, now, fired);
      Untouched(script, g, k, now);
    } else {
      FireTurn(script, g, k, now, fired);
      if Due(g.objects[g.order[k]], now) {
        var m := Fired(script, g, g.order[k]);
        Spent(script, WithAlarm(g, g.order[k], None));
        FiredIs(script, g, k);
        FiredArms(script, g, k);
        FiredOrder(script, g, k);
        WalkTraced(script, m, k + 1, now, fired + 1);
        var r := FiredFrom(script, m, k + 1, now, fired + 1).rig;
        forall i | 0 <= i < |r.order| ensures Traced(script, g, r, k, now, i) {
          TracedEarlier(script, g, m, r, k, now, i);
        }
      } else {
        WalkTraced(script, g, k + 1, now, fired);
        var r := FiredFrom(script, g, k + 1, now, fired).rig;
        forall i | 0 <= i < |r.order| ensures Traced(script, g, r, k, now, i) {
          NotDueThere(script, g, r, k, now, i);
        }
      }
    }
  }

  lemma FiredOrder(script: Script, g: Rig, k: nat)
    requires Listed(g.objects, g.order) && k < |g.order|
    ensures g.order <= Fired(script, g, g.order[k]).order
  {
    FiredArms(script, g, k);
    hide Fired;
  }

  lemma Untouched(script: Script, g: Rig, k: nat, now: int)
    requires Listed(g.objects, g.order) && |g.order| <= k
    ensures forall i :: 0 <= i < |g.order| ==> Traced(script, g, g, k, now, i)
  {
  }

  lemma NotDueThere(script: Script, g: Rig, r: Rig, k: nat, now: int, i: nat)
    requires k < |g.order| && g.order[k] in g.objects && !Due(g.objects[g.order[k]], now)
    requires g.order <= r.order && i < |r.order| && Traced(script, g, r, k + 1, now, i)
    ensures Traced(script, g, r, k, now, i)
  {
    if i == k { assert r.order[i] == g.order[k]; }
  }

  /** The promise of `fireDueAlarms`, whatever its runs do. An alarm no run of the
      walk set is cleared if it was due and kept if it was not; an object still due
      at the end was set so by a run of this very walk; and the alarms fired are as
      many as the runs there were. */
  lemma FiresWhatIsDue(script: Script, g: Rig, now: int)
    requires Listed(g.objects, g.order)
    ensures var o := FiredFrom(script, g, 0, now, 0); var r := o.rig;
            && o.fired == r.step - g.step && g.order <= r.order
            && (forall name :: name in r.objects && !ArmedIn(script, g.step, r.step, name) ==>
                  var alarm := AlarmOf(g, name);
                  r.objects[name] == if alarm.Some? && alarm.value <= now then None else alarm)
            && (forall name :: name in r.objects && r.objects[name].Some? && r.objects[name].value <= now ==>
                  ArmedTo(script, g.step, r.step, name, r.objects[name]))
  {
    var r := FiredFrom(script, g, 0, now, 0).rig;
    WalkTraced(script, g, 0, now, 0);
    forall name | name in r.objects
      ensures !ArmedIn(script, g.step, r.step, name) ==>
                r.objects[name] == if Due(AlarmOf(g, name), now) then None else AlarmOf(g, name)
      ensures Due(r.objects[name], now) ==> ArmedTo(script, g.step, r.step, name, r.objects[name])
    {
      var i :| 0 <= i < |r.order| && r.order[i] == name;
      assert Traced(script, g, r, 0, now, i);
      hide FiredFrom;
    }
  }

  /** When no run arms an alarm at all, as many are fired as were due. */
  lemma {:induction false} FiresAsMany(script: Script, g: Rig, k: nat, now: int, fired: nat)
    requires Unarmed(script) && Listed(g.objects, g.order)
    ensures FiredFrom(script, g, k, now, fired).fired == fired + CountDue(g, k, now)
    decreases Left(script, g.step), |g.order| - k
  {
    hide Executed, Listed, Unarmed, ClearedOne, Fired;
    InOrder(g);
    if k < |g.order| {
      if Due(g.objects[g.order[k]], now) {
        var m := Fired(script, g, g.order[k]);
        Spent(script, WithAlarm(g, g.order[k], None));
        FiredIs(script, g, k);
        FiredClearsOne(script, g, k);
        FiresAsMany(script, m, k + 1, now, fired + 1);
        CountAfter(g, m, k, now);
      } else {
        FiresAsMany(script, g, k + 1, now, fired);
      }
    }
  }

  lemma CountAfter(g: Rig, m: Rig, k: nat, now: int)
    requires k < |g.order| && g.order[k] in g.objects && Due(g.objects[g.order[k]], now) && ClearedOne(g, m, k)
    ensures CountDue(g, k, now) == CountDue(m, k + 1, now) + 1
  {
    assert SameFrom(g, m, k + 1);
    CountDueSame(g, m, k + 1, now);
  }
}
