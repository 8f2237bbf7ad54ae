/** The mutable stand-in for the session objects, over the mutable switch: each
    method is proved to do what a function of `SessionsSpec` says (apps/api/e2e/
    call-sessions.ts, lines 68-168, and call-budget.ts, lines 188-212). */
module CallSessions {
  import opened Wrappers
  import opened SessionsSpec
  import S = VoiceSpec
  import I = VoiceInvariants
  import M = VoiceModel

  class Sessions {
    const voice: M.VoiceModel
    const script: Script
    /** How many times anything has been run. */
    var step: nat
    /** The armed alarm of every object, and the order the objects were made in. */
    var objects: map<Name, Option<int>>
    var order: seq<Name>
    var rpcCalls: nat

    constructor (voice: M.VoiceModel, script: Script)
      requires voice.Valid()
      ensures this.voice == voice && this.script == script && voice.Valid() && Valid()
      ensures Abs() == Rig(voice.Abs(), map[], [], 0, 0)
    {
      this.voice, this.script, step := voice, script, 0;
      objects, order, rpcCalls := map[], [], 0;
    }

    ghost predicate Valid()
      reads this, voice, voice.legs.Values
    {
      Listed(objects, order) && voice.Valid()
    }

    ghost function Abs(): Rig
      reads this, voice, voice.legs.Values
    {
      Rig(voice.Abs(), objects, order, rpcCalls, step)
    }

    /** One object per name. */
    method ObjectFor(name: Name)
      requires Valid()
      modifies this`objects, this`order
      ensures Valid() && Abs() == WithObject(old(Abs()), name)
    {
      AffectedListed(Abs(), Rpc(name));
      if name !in objects {
        objects := objects[name := None];
        order := order + [name];
      }
    }

    method SetAlarm(name: Name, at: Option<int>)
      requires Valid()
      modifies this`objects
      ensures Valid() && Abs() == WithAlarm(old(Abs()), name, at)
    {
      if name in objects {
        objects := objects[name := at];
      }
    }

    method Apply(effect: Effect)
      requires Valid()
      modifies this`objects, this`order, this`rpcCalls, voice, voice.legs.Values
      ensures Valid() && Abs() == Affected(old(Abs()), effect)
      ensures fresh(voice.legs.Values - old(voice.legs.Values))
    {
      hide S.Perform, Listed, WithObject, WithAlarm;
      match effect {
        case Rpc(name) =>
          rpcCalls := rpcCalls + 1;
          ObjectFor(name);
        case Arm(name, at) => SetAlarm(name, at);
        case Ask(command) =>
          var _ := voice.Perform(command);
      }
    }

    /** Whatever a session object or the router does when it is run. */
    method Execute()
      requires Valid()
      modifies this`step, this`objects, this`order, this`rpcCalls, voice, voice.legs.Values
      ensures Valid() && Abs() == Executed(script, old(Abs()))
      ensures fresh(voice.legs.Values - old(voice.legs.Values))
    {
      var effects := EffectsAt(script, step);
      ghost var before := Abs();
      PlayedNothing(before);
      hide Affected, Listed, Played;
      for i := 0 to |effects|
        invariant Valid() && Abs() == Played(before, effects[..i])
        invariant fresh(voice.legs.Values - old(voice.legs.Values))
      {
        Apply(effects[i]);
        PlayedOneMore(before, effects, i);
      }
      assert effects[..|effects|] == effects;
      PlayedKeepsStep(before, effects);
      step := step + 1;
    }

    /** One pass: every object there is at its start runs to idle once. */
    method Pass()
      requires Valid()
      modifies this`step, this`objects, this`order, this`rpcCalls, voice, voice.legs.Values
      ensures Valid() && Abs() == Passed(script, old(Abs()))
      ensures fresh(voice.legs.Values - old(voice.legs.Values))
    {
      hide Executed, Listed;
      var waiting := order;
      ghost var before := Abs();
      for k := 0 to |waiting|
        invariant Valid() && Abs() == ExecutedTimes(script, before, k)
        invariant fresh(voice.legs.Values - old(voice.legs.Values))
      {
        Execute();
      }
    }

    /** Passes until one neither creates an object nor calls into one; false when
        they run out. */
    method Idle() returns (ok: bool)
      requires Valid()
      modifies this`step, this`objects, this`order, this`rpcCalls, voice, voice.legs.Values
      ensures Valid() && IdleOutcome(Abs(), ok) == Idled(script, old(Abs()), MAX_IDLE_PASSES)
      ensures fresh(voice.legs.Values - old(voice.legs.Values))
    {
      hide Passed, Listed;
      ghost var before := Abs();
      for pass := 0 to MAX_IDLE_PASSES
        invariant Valid()
        invariant Idled(script, Abs(), MAX_IDLE_PASSES - pass) == Idled(script, before, MAX_IDLE_PASSES)
        invariant fresh(voice.legs.Values - old(voice.legs.Values))
      {
        var objectsBefore, callsBefore := |order|, rpcCalls;
        Pass();
        if |order| == objectsBefore && rpcCalls == callsBefore { return true; }
      }
      ok := false;
    }

    /** The earliest armed alarm, or none. */
    method NextAlarmAt() returns (soonest: Option<int>)
      requires Valid()
      ensures soonest.None? <==> forall name :: name in objects ==> objects[name].None?
      ensures soonest.Some? ==>
        && (exists name :: name in objects && objects[name] == soonest)
        && (forall name :: name in objects && objects[name].Some? ==> soonest.value <= objects[name].value)
    {
      soonest := None;
      for k := 0 to |order|
        invariant soonest.None? <==> forall i :: 0 <= i < k ==> objects[order[i]].None?
        invariant soonest.Some? ==>
          && (exists i :: 0 <= i < k && objects[order[i]] == soonest)
          && (forall i :: 0 <= i < k && objects[order[i]].Some? ==> soonest.value <= objects[order[i]].value)
      {
        var at := objects[order[k]];
        if at.Some? && (soonest.None? || at.value < soonest.value) {
          soonest := at;
        }
      }
    }

    /** An alarm is cleared as it is delivered. */
    method FireOne(name: Name)
      requires Valid()
      modifies this`step, this`objects, this`order, this`rpcCalls, voice, voice.legs.Values
      ensures Valid() && Abs() == Fired(script, old(Abs()), name)
      ensures fresh(voice.legs.Values - old(voice.legs.Values))
    {
      hide Listed, WithAlarm, Executed;
      SetAlarm(name, None);
      Execute();
    }

    /** Every object is visited once, those made meanwhile too, and an alarm that is
        due when its object is reached is cleared and then fired. */
    method FireDueAlarms(now: int) returns (ok: bool, fired: nat)
      requires Valid()
      modifies this`step, this`objects, this`order, this`rpcCalls, voice, voice.legs.Values
      ensures Valid() && (FireOutcome(Abs(), fired), ok) == FiredDue(script, old(Abs()), now)
      ensures fresh(voice.legs.Values - old(voice.legs.Values))
    {
      hide Listed, Fired, Idled, FiredFrom;
      fired := 0;
      ghost var before := Abs();
      var k := 0;
      while k < |order|
        invariant 0 <= k && Valid()
        invariant FiredFrom(script, Abs(), k, now, fired) == FiredFrom(script, before, 0, now, 0)
        invariant fresh(voice.legs.Values - old(voice.legs.Values))
        decreases Left(script, step), |order| - k
      {
        FireTurn(script, Abs(), k, now, fired);
        var alarm := objects[order[k]];
        if Due(alarm, now) {
          FiredIs(script, Abs(), k);
          FireOne(order[k]);
          fired := fired + 1;
        }
        k := k + 1;
      }
      FireEnds(script, Abs(), k, now, fired);
      ok := Idle();
    }

    /** Empties the outbox, whatever the deliveries add to it meanwhile: an event is
        taken, its delivery run and every object brought to rest before the next one
        is looked at. More than `limit` deliveries are given up on. */
    method Drain(limit: nat) returns (result: Result, ghost events: seq<S.Event>)
      requires Valid()
      modifies this`step, this`objects, this`order, this`rpcCalls, voice, voice.legs.Values
      ensures Valid() && Drained(Abs(), result, events) == DrainedAll(script, old(Abs()), limit)
      ensures fresh(voice.legs.Values - old(voice.legs.Values))
    {
      hide Listed, Idled, DrainedFrom, Taken, Executed, After;
      events := [];
      var delivered := 0;
      ghost var total;
      var ok := Idle();
      if !ok { return StillBusy, events; }
      ghost var start := Abs();
      total := DrainedFrom(script, start, 0, limit);
      NothingDelivered(total);
      while true
        invariant Valid() && delivered <= limit
        invariant total == After(events, DrainedFrom(script, Abs(), delivered, limit))
        invariant fresh(voice.legs.Values - old(voice.legs.Values))
        decreases limit - delivered, if voice.outbox == [] then 1 else 0
      {
        ghost var g := Abs();
        DrainTurn(script, g, delivered, limit, events);
        var event := Take();
        if event.None? {
          ok := Idle();
          if !ok { return StillBusy, events; }
          if voice.outbox == [] { return Settled(delivered), events; }
          continue;
        }
        ok := DeliverAndIdle();
        delivered := delivered + 1;
        events := events + [event.value];
        if !ok { return StillBusy, events; }
        if delivered > limit { return DidNotSettle(event.value), events; }
      }
    }

    /** The router is handed an event, and every session goes idle. */
    method DeliverAndIdle() returns (ok: bool)
      requires Valid()
      modifies this`step, this`objects, this`order, this`rpcCalls, voice, voice.legs.Values
      ensures Valid()
      ensures IdleOutcome(Abs(), ok) == Idled(script, Executed(script, old(Abs())), MAX_IDLE_PASSES)
      ensures fresh(voice.legs.Values - old(voice.legs.Values))
    {
      hide Listed, Idled, Executed;
      Execute();
      ok := Idle();
    }

    method Take() returns (event: Option<S.Event>)
      requires Valid()
      modifies voice`outbox
      ensures Valid()
      ensures old(voice.outbox) == [] ==> event == None && Abs() == old(Abs())
      ensures old(voice.outbox) != [] ==> event == Some(old(voice.outbox[0])) && Abs() == Taken(old(Abs()))
    {
      hide Listed;
      event := voice.TakeEvent();
    }
  }
}
