/**
 A member is told so: a caller who asks about an address nobody else asks about, and whom a Core answers that
 the address is in an allowed group, is given that answer, and it is cached.
 */
module MembershipCompleteness {
  import opened Clock
  import opened Options
  import CoreAnswers
  import CoreLookups
  import opened Membership
  import opened MembershipCache

  // -------------------------------------------------------------------- a run goes on

  /** The state after further steps. */
  ghost function Then(config: CoreLookups.Config, s: State, actions: seq<Action>): State
  {
    if actions == [] then s else Step(config, Then(config, s, actions[..|actions| - 1]), actions[|actions| - 1]).0
  }

  lemma {:induction false} ThenIsRun(config: CoreLookups.Config, before: seq<Action>, actions: seq<Action>)
    ensures Then(config, Run(config, before).0, actions) == Run(config, before + actions).0
  {
    hide Step;
    if actions == [] {
      assert before + actions == before;
    } else {
      var rest, a := actions[..|actions| - 1], actions[|actions| - 1];
      ThenIsRun(config, before, rest);
      assert (before + actions)[..|before + actions| - 1] == before + rest;
    }
  }

  lemma {:induction false} ThenStep(config: CoreLookups.Config, s: State, actions: seq<Action>, a: Action)
    ensures Then(config, s, actions + [a]) == Step(config, Then(config, s, actions), a).0
  {
    hide Step;
    assert (actions + [a])[..|actions + [a]| - 1] == actions;
  }

  // --------------------------------------------------------------- the Cores are asked

  /** One lookup of a round, from its beginning until its answer is received. */
  function Lookup(k: CoreLookups.Key, wall: nat, reply: CoreLookups.Outcome): seq<CoreLookups.Action>
  {
    [CoreLookups.Begin(k)] + [CoreLookups.Pick(k)] + [CoreLookups.Take(k, wall)] + [CoreLookups.End(k, reply)] +
    [CoreLookups.GiveBack(k)] + [CoreLookups.Judge(k)] + [CoreLookups.Send(k)] + [CoreLookups.Receive(k.round)]
  }

  ghost function CoreThen(config: CoreLookups.Config, s: CoreLookups.State, actions: seq<CoreLookups.Action>): CoreLookups.State
  {
    if actions == [] then s else CoreLookups.Step(config, CoreThen(config, s, actions[..|actions| - 1]), actions[|actions| - 1]).0
  }

  lemma {:induction false} CoreThenStep(config: CoreLookups.Config, s: CoreLookups.State, actions: seq<CoreLookups.Action>, a: CoreLookups.Action)
    ensures CoreThen(config, s, actions + [a]) == CoreLookups.Step(config, CoreThen(config, s, actions), a).0
  {
    hide CoreLookups.Step;
    assert (actions + [a])[..|actions + [a]| - 1] == actions;
  }

  /** The lookup at a stage of its first try, in a round that has received nothing. */
  ghost predicate Asked(s: CoreLookups.State, s0: CoreLookups.State, k: CoreLookups.Key, address: string, stage: CoreLookups.Stage, slots: nat)
  {
    && s.clock == s0.clock && s.slots == slots && k in s.lookups && k.round in s.rounds
    && s.lookups[k].address == address && s.lookups[k].stage == stage && s.lookups[k].tries == []
    && s.rounds[k.round].running == 1 && s.rounds[k.round].arrived == [] && s.rounds[k.round].read == 0 && s.rounds[k.round].result.None?
  }

  /** A round just opened, of which nothing has begun. */
  ghost predicate JustOpened(config: CoreLookups.Config, s: CoreLookups.State, k: CoreLookups.Key, address: string)
  {
    && k.round in s.rounds && s.rounds[k.round] == CoreLookups.Round(address, CoreLookups.Indices(|config.groups|), 0, [], 0, None)
    && k.index < |config.groups| && k !in s.lookups
  }

  lemma {:induction false} IndexIn(n: nat, i: nat)
    requires i < n
    ensures i in CoreLookups.Indices(n)
  {
    if i < n - 1 { IndexIn(n - 1, i); }
  }

  lemma BeginStep(config: CoreLookups.Config, s: CoreLookups.State, k: CoreLookups.Key, address: string)
    requires JustOpened(config, s, k, address)
    ensures Asked(CoreLookups.Step(config, s, CoreLookups.Begin(k)).0, s, k, address, CoreLookups.Choosing, s.slots)
  {
    IndexIn(|config.groups|, k.index);
    hide CoreLookups.Indices;
  }

  lemma PickStep(config: CoreLookups.Config, s: CoreLookups.State, s0: CoreLookups.State, k: CoreLookups.Key, address: string)
    requires Asked(s, s0, k, address, CoreLookups.Choosing, s0.slots) && config.bases != []
    ensures
      var s' := CoreLookups.Step(config, s, CoreLookups.Pick(k)).0;
      Asked(s', s0, k, address, CoreLookups.Queued, s0.slots) && |s'.lookups[k].bases| > 0
  {
    hide CoreLookups.Healthy;
  }

  lemma AskSteps(config: CoreLookups.Config, s: CoreLookups.State, s0: CoreLookups.State, k: CoreLookups.Key, address: string, wall: nat, reply: CoreLookups.Outcome)
    requires k in s.lookups && |s.lookups[k].bases| > 0
    ensures
      var started := Reading(wall, s0.clock);
      && (Asked(s, s0, k, address, CoreLookups.Queued, s0.slots) && s0.slots < 16 ==>
            var s' := CoreLookups.Step(config, s, CoreLookups.Take(k, wall)).0;
            Asked(s', s0, k, address, CoreLookups.Asking(started), s0.slots + 1) && s'.lookups[k].bases == s.lookups[k].bases)
      && (Asked(s, s0, k, address, CoreLookups.Asking(started), s0.slots + 1) ==>
            var s' := CoreLookups.Step(config, s, CoreLookups.End(k, reply)).0;
            Asked(s', s0, k, address, CoreLookups.Ended(started, reply), s0.slots + 1) && s'.lookups[k].bases == s.lookups[k].bases)
      && (Asked(s, s0, k, address, CoreLookups.Ended(started, reply), s0.slots + 1) ==>
            var s' := CoreLookups.Step(config, s, CoreLookups.GiveBack(k)).0;
            Asked(s', s0, k, address, CoreLookups.Judging(started, reply), s0.slots) && s'.lookups[k].bases == s.lookups[k].bases)
  {
    hide CoreLookups.Candidates, CoreLookups.WellFormed;
  }

  /** A deciding reply ends the lookup, and its answer ends the round. */
  lemma EndSteps(config: CoreLookups.Config, s: CoreLookups.State, s0: CoreLookups.State, k: CoreLookups.Key, address: string, started: Reading, reply: CoreLookups.Outcome)
    requires Asked(s, s0, k, address, CoreLookups.Judging(started, reply), s0.slots) && |s.lookups[k].bases| > 0
    requires CoreLookups.Decisive(reply, address, true)
    ensures
      var s1 := CoreLookups.Step(config, s, CoreLookups.Judge(k)).0;
      var s2 := CoreLookups.Step(config, s1, CoreLookups.Send(k)).0;
      var s3 := CoreLookups.Step(config, s2, CoreLookups.Receive(k.round)).0;
      && s3.clock == s0.clock && s3.slots == s0.slots
      && k.round in s3.rounds && s3.rounds[k.round].result == Some(CoreLookups.Verdict(true, started))
  {
    CoreLookups.FormedIffDecisive(reply, address);
  }

  /** A lookup of the round, answered with a deciding yes, settles the round. */
  lemma {:induction false} RoundIsSettled(config: CoreLookups.Config, s: CoreLookups.State, k: CoreLookups.Key, address: string, wall: nat, reply: CoreLookups.Outcome)
    requires JustOpened(config, s, k, address) && s.slots < 16 && config.bases != [] && CoreLookups.Decisive(reply, address, true)
    ensures
      var s' := CoreThen(config, s, Lookup(k, wall, reply));
      && s'.clock == s.clock && s'.slots == s.slots
      && k.round in s'.rounds && s'.rounds[k.round].result == Some(CoreLookups.Verdict(true, Reading(wall, s.clock)))
  {
    hide CoreLookups.Step, CoreThen, Asked, JustOpened, CoreLookups.Decisive;
    var a1 := [CoreLookups.Begin(k)];
    var a2 := a1 + [CoreLookups.Pick(k)];
    var a3 := a2 + [CoreLookups.Take(k, wall)];
    var a4 := a3 + [CoreLookups.End(k, reply)];
    var a5 := a4 + [CoreLookups.GiveBack(k)];
    var a6 := a5 + [CoreLookups.Judge(k)];
    var a7 := a6 + [CoreLookups.Send(k)];
    NothingThen(config, s);
    CoreThenStep(config, s, [], CoreLookups.Begin(k));
    assert [] + a1 == a1;
    BeginStep(config, s, k, address);
    CoreThenStep(config, s, a1, CoreLookups.Pick(k));
    PickStep(config, CoreThen(config, s, a1), s, k, address);
    CoreThenStep(config, s, a2, CoreLookups.Take(k, wall));
    assert k in CoreThen(config, s, a2).lookups by { AskedHas(CoreThen(config, s, a2), s, k, address, CoreLookups.Queued, s.slots); }
    AskSteps(config, CoreThen(config, s, a2), s, k, address, wall, reply);
    CoreThenStep(config, s, a3, CoreLookups.End(k, reply));
    assert k in CoreThen(config, s, a3).lookups by { AskedHas(CoreThen(config, s, a3), s, k, address, CoreLookups.Asking(Reading(wall, s.clock)), s.slots + 1); }
    AskSteps(config, CoreThen(config, s, a3), s, k, address, wall, reply);
    CoreThenStep(config, s, a4, CoreLookups.GiveBack(k));
    assert k in CoreThen(config, s, a4).lookups by { AskedHas(CoreThen(config, s, a4), s, k, address, CoreLookups.Ended(Reading(wall, s.clock), reply), s.slots + 1); }
    AskSteps(config, CoreThen(config, s, a4), s, k, address, wall, reply);
    CoreThenStep(config, s, a5, CoreLookups.Judge(k));
    EndSteps(config, CoreThen(config, s, a5), s, k, address, Reading(wall, s.clock), reply);
    CoreThenStep(config, s, a6, CoreLookups.Send(k));
    CoreThenStep(config, s, a7, CoreLookups.Receive(k.round));
  }

  lemma {:induction false} NothingThen(config: CoreLookups.Config, s: CoreLookups.State)
    ensures CoreThen(config, s, []) == s
  {
  }

  lemma AskedHas(s: CoreLookups.State, s0: CoreLookups.State, k: CoreLookups.Key, address: string, stage: CoreLookups.Stage, slots: nat)
    requires Asked(s, s0, k, address, stage, slots)
    ensures k in s.lookups
  {
  }

  // ------------------------------------------------------------------- main result

  function Asks(actions: seq<CoreLookups.Action>): seq<Action>
  {
    if actions == [] then [] else Asks(actions[..|actions| - 1]) + [Ask(actions[|actions| - 1])]
  }

  /** The Cores are asked from the machine above, and nothing else changes. */
  lemma {:induction false} AsksRunCore(config: CoreLookups.Config, s: State, actions: seq<CoreLookups.Action>)
    requires forall i :: 0 <= i < |actions| ==> !actions[i].Open?
    ensures Then(config, s, Asks(actions)) == s.(core := CoreThen(config, s.core, actions))
  {
    hide CoreLookups.Step;
    if actions != [] {
      var rest, a := actions[..|actions| - 1], actions[|actions| - 1];
      AsksRunCore(config, s, rest);
      ThenStep(config, s, Asks(rest), Ask(a));
    }
  }

  /** A caller asks, leads the lookup, has a Core asked, and takes the answer. */
  function Asking(id: nat, address: string, k: CoreLookups.Key, wall: nat, reply: CoreLookups.Outcome, victim: string): seq<Action>
  {
    [Call(id, address)] + [Look(id)] + Asks(Lookup(k, wall, reply)) + [Answered(id)] + [Finish(id, victim)]
  }

  lemma CallLooks(config: CoreLookups.Config, s: State, id: nat, address: string)
    requires id !in s.callers && address !in s.pending && |s.pending| < 128 && s.made !in s.core.rounds
    requires address in s.cache ==> Stale(s.cache[address], s.core.clock)
    ensures
      var s2 := Step(config, Step(config, s, Call(id, address)).0, Look(id)).0;
      && s2.core == CoreLookups.DoOpen(config, s.core, s.made, address) && s2.cache == s.cache
      && id in s2.callers && s2.callers[id] == Leading(address, s.made)
  {
    hide CoreLookups.DoOpen;
  }

  lemma AnswerFinishes(config: CoreLookups.Config, s: State, id: nat, address: string, answer: CoreLookups.Answer, victim: string)
    requires id in s.callers && s.callers[id].Leading? && s.callers[id].address == address
    requires s.callers[id].channel in s.core.rounds && s.core.rounds[s.callers[id].channel].result == Some(answer) && answer.Verdict?
    requires |s.cache| <= 4096 && VictimFound(s.cache, s.core.clock, victim)
    ensures
      var s2 := Step(config, Step(config, s, Answered(id)).0, Finish(id, victim)).0;
      && id in s2.callers && s2.callers[id] == Done(address, answer) && address in s2.cache && s2.cache[address] == answer
  {
    hide VictimFound, VictimOk, Remember;
    RememberStores(s.cache, address, answer, s.core.clock, victim);
  }

  /** The caller leads the lookup and a Core answers. */
  lemma {:induction false} CoreAnswersLeader(config: CoreLookups.Config, s: State, id: nat, address: string, index: nat, wall: nat, reply: CoreLookups.Outcome)
    requires id !in s.callers && address !in s.pending && |s.pending| < 128 && s.core.slots < 16 && s.made !in s.core.rounds
    requires (address in s.cache ==> Stale(s.cache[address], s.core.clock)) && CoreLookups.Key(s.made, index) !in s.core.lookups
    requires index < |config.groups| && config.bases != [] && CoreLookups.Decisive(reply, address, true)
    ensures
      var s' := Then(config, s, [Call(id, address)] + [Look(id)] + Asks(Lookup(CoreLookups.Key(s.made, index), wall, reply)));
      && id in s'.callers && s'.callers[id] == Leading(address, s.made) && s'.cache == s.cache && s'.core.clock == s.core.clock
      && s.made in s'.core.rounds && s'.core.rounds[s.made].result == Some(CoreLookups.Verdict(true, Reading(wall, s.core.clock)))
  {
    hide Then, Step, CoreThen, Asks, CoreLookups.Decisive;
    var k := CoreLookups.Key(s.made, index);
    var x := [Call(id, address)] + [Look(id)];
    NoStep(config, s);
    ThenStep(config, s, [], Call(id, address));
    assert [] + [Call(id, address)] == [Call(id, address)];
    ThenStep(config, s, [Call(id, address)], Look(id));
    CallLooks(config, s, id, address);
    var s2 := Then(config, s, x);
    ThenMore(config, s, x, Asks(Lookup(k, wall, reply)));
    AsksRunCore(config, s2, Lookup(k, wall, reply));
    assert JustOpened(config, s2.core, k, address) && s2.core.slots == s.core.slots && s2.core.clock == s.core.clock;
    hide JustOpened;
    RoundIsSettled(config, s2.core, k, address, wall, reply);
  }

  /** After any run, a caller about an address that is not pending, nor cached for less than 30 seconds, with
      fewer than 128 pending and a slot free, and with one configured Core that replies that the address is in an
      allowed group: ends with that answer, as of the time the request was started, and it is cached. */
  lemma {:induction false} MemberIsTold(config: CoreLookups.Config, before: seq<Action>, id: nat, address: string, index: nat, wall: nat, size: nat, victim: string)
    requires
      var s := Run(config, before).0;
      && id !in s.callers && address !in s.pending && |s.pending| < 128 && s.core.slots < 16
      && (address in s.cache ==> Stale(s.cache[address], s.core.clock))
      && index < |config.groups| && config.bases != [] && size <= 8192 && VictimFound(s.cache, s.core.clock, victim)
    ensures
      var s := Run(config, before).0;
      var reply := CoreLookups.Reply(200, true, size, Some([CoreLookups.Row(address, Some(true))]));
      var s' := Run(config, before + Asking(id, address, CoreLookups.Key(s.made, index), wall, reply, victim)).0;
      var answer := CoreLookups.Verdict(true, Reading(wall, s.core.clock));
      && id in s'.callers && s'.callers[id] == Done(address, answer) && address in s'.cache && s'.cache[address] == answer
  {
    var s := Run(config, before).0;
    var k := CoreLookups.Key(s.made, index);
    var reply := CoreLookups.Reply(200, true, size, Some([CoreLookups.Row(address, Some(true))]));
    FreshRound(config, before);
    hide Run, Then, Step, Asks, VictimFound, Stale;
    var x := [Call(id, address)] + [Look(id)] + Asks(Lookup(k, wall, reply));
    CoreAnswersLeader(config, s, id, address, index, wall, reply);
    ThenIsRun(config, before, x + [Answered(id)] + [Finish(id, victim)]);
    assert Asking(id, address, k, wall, reply, victim) == x + [Answered(id)] + [Finish(id, victim)];
    AnswerFinishes(config, Then(config, s, x), id, address, CoreLookups.Verdict(true, Reading(wall, s.core.clock)), victim);
    ThenStep(config, s, x, Answered(id));
    ThenStep(config, s, x + [Answered(id)], Finish(id, victim));
  }

  /** A caller past the cache opens a round of its own, and is told that round's result when it has one. */
  lemma {:induction false} DirectIsTold(config: CoreLookups.Config, before: seq<Action>, id: nat, address: string)
    ensures
      var s := Run(config, before).0;
      && (id !in s.callers ==>
            var s' := Step(config, s, CallDirect(id, address)).0;
            id in s'.callers && s'.callers[id] == Direct(address, s.made) && s.made !in s.core.rounds && s.made in s'.core.rounds)
      && (id in s.callers && s.callers[id].Direct? && s.callers[id].channel in s.core.rounds && s.core.rounds[s.callers[id].channel].result.Some? ==>
            var (c, result) := (s.callers[id], s.core.rounds[s.callers[id].channel].result.value);
            Step(config, s, Answered(id)) ==
            (s.(callers := s.callers[id := Done(c.address, result)]), [LookedUp(c.address, result), Returned(c.address, result, false, s.core.clock)]))
  {
    FreshRound(config, before);
    hide Run;
  }

  /** A caller that waits may give up; one that has its answer goes, and may come again. */
  lemma CallersComeAndGo(config: CoreLookups.Config, s: State, id: nat, address: string)
    ensures id in s.callers && s.callers[id].Waiting? ==>
      Step(config, s, Cancel(id)) ==
      (s.(callers := s.callers[id := Done(s.callers[id].address, CoreLookups.Error)]), [Returned(s.callers[id].address, CoreLookups.Error, false, s.core.clock)])
    ensures id in s.callers && s.callers[id].Done? ==> Step(config, s, Depart(id)) == (s.(callers := s.callers - {id}), [])
    ensures id !in s.callers ==> Step(config, s, Call(id, address)) == (s.(callers := s.callers[id := Arriving(address)]), [])
    ensures id !in s.callers ==> Step(config, s, CallDirect(id, address)).0.callers == s.callers[id := Direct(address, s.made)]
  {
    hide CoreLookups.DoOpen;
  }

  /** The next round to be opened is new, and the cache within its bound. */
  lemma {:induction false} FreshRound(config: CoreLookups.Config, before: seq<Action>)
    ensures
      var s := Run(config, before).0;
      s.made !in s.core.rounds && (forall i :: CoreLookups.Key(s.made, i) !in s.core.lookups) && |s.cache| <= 4096
  {
    FlightRun(config, before);
    SoundRun(config, before);
    LookupsPlaced(config, before);
    hide Run;
  }

  lemma {:induction false} LookupsPlaced(config: CoreLookups.Config, before: seq<Action>)
    ensures
      var s := Run(config, before).0;
      forall k :: k in s.core.lookups ==> k.round in s.core.rounds
  {
    SoundRun(config, before);
    var s := Run(config, before).0;
    hide Run;
    assert forall k :: k in s.core.lookups ==> CoreAnswers.Placed(config, s.core, k);
  }

  lemma {:induction false} NoStep(config: CoreLookups.Config, s: State)
    ensures Then(config, s, []) == s
  {
  }

  lemma {:induction false} ThenMore(config: CoreLookups.Config, s: State, first: seq<Action>, second: seq<Action>)
    ensures Then(config, Then(config, s, first), second) == Then(config, s, first + second)
  {
    hide Step;
    if second == [] {
      assert first + second == first;
    } else {
      var rest, a := second[..|second| - 1], second[|second| - 1];
      ThenMore(config, s, first, rest);
      assert (first + second)[..|first + second| - 1] == first + rest;
    }
  }
}
