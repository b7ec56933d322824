/**
 What the membership cache is for: a verdict that a lookup ends with is stored, stays, and answers callers
 for 30 seconds without another round of requests to the Cores.
 */
module MembershipCache {
  import opened Clock
  import CoreLookups
  import opened Membership
  import opened Options
  import Sets

  // ---------------------------------------------------------------- storing a verdict

  /** An entry of 30 seconds or more. */
  ghost predicate Stale(a: CoreLookups.Answer, now: nat) { a.Error? || now - a.checked.mono >= 30_000_000_000 }

  ghost predicate AllFresh(cache: map<string, CoreLookups.Answer>, now: nat) { forall a :: a in cache ==> !Stale(cache[a], now) }

  /** The other entries: exactly those that `keeps` allows stay, as they were. */
  ghost predicate OthersKept(cache: map<string, CoreLookups.Answer>, address: string, cache': map<string, CoreLookups.Answer>, keeps: set<string>)
  {
    forall a :: a != address ==> (a in cache' <==> a in cache && a in keeps) && (a in cache' ==> cache'[a] == cache[a])
  }

  /** What becomes of a cache of at most 4096 entries when a lookup ends. An error changes nothing. A verdict is
      stored under its address; below 4096 entries every other one stays; at 4096 exactly the stale ones go,
      and if there are none, one entry, the victim. */
  ghost predicate Stored(cache: map<string, CoreLookups.Answer>, address: string, answer: CoreLookups.Answer, now: nat, victim: string, cache': map<string, CoreLookups.Answer>)
  {
    && (answer.Error? ==> cache' == cache)
    && (answer.Verdict? ==> address in cache' && cache'[address] == answer)
    && (answer.Verdict? && |cache| < 4096 ==> OthersKept(cache, address, cache', cache.Keys))
    && (answer.Verdict? && |cache| == 4096 && !AllFresh(cache, now) ==>
          OthersKept(cache, address, cache', set a | a in cache && !Stale(cache[a], now)))
    && (answer.Verdict? && |cache| == 4096 && AllFresh(cache, now) ==>
          victim in cache && OthersKept(cache, address, cache', cache.Keys - {victim}))
  }

  /** Some entry has to go and it is one of the cache. */
  ghost predicate VictimFound(cache: map<string, CoreLookups.Answer>, now: nat, victim: string)
  {
    |cache| == 4096 && AllFresh(cache, now) ==> victim in cache
  }

  lemma FreshKept(cache: map<string, CoreLookups.Answer>, now: nat)
    ensures AllFresh(cache, now) ==> FreshEntries(cache, now) == cache
    ensures !AllFresh(cache, now) ==> |FreshEntries(cache, now)| < |cache|
    ensures FreshEntries(cache, now).Keys == set a | a in cache && !Stale(cache[a], now)
    ensures forall a :: a in FreshEntries(cache, now) ==> FreshEntries(cache, now)[a] == cache[a]
  {
    var kept := FreshEntries(cache, now);
    if !AllFresh(cache, now) {
      var a :| a in cache && Stale(cache[a], now);
      assert kept.Keys <= cache.Keys - {a};
      Sets.SubsetSize(kept.Keys, cache.Keys - {a});
      assert |kept| == |kept.Keys| && |cache| == |cache.Keys|;
    }
  }

  lemma RememberStores(cache: map<string, CoreLookups.Answer>, address: string, answer: CoreLookups.Answer, now: nat, victim: string)
    requires |cache| <= 4096
    ensures VictimOk(cache, now, victim) <==> VictimFound(cache, now, victim)
    ensures VictimFound(cache, now, victim) ==> Stored(cache, address, answer, now, victim, Remember(cache, address, answer, now, victim))
  {
    FreshKept(cache, now);
    hide AllFresh, Stale, FreshEntries;
  }

  /** In every reachable state, when a lookup ends: its answer is returned, and stored if it is a verdict. */
  lemma {:induction false} FinishStores(config: CoreLookups.Config, actions: seq<Action>, id: nat, victim: string)
    requires
      var s := Run(config, actions).0;
      id in s.callers && s.callers[id].Finishing? && VictimFound(s.cache, s.core.clock, victim)
    ensures
      var s := Run(config, actions).0;
      var (s', more) := Step(config, s, Finish(id, victim));
      var c := s.callers[id];
      && Stored(s.cache, c.address, c.answer, s.core.clock, victim, s'.cache)
      && more == [Returned(c.address, c.answer, false, s.core.clock)] && s'.core == s.core && s'.pending == s.pending - {c.address}
  {
    FlightRun(config, actions);
    hide Run, Stored, VictimFound, VictimOk, Remember;
    var s := Run(config, actions).0;
    RememberStores(s.cache, s.callers[id].address, s.callers[id].answer, s.core.clock, victim);
  }

  // ----------------------------------------------------------------------- the clock

  function TickOf(a: CoreLookups.Action): nat { if a.Tick? then a.ns else 0 }

  lemma CoreClock(config: CoreLookups.Config, s: CoreLookups.State, a: CoreLookups.Action)
    ensures CoreLookups.Step(config, s, a).0.clock == s.clock + TickOf(a)
  {
    hide CoreLookups.Moved, CoreLookups.Unresolved;
  }

  /** Time passes in no other way. */
  lemma AccessClock(config: CoreLookups.Config, s: State, a: Action)
    ensures Step(config, s, a).0.core.clock == s.core.clock + if a.Ask? then TickOf(a.a) else 0
  {
    hide CoreLookups.Step;
    if a.Ask? { CoreClock(config, s.core, a.a); }
  }

  // ------------------------------------------------------------------ what is kept

  /** The step deletes the entry to make room: the cache is full and nothing in it is stale. */
  ghost predicate Evicts(s: State, a: Action, address: string)
  {
    a.Finish? && a.victim == address && |s.cache| == 4096 && AllFresh(s.cache, s.core.clock)
  }

  /** The verdict is there and nobody has the Cores asked about the address. */
  ghost predicate Kept(s: State, address: string, answer: CoreLookups.Answer)
  {
    address in s.cache && s.cache[address] == answer && address !in s.pending
  }

  lemma KeptFinish(s: State, id: nat, victim: string, address: string, answer: CoreLookups.Answer)
    requires FlightInv(s) && Kept(s, address, answer) && !Stale(answer, s.core.clock) && !Evicts(s, Finish(id, victim), address)
    ensures Kept(DoFinish(s, id, victim).0, address, answer)
  {
    if id in s.callers && s.callers[id].Finishing? && VictimOk(s.cache, s.core.clock, victim) {
      var c := s.callers[id];
      assert Placed(s, id);
      RememberStores(s.cache, c.address, c.answer, s.core.clock, victim);
    }
  }

  lemma KeptLook(config: CoreLookups.Config, s: State, id: nat, address: string, answer: CoreLookups.Answer)
    requires Kept(s, address, answer) && !Stale(answer, s.core.clock)
    ensures Kept(DoLook(config, s, id).0, address, answer)
  {
    hide CoreLookups.DoOpen;
  }

  lemma KeptStep(config: CoreLookups.Config, s: State, a: Action, address: string, answer: CoreLookups.Answer)
    requires FlightInv(s) && Kept(s, address, answer) && !Stale(answer, s.core.clock) && !Evicts(s, a, address)
    ensures Kept(Step(config, s, a).0, address, answer)
  {
    hide FlightInv, DoLook, DoFinish, CoreLookups.Step, CoreLookups.DoOpen, Stale;
    if a.Finish? {
      KeptFinish(s, a.id, a.victim, address, answer);
    } else if a.Look? {
      KeptLook(config, s, a.id, address, answer);
    }
  }

  /** No step of the run since evicts the entry. */
  ghost predicate NeverEvicted(config: CoreLookups.Config, before: seq<Action>, after: seq<Action>, address: string)
  {
    forall k :: 0 <= k < |after| ==> !Evicts(Run(config, before + after[..k]).0, after[k], address)
  }

  lemma {:induction false} KeptRun(config: CoreLookups.Config, before: seq<Action>, after: seq<Action>, address: string, answer: CoreLookups.Answer)
    requires Kept(Run(config, before).0, address, answer) && NeverEvicted(config, before, after, address)
    requires !Stale(answer, Run(config, before + after).0.core.clock)
    ensures Kept(Run(config, before + after).0, address, answer)
  {
    hide Kept, Step, FlightInv, Evicts;
    if after == [] {
      assert before + after == before;
    } else {
      var rest, a := after[..|after| - 1], after[|after| - 1];
      assert (before + after)[..|before + after| - 1] == before + rest && (before + after)[|before + after| - 1] == a;
      var s := Run(config, before + rest).0;
      AccessClock(config, s, a);
      assert forall k :: 0 <= k < |rest| ==> rest[k] == after[k] && rest[..k] == after[..k];
      KeptRun(config, before, rest, address, answer);
      FlightRun(config, before + rest);
      assert !Evicts(s, a, address);
      KeptStep(config, s, a, address, answer);
    }
  }

  // ------------------------------------------------------------------- main result

  /** Over every run: once a lookup has ended with a verdict, a caller who looks less than 30 seconds after the
      time of that verdict, with the entry not evicted since, is answered with it at once; no round is opened
      and nobody waits. */
  lemma {:induction false} AnsweredFromCache(config: CoreLookups.Config, before: seq<Action>, id: nat, victim: string, after: seq<Action>, caller: nat)
    requires
      var s := Run(config, before).0;
      && id in s.callers && s.callers[id].Finishing? && s.callers[id].answer.Verdict? && VictimFound(s.cache, s.core.clock, victim)
      && NeverEvicted(config, before + [Finish(id, victim)], after, s.callers[id].address)
      && var s' := Run(config, before + [Finish(id, victim)] + after).0;
         && s'.core.clock - s.callers[id].answer.checked.mono < 30_000_000_000
         && caller in s'.callers && s'.callers[caller] == Arriving(s.callers[id].address)
    ensures
      var (address, answer) := (Run(config, before).0.callers[id].address, Run(config, before).0.callers[id].answer);
      var s' := Run(config, before + [Finish(id, victim)] + after).0;
      Step(config, s', Look(caller)) == (s'.(callers := s'.callers[caller := Done(address, answer)]), [Returned(address, answer, true, s'.core.clock)])
  {
    var s := Run(config, before).0;
    var (address, answer) := (s.callers[id].address, s.callers[id].answer);
    FinishStores(config, before, id, victim);
    assert (before + [Finish(id, victim)])[..|before|] == before;
    assert Run(config, before + [Finish(id, victim)]).0 == Step(config, s, Finish(id, victim)).0;
    hide Run;
    KeptRun(config, before + [Finish(id, victim)], after, address, answer);
    LookHits(config, Run(config, before + [Finish(id, victim)] + after).0, caller, address, answer);
  }

  lemma LookHits(config: CoreLookups.Config, s: State, caller: nat, address: string, answer: CoreLookups.Answer)
    requires Kept(s, address, answer) && !Stale(answer, s.core.clock) && caller in s.callers && s.callers[caller] == Arriving(address)
    ensures Step(config, s, Look(caller)) == (s.(callers := s.callers[caller := Done(address, answer)]), [Returned(address, answer, true, s.core.clock)])
  {
  }
}
