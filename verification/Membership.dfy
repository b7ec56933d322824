/**
 The membership cache: one lookup at a time for an address, others wait for it. Callers, the map of
 pending lookups and the cache as a state machine whose steps are the critical sections, over the
 machine that asks the Cores.
 */
module Membership {
  import opened Clock
  import opened CoreLookups
  import opened Options
  import CoreAnswers
  import Sets

  const FRESH := 30 * SECOND
  const CACHE_CAP := 4096
  const PENDING_CAP := 128

  /** Lookups are known by the channel that is closed when they end. */
  type Channel = nat

  /** A caller of membership; or, `Direct`, one that has the Cores asked past the cache. The number of a
      leader's channel is also that of the round it has the Cores asked in. */
  datatype Caller =
    | Arriving(address: string)
    | Waiting(address: string, channel: Channel)
    | Leading(address: string, channel: Channel)
    | Finishing(address: string, channel: Channel, answer: Answer)
    | Direct(address: string, channel: Channel)
    | Done(address: string, answer: Answer)

  datatype State = State(
    core: CoreLookups.State,
    cache: map<string, Answer>,
    pending: map<string, Channel>,
    closed: set<Channel>,
    made: nat,
    callers: map<nat, Caller>)

  datatype Event =
    | Core(event: CoreLookups.Event)
    | LookedUp(address: string, answer: Answer)
    | Returned(address: string, answer: Answer, fromCache: bool, at: nat)

  const START := State.State(CoreLookups.INITIAL, map[], map[], {}, 0, map[])

  // ------------------------------------------------------------ critical sections

  /** What a caller does with the lock held: take a fresh entry, wait, give up, or lead. */
  datatype Decision = Hit(answer: Answer) | Wait(channel: Channel) | Full | Lead

  predicate IsFresh(a: Answer, now: nat) { a.Verdict? && now - a.checked.mono < FRESH }

  function Decide(cache: map<string, Answer>, pending: map<string, Channel>, address: string, now: nat): Decision
  {
    if address in cache && IsFresh(cache[address], now) then Hit(cache[address])
    else if address in pending then Wait(pending[address])
    else if |pending| >= PENDING_CAP then Full
    else Lead
  }

  function FreshEntries(cache: map<string, Answer>, now: nat): map<string, Answer>
  {
    map a | a in cache && IsFresh(cache[a], now) :: cache[a]
  }

  /** Room is made in a full cache: stale entries go, and if that is not enough `victim`, any entry. */
  function MakeRoom(cache: map<string, Answer>, now: nat, victim: string): map<string, Answer>
  {
    if |cache| < CACHE_CAP then cache
    else
      var c := FreshEntries(cache, now);
      if |c| < CACHE_CAP then c else c - {victim}
  }

  /** Storing a verdict; errors are not stored. */
  function Remember(cache: map<string, Answer>, address: string, answer: Answer, now: nat, victim: string): map<string, Answer>
  {
    if answer.Error? then cache else MakeRoom(cache, now, victim)[address := answer]
  }

  // ------------------------------------------------------------------------ steps

  datatype Action =
    | Ask(a: CoreLookups.Action)
    | Call(id: nat, address: string)
    | CallDirect(id: nat, address: string)
    | Look(id: nat)
    | Wake(id: nat)
    | Cancel(id: nat)
    | Answered(id: nat)
    | Finish(id: nat, victim: string)
    | Depart(id: nat)

  function Go(s: State, id: nat, c: Caller): State { s.(callers := s.callers[id := c]) }

  /** The machine that asks the Cores goes on; rounds are only begun from here. */
  function DoAsk(config: Config, s: State, a: CoreLookups.Action): (State, seq<Event>)
  {
    if a.Open? then (s, [])
    else
      var (core, events) := CoreLookups.Step(config, s.core, a);
      (s.(core := core), seq(|events|, i requires 0 <= i < |events| => Core(events[i])))
  }

  function Opened(config: Config, s: State, address: string): State
  {
    s.(core := DoOpen(config, s.core, s.made, address), made := s.made + 1)
  }

  function DoLook(config: Config, s: State, id: nat): (State, seq<Event>)
  {
    if id in s.callers && s.callers[id].Arriving? then
      var (address, now) := (s.callers[id].address, s.core.clock);
      match Decide(s.cache, s.pending, address, now)
      case Hit(answer) => (Go(s, id, Done(address, answer)), [Returned(address, answer, true, now)])
      case Wait(channel) => (Go(s, id, Waiting(address, channel)), [])
      case Full => (Go(s, id, Done(address, Error)), [Returned(address, Error, false, now)])
      case Lead => (Go(Opened(config, s, address).(pending := s.pending[address := s.made]), id, Leading(address, s.made)), [])
    else (s, [])
  }

  /** A round that the caller has the Cores asked in has its result. */
  predicate HasResult(s: State, id: nat)
  {
    && id in s.callers && (s.callers[id].Leading? || s.callers[id].Direct?)
    && s.callers[id].channel in s.core.rounds && s.core.rounds[s.callers[id].channel].result.Some?
  }

  function DoAnswered(s: State, id: nat): (State, seq<Event>)
  {
    if HasResult(s, id) then
      var c := s.callers[id];
      var answer := s.core.rounds[c.channel].result.value;
      if c.Leading? then (Go(s, id, Finishing(c.address, c.channel, answer)), [LookedUp(c.address, answer)])
      else (Go(s, id, Done(c.address, answer)), [LookedUp(c.address, answer), Returned(c.address, answer, false, s.core.clock)])
    else (s, [])
  }

  /** The victim is an entry of the cache being trimmed, if one has to go. */
  predicate VictimOk(cache: map<string, Answer>, now: nat, victim: string)
  {
    |cache| >= CACHE_CAP && |FreshEntries(cache, now)| >= CACHE_CAP ==> victim in FreshEntries(cache, now)
  }

  function DoFinish(s: State, id: nat, victim: string): (State, seq<Event>)
  {
    if id in s.callers && s.callers[id].Finishing? && VictimOk(s.cache, s.core.clock, victim) then
      var c := s.callers[id];
      (Go(s.(cache := Remember(s.cache, c.address, c.answer, s.core.clock, victim),
             pending := s.pending - {c.address}, closed := s.closed + {c.channel}), id, Done(c.address, c.answer)),
       [Returned(c.address, c.answer, false, s.core.clock)])
    else (s, [])
  }

  function Step(config: Config, s: State, a: Action): (State, seq<Event>)
  {
    match a
    case Ask(a) => DoAsk(config, s, a)
    case Call(id, address) => (if id in s.callers then s else Go(s, id, Arriving(address)), [])
    case CallDirect(id, address) =>
      (if id in s.callers then s else Go(Opened(config, s, address), id, Direct(address, s.made)), [])
    case Look(id) => DoLook(config, s, id)
    case Wake(id) =>
      (if id in s.callers && s.callers[id].Waiting? && s.callers[id].channel in s.closed
       then Go(s, id, Arriving(s.callers[id].address)) else s, [])
    case Cancel(id) =>
      if id in s.callers && s.callers[id].Waiting?
      then (Go(s, id, Done(s.callers[id].address, Error)), [Returned(s.callers[id].address, Error, false, s.core.clock)]) else (s, [])
    case Answered(id) => DoAnswered(s, id)
    case Finish(id, victim) => DoFinish(s, id, victim)
    case Depart(id) => (if id in s.callers && s.callers[id].Done? then s.(callers := s.callers - {id}) else s, [])
  }

  function Run(config: Config, actions: seq<Action>): (State, seq<Event>)
  {
    if actions == [] then (START, [])
    else
      var (s, log) := Run(config, actions[..|actions| - 1]);
      var (s', more) := Step(config, s, actions[|actions| - 1]);
      (s', log + more)
  }

  // ------------------------------------------------------------- single flight

  predicate Leads(c: Caller) { c.Leading? || c.Finishing? }

  /** Caller `id` leads the pending lookup of its address. */
  ghost predicate Placed(s: State, id: nat)
    requires id in s.callers
  {
    var c := s.callers[id];
    && (Leads(c) ==> c.address in s.pending && s.pending[c.address] == c.channel)
    && (c.Waiting? ==> c.channel in s.closed || (c.address in s.pending && s.pending[c.address] == c.channel))
  }

  ghost predicate LeadsFor(s: State, id: nat, address: string)
  {
    id in s.callers && Leads(s.callers[id]) && s.callers[id].address == address
  }

  ghost predicate HasLeader(s: State, address: string) { exists id :: LeadsFor(s, id, address) }

  ghost predicate CallersInv(s: State) { forall id :: id in s.callers ==> Placed(s, id) }

  ghost predicate OneLeader(s: State) { forall i, j, a :: LeadsFor(s, i, a) && LeadsFor(s, j, a) ==> i == j }

  /** Channels on offer are open and distinct, and someone leads each. */
  ghost predicate PendingInv(s: State)
  {
    && (forall a :: a in s.pending ==> s.pending[a] < s.made && s.pending[a] !in s.closed)
    && (forall a, b :: a in s.pending && b in s.pending && a != b ==> s.pending[a] != s.pending[b])
    && (forall c :: c in s.closed ==> c < s.made)
    && (forall a :: a in s.pending ==> HasLeader(s, a))
  }

  ghost predicate FlightInv(s: State)
  {
    CallersInv(s) && OneLeader(s) && PendingInv(s) && |s.pending| <= PENDING_CAP && |s.cache| <= CACHE_CAP
  }

  /** Only caller `id` may have moved. */
  ghost predicate OthersStay(s: State, s': State, id: nat)
  {
    && (forall i :: i in s.callers && i != id ==> i in s'.callers && s'.callers[i] == s.callers[i])
    && (forall i :: i in s'.callers && i != id ==> i in s.callers)
  }

  lemma LeaderStays(s: State, s': State, id: nat, address: string)
    requires HasLeader(s, address) && OthersStay(s, s', id)
    requires LeadsFor(s, id, address) ==> LeadsFor(s', id, address)
    ensures HasLeader(s', address)
  {
    var i :| LeadsFor(s, i, address);
    assert LeadsFor(s', i, address);
  }

  lemma OneLeaderStays(s: State, s': State, id: nat)
    requires OneLeader(s) && OthersStay(s, s', id)
    requires forall a :: LeadsFor(s', id, a) ==> LeadsFor(s, id, a) || !HasLeader(s, a)
    ensures OneLeader(s')
  {
    forall i, j, a | LeadsFor(s', i, a) && LeadsFor(s', j, a)
      ensures i == j
    {
      assert i != id ==> LeadsFor(s, i, a);
      assert j != id ==> LeadsFor(s, j, a);
    }
  }

  /** A step that leaves the pending map alone: enough that the caller keeps its place and its lead. */
  lemma MoveKeeps(s: State, s': State, id: nat)
    requires FlightInv(s) && OthersStay(s, s', id)
    requires s'.pending == s.pending && s'.closed == s.closed && s'.made >= s.made && s'.cache == s.cache
    requires id in s'.callers ==> Placed(s', id)
    requires forall a :: LeadsFor(s', id, a) <==> LeadsFor(s, id, a)
    ensures FlightInv(s')
  {
    OneLeaderStays(s, s', id);
    forall a | a in s'.pending
      ensures HasLeader(s', a)
    {
      LeaderStays(s, s', id, a);
    }
    forall i | i in s'.callers
      ensures Placed(s', i)
    {
      if i != id { assert Placed(s, i); }
    }
  }

  lemma FlightLead(config: Config, s: State, s': State, id: nat, address: string)
    requires FlightInv(s) && id in s.callers && s.callers[id].Arriving? && address !in s.pending && |s.pending| < PENDING_CAP
    requires s' == Go(Opened(config, s, address).(pending := s.pending[address := s.made]), id, Leading(address, s.made))
    ensures FlightInv(s')
  {
    assert !HasLeader(s, address);
    OneLeaderStays(s, s', id);
    forall a | a in s'.pending
      ensures HasLeader(s', a)
    {
      if a == address { assert LeadsFor(s', id, a); } else { LeaderStays(s, s', id, a); }
    }
    forall i | i in s'.callers
      ensures Placed(s', i)
    {
      if i != id { assert Placed(s, i); }
    }
  }

  lemma FlightLook(config: Config, s: State, id: nat)
    requires FlightInv(s)
    ensures FlightInv(DoLook(config, s, id).0)
  {
    hide FlightInv, DoOpen;
    var s' := DoLook(config, s, id).0;
    if id in s.callers && s.callers[id].Arriving? {
      if Decide(s.cache, s.pending, s.callers[id].address, s.core.clock).Lead? {
        FlightLead(config, s, s', id, s.callers[id].address);
      } else {
        MoveKeeps(s, s', id);
      }
    }
  }

  lemma FewerPending(pending: map<string, Channel>, address: string)
    ensures |pending - {address}| <= |pending|
  {
    Sets.SubsetSize((pending - {address}).Keys, pending.Keys);
  }

  lemma CacheBounded(cache: map<string, Answer>, address: string, answer: Answer, now: nat, victim: string)
    requires |cache| <= CACHE_CAP && VictimOk(cache, now, victim)
    ensures |Remember(cache, address, answer, now, victim)| <= 4096
  {
    var room := MakeRoom(cache, now, victim);
    assert |room| < CACHE_CAP by {
      var c := FreshEntries(cache, now);
      Sets.SubsetSize(c.Keys, cache.Keys);
      if |cache| >= CACHE_CAP && |c| >= CACHE_CAP {
        assert (c - {victim}).Keys == c.Keys - {victim};
      }
    }
  }

  /** The lookup led by `id` is over: its address is no longer pending and its channel closed. */
  ghost predicate Ended(s: State, s': State, id: nat)
  {
    && id in s.callers && s.callers[id].Finishing?
    && s'.callers == s.callers[id := Done(s.callers[id].address, s.callers[id].answer)] && s'.pending == s.pending - {s.callers[id].address}
    && s'.closed == s.closed + {s.callers[id].channel} && s'.made == s.made
  }

  lemma EndedCallers(s: State, s': State, id: nat)
    requires CallersInv(s) && OneLeader(s) && Ended(s, s', id)
    ensures CallersInv(s')
  {
    assert Placed(s, id) && LeadsFor(s, id, s.callers[id].address);
    forall i | i in s'.callers
      ensures Placed(s', i)
    {
      assert Placed(s, i);
      assert Leads(s.callers[i]) ==> LeadsFor(s, i, s.callers[i].address);
    }
  }

  lemma EndedPending(s: State, s': State, id: nat)
    requires CallersInv(s) && OneLeader(s) && PendingInv(s) && Ended(s, s', id)
    ensures OneLeader(s') && PendingInv(s')
  {
    assert Placed(s, id);
    OneLeaderStays(s, s', id);
    forall a | a in s'.pending
      ensures HasLeader(s', a)
    {
      LeaderStays(s, s', id, a);
    }
  }

  lemma FlightFinish(s: State, id: nat, victim: string)
    requires FlightInv(s)
    ensures FlightInv(DoFinish(s, id, victim).0)
  {
    hide Remember, VictimOk, CallersInv, OneLeader, PendingInv;
    var s' := DoFinish(s, id, victim).0;
    if id in s.callers && s.callers[id].Finishing? && VictimOk(s.cache, s.core.clock, victim) {
      var c := s.callers[id];
      CacheBounded(s.cache, c.address, c.answer, s.core.clock, victim);
      FewerPending(s.pending, c.address);
      EndedCallers(s, s', id);
      EndedPending(s, s', id);
    }
  }

  /** Caller `id` neither gains nor loses a lead. */
  lemma SameLead(s: State, s': State, id: nat)
    requires id in s.callers && Leads(s.callers[id]) ==>
               id in s'.callers && Leads(s'.callers[id]) && s'.callers[id].address == s.callers[id].address
    requires id in s'.callers && Leads(s'.callers[id]) ==> id in s.callers && Leads(s.callers[id])
    ensures forall a :: LeadsFor(s', id, a) <==> LeadsFor(s, id, a)
  {
  }

  lemma FlightAsk(config: Config, s: State, a: CoreLookups.Action)
    requires FlightInv(s)
    ensures FlightInv(DoAsk(config, s, a).0)
  {
    hide CoreLookups.Step;
    assert 0 in s.callers ==> Placed(s, 0);
    hide FlightInv;
    MoveKeeps(s, DoAsk(config, s, a).0, 0);
  }

  lemma FlightAnswered(s: State, id: nat)
    requires FlightInv(s)
    ensures FlightInv(DoAnswered(s, id).0)
  {
    if HasResult(s, id) {
      assert Placed(s, id);
      hide FlightInv, LeadsFor;
      var s' := DoAnswered(s, id).0;
      SameLead(s, s', id);
      MoveKeeps(s, s', id);
    }
  }

  lemma FlightMove(config: Config, s: State, a: Action)
    requires FlightInv(s) && !a.Look? && !a.Finish? && !a.Ask? && !a.Answered?
    ensures FlightInv(Step(config, s, a).0)
  {
    hide FlightInv, Step, LeadsFor, OthersStay, Placed;
    var s' := Step(config, s, a).0;
    PlacedOf(s, a.id);
    CallersMoved(config, s, a);
    CallerMoved(config, s, a);
    SameLead(s, s', a.id);
    MoveKeeps(s, s', a.id);
  }

  /** The caller that moves gains no lead and loses none; cache and channels stay. */
  lemma CallerMoved(config: Config, s: State, a: Action)
    requires !a.Look? && !a.Finish? && !a.Ask? && !a.Answered? && (a.id in s.callers ==> Placed(s, a.id))
    ensures
      var s' := Step(config, s, a).0;
      && s'.pending == s.pending && s'.closed == s.closed && s'.made >= s.made && s'.cache == s.cache
      && (a.id in s'.callers ==> Placed(s', a.id))
      && (a.id in s.callers && Leads(s.callers[a.id]) ==> a.id in s'.callers && s'.callers[a.id] == s.callers[a.id])
      && (a.id in s'.callers && Leads(s'.callers[a.id]) ==> a.id in s.callers && Leads(s.callers[a.id]))
  {
    hide DoLook, DoFinish, DoAsk, DoAnswered, DoOpen;
  }

  lemma PlacedOf(s: State, id: nat)
    requires FlightInv(s)
    ensures id in s.callers ==> Placed(s, id)
  {
  }

  lemma CallersMoved(config: Config, s: State, a: Action)
    requires !a.Look? && !a.Finish? && !a.Ask? && !a.Answered?
    ensures OthersStay(s, Step(config, s, a).0, a.id)
  {
    hide DoLook, DoFinish, DoAsk, DoAnswered, DoOpen;
  }

  lemma {:induction false} FlightRun(config: Config, actions: seq<Action>)
    ensures FlightInv(Run(config, actions).0)
  {
    if actions != [] {
      var before, a := actions[..|actions| - 1], actions[|actions| - 1];
      FlightRun(config, before);
      var s := Run(config, before).0;
      hide FlightInv;
      if a.Look? {
        FlightLook(config, s, a.id);
      } else if a.Finish? {
        FlightFinish(s, a.id, a.victim);
      } else if a.Ask? {
        FlightAsk(config, s, a.a);
      } else if a.Answered? {
        FlightAnswered(s, a.id);
      } else {
        FlightMove(config, s, a);
      }
    }
  }

  // ------------------------------------------------ answers come from lookups

  /** What is cached or about to be returned has been looked up; what was returned had been. */
  ghost predicate LookedUpInv(s: State, log: seq<Event>)
  {
    && (forall a :: a in s.cache ==> s.cache[a].Verdict? && LookedUp(a, s.cache[a]) in log)
    && (forall id :: id in s.callers && s.callers[id].Finishing? ==> LookedUp(s.callers[id].address, s.callers[id].answer) in log)
    && (forall i :: 0 <= i < |log| ==> ReturnOk(log[..i], log[i]))
  }

  ghost predicate ReturnOk(log: seq<Event>, e: Event)
  {
    e.Returned? && e.answer.Verdict? ==>
      LookedUp(e.address, e.answer) in log && (e.fromCache ==> e.at - e.answer.checked.mono < FRESH)
  }

  /** The log grows; what the new events say must have been looked up before. */
  lemma LogGrows(s: State, log: seq<Event>, s': State, more: seq<Event>)
    requires LookedUpInv(s, log)
    requires forall a :: a in s'.cache ==> s'.cache[a].Verdict? && LookedUp(a, s'.cache[a]) in log + more
    requires forall id :: id in s'.callers && s'.callers[id].Finishing? ==>
               LookedUp(s'.callers[id].address, s'.callers[id].answer) in log + more
    requires forall i :: 0 <= i < |more| ==> ReturnOk(log + more[..i], more[i])
    ensures LookedUpInv(s', log + more)
  {
    hide ReturnOk;
    forall i | 0 <= i < |log + more|
      ensures ReturnOk((log + more)[..i], (log + more)[i])
    {
      assert (log + more)[..i] == if i < |log| then log[..i] else log + more[..i - |log|];
    }
  }

  lemma LookedUpLook(config: Config, s: State, log: seq<Event>, id: nat)
    requires LookedUpInv(s, log)
    ensures
      var (s', more) := DoLook(config, s, id);
      LookedUpInv(s', log + more)
  {
    hide DoOpen;
    var (s', more) := DoLook(config, s, id);
    if more != [] { assert log + more[..0] == log; }
    LogGrows(s, log, s', more);
  }

  lemma LookedUpFinish(s: State, log: seq<Event>, id: nat, victim: string)
    requires LookedUpInv(s, log)
    ensures
      var (s', more) := DoFinish(s, id, victim);
      LookedUpInv(s', log + more)
  {
    hide VictimOk, MakeRoom;
    var (s', more) := DoFinish(s, id, victim);
    MakeRoomKeeps(s.cache, s.core.clock, victim);
    if more != [] { assert log + more[..0] == log; }
    LogGrows(s, log, s', more);
  }

  lemma LookedUpAnswered(s: State, log: seq<Event>, id: nat)
    requires LookedUpInv(s, log)
    ensures
      var (s', more) := DoAnswered(s, id);
      LookedUpInv(s', log + more)
  {
    var (s', more) := DoAnswered(s, id);
    if more != [] {
      assert more[0] in log + more;
      if |more| == 2 { assert more[0] in log + more[..1]; }
    }
    LogGrows(s, log, s', more);
  }

  lemma LookedUpStep(config: Config, s: State, log: seq<Event>, a: Action)
    requires LookedUpInv(s, log)
    ensures
      var (s', more) := Step(config, s, a);
      LookedUpInv(s', log + more)
  {
    hide DoLook, DoFinish, DoAnswered, CoreLookups.Step, DoOpen;
    if a.Look? {
      LookedUpLook(config, s, log, a.id);
    } else if a.Finish? {
      LookedUpFinish(s, log, a.id, a.victim);
    } else if a.Answered? {
      LookedUpAnswered(s, log, a.id);
    } else {
      var (s', more) := Step(config, s, a);
      LogGrows(s, log, s', more);
    }
  }

  lemma MakeRoomKeeps(cache: map<string, Answer>, now: nat, victim: string)
    ensures forall a :: a in MakeRoom(cache, now, victim) ==> a in cache && MakeRoom(cache, now, victim)[a] == cache[a]
  {
  }

  lemma {:induction false} LookedUpRun(config: Config, actions: seq<Action>)
    ensures
      var (s, log) := Run(config, actions);
      LookedUpInv(s, log)
  {
    if actions != [] {
      hide LookedUpInv, Step;
      LookedUpRun(config, actions[..|actions| - 1]);
      var (s, log) := Run(config, actions[..|actions| - 1]);
      LookedUpStep(config, s, log, actions[|actions| - 1]);
    }
  }

  // ------------------------------------------------- lookups come from the Cores

  /** What a caller holds: a round about its own address, or an answer that means what it says. */
  ghost predicate CallerOk(config: Config, heard: set<CoreLookups.Event>, s: State, c: Caller)
  {
    match c
    case Leading(address, channel) => channel in s.core.rounds && s.core.rounds[channel].address == address
    case Direct(address, channel) => channel in s.core.rounds && s.core.rounds[channel].address == address
    case Finishing(address, _, answer) => CoreAnswers.Sound(config, heard, address, answer)
    case Done(address, answer) => CoreAnswers.Sound(config, heard, address, answer)
    case _ => true
  }

  /** `heard` is what has been heard from the Cores. */
  ghost predicate SoundInv(config: Config, heard: set<CoreLookups.Event>, s: State)
  {
    && CoreAnswers.AnswersInv(config, heard, s.core)
    && (forall r :: r in s.core.rounds ==> r < s.made)
    && (forall a :: a in s.cache ==> CoreAnswers.Sound(config, heard, a, s.cache[a]))
    && (forall id :: id in s.callers ==> CallerOk(config, heard, s, s.callers[id]))
  }

  ghost function HeardIn(log: seq<Event>): set<CoreLookups.Event> { set i | 0 <= i < |log| && log[i].Core? :: log[i].event }

  lemma HeardMore(log: seq<Event>, more: seq<Event>)
    ensures HeardIn(log + more) == HeardIn(log) + HeardIn(more)
  {
    forall e
      ensures e in HeardIn(log + more) <==> e in HeardIn(log) + HeardIn(more)
    {
      if e in HeardIn(log) {
        var i :| 0 <= i < |log| && log[i].Core? && log[i].event == e;
        assert (log + more)[i] == log[i];
      }
      if e in HeardIn(more) {
        var i :| 0 <= i < |more| && more[i].Core? && more[i].event == e;
        assert (log + more)[|log| + i] == more[i];
      }
    }
  }

  lemma HeardNothing(more: seq<Event>)
    requires forall i :: 0 <= i < |more| ==> !more[i].Core?
    ensures HeardIn(more) == {}
  {
  }

  /** Asking goes on: rounds stay, about the same addresses. */
  lemma RoundsStay(config: Config, s: CoreLookups.State, a: CoreLookups.Action)
    requires !a.Open?
    ensures
      var s' := CoreLookups.Step(config, s, a).0;
      s'.rounds.Keys == s.rounds.Keys && forall r :: r in s.rounds ==> s'.rounds[r].address == s.rounds[r].address
  {
    hide Moved, Unresolved;
  }

  lemma SoundAsk(config: Config, heard: set<CoreLookups.Event>, s: State, a: CoreLookups.Action)
    requires SoundInv(config, heard, s)
    ensures
      var (s', more) := DoAsk(config, s, a);
      SoundInv(config, heard + HeardIn(more), s')
  {
    hide CoreLookups.Step, CoreAnswers.AnswersInv, CoreAnswers.Sound;
    var (s', more) := DoAsk(config, s, a);
    if a.Open? {
      HeardNothing(more);
      assert heard + {} == heard;
    } else {
      var events := CoreLookups.Step(config, s.core, a).1;
      HeardAll(events, more);
      CoreAnswers.AnswersStep(config, heard, s.core, a);
      RoundsStay(config, s.core, a);
      forall x | x in s.cache
        ensures CoreAnswers.Sound(config, heard + HeardIn(more), x, s.cache[x])
      {
        CoreAnswers.SoundGrows(config, heard, HeardIn(more), x, s.cache[x]);
      }
      forall id | id in s.callers
        ensures CallerOk(config, heard + HeardIn(more), s', s.callers[id])
      {
        var c := s.callers[id];
        assert CallerOk(config, heard, s, c);
        if c.Finishing? || c.Done? { CoreAnswers.SoundGrows(config, heard, HeardIn(more), c.address, c.answer); }
      }
    }
  }

  lemma HeardAll(events: seq<CoreLookups.Event>, more: seq<Event>)
    requires |more| == |events| && forall i :: 0 <= i < |events| ==> more[i] == Core(events[i])
    ensures HeardIn(more) == CoreAnswers.EventsOf(events)
  {
    forall e
      ensures e in HeardIn(more) <==> e in CoreAnswers.EventsOf(events)
    {
      if e in events {
        var i :| 0 <= i < |events| && events[i] == e;
        assert more[i].Core? && more[i].event == e;
      }
    }
  }

  lemma SoundOpen(config: Config, heard: set<CoreLookups.Event>, s: State, address: string)
    requires SoundInv(config, heard, s)
    ensures SoundInv(config, heard, Opened(config, s, address))
    ensures
      var core := Opened(config, s, address).core;
      s.made in core.rounds && core.rounds[s.made].address == address
  {
    hide CoreAnswers.AnswersInv, CoreAnswers.Sound;
    CoreAnswers.AnswersOpen(config, heard, s.core, s.made, address);
    forall id | id in s.callers
      ensures CallerOk(config, heard, Opened(config, s, address), s.callers[id])
    {
      assert CallerOk(config, heard, s, s.callers[id]);
    }
  }

  /** One caller moves; the rounds stay. */
  lemma SoundMove(config: Config, heard: set<CoreLookups.Event>, s: State, s': State, id: nat)
    requires SoundInv(config, heard, s) && s'.core == s.core && s'.made == s.made
    requires forall a :: a in s'.cache ==> CoreAnswers.Sound(config, heard, a, s'.cache[a])
    requires forall i :: i in s'.callers && i != id ==> i in s.callers && s'.callers[i] == s.callers[i]
    requires id in s'.callers ==> CallerOk(config, heard, s', s'.callers[id])
    ensures SoundInv(config, heard, s')
  {
    hide CoreAnswers.AnswersInv, CoreAnswers.Sound;
    forall i | i in s'.callers
      ensures CallerOk(config, heard, s', s'.callers[i])
    {
      if i != id { assert CallerOk(config, heard, s, s.callers[i]); }
    }
  }

  /** No answer says nothing. */
  lemma ErrorIsSound(config: Config, heard: set<CoreLookups.Event>, address: string)
    ensures CoreAnswers.Sound(config, heard, address, Error)
  {
  }

  lemma SoundLook(config: Config, heard: set<CoreLookups.Event>, s: State, id: nat)
    requires SoundInv(config, heard, s)
    ensures SoundInv(config, heard, DoLook(config, s, id).0)
  {
    hide CoreAnswers.AnswersInv, CoreAnswers.Sound, DoOpen;
    var s' := DoLook(config, s, id).0;
    if id in s.callers && s.callers[id].Arriving? {
      var address := s.callers[id].address;
      ErrorIsSound(config, heard, address);
      if s'.made == s.made {
        SoundMove(config, heard, s, s', id);
      } else {
        SoundOpen(config, heard, s, address);
        SoundMove(config, heard, Opened(config, s, address), s', id);
      }
    }
  }

  lemma SoundAnswered(config: Config, heard: set<CoreLookups.Event>, s: State, id: nat)
    requires SoundInv(config, heard, s)
    ensures SoundInv(config, heard, DoAnswered(s, id).0)
  {
    hide CoreAnswers.Sound;
    if HasResult(s, id) {
      var c := s.callers[id];
      assert CallerOk(config, heard, s, c);
      assert CoreAnswers.RoundOk(config, heard, s.core.rounds[c.channel]);
      hide CoreAnswers.AnswersInv;
      SoundMove(config, heard, s, DoAnswered(s, id).0, id);
    }
  }

  lemma SoundFinish(config: Config, heard: set<CoreLookups.Event>, s: State, id: nat, victim: string)
    requires SoundInv(config, heard, s)
    ensures SoundInv(config, heard, DoFinish(s, id, victim).0)
  {
    hide CoreAnswers.AnswersInv, CoreAnswers.Sound, MakeRoom, VictimOk;
    if id in s.callers && s.callers[id].Finishing? {
      MakeRoomKeeps(s.cache, s.core.clock, victim);
      assert CallerOk(config, heard, s, s.callers[id]);
      SoundMove(config, heard, s, DoFinish(s, id, victim).0, id);
    }
  }

  lemma SoundOther(config: Config, heard: set<CoreLookups.Event>, s: State, a: Action)
    requires SoundInv(config, heard, s) && (a.Call? || a.CallDirect? || a.Wake? || a.Cancel? || a.Depart?)
    ensures SoundInv(config, heard, Step(config, s, a).0)
  {
    hide CoreAnswers.AnswersInv, CoreAnswers.Sound, DoAsk, DoLook, DoAnswered, DoFinish, DoOpen;
    var s' := Step(config, s, a).0;
    if a.CallDirect? && a.id !in s.callers {
      SoundOpen(config, heard, s, a.address);
      SoundMove(config, heard, Opened(config, s, a.address), s', a.id);
    } else {
      if a.Cancel? && a.id in s.callers { ErrorIsSound(config, heard, s.callers[a.id].address); }
      if a.id in s.callers { assert CallerOk(config, heard, s, s.callers[a.id]); }
      SoundMove(config, heard, s, s', a.id);
    }
  }

  lemma SoundStep(config: Config, heard: set<CoreLookups.Event>, s: State, a: Action)
    requires SoundInv(config, heard, s)
    ensures
      var (s', more) := Step(config, s, a);
      SoundInv(config, heard + HeardIn(more), s')
  {
    if a.Ask? {
      hide SoundInv;
      SoundAsk(config, heard, s, a.a);
    } else {
      hide SoundInv, DoAsk, DoOpen;
      HeardNothing(Step(config, s, a).1);
      assert heard + {} == heard;
      if a.Look? {
        SoundLook(config, heard, s, a.id);
      } else if a.Answered? {
        SoundAnswered(config, heard, s, a.id);
      } else if a.Finish? {
        SoundFinish(config, heard, s, a.id, a.victim);
      } else {
        SoundOther(config, heard, s, a);
      }
    }
  }

  /** What is returned means what it says, by what has been heard so far. */
  lemma ReturnsAreSound(config: Config, heard: set<CoreLookups.Event>, s: State, a: Action, i: nat)
    requires SoundInv(config, heard, s) && i < |Step(config, s, a).1| && Step(config, s, a).1[i].Returned?
    ensures CoreAnswers.Sound(config, heard, Step(config, s, a).1[i].address, Step(config, s, a).1[i].answer)
  {
    SoundAnswered(config, heard, s, if a.Ask? then 0 else a.id);
    hide CoreAnswers.AnswersInv, CoreAnswers.Sound, CoreLookups.Step, DoOpen;
    var e := Step(config, s, a).1[i];
    ErrorIsSound(config, heard, e.address);
    if !a.Ask? && a.id in s.callers {
      assert CallerOk(config, heard, s, s.callers[a.id]);
      if a.Answered? && HasResult(s, a.id) {
        var s' := DoAnswered(s, a.id).0;
        assert CallerOk(config, heard, s', s'.callers[a.id]);
      }
    }
  }

  lemma NothingHeard(config: Config)
    ensures SoundInv(config, HeardIn([]), START)
  {
  }

  lemma NewReturn(config: Config, log: seq<Event>, s: State, a: Action, i: nat)
    requires SoundInv(config, HeardIn(log), s) && i < |Step(config, s, a).1| && Step(config, s, a).1[i].Returned?
    ensures
      var more := Step(config, s, a).1;
      CoreAnswers.Sound(config, HeardIn(log + more[..i]), more[i].address, more[i].answer)
  {
    hide SoundInv, Step, CoreAnswers.Sound;
    var more := Step(config, s, a).1;
    ReturnsAreSound(config, HeardIn(log), s, a, i);
    HeardMore(log, more[..i]);
    CoreAnswers.SoundGrows(config, HeardIn(log), HeardIn(more[..i]), more[i].address, more[i].answer);
  }

  /** Whatever a step returns is sound by what had been heard. */
  lemma ReturnsStaySound(config: Config, log: seq<Event>, s: State, a: Action)
    requires SoundInv(config, HeardIn(log), s)
    requires forall i :: 0 <= i < |log| && log[i].Returned? ==> CoreAnswers.Sound(config, HeardIn(log[..i]), log[i].address, log[i].answer)
    ensures
      var log' := log + Step(config, s, a).1;
      forall i :: 0 <= i < |log'| && log'[i].Returned? ==> CoreAnswers.Sound(config, HeardIn(log'[..i]), log'[i].address, log'[i].answer)
  {
    hide SoundInv, Step, CoreAnswers.Sound, HeardIn;
    var more := Step(config, s, a).1;
    forall i | 0 <= i < |log + more| && (log + more)[i].Returned?
      ensures CoreAnswers.Sound(config, HeardIn((log + more)[..i]), (log + more)[i].address, (log + more)[i].answer)
    {
      if i < |log| {
        assert (log + more)[..i] == log[..i];
      } else {
        NewReturn(config, log, s, a, i - |log|);
        assert (log + more)[..i] == log + more[..i - |log|];
      }
    }
  }

  lemma {:induction false} SoundRun(config: Config, actions: seq<Action>)
    ensures
      var (s, log) := Run(config, actions);
      SoundInv(config, HeardIn(log), s) &&
      forall i :: 0 <= i < |log| && log[i].Returned? ==> CoreAnswers.Sound(config, HeardIn(log[..i]), log[i].address, log[i].answer)
  {
    if actions == [] {
      NothingHeard(config);
    } else {
      hide SoundInv, Step, CoreAnswers.Sound, HeardIn;
      SoundRun(config, actions[..|actions| - 1]);
      var (s, log) := Run(config, actions[..|actions| - 1]);
      var a := actions[|actions| - 1];
      SoundStep(config, HeardIn(log), s, a);
      HeardMore(log, Step(config, s, a).1);
      ReturnsStaySound(config, log, s, a);
    }
  }

  /** Steps other than calls and departures leave the callers who they were, about their addresses. */
  lemma CallersStay(config: Config, s: State, a: Action)
    requires !a.Call? && !a.CallDirect? && !a.Depart?
    ensures
      var s' := Step(config, s, a).0;
      s'.callers.Keys == s.callers.Keys && forall id :: id in s.callers ==> s'.callers[id].address == s.callers[id].address
  {
    hide CoreLookups.Step, DoOpen, VictimOk, Remember;
  }

  // ------------------------------------------------------------- main results

  /** In every reachable state: an address is pending exactly while one caller leads its lookup, over a
      channel that is still open; at most 128 lookups are pending and 4096 verdicts cached. */
  lemma {:induction false} OneLookupPerAddress(config: Config, actions: seq<Action>, address: string)
    ensures
      var s := Run(config, actions).0;
      && (address in s.pending <==> HasLeader(s, address))
      && (address in s.pending ==> s.pending[address] !in s.closed)
      && (forall i, j :: LeadsFor(s, i, address) && LeadsFor(s, j, address) ==> i == j)
      && |s.pending| <= 128 && |s.cache| <= 4096
  {
    FlightRun(config, actions);
    var s := Run(config, actions).0;
    if HasLeader(s, address) {
      var id :| LeadsFor(s, id, address);
      assert Placed(s, id);
    }
  }

  /** What an arriving caller gets: the cached verdict if and only if one was checked less than 30 seconds
      before; otherwise it waits if the address is pending, is refused if 128 others are, and leads a
      lookup of its own if not. */
  lemma ArrivalDecides(config: Config, s: State, id: nat)
    requires id in s.callers && s.callers[id].Arriving?
    ensures
      var (address, now) := (s.callers[id].address, s.core.clock);
      var (s', more) := Step(config, s, Look(id));
      var hit := address in s.cache && s.cache[address].Verdict? && now < s.cache[address].checked.mono + 30_000_000_000;
      && (hit <==> more == [Returned(address, if hit then s.cache[address] else Error, true, now)])
      && (!hit && address in s.pending <==> s'.callers[id].Waiting?)
      && (!hit && address !in s.pending && |s.pending| >= 128 <==> more == [Returned(address, Error, false, now)])
      && (!hit && address !in s.pending && |s.pending| < 128 <==> Leads(s'.callers[id]))
      && (s'.callers[id].Done? <==> more != []) && (more != [] ==> s'.callers[id] == Done(address, more[0].answer))
  {
  }

  /** No wakeup is lost: a caller that waits either waits on a channel already closed, so that it can go
      on at once, or on the one its address' leader holds and closes when it finishes. */
  lemma {:induction false} NoLostWakeup(config: Config, actions: seq<Action>, id: nat)
    requires id in Run(config, actions).0.callers && Run(config, actions).0.callers[id].Waiting?
    ensures
      var s := Run(config, actions).0;
      var c := s.callers[id];
      || c.channel in s.closed
      || exists leader :: LeadsFor(s, leader, c.address) && s.callers[leader].channel == c.channel
  {
    FlightRun(config, actions);
    var s := Run(config, actions).0;
    assert Placed(s, id);
    if s.callers[id].channel !in s.closed {
      var leader :| LeadsFor(s, leader, s.callers[id].address);
      assert Placed(s, leader);
    }
  }

  /** When a lookup ends, every caller waiting for that address can go on at once. */
  lemma {:induction false} FinishFreesWaiters(config: Config, actions: seq<Action>, id: nat, victim: string, waiter: nat)
    requires
      var s := Run(config, actions).0;
      && id in s.callers && s.callers[id].Finishing? && VictimOk(s.cache, s.core.clock, victim)
      && waiter in s.callers && s.callers[waiter].Waiting? && s.callers[waiter].address == s.callers[id].address
    ensures
      var s := Run(config, actions).0;
      var s' := Step(config, s, Finish(id, victim)).0;
      waiter in s'.callers && Step(config, s', Wake(waiter)).0.callers[waiter] == Arriving(s.callers[id].address)
  {
    FlightRun(config, actions);
    var s := Run(config, actions).0;
    hide Run, Remember, VictimOk;
    assert Placed(s, id) && Placed(s, waiter);
  }

  /** Every verdict returned is one that a lookup gave earlier for the same address, and one served from
      the cache was checked less than 30 seconds before. Only verdicts are cached, never errors. */
  lemma {:induction false} VerdictsAreLookedUp(config: Config, actions: seq<Action>, i: nat, address: string)
    ensures
      var (s, log) := Run(config, actions);
      && (i < |log| && log[i].Returned? && log[i].answer.Verdict? ==>
            && LookedUp(log[i].address, log[i].answer) in log[..i]
            && (log[i].fromCache ==> log[i].at - log[i].answer.checked.mono < 30_000_000_000))
      && (address in s.cache ==> s.cache[address].Verdict? && LookedUp(address, s.cache[address]) in log)
  {
    LookedUpRun(config, actions);
    var (s, log) := Run(config, actions);
    if i < |log| { assert ReturnOk(log[..i], log[i]); }
  }

  /** Over every run, through the cache or past it: a caller is told that an address is a member only if a
      configured Core has said so, in a well-formed reply about that address and an allowed group, to a
      request started at the very time the answer gives; and that it is not one only if a Core has said so
      for every allowed group. */
  lemma {:induction false} AnswersAreSound(config: Config, actions: seq<Action>, i: nat)
    requires i < |Run(config, actions).1| && Run(config, actions).1[i].Returned?
    ensures
      var log := Run(config, actions).1;
      CoreAnswers.Sound(config, HeardIn(log[..i]), log[i].address, log[i].answer)
  {
    SoundRun(config, actions);
  }
}
