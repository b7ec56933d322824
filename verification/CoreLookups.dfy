/**
 Asking the Cores. A round (checkGroups) asks about one address in every allowed group; a lookup
 (checkGroup) asks the endpoints in turn about one group. Any number of rounds and lookups run at
 once and share the lookup slots and the record of failing endpoints.
 */
module CoreLookups {
  import opened Clock
  import opened Options
  import opened Sums

  datatype Config = Config(bases: seq<string>, groups: seq<int>)

  const SLOTS := 16
  const PARALLEL := 4
  const DEMOTION := 5 * SECOND
  const MAX_REPLY := 8192

  // --------------------------------------------------------------- one request

  /** What a lookup or a round answers: membership as of a time, or no verdict. */
  datatype Answer = Verdict(member: bool, checked: Reading) | Error

  predicate IsMember(a: Answer) { a.Verdict? && a.member }

  datatype Row = Row(address: string, isMember: Option<bool>)

  /** How a request ends: it could not be made; it failed, through our own deadline or not; or there is
      a reply, with its status, whether its body could be read, its size, and its rows if it has any. */
  datatype Outcome =
    | NoRequest
    | NoReply(cancelled: bool)
    | Reply(status: nat, readable: bool, size: nat, rows: Option<seq<Row>>)

  /** A reply that decides: about this address and nothing else. */
  predicate WellFormed(o: Outcome, address: string)
  {
    && o.Reply? && o.readable && o.size <= MAX_REPLY && o.status == 200
    && o.rows.Some? && |o.rows.value| == 1 && o.rows.value[0].address == address && o.rows.value[0].isMember.Some?
  }

  function Said(o: Outcome, address: string): bool
    requires WellFormed(o, address)
  {
    o.rows.value[0].isMember.value
  }

  /** The reply that decides, written out: it has come in full and within the size limit, with status 200, and
      holds one row, about this address, that says yes or no. */
  predicate Decisive(o: Outcome, address: string, member: bool)
  {
    o.Reply? && o == Reply(200, true, o.size, Some([Row(address, Some(member))])) && o.size <= 8192
  }

  /** The checks let exactly such a reply decide, and by what it says. */
  lemma FormedIffDecisive(o: Outcome, address: string)
    ensures WellFormed(o, address) <==> Decisive(o, address, true) || Decisive(o, address, false)
    ensures WellFormed(o, address) ==> Decisive(o, address, Said(o, address))
  {
    if WellFormed(o, address) { assert o.rows.value == [Row(address, Some(Said(o, address)))]; }
  }

  /** A failure that counts against the endpoint: not one of our own making. */
  predicate Blames(o: Outcome, address: string) { !WellFormed(o, address) && o != NoReply(true) }

  // ---------------------------------------------------------------- candidates

  predicate Demoted(failures: map<string, nat>, base: string, now: nat) { base in failures && now < failures[base] }

  /** Endpoints that are not demoted, in configured order. */
  function Healthy(bases: seq<string>, failures: map<string, nat>, now: nat): (r: seq<string>)
    ensures forall b :: b in r ==> b in bases && !Demoted(failures, b, now)
  {
    if bases == [] then []
    else
      var last := bases[|bases| - 1];
      Healthy(bases[..|bases| - 1], failures, now) + if Demoted(failures, last, now) then [] else [last]
  }

  function Candidates(bases: seq<string>, failures: map<string, nat>, now: nat): (r: seq<string>)
    ensures forall b :: b in r ==> b in bases
  {
    var healthy := Healthy(bases, failures, now);
    if healthy == [] then bases else healthy
  }

  /** Healthy keeps exactly the endpoints that are not demoted. */
  lemma {:induction false} HealthyExactly(bases: seq<string>, failures: map<string, nat>, now: nat, b: string)
    ensures b in Healthy(bases, failures, now) <==> b in bases && !Demoted(failures, b, now)
  {
    if bases != [] {
      HealthyExactly(bases[..|bases| - 1], failures, now, b);
      assert bases == bases[..|bases| - 1] + [bases[|bases| - 1]];
    }
  }

  /** It keeps them in the configured order. */
  lemma {:induction false} HealthyInOrder(bases: seq<string>, failures: map<string, nat>, now: nat, i: nat, j: nat)
    requires i < j < |Healthy(bases, failures, now)|
    ensures exists p, q :: 0 <= p < q < |bases| &&
              bases[p] == Healthy(bases, failures, now)[i] && bases[q] == Healthy(bases, failures, now)[j]
  {
    var front, healthy := bases[..|bases| - 1], Healthy(bases, failures, now);
    var before := Healthy(front, failures, now);
    if j < |before| {
      HealthyInOrder(front, failures, now, i, j);
      var p, q :| 0 <= p < q < |front| && front[p] == before[i] && front[q] == before[j];
      assert bases[p] == healthy[i] && bases[q] == healthy[j];
    } else {
      assert before[i] in front;
      var p :| 0 <= p < |front| && front[p] == before[i];
      assert bases[p] == healthy[i] && bases[|bases| - 1] == healthy[j];
    }
  }

  /** Where Healthy finds what it keeps. */
  ghost function HealthyAt(bases: seq<string>, failures: map<string, nat>, now: nat): seq<nat>
  {
    if bases == [] then []
    else
      var last := |bases| - 1;
      HealthyAt(bases[..last], failures, now) + if Demoted(failures, bases[last], now) then [] else [last]
  }

  /** chosen lists what listed has at these positions, which ascend. */
  ghost predicate Drawn(chosen: seq<string>, listed: seq<string>, positions: seq<nat>)
  {
    && |positions| == |chosen|
    && (forall i :: 0 <= i < |positions| ==> positions[i] < |listed| && listed[positions[i]] == chosen[i])
    && (forall i, j :: 0 <= i < j < |positions| ==> positions[i] < positions[j])
  }

  lemma DrawnMore(chosen: seq<string>, listed: seq<string>, positions: seq<nat>, x: string)
    requires Drawn(chosen, listed, positions)
    ensures Drawn(chosen, listed + [x], positions)
    ensures Drawn(chosen + [x], listed + [x], positions + [|listed|])
  {
  }

  /** Healthy lists the configured endpoints at certain positions, in order. */
  lemma {:induction false} HealthyIsDrawn(bases: seq<string>, failures: map<string, nat>, now: nat)
    ensures Drawn(Healthy(bases, failures, now), bases, HealthyAt(bases, failures, now))
  {
    if bases != [] {
      hide Drawn;
      var front, last := bases[..|bases| - 1], bases[|bases| - 1];
      HealthyIsDrawn(front, failures, now);
      assert bases == front + [last];
      DrawnMore(Healthy(front, failures, now), front, HealthyAt(front, failures, now), last);
    }
  }

  /** They are exactly the positions that hold an endpoint not demoted. */
  lemma {:induction false} HealthyAtExactly(bases: seq<string>, failures: map<string, nat>, now: nat, p: nat)
    ensures p in HealthyAt(bases, failures, now) <==> p < |bases| && !Demoted(failures, bases[p], now)
  {
    if bases != [] { HealthyAtExactly(bases[..|bases| - 1], failures, now, p); }
  }

  // --------------------------------------------------------------------- state

  /** A request made and how it ended. */
  datatype Try = Try(started: Reading, outcome: Outcome)

  /** Where a lookup stands: before it has chosen its endpoints; waiting for a slot; with a request out;
      with the request ended and the slot still held; with the slot given back and the outcome to be
      judged; or over, `cut` if its context ended while it waited. */
  datatype Stage =
    | Choosing
    | Queued
    | Asking(started: Reading)
    | Ended(started: Reading, outcome: Outcome)
    | Judging(started: Reading, outcome: Outcome)
    | Over(answer: Answer, cut: bool)

  datatype Lookup = Lookup(round: nat, address: string, group: int, bases: seq<string>, tries: seq<Try>, stage: Stage)

  /** The lookup of a round for the index-th group. */
  datatype Key = Key(round: nat, index: nat)

  datatype Arrival = Arrival(index: nat, answer: Answer)

  /** A round: groups whose lookup has not begun, lookups running, results in the order they arrived, how
      many of them have been received, and the result once there is one. */
  datatype Round = Round(address: string, todo: set<nat>, running: nat, arrived: seq<Arrival>, read: nat, result: Option<Answer>)

  datatype State = State(clock: nat, slots: nat, failures: map<string, nat>, rounds: map<nat, Round>, lookups: map<Key, Lookup>)

  const INITIAL := State(0, 0, map[], map[], map[])

  datatype Action =
    | Tick(ns: nat)
    | Open(round: nat, address: string)
    | Begin(key: Key)
    | GiveUp(key: Key)
    | Pick(key: Key)
    | Take(key: Key, wall: nat)
    | TimeOut(key: Key)
    | End(key: Key, outcome: Outcome)
    | GiveBack(key: Key)
    | Judge(key: Key)
    | Exhaust(key: Key)
    | Send(key: Key)
    | Receive(round: nat)
    | Conclude(round: nat, wall: nat)

  datatype Event =
    | Picked(address: string, group: int, bases: seq<string>, at: nat)
    | Heard(base: string, address: string, group: int, started: Reading, outcome: Outcome)
    | Blamed(base: string, at: nat)

  // --------------------------------------------------------------------- steps

  /** What a step of a lookup makes of it and of what it shares with the others. */
  datatype Move = Move(next: Lookup, slots: nat, failures: map<string, nat>, events: seq<Event>)

  function Next(s: State, l: Lookup, stage: Stage): Option<Move>
  {
    Some(Move(l.(stage := stage), s.slots, s.failures, []))
  }

  /** The outcome of a request is judged: a good reply ends the lookup, a failure may demote its endpoint. */
  function Judged(s: State, l: Lookup): Move
    requires l.stage.Judging? && |l.tries| < |l.bases|
  {
    var (o, base) := (l.stage.outcome, l.bases[|l.tries|]);
    var l1 := l.(tries := l.tries + [Try(l.stage.started, o)]);
    if WellFormed(o, l.address) then
      Move(l1.(stage := Over(Verdict(Said(o, l.address), l.stage.started), false)), s.slots, s.failures, [])
    else if Blames(o, l.address) then
      Move(l1.(stage := Queued), s.slots, s.failures[base := s.clock + DEMOTION], [Blamed(base, s.clock)])
    else Move(l1.(stage := Queued), s.slots, s.failures, [])
  }

  /** The steps of a lookup; None when not enabled. Taking and giving back a slot block on the channel. */
  function Moved(config: Config, s: State, l: Lookup, a: Action): Option<Move>
  {
    var more := |l.tries| < |l.bases|;
    match a
    case Pick(_) =>
      var bases := Candidates(config.bases, s.failures, s.clock);
      if l.stage.Choosing? then Some(Move(l.(bases := bases, stage := Queued), s.slots, s.failures, [Picked(l.address, l.group, bases, s.clock)])) else None
    case Take(_, wall) =>
      if l.stage.Queued? && more && s.slots < SLOTS
      then Some(Move(l.(stage := Asking(Reading(wall, s.clock))), s.slots + 1, s.failures, [])) else None
    case TimeOut(_) => if l.stage.Queued? && more then Next(s, l, Over(Error, true)) else None
    case End(_, outcome) =>
      if l.stage.Asking? && more
      then Some(Move(l.(stage := Ended(l.stage.started, outcome)), s.slots, s.failures,
                     [Heard(l.bases[|l.tries|], l.address, l.group, l.stage.started, outcome)]))
      else None
    case GiveBack(_) =>
      if l.stage.Ended? && s.slots > 0
      then Some(Move(l.(stage := Judging(l.stage.started, l.stage.outcome)), s.slots - 1, s.failures, [])) else None
    case Judge(_) => if l.stage.Judging? && more then Some(Judged(s, l)) else None
    case Exhaust(_) => if l.stage.Queued? && !more then Next(s, l, Over(Error, false)) else None
    case _ => None
  }

  function DoMove(config: Config, s: State, key: Key, a: Action): (r: (State, seq<Event>))
    ensures r.0 == s.(slots := r.0.slots, failures := r.0.failures, lookups := r.0.lookups)
  {
    if key in s.lookups then
      var m := Moved(config, s, s.lookups[key], a);
      if m.None? then (s, [])
      else (s.(slots := m.value.slots, failures := m.value.failures, lookups := s.lookups[key := m.value.next]), m.value.events)
    else (s, [])
  }

  /** The numbers below n. */
  function Indices(n: nat): set<nat> { if n == 0 then {} else Indices(n - 1) + {n - 1} }

  /** checkGroups begins: one goroutine for every group. */
  function DoOpen(config: Config, s: State, round: nat, address: string): State
  {
    if round in s.rounds then s
    else s.(rounds := s.rounds[round := Round(address, Indices(|config.groups|), 0, [], 0, None)])
  }

  predicate Waits(config: Config, s: State, key: Key)
  {
    key.round in s.rounds && key.index < |config.groups| && key.index in s.rounds[key.round].todo && key !in s.lookups
  }

  /** A goroutine gets one of the round's four places and starts its lookup. */
  function DoBegin(config: Config, s: State, key: Key): State
  {
    if Waits(config, s, key) && s.rounds[key.round].running < PARALLEL then
      var r := s.rounds[key.round];
      s.(rounds := s.rounds[key.round := r.(todo := r.todo - {key.index}, running := r.running + 1)],
         lookups := s.lookups[key := Lookup(key.round, r.address, config.groups[key.index], [], [], Choosing)])
    else s
  }

  /** Its context ends before it gets one. */
  function DoGiveUp(config: Config, s: State, key: Key): State
  {
    if Waits(config, s, key) then
      var r := s.rounds[key.round];
      s.(rounds := s.rounds[key.round := r.(todo := r.todo - {key.index}, arrived := r.arrived + [Arrival(key.index, Error)])])
    else s
  }

  /** It sends the lookup's answer and gives its place back. */
  function DoSend(s: State, key: Key): State
  {
    if key in s.lookups && s.lookups[key].stage.Over? && key.round in s.rounds && s.rounds[key.round].running > 0 then
      var r := s.rounds[key.round];
      s.(rounds := s.rounds[key.round := r.(running := r.running - 1, arrived := r.arrived + [Arrival(key.index, s.lookups[key].stage.answer)])],
         lookups := s.lookups - {key})
    else s
  }

  /** checkGroups receives the next result: a membership settles it at once. */
  function DoReceive(s: State, round: nat): State
  {
    if round in s.rounds && s.rounds[round].result.None? && s.rounds[round].read < |s.rounds[round].arrived| then
      var r := s.rounds[round];
      var a := r.arrived[r.read].answer;
      s.(rounds := s.rounds[round := r.(read := r.read + 1, result := if IsMember(a) then Some(a) else None)])
    else s
  }

  /** The verdict over the results received: one membership is enough, failing that none may be an error. */
  ghost predicate AnyOf(arrived: seq<Arrival>, answer: Answer)
  {
    && (IsMember(answer) <==> exists i :: 0 <= i < |arrived| && IsMember(arrived[i].answer))
    && (answer.Error? <==> !IsMember(answer) && Unresolved(arrived))
    && (IsMember(answer) ==> exists i :: 0 <= i < |arrived| && arrived[i].answer == answer)
  }

  predicate Unresolved(arrived: seq<Arrival>) { exists i :: 0 <= i < |arrived| && arrived[i].answer.Error? }

  /** It has received a result for every group and none was a membership. */
  function DoConclude(config: Config, s: State, round: nat, wall: nat): State
  {
    if round in s.rounds && s.rounds[round].result.None? && s.rounds[round].read == |config.groups| <= |s.rounds[round].arrived| then
      var r := s.rounds[round];
      var answer := if Unresolved(r.arrived[..r.read]) then Error else Verdict(false, Reading(wall, s.clock));
      s.(rounds := s.rounds[round := r.(result := Some(answer))])
    else s
  }

  function Step(config: Config, s: State, a: Action): (State, seq<Event>)
  {
    match a
    case Tick(ns) => (s.(clock := s.clock + ns), [])
    case Open(round, address) => (DoOpen(config, s, round, address), [])
    case Begin(key) => (DoBegin(config, s, key), [])
    case GiveUp(key) => (DoGiveUp(config, s, key), [])
    case Send(key) => (DoSend(s, key), [])
    case Receive(round) => (DoReceive(s, round), [])
    case Conclude(round, wall) => (DoConclude(config, s, round, wall), [])
    case _ => DoMove(config, s, a.key, a)
  }

  function Run(config: Config, actions: seq<Action>): (State, seq<Event>)
  {
    if actions == [] then (INITIAL, [])
    else
      var (s, log) := Run(config, actions[..|actions| - 1]);
      var (s', more) := Step(config, s, actions[|actions| - 1]);
      (s', log + more)
  }

  // --------------------------------------------------------- slots and places

  predicate HoldsSlot(l: Lookup) { l.stage.Asking? || l.stage.Ended? }

  function SlotWeight(): Lookup -> nat { (l: Lookup) => if HoldsSlot(l) then 1 else 0 }

  function PlaceWeight(round: nat): Lookup -> nat { (l: Lookup) => if l.round == round then 1 else 0 }

  /** Slots taken are slots held, and places taken are lookups running. */
  ghost predicate CountInv(s: State)
  {
    && s.slots == MapSum(s.lookups, SlotWeight()) && s.slots <= SLOTS
    && (forall k :: k in s.lookups ==> k.round in s.rounds && s.lookups[k].round == k.round)
    && (forall r :: r in s.rounds ==> s.rounds[r].running == MapSum(s.lookups, PlaceWeight(r)) && s.rounds[r].running <= PARALLEL)
  }

  lemma MovedWeights(config: Config, s: State, l: Lookup, a: Action)
    ensures
      var m := Moved(config, s, l, a);
      m.Some? ==> m.value.next.round == l.round && m.value.slots + SlotWeight()(l) == s.slots + SlotWeight()(m.value.next)
  {
    hide Candidates, WellFormed, Blames;
  }

  lemma MovedCap(config: Config, s: State, l: Lookup, a: Action)
    requires s.slots <= SLOTS
    ensures Moved(config, s, l, a).Some? ==> Moved(config, s, l, a).value.slots <= SLOTS
  {
    hide Candidates, WellFormed, Blames;
  }

  lemma CountMove(config: Config, s: State, key: Key, a: Action)
    requires CountInv(s)
    ensures CountInv(DoMove(config, s, key, a).0)
  {
    hide Moved, MapSum;
    if key in s.lookups {
      var l := s.lookups[key];
      var m := Moved(config, s, l, a);
      MovedWeights(config, s, l, a);
      MovedCap(config, s, l, a);
      if m.Some? {
        MapSumUpdate(s.lookups, SlotWeight(), key, m.value.next);
        forall r | r in s.rounds
          ensures MapSum(s.lookups[key := m.value.next], PlaceWeight(r)) == MapSum(s.lookups, PlaceWeight(r))
        {
          MapSumUpdate(s.lookups, PlaceWeight(r), key, m.value.next);
        }
      }
    }
  }

  lemma {:induction false} NoneOfRound(lookups: map<Key, Lookup>, round: nat)
    requires forall k :: k in lookups ==> lookups[k].round != round
    ensures MapSum(lookups, PlaceWeight(round)) == 0
  {
    if lookups != map[] {
      var k :| k in lookups;
      MapSumRemove(lookups, PlaceWeight(round), k);
      NoneOfRound(lookups - {k}, round);
    }
  }

  lemma CountOpen(config: Config, s: State, round: nat, address: string)
    requires CountInv(s)
    ensures CountInv(DoOpen(config, s, round, address))
  {
    if round !in s.rounds { NoneOfRound(s.lookups, round); }
    hide MapSum;
  }

  lemma CountBegin(config: Config, s: State, key: Key)
    requires CountInv(s)
    ensures CountInv(DoBegin(config, s, key))
  {
    hide MapSum;
    var s' := DoBegin(config, s, key);
    if s' != s {
      MapSumUpdate(s.lookups, SlotWeight(), key, s'.lookups[key]);
      assert s.lookups - {key} == s.lookups;
      forall r | r in s.rounds
        ensures s'.rounds[r].running == MapSum(s'.lookups, PlaceWeight(r))
      {
        MapSumUpdate(s.lookups, PlaceWeight(r), key, s'.lookups[key]);
      }
    }
  }

  lemma CountSend(s: State, key: Key)
    requires CountInv(s)
    ensures CountInv(DoSend(s, key))
  {
    hide MapSum;
    var s' := DoSend(s, key);
    if s' != s {
      MapSumRemove(s.lookups, SlotWeight(), key);
      forall r | r in s.rounds
        ensures s'.rounds[r].running == MapSum(s'.lookups, PlaceWeight(r))
      {
        MapSumRemove(s.lookups, PlaceWeight(r), key);
      }
    }
  }

  lemma CountStep(config: Config, s: State, a: Action)
    requires CountInv(s)
    ensures CountInv(Step(config, s, a).0)
  {
    hide MapSum, DoMove, Unresolved;
    match a
    case Tick(_) =>
    case Open(round, address) => CountOpen(config, s, round, address);
    case Begin(key) => CountBegin(config, s, key);
    case GiveUp(_) =>
    case Send(key) => CountSend(s, key);
    case Receive(_) =>
    case Conclude(_, _) =>
    case _ => CountMove(config, s, a.key, a);
  }

  lemma {:induction false} CountRun(config: Config, actions: seq<Action>)
    ensures CountInv(Run(config, actions).0)
  {
    if actions != [] {
      hide CountInv, Step;
      CountRun(config, actions[..|actions| - 1]);
      CountStep(config, Run(config, actions[..|actions| - 1]).0, actions[|actions| - 1]);
    }
  }

  // ----------------------------------------------------------------- demotions

  /** The endpoint failed a lookup less than five seconds before. */
  ghost predicate RecentlyBlamed(log: seq<Event>, base: string, now: nat)
  {
    exists at: nat :: Blamed(base, at) in log && now < at + 5_000_000_000
  }

  ghost predicate FailInv(s: State, log: seq<Event>)
  {
    && (forall b :: b in s.failures ==> s.failures[b] >= DEMOTION && Blamed(b, s.failures[b] - DEMOTION) in log)
    && (forall b, at: nat :: Blamed(b, at) in log ==> b in s.failures && at + DEMOTION <= s.failures[b] && at <= s.clock)
  }

  lemma DemotedIffBlamed(s: State, log: seq<Event>, b: string)
    requires FailInv(s, log)
    ensures Demoted(s.failures, b, s.clock) <==> RecentlyBlamed(log, b, s.clock)
  {
    if Demoted(s.failures, b, s.clock) { assert Blamed(b, s.failures[b] - DEMOTION) in log; }
  }

  lemma FailMove(config: Config, s: State, log: seq<Event>, key: Key, a: Action)
    requires FailInv(s, log)
    ensures
      var (s', more) := DoMove(config, s, key, a);
      FailInv(s', log + more)
  {
    hide Candidates, WellFormed, Blames;
    var (s', more) := DoMove(config, s, key, a);
    assert |more| <= 1;
    forall b | b in s'.failures
      ensures s'.failures[b] >= DEMOTION && Blamed(b, s'.failures[b] - DEMOTION) in log + more
    {
      if b in s.failures && s'.failures[b] == s.failures[b] {
        assert Blamed(b, s.failures[b] - DEMOTION) in log;
      } else {
        assert more[0] == Blamed(b, s.clock) && more[0] in log + more;
      }
    }
  }

  lemma FailStep(config: Config, s: State, log: seq<Event>, a: Action)
    requires FailInv(s, log)
    ensures
      var (s', more) := Step(config, s, a);
      FailInv(s', log + more)
  {
    hide DoMove, Unresolved;
    var (s', more) := Step(config, s, a);
    if a.Pick? || a.Take? || a.TimeOut? || a.End? || a.GiveBack? || a.Judge? || a.Exhaust? {
      FailMove(config, s, log, a.key, a);
    } else {
      assert log + more == log;
    }
  }

  /** The endpoints chosen are all the configured ones if each failed a lookup in the five seconds before;
      otherwise they are exactly those that did not, in the configured order. */
  ghost predicate PickOk(config: Config, log: seq<Event>, e: Event)
  {
    e.Picked? ==>
      if forall b :: b in config.bases ==> RecentlyBlamed(log, b, e.at) then
        e.bases == config.bases
      else
        exists positions :: Unblamed(config, log, e.at, e.bases, positions)
  }

  ghost predicate Unblamed(config: Config, log: seq<Event>, at: nat, chosen: seq<string>, positions: seq<nat>)
  {
    && Drawn(chosen, config.bases, positions)
    && forall p :: 0 <= p < |config.bases| ==> (p in positions <==> !RecentlyBlamed(log, config.bases[p], at))
  }

  lemma PickedOk(config: Config, s: State, log: seq<Event>, a: Action)
    requires FailInv(s, log)
    ensures
      var more := Step(config, s, a).1;
      |more| <= 1 && (more != [] ==> PickOk(config, log, more[0]))
  {
    hide Healthy, WellFormed, Blames;
    if Step(config, s, a).1 != [] && a.Pick? { CandidatesOk(config, s, log, s.lookups[a.key]); }
  }

  lemma CandidatesOk(config: Config, s: State, log: seq<Event>, l: Lookup)
    requires FailInv(s, log)
    ensures PickOk(config, log, Picked(l.address, l.group, Candidates(config.bases, s.failures, s.clock), s.clock))
  {
    hide Healthy, HealthyAt, RecentlyBlamed, FailInv, Demoted;
    var healthy := Healthy(config.bases, s.failures, s.clock);
    var positions := HealthyAt(config.bases, s.failures, s.clock);
    forall b: string
      ensures Demoted(s.failures, b, s.clock) <==> RecentlyBlamed(log, b, s.clock)
      ensures b in healthy <==> b in config.bases && !Demoted(s.failures, b, s.clock)
    {
      DemotedIffBlamed(s, log, b);
      HealthyExactly(config.bases, s.failures, s.clock, b);
    }
    HealthyIsDrawn(config.bases, s.failures, s.clock);
    forall p: nat
      ensures p in positions <==> p < |config.bases| && !Demoted(s.failures, config.bases[p], s.clock)
    {
      HealthyAtExactly(config.bases, s.failures, s.clock, p);
    }
    assert healthy != [] ==> healthy[0] in healthy;
    if b :| b in config.bases && !RecentlyBlamed(log, b, s.clock) {
      assert b in healthy;
      assert Unblamed(config, log, s.clock, healthy, positions);
    }
  }

  lemma {:induction false} FailRun(config: Config, actions: seq<Action>)
    ensures
      var (s, log) := Run(config, actions);
      FailInv(s, log) && forall i :: 0 <= i < |log| ==> PickOk(config, log[..i], log[i])
  {
    if actions != [] {
      hide FailInv, Step, PickOk;
      FailRun(config, actions[..|actions| - 1]);
      var (s, log) := Run(config, actions[..|actions| - 1]);
      var a := actions[|actions| - 1];
      var more := Step(config, s, a).1;
      FailStep(config, s, log, a);
      PickedOk(config, s, log, a);
      forall i | 0 <= i < |log + more|
        ensures PickOk(config, (log + more)[..i], (log + more)[i])
      {
        assert (log + more)[..i] == if i < |log| then log[..i] else log;
      }
    } else {
      assert FailInv(INITIAL, []);
    }
  }

  // -------------------------------------------------------------- main results

  /** In every reachable state, whatever rounds and lookups run: the slots taken are as many as the
      lookups between taking and giving back, at most 16; the places of a round are as many as its lookups,
      at most 4. So giving back never blocks, and a lookup that is over has nothing to give back. */
  lemma {:induction false} SlotsAreHeld(config: Config, actions: seq<Action>)
    ensures
      var s := Run(config, actions).0;
      && s.slots == MapSum(s.lookups, SlotWeight()) <= 16
      && (forall r :: r in s.rounds ==> s.rounds[r].running == MapSum(s.lookups, PlaceWeight(r)) <= 4)
      && (forall k :: k in s.lookups && s.lookups[k].stage.Ended? ==> Moved(config, s, s.lookups[k], GiveBack(k)).Some?)
      && (forall k :: k in s.lookups && s.lookups[k].stage.Over? ==> k !in DoSend(s, k).lookups && DoSend(s, k).slots == s.slots)
      && ((forall k :: k in s.lookups ==> s.lookups[k].stage.Over?) ==> s.slots == 0)
  {
    CountRun(config, actions);
    var s := Run(config, actions).0;
    hide Run;
    forall k | k in s.lookups
      ensures s.lookups[k].stage.Ended? ==> s.slots > 0
      ensures s.rounds[k.round].running > 0
    {
      MapSumRemove(s.lookups, SlotWeight(), k);
      MapSumRemove(s.lookups, PlaceWeight(k.round), k);
    }
    if forall k :: k in s.lookups ==> s.lookups[k].stage.Over? { NoneHolds(s.lookups); }
  }

  lemma {:induction false} NoneHolds(lookups: map<Key, Lookup>)
    requires forall k :: k in lookups ==> !HoldsSlot(lookups[k])
    ensures MapSum(lookups, SlotWeight()) == 0
  {
    if lookups != map[] {
      var k :| k in lookups;
      MapSumRemove(lookups, SlotWeight(), k);
      NoneHolds(lookups - {k});
    }
  }

  /** Over every run, every lookup chooses exactly the configured endpoints that failed no lookup in the
      five seconds before, in the configured order, or all of them if each did; and an endpoint is demoted
      if and only if it failed one in the five seconds before. */
  lemma {:induction false} EndpointsAreUnblamed(config: Config, actions: seq<Action>, i: nat, base: string)
    ensures
      var (s, log) := Run(config, actions);
      && (i < |log| ==> PickOk(config, log[..i], log[i]))
      && (Demoted(s.failures, base, s.clock) <==> RecentlyBlamed(log, base, s.clock))
  {
    FailRun(config, actions);
    var (s, log) := Run(config, actions);
    DemotedIffBlamed(s, log, base);
  }
}
