/**
 What answers rest on: every verdict of a lookup or a round goes back to a well-formed reply, heard from
 a configured endpoint, to a request about that very address and group.
 */
module CoreAnswers {
  import opened Clock
  import opened Options
  import opened CoreLookups
  import Sets

  // -------------------------------------------------------------------- evidence

  /** The event is such a reply, to a request started at `checked`, and says `member`. */
  ghost predicate Says(config: Config, e: Event, address: string, group: int, member: bool, checked: Reading)
  {
    && e.Heard? && e.base in config.bases && e.address == address && e.group == group && e.started == checked
    && Decisive(e.outcome, address, member)
  }

  ghost predicate Backed(config: Config, heard: set<Event>, address: string, group: int, member: bool, checked: Reading)
  {
    exists e :: e in heard && Says(config, e, address, group, member, checked)
  }

  /** A Core has said that the address is in an allowed group. */
  ghost predicate Confirmed(config: Config, heard: set<Event>, address: string, checked: Reading)
  {
    exists group :: group in config.groups && Backed(config, heard, address, group, true, checked)
  }

  /** A Core has said that the address is not in the group. */
  ghost predicate Refused(config: Config, heard: set<Event>, address: string, group: int)
  {
    exists checked :: Backed(config, heard, address, group, false, checked)
  }

  /** What a round's answer means: membership was confirmed by some group, non-membership by all. */
  ghost predicate Sound(config: Config, heard: set<Event>, address: string, answer: Answer)
  {
    && (IsMember(answer) ==> Confirmed(config, heard, address, answer.checked))
    && (answer.Verdict? && !answer.member ==> forall i :: 0 <= i < |config.groups| ==> Refused(config, heard, address, config.groups[i]))
  }

  // -------------------------------------------------------------------- invariant

  ghost predicate NoneFormed(tries: seq<Try>, address: string)
  {
    forall i :: 0 <= i < |tries| ==> !Decisive(tries[i].outcome, address, true) && !Decisive(tries[i].outcome, address, false)
  }

  /** An answer given after these tries: that of the last one, the only one that decides; or none, if there
      was none. */
  ghost predicate Decides(tries: seq<Try>, address: string, answer: Answer)
  {
    match answer
    case Error => NoneFormed(tries, address)
    case Verdict(member, checked) =>
      && tries != []
      && var last := tries[|tries| - 1];
         NoneFormed(tries[..|tries| - 1], address) && Decisive(last.outcome, address, member) && last.started == checked
  }

  /** The endpoint was reported for this try, unless the try decided or ended with our own context. */
  ghost predicate Reproved(heard: set<Event>, base: string, address: string, o: Outcome)
  {
    Decisive(o, address, true) || Decisive(o, address, false) || o == NoReply(true) || exists at: nat :: Blamed(base, at) in heard
  }

  /** A lookup has once chosen its endpoints; its tries went to them in turn, none but the last decided, and
      the endpoints that failed were reported. */
  ghost predicate LookupOk(config: Config, heard: set<Event>, l: Lookup)
  {
    && (!l.stage.Choosing? ==> Chosen(heard, l))
    && (forall b :: b in l.bases ==> b in config.bases)
    && |l.tries| <= |l.bases|
    && (forall i :: 0 <= i < |l.tries| ==> Heard(l.bases[i], l.address, l.group, l.tries[i].started, l.tries[i].outcome) in heard)
    && (forall i :: 0 <= i < |l.tries| ==> Reproved(heard, l.bases[i], l.address, l.tries[i].outcome))
    && match l.stage
       case Choosing => l.tries == []
       case Queued => NoneFormed(l.tries, l.address)
       case Asking(_) => |l.tries| < |l.bases| && NoneFormed(l.tries, l.address)
       case Ended(started, outcome) => Unjudged(heard, l, started, outcome)
       case Judging(started, outcome) => Unjudged(heard, l, started, outcome)
       case Over(answer, cut) =>
         Decides(l.tries, l.address, answer) && (answer.Error? && !cut ==> |l.tries| == |l.bases|)
  }

  ghost predicate Chosen(heard: set<Event>, l: Lookup)
  {
    exists at: nat :: Picked(l.address, l.group, l.bases, at) in heard
  }

  ghost predicate Unjudged(heard: set<Event>, l: Lookup, started: Reading, outcome: Outcome)
  {
    |l.tries| < |l.bases| && NoneFormed(l.tries, l.address)
    && Heard(l.bases[|l.tries|], l.address, l.group, started, outcome) in heard
  }

  ghost predicate ArrivalOk(config: Config, heard: set<Event>, address: string, a: Arrival)
  {
    && a.index < |config.groups|
    && (a.answer.Verdict? ==> Backed(config, heard, address, config.groups[a.index], a.answer.member, a.answer.checked))
  }

  ghost predicate RoundOk(config: Config, heard: set<Event>, r: Round)
  {
    && r.read <= |r.arrived|
    && (forall i :: 0 <= i < |r.arrived| ==> ArrivalOk(config, heard, r.address, r.arrived[i]))
    && (forall i, j :: 0 <= i < j < |r.arrived| ==> r.arrived[i].index != r.arrived[j].index)
    && (r.result.None? ==> forall i :: 0 <= i < r.read ==> !IsMember(r.arrived[i].answer))
    && (r.result.Some? ==> Sound(config, heard, r.address, r.result.value) && AnyOf(r.arrived[..r.read], r.result.value))
    && (forall i :: 0 <= i < |r.arrived| ==> r.arrived[i].index !in r.todo)
  }

  /** A lookup is its round's own, for the group of its index, whose result has not arrived. */
  ghost predicate Placed(config: Config, s: State, k: Key)
    requires k in s.lookups
  {
    && k.round in s.rounds && k.index < |config.groups|
    && s.lookups[k].address == s.rounds[k.round].address && s.lookups[k].group == config.groups[k.index]
    && k.index !in s.rounds[k.round].todo
    && forall i :: 0 <= i < |s.rounds[k.round].arrived| ==> s.rounds[k.round].arrived[i].index != k.index
  }

  ghost predicate AnswersInv(config: Config, heard: set<Event>, s: State)
  {
    && (forall r :: r in s.rounds ==> RoundOk(config, heard, s.rounds[r]))
    && (forall k :: k in s.lookups ==> Placed(config, s, k) && LookupOk(config, heard, s.lookups[k]))
  }

  ghost function EventsOf(log: seq<Event>): set<Event> { set e | e in log }

  // ---------------------------------------------------------- evidence only grows

  lemma BackedGrows(config: Config, heard: set<Event>, more: set<Event>, address: string, group: int, member: bool, checked: Reading)
    requires Backed(config, heard, address, group, member, checked)
    ensures Backed(config, heard + more, address, group, member, checked)
  {
    hide Says;
    var e :| e in heard && Says(config, e, address, group, member, checked);
    assert e in heard + more;
  }

  lemma SoundGrows(config: Config, heard: set<Event>, more: set<Event>, address: string, answer: Answer)
    requires Sound(config, heard, address, answer)
    ensures Sound(config, heard + more, address, answer)
  {
    hide Backed;
    if IsMember(answer) {
      var group :| group in config.groups && Backed(config, heard, address, group, true, answer.checked);
      BackedGrows(config, heard, more, address, group, true, answer.checked);
    } else if answer.Verdict? {
      forall i | 0 <= i < |config.groups|
        ensures Refused(config, heard + more, address, config.groups[i])
      {
        assert Refused(config, heard, address, config.groups[i]);
        var checked :| Backed(config, heard, address, config.groups[i], false, checked);
        BackedGrows(config, heard, more, address, config.groups[i], false, checked);
      }
    }
  }

  lemma RoundGrows(config: Config, heard: set<Event>, more: set<Event>, r: Round)
    requires RoundOk(config, heard, r)
    ensures RoundOk(config, heard + more, r)
  {
    hide Backed, Sound, AnyOf;
    forall i | 0 <= i < |r.arrived|
      ensures ArrivalOk(config, heard + more, r.address, r.arrived[i])
    {
      var a := r.arrived[i];
      assert ArrivalOk(config, heard, r.address, a);
      if a.answer.Verdict? {
        BackedGrows(config, heard, more, r.address, config.groups[a.index], a.answer.member, a.answer.checked);
      }
    }
    if r.result.Some? { SoundGrows(config, heard, more, r.address, r.result.value); }
  }

  lemma LookupGrows(config: Config, heard: set<Event>, more: set<Event>, l: Lookup)
    requires LookupOk(config, heard, l)
    ensures LookupOk(config, heard + more, l)
  {
    hide NoneFormed, Decides, Decisive;
  }

  // ------------------------------------------------------------------------ steps

  lemma NoneFormedMore(tries: seq<Try>, t: Try, address: string)
    requires NoneFormed(tries, address)
    ensures !WellFormed(t.outcome, address) ==> NoneFormed(tries + [t], address)
    ensures (tries + [t])[..|tries + [t]| - 1] == tries
  {
    FormedIffDecisive(t.outcome, address);
  }

  lemma JudgedOk(config: Config, heard: set<Event>, s: State, l: Lookup)
    requires LookupOk(config, heard, l) && l.stage.Judging?
    ensures LookupOk(config, heard + EventsOf(Judged(s, l).events), Judged(s, l).next)
  {
    hide WellFormed, NoneFormed, Decisive, Reproved, Chosen;
    var t := Try(l.stage.started, l.stage.outcome);
    NoneFormedMore(l.tries, t, l.address);
    FormedIffDecisive(t.outcome, l.address);
    var j := Judged(s, l);
    var more := EventsOf(j.events);
    LookupGrows(config, heard, more, l);
    assert Chosen(heard + more, l) ==> Chosen(heard + more, j.next) by { ChosenStays(heard + more, l, j.next); }
    JudgedReproves(heard, s, l);
  }

  lemma ChosenStays(heard: set<Event>, l: Lookup, l': Lookup)
    requires l'.address == l.address && l'.group == l.group && l'.bases == l.bases
    ensures Chosen(heard, l) ==> Chosen(heard, l')
  {
  }

  lemma JudgedReproves(heard: set<Event>, s: State, l: Lookup)
    requires l.stage.Judging? && |l.tries| < |l.bases|
    ensures Reproved(heard + EventsOf(Judged(s, l).events), l.bases[|l.tries|], l.address, l.stage.outcome)
  {
    hide WellFormed, Decisive;
    FormedIffDecisive(l.stage.outcome, l.address);
    var j := Judged(s, l);
    if j.events != [] { assert j.events[0] in EventsOf(j.events); }
  }

  lemma MovedOk(config: Config, heard: set<Event>, s: State, l: Lookup, a: Action)
    requires LookupOk(config, heard, l)
    ensures
      var m := Moved(config, s, l, a);
      m.Some? ==>
        && m.value.next.address == l.address && m.value.next.group == l.group
        && LookupOk(config, heard + EventsOf(m.value.events), m.value.next)
  {
    hide WellFormed, Healthy, Judged;
    var m := Moved(config, s, l, a);
    if m.Some? {
      var more := EventsOf(m.value.events);
      if a.Judge? {
        JudgedOk(config, heard, s, l);
        JudgedStays(s, l);
      } else if a.End? {
        assert m.value.events[0] in more;
      } else {
        hide NoneFormed;
        if a.Pick? || a.Exhaust? || a.TimeOut? { EmptyFormed(l.address); }
      }
    }
  }

  lemma JudgedStays(s: State, l: Lookup)
    requires l.stage.Judging? && |l.tries| < |l.bases|
    ensures Judged(s, l).next.address == l.address && Judged(s, l).next.group == l.group
  {
  }

  lemma EmptyFormed(address: string)
    ensures NoneFormed([], address)
  {
  }

  lemma AnswersMove(config: Config, heard: set<Event>, s: State, key: Key, a: Action)
    requires AnswersInv(config, heard, s)
    ensures
      var (s', more) := DoMove(config, s, key, a);
      AnswersInv(config, heard + EventsOf(more), s')
  {
    hide Moved, LookupOk, RoundOk;
    var (s', more) := DoMove(config, s, key, a);
    forall r | r in s'.rounds
      ensures RoundOk(config, heard + EventsOf(more), s'.rounds[r])
    {
      RoundGrows(config, heard, EventsOf(more), s.rounds[r]);
    }
    if key in s.lookups { MovedOk(config, heard, s, s.lookups[key], a); }
    forall k | k in s'.lookups
      ensures Placed(config, s', k) && LookupOk(config, heard + EventsOf(more), s'.lookups[k])
    {
      assert Placed(config, s, k);
      if k != key || s' == s { LookupGrows(config, heard, EventsOf(more), s.lookups[k]); }
    }
  }

  lemma AnswersOpen(config: Config, heard: set<Event>, s: State, round: nat, address: string)
    requires AnswersInv(config, heard, s)
    ensures AnswersInv(config, heard, DoOpen(config, s, round, address))
  {
    hide LookupOk;
    assert forall k :: k in s.lookups ==> Placed(config, s, k);
  }

  lemma AnswersBegin(config: Config, heard: set<Event>, s: State, key: Key)
    requires AnswersInv(config, heard, s)
    ensures AnswersInv(config, heard, DoBegin(config, s, key))
  {
    hide Backed, Sound;
    var s' := DoBegin(config, s, key);
    if s' != s {
      assert RoundOk(config, heard, s.rounds[key.round]);
      forall k | k in s'.lookups
        ensures Placed(config, s', k) && LookupOk(config, heard, s'.lookups[k])
      {
        if k != key { assert Placed(config, s, k); }
      }
    }
  }

  lemma ArriveOk(config: Config, heard: set<Event>, r: Round, a: Arrival, r': Round)
    requires RoundOk(config, heard, r) && ArrivalOk(config, heard, r.address, a)
    requires forall i :: 0 <= i < |r.arrived| ==> r.arrived[i].index != a.index
    requires r' == r.(arrived := r.arrived + [a], todo := r'.todo, running := r'.running) && r'.todo <= r.todo - {a.index}
    ensures RoundOk(config, heard, r')
  {
    hide ArrivalOk, Sound, AnyOf;
    assert r'.arrived[..r.read] == r.arrived[..r.read];
  }

  /** A result arrives: the lookups left are of other indices. */
  lemma PlacesAfter(config: Config, s: State, s': State, key: Key, answer: Answer)
    requires key.round in s.rounds && key !in s'.lookups && forall k :: k in s.lookups ==> Placed(config, s, k)
    requires forall k :: k in s'.lookups ==> k in s.lookups && s'.lookups[k] == s.lookups[k]
    requires
      var r := s.rounds[key.round];
      && key.round in s'.rounds && s' == s.(rounds := s.rounds[key.round := s'.rounds[key.round]], lookups := s'.lookups)
      && s'.rounds[key.round] == r.(arrived := r.arrived + [Arrival(key.index, answer)], todo := s'.rounds[key.round].todo, running := s'.rounds[key.round].running)
      && s'.rounds[key.round].todo <= r.todo
    ensures forall k :: k in s'.lookups ==> Placed(config, s', k)
  {
    forall k | k in s'.lookups
      ensures Placed(config, s', k)
    {
      assert Placed(config, s, k);
    }
  }

  lemma AnswersGiveUp(config: Config, heard: set<Event>, s: State, key: Key)
    requires AnswersInv(config, heard, s)
    ensures AnswersInv(config, heard, DoGiveUp(config, s, key))
  {
    var s' := DoGiveUp(config, s, key);
    if s' != s {
      assert RoundOk(config, heard, s.rounds[key.round]);
      ArriveOk(config, heard, s.rounds[key.round], Arrival(key.index, Error), s'.rounds[key.round]);
      hide RoundOk, LookupOk, Placed;
      PlacesAfter(config, s, s', key, Error);
    }
  }

  /** A lookup that is over with a verdict has heard it. */
  lemma OverIsBacked(config: Config, heard: set<Event>, l: Lookup)
    requires LookupOk(config, heard, l) && l.stage.Over? && l.stage.answer.Verdict?
    ensures Backed(config, heard, l.address, l.group, l.stage.answer.member, l.stage.answer.checked)
  {
    var n := |l.tries| - 1;
    var e := Heard(l.bases[n], l.address, l.group, l.tries[n].started, l.tries[n].outcome);
    assert l.bases[n] in l.bases;
    assert e in heard && Says(config, e, l.address, l.group, l.stage.answer.member, l.stage.answer.checked);
  }

  lemma AnswersSend(config: Config, heard: set<Event>, s: State, key: Key)
    requires AnswersInv(config, heard, s)
    ensures AnswersInv(config, heard, DoSend(s, key))
  {
    hide RoundOk, LookupOk, Backed;
    var s' := DoSend(s, key);
    if s' != s {
      var answer := s.lookups[key].stage.answer;
      assert Placed(config, s, key);
      if answer.Verdict? { OverIsBacked(config, heard, s.lookups[key]); }
      assert ArrivalOk(config, heard, s.rounds[key.round].address, Arrival(key.index, answer));
      hide ArrivalOk;
      ArriveOk(config, heard, s.rounds[key.round], Arrival(key.index, answer), s'.rounds[key.round]);
      PlacesAfter(config, s, s', key, answer);
    }
  }

  lemma PlacesKept(config: Config, heard: set<Event>, s: State, s': State)
    requires AnswersInv(config, heard, s) && s'.lookups == s.lookups && s'.rounds.Keys == s.rounds.Keys
    requires forall r :: r in s.rounds ==>
      RoundOk(config, heard, s'.rounds[r]) && s'.rounds[r].address == s.rounds[r].address
      && s'.rounds[r].todo == s.rounds[r].todo && s'.rounds[r].arrived == s.rounds[r].arrived
    ensures AnswersInv(config, heard, s')
  {
    hide RoundOk, LookupOk;
    forall k | k in s'.lookups
      ensures Placed(config, s', k)
    {
      assert Placed(config, s, k);
    }
  }

  lemma ReceiveOk(config: Config, heard: set<Event>, r: Round)
    requires RoundOk(config, heard, r) && r.result.None? && r.read < |r.arrived|
    ensures
      var a := r.arrived[r.read].answer;
      RoundOk(config, heard, r.(read := r.read + 1, result := if IsMember(a) then Some(a) else None))
  {
    hide Backed;
    var a := r.arrived[r.read];
    assert ArrivalOk(config, heard, r.address, a);
    assert config.groups[a.index] in config.groups;
    var now := r.arrived[..r.read + 1];
    assert now[r.read] == a && forall i :: 0 <= i < r.read ==> now[i] == r.arrived[i];
  }

  lemma AnswersReceive(config: Config, heard: set<Event>, s: State, round: nat)
    requires AnswersInv(config, heard, s)
    ensures AnswersInv(config, heard, DoReceive(s, round))
  {
    hide RoundOk, LookupOk;
    var s' := DoReceive(s, round);
    if s' != s {
      ReceiveOk(config, heard, s.rounds[round]);
      PlacesKept(config, heard, s, s');
    }
  }

  ghost function Seen(arrived: seq<Arrival>, n: nat): set<nat>
    requires n <= |arrived|
  {
    if n == 0 then {} else Seen(arrived, n - 1) + {arrived[n - 1].index}
  }

  lemma {:induction false} SeenIff(arrived: seq<Arrival>, n: nat, i: nat)
    requires n <= |arrived|
    ensures i in Seen(arrived, n) <==> exists j :: 0 <= j < n && arrived[j].index == i
  {
    if n > 0 { SeenIff(arrived, n - 1, i); }
  }

  lemma {:induction false} SeenCount(arrived: seq<Arrival>, n: nat)
    requires n <= |arrived| && forall j, k :: 0 <= j < k < |arrived| ==> arrived[j].index != arrived[k].index
    ensures |Seen(arrived, n)| == n
  {
    if n > 0 {
      SeenCount(arrived, n - 1);
      SeenIff(arrived, n - 1, arrived[n - 1].index);
    }
  }

  /** As many different indices below n as n: every one is among them. */
  lemma AllArrived(arrived: seq<Arrival>, n: nat, i: nat)
    requires |arrived| >= n && i < n
    requires forall j :: 0 <= j < |arrived| ==> arrived[j].index < n
    requires forall j, k :: 0 <= j < k < |arrived| ==> arrived[j].index != arrived[k].index
    ensures exists j :: 0 <= j < n && arrived[j].index == i
  {
    hide Seen;
    SeenCount(arrived, n);
    IndicesCount(n);
    SeenIff(arrived, n, i);
    IndicesIff(n, i);
    if i !in Seen(arrived, n) {
      forall x | x in Seen(arrived, n)
        ensures x in Indices(n) - {i}
      {
        SeenIff(arrived, n, x);
        IndicesIff(n, x);
      }
      Sets.SubsetSize(Seen(arrived, n), Indices(n) - {i});
    }
  }

  lemma {:induction false} IndicesIff(n: nat, i: nat)
    ensures i in Indices(n) <==> i < n
  {
    if n > 0 { IndicesIff(n - 1, i); }
  }

  lemma {:induction false} IndicesCount(n: nat)
    ensures |Indices(n)| == n
  {
    if n > 0 {
      IndicesCount(n - 1);
      IndicesIff(n - 1, n - 1);
    }
  }

  lemma ConcludeOk(config: Config, heard: set<Event>, r: Round, wall: nat, clock: nat)
    requires RoundOk(config, heard, r) && r.result.None? && r.read == |config.groups| <= |r.arrived|
    ensures
      var answer := if Unresolved(r.arrived[..r.read]) then Error else Verdict(false, Reading(wall, clock));
      RoundOk(config, heard, r.(result := Some(answer)))
  {
    hide Backed;
    if !Unresolved(r.arrived[..r.read]) {
      forall i | 0 <= i < |config.groups|
        ensures Refused(config, heard, r.address, config.groups[i])
      {
        assert forall j :: 0 <= j < |r.arrived| ==> ArrivalOk(config, heard, r.address, r.arrived[j]);
        AllArrived(r.arrived, |config.groups|, i);
        var j :| 0 <= j < |config.groups| && r.arrived[j].index == i;
        assert r.arrived[..r.read][j] == r.arrived[j];
      }
    }
  }

  lemma AnswersConclude(config: Config, heard: set<Event>, s: State, round: nat, wall: nat)
    requires AnswersInv(config, heard, s)
    ensures AnswersInv(config, heard, DoConclude(config, s, round, wall))
  {
    hide RoundOk, LookupOk, Unresolved;
    var s' := DoConclude(config, s, round, wall);
    if s' != s {
      ConcludeOk(config, heard, s.rounds[round], wall, s.clock);
      PlacesKept(config, heard, s, s');
    }
  }

  lemma AnswersStep(config: Config, heard: set<Event>, s: State, a: Action)
    requires AnswersInv(config, heard, s)
    ensures
      var (s', more) := Step(config, s, a);
      AnswersInv(config, heard + EventsOf(more), s')
  {
    hide AnswersInv, DoMove, DoOpen, DoBegin, DoGiveUp, DoSend, DoReceive, DoConclude;
    assert heard + EventsOf([]) == heard;
    match a
    case Tick(ns) => TickKeeps(config, heard, s, ns);
    case Open(round, address) => AnswersOpen(config, heard, s, round, address);
    case Begin(key) => AnswersBegin(config, heard, s, key);
    case GiveUp(key) => AnswersGiveUp(config, heard, s, key);
    case Send(key) => AnswersSend(config, heard, s, key);
    case Receive(round) => AnswersReceive(config, heard, s, round);
    case Conclude(round, wall) => AnswersConclude(config, heard, s, round, wall);
    case _ => AnswersMove(config, heard, s, a.key, a);
  }

  lemma TickKeeps(config: Config, heard: set<Event>, s: State, ns: nat)
    requires AnswersInv(config, heard, s)
    ensures AnswersInv(config, heard, s.(clock := s.clock + ns))
  {
    hide RoundOk, LookupOk;
    assert forall k :: k in s.lookups ==> Placed(config, s, k);
  }

  lemma {:induction false} AnswersRun(config: Config, actions: seq<Action>)
    ensures
      var (s, log) := Run(config, actions);
      AnswersInv(config, EventsOf(log), s)
  {
    if actions != [] {
      hide AnswersInv, Step;
      AnswersRun(config, actions[..|actions| - 1]);
      var (s, log) := Run(config, actions[..|actions| - 1]);
      var (s', more) := Step(config, s, actions[|actions| - 1]);
      AnswersStep(config, EventsOf(log), s, actions[|actions| - 1]);
      assert EventsOf(log + more) == EventsOf(log) + EventsOf(more);
    }
  }

  // ----------------------------------------------------------------- main results

  /** At this point of the log a lookup for this address and group chose these endpoints, as it should. */
  ghost predicate ChosenAt(config: Config, log: seq<Event>, i: nat, l: Lookup)
  {
    i < |log| && log[i].Picked? && log[i] == Picked(l.address, l.group, l.bases, log[i].at) && PickOk(config, log[..i], log[i])
  }

  /** In every reachable state: a lookup that is over once chose its endpoints, and they are the configured
      ones that had failed no lookup in the five seconds before, in the configured order, or all of them if
      each had; it has tried them in turn; the last try is the first whose reply is well-formed, and its
      row is the answer; without such a reply there is no verdict, and unless its context ended it has
      tried them all. */
  lemma {:induction false} FirstGoodReplyDecides(config: Config, actions: seq<Action>, k: Key)
    requires k in Run(config, actions).0.lookups && Run(config, actions).0.lookups[k].stage.Over?
    ensures
      var (s, log) := Run(config, actions);
      var l := s.lookups[k];
      && (exists i :: ChosenAt(config, log, i, l))
      && Decides(l.tries, l.address, l.stage.answer) && (l.stage.answer.Error? && !l.stage.cut ==> |l.tries| == |l.bases|)
      && |l.tries| <= |l.bases|
      && forall i :: 0 <= i < |l.tries| ==>
           l.bases[i] in config.bases && Heard(l.bases[i], l.address, l.group, l.tries[i].started, l.tries[i].outcome) in log
  {
    AnswersRun(config, actions);
    FailRun(config, actions);
    var (s, log) := Run(config, actions);
    hide Run, Decides, NoneFormed, PickOk, FailInv;
    var l := s.lookups[k];
    assert LookupOk(config, EventsOf(log), l);
    var at: nat :| Picked(l.address, l.group, l.bases, at) in EventsOf(log);
    var i :| 0 <= i < |log| && log[i] == Picked(l.address, l.group, l.bases, at);
    assert ChosenAt(config, log, i, l);
    forall i | 0 <= i < |l.tries|
      ensures l.bases[i] in config.bases && Heard(l.bases[i], l.address, l.group, l.tries[i].started, l.tries[i].outcome) in log
    {
      assert l.bases[i] in l.bases;
    }
  }

  /** Over every run, a lookup that is over ends with this verdict, as of this time, if and only if its last try
      was started then and had the deciding reply that says so. No earlier try, and none at all if there is
      no verdict, had such a reply; and each of their endpoints was reported, unless it was the lookup's own
      context that ended. */
  lemma {:induction false} VerdictIffReply(config: Config, actions: seq<Action>, k: Key, member: bool, started: Reading, i: nat)
    requires k in Run(config, actions).0.lookups && Run(config, actions).0.lookups[k].stage.Over?
    ensures
      var (s, log) := Run(config, actions);
      var l := s.lookups[k];
      && (l.stage.answer == Verdict(member, started) <==>
            && l.tries != [] && l.tries[|l.tries| - 1].started == started
            && var o := l.tries[|l.tries| - 1].outcome;
               o.Reply? && o.size <= 8192 && o == Reply(200, true, o.size, Some([Row(l.address, Some(member))])))
      && (i < |l.tries| <= |l.bases| && (i + 1 < |l.tries| || l.stage.answer.Error?) ==>
            && var o := l.tries[i].outcome;
               && !(o.Reply? && o.status == 200 && o.readable && o.size <= 8192 && exists yes :: o.rows == Some([Row(l.address, Some(yes))]))
               && (o == NoReply(true) || exists at: nat :: Blamed(l.bases[i], at) in log))
  {
    AnswersRun(config, actions);
    hide Run, Chosen;
    var (s, log) := Run(config, actions);
    var l := s.lookups[k];
    assert LookupOk(config, EventsOf(log), l);
    if i < |l.tries| && (i + 1 < |l.tries| || l.stage.answer.Error?) {
      var tries := if l.stage.answer.Error? then l.tries else l.tries[..|l.tries| - 1];
      assert NoneFormed(tries, l.address) && tries[i] == l.tries[i];
      assert Reproved(EventsOf(log), l.bases[i], l.address, l.tries[i].outcome);
    }
    if l.stage.answer.Error? && l.tries != [] {
      assert !Decisive(l.tries[|l.tries| - 1].outcome, l.address, member);
    }
  }

  /** A request to the endpoint that failed: it had no deciding reply, and not because our context ended. */
  ghost predicate Failed(e: Event, base: string)
  {
    && e.Heard? && e.base == base && e.outcome != NoReply(true)
    && !Decisive(e.outcome, e.address, true) && !Decisive(e.outcome, e.address, false)
  }

  lemma BlamedStep(config: Config, heard: set<Event>, s: State, a: Action)
    requires AnswersInv(config, heard, s)
    ensures
      var more := Step(config, s, a).1;
      |more| <= 1 && (more != [] && more[0].Blamed? ==> exists e :: e in heard && Failed(e, more[0].base))
  {
    hide Healthy, WellFormed, Decisive, RoundOk, Placed;
    var more := Step(config, s, a).1;
    if more != [] && more[0].Blamed? {
      var l := s.lookups[a.key];
      assert LookupOk(config, heard, l);
      FormedIffDecisive(l.stage.outcome, l.address);
      assert Failed(Heard(l.bases[|l.tries|], l.address, l.group, l.stage.started, l.stage.outcome), more[0].base);
    }
  }

  /** Over every run, an endpoint is reported only after a request to it has failed. */
  lemma {:induction false} BlamedHasFailed(config: Config, actions: seq<Action>, i: nat)
    requires i < |Run(config, actions).1| && Run(config, actions).1[i].Blamed?
    ensures
      var log := Run(config, actions).1;
      exists e :: e in log[..i] && Failed(e, log[i].base)
  {
    var before, a := actions[..|actions| - 1], actions[|actions| - 1];
    var (s, log) := Run(config, before);
    var more := Step(config, s, a).1;
    hide Failed, AnswersInv, Step;
    if i < |log| {
      BlamedHasFailed(config, before, i);
      assert (log + more)[..i] == log[..i];
    } else {
      AnswersRun(config, before);
      BlamedStep(config, EventsOf(log), s, a);
      assert (log + more)[..i] == log;
    }
  }

  /** Over every run: a round says an address is a member only if a Core has said so of that address and
      an allowed group, and as of the time that request started; it says it is not one only if, for every
      allowed group, a Core has said so. It decides over the results received as the loop does. */
  lemma {:induction false} RoundsAreSound(config: Config, actions: seq<Action>, round: nat)
    requires round in Run(config, actions).0.rounds && Run(config, actions).0.rounds[round].result.Some?
    ensures
      var (s, log) := Run(config, actions);
      var r := s.rounds[round];
      Sound(config, EventsOf(log), r.address, r.result.value) && r.read <= |r.arrived| && AnyOf(r.arrived[..r.read], r.result.value)
  {
    AnswersRun(config, actions);
    hide Run, Sound;
    assert RoundOk(config, EventsOf(Run(config, actions).1), Run(config, actions).0.rounds[round]);
  }
}
