/**
 Rounds and lookups go on: every group of a round is accounted for, no step that is due is ever refused, and
 no set of lookups can wait for each other.
 */
module CoreProgress {
  import opened Clock
  import opened Options
  import opened Sums
  import opened CoreLookups
  import CoreAnswers
  import Sets

  // ---------------------------------------------------------------- every group counts

  lemma {:induction false} IndicesAre(n: nat)
    ensures |Indices(n)| == n && forall i :: i in Indices(n) <==> 0 <= i < n
  {
    if n > 0 { IndicesAre(n - 1); }
  }

  /** Every allowed group of a round is waiting, being looked up, or has its result. */
  ghost predicate GroupsInv(config: Config, s: State)
  {
    forall r :: r in s.rounds ==>
      var x := s.rounds[r];
      (forall i :: i in x.todo ==> i < |config.groups|) && |x.todo| + x.running + |x.arrived| == |config.groups| && x.read <= |x.arrived|
  }

  lemma GroupsStep(config: Config, s: State, a: Action)
    requires GroupsInv(config, s)
    ensures GroupsInv(config, Step(config, s, a).0)
  {
    hide Moved, Unresolved, Indices;
    IndicesAre(|config.groups|);
  }

  lemma {:induction false} GroupsRun(config: Config, actions: seq<Action>)
    ensures GroupsInv(config, Run(config, actions).0)
  {
    if actions != [] {
      hide Step, GroupsInv;
      GroupsRun(config, actions[..|actions| - 1]);
      GroupsStep(config, Run(config, actions[..|actions| - 1]).0, actions[|actions| - 1]);
    }
  }

  // ------------------------------------------------------------------- what is due

  /** The lookup moves on to this stage. */
  ghost predicate MovesTo(config: Config, s: State, a: Action, k: Key, stage: Stage)
  {
    var s' := Step(config, s, a).0;
    k in s'.lookups && s'.lookups[k].stage == stage
  }

  /** A lookup chooses its endpoints; it takes a slot as soon as one of the 16 is free; the request it has out may
      end in any way; it gives its slot back; the outcome is judged; and it ends when it has tried them all. */
  ghost predicate StepIsDue(config: Config, s: State, k: Key, wall: nat, outcome: Outcome)
    requires k in s.lookups
  {
    var l := s.lookups[k];
    && (l.stage.Choosing? ==> MovesTo(config, s, Pick(k), k, Queued))
    && (l.stage.Queued? && |l.tries| < |l.bases| && s.slots < 16 ==> MovesTo(config, s, Take(k, wall), k, Asking(Reading(wall, s.clock))))
    && (l.stage.Queued? && |l.tries| == |l.bases| ==> MovesTo(config, s, Exhaust(k), k, Over(Error, false)))
    && (l.stage.Asking? ==> MovesTo(config, s, End(k, outcome), k, Ended(l.stage.started, outcome)))
    && (l.stage.Ended? ==> MovesTo(config, s, GiveBack(k), k, Judging(l.stage.started, l.stage.outcome)))
    && (l.stage.Judging? ==>
          var s' := Step(config, s, Judge(k)).0;
          k in s'.lookups && |s'.lookups[k].tries| == |l.tries| + 1 && (s'.lookups[k].stage.Queued? || s'.lookups[k].stage.Over?))
  }

  /** Its answer is sent, for its group, and its place given back. */
  ghost predicate AnswerIsDue(config: Config, s: State, k: Key)
    requires k in s.lookups
  {
    s.lookups[k].stage.Over? ==>
      && k.round in s.rounds
      && var (r, s') := (s.rounds[k.round], Step(config, s, Send(k)).0);
         && k !in s'.lookups && k.round in s'.rounds && s'.rounds[k.round].running == r.running - 1
         && s'.rounds[k.round].arrived == r.arrived + [Arrival(k.index, s.lookups[k].stage.answer)]
  }

  lemma StepsAreTaken(config: Config, s: State, k: Key, wall: nat, outcome: Outcome)
    requires k in s.lookups
    requires
      var l := s.lookups[k];
      && (l.stage.Ended? ==> s.slots > 0)
      && (l.stage.Asking? || l.stage.Judging? ==> |l.tries| < |l.bases|)
    ensures StepIsDue(config, s, k, wall, outcome)
  {
    hide WellFormed, Candidates;
  }

  /** In every reachable state each lookup has a step that is due, and it is not refused. */
  lemma {:induction false} LookupGoesOn(config: Config, actions: seq<Action>, k: Key, wall: nat, outcome: Outcome)
    requires k in Run(config, actions).0.lookups
    ensures StepIsDue(config, Run(config, actions).0, k, wall, outcome) && AnswerIsDue(config, Run(config, actions).0, k)
  {
    CountRun(config, actions);
    CoreAnswers.AnswersRun(config, actions);
    var (s, log) := Run(config, actions);
    hide Run, CoreAnswers.RoundOk, CoreAnswers.Chosen, CoreAnswers.NoneFormed, CoreAnswers.Decides, CoreAnswers.Reproved, StepIsDue,
         CoreAnswers.Placed, MapSum;
    assert CoreAnswers.LookupOk(config, CoreAnswers.EventsOf(log), s.lookups[k]);
    MapSumRemove(s.lookups, SlotWeight(), k);
    MapSumRemove(s.lookups, PlaceWeight(k.round), k);
    StepsAreTaken(config, s, k, wall, outcome);
  }

  /** A context may end while a lookup waits for a slot, or a group for a place: the lookup is over, cut short, or
      the group's result is an error. */
  lemma {:induction false} ContextMayEnd(config: Config, actions: seq<Action>, k: Key)
    ensures
      var s := Run(config, actions).0;
      && (k in s.lookups && s.lookups[k].stage.Queued? && |s.lookups[k].tries| < |s.lookups[k].bases| ==> MovesTo(config, s, TimeOut(k), k, Over(Error, true)))
      && (k.round in s.rounds && k.index in s.rounds[k.round].todo ==>
            var s' := Step(config, s, GiveUp(k)).0;
            && k.round in s'.rounds && s'.rounds[k.round].todo == s.rounds[k.round].todo - {k.index}
            && s'.rounds[k.round].arrived == s.rounds[k.round].arrived + [Arrival(k.index, Error)])
  {
    GroupsRun(config, actions);
    CoreAnswers.AnswersRun(config, actions);
    hide Run, CoreAnswers.RoundOk, CoreAnswers.LookupOk;
    var s := Run(config, actions).0;
    if k in s.lookups { assert CoreAnswers.Placed(config, s, k); }
  }

  /** In every reachable state with a lookup that waits for a slot, a slot is free or some lookup holds one: no
      two wait for each other. */
  lemma {:induction false} SlotsComeBack(config: Config, actions: seq<Action>)
    ensures
      var s := Run(config, actions).0;
      s.slots < 16 || exists k :: k in s.lookups && (s.lookups[k].stage.Asking? || s.lookups[k].stage.Ended?)
  {
    CountRun(config, actions);
    var s := Run(config, actions).0;
    hide Run;
    if forall k :: k in s.lookups ==> !HoldsSlot(s.lookups[k]) { NoneHolds(s.lookups); }
  }

  /** In every reachable state a round without a result can receive the next one, can conclude, has a lookup
      that goes on, or has a group whose lookup can begin; and all its groups are accounted for. */
  lemma {:induction false} RoundGoesOn(config: Config, actions: seq<Action>, round: nat, wall: nat)
    requires
      var s := Run(config, actions).0;
      round in s.rounds && s.rounds[round].result.None?
    ensures
      var s := Run(config, actions).0;
      var r := s.rounds[round];
      && |r.todo| + r.running + |r.arrived| == |config.groups| && r.running == MapSum(s.lookups, PlaceWeight(round))
      && (|| (r.read < |r.arrived| && Step(config, s, Receive(round)).0.rounds[round].read == r.read + 1)
          || Step(config, s, Conclude(round, wall)).0.rounds[round].result.Some?
          || (exists k :: k in s.lookups && k.round == round)
          || (exists i: nat :: i in r.todo && Key(round, i) in Step(config, s, Begin(Key(round, i))).0.lookups))
  {
    CountRun(config, actions);
    GroupsRun(config, actions);
    CoreAnswers.AnswersRun(config, actions);
    hide Run, CoreAnswers.RoundOk, CoreAnswers.LookupOk, Unresolved;
    var s := Run(config, actions).0;
    var r := s.rounds[round];
    if r.read == |r.arrived| && r.read < |config.groups| && forall k :: k in s.lookups ==> k.round != round {
      NoPlaces(s.lookups, round);
      var i := Sets.Pick(r.todo);
      assert Key(round, i) !in s.lookups;
      assert Key(round, i) in Step(config, s, Begin(Key(round, i))).0.lookups;
    }
  }

  lemma {:induction false} NoPlaces(lookups: map<Key, Lookup>, round: nat)
    requires forall k :: k in lookups ==> lookups[k].round != round
    ensures MapSum(lookups, PlaceWeight(round)) == 0
  {
    if lookups != map[] {
      var k :| k in lookups;
      MapSumRemove(lookups, PlaceWeight(round), k);
      NoPlaces(lookups - {k}, round);
    }
  }

  /** In every reachable state in which a round has received the results of all its groups and none was a
      membership: it concludes, with no verdict if and only if one of them had none, and else with no membership
      as of now. A membership among them settles it when it is received. */
  lemma {:induction false} RoundConcludes(config: Config, actions: seq<Action>, round: nat, wall: nat)
    requires
      var s := Run(config, actions).0;
      round in s.rounds && s.rounds[round].result.None?
    ensures
      var s := Run(config, actions).0;
      var r := s.rounds[round];
      && (r.read == |config.groups| ==>
            && r.read <= |r.arrived|
            && Step(config, s, Conclude(round, wall)).0.rounds[round].result ==
            Some(if exists i :: 0 <= i < r.read && r.arrived[i].answer.Error? then Error else Verdict(false, Reading(wall, s.clock))))
      && (r.read < |r.arrived| && r.arrived[r.read].answer.Verdict? && r.arrived[r.read].answer.member ==>
            Step(config, s, Receive(round)).0.rounds[round].result == Some(r.arrived[r.read].answer))
  {
    GroupsRun(config, actions);
    hide Run;
    var s := Run(config, actions).0;
    var r := s.rounds[round];
    if r.read == |config.groups| {
      var got := r.arrived[..r.read];
      assert Unresolved(got) <==> exists i :: 0 <= i < r.read && r.arrived[i].answer.Error? by {
        forall i | 0 <= i < r.read
          ensures got[i] == r.arrived[i]
        {
        }
      }
    }
  }
}
