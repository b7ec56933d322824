/**
 A good ticket is honoured: whatever other handlers, restarts and crashes came before, and whatever
 other handlers do meanwhile, a handler that redeems an unspent ticket in time succeeds.
 */
module TicketCompleteness {
  import opened Clock
  import opened Options
  import opened TicketStore
  import opened TicketProtocol
  import opened TicketRedemption
  import TicketKeys
  import Membership
  import TicketTrace

  // ---------------------------------------------------------- continuing a run

  type Point = (State, seq<Event>)

  /** The run continued from a state and log already reached. */
  function RunOn(env: Env, c: Point, actions: seq<Action>): Point
  {
    if actions == [] then c
    else
      var (s, log) := RunOn(env, c, actions[..|actions| - 1]);
      var (s', more) := Step(env, s, actions[|actions| - 1], |log|);
      (s', log + more)
  }

  lemma {:induction false} RunOnStep(env: Env, c: Point, actions: seq<Action>, a: Action)
    ensures
      var (s, log) := RunOn(env, c, actions);
      var (s', more) := Step(env, s, a, |log|);
      RunOn(env, c, actions + [a]) == (s', log + more)
  {
    assert (actions + [a])[..|actions + [a]| - 1] == actions;
  }

  lemma {:induction false} RunOnNothing(env: Env, c: Point)
    ensures RunOn(env, c, []) == c
  {
  }

  lemma {:induction false} RunOnIsRun(env: Env, s0: State, first: seq<Action>, second: seq<Action>)
    ensures RunOn(env, Run(env, s0, first), second) == Run(env, s0, first + second)
  {
    hide Step, Run, RunOn;
    if second == [] {
      assert first + second == first;
      RunOnNothing(env, Run(env, s0, first));
    } else {
      var rest, a := second[..|second| - 1], second[|second| - 1];
      RunOnIsRun(env, s0, first, rest);
      RunOnStep(env, Run(env, s0, first), rest, a);
      RunStep(env, s0, first + rest, a);
      assert rest + [a] == second && first + rest + [a] == first + second;
    }
  }

  lemma {:induction false} LogExtends(env: Env, c: Point, actions: seq<Action>)
    ensures c.1 <= RunOn(env, c, actions).1
  {
    if actions != [] {
      hide Step;
      LogExtends(env, c, actions[..|actions| - 1]);
    }
  }

  // ---------------------------------------------------------------- bystanders

  /** Actions that are neither a restart, nor a clock jump, nor a step of handler `id`. */
  predicate Bystander(id: nat, a: Action)
  {
    match a
    case Advance(_) => true
    case JumpBack(_) => false
    case Restart(_) => false
    case AccessStep(_) => true
    case RedeemAtOnce(_, _, _, _, _) => true
    case _ => a.id != id
  }

  predicate Bystanders(id: nat, actions: seq<Action>)
  {
    forall i :: 0 <= i < |actions| ==> Bystander(id, actions[i])
  }

  ghost predicate SamePlace(s: State, s': State, id: nat)
  {
    && s'.policy == s.policy
    && (id in s'.handlers <==> id in s.handlers) && (id in s.handlers ==> s'.handlers[id] == s.handlers[id])
    && (s.lock.Some? && s.lock.value.id == id ==> s'.lock == s.lock)
    && (s'.lock.Some? && s'.lock.value.id == id ==> s'.lock == s.lock)
    && s'.clock >= s.clock
  }

  lemma BystanderCalls(env: Env, s: State, a: Action, serial: nat, id: nat)
    requires Bystander(id, a) && (a.RunDescriptor? || a.RedeemAtOnce?)
    ensures SamePlace(s, Step(env, s, a, serial).0, id)
  {
    hide HourOf, Describe, RedeemWith, DescriptorFor, AfterDescriptor, LiveCount, DoLocal;
  }

  lemma BystanderMoves(env: Env, s: State, a: Action, serial: nat, id: nat)
    requires Bystander(id, a) && (a.Enter? || a.Abandon? || a.Lock? || a.TakeAnswer? || a.CallMembership? || a.AccessStep? || a.Advance?)
    ensures SamePlace(s, Step(env, s, a, serial).0, id)
  {
    hide HourOf, DoLocal, DoDescriptor, DoRedeemAtOnce, DoOffer, DoTakeNonce, DoCharge, DoSpend, DoAccess, DoCall, Membership.Step, FirstAnswer, Admit;
  }

  lemma BystanderStores(env: Env, s: State, i: nat, keyN: nat, fails: bool, id: nat)
    requires i != id
    ensures SamePlace(s, DoCharge(env, s, i, keyN, fails).0, id) && SamePlace(s, DoSpend(env, s, i, keyN, fails).0, id)
  {
    hide HourOf, ChargeQuota, CommitSpent, LiveCount;
  }

  lemma BystanderChallenge(env: Env, s: State, i: nat, nonce: string, serial: nat, id: nat)
    requires i != id
    ensures SamePlace(s, DoOffer(env, s, i, nonce, serial).0, id) && SamePlace(s, DoTakeNonce(s, i).0, id)
  {
    hide AddChallenge;
  }

  lemma BystanderLocal(env: Env, s: State, i: nat, a: Action, id: nat)
    requires i != id
    ensures SamePlace(s, DoLocal(env, s, i, a).0, id)
  {
    hide LocalTurn;
  }

  lemma BystanderStep(env: Env, s: State, a: Action, serial: nat, id: nat)
    requires Bystander(id, a)
    ensures SamePlace(s, Step(env, s, a, serial).0, id)
  {
    hide SamePlace, DoLocal, DoDescriptor, DoRedeemAtOnce, DoSpend, DoCharge, DoOffer, DoTakeNonce, DoEnter, DoLock, DoAccess, DoCall, DoTakeAnswer;
    if a.RunDescriptor? || a.RedeemAtOnce? {
      BystanderCalls(env, s, a, serial, id);
    } else if Local(a) {
      BystanderLocal(env, s, a.id, a, id);
    } else {
      if a.Charge? || a.Spend? {
        BystanderStores(env, s, a.id, a.keyN, a.fails, id);
      } else if a.Offer? || a.TakeNonce? {
        BystanderChallenge(env, s, a.id, if a.Offer? then a.nonce else "", serial, id);
      } else {
        BystanderMoves(env, s, a, serial, id);
      }
    }
  }

  // ------------------------------------------------------- markers are not made up

  ghost predicate Spender(env: Env, log: seq<Event>, record: RecordKey)
  {
    exists i :: 0 <= i < |log| && log[i].Redeemed? && log[i].epoch == record.epoch && env.digest(log[i].message) == record.id
  }

  ghost predicate MarkersInv(env: Env, spent: map<RecordKey, nat>, log: seq<Event>)
  {
    forall r :: r in spent ==> Spender(env, log, r)
  }

  lemma SpenderGrows(env: Env, log: seq<Event>, more: seq<Event>, record: RecordKey)
    requires Spender(env, log, record)
    ensures Spender(env, log + more, record)
  {
    var i :| 0 <= i < |log| && log[i].Redeemed? && log[i].epoch == record.epoch && env.digest(log[i].message) == record.id;
    assert (log + more)[i] == log[i];
  }

  lemma MarkersGrow(env: Env, spent: map<RecordKey, nat>, spent': map<RecordKey, nat>, log: seq<Event>, more: seq<Event>)
    requires MarkersInv(env, spent, log)
    requires forall r :: r in spent' ==> r in spent || Spender(env, log + more, r)
    ensures MarkersInv(env, spent', log + more)
  {
    forall r | r in spent'
      ensures Spender(env, log + more, r)
    {
      if r in spent { SpenderGrows(env, log, more, r); }
    }
  }

  lemma MarkersDescriptor(env: Env, s: State, log: seq<Event>, id: nat, candidate: Key, fault: Fault)
    requires MarkersInv(env, s.durable.spent, log)
    ensures
      var (s', more) := DoDescriptor(env, s, id, candidate, fault);
      MarkersInv(env, s'.durable.spent, log + more)
  {
    hide Describe, Settle, DescriptorFor, AfterDescriptor, Spender;
    var (s', more) := DoDescriptor(env, s, id, candidate, fault);
    if Describing(s, id) {
      DescribeSpares(s.durable, s.cache, s.policy.revision, WantedEpoch(s.handlers[id]), s.lock.value.hour, candidate, fault);
    }
    MarkersGrow(env, s.durable.spent, s'.durable.spent, log, more);
  }

  lemma MarkersAtOnce(env: Env, s: State, log: seq<Event>, t: Ticket, candidate: Key, fault: Fault, keyN: nat, fails: bool)
    requires MarkersInv(env, s.durable.spent, log)
    ensures
      var (s', more) := DoRedeemAtOnce(env, s, t, candidate, fault, keyN, fails);
      MarkersInv(env, s'.durable.spent, log + more)
  {
    hide Describe, HourOf, TicketValid, DescriptorFor, LiveCount;
    var (s', more) := DoRedeemAtOnce(env, s, t, candidate, fault, keyN, fails);
    DescribeSpares(s.durable, s.cache, s.policy.revision, t.epoch, HourOf(s.clock), candidate, fault);
    if |more| == 3 { assert (log + more)[|log| + 2] == more[2]; }
    MarkersGrow(env, s.durable.spent, s'.durable.spent, log, more);
  }

  lemma MarkersSpend(env: Env, s: State, log: seq<Event>, id: nat, keyN: nat, fails: bool)
    requires MarkersInv(env, s.durable.spent, log)
    ensures
      var (s', more) := DoSpend(env, s, id, keyN, fails);
      MarkersInv(env, s'.durable.spent, log + more)
  {
    hide HourOf, LiveCount;
    var (s', more) := DoSpend(env, s, id, keyN, fails);
    if more != [] { assert (log + more)[|log|] == more[0]; }
    MarkersGrow(env, s.durable.spent, s'.durable.spent, log, more);
  }

  lemma MarkersStep(env: Env, s: State, log: seq<Event>, a: Action)
    requires MarkersInv(env, s.durable.spent, log)
    ensures
      var (s', more) := Step(env, s, a, |log|);
      MarkersInv(env, s'.durable.spent, log + more)
  {
    hide MarkersInv, Spender, DoDescriptor, DoRedeemAtOnce, DoSpend, DoLocal, DoOffer, DoTakeNonce, DoAccess, DoCall, DoTakeAnswer, DoCharge, DoEnter, DoLock;
    if a.RunDescriptor? {
      MarkersDescriptor(env, s, log, a.id, a.candidate, a.fault);
    } else if a.RedeemAtOnce? {
      MarkersAtOnce(env, s, log, a.ticket, a.candidate, a.fault, a.keyN, a.fails);
    } else if a.Spend? {
      MarkersSpend(env, s, log, a.id, a.keyN, a.fails);
    } else {
      var (s', more) := Step(env, s, a, |log|);
      OtherStep(env, s, a, |log|);
      MarkersGrow(env, s.durable.spent, s'.durable.spent, log, more);
    }
  }

  lemma {:induction false} MarkersRun(env: Env, policy: Policy, clock: nat, actions: seq<Action>)
    ensures
      var (s, log) := Run(env, Initial(policy, clock), actions);
      MarkersInv(env, s.durable.spent, log)
  {
    if actions != [] {
      hide Step, MarkersInv;
      var before := actions[..|actions| - 1];
      MarkersRun(env, policy, clock, before);
      var (s, log) := Run(env, Initial(policy, clock), before);
      MarkersStep(env, s, log, actions[|actions| - 1]);
    }
  }

  // ------------------------------------------------------------ the four stages

  /** A key once returned is found again by descriptor as long as its epoch has not expired. */
  lemma KeyIsFoundAgain(d: Durable, cache: map<int, Key>, revision: string, minted: set<Key>, log: seq<Event>,
                        epoch: int, hour: int, candidate: Key, key: Key)
    requires TicketKeys.KeysInv(d, cache, revision, minted, log) && TicketKeys.OneKeyPerRow(log)
    requires KeyReturned(revision, epoch, key) in log
    requires d.latest <= hour && epoch <= hour < epoch + LIFETIME
    ensures Describe(d, cache, revision, epoch, hour, candidate, NoFault).key == Some(key)
  {
    assert TicketKeys.Retained(d, minted, revision, epoch, key);
    if epoch in cache { assert KeyReturned(revision, epoch, cache[epoch]) in log; }
  }

  lemma DescriptorStage(env: Env, s: State, log: seq<Event>, id: nat, t: Ticket, key: Key, candidate: Key)
    requires TicketKeys.StateInv(s, log) && ClockInv(s)
    requires At(s, id) && s.handlers[id] == Calling(AskRedeem(t), t.epoch)
    requires s.lock.Some? && s.lock.value.id == id && t.epoch <= s.lock.value.hour < t.epoch + LIFETIME
    requires candidate !in s.minted && KeyReturned(s.policy.revision, t.epoch, key) in log
    ensures
      var s' := Step(env, s, RunDescriptor(id, candidate, NoFault), |log|).0;
      && s'.policy == s.policy && s'.clock == s.clock
      && At(s', id) && s'.handlers[id] == Described(AskRedeem(t), DescriptorFor(env, s.policy, t.epoch, key))
  {
    hide Describe, DescriptorFor, HourOf;
    KeyIsFoundAgain(s.durable, s.cache, s.policy.revision, s.minted, log, t.epoch, s.lock.value.hour, candidate, key);
  }

  lemma ValidateStage(env: Env, s: State, id: nat, t: Ticket, d: Descriptor, serial: nat)
    requires At(s, id) && s.handlers[id] == Described(AskRedeem(t), d)
    requires d.expiresAt == ExpiryMillis(t.epoch) && HourOf(s.clock) < t.epoch + LIFETIME && TicketValid(env, d, t)
    ensures
      var s' := Step(env, s, Validate(id), serial).0;
      && s'.policy == s.policy && s'.clock == s.clock && At(s', id) && s'.handlers[id] == Accepted(t, d)
  {
    ExpiryIsAnHourBoundary(t.epoch, s.clock);
    hide TicketValid, Millis, HourOf;
  }

  /** One step of the handler followed by bystanders leaves it where the step put it. */
  lemma {:induction false} StepThenBystanders(env: Env, c: Point, a: Action, rest: seq<Action>, id: nat)
    requires Bystanders(id, rest)
    ensures SamePlace(Step(env, c.0, a, |c.1|).0, RunOn(env, c, [a] + rest).0, id)
  {
    hide Step;
    if rest == [] {
      assert [a] + rest == [a];
      assert [a][..0] == [];
      assert RunOn(env, c, []) == c;
    } else {
      var init, b := rest[..|rest| - 1], rest[|rest| - 1];
      StepThenBystanders(env, c, a, init, id);
      var (s, log) := RunOn(env, c, [a] + init);
      assert ([a] + rest)[..|[a] + rest| - 1] == [a] + init;
      BystanderStep(env, s, b, |log|, id);
    }
  }

  // -------------------------------------------------------------- main result

  /** The states of a redemption by handler `id`: after entering, after taking the lock, after
      descriptor and after validating, each followed by bystanders. */
  ghost function Entered(env: Env, c: Point, id: nat, t: Ticket, rest: seq<Action>): Point
  {
    RunOn(env, c, [Enter(id, AskRedeem(t))] + rest)
  }

  ghost function Locked(env: Env, c: Point, id: nat, rest: seq<Action>): Point { RunOn(env, c, [Lock(id)] + rest) }

  ghost function Keyed(env: Env, c: Point, id: nat, candidate: Key, rest: seq<Action>): Point
  {
    RunOn(env, c, [RunDescriptor(id, candidate, NoFault)] + rest)
  }

  ghost function Checked(env: Env, c: Point, id: nat, rest: seq<Action>): Point { RunOn(env, c, [Validate(id)] + rest) }

  lemma {:induction false} EnterAndLock(env: Env, c0: Point, id: nat, t: Ticket, a1: seq<Action>, a2: seq<Action>)
    requires Bystanders(id, a1) && Bystanders(id, a2) && !At(c0.0, id)
    requires Entered(env, c0, id, t, a1).0.lock.None?
    ensures
      var c1 := Entered(env, c0, id, t, a1);
      var c2 := Locked(env, c1, id, a2);
      && c2.0.policy == c0.0.policy && c2.0.clock >= c1.0.clock
      && At(c2.0, id) && c2.0.handlers[id] == Calling(AskRedeem(t), t.epoch) && c2.0.lock == Some(Holder(id, HourOf(c1.0.clock)))
  {
    hide HourOf, RunOn;
    StepThenBystanders(env, c0, Enter(id, AskRedeem(t)), a1, id);
    StepThenBystanders(env, Entered(env, c0, id, t, a1), Lock(id), a2, id);
  }

  lemma {:induction false} DescribeAndValidate(env: Env, c2: Point, id: nat, t: Ticket, key: Key, candidate: Key, a3: seq<Action>, a4: seq<Action>)
    requires Bystanders(id, a3) && Bystanders(id, a4)
    requires TicketKeys.StateInv(c2.0, c2.1) && ClockInv(c2.0)
    requires At(c2.0, id) && c2.0.handlers[id] == Calling(AskRedeem(t), t.epoch)
    requires c2.0.lock.Some? && c2.0.lock.value.id == id && t.epoch <= c2.0.lock.value.hour
    requires candidate !in c2.0.minted && KeyReturned(c2.0.policy.revision, t.epoch, key) in c2.1
    requires TicketValid(env, DescriptorFor(env, c2.0.policy, t.epoch, key), t)
    requires HourOf(Checked(env, Keyed(env, c2, id, candidate, a3), id, a4).0.clock) < t.epoch + LIFETIME
    ensures
      var c4 := Checked(env, Keyed(env, c2, id, candidate, a3), id, a4);
      At(c4.0, id) && c4.0.handlers[id] == Accepted(t, DescriptorFor(env, c2.0.policy, t.epoch, key))
  {
    hide HourOf, RunOn, TicketValid, Step;
    var s1 := Step(env, c2.0, RunDescriptor(id, candidate, NoFault), |c2.1|).0;
    var c3 := Keyed(env, c2, id, candidate, a3);
    var s2 := Step(env, c3.0, Validate(id), |c3.1|).0;
    var c4 := Checked(env, c3, id, a4);
    StepThenBystanders(env, c2, RunDescriptor(id, candidate, NoFault), a3, id);
    StepThenBystanders(env, c3, Validate(id), a4, id);
    assert s2.clock == c3.0.clock by { ValidateKeepsClock(env, c3.0, id, |c3.1|); }
    assert s1.clock == c2.0.clock by { DescriptorKeepsClock(env, c2.0, id, candidate, |c2.1|); }
    HourMonotone(c3.0.clock, c4.0.clock);
    HourMonotone(c2.0.clock, c4.0.clock);
    DescriptorStage(env, c2.0, c2.1, id, t, key, candidate);
    ValidateStage(env, c3.0, id, t, DescriptorFor(env, c2.0.policy, t.epoch, key), |c3.1|);
  }

  lemma ValidateKeepsClock(env: Env, s: State, id: nat, serial: nat)
    ensures Step(env, s, Validate(id), serial).0.clock == s.clock
  {
  }

  lemma DescriptorKeepsClock(env: Env, s: State, id: nat, candidate: Key, serial: nat)
    ensures Step(env, s, RunDescriptor(id, candidate, NoFault), serial).0.clock == s.clock
  {
    hide Describe;
  }

  /** An unspent ticket, authentic under a key the relay has returned for its epoch under the
      present policy, is redeemed by any handler that takes the lock in the ticket's epoch or later and
      commits before hour E+12, whatever bystanders do in between and whatever crashes came before,
      unless the bucket reports itself full. */
  lemma {:induction false} GoodTicketIsRedeemed(env: Env, policy: Policy, clock: nat, before: seq<Action>, t: Ticket, key: Key, id: nat,
                             a1: seq<Action>, a2: seq<Action>, a3: seq<Action>, a4: seq<Action>, candidate: Key, keyN: nat)
    requires Forward(before) && Bystanders(id, a1) && Bystanders(id, a2) && Bystanders(id, a3) && Bystanders(id, a4)
    requires
      var c0 := Run(env, Initial(policy, clock), before);
      var c1 := Entered(env, c0, id, t, a1);
      var c2 := Locked(env, c1, id, a2);
      var c4 := Checked(env, Keyed(env, c2, id, candidate, a3), id, a4);
      && !At(c0.0, id) && KeyReturned(c0.0.policy.revision, t.epoch, key) in c0.1
      && TicketTrace.Authentic(env, c0.0.policy, key, t)
      && c1.0.lock.None? && t.epoch <= HourOf(c1.0.clock)
      && candidate !in c2.0.minted
      && HourOf(c4.0.clock) < t.epoch + LIFETIME
      && !Spender(env, c4.1, Marker(env, t))
      && LiveCount(c4.0.durable, HourOf(c4.0.clock)) <= keyN < BUCKET_CAP
    ensures
      var c0 := Run(env, Initial(policy, clock), before);
      var c2 := Locked(env, Entered(env, c0, id, t, a1), id, a2);
      var c4 := Checked(env, Keyed(env, c2, id, candidate, a3), id, a4);
      var (s, more) := Step(env, c4.0, Spend(id, keyN, false), |c4.1|);
      && more == [Redeemed(t.epoch, key, t.message, HourOf(c4.0.clock))]
      && At(s, id) && s.handlers[id].Marked? && s.handlers[id].ticket == t
  {
    var c0 := Run(env, Initial(policy, clock), before);
    TicketTrace.ValidIffAuthentic(env, c0.0.policy, key, t);
    hide Run, RunOn, Step, HourOf, TicketValid, LiveCount, Spender, TicketTrace.Authentic;
    var c1 := Entered(env, c0, id, t, a1);
    var c2 := Locked(env, c1, id, a2);
    var c3 := Keyed(env, c2, id, candidate, a3);
    var c4 := Checked(env, c3, id, a4);
    var upto2 := before + ([Enter(id, AskRedeem(t))] + a1) + ([Lock(id)] + a2);
    var upto4 := upto2 + ([RunDescriptor(id, candidate, NoFault)] + a3) + ([Validate(id)] + a4);
    RunOnIsRun(env, Initial(policy, clock), before, [Enter(id, AskRedeem(t))] + a1);
    RunOnIsRun(env, Initial(policy, clock), before + ([Enter(id, AskRedeem(t))] + a1), [Lock(id)] + a2);
    RunOnIsRun(env, Initial(policy, clock), upto2, [RunDescriptor(id, candidate, NoFault)] + a3);
    RunOnIsRun(env, Initial(policy, clock), upto2 + ([RunDescriptor(id, candidate, NoFault)] + a3), [Validate(id)] + a4);
    LogExtends(env, c0, [Enter(id, AskRedeem(t))] + a1);
    LogExtends(env, c1, [Lock(id)] + a2);
    TicketKeys.RunKeeps(env, policy, clock, upto2);
    ClockRun(env, policy, clock, upto2);
    MarkersRun(env, policy, clock, upto4);
    EnterAndLock(env, c0, id, t, a1, a2);
    DescribeAndValidate(env, c2, id, t, key, candidate, a3, a4);
    SpendCommitsIff(env, c4.0, id, keyN, |c4.1|);
  }

  // --------------------------------------------------------- whole redemptions are runs

  /** A redemption with nothing in between. */
  function Steps(id: nat, t: Ticket, candidate: Key, fault: Fault, keyN: nat, fails: bool): seq<Action>
  {
    [Enter(id, AskRedeem(t))] + [Lock(id)] + [RunDescriptor(id, candidate, fault)] + [Validate(id)] + [Spend(id, keyN, fails)]
  }

  lemma EnterLockStep(env: Env, s: State, id: nat, t: Ticket, n: nat)
    requires !At(s, id) && s.lock.None?
    ensures
      var (s1, more1) := Step(env, s, Enter(id, AskRedeem(t)), n);
      var (s2, more2) := Step(env, s1, Lock(id), n);
      more1 == more2 == [] && s2 == s.(handlers := s.handlers[id := Calling(AskRedeem(t), t.epoch)], lock := Some(Holder(id, HourOf(s.clock))))
  {
    hide HourOf;
  }

  lemma DescribeStep(env: Env, s: State, id: nat, t: Ticket, candidate: Key, fault: Fault, n: nat)
    requires At(s, id) && s.handlers[id] == Calling(AskRedeem(t), t.epoch) && s.lock == Some(Holder(id, HourOf(s.clock))) && candidate !in s.minted
    ensures
      var o := Describe(s.durable, s.cache, s.policy.revision, t.epoch, HourOf(s.clock), candidate, fault);
      var (s', more) := Step(env, s, RunDescriptor(id, candidate, fault), n);
      var next := s.(durable := o.durable, cache := o.cache, minted := s.minted + {candidate}, lock := None);
      && (o.key.None? ==> more == [] && s' == next.(handlers := s.handlers - {id}))
      && (o.key.Some? ==>
            && more == [KeyReturned(s.policy.revision, t.epoch, o.key.value)]
            && s' == next.(handlers := s.handlers[id := Described(AskRedeem(t), DescriptorFor(env, s.policy, t.epoch, o.key.value))]))
  {
    hide HourOf, Describe, DescriptorFor;
  }

  lemma CheckStep(env: Env, s: State, id: nat, t: Ticket, d: Descriptor, n: nat)
    requires At(s, id) && s.handlers[id] == Described(AskRedeem(t), d)
    ensures
      var ok := Millis(s.clock) < d.expiresAt && TicketValid(env, d, t);
      Step(env, s, Validate(id), n) ==
      if ok then (s.(handlers := s.handlers[id := Accepted(t, d)]), [Verified(s.policy, d.key, t, s.clock)])
      else (s.(handlers := s.handlers - {id}), [])
  {
    hide Millis, TicketValid;
  }

  lemma SpendStepOnce(env: Env, s: State, id: nat, t: Ticket, d: Descriptor, keyN: nat, fails: bool, n: nat)
    requires At(s, id) && s.handlers[id] == Accepted(t, d) && keyN >= LiveCount(s.durable, HourOf(s.clock))
    ensures
      var (store, ok) := CommitSpent(s.durable, Marker(env, t), HourOf(s.clock), keyN);
      var (s', more) := Step(env, s, Spend(id, keyN, fails), n);
      && more == (if ok && !fails then [Redeemed(t.epoch, d.key, t.message, HourOf(s.clock))] else [])
      && s'.(handlers := s'.handlers - {id}) == s.(durable := if ok && !fails then store else s.durable, handlers := s.handlers - {id})
  {
    hide HourOf, LiveCount, CommitSpent;
  }

  lemma CheckAndSpend(env: Env, s: State, id: nat, t: Ticket, key: Key, keyN: nat, fails: bool, n: nat, n': nat)
    requires At(s, id) && s.handlers[id] == Described(AskRedeem(t), DescriptorFor(env, s.policy, t.epoch, key))
    requires keyN >= LiveCount(s.durable, HourOf(s.clock))
    ensures
      var (s1, more1) := Step(env, s, Validate(id), n);
      var (s2, more2) := Step(env, s1, Spend(id, keyN, fails), n');
      var (store, events) := RedeemWith(env, s.policy, s.clock, s.durable, key, t, keyN, fails);
      more1 + more2 == events && s2.(handlers := s2.handlers - {id}) == s.(durable := store, handlers := s.handlers - {id})
  {
    hide HourOf, Millis, LiveCount, TicketValid, CommitSpent, Step;
    var d := DescriptorFor(env, s.policy, t.epoch, key);
    CheckStep(env, s, id, t, d, n);
    var s1 := Step(env, s, Validate(id), n).0;
    if At(s1, id) {
      SpendStepOnce(env, s1, id, t, d, keyN, fails, n');
      assert s1.handlers - {id} == s.handlers - {id};
    } else {
      GoneStays(env, s1, id, keyN, fails, n, n');
      assert s1.handlers - {id} == s.handlers - {id};
    }
  }

  lemma GoneStays(env: Env, s: State, id: nat, keyN: nat, fails: bool, n: nat, n': nat)
    requires !At(s, id)
    ensures
      var (s1, more1) := Step(env, s, Validate(id), n);
      s1 == s && more1 == [] && Step(env, s, Spend(id, keyN, fails), n') == (s, [])
  {
  }

  /** What it comes to when descriptor has answered. */
  lemma {:induction false} ThreeSteps(env: Env, c: Point, id: nat, t: Ticket, candidate: Key, fault: Fault)
    requires !At(c.0, id) && c.0.lock.None? && candidate !in c.0.minted
    ensures
      var s := c.0;
      var o := Describe(s.durable, s.cache, s.policy.revision, t.epoch, HourOf(s.clock), candidate, fault);
      var (s3, log3) := RunOn(env, c, [Enter(id, AskRedeem(t))] + [Lock(id)] + [RunDescriptor(id, candidate, fault)]);
      var next := s.(durable := o.durable, cache := o.cache, minted := s.minted + {candidate});
      && s3 == next.(handlers := s3.handlers) && s3.handlers - {id} == s.handlers
      && (o.key.None? ==> log3 == c.1 && !At(s3, id))
      && (o.key.Some? ==>
            && log3 == c.1 + [KeyReturned(s.policy.revision, t.epoch, o.key.value)]
            && At(s3, id) && s3.handlers[id] == Described(AskRedeem(t), DescriptorFor(env, s.policy, t.epoch, o.key.value)))
  {
    var (s, log) := c;
    var a1 := [Enter(id, AskRedeem(t))];
    var a2 := a1 + [Lock(id)];
    hide RunOn, HourOf, Describe, DescriptorFor, Step;
    RunOnNothing(env, c);
    RunOnStep(env, c, [], Enter(id, AskRedeem(t)));
    assert [] + a1 == a1;
    RunOnStep(env, c, a1, Lock(id));
    EnterLockStep(env, s, id, t, |log|);
    assert log + [] == log;
    var (s2, log2) := RunOn(env, c, a2);
    RunOnStep(env, c, a2, RunDescriptor(id, candidate, fault));
    DescribeStep(env, s2, id, t, candidate, fault, |log2|);
    assert s2.handlers - {id} == s.handlers;
  }

  lemma AtOnceStep(env: Env, s: State, t: Ticket, candidate: Key, fault: Fault, keyN: nat, fails: bool, n: nat)
    requires s.lock.None? && candidate !in s.minted
    requires keyN >= LiveCount(Describe(s.durable, s.cache, s.policy.revision, t.epoch, HourOf(s.clock), candidate, fault).durable, HourOf(s.clock))
    ensures
      var o := Describe(s.durable, s.cache, s.policy.revision, t.epoch, HourOf(s.clock), candidate, fault);
      var next := s.(durable := o.durable, cache := o.cache, minted := s.minted + {candidate});
      Step(env, s, RedeemAtOnce(t, candidate, fault, keyN, fails), n) ==
      if o.key.None? then (next, [])
      else
        var (store, events) := RedeemWith(env, s.policy, s.clock, o.durable, o.key.value, t, keyN, fails);
        (next.(durable := store), [KeyReturned(s.policy.revision, t.epoch, o.key.value)] + events)
  {
    hide HourOf, Describe, RedeemWith, LiveCount;
  }

  /** A whole redemption is a redemption in steps by a new handler, with nothing in between: it writes the same
      and logs the same, whether it succeeds or not. */
  lemma {:induction false} AtOnceIsSteps(env: Env, c: Point, id: nat, t: Ticket, candidate: Key, fault: Fault, keyN: nat, fails: bool)
    requires !At(c.0, id) && c.0.lock.None? && candidate !in c.0.minted
    requires
      var s := c.0;
      keyN >= LiveCount(Describe(s.durable, s.cache, s.policy.revision, t.epoch, HourOf(s.clock), candidate, fault).durable, HourOf(s.clock))
    ensures
      var c' := RunOn(env, c, Steps(id, t, candidate, fault, keyN, fails));
      var (s', more) := Step(env, c.0, RedeemAtOnce(t, candidate, fault, keyN, fails), |c.1|);
      c'.1 == c.1 + more && c'.0.(handlers := c'.0.handlers - {id}) == s'
  {
    hide RunOn, HourOf, Describe, DescriptorFor, RedeemWith, LiveCount, Step;
    var s := c.0;
    var a3 := [Enter(id, AskRedeem(t))] + [Lock(id)] + [RunDescriptor(id, candidate, fault)];
    ThreeSteps(env, c, id, t, candidate, fault);
    AtOnceStep(env, s, t, candidate, fault, keyN, fails, |c.1|);
    var (s3, log3) := RunOn(env, c, a3);
    RunOnStep(env, c, a3, Validate(id));
    var log4 := RunOn(env, c, a3 + [Validate(id)]).1;
    RunOnStep(env, c, a3 + [Validate(id)], Spend(id, keyN, fails));
    var o := Describe(s.durable, s.cache, s.policy.revision, t.epoch, HourOf(s.clock), candidate, fault);
    if o.key.None? {
      GoneStays(env, s3, id, keyN, fails, |log3|, |log4|);
      assert log3 + [] == log3;
    } else {
      CheckAndSpend(env, s3, id, t, o.key.value, keyN, fails, |log3|, |log4|);
    }
  }
}
