/**
 Duplicate redemptions. The documentation promises that a second redemption of a ticket fails even
 concurrently; it does, unless the ticket's marker has been pruned meanwhile. When that is, for every
 run and every clock; and the runs in which it happens.
 */
module Duplicates {
  import opened Clock
  import opened Options
  import opened TicketStore
  import opened TicketProtocol
  import opened TicketRedemption
  import opened TicketCompleteness
  import opened TicketForgery
  import opened Sums
  import Sets
  import TicketKeys
  import TicketTrace

  // ------------------------------------------------------------ when a marker goes

  predicate Spends(env: Env, e: Event, record: RecordKey)
  {
    e.Redeemed? && RecordKey(e.epoch, env.digest(e.message)) == record
  }

  /** A pruner that reached the record's expiry hour has committed since: descriptor, which moves the
      high-water mark up to the hour it prunes at; or a redemption, which prunes at its own hour. */
  ghost predicate PrunedSince(mark: int, s: State, since: seq<Event>, epoch: int)
  {
    || (s.durable.latest > mark && s.durable.latest >= epoch + LIFETIME)
    || exists i :: 0 <= i < |since| && since[i].Redeemed? && since[i].hour >= epoch + LIFETIME
  }

  /** The marker is there exactly as long as no such pruner has committed. */
  ghost predicate MarkerInv(mark: int, s: State, since: seq<Event>, record: RecordKey)
  {
    mark <= s.durable.latest && (record in s.durable.spent <==> !PrunedSince(mark, s, since, record.epoch))
  }

  ghost predicate NoneSpends(env: Env, events: seq<Event>, record: RecordKey)
  {
    forall i :: 0 <= i < |events| ==> !Spends(env, events[i], record)
  }

  lemma PrunedGrows(mark: int, s: State, s': State, since: seq<Event>, more: seq<Event>, epoch: int)
    requires s'.durable.latest == s.durable.latest
    ensures PrunedSince(mark, s', since + more, epoch) <==>
            PrunedSince(mark, s, since, epoch) || exists i :: 0 <= i < |more| && more[i].Redeemed? && more[i].hour >= epoch + LIFETIME
  {
    forall i | 0 <= i < |since|
      ensures (since + more)[i] == since[i]
    {
    }
    forall i | 0 <= i < |more|
      ensures (since + more)[|since| + i] == more[i]
    {
    }
  }

  lemma MarkerDescriptor(env: Env, mark: int, s: State, since: seq<Event>, id: nat, candidate: Key, fault: Fault, record: RecordKey)
    requires MarkerInv(mark, s, since, record)
    ensures
      var (s', more) := DoDescriptor(env, s, id, candidate, fault);
      MarkerInv(mark, s', since + more, record)
  {
    hide Describe, DescriptorFor, AfterDescriptor;
    var (s', more) := DoDescriptor(env, s, id, candidate, fault);
    if Describing(s, id) && candidate !in s.minted {
      DescribeSpares(s.durable, s.cache, s.policy.revision, WantedEpoch(s.handlers[id]), s.lock.value.hour, candidate, fault);
    }
    PrunedGrows(mark, s.(durable := s'.durable), s', since, more, record.epoch);
  }

  lemma MarkerSpend(env: Env, mark: int, s: State, since: seq<Event>, id: nat, keyN: nat, fails: bool, record: RecordKey)
    requires MarkerInv(mark, s, since, record) && NoneSpends(env, DoSpend(env, s, id, keyN, fails).1, record)
    ensures
      var (s', more) := DoSpend(env, s, id, keyN, fails);
      MarkerInv(mark, s', since + more, record)
  {
    hide HourOf, LiveCount, PrunedSince;
    var (s', more) := DoSpend(env, s, id, keyN, fails);
    PrunedGrows(mark, s, s', since, more, record.epoch);
    if more != [] { assert !Spends(env, more[0], record); }
  }

  /** The rest of a whole redemption. */
  lemma RedeemPrunes(env: Env, policy: Policy, now: nat, store: Durable, key: Key, t: Ticket, keyN: nat, fails: bool, record: RecordKey)
    requires NoneSpends(env, RedeemWith(env, policy, now, store, key, t, keyN, fails).1, record)
    ensures
      var (store', events) := RedeemWith(env, policy, now, store, key, t, keyN, fails);
      var prunes := exists i :: 0 <= i < |events| && events[i].Redeemed? && events[i].hour >= record.epoch + LIFETIME;
      store'.latest == store.latest && (record in store'.spent <==> record in store.spent && !prunes)
  {
    hide HourOf, TicketValid, DescriptorFor;
    var (store', events) := RedeemWith(env, policy, now, store, key, t, keyN, fails);
    if |events| == 2 { assert !Spends(env, events[1], record); }
  }

  lemma MarkerAtOnce(env: Env, mark: int, s: State, since: seq<Event>, t: Ticket, candidate: Key, fault: Fault, keyN: nat, fails: bool, record: RecordKey)
    requires MarkerInv(mark, s, since, record) && NoneSpends(env, DoRedeemAtOnce(env, s, t, candidate, fault, keyN, fails).1, record)
    ensures
      var (s', more) := DoRedeemAtOnce(env, s, t, candidate, fault, keyN, fails);
      MarkerInv(mark, s', since + more, record)
  {
    hide HourOf, Describe, RedeemWith, LiveCount;
    var (s', more) := DoRedeemAtOnce(env, s, t, candidate, fault, keyN, fails);
    var o := Describe(s.durable, s.cache, s.policy.revision, t.epoch, HourOf(s.clock), candidate, fault);
    DescribeSpares(s.durable, s.cache, s.policy.revision, t.epoch, HourOf(s.clock), candidate, fault);
    var s1 := s.(durable := o.durable);
    assert MarkerInv(mark, s1, since, record);
    if more != [] {
      var events := RedeemWith(env, s.policy, s.clock, o.durable, o.key.value, t, keyN, fails).1;
      forall i | 0 <= i < |events|
        ensures events[i] == more[i + 1] && !Spends(env, events[i], record)
      {
      }
      RedeemPrunes(env, s.policy, s.clock, o.durable, o.key.value, t, keyN, fails, record);
      hide PrunedSince;
      PrunedGrows(mark, s1, s', since, more, record.epoch);
    } else {
      assert since + more == since;
    }
  }

  lemma MarkerStep(env: Env, mark: int, s: State, since: seq<Event>, a: Action, serial: nat, record: RecordKey)
    requires MarkerInv(mark, s, since, record) && NoneSpends(env, Step(env, s, a, serial).1, record)
    ensures
      var (s', more) := Step(env, s, a, serial);
      MarkerInv(mark, s', since + more, record)
  {
    hide DoDescriptor, DoRedeemAtOnce, DoSpend, DoLocal, DoOffer, DoTakeNonce, DoAccess, DoCall, DoTakeAnswer, DoCharge, DoEnter, DoAbandon, DoLock,
         PrunedSince, NoneSpends;
    if a.RunDescriptor? {
      MarkerDescriptor(env, mark, s, since, a.id, a.candidate, a.fault, record);
    } else if a.RedeemAtOnce? {
      MarkerAtOnce(env, mark, s, since, a.ticket, a.candidate, a.fault, a.keyN, a.fails, record);
    } else if a.Spend? {
      MarkerSpend(env, mark, s, since, a.id, a.keyN, a.fails, record);
    } else {
      var (s', more) := Step(env, s, a, serial);
      OtherStep(env, s, a, serial);
      PrunedGrows(mark, s, s', since, more, record.epoch);
    }
  }

  /** What a run adds to the log from a configuration on. */
  ghost function Since(env: Env, c: Point, actions: seq<Action>): seq<Event>
  {
    var log := RunOn(env, c, actions).1;
    if |log| < |c.1| then [] else log[|c.1|..]
  }

  lemma {:induction false} MarkerRun(env: Env, c: Point, actions: seq<Action>, record: RecordKey)
    requires record in c.0.durable.spent && NoneSpends(env, Since(env, c, actions), record)
    ensures MarkerInv(c.0.durable.latest, RunOn(env, c, actions).0, Since(env, c, actions), record)
  {
    if actions == [] {
      assert Since(env, c, actions) == [];
    } else {
      hide Step, MarkerInv;
      var rest, a := actions[..|actions| - 1], actions[|actions| - 1];
      var (s, log) := RunOn(env, c, rest);
      var more := Step(env, s, a, |log|).1;
      LogExtends(env, c, rest);
      assert Since(env, c, actions) == Since(env, c, rest) + more;
      NoneSpendsSplit(env, Since(env, c, rest), more, record);
      MarkerRun(env, c, rest, record);
      MarkerStep(env, c.0.durable.latest, s, Since(env, c, rest), a, |log|, record);
    }
  }

  lemma NoneSpendsSplit(env: Env, x: seq<Event>, y: seq<Event>, record: RecordKey)
    requires NoneSpends(env, x + y, record)
    ensures NoneSpends(env, x, record) && NoneSpends(env, y, record)
  {
    forall i | 0 <= i < |x|
      ensures !Spends(env, x[i], record)
    {
      assert (x + y)[i] == x[i];
    }
    forall i | 0 <= i < |y|
      ensures !Spends(env, y[i], record)
    {
      assert (x + y)[|x| + i] == y[i];
    }
  }

  // -------------------------------------------------------------- exact condition

  /** A redemption leaves its marker. */
  lemma RedeemedIsMarked(env: Env, s: State, a: Action, serial: nat)
    requires (a.Spend? || a.RedeemAtOnce?) && Step(env, s, a, serial).1 != []
    requires
      var more := Step(env, s, a, serial).1;
      more[|more| - 1].Redeemed?
    ensures
      var (s', more) := Step(env, s, a, serial);
      var e := more[|more| - 1];
      RecordKey(e.epoch, env.digest(e.message)) in s'.durable.spent
  {
    hide HourOf, Describe, LiveCount, TicketValid, DescriptorFor, LiveRecords;
  }

  /** When a second redemption goes through, in every run and whatever the clock does. After the last
      redemption of a ticket, with any steps since: it commits if and only if the bucket does not report
      itself full, and the transaction's own hour, or that of a pruner that has committed since, has reached
      the hour the ticket expires. */
  lemma {:induction false} DuplicateCommitsIff(env: Env, c: Point, redeem: Action, after: seq<Action>, id: nat, keyN: nat)
    requires (redeem.Spend? || redeem.RedeemAtOnce?) && Step(env, c.0, redeem, |c.1|).1 != []
    requires
      var (s1, more) := Step(env, c.0, redeem, |c.1|);
      var c1 := (s1, c.1 + more);
      var s := RunOn(env, c1, after).0;
      var e := more[|more| - 1];
      && e.Redeemed? && NoneSpends(env, Since(env, c1, after), RecordKey(e.epoch, env.digest(e.message)))
      && At(s, id) && s.handlers[id].Accepted? && Marker(env, s.handlers[id].ticket) == RecordKey(e.epoch, env.digest(e.message))
      && keyN >= LiveCount(s.durable, HourOf(s.clock))
    ensures
      var (s1, more) := Step(env, c.0, redeem, |c.1|);
      var c1 := (s1, c.1 + more);
      var (s, log) := RunOn(env, c1, after);
      var epoch := more[|more| - 1].epoch;
      Step(env, s, Spend(id, keyN, false), |log|).1 != [] <==>
        keyN < 100_000 && (HourOf(s.clock) >= epoch + LIFETIME || PrunedSince(s1.durable.latest, s, Since(env, c1, after), epoch))
  {
    hide Step, RunOn, HourOf, LiveCount, PrunedSince, NoneSpends;
    RedeemedIsMarked(env, c.0, redeem, |c.1|);
    var (s1, more) := Step(env, c.0, redeem, |c.1|);
    var c1 := (s1, c.1 + more);
    var e := more[|more| - 1];
    var (s, log) := RunOn(env, c1, after);
    MarkerRun(env, c1, after, RecordKey(e.epoch, env.digest(e.message)));
    SpendCommitsIff(env, s, id, keyN, |log|);
  }

  // --------------------------------------------------------- the runs it happens in

  /** What the redemption transaction of an accepted ticket does. */
  lemma SpendStep(env: Env, s: State, id: nat, keyN: nat, serial: nat)
    requires At(s, id) && s.handlers[id].Accepted? && LiveCount(s.durable, HourOf(s.clock)) <= keyN < BUCKET_CAP
    requires Marker(env, s.handlers[id].ticket) !in s.durable.spent || HourOf(s.clock) >= s.handlers[id].ticket.epoch + LIFETIME
    ensures
      var p := s.handlers[id];
      var (s', more) := Step(env, s, Spend(id, keyN, false), serial);
      && more == [Redeemed(p.ticket.epoch, p.d.key, p.ticket.message, HourOf(s.clock))]
      && s'.clock == s.clock && s'.durable.latest == s.durable.latest && s'.minted == s.minted && s'.lock == s.lock
      && s'.policy == s.policy && s'.cache == s.cache && s'.access == s.access
      && s'.durable.spent == LiveRecords(s.durable.spent, HourOf(s.clock))[Marker(env, p.ticket) := 1]
      && (forall i :: i != id ==> (At(s', i) <==> At(s, i)) && (At(s, i) ==> s'.handlers[i] == s.handlers[i]))
  {
    hide HourOf, LiveCount, LiveRecords;
    SpendCommitsIff(env, s, id, keyN, serial);
  }

  lemma OneMore(b: map<RecordKey, nat>, hour: int, record: RecordKey)
    ensures |LiveRecords(b, hour)[record := 1]| <= |b| + 1
  {
    LiveIsFewer(b, hour);
    var live := LiveRecords(b, hour);
    assert live[record := 1].Keys == live.Keys + {record};
  }

  /** Two handlers have accepted one ticket. */
  ghost predicate BothAccepted(s: State, id: nat, id': nat, epoch: int, message: string)
  {
    && id != id' && At(s, id) && At(s, id') && s.handlers[id].Accepted? && s.handlers[id'].Accepted?
    && s.handlers[id].ticket.epoch == s.handlers[id'].ticket.epoch == epoch
    && s.handlers[id].ticket.message == s.handlers[id'].ticket.message == message
  }

  function Twice(id: nat, id': nat, n: nat, ns: nat): seq<Action> { [Spend(id, n, false)] + [Advance(ns)] + [Spend(id', n + 1, false)] }

  /** One handler redeems the ticket and time goes on. */
  lemma {:induction false} SpentOnce(env: Env, c: Point, id: nat, ns: nat)
    requires At(c.0, id) && c.0.handlers[id].Accepted? && |c.0.durable.spent| + 1 < BUCKET_CAP
    requires Marker(env, c.0.handlers[id].ticket) !in c.0.durable.spent
    ensures
      var p := c.0.handlers[id];
      var (s, log) := RunOn(env, c, [Spend(id, |c.0.durable.spent|, false)] + [Advance(ns)]);
      && log == c.1 + [Redeemed(p.ticket.epoch, p.d.key, p.ticket.message, HourOf(c.0.clock))]
      && s.clock == c.0.clock + ns && |s.durable.spent| <= |c.0.durable.spent| + 1
      && s.durable.latest == c.0.durable.latest && s.minted == c.0.minted && s.lock == c.0.lock && s.policy == c.0.policy
      && (forall i :: i != id ==> (At(s, i) <==> At(c.0, i)) && (At(c.0, i) ==> s.handlers[i] == c.0.handlers[i]))
  {
    var (s0, n) := (c.0, |c.0.durable.spent|);
    LiveIsFewer(s0.durable.spent, HourOf(s0.clock));
    OneMore(s0.durable.spent, HourOf(s0.clock), Marker(env, s0.handlers[id].ticket));
    SpendStep(env, s0, id, n, |c.1|);
    RunOnNothing(env, c);
    hide RunOn, HourOf, LiveRecords, DoSpend;
    RunOnStep(env, c, [], Spend(id, n, false));
    assert [] + [Spend(id, n, false)] == [Spend(id, n, false)];
    RunOnStep(env, c, [Spend(id, n, false)], Advance(ns));
    var log := RunOn(env, c, [Spend(id, n, false)]).1;
    assert log + [] == log;
  }

  /** From any state in which two handlers have accepted an unspent ticket: one redeems it, time goes on to
      the hour it expires, and the other redeems it again. */
  lemma {:induction false} AcceptedTwice(env: Env, c: Point, id: nat, id': nat, epoch: int, message: string, ns: nat)
    requires BothAccepted(c.0, id, id', epoch, message) && |c.0.durable.spent| + 1 < BUCKET_CAP
    requires RecordKey(epoch, env.digest(message)) !in c.0.durable.spent && HourOf(c.0.clock + ns) >= epoch + LIFETIME
    ensures
      RunOn(env, c, Twice(id, id', |c.0.durable.spent|, ns)).1 ==
      c.1 + [Redeemed(epoch, c.0.handlers[id].d.key, message, HourOf(c.0.clock))]
          + [Redeemed(epoch, c.0.handlers[id'].d.key, message, HourOf(c.0.clock + ns))]
  {
    hide RunOn, HourOf, LiveRecords, Step;
    var n := |c.0.durable.spent|;
    SpentOnce(env, c, id, ns);
    var first := [Spend(id, n, false)] + [Advance(ns)];
    var (s, log) := RunOn(env, c, first);
    LiveIsFewer(s.durable.spent, HourOf(s.clock));
    SpendStep(env, s, id', n + 1, |log|);
    RunOnStep(env, c, first, Spend(id', n + 1, false));
  }

  lemma StillUnforgeable(log: seq<Event>, more: seq<Event>)
    requires Unforgeable(log) && forall i :: 0 <= i < |more| ==> !more[i].Verified?
    ensures Unforgeable(log + more)
  {
    forall key
      ensures |VerifiedUnder(log + more, key)| <= SeqSum(log + more, SignedWeight({key}))
    {
      assert VerifiedUnder(log + more, key) == VerifiedUnder(log, key) by {
        forall m
          ensures m in VerifiedUnder(log + more, key) <==> m in VerifiedUnder(log, key)
        {
          if m in VerifiedUnder(log, key) {
            var i :| 0 <= i < |log| && log[i].Verified? && log[i].key == key && log[i].ticket.message == m;
            assert (log + more)[i] == log[i];
          }
        }
      }
      assert |VerifiedUnder(log, key)| <= SeqSum(log, SignedWeight({key}));
      SeqSumAppend(log, more, SignedWeight({key}));
    }
  }

  /** In any run, for a ticket of any epoch: once two handlers have accepted it and it is unspent, it can be
      redeemed twice without the clock ever being set back, the second time once it has expired. No ticket
      has to be forged for that. */
  lemma {:induction false} TicketRedeemedTwice(env: Env, policy: Policy, clock: nat, before: seq<Action>, id: nat, id': nat, epoch: int, message: string, ns: nat)
    requires
      var s := Run(env, Initial(policy, clock), before).0;
      && BothAccepted(s, id, id', epoch, message) && |s.durable.spent| + 1 < BUCKET_CAP
      && RecordKey(epoch, env.digest(message)) !in s.durable.spent && HourOf(s.clock + ns) >= epoch + LIFETIME
    ensures
      var (s, log) := Run(env, Initial(policy, clock), before);
      var after := Twice(id, id', |s.durable.spent|, ns);
      var log' := Run(env, Initial(policy, clock), before + after).1;
      && Forward(after) && |log'| == |log| + 2 && log <= log' && SameTicket(log'[|log|], log'[|log| + 1])
      && log'[|log|].epoch == epoch && log'[|log|].message == message
      && log'[|log|].hour == HourOf(s.clock) && log'[|log| + 1].hour == HourOf(s.clock + ns)
      && (Unforgeable(log) ==> Unforgeable(log'))
  {
    hide Run, RunOn, Step, HourOf, Unforgeable;
    var c := Run(env, Initial(policy, clock), before);
    var after := Twice(id, id', |c.0.durable.spent|, ns);
    AcceptedTwice(env, c, id, id', epoch, message, ns);
    RunOnIsRun(env, Initial(policy, clock), before, after);
    var more := [Redeemed(epoch, c.0.handlers[id].d.key, message, HourOf(c.0.clock)), Redeemed(epoch, c.0.handlers[id'].d.key, message, HourOf(c.0.clock + ns))];
    assert Run(env, Initial(policy, clock), before + after).1 == c.1 + more;
    if Unforgeable(c.1) { StillUnforgeable(c.1, more); }
  }

  // ------------------------------------------------- any ticket, and a clock set back

  /** The steps in which a handler comes to accept a ticket. */
  function Accept(id: nat, t: Ticket, candidate: Key): seq<Action>
  {
    [Enter(id, AskRedeem(t))] + [Lock(id)] + [RunDescriptor(id, candidate, NoFault)] + [Validate(id)]
  }

  /** What they leave: the handler has accepted the ticket; nothing was spent meanwhile. */
  ghost predicate HasAccepted(env: Env, s: State, s': State, id: nat, t: Ticket, key: Key, candidate: Key)
  {
    && s' == s.(durable := s'.durable, cache := s'.cache, minted := s.minted + {candidate},
                handlers := s.handlers[id := Accepted(t, DescriptorFor(env, s.policy, t.epoch, key))])
    && s'.durable.spent.Keys <= s.durable.spent.Keys
  }

  /** The handler enters, takes the lock and has its key. */
  lemma {:induction false} KeyedStep(env: Env, s: State, log: seq<Event>, id: nat, t: Ticket, key: Key, candidate: Key)
    requires TicketKeys.StateInv(s, log) && ClockInv(s) && s.lock == Some(Holder(id, HourOf(s.clock)))
    requires At(s, id) && s.handlers[id] == Calling(AskRedeem(t), t.epoch)
    requires KeyReturned(s.policy.revision, t.epoch, key) in log && t.epoch <= HourOf(s.clock) < t.epoch + LIFETIME && candidate !in s.minted
    ensures
      var (s', more) := Step(env, s, RunDescriptor(id, candidate, NoFault), |log|);
      && s' == s.(durable := s'.durable, cache := s'.cache, minted := s.minted + {candidate}, lock := None,
                  handlers := s.handlers[id := Described(AskRedeem(t), DescriptorFor(env, s.policy, t.epoch, key))])
      && s'.durable.spent.Keys <= s.durable.spent.Keys && more == [KeyReturned(s.policy.revision, t.epoch, key)]
  {
    KeyIsFoundAgain(s.durable, s.cache, s.policy.revision, s.minted, log, t.epoch, s.lock.value.hour, candidate, key);
    DescribeSpares(s.durable, s.cache, s.policy.revision, t.epoch, s.lock.value.hour, candidate, NoFault);
    hide Describe, DescriptorFor, HourOf;
  }

  lemma {:induction false} LockedStep(env: Env, c: Point, id: nat, req: Request)
    requires !At(c.0, id) && c.0.lock.None?
    ensures
      var epoch := if req.AskRedeem? then req.ticket.epoch else HourOf(c.0.clock);
      RunOn(env, c, [Enter(id, req)] + [Lock(id)]) ==
      (c.0.(handlers := c.0.handlers[id := Calling(req, epoch)], lock := Some(Holder(id, HourOf(c.0.clock)))), c.1)
  {
    RunOnNothing(env, c);
    hide RunOn, HourOf;
    RunOnStep(env, c, [], Enter(id, req));
    assert [] + [Enter(id, req)] == [Enter(id, req)];
    RunOnStep(env, c, [Enter(id, req)], Lock(id));
    assert c.1 + [] == c.1;
  }

  lemma {:induction false} ValidatedStep(env: Env, s: State, id: nat, t: Ticket, key: Key, serial: nat)
    requires At(s, id) && s.handlers[id] == Described(AskRedeem(t), DescriptorFor(env, s.policy, t.epoch, key))
    requires TicketTrace.Authentic(env, s.policy, key, t) && HourOf(s.clock) < t.epoch + LIFETIME
    ensures Step(env, s, Validate(id), serial) ==
            (s.(handlers := s.handlers[id := Accepted(t, DescriptorFor(env, s.policy, t.epoch, key))]), [Verified(s.policy, key, t, s.clock)])
  {
    TicketTrace.ValidIffAuthentic(env, s.policy, key, t);
    ExpiryIsAnHourBoundary(t.epoch, s.clock);
    hide TicketValid, HourOf, Millis, TicketTrace.Authentic;
  }

  /** A handler accepts any authentic ticket of a key returned before, in the ticket's hours. */
  lemma {:induction false} OneAccepts(env: Env, c: Point, id: nat, t: Ticket, key: Key, candidate: Key)
    requires TicketKeys.StateInv(c.0, c.1) && ClockInv(c.0) && c.0.lock.None? && !At(c.0, id)
    requires KeyReturned(c.0.policy.revision, t.epoch, key) in c.1 && TicketTrace.Authentic(env, c.0.policy, key, t)
    requires t.epoch <= HourOf(c.0.clock) < t.epoch + LIFETIME && candidate !in c.0.minted
    ensures
      var c' := RunOn(env, c, Accept(id, t, candidate));
      && HasAccepted(env, c.0, c'.0, id, t, key, candidate)
      && c'.1 == c.1 + [KeyReturned(c.0.policy.revision, t.epoch, key), Verified(c.0.policy, key, t, c.0.clock)]
  {
    hide RunOn, HourOf, TicketKeys.StateInv, TicketTrace.Authentic, Step, DescriptorFor, ClockInv;
    LockedStep(env, c, id, AskRedeem(t));
    var two := [Enter(id, AskRedeem(t))] + [Lock(id)];
    var (s2, log2) := RunOn(env, c, two);
    assert TicketKeys.StateInv(s2, log2) && ClockInv(s2) by { SameKeys(c.0, s2, c.1); }
    KeyedStep(env, s2, log2, id, t, key, candidate);
    RunOnStep(env, c, two, RunDescriptor(id, candidate, NoFault));
    var (s3, log3) := RunOn(env, c, two + [RunDescriptor(id, candidate, NoFault)]);
    ValidatedStep(env, s3, id, t, key, |log3|);
    RunOnStep(env, c, two + [RunDescriptor(id, candidate, NoFault)], Validate(id));
    var accepted := Accepted(t, DescriptorFor(env, c.0.policy, t.epoch, key));
    assert s3.handlers[id := accepted] == c.0.handlers[id := accepted];
  }

  lemma SameKeys(s: State, s': State, log: seq<Event>)
    requires TicketKeys.StateInv(s, log) && ClockInv(s) && s.lock.None?
    requires s' == s.(handlers := s'.handlers, lock := s'.lock)
    requires s'.lock.Some? ==> s'.lock.value.hour == HourOf(s.clock)
    ensures TicketKeys.StateInv(s', log) && ClockInv(s')
  {
    hide HourOf;
  }

  lemma AcceptForward(before: seq<Action>, id: nat, t: Ticket, candidate: Key)
    requires Forward(before)
    ensures Forward(before + Accept(id, t, candidate))
  {
  }

  /** Two handlers, one after the other, come to accept the same ticket. */
  lemma {:induction false} BothAccept(env: Env, policy: Policy, clock: nat, before: seq<Action>, id: nat, id': nat, t: Ticket, key: Key,
                                      candidate: Key, candidate': Key)
    requires Forward(before) && id != id' && candidate != candidate'
    requires
      var (s, log) := Run(env, Initial(policy, clock), before);
      && s.lock.None? && !At(s, id) && !At(s, id') && candidate !in s.minted && candidate' !in s.minted
      && KeyReturned(s.policy.revision, t.epoch, key) in log && TicketTrace.Authentic(env, s.policy, key, t)
      && t.epoch <= HourOf(s.clock) < t.epoch + LIFETIME
    ensures
      var (s, log) := Run(env, Initial(policy, clock), before);
      var (s', log') := Run(env, Initial(policy, clock), before + Accept(id, t, candidate) + Accept(id', t, candidate'));
      var seen := [KeyReturned(s.policy.revision, t.epoch, key), Verified(s.policy, key, t, s.clock)];
      && BothAccepted(s', id, id', t.epoch, t.message) && s'.clock == s.clock && s'.durable.spent.Keys <= s.durable.spent.Keys
      && log' == log + seen + seen && s'.handlers[id].d.key == key && s'.handlers[id'].d.key == key
  {
    hide Run, RunOn, HourOf, TicketKeys.StateInv, TicketTrace.Authentic, ClockInv, Accept, Initial;
    var s0 := Initial(policy, clock);
    var c := Run(env, s0, before);
    TicketKeys.RunKeeps(env, policy, clock, before);
    ClockRun(env, policy, clock, before);
    OneAccepts(env, c, id, t, key, candidate);
    var c1 := RunOn(env, c, Accept(id, t, candidate));
    RunOnIsRun(env, s0, before, Accept(id, t, candidate));
    TicketKeys.RunKeeps(env, policy, clock, before + Accept(id, t, candidate));
    assert Forward(before + Accept(id, t, candidate)) by { AcceptForward(before, id, t, candidate); }
    ClockRun(env, policy, clock, before + Accept(id, t, candidate));
    OneAccepts(env, c1, id', t, key, candidate');
    RunOnIsRun(env, s0, before + Accept(id, t, candidate), Accept(id', t, candidate'));
  }

  /** Markers are only of tickets redeemed. */
  lemma {:induction false} Unspent(env: Env, policy: Policy, clock: nat, before: seq<Action>, record: RecordKey)
    requires !Spender(env, Run(env, Initial(policy, clock), before).1, record)
    ensures record !in Run(env, Initial(policy, clock), before).0.durable.spent
  {
    MarkersRun(env, policy, clock, before);
    assert record in Run(env, Initial(policy, clock), before).0.durable.spent ==> Spender(env, Run(env, Initial(policy, clock), before).1, record);
  }

  /** A message that a signature released covers may be verified without a forgery. */
  ghost predicate Covered(log: seq<Event>, key: Key, message: string)
  {
    Unforgeable(log) && |VerifiedUnder(log, key) + {message}| <= SeqSum(log, SignedWeight({key}))
  }

  lemma CoveredIsUnforgeable(log: seq<Event>, more: seq<Event>, key: Key, message: string)
    requires Covered(log, key, message)
    requires forall i :: 0 <= i < |more| && more[i].Verified? ==> more[i].key == key && more[i].ticket.message == message
    ensures Unforgeable(log + more)
  {
    forall k
      ensures |VerifiedUnder(log + more, k)| <= SeqSum(log + more, SignedWeight({k}))
    {
      var extra := if k == key then {message} else {};
      forall m | m in VerifiedUnder(log + more, k)
        ensures m in VerifiedUnder(log, k) + extra
      {
        var i :| 0 <= i < |log + more| && (log + more)[i].Verified? && (log + more)[i].key == k && (log + more)[i].ticket.message == m;
        if i < |log| { assert log[i] == (log + more)[i]; } else { assert more[i - |log|] == (log + more)[i]; }
      }
      Sets.SubsetSize(VerifiedUnder(log + more, k), VerifiedUnder(log, k) + extra);
      assert k != key ==> VerifiedUnder(log, k) + extra == VerifiedUnder(log, k);
      assert |VerifiedUnder(log, k)| <= SeqSum(log, SignedWeight({k}));
      SeqSumAppend(log, more, SignedWeight({k}));
    }
  }

  /** The documentation's promise fails for every ticket: from any run with a clock that never goes back, in
      any hour of an unspent authentic ticket, two requests for it can interleave so that it is redeemed
      twice, the second time once it has expired. No forgery is needed, only a signature that covers it. */
  lemma {:induction false} AnyTicketTwice(env: Env, policy: Policy, clock: nat, before: seq<Action>, id: nat, id': nat, t: Ticket, key: Key,
                                          candidate: Key, candidate': Key, ns: nat)
    requires Forward(before) && id != id' && candidate != candidate'
    requires
      var (s, log) := Run(env, Initial(policy, clock), before);
      && s.lock.None? && !At(s, id) && !At(s, id') && candidate !in s.minted && candidate' !in s.minted
      && KeyReturned(s.policy.revision, t.epoch, key) in log && TicketTrace.Authentic(env, s.policy, key, t)
      && t.epoch <= HourOf(s.clock) < t.epoch + LIFETIME <= HourOf(s.clock + ns)
      && !Spender(env, log, Marker(env, t)) && |s.durable.spent| + 1 < BUCKET_CAP
    ensures
      var (s, log) := Run(env, Initial(policy, clock), before);
      var both := before + Accept(id, t, candidate) + Accept(id', t, candidate');
      var n := |Run(env, Initial(policy, clock), both).0.durable.spent|;
      var log' := Run(env, Initial(policy, clock), both + Twice(id, id', n, ns)).1;
      var seen := [KeyReturned(s.policy.revision, t.epoch, key), Verified(s.policy, key, t, s.clock)];
      && Forward(both + Twice(id, id', n, ns))
      && log' == log + seen + seen + [Redeemed(t.epoch, key, t.message, HourOf(s.clock)), Redeemed(t.epoch, key, t.message, HourOf(s.clock + ns))]
      && (Covered(log, key, t.message) ==> Unforgeable(log'))
  {
    hide Run, HourOf, TicketTrace.Authentic, Covered, Unforgeable, Spender, Accept, Initial;
    BothAccept(env, policy, clock, before, id, id', t, key, candidate, candidate');
    Unspent(env, policy, clock, before, Marker(env, t));
    var (s, log) := Run(env, Initial(policy, clock), before);
    var both := before + Accept(id, t, candidate) + Accept(id', t, candidate');
    var (s2, log2) := Run(env, Initial(policy, clock), both);
    Sets.SubsetSize(s2.durable.spent.Keys, s.durable.spent.Keys);
    var n := |s2.durable.spent|;
    TwiceLogged(env, policy, clock, both, id, id', t, key, ns);
    AcceptForward(before, id, t, candidate);
    AcceptForward(before + Accept(id, t, candidate), id', t, candidate');
    assert Forward(both + Twice(id, id', n, ns));
    if Covered(log, key, t.message) {
      var seen := [KeyReturned(s.policy.revision, t.epoch, key), Verified(s.policy, key, t, s.clock)];
      var spent := [Redeemed(t.epoch, key, t.message, HourOf(s.clock)), Redeemed(t.epoch, key, t.message, HourOf(s.clock + ns))];
      assert log + seen + seen + spent == log + (seen + seen + spent);
      CoveredIsUnforgeable(log, seen + seen + spent, key, t.message);
    }
  }

  lemma {:induction false} TwiceLogged(env: Env, policy: Policy, clock: nat, both: seq<Action>, id: nat, id': nat, t: Ticket, key: Key, ns: nat)
    requires
      var s := Run(env, Initial(policy, clock), both).0;
      && BothAccepted(s, id, id', t.epoch, t.message) && s.handlers[id].d.key == key && s.handlers[id'].d.key == key
      && |s.durable.spent| + 1 < BUCKET_CAP && Marker(env, t) !in s.durable.spent && HourOf(s.clock + ns) >= t.epoch + LIFETIME
    ensures
      var (s, log) := Run(env, Initial(policy, clock), both);
      Run(env, Initial(policy, clock), both + Twice(id, id', |s.durable.spent|, ns)).1 ==
      log + [Redeemed(t.epoch, key, t.message, HourOf(s.clock)), Redeemed(t.epoch, key, t.message, HourOf(s.clock + ns))]
  {
    hide Run, RunOn, HourOf;
    var c := Run(env, Initial(policy, clock), both);
    AcceptedTwice(env, c, id, id', t.epoch, t.message, ns);
    RunOnIsRun(env, Initial(policy, clock), both, Twice(id, id', |c.0.durable.spent|, ns));
  }

  function SetBack(id: nat, id': nat, other: nat, candidate: Key, n: nat, ns: nat): seq<Action>
  {
    [Spend(id, n, false)] + [Advance(ns)] + Catalogued(other, candidate) + [JumpBack(ns)] + [Spend(id', n + 1, false)]
  }

  /** Someone asks for the catalog. */
  function Catalogued(id: nat, candidate: Key): seq<Action>
  {
    [Enter(id, Catalog)] + [Lock(id)] + [RunDescriptor(id, candidate, NoFault)]
  }

  /** A request for the catalog in an hour the mark has not reached moves the mark there, and prunes. */
  lemma {:induction false} CatalogPrunes(env: Env, c: Point, id: nat, candidate: Key)
    requires !At(c.0, id) && c.0.lock.None? && candidate !in c.0.minted && c.0.durable.latest < HourOf(c.0.clock)
    ensures
      var (s, log) := RunOn(env, c, Catalogued(id, candidate));
      && s == c.0.(durable := s.durable, cache := s.cache, minted := s.minted, handlers := s.handlers)
      && s.durable.latest == HourOf(c.0.clock) && s.durable.spent == LiveRecords(c.0.durable.spent, HourOf(c.0.clock))
      && |log| == |c.1| + 1 && c.1 <= log && log[|c.1|].KeyReturned?
      && (forall i :: i != id ==> (At(s, i) <==> At(c.0, i)) && (At(c.0, i) ==> s.handlers[i] == c.0.handlers[i]))
  {
    hide RunOn, HourOf, Describe, DescriptorFor, LiveRecords;
    CatalogKey(c.0.durable, c.0.cache, c.0.policy.revision, HourOf(c.0.clock), candidate);
    LockedStep(env, c, id, Catalog);
    RunOnStep(env, c, [Enter(id, Catalog)] + [Lock(id)], RunDescriptor(id, candidate, NoFault));
  }

  lemma CatalogKey(d: Durable, cache: map<int, Key>, revision: string, hour: int, candidate: Key)
    requires d.latest < hour
    ensures
      var o := Describe(d, cache, revision, hour, hour, candidate, NoFault);
      o.key.Some? && o.durable.latest == hour && o.durable.spent == LiveRecords(d.spent, hour)
  {
    hide LiveRecords, LiveKeys, LiveCache;
  }

  /** A clock that is set back undoes more: the mark moves past the ticket's expiry, its marker is pruned,
      the clock goes back, and a handler that accepted the ticket before redeems it again in an hour in
      which it has not expired. */
  lemma {:induction false} SetBackTwice(env: Env, c: Point, id: nat, id': nat, other: nat, candidate: Key, epoch: int, message: string, ns: nat)
    requires BothAccepted(c.0, id, id', epoch, message) && |c.0.durable.spent| + 1 < BUCKET_CAP
    requires RecordKey(epoch, env.digest(message)) !in c.0.durable.spent && ClockInv(c.0)
    requires c.0.lock.None? && !At(c.0, other) && candidate !in c.0.minted
    requires HourOf(c.0.clock) < epoch + LIFETIME <= HourOf(c.0.clock + ns)
    ensures
      var log := RunOn(env, c, SetBack(id, id', other, candidate, |c.0.durable.spent|, ns)).1;
      && |log| == |c.1| + 3 && c.1 <= log && SameTicket(log[|c.1|], log[|c.1| + 2]) && log[|c.1|].epoch == epoch
      && log[|c.1|].hour == log[|c.1| + 2].hour == HourOf(c.0.clock) < epoch + LIFETIME
  {
    hide RunOn, HourOf, LiveRecords, Step;
    var n := |c.0.durable.spent|;
    SpentOnce(env, c, id, ns);
    var first := [Spend(id, n, false)] + [Advance(ns)];
    var c2 := RunOn(env, c, first);
    assert c2.0.durable.latest < HourOf(c2.0.clock);
    CatalogPrunes(env, c2, other, candidate);
    RunOnMore(env, c, first, Catalogued(other, candidate));
    var five := first + Catalogued(other, candidate);
    var (s5, log5) := RunOn(env, c, five);
    RunOnStep(env, c, five, JumpBack(ns));
    BackStep(env, s5, ns, |log5|);
    var (s6, log6) := RunOn(env, c, five + [JumpBack(ns)]);
    assert log5 + [] == log5;
    assert RecordKey(epoch, env.digest(message)) !in s6.durable.spent by { PrunedAway(c2.0.durable.spent, HourOf(c2.0.clock), RecordKey(epoch, env.digest(message))); }
    LiveIsFewer(c2.0.durable.spent, HourOf(c2.0.clock));
    LiveIsFewer(s6.durable.spent, HourOf(s6.clock));
    SpendStep(env, s6, id', n + 1, |log6|);
    RunOnStep(env, c, five + [JumpBack(ns)], Spend(id', n + 1, false));
  }

  lemma BackStep(env: Env, s: State, ns: nat, serial: nat)
    requires ns <= s.clock
    ensures Step(env, s, JumpBack(ns), serial) == (s.(clock := s.clock - ns), [])
  {
  }

  lemma PrunedAway(b: map<RecordKey, nat>, hour: int, record: RecordKey)
    requires hour >= record.epoch + LIFETIME
    ensures record !in LiveRecords(b, hour)
  {
  }

  lemma {:induction false} RunOnMore(env: Env, c: Point, first: seq<Action>, second: seq<Action>)
    ensures RunOn(env, RunOn(env, c, first), second) == RunOn(env, c, first + second)
  {
    if second == [] {
      assert first + second == first;
    } else {
      hide Step, RunOn;
      var rest, a := second[..|second| - 1], second[|second| - 1];
      RunOnMore(env, c, first, rest);
      RunOnStep(env, RunOn(env, c, first), rest, a);
      RunOnStep(env, c, first + rest, a);
      assert rest + [a] == second && first + rest + [a] == first + second;
    }
  }
}
