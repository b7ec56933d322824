/**
 Single use of tickets. A marker may be deleted by two pruners, each working from its own reading of
 the clock; the results say exactly how far a ticket is still redeemed at most once.
 */
module TicketRedemption {
  import opened Clock
  import opened Options
  import opened TicketStore
  import opened TicketProtocol

  // ------------------------------------------------------------ the markers

  /** descriptor deletes markers only together with moving the high-water mark to the hour it read. */
  lemma DescribeSpares(d: Durable, cache: map<int, Key>, revision: string, epoch: int, hour: int, candidate: Key, fault: Fault)
    ensures
      var d' := Describe(d, cache, revision, epoch, hour, candidate, fault).durable;
      || (d'.spent == d.spent && d'.quota == d.quota && d'.latest == d.latest)
      || (d'.latest == hour > d.latest && d'.spent == LiveRecords(d.spent, hour) && d'.quota == LiveRecords(d.quota, hour))
  {
    hide LiveCache, AdvanceHour;
    var d' := Describe(d, cache, revision, epoch, hour, candidate, fault).durable;
    assert d' == d || d' == AdvanceHour(d, hour).(keys := d'.keys);
    AdvanceSpares(d, hour);
  }

  lemma AdvanceSpares(d: Durable, hour: int)
    ensures
      var d' := AdvanceHour(d, hour);
      || d' == d
      || (d'.latest == hour > d.latest && d'.spent == LiveRecords(d.spent, hour) && d'.quota == LiveRecords(d.quota, hour))
  {
    hide LiveKeys, LiveRecords;
  }

  /** Actions that neither call descriptor nor redeem leave markers and mark alone. */
  lemma OtherStep(env: Env, s: State, a: Action, serial: nat)
    requires !a.RunDescriptor? && !a.RedeemAtOnce? && !a.Spend?
    ensures
      var (s', more) := Step(env, s, a, serial);
      && s'.durable.spent == s.durable.spent && s'.durable.latest == s.durable.latest
      && (forall i :: 0 <= i < |more| ==> !more[i].Redeemed?)
  {
    hide LocalTurn, Settle, AddChallenge, ChargeQuota, CommitSpent, HourOf, DoDescriptor, DoRedeemAtOnce, DoSpend, DoAccess, DoCall, DoTakeAnswer;
  }

  /** When the redemption transaction commits: the bucket does not report itself full, and the marker
      is absent or old enough to be pruned by this very transaction. */
  lemma SpendCommitsIff(env: Env, s: State, id: nat, keyN: nat, serial: nat)
    requires At(s, id) && s.handlers[id].Accepted? && keyN >= LiveCount(s.durable, HourOf(s.clock))
    ensures
      var t := s.handlers[id].ticket;
      var (s', more) := Step(env, s, Spend(id, keyN, false), serial);
      && (more != [] <==>
            keyN < 100_000 && (Marker(env, t) !in s.durable.spent || HourOf(s.clock) >= t.epoch + LIFETIME))
      && (more != [] ==>
            && more == [Redeemed(t.epoch, s.handlers[id].d.key, t.message, HourOf(s.clock))] && Marker(env, t) in s'.durable.spent
            && At(s', id) && s'.handlers[id] == Marked(t, s.handlers[id].d, s.clock))
  {
  }

  // ------------------------------------------------- a clock that never goes back

  /** No reading of the hour is ahead of the clock, and none behind the high-water mark. */
  ghost predicate ClockInv(s: State)
  {
    && s.durable.latest <= HourOf(s.clock)
    && (s.lock.Some? ==> s.durable.latest <= s.lock.value.hour <= HourOf(s.clock))
  }

  lemma ClockStore(env: Env, s: State, id: nat, keyN: nat, fails: bool)
    requires ClockInv(s)
    ensures
      var s' := DoCharge(env, s, id, keyN, fails).0;
      ClockInv(s') && s'.clock == s.clock
    ensures
      var s' := DoSpend(env, s, id, keyN, fails).0;
      ClockInv(s') && s'.clock == s.clock
  {
    hide HourOf, Settle, LiveCount, LiveRecords;
  }

  lemma ClockOther(env: Env, s: State, a: Action, serial: nat)
    requires ClockInv(s) && !a.JumpBack? && !a.RunDescriptor? && !a.RedeemAtOnce? && !a.Charge? && !a.Spend?
    ensures ClockInv(Step(env, s, a, serial).0)
    ensures Step(env, s, a, serial).0.clock >= s.clock
  {
    hide DoLocal, Settle, AddChallenge, HourOf, DoDescriptor, DoRedeemAtOnce, DoCharge, DoSpend;
    if a.Advance? { HourMonotone(s.clock, s.clock + a.ns); }
  }

  lemma ClockStep(env: Env, s: State, a: Action, serial: nat)
    requires ClockInv(s) && !a.JumpBack?
    ensures ClockInv(Step(env, s, a, serial).0)
    ensures Step(env, s, a, serial).0.clock >= s.clock
  {
    hide ClockInv, DoLocal, DoEnter, DoLock, DoOffer, DoTakeNonce, DoAccess, DoCall, DoTakeAnswer, DoCharge, DoSpend, DoDescriptor, DoRedeemAtOnce;
    if a.RunDescriptor? {
      ClockDescriptor(env, s, a.id, a.candidate, a.fault);
    } else if a.RedeemAtOnce? {
      ClockAtOnce(env, s, a.ticket, a.candidate, a.fault, a.keyN, a.fails);
    } else if a.Charge? || a.Spend? {
      ClockStore(env, s, a.id, a.keyN, a.fails);
    } else {
      ClockOther(env, s, a, serial);
    }
  }

  lemma ClockDescriptor(env: Env, s: State, id: nat, candidate: Key, fault: Fault)
    requires ClockInv(s)
    ensures
      var s' := DoDescriptor(env, s, id, candidate, fault).0;
      ClockInv(s') && s'.clock == s.clock
  {
    hide Describe, HourOf, Settle, LiveRecords, DescriptorFor, AfterDescriptor;
    if Describing(s, id) {
      DescribeSpares(s.durable, s.cache, s.policy.revision, WantedEpoch(s.handlers[id]), s.lock.value.hour, candidate, fault);
    }
  }

  lemma ClockAtOnce(env: Env, s: State, t: Ticket, candidate: Key, fault: Fault, keyN: nat, fails: bool)
    requires ClockInv(s)
    ensures
      var s' := DoRedeemAtOnce(env, s, t, candidate, fault, keyN, fails).0;
      ClockInv(s') && s'.clock == s.clock
  {
    hide Describe, HourOf, LiveRecords, RedeemWith, LiveCount;
    DescribeSpares(s.durable, s.cache, s.policy.revision, t.epoch, HourOf(s.clock), candidate, fault);
  }

  lemma {:induction false} ClockRun(env: Env, policy: Policy, clock: nat, actions: seq<Action>)
    requires Forward(actions)
    ensures ClockInv(Run(env, Initial(policy, clock), actions).0)
  {
    if actions != [] {
      var before := actions[..|actions| - 1];
      ClockRun(env, policy, clock, before);
      var (s, log) := Run(env, Initial(policy, clock), before);
      ClockStep(env, s, actions[|actions| - 1], |log|);
    }
  }

  /** Every redeemed ticket is still marked, or `horizon` has reached its expiry hour. */
  ghost predicate MarkedUntil(env: Env, spent: map<RecordKey, nat>, horizon: int, log: seq<Event>)
  {
    forall i :: 0 <= i < |log| && log[i].Redeemed? ==>
      RecordKey(log[i].epoch, env.digest(log[i].message)) in spent || horizon >= log[i].epoch + LIFETIME
  }

  predicate SameTicket(e: Event, e': Event)
  {
    e.Redeemed? && e'.Redeemed? && e.epoch == e'.epoch && e.message == e'.message
  }

  /** Of two redemptions of one ticket, the later one committed in or after its expiry hour. */
  ghost predicate OnceBeforeExpiry(log: seq<Event>)
  {
    forall i, j :: 0 <= i < j < |log| && SameTicket(log[i], log[j]) ==> log[j].hour >= log[j].epoch + LIFETIME
  }

  lemma AppendRedeemed(env: Env, spent: map<RecordKey, nat>, horizon: int, log: seq<Event>, e: Event)
    requires e.Redeemed? && e.hour <= horizon
    requires MarkedUntil(env, spent, e.hour, log) && OnceBeforeExpiry(log)
    requires RecordKey(e.epoch, env.digest(e.message)) in spent ==> e.hour >= e.epoch + LIFETIME
    ensures OnceBeforeExpiry(log + [e])
    ensures
      var spent' := LiveRecords(spent, e.hour)[RecordKey(e.epoch, env.digest(e.message)) := 1];
      MarkedUntil(env, spent', horizon, log + [e])
  {
  }

  lemma AppendOthers(env: Env, spent: map<RecordKey, nat>, horizon: int, log: seq<Event>, more: seq<Event>)
    requires MarkedUntil(env, spent, horizon, log) && OnceBeforeExpiry(log)
    requires forall i :: 0 <= i < |more| ==> !more[i].Redeemed?
    ensures MarkedUntil(env, spent, horizon, log + more) && OnceBeforeExpiry(log + more)
  {
  }

  lemma PruneKeeps(env: Env, spent: map<RecordKey, nat>, hour: int, horizon: int, log: seq<Event>)
    requires MarkedUntil(env, spent, horizon, log) && hour <= horizon
    ensures MarkedUntil(env, LiveRecords(spent, hour), horizon, log)
  {
  }

  ghost predicate ForwardInv(env: Env, s: State, log: seq<Event>)
  {
    && ClockInv(s)
    && MarkedUntil(env, s.durable.spent, HourOf(s.clock), log)
    && OnceBeforeExpiry(log)
  }

  lemma ForwardDescriptor(env: Env, s: State, log: seq<Event>, id: nat, candidate: Key, fault: Fault)
    requires ForwardInv(env, s, log)
    ensures
      var (s', more) := DoDescriptor(env, s, id, candidate, fault);
      MarkedUntil(env, s'.durable.spent, HourOf(s'.clock), log + more) && OnceBeforeExpiry(log + more)
  {
    hide Describe, AfterDescriptor, DescriptorFor, HourOf, LiveRecords, MarkedUntil, OnceBeforeExpiry;
    var (s', more) := DoDescriptor(env, s, id, candidate, fault);
    if Describing(s, id) && candidate !in s.minted {
      DescribeSpares(s.durable, s.cache, s.policy.revision, WantedEpoch(s.handlers[id]), s.lock.value.hour, candidate, fault);
      PruneKeeps(env, s.durable.spent, s.lock.value.hour, HourOf(s.clock), log);
    }
    AppendOthers(env, s'.durable.spent, HourOf(s.clock), log, more);
  }

  lemma ForwardSpend(env: Env, s: State, log: seq<Event>, id: nat, keyN: nat, fails: bool)
    requires ForwardInv(env, s, log)
    ensures
      var (s', more) := DoSpend(env, s, id, keyN, fails);
      MarkedUntil(env, s'.durable.spent, HourOf(s'.clock), log + more) && OnceBeforeExpiry(log + more)
  {
    hide HourOf, MarkedUntil, OnceBeforeExpiry;
    var (s', more) := DoSpend(env, s, id, keyN, fails);
    if more == [] {
      AppendOthers(env, s.durable.spent, HourOf(s.clock), log, more);
    } else {
      AppendRedeemed(env, s.durable.spent, HourOf(s.clock), log, more[0]);
    }
  }

  lemma ForwardAtOnce(env: Env, s: State, log: seq<Event>, t: Ticket, candidate: Key, fault: Fault, keyN: nat, fails: bool)
    requires ForwardInv(env, s, log)
    ensures
      var (s', more) := DoRedeemAtOnce(env, s, t, candidate, fault, keyN, fails);
      MarkedUntil(env, s'.durable.spent, HourOf(s'.clock), log + more) && OnceBeforeExpiry(log + more)
  {
    hide HourOf, MarkedUntil, OnceBeforeExpiry, Describe, DescriptorFor, TicketValid;
    var (s', more) := DoRedeemAtOnce(env, s, t, candidate, fault, keyN, fails);
    var hour := HourOf(s.clock);
    var o := Describe(s.durable, s.cache, s.policy.revision, t.epoch, hour, candidate, fault);
    DescribeSpares(s.durable, s.cache, s.policy.revision, t.epoch, hour, candidate, fault);
    PruneKeeps(env, s.durable.spent, hour, hour, log);
    if |more| < 3 {
      AppendOthers(env, s'.durable.spent, hour, log, more);
    } else {
      AppendOthers(env, o.durable.spent, hour, log, more[..2]);
      AppendRedeemed(env, o.durable.spent, hour, log + more[..2], more[2]);
      assert log + more == log + more[..2] + [more[2]];
    }
  }

  lemma ForwardStep(env: Env, s: State, log: seq<Event>, a: Action)
    requires ForwardInv(env, s, log) && !a.JumpBack?
    ensures
      var (s', more) := Step(env, s, a, |log|);
      ForwardInv(env, s', log + more)
  {
    hide HourOf, DoDescriptor, DoSpend, DoRedeemAtOnce, DoLocal, DoOffer, DoTakeNonce, DoAccess, DoCall, DoTakeAnswer, DoCharge, DoEnter, DoLock;
    var (s', more) := Step(env, s, a, |log|);
    ClockStep(env, s, a, |log|);
    HourMonotone(s.clock, s'.clock);
    if a.RunDescriptor? {
      ForwardDescriptor(env, s, log, a.id, a.candidate, a.fault);
    } else if a.Spend? {
      ForwardSpend(env, s, log, a.id, a.keyN, a.fails);
    } else if a.RedeemAtOnce? {
      ForwardAtOnce(env, s, log, a.ticket, a.candidate, a.fault, a.keyN, a.fails);
    } else {
      OtherStep(env, s, a, |log|);
      AppendOthers(env, s.durable.spent, HourOf(s.clock), log, more);
    }
  }

  lemma {:induction false} ForwardRun(env: Env, policy: Policy, clock: nat, actions: seq<Action>)
    requires Forward(actions)
    ensures
      var (s, log) := Run(env, Initial(policy, clock), actions);
      ForwardInv(env, s, log)
  {
    if actions != [] {
      var before := actions[..|actions| - 1];
      ForwardRun(env, policy, clock, before);
      var (s, log) := Run(env, Initial(policy, clock), before);
      ForwardStep(env, s, log, actions[|actions| - 1]);
    }
  }

  // ------------------------------------- any clock, redemptions as whole steps

  ghost predicate NoDuplicate(log: seq<Event>)
  {
    forall i, j :: 0 <= i < j < |log| ==> !SameTicket(log[i], log[j])
  }

  ghost predicate WholeInv(env: Env, s: State, log: seq<Event>)
  {
    MarkedUntil(env, s.durable.spent, s.durable.latest, log) && NoDuplicate(log)
  }

  lemma WholeDescriptor(env: Env, s: State, log: seq<Event>, id: nat, candidate: Key, fault: Fault)
    requires WholeInv(env, s, log)
    ensures
      var (s', more) := DoDescriptor(env, s, id, candidate, fault);
      WholeInv(env, s', log + more)
  {
    hide Describe, AfterDescriptor, DescriptorFor;
    if Describing(s, id) {
      DescribeSpares(s.durable, s.cache, s.policy.revision, WantedEpoch(s.handlers[id]), s.lock.value.hour, candidate, fault);
    }
  }

  /** A key is only returned once the mark equals the hour read, and only for an unexpired epoch. */
  lemma DescribedIsLive(d: Durable, cache: map<int, Key>, revision: string, epoch: int, hour: int, candidate: Key, fault: Fault)
    ensures
      var o := Describe(d, cache, revision, epoch, hour, candidate, fault);
      o.key.Some? ==> o.durable.latest == hour && hour - LIFETIME < epoch <= hour
  {
  }

  lemma WholeAtOnce(env: Env, s: State, log: seq<Event>, t: Ticket, candidate: Key, fault: Fault, keyN: nat, fails: bool)
    requires WholeInv(env, s, log)
    ensures
      var (s', more) := DoRedeemAtOnce(env, s, t, candidate, fault, keyN, fails);
      WholeInv(env, s', log + more)
  {
    hide HourOf, Describe, DescriptorFor, TicketValid;
    var (s', more) := DoRedeemAtOnce(env, s, t, candidate, fault, keyN, fails);
    var hour := HourOf(s.clock);
    DescribeSpares(s.durable, s.cache, s.policy.revision, t.epoch, hour, candidate, fault);
    DescribedIsLive(s.durable, s.cache, s.policy.revision, t.epoch, hour, candidate, fault);
    if |more| == 3 {
      assert forall i :: 0 <= i < |log| ==> !SameTicket(log[i], more[2]);
    }
  }

  lemma WholeStep(env: Env, s: State, log: seq<Event>, a: Action)
    requires WholeInv(env, s, log) && !a.Spend?
    ensures
      var (s', more) := Step(env, s, a, |log|);
      WholeInv(env, s', log + more)
  {
    hide HourOf, DoDescriptor, DoSpend, DoRedeemAtOnce, DoLocal, DoOffer, DoTakeNonce, DoAccess, DoCall, DoTakeAnswer, DoCharge, DoEnter, DoLock;
    if a.RunDescriptor? {
      WholeDescriptor(env, s, log, a.id, a.candidate, a.fault);
    } else if a.RedeemAtOnce? {
      WholeAtOnce(env, s, log, a.ticket, a.candidate, a.fault, a.keyN, a.fails);
    } else {
      OtherStep(env, s, a, |log|);
    }
  }

  lemma {:induction false} WholeRun(env: Env, policy: Policy, clock: nat, actions: seq<Action>)
    requires Whole(actions)
    ensures
      var (s, log) := Run(env, Initial(policy, clock), actions);
      WholeInv(env, s, log)
  {
    if actions != [] {
      var before := actions[..|actions| - 1];
      WholeRun(env, policy, clock, before);
      var (s, log) := Run(env, Initial(policy, clock), before);
      WholeStep(env, s, log, actions[|actions| - 1]);
    }
  }

  // ------------------------------------------------------------ main results

  /** With a clock that never goes back, any interleaving of handlers and any crashes: of two
      redemptions of one ticket, the later one committed in or after the hour the ticket expires. */
  lemma {:induction false} AtMostOnceBeforeExpiry(env: Env, policy: Policy, clock: nat, actions: seq<Action>, i: nat, j: nat)
    requires Forward(actions)
    requires
      var log := Run(env, Initial(policy, clock), actions).1;
      i < j < |log| && SameTicket(log[i], log[j])
    ensures
      var log := Run(env, Initial(policy, clock), actions).1;
      log[j].hour >= log[j].epoch + LIFETIME
  {
    ForwardRun(env, policy, clock, actions);
  }

  /** With redemptions as whole steps, no ticket is ever redeemed twice, wherever the clock jumps. */
  lemma {:induction false} NeverTwiceWhenWhole(env: Env, policy: Policy, clock: nat, actions: seq<Action>, i: nat, j: nat)
    requires Whole(actions)
    requires i < j < |Run(env, Initial(policy, clock), actions).1|
    ensures
      var log := Run(env, Initial(policy, clock), actions).1;
      !SameTicket(log[i], log[j])
  {
    WholeRun(env, policy, clock, actions);
  }

  /** Exactly when a second redemption of a ticket goes through: the hour of its transaction has
      reached the expiry hour (and the bucket does not report itself full). */
  lemma {:induction false} DuplicateCommitsIffExpired(env: Env, policy: Policy, clock: nat, actions: seq<Action>, i: nat, id: nat, keyN: nat)
    requires Forward(actions)
    requires
      var (s, log) := Run(env, Initial(policy, clock), actions);
      && i < |log| && log[i].Redeemed? && At(s, id) && s.handlers[id].Accepted? && keyN >= LiveCount(s.durable, HourOf(s.clock))
      && s.handlers[id].ticket.epoch == log[i].epoch && s.handlers[id].ticket.message == log[i].message
    ensures
      var (s, log) := Run(env, Initial(policy, clock), actions);
      var more := Step(env, s, Spend(id, keyN, false), |log|).1;
      more != [] <==> keyN < 100_000 && HourOf(s.clock) >= log[i].epoch + LIFETIME
  {
    ForwardRun(env, policy, clock, actions);
    var (s, log) := Run(env, Initial(policy, clock), actions);
    SpendCommitsIff(env, s, id, keyN, |log|);
  }
}
