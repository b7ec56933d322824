/**
 When a quota counter starts again. The counter is exactly what was charged since a pruner last reached
 it, for every run and every clock; and a clock set back after a redemption has pruned it lets an account
 have more than its 24.
 */
module QuotaReset {
  import opened Clock
  import opened Options
  import opened TicketStore
  import opened TicketProtocol
  import opened TicketRedemption
  import opened TicketCompleteness
  import opened TicketQuota
  import opened Duplicates
  import opened Sums
  import IssuanceCompleteness
  import Membership

  // ---------------------------------------------------------- what the counter says

  /** Until a pruner that reached the record's expiry hour has committed, the counter is what it was plus
      what has been charged since. */
  ghost predicate CounterInv(mark: int, before: nat, s: State, since: seq<Event>, record: RecordKey)
  {
    && mark <= s.durable.latest
    && (!PrunedSince(mark, s, since, record.epoch) ==> QuotaOf(s.durable, record) == before + SeqSum(since, ChargedWeight(record)))
  }

  /** What a step does to a counter no pruner has reached. */
  lemma CounterMoves(env: Env, s: State, a: Action, serial: nat, record: RecordKey)
    ensures
      var (s', more) := Step(env, s, a, serial);
      && s.durable.latest <= s'.durable.latest
      && ((s'.durable.latest > s.durable.latest && s'.durable.latest >= record.epoch + LIFETIME) || Late(more, record.epoch) ||
          QuotaOf(s'.durable, record) == QuotaOf(s.durable, record) + SeqSum(more, ChargedWeight(record)))
  {
    hide DoDescriptor, DoRedeemAtOnce, DoSpend, DoLocal, DoOffer, DoTakeNonce, DoAccess, DoCall, DoTakeAnswer, DoCharge, DoEnter, DoAbandon, DoLock,
         QuotaOf, Late, SeqSum;
    if a.RunDescriptor? {
      DescriptorMoves(env, s, a.id, a.candidate, a.fault, record);
    } else if a.RedeemAtOnce? {
      AtOnceMoves(env, s, a.ticket, a.candidate, a.fault, a.keyN, a.fails, record);
    } else if a.Spend? {
      SpendMoves(env, s, a.id, a.keyN, a.fails, record);
    } else if a.Charge? {
      ChargeMoves(env, s, a.id, a.keyN, a.fails, record);
    } else {
      OtherMoves(env, s, a, serial, record);
    }
  }

  lemma NothingCharged(more: seq<Event>, record: RecordKey)
    requires forall i :: 0 <= i < |more| ==> !more[i].QuotaCharged?
    ensures SeqSum(more, ChargedWeight(record)) == 0
  {
    SeqSumZero(more, ChargedWeight(record));
  }

  /** descriptor leaves a counter alone unless it moves the mark to its expiry hour or past it. */
  lemma DescriptorMoves(env: Env, s: State, id: nat, candidate: Key, fault: Fault, record: RecordKey)
    ensures
      var (s', more) := DoDescriptor(env, s, id, candidate, fault);
      && s.durable.latest <= s'.durable.latest
      && ((s'.durable.latest > s.durable.latest && s'.durable.latest >= record.epoch + LIFETIME) ||
          QuotaOf(s'.durable, record) == QuotaOf(s.durable, record) + SeqSum(more, ChargedWeight(record)))
  {
    hide Describe, DescriptorFor, AfterDescriptor, LiveRecords, SeqSum;
    NothingCharged(DoDescriptor(env, s, id, candidate, fault).1, record);
    if Describing(s, id) {
      DescribeSpares(s.durable, s.cache, s.policy.revision, WantedEpoch(s.handlers[id]), s.lock.value.hour, candidate, fault);
      PruneSparesQuota(s.durable.quota, s.lock.value.hour, record);
    }
  }

  lemma AtOnceMoves(env: Env, s: State, t: Ticket, candidate: Key, fault: Fault, keyN: nat, fails: bool, record: RecordKey)
    ensures
      var (s', more) := DoRedeemAtOnce(env, s, t, candidate, fault, keyN, fails);
      && s.durable.latest <= s'.durable.latest
      && ((s'.durable.latest > s.durable.latest && s'.durable.latest >= record.epoch + LIFETIME) || Late(more, record.epoch) ||
          QuotaOf(s'.durable, record) == QuotaOf(s.durable, record) + SeqSum(more, ChargedWeight(record)))
  {
    hide HourOf, Describe, DescriptorFor, TicketValid, LiveRecords, SeqSum, LiveCount, Late;
    var (s', more) := DoRedeemAtOnce(env, s, t, candidate, fault, keyN, fails);
    NothingCharged(more, record);
    DescribeSpares(s.durable, s.cache, s.policy.revision, t.epoch, HourOf(s.clock), candidate, fault);
    var o := Describe(s.durable, s.cache, s.policy.revision, t.epoch, HourOf(s.clock), candidate, fault);
    PruneSparesQuota(s.durable.quota, HourOf(s.clock), record);
    PruneSparesQuota(o.durable.quota, HourOf(s.clock), record);
    if |more| == 3 { IsLate(more, record.epoch); }
  }

  lemma SpendMoves(env: Env, s: State, id: nat, keyN: nat, fails: bool, record: RecordKey)
    ensures
      var (s', more) := DoSpend(env, s, id, keyN, fails);
      && s'.durable.latest == s.durable.latest
      && (Late(more, record.epoch) || QuotaOf(s'.durable, record) == QuotaOf(s.durable, record) + SeqSum(more, ChargedWeight(record)))
  {
    hide HourOf, LiveRecords, SeqSum, LiveCount, Late;
    var (s', more) := DoSpend(env, s, id, keyN, fails);
    NothingCharged(more, record);
    PruneSparesQuota(s.durable.quota, HourOf(s.clock), record);
    if more != [] { IsLate(more, record.epoch); }
  }

  lemma ChargeMoves(env: Env, s: State, id: nat, keyN: nat, fails: bool, record: RecordKey)
    ensures
      var (s', more) := DoCharge(env, s, id, keyN, fails);
      && s'.durable.latest == s.durable.latest
      && QuotaOf(s'.durable, record) == QuotaOf(s.durable, record) + SeqSum(more, ChargedWeight(record))
  {
    hide HourOf, SeqSum;
    var more := DoCharge(env, s, id, keyN, fails).1;
    if more == [] { NothingCharged(more, record); } else { SeqSumOne(more[0], ChargedWeight(record)); }
  }

  lemma OtherMoves(env: Env, s: State, a: Action, serial: nat, record: RecordKey)
    requires !a.RunDescriptor? && !a.RedeemAtOnce? && !a.Spend? && !a.Charge?
    ensures
      var (s', more) := Step(env, s, a, serial);
      s'.durable == s.durable && SeqSum(more, ChargedWeight(record)) == 0
  {
    hide LocalTurn, Settle, AddChallenge, HourOf, DoDescriptor, DoRedeemAtOnce, DoSpend, DoCharge, DoCall, DoTakeAnswer, SeqSum, Membership.Step;
    NothingCharged(Step(env, s, a, serial).1, record);
  }

  /** In every run, from any point on, whatever the clock does. */
  lemma {:induction false} CounterRun(env: Env, c: Point, actions: seq<Action>, record: RecordKey)
    ensures CounterInv(c.0.durable.latest, QuotaOf(c.0.durable, record), RunOn(env, c, actions).0, Since(env, c, actions), record)
  {
    if actions == [] {
      assert Since(env, c, actions) == [];
    } else {
      hide Step, QuotaOf, PrunedSince, Late, SeqSum;
      var rest, a := actions[..|actions| - 1], actions[|actions| - 1];
      var (s, log) := RunOn(env, c, rest);
      var (s', more) := Step(env, s, a, |log|);
      LogExtends(env, c, rest);
      assert Since(env, c, actions) == Since(env, c, rest) + more;
      CounterRun(env, c, rest, record);
      CounterMoves(env, s, a, |log|, record);
      SeqSumAppend(Since(env, c, rest), more, ChargedWeight(record));
      PrunedStays(c.0.durable.latest, s, s', Since(env, c, rest), more, record.epoch);
    }
  }

  lemma PrunedStays(mark: int, s: State, s': State, since: seq<Event>, more: seq<Event>, epoch: int)
    requires mark <= s.durable.latest <= s'.durable.latest
    ensures PrunedSince(mark, s', since + more, epoch) <==>
            PrunedSince(mark, s, since, epoch) || Late(more, epoch) ||
            (s'.durable.latest > s.durable.latest && s'.durable.latest >= epoch + LIFETIME)
  {
    PrunedGrows(mark, s', s', since, more, epoch);
  }

  /** Such a pruner leaves no counter. */
  lemma PrunerResets(env: Env, s: State, a: Action, serial: nat, record: RecordKey)
    requires
      var (s', more) := Step(env, s, a, serial);
      (s'.durable.latest > s.durable.latest && s'.durable.latest >= record.epoch + LIFETIME) || Late(more, record.epoch)
    ensures QuotaOf(Step(env, s, a, serial).0.durable, record) == 0
  {
    hide DoDescriptor, DoRedeemAtOnce, DoSpend, DoLocal, DoOffer, DoTakeNonce, DoAccess, DoCall, DoTakeAnswer, DoCharge, DoEnter, DoAbandon, DoLock;
    if a.RunDescriptor? {
      DescriptorResets(env, s, a.id, a.candidate, a.fault, record);
    } else if a.RedeemAtOnce? {
      RedemptionResets(env, s, a.ticket, a.candidate, a.fault, a.keyN, a.fails, record);
    } else if a.Spend? {
      SpendingResets(env, s, a.id, a.keyN, a.fails, record);
    } else {
      OtherStep(env, s, a, serial);
    }
  }

  lemma DescriptorResets(env: Env, s: State, id: nat, candidate: Key, fault: Fault, record: RecordKey)
    ensures
      var (s', more) := DoDescriptor(env, s, id, candidate, fault);
      && !Late(more, record.epoch)
      && (s'.durable.latest > s.durable.latest && s'.durable.latest >= record.epoch + LIFETIME ==> QuotaOf(s'.durable, record) == 0)
  {
    hide Describe, DescriptorFor, AfterDescriptor;
    if Describing(s, id) {
      DescribeSpares(s.durable, s.cache, s.policy.revision, WantedEpoch(s.handlers[id]), s.lock.value.hour, candidate, fault);
    }
  }

  lemma SpendingResets(env: Env, s: State, id: nat, keyN: nat, fails: bool, record: RecordKey)
    ensures
      var (s', more) := DoSpend(env, s, id, keyN, fails);
      s'.durable.latest == s.durable.latest && (Late(more, record.epoch) ==> QuotaOf(s'.durable, record) == 0)
  {
    hide HourOf, LiveCount;
  }

  lemma RedemptionResets(env: Env, s: State, t: Ticket, candidate: Key, fault: Fault, keyN: nat, fails: bool, record: RecordKey)
    ensures
      var (s', more) := DoRedeemAtOnce(env, s, t, candidate, fault, keyN, fails);
      (s'.durable.latest > s.durable.latest && s'.durable.latest >= record.epoch + LIFETIME) || Late(more, record.epoch) ==>
        QuotaOf(s'.durable, record) == 0
  {
    hide HourOf, Describe, LiveCount, DescriptorFor, TicketValid;
    DescribeSpares(s.durable, s.cache, s.policy.revision, t.epoch, HourOf(s.clock), candidate, fault);
  }

  /** When a batch is granted, in every run and whatever the clock does. From the start or the last such
      pruner on, with any steps since: its charge commits if and only if what was charged to the account's
      record since, with the batch, is within 24, and the account has a row or the bucket does not report
      itself full. */
  lemma {:induction false} ChargeSinceCommitsIff(env: Env, c: Point, after: seq<Action>, id: nat, keyN: nat)
    requires
      var s := RunOn(env, c, after).0;
      && At(s, id) && s.handlers[id].Approved? && s.handlers[id].req.AskIssue? && keyN >= |s.durable.quota|
      && var record := QuotaRecord(env, s.handlers[id].d, s.handlers[id].req.proof);
         QuotaOf(c.0.durable, record) == 0 && !PrunedSince(c.0.durable.latest, s, Since(env, c, after), record.epoch)
    ensures
      var (s, log) := RunOn(env, c, after);
      var p := s.handlers[id];
      var record := QuotaRecord(env, p.d, p.req.proof);
      Step(env, s, Charge(id, keyN, false), |log|).1 != [] <==>
        SeqSum(Since(env, c, after), ChargedWeight(record)) + |p.req.blinded| <= 24 && (keyN < 100_000 || record in s.durable.quota)
  {
    hide RunOn, Step, PrunedSince, SeqSum, Since;
    var (s, log) := RunOn(env, c, after);
    CounterRun(env, c, after, QuotaRecord(env, s.handlers[id].d, s.handlers[id].req.proof));
    IssuanceCompleteness.ChargeCommitsIff(env, s, id, keyN, |log|);
  }

  // ------------------------------------------------------------ the runs it happens in

  /** A redemption at a later hour deletes every counter that has expired by then. */
  lemma SpendResets(env: Env, s: State, id: nat, keyN: nat, serial: nat)
    requires At(s, id) && s.handlers[id].Accepted? && LiveCount(s.durable, HourOf(s.clock)) <= keyN < BUCKET_CAP
    requires Marker(env, s.handlers[id].ticket) !in s.durable.spent
    ensures
      var p := s.handlers[id];
      var (s', more) := Step(env, s, Spend(id, keyN, false), serial);
      && more == [Redeemed(p.ticket.epoch, p.d.key, p.ticket.message, HourOf(s.clock))]
      && s' == s.(handlers := s'.handlers, durable := s'.durable)
      && s'.durable.latest == s.durable.latest && s'.durable.quota == LiveRecords(s.durable.quota, HourOf(s.clock))
      && forall i :: i != id ==> (At(s', i) <==> At(s, i)) && (At(s, i) ==> s'.handlers[i] == s.handlers[i])
  {
    hide HourOf, LiveCount, LiveRecords;
    SpendCommitsIff(env, s, id, keyN, serial);
  }

  /** The clock is ahead for a moment, in which someone redeems a ticket. */
  function Moment(id: nat, n: nat, ns: nat): seq<Action> { [Advance(ns)] + [Spend(id, n, false)] + [JumpBack(ns)] }

  lemma {:induction false} MomentResets(env: Env, c: Point, id: nat, ns: nat)
    requires At(c.0, id) && c.0.handlers[id].Accepted? && |c.0.durable.spent| < BUCKET_CAP
    requires Marker(env, c.0.handlers[id].ticket) !in c.0.durable.spent
    ensures
      var (s, log) := RunOn(env, c, Moment(id, |c.0.durable.spent|, ns));
      && s == c.0.(handlers := s.handlers, durable := s.durable) && |log| == |c.1| + 1 && log[..|c.1|] == c.1 && log[|c.1|].Redeemed?
      && s.durable.latest == c.0.durable.latest && s.durable.quota == LiveRecords(c.0.durable.quota, HourOf(c.0.clock + ns))
      && forall i :: i != id ==> (At(s, i) <==> At(c.0, i)) && (At(c.0, i) ==> s.handlers[i] == c.0.handlers[i])
  {
    hide RunOn, HourOf, LiveRecords, LiveCount, DoSpend;
    var n := |c.0.durable.spent|;
    RunOnNothing(env, c);
    RunOnStep(env, c, [], Advance(ns));
    assert [] + [Advance(ns)] == [Advance(ns)];
    var (s1, log1) := RunOn(env, c, [Advance(ns)]);
    assert log1 == c.1 && s1 == c.0.(clock := c.0.clock + ns);
    assert LiveCount(s1.durable, HourOf(s1.clock)) <= n by { LiveIsFewer(s1.durable.spent, HourOf(s1.clock)); CountIsLive(s1.durable, HourOf(s1.clock)); }
    SpendResets(env, s1, id, n, |log1|);
    RunOnStep(env, c, [Advance(ns)], Spend(id, n, false));
    var (s2, log2) := RunOn(env, c, [Advance(ns)] + [Spend(id, n, false)]);
    RunOnStep(env, c, [Advance(ns)] + [Spend(id, n, false)], JumpBack(ns));
    BackStep(env, s2, ns, |log2|);
    assert log2 + [] == log2;
  }

  lemma CountIsLive(d: Durable, hour: int)
    ensures LiveCount(d, hour) == |LiveRecords(d.spent, hour)|
  {
  }

  /** An approved batch is charged and signed. */
  function Paying(id: nat, n: nat, candidate: Key): seq<Action>
  {
    [Charge(id, n, false)] + [Lock(id)] + [RunDescriptor(id, candidate, NoFault)] + [Sign(id)]
  }

  /** It is, if its account has no counter and the key of its epoch is at hand. */
  lemma {:induction false} PaidIsSigned(env: Env, c: Point, id: nat, n: nat, candidate: Key)
    requires At(c.0, id) && c.0.handlers[id].Approved? && c.0.handlers[id].req.AskIssue? && |c.0.durable.quota| <= n < BUCKET_CAP
    requires c.0.lock.None? && candidate !in c.0.minted
    requires
      var p := c.0.handlers[id];
      && QuotaRecord(env, p.d, p.req.proof) !in c.0.durable.quota && |p.req.blinded| <= QUOTA && p.d.epoch in c.0.cache
      && p.d.epoch <= HourOf(c.0.clock) < p.d.epoch + LIFETIME && c.0.durable.latest <= HourOf(c.0.clock)
    ensures
      var p := c.0.handlers[id];
      var (s, log) := RunOn(env, c, Paying(id, n, candidate));
      && |log| == |c.1| + 3 && log[..|c.1|] == c.1 && log[|c.1|].QuotaCharged? && log[|c.1| + 1].KeyReturned?
      && log[|c.1| + 2].Issued? && log[|c.1| + 2].epoch == p.d.epoch && log[|c.1| + 2].proof == p.req.proof && log[|c.1| + 2].n == |p.req.blinded|
  {
    hide RunOn, HourOf, Step, QuotaOf, QuotaRecord, Describe, DescriptorFor;
    var p := c.0.handlers[id];
    var (one, two) := ([Charge(id, n, false)], [Charge(id, n, false)] + [Lock(id)]);
    var three := two + [RunDescriptor(id, candidate, NoFault)];
    RunOnNothing(env, c);
    assert [] + one == one;
    RunOnStep(env, c, [], Charge(id, n, false));
    ChargedAnew(env, c.0, id, n, |c.1|);
    var (s1, log1) := RunOn(env, c, one);
    RunOnStep(env, c, one, Lock(id));
    LockedNow(env, s1, id, |log1|);
    var (s2, log2) := RunOn(env, c, two);
    RunOnStep(env, c, two, RunDescriptor(id, candidate, NoFault));
    KeyAgain(env, s2, id, candidate, |log2|);
    var (s3, log3) := RunOn(env, c, three);
    RunOnStep(env, c, three, Sign(id));
    IssuanceCompleteness.SignStep(env, s3, id, |log3|);
  }

  lemma ChargedAnew(env: Env, s: State, id: nat, n: nat, serial: nat)
    requires At(s, id) && s.handlers[id].Approved? && s.handlers[id].req.AskIssue? && |s.durable.quota| <= n < BUCKET_CAP
    requires QuotaRecord(env, s.handlers[id].d, s.handlers[id].req.proof) !in s.durable.quota && |s.handlers[id].req.blinded| <= QUOTA
    ensures
      var p := s.handlers[id];
      var (s', more) := Step(env, s, Charge(id, n, false), serial);
      && |more| == 1 && more[0].QuotaCharged? && s' == s.(durable := s'.durable, handlers := s'.handlers) && s'.durable.latest == s.durable.latest
      && At(s', id) && s'.handlers[id] == Charged(p.req, p.d, p.serial, p.checked, HourOf(s.clock))
  {
    hide HourOf;
  }

  lemma LockedNow(env: Env, s: State, id: nat, serial: nat)
    requires At(s, id) && s.handlers[id].Charged? && s.lock.None?
    ensures Step(env, s, Lock(id), serial) == (s.(lock := Some(Holder(id, HourOf(s.clock)))), [])
  {
    hide HourOf;
  }

  lemma KeyAgain(env: Env, s: State, id: nat, candidate: Key, serial: nat)
    requires At(s, id) && s.handlers[id].Charged? && candidate !in s.minted && s.handlers[id].d.epoch in s.cache
    requires s.lock.Some? && s.lock.value.id == id && s.durable.latest <= s.lock.value.hour
    requires s.handlers[id].d.epoch <= s.lock.value.hour < s.handlers[id].d.epoch + LIFETIME
    ensures
      var p := s.handlers[id];
      var (s', more) := Step(env, s, RunDescriptor(id, candidate, NoFault), serial);
      && |more| == 1 && more[0].KeyReturned? && At(s', id)
      && s'.handlers[id] == Signing(p.req, p.d, p.serial, p.checked, p.hour, s.cache[p.d.epoch])
  {
    hide LiveCache, LiveRecords, LiveKeys;
  }

  /** From any state in which an approved batch waits for its charge and someone has a ticket to redeem, with
      the key of the batch's epoch at hand: the clock is ahead for a moment, in which the ticket is redeemed at
      or past the hour the epoch's records expire; it is set back, and the batch is signed, whatever had been
      charged and issued to the account. */
  lemma {:induction false} SetBackIssuesMore(env: Env, c: Point, id: nat, other: nat, candidate: Key, ns: nat)
    requires id != other && At(c.0, other) && c.0.handlers[other].Accepted? && |c.0.durable.spent| < BUCKET_CAP
    requires Marker(env, c.0.handlers[other].ticket) !in c.0.durable.spent
    requires At(c.0, id) && c.0.handlers[id].Approved? && c.0.handlers[id].req.AskIssue? && |c.0.durable.quota| < BUCKET_CAP
    requires c.0.lock.None? && candidate !in c.0.minted && |c.0.handlers[id].req.blinded| <= QUOTA
    requires
      var epoch := c.0.handlers[id].d.epoch;
      && epoch in c.0.cache && c.0.durable.latest <= HourOf(c.0.clock)
      && epoch <= HourOf(c.0.clock) < epoch + LIFETIME <= HourOf(c.0.clock + ns)
    ensures
      var p := c.0.handlers[id];
      var log := RunOn(env, c, Moment(other, |c.0.durable.spent|, ns) + Paying(id, |c.0.durable.quota|, candidate)).1;
      SeqSum(log, AccountWeight(p.d.epoch, p.req.proof.address)) ==
      SeqSum(c.1, AccountWeight(p.d.epoch, p.req.proof.address)) + |p.req.blinded|
  {
    hide RunOn, HourOf, LiveRecords, SeqSum, Moment, Paying;
    var p, w := c.0.handlers[id], AccountWeight(c.0.handlers[id].d.epoch, c.0.handlers[id].req.proof.address);
    var moment := Moment(other, |c.0.durable.spent|, ns);
    MomentResets(env, c, other, ns);
    var c1 := RunOn(env, c, moment);
    PrunedAway(c.0.durable.quota, HourOf(c.0.clock + ns), QuotaRecord(env, p.d, p.req.proof));
    LiveIsFewer(c.0.durable.quota, HourOf(c.0.clock + ns));
    PaidIsSigned(env, c1, id, |c.0.durable.quota|, candidate);
    RunOnMore(env, c, moment, Paying(id, |c.0.durable.quota|, candidate));
    var log := RunOn(env, c1, Paying(id, |c.0.durable.quota|, candidate)).1;
    FourEvents(c.1, log, w);
  }

  lemma FourEvents(log: seq<Event>, log': seq<Event>, w: Event -> nat)
    requires |log'| == |log| + 4 && log'[..|log|] == log
    requires w(log'[|log|]) == w(log'[|log| + 1]) == w(log'[|log| + 2]) == 0
    ensures SeqSum(log', w) == SeqSum(log, w) + w(log'[|log| + 3])
  {
    var k := |log|;
    assert log' == log + [log'[k]] + [log'[k + 1]] + [log'[k + 2]] + [log'[k + 3]];
    SeqSumAppend(log, [log'[k]], w);
    SeqSumAppend(log + [log'[k]], [log'[k + 1]], w);
    SeqSumAppend(log + [log'[k]] + [log'[k + 1]], [log'[k + 2]], w);
    SeqSumAppend(log + [log'[k]] + [log'[k + 1]] + [log'[k + 2]], [log'[k + 3]], w);
    SeqSumOne(log'[k], w);
    SeqSumOne(log'[k + 1], w);
    SeqSumOne(log'[k + 2], w);
    SeqSumOne(log'[k + 3], w);
  }
}
