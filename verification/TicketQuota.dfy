/**
 The hourly quota: quota is charged durably before a key is fetched again and used. What an account is
 issued therefore stays within what it was charged, and within 24 as long as its counter cannot be
 deleted and the key of the epoch still be had afterwards.
 */
module TicketQuota {
  import opened Clock
  import opened Options
  import opened TicketStore
  import opened TicketProtocol
  import opened TicketRedemption
  import opened Sums
  import Membership

  // -------------------------------------------------------------- quantities

  /** Tickets signed in an epoch for the accounts behind one quota record. */
  function IssuedWeight(env: Env, record: RecordKey): Event -> nat
  {
    (e: Event) =>
      if e.Issued? && e.epoch == record.epoch && env.accountHash(e.proof.address) == record.id then e.n else 0
  }

  /** Tickets charged to a quota record. */
  function ChargedWeight(record: RecordKey): Event -> nat
  {
    (e: Event) => if e.QuotaCharged? && e.record == record then e.n else 0
  }

  predicate PaidFor(env: Env, p: Phase, record: RecordKey)
  {
    (p.Charged? || p.Signing?) && p.req.AskIssue? && QuotaRecord(env, p.d, p.req.proof) == record
  }

  /** Tickets a handler has paid for and not yet had signed. */
  function PaidWeight(env: Env, record: RecordKey): Phase -> nat
  {
    (p: Phase) => if PaidFor(env, p, record) then |p.req.blinded| else 0
  }

  /** Those for which it holds a key again. */
  function HeldWeight(env: Env, record: RecordKey): Phase -> nat
  {
    (p: Phase) => if p.Signing? && PaidFor(env, p, record) then |p.req.blinded| else 0
  }

  /** What the lock holder has paid for and may yet get a key for, by the hour it read. */
  ghost function Owed(env: Env, s: State, record: RecordKey): nat
  {
    if s.lock.Some? && At(s, s.lock.value.id) && s.handlers[s.lock.value.id].Charged?
       && s.durable.latest <= s.lock.value.hour < record.epoch + LIFETIME
    then PaidWeight(env, record)(s.handlers[s.lock.value.id]) else 0
  }

  /** Keys held and keys owed are for tickets paid for. */
  lemma OwedIsPaid(env: Env, s: State, record: RecordKey)
    ensures MapSum(s.handlers, HeldWeight(env, record)) + Owed(env, s, record) <= MapSum(s.handlers, PaidWeight(env, record))
  {
    if Owed(env, s, record) > 0 {
      var id := s.lock.value.id;
      MapSumRemove(s.handlers, HeldWeight(env, record), id);
      MapSumRemove(s.handlers, PaidWeight(env, record), id);
      MapSumMonotone(s.handlers - {id}, HeldWeight(env, record), PaidWeight(env, record));
    } else {
      MapSumMonotone(s.handlers, HeldWeight(env, record), PaidWeight(env, record));
    }
  }

  // --------------------------------------------------------------- invariants

  /** A redemption has committed at or past the hour the epoch's records expire. */
  ghost predicate Late(log: seq<Event>, epoch: int)
  {
    exists i :: 0 <= i < |log| && log[i].Redeemed? && log[i].hour >= epoch + LIFETIME
  }

  /** No pruner has yet reached the epoch's records. */
  ghost predicate Intact(s: State, log: seq<Event>, epoch: int)
  {
    s.durable.latest < epoch + LIFETIME && !Late(log, epoch)
  }

  /** A redemption has deleted the epoch's records, and neither the high-water mark nor the clock says
      that the epoch is over. */
  ghost predicate Reopened(s: State, log: seq<Event>, epoch: int)
  {
    s.durable.latest < epoch + LIFETIME && Late(log, epoch) && HourOf(s.clock) < epoch + LIFETIME
  }

  /** The lock holder is about to run descriptor. */
  ghost predicate HolderInv(s: State)
  {
    s.lock.Some? ==> At(s, s.lock.value.id) && CallsDescriptor(s.handlers[s.lock.value.id])
  }

  /** Issued and still to be signed is within what was charged; that is the counter, while it is intact;
      and, if the epoch stays shut, what has been signed and what still may be is within the quota. */
  ghost predicate QuotaInv(env: Env, s: State, log: seq<Event>, record: RecordKey, shut: bool)
  {
    var (issued, charged) := (SeqSum(log, IssuedWeight(env, record)), SeqSum(log, ChargedWeight(record)));
    && QuotaOf(s.durable, record) <= QUOTA
    && issued + MapSum(s.handlers, PaidWeight(env, record)) <= charged
    && (Intact(s, log, record.epoch) ==> QuotaOf(s.durable, record) == charged)
    && (shut ==> issued + MapSum(s.handlers, HeldWeight(env, record)) + Owed(env, s, record) <= QUOTA)
  }

  // ------------------------------------------------------------- the lock holder

  lemma HolderSettles(s: State, id: nat, next: Option<Phase>)
    requires HolderInv(s) && !(s.lock.Some? && s.lock.value.id == id)
    ensures HolderInv(Settle(s, id, next))
  {
  }

  lemma HolderLocal(env: Env, s: State, id: nat, a: Action)
    requires HolderInv(s)
    ensures HolderInv(DoLocal(env, s, id, a).0)
  {
    hide LocalTurn, Settle;
    if At(s, id) {
      LocalMoves(env, s.policy, Now(s), s.handlers[id], a);
      var turn := LocalTurn(env, s.policy, Now(s), s.handlers[id], a);
      if turn.Some? { HolderSettles(s, id, turn.value.next); }
    }
  }

  lemma HolderStore(env: Env, s: State, id: nat, keyN: nat, fails: bool)
    requires HolderInv(s)
    ensures HolderInv(DoCharge(env, s, id, keyN, fails).0) && HolderInv(DoSpend(env, s, id, keyN, fails).0)
  {
    hide HourOf, LiveCount, ChargeQuota, CommitSpent;
  }

  lemma HolderAnswer(s: State, id: nat)
    requires HolderInv(s)
    ensures HolderInv(DoTakeAnswer(s, id))
  {
    hide FirstAnswer, Admit, Membership.Step;
  }

  lemma HolderStep(env: Env, s: State, a: Action, serial: nat)
    requires HolderInv(s)
    ensures HolderInv(Step(env, s, a, serial).0)
  {
    hide HourOf, DoLocal, AddChallenge, Describe, RedeemWith, LiveCount, DoCharge, DoSpend, DescriptorFor, AfterDescriptor, DoTakeAnswer,
         DoAccess, DoCall;
    if Local(a) {
      HolderLocal(env, s, a.id, a);
    } else if a.Charge? || a.Spend? {
      HolderStore(env, s, a.id, a.keyN, a.fails);
    } else if a.TakeAnswer? {
      HolderAnswer(s, a.id);
    }
  }

  // -------------------------------------------------------------- quota steps

  lemma LateGrows(log: seq<Event>, more: seq<Event>, epoch: int)
    ensures Late(log + more, epoch) <==> Late(log, epoch) || Late(more, epoch)
  {
    forall i | 0 <= i < |log|
      ensures (log + more)[i] == log[i]
    {
    }
    forall i | 0 <= i < |more|
      ensures (log + more)[|log| + i] == more[i]
    {
    }
  }

  lemma LogGrows(env: Env, log: seq<Event>, more: seq<Event>, record: RecordKey)
    ensures SeqSum(log + more, IssuedWeight(env, record)) == SeqSum(log, IssuedWeight(env, record)) + SeqSum(more, IssuedWeight(env, record))
    ensures SeqSum(log + more, ChargedWeight(record)) == SeqSum(log, ChargedWeight(record)) + SeqSum(more, ChargedWeight(record))
    ensures (forall i :: 0 <= i < |more| ==> !more[i].QuotaCharged?) ==> SeqSum(more, ChargedWeight(record)) == 0
    ensures (forall i :: 0 <= i < |more| ==> !more[i].Issued?) ==> SeqSum(more, IssuedWeight(env, record)) == 0
  {
    SeqSumAppend(log, more, IssuedWeight(env, record));
    SeqSumAppend(log, more, ChargedWeight(record));
    if forall i :: 0 <= i < |more| ==> !more[i].QuotaCharged? { SeqSumZero(more, ChargedWeight(record)); }
    if forall i :: 0 <= i < |more| ==> !more[i].Issued? { SeqSumZero(more, IssuedWeight(env, record)); }
  }

  /** A step that charges nothing keeps the invariant if it gives out no more than was paid for and, once
      the counter may be gone, no more than was held or owed; and if it leaves an intact counter alone. */
  lemma Kept(env: Env, s: State, log: seq<Event>, s': State, more: seq<Event>, record: RecordKey, shut: bool)
    requires QuotaInv(env, s, log, record, shut)
    requires forall i :: 0 <= i < |more| ==> !more[i].QuotaCharged?
    requires SeqSum(more, IssuedWeight(env, record)) + MapSum(s'.handlers, PaidWeight(env, record)) <= MapSum(s.handlers, PaidWeight(env, record))
    requires !Intact(s, log, record.epoch) ==>
               SeqSum(more, IssuedWeight(env, record)) + MapSum(s'.handlers, HeldWeight(env, record)) + Owed(env, s', record)
               <= MapSum(s.handlers, HeldWeight(env, record)) + Owed(env, s, record)
    requires QuotaOf(s'.durable, record) <= QuotaOf(s.durable, record) && s.durable.latest <= s'.durable.latest
    requires Intact(s', log + more, record.epoch) ==> QuotaOf(s'.durable, record) == QuotaOf(s.durable, record)
    ensures QuotaInv(env, s', log + more, record, shut)
  {
    hide Owed, SeqSum, MapSum, QuotaOf, Late, IssuedWeight, ChargedWeight, PaidWeight, HeldWeight;
    LogGrows(env, log, more, record);
    LateGrows(log, more, record.epoch);
    OwedIsPaid(env, s', record);
  }

  /** A handler working on its own never gives out more than it has paid for, and holds a key for. */
  lemma LocalOwes(env: Env, policy: Policy, now: Reading, p: Phase, a: Action, record: RecordKey)
    ensures
      var turn := LocalTurn(env, policy, now, p, a);
      turn.Some? ==>
        && SeqSum(turn.value.events, IssuedWeight(env, record)) <= HeldWeight(env, record)(p) <= PaidWeight(env, record)(p)
        && (turn.value.next.Some? ==> PaidWeight(env, record)(turn.value.next.value) == HeldWeight(env, record)(turn.value.next.value) == 0)
  {
    hide Millis, TicketValid, ProofValid;
    var turn := LocalTurn(env, policy, now, p, a);
    if turn.Some? && |turn.value.events| == 1 {
      SeqSumOne(turn.value.events[0], IssuedWeight(env, record));
    }
  }

  lemma QuotaLocal(env: Env, s: State, log: seq<Event>, id: nat, a: Action, record: RecordKey, shut: bool)
    requires QuotaInv(env, s, log, record, shut)
    ensures
      var (s', more) := DoLocal(env, s, id, a);
      QuotaInv(env, s', log + more, record, shut)
  {
    hide LocalTurn, HourOf, QuotaOf, QuotaInv, Intact, SeqSum, MapSum, IssuedWeight, PaidWeight, HeldWeight;
    var (s', more) := DoLocal(env, s, id, a);
    if At(s, id) && LocalTurn(env, s.policy, Now(s), s.handlers[id], a).Some? {
      LocalOwes(env, s.policy, Now(s), s.handlers[id], a, record);
      LocalMoves(env, s.policy, Now(s), s.handlers[id], a);
      var turn := LocalTurn(env, s.policy, Now(s), s.handlers[id], a);
      SettleSum(s, id, turn.value.next, PaidWeight(env, record));
      SettleSum(s, id, turn.value.next, HeldWeight(env, record));
      Kept(env, s, log, s', more, record, shut);
    } else {
      assert log + more == log;
    }
  }

  lemma QuotaCharge(env: Env, s: State, log: seq<Event>, id: nat, keyN: nat, fails: bool, record: RecordKey, shut: bool)
    requires HolderInv(s) && QuotaInv(env, s, log, record, shut)
    ensures
      var (s', more) := DoCharge(env, s, id, keyN, fails);
      QuotaInv(env, s', log + more, record, shut)
  {
    hide HourOf, SeqSum, MapSum, QuotaInv, Late;
    var (s', more) := DoCharge(env, s, id, keyN, fails);
    if At(s, id) && s.handlers[id].Approved? && s.handlers[id].req.AskIssue? && keyN >= |s.durable.quota| {
      var p := s.handlers[id];
      if more == [] {
        Spared(env, s, log, id, None, s', [], record, shut);
      } else {
        ChargeKept(env, s, log, id, Charged(p.req, p.d, p.serial, p.checked, HourOf(s.clock)), s', more[0], record, shut);
        assert more == [more[0]];
      }
    } else {
      assert log + more == log;
    }
  }

  /** A handler that has paid for nothing goes on without paying, or ends. */
  lemma Spared(env: Env, s: State, log: seq<Event>, id: nat, next: Option<Phase>, s': State, more: seq<Event>, record: RecordKey, shut: bool)
    requires QuotaInv(env, s, log, record, shut) && s' == Settle(s, id, next).(durable := s'.durable)
    requires next.Some? ==> !next.value.Charged? && !next.value.Signing?
    requires forall i :: 0 <= i < |more| ==> !more[i].QuotaCharged? && !more[i].Issued?
    requires QuotaOf(s'.durable, record) <= QuotaOf(s.durable, record) && s.durable.latest == s'.durable.latest
    requires Intact(s', log + more, record.epoch) ==> QuotaOf(s'.durable, record) == QuotaOf(s.durable, record)
    ensures QuotaInv(env, s', log + more, record, shut)
  {
    hide SeqSum, MapSum, QuotaInv, Intact, QuotaOf;
    SettleSum(s, id, next, PaidWeight(env, record));
    SettleSum(s, id, next, HeldWeight(env, record));
    LogGrows(env, log, more, record);
    Kept(env, s, log, s', more, record, shut);
  }

  /** The counter goes up by what the handler has now paid for. */
  lemma ChargeKept(env: Env, s: State, log: seq<Event>, id: nat, charged: Phase, s': State, e: Event, record: RecordKey, shut: bool)
    requires HolderInv(s) && QuotaInv(env, s, log, record, shut) && At(s, id) && s.handlers[id].Approved?
    requires charged.Charged? && charged.req.AskIssue? && e.QuotaCharged?
    requires e.record == QuotaRecord(env, charged.d, charged.req.proof) && e.n == |charged.req.blinded|
    requires s' == Settle(s, id, Some(charged)).(durable := s'.durable) && s'.durable.latest == s.durable.latest
    requires QuotaOf(s'.durable, record) == QuotaOf(s.durable, record) + if record == e.record then e.n else 0
    requires record == e.record ==> QuotaOf(s'.durable, record) <= QUOTA
    ensures QuotaInv(env, s', log + [e], record, shut)
  {
    hide SeqSum, MapSum, QuotaOf, Late;
    SettleSum(s, id, Some(charged), PaidWeight(env, record));
    SettleSum(s, id, Some(charged), HeldWeight(env, record));
    LogGrows(env, log, [e], record);
    SeqSumOne(e, ChargedWeight(record));
    LateGrows(log, [e], record.epoch);
    assert !Late([e], record.epoch) by { NotLate([e], record.epoch); }
    OwedIsPaid(env, s', record);
  }

  lemma NotLate(more: seq<Event>, epoch: int)
    requires forall i :: 0 <= i < |more| && more[i].Redeemed? ==> more[i].hour < epoch + LIFETIME
    ensures !Late(more, epoch)
  {
  }

  /** Pruning before a record's expiry hour spares it; pruning later deletes it. */
  lemma PruneSparesQuota(b: map<RecordKey, nat>, hour: int, record: RecordKey)
    ensures record in LiveRecords(b, hour) <==> record in b && hour < record.epoch + LIFETIME
    ensures record in LiveRecords(b, hour) ==> LiveRecords(b, hour)[record] == b[record]
  {
  }

  /** descriptor deletes a counter only by moving the mark to the record's expiry hour or past it. */
  lemma DescribeSparesQuota(d: Durable, cache: map<int, Key>, revision: string, epoch: int, hour: int, candidate: Key, fault: Fault, record: RecordKey)
    ensures
      var o := Describe(d, cache, revision, epoch, hour, candidate, fault);
      && QuotaOf(o.durable, record) <= QuotaOf(d, record) && d.latest <= o.durable.latest
      && (o.durable.latest < record.epoch + LIFETIME ==> QuotaOf(o.durable, record) == QuotaOf(d, record))
      && (o.key.Some? ==> o.durable.latest == hour && hour - LIFETIME < epoch)
  {
    hide LiveRecords, Describe;
    DescribeSpares(d, cache, revision, epoch, hour, candidate, fault);
    DescribedIsLive(d, cache, revision, epoch, hour, candidate, fault);
    PruneSparesQuota(d.quota, hour, record);
  }

  /** A handler gets a key again only for what was owed. */
  lemma GetsWhatIsOwed(env: Env, s: State, id: nat, candidate: Key, fault: Fault, next: Option<Phase>, record: RecordKey)
    requires Describing(s, id)
    requires
      var p := s.handlers[id];
      var o := Describe(s.durable, s.cache, s.policy.revision, WantedEpoch(p), s.lock.value.hour, candidate, fault);
      next == if o.key.None? then None else AfterDescriptor(p, DescriptorFor(env, s.policy, WantedEpoch(p), o.key.value))
    ensures HeldWeight(env, record)(s.handlers[id]) == 0
    ensures next.Some? ==> HeldWeight(env, record)(next.value) <= PaidWeight(env, record)(next.value) <= PaidWeight(env, record)(s.handlers[id])
    ensures next.Some? ==> HeldWeight(env, record)(next.value) <= Owed(env, s, record)
  {
    hide Describe, DescriptorFor;
    var p := s.handlers[id];
    DescribeSparesQuota(s.durable, s.cache, s.policy.revision, WantedEpoch(p), s.lock.value.hour, candidate, fault, record);
  }

  lemma QuotaDescriptor(env: Env, s: State, log: seq<Event>, id: nat, candidate: Key, fault: Fault, record: RecordKey, shut: bool)
    requires QuotaInv(env, s, log, record, shut)
    ensures
      var (s', more) := DoDescriptor(env, s, id, candidate, fault);
      QuotaInv(env, s', log + more, record, shut)
  {
    hide Settle, Describe, SeqSum, MapSum, QuotaInv, QuotaOf, DescriptorFor, AfterDescriptor, IssuedWeight, PaidWeight, HeldWeight;
    var (s', more) := DoDescriptor(env, s, id, candidate, fault);
    if Describing(s, id) && candidate !in s.minted {
      var p, hour := s.handlers[id], s.lock.value.hour;
      var o := Describe(s.durable, s.cache, s.policy.revision, WantedEpoch(p), hour, candidate, fault);
      DescribeSparesQuota(s.durable, s.cache, s.policy.revision, WantedEpoch(p), hour, candidate, fault, record);
      var next := if o.key.None? then None else AfterDescriptor(p, DescriptorFor(env, s.policy, WantedEpoch(p), o.key.value));
      GetsWhatIsOwed(env, s, id, candidate, fault, next, record);
      var s1 := s.(durable := o.durable, cache := o.cache, minted := s.minted + {candidate}, lock := None);
      SettleSum(s1, id, next, PaidWeight(env, record));
      SettleSum(s1, id, next, HeldWeight(env, record));
      LogGrows(env, log, more, record);
      Kept(env, s, log, s', more, record, shut);
    } else {
      assert log + more == log;
    }
  }

  lemma QuotaSpend(env: Env, s: State, log: seq<Event>, id: nat, keyN: nat, fails: bool, record: RecordKey, shut: bool)
    requires QuotaInv(env, s, log, record, shut)
    ensures
      var (s', more) := DoSpend(env, s, id, keyN, fails);
      QuotaInv(env, s', log + more, record, shut)
  {
    hide HourOf, LiveRecords, LiveCount, QuotaInv, Late, SeqSum, MapSum;
    var (s', more) := DoSpend(env, s, id, keyN, fails);
    if At(s, id) && s.handlers[id].Accepted? && keyN >= LiveCount(s.durable, HourOf(s.clock)) {
      var p := s.handlers[id];
      PruneSparesQuota(s.durable.quota, HourOf(s.clock), record);
      LateGrows(log, more, record.epoch);
      if more != [] { assert HourOf(s.clock) >= record.epoch + LIFETIME ==> Late(more, record.epoch) by { IsLate(more, record.epoch); } }
      Spared(env, s, log, id, if more == [] then None else Some(Marked(p.ticket, p.d, s.clock)), s', more, record, shut);
    } else {
      assert log + more == log;
    }
  }

  lemma IsLate(more: seq<Event>, epoch: int)
    requires more != [] && more[|more| - 1].Redeemed?
    ensures more[|more| - 1].hour >= epoch + LIFETIME ==> Late(more, epoch)
  {
  }

  /** A whole redemption deletes a counter only when the mark has reached the record's expiry hour. */
  lemma AtOnceSparesQuota(env: Env, s: State, t: Ticket, candidate: Key, fault: Fault, keyN: nat, fails: bool, record: RecordKey)
    ensures
      var s' := DoRedeemAtOnce(env, s, t, candidate, fault, keyN, fails).0;
      && QuotaOf(s'.durable, record) <= QuotaOf(s.durable, record) && s.durable.latest <= s'.durable.latest
      && (s'.durable.latest < record.epoch + LIFETIME ==> QuotaOf(s'.durable, record) == QuotaOf(s.durable, record))
  {
    hide HourOf, LiveRecords, Describe, TicketValid, DescriptorFor;
    var hour := HourOf(s.clock);
    var o := Describe(s.durable, s.cache, s.policy.revision, t.epoch, hour, candidate, fault);
    DescribeSparesQuota(s.durable, s.cache, s.policy.revision, t.epoch, hour, candidate, fault, record);
    PruneSparesQuota(o.durable.quota, hour, record);
  }

  lemma QuotaAtOnce(env: Env, s: State, log: seq<Event>, t: Ticket, candidate: Key, fault: Fault, keyN: nat, fails: bool, record: RecordKey, shut: bool)
    requires QuotaInv(env, s, log, record, shut)
    ensures
      var (s', more) := DoRedeemAtOnce(env, s, t, candidate, fault, keyN, fails);
      QuotaInv(env, s', log + more, record, shut)
  {
    hide HourOf, Describe, RedeemWith, QuotaInv, LiveCount, QuotaOf, SeqSum, MapSum;
    var (s', more) := DoRedeemAtOnce(env, s, t, candidate, fault, keyN, fails);
    AtOnceSparesQuota(env, s, t, candidate, fault, keyN, fails, record);
    LogGrows(env, log, more, record);
    assert s'.handlers == s.handlers && s'.lock == s.lock && (s.lock.Some? ==> s' == s);
    Kept(env, s, log, s', more, record, shut);
  }

  lemma QuotaLock(env: Env, s: State, log: seq<Event>, id: nat, record: RecordKey, shut: bool)
    requires QuotaInv(env, s, log, record, shut) && (shut ==> !Reopened(s, log, record.epoch))
    ensures QuotaInv(env, DoLock(s, id), log, record, shut)
  {
    hide HourOf, SeqSum, MapSum, QuotaOf, Late;
    OwedIsPaid(env, DoLock(s, id), record);
  }

  /** A step that leaves the store and the lock alone: one handler ends or goes on without paying. */
  lemma UnpaidMove(env: Env, s: State, log: seq<Event>, s': State, id: nat, more: seq<Event>, record: RecordKey, shut: bool)
    requires QuotaInv(env, s, log, record, shut)
    requires s'.durable == s.durable && s'.lock == s.lock && forall i :: 0 <= i < |more| ==> !more[i].QuotaCharged? && !more[i].Issued?
    requires s'.handlers == s.handlers || s'.handlers == s.handlers - {id} ||
             (id in s'.handlers && s'.handlers == s.handlers[id := s'.handlers[id]] && !s'.handlers[id].Charged? && !s'.handlers[id].Signing?)
    ensures QuotaInv(env, s', log + more, record, shut)
  {
    hide QuotaInv, Intact, QuotaOf, SeqSum, MapSum;
    LogGrows(env, log, more, record);
    var next := if id in s'.handlers then Some(s'.handlers[id]) else None;
    SettleSum(s, id, next, PaidWeight(env, record));
    SettleSum(s, id, next, HeldWeight(env, record));
    Kept(env, s, log, s', more, record, shut);
  }

  lemma QuotaUnpaid(env: Env, s: State, log: seq<Event>, a: Action, record: RecordKey, shut: bool)
    requires QuotaInv(env, s, log, record, shut)
    requires a.Enter? || a.Abandon? || a.Offer? || a.TakeNonce? || a.TakeAnswer?
    ensures
      var (s', more) := Step(env, s, a, |log|);
      QuotaInv(env, s', log + more, record, shut)
  {
    hide HourOf, AddChallenge, Membership.Step, Millis, QuotaInv;
    var (s', more) := Step(env, s, a, |log|);
    UnpaidMove(env, s, log, s', a.id, more, record, shut);
  }

  lemma QuotaOther(env: Env, s: State, log: seq<Event>, a: Action, record: RecordKey, shut: bool)
    requires QuotaInv(env, s, log, record, shut)
    requires a.Advance? || a.JumpBack? || a.Restart? || a.AccessStep? || a.CallMembership?
    ensures
      var (s', more) := Step(env, s, a, |log|);
      QuotaInv(env, s', log + more, record, shut)
  {
    hide HourOf, DoAccess, DoCall, QuotaInv, Intact, QuotaOf, SeqSum, MapSum, PaidWeight, HeldWeight;
    var (s', more) := Step(env, s, a, |log|);
    LogGrows(env, log, more, record);
    if a.Restart? { NothingHeld(env, s'.handlers, record); }
    Kept(env, s, log, s', more, record, shut);
  }

  lemma NothingHeld(env: Env, handlers: map<nat, Phase>, record: RecordKey)
    requires handlers == map[]
    ensures MapSum(handlers, PaidWeight(env, record)) == MapSum(handlers, HeldWeight(env, record)) == 0
  {
  }

  lemma QuotaStep(env: Env, s: State, log: seq<Event>, a: Action, record: RecordKey, shut: bool)
    requires HolderInv(s) && QuotaInv(env, s, log, record, shut) && (shut && a.Lock? ==> !Reopened(s, log, record.epoch))
    ensures
      var (s', more) := Step(env, s, a, |log|);
      QuotaInv(env, s', log + more, record, shut)
  {
    hide DoLocal, DoDescriptor, DoCharge, DoSpend, DoRedeemAtOnce, DoOffer, DoTakeNonce, DoAccess, DoCall, DoTakeAnswer, DoEnter, DoLock,
         QuotaInv, HolderInv, Reopened, HourOf;
    if Local(a) {
      QuotaLocal(env, s, log, a.id, a, record, shut);
    } else if a.Charge? {
      QuotaCharge(env, s, log, a.id, a.keyN, a.fails, record, shut);
    } else if a.RunDescriptor? {
      QuotaDescriptor(env, s, log, a.id, a.candidate, a.fault, record, shut);
    } else if a.Spend? {
      QuotaSpend(env, s, log, a.id, a.keyN, a.fails, record, shut);
    } else if a.RedeemAtOnce? {
      QuotaAtOnce(env, s, log, a.ticket, a.candidate, a.fault, a.keyN, a.fails, record, shut);
    } else if a.Lock? {
      QuotaLock(env, s, log, a.id, record, shut);
      assert log + [] == log;
    } else if a.Enter? || a.Abandon? || a.Offer? || a.TakeNonce? || a.TakeAnswer? {
      QuotaUnpaid(env, s, log, a, record, shut);
    } else {
      QuotaOther(env, s, log, a, record, shut);
    }
  }

  /** The hour is never read for descriptor while the epoch is reopened. */
  ghost predicate NeverReopened(env: Env, s0: State, actions: seq<Action>, epoch: int)
  {
    forall k :: 0 <= k < |actions| && actions[k].Lock? ==>
      var (s, log) := Run(env, s0, actions[..k]);
      !Reopened(s, log, epoch)
  }

  lemma {:induction false} QuotaRun(env: Env, policy: Policy, clock: nat, actions: seq<Action>, record: RecordKey, shut: bool)
    requires shut ==> NeverReopened(env, Initial(policy, clock), actions, record.epoch)
    ensures
      var (s, log) := Run(env, Initial(policy, clock), actions);
      HolderInv(s) && QuotaInv(env, s, log, record, shut)
  {
    hide Step, QuotaInv, HolderInv, Reopened;
    if actions != [] {
      var k := |actions| - 1;
      var before := actions[..k];
      assert forall j :: 0 <= j < k ==> before[j] == actions[j] && before[..j] == actions[..j];
      QuotaRun(env, policy, clock, before, record, shut);
      var (s, log) := Run(env, Initial(policy, clock), before);
      HolderStep(env, s, actions[k], |log|);
      QuotaStep(env, s, log, actions[k], record, shut);
    } else {
      QuotaStarts(env, policy, clock, record, shut);
    }
  }

  lemma QuotaStarts(env: Env, policy: Policy, clock: nat, record: RecordKey, shut: bool)
    ensures HolderInv(Initial(policy, clock)) && QuotaInv(env, Initial(policy, clock), [], record, shut)
  {
  }

  // ------------------------------------------------------------- main results

  /** Tickets signed in an epoch for one account. */
  function AccountWeight(epoch: int, address: string): Event -> nat
  {
    (e: Event) => if e.Issued? && e.epoch == epoch && e.proof.address == address then e.n else 0
  }

  /** Wherever the clock jumps: what is issued against a quota record, and what may yet be, was charged to it
      before. */
  lemma {:induction false} IssuedWithinCharged(env: Env, policy: Policy, clock: nat, actions: seq<Action>, record: RecordKey)
    ensures
      var (s, log) := Run(env, Initial(policy, clock), actions);
      SeqSum(log, IssuedWeight(env, record)) + MapSum(s.handlers, PaidWeight(env, record)) <= SeqSum(log, ChargedWeight(record))
  {
    QuotaRun(env, policy, clock, actions, record, false);
  }

  /** Wherever the clock jumps: no account is ever issued more than 24 tickets for one epoch, across
      restarts, policy changes and any interleaving of handlers, unless the hour is read for descriptor
      after a redemption has committed at or past the hour the epoch's records expire, with both the
      high-water mark and the clock before it. */
  lemma {:induction false} AtMost24UnlessReopened(env: Env, policy: Policy, clock: nat, actions: seq<Action>, epoch: int, address: string)
    requires NeverReopened(env, Initial(policy, clock), actions, epoch)
    ensures SeqSum(Run(env, Initial(policy, clock), actions).1, AccountWeight(epoch, address)) <= 24
  {
    var record := RecordKey(epoch, env.accountHash(address));
    QuotaRun(env, policy, clock, actions, record, true);
    hide Run;
    SeqSumMonotone(Run(env, Initial(policy, clock), actions).1, AccountWeight(epoch, address), IssuedWeight(env, record));
  }

  /** No redemption has committed at an hour past the clock; or past the mark, if redemptions are whole
      steps. */
  ghost predicate HoursSeen(log: seq<Event>, hour: int) { forall i :: 0 <= i < |log| && log[i].Redeemed? ==> log[i].hour <= hour }

  lemma HoursGrow(log: seq<Event>, more: seq<Event>, hour: int, hour': int)
    requires HoursSeen(log, hour) && hour <= hour' && HoursSeen(more, hour')
    ensures HoursSeen(log + more, hour')
  {
  }

  lemma {:induction false} HoursForward(env: Env, policy: Policy, clock: nat, actions: seq<Action>)
    requires Forward(actions)
    ensures
      var (s, log) := Run(env, Initial(policy, clock), actions);
      HoursSeen(log, HourOf(s.clock))
  {
    if actions != [] {
      hide Step, HourOf, HoursSeen;
      var before, a := actions[..|actions| - 1], actions[|actions| - 1];
      HoursForward(env, policy, clock, before);
      ClockRun(env, policy, clock, before);
      var (s, log) := Run(env, Initial(policy, clock), before);
      ClockStep(env, s, a, |log|);
      var (s', more) := Step(env, s, a, |log|);
      HourMonotone(s.clock, s'.clock);
      RedeemsNow(env, s, a, |log|);
      HoursGrow(log, more, HourOf(s.clock), HourOf(s'.clock));
    }
  }

  /** A redemption bears the hour of the clock; as a whole step, that is no later than the mark. */
  lemma RedeemsNow(env: Env, s: State, a: Action, serial: nat)
    ensures
      var (s', more) := Step(env, s, a, serial);
      && (s'.clock >= s.clock ==> HoursSeen(more, HourOf(s'.clock)))
      && s.durable.latest <= s'.durable.latest && (!a.Spend? ==> HoursSeen(more, s'.durable.latest))
  {
    hide DoLocal, DoOffer, DoTakeNonce, DoAccess, DoCall, DoTakeAnswer, DoCharge, DoEnter, DoAbandon, DoLock, DoDescriptor, DoSpend, DoRedeemAtOnce;
    if a.RedeemAtOnce? {
      RedeemsAtMark(env, s, a.ticket, a.candidate, a.fault, a.keyN, a.fails);
    } else if a.Spend? {
      SpendsNow(env, s, a.id, a.keyN, a.fails);
    } else if a.RunDescriptor? {
      DescriptorRedeemsNothing(env, s, a.id, a.candidate, a.fault);
    } else {
      OtherStep(env, s, a, serial);
    }
  }

  lemma SpendsNow(env: Env, s: State, id: nat, keyN: nat, fails: bool)
    ensures
      var (s', more) := DoSpend(env, s, id, keyN, fails);
      s'.clock == s.clock && s'.durable.latest == s.durable.latest && HoursSeen(more, HourOf(s.clock))
  {
    hide HourOf, LiveCount, LiveRecords;
  }

  lemma DescriptorRedeemsNothing(env: Env, s: State, id: nat, candidate: Key, fault: Fault)
    ensures
      var (s', more) := DoDescriptor(env, s, id, candidate, fault);
      s.durable.latest <= s'.durable.latest && forall i :: 0 <= i < |more| ==> !more[i].Redeemed?
  {
    hide Describe, DescriptorFor, AfterDescriptor;
    if Describing(s, id) {
      DescribeSpares(s.durable, s.cache, s.policy.revision, WantedEpoch(s.handlers[id]), s.lock.value.hour, candidate, fault);
    }
  }

  lemma RedeemsAtMark(env: Env, s: State, t: Ticket, candidate: Key, fault: Fault, keyN: nat, fails: bool)
    ensures
      var (s', more) := DoRedeemAtOnce(env, s, t, candidate, fault, keyN, fails);
      && s'.clock == s.clock && HoursSeen(more, HourOf(s.clock))
      && s.durable.latest <= s'.durable.latest && HoursSeen(more, s'.durable.latest)
  {
    hide HourOf, Describe, LiveCount, TicketValid, DescriptorFor, LiveRecords;
    DescribeSpares(s.durable, s.cache, s.policy.revision, t.epoch, HourOf(s.clock), candidate, fault);
    DescribedIsLive(s.durable, s.cache, s.policy.revision, t.epoch, HourOf(s.clock), candidate, fault);
  }

  lemma {:induction false} HoursWhole(env: Env, policy: Policy, clock: nat, actions: seq<Action>)
    requires Whole(actions)
    ensures
      var (s, log) := Run(env, Initial(policy, clock), actions);
      HoursSeen(log, s.durable.latest)
  {
    if actions != [] {
      hide Step, HourOf, HoursSeen;
      var before, a := actions[..|actions| - 1], actions[|actions| - 1];
      HoursWhole(env, policy, clock, before);
      var (s, log) := Run(env, Initial(policy, clock), before);
      var (s', more) := Step(env, s, a, |log|);
      RedeemsNow(env, s, a, |log|);
      HoursGrow(log, more, s.durable.latest, s'.durable.latest);
    }
  }

  /** With a clock that never goes back: no account is ever issued more than 24 tickets for one epoch,
      across restarts, policy changes and any interleaving of handlers. */
  lemma {:induction false} AtMost24PerAccount(env: Env, policy: Policy, clock: nat, actions: seq<Action>, epoch: int, address: string)
    requires Forward(actions)
    ensures SeqSum(Run(env, Initial(policy, clock), actions).1, AccountWeight(epoch, address)) <= 24
  {
    hide Run, HourOf;
    forall k | 0 <= k < |actions|
      ensures
        var (s, log) := Run(env, Initial(policy, clock), actions[..k]);
        !Reopened(s, log, epoch)
    {
      HoursForward(env, policy, clock, actions[..k]);
    }
    AtMost24UnlessReopened(env, policy, clock, actions, epoch, address);
  }

  /** Wherever the clock jumps, with redemptions as whole steps: no account is ever issued more than 24
      tickets for one epoch. */
  lemma {:induction false} AtMost24WhenWhole(env: Env, policy: Policy, clock: nat, actions: seq<Action>, epoch: int, address: string)
    requires Whole(actions)
    ensures SeqSum(Run(env, Initial(policy, clock), actions).1, AccountWeight(epoch, address)) <= 24
  {
    hide Run, HourOf;
    forall k | 0 <= k < |actions|
      ensures
        var (s, log) := Run(env, Initial(policy, clock), actions[..k]);
        !Reopened(s, log, epoch)
    {
      HoursWhole(env, policy, clock, actions[..k]);
    }
    AtMost24UnlessReopened(env, policy, clock, actions, epoch, address);
  }
}
