/**
 What redemptions are worth: the deadline a redeemed ticket gives a connection, counted over whole
 runs with a clock that never goes back.
 */
module TicketGrants {
  import opened Clock
  import opened Options
  import opened TicketStore
  import opened TicketProtocol
  import opened TicketTrace
  import opened TicketRedemption
  import opened Sums
  import TicketCompleteness
  import TicketIssuance
  import Membership

  // ---------------------------------------------------------------- the formula

  /** What is left until the tickets of an epoch expire, to within the millisecond that is rounded up. */
  ghost predicate LeftAt(epoch: int, reading: nat, left: int)
  {
    (epoch + LIFETIME) * HOUR - reading <= left < (epoch + LIFETIME) * HOUR - reading + MILLISECOND
  }

  /** The deadline lies as far from the first reading as the ticket's expiry from the second, on whatever
      clock the first was read. */
  lemma UntilIsExpiry(epoch: int, first: nat, second: nat)
    ensures LeftAt(epoch, second, Until(first, second, ExpiryMillis(epoch)) - first)
  {
    assert ExpiryMillis(epoch) * MILLISECOND == (epoch + LIFETIME) * HOUR;
  }

  /** Two readings of one clock: the deadline is the ticket's expiry, less the time between the readings, to
      within a millisecond; and it has passed already if the ticket had expired by the first reading. */
  lemma UntilBounds(epoch: int, first: nat, second: nat)
    requires first <= second
    ensures
      var until := Until(first, second, ExpiryMillis(epoch));
      && (epoch + LIFETIME) * HOUR - (second - first) <= until < (epoch + LIFETIME) * HOUR - (second - first) + MILLISECOND
      && (HourOf(first) >= epoch + LIFETIME ==> until <= second)
  {
    UntilIsExpiry(epoch, first, second);
    assert ExpiryMillis(epoch) * MILLISECOND == (epoch + LIFETIME) * HOUR;
    ExpiryIsAnHourBoundary(epoch, first);
  }

  // ----------------------------------------------------------------- deadlines

  ghost predicate PhaseTimed(clock: nat, p: Phase)
  {
    && (p.Marked? ==> p.committed <= clock)
    && (p.Granting? ==> p.committed <= p.first.wall <= clock)
  }

  ghost predicate GrantTimed(e: Event)
  {
    e.Granted? ==>
      && e.until < (e.epoch + LIFETIME) * HOUR + MILLISECOND
      && (HourOf(e.committed) >= e.epoch + LIFETIME ==> e.until <= e.at)
  }

  ghost predicate GrantInv(s: State, log: seq<Event>)
  {
    && (forall id :: id in s.handlers ==> PhaseTimed(s.clock, s.handlers[id]))
    && (forall i :: 0 <= i < |log| ==> GrantTimed(log[i]))
  }

  lemma TurnTimed(env: Env, s: State, log: seq<Event>, p: Phase, a: Action)
    requires PhaseTimed(s.clock, p) && PhaseTraced(env, s.policy, log, p)
    ensures
      var turn := LocalTurn(env, s.policy, Now(s), p, a);
      turn.Some? ==>
        && (turn.value.next.Some? ==> PhaseTimed(s.clock, turn.value.next.value))
        && (forall i :: 0 <= i < |turn.value.events| ==> GrantTimed(turn.value.events[i]))
  {
    hide Millis, HourOf, TicketValid, ProofValid, KeyOf, Attested, Vetted, Confirmed, Made, Until;
    if p.Granting? && a.Grant? {
      UntilBounds(p.ticket.epoch, p.first.wall, s.clock);
      HourMonotone(p.committed, p.first.wall);
    }
  }

  lemma GrantLocal(env: Env, s: State, log: seq<Event>, id: nat, a: Action)
    requires GrantInv(s, log) && TraceInv(env, s, log)
    ensures
      var (s', more) := DoLocal(env, s, id, a);
      GrantInv(s', log + more)
  {
    hide LocalTurn, PhaseTimed, GrantTimed, PhaseTraced, EventTraced, ChallengeTraced, AccessTraced;
    if At(s, id) { TurnTimed(env, s, log, s.handlers[id], a); }
  }

  /** The other steps: nothing but a commit gives a handler a time, and nothing else grants. */
  lemma GrantOther(env: Env, s: State, log: seq<Event>, a: Action)
    requires GrantInv(s, log) && !Local(a) && !a.JumpBack?
    ensures
      var (s', more) := Step(env, s, a, |log|);
      GrantInv(s', log + more)
  {
    var (s', more) := Step(env, s, a, |log|);
    var id := if a.Enter? || a.Abandon? || a.RunDescriptor? || a.Offer? || a.TakeNonce? || a.TakeAnswer? || a.Charge? || a.Spend? then a.id else 0;
    if a.Charge? || a.Spend? {
      StoreMoves(env, s, a, |log|);
    } else if a.RunDescriptor? || a.RedeemAtOnce? {
      DescriptorMoves(env, s, a, |log|);
    } else {
      OtherMoves(env, s, a, |log|);
    }
    hide Step, PhaseTimed;
    GrantMove(s, log, s', id, more);
  }

  /** One handler may move, to a phase that has no time ahead of the clock; nothing is granted. */
  ghost predicate Untimed(s: State, s': State, id: nat, more: seq<Event>)
  {
    && s'.clock >= s.clock
    && (forall i :: i in s'.handlers && i != id ==> i in s.handlers && s'.handlers[i] == s.handlers[i])
    && (id in s'.handlers ==> (id in s.handlers && s'.handlers[id] == s.handlers[id]) || PhaseTimed(s'.clock, s'.handlers[id]))
    && (forall i :: 0 <= i < |more| ==> !more[i].Granted?)
  }

  lemma StoreMoves(env: Env, s: State, a: Action, serial: nat)
    requires a.Charge? || a.Spend?
    ensures Untimed(s, Step(env, s, a, serial).0, a.id, Step(env, s, a, serial).1)
  {
    hide HourOf, DoLocal, DoDescriptor, DoRedeemAtOnce, DoOffer, DoTakeNonce, DoTakeAnswer, DoEnter, DoAbandon, DoLock, DoAccess, DoCall,
         ChargeQuota, CommitSpent, LiveCount;
  }

  lemma DescriptorMoves(env: Env, s: State, a: Action, serial: nat)
    requires a.RunDescriptor? || a.RedeemAtOnce?
    ensures Untimed(s, Step(env, s, a, serial).0, if a.RunDescriptor? then a.id else 0, Step(env, s, a, serial).1)
  {
    hide HourOf, DoLocal, Describe, RedeemWith, LiveCount, DescriptorFor, DoAccess, DoCall, DoTakeAnswer, DoCharge, DoSpend, DoOffer, DoTakeNonce,
         DoEnter, DoAbandon, DoLock;
  }

  lemma OtherMoves(env: Env, s: State, a: Action, serial: nat)
    requires !Local(a) && !a.JumpBack? && !a.Charge? && !a.Spend? && !a.RunDescriptor? && !a.RedeemAtOnce?
    ensures
      var (s', more) := Step(env, s, a, serial);
      Untimed(s, s', if a.Enter? || a.Abandon? || a.Offer? || a.TakeNonce? || a.TakeAnswer? then a.id else 0, more)
  {
    hide HourOf, DoLocal, AddChallenge, DoAccess, DoCall, DoCharge, DoSpend, DoDescriptor, DoRedeemAtOnce, Membership.Step, Millis;
  }

  lemma GrantMove(s: State, log: seq<Event>, s': State, id: nat, more: seq<Event>)
    requires GrantInv(s, log) && Untimed(s, s', id, more)
    ensures GrantInv(s', log + more)
  {
    forall i | i in s'.handlers
      ensures PhaseTimed(s'.clock, s'.handlers[i])
    {
      if i in s.handlers { assert PhaseTimed(s.clock, s.handlers[i]); }
    }
  }

  lemma GrantStep(env: Env, s: State, log: seq<Event>, a: Action)
    requires GrantInv(s, log) && TraceInv(env, s, log) && !a.JumpBack?
    ensures
      var (s', more) := Step(env, s, a, |log|);
      GrantInv(s', log + more)
  {
    hide GrantInv, TraceInv, DoLocal;
    if Local(a) { GrantLocal(env, s, log, a.id, a); } else { GrantOther(env, s, log, a); }
  }

  lemma {:induction false} GrantRun(env: Env, policy: Policy, clock: nat, actions: seq<Action>)
    requires Forward(actions)
    ensures
      var (s, log) := Run(env, Initial(policy, clock), actions);
      GrantInv(s, log)
  {
    if actions != [] {
      hide GrantInv, TraceInv, Step;
      var before, a := actions[..|actions| - 1], actions[|actions| - 1];
      GrantRun(env, policy, clock, before);
      TraceRun(env, policy, clock, before);
      var (s, log) := Run(env, Initial(policy, clock), before);
      GrantStep(env, s, log, a);
    }
  }

  // ----------------------------------------- one live grant for one redemption

  predicate Early(epoch: int, committed: nat) { HourOf(committed) < epoch + LIFETIME }

  /** Redemptions of a ticket that committed before it expired. */
  function EarlyRedeemed(epoch: int, message: string): Event -> nat
  {
    (e: Event) => if e.Redeemed? && e.epoch == epoch && e.message == message && e.hour < epoch + LIFETIME then 1 else 0
  }

  /** Grants that stem from such a redemption. */
  function EarlyGranted(epoch: int, message: string): Event -> nat
  {
    (e: Event) => if e.Granted? && e.epoch == epoch && e.message == message && Early(epoch, e.committed) then 1 else 0
  }

  /** Handlers that have committed such a redemption and not yet granted it. */
  function EarlyPending(epoch: int, message: string): Phase -> nat
  {
    (p: Phase) =>
      if (p.Marked? || p.Granting?) && p.ticket.epoch == epoch && p.ticket.message == message && Early(epoch, p.committed)
      then 1 else 0
  }

  ghost predicate BackedInv(s: State, log: seq<Event>, epoch: int, message: string)
  {
    SeqSum(log, EarlyGranted(epoch, message)) + MapSum(s.handlers, EarlyPending(epoch, message))
    <= SeqSum(log, EarlyRedeemed(epoch, message))
  }

  lemma BackedGrows(log: seq<Event>, more: seq<Event>, epoch: int, message: string)
    ensures SeqSum(log + more, EarlyGranted(epoch, message)) == SeqSum(log, EarlyGranted(epoch, message)) + SeqSum(more, EarlyGranted(epoch, message))
    ensures SeqSum(log + more, EarlyRedeemed(epoch, message)) == SeqSum(log, EarlyRedeemed(epoch, message)) + SeqSum(more, EarlyRedeemed(epoch, message))
    ensures (forall i :: 0 <= i < |more| ==> !more[i].Granted?) ==> SeqSum(more, EarlyGranted(epoch, message)) == 0
  {
    SeqSumAppend(log, more, EarlyGranted(epoch, message));
    SeqSumAppend(log, more, EarlyRedeemed(epoch, message));
    if forall i :: 0 <= i < |more| ==> !more[i].Granted? { SeqSumZero(more, EarlyGranted(epoch, message)); }
  }

  lemma TurnBacked(env: Env, s: State, p: Phase, a: Action, epoch: int, message: string)
    ensures
      var turn := LocalTurn(env, s.policy, Now(s), p, a);
      turn.Some? ==>
        (if turn.value.next.None? then 0 else EarlyPending(epoch, message)(turn.value.next.value))
        + SeqSum(turn.value.events, EarlyGranted(epoch, message)) <= EarlyPending(epoch, message)(p)
  {
    hide Millis, HourOf, TicketValid, ProofValid;
    var turn := LocalTurn(env, s.policy, Now(s), p, a);
    if turn.Some? && |turn.value.events| == 1 {
      SeqSumOne(turn.value.events[0], EarlyGranted(epoch, message));
    }
  }

  lemma BackedLocal(env: Env, s: State, log: seq<Event>, id: nat, a: Action, epoch: int, message: string)
    requires BackedInv(s, log, epoch, message)
    ensures
      var (s', more) := DoLocal(env, s, id, a);
      BackedInv(s', log + more, epoch, message)
  {
    hide LocalTurn, Settle, EarlyPending;
    var (s', more) := DoLocal(env, s, id, a);
    BackedGrows(log, more, epoch, message);
    if At(s, id) {
      TurnBacked(env, s, s.handlers[id], a, epoch, message);
      var turn := LocalTurn(env, s.policy, Now(s), s.handlers[id], a);
      if turn.Some? { SettleSum(s, id, turn.value.next, EarlyPending(epoch, message)); }
    }
    assert more == [] ==> SeqSum(more, EarlyGranted(epoch, message)) == 0;
  }

  lemma BackedSpend(env: Env, s: State, log: seq<Event>, id: nat, keyN: nat, fails: bool, epoch: int, message: string)
    requires BackedInv(s, log, epoch, message)
    ensures
      var (s', more) := DoSpend(env, s, id, keyN, fails);
      BackedInv(s', log + more, epoch, message)
  {
    hide HourOf, CommitSpent, LiveCount, SeqSum, MapSum;
    var (s', more) := DoSpend(env, s, id, keyN, fails);
    BackedGrows(log, more, epoch, message);
    SettleSum(s, id, if id in s'.handlers then Some(s'.handlers[id]) else None, EarlyPending(epoch, message));
    if more != [] { SeqSumOne(more[0], EarlyRedeemed(epoch, message)); }
  }

  /** A step that neither commits nor grants: one handler may move to a phase that owes nothing. */
  lemma BackedMove(s: State, log: seq<Event>, s': State, id: nat, more: seq<Event>, epoch: int, message: string)
    requires BackedInv(s, log, epoch, message)
    requires s'.handlers == map[] || s'.handlers == s.handlers || s'.handlers == s.handlers - {id} ||
             (id in s'.handlers && s'.handlers == s.handlers[id := s'.handlers[id]] && !s'.handlers[id].Marked? && !s'.handlers[id].Granting?)
    requires forall i :: 0 <= i < |more| ==> !more[i].Granted?
    ensures BackedInv(s', log + more, epoch, message)
  {
    BackedGrows(log, more, epoch, message);
    SettleSum(s, id, if id in s'.handlers then Some(s'.handlers[id]) else None, EarlyPending(epoch, message));
  }

  lemma BackedStep(env: Env, s: State, log: seq<Event>, a: Action, epoch: int, message: string)
    requires BackedInv(s, log, epoch, message)
    ensures
      var (s', more) := Step(env, s, a, |log|);
      BackedInv(s', log + more, epoch, message)
  {
    hide DoLocal, DoSpend, HourOf, AddChallenge, ChargeQuota, Describe, RedeemWith, LiveCount, BackedInv, DescriptorFor, Membership.Step, Millis;
    var (s', more) := Step(env, s, a, |log|);
    if Local(a) {
      BackedLocal(env, s, log, a.id, a, epoch, message);
    } else if a.Spend? {
      BackedSpend(env, s, log, a.id, a.keyN, a.fails, epoch, message);
    } else {
      var id := if a.Enter? || a.Abandon? || a.RunDescriptor? || a.Offer? || a.TakeNonce? || a.Charge? || a.TakeAnswer? then a.id else 0;
      BackedMove(s, log, s', id, more, epoch, message);
    }
  }

  lemma {:induction false} BackedRun(env: Env, policy: Policy, clock: nat, actions: seq<Action>, epoch: int, message: string)
    ensures
      var (s, log) := Run(env, Initial(policy, clock), actions);
      BackedInv(s, log, epoch, message)
  {
    if actions != [] {
      hide BackedInv, Step;
      var before, a := actions[..|actions| - 1], actions[|actions| - 1];
      BackedRun(env, policy, clock, before, epoch, message);
      var (s, log) := Run(env, Initial(policy, clock), before);
      BackedStep(env, s, log, a, epoch, message);
    }
  }

  lemma {:induction false} EarlyOnce(log: seq<Event>, epoch: int, message: string)
    requires OnceBeforeExpiry(log)
    ensures SeqSum(log, EarlyRedeemed(epoch, message)) <= 1
  {
    if log != [] {
      var before, e := log[..|log| - 1], log[|log| - 1];
      EarlyOnce(before, epoch, message);
      if EarlyRedeemed(epoch, message)(e) == 1 {
        forall i | 0 <= i < |before|
          ensures EarlyRedeemed(epoch, message)(before[i]) == 0
        {
          assert !SameTicket(log[i], log[|log| - 1]);
        }
        SeqSumZero(before, EarlyRedeemed(epoch, message));
      }
    }
  }

  // ------------------------------------------------ every grant stems from a redemption

  ghost predicate PhaseStems(log: seq<Event>, p: Phase)
  {
    p.Marked? || p.Granting? ==> Redeemed(p.ticket.epoch, p.d.key, p.ticket.message, HourOf(p.committed)) in log
  }

  /** It does, and its deadline is as far from the first reading, on either clock, as the expiry of its epoch
      from the second. */
  ghost predicate GrantStems(log: seq<Event>, e: Event)
  {
    e.Granted? ==>
      && (exists key :: Redeemed(e.epoch, key, e.message, HourOf(e.committed)) in log)
      && LeftAt(e.epoch, e.at, e.until - e.first.wall) && LeftAt(e.epoch, e.at, e.deadline - e.first.mono)
      && e.deadline - e.first.mono == e.until - e.first.wall
  }

  ghost predicate StemInv(s: State, log: seq<Event>)
  {
    && (forall id :: id in s.handlers ==> PhaseStems(log, s.handlers[id]))
    && (forall i :: 0 <= i < |log| ==> GrantStems(log[..i], log[i]))
  }

  /** One handler may move, to a phase that has not redeemed or stems from a redemption; whatever is granted
      stems from one. */
  lemma StemMove(s: State, log: seq<Event>, s': State, id: nat, more: seq<Event>)
    requires StemInv(s, log) && |more| <= 1
    requires forall i :: i in s'.handlers && i != id ==> i in s.handlers && s'.handlers[i] == s.handlers[i]
    requires id in s'.handlers ==> (id in s.handlers && s'.handlers[id] == s.handlers[id]) || PhaseStems(log + more, s'.handlers[id])
    requires more != [] ==> GrantStems(log, more[0])
    ensures StemInv(s', log + more)
  {
    forall i | i in s'.handlers
      ensures PhaseStems(log + more, s'.handlers[i])
    {
      if i in s.handlers { assert PhaseStems(log, s.handlers[i]); }
    }
    hide GrantStems;
    forall i | 0 <= i < |log + more|
      ensures GrantStems((log + more)[..i], (log + more)[i])
    {
      assert (log + more)[..i] == if i < |log| then log[..i] else log;
    }
  }

  lemma StemLocal(env: Env, s: State, log: seq<Event>, id: nat, a: Action)
    requires StemInv(s, log) && (At(s, id) && s.handlers[id].Granting? ==> s.handlers[id].d.expiresAt == ExpiryMillis(s.handlers[id].ticket.epoch))
    ensures
      var (s', more) := DoLocal(env, s, id, a);
      StemInv(s', log + more)
  {
    hide Millis, HourOf, TicketValid, ProofValid, StemInv, Until, ExpiryMillis, LeftAt;
    var (s', more) := DoLocal(env, s, id, a);
    assert At(s, id) ==> PhaseStems(log, s.handlers[id]) by { hide *; StemOf(s, log, id); }
    if more != [] && more[0].Granted? {
      var p := s.handlers[id];
      UntilIsExpiry(p.ticket.epoch, p.first.wall, s.clock);
      UntilIsExpiry(p.ticket.epoch, p.first.mono, s.clock);
      SameSpan(p.first.wall, p.first.mono, s.clock, p.d.expiresAt);
    }
    StemMove(s, log, s', id, more);
  }

  lemma SameSpan(first: nat, other: nat, second: nat, expiresAt: int)
    ensures Until(first, second, expiresAt) - first == Until(other, second, expiresAt) - other
  {
  }

  lemma GrantingExpires(env: Env, s: State, log: seq<Event>, id: nat)
    requires TraceInv(env, s, log)
    ensures At(s, id) && s.handlers[id].Granting? ==> s.handlers[id].d.expiresAt == ExpiryMillis(s.handlers[id].ticket.epoch)
  {
    hide EventTraced, ChallengeTraced, AccessTraced, ExpiryMillis;
  }

  lemma StemOf(s: State, log: seq<Event>, id: nat)
    requires StemInv(s, log)
    ensures At(s, id) ==> PhaseStems(log, s.handlers[id])
  {
  }

  lemma StemSpend(env: Env, s: State, log: seq<Event>, id: nat, keyN: nat, fails: bool)
    requires StemInv(s, log)
    ensures
      var (s', more) := DoSpend(env, s, id, keyN, fails);
      StemInv(s', log + more)
  {
    hide HourOf, CommitSpent, LiveCount, StemInv;
    var (s', more) := DoSpend(env, s, id, keyN, fails);
    if more != [] { assert more[0] in log + more; }
    StemMove(s, log, s', id, more);
  }

  /** Several events, none of them a grant. */
  lemma StemQuiet(s: State, log: seq<Event>, s': State, id: nat, more: seq<Event>)
    requires StemInv(s, log)
    requires forall i :: i in s'.handlers && i != id ==> i in s.handlers && s'.handlers[i] == s.handlers[i]
    requires id in s'.handlers ==> (id in s.handlers && s'.handlers[id] == s.handlers[id]) || (!s'.handlers[id].Marked? && !s'.handlers[id].Granting?)
    requires forall i :: 0 <= i < |more| ==> !more[i].Granted?
    ensures StemInv(s', log + more)
  {
    if more == [] {
      StemMove(s, log, s', id, more);
    } else {
      var front := more[..|more| - 1];
      StemQuiet(s, log, s', id, front);
      assert log + more == (log + front) + [more[|more| - 1]];
      StemMove(s', log + front, s', id, [more[|more| - 1]]);
    }
  }

  lemma StemDescriptor(env: Env, s: State, log: seq<Event>, a: Action)
    requires StemInv(s, log) && (a.RunDescriptor? || a.RedeemAtOnce?)
    ensures
      var (s', more) := Step(env, s, a, |log|);
      StemInv(s', log + more)
  {
    hide HourOf, Describe, RedeemWith, LiveCount, StemInv, DescriptorFor;
    var (s', more) := Step(env, s, a, |log|);
    StemQuiet(s, log, s', if a.RunDescriptor? then a.id else 0, more);
  }

  lemma StemCharge(env: Env, s: State, log: seq<Event>, id: nat, keyN: nat, fails: bool)
    requires StemInv(s, log)
    ensures
      var (s', more) := DoCharge(env, s, id, keyN, fails);
      StemInv(s', log + more)
  {
    hide HourOf, ChargeQuota, StemInv;
    var (s', more) := DoCharge(env, s, id, keyN, fails);
    StemQuiet(s, log, s', id, more);
  }

  lemma StemAnswer(s: State, log: seq<Event>, id: nat)
    requires StemInv(s, log)
    ensures StemInv(DoTakeAnswer(s, id), log)
  {
    hide StemInv, Membership.Step, Millis;
    StemQuiet(s, log, DoTakeAnswer(s, id), id, []);
    assert log + [] == log;
  }

  lemma StemOther(env: Env, s: State, log: seq<Event>, a: Action)
    requires StemInv(s, log) && !Local(a) && !a.Spend? && !a.RunDescriptor? && !a.RedeemAtOnce? && !a.Charge? && !a.TakeAnswer?
    ensures
      var (s', more) := Step(env, s, a, |log|);
      StemInv(s', log + more)
  {
    hide HourOf, AddChallenge, StemInv, DoAccess, DoCall;
    var (s', more) := Step(env, s, a, |log|);
    StemQuiet(s, log, s', if a.Enter? || a.Abandon? || a.Offer? || a.TakeNonce? then a.id else 0, more);
  }

  lemma {:induction false} StemRun(env: Env, policy: Policy, clock: nat, actions: seq<Action>)
    ensures
      var (s, log) := Run(env, Initial(policy, clock), actions);
      StemInv(s, log)
  {
    if actions != [] {
      hide StemInv, Step, TraceInv;
      var before, a := actions[..|actions| - 1], actions[|actions| - 1];
      StemRun(env, policy, clock, before);
      TraceRun(env, policy, clock, before);
      var (s, log) := Run(env, Initial(policy, clock), before);
      StemStep(env, s, log, a);
    }
  }

  lemma StemStep(env: Env, s: State, log: seq<Event>, a: Action)
    requires StemInv(s, log) && TraceInv(env, s, log)
    ensures
      var (s', more) := Step(env, s, a, |log|);
      StemInv(s', log + more)
  {
    hide StemInv, DoLocal, DoSpend, DoCharge, DoTakeAnswer, TraceInv, ExpiryMillis;
    if Local(a) {
      GrantingExpires(env, s, log, a.id);
      StemLocal(env, s, log, a.id, a);
    } else if a.Spend? {
      StemSpend(env, s, log, a.id, a.keyN, a.fails);
    } else if a.RunDescriptor? || a.RedeemAtOnce? {
      StemDescriptor(env, s, log, a);
    } else if a.Charge? {
      StemCharge(env, s, log, a.id, a.keyN, a.fails);
    } else if a.TakeAnswer? {
      StemAnswer(s, log, a.id);
      assert log + [] == log;
    } else {
      StemOther(env, s, log, a);
    }
  }

  // ------------------------------------------------------------- main results

  /** The grant at i stems from the redemption at j, whose ticket had been vetted under this key. */
  ghost predicate StemsFrom(env: Env, log: seq<Event>, i: nat, key: Key, j: nat)
    requires i < |log| && log[i].Granted?
  {
    && j < i && log[j] == Redeemed(log[i].epoch, key, log[i].message, HourOf(log[i].committed))
    && Vetted(env, log[..j], log[i].epoch, key, log[i].message) && KeyOf(log[..j], log[i].epoch, key)
    && log[i].deadline - log[i].first.mono == log[i].until - log[i].first.wall
  }

  /** Over every run, whatever the clock does: what is granted was redeemed earlier, and before that found to
      be an authentic ticket of its epoch under a key returned for that epoch; and its deadline is the same
      time away on both clocks. */
  lemma {:induction false} GrantedIsRedeemed(env: Env, policy: Policy, clock: nat, actions: seq<Action>, i: nat)
    requires i < |Run(env, Initial(policy, clock), actions).1| && Run(env, Initial(policy, clock), actions).1[i].Granted?
    ensures exists key, j :: StemsFrom(env, Run(env, Initial(policy, clock), actions).1, i, key, j)
  {
    StemRun(env, policy, clock, actions);
    var (s, log) := Run(env, Initial(policy, clock), actions);
    hide Run, Vetted, KeyOf, HourOf;
    assert GrantStems(log[..i], log[i]);
    var key :| Redeemed(log[i].epoch, key, log[i].message, HourOf(log[i].committed)) in log[..i];
    var j :| 0 <= j < i && log[..i][j] == Redeemed(log[i].epoch, key, log[i].message, HourOf(log[i].committed));
    RedeemedIsVetted(env, policy, clock, actions, j);
    assert StemsFrom(env, log, i, key, j);
  }

  /** Over every run, whatever the clock does: a grant's deadline lies as far ahead of redeem's first reading,
      on either clock, as the expiry of the ticket's epoch lies ahead of the second, to within a millisecond. */
  lemma {:induction false} DeadlineIsExpiry(env: Env, policy: Policy, clock: nat, actions: seq<Action>, i: nat)
    requires i < |Run(env, Initial(policy, clock), actions).1| && Run(env, Initial(policy, clock), actions).1[i].Granted?
    ensures
      var e := Run(env, Initial(policy, clock), actions).1[i];
      var left := (e.epoch + LIFETIME) * HOUR - e.at;
      && left <= e.until - e.first.wall < left + MILLISECOND
      && left <= e.deadline - e.first.mono < left + MILLISECOND
  {
    StemRun(env, policy, clock, actions);
    hide Run, HourOf;
    var log := Run(env, Initial(policy, clock), actions).1;
    assert GrantStems(log[..i], log[i]);
  }

  /** The readings are those taken: in every run a handler that has redeemed a ticket, and then reads the clock
      twice with any bystanders in between, is given a deadline as far ahead of the first reading, on either
      clock, as the ticket's expiry is of the second. */
  lemma {:induction false} RedeemedIsGranted(env: Env, policy: Policy, clock: nat, before: seq<Action>, id: nat, meanwhile: seq<Action>)
    requires
      var s := Run(env, Initial(policy, clock), before).0;
      At(s, id) && s.handlers[id].Marked? && TicketCompleteness.Bystanders(id, meanwhile)
    ensures
      var c := Run(env, Initial(policy, clock), before);
      var c' := TicketCompleteness.RunOn(env, c, [ReadClock(id)] + meanwhile);
      var more := Step(env, c'.0, Grant(id), |c'.1|).1;
      var (t, left) := (c.0.handlers[id].ticket, (c.0.handlers[id].ticket.epoch + LIFETIME) * HOUR - c'.0.clock);
      && |more| == 1 && more[0].Granted? && more[0].epoch == t.epoch && more[0].message == t.message
      && left <= more[0].until - c.0.clock < left + MILLISECOND
      && left <= more[0].deadline - c.0.access.core.clock < left + MILLISECOND
  {
    var c := Run(env, Initial(policy, clock), before);
    TraceRun(env, policy, clock, before);
    hide Run, TicketCompleteness.RunOn, EventTraced, ChallengeTraced, AccessTraced, ExpiryMillis, Step;
    var p := c.0.handlers[id];
    assert PhaseTraced(env, c.0.policy, c.1, p);
    ReadStep(env, c.0, id, |c.1|);
    TicketCompleteness.StepThenBystanders(env, c, ReadClock(id), meanwhile, id);
    var c' := TicketCompleteness.RunOn(env, c, [ReadClock(id)] + meanwhile);
    GrantAfterRead(env, c'.0, id, |c'.1|);
    hide Until;
    UntilIsExpiry(p.ticket.epoch, c.0.clock, c'.0.clock);
    UntilIsExpiry(p.ticket.epoch, c.0.access.core.clock, c'.0.clock);
  }

  lemma ReadStep(env: Env, s: State, id: nat, serial: nat)
    requires At(s, id) && s.handlers[id].Marked?
    ensures
      var p := s.handlers[id];
      var s' := Step(env, s, ReadClock(id), serial).0;
      At(s', id) && s'.handlers[id] == Granting(p.ticket, p.d, p.committed, Reading(s.clock, s.access.core.clock))
  {
  }

  lemma GrantAfterRead(env: Env, s: State, id: nat, serial: nat)
    requires At(s, id) && s.handlers[id].Granting?
    ensures
      var p := s.handlers[id];
      Step(env, s, Grant(id), serial).1 ==
      [Granted(p.ticket.epoch, p.ticket.message, p.committed, p.first, s.clock, Until(p.first.wall, s.clock, p.d.expiresAt), Until(p.first.mono, s.clock, p.d.expiresAt))]
  {
    hide Until;
  }

  /** No deadline granted for an epoch is 12 hours and a millisecond past any membership check that
      tickets of that epoch were issued on. */
  lemma {:induction false} DeadlineWithinCheck(env: Env, policy: Policy, clock: nat, actions: seq<Action>, i: nat, j: nat)
    requires Forward(actions)
    requires
      var log := Run(env, Initial(policy, clock), actions).1;
      i < |log| && j < |log| && log[i].Issued? && log[j].Granted? && log[i].epoch == log[j].epoch
    ensures
      var log := Run(env, Initial(policy, clock), actions).1;
      log[j].until < log[i].checked + LIFETIME * HOUR + MILLISECOND
  {
    hide Run, Confirmed, HourOf;
    GrantRun(env, policy, clock, actions);
    TicketIssuance.IssuanceIsConfirmed(env, policy, clock, actions, i);
    assert GrantTimed(Run(env, Initial(policy, clock), actions).1[j]);
  }

  /** A ticket never yields two deadlines that lie ahead when they are given: however its redemptions
      interleave, all grants but one come out expired. */
  lemma {:induction false} OneLiveGrantPerTicket(env: Env, policy: Policy, clock: nat, actions: seq<Action>, i: nat, j: nat)
    requires Forward(actions)
    requires
      var log := Run(env, Initial(policy, clock), actions).1;
      && i < j < |log| && log[i].Granted? && log[j].Granted?
      && log[i].epoch == log[j].epoch && log[i].message == log[j].message
    ensures
      var log := Run(env, Initial(policy, clock), actions).1;
      log[i].until <= log[i].at || log[j].until <= log[j].at
  {
    hide Run;
    GrantRun(env, policy, clock, actions);
    ForwardRun(env, policy, clock, actions);
    var log := Run(env, Initial(policy, clock), actions).1;
    var epoch, message := log[i].epoch, log[i].message;
    BackedRun(env, policy, clock, actions, epoch, message);
    EarlyOnce(log, epoch, message);
    SeqSumAtLeast(log, EarlyGranted(epoch, message), i, j);
    assert GrantTimed(log[i]) && GrantTimed(log[j]);
  }
}
