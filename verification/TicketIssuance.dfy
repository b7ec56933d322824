/**
 Issuance: every batch of signatures goes back to its own challenge and to a Core's confirmation of
 membership, and so every connection deadline to the time of that confirmation.
 */
module TicketIssuance {
  import opened Clock
  import opened Options
  import opened TicketStore
  import opened TicketProtocol
  import opened TicketTrace
  import TicketKeys
  import Membership
  import opened Sums

  // --------------------------------------------- a challenge is a single token

  function InMap(n: nat): Challenge -> nat { (c: Challenge) => if c.serial == n then 1 else 0 }

  function WasTaken(n: nat): Event -> nat { (e: Event) => if e.NonceTaken? && e.serial == n then 1 else 0 }

  function WasIssued(n: nat): Event -> nat { (e: Event) => if e.Issued? && e.serial == n then 1 else 0 }

  /** The challenge a handler is working on, from taking it out of the map to answering. */
  function Holds(n: nat): Phase -> nat
  {
    (p: Phase) =>
      match p
      case Presented(_, _, found) => if found.Some? && found.value.serial == n then 1 else 0
      case Proven(_, _, serial) => if serial == n then 1 else 0
      case Rechecking(_, _, serial) => if serial == n then 1 else 0
      case Approved(_, _, serial, _) => if serial == n then 1 else 0
      case Charged(_, _, serial, _, _) => if serial == n then 1 else 0
      case Signing(_, _, serial, _, _, _) => if serial == n then 1 else 0
      case _ => 0
  }

  /** The challenge made by log entry n is still on offer or was taken, never both and never twice; and
      what was taken once is held by at most one handler or was issued against at most once. */
  ghost predicate TokenInv(s: State, log: seq<Event>, n: nat)
  {
    var taken := SeqSum(log, WasTaken(n));
    && MapSum(s.challenges, InMap(n)) + taken <= (if n < |log| then 1 else 0)
    && SeqSum(log, WasIssued(n)) + MapSum(s.handlers, Holds(n)) <= taken
  }

  lemma LogGrows(log: seq<Event>, more: seq<Event>, n: nat)
    ensures SeqSum(log + more, WasTaken(n)) == SeqSum(log, WasTaken(n)) + SeqSum(more, WasTaken(n))
    ensures SeqSum(log + more, WasIssued(n)) == SeqSum(log, WasIssued(n)) + SeqSum(more, WasIssued(n))
    ensures (forall i :: 0 <= i < |more| ==> !more[i].NonceTaken?) ==> SeqSum(more, WasTaken(n)) == 0
    ensures (forall i :: 0 <= i < |more| ==> !more[i].Issued?) ==> SeqSum(more, WasIssued(n)) == 0
  {
    SeqSumAppend(log, more, WasTaken(n));
    SeqSumAppend(log, more, WasIssued(n));
    if forall i :: 0 <= i < |more| ==> !more[i].NonceTaken? { SeqSumZero(more, WasTaken(n)); }
    if forall i :: 0 <= i < |more| ==> !more[i].Issued? { SeqSumZero(more, WasIssued(n)); }
  }

  lemma TurnHolds(env: Env, policy: Policy, now: Reading, p: Phase, a: Action, n: nat)
    ensures
      var turn := LocalTurn(env, policy, now, p, a);
      turn.Some? ==>
        (if turn.value.next.None? then 0 else Holds(n)(turn.value.next.value)) + SeqSum(turn.value.events, WasIssued(n))
        <= Holds(n)(p)
  {
    hide Millis, TicketValid, ProofValid;
    var turn := LocalTurn(env, policy, now, p, a);
    if turn.Some? && |turn.value.events| == 1 {
      SeqSumOne(turn.value.events[0], WasIssued(n));
    }
  }

  lemma TokenLocal(env: Env, s: State, log: seq<Event>, id: nat, a: Action, n: nat)
    requires TokenInv(s, log, n)
    ensures
      var (s', more) := DoLocal(env, s, id, a);
      TokenInv(s', log + more, n)
  {
    hide LocalTurn, Settle, Holds;
    var (s', more) := DoLocal(env, s, id, a);
    LogGrows(log, more, n);
    if At(s, id) {
      TurnHolds(env, s.policy, Now(s), s.handlers[id], a, n);
      var turn := LocalTurn(env, s.policy, Now(s), s.handlers[id], a);
      if turn.Some? { SettleSum(s, id, turn.value.next, Holds(n)); }
    }
    assert more == [] ==> SeqSum(more, WasIssued(n)) == 0;
  }

  /** A challenge made now is one token more, unless it is refused. */
  lemma OfferTokens(cs: map<string, Challenge>, nonce: string, c: Challenge, now: Reading, n: nat)
    ensures
      var (cs', ok) := AddChallenge(cs, nonce, c, now);
      MapSum(cs', InMap(n)) <= MapSum(cs, InMap(n)) + if ok && c.serial == n then 1 else 0
  {
    var live := Unexpired(cs, now);
    MapSumSubmap(live, cs, InMap(n));
    MapSumUpdate(live, InMap(n), nonce, c);
  }

  lemma TokenOffer(env: Env, s: State, log: seq<Event>, id: nat, nonce: string, n: nat)
    requires TokenInv(s, log, n)
    ensures
      var (s', more) := DoOffer(env, s, id, nonce, |log|);
      TokenInv(s', log + more, n)
  {
    hide Settle, SeqSum, MapSum, AddChallenge;
    var (s', more) := DoOffer(env, s, id, nonce, |log|);
    LogGrows(log, more, n);
    if At(s, id) && s.handlers[id].Stamped? && s.handlers[id].req.AskChallenge? {
      var p := s.handlers[id];
      SettleSum(s.(challenges := s'.challenges), id, None, Holds(n));
      var c := Challenge(env.binding(p.d.keyId, p.req.blinded), p.d.epoch, Later(p.stamped, MINUTE), |log|);
      OfferTokens(s.challenges, nonce, c, Now(s), n);
    }
  }

  lemma TokenTake(s: State, log: seq<Event>, id: nat, n: nat)
    requires TokenInv(s, log, n)
    ensures
      var (s', more) := DoTakeNonce(s, id);
      TokenInv(s', log + more, n)
  {
    hide Settle;
    var (s', more) := DoTakeNonce(s, id);
    LogGrows(log, more, n);
    if At(s, id) && s.handlers[id].Described? && s.handlers[id].req.AskIssue? {
      var p := s.handlers[id];
      var nonce := p.req.proof.nonce;
      var found := if nonce in s.challenges then Some(s.challenges[nonce]) else None;
      SettleSum(s.(challenges := s.challenges - {nonce}), id, Some(Presented(p.req, p.d, found)), Holds(n));
      if found.Some? {
        MapSumRemove(s.challenges, InMap(n), nonce);
        SeqSumOne(more[0], WasTaken(n));
      } else {
        assert s.challenges - {nonce} == s.challenges;
      }
    }
  }

  lemma TokenDescriptor(env: Env, s: State, log: seq<Event>, id: nat, candidate: Key, fault: Fault, n: nat)
    requires TokenInv(s, log, n)
    ensures
      var (s', more) := DoDescriptor(env, s, id, candidate, fault);
      TokenInv(s', log + more, n)
  {
    hide Settle, Describe, DescriptorFor;
    var (s', more) := DoDescriptor(env, s, id, candidate, fault);
    LogGrows(log, more, n);
    if Describing(s, id) && candidate !in s.minted {
      var p := s.handlers[id];
      var o := Describe(s.durable, s.cache, s.policy.revision, WantedEpoch(p), s.lock.value.hour, candidate, fault);
      var next := if o.key.None? then None
                  else AfterDescriptor(p, DescriptorFor(env, s.policy, WantedEpoch(p), o.key.value));
      SettleSum(s.(durable := o.durable, cache := o.cache, minted := s.minted + {candidate}, lock := None), id, next, Holds(n));
    }
  }

  /** A step that leaves the challenges alone and takes and issues nothing: the handler that moves goes
      on holding at most what it held. */
  lemma TokenMove(s: State, log: seq<Event>, s': State, id: nat, more: seq<Event>, n: nat)
    requires TokenInv(s, log, n) && s'.challenges == s.challenges
    requires forall i :: 0 <= i < |more| ==> !more[i].NonceTaken? && !more[i].Issued?
    requires s'.handlers == s.handlers || s'.handlers == s.handlers - {id} ||
             (id in s'.handlers && s'.handlers == s.handlers[id := s'.handlers[id]] &&
              Holds(n)(s'.handlers[id]) <= if id in s.handlers then Holds(n)(s.handlers[id]) else 0)
    ensures TokenInv(s', log + more, n)
  {
    hide Holds;
    LogGrows(log, more, n);
    SettleSum(s, id, if id in s'.handlers then Some(s'.handlers[id]) else None, Holds(n));
  }

  lemma TokenStore(env: Env, s: State, log: seq<Event>, id: nat, keyN: nat, fails: bool, n: nat)
    requires TokenInv(s, log, n)
    ensures
      var (s', more) := DoCharge(env, s, id, keyN, fails);
      TokenInv(s', log + more, n)
    ensures
      var (s', more) := DoSpend(env, s, id, keyN, fails);
      TokenInv(s', log + more, n)
  {
    hide HourOf, ChargeQuota, CommitSpent, LiveCount, TokenInv;
    var (s', more) := DoCharge(env, s, id, keyN, fails);
    TokenMove(s, log, s', id, more, n);
    var (s2, more2) := DoSpend(env, s, id, keyN, fails);
    TokenMove(s, log, s2, id, more2, n);
  }

  lemma TokenAnswer(env: Env, s: State, log: seq<Event>, id: nat, n: nat)
    requires TokenInv(s, log, n)
    ensures TokenInv(DoTakeAnswer(s, id), log + [], n)
  {
    hide TokenInv, Millis, Membership.Step;
    TokenMove(s, log, DoTakeAnswer(s, id), id, [], n);
  }

  lemma TokenEnterOrLeave(env: Env, s: State, log: seq<Event>, a: Action, n: nat)
    requires TokenInv(s, log, n) && (a.Enter? || a.Abandon?)
    ensures
      var (s', more) := Step(env, s, a, |log|);
      TokenInv(s', log + more, n)
  {
    hide HourOf, DoLocal, DoDescriptor, DoOffer, DoTakeNonce, DoAccess, DoCall, DoTakeAnswer, DoCharge, DoSpend, DoRedeemAtOnce, DoLock, TokenInv;
    var (s', more) := Step(env, s, a, |log|);
    TokenMove(s, log, s', a.id, more, n);
  }

  lemma TokenAtOnce(env: Env, s: State, log: seq<Event>, t: Ticket, candidate: Key, fault: Fault, keyN: nat, fails: bool, n: nat)
    requires TokenInv(s, log, n)
    ensures
      var (s', more) := DoRedeemAtOnce(env, s, t, candidate, fault, keyN, fails);
      TokenInv(s', log + more, n)
  {
    hide HourOf, Describe, RedeemWith, LiveCount, TokenInv;
    var (s', more) := DoRedeemAtOnce(env, s, t, candidate, fault, keyN, fails);
    TokenMove(s, log, s', 0, more, n);
  }

  /** Steps that move no handler; a restart forgets challenges and handlers. */
  lemma TokenOther(env: Env, s: State, log: seq<Event>, a: Action, n: nat)
    requires TokenInv(s, log, n)
    requires a.Advance? || a.JumpBack? || a.Restart? || a.Lock? || a.AccessStep? || a.CallMembership?
    ensures
      var (s', more) := Step(env, s, a, |log|);
      TokenInv(s', log + more, n)
  {
    hide HourOf, DoLocal, DoOffer, DoTakeNonce, DoCharge, DoSpend, DoEnter, DoDescriptor, DoRedeemAtOnce, DoAccess, DoCall, DoTakeAnswer;
    var (s', more) := Step(env, s, a, |log|);
    if a.Restart? {
      LogGrows(log, more, n);
    } else {
      hide TokenInv;
      TokenMove(s, log, s', 0, more, n);
    }
  }

  lemma TokenStep(env: Env, s: State, log: seq<Event>, a: Action, n: nat)
    requires TokenInv(s, log, n)
    ensures
      var (s', more) := Step(env, s, a, |log|);
      TokenInv(s', log + more, n)
  {
    hide TokenInv, DoLocal, DoDescriptor, DoOffer, DoTakeNonce, DoCharge, DoSpend, DoEnter, DoRedeemAtOnce, DoAccess, DoCall, DoTakeAnswer, DoLock;
    if Local(a) {
      TokenLocal(env, s, log, a.id, a, n);
    } else if a.Offer? {
      TokenOffer(env, s, log, a.id, a.nonce, n);
    } else if a.TakeNonce? {
      TokenTake(s, log, a.id, n);
    } else if a.RunDescriptor? {
      TokenDescriptor(env, s, log, a.id, a.candidate, a.fault, n);
    } else if a.Charge? || a.Spend? {
      TokenStore(env, s, log, a.id, a.keyN, a.fails, n);
    } else if a.Enter? || a.Abandon? {
      TokenEnterOrLeave(env, s, log, a, n);
    } else if a.TakeAnswer? {
      TokenAnswer(env, s, log, a.id, n);
    } else if a.RedeemAtOnce? {
      TokenAtOnce(env, s, log, a.ticket, a.candidate, a.fault, a.keyN, a.fails, n);
    } else {
      TokenOther(env, s, log, a, n);
    }
  }

  lemma {:induction false} TokenRun(env: Env, policy: Policy, clock: nat, actions: seq<Action>, n: nat)
    ensures
      var (s, log) := Run(env, Initial(policy, clock), actions);
      TokenInv(s, log, n)
  {
    if actions != [] {
      var before := actions[..|actions| - 1];
      TokenRun(env, policy, clock, before, n);
      var (s, log) := Run(env, Initial(policy, clock), before);
      TokenStep(env, s, log, actions[|actions| - 1], n);
    }
  }

  // ------------------------------------------------------------- main results

  /** Every batch of signatures was asked for with a challenge made earlier in the run, with the same
      nonce, batch binding and epoch, and a signed proof over it, for this relay, policy and batch, had been
      accepted within the minute. */
  lemma {:induction false} IssuanceHasItsChallenge(env: Env, policy: Policy, clock: nat, actions: seq<Action>, i: nat)
    requires i < |Run(env, Initial(policy, clock), actions).1|
    requires Run(env, Initial(policy, clock), actions).1[i].Issued?
    ensures
      var log := Run(env, Initial(policy, clock), actions).1;
      && Made(log[..i], log[i].serial, log[i].proof.nonce, log[i].binding, log[i].epoch)
      && Attested(env, log[i].policy, log[..i], log[i].serial, log[i].proof, log[i].binding)
  {
    TraceRun(env, policy, clock, actions);
    var log := Run(env, Initial(policy, clock), actions).1;
    assert EventTraced(env, log[..i], log[i]);
  }

  /** Every batch of one to three is signed under the very key of the descriptor the client blinded it
      for, although descriptor is called twice, with other handlers, key creation and hours in between. */
  lemma {:induction false} SignedUnderClaimedKey(env: Env, policy: Policy, clock: nat, actions: seq<Action>, i: nat)
    requires i < |Run(env, Initial(policy, clock), actions).1|
    requires Run(env, Initial(policy, clock), actions).1[i].Issued?
    ensures
      var log := Run(env, Initial(policy, clock), actions).1;
      log[i].key == log[i].claimed.key && 1 <= log[i].n <= 3
  {
    TraceRun(env, policy, clock, actions);
    TicketKeys.RunKeeps(env, policy, clock, actions);
    hide Run;
    var log := Run(env, Initial(policy, clock), actions).1;
    var e := log[i];
    assert EventTraced(env, log[..i], e);
    assert KeyReturned(e.policy.revision, e.epoch, e.key) in log && KeyReturned(e.policy.revision, e.epoch, e.claimed.key) in log;
  }

  /** No two batches go back to the same challenge, and no challenge is ever taken twice. */
  lemma {:induction false} OneBatchPerChallenge(env: Env, policy: Policy, clock: nat, actions: seq<Action>, i: nat, j: nat)
    requires i < j < |Run(env, Initial(policy, clock), actions).1|
    ensures
      var log := Run(env, Initial(policy, clock), actions).1;
      && (log[i].Issued? && log[j].Issued? ==> log[i].serial != log[j].serial)
      && (log[i].NonceTaken? && log[j].NonceTaken? ==> log[i].serial != log[j].serial)
  {
    var log := Run(env, Initial(policy, clock), actions).1;
    if log[i].Issued? || log[i].NonceTaken? {
      TokenRun(env, policy, clock, actions, log[i].serial);
      SeqSumAtLeast(log, WasIssued(log[i].serial), i, j);
      SeqSumAtLeast(log, WasTaken(log[i].serial), i, j);
    }
  }

  /** Presenting a challenge uses it up, whatever becomes of the proof. */
  lemma PresentingConsumes(env: Env, s: State, id: nat, serial: nat)
    requires At(s, id) && s.handlers[id].Described? && s.handlers[id].req.AskIssue?
    ensures
      var nonce := s.handlers[id].req.proof.nonce;
      var s' := Step(env, s, TakeNonce(id), serial).0;
      nonce !in s'.challenges && forall n :: n in s.challenges && n != nonce ==> n in s'.challenges && s'.challenges[n] == s.challenges[n]
  {
  }

  /** Every batch rests on a Core's positive reply, received earlier, for that very address and a group
      the policy allows, to a request started no earlier than the epoch's first instant. */
  lemma {:induction false} IssuanceIsConfirmed(env: Env, policy: Policy, clock: nat, actions: seq<Action>, i: nat)
    requires i < |Run(env, Initial(policy, clock), actions).1|
    requires Run(env, Initial(policy, clock), actions).1[i].Issued?
    ensures
      var log := Run(env, Initial(policy, clock), actions).1;
      && Confirmed(log[i].policy, log[..i], log[i].proof.address, log[i].checked)
      && log[i].checked >= log[i].epoch * HOUR
  {
    TraceRun(env, policy, clock, actions);
    var log := Run(env, Initial(policy, clock), actions).1;
    assert EventTraced(env, log[..i], log[i]);
  }
}
