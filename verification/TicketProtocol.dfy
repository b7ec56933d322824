/**
 The ticket authority as a state machine. Every critical section, database transaction and clock
 reading of handle and redeem is one action; the clock and a crash are actions of their own. A run
 is any sequence of actions; an action that is not enabled changes nothing.
 */
module TicketProtocol {
  import opened Clock
  import opened Options
  import opened TicketStore
  import opened Sums
  import CoreLookups
  import Membership

  // ------------------------------------------------------------ environment

  /** Cryptography and hashing, left abstract. Nothing is assumed of these functions. */
  datatype Env = Env(
    keyId: (Key, string, string, int) -> string,
    digest: string -> string,
    accountHash: string -> string,
    binding: (string, seq<string>) -> string,
    proofSigned: Proof -> bool,
    verify: (Key, string, string) -> bool)

  datatype Policy = Policy(revision: string, pin: string, core: CoreLookups.Config)

  datatype Descriptor = Descriptor(epoch: int, expiresAt: int, key: Key, keyId: string, revision: string, pin: string)

  datatype Proof = Proof(kind: string, pin: string, policy: string, binding: string, nonce: string,
                         expiresAt: int, address: string)

  datatype Ticket = Ticket(epoch: int, keyId: string, message: string, signature: string)

  const DOMAIN := "Qortal-MASQUE-Ticket-v1\0"
  const ISSUE_KIND := "masque-ticket-issue-v1"

  function DescriptorFor(env: Env, policy: Policy, epoch: int, key: Key): Descriptor
  {
    Descriptor(epoch, ExpiryMillis(epoch), key, env.keyId(key, policy.revision, policy.pin, epoch),
               policy.revision, policy.pin)
  }

  /** The checks redeem makes between its two looks at the clock. */
  predicate TicketValid(env: Env, d: Descriptor, t: Ticket)
  {
    && t.keyId == d.keyId
    && |t.message| == |DOMAIN + d.keyId| + 32
    && DOMAIN + d.keyId <= t.message
    && |t.signature| == 256
    && env.verify(d.key, t.message, t.signature)
  }

  predicate ProofValid(env: Env, policy: Policy, d: Descriptor, blinded: seq<string>, proof: Proof,
                       c: Challenge, now: Reading)
  {
    && now.mono <= c.expires.mono
    && c.epoch == d.epoch
    && c.binding == env.binding(d.keyId, blinded)
    && proof.kind == ISSUE_KIND
    && proof.pin == policy.pin
    && proof.policy == policy.revision
    && proof.binding == c.binding
    && proof.expiresAt == Millis(c.expires.wall)
    && env.proofSigned(proof)
  }

  // ------------------------------------------------------------------ state

  datatype Request =
    | Catalog
    | AskChallenge(claimed: Descriptor, blinded: seq<string>)
    | AskIssue(claimed: Descriptor, blinded: seq<string>, proof: Proof)
    | AskRedeem(ticket: Ticket)

  datatype Phase =
    | Calling(req: Request, epoch: int)
    | Described(req: Request, d: Descriptor)
    | Stamped(req: Request, d: Descriptor, stamped: Reading)
    | Presented(req: Request, d: Descriptor, found: Option<Challenge>)
    | Proven(req: Request, d: Descriptor, serial: nat)
    | Rechecking(req: Request, d: Descriptor, serial: nat)
    | Approved(req: Request, d: Descriptor, serial: nat, checked: nat)
    | Charged(req: Request, d: Descriptor, serial: nat, checked: nat, hour: nat)
    | Signing(req: Request, d: Descriptor, serial: nat, checked: nat, hour: nat, key: Key)
    | Accepted(ticket: Ticket, d: Descriptor)
    | Marked(ticket: Ticket, d: Descriptor, committed: nat)
    | Granting(ticket: Ticket, d: Descriptor, committed: nat, first: Reading)

  datatype Holder = Holder(id: nat, hour: nat)

  datatype State = State(
    clock: nat,
    durable: Durable,
    minted: set<Key>,
    policy: Policy,
    cache: map<int, Key>,
    challenges: map<string, Challenge>,
    lock: Option<Holder>,
    handlers: map<nat, Phase>,
    access: Membership.State)

  function Initial(policy: Policy, clock: nat): State
  {
    State(clock, EMPTY, {}, policy, map[], map[], None, map[], Membership.START)
  }

  // ------------------------------------------------------- actions and events

  datatype Action =
    | Advance(ns: nat)
    | JumpBack(ns: nat)
    | Restart(policy: Policy)
    | Enter(id: nat, req: Request)
    | Abandon(id: nat)
    | Lock(id: nat)
    | RunDescriptor(id: nat, candidate: Key, fault: Fault)
    | Stamp(id: nat)
    | Offer(id: nat, nonce: string)
    | TakeNonce(id: nat)
    | CheckProof(id: nat)
    | AccessStep(a: Membership.Action)
    | CallMembership(id: nat)
    | TakeAnswer(id: nat)
    | Charge(id: nat, keyN: nat, fails: bool)
    | Sign(id: nat)
    | Validate(id: nat)
    | Spend(id: nat, keyN: nat, fails: bool)
    | ReadClock(id: nat)
    | Grant(id: nat)
    | RedeemAtOnce(ticket: Ticket, candidate: Key, fault: Fault, keyN: nat, fails: bool)

  datatype Event =
    | KeyReturned(revision: string, epoch: int, key: Key)
    | ChallengeMade(nonce: string, binding: string, epoch: int, stamped: Reading)
    | NonceTaken(serial: nat)
    | ProofAccepted(serial: nat, read: Reading, proof: Proof)
    | Accessed(policy: Policy, event: Membership.Event)
    | Issued(policy: Policy, key: Key, epoch: int, claimed: Descriptor, proof: Proof, n: nat, serial: nat, binding: string, checked: nat)
    | QuotaCharged(record: RecordKey, n: nat, hour: nat)
    | Verified(policy: Policy, key: Key, ticket: Ticket, at: nat)
    | Redeemed(epoch: int, key: Key, message: string, hour: nat)
    | Granted(epoch: int, message: string, committed: nat, first: Reading, at: nat, until: int, deadline: int)

  // ------------------------------------------------- steps of a single handler

  /** Phases in which a handler is about to call descriptor. */
  predicate CallsDescriptor(p: Phase) { p.Calling? || p.Charged? }

  /** Phases in which a handler is about to ask, or waits to be told, whether the address is a member. */
  predicate AsksAccess(p: Phase) { (p.Proven? || p.Rechecking?) && p.req.AskIssue? }

  /** Where a handler goes next (nowhere: it has answered) and what the outside sees of it. */
  datatype Turn = Turn(next: Option<Phase>, events: seq<Event>)

  /** What a handler becomes when descriptor has returned a key. */
  function AfterDescriptor(p: Phase, d: Descriptor): Option<Phase>
  {
    match p
    case Calling(req, _) =>
      if req.AskRedeem? then Some(Described(req, d))
      else if (req.AskChallenge? || req.AskIssue?) && req.claimed == d && 1 <= |req.blinded| <= 3 then Some(Described(req, d))
      else None
    case Charged(req, d0, serial, checked, hour) => Some(Signing(req, d0, serial, checked, hour, d.key))
    case _ => None
  }

  function Proved(env: Env, policy: Policy, now: Reading, p: Phase): Turn
    requires p.Presented? && p.req.AskIssue?
  {
    if p.found.Some? && ProofValid(env, policy, p.d, p.req.blinded, p.req.proof, p.found.value, now)
    then Turn(Some(Proven(p.req, p.d, p.found.value.serial)), [ProofAccepted(p.found.value.serial, now, p.req.proof)])
    else Turn(None, [])
  }

  /** The issuance goes on only if the epoch expires no later than 12 hours after the check. */
  function Admit(req: Request, d: Descriptor, serial: nat, answer: CoreLookups.Answer): Option<Phase>
  {
    if CoreLookups.IsMember(answer) && d.expiresAt <= Millis(answer.checked.wall + LIFETIME * HOUR)
    then Some(Approved(req, d, serial, answer.checked.wall))
    else None
  }

  /** The first answer; one that is positive but older than the epoch is asked for again. */
  function FirstAnswer(p: Phase, answer: CoreLookups.Answer): Option<Phase>
    requires p.Proven?
  {
    if CoreLookups.IsMember(answer) && answer.checked.wall / SECOND < p.d.epoch * 3600
    then Some(Rechecking(p.req, p.d, p.serial))
    else Admit(p.req, p.d, p.serial, answer)
  }

  /** The blind signatures leave the relay, all of the batch at once. */
  function Signatures(env: Env, policy: Policy, p: Phase): Event
    requires p.Signing? && p.req.AskIssue?
  {
    Issued(policy, p.key, p.d.epoch, p.req.claimed, p.req.proof, |p.req.blinded|, p.serial, env.binding(p.d.keyId, p.req.blinded), p.checked)
  }

  function Validated(env: Env, policy: Policy, now: nat, p: Phase): Turn
    requires p.Described? && p.req.AskRedeem?
  {
    if Millis(now) < p.d.expiresAt && TicketValid(env, p.d, p.req.ticket)
    then Turn(Some(Accepted(p.req.ticket, p.d)), [Verified(policy, p.d.key, p.req.ticket, now)])
    else Turn(None, [])
  }

  /** The deadline of a grant: the first reading plus what the second one leaves until expiry. */
  function Until(first: nat, second: nat, expiresAt: int): int
  {
    first + (expiresAt - Millis(second)) * MILLISECOND
  }

  /** What redeem returns: a time on the wall clock and, the same time away, on the clock that only goes on. */
  function Deadline(p: Phase, second: nat): Event
    requires p.Granting?
  {
    Granted(p.ticket.epoch, p.ticket.message, p.committed, p.first, second,
            Until(p.first.wall, second, p.d.expiresAt), Until(p.first.mono, second, p.d.expiresAt))
  }

  /** Actions that touch nothing but the handler itself; None when not enabled. */
  function LocalTurn(env: Env, policy: Policy, now: Reading, p: Phase, a: Action): Option<Turn>
  {
    match a
    case Stamp(_) =>
      if p.Described? && p.req.AskChallenge? then Some(Turn(Some(Stamped(p.req, p.d, now)), [])) else None
    case CheckProof(_) =>
      if p.Presented? && p.req.AskIssue? then Some(Proved(env, policy, now, p)) else None
    case Sign(_) =>
      if p.Signing? && p.req.AskIssue? then Some(Turn(None, [Signatures(env, policy, p)])) else None
    case Validate(_) =>
      if p.Described? && p.req.AskRedeem? then Some(Validated(env, policy, now.wall, p)) else None
    case ReadClock(_) =>
      if p.Marked? then Some(Turn(Some(Granting(p.ticket, p.d, p.committed, now)), [])) else None
    case Grant(_) =>
      if p.Granting? then Some(Turn(None, [Deadline(p, now.wall)])) else None
    case _ => None
  }

  /** A handler that is calling descriptor or asking about membership does nothing on its own, and on its
      own a handler never gets as far as calling descriptor, holding a key again or asking again. */
  lemma LocalMoves(env: Env, policy: Policy, now: Reading, p: Phase, a: Action)
    ensures
      var turn := LocalTurn(env, policy, now, p, a);
      && (CallsDescriptor(p) || AsksAccess(p) ==> turn.None?)
      && (turn.Some? && turn.value.next.Some? ==>
            !CallsDescriptor(turn.value.next.value) && !turn.value.next.value.Signing? && !turn.value.next.value.Rechecking?)
  {
    hide Millis, TicketValid, ProofValid;
  }

  // ------------------------------------------------------------------ steps

  /** Reading the time: the wall clock, and the clock that only goes on. */
  function Now(s: State): Reading { Reading(s.clock, s.access.core.clock) }

  predicate At(s: State, id: nat) { id in s.handlers }

  function Settle(s: State, id: nat, next: Option<Phase>): (r: State)
    ensures r == s.(handlers := r.handlers)
  {
    if next.None? then s.(handlers := s.handlers - {id}) else s.(handlers := s.handlers[id := next.value])
  }

  /** Replacing one handler's phase changes any total over handlers by the difference of the weights. */
  lemma SettleSum(s: State, id: nat, next: Option<Phase>, w: Phase -> nat)
    ensures MapSum(Settle(s, id, next).handlers, w) + (if id in s.handlers then w(s.handlers[id]) else 0)
         == MapSum(s.handlers, w) + (if next.None? then 0 else w(next.value))
  {
    if next.None? {
      if id in s.handlers { MapSumRemove(s.handlers, w, id); } else { assert s.handlers - {id} == s.handlers; }
    } else {
      MapSumUpdate(s.handlers, w, id, next.value);
    }
  }

  function DoLocal(env: Env, s: State, id: nat, a: Action): (r: (State, seq<Event>))
    ensures r.0 == s.(handlers := r.0.handlers)
    ensures forall i :: 0 <= i < |r.1| ==> r.1[i].Issued? || r.1[i].Verified? || r.1[i].Granted? || r.1[i].ProofAccepted?
  {
    if At(s, id) then
      var turn := LocalTurn(env, s.policy, Now(s), s.handlers[id], a);
      if turn.None? then (s, []) else (Settle(s, id, turn.value.next), turn.value.events)
    else (s, [])
  }

  function DoEnter(s: State, id: nat, req: Request): State
  {
    if At(s, id) then s
    else Settle(s, id, Some(Calling(req, if req.AskRedeem? then req.ticket.epoch else HourOf(s.clock))))
  }

  /** A handler fails: not while it is inside descriptor or a membership call, which first return. */
  function DoAbandon(s: State, id: nat): State
  {
    if (s.lock.Some? && s.lock.value.id == id) || id in s.access.callers then s else Settle(s, id, None)
  }

  function WantedEpoch(p: Phase): int
    requires CallsDescriptor(p)
  {
    if p.Calling? then p.epoch else p.d.epoch
  }

  /** Taking the authority's mutex; the hour is read right after. */
  function DoLock(s: State, id: nat): State
  {
    if At(s, id) && s.lock.None? && CallsDescriptor(s.handlers[id]) then
      s.(lock := Some(Holder(id, HourOf(s.clock))))
    else s
  }

  predicate Describing(s: State, id: nat)
  {
    s.lock.Some? && s.lock.value.id == id && At(s, id) && CallsDescriptor(s.handlers[id])
  }

  /** The body of descriptor, run by the lock holder with the hour it read; the lock is released. */
  function DoDescriptor(env: Env, s: State, id: nat, candidate: Key, fault: Fault): (State, seq<Event>)
  {
    if Describing(s, id) && candidate !in s.minted then
      var epoch := WantedEpoch(s.handlers[id]);
      var o := Describe(s.durable, s.cache, s.policy.revision, epoch, s.lock.value.hour, candidate, fault);
      var next := if o.key.None? then None
                  else AfterDescriptor(s.handlers[id], DescriptorFor(env, s.policy, epoch, o.key.value));
      (Settle(s.(durable := o.durable, cache := o.cache, minted := s.minted + {candidate}, lock := None), id, next),
       if o.key.None? then [] else [KeyReturned(s.policy.revision, epoch, o.key.value)])
    else (s, [])
  }

  function DoOffer(env: Env, s: State, id: nat, nonce: string, serial: nat): (State, seq<Event>)
  {
    if At(s, id) && s.handlers[id].Stamped? && s.handlers[id].req.AskChallenge? then
      var p := s.handlers[id];
      var binding := env.binding(p.d.keyId, p.req.blinded);
      var (cs, ok) := AddChallenge(s.challenges, nonce, Challenge(binding, p.d.epoch, Later(p.stamped, MINUTE), serial), Now(s));
      (Settle(s.(challenges := cs), id, None),
       if ok then [ChallengeMade(nonce, binding, p.d.epoch, p.stamped)] else [])
    else (s, [])
  }

  /** A challenge is used up by presenting it, before anything about the proof is looked at. */
  function DoTakeNonce(s: State, id: nat): (State, seq<Event>)
  {
    if At(s, id) && s.handlers[id].Described? && s.handlers[id].req.AskIssue? then
      var p := s.handlers[id];
      var nonce := p.req.proof.nonce;
      var found := if nonce in s.challenges then Some(s.challenges[nonce]) else None;
      (Settle(s.(challenges := s.challenges - {nonce}), id, Some(Presented(p.req, p.d, found))),
       if found.Some? then [NonceTaken(found.value.serial)] else [])
    else (s, [])
  }

  /** Steps of the access machine that are not calls or returns; they read the wall clock as it stands. */
  predicate OwnStep(a: Membership.Action, clock: nat)
  {
    && !a.Call? && !a.CallDirect? && !a.Depart?
    && (a.Ask? && (a.a.Take? || a.a.Conclude?) ==> a.a.wall == clock)
  }

  function DoAccess(s: State, a: Membership.Action): (r: (State, seq<Event>))
    ensures r.0 == s.(access := r.0.access)
    ensures forall i :: 0 <= i < |r.1| ==> r.1[i].Accessed?
  {
    if OwnStep(a, s.clock) then
      var (access, events) := Membership.Step(s.policy.core, s.access, a);
      (s.(access := access), seq(|events|, i requires 0 <= i < |events| => Accessed(s.policy, events[i])))
    else (s, [])
  }

  /** A handler calls membership; or checkGroups itself, if the answer it had was too old. */
  function DoCall(s: State, id: nat): (r: State)
    ensures r == s.(access := r.access)
  {
    if At(s, id) && AsksAccess(s.handlers[id]) then
      var p := s.handlers[id];
      var call := if p.Proven? then Membership.Call(id, p.req.proof.address) else Membership.CallDirect(id, p.req.proof.address);
      s.(access := Membership.Step(s.policy.core, s.access, call).0)
    else s
  }

  predicate HasAnswer(s: State, id: nat)
  {
    At(s, id) && AsksAccess(s.handlers[id]) && id in s.access.callers && s.access.callers[id].Done?
  }

  /** The call returns, and the handler goes on by its answer. */
  function DoTakeAnswer(s: State, id: nat): (r: State)
    ensures r == s.(access := r.access, handlers := r.handlers)
  {
    if HasAnswer(s, id) then
      var (p, answer) := (s.handlers[id], s.access.callers[id].answer);
      Settle(s.(access := Membership.Step(s.policy.core, s.access, Membership.Depart(id)).0), id,
             if p.Proven? then FirstAnswer(p, answer) else Admit(p.req, p.d, p.serial, answer))
    else s
  }

  function QuotaRecord(env: Env, d: Descriptor, proof: Proof): RecordKey
  {
    RecordKey(d.epoch, env.accountHash(proof.address))
  }

  function DoCharge(env: Env, s: State, id: nat, keyN: nat, fails: bool): (State, seq<Event>)
  {
    if At(s, id) && s.handlers[id].Approved? && s.handlers[id].req.AskIssue? && keyN >= |s.durable.quota| then
      var p := s.handlers[id];
      var record := QuotaRecord(env, p.d, p.req.proof);
      var (d1, ok) := ChargeQuota(s.durable, record, |p.req.blinded|, keyN);
      if ok && !fails then
        (Settle(s.(durable := d1), id, Some(Charged(p.req, p.d, p.serial, p.checked, HourOf(s.clock)))),
         [QuotaCharged(record, |p.req.blinded|, HourOf(s.clock))])
      else (Settle(s, id, None), [])
    else (s, [])
  }

  function Marker(env: Env, t: Ticket): RecordKey { RecordKey(t.epoch, env.digest(t.message)) }

  function DoSpend(env: Env, s: State, id: nat, keyN: nat, fails: bool): (State, seq<Event>)
  {
    if At(s, id) && s.handlers[id].Accepted? && keyN >= LiveCount(s.durable, HourOf(s.clock)) then
      var p := s.handlers[id];
      var (d1, ok) := CommitSpent(s.durable, Marker(env, p.ticket), HourOf(s.clock), keyN);
      if ok && !fails then
        (Settle(s.(durable := d1), id, Some(Marked(p.ticket, p.d, s.clock))),
         [Redeemed(p.ticket.epoch, p.d.key, p.ticket.message, HourOf(s.clock))])
      else (Settle(s, id, None), [])
    else (s, [])
  }

  /** The rest of a redemption once descriptor has returned `key`, at the same reading of the clock. */
  function RedeemWith(env: Env, policy: Policy, now: nat, store: Durable, key: Key, t: Ticket, keyN: nat, fails: bool)
    : (r: (Durable, seq<Event>))
    ensures r.0 == store.(spent := r.0.spent, quota := r.0.quota)
    ensures forall i :: 0 <= i < |r.1| ==> r.1[i].Verified? || r.1[i].Redeemed?
  {
    var d := DescriptorFor(env, policy, t.epoch, key);
    if !(Millis(now) < d.expiresAt && TicketValid(env, d, t)) then (store, [])
    else
      var (store', ok) := CommitSpent(store, Marker(env, t), HourOf(now), keyN);
      if ok && !fails then (store', [Verified(policy, key, t, now), Redeemed(t.epoch, key, t.message, HourOf(now))])
      else (store, [Verified(policy, key, t, now)])
  }

  /** A whole redemption in one step, with a single reading of the clock. */
  function DoRedeemAtOnce(env: Env, s: State, t: Ticket, candidate: Key, fault: Fault, keyN: nat, fails: bool)
    : (State, seq<Event>)
  {
    var o := Describe(s.durable, s.cache, s.policy.revision, t.epoch, HourOf(s.clock), candidate, fault);
    if s.lock.Some? || candidate in s.minted || keyN < LiveCount(o.durable, HourOf(s.clock)) then (s, [])
    else
      var s1 := s.(durable := o.durable, cache := o.cache, minted := s.minted + {candidate});
      if o.key.None? then (s1, [])
      else
        var (store, events) := RedeemWith(env, s.policy, s.clock, o.durable, o.key.value, t, keyN, fails);
        (s1.(durable := store), [KeyReturned(s.policy.revision, t.epoch, o.key.value)] + events)
  }

  predicate Local(a: Action)
  {
    a.Stamp? || a.CheckProof? || a.Sign? || a.Validate? || a.ReadClock? || a.Grant?
  }

  /** One action. `serial` is the length of the event log so far. */
  function Step(env: Env, s: State, a: Action, serial: nat): (State, seq<Event>)
  {
    if Local(a) then DoLocal(env, s, a.id, a)
    else match a
      case Advance(ns) => (s.(clock := s.clock + ns), [])
      case JumpBack(ns) => (if ns <= s.clock then s.(clock := s.clock - ns) else s, [])
      case Restart(policy) => (State(s.clock, s.durable, s.minted, policy, map[], map[], None, map[], Membership.START), [])
      case Enter(id, req) => (DoEnter(s, id, req), [])
      case Abandon(id) => (DoAbandon(s, id), [])
      case Lock(id) => (DoLock(s, id), [])
      case RunDescriptor(id, candidate, fault) => DoDescriptor(env, s, id, candidate, fault)
      case Offer(id, nonce) => DoOffer(env, s, id, nonce, serial)
      case TakeNonce(id) => DoTakeNonce(s, id)
      case AccessStep(a) => DoAccess(s, a)
      case CallMembership(id) => (DoCall(s, id), [])
      case TakeAnswer(id) => (DoTakeAnswer(s, id), [])
      case Charge(id, keyN, fails) => DoCharge(env, s, id, keyN, fails)
      case Spend(id, keyN, fails) => DoSpend(env, s, id, keyN, fails)
      case RedeemAtOnce(t, candidate, fault, keyN, fails) => DoRedeemAtOnce(env, s, t, candidate, fault, keyN, fails)
      case _ => (s, [])
  }

  /** A run from the first start of the authority: the state reached and the events so far. */
  function Run(env: Env, s0: State, actions: seq<Action>): (State, seq<Event>)
  {
    if actions == [] then (s0, [])
    else
      var (s, log) := Run(env, s0, actions[..|actions| - 1]);
      var (s', more) := Step(env, s, actions[|actions| - 1], |log|);
      (s', log + more)
  }

  lemma {:induction false} RunStep(env: Env, s0: State, before: seq<Action>, a: Action)
    ensures
      var (s, log) := Run(env, s0, before);
      var (s', more) := Step(env, s, a, |log|);
      Run(env, s0, before + [a]) == (s', log + more)
  {
    assert (before + [a])[..|before + [a]| - 1] == before;
  }

  /** The clock never moves backwards. */
  predicate Forward(actions: seq<Action>)
  {
    forall i :: 0 <= i < |actions| ==> !actions[i].JumpBack?
  }

  /** Redemptions only happen as whole steps. */
  predicate Whole(actions: seq<Action>)
  {
    forall i :: 0 <= i < |actions| ==> !actions[i].Spend?
  }
}
