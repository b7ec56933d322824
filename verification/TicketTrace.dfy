/**
 Where things come from: every key a handler holds, every ticket it has accepted, every challenge and
 every membership answer it relies on has its origin earlier in the event log.
 */
module TicketTrace {
  import opened Clock
  import opened Options
  import opened TicketStore
  import opened TicketProtocol
  import CoreAnswers
  import CoreLookups
  import Membership

  // ------------------------------------------------------------------ origins

  /** The key was returned by descriptor for this epoch, under some policy. */
  ghost predicate KeyOf(log: seq<Event>, epoch: int, key: Key)
  {
    exists r :: KeyReturned(r, epoch, key) in log
  }

  /** The log entry `serial` made this challenge. */
  ghost predicate Made(log: seq<Event>, serial: nat, nonce: string, binding: string, epoch: int)
  {
    serial < |log| && log[serial].ChallengeMade?
    && log[serial].nonce == nonce && log[serial].binding == binding && log[serial].epoch == epoch
  }

  /** A proof meant for this relay, this policy and this batch, and signed. */
  ghost predicate Addressed(env: Env, policy: Policy, proof: Proof, binding: string, expires: Reading)
  {
    && proof.kind == "masque-ticket-issue-v1" && proof.pin == policy.pin && proof.policy == policy.revision
    && proof.binding == binding && proof.expiresAt == Millis(expires.wall) && env.proofSigned(proof)
  }

  /** Such a proof over the challenge was accepted no later than a minute after the challenge was asked for. */
  ghost predicate Attested(env: Env, policy: Policy, log: seq<Event>, serial: nat, proof: Proof, binding: string)
  {
    && serial < |log| && log[serial].ChallengeMade?
    && Addressed(env, policy, proof, binding, Later(log[serial].stamped, MINUTE))
    && exists at :: ProofAccepted(serial, at, proof) in log && at.mono <= log[serial].stamped.mono + MINUTE
  }

  /** A ticket of the epoch: a message of its own behind the key's name, under a signature that verifies. */
  ghost predicate Authentic(env: Env, policy: Policy, key: Key, t: Ticket)
  {
    var name := env.keyId(key, policy.revision, policy.pin, t.epoch);
    && t.keyId == name && |t.message| == 24 + |name| + 32 && t.message[..24 + |name|] == "Qortal-MASQUE-Ticket-v1\0" + name
    && |t.signature| == 256 && env.verify(key, t.message, t.signature)
  }

  /** The message was found to be that of an authentic ticket of the epoch, at a time it had not expired. */
  ghost predicate Vetted(env: Env, log: seq<Event>, epoch: int, key: Key, message: string)
  {
    exists v :: v in log && VettedBy(env, v, epoch, key, message)
  }

  ghost predicate VettedBy(env: Env, v: Event, epoch: int, key: Key, message: string)
  {
    && v.Verified? && v.key == key && v.ticket.epoch == epoch && v.ticket.message == message
    && Authentic(env, v.policy, key, v.ticket) && HourOf(v.at) < epoch + LIFETIME
  }

  /** What has been heard from the Cores under a policy. */
  ghost function HeardBy(policy: Policy, log: seq<Event>): set<CoreLookups.Event>
  {
    set i | 0 <= i < |log| && log[i].Accessed? && log[i].policy == policy && log[i].event.Core? :: log[i].event.event
  }

  /** The reply of a configured Core, about the address and an allowed group: in full, of at most 8192 bytes,
      with status 200 and one row, which says that the address is a member. */
  ghost predicate Affirms(policy: Policy, e: CoreLookups.Event, address: string, checked: nat)
  {
    && e.Heard? && e.base in policy.core.bases && e.group in policy.core.groups && e.address == address && e.started.wall == checked
    && e.outcome.Reply? && e.outcome.size <= 8192
    && e.outcome == CoreLookups.Reply(200, true, e.outcome.size, Some([CoreLookups.Row(address, Some(true))]))
  }

  /** A Core confirmed, in a request started at `checked`, that the address is in an allowed group. */
  ghost predicate Confirmed(policy: Policy, log: seq<Event>, address: string, checked: nat)
  {
    exists e :: e in HeardBy(policy, log) && Affirms(policy, e, address, checked)
  }

  /** What was asked is about the relay's own descriptor, made with the key of its epoch and this policy. */
  ghost predicate Asked(policy: Policy, log: seq<Event>, req: Request, d: Descriptor)
  {
    && KeyReturned(policy.revision, d.epoch, d.key) in log
    && (req.AskChallenge? || req.AskIssue? ==> req.claimed == d && 1 <= |req.blinded| <= 3)
  }

  ghost predicate Approval(env: Env, policy: Policy, log: seq<Event>, req: Request, d: Descriptor, serial: nat, checked: nat)
  {
    && ProofOver(env, policy, log, req, d, serial)
    && Confirmed(policy, log, req.proof.address, checked)
    && checked >= d.epoch * HOUR
  }

  ghost predicate ProofOver(env: Env, policy: Policy, log: seq<Event>, req: Request, d: Descriptor, serial: nat)
  {
    && req.AskIssue? && Asked(policy, log, req, d)
    && Made(log, serial, req.proof.nonce, env.binding(d.keyId, req.blinded), d.epoch)
    && Attested(env, policy, log, serial, req.proof, env.binding(d.keyId, req.blinded))
  }

  ghost predicate PhaseTraced(env: Env, policy: Policy, log: seq<Event>, p: Phase)
  {
    match p
    case Calling(req, epoch) => req.AskRedeem? ==> req.ticket.epoch == epoch
    case Described(req, d) =>
      && KeyOf(log, d.epoch, d.key) && d == DescriptorFor(env, policy, d.epoch, d.key) && Asked(policy, log, req, d)
      && (req.AskRedeem? ==> req.ticket.epoch == d.epoch)
    case Stamped(_, _, _) => true
    case Presented(req, d, found) =>
      && d.expiresAt == ExpiryMillis(d.epoch) && Asked(policy, log, req, d)
      && (found.Some? ==>
            && req.AskIssue? && Made(log, found.value.serial, req.proof.nonce, found.value.binding, found.value.epoch)
            && found.value.expires == Later(log[found.value.serial].stamped, MINUTE))
    case Proven(req, d, serial) => d.expiresAt == ExpiryMillis(d.epoch) && ProofOver(env, policy, log, req, d, serial)
    case Rechecking(req, d, serial) => d.expiresAt == ExpiryMillis(d.epoch) && ProofOver(env, policy, log, req, d, serial)
    case Approved(req, d, serial, checked) => Approval(env, policy, log, req, d, serial, checked)
    case Charged(req, d, serial, checked, _) => Approval(env, policy, log, req, d, serial, checked)
    case Signing(req, d, serial, checked, _, key) =>
      && Approval(env, policy, log, req, d, serial, checked)
      && KeyOf(log, d.epoch, key) && KeyReturned(policy.revision, d.epoch, key) in log
    case Accepted(t, d) =>
      && KeyOf(log, d.epoch, d.key) && d.expiresAt == ExpiryMillis(d.epoch)
      && t.epoch == d.epoch && Vetted(env, log, t.epoch, d.key, t.message)
    case Marked(t, d, _) => d.expiresAt == ExpiryMillis(t.epoch)
    case Granting(t, d, _, _) => d.expiresAt == ExpiryMillis(t.epoch)
  }

  ghost predicate EventTraced(env: Env, log: seq<Event>, e: Event)
  {
    && (e.Issued? ==>
          && KeyOf(log, e.epoch, e.key) && KeyReturned(e.policy.revision, e.epoch, e.key) in log
          && KeyReturned(e.policy.revision, e.epoch, e.claimed.key) in log && 1 <= e.n <= 3
          && Made(log, e.serial, e.proof.nonce, e.binding, e.epoch) && Attested(env, e.policy, log, e.serial, e.proof, e.binding)
          && Confirmed(e.policy, log, e.proof.address, e.checked) && e.checked >= e.epoch * HOUR)
    && (e.Redeemed? ==> KeyOf(log, e.epoch, e.key) && Vetted(env, log, e.epoch, e.key, e.message))
  }

  ghost predicate ChallengeTraced(log: seq<Event>, nonce: string, c: Challenge)
  {
    Made(log, c.serial, nonce, c.binding, c.epoch) && c.expires == Later(log[c.serial].stamped, MINUTE)
  }

  /** A membership call is a handler's, about the address of its proof, and the handler waits for it. */
  ghost predicate CallOk(s: State, id: nat)
    requires id in s.access.callers
  {
    At(s, id) && AsksAccess(s.handlers[id]) && s.access.callers[id].address == s.handlers[id].req.proof.address
  }

  /** The access machine holds nothing but what was heard, and no calls but those of handlers. */
  ghost predicate AccessTraced(s: State, log: seq<Event>)
  {
    && Membership.SoundInv(s.policy.core, HeardBy(s.policy, log), s.access)
    && forall id :: id in s.access.callers ==> CallOk(s, id)
  }

  ghost predicate TraceInv(env: Env, s: State, log: seq<Event>)
  {
    && (forall id :: id in s.handlers ==> PhaseTraced(env, s.policy, log, s.handlers[id]))
    && (forall i :: 0 <= i < |log| ==> EventTraced(env, log[..i], log[i]))
    && (forall n :: n in s.challenges ==> ChallengeTraced(log, n, s.challenges[n]))
    && AccessTraced(s, log)
  }

  // --------------------------------------------------------- the log only grows

  lemma KeyOfGrows(log: seq<Event>, more: seq<Event>, epoch: int, key: Key)
    requires KeyOf(log, epoch, key)
    ensures KeyOf(log + more, epoch, key)
  {
    var r :| KeyReturned(r, epoch, key) in log;
    assert KeyReturned(r, epoch, key) in log + more;
  }

  lemma AttestedGrows(env: Env, policy: Policy, log: seq<Event>, more: seq<Event>, serial: nat, proof: Proof, binding: string)
    requires Attested(env, policy, log, serial, proof, binding)
    ensures Attested(env, policy, log + more, serial, proof, binding)
  {
    hide Addressed;
    var at :| ProofAccepted(serial, at, proof) in log && at.mono <= log[serial].stamped.mono + MINUTE;
    assert ProofAccepted(serial, at, proof) in log + more;
  }

  lemma VettedGrows(env: Env, log: seq<Event>, more: seq<Event>, epoch: int, key: Key, message: string)
    requires Vetted(env, log, epoch, key, message)
    ensures Vetted(env, log + more, epoch, key, message)
  {
    hide VettedBy;
    var v :| v in log && VettedBy(env, v, epoch, key, message);
    assert v in log + more;
  }

  lemma HeardMore(policy: Policy, log: seq<Event>, more: seq<Event>)
    ensures HeardBy(policy, log + more) == HeardBy(policy, log) + HeardBy(policy, more)
  {
    forall e
      ensures e in HeardBy(policy, log + more) <==> e in HeardBy(policy, log) + HeardBy(policy, more)
    {
      if e in HeardBy(policy, log) {
        var i :| 0 <= i < |log| && log[i].Accessed? && log[i].policy == policy && log[i].event.Core? && log[i].event.event == e;
        assert (log + more)[i] == log[i];
      }
      if e in HeardBy(policy, more) {
        var i :| 0 <= i < |more| && more[i].Accessed? && more[i].policy == policy && more[i].event.Core? && more[i].event.event == e;
        assert (log + more)[|log| + i] == more[i];
      }
    }
  }

  lemma HeardNoMore(policy: Policy, log: seq<Event>, more: seq<Event>)
    requires forall i :: 0 <= i < |more| ==> !more[i].Accessed?
    ensures HeardBy(policy, log + more) == HeardBy(policy, log)
  {
    HeardMore(policy, log, more);
    assert HeardBy(policy, more) == {};
  }

  lemma ConfirmedGrows(policy: Policy, log: seq<Event>, more: seq<Event>, address: string, checked: nat)
    requires Confirmed(policy, log, address, checked)
    ensures Confirmed(policy, log + more, address, checked)
  {
    hide Affirms;
    HeardMore(policy, log, more);
  }

  lemma PhaseGrows(env: Env, policy: Policy, log: seq<Event>, more: seq<Event>, p: Phase)
    requires PhaseTraced(env, policy, log, p)
    ensures PhaseTraced(env, policy, log + more, p)
  {
    hide KeyOf, Attested, Vetted, Confirmed, DescriptorFor;
    match p
    case Described(_, d) => KeyOfGrows(log, more, d.epoch, d.key);
    case Proven(req, d, serial) => AttestedGrows(env, policy, log, more, serial, req.proof, env.binding(d.keyId, req.blinded));
    case Rechecking(req, d, serial) => AttestedGrows(env, policy, log, more, serial, req.proof, env.binding(d.keyId, req.blinded));
    case Approved(req, d, serial, checked) =>
      AttestedGrows(env, policy, log, more, serial, req.proof, env.binding(d.keyId, req.blinded));
      ConfirmedGrows(policy, log, more, req.proof.address, checked);
    case Charged(req, d, serial, checked, _) =>
      AttestedGrows(env, policy, log, more, serial, req.proof, env.binding(d.keyId, req.blinded));
      ConfirmedGrows(policy, log, more, req.proof.address, checked);
    case Signing(req, d, serial, checked, _, key) =>
      AttestedGrows(env, policy, log, more, serial, req.proof, env.binding(d.keyId, req.blinded));
      ConfirmedGrows(policy, log, more, req.proof.address, checked);
      KeyOfGrows(log, more, d.epoch, key);
    case Accepted(t, d) =>
      KeyOfGrows(log, more, d.epoch, d.key);
      VettedGrows(env, log, more, t.epoch, d.key, t.message);
    case _ =>
  }

  lemma TraceGrows(env: Env, s: State, log: seq<Event>, more: seq<Event>)
    requires TraceInv(env, s, log)
    ensures forall id :: id in s.handlers ==> PhaseTraced(env, s.policy, log + more, s.handlers[id])
    ensures forall i :: 0 <= i < |log| ==> EventTraced(env, (log + more)[..i], (log + more)[i])
    ensures forall n :: n in s.challenges ==> ChallengeTraced(log + more, n, s.challenges[n])
  {
    hide PhaseTraced, EventTraced;
    forall id | id in s.handlers
      ensures PhaseTraced(env, s.policy, log + more, s.handlers[id])
    {
      PhaseGrows(env, s.policy, log, more, s.handlers[id]);
    }
    forall i | 0 <= i < |log|
      ensures EventTraced(env, (log + more)[..i], (log + more)[i])
    {
      assert (log + more)[..i] == log[..i];
    }
    assert forall n :: n in s.challenges ==> ChallengeTraced(log, n, s.challenges[n]);
  }

  lemma NewEvents(env: Env, log: seq<Event>, more: seq<Event>)
    requires forall i :: 0 <= i < |more| ==> EventTraced(env, log + more[..i], more[i])
    ensures forall i :: |log| <= i < |log + more| ==> EventTraced(env, (log + more)[..i], (log + more)[i])
  {
    hide EventTraced;
    forall i | |log| <= i < |log + more|
      ensures EventTraced(env, (log + more)[..i], (log + more)[i])
    {
      assert (log + more)[..i] == log + more[..i - |log|];
      assert EventTraced(env, log + more[..i - |log|], more[i - |log|]);
    }
  }

  /** One handler moves and the log grows: enough to look at the new phase and the new events. */
  lemma TraceMoves(env: Env, s: State, log: seq<Event>, s': State, id: nat, more: seq<Event>)
    requires TraceInv(env, s, log)
    requires s'.policy == s.policy && s'.access == s.access && s'.challenges == s.challenges
    requires s'.handlers == s.handlers || id !in s.access.callers
    requires forall i :: i in s'.handlers && i != id ==> i in s.handlers && s'.handlers[i] == s.handlers[i]
    requires forall i :: i in s.handlers && i != id ==> i in s'.handlers
    requires id in s'.handlers ==> PhaseTraced(env, s.policy, log + more, s'.handlers[id])
    requires forall i :: 0 <= i < |more| ==> EventTraced(env, log + more[..i], more[i]) && !more[i].Accessed?
    ensures TraceInv(env, s', log + more)
  {
    hide PhaseTraced, EventTraced, ChallengeTraced, Membership.SoundInv, HeardBy;
    TraceGrows(env, s, log, more);
    NewEvents(env, log, more);
    AccessKept(s, log, s', id, more);
  }

  /** The access machine stands still, and so do the handlers that wait for it. */
  lemma AccessKept(s: State, log: seq<Event>, s': State, id: nat, more: seq<Event>)
    requires AccessTraced(s, log) && s'.policy == s.policy && s'.access == s.access
    requires forall i :: i in s.handlers && i != id ==> i in s'.handlers && s'.handlers[i] == s.handlers[i]
    requires s'.handlers == s.handlers || id !in s.access.callers
    requires forall i :: 0 <= i < |more| ==> !more[i].Accessed?
    ensures AccessTraced(s', log + more)
  {
    hide Membership.SoundInv, HeardBy;
    HeardNoMore(s.policy, log, more);
    forall i | i in s'.access.callers
      ensures CallOk(s', i)
    {
      assert CallOk(s, i);
    }
  }

  /** A handler that is not waiting for an answer has no call. */
  lemma NoCall(s: State, log: seq<Event>, id: nat)
    requires AccessTraced(s, log) && !(At(s, id) && AsksAccess(s.handlers[id]))
    ensures id !in s.access.callers
  {
    assert id in s.access.callers ==> CallOk(s, id);
  }

  // --------------------------------------------------------------------- steps

  /** A positive answer was affirmed by a Core. */
  lemma AnswerConfirms(s: State, log: seq<Event>, address: string, answer: CoreLookups.Answer)
    requires CoreAnswers.Sound(s.policy.core, HeardBy(s.policy, log), address, answer) && CoreLookups.IsMember(answer)
    ensures Confirmed(s.policy, log, address, answer.checked.wall)
  {
    var (config, heard) := (s.policy.core, HeardBy(s.policy, log));
    var group :| group in config.groups && CoreAnswers.Backed(config, heard, address, group, true, answer.checked);
    var e :| e in heard && CoreAnswers.Says(config, e, address, group, true, answer.checked);
    assert Affirms(s.policy, e, address, answer.checked.wall);
  }

  lemma AdmittedAfterEpochStart(req: Request, d: Descriptor, serial: nat, answer: CoreLookups.Answer)
    requires d.expiresAt == ExpiryMillis(d.epoch)
    ensures Admit(req, d, serial, answer).Some? ==> CoreLookups.IsMember(answer) && answer.checked.wall >= d.epoch * HOUR
  {
  }

  /** redeem's checks accept exactly the authentic tickets of the key they are made with. */
  lemma ValidIffAuthentic(env: Env, policy: Policy, key: Key, t: Ticket)
    ensures TicketValid(env, DescriptorFor(env, policy, t.epoch, key), t) <==> Authentic(env, policy, key, t)
  {
    var name := env.keyId(key, policy.revision, policy.pin, t.epoch);
    assert |DOMAIN + name| == |DOMAIN| + |name|;
  }

  lemma ValidIsVetted(env: Env, policy: Policy, now: nat, log: seq<Event>, key: Key, t: Ticket)
    requires TicketValid(env, DescriptorFor(env, policy, t.epoch, key), t) && Millis(now) < ExpiryMillis(t.epoch)
    requires Verified(policy, key, t, now) in log
    ensures Vetted(env, log, t.epoch, key, t.message)
  {
    ExpiryIsAnHourBoundary(t.epoch, now);
    ValidIffAuthentic(env, policy, key, t);
    hide HourOf, Millis, ExpiryMillis, Authentic, TicketValid;
    assert VettedBy(env, Verified(policy, key, t, now), t.epoch, key, t.message);
  }

  /** Validating a ticket vets it. */
  lemma NowVetted(env: Env, policy: Policy, now: nat, log: seq<Event>, p: Phase)
    requires PhaseTraced(env, policy, log, p) && p.Described? && p.req.AskRedeem?
    requires Validated(env, policy, now, p).events != []
    ensures Vetted(env, log + Validated(env, policy, now, p).events, p.req.ticket.epoch, p.d.key, p.req.ticket.message)
  {
    hide TicketValid, Millis, Vetted;
    var t, more := p.req.ticket, Validated(env, policy, now, p).events;
    assert more[0] in log + more;
    ValidIsVetted(env, policy, now, log + more, p.d.key, t);
  }

  /** The proof of a challenge. */
  lemma TurnChecked(env: Env, s: State, log: seq<Event>, p: Phase, a: Action)
    requires PhaseTraced(env, s.policy, log, p) && a.CheckProof?
    ensures
      var turn := LocalTurn(env, s.policy, Now(s), p, a);
      turn.Some? ==>
        && (turn.value.next.Some? ==> PhaseTraced(env, s.policy, log + turn.value.events, turn.value.next.value))
        && (forall i :: 0 <= i < |turn.value.events| ==> EventTraced(env, log + turn.value.events[..i], turn.value.events[i]))
  {
    var turn := LocalTurn(env, s.policy, Now(s), p, a);
    if turn.Some? && turn.value.next.Some? {
      assert ProofAccepted(p.found.value.serial, Now(s), p.req.proof) in log + turn.value.events;
    }
  }

  /** The handler goes on by the answer to its call. */
  lemma AnswerTraced(env: Env, s: State, log: seq<Event>, p: Phase, answer: CoreLookups.Answer)
    requires PhaseTraced(env, s.policy, log, p) && AsksAccess(p)
    requires CoreAnswers.Sound(s.policy.core, HeardBy(s.policy, log), p.req.proof.address, answer)
    ensures
      var next := if p.Proven? then FirstAnswer(p, answer) else Admit(p.req, p.d, p.serial, answer);
      next.Some? ==> PhaseTraced(env, s.policy, log, next.value)
  {
    hide Attested, Millis, Confirmed, KeyOf, CoreAnswers.Sound, HeardBy;
    if CoreLookups.IsMember(answer) { AnswerConfirms(s, log, p.req.proof.address, answer); }
    AdmittedAfterEpochStart(p.req, p.d, p.serial, answer);
  }

  /** The rest of what a handler does on its own. */
  lemma TurnTraced(env: Env, s: State, log: seq<Event>, p: Phase, a: Action)
    requires PhaseTraced(env, s.policy, log, p)
    requires !a.CheckProof?
    ensures
      var turn := LocalTurn(env, s.policy, Now(s), p, a);
      turn.Some? ==>
        && (turn.value.next.Some? ==> PhaseTraced(env, s.policy, log + turn.value.events, turn.value.next.value))
        && (forall i :: 0 <= i < |turn.value.events| ==> EventTraced(env, log + turn.value.events[..i], turn.value.events[i]))
  {
    hide KeyOf, Attested, Vetted, Confirmed, Millis, TicketValid;
    var turn := LocalTurn(env, s.policy, Now(s), p, a);
    if turn.Some? {
      var more := turn.value.events;
      if p.Signing? {
        assert log + more[..0] == log;
      } else if p.Described? {
        KeyOfGrows(log, more, p.d.epoch, p.d.key);
        if more != [] { NowVetted(env, s.policy, s.clock, log, p); }
      }
    }
  }

  lemma TraceLocal(env: Env, s: State, log: seq<Event>, id: nat, a: Action)
    requires TraceInv(env, s, log)
    ensures
      var (s', more) := DoLocal(env, s, id, a);
      TraceInv(env, s', log + more)
  {
    hide LocalTurn, PhaseTraced, EventTraced, ChallengeTraced, AccessTraced, AsksAccess;
    var (s', more) := DoLocal(env, s, id, a);
    TraceGrows(env, s, log, more);
    if At(s, id) {
      LocalMoves(env, s.policy, Now(s), s.handlers[id], a);
      if !AsksAccess(s.handlers[id]) { NoCall(s, log, id); }
      if a.CheckProof? {
        TurnChecked(env, s, log, s.handlers[id], a);
      } else {
        TurnTraced(env, s, log, s.handlers[id], a);
      }
    }
    TraceMoves(env, s, log, s', id, more);
  }

  lemma TraceDescriptor(env: Env, s: State, log: seq<Event>, id: nat, candidate: Key, fault: Fault)
    requires TraceInv(env, s, log)
    ensures
      var (s', more) := DoDescriptor(env, s, id, candidate, fault);
      TraceInv(env, s', log + more)
  {
    hide Describe, Attested, Vetted, Confirmed, Made, ChallengeTraced, AccessTraced;
    var (s', more) := DoDescriptor(env, s, id, candidate, fault);
    TraceGrows(env, s, log, more);
    if more != [] {
      assert more[0] in log + more;
      assert KeyOf(log + more, more[0].epoch, more[0].key);
    }
    if Describing(s, id) { NoCall(s, log, id); }
    TraceMoves(env, s, log, s', id, more);
  }

  lemma TraceAtOnce(env: Env, s: State, log: seq<Event>, t: Ticket, candidate: Key, fault: Fault, keyN: nat, fails: bool)
    requires TraceInv(env, s, log)
    ensures
      var (s', more) := DoRedeemAtOnce(env, s, t, candidate, fault, keyN, fails);
      TraceInv(env, s', log + more)
  {
    hide Describe, TicketValid, CommitSpent, HourOf, Millis, PhaseTraced, Attested, Vetted, Confirmed, Made, ChallengeTraced, AccessTraced;
    var (s', more) := DoRedeemAtOnce(env, s, t, candidate, fault, keyN, fails);
    TraceGrows(env, s, log, more);
    if more != [] {
      assert more[0] in log + more;
      assert KeyOf(log + more, more[0].epoch, more[0].key);
      if |more| == 3 {
        assert more[0] in log + more[..2] && more[1] in log + more[..2];
        assert KeyOf(log + more[..2], more[0].epoch, more[0].key);
        ValidIsVetted(env, s.policy, s.clock, log + more[..2], more[0].key, t);
      }
    }
    TraceMoves(env, s, log, s', 0, more);
  }

  lemma OfferTraced(env: Env, s: State, log: seq<Event>, id: nat, nonce: string)
    requires forall n :: n in s.challenges ==> ChallengeTraced(log, n, s.challenges[n])
    ensures
      var (s', more) := DoOffer(env, s, id, nonce, |log|);
      forall n :: n in s'.challenges ==> ChallengeTraced(log + more, n, s'.challenges[n])
  {
    hide Settle;
    var (s', more) := DoOffer(env, s, id, nonce, |log|);
    if more != [] { assert (log + more)[|log|] == more[0]; }
    forall n | n in s'.challenges
      ensures ChallengeTraced(log + more, n, s'.challenges[n])
    {
      if n in s.challenges { assert ChallengeTraced(log, n, s.challenges[n]); }
    }
  }

  lemma TraceOffer(env: Env, s: State, log: seq<Event>, id: nat, nonce: string)
    requires TraceInv(env, s, log)
    ensures
      var (s', more) := DoOffer(env, s, id, nonce, |log|);
      TraceInv(env, s', log + more)
  {
    hide PhaseTraced, EventTraced, AccessTraced, ChallengeTraced, AddChallenge;
    var (s', more) := DoOffer(env, s, id, nonce, |log|);
    TraceGrows(env, s, log, more);
    OfferTraced(env, s, log, id, nonce);
    if At(s, id) && s.handlers[id].Stamped? { NoCall(s, log, id); }
    AccessKept(s, log, s', id, more);
    NewEvents(env, log, more) by { QuietEvents(env, log, more); }
  }

  lemma TraceTakeNonce(env: Env, s: State, log: seq<Event>, id: nat)
    requires TraceInv(env, s, log)
    ensures
      var (s', more) := DoTakeNonce(s, id);
      TraceInv(env, s', log + more)
  {
    hide EventTraced, AccessTraced, KeyOf, Attested, Vetted, Confirmed;
    var (s', more) := DoTakeNonce(s, id);
    TraceGrows(env, s, log, more);
    NewEvents(env, log, more) by { QuietEvents(env, log, more); }
    if At(s, id) {
      assert PhaseTraced(env, s.policy, log + more, s.handlers[id]);
      if s.handlers[id].Described? { NoCall(s, log, id); }
    }
    AccessKept(s, log, s', id, more);
  }

  /** The time a request to a Core is said to have started is the time it did, by both clocks. */
  lemma StartedNow(env: Env, s: State, key: CoreLookups.Key, wall: nat, serial: nat)
    ensures
      var s' := Step(env, s, AccessStep(Membership.Ask(CoreLookups.Take(key, wall))), serial).0;
      s' != s ==>
        && key in s'.access.core.lookups
        && s'.access.core.lookups[key].stage == CoreLookups.Asking(Reading(s.clock, s.access.core.clock))
  {
  }

  lemma HeardAccess(policy: Policy, events: seq<Membership.Event>, more: seq<Event>)
    requires |more| == |events| && forall i :: 0 <= i < |events| ==> more[i] == Accessed(policy, events[i])
    ensures HeardBy(policy, more) == Membership.HeardIn(events)
  {
    forall e
      ensures e in HeardBy(policy, more) <==> e in Membership.HeardIn(events)
    {
      if e in Membership.HeardIn(events) {
        var i :| 0 <= i < |events| && events[i].Core? && events[i].event == e;
        assert more[i].Accessed? && more[i].policy == policy && more[i].event.Core? && more[i].event.event == e;
      }
    }
  }

  lemma AccessGoesOn(s: State, log: seq<Event>, a: Membership.Action)
    requires AccessTraced(s, log)
    ensures
      var (s', more) := DoAccess(s, a);
      AccessTraced(s', log + more)
  {
    hide Membership.SoundInv, Membership.Step, HeardBy;
    var (s', more) := DoAccess(s, a);
    if OwnStep(a, s.clock) {
      Membership.SoundStep(s.policy.core, HeardBy(s.policy, log), s.access, a);
      Membership.CallersStay(s.policy.core, s.access, a);
      HeardAccess(s.policy, Membership.Step(s.policy.core, s.access, a).1, more);
      HeardMore(s.policy, log, more);
      forall id | id in s'.access.callers
        ensures CallOk(s', id)
      {
        assert CallOk(s, id);
      }
    } else {
      assert log + more == log;
    }
  }

  lemma TraceAccess(env: Env, s: State, log: seq<Event>, a: Membership.Action)
    requires TraceInv(env, s, log)
    ensures
      var (s', more) := DoAccess(s, a);
      TraceInv(env, s', log + more)
  {
    hide PhaseTraced, EventTraced, ChallengeTraced, AccessTraced, DoAccess;
    var (s', more) := DoAccess(s, a);
    TraceGrows(env, s, log, more);
    NewEvents(env, log, more) by { QuietEvents(env, log, more); }
    AccessGoesOn(s, log, a);
  }

  lemma CallTraced(s: State, log: seq<Event>, id: nat)
    requires AccessTraced(s, log)
    ensures AccessTraced(DoCall(s, id), log)
  {
    hide Membership.SoundInv, HeardBy, CoreLookups.DoOpen, CoreLookups.Step;
    var s' := DoCall(s, id);
    if At(s, id) && AsksAccess(s.handlers[id]) {
      var address := s.handlers[id].req.proof.address;
      var a := if s.handlers[id].Proven? then Membership.Call(id, address) else Membership.CallDirect(id, address);
      Membership.SoundStep(s.policy.core, HeardBy(s.policy, log), s.access, a);
      Membership.HeardNothing([]);
      assert HeardBy(s.policy, log) + {} == HeardBy(s.policy, log);
      forall i | i in s'.access.callers
        ensures CallOk(s', i)
      {
        if i in s.access.callers { assert CallOk(s, i); }
      }
    }
  }

  lemma ReturnTraced(s: State, log: seq<Event>, id: nat)
    requires AccessTraced(s, log) && HasAnswer(s, id)
    ensures AccessTraced(DoTakeAnswer(s, id), log)
    ensures CoreAnswers.Sound(s.policy.core, HeardBy(s.policy, log), s.handlers[id].req.proof.address, s.access.callers[id].answer)
  {
    hide HeardBy, CoreLookups.Step, CoreLookups.DoOpen, FirstAnswer, Admit, CoreAnswers.AnswersInv, CoreAnswers.Sound;
    var s' := DoTakeAnswer(s, id);
    assert CallOk(s, id) && Membership.CallerOk(s.policy.core, HeardBy(s.policy, log), s.access, s.access.callers[id]);
    Membership.SoundStep(s.policy.core, HeardBy(s.policy, log), s.access, Membership.Depart(id));
    Membership.HeardNothing([]);
    assert HeardBy(s.policy, log) + {} == HeardBy(s.policy, log);
    hide Membership.SoundInv;
    forall i | i in s'.access.callers
      ensures CallOk(s', i)
    {
      assert CallOk(s, i);
    }
  }

  lemma TraceAsk(env: Env, s: State, log: seq<Event>, a: Action)
    requires TraceInv(env, s, log) && (a.CallMembership? || a.TakeAnswer?)
    ensures TraceInv(env, Step(env, s, a, |log|).0, log)
  {
    hide PhaseTraced, EventTraced, ChallengeTraced, AccessTraced, DoCall, FirstAnswer, Admit, Membership.Step;
    if a.CallMembership? {
      CallTraced(s, log, a.id);
    } else if HasAnswer(s, a.id) {
      ReturnTraced(s, log, a.id);
      AnswerTraced(env, s, log, s.handlers[a.id], s.access.callers[a.id].answer);
    }
  }

  lemma QuietEvents(env: Env, log: seq<Event>, more: seq<Event>)
    ensures forall i :: 0 <= i < |more| && !more[i].Issued? && !more[i].Redeemed? ==> EventTraced(env, log + more[..i], more[i])
  {
  }

  lemma TraceCharge(env: Env, s: State, log: seq<Event>, id: nat, keyN: nat, fails: bool)
    requires TraceInv(env, s, log)
    ensures
      var (s', more) := DoCharge(env, s, id, keyN, fails);
      TraceInv(env, s', log + more)
  {
    hide HourOf, ChargeQuota, KeyOf, Attested, Vetted, Confirmed, Made, ChallengeTraced, AccessTraced;
    var (s', more) := DoCharge(env, s, id, keyN, fails);
    TraceGrows(env, s, log, more);
    if At(s, id) && s.handlers[id].Approved? { NoCall(s, log, id); }
    TraceMoves(env, s, log, s', id, more);
  }

  lemma TraceSpend(env: Env, s: State, log: seq<Event>, id: nat, keyN: nat, fails: bool)
    requires TraceInv(env, s, log)
    ensures
      var (s', more) := DoSpend(env, s, id, keyN, fails);
      TraceInv(env, s', log + more)
  {
    hide HourOf, CommitSpent, KeyOf, Attested, Vetted, Confirmed, Made, ChallengeTraced, AccessTraced;
    var (s', more) := DoSpend(env, s, id, keyN, fails);
    TraceGrows(env, s, log, more);
    if At(s, id) && s.handlers[id].Accepted? { NoCall(s, log, id); }
    assert log + more[..0] == log;
    TraceMoves(env, s, log, s', id, more);
  }

  /** Steps that log nothing: a handler comes or goes, the lock, the clock. */
  lemma TraceQuiet(env: Env, s: State, log: seq<Event>, a: Action)
    requires TraceInv(env, s, log) && (a.Enter? || a.Abandon? || a.Lock? || a.Advance? || a.JumpBack?)
    ensures TraceInv(env, Step(env, s, a, |log|).0, log)
  {
    hide DoLocal, DoDescriptor, DoRedeemAtOnce, DoOffer, DoTakeNonce, DoAccess, DoCall, DoTakeAnswer, DoCharge, DoSpend, HourOf,
         PhaseTraced, EventTraced, ChallengeTraced, AccessTraced;
    var s' := Step(env, s, a, |log|).0;
    var id := if a.Enter? || a.Abandon? then a.id else 0;
    assert log + [] == log;
    if a.Enter? && !At(s, id) {
      NoCall(s, log, id);
      EnteredTraced(env, s.policy, log, s'.handlers[id]);
    }
    TraceMoves(env, s, log, s', id, []);
  }

  lemma EnteredTraced(env: Env, policy: Policy, log: seq<Event>, p: Phase)
    requires p.Calling? && (p.req.AskRedeem? ==> p.req.ticket.epoch == p.epoch)
    ensures PhaseTraced(env, policy, log, p)
  {
  }

  lemma TraceRestart(env: Env, s: State, log: seq<Event>, policy: Policy)
    requires TraceInv(env, s, log)
    ensures TraceInv(env, Step(env, s, Restart(policy), |log|).0, log)
  {
    hide EventTraced;
    NothingAccessed(Step(env, s, Restart(policy), |log|).0, log);
  }

  lemma NothingAccessed(s: State, log: seq<Event>)
    requires s.access == Membership.START
    ensures AccessTraced(s, log)
  {
  }

  lemma TraceStep(env: Env, s: State, log: seq<Event>, a: Action)
    requires TraceInv(env, s, log)
    ensures
      var (s', more) := Step(env, s, a, |log|);
      TraceInv(env, s', log + more)
  {
    hide TraceInv, DoLocal, DoDescriptor, DoRedeemAtOnce, DoOffer, DoTakeNonce, DoAccess, DoCall, DoTakeAnswer, DoCharge, DoSpend;
    assert log + [] == log;
    if Local(a) {
      TraceLocal(env, s, log, a.id, a);
    } else if a.RunDescriptor? {
      TraceDescriptor(env, s, log, a.id, a.candidate, a.fault);
    } else if a.RedeemAtOnce? {
      TraceAtOnce(env, s, log, a.ticket, a.candidate, a.fault, a.keyN, a.fails);
    } else if a.Offer? {
      TraceOffer(env, s, log, a.id, a.nonce);
    } else if a.TakeNonce? {
      TraceTakeNonce(env, s, log, a.id);
    } else if a.AccessStep? {
      TraceAccess(env, s, log, a.a);
    } else if a.CallMembership? || a.TakeAnswer? {
      TraceAsk(env, s, log, a);
    } else if a.Charge? {
      TraceCharge(env, s, log, a.id, a.keyN, a.fails);
    } else if a.Spend? {
      TraceSpend(env, s, log, a.id, a.keyN, a.fails);
    } else if a.Restart? {
      TraceRestart(env, s, log, a.policy);
    } else {
      TraceQuiet(env, s, log, a);
    }
  }

  lemma {:induction false} TraceRun(env: Env, policy: Policy, clock: nat, actions: seq<Action>)
    ensures
      var (s, log) := Run(env, Initial(policy, clock), actions);
      TraceInv(env, s, log)
  {
    if actions != [] {
      var before := actions[..|actions| - 1];
      TraceRun(env, policy, clock, before);
      var (s, log) := Run(env, Initial(policy, clock), before);
      TraceStep(env, s, log, actions[|actions| - 1]);
    }
  }

  /** What a signature or a redemption in the log says about the key it was made or checked with. */
  lemma TracedKey(env: Env, s: State, log: seq<Event>, e: Event)
    requires TraceInv(env, s, log) && e in log && (e.Issued? || e.Redeemed?)
    ensures KeyOf(log, e.epoch, e.key)
    ensures e.Redeemed? ==> Vetted(env, log, e.epoch, e.key, e.message)
  {
    hide KeyOf, Vetted, Attested, Confirmed, Made, PhaseTraced, ChallengeTraced, AccessTraced;
    var i :| 0 <= i < |log| && log[i] == e;
    assert EventTraced(env, log[..i], log[i]);
    assert log == log[..i] + log[i..];
    KeyOfGrows(log[..i], log[i..], e.epoch, e.key);
    if e.Redeemed? { VettedGrows(env, log[..i], log[i..], e.epoch, e.key, e.message); }
  }

  /** Over every run: whatever is redeemed was found, earlier and before it expired, to be an authentic
      ticket of its epoch, bound to the relay's pin and policy, under a key returned for that epoch. */
  lemma {:induction false} RedeemedIsVetted(env: Env, policy: Policy, clock: nat, actions: seq<Action>, i: nat)
    requires i < |Run(env, Initial(policy, clock), actions).1| && Run(env, Initial(policy, clock), actions).1[i].Redeemed?
    ensures
      var log := Run(env, Initial(policy, clock), actions).1;
      Vetted(env, log[..i], log[i].epoch, log[i].key, log[i].message) && KeyOf(log[..i], log[i].epoch, log[i].key)
  {
    TraceRun(env, policy, clock, actions);
    hide Run, KeyOf, Vetted, Attested, Confirmed, Made, PhaseTraced, ChallengeTraced, AccessTraced;
    var log := Run(env, Initial(policy, clock), actions).1;
    assert EventTraced(env, log[..i], log[i]);
  }
}
