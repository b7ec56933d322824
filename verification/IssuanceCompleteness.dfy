/**
 A good proof is answered with signatures: a member who presents a challenge in time, with quota
 left, is signed the whole batch, whatever other handlers do between any two steps of the request.
 */
module IssuanceCompleteness {
  import opened Clock
  import opened Options
  import opened TicketStore
  import opened TicketProtocol
  import opened TicketRedemption
  import opened TicketCompleteness
  import CoreLookups
  import Membership
  import MembershipCompleteness
  import TicketKeys
  import TicketTrace

  // ------------------------------------------------------- when quota is granted

  /** When the quota transaction commits: the account has not used up its 24, and either it has a row
      already or the bucket does not report itself full. It then adds exactly the batch to that row. */
  lemma ChargeCommitsIff(env: Env, s: State, id: nat, keyN: nat, serial: nat)
    requires At(s, id) && s.handlers[id].Approved? && s.handlers[id].req.AskIssue? && keyN >= |s.durable.quota|
    ensures
      var p := s.handlers[id];
      var record := QuotaRecord(env, p.d, p.req.proof);
      var (s', more) := Step(env, s, Charge(id, keyN, false), serial);
      && (more != [] <==> QuotaOf(s.durable, record) + |p.req.blinded| <= 24 && (keyN < 100_000 || record in s.durable.quota))
      && (more != [] ==> QuotaOf(s'.durable, record) == QuotaOf(s.durable, record) + |p.req.blinded| && At(s', id) && s'.handlers[id].Charged?)
      && (more == [] ==> s'.durable == s.durable && !At(s', id))
      && (forall r :: r != record ==> QuotaOf(s'.durable, r) == QuotaOf(s.durable, r))
  {
    hide HourOf;
  }

  // --------------------------------------------------------- a request in steps

  /** What the handler is asked to do and what it meets on the way. */
  datatype Batch = Batch(id: nat, d: Descriptor, blinded: seq<string>, proof: Proof, checked: nat,
                         first: Key, second: Key, keyN: nat)

  function Req(b: Batch): Request { AskIssue(b.d, b.blinded, b.proof) }

  const STEPS := 12

  /** Steps 7 and 8 have the membership asked again; they do nothing if the first answer was recent enough. */
  function StepOf(b: Batch, k: nat): Action
  {
    match k
    case 0 => Enter(b.id, Req(b))
    case 1 => Lock(b.id)
    case 2 => RunDescriptor(b.id, b.first, NoFault)
    case 3 => TakeNonce(b.id)
    case 4 => CheckProof(b.id)
    case 5 => CallMembership(b.id)
    case 6 => TakeAnswer(b.id)
    case 7 => CallMembership(b.id)
    case 8 => TakeAnswer(b.id)
    case 9 => Charge(b.id, b.keyN, false)
    case 10 => Lock(b.id)
    case _ => RunDescriptor(b.id, b.second, NoFault)
  }

  /** The run after the first k steps of the request, each followed by what bystanders do. */
  ghost function After(env: Env, c: Point, b: Batch, gaps: seq<seq<Action>>, k: nat): Point
    requires |gaps| == STEPS && k <= STEPS
  {
    if k == 0 then c else RunOn(env, After(env, c, b, gaps, k - 1), [StepOf(b, k - 1)] + gaps[k - 1])
  }

  ghost predicate GapsOk(b: Batch, gaps: seq<seq<Action>>)
  {
    |gaps| == STEPS && forall k :: 0 <= k < STEPS ==> Bystanders(b.id, gaps[k])
  }

  /** The actions of the run up to there. */
  ghost function Path(b: Batch, gaps: seq<seq<Action>>, k: nat): seq<Action>
    requires |gaps| == STEPS && k <= STEPS
  {
    if k == 0 then [] else Path(b, gaps, k - 1) + ([StepOf(b, k - 1)] + gaps[k - 1])
  }

  lemma {:induction false} AfterIsRun(env: Env, s0: State, before: seq<Action>, b: Batch, gaps: seq<seq<Action>>, k: nat)
    requires |gaps| == STEPS && k <= STEPS
    ensures After(env, Run(env, s0, before), b, gaps, k) == Run(env, s0, before + Path(b, gaps, k))
  {
    hide Run, RunOn, StepOf;
    if k == 0 {
      assert before + [] == before;
    } else {
      AfterIsRun(env, s0, before, b, gaps, k - 1);
      var part := [StepOf(b, k - 1)] + gaps[k - 1];
      RunOnIsRun(env, s0, before + Path(b, gaps, k - 1), part);
      assert before + Path(b, gaps, k - 1) + part == before + (Path(b, gaps, k - 1) + part);
    }
  }

  lemma {:induction false} PathForward(b: Batch, gaps: seq<seq<Action>>, k: nat)
    requires GapsOk(b, gaps) && k <= STEPS
    ensures Forward(Path(b, gaps, k))
  {
    if k > 0 {
      PathForward(b, gaps, k - 1);
      assert Bystanders(b.id, gaps[k - 1]);
    }
  }

  lemma {:induction false} LogGrowsAlong(env: Env, c: Point, b: Batch, gaps: seq<seq<Action>>, k: nat)
    requires |gaps| == STEPS && k <= STEPS
    ensures c.1 <= After(env, c, b, gaps, k).1
  {
    hide RunOn, StepOf;
    if k > 0 {
      LogGrowsAlong(env, c, b, gaps, k - 1);
      LogExtends(env, After(env, c, b, gaps, k - 1), [StepOf(b, k - 1)] + gaps[k - 1]);
    }
  }

  /** The handler's own step k takes it to `next`; bystanders leave it there. */
  lemma {:induction false} Stage(env: Env, c: Point, b: Batch, gaps: seq<seq<Action>>, k: nat, next: Phase)
    requires GapsOk(b, gaps) && k < STEPS
    requires
      var ck := After(env, c, b, gaps, k);
      var s := Step(env, ck.0, StepOf(b, k), |ck.1|).0;
      At(s, b.id) && s.handlers[b.id] == next && s.policy == ck.0.policy && s.clock == ck.0.clock
    ensures
      var ck := After(env, c, b, gaps, k);
      var c' := After(env, c, b, gaps, k + 1);
      && At(c'.0, b.id) && c'.0.handlers[b.id] == next && c'.0.policy == ck.0.policy && c'.0.clock >= ck.0.clock
      && (StepOf(b, k).Lock? && Step(env, ck.0, StepOf(b, k), |ck.1|).0.lock == Some(Holder(b.id, HourOf(ck.0.clock))) ==>
            c'.0.lock == Some(Holder(b.id, HourOf(ck.0.clock))))
  {
    hide RunOn, Step, StepOf, HourOf;
    StepThenBystanders(env, After(env, c, b, gaps, k), StepOf(b, k), gaps[k], b.id);
  }

  // ------------------------------------------------------------ the single steps

  lemma EnterStep(env: Env, s: State, id: nat, req: Request, serial: nat)
    requires !At(s, id) && !req.AskRedeem?
    ensures
      var s' := Step(env, s, Enter(id, req), serial).0;
      At(s', id) && s'.handlers[id] == Calling(req, HourOf(s.clock)) && s'.policy == s.policy && s'.clock == s.clock
  {
    hide HourOf;
  }

  lemma LockStep(env: Env, s: State, id: nat, serial: nat)
    requires At(s, id) && CallsDescriptor(s.handlers[id]) && s.lock.None?
    ensures
      var s' := Step(env, s, Lock(id), serial).0;
      && At(s', id) && s'.handlers[id] == s.handlers[id] && s'.policy == s.policy && s'.clock == s.clock
      && s'.lock == Some(Holder(id, HourOf(s.clock)))
  {
    hide HourOf;
  }

  /** descriptor gives the handler the key it was given before. */
  lemma DescriptorAgain(env: Env, s: State, log: seq<Event>, id: nat, epoch: int, key: Key, candidate: Key, next: Phase)
    requires TicketKeys.StateInv(s, log) && ClockInv(s)
    requires At(s, id) && CallsDescriptor(s.handlers[id]) && WantedEpoch(s.handlers[id]) == epoch
    requires s.lock.Some? && s.lock.value.id == id && epoch <= s.lock.value.hour < epoch + LIFETIME
    requires candidate !in s.minted && KeyReturned(s.policy.revision, epoch, key) in log
    requires AfterDescriptor(s.handlers[id], DescriptorFor(env, s.policy, epoch, key)) == Some(next)
    ensures
      var s' := Step(env, s, RunDescriptor(id, candidate, NoFault), |log|).0;
      At(s', id) && s'.handlers[id] == next && s'.policy == s.policy && s'.clock == s.clock
  {
    KeyIsFoundAgain(s.durable, s.cache, s.policy.revision, s.minted, log, epoch, s.lock.value.hour, candidate, key);
    hide Describe, DescriptorFor, HourOf, AfterDescriptor;
  }

  lemma PresentStep(env: Env, s: State, id: nat, serial: nat)
    requires At(s, id) && s.handlers[id].Described? && s.handlers[id].req.AskIssue?
    requires s.handlers[id].req.proof.nonce in s.challenges
    ensures
      var p := s.handlers[id];
      var s' := Step(env, s, TakeNonce(id), serial).0;
      && At(s', id) && s'.handlers[id] == Presented(p.req, p.d, Some(s.challenges[p.req.proof.nonce]))
      && s'.policy == s.policy && s'.clock == s.clock
  {
  }

  lemma AddressedIsValid(env: Env, policy: Policy, b: Batch, epoch: int, key: Key, challenge: Challenge, now: Reading)
    requires b.d == DescriptorFor(env, policy, epoch, key) && challenge.epoch == epoch && challenge.binding == env.binding(b.d.keyId, b.blinded)
    requires TicketTrace.Addressed(env, policy, b.proof, challenge.binding, challenge.expires) && now.mono <= challenge.expires.mono
    ensures ProofValid(env, policy, b.d, b.blinded, b.proof, challenge, now)
  {
  }

  lemma ProofStep(env: Env, s: State, id: nat, c: Challenge, serial: nat)
    requires At(s, id) && s.handlers[id].Presented? && s.handlers[id].req.AskIssue? && s.handlers[id].found == Some(c)
    requires ProofValid(env, s.policy, s.handlers[id].d, s.handlers[id].req.blinded, s.handlers[id].req.proof, c, Now(s))
    ensures
      var p := s.handlers[id];
      var s' := Step(env, s, CheckProof(id), serial).0;
      At(s', id) && s'.handlers[id] == Proven(p.req, p.d, c.serial) && s'.policy == s.policy && s'.clock == s.clock
  {
    hide ProofValid;
  }

  lemma CallStep(env: Env, s: State, id: nat, serial: nat)
    ensures
      var s' := Step(env, s, CallMembership(id), serial).0;
      s'.handlers == s.handlers && s'.policy == s.policy && s'.clock == s.clock
  {
    hide DoCall;
  }

  /** A handler that asks calls for the address of its proof, past the cache if its answer was too old. */
  lemma HandlersCall(env: Env, s: State, id: nat, serial: nat)
    requires At(s, id) && AsksAccess(s.handlers[id])
    ensures
      var (p, s') := (s.handlers[id], Step(env, s, CallMembership(id), serial).0);
      id !in s.access.callers ==>
        && id in s'.access.callers && s'.access.callers[id].address == p.req.proof.address
        && (p.Proven? ==> s'.access.callers[id].Arriving?) && (p.Rechecking? ==> s'.access.callers[id].Direct?)
  {
    hide Membership.Step;
    MembershipCompleteness.CallersComeAndGo(s.policy.core, s.access, id, s.handlers[id].req.proof.address);
  }

  /** One that takes its answer is free to call again. */
  lemma AnswerIsTaken(env: Env, s: State, id: nat, serial: nat)
    requires HasAnswer(s, id)
    ensures id !in Step(env, s, TakeAnswer(id), serial).0.access.callers
  {
    hide FirstAnswer, Admit, Membership.Step;
    MembershipCompleteness.CallersComeAndGo(s.policy.core, s.access, id, "");
  }

  /** The answer to the handler's call is a membership as of `checked`. */
  ghost predicate ToldMember(s: State, id: nat, checked: nat)
  {
    HasAnswer(s, id) && CoreLookups.IsMember(s.access.callers[id].answer) && s.access.callers[id].answer.checked.wall == checked
  }

  /** A check that started in the epoch's own time is neither repeated nor too old for the ticket. */
  lemma MemberStep(env: Env, s: State, id: nat, checked: nat, serial: nat)
    requires ToldMember(s, id, checked)
    requires s.handlers[id].d.expiresAt == ExpiryMillis(s.handlers[id].d.epoch) && checked >= s.handlers[id].d.epoch * HOUR
    ensures
      var p := s.handlers[id];
      var s' := Step(env, s, TakeAnswer(id), serial).0;
      At(s', id) && s'.handlers[id] == Approved(p.req, p.d, p.serial, checked) && s'.policy == s.policy && s'.clock == s.clock
  {
    FreshCheck(s.handlers[id].d.epoch, checked);
    hide Millis, ExpiryMillis, Membership.Step;
  }

  /** One that started before it is repeated. */
  lemma StaleStep(env: Env, s: State, id: nat, checked: nat, serial: nat)
    requires ToldMember(s, id, checked) && s.handlers[id].Proven? && checked < s.handlers[id].d.epoch * HOUR
    ensures
      var p := s.handlers[id];
      var s' := Step(env, s, TakeAnswer(id), serial).0;
      At(s', id) && s'.handlers[id] == Rechecking(p.req, p.d, p.serial) && s'.policy == s.policy && s'.clock == s.clock
  {
    StaleCheck(s.handlers[id].d.epoch, checked);
    hide Millis, ExpiryMillis, Membership.Step;
  }

  lemma StaleCheck(epoch: int, checked: nat)
    requires checked < epoch * HOUR
    ensures checked / SECOND < epoch * 3600
  {
  }

  /** A handler that has its approval takes no answer. */
  lemma NoAnswerStep(env: Env, s: State, id: nat, serial: nat)
    requires At(s, id) && s.handlers[id].Approved?
    ensures Step(env, s, TakeAnswer(id), serial).0 == s
  {
    hide Membership.Step;
  }

  lemma FreshCheck(epoch: int, checked: nat)
    requires checked >= epoch * HOUR
    ensures checked / SECOND >= epoch * 3600 && ExpiryMillis(epoch) <= Millis(checked + LIFETIME * HOUR)
  {
  }

  lemma ChargeStep(env: Env, s: State, id: nat, keyN: nat, serial: nat)
    requires At(s, id) && s.handlers[id].Approved? && s.handlers[id].req.AskIssue? && keyN >= |s.durable.quota|
    requires
      var record := QuotaRecord(env, s.handlers[id].d, s.handlers[id].req.proof);
      QuotaOf(s.durable, record) + |s.handlers[id].req.blinded| <= QUOTA && (keyN < BUCKET_CAP || record in s.durable.quota)
    ensures
      var p := s.handlers[id];
      var s' := Step(env, s, Charge(id, keyN, false), serial).0;
      && At(s', id) && s'.handlers[id] == Charged(p.req, p.d, p.serial, p.checked, HourOf(s.clock))
      && s'.policy == s.policy && s'.clock == s.clock
  {
    hide HourOf;
  }

  lemma SignStep(env: Env, s: State, id: nat, serial: nat)
    requires At(s, id) && s.handlers[id].Signing? && s.handlers[id].req.AskIssue?
    ensures Step(env, s, Sign(id), serial).1 == [Signatures(env, s.policy, s.handlers[id])]
  {
  }

  // ---------------------------------------------------------------- main result

  /** The first answer was a membership from before the epoch, the second one is from its own time. */
  ghost predicate ToldAgain(env: Env, c: Point, b: Batch, gaps: seq<seq<Action>>, epoch: int)
    requires |gaps| == STEPS
  {
    && (exists before: nat :: before < epoch * HOUR && ToldMember(After(env, c, b, gaps, 6).0, b.id, before))
    && ToldMember(After(env, c, b, gaps, 8).0, b.id, b.checked)
  }

  /** The handler finds the lock free, an answer from the epoch's own time, the first or the second, and quota
      left, each when it comes to it; it is done before the epoch's tickets expire. */
  ghost predicate Favoured(env: Env, c: Point, b: Batch, gaps: seq<seq<Action>>, key: Key)
    requires |gaps| == STEPS
  {
    var epoch := HourOf(c.0.clock);
    var record := QuotaRecord(env, b.d, b.proof);
    && !At(c.0, b.id) && KeyReturned(c.0.policy.revision, epoch, key) in c.1
    && b.d == DescriptorFor(env, c.0.policy, epoch, key) && 1 <= |b.blinded| <= 3
    && After(env, c, b, gaps, 1).0.lock.None? && HourOf(After(env, c, b, gaps, 1).0.clock) < epoch + LIFETIME
    && b.first !in After(env, c, b, gaps, 2).0.minted
    && b.checked >= epoch * HOUR
    && (ToldMember(After(env, c, b, gaps, 6).0, b.id, b.checked) || ToldAgain(env, c, b, gaps, epoch))
    && b.keyN >= |After(env, c, b, gaps, 9).0.durable.quota|
    && QuotaOf(After(env, c, b, gaps, 9).0.durable, record) + |b.blinded| <= QUOTA
    && (b.keyN < BUCKET_CAP || record in After(env, c, b, gaps, 9).0.durable.quota)
    && After(env, c, b, gaps, 10).0.lock.None? && HourOf(After(env, c, b, gaps, 10).0.clock) < epoch + LIFETIME
    && b.second !in After(env, c, b, gaps, 11).0.minted
  }

  /** And it finds a challenge for this batch, that the proof is for and that has not expired. */
  ghost predicate GoesWell(env: Env, c: Point, b: Batch, gaps: seq<seq<Action>>, key: Key, challenge: Challenge)
    requires |gaps| == STEPS
  {
    && Favoured(env, c, b, gaps, key)
    && b.proof.nonce in After(env, c, b, gaps, 3).0.challenges && After(env, c, b, gaps, 3).0.challenges[b.proof.nonce] == challenge
    && challenge.epoch == HourOf(c.0.clock) && challenge.binding == env.binding(b.d.keyId, b.blinded)
    && TicketTrace.Addressed(env, c.0.policy, b.proof, challenge.binding, challenge.expires)
    && Now(After(env, c, b, gaps, 4).0).mono <= challenge.expires.mono
  }

  /** What a reachable configuration along the way gives: sound keys and clock, and the key returned. */
  lemma {:induction false} Along(env: Env, policy: Policy, clock: nat, before: seq<Action>, b: Batch, gaps: seq<seq<Action>>, k: nat)
    requires Forward(before) && GapsOk(b, gaps) && k <= STEPS
    ensures
      var c := Run(env, Initial(policy, clock), before);
      var ck := After(env, c, b, gaps, k);
      TicketKeys.StateInv(ck.0, ck.1) && ClockInv(ck.0) && c.1 <= ck.1
  {
    hide Run, Path, After, TicketKeys.StateInv, ClockInv;
    AfterIsRun(env, Initial(policy, clock), before, b, gaps, k);
    PathForward(b, gaps, k);
    TicketKeys.RunKeeps(env, policy, clock, before + Path(b, gaps, k));
    ClockRun(env, policy, clock, before + Path(b, gaps, k));
    LogGrowsAlong(env, Run(env, Initial(policy, clock), before), b, gaps, k);
  }

  /** The handler takes the lock. */
  lemma {:induction false} ToLocked(env: Env, c: Point, b: Batch, gaps: seq<seq<Action>>)
    requires GapsOk(b, gaps) && !At(c.0, b.id) && After(env, c, b, gaps, 1).0.lock.None?
    ensures
      var (c1, c2) := (After(env, c, b, gaps, 1), After(env, c, b, gaps, 2));
      && At(c2.0, b.id) && c2.0.handlers[b.id] == Calling(Req(b), HourOf(c.0.clock)) && c2.0.policy == c.0.policy
      && c2.0.lock == Some(Holder(b.id, HourOf(c1.0.clock))) && c.0.clock <= c1.0.clock <= c2.0.clock
  {
    assert After(env, c, b, gaps, 0) == c;
    hide Step, After, HourOf;
    EnterStep(env, c.0, b.id, Req(b), |c.1|);
    Stage(env, c, b, gaps, 0, Calling(Req(b), HourOf(c.0.clock)));
    var c1 := After(env, c, b, gaps, 1);
    LockStep(env, c1.0, b.id, |c1.1|);
    Stage(env, c, b, gaps, 1, Calling(Req(b), HourOf(c.0.clock)));
  }

  /** It gets its descriptor. */
  lemma {:induction false} ToDescribed(env: Env, policy: Policy, clock: nat, before: seq<Action>, b: Batch, gaps: seq<seq<Action>>, key: Key, challenge: Challenge)
    requires Forward(before) && GapsOk(b, gaps)
    requires GoesWell(env, Run(env, Initial(policy, clock), before), b, gaps, key, challenge)
    ensures
      var c := Run(env, Initial(policy, clock), before);
      var c3 := After(env, c, b, gaps, 3);
      && At(c3.0, b.id) && c3.0.handlers[b.id] == Described(Req(b), b.d)
      && c3.0.policy == c.0.policy && c3.0.clock >= c.0.clock
  {
    hide Run, Step, After, HourOf, TicketTrace.Addressed, ToldMember, ToldAgain, DescriptorFor, QuotaOf, QuotaRecord, TicketKeys.StateInv, ClockInv;
    var c := Run(env, Initial(policy, clock), before);
    var epoch := HourOf(c.0.clock);
    ToLocked(env, c, b, gaps);
    var c2 := After(env, c, b, gaps, 2);
    Along(env, policy, clock, before, b, gaps, 2);
    HourMonotone(c.0.clock, After(env, c, b, gaps, 1).0.clock);
    assert KeyReturned(c.0.policy.revision, epoch, key) in c2.1;
    assert AfterDescriptor(c2.0.handlers[b.id], b.d) == Some(Described(Req(b), b.d));
    hide AfterDescriptor;
    DescriptorAgain(env, c2.0, c2.1, b.id, epoch, key, b.first, Described(Req(b), b.d));
    Stage(env, c, b, gaps, 2, Described(Req(b), b.d));
  }

  /** It takes the challenge and accepts the proof. */
  lemma {:induction false} ToProven(env: Env, policy: Policy, clock: nat, before: seq<Action>, b: Batch, gaps: seq<seq<Action>>, key: Key, challenge: Challenge)
    requires Forward(before) && GapsOk(b, gaps)
    requires GoesWell(env, Run(env, Initial(policy, clock), before), b, gaps, key, challenge)
    ensures
      var c := Run(env, Initial(policy, clock), before);
      var c5 := After(env, c, b, gaps, 5);
      && At(c5.0, b.id) && c5.0.handlers[b.id] == Proven(Req(b), b.d, challenge.serial)
      && c5.0.policy == c.0.policy && c5.0.clock >= c.0.clock
  {
    ToDescribed(env, policy, clock, before, b, gaps, key, challenge);
    hide Run, Step, After, HourOf, ProofValid, TicketTrace.Addressed, ToldMember, ToldAgain, DescriptorFor, QuotaOf, QuotaRecord;
    var c := Run(env, Initial(policy, clock), before);
    var c3 := After(env, c, b, gaps, 3);
    assert b.proof.nonce in c3.0.challenges && c3.0.challenges[b.proof.nonce] == challenge;
    assert ProofValid(env, c.0.policy, b.d, b.blinded, b.proof, challenge, Now(After(env, c, b, gaps, 4).0)) by {
      AddressedIsValid(env, c.0.policy, b, HourOf(c.0.clock), key, challenge, Now(After(env, c, b, gaps, 4).0));
    }
    hide GoesWell;
    PresentStep(env, c3.0, b.id, |c3.1|);
    Stage(env, c, b, gaps, 3, Presented(Req(b), b.d, Some(challenge)));
    var c4 := After(env, c, b, gaps, 4);
    ProofStep(env, c4.0, b.id, challenge, |c4.1|);
    Stage(env, c, b, gaps, 4, Proven(Req(b), b.d, challenge.serial));
  }

  /** Membership is confirmed, by the first answer or the second. */
  lemma {:induction false} ToApproved(env: Env, policy: Policy, clock: nat, before: seq<Action>, b: Batch, gaps: seq<seq<Action>>, key: Key, challenge: Challenge)
    requires Forward(before) && GapsOk(b, gaps)
    requires GoesWell(env, Run(env, Initial(policy, clock), before), b, gaps, key, challenge)
    ensures
      var c := Run(env, Initial(policy, clock), before);
      var c9 := After(env, c, b, gaps, 9);
      && At(c9.0, b.id) && c9.0.handlers[b.id] == Approved(Req(b), b.d, challenge.serial, b.checked)
      && c9.0.policy == c.0.policy && c9.0.clock >= c.0.clock
  {
    ToProven(env, policy, clock, before, b, gaps, key, challenge);
    var c := Run(env, Initial(policy, clock), before);
    var epoch := HourOf(c.0.clock);
    var proven := Proven(Req(b), b.d, challenge.serial);
    var approved := Approved(Req(b), b.d, challenge.serial, b.checked);
    hide Run, Step, After, HourOf, TicketTrace.Addressed, QuotaOf, QuotaRecord, ExpiryMillis, ToldMember, ToldAgain;
    assert b.d.expiresAt == ExpiryMillis(epoch) && b.d.epoch == epoch && b.checked >= epoch * HOUR;
    assert ToldMember(After(env, c, b, gaps, 6).0, b.id, b.checked) || ToldAgain(env, c, b, gaps, epoch);
    hide GoesWell, DescriptorFor;
    Called(env, c, b, gaps, 5, proven);
    var c6 := After(env, c, b, gaps, 6);
    if ToldMember(c6.0, b.id, b.checked) {
      MemberStep(env, c6.0, b.id, b.checked, |c6.1|);
      Stage(env, c, b, gaps, 6, approved);
      Called(env, c, b, gaps, 7, approved);
      var c8 := After(env, c, b, gaps, 8);
      NoAnswerStep(env, c8.0, b.id, |c8.1|);
      Stage(env, c, b, gaps, 8, approved);
    } else {
      AskedTwice(env, c, b, gaps, proven, approved, epoch);
    }
  }

  /** The handler calls; what it waits for does not move it. */
  lemma {:induction false} Called(env: Env, c: Point, b: Batch, gaps: seq<seq<Action>>, k: nat, p: Phase)
    requires GapsOk(b, gaps) && (k == 5 || k == 7)
    requires At(After(env, c, b, gaps, k).0, b.id) && After(env, c, b, gaps, k).0.handlers[b.id] == p
    ensures
      var (ck, c') := (After(env, c, b, gaps, k), After(env, c, b, gaps, k + 1));
      At(c'.0, b.id) && c'.0.handlers[b.id] == p && c'.0.policy == ck.0.policy && c'.0.clock >= ck.0.clock
  {
    hide After, Step;
    var ck := After(env, c, b, gaps, k);
    CallStep(env, ck.0, b.id, |ck.1|);
    Stage(env, c, b, gaps, k, p);
  }

  lemma {:induction false} AskedTwice(env: Env, c: Point, b: Batch, gaps: seq<seq<Action>>, proven: Phase, approved: Phase, epoch: int)
    requires GapsOk(b, gaps) && proven.Proven? && approved == Approved(proven.req, proven.d, proven.serial, b.checked)
    requires proven.d.expiresAt == ExpiryMillis(epoch) && proven.d.epoch == epoch && b.checked >= epoch * HOUR
    requires At(After(env, c, b, gaps, 6).0, b.id) && After(env, c, b, gaps, 6).0.handlers[b.id] == proven
    requires ToldAgain(env, c, b, gaps, epoch)
    ensures
      var (c6, c9) := (After(env, c, b, gaps, 6), After(env, c, b, gaps, 9));
      At(c9.0, b.id) && c9.0.handlers[b.id] == approved && c9.0.policy == c6.0.policy && c9.0.clock >= c6.0.clock
  {
    hide After, Step, ToldMember, ExpiryMillis;
    var c6 := After(env, c, b, gaps, 6);
    var earlier: nat :| earlier < epoch * HOUR && ToldMember(c6.0, b.id, earlier);
    StaleStep(env, c6.0, b.id, earlier, |c6.1|);
    var rechecking := Rechecking(proven.req, proven.d, proven.serial);
    Stage(env, c, b, gaps, 6, rechecking);
    Called(env, c, b, gaps, 7, rechecking);
    var c8 := After(env, c, b, gaps, 8);
    MemberStep(env, c8.0, b.id, b.checked, |c8.1|);
    Stage(env, c, b, gaps, 8, approved);
  }

  lemma {:induction false} QuotaIsLeft(env: Env, c: Point, b: Batch, gaps: seq<seq<Action>>, key: Key, challenge: Challenge)
    requires |gaps| == STEPS && GoesWell(env, c, b, gaps, key, challenge)
    ensures
      var quota := After(env, c, b, gaps, 9).0.durable.quota;
      var record := QuotaRecord(env, b.d, b.proof);
      && b.keyN >= |quota| && QuotaOf(After(env, c, b, gaps, 9).0.durable, record) + |b.blinded| <= QUOTA
      && (b.keyN < BUCKET_CAP || record in quota)
  {
    hide After, HourOf, TicketTrace.Addressed, DescriptorFor, QuotaOf, QuotaRecord, ToldMember, ToldAgain;
  }

  /** The quota is charged. */
  lemma {:induction false} ToCharged(env: Env, policy: Policy, clock: nat, before: seq<Action>, b: Batch, gaps: seq<seq<Action>>, key: Key, challenge: Challenge)
    requires Forward(before) && GapsOk(b, gaps)
    requires GoesWell(env, Run(env, Initial(policy, clock), before), b, gaps, key, challenge)
    ensures
      var c := Run(env, Initial(policy, clock), before);
      var c10 := After(env, c, b, gaps, 10);
      && At(c10.0, b.id) && c10.0.handlers[b.id] == Charged(Req(b), b.d, challenge.serial, b.checked, HourOf(After(env, c, b, gaps, 9).0.clock))
      && c10.0.policy == c.0.policy && c10.0.clock >= c.0.clock
  {
    hide Run, Step, After, HourOf, QuotaOf, QuotaRecord, GoesWell;
    ToApproved(env, policy, clock, before, b, gaps, key, challenge);
    var c := Run(env, Initial(policy, clock), before);
    QuotaIsLeft(env, c, b, gaps, key, challenge);
    var c9 := After(env, c, b, gaps, 9);
    ChargeStep(env, c9.0, b.id, b.keyN, |c9.1|);
    Stage(env, c, b, gaps, 9, Charged(Req(b), b.d, challenge.serial, b.checked, HourOf(c9.0.clock)));
  }

  /** It takes the lock again. */
  lemma {:induction false} LockedAgain(env: Env, c: Point, b: Batch, gaps: seq<seq<Action>>)
    requires GapsOk(b, gaps)
    requires
      var c10 := After(env, c, b, gaps, 10);
      At(c10.0, b.id) && c10.0.handlers[b.id].Charged? && c10.0.lock.None?
    ensures
      var (c10, c11) := (After(env, c, b, gaps, 10), After(env, c, b, gaps, 11));
      && At(c11.0, b.id) && c11.0.handlers[b.id] == c10.0.handlers[b.id] && c11.0.policy == c10.0.policy
      && c11.0.lock == Some(Holder(b.id, HourOf(c10.0.clock)))
  {
    hide Step, After, HourOf;
    var c10 := After(env, c, b, gaps, 10);
    LockStep(env, c10.0, b.id, |c10.1|);
    Stage(env, c, b, gaps, 10, c10.0.handlers[b.id]);
  }

  lemma {:induction false} LockIsFreeAgain(env: Env, c: Point, b: Batch, gaps: seq<seq<Action>>, key: Key, challenge: Challenge)
    requires |gaps| == STEPS && GoesWell(env, c, b, gaps, key, challenge)
    ensures
      var (epoch, c10) := (HourOf(c.0.clock), After(env, c, b, gaps, 10));
      && b.d == DescriptorFor(env, c.0.policy, epoch, key) && b.d.epoch == epoch && KeyReturned(c.0.policy.revision, epoch, key) in c.1
      && c10.0.lock.None? && HourOf(c10.0.clock) < epoch + LIFETIME && b.second !in After(env, c, b, gaps, 11).0.minted
  {
    hide After, HourOf, TicketTrace.Addressed, QuotaOf, QuotaRecord, ToldMember, ToldAgain;
  }

  lemma SignsNext(env: Env, policy: Policy, p: Phase, epoch: int, key: Key, signing: Phase)
    requires p.Charged? && signing == Signing(p.req, p.d, p.serial, p.checked, p.hour, key)
    ensures AfterDescriptor(p, DescriptorFor(env, policy, epoch, key)) == Some(signing)
  {
  }

  /** The second call of descriptor finds the same key. */
  lemma {:induction false} ToSigning(env: Env, policy: Policy, clock: nat, before: seq<Action>, b: Batch, gaps: seq<seq<Action>>, key: Key, challenge: Challenge)
    requires Forward(before) && GapsOk(b, gaps)
    requires GoesWell(env, Run(env, Initial(policy, clock), before), b, gaps, key, challenge)
    ensures
      var c := Run(env, Initial(policy, clock), before);
      var c12 := After(env, c, b, gaps, 12);
      && At(c12.0, b.id) && c12.0.policy == c.0.policy
      && c12.0.handlers[b.id] == Signing(Req(b), b.d, challenge.serial, b.checked, HourOf(After(env, c, b, gaps, 9).0.clock), key)
  {
    hide Run, Step, After, HourOf, TicketKeys.StateInv, ClockInv, GoesWell, DescriptorFor, AfterDescriptor;
    ToCharged(env, policy, clock, before, b, gaps, key, challenge);
    var c := Run(env, Initial(policy, clock), before);
    var (epoch, c10, c11) := (HourOf(c.0.clock), After(env, c, b, gaps, 10), After(env, c, b, gaps, 11));
    LockIsFreeAgain(env, c, b, gaps, key, challenge);
    LockedAgain(env, c, b, gaps);
    Along(env, policy, clock, before, b, gaps, 11);
    HourMonotone(c.0.clock, c10.0.clock);
    assert KeyReturned(c.0.policy.revision, epoch, key) in c11.1;
    var signing := Signing(Req(b), b.d, challenge.serial, b.checked, c10.0.handlers[b.id].hour, key);
    SignsNext(env, c.0.policy, c11.0.handlers[b.id], epoch, key, signing);
    DescriptorAgain(env, c11.0, c11.1, b.id, epoch, key, b.second, signing);
    Stage(env, c, b, gaps, 11, signing);
  }

  /** In every reachable state of a clock that never goes back, and whatever bystanders do between any
      two steps: a request for a batch under the key of the current hour, with a valid proof over a
      challenge still there and not expired, membership confirmed in the epoch's own time, at once or when
      asked again, and quota left, is answered with the signatures of the whole batch under that very key. */
  lemma {:induction false} GoodProofIsSigned(env: Env, policy: Policy, clock: nat, before: seq<Action>, b: Batch, gaps: seq<seq<Action>>, key: Key, challenge: Challenge)
    requires Forward(before) && GapsOk(b, gaps)
    requires GoesWell(env, Run(env, Initial(policy, clock), before), b, gaps, key, challenge)
    ensures
      var c := Run(env, Initial(policy, clock), before);
      var c12 := After(env, c, b, gaps, 12);
      Step(env, c12.0, Sign(b.id), |c12.1|).1 ==
      [Issued(c.0.policy, key, HourOf(c.0.clock), b.d, b.proof, |b.blinded|, challenge.serial, env.binding(b.d.keyId, b.blinded), b.checked)]
  {
    ToSigning(env, policy, clock, before, b, gaps, key, challenge);
    hide Run, Step, After, TicketTrace.Addressed, HourOf, ToldMember, ToldAgain;
    var c12 := After(env, Run(env, Initial(policy, clock), before), b, gaps, 12);
    SignStep(env, c12.0, b.id, |c12.1|);
  }
}
