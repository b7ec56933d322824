/**
 A good request for a challenge is given one, and the challenge it is given is one that can be signed for:
 from the first request of a member to the signatures, whatever other handlers do between any two steps.
 */
module ChallengeCompleteness {
  import opened Clock
  import opened Options
  import opened TicketStore
  import opened TicketProtocol
  import opened TicketRedemption
  import opened TicketCompleteness
  import opened IssuanceCompleteness
  import Membership
  import MembershipCache
  import TicketBounds
  import TicketKeys
  import TicketTrace

  // ------------------------------------------------------------ a request in steps

  /** A request for a challenge, the nonce it is given and the key generated for it in vain. */
  datatype Ask = Ask(id: nat, d: Descriptor, blinded: seq<string>, candidate: Key, nonce: string)

  function AskReq(q: Ask): Request { AskChallenge(q.d, q.blinded) }

  const ASK_STEPS := 4

  /** What the handler does before it makes the challenge. */
  function AskStep(q: Ask, k: nat): Action
  {
    match k
    case 0 => Enter(q.id, AskReq(q))
    case 1 => Lock(q.id)
    case 2 => RunDescriptor(q.id, q.candidate, NoFault)
    case _ => Stamp(q.id)
  }

  /** The actions of the first k steps, each followed by what bystanders do. */
  ghost function AskPath(q: Ask, gaps: seq<seq<Action>>, k: nat): seq<Action>
    requires |gaps| == ASK_STEPS && k <= ASK_STEPS
  {
    if k == 0 then [] else AskPath(q, gaps, k - 1) + ([AskStep(q, k - 1)] + gaps[k - 1])
  }

  /** The run up to there. */
  ghost function Reached(env: Env, policy: Policy, clock: nat, before: seq<Action>, q: Ask, gaps: seq<seq<Action>>, k: nat): Point
    requires |gaps| == ASK_STEPS && k <= ASK_STEPS
  {
    Run(env, Initial(policy, clock), before + AskPath(q, gaps, k))
  }

  ghost predicate AskGapsOk(q: Ask, gaps: seq<seq<Action>>)
  {
    |gaps| == ASK_STEPS && forall k :: 0 <= k < ASK_STEPS ==> Bystanders(q.id, gaps[k])
  }

  /** The request is for the relay's own descriptor of the hour it enters in, and finds the lock free before the
      epoch's tickets expire. */
  ghost predicate AsksWell(env: Env, policy: Policy, clock: nat, before: seq<Action>, q: Ask, gaps: seq<seq<Action>>, key: Key)
    requires |gaps| == ASK_STEPS
  {
    var c := Reached(env, policy, clock, before, q, gaps, 0);
    var c1 := Reached(env, policy, clock, before, q, gaps, 1);
    var epoch := HourOf(c.0.clock);
    && !At(c.0, q.id) && KeyReturned(c.0.policy.revision, epoch, key) in c.1
    && q.d == DescriptorFor(env, c.0.policy, epoch, key) && 1 <= |q.blinded| <= 3
    && c1.0.lock.None? && HourOf(c1.0.clock) < epoch + LIFETIME
    && q.candidate !in Reached(env, policy, clock, before, q, gaps, 2).0.minted
  }

  lemma {:induction false} AskForward(q: Ask, gaps: seq<seq<Action>>, k: nat)
    requires AskGapsOk(q, gaps) && k <= ASK_STEPS
    ensures Forward(AskPath(q, gaps, k))
  {
    if k > 0 {
      AskForward(q, gaps, k - 1);
      assert Bystanders(q.id, gaps[k - 1]);
    }
  }

  /** The handler's own step k takes it to `next`; bystanders leave it there. */
  lemma {:induction false} AskStage(env: Env, policy: Policy, clock: nat, before: seq<Action>, q: Ask, gaps: seq<seq<Action>>, k: nat, next: Phase)
    requires AskGapsOk(q, gaps) && k < ASK_STEPS
    requires
      var c := Reached(env, policy, clock, before, q, gaps, k);
      var s := Step(env, c.0, AskStep(q, k), |c.1|).0;
      At(s, q.id) && s.handlers[q.id] == next && s.policy == c.0.policy && s.clock == c.0.clock
    ensures
      var c := Reached(env, policy, clock, before, q, gaps, k);
      var c' := Reached(env, policy, clock, before, q, gaps, k + 1);
      && At(c'.0, q.id) && c'.0.handlers[q.id] == next && c'.0.policy == c.0.policy && c'.0.clock >= c.0.clock && c.1 <= c'.1
      && (AskStep(q, k).Lock? && Step(env, c.0, AskStep(q, k), |c.1|).0.lock == Some(Holder(q.id, HourOf(c.0.clock))) ==>
            c'.0.lock == Some(Holder(q.id, HourOf(c.0.clock))))
  {
    hide Run, RunOn, Step, AskStep, HourOf;
    var c := Reached(env, policy, clock, before, q, gaps, k);
    var part := [AskStep(q, k)] + gaps[k];
    assert Bystanders(q.id, gaps[k]);
    StepThenBystanders(env, c, AskStep(q, k), gaps[k], q.id);
    LogExtends(env, c, part);
    RunOnIsRun(env, Initial(policy, clock), before + AskPath(q, gaps, k), part);
    assert before + AskPath(q, gaps, k) + part == before + AskPath(q, gaps, k + 1);
  }

  lemma StampStep(env: Env, s: State, id: nat, serial: nat)
    requires At(s, id) && s.handlers[id].Described? && s.handlers[id].req.AskChallenge?
    ensures
      var p := s.handlers[id];
      var s' := Step(env, s, Stamp(id), serial).0;
      && At(s', id) && s'.handlers[id] == Stamped(p.req, p.d, Reading(s.clock, s.access.core.clock))
      && s'.policy == s.policy && s'.clock == s.clock
  {
  }

  /** The handler takes the lock. */
  lemma {:induction false} AskLocked(env: Env, policy: Policy, clock: nat, before: seq<Action>, q: Ask, gaps: seq<seq<Action>>, key: Key)
    requires Forward(before) && AskGapsOk(q, gaps) && AsksWell(env, policy, clock, before, q, gaps, key)
    ensures
      var c := Reached(env, policy, clock, before, q, gaps, 0);
      var c1 := Reached(env, policy, clock, before, q, gaps, 1);
      var c2 := Reached(env, policy, clock, before, q, gaps, 2);
      && At(c2.0, q.id) && c2.0.handlers[q.id] == Calling(AskReq(q), HourOf(c.0.clock)) && c2.0.policy == c.0.policy
      && c2.0.lock == Some(Holder(q.id, HourOf(c1.0.clock))) && c.0.clock <= c1.0.clock && c.1 <= c2.1
  {
    hide Step, Run, Reached, HourOf, DescriptorFor;
    var c := Reached(env, policy, clock, before, q, gaps, 0);
    EnterStep(env, c.0, q.id, AskReq(q), |c.1|);
    AskStage(env, policy, clock, before, q, gaps, 0, Calling(AskReq(q), HourOf(c.0.clock)));
    var c1 := Reached(env, policy, clock, before, q, gaps, 1);
    LockStep(env, c1.0, q.id, |c1.1|);
    AskStage(env, policy, clock, before, q, gaps, 1, Calling(AskReq(q), HourOf(c.0.clock)));
  }

  /** It gets its descriptor. */
  lemma {:induction false} AskDescribed(env: Env, policy: Policy, clock: nat, before: seq<Action>, q: Ask, gaps: seq<seq<Action>>, key: Key)
    requires Forward(before) && AskGapsOk(q, gaps) && AsksWell(env, policy, clock, before, q, gaps, key)
    ensures
      var c := Reached(env, policy, clock, before, q, gaps, 0);
      var c3 := Reached(env, policy, clock, before, q, gaps, 3);
      At(c3.0, q.id) && c3.0.handlers[q.id] == Described(AskReq(q), q.d) && c3.0.policy == c.0.policy
  {
    AskLocked(env, policy, clock, before, q, gaps, key);
    AskForward(q, gaps, 2);
    TicketKeys.RunKeeps(env, policy, clock, before + AskPath(q, gaps, 2));
    ClockRun(env, policy, clock, before + AskPath(q, gaps, 2));
    hide Step, Run, AskPath, HourOf, DescriptorFor, TicketKeys.StateInv, ClockInv;
    var c := Reached(env, policy, clock, before, q, gaps, 0);
    var c1 := Reached(env, policy, clock, before, q, gaps, 1);
    var c2 := Reached(env, policy, clock, before, q, gaps, 2);
    var epoch := HourOf(c.0.clock);
    HourMonotone(c.0.clock, c1.0.clock);
    assert KeyReturned(c.0.policy.revision, epoch, key) in c2.1;
    assert AfterDescriptor(c2.0.handlers[q.id], q.d) == Some(Described(AskReq(q), q.d));
    hide AfterDescriptor, Reached;
    DescriptorAgain(env, c2.0, c2.1, q.id, epoch, key, q.candidate, Described(AskReq(q), q.d));
    AskStage(env, policy, clock, before, q, gaps, 2, Described(AskReq(q), q.d));
  }

  /** The time is read for the challenge. */
  lemma {:induction false} AskStamped(env: Env, policy: Policy, clock: nat, before: seq<Action>, q: Ask, gaps: seq<seq<Action>>, key: Key)
    requires Forward(before) && AskGapsOk(q, gaps) && AsksWell(env, policy, clock, before, q, gaps, key)
    ensures
      var c := Reached(env, policy, clock, before, q, gaps, 0);
      var c3 := Reached(env, policy, clock, before, q, gaps, 3);
      var c4 := Reached(env, policy, clock, before, q, gaps, 4);
      && At(c4.0, q.id) && c4.0.handlers[q.id] == Stamped(AskReq(q), q.d, Reading(c3.0.clock, c3.0.access.core.clock))
      && c4.0.policy == c.0.policy
  {
    hide Step, Run, Reached, HourOf;
    AskDescribed(env, policy, clock, before, q, gaps, key);
    var c3 := Reached(env, policy, clock, before, q, gaps, 3);
    StampStep(env, c3.0, q.id, |c3.1|);
    AskStage(env, policy, clock, before, q, gaps, 3, Stamped(AskReq(q), q.d, Reading(c3.0.clock, c3.0.access.core.clock)));
  }

  // ---------------------------------------------------------------- the challenge

  /** The challenges on offer that have not expired. */
  ghost function Alive(s: State): set<string> { set n | n in s.challenges && s.access.core.clock <= s.challenges[n].expires.mono }

  lemma AliveIsUnexpired(s: State)
    ensures |Unexpired(s.challenges, Now(s))| == |Alive(s)|
  {
    assert Unexpired(s.challenges, Now(s)).Keys == Alive(s);
  }

  /** The challenge a request is given: for its batch and epoch, and good for a minute from when the time was
      read for it, on either clock. */
  ghost function Given(env: Env, policy: Policy, clock: nat, before: seq<Action>, q: Ask, gaps: seq<seq<Action>>): Challenge
    requires |gaps| == ASK_STEPS
  {
    var c := Reached(env, policy, clock, before, q, gaps, 0);
    var read := Now(Reached(env, policy, clock, before, q, gaps, 3).0);
    Challenge(env.binding(q.d.keyId, q.blinded), HourOf(c.0.clock),
              Reading(read.wall + 60_000_000_000, read.mono + 60_000_000_000), |Reached(env, policy, clock, before, q, gaps, 4).1|)
  }

  /** After any run with a clock that never goes back, and with any bystanders between its steps: a request with
      the relay's own descriptor of the hour and one to three blinded messages is given a challenge, for its
      batch, if and only if fewer than 256 others have not expired. */
  lemma {:induction false} GoodRequestGetsChallenge(env: Env, policy: Policy, clock: nat, before: seq<Action>, q: Ask, gaps: seq<seq<Action>>, key: Key)
    requires Forward(before) && AskGapsOk(q, gaps) && AsksWell(env, policy, clock, before, q, gaps, key)
    ensures
      var c := Reached(env, policy, clock, before, q, gaps, 0);
      var c3 := Reached(env, policy, clock, before, q, gaps, 3);
      var c4 := Reached(env, policy, clock, before, q, gaps, 4);
      var (s, more) := Step(env, c4.0, Offer(q.id, q.nonce), |c4.1|);
      && (|Alive(c4.0)| < 256 <==> more == [ChallengeMade(q.nonce, env.binding(q.d.keyId, q.blinded), HourOf(c.0.clock), Now(c3.0))])
      && (|Alive(c4.0)| < 256 ==> q.nonce in s.challenges && s.challenges[q.nonce] == Given(env, policy, clock, before, q, gaps))
      && s.policy == c.0.policy
  {
    AskStamped(env, policy, clock, before, q, gaps, key);
    var c4 := Reached(env, policy, clock, before, q, gaps, 4);
    assert q.d.epoch == HourOf(Reached(env, policy, clock, before, q, gaps, 0).0.clock);
    hide Reached, Step, HourOf, DescriptorFor, AsksWell;
    AliveIsUnexpired(c4.0);
    TicketBounds.ChallengeMadeIff(env, c4.0, q.id, q.nonce, |c4.1|);
    OfferedEvent(env, c4.0, q.id, q.nonce, |c4.1|);
  }

  lemma OfferedEvent(env: Env, s: State, id: nat, nonce: string, serial: nat)
    requires At(s, id) && s.handlers[id].Stamped? && s.handlers[id].req.AskChallenge?
    ensures
      var p := s.handlers[id];
      var (s', more) := Step(env, s, Offer(id, nonce), serial);
      (more == [] || more == [ChallengeMade(nonce, env.binding(p.d.keyId, p.req.blinded), p.d.epoch, p.stamped)]) && s'.policy == s.policy
  {
    hide AddChallenge;
  }

  // --------------------------------------------------------------- until it is used

  /** The step takes the challenge away, puts another in its place, or ends the process. */
  ghost predicate Touches(s: State, a: Action, nonce: string)
  {
    || a.Restart? || (a.Offer? && a.nonce == nonce)
    || (a.TakeNonce? && At(s, a.id) && s.handlers[a.id].Described? && s.handlers[a.id].req.AskIssue? && s.handlers[a.id].req.proof.nonce == nonce)
  }

  /** Nothing in the continuation of a run does. */
  ghost predicate Untouched(env: Env, s0: State, upto: seq<Action>, rest: seq<Action>, nonce: string)
  {
    forall k :: 0 <= k < |rest| ==> !Touches(Run(env, s0, upto + rest[..k]).0, rest[k], nonce)
  }

  /** Time passes for the authority only by a tick of the clock that goes on. */
  lemma AuthorityClock(env: Env, s: State, a: Action, serial: nat)
    requires !a.Restart?
    ensures Step(env, s, a, serial).0.access.core.clock == s.access.core.clock + if a.AccessStep? && a.a.Ask? then MembershipCache.TickOf(a.a.a) else 0
  {
    hide DoLocal, Describe, RedeemWith, LiveCount, DescriptorFor, AddChallenge, ChargeQuota, CommitSpent, HourOf, Millis, Membership.Step;
    if a.AccessStep? { MembershipCache.AccessClock(s.policy.core, s.access, a.a); }
    if a.CallMembership? && At(s, a.id) && AsksAccess(s.handlers[a.id]) {
      var p := s.handlers[a.id];
      MembershipCache.AccessClock(s.policy.core, s.access,
                  if p.Proven? then Membership.Call(a.id, p.req.proof.address) else Membership.CallDirect(a.id, p.req.proof.address));
    }
    if a.TakeAnswer? { MembershipCache.AccessClock(s.policy.core, s.access, Membership.Depart(a.id)); }
  }

  lemma UntouchedStep(env: Env, s: State, a: Action, serial: nat, nonce: string)
    requires nonce in s.challenges && s.access.core.clock <= s.challenges[nonce].expires.mono && !Touches(s, a, nonce)
    ensures
      var s' := Step(env, s, a, serial).0;
      nonce in s'.challenges && s'.challenges[nonce] == s.challenges[nonce] && s'.policy == s.policy
  {
    hide DoLocal, DoDescriptor, DoRedeemAtOnce, DoAccess, DoCall, DoTakeAnswer, DoCharge, DoSpend, DoEnter, DoAbandon, DoLock;
    if a.RunDescriptor? || a.RedeemAtOnce? || a.Charge? || a.Spend? || a.Enter? || a.Abandon? || a.Lock? {
      OthersLeaveChallenges(env, s, a, serial);
    }
  }

  lemma OthersLeaveChallenges(env: Env, s: State, a: Action, serial: nat)
    requires a.RunDescriptor? || a.RedeemAtOnce? || a.Charge? || a.Spend? || a.Enter? || a.Abandon? || a.Lock?
    ensures
      var s' := Step(env, s, a, serial).0;
      s'.challenges == s.challenges && s'.policy == s.policy
  {
    hide Describe, RedeemWith, LiveCount, DescriptorFor, AfterDescriptor, ChargeQuota, CommitSpent, HourOf;
  }

  lemma {:induction false} UntouchedRun(env: Env, s0: State, upto: seq<Action>, rest: seq<Action>, nonce: string)
    requires nonce in Run(env, s0, upto).0.challenges && Untouched(env, s0, upto, rest, nonce)
    requires Run(env, s0, upto + rest).0.access.core.clock <= Run(env, s0, upto).0.challenges[nonce].expires.mono
    ensures
      var (s, s') := (Run(env, s0, upto).0, Run(env, s0, upto + rest).0);
      && nonce in s'.challenges && s'.challenges[nonce] == s.challenges[nonce] && s'.policy == s.policy
  {
    hide Run, Step, Touches;
    if rest == [] {
      assert upto + rest == upto;
    } else {
      var init, a := rest[..|rest| - 1], rest[|rest| - 1];
      assert upto + rest == upto + init + [a];
      RunStep(env, s0, upto + init, a);
      var (s, log) := Run(env, s0, upto + init);
      assert !Touches(s, a, nonce);
      assert !a.Restart? by { NotRestart(s, a, nonce); }
      AuthorityClock(env, s, a, |log|);
      assert forall k :: 0 <= k < |init| ==> init[k] == rest[k] && init[..k] == rest[..k];
      UntouchedRun(env, s0, upto, init, nonce);
      UntouchedStep(env, s, a, |log|, nonce);
    }
  }

  lemma NotRestart(s: State, a: Action, nonce: string)
    requires !Touches(s, a, nonce)
    ensures !a.Restart?
  {
  }

  // ------------------------------------------------------------------ main result

  /** The run in which the challenge is made, after any further steps. */
  ghost function Offered(before: seq<Action>, q: Ask, gaps: seq<seq<Action>>): seq<Action>
    requires |gaps| == ASK_STEPS
  {
    before + AskPath(q, gaps, ASK_STEPS) + [Offer(q.id, q.nonce)]
  }

  /** From a member's first request to the signatures. After any run with a clock that never goes back, with any
      bystanders between all steps of both requests, and anything that leaves the nonce alone between the two: a
      request for a challenge with the relay's own descriptor of the hour, made while fewer than 256 others have
      not expired, and then a request with a signed proof for that challenge, presented within its minute and in
      the same hour, with the membership confirmed and quota left, is answered with signatures for the whole
      batch; and the log has the making of the challenge at the very place the signatures name. */
  lemma {:induction false} ChallengeIsSignedFor(env: Env, policy: Policy, clock: nat, before: seq<Action>, q: Ask, asking: seq<seq<Action>>,
                                                 between: seq<Action>, b: Batch, gaps: seq<seq<Action>>, key: Key)
    requires Forward(before) && AskGapsOk(q, asking) && AsksWell(env, policy, clock, before, q, asking, key)
    requires |Alive(Reached(env, policy, clock, before, q, asking, 4).0)| < 256
    requires Forward(between) && GapsOk(b, gaps) && b.proof.nonce == q.nonce && b.d == q.d && b.blinded == q.blinded
    requires Untouched(env, Initial(policy, clock), Offered(before, q, asking), between + Path(b, gaps, 3), q.nonce)
    requires
      var c := Run(env, Initial(policy, clock), Offered(before, q, asking) + between);
      var challenge := Given(env, policy, clock, before, q, asking);
      && Favoured(env, c, b, gaps, key) && HourOf(c.0.clock) == challenge.epoch
      && TicketTrace.Addressed(env, c.0.policy, b.proof, challenge.binding, challenge.expires)
      && After(env, c, b, gaps, 4).0.access.core.clock <= challenge.expires.mono
    ensures
      var c := Run(env, Initial(policy, clock), Offered(before, q, asking) + between);
      var c12 := After(env, c, b, gaps, 12);
      var challenge := Given(env, policy, clock, before, q, asking);
      && Step(env, c12.0, Sign(b.id), |c12.1|).1 ==
           [Issued(c.0.policy, key, challenge.epoch, b.d, b.proof, |b.blinded|, challenge.serial, challenge.binding, b.checked)]
      && challenge.serial < |c12.1|
      && c12.1[challenge.serial] == ChallengeMade(q.nonce, challenge.binding, challenge.epoch, Now(Reached(env, policy, clock, before, q, asking, 3).0))
  {
    hide Run, Step, Reached, Given, AskPath, Alive, After, HourOf, Favoured, TicketTrace.Addressed, Untouched, Path, AsksWell;
    var s0, made := Initial(policy, clock), Offered(before, q, asking);
    var challenge := Given(env, policy, clock, before, q, asking);
    ChallengeIsThere(env, policy, clock, before, q, asking, key);
    var c := Run(env, s0, made + between);
    StaysToBeTaken(env, s0, made, between, b, gaps, challenge);
    GivenBinding(env, policy, clock, before, q, asking);
    WellGoes(env, c, b, gaps, key, challenge);
    assert Forward(made + between) by { OfferedForward(before, q, asking); }
    GoodProofIsSigned(env, policy, clock, made + between, b, gaps, key, challenge);
    RunOnIsRun(env, s0, made, between);
    LogExtends(env, Run(env, s0, made), between);
    LogGrowsAlong(env, c, b, gaps, 12);
  }

  /** The challenge that was made, and its place in the log. */
  lemma {:induction false} ChallengeIsThere(env: Env, policy: Policy, clock: nat, before: seq<Action>, q: Ask, gaps: seq<seq<Action>>, key: Key)
    requires Forward(before) && AskGapsOk(q, gaps) && AsksWell(env, policy, clock, before, q, gaps, key)
    requires |Alive(Reached(env, policy, clock, before, q, gaps, 4).0)| < 256
    ensures
      var (s, log) := Run(env, Initial(policy, clock), Offered(before, q, gaps));
      var challenge := Given(env, policy, clock, before, q, gaps);
      && q.nonce in s.challenges && s.challenges[q.nonce] == challenge && challenge.serial < |log|
      && log[challenge.serial] == ChallengeMade(q.nonce, challenge.binding, challenge.epoch, Now(Reached(env, policy, clock, before, q, gaps, 3).0))
  {
    GoodRequestGetsChallenge(env, policy, clock, before, q, gaps, key);
    hide Run, Step, AskPath, Alive, HourOf, AsksWell;
    RunStep(env, Initial(policy, clock), before + AskPath(q, gaps, ASK_STEPS), Offer(q.id, q.nonce));
  }

  /** It is there still when the proof comes, left alone and not expired. */
  lemma {:induction false} StaysToBeTaken(env: Env, s0: State, made: seq<Action>, between: seq<Action>, b: Batch, gaps: seq<seq<Action>>, challenge: Challenge)
    requires |gaps| == STEPS && GapsOk(b, gaps) && Untouched(env, s0, made, between + Path(b, gaps, 3), b.proof.nonce)
    requires
      var s := Run(env, s0, made).0;
      && b.proof.nonce in s.challenges && s.challenges[b.proof.nonce] == challenge
      && After(env, Run(env, s0, made + between), b, gaps, 4).0.access.core.clock <= challenge.expires.mono
    ensures
      var c3 := After(env, Run(env, s0, made + between), b, gaps, 3);
      b.proof.nonce in c3.0.challenges && c3.0.challenges[b.proof.nonce] == challenge
  {
    hide Run, Untouched, Path, StepOf, RunOn;
    var c := Run(env, s0, made + between);
    assert After(env, c, b, gaps, 4) == RunOn(env, After(env, c, b, gaps, 3), [StepOf(b, 3)] + gaps[3]);
    TimeGoesOn(env, After(env, c, b, gaps, 3), b, gaps[3]);
    hide After;
    AfterIsRun(env, s0, made + between, b, gaps, 3);
    assert made + between + Path(b, gaps, 3) == made + (between + Path(b, gaps, 3));
    UntouchedRun(env, s0, made, between + Path(b, gaps, 3), b.proof.nonce);
  }

  lemma {:induction false} TimeGoesOn(env: Env, c: Point, b: Batch, gap: seq<Action>)
    requires Bystanders(b.id, gap)
    ensures c.0.access.core.clock <= RunOn(env, c, [StepOf(b, 3)] + gap).0.access.core.clock
  {
    hide RunOn, Step;
    if gap == [] {
      assert [StepOf(b, 3)] + gap == [] + [StepOf(b, 3)];
      RunOnNothing(env, c);
      RunOnStep(env, c, [], StepOf(b, 3));
      AuthorityClock(env, c.0, StepOf(b, 3), |c.1|);
    } else {
      var init, a := gap[..|gap| - 1], gap[|gap| - 1];
      TimeGoesOn(env, c, b, init);
      assert [StepOf(b, 3)] + gap == ([StepOf(b, 3)] + init) + [a];
      RunOnStep(env, c, [StepOf(b, 3)] + init, a);
      var (s, log) := RunOn(env, c, [StepOf(b, 3)] + init);
      AuthorityClock(env, s, a, |log|);
    }
  }

  lemma {:induction false} GivenBinding(env: Env, policy: Policy, clock: nat, before: seq<Action>, q: Ask, gaps: seq<seq<Action>>)
    requires |gaps| == ASK_STEPS
    ensures Given(env, policy, clock, before, q, gaps).binding == env.binding(q.d.keyId, q.blinded)
  {
    hide Reached;
  }

  lemma {:induction false} OfferedForward(before: seq<Action>, q: Ask, gaps: seq<seq<Action>>)
    requires Forward(before) && AskGapsOk(q, gaps)
    ensures Forward(Offered(before, q, gaps))
  {
    AskForward(q, gaps, ASK_STEPS);
    hide AskPath;
  }

  lemma {:induction false} WellGoes(env: Env, c: Point, b: Batch, gaps: seq<seq<Action>>, key: Key, challenge: Challenge)
    requires |gaps| == STEPS && Favoured(env, c, b, gaps, key)
    requires
      var c3 := After(env, c, b, gaps, 3);
      && b.proof.nonce in c3.0.challenges && c3.0.challenges[b.proof.nonce] == challenge
      && challenge.epoch == HourOf(c.0.clock) && challenge.binding == env.binding(b.d.keyId, b.blinded)
      && TicketTrace.Addressed(env, c.0.policy, b.proof, challenge.binding, challenge.expires)
      && After(env, c, b, gaps, 4).0.access.core.clock <= challenge.expires.mono
    ensures GoesWell(env, c, b, gaps, key, challenge)
  {
    hide After, HourOf, Favoured, TicketTrace.Addressed;
  }
}
