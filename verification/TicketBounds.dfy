/** The bounds on stored and remembered records, over every run. */
module TicketBounds {
  import opened Clock
  import opened Options
  import opened TicketStore
  import opened TicketProtocol
  import Sets

  ghost predicate BoundsInv(s: State)
  {
    |s.challenges| <= CHALLENGE_CAP && |s.durable.spent| <= BUCKET_CAP && |s.durable.quota| <= BUCKET_CAP
  }

  lemma DescribeBounded(d: Durable, cache: map<int, Key>, revision: string, epoch: int, hour: int, candidate: Key, fault: Fault)
    requires |d.spent| <= BUCKET_CAP && |d.quota| <= BUCKET_CAP
    ensures
      var d' := Describe(d, cache, revision, epoch, hour, candidate, fault).durable;
      |d'.spent| <= BUCKET_CAP && |d'.quota| <= BUCKET_CAP
  {
    hide LiveKeys, LiveCache, LiveRecords;
    LiveIsFewer(d.spent, hour);
    LiveIsFewer(d.quota, hour);
  }

  lemma CommitBounded(d: Durable, record: RecordKey, hour: int, keyN: nat)
    requires |d.spent| <= BUCKET_CAP && |d.quota| <= BUCKET_CAP && keyN >= LiveCount(d, hour)
    ensures
      var d' := CommitSpent(d, record, hour, keyN).0;
      |d'.spent| <= BUCKET_CAP && |d'.quota| <= BUCKET_CAP
  {
    LiveIsFewer(d.quota, hour);
  }

  lemma ChargeBounded(d: Durable, record: RecordKey, n: nat, keyN: nat)
    requires |d.spent| <= BUCKET_CAP && |d.quota| <= BUCKET_CAP && keyN >= |d.quota|
    ensures |ChargeQuota(d, record, n, keyN).0.quota| <= BUCKET_CAP
  {
    if record in d.quota {
      assert d.quota[record := QuotaOf(d, record) + n].Keys == d.quota.Keys;
    }
  }

  lemma OfferBounded(cs: map<string, Challenge>, nonce: string, c: Challenge, now: Reading)
    requires |cs| <= CHALLENGE_CAP
    ensures |AddChallenge(cs, nonce, c, now).0| <= CHALLENGE_CAP
  {
    Sets.SubsetSize(Unexpired(cs, now).Keys, cs.Keys);
  }

  lemma BoundsAtOnce(env: Env, s: State, t: Ticket, candidate: Key, fault: Fault, keyN: nat, fails: bool)
    requires BoundsInv(s)
    ensures BoundsInv(DoRedeemAtOnce(env, s, t, candidate, fault, keyN, fails).0)
  {
    hide Describe, HourOf, CommitSpent, LiveCount, TicketValid, DescriptorFor;
    var o := Describe(s.durable, s.cache, s.policy.revision, t.epoch, HourOf(s.clock), candidate, fault);
    DescribeBounded(s.durable, s.cache, s.policy.revision, t.epoch, HourOf(s.clock), candidate, fault);
    if keyN >= LiveCount(o.durable, HourOf(s.clock)) {
      CommitBounded(o.durable, Marker(env, t), HourOf(s.clock), keyN);
    }
  }

  lemma BoundsStore(env: Env, s: State, id: nat, keyN: nat, fails: bool)
    requires BoundsInv(s)
    ensures BoundsInv(DoSpend(env, s, id, keyN, fails).0) && BoundsInv(DoCharge(env, s, id, keyN, fails).0)
  {
    hide HourOf, CommitSpent, ChargeQuota, LiveCount;
    if At(s, id) {
      var p := s.handlers[id];
      if p.Accepted? && keyN >= LiveCount(s.durable, HourOf(s.clock)) {
        CommitBounded(s.durable, Marker(env, p.ticket), HourOf(s.clock), keyN);
      } else if p.Approved? && p.req.AskIssue? && keyN >= |s.durable.quota| {
        ChargeBounded(s.durable, QuotaRecord(env, p.d, p.req.proof), |p.req.blinded|, keyN);
      }
    }
  }

  lemma BoundsChallenge(env: Env, s: State, id: nat, nonce: string, serial: nat)
    requires BoundsInv(s)
    ensures BoundsInv(DoOffer(env, s, id, nonce, serial).0) && BoundsInv(DoTakeNonce(s, id).0)
  {
    hide AddChallenge;
    if At(s, id) {
      var p := s.handlers[id];
      if p.Stamped? && p.req.AskChallenge? {
        OfferBounded(s.challenges, nonce, Challenge(env.binding(p.d.keyId, p.req.blinded), p.d.epoch, Later(p.stamped, MINUTE), serial), Now(s));
      } else if p.Described? && p.req.AskIssue? {
        Sets.SubsetSize((s.challenges - {p.req.proof.nonce}).Keys, s.challenges.Keys);
      }
    }
  }

  /** When a challenge is made: fewer than 256 others have not expired. It is bound to the batch, the
      epoch and a minute from when the request was stamped; expired ones are gone, the others stay. */
  lemma ChallengeMadeIff(env: Env, s: State, id: nat, nonce: string, serial: nat)
    requires At(s, id) && s.handlers[id].Stamped? && s.handlers[id].req.AskChallenge?
    ensures
      var p := s.handlers[id];
      var (s', more) := Step(env, s, Offer(id, nonce), serial);
      && (more != [] <==> |Unexpired(s.challenges, Now(s))| < 256)
      && (more != [] ==>
            nonce in s'.challenges && s'.challenges[nonce] == Challenge(env.binding(p.d.keyId, p.req.blinded), p.d.epoch, Later(p.stamped, MINUTE), serial))
      && (forall n :: n != nonce || more == [] ==>
            (n in s'.challenges <==> n in s.challenges && s.access.core.clock <= s.challenges[n].expires.mono) &&
            (n in s'.challenges ==> s'.challenges[n] == s.challenges[n]))
      && !At(s', id)
  {
  }

  lemma BoundsDescriptor(env: Env, s: State, id: nat, candidate: Key, fault: Fault)
    requires BoundsInv(s)
    ensures BoundsInv(DoDescriptor(env, s, id, candidate, fault).0)
  {
    hide Describe, DescriptorFor, AfterDescriptor, Settle;
    if Describing(s, id) {
      DescribeBounded(s.durable, s.cache, s.policy.revision, WantedEpoch(s.handlers[id]), s.lock.value.hour, candidate, fault);
    }
  }

  /** Steps that touch neither the store nor the challenges, or forget the challenges. */
  lemma BoundsOther(env: Env, s: State, a: Action, serial: nat)
    requires BoundsInv(s)
    requires !a.RunDescriptor? && !a.RedeemAtOnce? && !a.Spend? && !a.Charge? && !a.Offer? && !a.TakeNonce?
    ensures BoundsInv(Step(env, s, a, serial).0)
  {
    hide HourOf, DoLocal, DoDescriptor, DoRedeemAtOnce, DoSpend, DoCharge, DoOffer, DoTakeNonce;
  }

  lemma BoundsStep(env: Env, s: State, a: Action, serial: nat)
    requires BoundsInv(s)
    ensures BoundsInv(Step(env, s, a, serial).0)
  {
    hide BoundsInv, DoLocal, DoEnter, DoLock, DoAccess, DoCall, DoTakeAnswer, DoDescriptor, DoRedeemAtOnce, DoSpend, DoCharge, DoOffer, DoTakeNonce;
    if a.RunDescriptor? {
      BoundsDescriptor(env, s, a.id, a.candidate, a.fault);
    } else if a.RedeemAtOnce? {
      BoundsAtOnce(env, s, a.ticket, a.candidate, a.fault, a.keyN, a.fails);
    } else if a.Spend? || a.Charge? {
      BoundsStore(env, s, a.id, a.keyN, a.fails);
    } else if a.Offer? {
      BoundsChallenge(env, s, a.id, a.nonce, serial);
    } else if a.TakeNonce? {
      BoundsChallenge(env, s, a.id, "", serial);
    } else {
      BoundsOther(env, s, a, serial);
    }
  }

  /** In every reachable state, whatever the clock does: at most 256 outstanding challenges and at most
      100,000 records in each of the two record buckets. */
  lemma {:induction false} AlwaysBounded(env: Env, policy: Policy, clock: nat, actions: seq<Action>)
    ensures
      var s := Run(env, Initial(policy, clock), actions).0;
      |s.challenges| <= 256 && |s.durable.spent| <= 100_000 && |s.durable.quota| <= 100_000
  {
    if actions != [] {
      hide Step;
      var before := actions[..|actions| - 1];
      AlwaysBounded(env, policy, clock, before);
      var (s, log) := Run(env, Initial(policy, clock), before);
      BoundsStep(env, s, actions[|actions| - 1], |log|);
    }
  }

  /** A restart drops all that is not in the database: challenges, cached keys, handlers, the lock and what the
      access policy remembers; the database, and the keys ever generated, stay as they are. */
  lemma RestartForgets(env: Env, s: State, policy: Policy, serial: nat)
    ensures
      var (s', more) := Step(env, s, Restart(policy), serial);
      && s'.durable == s.durable && s'.minted == s.minted && s'.clock == s.clock && s'.policy == policy && more == []
      && s'.challenges == map[] && s'.cache == map[] && s'.handlers == map[] && s'.lock.None?
      && s'.access.cache == map[] && s'.access.pending == map[] && s'.access.callers == map[] && s'.access.core.lookups == map[]
  {
  }
}
