/**
 Signing keys: one per policy revision and hour, for ever, whatever the clock does.
 */
module TicketKeys {
  import opened Clock
  import opened Options
  import opened TicketStore
  import opened TicketProtocol
  import Sets

  /** The two bucket rows and the in-memory cache only ever hold keys that descriptor has returned,
      and a returned key stays in its row until the high-water mark is 12 hours past its epoch. */
  ghost predicate KeysInv(d: Durable, cache: map<int, Key>, revision: string, minted: set<Key>, log: seq<Event>)
  {
    && (forall n :: n in d.keys ==> KeyReturned(n.revision, n.epoch, d.keys[n]) in log)
    && (forall e :: e in cache ==> KeyReturned(revision, e, cache[e]) in log)
    && (forall e, e' :: e in cache && e' in cache ==> e - e' < LIFETIME)
    && (forall r, e, k :: KeyReturned(r, e, k) in log ==> Retained(d, minted, r, e, k))
  }

  ghost predicate Retained(d: Durable, minted: set<Key>, r: string, e: int, k: Key)
  {
    && e <= d.latest
    && k in minted
    && (e > d.latest - LIFETIME ==> KeyName(r, e) in d.keys && d.keys[KeyName(r, e)] == k)
  }

  /** No row is ever given two keys, and no key serves two rows. */
  ghost predicate OneKeyPerRow(log: seq<Event>)
  {
    forall r, e, k, r', e', k' :: KeyReturned(r, e, k) in log && KeyReturned(r', e', k') in log ==>
      ((r == r' && e == e') <==> k == k')
  }

  ghost predicate StateInv(s: State, log: seq<Event>)
  {
    KeysInv(s.durable, s.cache, s.policy.revision, s.minted, log) && OneKeyPerRow(log)
  }

  ghost predicate NoNewKey(more: seq<Event>) { forall i :: 0 <= i < |more| ==> !more[i].KeyReturned? }

  lemma AdvanceHourKeeps(d: Durable, hour: int, cache: map<int, Key>, revision: string, minted: set<Key>, log: seq<Event>)
    requires KeysInv(d, cache, revision, minted, log)
    ensures KeysInv(AdvanceHour(d, hour), cache, revision, minted, log)
  {
    var d1 := AdvanceHour(d, hour);
    forall r, e, k | KeyReturned(r, e, k) in log
      ensures Retained(d1, minted, r, e, k)
    {
      assert Retained(d, minted, r, e, k);
    }
  }

  /** What one call of descriptor does to keys and cache; a returned key is new or the row's own. */
  lemma DescribeKeeps(d: Durable, cache: map<int, Key>, revision: string, minted: set<Key>, log: seq<Event>,
                      epoch: int, hour: int, candidate: Key, fault: Fault)
    requires KeysInv(d, cache, revision, minted, log) && OneKeyPerRow(log)
    requires candidate !in minted
    ensures
      var o := Describe(d, cache, revision, epoch, hour, candidate, fault);
      var more := if o.key.Some? then [KeyReturned(revision, epoch, o.key.value)] else [];
      && KeysInv(o.durable, o.cache, revision, minted + {candidate}, log + more) && OneKeyPerRow(log + more)
      && o.durable.latest >= d.latest
  {
    var o := Describe(d, cache, revision, epoch, hour, candidate, fault);
    var minted' := minted + {candidate};
    if epoch > hour || epoch <= hour - LIFETIME || hour < d.latest || fault.HighWaterFails? {
      assert log + [] == log;
    } else {
      var d1 := AdvanceHour(d, hour);
      AdvanceHourKeeps(d, hour, cache, revision, minted, log);
      assert d1.latest == hour;
      if o.key.None? {
        assert log + [] == log;
        forall r, e, k | KeyReturned(r, e, k) in log
          ensures Retained(d1, minted', r, e, k)
        {
          assert Retained(d1, minted, r, e, k);
        }
      } else {
        ReturnedKeyKeeps(d1, cache, revision, minted, log, epoch, o.key.value,
                         if epoch in cache || KeyName(revision, epoch) in d1.keys then None else Some(candidate), candidate);
        assert log + [KeyReturned(revision, epoch, o.key.value)] == log + [KeyReturned(revision, epoch, o.key.value)];
      }
    }
  }

  /** The tail of descriptor: `made` is the key it generated, if it did. */
  lemma ReturnedKeyKeeps(d: Durable, cache: map<int, Key>, revision: string, minted: set<Key>, log: seq<Event>,
                         epoch: int, key: Key, made: Option<Key>, candidate: Key)
    requires KeysInv(d, cache, revision, minted, log) && OneKeyPerRow(log)
    requires d.latest - LIFETIME < epoch <= d.latest
    requires candidate !in minted
    requires made.None? ==>
      (epoch in cache && key == cache[epoch]) ||
      (epoch !in cache && KeyName(revision, epoch) in d.keys && key == d.keys[KeyName(revision, epoch)])
    requires made.Some? ==> made.value == key == candidate && epoch !in cache && KeyName(revision, epoch) !in d.keys
    ensures
      var d2 := if made.Some? then d.(keys := d.keys[KeyName(revision, epoch) := key]) else d;
      var cache2 := LiveCache(if epoch in cache then cache else cache[epoch := key], d.latest);
      var log2 := log + [KeyReturned(revision, epoch, key)];
      KeysInv(d2, cache2, revision, minted + {candidate}, log2) && OneKeyPerRow(log2)
  {
    var d2 := if made.Some? then d.(keys := d.keys[KeyName(revision, epoch) := key]) else d;
    var cache2 := LiveCache(if epoch in cache then cache else cache[epoch := key], d.latest);
    var log2 := log + [KeyReturned(revision, epoch, key)];
    forall r, e, k | KeyReturned(r, e, k) in log2
      ensures Retained(d2, minted + {candidate}, r, e, k)
    {
      if KeyReturned(r, e, k) in log {
        assert Retained(d, minted, r, e, k);
      }
    }
    forall e | e in cache2
      ensures e <= d.latest
    {
      if e in cache { assert Retained(d, minted, revision, e, cache[e]); }
    }
    forall r, e, k | KeyReturned(r, e, k) in log
      ensures (r == revision && e == epoch) <==> k == key
    {
      assert Retained(d, minted, r, e, k);
      if made.None? && epoch !in cache { assert KeyReturned(revision, epoch, key) in log; }
    }
  }

  lemma FrameKeeps(d: Durable, cache: map<int, Key>, revision: string, minted: set<Key>, log: seq<Event>,
                   d': Durable, more: seq<Event>)
    requires KeysInv(d, cache, revision, minted, log) && OneKeyPerRow(log)
    requires d'.keys == d.keys && d'.latest == d.latest && NoNewKey(more)
    ensures KeysInv(d', cache, revision, minted, log + more) && OneKeyPerRow(log + more)
  {
    forall r, e, k | KeyReturned(r, e, k) in log + more
      ensures KeyReturned(r, e, k) in log && Retained(d', minted, r, e, k)
    {
      assert Retained(d, minted, r, e, k);
    }
  }

  /** Every action but the two that call descriptor leaves the keys, the cache and the mark alone, or
      (a restart) empties the cache. */
  lemma QuietStep(env: Env, s: State, a: Action, serial: nat)
    requires !a.RunDescriptor? && !a.RedeemAtOnce?
    ensures
      var (s', more) := Step(env, s, a, serial);
      && s'.durable.keys == s.durable.keys && s'.durable.latest == s.durable.latest && s'.minted == s.minted
      && (s'.cache == map[] || (s'.cache == s.cache && s'.policy == s.policy))
      && NoNewKey(more)
  {
    hide DoLocal, Settle, AddChallenge, ChargeQuota, CommitSpent, HourOf, DoDescriptor, DoRedeemAtOnce, DoAccess, DoCall, DoTakeAnswer, LiveCount;
    assert NoNewKey([]);
  }

  lemma DescriptorStep(env: Env, s: State, log: seq<Event>, id: nat, candidate: Key, fault: Fault)
    requires StateInv(s, log)
    ensures
      var (s', more) := DoDescriptor(env, s, id, candidate, fault);
      StateInv(s', log + more) && s'.durable.latest >= s.durable.latest
  {
    if Describing(s, id) && candidate !in s.minted {
      DescribeKeeps(s.durable, s.cache, s.policy.revision, s.minted, log,
                    WantedEpoch(s.handlers[id]), s.lock.value.hour, candidate, fault);
    } else {
      assert log + [] == log;
    }
  }

  lemma RedeemStep(env: Env, s: State, log: seq<Event>, t: Ticket, candidate: Key, fault: Fault, keyN: nat, fails: bool)
    requires StateInv(s, log)
    ensures
      var (s', more) := DoRedeemAtOnce(env, s, t, candidate, fault, keyN, fails);
      StateInv(s', log + more) && s'.durable.latest >= s.durable.latest
  {
    hide Describe, RedeemWith, KeysInv, OneKeyPerRow, HourOf;
    var (s', more) := DoRedeemAtOnce(env, s, t, candidate, fault, keyN, fails);
    var o := Describe(s.durable, s.cache, s.policy.revision, t.epoch, HourOf(s.clock), candidate, fault);
    if s.lock.Some? || candidate in s.minted || keyN < LiveCount(o.durable, HourOf(s.clock)) {
      assert log + more == log;
    } else {
      DescribeKeeps(s.durable, s.cache, s.policy.revision, s.minted, log, t.epoch, HourOf(s.clock), candidate, fault);
      var first := if o.key.Some? then [KeyReturned(s.policy.revision, t.epoch, o.key.value)] else [];
      var rest := if o.key.Some? then RedeemWith(env, s.policy, s.clock, o.durable, o.key.value, t, keyN, fails).1 else [];
      assert log + first + rest == log + more;
      FrameKeeps(o.durable, o.cache, s.policy.revision, s.minted + {candidate}, log + first, s'.durable, rest);
    }
  }

  lemma StepKeeps(env: Env, s: State, log: seq<Event>, a: Action)
    requires StateInv(s, log)
    ensures
      var (s', more) := Step(env, s, a, |log|);
      StateInv(s', log + more) && s'.durable.latest >= s.durable.latest
  {
    if a.RunDescriptor? {
      DescriptorStep(env, s, log, a.id, a.candidate, a.fault);
    } else if a.RedeemAtOnce? {
      RedeemStep(env, s, log, a.ticket, a.candidate, a.fault, a.keyN, a.fails);
    } else {
      var (s', more) := Step(env, s, a, |log|);
      QuietStep(env, s, a, |log|);
      FrameKeeps(s.durable, s.cache, s.policy.revision, s.minted, log, s'.durable, more);
    }
  }

  /** Over every run, restarts and clock jumps included: descriptor never returns two keys for one
      policy revision and epoch, nor one key for two of them; cached keys agree with the stored rows of
      all unexpired epochs; at most 12 keys are cached; the high-water mark has passed every key. */
  lemma {:induction false} RunKeeps(env: Env, policy: Policy, clock: nat, actions: seq<Action>)
    ensures
      var (s, log) := Run(env, Initial(policy, clock), actions);
      StateInv(s, log)
  {
    if actions != [] {
      var before := actions[..|actions| - 1];
      RunKeeps(env, policy, clock, before);
      var (s, log) := Run(env, Initial(policy, clock), before);
      StepKeeps(env, s, log, actions[|actions| - 1]);
    }
  }

  // ------------------------------------------------------------ main results

  /** At most one signing key is ever returned for a policy revision and an epoch, and no key is
      shared by two of them, in every run including restarts and clock rollbacks. */
  lemma {:induction false} OneKeyForEver(env: Env, policy: Policy, clock: nat, actions: seq<Action>, i: nat, j: nat)
    requires
      var log := Run(env, Initial(policy, clock), actions).1;
      i < |log| && j < |log| && log[i].KeyReturned? && log[j].KeyReturned?
    ensures
      var log := Run(env, Initial(policy, clock), actions).1;
      (log[i].revision == log[j].revision && log[i].epoch == log[j].epoch) <==> log[i].key == log[j].key
  {
    RunKeeps(env, policy, clock, actions);
    var log := Run(env, Initial(policy, clock), actions).1;
    assert KeyReturned(log[i].revision, log[i].epoch, log[i].key) in log;
    assert KeyReturned(log[j].revision, log[j].epoch, log[j].key) in log;
  }

  /** In every reachable state the cache agrees with the stored rows of unexpired epochs and holds at
      most 12 keys. */
  lemma {:induction false} CacheAgreesWithStore(env: Env, policy: Policy, clock: nat, actions: seq<Action>, e: int)
    ensures
      var s := Run(env, Initial(policy, clock), actions).0;
      && |s.cache| <= LIFETIME
      && (e in s.cache && e > s.durable.latest - LIFETIME ==>
            KeyName(s.policy.revision, e) in s.durable.keys &&
            s.durable.keys[KeyName(s.policy.revision, e)] == s.cache[e])
  {
    RunKeeps(env, policy, clock, actions);
    var (s, log) := Run(env, Initial(policy, clock), actions);
    Sets.SpreadBound(s.cache.Keys, LIFETIME);
    assert |s.cache| == |s.cache.Keys|;
    if e in s.cache {
      assert KeyReturned(s.policy.revision, e, s.cache[e]) in log;
      assert Retained(s.durable, s.minted, s.policy.revision, e, s.cache[e]);
    }
  }

  /** The persisted high-water mark never decreases. */
  lemma {:induction false} HighWaterRises(env: Env, policy: Policy, clock: nat, actions: seq<Action>, i: nat)
    requires i < |actions|
    ensures Run(env, Initial(policy, clock), actions[..i]).0.durable.latest
         <= Run(env, Initial(policy, clock), actions[..i + 1]).0.durable.latest
  {
    var before, upto := actions[..i], actions[..i + 1];
    assert upto[..|upto| - 1] == before;
    RunKeeps(env, policy, clock, before);
    var (s, log) := Run(env, Initial(policy, clock), before);
    StepKeeps(env, s, log, upto[|upto| - 1]);
  }

  /** A key that descriptor returns is cached, and of the others exactly those of epochs that have not expired by
      the hour it read stay cached. */
  lemma DescribeCaches(d: Durable, cache: map<int, Key>, revision: string, epoch: int, hour: int, candidate: Key, fault: Fault, e: int)
    ensures
      var o := Describe(d, cache, revision, epoch, hour, candidate, fault);
      && (o.key.Some? ==> epoch in o.cache && o.cache[epoch] == o.key.value)
      && (o.key.Some? && e != epoch ==> (e in o.cache <==> e in cache && e > hour - 12) && (e in o.cache ==> o.cache[e] == cache[e]))
      && (o.key.None? ==> o.cache == cache)
  {
    hide LiveRecords, LiveKeys;
  }

  /** Every stored signing key is of one of the 12 hours up to the mark. */
  ghost predicate RowsLive(d: Durable) { forall name :: name in d.keys ==> d.latest - 12 < name.epoch <= d.latest }

  lemma DescribeRowsLive(d: Durable, cache: map<int, Key>, revision: string, epoch: int, hour: int, candidate: Key, fault: Fault)
    requires RowsLive(d)
    ensures RowsLive(Describe(d, cache, revision, epoch, hour, candidate, fault).durable)
  {
    hide LiveRecords, LiveCache;
  }

  lemma RowsLiveStep(env: Env, s: State, a: Action, serial: nat)
    requires RowsLive(s.durable)
    ensures RowsLive(Step(env, s, a, serial).0.durable)
  {
    hide Describe, RedeemWith, LiveCount, HourOf, DescriptorFor, AfterDescriptor, DoLocal, DoOffer, DoTakeNonce, DoAccess, DoCall, DoTakeAnswer,
         DoCharge, DoSpend, DoEnter, DoAbandon, DoLock;
    if a.RunDescriptor? {
      if Describing(s, a.id) {
        DescribeRowsLive(s.durable, s.cache, s.policy.revision, WantedEpoch(s.handlers[a.id]), s.lock.value.hour, a.candidate, a.fault);
      }
    } else if a.RedeemAtOnce? {
      DescribeRowsLive(s.durable, s.cache, s.policy.revision, a.ticket.epoch, HourOf(s.clock), a.candidate, a.fault);
    } else {
      QuietStep(env, s, a, serial);
    }
  }

  /** In every reachable state: once the mark is 12 hours past an epoch, no signing key of that epoch is
      stored; nor is any of an epoch the mark has not reached. */
  lemma {:induction false} ExpiredKeysAreGone(env: Env, policy: Policy, clock: nat, actions: seq<Action>, name: KeyName)
    ensures
      var d := Run(env, Initial(policy, clock), actions).0.durable;
      d.latest >= name.epoch + 12 || d.latest < name.epoch ==> name !in d.keys
  {
    RowsLiveRun(env, policy, clock, actions);
    hide Run;
  }

  lemma {:induction false} RowsLiveRun(env: Env, policy: Policy, clock: nat, actions: seq<Action>)
    ensures RowsLive(Run(env, Initial(policy, clock), actions).0.durable)
  {
    if actions != [] {
      hide Step, RowsLive;
      var before := actions[..|actions| - 1];
      RowsLiveRun(env, policy, clock, before);
      var (s, log) := Run(env, Initial(policy, clock), before);
      RowsLiveStep(env, s, actions[|actions| - 1], |log|);
    }
  }

  /** When descriptor answers, in every reachable state and whatever hour it reads: the hour is not
      behind the high-water mark, the epoch is among the last 12 hours, and it is the current hour or
      one a key was returned for before; then that very key comes back. */
  lemma {:induction false} DescriptorAnswersIff(env: Env, policy: Policy, clock: nat, actions: seq<Action>, epoch: int, hour: int, candidate: Key)
    ensures
      var (s, log) := Run(env, Initial(policy, clock), actions);
      var key := Describe(s.durable, s.cache, s.policy.revision, epoch, hour, candidate, NoFault).key;
      && (key.Some? <==>
            && hour >= s.durable.latest && hour - LIFETIME < epoch <= hour
            && (epoch == hour || exists k: Key :: KeyReturned(s.policy.revision, epoch, k) in log))
      && (forall k: Key :: key.Some? && KeyReturned(s.policy.revision, epoch, k) in log ==> key.value == k)
  {
    var (s, log) := Run(env, Initial(policy, clock), actions);
    RunKeeps(env, policy, clock, actions);
    var revision := s.policy.revision;
    forall k: Key | KeyReturned(revision, epoch, k) in log
      ensures hour >= s.durable.latest && hour - LIFETIME < epoch <= hour ==>
                Describe(s.durable, s.cache, revision, epoch, hour, candidate, NoFault).key == Some(k)
    {
      assert Retained(s.durable, s.minted, revision, epoch, k);
      if epoch in s.cache { assert KeyReturned(revision, epoch, s.cache[epoch]) in log; }
    }
    hide Run;
  }
}
