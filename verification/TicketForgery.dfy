/**
 Redemptions against signatures. The only thing asked of the blind signature scheme (sections 4 and
 5 of RFC 9474) is that it admits no more verified messages under a key than signatures released.
 */
module TicketForgery {
  import opened Clock
  import opened Options
  import opened TicketStore
  import opened TicketProtocol
  import opened TicketRedemption
  import opened Sums
  import opened TicketTrace
  import TicketKeys

  // ----------------------------------------------------------------- counting

  function EarlyWeight(epoch: int): Event -> nat
  {
    (e: Event) => if e.Redeemed? && e.epoch == epoch && e.hour < epoch + LIFETIME then 1 else 0
  }

  function SignedWeight(keys: set<Key>): Event -> nat
  {
    (e: Event) => if e.Issued? && e.key in keys then e.n else 0
  }

  function EpochWeight(epoch: int): Event -> nat
  {
    (e: Event) => if e.Issued? && e.epoch == epoch then e.n else 0
  }

  /** The distinct messages that have been verified under a key. */
  ghost function VerifiedUnder(log: seq<Event>, key: Key): set<string>
  {
    set i | 0 <= i < |log| && log[i].Verified? && log[i].key == key :: log[i].ticket.message
  }

  /** One-more unforgeability, as seen in a log: no key has more verified messages than signatures. */
  ghost predicate Unforgeable(log: seq<Event>)
  {
    forall key :: |VerifiedUnder(log, key)| <= SeqSum(log, SignedWeight({key}))
  }

  /** Key and message of the redemptions of an epoch that committed before it expired. */
  ghost function EarlyPairs(log: seq<Event>, epoch: int): set<(Key, string)>
  {
    set i | 0 <= i < |log| && EarlyWeight(epoch)(log[i]) == 1 :: (log[i].key, log[i].message)
  }

  lemma NewPair(log: seq<Event>, e: Event, epoch: int)
    requires OnceBeforeExpiry(log + [e]) && EarlyWeight(epoch)(e) == 1
    ensures (e.key, e.message) !in EarlyPairs(log, epoch)
  {
    forall i | 0 <= i < |log|
      ensures (log + [e])[i] == log[i]
    {
    }
    if (e.key, e.message) in EarlyPairs(log, epoch) {
      var i :| 0 <= i < |log| && EarlyWeight(epoch)(log[i]) == 1 && (log[i].key, log[i].message) == (e.key, e.message);
      assert SameTicket((log + [e])[i], (log + [e])[|log|]);
    }
  }

  lemma OnceBeforeExpiryPrefix(log: seq<Event>, e: Event)
    requires OnceBeforeExpiry(log + [e])
    ensures OnceBeforeExpiry(log)
  {
    forall i | 0 <= i < |log|
      ensures (log + [e])[i] == log[i]
    {
    }
  }

  /** Early redemptions are of different messages, so there are as many as there are pairs. */
  lemma {:induction false} EarlyAreDistinct(log: seq<Event>, epoch: int)
    requires OnceBeforeExpiry(log)
    ensures SeqSum(log, EarlyWeight(epoch)) == |EarlyPairs(log, epoch)|
  {
    if log == [] {
      assert EarlyPairs(log, epoch) == {};
    } else {
      hide EarlyPairs, OnceBeforeExpiry;
      var before, e := log[..|log| - 1], log[|log| - 1];
      assert log == before + [e];
      OnceBeforeExpiryPrefix(before, e);
      EarlyAreDistinct(before, epoch);
      EarlyPairsGrow(before, e, epoch);
      if EarlyWeight(epoch)(e) == 1 { NewPair(before, e, epoch); }
    }
  }

  lemma EarlyPairsGrow(log: seq<Event>, e: Event, epoch: int)
    ensures EarlyPairs(log + [e], epoch) ==
            EarlyPairs(log, epoch) + if EarlyWeight(epoch)(e) == 1 then {(e.key, e.message)} else {}
  {
    forall i | 0 <= i < |log|
      ensures (log + [e])[i] == log[i]
    {
    }
    assert (log + [e])[|log|] == e;
  }

  lemma {:induction false} PairsOfOneKey(pairs: set<(Key, string)>, key: Key, messages: set<string>)
    requires forall p :: p in pairs ==> p.0 == key && p.1 in messages
    ensures |pairs| <= |messages|
  {
    if pairs != {} {
      var p :| p in pairs;
      assert forall q :: q in pairs - {p} ==> q.1 != p.1;
      PairsOfOneKey(pairs - {p}, key, messages - {p.1});
    }
  }

  ghost function WithKey(pairs: set<(Key, string)>, key: Key): (mine: set<(Key, string)>)
    ensures forall p :: p in mine <==> p in pairs && p.0 == key
    ensures |pairs| == |mine| + |pairs - mine|
  {
    var mine := set p | p in pairs && p.0 == key;
    assert pairs == mine + (pairs - mine);
    mine
  }

  lemma {:induction false} SignedSplits(log: seq<Event>, keys: set<Key>, key: Key)
    requires key in keys
    ensures SeqSum(log, SignedWeight(keys)) == SeqSum(log, SignedWeight(keys - {key})) + SeqSum(log, SignedWeight({key}))
  {
    if log != [] {
      SignedSplits(log[..|log| - 1], keys, key);
    }
  }

  ghost predicate Backed(log: seq<Event>, keys: set<Key>, p: (Key, string))
  {
    p.0 in keys && p.1 in VerifiedUnder(log, p.0)
  }

  lemma OneKeyWithin(log: seq<Event>, pairs: set<(Key, string)>, keys: set<Key>, key: Key)
    requires Unforgeable(log)
    requires forall p :: p in pairs ==> Backed(log, keys, p)
    ensures |WithKey(pairs, key)| <= SeqSum(log, SignedWeight({key}))
  {
    assert forall p :: p in WithKey(pairs, key) ==> Backed(log, keys, p);
    PairsOfOneKey(WithKey(pairs, key), key, VerifiedUnder(log, key));
  }

  lemma {:induction false} PairsWithinSignatures(log: seq<Event>, pairs: set<(Key, string)>, keys: set<Key>)
    requires Unforgeable(log)
    requires forall p :: p in pairs ==> Backed(log, keys, p)
    ensures |pairs| <= SeqSum(log, SignedWeight(keys))
  {
    hide Unforgeable, SeqSum, SignedWeight, VerifiedUnder, WithKey;
    if keys == {} {
      assert forall p :: p in pairs ==> Backed(log, keys, p);
      assert pairs == {};
    } else {
      var key :| key in keys;
      var rest := pairs - WithKey(pairs, key);
      OneKeyWithin(log, pairs, keys, key);
      forall p | p in rest
        ensures Backed(log, keys - {key}, p)
      {
        assert Backed(log, keys, p);
      }
      PairsWithinSignatures(log, rest, keys - {key});
      SignedSplits(log, keys, key);
    }
  }

  /** With a clock that never goes back, if the log is unforgeable: the redemptions of an epoch that
      commit before it expires never outnumber the signatures released for that epoch. */
  lemma {:induction false} RedemptionsWithinSignatures(env: Env, policy: Policy, clock: nat, actions: seq<Action>, epoch: int)
    requires Forward(actions)
    requires Unforgeable(Run(env, Initial(policy, clock), actions).1)
    ensures
      var log := Run(env, Initial(policy, clock), actions).1;
      SeqSum(log, EarlyWeight(epoch)) <= SeqSum(log, EpochWeight(epoch))
  {
    hide Run, TraceInv, KeyOf;
    var (s, log) := Run(env, Initial(policy, clock), actions);
    ForwardRun(env, policy, clock, actions);
    TraceRun(env, policy, clock, actions);
    TicketKeys.RunKeeps(env, policy, clock, actions);
    EarlyAreDistinct(log, epoch);
    var pairs := EarlyPairs(log, epoch);
    var keys := set p | p in pairs :: p.0;
    forall p | p in pairs
      ensures p.0 in keys && p.1 in VerifiedUnder(log, p.0) && KeyOf(log, epoch, p.0)
    {
      var i :| 0 <= i < |log| && EarlyWeight(epoch)(log[i]) == 1 && p == (log[i].key, log[i].message);
      TracedKey(env, s, log, log[i]);
    }
    PairsWithinSignatures(log, pairs, keys);
    forall e | e in log
      ensures SignedWeight(keys)(e) <= EpochWeight(epoch)(e)
    {
      if e.Issued? && e.key in keys {
        TracedKey(env, s, log, e);
        OneEpochPerKey(log, e.epoch, epoch, e.key);
      }
    }
    SeqSumMonotone(log, SignedWeight(keys), EpochWeight(epoch));
  }

  lemma OneEpochPerKey(log: seq<Event>, e: int, e': int, key: Key)
    requires TicketKeys.OneKeyPerRow(log) && KeyOf(log, e, key) && KeyOf(log, e', key)
    ensures e == e'
  {
  }
}
