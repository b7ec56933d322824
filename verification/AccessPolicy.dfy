/**
 The access policy object: the membership cache's critical sections, the failover over Core endpoints
 and the decision over groups, in place as the relay runs them.
 */
module AccessPolicy {
  import opened Clock
  import opened Options
  import opened CoreLookups
  import opened CoreAnswers
  import opened Membership
  import opened MembershipCache

  // ------------------------------------------------------------ any-of decision

  /** checkGroups: the results are taken as they arrive; `now` is the clock once all are in. */
  method CheckGroups(arrivals: seq<Arrival>, now: Reading) returns (r: Answer)
    ensures AnyOf(arrivals, r)
    ensures r.Verdict? && !r.member ==> r.checked == now
  {
    var unresolved := false;
    var i := 0;
    while i < |arrivals|
      invariant 0 <= i <= |arrivals|
      invariant forall j :: 0 <= j < i ==> !IsMember(arrivals[j].answer)
      invariant unresolved <==> exists j :: 0 <= j < i && arrivals[j].answer.Error?
    {
      var a := arrivals[i].answer;
      if a.Error? {
        unresolved := true;
      } else if a.member {
        return a;
      }
      i := i + 1;
    }
    return if unresolved then Error else Verdict(false, now);
  }

  /** The verdict is the same whatever the order the group results arrive in. */
  lemma OrderDoesNotMatter(arrivals: seq<Arrival>, arrivals': seq<Arrival>, r: Answer, r': Answer)
    requires multiset(arrivals) == multiset(arrivals') && AnyOf(arrivals, r) && AnyOf(arrivals', r')
    ensures r.Error? == r'.Error? && (r.Verdict? ==> r.member == r'.member)
  {
    forall a: Arrival
      ensures a in arrivals <==> a in arrivals'
    {
      assert a in arrivals <==> a in multiset(arrivals);
      assert a in arrivals' <==> a in multiset(arrivals');
    }
    assert forall i :: 0 <= i < |arrivals| ==> arrivals[i] in arrivals';
    assert forall i :: 0 <= i < |arrivals'| ==> arrivals'[i] in arrivals;
  }

  // ------------------------------------------------------- failover over endpoints

  /** A turn of the loop: whether a slot was had before the context ended, and the try if one was. */
  datatype Attempt = Attempt(slot: bool, t: Try)

  /** The endpoints reported to coreFailed in the first n turns: those whose try did not decide, unless it was
      our own context that ended. */
  function Reported(address: string, candidates: seq<string>, attempts: seq<Attempt>, n: nat): seq<string>
    requires n <= |candidates| && n <= |attempts|
  {
    if n == 0 then []
    else
      var o := attempts[n - 1].t.outcome;
      Reported(address, candidates, attempts, n - 1) +
      if Decisive(o, address, true) || Decisive(o, address, false) || o == NoReply(true) then [] else [candidates[n - 1]]
  }

  /** The tries made in the first n turns. */
  function Made(attempts: seq<Attempt>, n: nat): (tries: seq<Try>)
    requires n <= |attempts|
    ensures |tries| == n && forall i :: 0 <= i < n ==> tries[i] == attempts[i].t
  {
    seq(n, i requires 0 <= i < n => attempts[i].t)
  }

  /** The loop of checkGroup: the first well-formed reply decides, the failures before it are reported, and
      without a slot or a reply there is no verdict. */
  method CheckGroup(address: string, candidates: seq<string>, attempts: seq<Attempt>)
    returns (answer: Answer, n: nat, cut: bool, reported: seq<string>)
    requires |attempts| >= |candidates|
    ensures n <= |candidates| && forall i :: 0 <= i < n ==> attempts[i].slot
    ensures Decides(Made(attempts, n), address, answer)
    ensures answer.Error? && !cut ==> n == |candidates|
    ensures cut ==> answer.Error? && n < |candidates| && !attempts[n].slot
    ensures reported == Reported(address, candidates, attempts, n)
  {
    n, reported := 0, [];
    while n < |candidates|
      invariant 0 <= n <= |candidates| && forall i :: 0 <= i < n ==> attempts[i].slot
      invariant NoneFormed(Made(attempts, n), address)
      invariant reported == Reported(address, candidates, attempts, n)
    {
      if !attempts[n].slot { return Error, n, true, reported; }
      var t := attempts[n].t;
      n := n + 1;
      assert Made(attempts, n)[..n - 1] == Made(attempts, n - 1);
      match t.outcome {
        case NoRequest =>
          reported := reported + [candidates[n - 1]];
        case NoReply(cancelled) =>
          if !cancelled { reported := reported + [candidates[n - 1]]; }
        case Reply(status, readable, size, rows) =>
          if !readable || size > MAX_REPLY || status != 200 {
            reported := reported + [candidates[n - 1]];
          } else if rows.None? || |rows.value| != 1 || rows.value[0].address != address || rows.value[0].isMember.None? {
            reported := reported + [candidates[n - 1]];
          } else {
            assert rows.value == [Row(address, Some(rows.value[0].isMember.value))];
            return Verdict(rows.value[0].isMember.value, t.started), n, false, reported;
          }
      }
    }
    return Error, n, false, reported;
  }

  class Policy {
    const bases: seq<string>
    var cache: map<string, Answer>
    var pending: map<string, Channel>
    var made: nat
    var closed: set<Channel>
    var coreFailures: map<string, nat>

    constructor (bases: seq<string>)
      ensures this.bases == bases && cache == map[] && pending == map[] && made == 0 && closed == {} && coreFailures == map[]
    {
      this.bases := bases;
      cache, pending, made, closed, coreFailures := map[], map[], 0, {}, map[];
    }

    /** First critical section of membership. */
    method Look(address: string, now: nat) returns (d: Decision)
      modifies this`pending, this`made
      ensures d == Decide(old(cache), old(pending), address, now)
      ensures pending == if d.Lead? then old(pending)[address := old(made)] else old(pending)
      ensures made == if d.Lead? then old(made) + 1 else old(made)
    {
      if address in cache && IsFresh(cache[address], now) { return Hit(cache[address]); }
      if address in pending { return Wait(pending[address]); }
      if |pending| >= PENDING_CAP { return Full; }
      pending, made := pending[address := made], made + 1;
      return Lead;
    }

    /** Second critical section of membership: store a verdict, making room if need be, and wake. */
    method Finish(address: string, answer: Answer, now: nat) returns (victim: string)
      requires address in pending
      modifies this`cache, this`pending, this`closed
      ensures VictimOk(old(cache), now, victim)
      ensures cache == Remember(old(cache), address, answer, now, victim)
      ensures |old(cache)| <= 4096 ==> Stored(old(cache), address, answer, now, victim, cache)
      ensures pending == old(pending) - {address} && closed == old(closed) + {old(pending)[address]}
    {
      victim := "";
      if answer.Verdict? {
        if |cache| >= CACHE_CAP {
          DropStale(now);
          if |cache| >= CACHE_CAP {
            assert cache.Keys != {};
            var key :| key in cache.Keys;
            victim := key;
            cache := cache - {key};
          }
        }
        cache := cache[address := answer];
      } else if |cache| >= CACHE_CAP && |FreshEntries(cache, now)| >= CACHE_CAP {
        assert FreshEntries(cache, now).Keys != {};
        victim :| victim in FreshEntries(cache, now).Keys;
      }
      closed := closed + {pending[address]};
      pending := pending - {address};
      if |old(cache)| <= 4096 { RememberStores(old(cache), address, answer, now, victim); }
    }

    method DropStale(now: nat)
      modifies this`cache
      ensures cache == FreshEntries(old(cache), now)
    {
      var todo := cache.Keys;
      while todo != {}
        invariant todo <= old(cache).Keys
        invariant cache.Keys <= old(cache).Keys && forall a :: a in cache ==> cache[a] == old(cache)[a]
        invariant forall a :: a in old(cache) ==> (a in cache <==> a in todo || IsFresh(old(cache)[a], now))
        decreases todo
      {
        var a :| a in todo;
        todo := todo - {a};
        if !IsFresh(cache[a], now) { cache := cache - {a}; }
      }
    }

    /** The endpoints checkGroup goes through. */
    method PickBases(now: nat) returns (r: seq<string>)
      ensures r == Candidates(bases, coreFailures, now)
    {
      r := [];
      var i := 0;
      while i < |bases|
        invariant 0 <= i <= |bases| && r == Healthy(bases[..i], coreFailures, now)
      {
        var base := bases[i];
        if !(base in coreFailures && now < coreFailures[base]) { r := r + [base]; }
        assert bases[..i + 1][..|bases[..i + 1]| - 1] == bases[..i];
        i := i + 1;
      }
      assert bases[..|bases|] == bases;
      if |r| == 0 { r := bases; }
    }

    method CoreFailed(base: string, now: nat)
      modifies this`coreFailures
      ensures coreFailures == old(coreFailures)[base := now + DEMOTION]
    {
      coreFailures := coreFailures[base := now + DEMOTION];
    }
  }
}
