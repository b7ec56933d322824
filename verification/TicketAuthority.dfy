/**
 The ticket authority object: its maps and buckets updated in place under its lock and in database
 transactions. Every method is tied to the function the state machine takes its steps with.
 */
module TicketAuthority {
  import opened Clock
  import opened Options
  import opened TicketStore
  import RecordText

  /** The records of a bucket listed by epoch. */
  ghost predicate InOrder(order: seq<RecordKey>, records: set<RecordKey>)
  {
    && (forall k :: k in records <==> k in order)
    && (forall i, j :: 0 <= i < j < |order| ==> order[i].epoch <= order[j].epoch)
  }

  /** The byte order in which the database cursor meets the rows lists the records by epoch. */
  lemma CursorIsInOrder(order: seq<RecordKey>, records: set<RecordKey>)
    requires RecordText.Cursor(order, records)
    ensures InOrder(order, records)
  {
    forall i, j | 0 <= i < j < |order|
      ensures order[i].epoch <= order[j].epoch
    {
      RecordText.RowOrder(order[i], order[j]);
    }
  }

  /** The elements of a set in some order, each once: what ranging over a map visits. */
  method Listing<T>(s: set<T>) returns (order: seq<T>)
    ensures forall x :: x in order <==> x in s
    ensures forall i, j :: 0 <= i < j < |order| ==> order[i] != order[j]
  {
    order := [];
    var todo := s;
    while todo != {}
      invariant todo <= s && forall x :: x in order <==> x in s && x !in todo
      invariant forall i, j :: 0 <= i < j < |order| ==> order[i] != order[j]
      decreases todo
    {
      var x :| x in todo;
      order, todo := order + [x], todo - {x};
    }
  }

  class Authority {
    const revision: string
    // The database.
    var latest: int
    var keys: map<KeyName, Key>
    var quota: map<RecordKey, nat>
    var spent: map<RecordKey, nat>
    // Memory.
    var cache: map<int, Key>
    var challenges: map<string, Challenge>

    function Store(): Durable
      reads this
    {
      Durable(latest, keys, quota, spent)
    }

    /** Opening a database, new or left behind by an earlier process. */
    constructor (revision: string, found: Durable)
      ensures this.revision == revision && Store() == found && cache == map[] && challenges == map[]
    {
      this.revision := revision;
      latest, keys, quota, spent := found.latest, found.keys, found.quota, found.spent;
      cache, challenges := map[], map[];
    }

    // ------------------------------------------------------------ descriptor

    /** Full scan of a record bucket. */
    static method ScanRecords(b: map<RecordKey, nat>, hour: int) returns (r: map<RecordKey, nat>)
      ensures r == LiveRecords(b, hour)
    {
      r := b;
      var todo := b.Keys;
      while todo != {}
        invariant todo <= b.Keys
        invariant r.Keys <= b.Keys && forall k :: k in r ==> r[k] == b[k]
        invariant forall k :: k in b ==> (k in r <==> k in todo || k.epoch > hour - LIFETIME)
        decreases todo
      {
        var k :| k in todo;
        todo := todo - {k};
        if k.epoch <= hour - LIFETIME { r := r - {k}; }
      }
    }

    /** Full scan of the key bucket. */
    static method ScanKeys(b: map<KeyName, Key>, hour: int) returns (r: map<KeyName, Key>)
      ensures r == LiveKeys(b, hour)
    {
      r := b;
      var todo := b.Keys;
      while todo != {}
        invariant todo <= b.Keys
        invariant r.Keys <= b.Keys && forall k :: k in r ==> r[k] == b[k]
        invariant forall k :: k in b ==> (k in r <==> k in todo || k.epoch > hour - LIFETIME)
        decreases todo
      {
        var k :| k in todo;
        todo := todo - {k};
        if k.epoch <= hour - LIFETIME { r := r - {k}; }
      }
    }

    /** The high-water transaction. */
    method Advance(hour: int)
      modifies this`latest, this`keys, this`quota, this`spent
      ensures Store() == AdvanceHour(old(Store()), hour)
    {
      if hour > latest {
        latest := hour;
        keys := ScanKeys(keys, hour);
        quota := ScanRecords(quota, hour);
        spent := ScanRecords(spent, hour);
      }
    }

    /** Dropping cached keys of expired epochs. */
    method TrimCache(hour: int)
      modifies this`cache
      ensures cache == LiveCache(old(cache), hour)
    {
      var order := Listing(cache.Keys);
      var i := 0;
      while i < |order|
        invariant 0 <= i <= |order|
        invariant cache.Keys <= old(cache).Keys && forall e :: e in cache ==> cache[e] == old(cache)[e]
        invariant forall e :: e in old(cache) ==> (e in cache <==> e in order[i..] || e > hour - LIFETIME)
      {
        var e := order[i];
        assert order[i..] == [e] + order[i + 1..];
        if e <= hour - LIFETIME { cache := cache - {e}; }
        i := i + 1;
      }
      forall e: int
        ensures e in cache <==> e in LiveCache(old(cache), hour)
      {
      }
    }

    /** descriptor, from the reading of the hour on. `candidate` is the key it would generate. */
    method Descriptor(epoch: int, hour: int, candidate: Key, fault: Fault) returns (key: Option<Key>)
      modifies this`latest, this`keys, this`quota, this`spent, this`cache
      ensures Outcome(Store(), cache, key) == Describe(old(Store()), old(cache), revision, epoch, hour, candidate, fault)
    {
      if epoch > hour || epoch <= hour - LIFETIME { return None; }
      if hour < latest || fault.HighWaterFails? { return None; }
      Advance(hour);
      if epoch in cache {
        key := Some(cache[epoch]);
      } else {
        var name := KeyName(revision, epoch);
        if fault.ReadFails? { return None; }
        if name in keys {
          if fault.ParseFails? { return None; }
          key := Some(keys[name]);
        } else if epoch == hour {
          if fault.GenerateFails? || fault.StoreFails? { return None; }
          key := Some(candidate);
          keys := keys[name := candidate];
        } else {
          return None;
        }
        cache := cache[epoch := key.value];
      }
      TrimCache(hour);
    }

    // ---------------------------------------------------------------- redeem

    /** Pruning with an early exit at the first record that has not expired. */
    static method CutRecords(b: map<RecordKey, nat>, order: seq<RecordKey>, hour: int) returns (r: map<RecordKey, nat>)
      requires InOrder(order, b.Keys)
      ensures r == LiveRecords(b, hour)
    {
      r := b;
      var i := 0;
      while i < |order|
        invariant 0 <= i <= |order|
        invariant r.Keys <= b.Keys && forall k :: k in r ==> r[k] == b[k]
        invariant forall j :: 0 <= j < i ==> order[j].epoch <= hour - LIFETIME
        invariant forall k :: k in b ==> (k in r <==> k !in order[..i])
      {
        var k := order[i];
        if k.epoch > hour - LIFETIME { break; }
        r := r - {k};
        assert order[..i + 1] == order[..i] + [k];
        i := i + 1;
      }
      forall k | k in b
        ensures k in r <==> k.epoch > hour - LIFETIME
      {
        var j :| 0 <= j < |order| && order[j] == k;
        if j < i { assert order[..i][j] == k; }
      }
    }

    /** The redemption transaction; any failure leaves the database as it was. */
    method Redeem(record: RecordKey, hour: int, keyN: nat, spentOrder: seq<RecordKey>, quotaOrder: seq<RecordKey>)
      returns (ok: bool)
      requires InOrder(spentOrder, spent.Keys) && InOrder(quotaOrder, quota.Keys)
      modifies this`spent, this`quota
      ensures (Store(), ok) == CommitSpent(old(Store()), record, hour, keyN)
    {
      var spent1 := CutRecords(spent, spentOrder, hour);
      var quota1 := CutRecords(quota, quotaOrder, hour);
      if record in spent1 { return false; }
      if keyN >= BUCKET_CAP { return false; }
      spent, quota := spent1[record := 1], quota1;
      return true;
    }

    // ----------------------------------------------------------------- handle

    /** The quota transaction. */
    method Charge(record: RecordKey, n: nat, keyN: nat) returns (ok: bool)
      modifies this`quota
      ensures (Store(), ok) == ChargeQuota(old(Store()), record, n, keyN)
    {
      if keyN >= BUCKET_CAP && record !in quota { return false; }
      var count := if record in quota then quota[record] else 0;
      if count + n > QUOTA { return false; }
      quota := quota[record := count + n];
      return true;
    }

    /** The critical section of a challenge request. */
    method Offer(nonce: string, c: Challenge, now: Reading) returns (ok: bool)
      modifies this`challenges
      ensures (challenges, ok) == AddChallenge(old(challenges), nonce, c, now)
    {
      var todo := challenges.Keys;
      while todo != {}
        invariant todo <= old(challenges.Keys)
        invariant challenges.Keys <= old(challenges).Keys && forall n :: n in challenges ==> challenges[n] == old(challenges)[n]
        invariant forall n :: n in old(challenges) ==> (n in challenges <==> n in todo || now.mono <= old(challenges)[n].expires.mono)
        decreases todo
      {
        var n :| n in todo;
        todo := todo - {n};
        if now.mono > challenges[n].expires.mono { challenges := challenges - {n}; }
      }
      assert challenges == Unexpired(old(challenges), now);
      if |challenges| >= CHALLENGE_CAP { return false; }
      challenges := challenges[nonce := c];
      return true;
    }

    /** The critical section of an issuance request: the challenge is gone, found or not. */
    method Take(nonce: string) returns (found: Option<Challenge>)
      modifies this`challenges
      ensures challenges == old(challenges) - {nonce}
      ensures found == if nonce in old(challenges) then Some(old(challenges)[nonce]) else None
    {
      found := if nonce in challenges then Some(challenges[nonce]) else None;
      challenges := challenges - {nonce};
    }
  }
}
