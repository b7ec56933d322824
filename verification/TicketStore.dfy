/**
 The durable side of the ticket authority and the transactions that change it, as functions from
 the stored buckets to the stored buckets.
 */
module TicketStore {
  import opened Clock
  import opened Options
  import Sets

  /** An RSA key pair; only its identity matters here. */
  type Key = nat

  /** Row of the "keys" bucket, stored as "<revision>:<epoch>". */
  datatype KeyName = KeyName(revision: string, epoch: int)

  /** Row of the "spent" and "quota" buckets, stored as "<12-digit epoch>:<hex digest>". */
  datatype RecordKey = RecordKey(epoch: int, id: string)

  datatype Durable = Durable(
    latest: int,
    keys: map<KeyName, Key>,
    quota: map<RecordKey, nat>,
    spent: map<RecordKey, nat>)

  /** What newTicketAuthority leaves behind in an empty directory. */
  const EMPTY := Durable(0, map[], map[], map[])

  const BUCKET_CAP := 100_000
  const QUOTA := 24

  // ---------------------------------------------------------------- pruning

  function LiveRecords(b: map<RecordKey, nat>, hour: int): (r: map<RecordKey, nat>)
  {
    map k | k in b && k.epoch > hour - LIFETIME :: b[k]
  }

  lemma LiveIsFewer(b: map<RecordKey, nat>, hour: int)
    ensures |LiveRecords(b, hour)| <= |b|
  {
    Sets.SubsetSize(LiveRecords(b, hour).Keys, b.Keys);
  }

  function LiveKeys(b: map<KeyName, Key>, hour: int): (r: map<KeyName, Key>)
  {
    map k | k in b && k.epoch > hour - LIFETIME :: b[k]
  }

  function LiveCache(cache: map<int, Key>, hour: int): (r: map<int, Key>)
  {
    map e | e in cache && e > hour - LIFETIME :: cache[e]
  }

  /** The high-water transaction of descriptor: a later hour is recorded and everything expired by
      then is deleted. */
  function AdvanceHour(d: Durable, hour: int): (r: Durable)
  {
    if hour > d.latest then
      Durable(hour, LiveKeys(d.keys, hour), LiveRecords(d.quota, hour), LiveRecords(d.spent, hour))
    else
      d
  }

  // ------------------------------------------------------------- descriptor

  /** Where a call of descriptor may be cut short by a failing disk, key parser or generator. */
  datatype Fault = NoFault | HighWaterFails | ReadFails | ParseFails | GenerateFails | StoreFails

  datatype Outcome = Outcome(durable: Durable, cache: map<int, Key>, key: Option<Key>)

  /** One call of descriptor, with the hour it read after taking the lock. */
  function Describe(d: Durable, cache: map<int, Key>, revision: string,
                    epoch: int, hour: int, candidate: Key, fault: Fault): (r: Outcome)
  {
    if epoch > hour || epoch <= hour - LIFETIME || hour < d.latest || fault.HighWaterFails? then
      Outcome(d, cache, None)
    else
      var d1 := AdvanceHour(d, hour);
      if epoch in cache then
        Outcome(d1, LiveCache(cache, hour), Some(cache[epoch]))
      else
        var name := KeyName(revision, epoch);
        if fault.ReadFails? then
          Outcome(d1, cache, None)
        else if name in d1.keys then
          if fault.ParseFails? then
            Outcome(d1, cache, None)
          else
            Outcome(d1, LiveCache(cache[epoch := d1.keys[name]], hour), Some(d1.keys[name]))
        else if epoch == hour && !fault.GenerateFails? && !fault.StoreFails? then
          Outcome(d1.(keys := d1.keys[name := candidate]), LiveCache(cache[epoch := candidate], hour), Some(candidate))
        else
          Outcome(d1, cache, None)
  }

  // ------------------------------------------------------------ redeem, issue

  /** The redemption transaction after its own pruning of both record buckets. */
  function PruneRecords(d: Durable, hour: int): (r: Durable)
  {
    d.(spent := LiveRecords(d.spent, hour), quota := LiveRecords(d.quota, hour))
  }

  /** How many markers the redemption transaction finds after its pruning; the bucket's own statistics
      may report more (they can still count what was just deleted), never fewer. */
  function LiveCount(d: Durable, hour: int): nat { |LiveRecords(d.spent, hour)| }

  /** The redemption transaction: prune, refuse a marker that is still there, refuse when the bucket
      reports itself full, otherwise store the marker. A refusal rolls everything back. */
  function CommitSpent(d: Durable, record: RecordKey, hour: int, keyN: nat): (r: (Durable, bool))
    ensures r.0 == d.(spent := r.0.spent, quota := r.0.quota)
  {
    var d1 := PruneRecords(d, hour);
    if record in d1.spent || keyN >= BUCKET_CAP then (d, false)
    else (d1.(spent := d1.spent[record := 1]), true)
  }

  function QuotaOf(d: Durable, record: RecordKey): nat
  {
    if record in d.quota then d.quota[record] else 0
  }

  /** The quota transaction of an issuance of n tickets. */
  function ChargeQuota(d: Durable, record: RecordKey, n: nat, keyN: nat): (r: (Durable, bool))
    ensures r.0 == d.(quota := r.0.quota)
  {
    if keyN >= BUCKET_CAP && record !in d.quota then (d, false)
    else if QuotaOf(d, record) + n > QUOTA then (d, false)
    else (d.(quota := d.quota[record := QuotaOf(d, record) + n]), true)
  }

  /** The bucket descriptor writes last is of no concern to the two transactions that do not wait for
      its lock, so its several transactions count as one step. */
  lemma KeyWriteCommutes(d: Durable, name: KeyName, key: Key, record: RecordKey, hour: int, n: nat, keyN: nat)
    ensures
      var w := (x: Durable) => x.(keys := x.keys[name := key]);
      var (spent, ok) := CommitSpent(d, record, hour, keyN);
      var (charged, ok') := ChargeQuota(d, record, n, keyN);
      CommitSpent(w(d), record, hour, keyN) == (w(spent), ok) && ChargeQuota(w(d), record, n, keyN) == (w(charged), ok')
  {
  }

  // -------------------------------------------------------------- challenges

  const CHALLENGE_CAP := 256

  /** An issuance challenge. `serial` is the position in the event log of the step that made it. */
  datatype Challenge = Challenge(binding: string, epoch: int, expires: Reading, serial: nat)

  /** Whether a challenge has expired is told by the clock that is never set back. */
  function Unexpired(cs: map<string, Challenge>, now: Reading): (r: map<string, Challenge>)
  {
    map n | n in cs && now.mono <= cs[n].expires.mono :: cs[n]
  }

  /** The critical section of a challenge request. Stale challenges go even when the new one is refused. */
  function AddChallenge(cs: map<string, Challenge>, nonce: string, c: Challenge, now: Reading)
    : (r: (map<string, Challenge>, bool))
  {
    var live := Unexpired(cs, now);
    if |live| >= CHALLENGE_CAP then (live, false) else (live[nonce := c], true)
  }
}
