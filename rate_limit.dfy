/**
 * The worker's fixed-window, per-client rate limiter.
 *
 * The limiter keeps a table from client key to `{start, count}`: the time the
 * client's current window opened and the number of requests seen in it. A
 * request from a client without an entry, or whose window opened more than
 * `RateWindowMs` milliseconds ago, opens a fresh window with count 1 and is
 * admitted; any other request increments the count and is limited exactly
 * when the new count exceeds `RateLimit`. Denied requests are counted too.
 *
 * The clock is a parameter: `now` is whatever the caller read, and no
 * ordering between successive values of `now` is assumed.
 */
module RateLimiting {
  import opened Wrappers

  /** Requests a client may make inside one window. */
  const RateLimit: nat := 30

  /** Length of a window, in milliseconds. */
  const RateWindowMs: int := 60_000

  /** A client's current window: when it opened, and how many requests it has seen. */
  datatype Entry = Entry(start: int, count: nat)

  /** What one request does to its client's entry, and whether it is limited. */
  datatype Verdict = Verdict(entry: Entry, limited: bool)

  type Table = map<string, Entry>

  /** One call of the limiter: the client key and the time it was made. */
  datatype Hit = Hit(key: string, now: int)

  function Lookup(table: Table, key: string): Option<Entry>
  {
    if key in table then Some(table[key]) else None
  }

  /** The reset rule: strictly more than one window length has elapsed. */
  predicate Expired(e: Entry, now: int)
  {
    now - e.start > RateWindowMs
  }

  /**
   * The limiter's decision for a client whose entry was `prev`. The verdict
   * is read off the count the entry holds afterwards, and that count is at
   * least one, since the request itself is always counted.
   */
  function Assess(prev: Option<Entry>, now: int): (v: Verdict)
    ensures v.limited <==> v.entry.count > RateLimit
    ensures v.entry.count >= 1
  {
    if prev.None? || Expired(prev.value, now) then
      Verdict(Entry(now, 1), false)
    else
      var bumped := Entry(prev.value.start, prev.value.count + 1);
      Verdict(bumped, bumped.count > RateLimit)
  }

  /** The table after one call of the limiter. */
  function Record(table: Table, hit: Hit): Table
  {
    table[hit.key := Assess(Lookup(table, hit.key), hit.now).entry]
  }

  /** The table after a sequence of calls, made in order. */
  function Replay(table: Table, hits: seq<Hit>): Table
    decreases |hits|
  {
    if hits == [] then table
    else Record(Replay(table, hits[..|hits| - 1]), hits[|hits| - 1])
  }

  /** Whether call number `k` (from 0) of `hits` is limited. */
  predicate LimitedAt(table: Table, hits: seq<Hit>, k: nat)
    requires k < |hits|
  {
    Assess(Lookup(Replay(table, hits[..k]), hits[k].key), hits[k].now).limited
  }

  /** The calls of `hits` made by client `key`, in their order. */
  function OwnHits(hits: seq<Hit>, key: string): (own: seq<Hit>)
    ensures |own| <= |hits|
    ensures forall i :: 0 <= i < |own| ==> own[i].key == key
    decreases |hits|
  {
    if hits == [] then []
    else
      var last := hits[|hits| - 1];
      OwnHits(hits[..|hits| - 1], key) + (if last.key == key then [last] else [])
  }

  /** Calls of one client, all at most one window length after the first of them. */
  predicate OneWindowBurst(hits: seq<Hit>, key: string)
  {
    forall i :: 0 <= i < |hits| ==> hits[i].key == key && hits[i].now - hits[0].now <= RateWindowMs
  }

  /**
   * Every recorded client has at least one counted request. This is an
   * invariant the limiter keeps, stated for documentation: no other contract
   * relies on it.
   */
  ghost predicate WellFormed(table: Table)
  {
    forall k :: k in table ==> table[k].count >= 1
  }

  /** The process-wide rate-limit table and the operation that consults it. */
  class RateLimiter {
    var table: Table

    ghost predicate Valid()
      reads this
    {
      WellFormed(table)
    }

    /** The table starts out empty. */
    constructor ()
      ensures Valid() && table == map[]
    {
      table := map[];
    }

    /**
     * Counts one request of client `ip` at time `now` and says whether it is
     * limited. Only the entry of `ip` changes.
     */
    method IsRateLimited(ip: string, now: int) returns (limited: bool)
      requires Valid()
      modifies this
      ensures Valid()
      ensures limited == Assess(Lookup(old(table), ip), now).limited
      ensures table == Record(old(table), Hit(ip, now))
      ensures ip in table && (limited <==> table[ip].count > RateLimit)
      ensures forall k :: k != ip ==> Lookup(table, k) == Lookup(old(table), k)
    {
      var entry := Lookup(table, ip);
      if entry.None? || now - entry.value.start > RateWindowMs {
        table := table[ip := Entry(now, 1)];
        return false;
      }
      var bumped := entry.value.(count := entry.value.count + 1);
      table := table[ip := bumped];
      return bumped.count > RateLimit;
    }
  }

  /** A client with no entry is admitted, and its entry becomes `{start: now, count: 1}`. */
  lemma FirstRequestAdmitted(table: Table, ip: string, now: int)
    requires ip !in table
    ensures !Assess(Lookup(table, ip), now).limited
    ensures Record(table, Hit(ip, now))[ip] == Entry(now, 1)
  {
  }

  /** Once the window has expired the entry restarts, however far over the limit it was. */
  lemma ExpiredWindowResets(e: Entry, now: int)
    requires now - e.start > RateWindowMs
    ensures Assess(Some(e), now) == Verdict(Entry(now, 1), false)
  {
  }

  /**
   * Inside the window the count goes up by exactly one, the start is kept, and
   * the request is limited exactly when the new count exceeds the limit; a
   * denied request is still counted.
   */
  lemma InWindowCounts(e: Entry, now: int)
    requires now - e.start <= RateWindowMs
    ensures Assess(Some(e), now).entry == Entry(e.start, e.count + 1)
    ensures Assess(Some(e), now).limited <==> e.count + 1 > RateLimit
  {
  }

  /** The reset is strict: no reset at exactly one window length, a reset one millisecond later. */
  lemma WindowBoundaryIsStrict(e: Entry)
    ensures Assess(Some(e), e.start + RateWindowMs).entry == Entry(e.start, e.count + 1)
    ensures Assess(Some(e), e.start + RateWindowMs + 1) == Verdict(Entry(e.start + RateWindowMs + 1, 1), false)
  {
  }

  /** A client already at or over the limit stays limited for the rest of its window. */
  lemma OverLimitStaysLimited(e: Entry, now: int)
    requires e.count >= RateLimit && now - e.start <= RateWindowMs
    ensures Assess(Some(e), now).limited
    ensures Assess(Some(e), now).entry.count > e.count
  {
  }

  /** One call changes only its own client's entry. */
  lemma RecordTouchesOnlyItsKey(table: Table, hit: Hit, other: string)
    requires other != hit.key
    ensures Lookup(Record(table, hit), other) == Lookup(table, other)
  {
  }

  /** Replaying well-formed calls keeps every entry's count positive. */
  lemma {:induction false} ReplayWellFormed(table: Table, hits: seq<Hit>)
    requires WellFormed(table)
    ensures WellFormed(Replay(table, hits))
    decreases |hits|
  {
    if hits != [] {
      ReplayWellFormed(table, hits[..|hits| - 1]);
    }
  }

  /**
   * Key isolation: after any interleaving of calls, a client's entry is what
   * its own calls alone would have made of it. Other clients' traffic, even an
   * exhausted client's, never reaches it.
   */
  lemma {:induction false} Isolation(table: Table, hits: seq<Hit>, key: string)
    ensures Lookup(Replay(table, hits), key) == Lookup(Replay(table, OwnHits(hits, key)), key)
    decreases |hits|
  {
    if hits != [] {
      var init, last := hits[..|hits| - 1], hits[|hits| - 1];
      Isolation(table, init, key);
      var own := OwnHits(init, key);
      if last.key == key {
        assert OwnHits(hits, key) == own + [last];
        assert (own + [last])[..|own|] == own;
      } else {
        assert OwnHits(hits, key) == own;
      }
    }
  }

  /** The call right after a prefix, when it is the client's own, is the client's next call. */
  lemma {:induction false} OwnHitsNext(hits: seq<Hit>, k: nat)
    requires k < |hits|
    ensures OwnHits(hits[..k + 1], hits[k].key) == OwnHits(hits[..k], hits[k].key) + [hits[k]]
  {
    assert hits[..k + 1][..k] == hits[..k];
  }

  /**
   * A client with no entry whose first `n` calls fall within one window of the
   * first of them: after those `n` calls its entry is `{start: first call's
   * time, count: n}`. Later calls are unconstrained.
   */
  lemma {:induction false} BurstEntry(table: Table, hits: seq<Hit>, key: string, n: nat)
    requires 1 <= n <= |hits|
    requires key !in table && OneWindowBurst(hits[..n], key)
    ensures Lookup(Replay(table, hits[..n]), key) == Some(Entry(hits[0].now, n))
    decreases n
  {
    var prefix := hits[..n];
    assert prefix[..n - 1] == hits[..n - 1];
    if n == 1 {
      assert prefix[..0] == [];
    } else {
      BurstEntry(table, hits, key, n - 1);
    }
  }

  /**
   * Starting from no entry, with all calls up to this one inside one window:
   * calls 1 through `RateLimit` are admitted and every later call is limited.
   */
  lemma BurstVerdicts(table: Table, hits: seq<Hit>, key: string, k: nat)
    requires k < |hits|
    requires key !in table && OneWindowBurst(hits[..k + 1], key)
    ensures LimitedAt(table, hits, k) <==> k >= RateLimit
  {
    if k == 0 {
      assert hits[..0] == [];
    } else {
      BurstEntry(table, hits, key, k);
    }
  }

  /**
   * The same holds of a client's own calls inside any interleaving with other
   * clients: its call is limited exactly when it already made `RateLimit`
   * calls before it in this window. Only the client's calls up to this one
   * need to fall within the window; later ones may come at any time.
   */
  lemma InterleavedBurst(table: Table, hits: seq<Hit>, key: string, k: nat)
    requires k < |hits| && hits[k].key == key
    requires key !in table && OneWindowBurst(OwnHits(hits[..k + 1], key), key)
    ensures LimitedAt(table, hits, k) <==> |OwnHits(hits[..k], key)| >= RateLimit
  {
    var before := OwnHits(hits[..k], key);
    var own := OwnHits(hits[..k + 1], key);
    var m := |before|;
    Isolation(table, hits[..k], key);
    OwnHitsNext(hits, k);
    assert own[..m] == before;
    assert own[..m + 1] == own;
    BurstVerdicts(table, own, key, m);
  }
}
