/**
  The fixed-window limiter shared by all API processes: a counter with an expiry
  per identity. Times are milliseconds.
 */
module RateLimit {
  import opened Prelude

  /** A counter key; without an expiry it would count forever. */
  datatype Entry = Entry(count: nat, expiresAt: Option<int>)

  predicate Live(entry: Option<Entry>, now: int)
  {
    entry.Some? && (entry.value.expiresAt.Some? ==> now < entry.value.expiresAt.value)
  }

  /**
    What one run of the script leaves under the key: a new window, or one more in the current one,
    with an expiry in any case.
   */
  function Hit(entry: Option<Entry>, now: int, window: nat): Entry
  {
    if !Live(entry, now) then Entry(1, Some(now + window))
    else Entry(entry.value.count + 1,
               if entry.value.expiresAt.Some? && entry.value.count > 0 then entry.value.expiresAt else Some(now + window))
  }

  // -------------------------------------------------------- one identity's requests

  predicate Sorted(times: seq<int>)
  {
    forall i, j :: 0 <= i <= j < |times| ==> times[i] <= times[j]
  }

  /** The counter after the first `n` requests. */
  function EntryAfter(init: Option<Entry>, times: seq<int>, window: nat, n: nat): Option<Entry>
    requires n <= |times|
  {
    if n == 0 then init else Some(Hit(EntryAfter(init, times, window, n - 1), times[n - 1], window))
  }

  predicate Allowed(init: Option<Entry>, times: seq<int>, window: nat, limit: nat, i: nat)
    requires i < |times|
  {
    EntryAfter(init, times, window, i + 1).value.count <= limit
  }

  /** How many of the first `n` requests were made between `from` and `to` and allowed. */
  function AllowedBetween(init: Option<Entry>, times: seq<int>, window: nat, limit: nat, from: int, to: int, n: nat): nat
    requires n <= |times|
  {
    if n == 0 then 0
    else AllowedBetween(init, times, window, limit, from, to, n - 1)
         + if from <= times[n - 1] <= to && Allowed(init, times, window, limit, n - 1) then 1 else 0
  }

  /** How many requests have been allowed since the key was last created. */
  function AllowedThisLifetime(times: seq<int>, window: nat, limit: nat, n: nat): nat
    requires n <= |times|
  {
    if n == 0 then 0
    else (if Live(EntryAfter(None, times, window, n - 1), times[n - 1]) then AllowedThisLifetime(times, window, limit, n - 1) else 0)
         + if Allowed(None, times, window, limit, n - 1) then 1 else 0
  }

  /** Within one lifetime of the key exactly the first `limit` requests are allowed. */
  lemma {:induction false} LimitPerLifetime(times: seq<int>, window: nat, limit: nat, n: nat)
    requires 0 < n <= |times|
    ensures AllowedThisLifetime(times, window, limit, n) == Min(limit, EntryAfter(None, times, window, n).value.count)
  {
    if n > 1 {
      LimitPerLifetime(times, window, limit, n - 1);
    }
  }

  /** A request leaves a key that is live now and for at most one window more, even if it had lost its expiry. */
  lemma HitHeals(entry: Option<Entry>, now: int, window: nat)
    requires window > 0
    requires entry.Some? && entry.value.expiresAt.Some? ==> entry.value.expiresAt.value <= now + window
    ensures var e := Hit(entry, now, window); e.expiresAt.Some? && now < e.expiresAt.value <= now + window
  {
  }

  /**
    Where the count stands while requests of the interval from `from` on arrive: one lifetime seen, or
    a second one that outlives the interval.
   */
  ghost predicate Stage(entry: Option<Entry>, limit: nat, window: nat, from: int, allowed: nat)
  {
    || allowed == 0
    || (entry.Some? && entry.value.expiresAt.Some? &&
        ((allowed <= Min(limit, entry.value.count) && entry.value.expiresAt.value > from)
         || (allowed <= limit + Min(limit, entry.value.count) && entry.value.expiresAt.value > from + window)))
  }

  lemma {:induction false} StageKept(init: Option<Entry>, times: seq<int>, window: nat, limit: nat, from: int, n: nat)
    requires Sorted(times) && window > 0 && n <= |times|
    requires n > 0 ==> times[n - 1] <= from + window
    ensures Stage(EntryAfter(init, times, window, n), limit, window, from,
                  AllowedBetween(init, times, window, limit, from, from + window, n))
  {
    if n > 0 {
      StageKept(init, times, window, limit, from, n - 1);
      if times[n - 1] < from {
        NothingBefore(init, times, window, limit, from, from + window, n);
      }
    }
  }

  lemma {:induction false} NothingBefore(init: Option<Entry>, times: seq<int>, window: nat, limit: nat, from: int, to: int, n: nat)
    requires Sorted(times) && n <= |times| && (n > 0 ==> times[n - 1] < from)
    ensures AllowedBetween(init, times, window, limit, from, to, n) == 0
  {
    if n > 0 {
      NothingBefore(init, times, window, limit, from, to, n - 1);
    }
  }

  /**
    Whatever state the key was found in, at most twice the limit is allowed in any interval one window
    long, ends included.
   */
  lemma {:induction false} TwiceTheLimit(init: Option<Entry>, times: seq<int>, window: nat, limit: nat, from: int, n: nat)
    requires Sorted(times) && window > 0 && n <= |times|
    ensures AllowedBetween(init, times, window, limit, from, from + window, n) <= 2 * limit
  {
    if n > 0 && times[n - 1] > from + window {
      TwiceTheLimit(init, times, window, limit, from, n - 1);
    } else {
      StageKept(init, times, window, limit, from, n);
    }
  }

  /** `limit` requests when a window opens and `limit` more when it ends. */
  function Burst(limit: nat, window: nat): (times: seq<int>)
    ensures |times| == 2 * limit
    ensures forall i :: 0 <= i < 2 * limit ==> times[i] == if i < limit then 0 else window
  {
    seq(2 * limit, i => if i < limit then 0 else window)
  }

  lemma {:induction false} BurstIsAllowed(limit: nat, window: nat, n: nat)
    requires window > 0 && n <= 2 * limit
    ensures n > 0 ==> EntryAfter(None, Burst(limit, window), window, n)
                      == Some(if n <= limit then Entry(n, Some(window)) else Entry(n - limit, Some(2 * window)))
    ensures AllowedBetween(None, Burst(limit, window), window, limit, 0, window, n) == n
  {
    if n > 0 {
      BurstIsAllowed(limit, window, n - 1);
    }
  }

  /** The bound is exact: for every limit some schedule gets twice the limit through in one window length. */
  lemma TwiceTheLimitIsReached(limit: nat, window: nat)
    requires window > 0
    ensures Sorted(Burst(limit, window))
    ensures AllowedBetween(None, Burst(limit, window), window, limit, 0, window, 2 * limit) == 2 * limit
  {
    BurstIsAllowed(limit, window, 2 * limit);
  }

  // ------------------------------------------------------------- identities

  const NUL: char := 0 as char

  /** The text whose hash names the counter. */
  function IdentityKey(issuer: string, subject: string): string
  {
    issuer + [NUL] + subject
  }

  lemma SplitAt(a: string, b: string, c: string, d: string)
    requires IdentityKey(a, b) == IdentityKey(c, d) && |a| < |c|
    ensures NUL in c && NUL in b
  {
    var k := IdentityKey(a, b);
    assert k[|a|] == NUL && k[|a|] == c[|a|];
    assert k[|c|] == NUL && k[|c|] == b[|c| - |a| - 1];
  }

  lemma SameLengthSameParts(a: string, b: string, c: string, d: string)
    requires IdentityKey(a, b) == IdentityKey(c, d) && |a| == |c|
    ensures a == c && b == d
  {
    var k := IdentityKey(a, b);
    assert a == k[..|a|] && c == k[..|a|];
    assert b == k[|a| + 1..] && d == k[|a| + 1..];
  }

  /** An identity shares its counter with another one exactly when its issuer or subject contains a NUL character. */
  lemma KeyIsSharedOnlyWithNul(issuer: string, subject: string)
    ensures (exists i, s :: (i, s) != (issuer, subject) && IdentityKey(i, s) == IdentityKey(issuer, subject))
       <==> NUL in issuer || NUL in subject
  {
    forall i, s | (i, s) != (issuer, subject) && IdentityKey(i, s) == IdentityKey(issuer, subject)
      ensures NUL in issuer || NUL in subject
    {
      if |i| < |issuer| { SplitAt(i, s, issuer, subject); }
      else if |issuer| < |i| { SplitAt(issuer, subject, i, s); }
      else { SameLengthSameParts(i, s, issuer, subject); }
    }
    if NUL in issuer {
      var k :| 0 <= k < |issuer| && issuer[k] == NUL;
      var (i, s) := (issuer[..k], issuer[k + 1..] + [NUL] + subject);
      assert issuer == issuer[..k] + [NUL] + issuer[k + 1..];
      assert IdentityKey(i, s) == IdentityKey(issuer, subject);
      assert |i| < |issuer|;
    } else if NUL in subject {
      var k :| 0 <= k < |subject| && subject[k] == NUL;
      var (i, s) := (issuer + [NUL] + subject[..k], subject[k + 1..]);
      assert subject == subject[..k] + [NUL] + subject[k + 1..];
      assert IdentityKey(i, s) == IdentityKey(issuer, subject);
      assert |i| > |issuer|;
    }
  }

  // ------------------------------------------------------------- the limiter

  datatype Decision = Decision(allowed: bool, remaining: nat, retryAfter: nat) | Unavailable

  /** Keys of a shared store, and the limiter that counts in it. */
  class IdentityRateLimiter {
    const limit: int
    const windowSeconds: nat
    var now: int
    var entries: map<string, Entry>

    constructor (limit: int, windowSeconds: nat)
      ensures this.limit == limit && this.windowSeconds == windowSeconds && entries == map[]
    {
      this.limit, this.windowSeconds, now, entries := limit, windowSeconds, 0, map[];
    }

    function EntryOf(key: string): Option<Entry>
      reads this
    {
      if key in entries then Some(entries[key]) else None
    }

    /** The script: count, give a new key its expiry, and repair a key that has none. */
    method Count(key: string) returns (current: nat, ttl: int)
      modifies this`entries
      ensures entries == old(entries)[key := Hit(old(EntryOf(key)), now, 1000 * windowSeconds)]
      ensures current == entries[key].count && ttl == (entries[key].expiresAt.value - now) / 1000
    {
      if !Live(EntryOf(key), now) { entries := entries[key := Entry(0, None)]; }
      current := entries[key].count + 1;
      entries := entries[key := entries[key].(count := current)];
      if current == 1 {
        entries := entries[key := entries[key].(expiresAt := Some(now + 1000 * windowSeconds))];
      }
      if entries[key].expiresAt.None? {
        entries := entries[key := entries[key].(expiresAt := Some(now + 1000 * windowSeconds))];
        ttl := windowSeconds;
      } else {
        ttl := (entries[key].expiresAt.value - now) / 1000;
      }
    }

    /** A limit of zero or less turns the limiter off; a store that does not answer is not a permission. */
    method Check(issuer: string, subject: string, reachable: bool) returns (d: Decision)
      modifies this`entries
      ensures var key := IdentityKey(issuer, subject);
        if limit <= 0 then entries == old(entries) && d == Decision(true, 0, 0)
        else if !reachable then entries == old(entries) && d == Unavailable
        else
          && entries == old(entries)[key := Hit(old(EntryOf(key)), now, 1000 * windowSeconds)]
          && d.Decision? && (d.allowed <==> entries[key].count <= limit)
          && (d.remaining > 0 <==> entries[key].count < limit)
          && d.retryAfter >= 1
    {
      if limit <= 0 { return Decision(true, 0, 0); }
      var key := IdentityKey(issuer, subject);
      if !reachable { return Unavailable; }
      var count, ttl := Count(key);
      var retryAfter := if ttl > 1 then ttl else 1;
      d := Decision(count <= limit, if limit - count > 0 then limit - count else 0, retryAfter);
    }
  }
}
