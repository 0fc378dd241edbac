/**
 The in-memory fixed-window rate store: every hit first sweeps expired entries, then counts into the
 key's window or opens a new one.
 */
module RateStore {
  import opened Options

  datatype Entry = Entry(count: int, expiresAt: real)

  /** One call; times and windows are in seconds. */
  datatype Hit = Hit(now: real, key: string, limit: int, window: real)

  function Live(entries: map<string, Entry>, now: real): map<string, Entry> {
    map k | k in entries && entries[k].expiresAt > now :: entries[k]
  }

  function Lookup(entries: map<string, Entry>, key: string): Option<Entry> {
    if key in entries then Some(entries[key]) else None
  }

  /** The key's entry after a hit. */
  function Touched(e: Option<Entry>, h: Hit): Entry {
    if e.None? || e.value.expiresAt <= h.now then Entry(1, h.now + h.window)
    else Entry(e.value.count + 1, e.value.expiresAt)
  }

  function StoreAfter(entries: map<string, Entry>, h: Hit): map<string, Entry> {
    var live := Live(entries, h.now);
    live[h.key := Touched(Lookup(live, h.key), h)]
  }

  /** Truncation toward zero. */
  function Truncated(x: real): int {
    if x >= 0.0 then x.Floor else -(-x).Floor
  }

  /** The whole seconds a caller is told to wait, at least one when it was turned away. */
  function RetryAfter(e: Entry, limit: int, now: real): int {
    var least, left := if e.count <= limit then 0 else 1, Truncated(e.expiresAt - now);
    if left >= least then left else least
  }

  class MemoryRateStore {
    var entries: map<string, Entry>

    constructor ()
      ensures entries == map[]
    {
      entries := map[];
    }

    method Cleanup(now: real)
      modifies this
      ensures entries == Live(old(entries), now)
    {
      var stale := set k | k in entries && entries[k].expiresAt <= now;
      while stale != {}
        invariant stale <= entries.Keys
        invariant forall k :: k in entries ==> k in old(entries) && entries[k] == old(entries)[k]
        invariant forall k :: k in old(entries) && k !in entries ==> old(entries)[k].expiresAt <= now
        invariant forall k :: k in entries && entries[k].expiresAt <= now ==> k in stale
        invariant forall k :: k in stale ==> old(entries)[k].expiresAt <= now
        decreases stale
      {
        var k :| k in stale;
        entries := entries - {k};
        stale := stale - {k};
      }
    }

    method Record(h: Hit) returns (allowed: bool, retryAfter: int, remaining: int)
      modifies this
      ensures entries == StoreAfter(old(entries), h)
      ensures allowed <==> entries[h.key].count <= h.limit
      ensures remaining >= 0 && (allowed ==> remaining == h.limit - entries[h.key].count)
      ensures !allowed ==> remaining == 0
      ensures retryAfter == RetryAfter(entries[h.key], h.limit, h.now) >= if allowed then 0 else 1
      ensures var left := entries[h.key].expiresAt - h.now;
              left >= 1.0 ==> retryAfter as real <= left < retryAfter as real + 1.0
    {
      Cleanup(h.now);
      var entry;
      if h.key !in entries || entries[h.key].expiresAt <= h.now {
        entry := Entry(1, h.now + h.window);
      } else {
        entry := entries[h.key].(count := entries[h.key].count + 1);
      }
      entries := entries[h.key := entry];
      allowed := entry.count <= h.limit;
      var left := Truncated(entry.expiresAt - h.now);
      if !allowed {
        retryAfter := if left > 1 then left else 1;
      } else {
        retryAfter := if left > 0 then left else 0;
      }
      remaining := if h.limit - entry.count > 0 then h.limit - entry.count else 0;
    }
  }

  // ----- Runs -----------------------------------------------------------------------------------

  function Store(hits: seq<Hit>): map<string, Entry> {
    if hits == [] then map[] else StoreAfter(Store(hits[..|hits| - 1]), hits[|hits| - 1])
  }

  /** The decision the store takes on the last of the hits. */
  predicate LastAllowed(hits: seq<Hit>)
    requires hits != []
  {
    Store(hits)[hits[|hits| - 1].key].count <= hits[|hits| - 1].limit
  }

  /** A counter for one key alone: no other key exists and nothing is ever swept. */
  function KeyEntry(hits: seq<Hit>, key: string): Option<Entry> {
    if hits == [] then None
    else
      var before, h := KeyEntry(hits[..|hits| - 1], key), hits[|hits| - 1];
      if h.key == key then Some(Touched(before, h)) else before
  }

  ghost predicate NonDecreasing(hits: seq<Hit>) {
    forall i, j :: 0 <= i < j < |hits| ==> hits[i].now <= hits[j].now
  }

  /** The store and the lone counter agree, except on entries that have expired and were swept. */
  lemma {:induction false} StoreTracksKey(hits: seq<Hit>, key: string)
    requires NonDecreasing(hits)
    ensures Lookup(Store(hits), key) == KeyEntry(hits, key)
            || (key !in Store(hits) && hits != [] && KeyEntry(hits, key).value.expiresAt <= hits[|hits| - 1].now)
    ensures hits == [] ==> KeyEntry(hits, key) == None
  {
    if hits != [] {
      var before := hits[..|hits| - 1];
      StoreTracksKey(before, key);
      var h := hits[|hits| - 1];
      if before != [] {
        assert before[|before| - 1].now <= h.now;
      }
    }
  }

  /** Sweeping and sharing the table change no decision. */
  lemma DecisionsIndependent(hits: seq<Hit>)
    requires NonDecreasing(hits) && hits != []
    ensures var h := hits[|hits| - 1];
            LastAllowed(hits) <==> KeyEntry(hits, h.key).value.count <= h.limit
  {
    var h := hits[|hits| - 1];
    var before := hits[..|hits| - 1];
    StoreTracksKey(before, h.key);
    if before != [] {
      assert before[|before| - 1].now <= h.now;
    }
  }

  // ----- When a window ends -----------------------------------------------------------------------

  /** All hits from the `n`-th on came before the key's window ends. */
  predicate WithinWindow(hits: seq<Hit>, n: nat, expiresAt: real) {
    forall i :: n <= i < |hits| ==> hits[i].now < expiresAt
  }

  /** The hits on the key from the `n`-th on. */
  function HitsSince(hits: seq<Hit>, n: nat, key: string): nat {
    if |hits| <= n then 0
    else HitsSince(hits[..|hits| - 1], n, key) + if hits[|hits| - 1].key == key then 1 else 0
  }

  /** No hit moves the end of an open window, allowed or denied; each one on the key is counted. */
  lemma {:induction false} WindowStays(hits: seq<Hit>, n: nat, key: string)
    requires NonDecreasing(hits) && n <= |hits| && KeyEntry(hits[..n], key).Some?
    requires WithinWindow(hits, n, KeyEntry(hits[..n], key).value.expiresAt)
    ensures var e := KeyEntry(hits[..n], key).value;
            KeyEntry(hits, key) == Some(Entry(e.count + HitsSince(hits, n, key), e.expiresAt))
  {
    if |hits| == n {
      assert hits[..n] == hits;
    } else {
      assert hits[..|hits| - 1][..n] == hits[..n];
      WindowStays(hits[..|hits| - 1], n, key);
    }
  }

  /** The first hit on the key at or after the end opens the next window, of its own length. */
  lemma NextWindowOpens(hits: seq<Hit>, h: Hit)
    requires NonDecreasing(hits + [h])
    requires KeyEntry(hits, h.key).None? || KeyEntry(hits, h.key).value.expiresAt <= h.now
    ensures KeyEntry(hits + [h], h.key) == Some(Entry(1, h.now + h.window))
    ensures LastAllowed(hits + [h]) <==> h.limit >= 1
  {
    assert (hits + [h])[..|hits|] == hits;
    DecisionsIndependent(hits + [h]);
  }

  /** Within an open window a hit is allowed exactly while the limit is not reached. */
  lemma AllowedWithinWindow(hits: seq<Hit>, h: Hit)
    requires NonDecreasing(hits + [h]) && KeyEntry(hits, h.key).Some?
    requires h.now < KeyEntry(hits, h.key).value.expiresAt
    ensures LastAllowed(hits + [h]) <==> KeyEntry(hits, h.key).value.count < h.limit
  {
    assert (hits + [h])[..|hits|] == hits;
    DecisionsIndependent(hits + [h]);
  }

  // ----- The window bound -------------------------------------------------------------------------

  /** How many hits on the key were allowed at times from `from` up to but not including `to`. */
  function AllowedBetween(hits: seq<Hit>, key: string, from: real, to: real): nat {
    if hits == [] then 0
    else
      var h := hits[|hits| - 1];
      AllowedBetween(hits[..|hits| - 1], key, from, to)
      + if h.key == key && from <= h.now < to && LastAllowed(hits) then 1 else 0
  }

  predicate OnePolicy(hits: seq<Hit>, key: string, limit: int, window: real) {
    forall i :: 0 <= i < |hits| && hits[i].key == key ==> hits[i].limit == limit && hits[i].window == window
  }

  function Min(a: int, b: int): int {
    if a <= b then a else b
  }

  /**
   What is known after some hits, by where the key's current window opened: before the interval, inside
   it, or after it.
   */
  predicate WindowBound(e: Option<Entry>, allowed: nat, limit: int, window: real, from: real) {
    match e
    case None => allowed == 0
    case Some(w) =>
      var openedAt := w.expiresAt - window;
      && w.count >= 1
      && (openedAt < from ==> allowed <= Min(w.count, limit) - 1)
      && (from <= openedAt < from + window ==> allowed <= limit - 1 + Min(w.count, limit))
      && (from + window <= openedAt ==> allowed <= 2 * limit - 1)
  }

  lemma {:induction false} BoundHolds(hits: seq<Hit>, key: string, limit: int, window: real, from: real)
    requires NonDecreasing(hits) && OnePolicy(hits, key, limit, window) && limit >= 1 && window > 0.0
    ensures var allowed := AllowedBetween(hits, key, from, from + window);
            && WindowBound(KeyEntry(hits, key), allowed, limit, window, from)
            && (hits != [] && hits[|hits| - 1].now < from ==> allowed == 0)
            && (KeyEntry(hits, key).Some? ==>
                  hits != [] && KeyEntry(hits, key).value.expiresAt - window <= hits[|hits| - 1].now)
  {
    if hits != [] {
      var before, h := hits[..|hits| - 1], hits[|hits| - 1];
      BoundHolds(before, key, limit, window, from);
      DecisionsIndependent(hits);
      if before != [] {
        assert before[|before| - 1].now <= h.now;
      }
    }
  }

  lemma {:induction false} NothingAllowed(hits: seq<Hit>, key: string, limit: int, window: real, from: real)
    requires NonDecreasing(hits) && OnePolicy(hits, key, limit, window) && limit <= 0
    ensures AllowedBetween(hits, key, from, from + window) == 0
    ensures KeyEntry(hits, key).Some? ==> KeyEntry(hits, key).value.count >= 1
  {
    if hits != [] {
      NothingAllowed(hits[..|hits| - 1], key, limit, window, from);
      DecisionsIndependent(hits);
    }
  }

  /** Any half-open interval of one window length contains at most `2 * limit - 1` allowed hits on a key. */
  lemma AllowedPerWindow(hits: seq<Hit>, key: string, limit: int, window: real, from: real)
    requires NonDecreasing(hits) && OnePolicy(hits, key, limit, window) && window > 0.0
    ensures AllowedBetween(hits, key, from, from + window) <= if limit >= 1 then 2 * limit - 1 else 0
  {
    if limit >= 1 {
      BoundHolds(hits, key, limit, window, from);
    } else {
      NothingAllowed(hits, key, limit, window, from);
    }
  }

  // ----- How long to wait -------------------------------------------------------------------------

  /** A hit the store turns away leaves its key an open window. */
  lemma DeniedIsOpen(hits: seq<Hit>)
    requires NonDecreasing(hits) && hits != [] && !LastAllowed(hits) && hits[|hits| - 1].limit >= 1
    ensures var h := hits[|hits| - 1];
            var e := KeyEntry(hits, h.key).value;
            e.count > h.limit && e.expiresAt > h.now
  {
    DecisionsIndependent(hits);
  }

  /** The next hit on a key that was turned away is allowed exactly when the window has expired by then. */
  lemma AllowedAgainAt(hits: seq<Hit>, again: Hit)
    requires NonDecreasing(hits + [again]) && hits != [] && !LastAllowed(hits)
    requires again.key == hits[|hits| - 1].key && again.limit == hits[|hits| - 1].limit >= 1
    ensures LastAllowed(hits + [again]) <==> KeyEntry(hits, again.key).value.expiresAt <= again.now
  {
    PrefixNonDecreasing(hits, [again]);
    DeniedIsOpen(hits);
    assert (hits + [again])[..|hits|] == hits;
    DecisionsIndependent(hits + [again]);
  }

  /** How the told seconds compare with what is left of the window. */
  lemma ToldAndLeft(e: Entry, limit: int, now: real)
    requires e.count > limit && e.expiresAt > now
    ensures var wait, left := RetryAfter(e, limit, now), e.expiresAt - now;
            && (left <= wait as real <==> left < 1.0 || left == left.Floor as real)
            && left <= wait as real + 1.0
  {
    var left := e.expiresAt - now;
    assert left.Floor as real <= left < left.Floor as real + 1.0;
  }

  /**
   Waiting the seconds a denied caller is told suffices if and only if less than a second or a whole number of
   seconds was left of the window; waiting one second more always suffices.
   */
  lemma WaitingSuffices(hits: seq<Hit>, again: Hit)
    requires NonDecreasing(hits + [again]) && hits != [] && !LastAllowed(hits)
    requires again.key == hits[|hits| - 1].key && again.limit == hits[|hits| - 1].limit >= 1
    ensures var h := hits[|hits| - 1];
            var e := KeyEntry(hits, h.key).value;
            var wait, left := RetryAfter(e, h.limit, h.now), e.expiresAt - h.now;
            && (again.now == h.now + wait as real ==>
                  (LastAllowed(hits + [again]) <==> left < 1.0 || left == left.Floor as real))
            && (again.now >= h.now + wait as real + 1.0 ==> LastAllowed(hits + [again]))
  {
    PrefixNonDecreasing(hits, [again]);
    DeniedIsOpen(hits);
    AllowedAgainAt(hits, again);
    ToldAndLeft(KeyEntry(hits, again.key).value, again.limit, hits[|hits| - 1].now);
  }

  // ----- The bound is reached ---------------------------------------------------------------------

  /** The same hit `n` times. */
  function Repeated(h: Hit, n: nat): seq<Hit> {
    if n == 0 then [] else Repeated(h, n - 1) + [h]
  }

  lemma {:induction false} RepeatedHits(h: Hit, n: nat)
    ensures |Repeated(h, n)| == n && forall i :: 0 <= i < n ==> Repeated(h, n)[i] == h
  {
    if n > 0 {
      RepeatedHits(h, n - 1);
    }
  }

  /** A hit inside the key's open window is counted, and allowed as long as the limit is not passed. */
  lemma NextIsCounted(hits: seq<Hit>, h: Hit, e: Entry, from: real, to: real)
    requires NonDecreasing(hits + [h]) && KeyEntry(hits, h.key) == Some(e)
    requires h.now < e.expiresAt && e.count + 1 <= h.limit && from <= h.now < to
    ensures KeyEntry(hits + [h], h.key) == Some(Entry(e.count + 1, e.expiresAt))
    ensures AllowedBetween(hits + [h], h.key, from, to) == AllowedBetween(hits, h.key, from, to) + 1
  {
    assert (hits + [h])[..|hits|] == hits;
    DecisionsIndependent(hits + [h]);
  }

  lemma {:induction false} RepeatedAreCounted(hits: seq<Hit>, h: Hit, n: nat, e: Entry, from: real, to: real)
    requires NonDecreasing(hits + Repeated(h, n)) && KeyEntry(hits, h.key) == Some(e)
    requires h.now < e.expiresAt && e.count + n <= h.limit && from <= h.now < to
    ensures KeyEntry(hits + Repeated(h, n), h.key) == Some(Entry(e.count + n, e.expiresAt))
    ensures AllowedBetween(hits + Repeated(h, n), h.key, from, to) == AllowedBetween(hits, h.key, from, to) + n
  {
    if n == 0 {
      assert hits + Repeated(h, 0) == hits;
    } else {
      var before := hits + Repeated(h, n - 1);
      assert hits + Repeated(h, n) == before + [h];
      PrefixNonDecreasing(before, [h]);
      RepeatedAreCounted(hits, h, n - 1, e, from, to);
      NextIsCounted(before, h, Entry(e.count + n - 1, e.expiresAt), from, to);
    }
  }

  /** A hit that opens a window is allowed if the limit is at least one. */
  lemma OpeningIsAllowed(hits: seq<Hit>, h: Hit, from: real, to: real)
    requires NonDecreasing(hits + [h]) && h.limit >= 1
    requires KeyEntry(hits, h.key).None? || KeyEntry(hits, h.key).value.expiresAt <= h.now
    ensures KeyEntry(hits + [h], h.key) == Some(Entry(1, h.now + h.window))
    ensures AllowedBetween(hits + [h], h.key, from, to)
         == AllowedBetween(hits, h.key, from, to) + if from <= h.now < to then 1 else 0
  {
    assert (hits + [h])[..|hits|] == hits;
    DecisionsIndependent(hits + [h]);
  }

  lemma PrefixNonDecreasing(hits: seq<Hit>, more: seq<Hit>)
    requires NonDecreasing(hits + more)
    ensures NonDecreasing(hits)
  {
    assert forall i :: 0 <= i < |hits| ==> hits[i] == (hits + more)[i];
  }

  /** A hit that opens a window and `n` more inside it are all allowed, up to the limit. */
  lemma WindowIsAllowed(hits: seq<Hit>, h: Hit, later: Hit, n: nat, from: real, to: real)
    requires NonDecreasing(hits + [h] + Repeated(later, n)) && h.limit == later.limit && n + 1 <= h.limit
    requires h.key == later.key && h.now <= later.now < h.now + h.window && from <= later.now < to
    requires KeyEntry(hits, h.key).None? || KeyEntry(hits, h.key).value.expiresAt <= h.now
    ensures KeyEntry(hits + [h] + Repeated(later, n), h.key) == Some(Entry(1 + n, h.now + h.window))
    ensures AllowedBetween(hits + [h] + Repeated(later, n), h.key, from, to)
         == AllowedBetween(hits, h.key, from, to) + (if from <= h.now < to then 1 else 0) + n
  {
    PrefixNonDecreasing(hits + [h], Repeated(later, n));
    OpeningIsAllowed(hits, h, from, to);
    RepeatedAreCounted(hits + [h], later, n, Entry(1, h.now + h.window), from, to);
  }

  /** One hit opens a window, the rest of its limit comes late in it, and a whole limit follows in the next. */
  function Burst(key: string, limit: int, window: real): seq<Hit>
    requires limit >= 1
  {
    var late, next := Hit(window / 2.0, key, limit, window), Hit(window, key, limit, window);
    [] + [Hit(0.0, key, limit, window)] + Repeated(late, limit - 1) + [next] + Repeated(next, limit - 1)
  }

  lemma BurstHits(key: string, limit: int, window: real)
    requires limit >= 1 && window > 0.0
    ensures NonDecreasing(Burst(key, limit, window)) && OnePolicy(Burst(key, limit, window), key, limit, window)
  {
    var late, next := Hit(window / 2.0, key, limit, window), Hit(window, key, limit, window);
    RepeatedHits(late, limit - 1);
    RepeatedHits(next, limit - 1);
    var hits := Burst(key, limit, window);
    assert forall i :: 0 <= i < |hits| ==>
             hits[i] == if i == 0 then Hit(0.0, key, limit, window) else if i < limit then late else next;
  }

  /** Two windows of one key after another, the second opened by `next` when the first has expired. */
  lemma TwoWindowsAreAllowed(first: Hit, late: Hit, next: Hit, m: nat, n: nat, from: real, to: real)
    requires NonDecreasing([] + [first] + Repeated(late, m) + [next] + Repeated(next, n))
    requires first.key == late.key == next.key && first.limit == late.limit == next.limit
    requires m + 1 <= first.limit && n + 1 <= first.limit && next.window > 0.0
    requires first.now < from <= late.now < first.now + first.window <= next.now < to && late.now < to
    ensures AllowedBetween([] + [first] + Repeated(late, m) + [next] + Repeated(next, n), first.key, from, to)
         == m + 1 + n
  {
    var opening := [] + [first] + Repeated(late, m);
    PrefixNonDecreasing(opening + [next], Repeated(next, n));
    PrefixNonDecreasing(opening, [next]);
    WindowIsAllowed([], first, late, m, from, to);
    WindowIsAllowed(opening, next, next, n, from, to);
  }

  /**
   The bound is reached, for every limit and window: some hits let `2 * limit - 1` of them through within one
   window's length.
   */
  lemma BoundIsTight(key: string, limit: int, window: real)
    requires limit >= 1 && window > 0.0
    ensures NonDecreasing(Burst(key, limit, window)) && OnePolicy(Burst(key, limit, window), key, limit, window)
    ensures AllowedBetween(Burst(key, limit, window), key, window / 2.0, window / 2.0 + window) == 2 * limit - 1
  {
    BurstHits(key, limit, window);
    TwoWindowsAreAllowed(Hit(0.0, key, limit, window), Hit(window / 2.0, key, limit, window),
                         Hit(window, key, limit, window), limit - 1, limit - 1, window / 2.0, window / 2.0 + window);
  }
}
