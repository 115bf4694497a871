/**
 * The in-memory back end of `CacheManager`: a dictionary from key to a value
 * and the time it goes stale, with lazy expiry on read; the pre-hash cache
 * key built from a function's arguments; and the `cached` wrapper. Time is an
 * integer `now` supplied by the caller, and the digest of the key string is a
 * function supplied by the caller.
 */
module Cache {
  import opened Wrappers
  import opened Text

  // ---------------------------------------------------------------------------
  // The key string of `_generate_key`
  // ---------------------------------------------------------------------------

  /** Python's `<` on strings: lexicographic by code point, a proper prefix first. */
  predicate Below(a: string, b: string)
  {
    b != [] && (a == [] || a[0] < b[0] || (a[0] == b[0] && Below(a[1..], b[1..])))
  }

  lemma {:induction false} BelowIrreflexive(a: string)
    ensures !Below(a, a)
  {
    if a != [] {
      BelowIrreflexive(a[1..]);
    }
  }

  lemma {:induction false} BelowTransitive(a: string, b: string, c: string)
    requires Below(a, b) && Below(b, c)
    ensures Below(a, c)
  {
    if a != [] && a[0] == b[0] && b[0] == c[0] {
      BelowTransitive(a[1..], b[1..], c[1..]);
    }
  }

  lemma {:induction false} BelowTotal(a: string, b: string)
    requires a != b
    ensures Below(a, b) || Below(b, a)
  {
    if a != [] && b != [] && a[0] == b[0] {
      assert a == [a[0]] + a[1..] && b == [b[0]] + b[1..];
      BelowTotal(a[1..], b[1..]);
    }
  }

  /** A keyword argument: its name and its value rendered with `str`. */
  type Keyword = (string, string)

  /** Every entry of `s` has a name above `name`. */
  predicate Leads(name: string, s: seq<Keyword>)
  {
    forall e :: e in s ==> Below(name, e.0)
  }

  /** Names strictly increase along `s`. */
  predicate StrictlySorted(s: seq<Keyword>)
  {
    s == [] || (Leads(s[0].0, s[1..]) && StrictlySorted(s[1..]))
  }

  /** No name occurs twice, as in the keyword arguments of one Python call. */
  predicate DistinctNames(s: seq<Keyword>)
  {
    s == [] || ((forall e :: e in s[1..] ==> e.0 != s[0].0) && DistinctNames(s[1..]))
  }

  /** Inserts `p` before the first entry whose name is not below it. */
  function Insert(p: Keyword, s: seq<Keyword>): (r: seq<Keyword>)
    ensures multiset(r) == multiset(s) + multiset{p}
  {
    if s == [] || Below(p.0, s[0].0) then [p] + s
    else
      assert s == [s[0]] + s[1..];
      [s[0]] + Insert(p, s[1..])
  }

  /** `sorted(kwargs.items())` for keyword arguments with distinct names. */
  function SortByName(s: seq<Keyword>): (r: seq<Keyword>)
    ensures multiset(r) == multiset(s)
  {
    if s == [] then []
    else
      assert s == [s[0]] + s[1..];
      Insert(s[0], SortByName(s[1..]))
  }

  lemma {:induction false} InsertSorted(p: Keyword, s: seq<Keyword>)
    requires StrictlySorted(s)
    requires forall e :: e in s ==> e.0 != p.0
    ensures StrictlySorted(Insert(p, s))
  {
    if s == [] {
    } else if Below(p.0, s[0].0) {
      forall e | e in s ensures Below(p.0, e.0) {
        if e != s[0] {
          assert e in s[1..];
          BelowTransitive(p.0, s[0].0, e.0);
        }
      }
    } else {
      BelowTotal(p.0, s[0].0);
      InsertSorted(p, s[1..]);
      var rest := Insert(p, s[1..]);
      forall e | e in rest ensures Below(s[0].0, e.0) {
        assert e in multiset(rest);
        if e != p {
          assert e in multiset(s[1..]);
        }
      }
    }
  }

  lemma {:induction false} SortByNameSorted(s: seq<Keyword>)
    requires DistinctNames(s)
    ensures StrictlySorted(SortByName(s))
  {
    if s != [] {
      SortByNameSorted(s[1..]);
      var rest := SortByName(s[1..]);
      forall e | e in rest ensures e.0 != s[0].0 {
        assert e in multiset(rest);
        assert e in multiset(s[1..]);
      }
      InsertSorted(s[0], rest);
    }
  }

  /** An entry of a sorted sequence other than its first lies in its tail. */
  lemma InTail(e: Keyword, s: seq<Keyword>)
    requires e in multiset(s) && s != [] && e != s[0]
    ensures e in s[1..]
  {
    assert s == [s[0]] + s[1..];
  }

  /** Two strictly sorted orderings of the same entries start alike. */
  lemma SameHead(a: seq<Keyword>, b: seq<Keyword>)
    requires StrictlySorted(a) && StrictlySorted(b) && a != [] && b != [] && multiset(a) == multiset(b)
    ensures a[0] == b[0]
  {
    if a[0] != b[0] {
      assert a[0] in multiset(a) && b[0] in multiset(b);
      InTail(a[0], b);
      InTail(b[0], a);
      BelowTransitive(a[0].0, b[0].0, a[0].0);
      BelowIrreflexive(a[0].0);
    }
  }

  /** Two strictly sorted orderings of the same entries are the same sequence. */
  lemma {:induction false} SortedUnique(a: seq<Keyword>, b: seq<Keyword>)
    requires StrictlySorted(a) && StrictlySorted(b) && multiset(a) == multiset(b)
    ensures a == b
  {
    if a == [] || b == [] {
      assert |a| == |multiset(a)| == |multiset(b)| == |b|;
    } else {
      SameHead(a, b);
      assert multiset(a) == multiset{a[0]} + multiset(a[1..]) by {
        assert a == [a[0]] + a[1..];
      }
      assert multiset(b) == multiset{b[0]} + multiset(b[1..]) by {
        assert b == [b[0]] + b[1..];
      }
      assert multiset(a[1..]) == multiset(a) - multiset{a[0]} == multiset(b) - multiset{b[0]} == multiset(b[1..]);
      SortedUnique(a[1..], b[1..]);
    }
  }

  /** `f"{key}:{value}"` for each keyword argument, in the given order. */
  function KeywordParts(s: seq<Keyword>): (r: seq<string>)
    ensures |r| == |s|
  {
    seq(|s|, i requires 0 <= i < |s| => s[i].0 + ":" + s[i].1)
  }

  /**
   * The string `_generate_key` hashes: the prefix, each positional argument
   * as rendered by `str`, then the keyword arguments sorted by name, joined
   * with `"|"`.
   */
  function KeyString(prefix: string, args: seq<string>, kwargs: seq<Keyword>): string
  {
    Join([prefix] + args + KeywordParts(SortByName(kwargs)), "|")
  }

  /** `_generate_key`, with the hex digest as a parameter. */
  function GenerateKey(digest: string -> string, prefix: string, args: seq<string>, kwargs: seq<Keyword>): string
  {
    digest(KeyString(prefix, args, kwargs))
  }

  /** The order in which keyword arguments are passed never changes the key. */
  lemma KeywordOrderIsIrrelevant(prefix: string, args: seq<string>, kw1: seq<Keyword>, kw2: seq<Keyword>)
    requires DistinctNames(kw1) && DistinctNames(kw2) && multiset(kw1) == multiset(kw2)
    ensures KeyString(prefix, args, kw1) == KeyString(prefix, args, kw2)
  {
    SortByNameSorted(kw1);
    SortByNameSorted(kw2);
    SortedUnique(SortByName(kw1), SortByName(kw2));
  }

  // ---------------------------------------------------------------------------
  // The memory store
  // ---------------------------------------------------------------------------

  /** `{'value': ..., 'expires_at': ...}`. */
  datatype Entry<V> = Entry(value: V, expiresAt: int)

  type Store<V> = map<string, Entry<V>>

  /** The entry is present and `now < expires_at`. */
  predicate Live<V>(store: Store<V>, key: string, now: int)
  {
    key in store && now < store[key].expiresAt
  }

  /** What `get` (and, as a truth value, `exists`) answers. */
  function Read<V>(store: Store<V>, key: string, now: int): (r: Option<V>)
    ensures r.Some? <==> Live(store, key, now)
  {
    if Live(store, key, now) then Some(store[key].value) else None
  }

  /** The store after `get` or `exists`: a stale entry for `key` is dropped. */
  function Purge<V>(store: Store<V>, key: string, now: int): (r: Store<V>)
    ensures r.Keys <= store.Keys
    ensures forall k :: k in r ==> r[k] == store[k]
    ensures forall k :: k in store && k != key ==> k in r
    ensures key in r <==> Live(store, key, now)
  {
    if key in store && !Live(store, key, now) then store - {key} else store
  }

  /** `ttl or self.default_ttl`: an absent or zero TTL takes the default. */
  function EffectiveTtl(ttl: Option<int>, defaultTtl: int): int
  {
    if ttl.None? || ttl.value == 0 then defaultTtl else ttl.value
  }

  /** The store after `set(key, value, ttl)` at time `now`. */
  function Put<V>(store: Store<V>, key: string, value: V, ttl: Option<int>, defaultTtl: int, now: int): Store<V>
  {
    store[key := Entry(value, now + EffectiveTtl(ttl, defaultTtl))]
  }

  /**
   * The store after `clear(pattern)`: everything goes when there is no
   * pattern; otherwise exactly the keys holding `pattern` as a literal
   * substring (`*` is an ordinary character here).
   */
  function Cleared<V>(store: Store<V>, pattern: Option<string>): (r: Store<V>)
    ensures forall k :: k in r <==> k in store && pattern.Some? && pattern.value != "" && !Contains(k, pattern.value)
    ensures forall k :: k in r ==> r[k] == store[k]
  {
    if pattern.None? || pattern.value == "" then map[]
    else store - (set k | k in store.Keys && Contains(k, pattern.value))
  }

  /** A value set at `now` is read back until its TTL has run out, and not from then on. */
  lemma SetThenGet<V>(store: Store<V>, key: string, value: V, ttl: Option<int>, defaultTtl: int, now: int, later: int)
    ensures var after := Put(store, key, value, ttl, defaultTtl, now);
      Read(after, key, later) == if later < now + EffectiveTtl(ttl, defaultTtl) then Some(value) else None
  {
  }

  /** A zero or absent TTL lives exactly as long as the default one. */
  lemma ZeroTtlIsDefault<V>(store: Store<V>, key: string, value: V, defaultTtl: int, now: int)
    ensures Put(store, key, value, Some(0), defaultTtl, now) == Put(store, key, value, None, defaultTtl, now)
         == Put(store, key, value, Some(defaultTtl), defaultTtl, now)
  {
  }

  /** Setting, purging and clearing one key leave the reads of every other key alone. */
  lemma OtherKeysUnaffected<V>(store: Store<V>, key: string, other: string, value: V, ttl: Option<int>, defaultTtl: int, now: int, later: int)
    requires other != key
    ensures Read(Put(store, key, value, ttl, defaultTtl, now), other, later) == Read(store, other, later)
    ensures Read(Purge(store, key, now), other, later) == Read(store, other, later)
    ensures Read(store - {key}, other, later) == Read(store, other, later)
  {
  }

  /** Reading twice at the same time gives the same answer and leaves the store as the first read did. */
  lemma ReadIsIdempotent<V>(store: Store<V>, key: string, now: int)
    ensures Read(Purge(store, key, now), key, now) == Read(store, key, now)
    ensures Purge(Purge(store, key, now), key, now) == Purge(store, key, now)
  {
  }

  /** Hex characters, as in the output of `hexdigest()`. */
  predicate IsHexChar(c: char)
  {
    '0' <= c <= '9' || 'a' <= c <= 'f'
  }

  /** An MD5 hex digest: 32 lower-case hex characters. */
  predicate IsHexDigest(k: string)
  {
    |k| == 32 && forall i :: 0 <= i < |k| ==> IsHexChar(k[i])
  }

  /** The pattern `invalidate_sheet_cache` clears. */
  function SheetPattern(sheetId: string): string
  {
    "sheets_*" + sheetId + "*"
  }

  /**
   * The memory store only holds digests, and the sheet pattern starts with
   * `s`, which is not a hex character: clearing it removes nothing.
   */
  lemma SheetPatternClearsNothing<V>(store: Store<V>, sheetId: string)
    requires forall k :: k in store ==> IsHexDigest(k)
    ensures Cleared(store, Some(SheetPattern(sheetId))) == store
  {
    var p := SheetPattern(sheetId);
    forall k | k in store ensures !Contains(k, p) {
      ForeignCharNotContained(k, p, 0);
    }
  }

  // ---------------------------------------------------------------------------
  // The manager
  // ---------------------------------------------------------------------------

  /** `CacheManager` without a Redis client. */
  class CacheManager<V> {
    var defaultTtl: int
    var store: Store<V>

    constructor (defaultTtl: int)
      ensures this.defaultTtl == defaultTtl && store == map[]
    {
      this.defaultTtl := defaultTtl;
      store := map[];
    }

    /** `get`: the live value, if any; a stale entry for `key` is removed. */
    method Get(key: string, now: int) returns (r: Option<V>)
      modifies this
      ensures defaultTtl == old(defaultTtl)
      ensures r == Read(old(store), key, now) && store == Purge(old(store), key, now)
    {
      if key in store {
        var item := store[key];
        if now < item.expiresAt {
          return Some(item.value);
        } else {
          store := store - {key};
        }
      }
      return None;
    }

    /** `set`: stores `value` until `now` plus the effective TTL. */
    method Set(key: string, value: V, ttl: Option<int>, now: int) returns (ok: bool)
      modifies this
      ensures defaultTtl == old(defaultTtl)
      ensures ok && store == Put(old(store), key, value, ttl, defaultTtl, now)
    {
      var life := if ttl.None? || ttl.value == 0 then defaultTtl else ttl.value;
      store := store[key := Entry(value, now + life)];
      return true;
    }

    /** `delete`: true exactly when the key was present; only that key goes. */
    method Delete(key: string) returns (ok: bool)
      modifies this
      ensures defaultTtl == old(defaultTtl)
      ensures ok == (key in old(store)) && store == old(store) - {key}
    {
      if key in store {
        store := store - {key};
        return true;
      }
      return false;
    }

    /** `clear`: removes the matching keys one by one, or everything. */
    method Clear(pattern: Option<string>) returns (ok: bool)
      modifies this
      ensures defaultTtl == old(defaultTtl)
      ensures ok && store == Cleared(old(store), pattern)
    {
      if pattern.None? || pattern.value == "" {
        store := map[];
        return true;
      }
      var doomed := set k | k in store.Keys && Contains(k, pattern.value);
      var pending := doomed;
      while pending != {}
        invariant defaultTtl == old(defaultTtl) && pending <= doomed
        invariant store == old(store) - (doomed - pending)
        decreases pending
      {
        var k :| k in pending;
        store := store - {k};
        pending := pending - {k};
        assert store == old(store) - (doomed - pending);
      }
      return true;
    }

    /** `exists`: whether a live entry is present; a stale one is removed. */
    method Exists(key: string, now: int) returns (b: bool)
      modifies this
      ensures defaultTtl == old(defaultTtl)
      ensures b == Live(old(store), key, now) && store == Purge(old(store), key, now)
    {
      if key in store {
        var item := store[key];
        if now < item.expiresAt {
          return true;
        } else {
          store := store - {key};
        }
      }
      return false;
    }
  }

  /** `invalidate_sheet_cache`. */
  method InvalidateSheetCache<V>(cache: CacheManager<V>, sheetId: string)
    modifies cache
    ensures cache.defaultTtl == old(cache.defaultTtl)
    ensures cache.store == Cleared(old(cache.store), Some(SheetPattern(sheetId)))
  {
    var _ := cache.Clear(Some("sheets_*" + sheetId + "*"));
  }

  // ---------------------------------------------------------------------------
  // The `cached` wrapper
  // ---------------------------------------------------------------------------

  /**
   * One call through the wrapper, with the cached function's result given:
   * a live value other than `None` is returned as is (no call); anything
   * else calls the function once, stores its result and returns it. The
   * stored values are Python values, so `None` may be stored.
   */
  datatype Call<V> = Call(result: Option<V>, calls: nat, store: Store<Option<V>>)

  function CachedCall<V>(store: Store<Option<V>>, key: string, ttl: Option<int>, defaultTtl: int,
                         now: int, later: int, computed: Option<V>): Call<V>
  {
    var hit := Read(store, key, now);
    if hit.Some? && hit.value.Some? then Call(hit.value, 0, store)
    else Call(computed, 1, Put(Purge(store, key, now), key, computed, ttl, defaultTtl, later))
  }

  /** A hit returns the stored value without calling the function. */
  lemma HitSkipsCall<V>(store: Store<Option<V>>, key: string, ttl: Option<int>, defaultTtl: int,
                        now: int, later: int, computed: Option<V>, v: V)
    requires Read(store, key, now) == Some(Some(v))
    ensures CachedCall(store, key, ttl, defaultTtl, now, later, computed) == Call(Some(v), 0, store)
  {
  }

  /** A stored `None` is never a hit: the function runs again every time. */
  lemma StoredNoneIsRecomputed<V>(store: Store<Option<V>>, key: string, ttl: Option<int>, defaultTtl: int,
                                  now: int, later: int, computed: Option<V>)
    requires Read(store, key, now) == Some(None)
    ensures CachedCall(store, key, ttl, defaultTtl, now, later, computed).calls == 1
    ensures CachedCall(store, key, ttl, defaultTtl, now, later, computed).result == computed
  {
  }

  /**
   * After a miss stores a value other than `None`, a second call with the
   * same key before the TTL runs out returns it without a call.
   */
  lemma SecondCallHits<V>(store: Store<Option<V>>, key: string, ttl: Option<int>, defaultTtl: int,
                          now: int, later: int, computed: V, now2: int, later2: int, computed2: Option<V>)
    requires Read(store, key, now) == None || Read(store, key, now) == Some(None)
    requires now2 < later + EffectiveTtl(ttl, defaultTtl)
    ensures var first := CachedCall(store, key, ttl, defaultTtl, now, later, Some(computed));
      && first.calls == 1
      && CachedCall(first.store, key, ttl, defaultTtl, now2, later2, computed2) == Call(Some(computed), 0, first.store)
  {
  }

  /** `wrapper` in `cached`, for a function whose result is computed by `func`. */
  method Cached<V>(cache: CacheManager<Option<V>>, key: string, ttl: Option<int>, now: int, later: int, func: () -> Option<V>)
    returns (result: Option<V>, calls: nat)
    modifies cache
    ensures cache.defaultTtl == old(cache.defaultTtl)
    ensures Call(result, calls, cache.store) == CachedCall(old(cache.store), key, ttl, cache.defaultTtl, now, later, func())
  {
    calls := 0;
    var hit := cache.Get(key, now);
    if hit.Some? && hit.value.Some? {
      return hit.value, calls;
    }
    result := func();
    calls := calls + 1;
    var _ := cache.Set(key, result, ttl, later);
  }
}
