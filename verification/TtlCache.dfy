/** The bounded cache with expiry that the process-local state is kept in. */
module TtlCache {
  import opened Prelude

  /** A disabled cache has no lifetime or no room. */
  datatype Config = Config(ttl: int, maxsize: int, refreshOnGet: bool) {
    predicate Disabled() {
      ttl <= 0 || maxsize <= 0
    }
  }

  datatype Entry = Entry(value: string, expiresAt: real)

  /** A dictionary: its entries, and its keys in the order they were inserted. */
  datatype Store = Store(entries: map<string, Entry>, order: seq<string>)

  function Renewal(c: Config, now: real): real {
    now + c.ttl as real
  }

  function Without(order: seq<string>, keys: set<string>): seq<string> {
    if order == [] then []
    else if order[0] in keys then Without(order[1..], keys)
    else [order[0]] + Without(order[1..], keys)
  }

  function Drop(s: Store, keys: set<string>): Store {
    Store(s.entries - keys, Without(s.order, keys))
  }

  function Put(s: Store, key: string, e: Entry): Store {
    Store(s.entries[key := e], if key in s.entries then s.order else s.order + [key])
  }

  function Over(s: Store, now: real): set<string> {
    set k | k in s.entries && s.entries[k].expiresAt <= now
  }

  // ---------------------------------------------------------------- a stable sort by expiry

  /** Puts a key after those that expire no later. */
  function Insert(entries: map<string, Entry>, ranked: seq<string>, key: string): (all: seq<string>)
    requires key in entries && forall k | k in ranked :: k in entries
    ensures |all| == |ranked| + 1
  {
    if ranked == [] || entries[ranked[|ranked| - 1]].expiresAt <= entries[key].expiresAt then ranked + [key]
    else Insert(entries, ranked[..|ranked| - 1], key) + [ranked[|ranked| - 1]]
  }

  function Ranked(entries: map<string, Entry>, order: seq<string>): (ranked: seq<string>)
    requires forall k | k in order :: k in entries
    ensures |ranked| == |order| && multiset(ranked) == multiset(order) && forall k | k in ranked :: k in entries
  {
    if order == [] then [] else
      var most, last := order[..|order| - 1], order[|order| - 1];
      assert order == most + [last];
      InsertKeeps(entries, Ranked(entries, most), last);
      Insert(entries, Ranked(entries, most), last)
  }

  predicate ByExpiry(entries: map<string, Entry>, keys: seq<string>)
    requires forall k | k in keys :: k in entries
  {
    forall i, j | 0 <= i < j < |keys| :: entries[keys[i]].expiresAt <= entries[keys[j]].expiresAt
  }

  lemma {:induction false} InsertKeeps(entries: map<string, Entry>, ranked: seq<string>, key: string)
    requires key in entries && forall k | k in ranked :: k in entries
    ensures var all := Insert(entries, ranked, key);
      multiset(all) == multiset(ranked) + multiset{key} && forall k | k in all :: k in entries
  {
    if ranked != [] && entries[ranked[|ranked| - 1]].expiresAt > entries[key].expiresAt {
      InsertKeeps(entries, ranked[..|ranked| - 1], key);
      assert ranked == ranked[..|ranked| - 1] + [ranked[|ranked| - 1]];
    }
    forall k | k in Insert(entries, ranked, key)
      ensures k in entries
    {
      assert k in multiset(Insert(entries, ranked, key));
    }
  }

  predicate AllBy(entries: map<string, Entry>, keys: seq<string>, time: real)
    requires forall k | k in keys :: k in entries
  {
    forall k | k in keys :: entries[k].expiresAt <= time
  }

  lemma LastIsLatest(entries: map<string, Entry>, keys: seq<string>)
    requires (forall k | k in keys :: k in entries) && ByExpiry(entries, keys) && keys != []
    ensures AllBy(entries, keys, entries[keys[|keys| - 1]].expiresAt)
    ensures AllBy(entries, keys[..|keys| - 1], entries[keys[|keys| - 1]].expiresAt)
  {
  }

  lemma AppendSorts(entries: map<string, Entry>, keys: seq<string>, key: string)
    requires key in entries && (forall k | k in keys :: k in entries)
    requires ByExpiry(entries, keys) && AllBy(entries, keys, entries[key].expiresAt)
    ensures (forall k | k in keys + [key] :: k in entries) && ByExpiry(entries, keys + [key])
  {
  }

  lemma {:induction false} InsertSorts(entries: map<string, Entry>, ranked: seq<string>, key: string)
    requires key in entries && (forall k | k in ranked :: k in entries) && ByExpiry(entries, ranked)
    ensures (forall k | k in Insert(entries, ranked, key) :: k in entries)
      && ByExpiry(entries, Insert(entries, ranked, key))
  {
    InsertKeeps(entries, ranked, key);
    if ranked == [] {
      AppendSorts(entries, ranked, key);
    } else {
      LastIsLatest(entries, ranked);
      var most, last := ranked[..|ranked| - 1], ranked[|ranked| - 1];
      if entries[last].expiresAt <= entries[key].expiresAt {
        AppendSorts(entries, ranked, key);
      } else {
        InsertSorts(entries, most, key);
        InsertKeeps(entries, most, key);
        forall k | k in Insert(entries, most, key)
          ensures entries[k].expiresAt <= entries[last].expiresAt
        {
          assert k in multiset(most) + multiset{key};
        }
        AppendSorts(entries, Insert(entries, most, key), last);
      }
    }
  }

  lemma {:induction false} RankedSorts(entries: map<string, Entry>, order: seq<string>)
    requires forall k | k in order :: k in entries
    ensures ByExpiry(entries, Ranked(entries, order))
  {
    if order != [] {
      RankedSorts(entries, order[..|order| - 1]);
      InsertSorts(entries, Ranked(entries, order[..|order| - 1]), order[|order| - 1]);
    }
  }

  // ---------------------------------------------------------------- operations

  function SetOf(keys: seq<string>): set<string> {
    set k | k in keys
  }

  function Evict(c: Config, s: Store, now: real): Store
    requires OrderOk(s) && 0 <= c.maxsize
  {
    if |s.order| <= c.maxsize then s else
      var live := Drop(s, Over(s, now));
      DropOk(s, Over(s, now));
      if |live.order| <= c.maxsize then live
      else Drop(live, SetOf(Overflow(c, live)))
  }

  /** The keys that go because there is no room: the first to expire. */
  function Overflow(c: Config, s: Store): seq<string>
    requires OrderOk(s) && 0 <= c.maxsize <= |s.order|
  {
    Ranked(s.entries, s.order)[..|s.order| - c.maxsize]
  }

  function Looked(c: Config, s: Store, key: string, now: real): (Store, Option<string>) {
    if c.Disabled() || key !in s.entries then (s, None) else
      var e := s.entries[key];
      if e.expiresAt <= now then (Drop(s, {key}), None)
      else (if c.refreshOnGet then Put(s, key, Entry(e.value, Renewal(c, now))) else s, Some(e.value))
  }

  function Kept(c: Config, s: Store, key: string, value: string, now: real): Store
    requires OrderOk(s)
  {
    if c.Disabled() then s else
      PutOk(s, key, Entry(value, Renewal(c, now)));
      Evict(c, Put(s, key, Entry(value, Renewal(c, now))), now)
  }

  predicate Unique(keys: seq<string>) {
    forall i, j | 0 <= i < j < |keys| :: keys[i] != keys[j]
  }

  /** The order lists the keys once each. */
  ghost predicate OrderOk(s: Store) {
    Unique(s.order) && forall k :: k in s.order <==> k in s.entries
  }

  lemma {:induction false} WithoutShape(order: seq<string>, keys: set<string>)
    requires Unique(order)
    ensures Unique(Without(order, keys))
    ensures forall k :: k in Without(order, keys) <==> k in order && k !in keys
    ensures keys <= SetOf(order) ==> |Without(order, keys)| == |order| - |keys|
  {
    if order != [] {
      var rest := order[1..];
      assert order[0] !in rest;
      assert order == [order[0]] + rest;
      WithoutShape(rest, keys);
      if order[0] in keys {
        WithoutShape(rest, keys - {order[0]});
        WithoutAbsent(rest, keys, order[0]);
      }
    } else if keys <= SetOf(order) {
      assert keys == {};
    }
  }

  lemma {:induction false} WithoutAbsent(order: seq<string>, keys: set<string>, key: string)
    requires key !in order
    ensures Without(order, keys - {key}) == Without(order, keys)
  {
    if order != [] {
      WithoutAbsent(order[1..], keys, key);
    }
  }

  lemma {:induction false} WithoutTwice(order: seq<string>, first: set<string>, second: set<string>)
    ensures Without(Without(order, first), second) == Without(order, first + second)
  {
    if order != [] {
      WithoutTwice(order[1..], first, second);
    }
  }

  lemma {:induction false} WithoutNone(order: seq<string>)
    ensures Without(order, {}) == order
  {
    if order != [] {
      WithoutNone(order[1..]);
    }
  }

  lemma DropOk(s: Store, keys: set<string>)
    requires OrderOk(s)
    ensures OrderOk(Drop(s, keys))
    ensures keys <= s.entries.Keys ==> |Drop(s, keys).order| == |s.order| - |keys|
  {
    WithoutShape(s.order, keys);
    assert SetOf(s.order) == s.entries.Keys;
  }

  lemma PutOk(s: Store, key: string, e: Entry)
    requires OrderOk(s)
    ensures OrderOk(Put(s, key, e))
  {
  }

  class Cache {
    const c: Config
    var entries: map<string, Entry>
    var order: seq<string>

    constructor (c: Config)
      ensures this.c == c && View() == Store(map[], []) && OrderOk(View())
    {
      this.c := c;
      entries, order := map[], [];
    }

    ghost function View(): Store
      reads this
    {
      Store(entries, order)
    }

    method Pop(key: string)
      modifies this
      ensures View() == Drop(old(View()), {key})
    {
      entries, order := entries - {key}, Without(order, {key});
    }

    /** Pops the keys one after the other. */
    method PopAll(keys: seq<string>)
      modifies this
      ensures View() == Drop(old(View()), SetOf(keys))
    {
      var i := 0;
      WithoutNone(order);
      assert SetOf(keys[..0]) == {};
      while i < |keys|
        invariant 0 <= i <= |keys|
        invariant View() == Drop(old(View()), SetOf(keys[..i]))
      {
        WithoutTwice(old(order), SetOf(keys[..i]), {keys[i]});
        assert SetOf(keys[..i + 1]) == SetOf(keys[..i]) + {keys[i]};
        Pop(keys[i]);
        i := i + 1;
      }
      assert keys[..i] == keys;
    }

    /** The keys whose time is over, in dictionary order. */
    method Expired(now: real) returns (keys: seq<string>)
      requires OrderOk(View())
      ensures SetOf(keys) == Over(View(), now)
    {
      keys := [];
      for i := 0 to |order|
        invariant SetOf(keys) == set k | k in order[..i] && entries[k].expiresAt <= now
      {
        assert order[..i + 1] == order[..i] + [order[i]];
        if entries[order[i]].expiresAt <= now {
          assert SetOf(keys + [order[i]]) == SetOf(keys) + {order[i]};
          keys := keys + [order[i]];
        }
      }
      assert order[..|order|] == order;
    }

    method EvictIfNeeded(now: real)
      requires OrderOk(View()) && 0 <= c.maxsize
      modifies this
      ensures View() == Evict(c, old(View()), now)
    {
      if |order| <= c.maxsize {
        return;
      }
      var expired := Expired(now);
      DropOk(View(), SetOf(expired));
      PopAll(expired);
      if |order| <= c.maxsize {
        return;
      }
      PopAll(Overflow(c, Store(entries, order)));
    }

    method Get(key: string, now: real) returns (value: Option<string>)
      requires OrderOk(View())
      modifies this
      ensures (View(), value) == Looked(c, old(View()), key, now) && OrderOk(View())
    {
      if c.Disabled() || key !in entries {
        return None;
      }
      var e := entries[key];
      if e.expiresAt <= now {
        DropOk(View(), {key});
        Pop(key);
        return None;
      }
      if c.refreshOnGet {
        entries := entries[key := Entry(e.value, Renewal(c, now))];
      }
      return Some(e.value);
    }

    method Set(key: string, value: string, now: real)
      requires OrderOk(View())
      modifies this
      ensures View() == Kept(c, old(View()), key, value, now)
    {
      if c.Disabled() {
        return;
      }
      PutOk(View(), key, Entry(value, Renewal(c, now)));
      if key !in entries {
        order := order + [key];
      }
      entries := entries[key := Entry(value, Renewal(c, now))];
      EvictIfNeeded(now);
    }
  }
}
