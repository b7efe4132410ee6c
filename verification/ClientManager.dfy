/** The client manager itself: cache entries are objects, changed in place under the lock. */
module ClientManager {
  import opened Prelude
  import opened ClientCache

  class CacheEntry {
    const client: nat
    var lastUsed: real
    var expiresAt: Option<real>
    var borrowCount: nat
    var pendingEviction: bool

    constructor (client: nat, lastUsed: real, expiresAt: Option<real>)
      ensures View() == Slot(client, lastUsed, expiresAt, 0, false)
    {
      this.client, this.lastUsed, this.expiresAt := client, lastUsed, expiresAt;
      borrowCount, pendingEviction := 0, false;
    }

    function View(): Slot
      reads this
    {
      Slot(client, lastUsed, expiresAt, borrowCount, pendingEviction)
    }
  }

  /** The clients taken out since `before`, listed once each. */
  ghost predicate Lists(closing: seq<nat>, before: Table, after: Table) {
    multiset(closing) == multiset(Gone(before, after))
  }

  /** Sweeping key by key is sweeping all keys. */
  lemma SweepOneMore(t: Table, done: set<string>, key: string, p: Pass)
    requires key !in done
    ensures Sweep(Sweep(t, done, p), {key}, p) == Sweep(t, done + {key}, p)
    ensures key in Sweep(t, done, p) <==> key in t
  {
  }

  lemma ListOneMore(closing: seq<nat>, before: Table, now: Table, after: Table, key: string)
    requires Distinct(before) && Lists(closing, before, now) && key in now && now.Keys <= before.Keys
    requires forall k | k in now :: now[k].client == before[k].client
    requires after.Keys == now.Keys - {key}
    ensures Lists(closing + [now[key].client], before, after)
  {
    assert Gone(before, after) == Gone(before, now) + {now[key].client};
    assert now[key].client !in Gone(before, now);
  }

  lemma ListBoth(swept: seq<nat>, trimmed: seq<nat>, before: Table, mid: Table, after: Table)
    requires Distinct(before) && Lists(swept, before, mid) && Lists(trimmed, mid, after)
    requires after.Keys <= mid.Keys <= before.Keys && forall k | k in mid :: mid[k].client == before[k].client
    ensures Lists(swept + trimmed, before, after)
  {
    assert Gone(before, after) == Gone(before, mid) + Gone(mid, after);
    assert Gone(before, mid) !! Gone(mid, after);
  }

  lemma TrimsKeeps(t: Table, maxsize: int, p: Pass, after: Table)
    requires Trims(t, maxsize, p, after)
    ensures after.Keys <= t.Keys
  {
    if NeedsTrim(t, maxsize) {
      var order :| LruOrder(t, order) && after == Trim(t, maxsize, order, p);
      TrimKeeps(t, maxsize, order, p);
    }
  }

  /** The table with the entry of the url made or renewed, and borrowed once more. */
  function Occupied(limits: Limits, t: Table, next: nat, url: string, now: real): (after: Table)
    ensures url in after
  {
    t[url := if url in t then Slot(t[url].client, now, Expiry(limits, now), t[url].borrows + 1, false)
             else Slot(next, now, Expiry(limits, now), 1, false)]
  }

  lemma OccupiedInTwo(limits: Limits, t: Table, next: nat, url: string, now: real, ready: Table)
    requires ready == t[url :=
      if url in t then t[url].(lastUsed := now, expiresAt := Expiry(limits, now), pending := false)
      else Slot(next, now, Expiry(limits, now), 0, false)]
    ensures Occupied(limits, t, next, url, now) == ready[url := ready[url].(borrows := ready[url].borrows + 1)]
  {
  }

  lemma LendOccupies(limits: Limits, w: World, url: string, now: real)
    ensures var v, after := Lend(limits, w, url, now), Occupied(limits, w.table, w.next, url, now);
      && v.table == after && v.next == w.next + (if url in w.table then 0 else 1)
      && v.borrowed == w.borrowed + multiset{Cached(url, after[url].client)}
  {
  }

  /** All keys but the `todo` ones are listed, by last use, and the others were used no earlier. */
  ghost predicate LruSoFar(t: Table, order: seq<string>, todo: set<string>) {
    && Unique(order) && todo <= t.Keys && (forall k :: k in order <==> k in t && k !in todo)
    && (forall i, j | 0 <= i < j < |order| :: t[order[i]].lastUsed <= t[order[j]].lastUsed)
    && (forall i, k | 0 <= i < |order| && k in todo :: t[order[i]].lastUsed <= t[k].lastUsed)
  }

  lemma LruOneMore(t: Table, order: seq<string>, todo: set<string>, key: string)
    requires LruSoFar(t, order, todo) && key in todo
    requires forall k | k in todo :: t[key].lastUsed <= t[k].lastUsed
    ensures LruSoFar(t, order + [key], todo - {key})
  {
  }

  lemma OldestExists(t: Table, keys: set<string>)
    requires keys <= t.Keys && keys != {}
    ensures exists key :: key in keys && forall k | k in keys :: t[key].lastUsed <= t[k].lastUsed
  {
    var key :| key in keys;
    if keys != {key} {
      OldestExists(t, keys - {key});
      var first :| first in keys - {key} && forall k | k in keys - {key} :: t[first].lastUsed <= t[k].lastUsed;
      var oldest := if t[first].lastUsed <= t[key].lastUsed then first else key;
      assert forall k | k in keys :: t[oldest].lastUsed <= t[k].lastUsed;
    }
  }

  lemma SameSize<V, W>(m: map<string, V>, n: map<string, W>)
    requires m.Keys == n.Keys
    ensures |m| == |n|
  {
    assert |m| == |m.Keys| && |n| == |n.Keys|;
  }

  lemma TailUnique(rest: seq<string>)
    requires Unique(rest) && rest != []
    ensures Unique(rest[1..])
    ensures forall k | k in rest[1..] :: k in rest && k != rest[0]
  {
  }

  class A2AClientManager {
    const limits: Limits
    var clients: map<string, CacheEntry>
    var made: nat
    /** What the entries say. */
    ghost var table: Table
    ghost var Repr: set<CacheEntry>

    constructor (limits: Limits)
      ensures Valid() && this.limits == limits && made == 0 && table == map[]
    {
      this.limits := limits;
      clients, made, table, Repr := map[], 0, map[], {};
    }

    /** Different keys hold different entry objects, and the ghost table mirrors them. */
    ghost predicate Valid()
      reads this, Repr
    {
      && clients.Keys == table.Keys
      && (forall k | k in clients :: clients[k] in Repr && clients[k].View() == table[k])
      && (forall j, k | j in clients && k in clients && j != k :: clients[j] != clients[k])
    }

    method Mark(key: string)
      requires Valid() && key in clients
      modifies this`table, clients[key]
      ensures Valid() && table == old(table)[key := old(table)[key].(pending := true)]
    {
      clients[key].pendingEviction := true;
      table := table[key := table[key].(pending := true)];
    }

    method Remove(key: string) returns (client: nat)
      requires Valid() && key in clients
      modifies this`clients, this`table
      ensures Valid() && clients == old(clients) - {key}
      ensures table == old(table) - {key} && client == old(table)[key].client
    {
      client := clients[key].client;
      clients := clients - {key};
      table := table - {key};
    }

    method SweepOne(key: string, p: Pass) returns (swept: seq<nat>)
      requires Valid() && key in clients
      modifies this`clients, this`table, clients[key]
      ensures Valid() && (clients == old(clients) || clients == old(clients) - {key})
      ensures table == Sweep(old(table), {key}, p)
      ensures swept == if key in clients then [] else [old(table)[key].client]
    {
      swept := [];
      var entry := clients[key];
      var expired := entry.expiresAt.Some? && entry.expiresAt.value <= p.now;
      if expired || entry.pendingEviction {
        if key in p.protected || entry.borrowCount > 0 || entry.client in p.busy {
          Mark(key);
        } else {
          var client := Remove(key);
          swept := [client];
        }
      }
    }

    /** Where a sweep stands: all but the `todo` keys are done. */
    ghost predicate Sweeping(before: Table, todo: set<string>, p: Pass, swept: seq<nat>)
      reads this, Repr
    {
      && Valid() && todo <= clients.Keys
      && table == Sweep(before, before.Keys - todo, p)
      && Lists(swept, before, table)
    }

    method SweepNext(ghost before: Table, todo: set<string>, key: string, p: Pass, swept: seq<nat>)
      returns (more: seq<nat>)
      requires Sweeping(before, todo, p, swept) && key in todo && Distinct(before)
      modifies this`clients, this`table, Repr
      ensures Sweeping(before, todo - {key}, p, more)
    {
      ghost var now, done := table, before.Keys - todo;
      SweepOneMore(before, done, key, p);
      assert done + {key} == before.Keys - (todo - {key});
      var one := SweepOne(key, p);
      more := swept + one;
      if key !in clients {
        ListOneMore(swept, before, now, table, key);
      } else {
        assert Gone(before, table) == Gone(before, now);
      }
    }

    method SweepStale(p: Pass) returns (swept: seq<nat>)
      requires Valid() && Distinct(table)
      modifies this`clients, this`table, Repr
      ensures Sweeping(old(table), {}, p, swept)
    {
      swept := [];
      var todo := clients.Keys;
      ghost var before := table;
      assert Sweep(before, {}, p) == before;
      while todo != {}
        invariant Sweeping(before, todo, p, swept)
        decreases todo
      {
        var key :| key in todo;
        swept := SweepNext(before, todo, key, p, swept);
        todo := todo - {key};
      }
    }

    // -------------------------------------------------------------- least recently used first

    /** The keys by last use. */
    method ByLastUse() returns (order: seq<string>)
      requires Valid()
      ensures LruOrder(table, order)
    {
      order := [];
      var todo := clients.Keys;
      while todo != {}
        invariant todo <= clients.Keys && LruSoFar(table, order, todo)
        decreases todo
      {
        OldestExists(table, todo);
        var key :| key in todo && forall k | k in todo :: clients[key].lastUsed <= clients[k].lastUsed;
        assert forall k | k in todo :: table[key].lastUsed <= table[k].lastUsed;
        LruOneMore(table, order, todo, key);
        order := order + [key];
        todo := todo - {key};
      }
    }

    /** Where trimming stands: the rest of the order is still to do. */
    ghost predicate Trimming(before: Table, order: seq<string>, rest: seq<string>, p: Pass, trimmed: seq<nat>)
      reads this, Repr
    {
      && Valid()
      && Unique(order) && (forall k | k in order :: k in before)
      && Unique(rest) && (forall k | k in rest :: k in table)
      && Trim(table, limits.maxsize, rest, p) == Trim(before, limits.maxsize, order, p)
      && table.Keys <= before.Keys
      && (forall k | k in table :: table[k].client == before[k].client)
      && Lists(trimmed, before, table)
    }

    method TrimNext(ghost before: Table, ghost order: seq<string>, rest: seq<string>, p: Pass, trimmed: seq<nat>)
      returns (more: seq<nat>)
      requires Trimming(before, order, rest, p, trimmed) && Distinct(before)
      requires rest != [] && |clients| > limits.maxsize
      modifies this`clients, this`table, Repr
      ensures Trimming(before, order, rest[1..], p, more)
    {
      more := trimmed;
      var key := rest[0];
      ghost var now := table;
      SameSize(clients, table);
      TailUnique(rest);
      if key !in p.protected {
        if clients[key].borrowCount > 0 || clients[key].client in p.busy {
          Mark(key);
          assert Gone(before, table) == Gone(before, now);
        } else {
          var client := Remove(key);
          more := more + [client];
          ListOneMore(trimmed, before, now, table, key);
        }
      }
    }

    method TrimOldest(order: seq<string>, p: Pass) returns (trimmed: seq<nat>)
      requires Valid() && Distinct(table) && LruOrder(table, order)
      modifies this`clients, this`table, Repr
      ensures Valid() && table == Trim(old(table), limits.maxsize, order, p) && Lists(trimmed, old(table), table)
    {
      trimmed := [];
      var rest := order;
      ghost var before := table;
      while rest != [] && |clients| > limits.maxsize
        invariant Trimming(before, order, rest, p, trimmed)
        decreases |rest|
      {
        trimmed := TrimNext(before, order, rest, p, trimmed);
        rest := rest[1..];
      }
      SameSize(clients, table);
    }

    method AnyMarked() returns (any: bool)
      requires Valid()
      ensures any == AnyPending(table)
    {
      any := exists k | k in clients :: clients[k].pendingEviction;
      assert forall k | k in clients :: clients[k].pendingEviction == table[k].pending;
    }

    /** The second phase, when there is one. */
    method TrimToFit(p: Pass) returns (trimmed: seq<nat>)
      requires Valid() && Distinct(table)
      modifies this`clients, this`table, Repr
      ensures Valid() && Trims(old(table), limits.maxsize, p, table) && Lists(trimmed, old(table), table)
    {
      trimmed := [];
      SameSize(clients, table);
      var any := AnyMarked();
      if 0 < limits.maxsize < |clients| && !any {
        var order := ByLastUse();
        trimmed := TrimOldest(order, p);
      }
    }

    method EvictLocked(p: Pass) returns (toClose: seq<nat>)
      requires Valid() && Distinct(table)
      modifies this`clients, this`table, Repr
      ensures Valid()
      ensures Evicts(old(table), limits.maxsize, p, table) && Lists(toClose, old(table), table)
    {
      ghost var before := table;
      toClose := SweepStale(p);
      ghost var swept := table;
      assert swept == Sweep(before, before.Keys, p) by {
        assert before.Keys - {} == before.Keys;
      }
      var trimmed := TrimToFit(p);
      TrimsKeeps(swept, limits.maxsize, p, table);
      ListBoth(toClose, trimmed, before, swept, table);
      toClose := toClose + trimmed;
    }

    // -------------------------------------------------------------- borrow and return

    /** Every entry was made with a client of its own. */
    ghost predicate Issued()
      reads this`Repr, this`made
    {
      && (forall e | e in Repr :: e.client < made)
      && (forall e, f | e in Repr && f in Repr && e.client == f.client :: e == f)
    }

    /** The manager is where the history `w` says it is. */
    ghost predicate Shows(w: World)
      reads this, Repr
    {
      Valid() && Issued() && w.table == table && w.next == made
    }

    lemma ShownDistinct(w: World)
      requires Shows(w)
      ensures Distinct(table)
    {
    }

    method Evict(p: Pass, ghost w: World) returns (toClose: seq<nat>, ghost w': World)
      requires Shows(w)
      modifies this`clients, this`table, Repr
      ensures Shows(w') && EvictStep(limits, w, p, w') && w'.closes == w.closes + multiset(toClose)
    {
      ShownDistinct(w);
      toClose := EvictLocked(p);
      w' := WithTable(w, table, Gone(w.table, table));
    }

    method DropExpired(url: string, now: real, busy: set<nat>, ghost w: World)
      returns (toClose: seq<nat>, ghost w': World)
      requires Shows(w)
      modifies this`clients, this`table, Repr
      ensures Shows(w') && w' == Expired(w, url, now, busy) && w'.closes == w.closes + multiset(toClose)
    {
      toClose, w' := [], Expired(w, url, now, busy);
      if url in clients && clients[url].expiresAt.Some? && clients[url].expiresAt.value <= now {
        if clients[url].borrowCount > 0 || clients[url].client in busy {
          Mark(url);
        } else {
          var client := Remove(url);
          toClose := [client];
        }
      }
    }

    method Install(url: string, now: real)
      requires Valid() && Issued() && url !in clients
      modifies this
      ensures Valid() && Issued() && fresh(Repr - old(Repr)) && made == old(made) + 1
      ensures table == old(table)[url := Slot(old(made), now, Expiry(limits, now), 0, false)]
    {
      var entry := new CacheEntry(made, now, Expiry(limits, now));
      made := made + 1;
      Repr := Repr + {entry};
      clients := clients[url := entry];
      table := table[url := entry.View()];
    }

    method Renew(url: string, now: real)
      requires Valid() && url in clients
      modifies this`table, clients[url]
      ensures Valid()
      ensures table
        == old(table)[url := old(table)[url].(lastUsed := now, expiresAt := Expiry(limits, now), pending := false)]
    {
      var entry := clients[url];
      entry.lastUsed, entry.expiresAt, entry.pendingEviction := now, Expiry(limits, now), false;
      table := table[url := entry.View()];
    }

    method CountBorrow(url: string) returns (entry: CacheEntry)
      requires Valid() && url in clients
      modifies this`table, clients[url]
      ensures Valid() && entry in Repr && entry.client == old(table)[url].client
      ensures table == old(table)[url := old(table)[url].(borrows := old(table)[url].borrows + 1)]
    {
      entry := clients[url];
      entry.borrowCount := entry.borrowCount + 1;
      table := table[url := entry.View()];
    }

    method InstallOrRenew(url: string, now: real)
      requires Valid() && Issued()
      modifies this, Repr
      ensures Valid() && Issued() && fresh(Repr - old(Repr)) && url in clients
      ensures made == old(made) + (if url in old(table) then 0 else 1)
      ensures table == old(table)[url :=
        if url in old(table) then old(table)[url].(lastUsed := now, expiresAt := Expiry(limits, now), pending := false)
        else Slot(old(made), now, Expiry(limits, now), 0, false)]
    {
      if url !in clients {
        Install(url, now);
      } else {
        Renew(url, now);
      }
    }

    /** The entry is there and borrowed once more. */
    method Occupy(url: string, now: real) returns (entry: CacheEntry)
      requires Valid() && Issued()
      modifies this, Repr
      ensures Valid() && Issued() && fresh(Repr - old(Repr)) && entry in Repr
      ensures made == old(made) + (if url in old(table) then 0 else 1)
      ensures table == Occupied(limits, old(table), old(made), url, now) && entry.client == table[url].client
    {
      InstallOrRenew(url, now);
      ghost var ready := table;
      entry := CountBorrow(url);
      OccupiedInTwo(limits, old(table), old(made), url, now, ready);
      hide Occupied;
    }

    method LendEntry(url: string, now: real, ghost w: World) returns (entry: CacheEntry, ghost w': World)
      requires Shows(w)
      modifies this, Repr
      ensures Shows(w') && w' == Lend(limits, w, url, now)
      ensures fresh(Repr - old(Repr)) && entry in Repr
      ensures w'.borrowed == w.borrowed + multiset{Cached(url, entry.client)}
    {
      entry := Occupy(url, now);
      w' := Lend(limits, w, url, now);
      LendOccupies(limits, w, url, now);
      hide Lend, Occupied;
    }

    /** Up to the lookup: an expired entry goes, then a first eviction pass. */
    method MakeRoom(url: string, now: real, busy: set<nat>, ghost w: World)
      returns (toClose: seq<nat>, ghost w': World)
      requires Shows(w)
      modifies this`clients, this`table, Repr
      ensures Shows(w') && EvictStep(limits, Expired(w, url, now, busy), Pass(now, {url}, busy), w')
      ensures w'.closes == w.closes + multiset(toClose)
    {
      ghost var dropped;
      var stale;
      toClose, dropped := DropExpired(url, now, busy, w);
      stale, w' := Evict(Pass(now, {url}, busy), dropped);
      toClose := toClose + stale;
    }

    method LendAndEvict(url: string, now: real, busy: set<nat>, ghost w: World)
      returns (entry: CacheEntry, toClose: seq<nat>, ghost w': World)
      requires Shows(w)
      modifies this, Repr
      ensures Shows(w') && EvictStep(limits, Lend(limits, w, url, now), Pass(now, {url}, busy), w')
      ensures w'.closes == w.closes + multiset(toClose) && fresh(Repr - old(Repr)) && entry in Repr
      ensures w'.borrowed == w.borrowed + multiset{Cached(url, entry.client)}
    {
      ghost var full;
      entry, full := LendEntry(url, now, w);
      toClose, w' := Evict(Pass(now, {url}, busy), full);
    }

    method BorrowCached(url: string, now: real, busy: set<nat>, ghost w: World)
      returns (entry: CacheEntry, toClose: seq<nat>, ghost w': World)
      requires Shows(w) && 0 < limits.maxsize
      modifies this, Repr
      ensures Shows(w') && Step(limits, w, Borrow(url, now, busy), w')
      ensures fresh(Repr - old(Repr)) && w'.closes == w.closes + multiset(toClose)
      ensures entry in Repr && w'.borrowed == w.borrowed + multiset{Cached(url, entry.client)}
    {
      ghost var mid;
      var excess;
      hide EvictStep, Expired, Lend;
      toClose, mid := MakeRoom(url, now, busy, w);
      entry, excess, w' := LendAndEvict(url, now, busy, mid);
      BorrowInTwo(limits, w, url, now, busy, mid, w');
      hide Step;
      toClose := toClose + excess;
    }

    method BorrowClient(url: string, now: real, busy: set<nat>, ghost w: World)
      returns (client: nat, lent: Option<CacheEntry>, toClose: seq<nat>, ghost w': World)
      requires Shows(w)
      modifies this, Repr
      ensures Shows(w') && Step(limits, w, Borrow(url, now, busy), w')
      ensures fresh(Repr - old(Repr)) && w'.closes == w.closes + multiset(toClose)
      ensures match lent
        case None => w'.borrowed == w.borrowed + multiset{Direct(client)}
        case Some(entry) =>
          entry in Repr && entry.client == client
          && w'.borrowed == w.borrowed + multiset{Cached(url, client)}
    {
      if limits.maxsize <= 0 {
        client, lent, toClose, made := made, None, [], made + 1;
        w' := w.(borrowed := w.borrowed + multiset{Direct(w.next)}, next := w.next + 1);
      } else {
        var entry;
        entry, toClose, w' := BorrowCached(url, now, busy, w);
        client, lent := entry.client, Some(entry);
      }
    }

    method CountReturn(url: string, now: real)
      requires Valid() && url in clients
      modifies this`table, clients[url]
      ensures Valid()
      ensures var s := old(table)[url];
        table == old(table)[url :=
          s.(borrows := if s.borrows > 0 then s.borrows - 1 else 0, lastUsed := now, expiresAt := Expiry(limits, now))]
    {
      var entry := clients[url];
      if entry.borrowCount > 0 {
        entry.borrowCount := entry.borrowCount - 1;
      }
      entry.lastUsed, entry.expiresAt := now, Expiry(limits, now);
      table := table[url := entry.View()];
    }

    /** The borrow ends; `entry` is the object that was lent. */
    method GiveBackEntry(url: string, entry: CacheEntry, now: real, ghost w: World) returns (ghost w': World)
      requires Shows(w) && entry in Repr
      modifies this`table, Repr
      ensures Shows(w') && w' == GiveBack(limits, w, url, entry.client, now)
    {
      if url in clients && clients[url] == entry {
        CountReturn(url, now);
      }
      w' := GiveBack(limits, w, url, entry.client, now);
    }

    method ReturnClient(url: string, entry: CacheEntry, now: real, busy: set<nat>, ghost w: World)
      returns (toClose: seq<nat>, ghost w': World)
      requires Shows(w) && entry in Repr && Cached(url, entry.client) in w.borrowed
      modifies this`clients, this`table, Repr
      ensures Shows(w') && Step(limits, w, Return(Cached(url, entry.client), now, busy), w')
      ensures w'.closes == w.closes + multiset(toClose)
    {
      ghost var back := GiveBackEntry(url, entry, now, w);
      toClose, w' := Evict(Pass(now, {}, busy), back);
    }

    method CloseAll(ghost w: World) returns (toClose: seq<nat>, ghost w': World)
      requires Shows(w)
      modifies this`clients, this`table
      ensures Shows(w') && Step(limits, w, Op.CloseAll, w') && w'.closes == w.closes + multiset(toClose)
    {
      ghost var all := Gone(w.table, map[]);
      w' := WithTable(w, map[], all).(shutdown := w.shutdown + all);
      toClose := [];
      ShownDistinct(w);
      while clients.Keys != {}
        invariant Valid() && Distinct(w.table) && Lists(toClose, w.table, table)
        invariant table.Keys <= w.table.Keys && forall k | k in table :: table[k].client == w.table[k].client
        decreases clients.Keys
      {
        ghost var now := table;
        var key :| key in clients.Keys;
        var client := Remove(key);
        toClose := toClose + [client];
        ListOneMore(toClose[..|toClose| - 1], w.table, now, table, key);
      }
    }
  }
}
