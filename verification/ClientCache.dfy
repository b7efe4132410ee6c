/** The outbound client cache: what one eviction pass, borrow and return do to the table.
    Clients are numbered in the order they are made; a number is the identity of a cache
    entry as well, since every entry is made with its own client. */
module ClientCache {
  import opened Prelude

  datatype Slot = Slot(client: nat, lastUsed: real, expiresAt: Option<real>, borrows: nat, pending: bool)

  type Table = map<string, Slot>

  /** What an eviction pass is told: the time, the protected keys and the busy clients. */
  datatype Pass = Pass(now: real, protected: set<string>, busy: set<nat>)

  predicate Stale(s: Slot, p: Pass) {
    s.pending || (s.expiresAt.Some? && s.expiresAt.value <= p.now)
  }

  predicate Idle(s: Slot, p: Pass) {
    s.borrows == 0 && s.client !in p.busy
  }

  predicate Removable(key: string, s: Slot, p: Pass) {
    key !in p.protected && Idle(s, p)
  }

  function Marked(s: Slot, p: Pass): Slot {
    if Stale(s, p) then s.(pending := true) else s
  }

  /** First phase, on the given keys: stale entries go, or are marked if they cannot go yet. */
  function Sweep(t: Table, keys: set<string>, p: Pass): Table {
    map k | k in t && !(k in keys && Stale(t[k], p) && Removable(k, t[k], p)) ::
      if k in keys then Marked(t[k], p) else t[k]
  }

  predicate AnyPending(t: Table) {
    exists k | k in t :: t[k].pending
  }

  /** Second phase: least recently used first, until the table fits. */
  function Trim(t: Table, maxsize: int, order: seq<string>, p: Pass): Table
    requires forall k | k in order :: k in t
    requires Unique(order)
    decreases |order|
  {
    if order == [] || |t| <= maxsize then t else
      Trim(Offer(t, order[0], p), maxsize, order[1..], p)
  }

  /** One entry is offered for removal: skipped if protected, marked if in use. */
  function Offer(t: Table, k: string, p: Pass): Table
    requires k in t
  {
    if k in p.protected then t
    else if !Idle(t[k], p) then t[k := t[k].(pending := true)]
    else t - {k}
  }

  lemma OfferKeeps(t: Table, k: string, p: Pass)
    requires k in t
    ensures Offer(t, k, p).Keys == if Removable(k, t[k], p) then t.Keys - {k} else t.Keys
    ensures forall j | j in Offer(t, k, p) ::
      SameButMarked(t[j], Offer(t, k, p)[j]) && (j != k ==> Offer(t, k, p)[j] == t[j])
    ensures k in Offer(t, k, p) ==> k in p.protected || Offer(t, k, p)[k].pending
  {
  }

  /** What the keys after the first still are once the first was offered. */
  lemma RestOffered(t: Table, order: seq<string>, p: Pass)
    requires order != [] && Unique(order) && forall k | k in order :: k in t
    ensures Unique(order[1..])
    ensures forall k | k in order[1..] :: k in order && k != order[0] && k in Offer(t, order[0], p)
  {
    OfferKeeps(t, order[0], p);
    assert forall k | k in order[1..] :: k in order && k != order[0];
  }

  predicate Unique(order: seq<string>) {
    forall i, j | 0 <= i < j < |order| :: order[i] != order[j]
  }

  /** The table's keys by last use; ties in any order. */
  ghost predicate LruOrder(t: Table, order: seq<string>) {
    && Unique(order)
    && (forall k :: k in order <==> k in t)
    && (forall i, j | 0 <= i < j < |order| :: t[order[i]].lastUsed <= t[order[j]].lastUsed)
  }

  predicate NeedsTrim(t: Table, maxsize: int) {
    0 < maxsize < |t| && !AnyPending(t)
  }

  /** The second phase happens only above the maximum and when nothing is marked. */
  ghost predicate Trims(t: Table, maxsize: int, p: Pass, after: Table) {
    if NeedsTrim(t, maxsize) then exists order :: LruOrder(t, order) && after == Trim(t, maxsize, order, p)
    else after == t
  }

  /** One eviction pass. */
  ghost predicate Evicts(t: Table, maxsize: int, p: Pass, after: Table) {
    Trims(Sweep(t, t.Keys, p), maxsize, p, after)
  }

  /** The clients that left the table. */
  ghost function Gone(t: Table, after: Table): set<nat> {
    set k | k in t && k !in after :: t[k].client
  }

  // ---------------------------------------------------------------- what a pass does

  /** An entry only changes by being marked. */
  ghost predicate SameButMarked(s: Slot, s': Slot) {
    s' == s || s' == s.(pending := true)
  }

  lemma {:induction false} TrimKeeps(t: Table, maxsize: int, order: seq<string>, p: Pass)
    requires Unique(order) && forall k | k in order :: k in t
    ensures var after := Trim(t, maxsize, order, p);
      && after.Keys <= t.Keys
      && (forall k | k in after :: SameButMarked(t[k], after[k]))
      && (forall k | k in t && k !in after :: k in order && Removable(k, t[k], p))
    decreases |order|
  {
    if order != [] && |t| > maxsize {
      OfferKeeps(t, order[0], p);
      RestOffered(t, order, p);
      var rest := Offer(t, order[0], p);
      TrimKeeps(rest, maxsize, order[1..], p);
    }
  }

  /** An eviction pass only removes idle unprotected entries, and otherwise only marks. */
  lemma EvictKeeps(t: Table, maxsize: int, p: Pass, after: Table)
    requires Evicts(t, maxsize, p, after)
    ensures after.Keys <= t.Keys
    ensures forall k | k in after :: SameButMarked(t[k], after[k])
    ensures forall k | k in t && k !in after :: Removable(k, t[k], p)
  {
    var swept := Sweep(t, t.Keys, p);
    if NeedsTrim(swept, maxsize) {
      var order :| LruOrder(swept, order) && after == Trim(swept, maxsize, order, p);
      TrimKeeps(swept, maxsize, order, p);
    }
  }

  /** Deferred eviction happens as soon as it can: a pass leaves no entry that was expired or
      marked unless it is borrowed, busy or protected, and then leaves it marked. */
  lemma EvictDropsStale(t: Table, maxsize: int, p: Pass, after: Table, k: string)
    requires Evicts(t, maxsize, p, after) && k in t && Stale(t[k], p)
    ensures k in after <==> !Removable(k, t[k], p)
    ensures k in after ==> after[k].pending
  {
    var swept := Sweep(t, t.Keys, p);
    if NeedsTrim(swept, maxsize) {
      var order :| LruOrder(swept, order) && after == Trim(swept, maxsize, order, p);
      TrimKeeps(swept, maxsize, order, p);
    }
  }

  /** Trimming never shrinks a table below its maximum. */
  lemma {:induction false} TrimStopsAtMaxsize(t: Table, maxsize: int, order: seq<string>, p: Pass)
    requires Unique(order) && (forall k | k in order :: k in t) && maxsize <= |t|
    ensures maxsize <= |Trim(t, maxsize, order, p)|
    decreases |order|
  {
    if order != [] && |t| > maxsize {
      OfferKeeps(t, order[0], p);
      RestOffered(t, order, p);
      var rest := Offer(t, order[0], p);
      TrimStopsAtMaxsize(rest, maxsize, order[1..], p);
    }
  }

  /** If trimming ends above the maximum, every entry it was offered is protected or marked. */
  lemma {:induction false} TrimExhausts(t: Table, maxsize: int, order: seq<string>, p: Pass)
    requires Unique(order) && forall k | k in order :: k in t
    ensures var after := Trim(t, maxsize, order, p);
      |after| > maxsize ==> forall k | k in order && k in after :: k in p.protected || after[k].pending
    decreases |order|
  {
    if order != [] && |t| > maxsize {
      OfferKeeps(t, order[0], p);
      RestOffered(t, order, p);
      var rest := Offer(t, order[0], p);
      TrimExhausts(rest, maxsize, order[1..], p);
      TrimKeeps(rest, maxsize, order[1..], p);
    }
  }

  /** If trimming leaves a removable entry, it has stopped before, and leaves all later ones. */
  lemma {:induction false} TrimSparesRest(t: Table, maxsize: int, order: seq<string>, p: Pass, j: nat)
    requires Unique(order) && (forall k | k in order :: k in t) && j < |order|
    requires order[j] in Trim(t, maxsize, order, p) && Removable(order[j], t[order[j]], p)
    ensures forall k | k in order[j..] :: k in Trim(t, maxsize, order, p)
    decreases |order|
  {
    if |t| > maxsize {
      OfferKeeps(t, order[0], p);
      RestOffered(t, order, p);
      var rest := Offer(t, order[0], p);
      TrimKeeps(rest, maxsize, order[1..], p);
      hide Offer, Removable, Idle;
      assert j > 0;
      assert order[1..][j - 1] == order[j] && order[1..][j - 1..] == order[j..];
      assert order[j] in order[1..] && rest[order[j]] == t[order[j]];
      TrimSparesRest(rest, maxsize, order[1..], p, j - 1);
    }
  }

  /** Every entry that trimming removed was used no later than any idle unprotected survivor. */
  lemma TrimIsLru(t: Table, maxsize: int, order: seq<string>, p: Pass, i: nat, j: nat)
    requires Unique(order) && (forall k | k in order :: k in t) && i < |order| && j < |order|
    requires order[i] !in Trim(t, maxsize, order, p)
    requires order[j] in Trim(t, maxsize, order, p) && Removable(order[j], t[order[j]], p)
    ensures i < j
  {
    assert forall m | j <= m < |order| :: order[j..][m - j] == order[m];
    TrimSparesRest(t, maxsize, order, p, j);
  }

  lemma {:induction false} TrimFits(t: Table, maxsize: int, order: seq<string>, p: Pass)
    requires Unique(order) && (forall k :: k in order <==> k in t) && 0 <= maxsize
    requires forall k | k in t :: Removable(k, t[k], p)
    ensures |Trim(t, maxsize, order, p)| <= maxsize
    decreases |order|
  {
    if order == [] {
      assert t == map[];
    } else if |t| > maxsize {
      assert forall j | j in order[1..] :: j in order && j != order[0];
      TrimFits(t - {order[0]}, maxsize, order[1..], p);
    }
  }

  // ---------------------------------------------------------------- what a pass promises

  lemma Smaller<T>(a: set<T>, b: set<T>)
    requires a <= b
    ensures |a| <= |b|
  {
    if a != b {
      assert b == a + (b - a);
    }
  }

  /** After a pass with at most one protected key the table fits, or something is marked. */
  lemma EvictBounded(t: Table, maxsize: int, p: Pass, after: Table)
    requires Evicts(t, maxsize, p, after) && 0 < maxsize && |p.protected| <= 1
    ensures |after| <= maxsize || AnyPending(after)
  {
    var swept := Sweep(t, t.Keys, p);
    if NeedsTrim(swept, maxsize) && |after| > maxsize && !AnyPending(after) {
      var order :| LruOrder(swept, order) && after == Trim(swept, maxsize, order, p);
      TrimExhausts(swept, maxsize, order, p);
      TrimKeeps(swept, maxsize, order, p);
      forall k | k in after
        ensures k in p.protected
      {
        assert k in swept && k in order;
      }
      Smaller(after.Keys, p.protected);
    }
  }

  /** An entry that goes although it is not stale was used no later than any idle
      unprotected entry that stays, and its going leaves at least the maximum behind. */
  lemma EvictIsLru(t: Table, maxsize: int, p: Pass, after: Table, gone: string, kept: string)
    requires Evicts(t, maxsize, p, after)
    requires gone in t && gone !in after && !Stale(t[gone], p)
    ensures maxsize <= |after|
    ensures kept in after && kept in t && Removable(kept, t[kept], p) ==> t[gone].lastUsed <= t[kept].lastUsed
  {
    var swept := Sweep(t, t.Keys, p);
    var order :| LruOrder(swept, order) && after == Trim(swept, maxsize, order, p);
    TrimStopsAtMaxsize(swept, maxsize, order, p);
    if kept in after && kept in t && Removable(kept, t[kept], p) {
      TrimKeeps(swept, maxsize, order, p);
      assert gone in swept && kept in swept;
      var i :| 0 <= i < |order| && order[i] == gone;
      var j :| 0 <= j < |order| && order[j] == kept;
      TrimIsLru(swept, maxsize, order, p, i, j);
    }
  }

  /** When nothing is borrowed, busy or protected, a pass leaves the table within bounds. */
  lemma EvictFits(t: Table, maxsize: int, p: Pass, after: Table)
    requires Evicts(t, maxsize, p, after) && 0 < maxsize
    requires forall k | k in t :: Removable(k, t[k], p)
    ensures |after| <= maxsize
  {
    var swept := Sweep(t, t.Keys, p);
    assert !AnyPending(swept);
    if NeedsTrim(swept, maxsize) {
      var order :| LruOrder(swept, order) && after == Trim(swept, maxsize, order, p);
      TrimFits(swept, maxsize, order, p);
    }
  }

  // ---------------------------------------------------------------- borrows and returns

  datatype Limits = Limits(ttl: real, maxsize: int)

  /** An outstanding borrow: of a cache entry, or of a client of its own when caching is off. */
  datatype Ticket = Cached(url: string, client: nat) | Direct(client: nat)

  datatype World = World(
    table: Table,
    next: nat,                    // clients made so far
    borrowed: multiset<Ticket>,
    closes: multiset<nat>,        // close() calls per client
    shutdown: set<nat>)           // clients closed by close_all

  function Init(): World {
    World(map[], 0, multiset{}, multiset{}, {})
  }

  function Expiry(limits: Limits, now: real): Option<real> {
    if limits.ttl <= 0.0 then None else Some(now + limits.ttl)
  }

  function WithTable(w: World, after: Table, closed: set<nat>): World {
    w.(table := after, closes := w.closes + multiset(closed))
  }

  /** A borrower finds its entry expired: it goes if idle and is marked otherwise. */
  function Expired(w: World, url: string, now: real, busy: set<nat>): World {
    if url in w.table && w.table[url].expiresAt.Some? && w.table[url].expiresAt.value <= now then
      if Idle(w.table[url], Pass(now, {}, busy)) then WithTable(w, w.table - {url}, {w.table[url].client})
      else w.(table := w.table[url := w.table[url].(pending := true)])
    else w
  }

  /** The entry is made if missing, renewed if there, and borrowed once more. */
  function Lend(limits: Limits, w: World, url: string, now: real): World {
    if url in w.table then
      var s := w.table[url];
      w.(table := w.table[url := Slot(s.client, now, Expiry(limits, now), s.borrows + 1, false)],
         borrowed := w.borrowed + multiset{Cached(url, s.client)})
    else
      w.(table := w.table[url := Slot(w.next, now, Expiry(limits, now), 1, false)],
         borrowed := w.borrowed + multiset{Cached(url, w.next)},
         next := w.next + 1)
  }

  /** The entry is renewed on return only if it is still the one that was borrowed. */
  function GiveBack(limits: Limits, w: World, url: string, client: nat, now: real): World {
    var returned := w.(borrowed := w.borrowed - multiset{Cached(url, client)});
    if url in w.table && w.table[url].client == client then
      var s := w.table[url];
      returned.(table := w.table[url :=
        s.(borrows := if s.borrows > 0 then s.borrows - 1 else 0, lastUsed := now, expiresAt := Expiry(limits, now))])
    else returned
  }

  ghost predicate EvictStep(limits: Limits, w: World, p: Pass, w': World) {
    Evicts(w.table, limits.maxsize, p, w'.table) && w' == WithTable(w, w'.table, Gone(w.table, w'.table))
  }

  datatype Op =
    | Borrow(url: string, now: real, busy: set<nat>)
    | Return(ticket: Ticket, now: real, busy: set<nat>)
    | CloseAll

  /** One operation of the manager; returning needs an outstanding borrow. */
  ghost predicate Step(limits: Limits, w: World, op: Op, w': World) {
    match op
    case Borrow(url, now, busy) =>
      if limits.maxsize <= 0 then
        w' == w.(borrowed := w.borrowed + multiset{Direct(w.next)}, next := w.next + 1)
      else
        var p := Pass(now, {url}, busy);
        exists mid :: EvictStep(limits, Expired(w, url, now, busy), p, mid)
          && EvictStep(limits, Lend(limits, mid, url, now), p, w')
    case Return(ticket, now, busy) =>
      && ticket in w.borrowed
      && (match ticket
          case Direct(client) =>
            w' == w.(borrowed := w.borrowed - multiset{ticket}, closes := w.closes + multiset{client})
          case Cached(url, client) => EvictStep(limits, GiveBack(limits, w, url, client, now), Pass(now, {}, busy), w'))
    case CloseAll =>
      var all := Gone(w.table, map[]);
      w' == WithTable(w, map[], all).(shutdown := w.shutdown + all)
  }

  /** Making room and then lending is a borrow. */
  lemma BorrowInTwo(limits: Limits, w: World, url: string, now: real, busy: set<nat>, mid: World, w': World)
    requires 0 < limits.maxsize
    requires EvictStep(limits, Expired(w, url, now, busy), Pass(now, {url}, busy), mid)
    requires EvictStep(limits, Lend(limits, mid, url, now), Pass(now, {url}, busy), w')
    ensures Step(limits, w, Borrow(url, now, busy), w') && mid.borrowed == w.borrowed
  {
  }

  // ---------------------------------------------------------------- invariant

  ghost predicate SlotOk(w: World, k: string)
    requires k in w.table
  {
    && w.table[k].borrows == w.borrowed[Cached(k, w.table[k].client)]
    && w.table[k].client < w.next && w.closes[w.table[k].client] == 0
  }

  ghost predicate Distinct(t: Table) {
    forall j, k | j in t && k in t && j != k :: t[j].client != t[k].client
  }

  ghost predicate Inv(w: World) {
    && (forall k | k in w.table :: SlotOk(w, k))
    && Distinct(w.table)
    && (forall b | b in w.borrowed :: TicketOk(w, b))
    && ClosesOk(w)
  }

  /** No client is closed twice. */
  ghost predicate ClosesOk(w: World) {
    && (forall c | c in w.closes :: c < w.next && w.closes[c] == 1)
    && (forall c | c in w.shutdown :: c in w.closes)
  }

  /** A borrowed entry is in the cache unless close_all took it; an uncached client is its
      borrower's alone and still open. */
  ghost predicate TicketOk(w: World, b: Ticket) {
    && b.client < w.next
    && (b.Cached? ==> b.client in w.shutdown || Holds(w.table, b.url, b.client))
    && (b.Direct? ==> DirectOk(w, b.client))
  }

  predicate Holds(t: Table, url: string, client: nat) {
    url in t && t[url].client == client
  }

  ghost predicate DirectOk(w: World, client: nat) {
    && w.borrowed[Direct(client)] == 1 && client !in w.closes
    && (forall k | k in w.table :: w.table[k].client != client)
    && (forall url :: Cached(url, client) !in w.borrowed)
  }

  /** Entries nobody has borrowed may leave the table, closed, and others may be marked. */
  lemma ShrinkInv(w: World, after: Table)
    requires Inv(w) && after.Keys <= w.table.Keys
    requires forall k | k in after :: SameButMarked(w.table[k], after[k])
    requires forall k | k in w.table && k !in after :: w.table[k].borrows == 0
    ensures Inv(WithTable(w, after, Gone(w.table, after)))
  {
    var w' := WithTable(w, after, Gone(w.table, after));
    forall k | k in after
      ensures SlotOk(w', k)
    {
      assert SlotOk(w, k);
    }
    forall b | b in w'.borrowed
      ensures TicketOk(w', b)
    {
      ShrinkTicket(w, after, b);
    }
    ShrinkCloses(w, after);
  }

  lemma ShrinkTicket(w: World, after: Table, b: Ticket)
    requires Inv(w) && after.Keys <= w.table.Keys && b in w.borrowed
    requires forall k | k in after :: SameButMarked(w.table[k], after[k])
    requires forall k | k in w.table && k !in after :: w.table[k].borrows == 0
    ensures TicketOk(WithTable(w, after, Gone(w.table, after)), b)
  {
    assert TicketOk(w, b);
    if b.Cached? && Holds(w.table, b.url, b.client) {
      assert SlotOk(w, b.url);
    }
  }

  lemma ShrinkCloses(w: World, after: Table)
    requires Inv(w)
    ensures ClosesOk(WithTable(w, after, Gone(w.table, after)))
  {
    forall c | c in Gone(w.table, after)
      ensures c !in w.closes && c < w.next
    {
      var k :| k in w.table && k !in after && w.table[k].client == c;
      assert SlotOk(w, k);
    }
  }

  lemma EvictInv(limits: Limits, w: World, p: Pass, w': World)
    requires Inv(w) && EvictStep(limits, w, p, w')
    ensures Inv(w')
  {
    EvictKeeps(w.table, limits.maxsize, p, w'.table);
    ShrinkInv(w, w'.table);
  }

  /** Dropping an expired entry is a way to shrink the table. */
  lemma ExpiredShrinks(w: World, url: string, now: real, busy: set<nat>)
    ensures var after := Expired(w, url, now, busy).table;
      && after.Keys <= w.table.Keys
      && (forall k | k in after :: SameButMarked(w.table[k], after[k]))
      && (forall k | k in w.table && k !in after :: w.table[k].borrows == 0)
      && Expired(w, url, now, busy) == WithTable(w, after, Gone(w.table, after))
  {
    var after := Expired(w, url, now, busy).table;
    if url in w.table && url !in after {
      assert Gone(w.table, after) == {w.table[url].client};
    } else {
      assert Gone(w.table, after) == {};
      assert w.closes + multiset(Gone(w.table, after)) == w.closes;
    }
  }

  lemma ExpiredInv(w: World, url: string, now: real, busy: set<nat>)
    requires Inv(w)
    ensures Inv(Expired(w, url, now, busy))
  {
    ExpiredShrinks(w, url, now, busy);
    hide Expired, Gone, SlotOk, TicketOk, ClosesOk;
    ShrinkInv(w, Expired(w, url, now, busy).table);
  }

  lemma LendInv(limits: Limits, w: World, url: string, now: real)
    requires Inv(w)
    ensures Inv(Lend(limits, w, url, now))
  {
    var w' := Lend(limits, w, url, now);
    forall k | k in w'.table
      ensures SlotOk(w', k)
    {
      if k in w.table {
        assert SlotOk(w, k);
      } else {
        assert Cached(url, w.next) !in w.borrowed;
      }
    }
    LendTickets(limits, w, url, now);
  }

  lemma LendTickets(limits: Limits, w: World, url: string, now: real)
    requires Inv(w)
    ensures var w' := Lend(limits, w, url, now);
      (forall b | b in w'.borrowed :: TicketOk(w', b)) && Distinct(w'.table)
  {
    var w' := Lend(limits, w, url, now);
    forall k | k in w.table
      ensures w.table[k].client < w.next
    {
      assert SlotOk(w, k);
    }
    forall b | b in w'.borrowed
      ensures TicketOk(w', b)
    {
      if b in w.borrowed {
        assert TicketOk(w, b);
      }
    }
  }

  lemma GiveBackInv(limits: Limits, w: World, url: string, client: nat, now: real)
    requires Inv(w) && Cached(url, client) in w.borrowed
    ensures Inv(GiveBack(limits, w, url, client, now))
  {
    var w' := GiveBack(limits, w, url, client, now);
    forall b | b in w'.borrowed
      ensures TicketOk(w', b)
    {
      GiveBackTicket(limits, w, url, client, now, b);
    }
    forall k | k in w'.table
      ensures SlotOk(w', k)
    {
      GiveBackSlot(limits, w, url, client, now, k);
    }
    assert forall k | k in w'.table :: k in w.table && w'.table[k].client == w.table[k].client;
  }

  lemma GiveBackTicket(limits: Limits, w: World, url: string, client: nat, now: real, b: Ticket)
    requires Inv(w) && Cached(url, client) in w.borrowed && b in w.borrowed
    ensures TicketOk(GiveBack(limits, w, url, client, now), b)
  {
    assert TicketOk(w, b);
  }

  lemma GiveBackSlot(limits: Limits, w: World, url: string, client: nat, now: real, k: string)
    requires Inv(w) && Cached(url, client) in w.borrowed && k in w.table
    ensures SlotOk(GiveBack(limits, w, url, client, now), k)
  {
    assert SlotOk(w, k) && TicketOk(w, Cached(url, client));
  }

  lemma StepInv(limits: Limits, w: World, op: Op, w': World)
    requires Inv(w) && Step(limits, w, op, w')
    ensures Inv(w')
  {
    match op
    case Borrow(url, now, busy) =>
      if limits.maxsize > 0 {
        var p := Pass(now, {url}, busy);
        var mid :| EvictStep(limits, Expired(w, url, now, busy), p, mid)
          && EvictStep(limits, Lend(limits, mid, url, now), p, w');
        ExpiredInv(w, url, now, busy);
        EvictInv(limits, Expired(w, url, now, busy), p, mid);
        LendInv(limits, mid, url, now);
        EvictInv(limits, Lend(limits, mid, url, now), p, w');
      } else {
        DirectInv(w, w');
      }
    case Return(ticket, now, busy) =>
      match ticket {
        case Direct(client) => DirectBackInv(w, client, w');
        case Cached(url, client) =>
          GiveBackInv(limits, w, url, client, now);
          EvictInv(limits, GiveBack(limits, w, url, client, now), Pass(now, {}, busy), w');
      }
    case CloseAll => CloseAllInv(w, w');
  }

  lemma DirectInv(w: World, w': World)
    requires Inv(w) && w' == w.(borrowed := w.borrowed + multiset{Direct(w.next)}, next := w.next + 1)
    ensures Inv(w')
  {
    forall b | b in w'.borrowed
      ensures TicketOk(w', b)
    {
      if b in w.borrowed {
        assert TicketOk(w, b);
      }
    }
  }

  lemma DirectBackInv(w: World, client: nat, w': World)
    requires Inv(w) && Direct(client) in w.borrowed
    requires w' == w.(borrowed := w.borrowed - multiset{Direct(client)}, closes := w.closes + multiset{client})
    ensures Inv(w')
  {
    assert TicketOk(w, Direct(client));
    forall b | b in w'.borrowed
      ensures TicketOk(w', b)
    {
      assert TicketOk(w, b);
    }
  }

  lemma CloseAllInv(w: World, w': World)
    requires Inv(w)
    requires var all := Gone(w.table, map[]); w' == WithTable(w, map[], all).(shutdown := w.shutdown + all)
    ensures Inv(w')
  {
    forall b | b in w'.borrowed
      ensures TicketOk(w', b)
    {
      assert TicketOk(w, b);
    }
  }

  // ---------------------------------------------------------------- runs

  ghost predicate IsRun(limits: Limits, worlds: seq<World>, ops: seq<Op>) {
    && |worlds| == |ops| + 1 && worlds[0] == Init()
    && forall i | 0 <= i < |ops| :: Step(limits, worlds[i], ops[i], worlds[i + 1])
  }

  lemma {:induction false} RunInv(limits: Limits, worlds: seq<World>, ops: seq<Op>, i: nat)
    requires IsRun(limits, worlds, ops) && i < |worlds|
    ensures Inv(worlds[i])
  {
    if i > 0 {
      RunInv(limits, worlds, ops, i - 1);
      StepInv(limits, worlds[i - 1], ops[i - 1], worlds[i]);
    }
  }

  lemma StepShutdown(limits: Limits, w: World, op: Op, w': World)
    requires Step(limits, w, op, w') && !op.CloseAll?
    ensures w'.shutdown == w.shutdown
  {
  }

  lemma {:induction false} NoShutdown(limits: Limits, worlds: seq<World>, ops: seq<Op>, i: nat)
    requires IsRun(limits, worlds, ops) && i < |worlds| && forall op | op in ops :: !op.CloseAll?
    ensures worlds[i].shutdown == {}
  {
    if i > 0 {
      NoShutdown(limits, worlds, ops, i - 1);
      assert ops[i - 1] in ops;
      StepShutdown(limits, worlds[i - 1], ops[i - 1], worlds[i]);
    }
  }

  /** In every run of borrows and returns, over any urls and times, each entry's count is
      the number of its outstanding borrows, and every outstanding borrow's own entry is
      still in the cache. */
  lemma EntriesOutliveBorrows(limits: Limits, worlds: seq<World>, ops: seq<Op>, i: nat)
    requires IsRun(limits, worlds, ops) && i < |worlds| && forall op | op in ops :: !op.CloseAll?
    ensures var w := worlds[i];
      && (forall k | k in w.table :: w.table[k].borrows == w.borrowed[Cached(k, w.table[k].client)])
      && (forall b | b in w.borrowed && b.Cached? :: Holds(w.table, b.url, b.client))
  {
    RunInv(limits, worlds, ops, i);
    NoShutdown(limits, worlds, ops, i);
    var w := worlds[i];
    forall k | k in w.table
      ensures w.table[k].borrows == w.borrowed[Cached(k, w.table[k].client)]
    {
      assert SlotOk(w, k);
    }
    forall b | b in w.borrowed && b.Cached?
      ensures Holds(w.table, b.url, b.client)
    {
      assert TicketOk(w, b);
    }
  }

  /** No client is closed twice, even with close_all, and a cached one is never closed. */
  lemma NobodyClosedTwice(limits: Limits, worlds: seq<World>, ops: seq<Op>, i: nat, client: nat)
    requires IsRun(limits, worlds, ops) && i < |worlds|
    ensures worlds[i].closes[client] <= 1
    ensures forall k | k in worlds[i].table :: worlds[i].table[k].client == client ==> worlds[i].closes[client] == 0
  {
    RunInv(limits, worlds, ops, i);
    var w := worlds[i];
    forall k | k in w.table && w.table[k].client == client
      ensures w.closes[client] == 0
    {
      assert SlotOk(w, k);
    }
  }

  ghost predicate ClosedBy(w: World, w': World, client: nat) {
    w'.closes[client] > w.closes[client]
  }

  lemma EvictCloses(limits: Limits, w: World, p: Pass, w': World, client: nat)
    requires EvictStep(limits, w, p, w') && ClosedBy(w, w', client)
    ensures client !in p.busy
  {
    EvictKeeps(w.table, limits.maxsize, p, w'.table);
    var k :| k in w.table && k !in w'.table && w.table[k].client == client;
  }

  lemma ExpiredCloses(w: World, url: string, now: real, busy: set<nat>, client: nat)
    requires ClosedBy(w, Expired(w, url, now, busy), client)
    ensures client !in busy
  {
  }

  lemma LendCloses(limits: Limits, w: World, url: string, now: real)
    ensures Lend(limits, w, url, now).closes == w.closes
  {
  }

  lemma BorrowClosesNoneBusy(limits: Limits, w: World, op: Op, w': World, client: nat)
    requires op.Borrow? && Step(limits, w, op, w') && ClosedBy(w, w', client)
    ensures client !in op.busy
  {
    if limits.maxsize > 0 {
      var p := Pass(op.now, {op.url}, op.busy);
      var start := Expired(w, op.url, op.now, op.busy);
      var mid :| EvictStep(limits, start, p, mid) && EvictStep(limits, Lend(limits, mid, op.url, op.now), p, w');
      hide EvictStep, Expired, Lend;
      LendCloses(limits, mid, op.url, op.now);
      if ClosedBy(w, start, client) {
        ExpiredCloses(w, op.url, op.now, op.busy, client);
      } else if ClosedBy(start, mid, client) {
        EvictCloses(limits, start, p, mid, client);
      } else {
        EvictCloses(limits, Lend(limits, mid, op.url, op.now), p, w', client);
      }
    }
  }

  /** A borrow, or a return to the cache, never closes a busy client, nor one that is
      borrowed when it is done. */
  lemma ClosedAreIdle(limits: Limits, w: World, op: Op, w': World, client: nat)
    requires Inv(w) && Step(limits, w, op, w') && ClosedBy(w, w', client)
    requires op.Borrow? || (op.Return? && op.ticket.Cached?)
    ensures client !in op.busy
    ensures forall b | b in w'.borrowed :: b.client != client
  {
    if op.Borrow? {
      BorrowClosesNoneBusy(limits, w, op, w', client);
    } else {
      var back := GiveBack(limits, w, op.ticket.url, op.ticket.client, op.now);
      EvictCloses(limits, back, Pass(op.now, {}, op.busy), w', client);
    }
    ClosedAreNotBorrowed(limits, w, op, w', client);
  }

  lemma ClosedAreNotBorrowed(limits: Limits, w: World, op: Op, w': World, client: nat)
    requires Inv(w) && Step(limits, w, op, w') && !op.CloseAll? && ClosedBy(w, w', client)
    ensures forall b | b in w'.borrowed :: b.client != client
  {
    StepInv(limits, w, op, w');
    forall b | b in w'.borrowed
      ensures b.client != client
    {
      assert TicketOk(w', b);
      NotShutdown(limits, w, op, w', client, b);
    }
  }

  /** A client that this step closed was not closed by an earlier close_all. */
  lemma NotShutdown(limits: Limits, w: World, op: Op, w': World, client: nat, b: Ticket)
    requires Inv(w) && Inv(w') && Step(limits, w, op, w') && !op.CloseAll? && ClosedBy(w, w', client)
    requires TicketOk(w', b)
    ensures b.client != client
  {
    StepShutdown(limits, w, op, w');
    assert w'.closes[client] == 1 && client !in w.closes;
    if b.Cached? && Holds(w'.table, b.url, b.client) {
      assert SlotOk(w', b.url);
    }
  }

  /** A borrow always ends with its entry in the cache, borrowed and renewed. */
  lemma BorrowRenews(limits: Limits, w: World, op: Op, w': World)
    requires Step(limits, w, op, w') && op.Borrow? && 0 < limits.maxsize
    ensures op.url in w'.table
    ensures var s := w'.table[op.url];
      s.borrows > 0 && s.lastUsed == op.now && s.expiresAt == Expiry(limits, op.now)
      && w'.borrowed == w.borrowed + multiset{Cached(op.url, s.client)}
  {
    var p := Pass(op.now, {op.url}, op.busy);
    var start := Expired(w, op.url, op.now, op.busy);
    var mid :| EvictStep(limits, start, p, mid) && EvictStep(limits, Lend(limits, mid, op.url, op.now), p, w');
    assert start.borrowed == w.borrowed && mid.borrowed == w.borrowed;
    LentStays(limits, mid, op.url, op.now, p, w');
  }

  lemma LentStays(limits: Limits, w: World, url: string, now: real, p: Pass, w': World)
    requires url in p.protected && EvictStep(limits, Lend(limits, w, url, now), p, w')
    ensures url in w'.table
    ensures var s := w'.table[url];
      s.borrows > 0 && s.lastUsed == now && s.expiresAt == Expiry(limits, now)
      && w'.borrowed == w.borrowed + multiset{Cached(url, s.client)}
  {
    EvictKeeps(Lend(limits, w, url, now).table, limits.maxsize, p, w'.table);
  }

  /** A return renews the entry if it is still there, and never another borrower's new one. */
  lemma ReturnRenews(limits: Limits, w: World, op: Op, w': World, k: string)
    requires Step(limits, w, op, w') && op.Return? && op.ticket.Cached? && k in w'.table
    ensures k in w.table
    ensures if k == op.ticket.url && w.table[k].client == op.ticket.client
            then w'.table[k].lastUsed == op.now && w'.table[k].expiresAt == Expiry(limits, op.now)
            else SameButMarked(w.table[k], w'.table[k])
  {
    var back := GiveBack(limits, w, op.ticket.url, op.ticket.client, op.now);
    EvictKeeps(back.table, limits.maxsize, Pass(op.now, {}, op.busy), w'.table);
  }

  lemma StepCached(limits: Limits, w: World, op: Op, w': World)
    requires Step(limits, w, op, w') && 0 < limits.maxsize && forall b | b in w.borrowed :: b.Cached?
    ensures forall b | b in w'.borrowed :: b.Cached?
  {
  }

  lemma {:induction false} AllCached(limits: Limits, worlds: seq<World>, ops: seq<Op>, i: nat)
    requires IsRun(limits, worlds, ops) && i < |worlds| && 0 < limits.maxsize
    ensures forall b | b in worlds[i].borrowed :: b.Cached?
  {
    if i > 0 {
      AllCached(limits, worlds, ops, i - 1);
      StepCached(limits, worlds[i - 1], ops[i - 1], worlds[i]);
    }
  }

  lemma StepBounded(limits: Limits, w: World, op: Op, w': World)
    requires Step(limits, w, op, w') && 0 < limits.maxsize && forall b | b in w.borrowed :: b.Cached?
    ensures |w'.table| <= limits.maxsize || AnyPending(w'.table)
  {
    match op
    case Borrow(url, now, busy) =>
      var p := Pass(now, {url}, busy);
      var mid :| EvictStep(limits, Expired(w, url, now, busy), p, mid)
        && EvictStep(limits, Lend(limits, mid, url, now), p, w');
      EvictBounded(Lend(limits, mid, url, now).table, limits.maxsize, p, w'.table);
    case Return(ticket, now, busy) =>
      var back := GiveBack(limits, w, ticket.url, ticket.client, now);
      EvictBounded(back.table, limits.maxsize, Pass(now, {}, busy), w'.table);
    case CloseAll =>
  }

  /** With a positive maximum, the cache only ever exceeds it while an entry is marked. */
  lemma CacheBounded(limits: Limits, worlds: seq<World>, ops: seq<Op>, i: nat)
    requires IsRun(limits, worlds, ops) && i < |worlds| && 0 < limits.maxsize
    ensures |worlds[i].table| <= limits.maxsize || AnyPending(worlds[i].table)
  {
    hide Step;
    if i > 0 {
      assert Step(limits, worlds[i - 1], ops[i - 1], worlds[i]);
      AllCached(limits, worlds, ops, i - 1);
      StepBounded(limits, worlds[i - 1], ops[i - 1], worlds[i]);
    }
  }

  /** Once the last borrow returns and no client is busy, the cache is within its maximum. */
  lemma CacheFitsWhenIdle(limits: Limits, w: World, op: Op, w': World)
    requires Inv(w) && Step(limits, w, op, w') && 0 < limits.maxsize
    requires op.Return? && op.ticket.Cached? && op.busy == {} && w'.borrowed == multiset{}
    ensures |w'.table| <= limits.maxsize
  {
    var back := GiveBack(limits, w, op.ticket.url, op.ticket.client, op.now);
    GiveBackInv(limits, w, op.ticket.url, op.ticket.client, op.now);
    var p := Pass(op.now, {}, op.busy);
    forall k | k in back.table
      ensures Removable(k, back.table[k], p)
    {
      assert SlotOk(back, k);
    }
    EvictFits(back.table, limits.maxsize, p, w'.table);
  }
}
