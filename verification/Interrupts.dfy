/** Interrupt requests: two repositories behind one interface. The memory repository keeps two
    dictionaries and moves a request to its tombstones as soon as any operation notices that it
    expired; the database repository keeps one row per request and writes the tombstone only
    when that request is resolved. */
module Interrupts {
  import opened Prelude
  import Text

  /** The details of a request, as the JSON text the database stores. */
  datatype Details = Details(json: string)

  datatype Request = Request(
    requestId: string,
    sessionId: string,
    kind: string,
    identity: Option<string>,
    credentialId: Option<string>,
    taskId: Option<string>,
    contextId: Option<string>,
    details: Option<Details>)

  datatype Binding = Binding(request: Request, expiresAt: real)

  datatype Config = Config(requestTtl: real, tombstoneTtl: real)

  datatype Status = Active | Expired | Missing

  datatype Answer =
    | Done
    | Resolved(status: Status, binding: Option<Binding>)
    | Listed(items: seq<Binding>)

  datatype Op =
    | Remember(now: real, request: Request, ttl: Option<real>)
    | Resolve(now: real, id: string)
    | Discard(now: real, id: string)
    | ListPending(now: real, identity: string, kind: Option<string>)

  function Bind(c: Config, now: real, request: Request, ttl: Option<real>): Binding {
    var seconds := ttl.GetOr(c.requestTtl);
    Binding(request, now + (if seconds > 0.0 then seconds else 0.0))
  }

  // ---------------------------------------------------------------- pending lists

  predicate Matches(b: Binding, identity: string, kind: Option<string>, now: real) {
    && b.request.identity == Some(identity)
    && (kind.None? || b.request.kind == Text.Strip(kind.value))
    && b.expiresAt > now
  }

  /** Soonest to expire first, then by request id. */
  predicate Precedes(a: Binding, b: Binding) {
    a.expiresAt < b.expiresAt || (a.expiresAt == b.expiresAt && Text.Before(a.request.requestId, b.request.requestId))
  }

  predicate Sorted(items: seq<Binding>) {
    forall i, j | 0 <= i < j < |items| :: Precedes(items[i], items[j])
  }

  ghost predicate IsListOf(items: seq<Binding>, bindings: set<Binding>) {
    Sorted(items) && forall b :: b in items <==> b in bindings
  }

  ghost predicate OnePerId(bindings: set<Binding>) {
    forall a, b | a in bindings && b in bindings && a.request.requestId == b.request.requestId :: a == b
  }

  predicate IsFirst(a: Binding, bindings: set<Binding>) {
    a in bindings && forall b | b in bindings && b != a :: Precedes(a, b)
  }

  lemma FirstExists(bindings: set<Binding>)
    requires bindings != {} && OnePerId(bindings)
    ensures exists a :: IsFirst(a, bindings)
  {
    var a :| a in bindings;
    if bindings == {a} {
      assert IsFirst(a, bindings);
    } else {
      FirstExists(bindings - {a});
      var first :| IsFirst(first, bindings - {a});
      FirstOfMore(first, a, bindings);
    }
  }

  lemma FirstOfMore(first: Binding, a: Binding, bindings: set<Binding>)
    requires a in bindings && OnePerId(bindings) && IsFirst(first, bindings - {a})
    ensures IsFirst(first, bindings) || IsFirst(a, bindings)
  {
    Text.BeforeTotal(first.request.requestId, a.request.requestId);
    if Precedes(a, first) {
      forall b | b in bindings && b != a && b != first
        ensures Precedes(a, b)
      {
        PrecedesTransitive(a, first, b);
      }
    }
  }

  lemma PrecedesTransitive(a: Binding, b: Binding, c: Binding)
    requires Precedes(a, b) && Precedes(b, c)
    ensures Precedes(a, c)
  {
    if a.expiresAt == b.expiresAt == c.expiresAt {
      Text.BeforeTransitive(a.request.requestId, b.request.requestId, c.request.requestId);
    }
  }

  lemma PrecedesAsymmetric(a: Binding, b: Binding)
    requires Precedes(a, b)
    ensures a != b && !Precedes(b, a)
  {
    if a.expiresAt == b.expiresAt {
      Text.BeforeAsymmetric(a.request.requestId, b.request.requestId);
    }
  }

  method SortPending(bindings: set<Binding>) returns (items: seq<Binding>)
    requires OnePerId(bindings)
    ensures IsListOf(items, bindings)
  {
    items := [];
    var todo := bindings;
    while todo != {}
      invariant todo <= bindings && Sorted(items)
      invariant forall b :: b in items <==> b in bindings && b !in todo
      invariant forall i, b | 0 <= i < |items| && b in todo :: Precedes(items[i], b)
      decreases todo
    {
      FirstExists(todo);
      var first :| IsFirst(first, todo);
      items := items + [first];
      todo := todo - {first};
    }
  }

  /** A set of bindings has one ordered list. */
  lemma {:induction false} OneList(xs: seq<Binding>, ys: seq<Binding>, bindings: set<Binding>)
    requires IsListOf(xs, bindings) && IsListOf(ys, bindings)
    ensures xs == ys
    decreases |xs|
  {
    EmptyList(xs, bindings);
    EmptyList(ys, bindings);
    if bindings != {} {
      FirstIsSame(xs, ys, bindings);
      TailList(xs, bindings);
      TailList(ys, bindings);
      OneList(xs[1..], ys[1..], bindings - {xs[0]});
      assert xs == [xs[0]] + xs[1..] && ys == [ys[0]] + ys[1..];
    }
  }

  lemma EmptyList(xs: seq<Binding>, bindings: set<Binding>)
    requires IsListOf(xs, bindings)
    ensures xs == [] <==> bindings == {}
  {
    if xs != [] {
      assert xs[0] in xs;
    }
  }

  lemma FirstIsSame(xs: seq<Binding>, ys: seq<Binding>, bindings: set<Binding>)
    requires IsListOf(xs, bindings) && IsListOf(ys, bindings) && xs != [] && ys != []
    ensures xs[0] == ys[0]
  {
    assert xs[0] in bindings && ys[0] in bindings;
    var i :| 0 <= i < |ys| && ys[i] == xs[0];
    var j :| 0 <= j < |xs| && xs[j] == ys[0];
    if i > 0 && j > 0 {
      PrecedesAsymmetric(xs[0], ys[0]);
    }
  }

  lemma TailList(xs: seq<Binding>, bindings: set<Binding>)
    requires IsListOf(xs, bindings) && xs != []
    ensures IsListOf(xs[1..], bindings - {xs[0]})
  {
    forall b | b in xs[1..]
      ensures b != xs[0]
    {
      PrecedesAsymmetric(xs[0], b);
    }
  }

  // ---------------------------------------------------------------- memory

  datatype Memory = Memory(requests: map<string, Binding>, tombs: map<string, real>)

  predicate Over(m: Memory, id: string, now: real) {
    id in m.requests && m.requests[id].expiresAt <= now
  }

  function Entomb(c: Config, m: Memory, id: string, now: real): Memory {
    m.(tombs := if c.tombstoneTtl <= 0.0 then m.tombs - {id} else m.tombs[id := now + c.tombstoneTtl])
  }

  /** The given requests that are over become tombstones. */
  function PruneSome(c: Config, m: Memory, ids: set<string>, now: real): Memory {
    var over := set id | id in ids && Over(m, id, now);
    Memory(m.requests - over,
           if c.tombstoneTtl <= 0.0 then m.tombs - over
           else map id | id in m.tombs.Keys + over :: if id in over then now + c.tombstoneTtl else m.tombs[id])
  }

  function Prune(c: Config, m: Memory, now: real): Memory {
    PruneSome(c, m, m.requests.Keys, now)
  }

  function PruneTombs(m: Memory, now: real): Memory {
    m.(tombs := map id | id in m.tombs && m.tombs[id] > now :: m.tombs[id])
  }

  function MemRemember(c: Config, m: Memory, now: real, request: Request, ttl: Option<real>): Memory {
    var m1 := PruneTombs(Prune(c, m, now), now);
    Memory(m1.requests[request.requestId := Bind(c, now, request, ttl)], m1.tombs - {request.requestId})
  }

  function MemResolve(c: Config, m: Memory, now: real, id: string): (Memory, Answer) {
    if id == "" then (m, Resolved(Missing, None)) else
      var m1 := PruneTombs(m, now);
      if id !in m1.requests then
        (m1, Resolved(if id in m1.tombs then Expired else Missing, None))
      else if m1.requests[id].expiresAt <= now then
        var m2 := Prune(c, m1.(requests := m1.requests - {id}), now);
        (Entomb(c, m2, id, now), Resolved(Expired, None))
      else
        (Prune(c, m1, now), Resolved(Active, Some(m1.requests[id])))
  }

  function MemDiscard(m: Memory, id: string): Memory {
    Memory(m.requests - {id}, m.tombs - {id})
  }

  function MemPending(m: Memory, now: real, identity: string, kind: Option<string>): set<Binding> {
    set b | b in m.requests.Values && Matches(b, identity, kind, now)
  }

  ghost predicate MemStep(c: Config, m: Memory, op: Op, m': Memory, answer: Answer) {
    match op
    case Remember(now, request, ttl) => m' == MemRemember(c, m, now, request, ttl) && answer == Done
    case Resolve(now, id) => (m', answer) == MemResolve(c, m, now, id)
    case Discard(_, id) => m' == MemDiscard(m, id) && answer == Done
    case ListPending(now, identity, kind) =>
      && m' == PruneTombs(Prune(c, m, now), now)
      && answer.Listed? && IsListOf(answer.items, MemPending(m', now, identity, kind))
  }

  predicate MemOk(m: Memory) {
    && (forall id | id in m.requests :: m.requests[id].request.requestId == id)
    && m.requests.Keys !! m.tombs.Keys
  }

  class MemoryInterruptRequestRepository {
    const config: Config
    var requests: map<string, Binding>
    var tombs: map<string, real>

    constructor (config: Config)
      ensures this.config == config && View() == Memory(map[], map[])
    {
      this.config := config;
      requests, tombs := map[], map[];
    }

    ghost function View(): Memory
      reads this
    {
      Memory(requests, tombs)
    }

    method RememberTombstone(id: string, now: real)
      modifies this
      ensures View() == Entomb(config, old(View()), id, now)
    {
      if config.tombstoneTtl <= 0.0 {
        tombs := tombs - {id};
      } else {
        tombs := tombs[id := now + config.tombstoneTtl];
      }
    }

    method PruneRequests(now: real)
      modifies this
      ensures View() == Prune(config, old(View()), now)
    {
      ghost var before := View();
      var todo := set id | id in requests && requests[id].expiresAt <= now;
      ghost var over, done: set<string> := todo, {};
      assert PruneSome(config, before, {}, now) == before;
      while todo != {}
        invariant done + todo == over && done !! todo
        invariant View() == PruneSome(config, before, done, now)
        decreases todo
      {
        var id :| id in todo;
        PruneOneMore(config, before, done, id, now);
        requests := requests - {id};
        RememberTombstone(id, now);
        todo, done := todo - {id}, done + {id};
      }
      PruneOver(config, before, over, now);
    }

    method PruneTombstones(now: real)
      modifies this`tombs
      ensures View() == PruneTombs(old(View()), now)
    {
      var over := set id | id in tombs && tombs[id] <= now;
      tombs := tombs - over;
    }

    method Remember(now: real, request: Request, ttl: Option<real>)
      modifies this
      ensures MemStep(config, old(View()), Op.Remember(now, request, ttl), View(), Done)
    {
      PruneRequests(now);
      PruneTombstones(now);
      requests := requests[request.requestId := Bind(config, now, request, ttl)];
      tombs := tombs - {request.requestId};
    }

    method Resolve(now: real, id: string) returns (answer: Answer)
      modifies this
      ensures MemStep(config, old(View()), Op.Resolve(now, id), View(), answer)
    {
      if id == "" {
        return Resolved(Missing, None);
      }
      PruneTombstones(now);
      var binding := Lookup(requests, id);
      if binding.None? {
        return Resolved(if id in tombs then Expired else Missing, None);
      }
      if binding.value.expiresAt <= now {
        requests := requests - {id};
        PruneRequests(now);
        RememberTombstone(id, now);
        return Resolved(Expired, None);
      }
      PruneRequests(now);
      return Resolved(Active, binding);
    }

    method Discard(id: string)
      modifies this
      ensures View() == MemDiscard(old(View()), id)
    {
      requests := requests - {id};
      tombs := tombs - {id};
    }

    method ListPending(now: real, identity: string, kind: Option<string>) returns (items: seq<Binding>)
      requires MemOk(View())
      modifies this
      ensures MemStep(config, old(View()), Op.ListPending(now, identity, kind), View(), Listed(items))
    {
      PruneRequests(now);
      PruneTombstones(now);
      var pending := set b | b in requests.Values && Matches(b, identity, kind, now);
      items := SortPending(pending);
    }
  }

  lemma PruneOneMore(c: Config, m: Memory, done: set<string>, id: string, now: real)
    requires id !in done && Over(m, id, now)
    ensures var part := PruneSome(c, m, done, now);
      PruneSome(c, m, done + {id}, now) == Entomb(c, part.(requests := part.requests - {id}), id, now)
  {
    var part := PruneSome(c, m, done, now);
    var next := Entomb(c, part.(requests := part.requests - {id}), id, now);
    var all := PruneSome(c, m, done + {id}, now);
    assert all.requests == next.requests;
    assert all.tombs == next.tombs;
  }

  lemma PruneOver(c: Config, m: Memory, over: set<string>, now: real)
    requires over == set id | id in m.requests && m.requests[id].expiresAt <= now
    ensures PruneSome(c, m, over, now) == Prune(c, m, now)
  {
    assert (set id | id in over && Over(m, id, now)) == (set id | id in m.requests.Keys && Over(m, id, now));
  }

  // ---------------------------------------------------------------- database

  /** A row holds a binding, or nothing but the time its tombstone ends. */
  datatype Row = Live(binding: Binding) | Dead(until: Option<real>)

  type Rows = map<string, Row>

  function PruneRows(d: Rows, now: real): Rows {
    map id | id in d && !(d[id].Dead? && d[id].until.Some? && d[id].until.value <= now) :: d[id]
  }

  function Tombstone(c: Config, now: real): Row {
    Dead(if c.tombstoneTtl <= 0.0 then None else Some(now + c.tombstoneTtl))
  }

  function DbRemember(c: Config, d: Rows, now: real, request: Request, ttl: Option<real>): Rows {
    PruneRows(d, now)[request.requestId := Live(Bind(c, now, request, ttl))]
  }

  function DbResolve(c: Config, d: Rows, now: real, id: string): (Rows, Answer) {
    if id == "" then (d, Resolved(Missing, None)) else
      var d1 := PruneRows(d, now);
      if id !in d1 then (d1, Resolved(Missing, None))
      else match d1[id]
        case Dead(None) => (d1, Resolved(Missing, None))
        case Dead(Some(_)) => (d1, Resolved(Expired, None))
        case Live(b) =>
          if b.expiresAt <= now then (d1[id := Tombstone(c, now)], Resolved(Expired, None))
          else (d1, Resolved(Active, Some(b)))
  }

  function DbPending(d: Rows, now: real, identity: string, kind: Option<string>): set<Binding> {
    set id | id in d && d[id].Live? && Matches(d[id].binding, identity, kind, now) :: d[id].binding
  }

  ghost predicate DbStep(c: Config, d: Rows, op: Op, d': Rows, answer: Answer) {
    match op
    case Remember(now, request, ttl) => d' == DbRemember(c, d, now, request, ttl) && answer == Done
    case Resolve(now, id) => (d', answer) == DbResolve(c, d, now, id)
    case Discard(_, id) => d' == d - {id} && answer == Done
    case ListPending(now, identity, kind) =>
      && d' == PruneRows(d, now)
      && answer.Listed? && IsListOf(answer.items, DbPending(d', now, identity, kind))
  }

  predicate DbOk(d: Rows) {
    forall id | id in d && d[id].Live? :: d[id].binding.request.requestId == id
  }

  class DatabaseInterruptRequestRepository {
    const config: Config
    var rows: Rows

    constructor (config: Config)
      ensures this.config == config && rows == map[]
    {
      this.config := config;
      rows := map[];
    }

    method PruneTombstones(now: real)
      modifies this
      ensures rows == PruneRows(old(rows), now)
    {
      var over := set id | id in rows && rows[id].Dead? && rows[id].until.Some? && rows[id].until.value <= now;
      rows := rows - over;
    }

    method SetTombstone(id: string, now: real)
      requires id in rows
      modifies this
      ensures rows == old(rows)[id := Tombstone(config, now)]
    {
      rows := rows[id := Dead(if config.tombstoneTtl <= 0.0 then None else Some(now + config.tombstoneTtl))];
    }

    method Remember(now: real, request: Request, ttl: Option<real>)
      modifies this
      ensures DbStep(config, old(rows), Op.Remember(now, request, ttl), rows, Done)
    {
      PruneTombstones(now);
      rows := rows[request.requestId := Live(Bind(config, now, request, ttl))];
    }

    method Resolve(now: real, id: string) returns (answer: Answer)
      modifies this
      ensures DbStep(config, old(rows), Op.Resolve(now, id), rows, answer)
    {
      if id == "" {
        return Resolved(Missing, None);
      }
      PruneTombstones(now);
      if id !in rows {
        return Resolved(Missing, None);
      }
      var row := rows[id];
      if row.Dead? {
        return Resolved(if row.until.Some? && row.until.value > now then Expired else Missing, None);
      }
      if row.binding.expiresAt <= now {
        SetTombstone(id, now);
        return Resolved(Expired, None);
      }
      return Resolved(Active, Some(row.binding));
    }

    method Discard(id: string)
      modifies this
      ensures rows == old(rows) - {id}
    {
      rows := rows - {id};
    }

    method ListPending(now: real, identity: string, kind: Option<string>) returns (items: seq<Binding>)
      requires DbOk(rows)
      modifies this
      ensures DbStep(config, old(rows), Op.ListPending(now, identity, kind), rows, Listed(items))
    {
      PruneTombstones(now);
      var pending := set id | id in rows && rows[id].Live? && Matches(rows[id].binding, identity, kind, now) ::
        rows[id].binding;
      items := SortPending(pending);
    }
  }
}
