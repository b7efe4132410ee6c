/** Runs of the two interrupt repositories, side by side and against the history of calls. */
module InterruptTheorems {
  import opened Prelude
  import opened Interrupts
  import Text

  // ---------------------------------------------------------------- simulation

  /** What a memory tombstone of `until` means for the row of the same request. */
  predicate Covers(row: Row, until: real, now: real) {
    match row
    case Live(b) => b.expiresAt <= now
    case Dead(rowUntil) => rowUntil.Some? && until <= rowUntil.value
  }

  /** How the two repositories stand for one request, at time `now`. */
  predicate SimAt(c: Config, now: real, m: Memory, d: Rows, id: string) {
    && (id in m.requests ==> id in d && d[id] == Live(m.requests[id]))
    && (id in d && d[id].Live? && d[id].binding.expiresAt > now ==> id in m.requests)
    && (id in m.tombs ==> m.tombs[id] <= now + c.tombstoneTtl)
    && (id in m.tombs && m.tombs[id] > now ==> id in d && Covers(d[id], m.tombs[id], now))
  }

  ghost predicate Sim(c: Config, now: real, m: Memory, d: Rows) {
    MemOk(m) && DbOk(d) && forall id :: SimAt(c, now, m, d, id)
  }

  predicate Agree(mem: Answer, db: Answer) {
    && (mem.Done? <==> db.Done?)
    && (mem.Listed? || db.Listed? ==> mem == db)
    && (mem.Resolved? ==> db.Resolved?
                          && mem.binding == db.binding
                          && (mem.status == Active <==> db.status == Active)
                          && (mem.status == Expired ==> db.status == Expired))
  }

  lemma SimRemember(c: Config, was: real, m: Memory, d: Rows, now: real, request: Request, ttl: Option<real>)
    requires Sim(c, was, m, d) && was <= now
    ensures Sim(c, now, MemRemember(c, m, now, request, ttl), DbRemember(c, d, now, request, ttl))
  {
    var m', d' := MemRemember(c, m, now, request, ttl), DbRemember(c, d, now, request, ttl);
    forall id
      ensures SimAt(c, now, m', d', id)
    {
      assert SimAt(c, was, m, d, id);
    }
  }

  lemma SimResolveAt(c: Config, was: real, m: Memory, d: Rows, now: real, id: string, k: string)
    requires SimAt(c, was, m, d, id) && SimAt(c, was, m, d, k) && was <= now
    ensures SimAt(c, now, MemResolve(c, m, now, id).0, DbResolve(c, d, now, id).0, k)
  {
  }

  lemma SimResolve(c: Config, was: real, m: Memory, d: Rows, now: real, id: string)
    requires Sim(c, was, m, d) && was <= now
    ensures var (m', am) := MemResolve(c, m, now, id);
      var (d', ad) := DbResolve(c, d, now, id);
      Sim(c, now, m', d') && Agree(am, ad)
  {
    var (m', am) := MemResolve(c, m, now, id);
    var (d', ad) := DbResolve(c, d, now, id);
    assert SimAt(c, was, m, d, id);
    forall k
      ensures SimAt(c, now, m', d', k)
    {
      assert SimAt(c, was, m, d, k);
      SimResolveAt(c, was, m, d, now, id, k);
    }
  }

  lemma SimPrune(c: Config, was: real, m: Memory, d: Rows, now: real)
    requires Sim(c, was, m, d) && was <= now
    ensures Sim(c, now, PruneTombs(Prune(c, m, now), now), PruneRows(d, now))
  {
    var m', d' := PruneTombs(Prune(c, m, now), now), PruneRows(d, now);
    forall id
      ensures SimAt(c, now, m', d', id)
    {
      assert SimAt(c, was, m, d, id);
    }
  }

  lemma SamePending(c: Config, now: real, m: Memory, d: Rows, identity: string, kind: Option<string>)
    requires Sim(c, now, m, d)
    ensures MemPending(m, now, identity, kind) == DbPending(d, now, identity, kind)
  {
    forall b | b in MemPending(m, now, identity, kind)
      ensures b in DbPending(d, now, identity, kind)
    {
      var id :| id in m.requests && m.requests[id] == b;
      assert SimAt(c, now, m, d, id);
      assert d[id].binding == b;
    }
    forall b | b in DbPending(d, now, identity, kind)
      ensures b in MemPending(m, now, identity, kind)
    {
      var id :| id in d && d[id].Live? && Matches(d[id].binding, identity, kind, now) && d[id].binding == b;
      assert SimAt(c, now, m, d, id);
    }
  }

  lemma SimStep(c: Config, was: real, m: Memory, d: Rows, op: Op, m': Memory, am: Answer, d': Rows, ad: Answer)
    requires Sim(c, was, m, d) && was <= op.now
    requires MemStep(c, m, op, m', am) && DbStep(c, d, op, d', ad)
    ensures Sim(c, op.now, m', d') && Agree(am, ad)
  {
    match op
    case Remember(now, request, ttl) =>
      SimRemember(c, was, m, d, now, request, ttl);
    case Resolve(now, id) =>
      SimResolve(c, was, m, d, now, id);
    case Discard(now, id) =>
      forall k
        ensures SimAt(c, now, m', d', k)
      {
        assert SimAt(c, was, m, d, k);
      }
    case ListPending(now, identity, kind) =>
      SimPrune(c, was, m, d, now);
      SamePending(c, now, m', d', identity, kind);
      OneList(am.items, ad.items, MemPending(m', now, identity, kind));
  }

  // ---------------------------------------------------------------- runs

  /** The operations read one monotone clock. */
  predicate Timed(ops: seq<Op>) {
    forall i, j | 0 <= i < j < |ops| :: ops[i].now <= ops[j].now
  }

  ghost predicate MemRun(c: Config, states: seq<Memory>, ops: seq<Op>, answers: seq<Answer>) {
    && |states| == |ops| + 1 && |answers| == |ops| && states[0] == Memory(map[], map[])
    && forall i | 0 <= i < |ops| :: MemStep(c, states[i], ops[i], states[i + 1], answers[i])
  }

  ghost predicate DbRun(c: Config, states: seq<Rows>, ops: seq<Op>, answers: seq<Answer>) {
    && |states| == |ops| + 1 && |answers| == |ops| && states[0] == map[]
    && forall i | 0 <= i < |ops| :: DbStep(c, states[i], ops[i], states[i + 1], answers[i])
  }

  lemma {:induction false} RunSim(c: Config, ops: seq<Op>, ms: seq<Memory>, ams: seq<Answer>, ds: seq<Rows>,
                                  ads: seq<Answer>, i: nat)
    requires Timed(ops) && MemRun(c, ms, ops, ams) && DbRun(c, ds, ops, ads) && i < |ops|
    ensures Sim(c, ops[i].now, ms[i], ds[i])
    ensures Agree(ams[i], ads[i])
  {
    if i == 0 {
      assert forall id :: SimAt(c, ops[0].now, ms[0], ds[0], id);
      SimStep(c, ops[0].now, ms[0], ds[0], ops[0], ms[1], ams[0], ds[1], ads[0]);
    } else {
      var before := ops[i - 1].now;
      RunSim(c, ops, ms, ams, ds, ads, i - 1);
      SimStep(c, before, ms[i - 1], ds[i - 1], ops[i - 1], ms[i], ams[i - 1], ds[i], ads[i - 1]);
      SimLater(c, before, ms[i], ds[i], ops[i].now);
      SimStep(c, before, ms[i], ds[i], ops[i], ms[i + 1], ams[i], ds[i + 1], ads[i]);
    }
  }

  lemma SimLater(c: Config, was: real, m: Memory, d: Rows, now: real)
    requires Sim(c, was, m, d) && was <= now
    ensures Sim(c, now, m, d)
  {
    forall id
      ensures SimAt(c, now, m, d, id)
    {
      assert SimAt(c, was, m, d, id);
    }
  }

  /** In lockstep the two repositories give the same active answers with the same bindings
      and the same pending lists in the same order; what memory calls expired, the database
      calls expired too. */
  lemma Lockstep(c: Config, ops: seq<Op>, ms: seq<Memory>, ams: seq<Answer>, ds: seq<Rows>, ads: seq<Answer>)
    requires Timed(ops) && MemRun(c, ms, ops, ams) && DbRun(c, ds, ops, ads)
    ensures forall i | 0 <= i < |ops| :: Agree(ams[i], ads[i])
  {
    forall i | 0 <= i < |ops|
      ensures Agree(ams[i], ads[i])
    {
      RunSim(c, ops, ms, ams, ds, ads, i);
    }
  }

  // ---------------------------------------------------------------- against the history

  /** The binding that the calls made so far leave under an id. */
  function Bound(c: Config, ops: seq<Op>, id: string): Option<Binding> {
    if ops == [] then None else
      match ops[|ops| - 1]
      case Remember(now, request, ttl) =>
        if request.requestId == id then Some(Bind(c, now, request, ttl)) else Bound(c, ops[..|ops| - 1], id)
      case Discard(_, discarded) =>
        if discarded == id then None else Bound(c, ops[..|ops| - 1], id)
      case _ => Bound(c, ops[..|ops| - 1], id)
  }

  predicate HistoryAt(bound: Option<Binding>, m: Memory, now: real, id: string) {
    && (id in m.requests ==> bound == Some(m.requests[id]))
    && (bound.Some? ==> bound.value.request.requestId == id)
    && (bound.Some? && bound.value.expiresAt > now ==> id in m.requests)
  }

  lemma HistoryStep(c: Config, before: seq<Op>, op: Op, m: Memory, m': Memory, answer: Answer, was: real, id: string)
    requires MemStep(c, m, op, m', answer) && was <= op.now
    requires HistoryAt(Bound(c, before, id), m, was, id)
    ensures HistoryAt(Bound(c, before + [op], id), m', op.now, id)
  {
    assert (before + [op])[..|before|] == before;
  }

  lemma {:induction false} RunHistory(c: Config, ops: seq<Op>, ms: seq<Memory>, ams: seq<Answer>, i: nat, id: string)
    requires Timed(ops) && MemRun(c, ms, ops, ams) && i < |ops|
    ensures HistoryAt(Bound(c, ops[..i], id), ms[i], ops[i].now, id)
  {
    if i > 0 {
      RunHistory(c, ops, ms, ams, i - 1, id);
      HistoryStep(c, ops[..i - 1], ops[i - 1], ms[i - 1], ms[i], ams[i - 1], ops[i - 1].now, id);
      assert ops[..i - 1] + [ops[i - 1]] == ops[..i];
    }
  }

  /** A request is active, in either repository, exactly while the binding last remembered for
      it stands: not discarded since, and not expired. */
  lemma ActiveIffBound(c: Config, ops: seq<Op>, ms: seq<Memory>, ams: seq<Answer>, ds: seq<Rows>, ads: seq<Answer>,
                       i: nat, b: Binding)
    requires Timed(ops) && MemRun(c, ms, ops, ams) && DbRun(c, ds, ops, ads)
    requires i < |ops| && ops[i].Resolve? && ops[i].id != ""
    ensures ams[i] == Resolved(Active, Some(b)) <==>
      Bound(c, ops[..i], ops[i].id) == Some(b) && b.expiresAt > ops[i].now
    ensures ads[i] == Resolved(Active, Some(b)) <==>
      Bound(c, ops[..i], ops[i].id) == Some(b) && b.expiresAt > ops[i].now
  {
    RunHistory(c, ops, ms, ams, i, ops[i].id);
    RunSim(c, ops, ms, ams, ds, ads, i);
    assert MemStep(c, ms[i], ops[i], ms[i + 1], ams[i]);
  }

  /** A pending list holds exactly the bindings that stand and match, soonest to expire first. */
  lemma PendingIffBound(c: Config, ops: seq<Op>, ms: seq<Memory>, ams: seq<Answer>, ds: seq<Rows>, ads: seq<Answer>,
                        i: nat, b: Binding)
    requires Timed(ops) && MemRun(c, ms, ops, ams) && DbRun(c, ds, ops, ads)
    requires i < |ops| && ops[i].ListPending?
    ensures ams[i].Listed? && ads[i] == ams[i] && Sorted(ams[i].items)
    ensures b in ams[i].items <==>
      Bound(c, ops[..i], b.request.requestId) == Some(b) && Matches(b, ops[i].identity, ops[i].kind, ops[i].now)
  {
    RunSim(c, ops, ms, ams, ds, ads, i);
    assert MemStep(c, ms[i], ops[i], ms[i + 1], ams[i]);
    var id := b.request.requestId;
    RunHistory(c, ops, ms, ams, i, id);
    HistoryStep(c, ops[..i], ops[i], ms[i], ms[i + 1], ams[i], ops[i].now, id);
    assert (ops[..i] + [ops[i]])[..i] == ops[..i];
    assert MemOk(ms[i + 1]);
  }

  // ---------------------------------------------------------------- statuses only age

  function Rank(s: Status): nat {
    match s
    case Active => 0
    case Expired => 1
    case Missing => 2
  }

  function MemStatus(m: Memory, id: string, now: real): Status {
    if id in m.requests then (if m.requests[id].expiresAt > now then Active else Expired)
    else if id in m.tombs && m.tombs[id] > now then Expired
    else Missing
  }

  function DbStatus(d: Rows, id: string, now: real): Status {
    if id !in d then Missing else
      match d[id]
      case Live(b) => if b.expiresAt > now then Active else Expired
      case Dead(until) => if until.Some? && until.value > now then Expired else Missing
  }

  predicate Renews(op: Op, id: string) {
    op.Remember? && op.request.requestId == id
  }

  lemma MemAges(c: Config, m: Memory, op: Op, m': Memory, answer: Answer, id: string, was: real, now: real)
    requires MemStep(c, m, op, m', answer) && !Renews(op, id) && was <= op.now <= now
    ensures Rank(MemStatus(m, id, was)) <= Rank(MemStatus(m', id, now))
    ensures op.Resolve? && op.id == id != "" ==>
      answer.Resolved? && answer.status == MemStatus(m, id, op.now)
      && Rank(answer.status) <= Rank(MemStatus(m', id, now))
  {
  }

  lemma DbAges(c: Config, d: Rows, op: Op, d': Rows, answer: Answer, id: string, was: real, now: real)
    requires DbStep(c, d, op, d', answer) && !Renews(op, id) && was <= op.now <= now
    ensures Rank(DbStatus(d, id, was)) <= Rank(DbStatus(d', id, now))
    ensures op.Resolve? && op.id == id != "" ==>
      answer.Resolved? && answer.status == DbStatus(d, id, op.now)
      && Rank(answer.status) <= Rank(DbStatus(d', id, now))
  {
  }

  /** Operations i (included) to j (excluded) never remember the id again. */
  predicate Untouched(ops: seq<Op>, i: nat, j: nat, id: string)
    requires i <= j <= |ops|
  {
    forall k | i <= k < j :: !Renews(ops[k], id)
  }

  lemma {:induction false} MemAgesOver(c: Config, ops: seq<Op>, ms: seq<Memory>, ams: seq<Answer>, i: nat, j: nat,
                                       id: string)
    requires Timed(ops) && MemRun(c, ms, ops, ams) && i < j < |ops| && Untouched(ops, i, j, id)
    ensures Rank(MemStatus(ms[i + 1], id, ops[i].now)) <= Rank(MemStatus(ms[j], id, ops[j].now))
    decreases j
  {
    MemAges(c, ms[j - 1], ops[j - 1], ms[j], ams[j - 1], id, ops[j - 1].now, ops[j].now);
    if i + 1 < j {
      MemAgesOver(c, ops, ms, ams, i, j - 1, id);
    }
  }

  lemma {:induction false} DbAgesOver(c: Config, ops: seq<Op>, ds: seq<Rows>, ads: seq<Answer>, i: nat, j: nat,
                                      id: string)
    requires Timed(ops) && DbRun(c, ds, ops, ads) && i < j < |ops| && Untouched(ops, i, j, id)
    ensures Rank(DbStatus(ds[i + 1], id, ops[i].now)) <= Rank(DbStatus(ds[j], id, ops[j].now))
    decreases j
  {
    DbAges(c, ds[j - 1], ops[j - 1], ds[j], ads[j - 1], id, ops[j - 1].now, ops[j].now);
    if i + 1 < j {
      DbAgesOver(c, ops, ds, ads, i, j - 1, id);
    }
  }

  /** Until an id is remembered again its answers only go from active to expired to missing. */
  lemma AnswersOnlyAge(c: Config, ops: seq<Op>, ms: seq<Memory>, ams: seq<Answer>, ds: seq<Rows>, ads: seq<Answer>,
                       i: nat, j: nat, id: string)
    requires Timed(ops) && MemRun(c, ms, ops, ams) && DbRun(c, ds, ops, ads)
    requires i < j < |ops| && ops[i].Resolve? && ops[j].Resolve? && ops[i].id == ops[j].id == id
    requires Untouched(ops, i, j, id)
    ensures ams[i].Resolved? && ams[j].Resolved? && Rank(ams[i].status) <= Rank(ams[j].status)
    ensures ads[i].Resolved? && ads[j].Resolved? && Rank(ads[i].status) <= Rank(ads[j].status)
  {
    assert MemStep(c, ms[i], ops[i], ms[i + 1], ams[i]) && MemStep(c, ms[j], ops[j], ms[j + 1], ams[j]);
    assert DbStep(c, ds[i], ops[i], ds[i + 1], ads[i]) && DbStep(c, ds[j], ops[j], ds[j + 1], ads[j]);
    if id != "" {
      MemAges(c, ms[i], ops[i], ms[i + 1], ams[i], id, ops[i].now, ops[i].now);
      MemAges(c, ms[j], ops[j], ms[j + 1], ams[j], id, ops[j].now, ops[j].now);
      MemAgesOver(c, ops, ms, ams, i, j, id);
      DbAges(c, ds[i], ops[i], ds[i + 1], ads[i], id, ops[i].now, ops[i].now);
      DbAges(c, ds[j], ops[j], ds[j + 1], ads[j], id, ops[j].now, ops[j].now);
      DbAgesOver(c, ops, ds, ads, i, j, id);
    }
  }

  /** The converse fails: a listing in between starts memory's tombstone, and the database,
      which starts its own only when asked, still says expired when memory has forgotten. */
  lemma MemoryForgetsFirst(request: Request)
    returns (c: Config, ops: seq<Op>, ms: seq<Memory>, ams: seq<Answer>, ds: seq<Rows>, ads: seq<Answer>)
    requires request.requestId == "a"
    ensures Timed(ops) && MemRun(c, ms, ops, ams) && DbRun(c, ds, ops, ads) && |ops| == 3
    ensures ams[2] == Resolved(Missing, None) && ads[2] == Resolved(Expired, None)
  {
    c := Config(10.0, 5.0);
    ops := [Remember(0.0, request, None), ListPending(10.0, "i", None), Resolve(20.0, "a")];
    var b := Binding(request, 10.0);
    ms := [Memory(map[], map[]), Memory(map["a" := b], map[]), Memory(map[], map["a" := 15.0]), Memory(map[], map[])];
    ds := [map[], map["a" := Live(b)], map["a" := Live(b)], map["a" := Dead(Some(25.0))]];
    ams := [Done, Listed([]), Resolved(Missing, None)];
    ads := [Done, Listed([]), Resolved(Expired, None)];
    assert Prune(c, ms[1], 10.0) == ms[2] && PruneTombs(ms[2], 10.0) == ms[2];
    assert MemStep(c, ms[1], ops[1], ms[2], ams[1]);
    assert PruneRows(ds[1], 10.0) == ds[1] && PruneRows(ds[2], 20.0) == ds[2];
    assert DbStep(c, ds[1], ops[1], ds[2], ads[1]);
    assert ds[2]["a" := Tombstone(c, 20.0)] == ds[3];
    assert DbStep(c, ds[2], ops[2], ds[3], ads[2]);
  }
}
