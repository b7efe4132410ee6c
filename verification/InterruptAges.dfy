/** When the two interrupt repositories disagree. After a binding expires, memory's tombstone
    starts at the next operation that prunes its requests, the database's at the next resolve of
    the id itself; the calls made so far decide both. */
module InterruptAges {
  import opened Prelude
  import opened Interrupts
  import opened InterruptTheorems

  /** The operation makes memory prune its requests: it remembers, lists, or resolves an id that
      memory still holds. */
  predicate Prunes(c: Config, before: seq<Op>, op: Op)
    decreases |before|, 1
  {
    match op
    case Remember(_, _, _) => true
    case ListPending(_, _, _) => true
    case Resolve(_, id) => id != "" && Bound(c, before, id).Some? && MemStart(c, before, id).None?
    case Discard(_, _) => false
  }

  predicate Rebinds(op: Op, id: string) {
    Renews(op, id) || (op.Discard? && op.id == id)
  }

  /** When memory's tombstone of the id started, if its binding is over and was noticed to be. */
  function MemStart(c: Config, ops: seq<Op>, id: string): Option<real>
    decreases |ops|, 0
  {
    if ops == [] then None else
      var before, op := ops[..|ops| - 1], ops[|ops| - 1];
      if Rebinds(op, id) then None
      else if MemStart(c, before, id).Some? then MemStart(c, before, id)
      else if Prunes(c, before, op) && IsOver(Bound(c, before, id), op.now) then Some(op.now)
      else None
  }

  /** The same for the database. */
  function DbStart(c: Config, ops: seq<Op>, id: string): Option<real> {
    if ops == [] then None else
      var before, op := ops[..|ops| - 1], ops[|ops| - 1];
      if Rebinds(op, id) then None
      else if DbStart(c, before, id).Some? then DbStart(c, before, id)
      else if op.Resolve? && op.id == id != "" && IsOver(Bound(c, before, id), op.now) then Some(op.now)
      else None
  }

  predicate IsOver(bound: Option<Binding>, now: real) {
    bound.Some? && bound.value.expiresAt <= now
  }

  /** A tombstone that started then has ended; without a lifetime it ends as it starts. */
  predicate Ended(c: Config, start: Option<real>, now: real) {
    start.Some? && (c.tombstoneTtl <= 0.0 || start.value + c.tombstoneTtl <= now)
  }

  function StatusOf(c: Config, bound: Option<Binding>, start: Option<real>, now: real): Status {
    if bound.None? then Missing
    else if bound.value.expiresAt > now then Active
    else if Ended(c, start, now) then Missing
    else Expired
  }

  // ---------------------------------------------------------------- memory

  ghost predicate MemTracks(c: Config, ops: seq<Op>, m: Memory, was: real, id: string) {
    var bound, start := Bound(c, ops, id), MemStart(c, ops, id);
    && (id in m.requests <==> bound.Some? && start.None?)
    && (id in m.requests ==> bound == Some(m.requests[id]))
    && (start.Some? ==> IsOver(bound, start.value) && start.value <= was)
    && (id in m.tombs ==> start.Some? && c.tombstoneTtl > 0.0 && m.tombs[id] == start.value + c.tombstoneTtl)
    && (start.Some? && !Ended(c, start, was) ==> id in m.tombs)
  }

  lemma MemTracksStep(c: Config, before: seq<Op>, op: Op, m: Memory, m': Memory, answer: Answer, was: real, id: string)
    requires MemStep(c, m, op, m', answer) && was <= op.now
    requires MemTracks(c, before, m, was, id)
    requires op.Resolve? ==> MemTracks(c, before, m, was, op.id)
    ensures MemTracks(c, before + [op], m', op.now, id)
  {
    assert (before + [op])[..|before|] == before;
    match op
    case Remember(now, request, ttl) => PruneTracks(c, before, op, m, was, id);
    case Discard(_, _) =>
    case Resolve(now, resolved) => ResolveTracks(c, before, op, m, was, id);
    case ListPending(now, identity, kind) => PruneTracks(c, before, op, m, was, id);
  }

  /** What pruning makes of one id. */
  lemma PruneTracks(c: Config, before: seq<Op>, op: Op, m: Memory, was: real, id: string)
    requires MemTracks(c, before, m, was, id) && was <= op.now
    ensures var after := PruneTombs(Prune(c, m, op.now), op.now);
      var bound, known := Bound(c, before, id), MemStart(c, before, id);
      var start := if known.None? && IsOver(bound, op.now) then Some(op.now) else known;
      && (id in after.requests <==> bound.Some? && start.None?)
      && (id in after.requests ==> bound == Some(after.requests[id]))
      && (id in after.tombs ==> start.Some? && c.tombstoneTtl > 0.0 && after.tombs[id] == start.value + c.tombstoneTtl)
      && (start.Some? && !Ended(c, start, op.now) ==> id in after.tombs)
  {
  }

  lemma ResolveTracks(c: Config, before: seq<Op>, op: Op, m: Memory, was: real, id: string)
    requires op.Resolve? && was <= op.now
    requires MemTracks(c, before, m, was, id) && MemTracks(c, before, m, was, op.id)
    requires (before + [op])[..|before|] == before
    ensures MemTracks(c, before + [op], MemResolve(c, m, op.now, op.id).0, op.now, id)
  {
  }

  lemma {:induction false} RunMemTracks(c: Config, ops: seq<Op>, ms: seq<Memory>, ams: seq<Answer>, i: nat, id: string)
    requires Timed(ops) && MemRun(c, ms, ops, ams) && i < |ops|
    ensures MemTracks(c, ops[..i], ms[i], ops[i].now, id)
  {
    if i > 0 {
      RunMemTracks(c, ops, ms, ams, i - 1, id);
      if ops[i - 1].Resolve? {
        RunMemTracks(c, ops, ms, ams, i - 1, ops[i - 1].id);
      }
      MemTracksStep(c, ops[..i - 1], ops[i - 1], ms[i - 1], ms[i], ams[i - 1], ops[i - 1].now, id);
      assert ops[..i - 1] + [ops[i - 1]] == ops[..i];
    }
  }

  // ---------------------------------------------------------------- database

  ghost predicate DbTracks(c: Config, ops: seq<Op>, d: Rows, was: real, id: string) {
    var bound, start := Bound(c, ops, id), DbStart(c, ops, id);
    && (bound.None? ==> id !in d && start.None?)
    && (bound.Some? && start.None? ==> id in d && d[id] == Live(bound.value))
    && (start.Some? ==> IsOver(bound, start.value) && start.value <= was)
    && (start.Some? && id in d ==> d[id] == Tombstone(c, start.value))
    && (start.Some? && !Ended(c, start, was) ==> id in d)
  }

  lemma DbTracksStep(c: Config, before: seq<Op>, op: Op, d: Rows, d': Rows, answer: Answer, was: real, id: string)
    requires DbStep(c, d, op, d', answer) && was <= op.now
    requires DbTracks(c, before, d, was, id)
    ensures DbTracks(c, before + [op], d', op.now, id)
  {
    assert (before + [op])[..|before|] == before;
    DbPruneTracks(c, before, op, d, was, id);
    match op
    case Remember(now, request, ttl) =>
    case Discard(_, _) =>
    case Resolve(now, resolved) => DbResolveTracks(c, before, op, d, was, id);
    case ListPending(now, identity, kind) =>
  }

  /** Pruning ended tombstones changes nothing that is asked later. */
  lemma DbPruneTracks(c: Config, before: seq<Op>, op: Op, d: Rows, was: real, id: string)
    requires DbTracks(c, before, d, was, id) && was <= op.now
    ensures DbTracks(c, before, PruneRows(d, op.now), op.now, id)
  {
    var bound, start := Bound(c, before, id), DbStart(c, before, id);
    if start.Some? && !Ended(c, start, op.now) {
      assert !Ended(c, start, was);
    }
  }

  lemma DbResolveTracks(c: Config, before: seq<Op>, op: Op, d: Rows, was: real, id: string)
    requires op.Resolve? && was <= op.now && DbTracks(c, before, d, was, id)
    requires DbTracks(c, before, PruneRows(d, op.now), op.now, id)
    requires (before + [op])[..|before|] == before
    ensures DbTracks(c, before + [op], DbResolve(c, d, op.now, op.id).0, op.now, id)
  {
    var pruned := PruneRows(d, op.now);
    if op.id != "" && op.id == id && id in pruned {
      match pruned[id]
      case Live(b) =>
      case Dead(until) =>
    }
  }

  lemma {:induction false} RunDbTracks(c: Config, ops: seq<Op>, ds: seq<Rows>, ads: seq<Answer>, i: nat, id: string)
    requires Timed(ops) && DbRun(c, ds, ops, ads) && i < |ops|
    ensures DbTracks(c, ops[..i], ds[i], ops[i].now, id)
  {
    if i > 0 {
      RunDbTracks(c, ops, ds, ads, i - 1, id);
      DbTracksStep(c, ops[..i - 1], ops[i - 1], ds[i - 1], ds[i], ads[i - 1], ops[i - 1].now, id);
      assert ops[..i - 1] + [ops[i - 1]] == ops[..i];
    }
  }

  // ---------------------------------------------------------------- answers

  /** The calls made so far decide every answer of either repository. */
  lemma AnswersFollowCalls(c: Config, ops: seq<Op>, ms: seq<Memory>, ams: seq<Answer>, ds: seq<Rows>,
                           ads: seq<Answer>, i: nat)
    requires Timed(ops) && MemRun(c, ms, ops, ams) && DbRun(c, ds, ops, ads)
    requires i < |ops| && ops[i].Resolve? && ops[i].id != ""
    ensures var id, now := ops[i].id, ops[i].now;
      var bound := Bound(c, ops[..i], id);
      && ams[i].Resolved? && ams[i].status == StatusOf(c, bound, MemStart(c, ops[..i], id), now)
      && ads[i].Resolved? && ads[i].status == StatusOf(c, bound, DbStart(c, ops[..i], id), now)
      && ams[i].binding == (if ams[i].status == Active then bound else None)
      && ads[i].binding == (if ads[i].status == Active then bound else None)
  {
    RunMemTracks(c, ops, ms, ams, i, ops[i].id);
    RunDbTracks(c, ops, ds, ads, i, ops[i].id);
    assert MemStep(c, ms[i], ops[i], ms[i + 1], ams[i]);
    assert DbStep(c, ds[i], ops[i], ds[i + 1], ads[i]);
  }

  /** A resolve is answered differently if and only if the binding is over, memory's tombstone
      has ended, and the database's has not, or has not even started; then memory says missing
      and the database expired. */
  lemma DifferIff(c: Config, ops: seq<Op>, ms: seq<Memory>, ams: seq<Answer>, ds: seq<Rows>, ads: seq<Answer>, i: nat)
    requires Timed(ops) && MemRun(c, ms, ops, ams) && DbRun(c, ds, ops, ads)
    requires i < |ops| && ops[i].Resolve? && ops[i].id != ""
    ensures var id, now := ops[i].id, ops[i].now;
      && (ams[i] != ads[i] <==>
            && IsOver(Bound(c, ops[..i], id), now)
            && Ended(c, MemStart(c, ops[..i], id), now) && !Ended(c, DbStart(c, ops[..i], id), now))
      && (ams[i] != ads[i] ==> ams[i] == Resolved(Missing, None) && ads[i] == Resolved(Expired, None))
  {
    AnswersFollowCalls(c, ops, ms, ams, ds, ads, i);
    RunSim(c, ops, ms, ams, ds, ads, i);
  }
}
