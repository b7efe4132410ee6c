/** What the bounded cache promises: it is a timed map that forgets early only when full. */
module TtlCacheTheorems {
  import opened Prelude
  import opened TtlCache

  // ---------------------------------------------------------------- eviction

  lemma {:induction false} CountUnique(keys: seq<string>)
    ensures Unique(keys) <==> forall k | k in keys :: multiset(keys)[k] == 1
  {
    if keys != [] {
      var rest := keys[1..];
      assert keys == [keys[0]] + rest;
      CountUnique(rest);
      if Unique(keys) {
        assert keys[0] !in rest;
      } else if Unique(rest) {
        assert keys[0] in rest;
        assert multiset(keys)[keys[0]] == 1 + multiset(rest)[keys[0]];
      } else {
        var k :| k in rest && multiset(rest)[k] != 1;
        assert multiset(rest)[k] > 1 && k in keys;
        assert multiset(keys)[k] >= multiset(rest)[k];
      }
    }
  }

  lemma RankedUnique(s: Store)
    requires OrderOk(s)
    ensures Unique(Ranked(s.entries, s.order))
    ensures forall k :: k in Ranked(s.entries, s.order) <==> k in s.order
  {
    var ranked := Ranked(s.entries, s.order);
    CountUnique(s.order);
    CountUnique(ranked);
    assert forall k :: k in ranked <==> k in multiset(ranked);
    assert forall k :: k in s.order <==> k in multiset(s.order);
  }

  lemma {:induction false} SizeOfUnique(keys: seq<string>)
    requires Unique(keys)
    ensures |SetOf(keys)| == |keys|
  {
    if keys != [] {
      SizeOfUnique(keys[1..]);
      assert keys == [keys[0]] + keys[1..];
      assert SetOf(keys) == {keys[0]} + SetOf(keys[1..]);
      assert keys[0] !in keys[1..];
    }
  }

  lemma FirstExpireFirst(entries: map<string, Entry>, ranked: seq<string>, n: nat, gone: string, kept: string)
    requires (forall k | k in ranked :: k in entries) && ByExpiry(entries, ranked) && n <= |ranked|
    requires gone in ranked[..n] && kept in ranked && kept !in ranked[..n]
    ensures entries[gone].expiresAt <= entries[kept].expiresAt
  {
    var i :| 0 <= i < n && ranked[i] == gone;
    var j :| 0 <= j < |ranked| && ranked[j] == kept;
    assert forall m | 0 <= m < n :: ranked[m] in ranked[..n];
    assert j >= n;
  }

  /** What goes for lack of room is exactly the excess, and expires no later than what stays. */
  lemma OverflowShape(c: Config, s: Store)
    requires OrderOk(s) && 0 <= c.maxsize <= |s.order|
    ensures var gone := Overflow(c, s);
      && SetOf(gone) <= s.entries.Keys && |SetOf(gone)| == |s.order| - c.maxsize
      && (forall k, kept | k in gone && kept in s.entries && kept !in gone ::
          s.entries[k].expiresAt <= s.entries[kept].expiresAt)
  {
    var ranked, gone := Ranked(s.entries, s.order), Overflow(c, s);
    RankedUnique(s);
    RankedSorts(s.entries, s.order);
    assert forall k | k in gone :: k in ranked;
    assert Unique(gone);
    SizeOfUnique(gone);
    forall k, kept | k in gone && kept in s.entries && kept !in gone
      ensures s.entries[k].expiresAt <= s.entries[kept].expiresAt
    {
      FirstExpireFirst(s.entries, ranked, |s.order| - c.maxsize, k, kept);
    }
  }

  lemma EvictOk(c: Config, s: Store, now: real)
    requires OrderOk(s) && 0 <= c.maxsize
    ensures OrderOk(Evict(c, s, now)) && |Evict(c, s, now).order| <= c.maxsize
    ensures Evict(c, s, now).entries.Keys <= s.entries.Keys
    ensures forall k | k in Evict(c, s, now).entries :: Evict(c, s, now).entries[k] == s.entries[k]
  {
    if |s.order| > c.maxsize {
      var live := Drop(s, Over(s, now));
      DropOk(s, Over(s, now));
      if |live.order| > c.maxsize {
        OverflowShape(c, live);
        DropOk(live, SetOf(Overflow(c, live)));
      }
    }
  }

  /** Whatever the cache held before, it is within its maximum after every set. */
  lemma SetFits(c: Config, s: Store, key: string, value: string, now: real)
    requires OrderOk(s) && !c.Disabled()
    ensures OrderOk(Kept(c, s, key, value, now)) && |Kept(c, s, key, value, now).order| <= c.maxsize
  {
    var e := Entry(value, Renewal(c, now));
    PutOk(s, key, e);
    EvictOk(c, Put(s, key, e), now);
  }

  /** A live entry is evicted only from a full cache, which stays full, and no entry that
      stays expires sooner. */
  lemma EvictedExpireFirst(c: Config, s: Store, now: real, gone: string)
    requires OrderOk(s) && 0 <= c.maxsize
    requires gone in s.entries && s.entries[gone].expiresAt > now && gone !in Evict(c, s, now).entries
    ensures |Evict(c, s, now).order| == c.maxsize
    ensures forall k | k in Evict(c, s, now).entries ::
      s.entries[k].expiresAt > now && s.entries[gone].expiresAt <= s.entries[k].expiresAt
  {
    var live := Drop(s, Over(s, now));
    DropOk(s, Over(s, now));
    OverflowShape(c, live);
    DropOk(live, SetOf(Overflow(c, live)));
  }

  /** No entry expires later than one that is made now. */
  predicate Current(c: Config, s: Store, now: real) {
    forall k | k in s.entries :: s.entries[k].expiresAt <= Renewal(c, now)
  }

  lemma {:induction false} WithoutLast(order: seq<string>, key: string, keys: set<string>)
    requires key !in keys
    ensures Without(order + [key], keys) == Without(order, keys) + [key]
  {
    if order != [] {
      assert (order + [key])[1..] == order[1..] + [key];
      WithoutLast(order[1..], key, keys);
    }
  }

  lemma RankedLast(entries: map<string, Entry>, order: seq<string>, key: string)
    requires key in entries && (forall k | k in order :: k in entries)
    requires AllBy(entries, order, entries[key].expiresAt)
    ensures (forall k | k in order + [key] :: k in entries)
      && Ranked(entries, order + [key]) == Ranked(entries, order) + [key]
  {
    var ranked, all := Ranked(entries, order), order + [key];
    assert all[..|all| - 1] == order && all[|all| - 1] == key;
    assert Ranked(entries, all) == Insert(entries, ranked, key);
    if ranked != [] {
      assert ranked[|ranked| - 1] in multiset(ranked);
      assert ranked[|ranked| - 1] in order;
    }
  }

  lemma LastSurvives(c: Config, s: Store, rest: seq<string>, key: string)
    requires OrderOk(s) && s.order == rest + [key] && 0 < c.maxsize <= |s.order|
    requires forall k | k in rest :: k in s.entries && s.entries[k].expiresAt <= s.entries[key].expiresAt
    ensures key !in SetOf(Overflow(c, s))
  {
    assert key in s.order;
    RankedLast(s.entries, rest, key);
    RankedUnique(s);
    var ranked := Ranked(s.entries, s.order);
    assert ranked[|ranked| - 1] == key;
  }

  lemma LatestSurvives(c: Config, s: Store, others: seq<string>, key: string, now: real)
    requires OrderOk(s) && s.order == others + [key] && 0 < c.maxsize < |s.order|
    requires key in s.entries && s.entries[key].expiresAt > now
    requires forall k | k in s.entries :: s.entries[k].expiresAt <= s.entries[key].expiresAt
    ensures key in Evict(c, s, now).entries
  {
    var over := Over(s, now);
    var live := Drop(s, over);
    DropOk(s, over);
    WithoutLast(others, key, over);
    if |live.order| > c.maxsize {
      var rest := Without(others, over);
      assert live.order == rest + [key];
      forall k | k in rest
        ensures k in live.entries && live.entries[k].expiresAt <= live.entries[key].expiresAt
      {
        assert k in live.order;
      }
      LastSurvives(c, live, rest, key);
    }
  }

  /** With a clock that never goes back, the key just set is never the one evicted: ties in
      expiry go to the key inserted last. */
  lemma JustSetStays(c: Config, s: Store, key: string, value: string, now: real)
    requires OrderOk(s) && !c.Disabled() && |s.order| <= c.maxsize && Current(c, s, now)
    ensures var after := Kept(c, s, key, value, now);
      key in after.entries && after.entries[key] == Entry(value, Renewal(c, now))
  {
    var e := Entry(value, Renewal(c, now));
    var put := Put(s, key, e);
    PutOk(s, key, e);
    EvictOk(c, put, now);
    if |put.order| > c.maxsize {
      LatestSurvives(c, put, s.order, key, now);
    }
  }

  // ---------------------------------------------------------------- runs

  datatype Op = Get(key: string, now: real) | Set(key: string, now: real, value: string) | Pop(key: string, now: real)

  predicate Timed(ops: seq<Op>) {
    forall i, j | 0 <= i < j < |ops| :: ops[i].now <= ops[j].now
  }

  ghost function Step(c: Config, s: Store, op: Op): (Store, Option<string>)
    requires OrderOk(s)
  {
    match op
    case Get(key, now) => Looked(c, s, key, now)
    case Set(key, now, value) => (Kept(c, s, key, value, now), None)
    case Pop(key, _) => (Drop(s, {key}), None)
  }

  lemma StepKeepsOrder(c: Config, s: Store, op: Op)
    requires OrderOk(s)
    ensures OrderOk(Step(c, s, op).0)
  {
    if op.Set? && !c.Disabled() {
      SetFits(c, s, op.key, op.value, op.now);
    } else {
      DropOk(s, {op.key});
    }
  }

  ghost predicate IsRun(c: Config, states: seq<Store>, ops: seq<Op>, answers: seq<Option<string>>) {
    && |states| == |ops| + 1 && |answers| == |ops| && states[0] == Store(map[], []) && Timed(ops)
    && forall i | 0 <= i < |ops| :: OrderOk(states[i]) ==> (states[i + 1], answers[i]) == Step(c, states[i], ops[i])
  }

  /** The states of a run are dictionaries. */
  lemma {:induction false} RunOrder(c: Config, states: seq<Store>, ops: seq<Op>, answers: seq<Option<string>>, i: nat)
    requires IsRun(c, states, ops, answers) && i < |states|
    ensures OrderOk(states[i])
    ensures i < |ops| ==> (states[i + 1], answers[i]) == Step(c, states[i], ops[i])
  {
    if i > 0 {
      RunOrder(c, states, ops, answers, i - 1);
      StepKeepsOrder(c, states[i - 1], ops[i - 1]);
    }
  }

  /** The timed map: what was last put under the key and has not gone since. A lookup drops an
      entry that is over and, if the cache is told so, renews one that is not. */
  function Latest(c: Config, ops: seq<Op>, key: string): Option<Entry> {
    if ops == [] then None else
      var op := ops[|ops| - 1];
      var before := Latest(c, ops[..|ops| - 1], key);
      if op.key != key then before else
        match op
        case Pop(_, _) => None
        case Set(_, now, value) => Some(Entry(value, Renewal(c, now)))
        case Get(_, now) =>
          if before.None? || before.value.expiresAt <= now then None
          else if c.refreshOnGet then Some(Entry(before.value.value, Renewal(c, now)))
          else before
  }

  predicate Live(e: Option<Entry>, now: real) {
    e.Some? && e.value.expiresAt > now
  }

  ghost predicate Ok(c: Config, s: Store, now: real) {
    OrderOk(s) && |s.order| <= c.maxsize && Current(c, s, now)
  }

  lemma StepOk(c: Config, s: Store, op: Op, was: real)
    requires Ok(c, s, was) && was <= op.now && !c.Disabled()
    ensures Ok(c, Step(c, s, op).0, op.now)
  {
    match op
    case Get(key, now) => DropOk(s, {key});
    case Set(key, now, value) =>
      var e := Entry(value, Renewal(c, now));
      PutOk(s, key, e);
      EvictOk(c, Put(s, key, e), now);
    case Pop(key, _) => DropOk(s, {key}); WithoutShorter(s.order, {key});
  }

  lemma {:induction false} WithoutShorter(order: seq<string>, keys: set<string>)
    ensures |Without(order, keys)| <= |order|
  {
    if order != [] {
      WithoutShorter(order[1..], keys);
    }
  }

  /** The key goes for lack of room although its time is not over. */
  ghost predicate Crowded(s: Store, op: Op, s': Store, key: string) {
    op.Set? && key in s.entries && s.entries[key].expiresAt > op.now && key !in s'.entries
  }

  ghost predicate Faithful(s: Store, latest: Option<Entry>, key: string) {
    key in s.entries ==> latest == Some(s.entries[key])
  }

  ghost predicate Complete(s: Store, latest: Option<Entry>, key: string, now: real) {
    Live(latest, now) ==> key in s.entries
  }

  lemma StepRefines(c: Config, s: Store, op: Op, s': Store, before: seq<Op>, key: string, was: real)
    requires Ok(c, s, was) && was <= op.now && !c.Disabled() && s' == Step(c, s, op).0
    requires Faithful(s, Latest(c, before, key), key)
    ensures Faithful(s', Latest(c, before + [op], key), key)
    ensures Complete(s, Latest(c, before, key), key, was) && !Crowded(s, op, s', key)
      ==> Complete(s', Latest(c, before + [op], key), key, op.now)
  {
    assert (before + [op])[..|before|] == before;
    if op.Set? {
      var e := Entry(op.value, Renewal(c, op.now));
      PutOk(s, op.key, e);
      EvictOk(c, Put(s, op.key, e), op.now);
      JustSetStays(c, s, op.key, op.value, op.now);
    }
  }

  ghost predicate NeverCrowded(states: seq<Store>, ops: seq<Op>, key: string, n: nat)
    requires n <= |ops| && |states| == |ops| + 1
  {
    forall i | 0 <= i < n :: !Crowded(states[i], ops[i], states[i + 1], key)
  }

  lemma {:induction false} RunOk(c: Config, states: seq<Store>, ops: seq<Op>, answers: seq<Option<string>>, i: nat)
    requires IsRun(c, states, ops, answers) && !c.Disabled() && i < |ops|
    ensures Ok(c, states[i], ops[i].now)
  {
    RunOrder(c, states, ops, answers, i);
    if i > 0 {
      var n := i - 1;
      RunOk(c, states, ops, answers, n);
      RunOrder(c, states, ops, answers, n);
      StepOk(c, states[n], ops[n], ops[n].now);
    }
  }

  lemma {:induction false} RunFaithful(c: Config, states: seq<Store>, ops: seq<Op>, answers: seq<Option<string>>,
                                       key: string, i: nat)
    requires IsRun(c, states, ops, answers) && !c.Disabled() && i < |ops|
    ensures Faithful(states[i], Latest(c, ops[..i], key), key)
  {
    if i > 0 {
      var n := i - 1;
      RunFaithful(c, states, ops, answers, key, n);
      RunOk(c, states, ops, answers, n);
      RunOrder(c, states, ops, answers, n);
      StepRefines(c, states[n], ops[n], states[i], ops[..n], key, ops[n].now);
      assert ops[..n] + [ops[n]] == ops[..i];
    }
  }

  lemma {:induction false} RunComplete(c: Config, states: seq<Store>, ops: seq<Op>, answers: seq<Option<string>>,
                                       key: string, i: nat)
    requires IsRun(c, states, ops, answers) && !c.Disabled() && i < |ops|
    requires NeverCrowded(states, ops, key, i)
    ensures Complete(states[i], Latest(c, ops[..i], key), key, ops[i].now)
  {
    if i > 0 {
      var n := i - 1;
      RunComplete(c, states, ops, answers, key, n);
      RunOk(c, states, ops, answers, n);
      RunFaithful(c, states, ops, answers, key, n);
      RunOrder(c, states, ops, answers, n);
      StepRefines(c, states[n], ops[n], states[i], ops[..n], key, ops[n].now);
      assert ops[..n] + [ops[n]] == ops[..i];
    }
  }

  /** A hit returns the value last set, which was not popped and is not over. */
  lemma HitIsLatest(c: Config, states: seq<Store>, ops: seq<Op>, answers: seq<Option<string>>, i: nat)
    requires IsRun(c, states, ops, answers) && i < |ops| && ops[i].Get? && answers[i].Some?
    ensures var latest := Latest(c, ops[..i], ops[i].key);
      Live(latest, ops[i].now) && answers[i].value == latest.value.value
  {
    RunOrder(c, states, ops, answers, i);
    RunFaithful(c, states, ops, answers, ops[i].key, i);
  }

  /** A key that was never crowded out is found exactly while the timed map has it. */
  lemma HitIffLatest(c: Config, states: seq<Store>, ops: seq<Op>, answers: seq<Option<string>>, i: nat)
    requires IsRun(c, states, ops, answers) && !c.Disabled() && i < |ops| && ops[i].Get?
    requires NeverCrowded(states, ops, ops[i].key, i)
    ensures var latest := Latest(c, ops[..i], ops[i].key);
      answers[i] == if Live(latest, ops[i].now) then Some(latest.value.value) else None
  {
    RunOrder(c, states, ops, answers, i);
    RunComplete(c, states, ops, answers, ops[i].key, i);
    RunFaithful(c, states, ops, answers, ops[i].key, i);
  }

  /** Crowding happens only in a full cache, to the key that expires first. */
  lemma CrowdedOnlyWhenFull(c: Config, states: seq<Store>, ops: seq<Op>, answers: seq<Option<string>>, i: nat,
                            key: string)
    requires IsRun(c, states, ops, answers) && !c.Disabled() && i < |ops|
    requires Crowded(states[i], ops[i], states[i + 1], key)
    ensures var after := states[i + 1];
      && |after.order| == c.maxsize && ops[i].key in after.entries
      && (forall k | k in after.entries ::
            ops[i].now < after.entries[k].expiresAt && states[i].entries[key].expiresAt <= after.entries[k].expiresAt)
  {
    var op := ops[i];
    RunOrder(c, states, ops, answers, i);
    RunOk(c, states, ops, answers, i);
    JustSetStays(c, states[i], op.key, op.value, op.now);
    var e := Entry(op.value, Renewal(c, op.now));
    PutOk(states[i], op.key, e);
    EvictOk(c, Put(states[i], op.key, e), op.now);
    EvictedExpireFirst(c, Put(states[i], op.key, e), op.now, key);
  }
}
