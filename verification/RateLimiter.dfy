/** The sliding-window rate limiter: buckets pruned on access, against the full history. */
module RateLimiter {
  import opened Prelude

  datatype Settings = Settings(maxRequests: int, window: real, maxKeys: int)

  type Config = c: Settings | c.maxRequests > 0 && c.window > 0.0 && c.maxKeys > 0 witness Settings(1, 1.0, 1)

  /** The admission times held per key, and the keys in the order they were inserted. */
  datatype Limiter = Limiter(entries: map<string, seq<real>>, order: seq<string>)

  /** Drops the times that have left the window, from the front. */
  function Pruned(c: Config, times: seq<real>, now: real): seq<real> {
    if times != [] && now - times[0] >= c.window then Pruned(c, times[1..], now) else times
  }

  function Held(l: Limiter, key: string): seq<real> {
    Lookup(l.entries, key).GetOr([])
  }

  function Inserted(l: Limiter, key: string): seq<string> {
    if key in l.entries then l.order else l.order + [key]
  }

  function Evicted(c: Config, l: Limiter): Limiter {
    if |l.order| <= c.maxKeys then l else Limiter(l.entries - {l.order[0]}, l.order[1..])
  }

  function Check(c: Config, l: Limiter, key: string, now: real): (Limiter, bool) {
    var times := Pruned(c, Held(l, key), now);
    if |times| >= c.maxRequests then (Limiter(l.entries[key := times], Inserted(l, key)), false)
    else (Evicted(c, Limiter(l.entries[key := times + [now]], Inserted(l, key))), true)
  }

  function RetryAfter(c: Config, l: Limiter, key: string, now: real): (Limiter, real) {
    if Held(l, key) == [] then (l, c.window) else
      var times := Pruned(c, l.entries[key], now);
      (l.(entries := l.entries[key := times]),
       if times == [] then c.window
       else if times[0] + c.window - now > 0.0 then times[0] + c.window - now else 0.0)
  }

  predicate Unique(keys: seq<string>) {
    forall i, j | 0 <= i < j < |keys| :: keys[i] != keys[j]
  }

  /** The order lists the keys once each. */
  ghost predicate OrderOk(l: Limiter) {
    Unique(l.order) && forall key :: key in l.order <==> key in l.entries
  }

  predicate Small(c: Config, l: Limiter) {
    forall key | key in l.entries :: |l.entries[key]| <= c.maxRequests
  }

  /** The key table never holds more than its maximum. */
  ghost predicate Ok(c: Config, l: Limiter) {
    OrderOk(l) && |l.order| <= c.maxKeys && Small(c, l)
  }

  class SlidingWindowRateLimiter {
    const c: Config
    var entries: map<string, seq<real>>
    var order: seq<string>

    constructor (c: Config)
      ensures this.c == c && View() == Limiter(map[], []) && Ok(c, View())
    {
      this.c := c;
      entries, order := map[], [];
    }

    ghost function View(): Limiter
      reads this
    {
      Limiter(entries, order)
    }

    method Prune(times: seq<real>, now: real) returns (kept: seq<real>)
      ensures kept == Pruned(c, times, now)
    {
      kept := times;
      while kept != [] && now - kept[0] >= c.window
        invariant Pruned(c, kept, now) == Pruned(c, times, now)
        decreases |kept|
      {
        kept := kept[1..];
      }
    }

    method EvictIfNeeded()
      modifies this
      ensures View() == Evicted(c, old(View()))
    {
      if |order| > c.maxKeys {
        entries, order := entries - {order[0]}, order[1..];
      }
    }

    method CheckAndRecord(key: string, now: real) returns (admitted: bool)
      requires Ok(c, View())
      modifies this
      ensures (View(), admitted) == Check(c, old(View()), key, now)
    {
      ghost var before := View();
      if key !in entries {
        entries, order := entries[key := []], order + [key];
      }
      var times := Prune(entries[key], now);
      entries := entries[key := times];
      assert View() == Limiter(before.entries[key := times], Inserted(before, key));
      if |times| < c.maxRequests {
        entries := entries[key := times + [now]];
        assert View() == Limiter(before.entries[key := times + [now]], Inserted(before, key));
        EvictIfNeeded();
        return true;
      }
      return false;
    }

    method RetryDelay(key: string, now: real) returns (delay: real)
      requires Ok(c, View())
      modifies this`entries
      ensures (View(), delay) == RetryAfter(c, old(View()), key, now) && Ok(c, View())
    {
      if key !in entries || entries[key] == [] {
        return c.window;
      }
      PrunedIsSuffix(c, entries[key], now);
      var times := Prune(entries[key], now);
      entries := entries[key := times];
      if times == [] {
        return c.window;
      }
      var left := times[0] + c.window - now;
      return if left > 0.0 then left else 0.0;
    }
  }

  // ---------------------------------------------------------------- pruning

  lemma {:induction false} PrunedIsSuffix(c: Config, times: seq<real>, now: real)
    ensures var kept := Pruned(c, times, now);
      && |kept| <= |times| && kept == times[|times| - |kept|..]
      && (forall i | 0 <= i < |times| - |kept| :: now - times[i] >= c.window)
      && (kept != [] ==> now - kept[0] < c.window)
  {
    if times != [] && now - times[0] >= c.window {
      PrunedIsSuffix(c, times[1..], now);
    }
  }

  /** Pruning early changes nothing for a later look. */
  lemma {:induction false} PrunedLater(c: Config, times: seq<real>, early: real, late: real)
    requires early <= late
    ensures Pruned(c, Pruned(c, times, early), late) == Pruned(c, times, late)
  {
    if times != [] && early - times[0] >= c.window {
      PrunedLater(c, times[1..], early, late);
    }
  }

  lemma {:induction false} PrunedAppend(c: Config, times: seq<real>, x: real, now: real)
    ensures Pruned(c, times + [x], now) ==
      if Pruned(c, times, now) != [] then Pruned(c, times, now) + [x] else Pruned(c, [x], now)
  {
    if times == [] {
      assert times + [x] == [x];
    } else if now - times[0] >= c.window {
      assert (times + [x])[1..] == times[1..] + [x];
      PrunedAppend(c, times[1..], x, now);
    }
  }

  /** How many of the times are still inside the window. */
  function Recent(c: Config, times: seq<real>, now: real): nat {
    if times == [] then 0
    else Recent(c, times[..|times| - 1], now) + if now - times[|times| - 1] < c.window then 1 else 0
  }

  predicate Rising(times: seq<real>) {
    forall i, j | 0 <= i < j < |times| :: times[i] <= times[j]
  }

  lemma {:induction false} PrunedCounts(c: Config, times: seq<real>, now: real)
    requires Rising(times)
    ensures |Pruned(c, times, now)| == Recent(c, times, now)
  {
    if times != [] {
      var most, last := times[..|times| - 1], times[|times| - 1];
      assert times == most + [last];
      PrunedCounts(c, most, now);
      PrunedAppend(c, most, last, now);
      if Pruned(c, most, now) != [] {
        PrunedIsSuffix(c, most, now);
        assert Pruned(c, most, now)[0] <= last;
      }
    }
  }

  // ---------------------------------------------------------------- one step

  lemma InsertedOk(c: Config, l: Limiter, key: string, times: seq<real>)
    requires Ok(c, l) && |times| <= c.maxRequests
    ensures var l' := Limiter(l.entries[key := times], Inserted(l, key));
      OrderOk(l') && Small(c, l') && key in l'.order
      && (|l'.order| <= c.maxKeys || (|l'.order| == c.maxKeys + 1 && l'.order[c.maxKeys] == key))
  {
  }

  lemma EvictedOk(c: Config, l: Limiter, key: string)
    requires OrderOk(l) && Small(c, l) && key in l.order
    requires |l.order| <= c.maxKeys || (|l.order| == c.maxKeys + 1 && l.order[c.maxKeys] == key)
    ensures Ok(c, Evicted(c, l)) && key in Evicted(c, l).entries
  {
    if |l.order| > c.maxKeys {
      assert l.order == [l.order[0]] + l.order[1..];
    }
  }

  /** The key just checked is never the one evicted, and at most one other key is. */
  lemma CheckKeepsOk(c: Config, l: Limiter, key: string, now: real)
    requires Ok(c, l)
    ensures Ok(c, Check(c, l, key, now).0) && key in Check(c, l, key, now).0.entries
  {
    PrunedIsSuffix(c, Held(l, key), now);
    var times := Pruned(c, Held(l, key), now);
    if |times| >= c.maxRequests {
      CheckedKnown(c, l, key, times);
    } else {
      InsertedOk(c, l, key, times + [now]);
      EvictedOk(c, Limiter(l.entries[key := times + [now]], Inserted(l, key)), key);
    }
  }

  lemma CheckedKnown(c: Config, l: Limiter, key: string, times: seq<real>)
    requires Ok(c, l) && |times| <= c.maxRequests && key in l.entries
    ensures Ok(c, Limiter(l.entries[key := times], Inserted(l, key)))
  {
  }

  /** A key is only evicted when another key enters a full table, and it is the oldest there. */
  lemma EvictedIsOldest(c: Config, l: Limiter, key: string, now: real, gone: string)
    requires Ok(c, l) && gone in l.entries && gone !in Check(c, l, key, now).0.entries
    ensures key !in l.entries && |l.order| == c.maxKeys && gone == l.order[0]
  {
  }

  datatype Op = Admit(key: string, now: real) | Ask(key: string, now: real)

  datatype Answer = Admitted(yes: bool) | Wait(delay: real)

  function Step(c: Config, l: Limiter, op: Op): (Limiter, Answer) {
    match op
    case Admit(key, now) => var (l', yes) := Check(c, l, key, now); (l', Admitted(yes))
    case Ask(key, now) => var (l', delay) := RetryAfter(c, l, key, now); (l', Wait(delay))
  }

  lemma StepOk(c: Config, l: Limiter, op: Op)
    requires Ok(c, l)
    ensures Ok(c, Step(c, l, op).0)
  {
    if op.Admit? {
      CheckKeepsOk(c, l, op.key, op.now);
    } else {
      PrunedIsSuffix(c, Held(l, op.key), op.now);
    }
  }

  // ---------------------------------------------------------------- runs

  predicate Timed(ops: seq<Op>) {
    forall i, j | 0 <= i < j < |ops| :: ops[i].now <= ops[j].now
  }

  /** A stretch of a run: it starts in any state the limiter can be in. */
  ghost predicate IsRun(c: Config, states: seq<Limiter>, ops: seq<Op>, answers: seq<Answer>) {
    && |states| == |ops| + 1 && |answers| == |ops| && Ok(c, states[0]) && Timed(ops)
    && forall i | 0 <= i < |ops| :: (states[i + 1], answers[i]) == Step(c, states[i], ops[i])
  }

  /** The stretch starts without the key, and the key is not evicted during it. */
  predicate Kept(states: seq<Limiter>, key: string) {
    && |states| > 0 && key !in states[0].entries
    && forall i | 0 <= i < |states| - 1 :: key in states[i].entries ==> key in states[i + 1].entries
  }

  /** When the key was admitted. */
  function Admissions(ops: seq<Op>, answers: seq<Answer>, key: string): seq<real>
    requires |ops| == |answers|
  {
    if ops == [] then [] else
      var n := |ops| - 1;
      var before := Admissions(ops[..n], answers[..n], key);
      if ops[n].Admit? && ops[n].key == key && answers[n] == Admitted(true) then before + [ops[n].now] else before
  }

  ghost predicate SameFrom(c: Config, held: seq<real>, history: seq<real>, now: real) {
    forall t | t >= now :: Pruned(c, held, t) == Pruned(c, history, t)
  }

  /** What the limiter holds for a key is its history, up to times that have left the window. */
  ghost predicate Refines(c: Config, l: Limiter, history: seq<real>, key: string, now: real) {
    && (key !in l.entries ==> history == [])
    && SameFrom(c, Held(l, key), history, now)
    && Rising(history) && (history != [] ==> history[|history| - 1] <= now)
  }

  lemma SamePruned(c: Config, held: seq<real>, history: seq<real>, was: real, now: real)
    requires SameFrom(c, held, history, was) && was <= now
    ensures SameFrom(c, Pruned(c, held, now), history, now)
  {
    forall t | t >= now
      ensures Pruned(c, Pruned(c, held, now), t) == Pruned(c, history, t)
    {
      PrunedLater(c, held, now, t);
    }
  }

  lemma SameAppend(c: Config, held: seq<real>, history: seq<real>, x: real, now: real)
    requires SameFrom(c, held, history, now)
    ensures SameFrom(c, held + [x], history + [x], now)
  {
    forall t | t >= now
      ensures Pruned(c, held + [x], t) == Pruned(c, history + [x], t)
    {
      PrunedAppend(c, held, x, t);
      PrunedAppend(c, history, x, t);
    }
  }

  function Extended(history: seq<real>, op: Op, answer: Answer, key: string): seq<real> {
    if op.Admit? && op.key == key && answer == Admitted(true) then history + [op.now] else history
  }

  lemma StepRefines(c: Config, l: Limiter, op: Op, history: seq<real>, key: string, was: real)
    requires Ok(c, l) && was <= op.now && Refines(c, l, history, key, was)
    requires key in l.entries ==> key in Step(c, l, op).0.entries
    ensures var (l', answer) := Step(c, l, op);
      Refines(c, l', Extended(history, op, answer, key), key, op.now)
  {
    if op.key == key {
      OwnStepRefines(c, l, op, history, was);
    } else if op.Admit? {
      assert key in Step(c, l, op).0.entries <==> key in l.entries;
    }
  }

  lemma OwnStepRefines(c: Config, l: Limiter, op: Op, history: seq<real>, was: real)
    requires Ok(c, l) && was <= op.now && Refines(c, l, history, op.key, was)
    ensures var (l', answer) := Step(c, l, op);
      Refines(c, l', Extended(history, op, answer, op.key), op.key, op.now)
  {
    var kept := Pruned(c, Held(l, op.key), op.now);
    SamePruned(c, Held(l, op.key), history, was, op.now);
    SameAppend(c, kept, history, op.now, op.now);
    if op.Admit? {
      CheckKeepsOk(c, l, op.key, op.now);
    }
  }

  lemma {:induction false} RunRefines(c: Config, states: seq<Limiter>, ops: seq<Op>, answers: seq<Answer>,
                                      key: string, i: nat)
    requires IsRun(c, states, ops, answers) && Kept(states, key) && i < |ops|
    ensures Ok(c, states[i])
    ensures Refines(c, states[i], Admissions(ops[..i], answers[..i], key), key, ops[i].now)
  {
    if i > 0 {
      var n := i - 1;
      RunRefines(c, states, ops, answers, key, n);
      StepOk(c, states[n], ops[n]);
      assert (states[i], answers[n]) == Step(c, states[n], ops[n]);
      StepRefines(c, states[n], ops[n], Admissions(ops[..n], answers[..n], key), key, ops[n].now);
      assert ops[..i][..n] == ops[..n] && answers[..i][..n] == answers[..n];
      RefinesLater(c, states[i], Admissions(ops[..i], answers[..i], key), key, ops[n].now, ops[i].now);
    }
  }

  lemma RefinesLater(c: Config, l: Limiter, history: seq<real>, key: string, was: real, now: real)
    requires Refines(c, l, history, key, was) && was <= now
    ensures Refines(c, l, history, key, now)
  {
  }

  /** While a key is not evicted it is admitted exactly when fewer than the maximum of all its
      earlier admissions are still inside the window. */
  lemma AdmitsIffWindowHasRoom(c: Config, states: seq<Limiter>, ops: seq<Op>, answers: seq<Answer>, key: string, i: nat)
    requires IsRun(c, states, ops, answers) && Kept(states, key)
    requires i < |ops| && ops[i].Admit? && ops[i].key == key
    ensures answers[i] == Admitted(Recent(c, Admissions(ops[..i], answers[..i], key), ops[i].now) < c.maxRequests)
  {
    var history, now := Admissions(ops[..i], answers[..i], key), ops[i].now;
    RunRefines(c, states, ops, answers, key, i);
    PrunedCounts(c, history, now);
    assert (states[i + 1], answers[i]) == Step(c, states[i], ops[i]);
    assert Pruned(c, Held(states[i], key), now) == Pruned(c, history, now);
  }

  /** Admissions that lie the maximum number of requests apart differ by at least the window. */
  lemma {:induction false} AdmissionsSpaced(c: Config, states: seq<Limiter>, ops: seq<Op>, answers: seq<Answer>,
                                            key: string, i: nat, k: nat)
    requires IsRun(c, states, ops, answers) && Kept(states, key) && i <= |ops|
    requires k + c.maxRequests < |Admissions(ops[..i], answers[..i], key)|
    ensures var times := Admissions(ops[..i], answers[..i], key);
      times[k + c.maxRequests] - times[k] >= c.window
  {
    var n := i - 1;
    assert ops[..i][..n] == ops[..n] && answers[..i][..n] == answers[..n];
    var before := Admissions(ops[..n], answers[..n], key);
    if k + c.maxRequests < |before| {
      AdmissionsSpaced(c, states, ops, answers, key, n, k);
    } else {
      RunRefines(c, states, ops, answers, key, n);
      PrunedIsSuffix(c, before, ops[n].now);
      assert (states[i], answers[n]) == Step(c, states[n], ops[n]);
      assert Pruned(c, Held(states[n], key), ops[n].now) == Pruned(c, before, ops[n].now);
    }
  }

  /** The limiter never holds more keys than its maximum, nor more times per key. */
  lemma {:induction false} KeysBounded(c: Config, states: seq<Limiter>, ops: seq<Op>, answers: seq<Answer>, i: nat)
    requires IsRun(c, states, ops, answers) && i < |states|
    ensures Ok(c, states[i])
  {
    if i > 0 {
      KeysBounded(c, states, ops, answers, i - 1);
      StepOk(c, states[i - 1], ops[i - 1]);
    }
  }

  // ---------------------------------------------------------------- the retry hint

  /** Once `delay` has passed after the hint was given, and not before, the key is admitted. */
  ghost predicate HintExact(c: Config, l: Limiter, key: string, now: real) {
    var (asked, hint) := RetryAfter(c, l, key, now);
    forall at: real | at >= now :: AdmittedAt(c, asked, key, at) <==> at - now >= hint
  }

  predicate AdmittedAt(c: Config, l: Limiter, key: string, at: real) {
    Check(c, l, key, at).1
  }

  /** The hint is the exact shortest wait if and only if a request made instead of asking would
      have been rejected: if the window opened since the rejection, the hint is too long. */
  lemma HintExactIffRejected(c: Config, l: Limiter, key: string, now: real)
    requires Ok(c, l)
    ensures HintExact(c, l, key, now) <==> !AdmittedAt(c, l, key, now)
  {
    hide Ok, OrderOk, Small, Unique;
    if AdmittedAt(c, l, key, now) {
      HintTooLong(c, l, key, now);
      var (asked, hint) := RetryAfter(c, l, key, now);
      assert AdmittedAt(c, asked, key, now) && !(now - now >= hint);
    } else {
      HintOfFull(c, l, key, now);
      var (asked, hint) := RetryAfter(c, l, key, now);
      forall at: real | at >= now
        ensures AdmittedAt(c, asked, key, at) <==> at - now >= hint
      {
        FullOpensWithFirst(c, asked.entries[key], at);
      }
    }
  }

  /** Asking while the key would be admitted: it still would be at once, but the hint says wait. */
  lemma HintTooLong(c: Config, l: Limiter, key: string, now: real)
    requires AdmittedAt(c, l, key, now)
    ensures var (asked, hint) := RetryAfter(c, l, key, now);
      hint > 0.0 && AdmittedAt(c, asked, key, now)
  {
    PrunedIsSuffix(c, Held(l, key), now);
    PrunedLater(c, Held(l, key), now, now);
  }

  /** Asking while the key is rejected: the table holds as many times as it may, all inside the
      window, and the hint is when the first leaves it. */
  lemma HintOfFull(c: Config, l: Limiter, key: string, now: real)
    requires Ok(c, l) && !AdmittedAt(c, l, key, now)
    ensures var (asked, hint) := RetryAfter(c, l, key, now);
      && key in asked.entries && |asked.entries[key]| == c.maxRequests
      && hint == asked.entries[key][0] + c.window - now && hint > 0.0
  {
    FullBucket(c, l, key, now);
    hide Ok, OrderOk, Small, Unique, Check, Pruned;
    var times := Pruned(c, l.entries[key], now);
    assert RetryAfter(c, l, key, now).0.entries[key] == times;
  }

  lemma FullBucket(c: Config, l: Limiter, key: string, now: real)
    requires Small(c, l) && !AdmittedAt(c, l, key, now)
    ensures key in l.entries && l.entries[key] != []
    ensures var times := Pruned(c, l.entries[key], now);
      |times| == c.maxRequests && now - times[0] < c.window
  {
    PrunedIsSuffix(c, Held(l, key), now);
    assert |Pruned(c, Held(l, key), now)| >= c.maxRequests;
    hide Pruned;
    assert key in l.entries;
    assert |l.entries[key]| <= c.maxRequests;
  }

  /** A run with one request per ten seconds: admitted at 0, rejected at 9, and the hint asked
      for at 10, when the window has just opened, is ten seconds instead of none. */
  lemma HintAfterWindowOpened()
    ensures
      var c := Settings(1, 10.0, 1);
      var first := Check(c, Limiter(map[], []), "k", 0.0);
      var second := Check(c, first.0, "k", 9.0);
      var asked := RetryAfter(c, second.0, "k", 10.0);
      first.1 && !second.1 && asked.1 == 10.0 && AdmittedAt(c, asked.0, "k", 10.0)
  {
    var c: Config := Settings(1, 10.0, 1);
    var l := Limiter(map["k" := [0.0]], ["k"]);
    assert Pruned(c, [0.0], 9.0) == [0.0];
    assert Pruned(c, [0.0], 10.0) == Pruned(c, [0.0][1..], 10.0) == [];
    var empty := Limiter(map[], []);
    assert Held(empty, "k") == [] && Pruned(c, [], 0.0) + [0.0] == [0.0] && Inserted(empty, "k") == ["k"];
    assert map["k" := [0.0]] == empty.entries["k" := [0.0]];
    assert Check(c, empty, "k", 0.0) == (l, true);
    assert l.entries["k" := [0.0]] == l.entries;
    assert Check(c, l, "k", 9.0) == (l, false);
  }

  lemma FullOpensWithFirst(c: Config, times: seq<real>, at: real)
    requires |times| == c.maxRequests
    ensures |Pruned(c, times, at)| < c.maxRequests <==> at - times[0] >= c.window
  {
    PrunedIsSuffix(c, times[1..], at);
  }
}
