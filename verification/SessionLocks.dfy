/** One execution at a time per session: coordinators queue for the session's lock. A cleanup
    first awaits other things and then releases that lock if it is locked, whoever holds it. */
module SessionLocks {
  import opened Prelude

  /** `acquired` says whether a coordinator in its cleanup ever had the lock. */
  datatype Phase = Waiting(session: Name) | Running(session: Name) | Cleaning(session: Name, acquired: bool)

  /** Coordinators from asking for a lock to the end of their cleanup, and the locked sessions. */
  datatype World = World(phases: map<nat, Phase>, locked: set<Name>)

  datatype Step =
    | Ask(who: nat, session: Name)
    | Acquire(who: nat)
    | Finish(who: nat)          // a running coordinator ends, in whatever way
    | CancelWaiting(who: nat)   // cancelled while it awaits the lock
    | Release(who: nat)         // a cleanup reaches its release
    | CutCleanup(who: nat)      // a cleanup is cancelled before that
    | Forget(session: Name)     // nobody refers to the session's lock any more

  function Init(): World {
    World(map[], {})
  }

  predicate IsWaiting(w: World, who: nat) {
    who in w.phases && w.phases[who].Waiting?
  }

  predicate IsRunning(w: World, who: nat) {
    who in w.phases && w.phases[who].Running?
  }

  predicate IsCleaning(w: World, who: nat) {
    who in w.phases && w.phases[who].Cleaning?
  }

  /** The coordinator took the lock and has not come to releasing it. */
  predicate Holds(w: World, who: nat, session: Name) {
    && who in w.phases && w.phases[who].session == session
    && (w.phases[who].Running? || (w.phases[who].Cleaning? && w.phases[who].acquired))
  }

  predicate AnyHolds(w: World, session: Name) {
    exists a | a in w.phases :: Holds(w, a, session)
  }

  predicate Referred(w: World, session: Name) {
    exists a | a in w.phases :: w.phases[a].session == session
  }

  function Apply(w: World, step: Step): World {
    match step
    case Ask(who, session) => if who in w.phases then w else w.(phases := w.phases[who := Waiting(session)])
    case Acquire(who) =>
      if IsWaiting(w, who) && w.phases[who].session !in w.locked
      then World(w.phases[who := Running(w.phases[who].session)], w.locked + {w.phases[who].session})
      else w
    case Finish(who) =>
      if IsRunning(w, who) then w.(phases := w.phases[who := Cleaning(w.phases[who].session, true)]) else w
    case CancelWaiting(who) =>
      if IsWaiting(w, who) then w.(phases := w.phases[who := Cleaning(w.phases[who].session, false)]) else w
    case Release(who) =>
      if IsCleaning(w, who) then World(w.phases - {who}, w.locked - {w.phases[who].session}) else w
    case CutCleanup(who) => if IsCleaning(w, who) then w.(phases := w.phases - {who}) else w
    case Forget(session) => if Referred(w, session) then w else w.(locked := w.locked - {session})
  }

  function Run(w: World, steps: seq<Step>): World
    decreases |steps|
  {
    if steps == [] then w else Run(Apply(w, steps[0]), steps[1..])
  }

  // ---------------------------------------------------------------- exclusion

  /** No two coordinators hold one session, running or on their way out. */
  ghost predicate Exclusive(w: World) {
    forall a, b, s | Holds(w, a, s) && Holds(w, b, s) :: a == b
  }

  /** The session of every holder is locked. */
  ghost predicate Guarded(w: World) {
    forall a, s | Holds(w, a, s) :: s in w.locked
  }

  /** The cleanup of a coordinator that never had the lock releases it while another holds it. */
  predicate Steals(w: World, step: Step) {
    && step.Release? && IsCleaning(w, step.who) && !w.phases[step.who].acquired
    && AnyHolds(w, w.phases[step.who].session)
  }

  lemma SomeoneHolds(w: World, session: Name)
    ensures AnyHolds(w, session) <==> exists a :: Holds(w, a, session)
  {
    if a :| Holds(w, a, session) {
      assert a in w.phases;
    }
  }

  /** Who holds what after a step: only acquiring adds a holder, only leaving removes one. */
  lemma HoldersAfter(w: World, step: Step, a: nat, s: Name)
    ensures Holds(Apply(w, step), a, s) <==>
      || (Holds(w, a, s) && !((step.Release? || step.CutCleanup?) && step.who == a && IsCleaning(w, a)))
      || (step == Acquire(a) && IsWaiting(w, a) && w.phases[a].session == s && s !in w.locked)
  {
  }

  /** Exactly such a release leaves a holder without its lock. */
  lemma GuardedUnlessStolen(w: World, step: Step)
    requires Exclusive(w) && Guarded(w)
    ensures Exclusive(Apply(w, step))
    ensures Guarded(Apply(w, step)) <==> !Steals(w, step)
  {
    var v := Apply(w, step);
    forall a, s
      ensures Holds(v, a, s) <==>
        || (Holds(w, a, s) && !((step.Release? || step.CutCleanup?) && step.who == a && IsCleaning(w, a)))
        || (step == Acquire(a) && IsWaiting(w, a) && w.phases[a].session == s && s !in w.locked)
    {
      HoldersAfter(w, step, a, s);
    }
    if Steals(w, step) {
      var session := w.phases[step.who].session;
      SomeoneHolds(w, session);
      var a :| Holds(w, a, session);
      assert Holds(v, a, session) && session !in v.locked;
    } else {
      forall a, s | Holds(v, a, s)
        ensures s in v.locked
      {
        StillLocked(w, step, a, s);
      }
    }
  }

  lemma StillLocked(w: World, step: Step, a: nat, s: Name)
    requires Exclusive(w) && Guarded(w) && !Steals(w, step) && Holds(Apply(w, step), a, s)
    ensures s in Apply(w, step).locked
  {
    HoldersAfter(w, step, a, s);
    if Holds(w, a, s) {
      SomeoneHolds(w, s);
      assert s in w.locked && Referred(w, s);
      if step.Release? && IsCleaning(w, step.who) && w.phases[step.who].session == s {
        assert w.phases[step.who].acquired;
        assert Holds(w, step.who, s);
      }
    }
  }

  ghost predicate GuardedThroughout(w: World, steps: seq<Step>)
    decreases |steps|
  {
    Guarded(w) && (steps == [] || GuardedThroughout(Apply(w, steps[0]), steps[1..]))
  }

  predicate NeverSteals(w: World, steps: seq<Step>)
    decreases |steps|
  {
    steps == [] || (!Steals(w, steps[0]) && NeverSteals(Apply(w, steps[0]), steps[1..]))
  }

  /** Over any run, every holder keeps its session locked if and only if no cleanup releases a
      lock that it never had and another holds; and then no session ever has two holders. */
  lemma {:induction false} ExclusiveUnlessStolen(w: World, steps: seq<Step>)
    requires Exclusive(w) && Guarded(w)
    ensures GuardedThroughout(w, steps) <==> NeverSteals(w, steps)
    ensures NeverSteals(w, steps) ==> Exclusive(Run(w, steps))
    decreases |steps|
  {
    if steps != [] {
      GuardedUnlessStolen(w, steps[0]);
      if !Steals(w, steps[0]) {
        ExclusiveUnlessStolen(Apply(w, steps[0]), steps[1..]);
      }
    }
  }

  /** Everybody who cleans up has had the lock. */
  predicate AllAcquired(w: World) {
    forall a | a in w.phases :: w.phases[a].Cleaning? ==> w.phases[a].acquired
  }

  lemma {:induction false} NoneStolen(w: World, steps: seq<Step>)
    requires AllAcquired(w) && forall s | s in steps :: !s.CancelWaiting?
    ensures NeverSteals(w, steps)
    decreases |steps|
  {
    if steps != [] {
      assert steps[0] in steps;
      NoneStolen(Apply(w, steps[0]), steps[1..]);
    }
  }

  /** In every run without a coordinator that is cancelled while it waits, however cleanups are
      delayed or cut, no session has two coordinators at a time. */
  lemma ExclusiveWithoutCancelledWaiter(steps: seq<Step>)
    requires forall s | s in steps :: !s.CancelWaiting?
    ensures Exclusive(Run(Init(), steps)) && GuardedThroughout(Init(), steps)
  {
    NoneStolen(Init(), steps);
    ExclusiveUnlessStolen(Init(), steps);
  }

  /** After a steal the next coordinator in the queue runs beside the one that lost its lock. */
  lemma StolenLockIsShared(w: World, step: Step, next: nat)
    requires Steals(w, step) && IsWaiting(w, next) && w.phases[next].session == w.phases[step.who].session
    ensures !Exclusive(Apply(Apply(w, step), Acquire(next)))
  {
    var session := w.phases[step.who].session;
    SomeoneHolds(w, session);
    var a :| Holds(w, a, session);
    var v := Apply(Apply(w, step), Acquire(next));
    assert Holds(v, a, session) && Holds(v, next, session);
  }

  // ---------------------------------------------------------------- locks that nobody releases

  /** Every locked session has a coordinator that will release it. */
  ghost predicate LocksHeld(w: World) {
    forall s | s in w.locked :: AnyHolds(w, s)
  }

  /** The cleanup of the last holder of a locked session is cut. */
  predicate Orphans(w: World, step: Step) {
    && step.CutCleanup? && IsCleaning(w, step.who) && w.phases[step.who].acquired
    && w.phases[step.who].session in w.locked
    && forall a | a in w.phases && a != step.who :: !Holds(w, a, w.phases[step.who].session)
  }

  /** Exactly such a cut leaves a session locked with nobody to release it. */
  lemma LocksHeldUnlessOrphaned(w: World, step: Step)
    requires LocksHeld(w)
    ensures LocksHeld(Apply(w, step)) <==> !Orphans(w, step)
  {
    var v := Apply(w, step);
    if Orphans(w, step) {
      assert w.phases[step.who].session in v.locked && !AnyHolds(v, w.phases[step.who].session);
    } else {
      forall s | s in v.locked
        ensures AnyHolds(v, s)
      {
        HolderStays(w, step, s);
      }
    }
  }

  lemma HolderStays(w: World, step: Step, s: Name)
    requires LocksHeld(w) && !Orphans(w, step) && s in Apply(w, step).locked
    ensures AnyHolds(Apply(w, step), s)
  {
    var v := Apply(w, step);
    SomeoneHolds(v, s);
    if s in w.locked {
      SomeoneHolds(w, s);
      var a :| Holds(w, a, s);
      if step.CutCleanup? && step.who == a && IsCleaning(w, a) {
        var b :| b in w.phases && b != a && Holds(w, b, s);
        HoldersAfter(w, step, b, s);
      } else {
        HoldersAfter(w, step, a, s);
      }
    } else {
      assert Holds(v, step.who, s);
    }
  }

  ghost predicate LocksHeldThroughout(w: World, steps: seq<Step>)
    decreases |steps|
  {
    LocksHeld(w) && (steps == [] || LocksHeldThroughout(Apply(w, steps[0]), steps[1..]))
  }

  predicate NeverOrphans(w: World, steps: seq<Step>)
    decreases |steps|
  {
    steps == [] || (!Orphans(w, steps[0]) && NeverOrphans(Apply(w, steps[0]), steps[1..]))
  }

  /** Over any run, every locked session has a holder at every moment if and only if no cleanup
      of a last holder is cut. */
  lemma {:induction false} HeldIffNeverOrphaned(w: World, steps: seq<Step>)
    requires LocksHeld(w)
    ensures LocksHeldThroughout(w, steps) <==> NeverOrphans(w, steps)
    decreases |steps|
  {
    if steps != [] {
      LocksHeldUnlessOrphaned(w, steps[0]);
      if !Orphans(w, steps[0]) {
        HeldIffNeverOrphaned(Apply(w, steps[0]), steps[1..]);
      }
    }
  }

  /** An orphaned lock stays as it is until a cancelled waiter's cleanup happens to release it,
      or nobody refers to it any more. */
  lemma OrphanBlocks(w: World, step: Step, s: Name)
    requires s in w.locked && !AnyHolds(w, s)
    ensures var v := Apply(w, step);
      s in v.locked && !AnyHolds(v, s) <==>
        !(step.Release? && IsCleaning(w, step.who) && w.phases[step.who].session == s)
        && !(step == Forget(s) && !Referred(w, s))
  {
    var v := Apply(w, step);
    SomeoneHolds(w, s);
    SomeoneHolds(v, s);
    forall a
      ensures !Holds(v, a, s)
    {
      HoldersAfter(w, step, a, s);
    }
  }

  // ---------------------------------------------------------------- runs that show it

  lemma RunOne(w: World, step: Step, rest: seq<Step>)
    ensures Run(w, [step] + rest) == Run(Apply(w, step), rest)
  {
    assert ([step] + rest)[1..] == rest;
  }

  /** Three requests for one session, the second cancelled while it waits: the first and the
      third run at the same time. */
  lemma TwoAtOnce()
    ensures
      var w := Run(Init(), [Ask(1, "s"), Acquire(1), Ask(2, "s"), Ask(3, "s"),
        CancelWaiting(2), Release(2), Acquire(3)]);
      IsRunning(w, 1) && IsRunning(w, 3) && w.phases[1].session == w.phases[3].session
  {
    hide Apply;
    var w4 := World(map[1 := Running("s"), 2 := Waiting("s"), 3 := Waiting("s")], {"s"});
    OneRunsTwoWait([CancelWaiting(2), Release(2), Acquire(3)]);
    CancelReleaseAcquire();
    RunOne(Apply(Apply(w4, CancelWaiting(2)), Release(2)), Acquire(3), []);
    RunOne(Apply(w4, CancelWaiting(2)), Release(2), [Acquire(3)]);
    RunOne(w4, CancelWaiting(2), [Release(2), Acquire(3)]);
    assert [CancelWaiting(2)] + [Release(2), Acquire(3)] == [CancelWaiting(2), Release(2), Acquire(3)];
    assert [Release(2)] + [Acquire(3)] == [Release(2), Acquire(3)] && [Acquire(3)] + [] == [Acquire(3)];
    assert [Ask(1, "s"), Acquire(1), Ask(2, "s"), Ask(3, "s")] + [CancelWaiting(2), Release(2), Acquire(3)]
      == [Ask(1, "s"), Acquire(1), Ask(2, "s"), Ask(3, "s"), CancelWaiting(2), Release(2), Acquire(3)];
  }

  lemma CancelReleaseAcquire()
    ensures
      var w4 := World(map[1 := Running("s"), 2 := Waiting("s"), 3 := Waiting("s")], {"s"});
      var v := Apply(Apply(Apply(w4, CancelWaiting(2)), Release(2)), Acquire(3));
      IsRunning(v, 1) && IsRunning(v, 3) && v.phases[1].session == v.phases[3].session
  {
  }

  lemma OneRunsTwoWait(rest: seq<Step>)
    ensures Run(Init(), [Ask(1, "s"), Acquire(1), Ask(2, "s"), Ask(3, "s")] + rest)
      == Run(World(map[1 := Running("s"), 2 := Waiting("s"), 3 := Waiting("s")], {"s"}), rest)
  {
    var w1 := World(map[1 := Waiting("s")], {});
    var w2 := World(map[1 := Running("s")], {"s"});
    var w3 := World(map[1 := Running("s"), 2 := Waiting("s")], {"s"});
    assert Apply(Init(), Ask(1, "s")) == w1 && Apply(w1, Acquire(1)) == w2 && Apply(w2, Ask(2, "s")) == w3;
    assert Apply(w3, Ask(3, "s")) == World(map[1 := Running("s"), 2 := Waiting("s"), 3 := Waiting("s")], {"s"});
    RunOne(w3, Ask(3, "s"), rest);
    RunOne(w2, Ask(2, "s"), [Ask(3, "s")] + rest);
    RunOne(w1, Acquire(1), [Ask(2, "s"), Ask(3, "s")] + rest);
    RunOne(Init(), Ask(1, "s"), [Acquire(1), Ask(2, "s"), Ask(3, "s")] + rest);
    assert [Ask(1, "s"), Acquire(1), Ask(2, "s"), Ask(3, "s")] + rest
      == [Ask(1, "s")] + ([Acquire(1), Ask(2, "s"), Ask(3, "s")] + rest);
    assert [Acquire(1), Ask(2, "s"), Ask(3, "s")] + rest == [Acquire(1)] + ([Ask(2, "s"), Ask(3, "s")] + rest);
    assert [Ask(2, "s"), Ask(3, "s")] + rest == [Ask(2, "s")] + ([Ask(3, "s")] + rest);
  }

  /** The cancelled waiter's cleanup is delayed: by then the first has released the lock and the
      third has taken it, and it is the third that loses it. */
  lemma DelayedReleaseHitsLaterHolder()
    ensures
      var w := Run(Init(), [Ask(1, "s"), Acquire(1), Ask(2, "s"), Ask(3, "s"),
        CancelWaiting(2), Finish(1), Release(1), Acquire(3), Release(2)]);
      IsRunning(w, 3) && w.phases[3].session !in w.locked
  {
    hide Apply;
    OneRunsTwoWait([CancelWaiting(2), Finish(1), Release(1), Acquire(3), Release(2)]);
    var w4 := World(map[1 := Running("s"), 2 := Waiting("s"), 3 := Waiting("s")], {"s"});
    Five(w4, CancelWaiting(2), Finish(1), Release(1), Acquire(3), Release(2));
    CancelThenFinish();
    ReleaseThenSteal();
    assert [Ask(1, "s"), Acquire(1), Ask(2, "s"), Ask(3, "s")]
      + [CancelWaiting(2), Finish(1), Release(1), Acquire(3), Release(2)]
      == [Ask(1, "s"), Acquire(1), Ask(2, "s"), Ask(3, "s"),
          CancelWaiting(2), Finish(1), Release(1), Acquire(3), Release(2)];
  }

  lemma Five(w: World, a: Step, b: Step, c: Step, d: Step, e: Step)
    ensures Run(w, [a, b, c, d, e]) == Apply(Apply(Apply(Apply(Apply(w, a), b), c), d), e)
  {
    hide Apply;
    RunOne(Apply(Apply(Apply(Apply(w, a), b), c), d), e, []);
    RunOne(Apply(Apply(Apply(w, a), b), c), d, [e]);
    RunOne(Apply(Apply(w, a), b), c, [d, e]);
    RunOne(Apply(w, a), b, [c, d, e]);
    RunOne(w, a, [b, c, d, e]);
    assert [a] + [b, c, d, e] == [a, b, c, d, e] && [b] + [c, d, e] == [b, c, d, e];
    assert [c] + [d, e] == [c, d, e] && [d] + [e] == [d, e] && [e] + [] == [e];
  }

  lemma CancelThenFinish()
    ensures
      var w4 := World(map[1 := Running("s"), 2 := Waiting("s"), 3 := Waiting("s")], {"s"});
      Apply(Apply(w4, CancelWaiting(2)), Finish(1))
      == World(map[1 := Cleaning("s", true), 2 := Cleaning("s", false), 3 := Waiting("s")], {"s"})
  {
    var w4 := World(map[1 := Running("s"), 2 := Waiting("s"), 3 := Waiting("s")], {"s"});
    var w5 := World(map[1 := Running("s"), 2 := Cleaning("s", false), 3 := Waiting("s")], {"s"});
    assert Apply(w4, CancelWaiting(2)) == w5;
  }

  lemma ReleaseThenSteal()
    ensures
      var w6 := World(map[1 := Cleaning("s", true), 2 := Cleaning("s", false), 3 := Waiting("s")], {"s"});
      var w7 := World(map[2 := Cleaning("s", false), 3 := Waiting("s")], {});
      var w8 := World(map[2 := Cleaning("s", false), 3 := Running("s")], {"s"});
      && Apply(w6, Release(1)) == w7 && Apply(w7, Acquire(3)) == w8
      && Apply(w8, Release(2)) == World(map[3 := Running("s")], {})
  {
  }

  /** The only running coordinator is cancelled a second time in its cleanup: the two that wait
      for its session wait for a lock that nobody holds. */
  lemma CutCleanupStrandsWaiters()
    ensures
      var w := Run(Init(), [Ask(1, "s"), Acquire(1), Ask(2, "s"), Ask(3, "s"), Finish(1), CutCleanup(1)]);
      "s" in w.locked && !AnyHolds(w, "s") && IsWaiting(w, 2) && IsWaiting(w, 3)
  {
    var w4 := World(map[1 := Running("s"), 2 := Waiting("s"), 3 := Waiting("s")], {"s"});
    var w5 := World(map[1 := Cleaning("s", true), 2 := Waiting("s"), 3 := Waiting("s")], {"s"});
    var w6 := World(map[2 := Waiting("s"), 3 := Waiting("s")], {"s"});
    OneRunsTwoWait([Finish(1), CutCleanup(1)]);
    assert Apply(w4, Finish(1)) == w5 && Apply(w5, CutCleanup(1)) == w6;
    RunOne(w5, CutCleanup(1), []);
    RunOne(w4, Finish(1), [CutCleanup(1)]);
  }
}
