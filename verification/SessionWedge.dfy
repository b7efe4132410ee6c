/** A cancelled create keeps its key: how a key gets stuck, exactly what frees it, and what the
    next caller gets then. */
module SessionWedge {
  import opened Prelude
  import opened SessionStore
  import opened SessionManagement
  import opened SessionProtocol
  import opened SessionInvariants
  import opened SessionTheorems

  // ---------------------------------------------------------------- stuck keys

  /** The key is unbound and its callers join a create that was cancelled. */
  predicate IsStuck(w: World, key: Key) {
    key !in w.tables.bindings && InFlight(w, key, Cancelled)
  }

  predicate InFlight(w: World, key: Key, outcome: Outcome) {
    && key in w.registry.inflight && w.registry.inflight[key] < |w.outcomes|
    && w.outcomes[w.registry.inflight[key]] == outcome
  }

  /** The step cancels the running create that the callers of an unbound key join, or is a pop
      of a bound key with a cancelled create in flight, cut before it drops the entry. */
  predicate Strands(w: World, step: Step, key: Key) {
    match step
    case CancelWaiting(who) =>
      && key !in w.tables.bindings && InFlight(w, key, Running)
      && who in w.creators && w.creators[who].Waiting? && w.creators[who].task == w.registry.inflight[key]
    case FinishCreate(task, outcome) =>
      && key !in w.tables.bindings && InFlight(w, key, Running)
      && task == w.registry.inflight[key] && outcome == Cancelled
    case CutPop(k) =>
      k == key && key in w.tables.bindings && InFlight(w, key, Cancelled) && ContextFree(w.creators, key)
    case _ => false
  }

  /** The step pops the key or writes a binding for it. */
  predicate Unsticks(w: World, step: Step, key: Key) {
    match step
    case PopCached(k) => k == key && ContextFree(w.creators, key)
    case WriteBinding(who) => who in w.binders && w.binders[who].key == key && ContextFree(w.creators, key)
    case CommitBinding(who) => Awaited(w, who).Completed? && w.creators[who].key == key && CanCommit(w, who)
    case _ => false
  }

  /** The locks are free and nobody else owns the session. */
  predicate CanCommit(w: World, who: nat)
    requires Awaited(w, who).Completed?
  {
    var key, session := w.creators[who].key, Awaited(w, who).session;
    && ContextFree(w.creators, key) && OwnershipFree(w.creators, session)
    && (session in w.tables.owners ==> w.tables.owners[session] == key.identity)
  }

  /** Cancelling a waiting caller leaves its key with a cancelled create if and only if the
      create is the key's current one and was still running, or was cancelled before. */
  lemma CancelLeavesCancelled(w: World, who: nat)
    requires TasksOk(w.registry, w.outcomes, w.creators) && who in w.creators && w.creators[who].Waiting?
    ensures var a, v := w.creators[who], DoCancelWaiting(w, who);
      IsCurrent(v.registry, a.key, a.task) && v.outcomes[a.task] == Cancelled <==>
        IsCurrent(w.registry, a.key, a.task) && (w.outcomes[a.task] == Running || w.outcomes[a.task] == Cancelled)
  {
  }

  /** A key gets stuck exactly by such a cancellation or cut, and is freed exactly by popping it or
      writing a binding for it. */
  lemma StuckIffStrandedUntilUnstuck(ttl: real, w: World, step: Step, key: Key)
    requires Inv(w)
    ensures IsStuck(Apply(ttl, w, step), key) <==>
      if IsStuck(w, key) then !Unsticks(w, step, key) else Strands(w, step, key)
  {
    match step
    case StartCreate(who, k) => StartStuck(w, who, k, key);
    case CommitBinding(who) => CommitStuck(w, who, key);
    case Leave(who) => LeaveStuck(w, who, key);
    case PopCached(k) => BindingStuck(ttl, w, step, key);
    case CutPop(k) => CutPopStuck(w, k, key);
    case WriteBinding(who) => BindingStuck(ttl, w, step, key);
    case FinishCreate(task, outcome) => OutcomeStuck(ttl, w, step, key);
    case CancelWaiting(who) => OutcomeStuck(ttl, w, step, key);
    case _ => SameStuck(ttl, w, step, key);
  }

  lemma StartStuck(w: World, who: nat, k: Key, key: Key)
    requires Inv(w)
    ensures IsStuck(DoStartCreate(w, who, k), key) <==> IsStuck(w, key)
  {
  }

  lemma CommitStuck(w: World, who: nat, key: Key)
    requires Inv(w)
    ensures IsStuck(DoCommitBinding(w, who), key) <==> IsStuck(w, key) && !Unsticks(w, CommitBinding(who), key)
  {
  }

  lemma LeaveStuck(w: World, who: nat, key: Key)
    requires Inv(w)
    ensures IsStuck(DoLeave(w, who), key) <==> IsStuck(w, key)
  {
    if who in w.creators && w.creators[who].Leaving? {
      assert CreatorOk(w.registry, w.outcomes, w.creators[who]);
    }
  }

  lemma BindingStuck(ttl: real, w: World, step: Step, key: Key)
    requires step.PopCached? || step.WriteBinding?
    ensures IsStuck(Apply(ttl, w, step), key) <==> IsStuck(w, key) && !Unsticks(w, step, key)
  {
  }

  lemma CutPopStuck(w: World, k: Key, key: Key)
    ensures IsStuck(DoCutPop(w, k), key) <==> IsStuck(w, key) || Strands(w, CutPop(k), key)
  {
  }

  lemma OutcomeStuck(ttl: real, w: World, step: Step, key: Key)
    requires step.FinishCreate? || step.CancelWaiting?
    ensures IsStuck(Apply(ttl, w, step), key) <==> IsStuck(w, key) || Strands(w, step, key)
  {
  }

  lemma SameStuck(ttl: real, w: World, step: Step, key: Key)
    requires !step.StartCreate? && !step.CommitBinding? && !step.Leave? && !step.PopCached? && !step.WriteBinding?
    requires !step.FinishCreate? && !step.CancelWaiting? && !step.CutPop?
    ensures IsStuck(Apply(ttl, w, step), key) <==> IsStuck(w, key)
  {
    match step
    case ObserveFailure(who) =>
    case CutLeave(who) =>
    case CommitOwner(who) =>
    case AbortCommit(who) =>
    case _ => OwnershipFrame(ttl, w, step);
  }

  /** A bound key with a cancelled create in flight: reached when the request that joined it
      prefers a session after all. */
  lemma BoundOverCancelled(k: Key) returns (w: World)
    requires k == Key("alice", "c")
    ensures w == Run(30.0, Init(), [StartCreate(0, k), CancelWaiting(0),
      ClaimSession(1, "alice", "s", Some("c"), 0.0, 0.0), FinalizeClaim(1, 1.0), WriteBinding(1)])
    ensures k in w.tables.bindings && InFlight(w, k, Cancelled) && w.creators == map[]
  {
    var claim := ClaimSession(1, "alice", "s", Some("c"), 0.0, 0.0);
    var rest := [CancelWaiting(0), claim, FinalizeClaim(1, 1.0), WriteBinding(1)];
    var started := Apply(30.0, Init(), StartCreate(0, k));
    assert [StartCreate(0, k)] + rest
      == [StartCreate(0, k), CancelWaiting(0), claim, FinalizeClaim(1, 1.0), WriteBinding(1)];
    RunCons(30.0, Init(), StartCreate(0, k), rest);
    Four(30.0, started, CancelWaiting(0), claim, FinalizeClaim(1, 1.0), WriteBinding(1));
    assert started.creators == map[0 := Waiting(k, 0)] && started.outcomes == [Running];
    assert started.registry.inflight == map[k := 0];
    var cancelled := Apply(30.0, started, CancelWaiting(0));
    assert cancelled.outcomes == [Cancelled] && cancelled.creators == map[];
    w := PreferredBound(cancelled, k);
  }

  lemma PreferredBound(w: World, k: Key) returns (v: World)
    requires k == Key("alice", "c") && w.creators == map[] && w.holders == map[] && w.binders == map[]
    requires w.tables == Tables(map[], map[], map[])
    ensures v == Apply(30.0, Apply(30.0, Apply(30.0, w, ClaimSession(1, "alice", "s", Some("c"), 0.0, 0.0)),
                                   FinalizeClaim(1, 1.0)), WriteBinding(1))
    ensures k in v.tables.bindings && v.registry == w.registry && v.outcomes == w.outcomes && v.creators == map[]
  {
    hide Apply;
    var claim := ClaimSession(1, "alice", "s", Some("c"), 0.0, 0.0);
    PreferredClaimed(w, claim);
    var claimed := Apply(30.0, w, claim);
    PreferredFinalized(claimed);
    var finalized := Apply(30.0, claimed, FinalizeClaim(1, 1.0));
    PreferredWritten(finalized, k);
    v := Apply(30.0, finalized, WriteBinding(1));
  }

  lemma PreferredWritten(w: World, k: Key)
    requires w.creators == map[] && w.binders == map[1 := Binder(k, "s")]
    ensures var v := Apply(30.0, w, WriteBinding(1));
      k in v.tables.bindings && v.registry == w.registry && v.outcomes == w.outcomes && v.creators == map[]
  {
  }

  lemma PreferredClaimed(w: World, claim: Step)
    requires claim == ClaimSession(1, "alice", "s", Some("c"), 0.0, 0.0)
    requires w.creators == map[] && w.holders == map[] && w.binders == map[] && w.tables == Tables(map[], map[], map[])
    ensures Apply(30.0, w, claim)
      == w.(tables := Tables(map[], map[], map["s" := Claim("alice", 30.0)]),
            holders := map[1 := Holder("alice", "s", Some("c"))])
  {
    var claims := ClaimSection(w.tables, 30.0, "alice", "s", 0.0, 0.0).0.claims;
    assert claims == map["s" := Claim("alice", 30.0)];
  }

  lemma PreferredFinalized(w: World)
    requires w.creators == map[] && w.holders == map[1 := Holder("alice", "s", Some("c"))] && w.binders == map[]
    requires w.tables == Tables(map[], map[], map["s" := Claim("alice", 30.0)])
    ensures var v := Apply(30.0, w, FinalizeClaim(1, 1.0));
      SameCreates(w, v) && v.binders == map[1 := Binder(Key("alice", "c"), "s")]
  {
    FinalizeFrame(30.0, w, 1, 1.0);
  }

  /** And a pop of it that is cut before it drops the entry strands the key. */
  lemma CutPopStrandsKey()
    ensures var k := Key("alice", "c");
      IsStuck(Run(30.0, Init(), [StartCreate(0, k), CancelWaiting(0),
        ClaimSession(1, "alice", "s", Some("c"), 0.0, 0.0), FinalizeClaim(1, 1.0), WriteBinding(1), CutPop(k)]), k)
  {
    hide Apply;
    var k := Key("alice", "c");
    var claim := ClaimSession(1, "alice", "s", Some("c"), 0.0, 0.0);
    var w := BoundOverCancelled(k);
    var before := [StartCreate(0, k), CancelWaiting(0), claim, FinalizeClaim(1, 1.0), WriteBinding(1)];
    assert before + [CutPop(k)]
      == [StartCreate(0, k), CancelWaiting(0), claim, FinalizeClaim(1, 1.0), WriteBinding(1), CutPop(k)];
    RunAppend(30.0, Init(), before, [CutPop(k)]);
    assert [CutPop(k)] == [CutPop(k)] + [];
    RunCons(30.0, w, CutPop(k), []);
    ReachableInv(30.0, before);
    StuckIffStrandedUntilUnstuck(30.0, w, CutPop(k), k);
  }

  predicate StuckThroughout(ttl: real, w: World, steps: seq<Step>, key: Key)
    decreases |steps|
  {
    IsStuck(w, key) && (steps == [] || StuckThroughout(ttl, Apply(ttl, w, steps[0]), steps[1..], key))
  }

  predicate NeverUnstuck(ttl: real, w: World, steps: seq<Step>, key: Key)
    decreases |steps|
  {
    steps == [] || (!Unsticks(w, steps[0], key) && NeverUnstuck(ttl, Apply(ttl, w, steps[0]), steps[1..], key))
  }

  /** Over any run, a stuck key stays stuck if and only if nothing pops it or binds it. */
  lemma {:induction false} StuckIffNeverUnstuck(ttl: real, w: World, steps: seq<Step>, key: Key)
    requires Inv(w) && IsStuck(w, key)
    ensures StuckThroughout(ttl, w, steps, key) <==> NeverUnstuck(ttl, w, steps, key)
    ensures StuckThroughout(ttl, w, steps, key) ==> IsStuck(Run(ttl, w, steps), key)
    decreases |steps|
  {
    if steps != [] {
      StuckIffStrandedUntilUnstuck(ttl, w, steps[0], key);
      StepInv(ttl, w, steps[0]);
      if !Unsticks(w, steps[0], key) {
        StuckIffNeverUnstuck(ttl, Apply(ttl, w, steps[0]), steps[1..], key);
      }
    }
  }

  /** Once freed, the next caller to get the key's lock is served: after a pop by a new create
      of its own, after a binding with the session bound. */
  lemma UnstuckServesNext(ttl: real, w: World, step: Step, key: Key, who: nat)
    requires Inv(w) && IsStuck(w, key) && Unsticks(w, step, key)
    requires var v := Apply(ttl, w, step); who !in v.creators && ContextFree(v.creators, key)
    ensures var v := Apply(ttl, w, step);
      var next := Apply(ttl, v, StartCreate(who, key));
      if step.PopCached? then
        && next.registry.creates == v.registry.creates + [key] && next.outcomes == v.outcomes + [Running]
        && Lookup(next.creators, who) == Some(Waiting(key, |v.outcomes|))
      else
        key in v.tables.bindings && (key, v.tables.bindings[key]) in next.history.handed
  {
    StepInv(ttl, w, step);
    if step.CommitBinding? {
      CommitBinds(w, step.who);
    }
  }

  lemma CommitBinds(w: World, who: nat)
    requires Awaited(w, who).Completed? && CanCommit(w, who)
    ensures w.creators[who].key in DoCommitBinding(w, who).tables.bindings
  {
  }

  // ---------------------------------------------------------------- nobody is served

  /** Nothing but waiters of one cancelled create is left for the key. */
  ghost predicate Wedged(w: World, key: Key, task: nat) {
    && key !in w.tables.bindings
    && IsCurrent(w.registry, key, task) && task < |w.outcomes| && w.outcomes[task] == Cancelled
    && (forall a | a in w.creators :: w.creators[a].key == key ==> w.creators[a] == Waiting(key, task))
    && (forall b | b in w.binders :: w.binders[b].key != key)
    && (forall h | h in w.holders :: !Targets(w.holders[h].identity, w.holders[h].context, key))
  }

  predicate Targets(identity: Name, context: Option<string>, key: Key) {
    context.Some? && Key(identity, context.value) == key
  }

  /** The two ways out: popping the cached session, or a request that prefers a session and is
      not refused. */
  predicate Rescues(ttl: real, w: World, step: Step, key: Key) {
    || (step.PopCached? && step.key == key)
    || (step.ClaimSession? && Targets(step.identity, step.context, key)
        && step.who !in w.holders && step.who !in w.binders && OwnershipFree(w.creators, step.session)
        && ClaimSection(w.tables, ttl, step.identity, step.session, step.readAt, step.writeAt).1 != Forbidden)
  }

  ghost predicate StaysWedged(w: World, v: World, key: Key, task: nat) {
    && Wedged(v, key, task)
    && multiset(v.registry.creates)[key] == multiset(w.registry.creates)[key]
    && (forall s :: (key, s) in v.history.handed <==> (key, s) in w.history.handed)
  }

  lemma WedgedStep(ttl: real, w: World, step: Step, key: Key, task: nat)
    requires TasksOk(w.registry, w.outcomes, w.creators)
    requires Wedged(w, key, task) && !Rescues(ttl, w, step, key)
    ensures StaysWedged(w, Apply(ttl, w, step), key, task)
  {
    hide DoStartCreate, DoObserveFailure, DoCommitBinding, DoCommitOwner, DoAbortCommit, DoLeave, DoCutLeave;
    hide DoCancelWaiting;
    hide DoClaim, DoFinalize, DoExit, DoCutClaim, DoCutFinalize, DoCutRelease;
    match step
    case StartCreate(who, k) => WedgedStart(w, who, k, key, task);
    case ClaimSession(who, identity, session, context, readAt, writeAt) => WedgedClaim(ttl, w, step, key, task);
    case FinalizeClaim(who, now) => WedgedFinalize(ttl, w, who, now, key, task);
    case CommitBinding(who) => WedgedCommit(w, who, key, task);
    case Leave(who) => WedgedLeave(w, who, key, task);
    case PopCached(k) => WedgedBinding(ttl, w, step, key, task);
    case CutPop(k) => WedgedBinding(ttl, w, step, key, task);
    case CutLeave(who) => WedgedCutLeave(w, who, key, task);
    case WriteBinding(who) => WedgedBinding(ttl, w, step, key, task);
    case ExitClaim(who) => WedgedExit(w, who, key, task);
    case CutFinalize(who, now, cleared) => WedgedFrame(ttl, w, step, key, task);
    case CutClaim(identity, session, readAt, writeAt) => WedgedFrame(ttl, w, step, key, task);
    case CutRead(now) => WedgedBinding(ttl, w, step, key, task);
    case CutRelease(who) => WedgedCutRelease(w, who, key, task);
    case AbandonBinding(who) => WedgedBinding(ttl, w, step, key, task);
    case ObserveFailure(who) => WedgedFailure(w, who, key, task);
    case _ => WedgedOther(ttl, w, step, key, task);
  }

  lemma WedgedBinding(ttl: real, w: World, step: Step, key: Key, task: nat)
    requires Wedged(w, key, task) && !Rescues(ttl, w, step, key)
    requires step.PopCached? || step.CutPop? || step.WriteBinding? || step.CutRead? || step.AbandonBinding?
    ensures StaysWedged(w, Apply(ttl, w, step), key, task)
  {
    match step
    case PopCached(k) => WedgedPop(ttl, w, step, key, task);
    case CutPop(k) => WedgedPop(ttl, w, step, key, task);
    case _ => hide DoPopCached, DoCutPop;
  }

  lemma WedgedPop(ttl: real, w: World, step: Step, key: Key, task: nat)
    requires Wedged(w, key, task) && (step.CutPop? || (step.PopCached? && step.key != key))
    ensures StaysWedged(w, Apply(ttl, w, step), key, task)
  {
  }

  lemma WedgedCutLeave(w: World, who: nat, key: Key, task: nat)
    requires Wedged(w, key, task)
    ensures StaysWedged(w, DoCutLeave(w, who), key, task)
  {
  }

  lemma WedgedCutRelease(w: World, who: nat, key: Key, task: nat)
    requires Wedged(w, key, task)
    ensures StaysWedged(w, DoCutRelease(w, who), key, task)
  {
  }

  lemma WedgedStart(w: World, who: nat, k: Key, key: Key, task: nat)
    requires TasksOk(w.registry, w.outcomes, w.creators) && Wedged(w, key, task)
    ensures StaysWedged(w, DoStartCreate(w, who, k), key, task)
  {
    StartServesOthers(w, who, k, key);
    StartWedged(w, who, k, key, task);
    hide DoStartCreate, Wedged;
  }

  lemma StartWedged(w: World, who: nat, k: Key, key: Key, task: nat)
    requires TasksOk(w.registry, w.outcomes, w.creators) && Wedged(w, key, task)
    ensures Wedged(DoStartCreate(w, who, k), key, task)
  {
    match StartSection(w.tables, w.registry, k).1
    case Existing(_) =>
    case Await(_) =>
  }

  lemma StartServesOthers(w: World, who: nat, k: Key, key: Key)
    requires key !in w.tables.bindings && key in w.registry.inflight
    ensures var v := DoStartCreate(w, who, k);
      && multiset(v.registry.creates)[key] == multiset(w.registry.creates)[key]
      && (forall s :: (key, s) in v.history.handed <==> (key, s) in w.history.handed)
  {
    var creates := StartSection(w.tables, w.registry, k).0.creates;
    if creates != w.registry.creates {
      assert multiset(creates) == multiset(w.registry.creates) + multiset{k};
    }
  }

  lemma WedgedClaim(ttl: real, w: World, step: Step, key: Key, task: nat)
    requires Wedged(w, key, task) && step.ClaimSession? && !Rescues(ttl, w, step, key)
    ensures StaysWedged(w, Apply(ttl, w, step), key, task)
  {
    OwnershipFrame(ttl, w, step);
    ClaimAims(ttl, w, step, key);
    hide Apply, ClaimSection;
  }

  /** A claim that rescues no key leaves nobody who aims at it. */
  lemma ClaimAims(ttl: real, w: World, step: Step, key: Key)
    requires step.ClaimSession? && !Rescues(ttl, w, step, key)
    requires forall b | b in w.binders :: w.binders[b].key != key
    requires forall h | h in w.holders :: !Targets(w.holders[h].identity, w.holders[h].context, key)
    ensures var v := Apply(ttl, w, step);
      && (forall b | b in v.binders :: v.binders[b].key != key)
      && (forall h | h in v.holders :: !Targets(v.holders[h].identity, v.holders[h].context, key))
  {
    match ClaimSection(w.tables, ttl, step.identity, step.session, step.readAt, step.writeAt).1
    case Forbidden =>
    case Claimed =>
    case AlreadyOwner =>
  }

  ghost predicate SameCreates(w: World, v: World) {
    && v.tables.bindings == w.tables.bindings && v.registry == w.registry && v.outcomes == w.outcomes
    && v.creators == w.creators && v.history.handed == w.history.handed
  }

  /** Claims, finalisations and releases, cut or not, write neither bindings nor the registry. */
  lemma OwnershipFrame(ttl: real, w: World, step: Step)
    requires step.ClaimSession? || step.FinalizeClaim? || step.ExitClaim? || step.CutRead? || step.CutClaim?
      || step.CutFinalize? || step.CutRelease? || step.AbandonBinding?
    ensures SameCreates(w, Apply(ttl, w, step))
  {
    hide DoClaim, DoFinalize, DoCutClaim, DoCutFinalize, DoCutRelease;
    match step
    case ClaimSession(who, identity, session, context, readAt, writeAt) => ClaimFrame(ttl, w, step);
    case FinalizeClaim(who, now) => FinalizeFrame(ttl, w, who, now);
    case CutFinalize(who, now, cleared) => CutFrame(ttl, w, step);
    case CutClaim(identity, session, readAt, writeAt) => CutFrame(ttl, w, step);
    case CutRelease(who) => CutFrame(ttl, w, step);
    case _ =>
  }

  lemma CutFrame(ttl: real, w: World, step: Step)
    requires step.CutFinalize? || step.CutClaim? || step.CutRelease?
    ensures SameCreates(w, Apply(ttl, w, step))
  {
    match step
    case CutClaim(identity, session, readAt, writeAt) => CutClaimFrame(ttl, w, step);
    case CutFinalize(who, now, cleared) =>
    case CutRelease(who) =>
  }

  lemma CutClaimFrame(ttl: real, w: World, step: Step)
    requires step.CutClaim?
    ensures SameCreates(w, Apply(ttl, w, step))
  {
    ClaimRows(w.tables, ttl, step.identity, step.session, step.readAt, step.writeAt);
    hide ClaimSection;
  }

  lemma ClaimFrame(ttl: real, w: World, step: Step)
    requires step.ClaimSession?
    ensures SameCreates(w, Apply(ttl, w, step))
  {
    ClaimRows(w.tables, ttl, step.identity, step.session, step.readAt, step.writeAt);
    match ClaimSection(w.tables, ttl, step.identity, step.session, step.readAt, step.writeAt).1
    case Forbidden =>
    case Claimed =>
    case AlreadyOwner =>
  }

  lemma FinalizeFrame(ttl: real, w: World, who: nat, now: real)
    ensures SameCreates(w, DoFinalize(ttl, w, who, now))
  {
  }

  lemma CutHolders(ttl: real, w: World, step: Step)
    requires step.CutFinalize? || step.CutClaim?
    ensures Apply(ttl, w, step).holders == w.holders && Apply(ttl, w, step).binders == w.binders
  {
  }

  lemma WedgedFrame(ttl: real, w: World, step: Step, key: Key, task: nat)
    requires Wedged(w, key, task) && (step.CutFinalize? || step.CutClaim?)
    ensures StaysWedged(w, Apply(ttl, w, step), key, task)
  {
    CutFrame(ttl, w, step);
    CutHolders(ttl, w, step);
    hide Apply;
  }

  lemma WedgedFinalize(ttl: real, w: World, who: nat, now: real, key: Key, task: nat)
    requires Wedged(w, key, task)
    ensures StaysWedged(w, DoFinalize(ttl, w, who, now), key, task)
  {
    var v := DoFinalize(ttl, w, who, now);
    assert v.tables.bindings == w.tables.bindings && v.creators == w.creators && v.history.handed == w.history.handed;
  }

  lemma WedgedCommit(w: World, who: nat, key: Key, task: nat)
    requires Wedged(w, key, task)
    ensures StaysWedged(w, DoCommitBinding(w, who), key, task)
  {
    if Awaited(w, who).Completed? {
      assert w.creators[who].key != key;
    }
  }

  lemma WedgedLeave(w: World, who: nat, key: Key, task: nat)
    requires Wedged(w, key, task)
    ensures StaysWedged(w, DoLeave(w, who), key, task)
  {
    if who in w.creators && w.creators[who].Leaving? {
      assert w.creators[who].key != key;
    }
  }

  lemma WedgedExit(w: World, who: nat, key: Key, task: nat)
    requires Wedged(w, key, task)
    ensures StaysWedged(w, DoExit(w, who), key, task)
  {
  }

  lemma WedgedFailure(w: World, who: nat, key: Key, task: nat)
    requires Wedged(w, key, task)
    ensures StaysWedged(w, DoObserveFailure(w, who), key, task)
  {
  }

  lemma WedgedOther(ttl: real, w: World, step: Step, key: Key, task: nat)
    requires Wedged(w, key, task)
    requires step.FinishCreate? || step.CommitOwner? || step.AbortCommit? || step.CancelWaiting?
    ensures StaysWedged(w, Apply(ttl, w, step), key, task)
  {
    var v := Apply(ttl, w, step);
    assert v.registry == w.registry && v.history.handed == w.history.handed && v.tables.bindings == w.tables.bindings;
  }

  /** Cancelling the only caller that awaits a fresh create wedges its key. */
  lemma CancelWedges(ttl: real, w: World, who: nat, key: Key)
    requires Inv(w) && !HasToken(w.tables.bindings, w.registry, key)
    requires who !in w.creators && (forall a | a in w.creators :: w.creators[a].key != key)
    requires forall b | b in w.binders :: w.binders[b].key != key
    requires forall h | h in w.holders :: !Targets(w.holders[h].identity, w.holders[h].context, key)
    ensures Wedged(Run(ttl, w, [StartCreate(who, key), CancelWaiting(who)]), key, |w.outcomes|)
  {
    var steps := [StartCreate(who, key)] + ([CancelWaiting(who)] + []);
    assert steps == [StartCreate(who, key), CancelWaiting(who)];
    var started := Apply(ttl, w, StartCreate(who, key));
    assert ContextFree(w.creators, key);
    assert started.creators == w.creators[who := Waiting(key, |w.outcomes|)];
    RunCons(ttl, w, StartCreate(who, key), [CancelWaiting(who)] + []);
    RunCons(ttl, started, CancelWaiting(who), []);
  }

  /** Cancelling a caller wedges its key exactly when it shared the key's current, unfinished
      create with all the key's callers and no binding for the key is there or on its way. */
  lemma CancelWedgesIff(w: World, who: nat)
    requires Inv(w) && who in w.creators && w.creators[who].Waiting?
    ensures var a := w.creators[who];
      Wedged(DoCancelWaiting(w, who), a.key, a.task) <==>
        && a.key !in w.tables.bindings && IsCurrent(w.registry, a.key, a.task)
        && (w.outcomes[a.task] == Running || w.outcomes[a.task] == Cancelled)
        && (forall b | b in w.creators :: w.creators[b].key == a.key ==> w.creators[b] == a)
        && (forall b | b in w.binders :: w.binders[b].key != a.key)
        && (forall h | h in w.holders :: !Targets(w.holders[h].identity, w.holders[h].context, a.key))
  {
    var a, v := w.creators[who], DoCancelWaiting(w, who);
    CancelLeavesCancelled(w, who);
    assert v.creators == w.creators - {who} && v.tables == w.tables && v.binders == w.binders && v.holders == w.holders;
    assert forall b | b in v.creators :: v.creators[b] == w.creators[b];
    assert forall b | b in w.creators && b != who :: b in v.creators;
  }

  /** From a wedged key the ways out are exactly the rescues. */
  lemma WedgedUntilRescued(ttl: real, w: World, step: Step, key: Key, task: nat)
    requires Inv(w) && Wedged(w, key, task)
    ensures Wedged(Apply(ttl, w, step), key, task) <==> !Rescues(ttl, w, step, key)
  {
    if !Rescues(ttl, w, step, key) {
      WedgedStep(ttl, w, step, key, task);
    } else if step.ClaimSession? {
      ClaimRescues(ttl, w, step, key, task);
    } else {
      assert ContextFree(w.creators, key);
    }
  }

  lemma ClaimRescues(ttl: real, w: World, step: Step, key: Key, task: nat)
    requires Wedged(w, key, task) && step.ClaimSession? && Rescues(ttl, w, step, key)
    ensures !Wedged(Apply(ttl, w, step), key, task)
  {
    var v := Apply(ttl, w, step);
    match ClaimSection(w.tables, ttl, step.identity, step.session, step.readAt, step.writeAt).1
    case Claimed => assert step.who in v.holders;
    case AlreadyOwner => assert step.who in v.binders;
  }

  predicate NeverRescued(ttl: real, w: World, steps: seq<Step>, key: Key)
    decreases |steps|
  {
    steps == [] || (!Rescues(ttl, w, steps[0], key) && NeverRescued(ttl, Apply(ttl, w, steps[0]), steps[1..], key))
  }

  /** Until a rescue, no step creates or hands out a session for a wedged key. */
  lemma {:induction false} CancelledCreateWedgesKey(ttl: real, w: World, steps: seq<Step>, key: Key, task: nat)
    requires Inv(w) && Wedged(w, key, task) && NeverRescued(ttl, w, steps, key)
    ensures Wedged(Run(ttl, w, steps), key, task)
    ensures multiset(Run(ttl, w, steps).registry.creates)[key] == multiset(w.registry.creates)[key]
    ensures forall s :: (key, s) in Run(ttl, w, steps).history.handed <==> (key, s) in w.history.handed
    decreases |steps|
  {
    if steps != [] {
      WedgedStep(ttl, w, steps[0], key, task);
      StepInv(ttl, w, steps[0]);
      CancelledCreateWedgesKey(ttl, Apply(ttl, w, steps[0]), steps[1..], key, task);
    }
  }
}
