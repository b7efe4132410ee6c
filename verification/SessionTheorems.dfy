/** Safety of the session protocol over whole runs. */
module SessionTheorems {
  import opened Prelude
  import opened SessionStore
  import opened SessionManagement
  import opened SessionProtocol
  import opened SessionInvariants

  // ---------------------------------------------------------------- steps

  lemma StartCreateInv(w: World, who: nat, key: Key)
    requires Inv(w)
    ensures Inv(DoStartCreate(w, who, key))
  {
    if who !in w.creators && ContextFree(w.creators, key) {
      if key in w.tables.bindings {
        HandOver(w, key, w.tables.bindings[key]);
      } else if key in w.registry.inflight {
        SetCreator(w, who, Waiting(key, w.registry.inflight[key]));
        assert w.registry.inflight[key] != |w.outcomes|;
      } else {
        IssueCreate(w, key);
        var issued := w.(registry := StartSection(w.tables, w.registry, key).0, outcomes := w.outcomes + [Running]);
        SetCreator(issued, who, Waiting(key, |w.outcomes|));
      }
    }
  }

  lemma ObserveFailureInv(w: World, who: nat)
    requires Inv(w)
    ensures Inv(DoObserveFailure(w, who))
  {
    match Awaited(w, who)
    case Failed => SetCreator(w, who, Leaving(w.creators[who].key, w.creators[who].task, None));
    case Cancelled => RemoveCreator(w, who);
    case _ =>
  }

  lemma CommitOwnedInv(w: World, who: nat, session: Name)
    requires Inv(w) && Awaited(w, who) == Completed(session)
    requires ContextFree(w.creators, w.creators[who].key)
    requires Owns(w.tables.owners, w.creators[who].key.identity, session)
    ensures var a := w.creators[who];
      Inv(w.(tables := w.tables.(bindings := w.tables.bindings[a.key := session]),
             creators := w.creators[who := Leaving(a.key, a.task, Some(session))]))
  {
    var a := w.creators[who];
    assert Created(w.registry.creates, w.outcomes, a.key, session);
    Bind(w, a.key, session, w.history.rebound);
    var bound := w.(tables := w.tables.(bindings := w.tables.bindings[a.key := session]));
    assert bound == bound.(history := bound.history.(rebound := w.history.rebound));
    SetCreator(bound, who, Leaving(a.key, a.task, Some(session)));
  }

  lemma CommitRefusedInv(w: World, who: nat)
    requires Inv(w) && who in w.creators && !w.creators[who].Committing?
    ensures var a := w.creators[who];
      Inv(w.(registry := ForgetSection(w.registry, a.key, a.task), creators := w.creators - {who},
             history := Disrupting(w.history, a.key, IsCurrent(w.registry, a.key, a.task))))
  {
    var a := w.creators[who];
    RemoveCreator(w, who);
    Forget(w.(creators := w.creators - {who}), a.key, a.task, true);
  }

  lemma CommitBindingInv(w: World, who: nat)
    requires Inv(w)
    ensures Inv(DoCommitBinding(w, who))
  {
    hide Inv;
    var awaited := Awaited(w, who);
    if awaited.Completed? {
      var a, session := w.creators[who], awaited.session;
      if ContextFree(w.creators, a.key) && OwnershipFree(w.creators, session) {
        if session !in w.tables.owners {
          BeginCommit(w, who, session);
        } else if w.tables.owners[session] == a.key.identity {
          CommitOwnedInv(w, who, session);
        } else {
          CommitRefusedInv(w, who);
        }
      }
    }
  }

  lemma CommitOwnerInv(w: World, who: nat)
    requires Inv(w)
    ensures Inv(DoCommitOwner(w, who))
  {
    if IsCommitting(w.creators, who) {
      EndCommit(w, who);
    }
  }

  lemma AbortCommitInv(w: World, who: nat)
    requires Inv(w)
    ensures Inv(DoAbortCommit(w, who))
  {
    if IsCommitting(w.creators, who) {
      CutCommit(w, who);
    }
  }

  lemma LeaveInv(w: World, who: nat)
    requires Inv(w)
    ensures Inv(DoLeave(w, who))
  {
    if who in w.creators && w.creators[who].Leaving? {
      var a := w.creators[who];
      match a.result {
        case Some(session) =>
          assert Created(w.registry.creates, w.outcomes, a.key, session);
          HandOver(w, a.key, session);
          var handed := w.(history := Handing(w.history, a.key, session));
          Forget(handed, a.key, a.task, false);
          RemoveCreator(handed.(registry := ForgetSection(w.registry, a.key, a.task)), who);
        case None =>
          Forget(w, a.key, a.task, true);
          RemoveCreator(w.(registry := ForgetSection(w.registry, a.key, a.task),
                           history := Disrupting(w.history, a.key, IsCurrent(w.registry, a.key, a.task))), who);
      }
    }
  }

  lemma CutLeaveInv(w: World, who: nat)
    requires Inv(w)
    ensures Inv(DoCutLeave(w, who))
  {
    if who in w.creators && w.creators[who].Leaving? {
      RemoveCreator(w, who);
    }
  }

  lemma CancelWaitingInv(w: World, who: nat)
    requires Inv(w)
    ensures Inv(DoCancelWaiting(w, who))
  {
    if who in w.creators && w.creators[who].Waiting? {
      FinishTask(w, w.creators[who].task, Cancelled);
      RemoveCreator(w.(outcomes := Finish(w.outcomes, w.creators[who].task, Cancelled)), who);
    }
  }

  /** What a claim section can do to the tables: rows disappear, and a claim adds one. */
  lemma ClaimRows(t: Tables, ttl: real, identity: Name, session: Name, readAt: real, writeAt: real)
    ensures
      var (tables, answer) := ClaimSection(t, ttl, identity, session, readAt, writeAt);
      && tables == t.(claims := tables.claims)
      && (answer == AlreadyOwner ==> Owns(t.owners, identity, session))
      && (forall s | s in tables.claims ::
            || (s in t.claims && tables.claims[s].identity == t.claims[s].identity)
            || (answer == Claimed && s == session && tables.claims[s].identity == identity))
  {
  }

  lemma PruneInv(ttl: real, w: World, now: real)
    requires Inv(w)
    ensures Inv(w.(tables := w.tables.(claims := Prune(w.tables.claims, ttl, now))))
  {
    SameLeaks(w.history);
    ChangeClaims(w, Prune(w.tables.claims, ttl, now), w.history.leaked);
  }

  lemma SameLeaks(h: History)
    ensures h.(leaked := h.leaked) == h
  {
  }

  lemma ClaimedInv(w: World, who: nat, h: Holder, claims: map<Name, Claim>)
    requires Inv(w) && who !in w.holders
    requires forall s | s in claims ::
      || (s in w.tables.claims && claims[s].identity == w.tables.claims[s].identity)
      || (s == h.session && claims[s].identity == h.identity)
    ensures Inv(w.(tables := w.tables.(claims := claims), holders := w.holders[who := h]))
  {
    AddHolder(w, who, h);
    SameLeaks(w.history);
    ChangeClaims(w.(holders := w.holders[who := h]), claims, w.history.leaked);
  }

  lemma ClaimInv(ttl: real, w: World, who: nat, identity: Name, session: Name, context: Option<string>,
                 readAt: real, writeAt: real)
    requires Inv(w)
    ensures Inv(DoClaim(ttl, w, who, identity, session, context, readAt, writeAt))
  {
    if who !in w.holders && who !in w.binders && OwnershipFree(w.creators, session) {
      var (tables, answer) := ClaimSection(w.tables, ttl, identity, session, readAt, writeAt);
      ClaimRows(w.tables, ttl, identity, session, readAt, writeAt);
      SameLeaks(w.history);
      match answer
      case Forbidden => ChangeClaims(w, tables.claims, w.history.leaked);
      case AlreadyOwner =>
        ChangeClaims(w, tables.claims, w.history.leaked);
        if context.Some? {
          AddBinder(w.(tables := tables), who, Binder(Key(identity, context.value), session));
        }
      case Claimed => ClaimedInv(w, who, Holder(identity, session, context), tables.claims);
    }
  }

  /** The owner row and the claim rows after a successful finalisation, cut or not. */
  lemma FinalizedInv(w: World, a: Holder, claims: map<Name, Claim>)
    requires Inv(w) && OwnershipFree(w.creators, a.session)
    requires a.session in w.tables.owners ==> w.tables.owners[a.session] == a.identity
    requires forall s | s in claims :: s in w.tables.claims && claims[s] == w.tables.claims[s]
    ensures Inv(w.(tables := w.tables.(owners := w.tables.owners[a.session := a.identity], claims := claims),
                   history := w.history.(finalized := w.history.finalized + {(a.session, a.identity)})))
  {
    SameLeaks(w.history);
    ChangeClaims(w, claims, w.history.leaked);
    SetOwner(w.(tables := w.tables.(claims := claims)), a.session, a.identity);
  }

  lemma FinalizeInv(ttl: real, w: World, who: nat, now: real)
    requires Inv(w)
    ensures Inv(DoFinalize(ttl, w, who, now))
  {
    if who in w.holders && OwnershipFree(w.creators, w.holders[who].session) {
      var a := w.holders[who];
      var (tables, ok) := FinalizeSection(w.tables, ttl, a.identity, a.session, now);
      PruneInv(ttl, w, now);
      if ok {
        FinalizedInv(w, a, tables.claims);
        var owned := w.(tables := tables,
          history := w.history.(finalized := w.history.finalized + {(a.session, a.identity)}));
        SameLeaks(owned.history);
        RemoveHolder(owned, who, owned.history.leaked);
        if a.context.Some? {
          AddBinder(owned.(holders := w.holders - {who}), who, Binder(Key(a.identity, a.context.value), a.session));
        }
      }
    }
  }

  lemma CutFinalizeInv(ttl: real, w: World, who: nat, now: real, cleared: bool)
    requires Inv(w)
    ensures Inv(DoCutFinalize(ttl, w, who, now, cleared))
  {
    if who in w.holders && OwnershipFree(w.creators, w.holders[who].session) {
      var a := w.holders[who];
      var (tables, ok) := FinalizeSection(w.tables, ttl, a.identity, a.session, now);
      PruneInv(ttl, w, now);
      if ok {
        FinalizedInv(w, a, if cleared then tables.claims else Prune(w.tables.claims, ttl, now));
      }
    }
  }

  lemma ExitInv(w: World, who: nat)
    requires Inv(w)
    ensures Inv(DoExit(w, who))
  {
    if who in w.holders && OwnershipFree(w.creators, w.holders[who].session) {
      var tables := ReleaseSection(w.tables, w.holders[who].identity, w.holders[who].session);
      SameLeaks(w.history);
      ChangeClaims(w, tables.claims, w.history.leaked);
      RemoveHolder(w.(tables := tables), who, w.history.leaked);
    }
  }

  lemma CutClaimInv(ttl: real, w: World, identity: Name, session: Name, readAt: real, writeAt: real)
    requires Inv(w)
    ensures Inv(DoCutClaim(ttl, w, identity, session, readAt, writeAt))
  {
    if OwnershipFree(w.creators, session) {
      var (tables, answer) := ClaimSection(w.tables, ttl, identity, session, readAt, writeAt);
      ClaimRows(w.tables, ttl, identity, session, readAt, writeAt);
      AnyHolder(w.holders, identity, session);
      SameLeaks(w.history);
      ChangeClaims(w, tables.claims, DoCutClaim(ttl, w, identity, session, readAt, writeAt).history.leaked);
    }
  }

  lemma CutReleaseInv(w: World, who: nat)
    requires Inv(w)
    ensures Inv(DoCutRelease(w, who))
  {
    if who in w.holders {
      var a := w.holders[who];
      var others := w.holders - {who};
      AnyHolder(others, a.identity, a.session);
      SameLeaks(w.history);
      RemoveHolder(w, who, DoCutRelease(w, who).history.leaked);
    }
  }

  lemma WriteBindingInv(w: World, who: nat)
    requires Inv(w)
    ensures Inv(DoWriteBinding(w, who))
  {
    if who in w.binders && ContextFree(w.creators, w.binders[who].key) {
      var b := w.binders[who];
      var without := w.(binders := w.binders - {who});
      assert Inv(without);
      Bind(without, b.key, b.session, w.history.rebound + {b.key});
    }
  }

  lemma AbandonBindingInv(w: World, who: nat)
    requires Inv(w)
    ensures Inv(w.(binders := w.binders - {who}))
  {
  }

  /** Every step of every activity keeps the invariant. */
  lemma StepInv(ttl: real, w: World, step: Step)
    requires Inv(w)
    ensures Inv(Apply(ttl, w, step))
  {
    hide Inv;
    hide DoStartCreate, DoObserveFailure, DoCommitBinding, DoCommitOwner, DoAbortCommit, DoLeave, DoCutLeave;
    hide DoCancelWaiting;
    hide DoClaim, DoFinalize, DoExit, DoCutClaim, DoCutFinalize, DoCutRelease;
    match step
    case StartCreate(who, key) => StartCreateInv(w, who, key);
    case FinishCreate(task, outcome) => FinishTask(w, task, outcome);
    case ObserveFailure(who) => ObserveFailureInv(w, who);
    case CommitBinding(who) => CommitBindingInv(w, who);
    case CommitOwner(who) => CommitOwnerInv(w, who);
    case AbortCommit(who) => AbortCommitInv(w, who);
    case Leave(who) => LeaveInv(w, who);
    case CutLeave(who) => CutLeaveInv(w, who);
    case CancelWaiting(who) => CancelWaitingInv(w, who);
    case PopCached(key) => Unbind(w, key);
    case CutPop(key) => UnbindOnly(w, key);
    case ClaimSession(who, identity, session, context, readAt, writeAt) =>
      ClaimInv(ttl, w, who, identity, session, context, readAt, writeAt);
    case FinalizeClaim(who, now) => FinalizeInv(ttl, w, who, now);
    case ExitClaim(who) => ExitInv(w, who);
    case CutRead(now) => PruneInv(ttl, w, now);
    case CutClaim(identity, session, readAt, writeAt) => CutClaimInv(ttl, w, identity, session, readAt, writeAt);
    case CutFinalize(who, now, cleared) => CutFinalizeInv(ttl, w, who, now, cleared);
    case CutRelease(who) => CutReleaseInv(w, who);
    case WriteBinding(who) => WriteBindingInv(w, who);
    case AbandonBinding(who) => AbandonBindingInv(w, who);
  }

  lemma {:induction false} RunInv(ttl: real, w: World, steps: seq<Step>)
    requires Inv(w)
    ensures Inv(Run(ttl, w, steps))
    decreases |steps|
  {
    if steps != [] {
      StepInv(ttl, w, steps[0]);
      RunInv(ttl, Apply(ttl, w, steps[0]), steps[1..]);
    }
  }

  lemma ReachableInv(ttl: real, steps: seq<Step>)
    ensures Inv(Run(ttl, Init(), steps))
  {
    RunInv(ttl, Init(), steps);
  }

  // ---------------------------------------------------------------- owners

  lemma StepOwnersStable(ttl: real, w: World, step: Step, session: Name)
    requires Inv(w) && session in w.tables.owners
    ensures Lookup(Apply(ttl, w, step).tables.owners, session) == Some(w.tables.owners[session])
  {
    hide DoStartCreate, DoObserveFailure, DoCommitBinding, DoCommitOwner, DoAbortCommit, DoLeave, DoCutLeave;
    hide DoCancelWaiting;
    hide DoClaim, DoFinalize, DoExit, DoCutClaim, DoCutFinalize, DoCutRelease;
    match step
    case CommitOwner(who) => CommitOwners(w, who, session);
    case FinalizeClaim(who, now) => FinalizeOwners(ttl, w, who, now, session);
    case CutFinalize(who, now, cleared) => CutFinalizeOwners(ttl, w, who, now, cleared, session);
    case _ => OwnersUnwritten(ttl, w, step);
  }

  lemma CommitOwners(w: World, who: nat, session: Name)
    requires Inv(w) && session in w.tables.owners
    ensures Lookup(DoCommitOwner(w, who).tables.owners, session) == Some(w.tables.owners[session])
  {
    if IsCommitting(w.creators, who) {
      assert w.creators[who].session != session;
    }
  }

  lemma FinalizeOwners(ttl: real, w: World, who: nat, now: real, session: Name)
    requires session in w.tables.owners
    ensures Lookup(DoFinalize(ttl, w, who, now).tables.owners, session) == Some(w.tables.owners[session])
  {
  }

  lemma CutFinalizeOwners(ttl: real, w: World, who: nat, now: real, cleared: bool, session: Name)
    requires session in w.tables.owners
    ensures Lookup(DoCutFinalize(ttl, w, who, now, cleared).tables.owners, session) == Some(w.tables.owners[session])
  {
  }

  lemma OwnersUnwritten(ttl: real, w: World, step: Step)
    requires !step.CommitOwner? && !step.FinalizeClaim? && !step.CutFinalize?
    ensures Apply(ttl, w, step).tables.owners == w.tables.owners
  {
    match step
    case ClaimSession(who, identity, session, context, readAt, writeAt) => ClaimOwners(ttl, w, step);
    case CutClaim(identity, session, readAt, writeAt) => ClaimOwners(ttl, w, step);
    case CommitBinding(who) => CommitBindingOwners(w, who);
    case _ => hide DoClaim, DoCutClaim, DoCommitBinding, DoFinalize, DoCutFinalize;
  }

  lemma ClaimOwners(ttl: real, w: World, step: Step)
    requires step.ClaimSession? || step.CutClaim?
    ensures Apply(ttl, w, step).tables.owners == w.tables.owners
  {
    ClaimRows(w.tables, ttl, step.identity, step.session, step.readAt, step.writeAt);
  }

  lemma CommitBindingOwners(w: World, who: nat)
    ensures DoCommitBinding(w, who).tables.owners == w.tables.owners
  {
  }

  lemma {:induction false} RunOwnersStable(ttl: real, w: World, steps: seq<Step>, session: Name)
    requires Inv(w) && session in w.tables.owners
    ensures Lookup(Run(ttl, w, steps).tables.owners, session) == Some(w.tables.owners[session])
    decreases |steps|
  {
    if steps != [] {
      StepOwnersStable(ttl, w, steps[0], session);
      StepInv(ttl, w, steps[0]);
      RunOwnersStable(ttl, Apply(ttl, w, steps[0]), steps[1..], session);
    }
  }

  lemma {:induction false} RunAppend(ttl: real, w: World, a: seq<Step>, b: seq<Step>)
    ensures Run(ttl, w, a + b) == Run(ttl, Run(ttl, w, a), b)
    decreases |a|
  {
    if a == [] {
      assert a + b == b;
    } else {
      assert (a + b)[1..] == a[1..] + b;
      RunAppend(ttl, Apply(ttl, w, a[0]), a[1..], b);
    }
  }

  /** Once a session has an owner in some reachable state, it has that owner in every
      later state, whatever interleaving, expiry, cancel or abort follows. */
  lemma OwnerNeverChanges(ttl: real, before: seq<Step>, after: seq<Step>, session: Name)
    requires session in Run(ttl, Init(), before).tables.owners
    ensures Lookup(Run(ttl, Init(), before + after).tables.owners, session)
         == Some(Run(ttl, Init(), before).tables.owners[session])
  {
    RunAppend(ttl, Init(), before, after);
    ReachableInv(ttl, before);
    RunOwnersStable(ttl, Run(ttl, Init(), before), after, session);
  }

  /** At most one identity ever finalises a claim on a session successfully, and it owns it. */
  lemma OneFinalizer(ttl: real, steps: seq<Step>, session: Name, first: Name, second: Name)
    requires (session, first) in Run(ttl, Init(), steps).history.finalized
    requires (session, second) in Run(ttl, Init(), steps).history.finalized
    ensures first == second
    ensures Lookup(Run(ttl, Init(), steps).tables.owners, session) == Some(first)
  {
    ReachableInv(ttl, steps);
  }

  // ---------------------------------------------------------------- bindings

  /** Where the context lock is free, a stored binding implies ownership. */
  ghost predicate BindingsOwned(w: World) {
    forall k | k in w.tables.bindings && ContextFree(w.creators, k) ::
      Owns(w.tables.owners, k.identity, w.tables.bindings[k])
  }

  ghost predicate HandedOwned(w: World) {
    forall p | p in w.history.handed :: Owns(w.tables.owners, p.0.identity, p.1)
  }

  ghost predicate CutsCommit(w: World, step: Step) {
    step.AbortCommit? && IsCommitting(w.creators, step.who)
  }

  lemma {:induction false} NoCutNoAbort(ttl: real, w: World, steps: seq<Step>)
    requires forall s | s in steps :: !s.AbortCommit?
    ensures Run(ttl, w, steps).history.aborted == w.history.aborted
    decreases |steps|
  {
    if steps != [] {
      assert steps[0] in steps;
      StepHistory(ttl, w, steps[0]);
      NoCutNoAbort(ttl, Apply(ttl, w, steps[0]), steps[1..]);
    }
  }

  /** In every run whose commits are not cut half way, across creates, preferred sessions,
      finalisations and cancels, a free binding is owned by its identity, and every session
      handed back, cached or created, belongs to the caller. */
  lemma BindingImpliesOwner(ttl: real, steps: seq<Step>)
    requires forall s | s in steps :: !s.AbortCommit?
    ensures BindingsOwned(Run(ttl, Init(), steps)) && HandedOwned(Run(ttl, Init(), steps))
  {
    ReachableInv(ttl, steps);
    NoCutNoAbort(ttl, Init(), steps);
  }

  /** Exactly the cut commits break the rule: any other step keeps it. */
  lemma BindingsOwnedUnlessCut(ttl: real, w: World, step: Step)
    requires Inv(w) && BindingsOwned(w)
    ensures BindingsOwned(Apply(ttl, w, step)) <==> !CutsCommit(w, step)
  {
    if CutsCommit(w, step) {
      CutBreaks(ttl, w, step);
    } else {
      // what was aborted before is irrelevant to what a step does
      var clean := w.history.(aborted := {}, handed := {});
      assert BindingsOk(w.tables.bindings, w.tables.owners, w.creators, {});
      assert Inv(w.(history := clean));
      StepInv(ttl, w.(history := clean), step);
      StepHistory(ttl, w.(history := clean), step);
      HistoryUnread(ttl, w, clean, step);
    }
  }

  ghost predicate AlikeButHistory(u: World, v: World) {
    u.tables == v.tables && u.creators == v.creators && u.holders == v.holders
  }

  /** Steps only write the history. */
  lemma HistoryUnread(ttl: real, w: World, h: History, step: Step)
    ensures AlikeButHistory(Apply(ttl, w.(history := h), step), Apply(ttl, w, step))
  {
    hide DoStartCreate, DoObserveFailure, DoCommitBinding, DoCommitOwner, DoAbortCommit, DoLeave, DoCutLeave;
    hide DoCancelWaiting;
    hide DoClaim, DoFinalize, DoExit, DoCutClaim, DoCutFinalize, DoCutRelease;
    match step
    case StartCreate(who, key) => HistoryUnreadByStart(w, h, who, key);
    case ObserveFailure(who) => HistoryUnreadByFailure(w, h, who);
    case CommitBinding(who) => HistoryUnreadByCommit(w, h, who);
    case ClaimSession(who, identity, session, context, readAt, writeAt) => HistoryUnreadByClaim(ttl, w, h, step);
    case FinalizeClaim(who, now) => HistoryUnreadByFinalize(ttl, w, h, who, now);
    case CutClaim(identity, session, readAt, writeAt) => HistoryUnreadByCut(ttl, w, h, step);
    case CutFinalize(who, now, cleared) => HistoryUnreadByCut(ttl, w, h, step);
    case CutRelease(who) => HistoryUnreadByCut(ttl, w, h, step);
    case FinishCreate(task, outcome) =>
    case PopCached(key) =>
    case CutPop(key) =>
    case CutRead(now) =>
    case WriteBinding(who) =>
    case AbandonBinding(who) =>
    case _ => HistoryUnreadByOthers(ttl, w, h, step);
  }

  lemma HistoryUnreadByOthers(ttl: real, w: World, h: History, step: Step)
    requires step.CommitOwner? || step.AbortCommit? || step.Leave? || step.CutLeave? || step.CancelWaiting?
      || step.ExitClaim?
    ensures AlikeButHistory(Apply(ttl, w.(history := h), step), Apply(ttl, w, step))
  {
  }

  lemma HistoryUnreadByCut(ttl: real, w: World, h: History, step: Step)
    requires step.CutClaim? || step.CutFinalize? || step.CutRelease?
    ensures AlikeButHistory(Apply(ttl, w.(history := h), step), Apply(ttl, w, step))
  {
  }

  lemma HistoryUnreadByFailure(w: World, h: History, who: nat)
    ensures AlikeButHistory(DoObserveFailure(w.(history := h), who), DoObserveFailure(w, who))
  {
    assert Awaited(w.(history := h), who) == Awaited(w, who);
  }

  lemma HistoryUnreadByStart(w: World, h: History, who: nat, key: Key)
    ensures AlikeButHistory(DoStartCreate(w.(history := h), who, key), DoStartCreate(w, who, key))
  {
    match StartSection(w.tables, w.registry, key).1
    case Existing(_) =>
    case Await(_) =>
  }

  lemma HistoryUnreadByClaim(ttl: real, w: World, h: History, step: Step)
    requires step.ClaimSession?
    ensures AlikeButHistory(Apply(ttl, w.(history := h), step), Apply(ttl, w, step))
  {
    var u := w.(history := h);
    assert u.tables == w.tables && u.holders == w.holders && u.binders == w.binders && u.creators == w.creators;
    match ClaimSection(w.tables, ttl, step.identity, step.session, step.readAt, step.writeAt).1
    case Forbidden =>
    case Claimed =>
    case AlreadyOwner =>
  }

  lemma HistoryUnreadByFinalize(ttl: real, w: World, h: History, who: nat, now: real)
    ensures var u, v := DoFinalize(ttl, w.(history := h), who, now), DoFinalize(ttl, w, who, now);
      u.tables == v.tables && u.creators == v.creators && u.holders == v.holders
  {
  }

  lemma HistoryUnreadByCommit(w: World, h: History, who: nat)
    ensures AlikeButHistory(DoCommitBinding(w.(history := h), who), DoCommitBinding(w, who))
  {
    assert Awaited(w.(history := h), who) == Awaited(w, who);
  }

  /** Only a cut commit is recorded as aborted. */
  lemma StepHistory(ttl: real, w: World, step: Step)
    requires !CutsCommit(w, step)
    ensures Apply(ttl, w, step).history.aborted == w.history.aborted
  {
  }

  lemma CutBreaks(ttl: real, w: World, step: Step)
    requires Inv(w) && CutsCommit(w, step)
    ensures !BindingsOwned(Apply(ttl, w, step))
  {
    var v := Apply(ttl, w, step);
    var a := w.creators[step.who];
    forall b | b in v.creators && v.creators[b].Committing?
      ensures v.creators[b].key != a.key
    {
      assert IsCommitting(w.creators, b) && IsCommitting(w.creators, step.who);
    }
    assert a.key in v.tables.bindings && ContextFree(v.creators, a.key);
  }

  lemma BobClaims(w: World, alice: Key)
    requires w.creators == map[] && w.holders == map[] && w.binders == map[]
    requires w.tables == Tables(map[alice := "s"], map[], map[])
    ensures Apply(30.0, w, ClaimSession(1, "bob", "s", None, 0.0, 0.0))
      == w.(tables := Tables(map[alice := "s"], map[], map["s" := Claim("bob", 30.0)]),
            holders := map[1 := Holder("bob", "s", None)])
  {
    var claims := ClaimSection(w.tables, 30.0, "bob", "s", 0.0, 0.0).0.claims;
    assert claims == map["s" := Claim("bob", 30.0)];
  }

  lemma BobFinalizes(w: World, alice: Key)
    requires w.creators == map[] && w.holders == map[1 := Holder("bob", "s", None)]
    requires w.tables == Tables(map[alice := "s"], map[], map["s" := Claim("bob", 30.0)])
    ensures var v := Apply(30.0, w, FinalizeClaim(1, 1.0));
      && v.tables.bindings == map[alice := "s"] && v.tables.owners == map["s" := "bob"] && v.creators == map[]
  {
  }

  lemma BoundIsHanded(w: World, alice: Key)
    requires w.creators == map[] && w.tables.bindings == map[alice := "s"]
    ensures var v := Apply(30.0, w, StartCreate(2, alice));
      (alice, "s") in v.history.handed && v.tables == w.tables
  {
  }

  /** A session bound for alice and owned by nobody: bob claims it and finalises, and alice's
      next lookup is still answered with it. */
  lemma UnownedBindingIsTaken(w: World, alice: Key)
    requires w.creators == map[] && w.holders == map[] && w.binders == map[]
    requires w.tables == Tables(map[alice := "s"], map[], map[])
    ensures
      var claimed := Apply(30.0, w, ClaimSession(1, "bob", "s", None, 0.0, 0.0));
      var v := Apply(30.0, Apply(30.0, claimed, FinalizeClaim(1, 1.0)), StartCreate(2, alice));
      (alice, "s") in v.history.handed && Lookup(v.tables.owners, "s") == Some("bob")
  {
    hide Apply;
    BobClaims(w, alice);
    var claimed := Apply(30.0, w, ClaimSession(1, "bob", "s", None, 0.0, 0.0));
    BobFinalizes(claimed, alice);
    BoundIsHanded(Apply(30.0, claimed, FinalizeClaim(1, 1.0)), alice);
  }

  /** A run in which the cut matters: a session bound for alice ends up owned by bob, and
      alice's next lookup is still answered with it. */
  lemma CutCommitHandsOutForeignSession()
    ensures
      var alice := Key("alice", "c");
      var w := Run(30.0, Init(), [
        StartCreate(0, alice), FinishCreate(0, Completed("s")), CommitBinding(0), AbortCommit(0),
        ClaimSession(1, "bob", "s", None, 0.0, 0.0), FinalizeClaim(1, 1.0), StartCreate(2, alice)]);
      (alice, "s") in w.history.handed && Lookup(w.tables.owners, "s") == Some("bob")
  {
    var alice := Key("alice", "c");
    var cut := HalfCommit(alice);
    UnownedBindingIsTaken(cut, alice);
    hide Apply;
    Seven(30.0, Init(), StartCreate(0, alice), FinishCreate(0, Completed("s")), CommitBinding(0), AbortCommit(0),
      ClaimSession(1, "bob", "s", None, 0.0, 0.0), FinalizeClaim(1, 1.0), StartCreate(2, alice));
  }

  /** Alice's create completes and its commit is cut. */
  lemma HalfCommit(alice: Key) returns (cut: World)
    ensures cut == Apply(30.0, Apply(30.0, Apply(30.0, Apply(30.0, Init(),
      StartCreate(0, alice)), FinishCreate(0, Completed("s"))), CommitBinding(0)), AbortCommit(0))
    ensures cut.creators == map[] && cut.holders == map[] && cut.binders == map[]
    ensures cut.tables == Tables(map[alice := "s"], map[], map[])
  {
    var started := DoStartCreate(Init(), 0, alice);
    assert started.creators == map[0 := Waiting(alice, 0)] && started.outcomes == [Running];
    var finished := started.(outcomes := [Completed("s")]);
    assert finished == started.(outcomes := Finish(started.outcomes, 0, Completed("s")));
    hide DoStartCreate;
    var bound := DoCommitBinding(finished, 0);
    assert bound.creators == map[0 := Committing(alice, 0, "s")];
    hide DoCommitBinding;
    cut := DoAbortCommit(bound, 0);
  }

  lemma RunCons(ttl: real, w: World, step: Step, rest: seq<Step>)
    ensures Run(ttl, w, [step] + rest) == Run(ttl, Apply(ttl, w, step), rest)
  {
    hide Apply;
    assert ([step] + rest)[1..] == rest;
  }

  lemma Seven(ttl: real, w: World, a: Step, b: Step, c: Step, d: Step, e: Step, f: Step, g: Step)
    ensures Run(ttl, w, [a, b, c, d, e, f, g])
         == Apply(ttl, Apply(ttl, Apply(ttl, Apply(ttl, Apply(ttl, Apply(ttl, Apply(ttl, w, a), b), c), d), e), f), g)
  {
    hide Apply;
    var w3 := Apply(ttl, Apply(ttl, Apply(ttl, w, a), b), c);
    assert [a, b, c, d, e, f, g] == [a] + ([b] + ([c] + [d, e, f, g]));
    RunCons(ttl, w, a, [b] + ([c] + [d, e, f, g]));
    RunCons(ttl, Apply(ttl, w, a), b, [c] + [d, e, f, g]);
    RunCons(ttl, Apply(ttl, Apply(ttl, w, a), b), c, [d, e, f, g]);
    Four(ttl, w3, d, e, f, g);
  }

  lemma Four(ttl: real, w: World, d: Step, e: Step, f: Step, g: Step)
    ensures Run(ttl, w, [d, e, f, g]) == Apply(ttl, Apply(ttl, Apply(ttl, Apply(ttl, w, d), e), f), g)
  {
    hide Apply;
    assert [d, e, f, g] == [d] + ([e] + ([f] + [g]));
    assert [g] == [g] + [];
    RunCons(ttl, w, d, [e] + ([f] + [g]));
    RunCons(ttl, Apply(ttl, w, d), e, [f] + [g]);
    RunCons(ttl, Apply(ttl, Apply(ttl, w, d), e), f, [g]);
    RunCons(ttl, Apply(ttl, Apply(ttl, Apply(ttl, w, d), e), f), g, []);
  }

  // ---------------------------------------------------------------- creates

  /** The upstream creates issued for a key, however callers interleave, are at most one
      more than the cancels and failures that took that key's binding or create away. */
  lemma CreatesBounded(ttl: real, steps: seq<Step>, key: Key)
    ensures
      var w := Run(ttl, Init(), steps);
      multiset(w.registry.creates)[key] <= 1 + w.history.disrupted[key]
  {
    ReachableInv(ttl, steps);
  }

  lemma SameKeyTwice(creates: seq<Key>, i: nat, j: nat)
    requires i < j < |creates| && creates[i] == creates[j]
    ensures multiset(creates)[creates[i]] >= 2
  {
    assert creates == creates[..j] + creates[j..];
    assert creates[i] in creates[..j] && creates[j] in creates[j..];
  }

  /** Without disruption or explicit rebinding, a key has one create and every caller,
      concurrent or later, cached or created, is handed that create's session. */
  lemma OneSessionPerKey(ttl: real, steps: seq<Step>, key: Key, first: Name, second: Name)
    requires Run(ttl, Init(), steps).history.disrupted[key] == 0
    requires key !in Run(ttl, Init(), steps).history.rebound
    requires (key, first) in Run(ttl, Init(), steps).history.handed
    requires (key, second) in Run(ttl, Init(), steps).history.handed
    ensures first == second
    ensures multiset(Run(ttl, Init(), steps).registry.creates)[key] == 1
  {
    ReachableInv(ttl, steps);
    OneSessionIn(Run(ttl, Init(), steps), key, first, second);
  }

  lemma OneSessionIn(w: World, key: Key, first: Name, second: Name)
    requires Inv(w) && w.history.disrupted[key] == 0 && key !in w.history.rebound
    requires (key, first) in w.history.handed && (key, second) in w.history.handed
    ensures first == second && multiset(w.registry.creates)[key] == 1
  {
    assert ProvenanceOk(w.registry.creates, w.outcomes, w.tables.bindings, w.history.handed, w.history.rebound);
    assert multiset(w.registry.creates)[key] <= 1 by {
      assert CreatesOk(w.tables.bindings, w.registry, w.history.disrupted);
    }
    hide Inv, RegistryInv, OwnershipInv, CreatesOk;
    assert Created(w.registry.creates, w.outcomes, key, first);
    assert Created(w.registry.creates, w.outcomes, key, second);
    var i: nat :| i < |w.outcomes| && w.registry.creates[i] == key && w.outcomes[i] == Completed(first);
    var j: nat :| j < |w.outcomes| && w.registry.creates[j] == key && w.outcomes[j] == Completed(second);
    assert w.registry.creates[i] in multiset(w.registry.creates);
    if i < j {
      SameKeyTwice(w.registry.creates, i, j);
    } else if j < i {
      SameKeyTwice(w.registry.creates, j, i);
    }
  }
}
