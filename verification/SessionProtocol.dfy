/** Any number of activities interleave on one database repository. Every step is one
    lock-protected section of the session manager, an upstream outcome, or a
    cancellation. The last half of a create commit is a step of its own, because an
    activity can be cancelled between writing the binding and writing the owner; claims,
    finalisations, releases, pops and the end of a create have cut variants for the same
    reason. */
module SessionProtocol {
  import opened Prelude
  import opened SessionStore
  import opened SessionManagement

  /** What an upstream create task has come to. */
  datatype Outcome = Running | Completed(session: Name) | Failed | Cancelled

  /** A call of get_or_create_session on its create path. */
  datatype Creator =
    | Waiting(key: Key, task: nat)
      // both locks held, binding written, owner row still to be written
    | Committing(key: Key, task: nat, session: Name)
      // locks released; the registry entry is still to be dropped
    | Leaving(key: Key, task: nat, result: Option<Name>)

  /** A guard (no context) or a coordinator that claimed and neither finalised nor exited. */
  datatype Holder = Holder(identity: Name, session: Name, context: Option<string>)

  /** A call whose ownership is confirmed and whose binding is still to be written. */
  datatype Binder = Binder(key: Key, session: Name)

  datatype World = World(
    tables: Tables,
    registry: Registry,
    outcomes: seq<Outcome>,
    creators: map<nat, Creator>,
    holders: map<nat, Holder>,
    binders: map<nat, Binder>,
    history: History)

  /** What has happened so far; no step reads it. */
  datatype History = History(
    disrupted: multiset<Key>,        // cancels and failures that took a binding or a create away
    rebound: set<Key>,               // keys bound explicitly
    aborted: set<Key>,               // keys with a commit cut off half way
    handed: set<(Key, Name)>,        // sessions returned for a key
    finalized: set<(Name, Name)>,    // (session, identity) of each successful finalisation
    leaked: set<(Name, Name)>)       // (session, identity) of each claim row left without a holder

  datatype Step =
    | StartCreate(who: nat, key: Key)
    | FinishCreate(task: nat, outcome: Outcome)
    | ObserveFailure(who: nat)
    | CommitBinding(who: nat)
    | CommitOwner(who: nat)
    | AbortCommit(who: nat)
    | Leave(who: nat)
      // cut after the last write: the lock-free end, which drops the entry, is not reached
    | CutLeave(who: nat)
    | CancelWaiting(who: nat)
    | PopCached(key: Key)
      // cut after the binding is deleted and before the entry is dropped
    | CutPop(key: Key)
    | ClaimSession(who: nat, identity: Name, session: Name, context: Option<string>, readAt: real, writeAt: real)
    | FinalizeClaim(who: nat, now: real)
    | ExitClaim(who: nat)
      // cut by a cancellation or a storage failure: the section ran this far, the caller never learns
    | CutRead(now: real)
    | CutClaim(identity: Name, session: Name, readAt: real, writeAt: real)
    | CutFinalize(who: nat, now: real, cleared: bool)
    | CutRelease(who: nat)
    | WriteBinding(who: nat)
    | AbandonBinding(who: nat)

  function Init(): World {
    World(Tables(map[], map[], map[]), Registry(map[], []), [], map[], map[], map[],
          History(multiset{}, {}, {}, {}, {}, {}))
  }

  predicate IsCommitting(creators: map<nat, Creator>, who: nat) {
    who in creators && creators[who].Committing?
  }

  /** The (identity, context) lock is free. */
  predicate ContextFree(creators: map<nat, Creator>, key: Key) {
    forall a | a in creators :: creators[a].Committing? ==> creators[a].key != key
  }

  /** The session's ownership lock is free. */
  predicate OwnershipFree(creators: map<nat, Creator>, session: Name) {
    forall a | a in creators :: creators[a].Committing? ==> creators[a].session != session
  }

  function Handing(h: History, key: Key, session: Name): History {
    h.(handed := h.handed + {(key, session)})
  }

  function Disrupting(h: History, key: Key, really: bool): History {
    if really then h.(disrupted := h.disrupted + multiset{key}) else h
  }

  function DoStartCreate(w: World, who: nat, key: Key): World {
    if who in w.creators || !ContextFree(w.creators, key) then w else
      var (registry, answer) := StartSection(w.tables, w.registry, key);
      match answer
      case Existing(session) => w.(history := Handing(w.history, key, session))
      case Await(task) =>
        w.(registry := registry,
           outcomes := if task == |w.outcomes| then w.outcomes + [Running] else w.outcomes,
           creators := w.creators[who := Waiting(key, task)])
  }

  function Finish(outcomes: seq<Outcome>, task: nat, outcome: Outcome): seq<Outcome> {
    if task < |outcomes| && outcomes[task] == Running then outcomes[task := outcome] else outcomes
  }

  /** The outcome of the task a creator waits for. */
  function Awaited(w: World, who: nat): Outcome {
    if who in w.creators && w.creators[who].Waiting? && w.creators[who].task < |w.outcomes|
    then w.outcomes[w.creators[who].task]
    else Running
  }

  /** A failed create is caught and its entry dropped later; a cancelled one is not caught. */
  function DoObserveFailure(w: World, who: nat): World {
    match Awaited(w, who)
    case Failed =>
      w.(creators := w.creators[who := Leaving(w.creators[who].key, w.creators[who].task, None)])
    case Cancelled => w.(creators := w.creators - {who})
    case _ => w
  }

  function DoCommitBinding(w: World, who: nat): World {
    match Awaited(w, who)
    case Completed(session) =>
      var a := w.creators[who];
      if !ContextFree(w.creators, a.key) || !OwnershipFree(w.creators, session) then w else
        var (tables, answer) := CommitBindingSection(w.tables, a.key, session);
        (match answer
         case Refused =>
           w.(registry := ForgetSection(w.registry, a.key, a.task),
              creators := w.creators - {who},
              history := Disrupting(w.history, a.key, IsCurrent(w.registry, a.key, a.task)))
         case Bound(ownerMissing) =>
           w.(tables := tables,
              creators := w.creators[who :=
                if ownerMissing then Committing(a.key, a.task, session)
                else Leaving(a.key, a.task, Some(session))]))
    case _ => w
  }

  function DoCommitOwner(w: World, who: nat): World {
    if !IsCommitting(w.creators, who) then w else
      var a := w.creators[who];
      w.(tables := CommitOwnerSection(w.tables, a.key, a.session),
         creators := w.creators[who := Leaving(a.key, a.task, Some(a.session))])
  }

  /** Cancelled, or failed by storage, between the two writes; nothing cleans up. */
  function DoAbortCommit(w: World, who: nat): World {
    if !IsCommitting(w.creators, who) then w
    else w.(creators := w.creators - {who},
            history := w.history.(aborted := w.history.aborted + {w.creators[who].key}))
  }

  function DoLeave(w: World, who: nat): World {
    if who !in w.creators || !w.creators[who].Leaving? then w else
      var a := w.creators[who];
      w.(registry := ForgetSection(w.registry, a.key, a.task),
         creators := w.creators - {who},
         history := match a.result
           case Some(session) => Handing(w.history, a.key, session)
           case None => Disrupting(w.history, a.key, IsCurrent(w.registry, a.key, a.task)))
  }

  /** Cancelling a caller that awaits a running create cancels the shared task with it. */
  function DoCancelWaiting(w: World, who: nat): World {
    if who !in w.creators || !w.creators[who].Waiting? then w
    else w.(outcomes := Finish(w.outcomes, w.creators[who].task, Cancelled), creators := w.creators - {who})
  }

  function DoPopCached(w: World, key: Key): World {
    if !ContextFree(w.creators, key) then w else
      w.(tables := w.tables.(bindings := w.tables.bindings - {key}),
         registry := w.registry.(inflight := w.registry.inflight - {key}),
         history := Disrupting(w.history, key, key in w.tables.bindings || key in w.registry.inflight))
  }

  function DoCutLeave(w: World, who: nat): World {
    if who in w.creators && w.creators[who].Leaving? then w.(creators := w.creators - {who}) else w
  }

  function DoCutPop(w: World, key: Key): World {
    if !ContextFree(w.creators, key) then w else
      w.(tables := w.tables.(bindings := w.tables.bindings - {key}),
         history := Disrupting(w.history, key, key in w.tables.bindings))
  }

  function DoClaim(ttl: real, w: World, who: nat, identity: Name, session: Name, context: Option<string>,
                   readAt: real, writeAt: real): World
  {
    if who in w.holders || who in w.binders || !OwnershipFree(w.creators, session) then w else
      var (tables, answer) := ClaimSection(w.tables, ttl, identity, session, readAt, writeAt);
      match answer
      case Forbidden => w.(tables := tables)
      case Claimed => w.(tables := tables, holders := w.holders[who := Holder(identity, session, context)])
      case AlreadyOwner =>
        if context.None? then w.(tables := tables)
        else w.(tables := tables, binders := w.binders[who := Binder(Key(identity, context.value), session)])
  }

  function DoFinalize(ttl: real, w: World, who: nat, now: real): World {
    if who !in w.holders || !OwnershipFree(w.creators, w.holders[who].session) then w else
      var a := w.holders[who];
      var (tables, ok) := FinalizeSection(w.tables, ttl, a.identity, a.session, now);
      if !ok then w.(tables := tables) else
        w.(tables := tables,
           holders := w.holders - {who},
           binders := if a.context.None? then w.binders
                      else w.binders[who := Binder(Key(a.identity, a.context.value), a.session)],
           history := w.history.(finalized := w.history.finalized + {(a.session, a.identity)}))
  }

  function DoExit(w: World, who: nat): World {
    if who !in w.holders || !OwnershipFree(w.creators, w.holders[who].session) then w
    else w.(tables := ReleaseSection(w.tables, w.holders[who].identity, w.holders[who].session),
            holders := w.holders - {who})
  }

  /** Somebody holds a claim of the identity on the session. */
  predicate AnyHolds(holders: map<nat, Holder>, identity: Name, session: Name) {
    exists a | a in holders :: holders[a].identity == identity && holders[a].session == session
  }

  function Leaking(h: History, session: Name, identity: Name, really: bool): History {
    if really then h.(leaked := h.leaked + {(session, identity)}) else h
  }

  /** The claim row is written, but the caller that would release it is cancelled before it
      learns of it. */
  function DoCutClaim(ttl: real, w: World, identity: Name, session: Name, readAt: real, writeAt: real): World {
    if !OwnershipFree(w.creators, session) then w else
      var (tables, answer) := ClaimSection(w.tables, ttl, identity, session, readAt, writeAt);
      w.(tables := tables,
         history := Leaking(w.history, session, identity,
           answer == Claimed && ttl > 0.0 && !AnyHolds(w.holders, identity, session)))
  }

  /** The owner row is written and perhaps the claim row cleared, but the holder still counts
      its claim as pending. */
  function DoCutFinalize(ttl: real, w: World, who: nat, now: real, cleared: bool): World {
    if who !in w.holders || !OwnershipFree(w.creators, w.holders[who].session) then w else
      var a := w.holders[who];
      var (tables, ok) := FinalizeSection(w.tables, ttl, a.identity, a.session, now);
      if !ok then w.(tables := tables) else
        w.(tables := if cleared then tables else tables.(claims := Prune(w.tables.claims, ttl, now)),
           history := w.history.(finalized := w.history.finalized + {(a.session, a.identity)}))
  }

  /** The holder goes and its release is cut off or fails. */
  function DoCutRelease(w: World, who: nat): World {
    if who !in w.holders then w else
      var a := w.holders[who];
      w.(holders := w.holders - {who},
         history := Leaking(w.history, a.session, a.identity,
           Claimant(w.tables.claims, a.session) == Some(a.identity)
           && !AnyHolds(w.holders - {who}, a.identity, a.session)))
  }

  function DoWriteBinding(w: World, who: nat): World {
    if who !in w.binders || !ContextFree(w.creators, w.binders[who].key) then w else
      var a := w.binders[who];
      w.(tables := w.tables.(bindings := w.tables.bindings[a.key := a.session]),
         binders := w.binders - {who},
         history := w.history.(rebound := w.history.rebound + {a.key}))
  }

  /** One step; a step whose activity or locks are not ready leaves the world alone. */
  function Apply(ttl: real, w: World, step: Step): World {
    match step
    case StartCreate(who, key) => DoStartCreate(w, who, key)
    case FinishCreate(task, outcome) => w.(outcomes := Finish(w.outcomes, task, outcome))
    case ObserveFailure(who) => DoObserveFailure(w, who)
    case CommitBinding(who) => DoCommitBinding(w, who)
    case CommitOwner(who) => DoCommitOwner(w, who)
    case AbortCommit(who) => DoAbortCommit(w, who)
    case Leave(who) => DoLeave(w, who)
    case CutLeave(who) => DoCutLeave(w, who)
    case CancelWaiting(who) => DoCancelWaiting(w, who)
    case PopCached(key) => DoPopCached(w, key)
    case CutPop(key) => DoCutPop(w, key)
    case ClaimSession(who, identity, session, context, readAt, writeAt) =>
      DoClaim(ttl, w, who, identity, session, context, readAt, writeAt)
    case FinalizeClaim(who, now) => DoFinalize(ttl, w, who, now)
    case ExitClaim(who) => DoExit(w, who)
    case CutRead(now) => w.(tables := w.tables.(claims := Prune(w.tables.claims, ttl, now)))
    case CutClaim(identity, session, readAt, writeAt) => DoCutClaim(ttl, w, identity, session, readAt, writeAt)
    case CutFinalize(who, now, cleared) => DoCutFinalize(ttl, w, who, now, cleared)
    case CutRelease(who) => DoCutRelease(w, who)
    case WriteBinding(who) => DoWriteBinding(w, who)
    case AbandonBinding(who) => w.(binders := w.binders - {who})
  }

  function Run(ttl: real, w: World, steps: seq<Step>): World
    decreases |steps|
  {
    if steps == [] then w else Run(ttl, Apply(ttl, w, steps[0]), steps[1..])
  }
}
