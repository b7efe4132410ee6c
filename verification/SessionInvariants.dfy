/** What every step of the session protocol keeps. Each invariant names only the
    parts of the world it depends on, so most steps keep most of them unchanged. */
module SessionInvariants {
  import opened Prelude
  import opened SessionStore
  import opened SessionManagement
  import opened SessionProtocol

  ghost predicate Owns(owners: map<Name, Name>, identity: Name, session: Name) {
    session in owners && owners[session] == identity
  }

  /** Task numbers are consistent between the registry, the outcomes and the creators. */
  ghost predicate TasksOk(r: Registry, outcomes: seq<Outcome>, creators: map<nat, Creator>) {
    && |outcomes| == |r.creates|
    && (forall k | k in r.inflight :: r.inflight[k] < |outcomes| && r.creates[r.inflight[k]] == k)
    && (forall a | a in creators :: CreatorOk(r, outcomes, creators[a]))
  }

  ghost predicate CreatorOk(r: Registry, outcomes: seq<Outcome>, a: Creator) {
    && a.task < |outcomes| && a.task < |r.creates| && r.creates[a.task] == a.key
    && (a.Committing? ==> outcomes[a.task] == Completed(a.session))
    && (a.Leaving? ==> outcomes[a.task] == match a.result case Some(session) => Completed(session) case None => Failed)
  }

  /** A commit in progress holds both locks over a bound session that has no owner. */
  ghost predicate CommitsOk(bindings: map<Key, Name>, owners: map<Name, Name>, creators: map<nat, Creator>) {
    && (forall a | IsCommitting(creators, a) ::
          && creators[a].session !in owners
          && creators[a].key in bindings && bindings[creators[a].key] == creators[a].session)
    && (forall a, b | IsCommitting(creators, a) && IsCommitting(creators, b) && a != b ::
          creators[a].key != creators[b].key && creators[a].session != creators[b].session)
  }

  /** Everything that was confirmed as owned is still owned. */
  ghost predicate OwnersOk(owners: map<Name, Name>, creators: map<nat, Creator>, binders: map<nat, Binder>,
                           finalized: set<(Name, Name)>)
  {
    && (forall p | p in finalized :: Owns(owners, p.1, p.0))
    && (forall b | b in binders :: Owns(owners, binders[b].key.identity, binders[b].session))
    && (forall a | a in creators :: creators[a].Leaving? && creators[a].result.Some? ==>
          Owns(owners, creators[a].key.identity, creators[a].result.value))
  }

  /** Bindings are owned while their lock is free, except on keys with an aborted commit. */
  ghost predicate BindingsOk(bindings: map<Key, Name>, owners: map<Name, Name>, creators: map<nat, Creator>,
                             aborted: set<Key>)
  {
    forall k | k in bindings :: k in aborted || Owns(owners, k.identity, bindings[k]) || !ContextFree(creators, k)
  }

  ghost predicate HandedOk(handed: set<(Key, Name)>, owners: map<Name, Name>, aborted: set<Key>) {
    forall p | p in handed :: p.0 in aborted || Owns(owners, p.0.identity, p.1)
  }

  /** Every claim row has a live holder of the same identity, or was left behind by a cut. */
  ghost predicate ClaimsOk(claims: map<Name, Claim>, holders: map<nat, Holder>, leaked: set<(Name, Name)>) {
    forall s | s in claims ::
      (s, claims[s].identity) in leaked || exists a :: Holds(holders, a, claims[s].identity, s)
  }

  ghost predicate Holds(holders: map<nat, Holder>, a: nat, identity: Name, session: Name) {
    a in holders && holders[a].identity == identity && holders[a].session == session
  }

  lemma AnyHolder(holders: map<nat, Holder>, identity: Name, session: Name)
    ensures AnyHolds(holders, identity, session) <==> exists a :: Holds(holders, a, identity, session)
  {
    if AnyHolds(holders, identity, session) {
      var a :| a in holders && holders[a].identity == identity && holders[a].session == session;
      assert Holds(holders, a, identity, session);
    }
  }

  ghost predicate HasToken(bindings: map<Key, Name>, r: Registry, k: Key) {
    k in bindings || k in r.inflight
  }

  /** The creates issued for a key are paid for by one standing token or by disruptions. */
  ghost predicate CreatesOk(bindings: map<Key, Name>, r: Registry, disrupted: multiset<Key>) {
    forall k :: multiset(r.creates)[k] <= disrupted[k] + (if HasToken(bindings, r, k) then 1 else 0)
  }

  predicate IsBound(a: Creator) {
    a.Committing? || (a.Leaving? && a.result.Some?)
  }

  /** The creates of the key are paid for without its token. */
  ghost predicate PaidFor(r: Registry, disrupted: multiset<Key>, k: Key) {
    multiset(r.creates)[k] <= disrupted[k]
  }

  /** A successful creator whose entry is still in flight has left its binding behind, or a
      disruption has taken it away. */
  ghost predicate LeaversOk(bindings: map<Key, Name>, r: Registry, creators: map<nat, Creator>,
                            disrupted: multiset<Key>)
  {
    forall a | a in creators ::
      (IsBound(creators[a]) && IsCurrent(r, creators[a].key, creators[a].task)) ==>
        creators[a].key in bindings || PaidFor(r, disrupted, creators[a].key)
  }

  ghost predicate Created(creates: seq<Key>, outcomes: seq<Outcome>, k: Key, session: Name) {
    exists t: nat :: t < |outcomes| && t < |creates| && creates[t] == k && outcomes[t] == Completed(session)
  }

  /** Without explicit rebinding, bound and returned sessions come from creates of that key. */
  ghost predicate ProvenanceOk(creates: seq<Key>, outcomes: seq<Outcome>, bindings: map<Key, Name>,
                               handed: set<(Key, Name)>, rebound: set<Key>)
  {
    && (forall k | k in bindings :: k in rebound || Created(creates, outcomes, k, bindings[k]))
    && (forall p | p in handed :: p.0 in rebound || Created(creates, outcomes, p.0, p.1))
  }

  ghost predicate RegistryInv(w: World) {
    && TasksOk(w.registry, w.outcomes, w.creators)
    && CreatesOk(w.tables.bindings, w.registry, w.history.disrupted)
    && LeaversOk(w.tables.bindings, w.registry, w.creators, w.history.disrupted)
    && ProvenanceOk(w.registry.creates, w.outcomes, w.tables.bindings, w.history.handed, w.history.rebound)
  }

  ghost predicate OwnershipInv(w: World) {
    && CommitsOk(w.tables.bindings, w.tables.owners, w.creators)
    && OwnersOk(w.tables.owners, w.creators, w.binders, w.history.finalized)
    && BindingsOk(w.tables.bindings, w.tables.owners, w.creators, w.history.aborted)
    && HandedOk(w.history.handed, w.tables.owners, w.history.aborted)
    && ClaimsOk(w.tables.claims, w.holders, w.history.leaked)
  }

  ghost predicate Inv(w: World) {
    RegistryInv(w) && OwnershipInv(w)
  }

  // ---------------------------------------------------------------- frames

  /** Bindings stay explained when every commit that ends leaves an owner or an abort. */
  lemma BindingsAfter(bindings: map<Key, Name>, owners: map<Name, Name>, before: map<nat, Creator>,
                      after: map<nat, Creator>, aborted: set<Key>)
    requires BindingsOk(bindings, owners, before, aborted)
    requires forall a | IsCommitting(before, a) ::
      || (a in after && after[a] == before[a])
      || before[a].key in aborted
      || (before[a].key in bindings && Owns(owners, before[a].key.identity, bindings[before[a].key]))
    ensures BindingsOk(bindings, owners, after, aborted)
  {
    forall k | k in bindings && k !in aborted && !Owns(owners, k.identity, bindings[k])
      ensures !ContextFree(after, k)
    {
      var a :| a in before && before[a].Committing? && before[a].key == k;
      assert IsCommitting(before, a);
    }
  }

  /** Claims stay held when no row changes identity and every row's holder stays. */
  lemma ClaimsAfter(claims: map<Name, Claim>, holders: map<nat, Holder>, leaked: set<(Name, Name)>,
                    claims': map<Name, Claim>, holders': map<nat, Holder>, leaked': set<(Name, Name)>)
    requires ClaimsOk(claims, holders, leaked) && leaked <= leaked'
    requires forall s | s in claims' ::
      || (s, claims'[s].identity) in leaked'
      || (exists a :: Holds(holders', a, claims'[s].identity, s))
      || (s in claims && claims[s].identity == claims'[s].identity
          && forall a | Holds(holders, a, claims[s].identity, s) :: Holds(holders', a, claims[s].identity, s))
    ensures ClaimsOk(claims', holders', leaked')
  {
  }

  /** Creations are remembered: tasks are only added, and a completed task stays completed. */
  lemma ProvenanceAfter(creates: seq<Key>, outcomes: seq<Outcome>, creates': seq<Key>, outcomes': seq<Outcome>,
                        bindings: map<Key, Name>, handed: set<(Key, Name)>, rebound: set<Key>)
    requires ProvenanceOk(creates, outcomes, bindings, handed, rebound)
    requires |creates| == |outcomes| && creates <= creates' && |outcomes| <= |outcomes'|
    requires forall t | 0 <= t < |outcomes| :: outcomes[t].Completed? ==> outcomes'[t] == outcomes[t]
    ensures ProvenanceOk(creates', outcomes', bindings, handed, rebound)
  {
    forall k, s | Created(creates, outcomes, k, s)
      ensures Created(creates', outcomes', k, s)
    {
      var t: nat :| t < |outcomes| && t < |creates| && creates[t] == k && outcomes[t] == Completed(s);
      assert creates'[t] == k && outcomes'[t] == Completed(s);
    }
  }

  // ------------------------------------------------- elementary changes that keep the invariant

  /** A creator that is not in the middle of a commit may go away. */
  lemma RemoveCreator(w: World, who: nat)
    requires Inv(w) && !IsCommitting(w.creators, who)
    ensures Inv(w.(creators := w.creators - {who}))
  {
    var v := w.(creators := w.creators - {who});
    BindingsAfter(w.tables.bindings, w.tables.owners, w.creators, v.creators, w.history.aborted);
  }

  /** A creator may become anything but a commit in progress, if what it says is so. */
  lemma SetCreator(w: World, who: nat, a: Creator)
    requires Inv(w) && !IsCommitting(w.creators, who) && !a.Committing?
    requires CreatorOk(w.registry, w.outcomes, a)
    requires IsBound(a) ==>
      Owns(w.tables.owners, a.key.identity, a.result.value)
      && (IsCurrent(w.registry, a.key, a.task) ==> a.key in w.tables.bindings)
    ensures Inv(w.(creators := w.creators[who := a]))
  {
    var v := w.(creators := w.creators[who := a]);
    assert RegistryInv(v);
    SetCreatorOwnership(w, who, a);
  }

  lemma SetCreatorOwnership(w: World, who: nat, a: Creator)
    requires OwnershipInv(w) && !IsCommitting(w.creators, who) && !a.Committing?
    requires IsBound(a) ==> Owns(w.tables.owners, a.key.identity, a.result.value)
    ensures OwnershipInv(w.(creators := w.creators[who := a]))
  {
    BindingsAfter(w.tables.bindings, w.tables.owners, w.creators, w.creators[who := a], w.history.aborted);
  }

  /** Issuing a create is only possible for a key without a token. */
  lemma IssueCreate(w: World, key: Key)
    requires Inv(w) && !HasToken(w.tables.bindings, w.registry, key)
    ensures Inv(w.(registry := StartSection(w.tables, w.registry, key).0, outcomes := w.outcomes + [Running]))
  {
    var v := w.(registry := StartSection(w.tables, w.registry, key).0, outcomes := w.outcomes + [Running]);
    assert multiset(v.registry.creates) == multiset(w.registry.creates) + multiset{key};
    ProvenanceAfter(w.registry.creates, w.outcomes, v.registry.creates, v.outcomes,
                    w.tables.bindings, w.history.handed, w.history.rebound);
  }

  lemma FinishTask(w: World, task: nat, outcome: Outcome)
    requires Inv(w)
    ensures Inv(w.(outcomes := Finish(w.outcomes, task, outcome)))
  {
    ProvenanceAfter(w.registry.creates, w.outcomes, w.registry.creates, Finish(w.outcomes, task, outcome),
                    w.tables.bindings, w.history.handed, w.history.rebound);
  }

  /** Dropping a registry entry needs a binding in its place, or counts as a disruption. */
  lemma Forget(w: World, key: Key, task: nat, disrupting: bool)
    requires Inv(w)
    requires !disrupting && IsCurrent(w.registry, key, task) ==>
      key in w.tables.bindings || PaidFor(w.registry, w.history.disrupted, key)
    ensures Inv(w.(registry := ForgetSection(w.registry, key, task),
                   history := Disrupting(w.history, key, disrupting && IsCurrent(w.registry, key, task))))
  {
  }

  lemma HandOver(w: World, key: Key, session: Name)
    requires Inv(w)
    requires key in w.history.aborted || Owns(w.tables.owners, key.identity, session)
    requires key in w.history.rebound || Created(w.registry.creates, w.outcomes, key, session)
    ensures Inv(w.(history := Handing(w.history, key, session)))
  {
  }

  /** A binding to an owned session may be written while the context lock is free. */
  lemma Bind(w: World, key: Key, session: Name, rebound: set<Key>)
    requires Inv(w) && ContextFree(w.creators, key) && w.history.rebound <= rebound
    requires Owns(w.tables.owners, key.identity, session)
    requires key in rebound || Created(w.registry.creates, w.outcomes, key, session)
    ensures Inv(w.(tables := w.tables.(bindings := w.tables.bindings[key := session]),
                   history := w.history.(rebound := rebound)))
  {
  }

  /** The first write of a commit whose session has no owner yet. */
  lemma BeginCommit(w: World, who: nat, session: Name)
    requires Inv(w) && Awaited(w, who) == Completed(session)
    requires ContextFree(w.creators, w.creators[who].key) && OwnershipFree(w.creators, session)
    requires session !in w.tables.owners
    ensures Inv(BegunCommit(w, who, session))
  {
    BeginCommitOwnership(w, who, session);
    assert Created(w.registry.creates, w.outcomes, w.creators[who].key, session);
  }

  ghost function BegunCommit(w: World, who: nat, session: Name): World
    requires who in w.creators
  {
    var a := w.creators[who];
    w.(tables := w.tables.(bindings := w.tables.bindings[a.key := session]),
       creators := w.creators[who := Committing(a.key, a.task, session)])
  }

  lemma BeginCommitOwnership(w: World, who: nat, session: Name)
    requires OwnershipInv(w) && Awaited(w, who) == Completed(session)
    requires ContextFree(w.creators, w.creators[who].key) && OwnershipFree(w.creators, session)
    requires session !in w.tables.owners
    ensures OwnershipInv(BegunCommit(w, who, session))
  {
    var v := BegunCommit(w, who, session);
    BindingsAfter(w.tables.bindings, w.tables.owners, w.creators, v.creators, w.history.aborted);
    assert v.creators[who].key == w.creators[who].key;
  }

  lemma EndCommit(w: World, who: nat)
    requires Inv(w) && IsCommitting(w.creators, who)
    ensures Inv(DoCommitOwner(w, who))
  {
    EndCommitRegistry(w, who);
    EndCommitOwnership(w, who);
  }

  lemma EndCommitRegistry(w: World, who: nat)
    requires Inv(w) && IsCommitting(w.creators, who)
    ensures RegistryInv(DoCommitOwner(w, who))
  {
  }

  lemma EndCommitOwnership(w: World, who: nat)
    requires OwnershipInv(w) && IsCommitting(w.creators, who)
    ensures OwnershipInv(DoCommitOwner(w, who))
  {
    var a := w.creators[who];
    var owners := w.tables.owners[a.session := a.key.identity];
    EndCommitBindings(w, who);
    assert OwnersOk(owners, DoCommitOwner(w, who).creators, w.binders, w.history.finalized);
  }

  lemma EndCommitBindings(w: World, who: nat)
    requires OwnershipInv(w) && IsCommitting(w.creators, who)
    ensures var v := DoCommitOwner(w, who);
      BindingsOk(v.tables.bindings, v.tables.owners, v.creators, w.history.aborted)
  {
    var v := DoCommitOwner(w, who);
    assert BindingsOk(w.tables.bindings, v.tables.owners, w.creators, w.history.aborted);
    BindingsAfter(w.tables.bindings, v.tables.owners, w.creators, v.creators, w.history.aborted);
  }

  lemma CutCommit(w: World, who: nat)
    requires Inv(w) && IsCommitting(w.creators, who)
    ensures Inv(DoAbortCommit(w, who))
  {
    var aborted := DoAbortCommit(w, who).history.aborted;
    BindingsAfter(w.tables.bindings, w.tables.owners, w.creators, w.creators - {who}, aborted);
  }

  lemma Unbind(w: World, key: Key)
    requires Inv(w)
    ensures Inv(DoPopCached(w, key))
  {
    UnbindRegistry(w, key);
    UnbindOwnership(w, key);
  }

  lemma UnbindRegistry(w: World, key: Key)
    requires RegistryInv(w)
    ensures RegistryInv(DoPopCached(w, key))
  {
    var v := DoPopCached(w, key);
    UnbindCreates(w, key);
    assert TasksOk(v.registry, v.outcomes, v.creators);
    assert ProvenanceOk(v.registry.creates, v.outcomes, v.tables.bindings, v.history.handed, v.history.rebound);
    hide CreatesOk, TasksOk, ProvenanceOk;
  }

  lemma UnbindCreates(w: World, key: Key)
    requires RegistryInv(w)
    ensures var v := DoPopCached(w, key);
      CreatesOk(v.tables.bindings, v.registry, v.history.disrupted)
  {
  }

  lemma UnbindOwnership(w: World, key: Key)
    requires OwnershipInv(w)
    ensures OwnershipInv(DoPopCached(w, key))
  {
  }

  lemma UnbindOnly(w: World, key: Key)
    requires Inv(w)
    ensures Inv(DoCutPop(w, key))
  {
    UnbindOnlyRegistry(w, key);
    UnbindOnlyOwnership(w, key);
  }

  lemma UnbindOnlyRegistry(w: World, key: Key)
    requires RegistryInv(w)
    ensures RegistryInv(DoCutPop(w, key))
  {
    var v := DoCutPop(w, key);
    UnbindOnlyCreates(w, key);
    assert TasksOk(v.registry, v.outcomes, v.creators);
    assert ProvenanceOk(v.registry.creates, v.outcomes, v.tables.bindings, v.history.handed, v.history.rebound);
  }

  lemma UnbindOnlyCreates(w: World, key: Key)
    requires RegistryInv(w)
    ensures var v := DoCutPop(w, key);
      && CreatesOk(v.tables.bindings, v.registry, v.history.disrupted)
      && LeaversOk(v.tables.bindings, v.registry, v.creators, v.history.disrupted)
  {
    hide TasksOk, ProvenanceOk;
  }

  lemma UnbindOnlyOwnership(w: World, key: Key)
    requires OwnershipInv(w)
    ensures OwnershipInv(DoCutPop(w, key))
  {
  }

  /** Claim rows may disappear or be renewed, and new ones need a holder or count as leaks. */
  lemma ChangeClaims(w: World, claims: map<Name, Claim>, leaked: set<(Name, Name)>)
    requires Inv(w) && w.history.leaked <= leaked
    requires forall s | s in claims ::
      || (s in w.tables.claims && claims[s].identity == w.tables.claims[s].identity)
      || (exists a :: Holds(w.holders, a, claims[s].identity, s))
      || (s, claims[s].identity) in leaked
    ensures Inv(w.(tables := w.tables.(claims := claims), history := w.history.(leaked := leaked)))
  {
    ClaimsAfter(w.tables.claims, w.holders, w.history.leaked, claims, w.holders, leaked);
  }

  lemma AddHolder(w: World, who: nat, h: Holder)
    requires Inv(w) && who !in w.holders
    ensures Inv(w.(holders := w.holders[who := h]))
    ensures Holds(w.holders[who := h], who, h.identity, h.session)
  {
    ClaimsAfter(w.tables.claims, w.holders, w.history.leaked, w.tables.claims, w.holders[who := h], w.history.leaked);
  }

  /** A holder may go once its claim row is gone or belongs to someone else, or with another
      holder or a leak to account for it. */
  lemma RemoveHolder(w: World, who: nat, leaked: set<(Name, Name)>)
    requires Inv(w) && who in w.holders && w.history.leaked <= leaked
    requires var a := w.holders[who];
      || Claimant(w.tables.claims, a.session) != Some(a.identity)
      || (exists other :: Holds(w.holders - {who}, other, a.identity, a.session))
      || (a.session, a.identity) in leaked
    ensures Inv(w.(holders := w.holders - {who}, history := w.history.(leaked := leaked)))
  {
    ClaimsAfter(w.tables.claims, w.holders, w.history.leaked, w.tables.claims, w.holders - {who}, leaked);
  }

  lemma AddBinder(w: World, who: nat, b: Binder)
    requires Inv(w) && Owns(w.tables.owners, b.key.identity, b.session)
    ensures Inv(w.(binders := w.binders[who := b]))
  {
  }

  /** An owner row may be written for a session that has none or has that owner already. */
  lemma SetOwner(w: World, session: Name, identity: Name)
    requires Inv(w) && OwnershipFree(w.creators, session)
    requires session in w.tables.owners ==> w.tables.owners[session] == identity
    ensures Inv(w.(tables := w.tables.(owners := w.tables.owners[session := identity]),
                   history := w.history.(finalized := w.history.finalized + {(session, identity)})))
  {
  }
}
