/** The session manager's critical sections as methods over the repository and the
    in-flight create registry, and the claim guard used by the JSON-RPC handlers. */
module SessionManagement {
  import opened Prelude
  import opened SessionStore

  /** Upstream create calls are numbered in the order they are issued; the number
      stands for the task. `creates[t]` is the key that task `t` was issued for. */
  datatype Registry = Registry(inflight: map<Key, nat>, creates: seq<Key>)

  datatype StartAnswer = Existing(session: Name) | Await(task: nat)

  /** Under the context lock: answer from the binding, or join or issue a create. */
  function StartSection(t: Tables, r: Registry, key: Key): (Registry, StartAnswer) {
    if key in t.bindings then (r, Existing(t.bindings[key]))
    else if key in r.inflight then (r, Await(r.inflight[key]))
    else (Registry(r.inflight[key := |r.creates|], r.creates + [key]), Await(|r.creates|))
  }

  predicate IsCurrent(r: Registry, key: Key, task: nat) {
    key in r.inflight && r.inflight[key] == task
  }

  function ForgetSection(r: Registry, key: Key, task: nat): Registry {
    if IsCurrent(r, key, task) then r.(inflight := r.inflight - {key}) else r
  }

  class SessionManager {
    const repository: DatabaseSessionStateRepository
    var inflight: map<Key, nat>
    var creates: seq<Key>

    constructor (repository: DatabaseSessionStateRepository)
      ensures this.repository == repository
      ensures Registered() == Registry(map[], [])
    {
      this.repository := repository;
      inflight, creates := map[], [];
    }

    function Registered(): Registry
      reads this
    {
      Registry(inflight, creates)
    }

    method ClaimPreferredSession(identity: Name, session: Name, readAt: real, writeAt: real)
      returns (answer: ClaimAnswer)
      modifies repository
      ensures (repository.View(), answer)
           == ClaimSection(old(repository.View()), repository.claimTtl, identity, session, readAt, writeAt)
    {
      var owner := repository.GetOwner(session);
      var pending := repository.GetPendingClaim(session, readAt);
      if owner.Some? && owner.value != identity {
        return Forbidden;
      }
      if pending.Some? && pending.value != identity {
        return Forbidden;
      }
      if owner == Some(identity) {
        return AlreadyOwner;
      }
      repository.SetPendingClaim(session, identity, writeAt);
      answer := Claimed;
    }

    method FinalizeSessionClaim(identity: Name, session: Name, now: real) returns (ok: bool)
      modifies repository
      ensures (repository.View(), ok)
           == FinalizeSection(old(repository.View()), repository.claimTtl, identity, session, now)
    {
      var owner := repository.GetOwner(session);
      var pending := repository.GetPendingClaim(session, now);
      if owner.Some? && owner.value != identity {
        return false;
      }
      if pending.Some? && pending.value != identity {
        return false;
      }
      repository.SetOwner(session, identity);
      repository.ClearPendingClaim(session, identity);
      ok := true;
    }

    method ReleasePreferredSessionClaim(identity: Name, session: Name)
      modifies repository
      ensures repository.View() == ReleaseSection(old(repository.View()), identity, session)
    {
      repository.ClearPendingClaim(session, identity);
    }

    /** The first context-lock section of get_or_create_session. */
    method StartCreate(key: Key) returns (answer: StartAnswer)
      modifies this
      ensures (Registered(), answer)
           == StartSection(repository.View(), old(Registered()), key)
      ensures repository.View() == old(repository.View())
    {
      var existing := repository.GetSession(key);
      if existing.Some? {
        return Existing(existing.value);
      }
      if key !in inflight {
        inflight := inflight[key := |creates|];
        creates := creates + [key];
      }
      answer := Await(inflight[key]);
    }

    /** The second section, under the context lock and the ownership lock; a
        refusal also drops the in-flight entry if it is still this task's. */
    method CommitCreate(key: Key, task: nat, session: Name) returns (answer: CommitAnswer)
      modifies this, repository
      ensures (repository.View(), answer) == CommitSection(old(repository.View()), key, session)
      ensures Registered()
           == if answer == Refused then ForgetSection(old(Registered()), key, task) else old(Registered())
    {
      var owner := repository.GetOwner(session);
      if owner.Some? && owner.value != key.identity {
        ForgetCreate(key, task);
        return Refused;
      }
      repository.SetSession(key, session);
      if owner.None? {
        repository.SetOwner(session, key.identity);
      }
      answer := Bound(owner.None?);
    }

    method ForgetCreate(key: Key, task: nat)
      modifies this
      ensures Registered() == ForgetSection(old(Registered()), key, task)
    {
      if key in inflight && inflight[key] == task {
        inflight := inflight - {key};
      }
    }

    method BindSession(key: Key, session: Name)
      modifies repository
      ensures repository.View() == old(repository.View()).(bindings := old(repository.bindings)[key := session])
    {
      repository.SetSession(key, session);
    }

    method PopCachedSession(key: Key) returns (task: Option<nat>)
      modifies this, repository
      ensures repository.View() == old(repository.View()).(bindings := old(repository.bindings) - {key})
      ensures Registered() == old(Registered()).(inflight := old(inflight) - {key})
      ensures task == Lookup(old(inflight), key)
    {
      repository.PopSession(key);
      task := Lookup(inflight, key);
      inflight := inflight - {key};
    }
  }

  /** The async context manager around one extension call. Identity and session id
      may be empty, and then the guard does nothing. */
  class SessionClaimGuard {
    const manager: SessionManager
    const identity: string
    const session: string
    var pending: bool
    var finalized: bool

    constructor (manager: SessionManager, identity: string, session: string)
      ensures this.manager == manager && this.identity == identity && this.session == session
      ensures !pending && !finalized
    {
      this.manager, this.identity, this.session := manager, identity, session;
      pending, finalized := false, false;
    }

    predicate Active()
      reads this
    {
      pending && !finalized && identity != "" && session != ""
    }

    /** Entering raises (ok is false) exactly when the claim is refused. */
    method Enter(readAt: real, writeAt: real) returns (ok: bool)
      requires !pending && !finalized
      modifies this, manager.repository
      ensures !finalized
      ensures identity == "" || session == "" ==>
        ok && !pending && manager.repository.View() == old(manager.repository.View())
      ensures identity != "" && session != "" ==>
        var (after, answer) := ClaimSection(
          old(manager.repository.View()), manager.repository.claimTtl, identity, session, readAt, writeAt);
        manager.repository.View() == after && ok == (answer != Forbidden) && pending == (answer == Claimed)
    {
      if identity == "" || session == "" {
        return true;
      }
      var answer := manager.ClaimPreferredSession(identity, session, readAt, writeAt);
      pending := answer == Claimed;
      ok := answer != Forbidden;
    }

    /** Finalising acts once, and only on a guard that really claimed. */
    method Finalize(now: real) returns (ok: bool)
      modifies this, manager.repository
      ensures pending == old(pending)
      ensures !old(Active()) ==>
        ok && finalized == old(finalized) && manager.repository.View() == old(manager.repository.View())
      ensures old(Active()) ==>
        var (after, done) := FinalizeSection(
          old(manager.repository.View()), manager.repository.claimTtl, identity, session, now);
        manager.repository.View() == after && ok == finalized == done
    {
      if !Active() {
        return true;
      }
      ok := manager.FinalizeSessionClaim(identity, session, now);
      finalized := ok;
    }

    /** Leaving releases the claim unless the guard finalised it. */
    method Exit()
      modifies manager.repository
      ensures manager.repository.View()
           == if Active() then ReleaseSection(old(manager.repository.View()), identity, session)
              else old(manager.repository.View())
    {
      if Active() {
        manager.ReleasePreferredSessionClaim(identity, session);
      }
    }
  }
}
