/** The session half of the state store, with its tables as maps: the database
    repository, and the critical sections that the session manager runs on it. */
module SessionStore {
  import opened Prelude

  /** A context binding key: (identity, context id). */
  datatype Key = Key(identity: Name, context: string)

  /** A pending-claim row. */
  datatype Claim = Claim(identity: Name, expiresAt: real)

  /** The three tables. Bindings and owners never expire in the database. */
  datatype Tables = Tables(
    bindings: map<Key, Name>,
    owners: map<Name, Name>,
    claims: map<Name, Claim>)

  datatype ClaimAnswer = Forbidden | AlreadyOwner | Claimed

  // ---------------------------------------------------------------- table operations

  function Prune(claims: map<Name, Claim>, ttl: real, now: real): map<Name, Claim> {
    if ttl <= 0.0 then map[] else map s | s in claims && now < claims[s].expiresAt :: claims[s]
  }

  function Claimant(claims: map<Name, Claim>, session: Name): Option<Name> {
    if session in claims then Some(claims[session].identity) else None
  }

  function PutClaim(claims: map<Name, Claim>, ttl: real, now: real, session: Name, identity: Name): map<Name, Claim> {
    if ttl <= 0.0 then map[] else Prune(claims, ttl, now)[session := Claim(identity, now + ttl)]
  }

  function DropClaim(claims: map<Name, Claim>, session: Name, identity: Name): map<Name, Claim> {
    if session in claims && claims[session].identity == identity then claims - {session} else claims
  }

  class DatabaseSessionStateRepository {
    const claimTtl: real
    var bindings: map<Key, Name>
    var owners: map<Name, Name>
    var claims: map<Name, Claim>

    constructor (claimTtl: real)
      ensures this.claimTtl == claimTtl
      ensures View() == Tables(map[], map[], map[])
    {
      this.claimTtl := claimTtl;
      bindings, owners, claims := map[], map[], map[];
    }

    function View(): Tables
      reads this
    {
      Tables(bindings, owners, claims)
    }

    method GetSession(key: Key) returns (session: Option<Name>)
      ensures session == Lookup(bindings, key)
    {
      session := if key in bindings then Some(bindings[key]) else None;
    }

    method SetSession(key: Key, session: Name)
      modifies this
      ensures View() == old(View()).(bindings := old(bindings)[key := session])
    {
      bindings := bindings[key := session];
    }

    method PopSession(key: Key)
      modifies this
      ensures View() == old(View()).(bindings := old(bindings) - {key})
    {
      bindings := bindings - {key};
    }

    method GetOwner(session: Name) returns (owner: Option<Name>)
      ensures owner == Lookup(owners, session)
    {
      owner := if session in owners then Some(owners[session]) else None;
    }

    method SetOwner(session: Name, identity: Name)
      modifies this
      ensures View() == old(View()).(owners := old(owners)[session := identity])
    {
      owners := owners[session := identity];
    }

    /** Reading a claim first deletes every expired row. */
    method GetPendingClaim(session: Name, now: real) returns (pending: Option<Name>)
      modifies this
      ensures View() == old(View()).(claims := Prune(old(claims), claimTtl, now))
      ensures pending == Claimant(claims, session)
    {
      PruneExpired(now);
      if session !in claims {
        return None;
      }
      pending := Some(claims[session].identity);
    }

    /** A non-positive TTL deletes the row instead of writing one. */
    method SetPendingClaim(session: Name, identity: Name, now: real)
      modifies this
      ensures View() == old(View()).(claims := PutClaim(old(claims), claimTtl, now, session, identity))
    {
      PruneExpired(now);
      if claimTtl <= 0.0 {
        claims := claims - {session};
        return;
      }
      claims := claims[session := Claim(identity, now + claimTtl)];
    }

    method ClearPendingClaim(session: Name, identity: Name)
      modifies this
      ensures View() == old(View()).(claims := DropClaim(old(claims), session, identity))
    {
      if session in claims && claims[session].identity == identity {
        claims := claims - {session};
      }
    }

    method PruneExpired(now: real)
      modifies this
      ensures View() == old(View()).(claims := Prune(old(claims), claimTtl, now))
    {
      if claimTtl <= 0.0 {
        claims := map[];
      } else {
        claims := map s | s in claims && now < claims[s].expiresAt :: claims[s];
      }
    }
  }

  // ---------------------------------------------------------------- critical sections

  /** One claim, under the session's ownership lock. The clock is read twice:
      once to read the pending claim and once to write the new one. */
  function ClaimSection(t: Tables, ttl: real, identity: Name, session: Name, readAt: real, writeAt: real)
    : (Tables, ClaimAnswer)
  {
    var owner := Lookup(t.owners, session);
    var pruned := Prune(t.claims, ttl, readAt);
    var pending := Claimant(pruned, session);
    var read := t.(claims := pruned);
    if owner.Some? && owner.value != identity then (read, Forbidden)
    else if pending.Some? && pending.value != identity then (read, Forbidden)
    else if owner == Some(identity) then (read, AlreadyOwner)
    else (read.(claims := PutClaim(pruned, ttl, writeAt, session, identity)), Claimed)
  }

  /** One finalisation, under the session's ownership lock; false means refused. */
  function FinalizeSection(t: Tables, ttl: real, identity: Name, session: Name, now: real): (Tables, bool) {
    var owner := Lookup(t.owners, session);
    var pruned := Prune(t.claims, ttl, now);
    var pending := Claimant(pruned, session);
    var read := t.(claims := pruned);
    if owner.Some? && owner.value != identity then (read, false)
    else if pending.Some? && pending.value != identity then (read, false)
    else (read.(owners := t.owners[session := identity], claims := DropClaim(pruned, session, identity)), true)
  }

  function ReleaseSection(t: Tables, identity: Name, session: Name): Tables {
    t.(claims := DropClaim(t.claims, session, identity))
  }

  datatype CommitAnswer = Refused | Bound(ownerMissing: bool)

  /** First half of a create commit: the ownership check and the binding write. */
  function CommitBindingSection(t: Tables, key: Key, session: Name): (Tables, CommitAnswer) {
    var owner := Lookup(t.owners, session);
    if owner.Some? && owner.value != key.identity then (t, Refused)
    else (t.(bindings := t.bindings[key := session]), Bound(owner.None?))
  }

  /** Second half of a create commit: the owner row, written when there was none. */
  function CommitOwnerSection(t: Tables, key: Key, session: Name): Tables {
    t.(owners := t.owners[session := key.identity])
  }

  function CommitSection(t: Tables, key: Key, session: Name): (Tables, CommitAnswer) {
    var (bound, answer) := CommitBindingSection(t, key, session);
    (if answer == Bound(true) then CommitOwnerSection(bound, key, session) else bound, answer)
  }
}
