/** What a claim is worth over whole runs: who it keeps out and for how long, and which
    cancellations leave a claim row that nobody will release. */
module SessionClaims {
  import opened Prelude
  import opened SessionStore
  import opened SessionProtocol
  import opened SessionInvariants
  import opened SessionTheorems

  // ---------------------------------------------------------------- refusals

  /** Somebody else's claim on the session is still running. */
  predicate HeldByOther(t: Tables, ttl: real, session: Name, identity: Name, now: real) {
    ttl > 0.0 && session in t.claims && t.claims[session].identity != identity && now < t.claims[session].expiresAt
  }

  predicate OwnedByOther(t: Tables, session: Name, identity: Name) {
    session in t.owners && t.owners[session] != identity
  }

  /** A claim, like a finalisation, is refused exactly because of somebody else's ownership or
      running claim; otherwise the session is the caller's or becomes claimed by it. */
  lemma RefusedIffTaken(t: Tables, ttl: real, identity: Name, session: Name, readAt: real, writeAt: real)
    ensures var (claimed, answer) := ClaimSection(t, ttl, identity, session, readAt, writeAt);
      && (answer == Forbidden <==> OwnedByOther(t, session, identity) || HeldByOther(t, ttl, session, identity, readAt))
      && (answer == AlreadyOwner ==> Owns(t.owners, identity, session) && claimed.owners == t.owners)
      && (answer == Claimed && ttl > 0.0 ==> Lookup(claimed.claims, session) == Some(Claim(identity, writeAt + ttl)))
    ensures var (finalized, ok) := FinalizeSection(t, ttl, identity, session, readAt);
      && (!ok <==> OwnedByOther(t, session, identity) || HeldByOther(t, ttl, session, identity, readAt))
      && (ok ==> Owns(finalized.owners, identity, session)
                 && (session in finalized.claims ==> finalized.claims[session].identity != identity))
  {
  }

  // ---------------------------------------------------------------- exclusion over runs

  /** The identity has a claim row on the session that runs at least until then. */
  predicate HeldUntil(t: Tables, session: Name, identity: Name, until: real) {
    session in t.claims && t.claims[session].identity == identity && until <= t.claims[session].expiresAt
  }

  predicate During(t: real, since: real, until: real) {
    since <= t < until
  }

  /** Whatever clock the step reads shows a time in the interval. */
  predicate ReadsDuring(step: Step, since: real, until: real) {
    match step
    case ClaimSession(_, _, _, _, readAt, writeAt) => During(readAt, since, until) && During(writeAt, since, until)
    case CutClaim(_, _, readAt, writeAt) => During(readAt, since, until) && During(writeAt, since, until)
    case FinalizeClaim(_, now) => During(now, since, until)
    case CutFinalize(_, now, _) => During(now, since, until)
    case CutRead(now) => During(now, since, until)
    case _ => true
  }

  predicate HolderReady(w: World, who: nat, identity: Name, session: Name) {
    && who in w.holders && w.holders[who].identity == identity && w.holders[who].session == session
    && OwnershipFree(w.creators, session)
  }

  /** A holder of the same identity and session exits, or finalises while nobody else owns the
      session. */
  predicate Frees(w: World, step: Step, session: Name, identity: Name) {
    match step
    case ExitClaim(who) => HolderReady(w, who, identity, session)
    case FinalizeClaim(who, _) =>
      HolderReady(w, who, identity, session) && !OwnedByOther(w.tables, session, identity)
    case CutFinalize(who, _, cleared) =>
      HolderReady(w, who, identity, session) && !OwnedByOther(w.tables, session, identity) && cleared
    case _ => false
  }

  lemma HeldThroughClaim(t: Tables, ttl: real, caller: Name, target: Name, readAt: real, writeAt: real,
                         session: Name, identity: Name, since: real, until: real)
    requires ttl > 0.0 && until <= since + ttl && HeldUntil(t, session, identity, until)
    requires During(readAt, since, until) && During(writeAt, since, until)
    ensures HeldUntil(ClaimSection(t, ttl, caller, target, readAt, writeAt).0, session, identity, until)
  {
  }

  lemma HeldThroughFinalize(t: Tables, ttl: real, caller: Name, target: Name, now: real,
                            session: Name, identity: Name, until: real)
    requires ttl > 0.0 && now < until && HeldUntil(t, session, identity, until)
    ensures var (after, ok) := FinalizeSection(t, ttl, caller, target, now);
      && HeldUntil(t.(claims := Prune(t.claims, ttl, now)), session, identity, until)
      && (HeldUntil(after, session, identity, until) <==> !(ok && caller == identity && target == session))
      && (caller == identity && target == session ==> (ok <==> !OwnedByOther(t, session, identity)))
  {
  }

  /** Within the claim's lifetime only such a step takes the row away. */
  lemma HeldUnlessFreed(ttl: real, w: World, step: Step, session: Name, identity: Name, since: real, until: real)
    requires ttl > 0.0 && until <= since + ttl && HeldUntil(w.tables, session, identity, until)
    requires ReadsDuring(step, since, until)
    ensures HeldUntil(Apply(ttl, w, step).tables, session, identity, until) <==> !Frees(w, step, session, identity)
  {
    match step
    case ClaimSession(who, caller, target, context, readAt, writeAt) =>
      HeldThroughClaim(w.tables, ttl, caller, target, readAt, writeAt, session, identity, since, until);
      ClaimTables(ttl, w, step);
    case CutClaim(caller, target, readAt, writeAt) =>
      HeldThroughClaim(w.tables, ttl, caller, target, readAt, writeAt, session, identity, since, until);
    case FinalizeClaim(who, now) => FinalizeFrees(ttl, w, step, who, now, session, identity, until);
    case CutFinalize(who, now, cleared) => FinalizeFrees(ttl, w, step, who, now, session, identity, until);
    case ExitClaim(who) => ExitFrees(w, who, session, identity, until);
    case CutRead(now) =>
    case _ => ClaimsUntouched(ttl, w, step);
  }

  lemma ClaimTables(ttl: real, w: World, step: Step)
    requires step.ClaimSession?
    ensures var ready := step.who !in w.holders && step.who !in w.binders && OwnershipFree(w.creators, step.session);
      Apply(ttl, w, step).tables == if !ready then w.tables else
        ClaimSection(w.tables, ttl, step.identity, step.session, step.readAt, step.writeAt).0
  {
    match ClaimSection(w.tables, ttl, step.identity, step.session, step.readAt, step.writeAt).1
    case Forbidden =>
    case Claimed =>
    case AlreadyOwner =>
  }

  lemma FinalizeFrees(ttl: real, w: World, step: Step, who: nat, now: real, session: Name, identity: Name, until: real)
    requires (step.FinalizeClaim? && step == FinalizeClaim(who, now))
      || (step.CutFinalize? && step.who == who && step.now == now)
    requires ttl > 0.0 && now < until && HeldUntil(w.tables, session, identity, until)
    ensures HeldUntil(Apply(ttl, w, step).tables, session, identity, until) <==> !Frees(w, step, session, identity)
  {
    if who in w.holders {
      var a := w.holders[who];
      HeldThroughFinalize(w.tables, ttl, a.identity, a.session, now, session, identity, until);
    }
  }

  lemma ExitFrees(w: World, who: nat, session: Name, identity: Name, until: real)
    requires HeldUntil(w.tables, session, identity, until)
    ensures HeldUntil(DoExit(w, who).tables, session, identity, until) <==> !Frees(w, ExitClaim(who), session, identity)
  {
  }

  /** The other steps write no claim row. */
  lemma ClaimsUntouched(ttl: real, w: World, step: Step)
    requires !step.ClaimSession? && !step.FinalizeClaim? && !step.ExitClaim?
    requires !step.CutRead? && !step.CutClaim? && !step.CutFinalize?
    ensures Apply(ttl, w, step).tables.claims == w.tables.claims
  {
  }

  /** The row is there at every moment of the run. */
  predicate HeldThroughout(ttl: real, w: World, steps: seq<Step>, session: Name, identity: Name, until: real)
    decreases |steps|
  {
    && HeldUntil(w.tables, session, identity, until)
    && (steps == [] || HeldThroughout(ttl, Apply(ttl, w, steps[0]), steps[1..], session, identity, until))
  }

  predicate NeverFreed(ttl: real, w: World, steps: seq<Step>, session: Name, identity: Name)
    decreases |steps|
  {
    steps == []
    || (!Frees(w, steps[0], session, identity)
      && NeverFreed(ttl, Apply(ttl, w, steps[0]), steps[1..], session, identity))
  }

  lemma {:induction false} HeldIffNeverFreed(ttl: real, w: World, steps: seq<Step>, session: Name, identity: Name,
                                            since: real, until: real)
    requires ttl > 0.0 && until <= since + ttl && HeldUntil(w.tables, session, identity, until)
    requires forall s | s in steps :: ReadsDuring(s, since, until)
    ensures HeldThroughout(ttl, w, steps, session, identity, until) <==> NeverFreed(ttl, w, steps, session, identity)
    ensures HeldThroughout(ttl, w, steps, session, identity, until) ==>
      HeldUntil(Run(ttl, w, steps).tables, session, identity, until)
    decreases |steps|
  {
    if steps != [] {
      assert steps[0] in steps;
      HeldUnlessFreed(ttl, w, steps[0], session, identity, since, until);
      if !Frees(w, steps[0], session, identity) {
        HeldIffNeverFreed(ttl, Apply(ttl, w, steps[0]), steps[1..], session, identity, since, until);
      }
    }
  }

  predicate Claims(ttl: real, w: World, step: Step) {
    && step.ClaimSession? && step.who !in w.holders && step.who !in w.binders && OwnershipFree(w.creators, step.session)
    && ClaimSection(w.tables, ttl, step.identity, step.session, step.readAt, step.writeAt).1 == Claimed
  }

  /** A fresh claim stands at every moment of any run within its lifetime if and only if no
      holder of the same identity and session exits or finalises in it; and while it stands
      every other identity's claims and finalisations are refused. */
  lemma ClaimExcludesUnlessFreed(ttl: real, w: World, claim: Step, steps: seq<Step>, other: Name, at: real, later: real)
    requires ttl > 0.0 && Claims(ttl, w, claim) && other != claim.identity && at < claim.writeAt + ttl
    requires forall s | s in steps :: ReadsDuring(s, claim.writeAt, claim.writeAt + ttl)
    ensures
      var claimed := Apply(ttl, w, claim);
      var v := Run(ttl, claimed, steps);
      var held := HeldThroughout(ttl, claimed, steps, claim.session, claim.identity, claim.writeAt + ttl);
      && (held <==> NeverFreed(ttl, claimed, steps, claim.session, claim.identity))
      && (held ==> ClaimSection(v.tables, ttl, other, claim.session, at, later).1 == Forbidden
                   && !FinalizeSection(v.tables, ttl, other, claim.session, at).1)
  {
    hide Apply, Run, HeldThroughout, NeverFreed, ClaimSection, FinalizeSection;
    ClaimTables(ttl, w, claim);
    RefusedIffTaken(w.tables, ttl, claim.identity, claim.session, claim.readAt, claim.writeAt);
    var claimed := Apply(ttl, w, claim);
    var until := claim.writeAt + ttl;
    HeldIffNeverFreed(ttl, claimed, steps, claim.session, claim.identity, claim.writeAt, until);
    if HeldThroughout(ttl, claimed, steps, claim.session, claim.identity, until) {
      RefusedIffTaken(Run(ttl, claimed, steps).tables, ttl, other, claim.session, at, later);
    }
  }

  /** And it does not outlast its lifetime: from then on, and with nobody else in the way,
      any other identity may claim or finalise. */
  lemma ClaimEndsWithItsLifetime(t: Tables, ttl: real, session: Name, other: Name, at: real, later: real)
    requires ttl > 0.0 && session in t.claims && session !in t.owners && other != t.claims[session].identity
    ensures ClaimSection(t, ttl, other, session, at, later).1 == Claimed <==> t.claims[session].expiresAt <= at
    ensures FinalizeSection(t, ttl, other, session, at).1 <==> t.claims[session].expiresAt <= at
  {
    RefusedIffTaken(t, ttl, other, session, at, later);
  }

  lemma FreedSessionIsTaken(w: World, alice: Holder)
    requires w.tables == Tables(map[], map[], map[]) && w.creators == map[] && w.binders == map[]
    requires w.holders == map[2 := alice] && alice.session == "s"
    ensures
      var v := Apply(30.0, Apply(30.0, w, ClaimSession(3, "bob", "s", None, 1.0, 1.0)), FinalizeClaim(3, 2.0));
      2 in v.holders && v.holders[2] == alice && Owns(v.tables.owners, "bob", "s")
  {
    var claimed := Apply(30.0, w, ClaimSession(3, "bob", "s", None, 1.0, 1.0));
    assert claimed.holders == map[2 := alice, 3 := Holder("bob", "s", None)];
  }

  /** One identity with two guards on a session: the first to exit drops the claim of both, so
      bob takes the session while alice's second guard still counts on it. */
  lemma SecondGuardLosesClaim()
    ensures
      var w := Run(30.0, Init(), [
        ClaimSession(1, "alice", "s", None, 0.0, 0.0), ClaimSession(2, "alice", "s", None, 0.0, 0.0), ExitClaim(1),
        ClaimSession(3, "bob", "s", None, 1.0, 1.0), FinalizeClaim(3, 2.0)]);
      Holds(w.holders, 2, "alice", "s") && Owns(w.tables.owners, "bob", "s")
  {
    var a1, a2 := ClaimSession(1, "alice", "s", None, 0.0, 0.0), ClaimSession(2, "alice", "s", None, 0.0, 0.0);
    var b, f := ClaimSession(3, "bob", "s", None, 1.0, 1.0), FinalizeClaim(3, 2.0);
    assert [a1, a2, ExitClaim(1), b, f] == [a1] + [a2, ExitClaim(1), b, f];
    RunCons(30.0, Init(), a1, [a2, ExitClaim(1), b, f]);
    var one := Apply(30.0, Init(), a1);
    Four(30.0, one, a2, ExitClaim(1), b, f);
    var freed := TwoGuardsOneExit();
    FreedSessionIsTaken(freed, Holder("alice", "s", None));
  }

  lemma TwoGuardsOneExit() returns (w: World)
    ensures w == Apply(30.0, Apply(30.0, Apply(30.0, Init(), ClaimSession(1, "alice", "s", None, 0.0, 0.0)),
                                   ClaimSession(2, "alice", "s", None, 0.0, 0.0)), ExitClaim(1))
    ensures w.tables == Tables(map[], map[], map[]) && w.creators == map[] && w.binders == map[]
    ensures w.holders == map[2 := Holder("alice", "s", None)]
  {
    AliceClaims(Init(), 1);
    var one := Apply(30.0, Init(), ClaimSession(1, "alice", "s", None, 0.0, 0.0));
    AliceClaims(one, 2);
    w := Apply(30.0, one, ClaimSession(2, "alice", "s", None, 0.0, 0.0));
    hide DoClaim;
    w := Apply(30.0, w, ExitClaim(1));
  }

  lemma AliceClaims(w: World, who: nat)
    requires w.creators == map[] && who !in w.holders && who !in w.binders && w.tables.owners == map[]
    requires w.tables.claims == map[] || w.tables.claims == map["s" := Claim("alice", 30.0)]
    ensures Apply(30.0, w, ClaimSession(who, "alice", "s", None, 0.0, 0.0))
      == w.(tables := w.tables.(claims := map["s" := Claim("alice", 30.0)]),
            holders := w.holders[who := Holder("alice", "s", None)])
  {
    var claimed := ClaimSection(w.tables, 30.0, "alice", "s", 0.0, 0.0).0;
    assert claimed.claims == map["s" := Claim("alice", 30.0)];
  }

  // ---------------------------------------------------------------- leaks

  ghost predicate LeakFree(w: World) {
    ClaimsOk(w.tables.claims, w.holders, {})
  }

  /** Only two cuts leave a row behind: of a claim that was written for a caller nobody stands
      in for, and of the release of the last holder of the row. */
  predicate Leaks(ttl: real, w: World, step: Step) {
    match step
    case CutClaim(identity, session, readAt, writeAt) =>
      && OwnershipFree(w.creators, session) && ttl > 0.0 && !AnyHolds(w.holders, identity, session)
      && ClaimSection(w.tables, ttl, identity, session, readAt, writeAt).1 == Claimed
    case CutRelease(who) =>
      && who in w.holders
      && Claimant(w.tables.claims, w.holders[who].session) == Some(w.holders[who].identity)
      && !AnyHolds(w.holders - {who}, w.holders[who].identity, w.holders[who].session)
    case _ => false
  }

  lemma LeakRecorded(ttl: real, w: World, step: Step)
    requires !Leaks(ttl, w, step)
    ensures Apply(ttl, w, step).history.leaked == w.history.leaked
  {
  }

  /** Every claim row, expired or not, has a live guard or coordinator of its identity that
      claimed it and has neither finalised nor exited, or a cut left it behind. */
  lemma NoClaimLeak(ttl: real, steps: seq<Step>, session: Name)
    requires session in Run(ttl, Init(), steps).tables.claims
    ensures
      var w := Run(ttl, Init(), steps);
      var identity := w.tables.claims[session].identity;
      || (session, identity) in w.history.leaked
      || exists a | a in w.holders :: w.holders[a].session == session && w.holders[a].identity == identity
  {
    ReachableInv(ttl, steps);
    var w := Run(ttl, Init(), steps);
    if (session, w.tables.claims[session].identity) !in w.history.leaked {
      var a :| Holds(w.holders, a, w.tables.claims[session].identity, session);
      assert a in w.holders;
    }
  }

  /** When all have exited, the rows that are left were left behind by cuts. */
  lemma NoClaimAfterAllExit(ttl: real, steps: seq<Step>)
    requires Run(ttl, Init(), steps).holders == map[]
    ensures var w := Run(ttl, Init(), steps);
      && (forall s | s in w.tables.claims :: (s, w.tables.claims[s].identity) in w.history.leaked)
      && (w.history.leaked == {} ==> w.tables.claims == map[])
  {
    var w := Run(ttl, Init(), steps);
    forall s | s in w.tables.claims
      ensures (s, w.tables.claims[s].identity) in w.history.leaked
    {
      NoClaimLeak(ttl, steps, s);
    }
  }

  /** From a state without leaks, a step leaks a claim if and only if it is such a cut. */
  lemma LeaksIffCut(ttl: real, w: World, step: Step)
    requires Inv(w) && LeakFree(w)
    ensures !LeakFree(Apply(ttl, w, step)) <==> Leaks(ttl, w, step)
  {
    if Leaks(ttl, w, step) {
      LeakLeaves(ttl, w, step);
    } else {
      var clean := w.history.(leaked := {});
      assert Inv(w.(history := clean));
      StepInv(ttl, w.(history := clean), step);
      LeakRecorded(ttl, w.(history := clean), step);
      HistoryUnread(ttl, w, clean, step);
    }
  }

  lemma LeakLeaves(ttl: real, w: World, step: Step)
    requires Leaks(ttl, w, step)
    ensures !LeakFree(Apply(ttl, w, step))
  {
    var v := Apply(ttl, w, step);
    if step.CutClaim? {
      RefusedIffTaken(w.tables, ttl, step.identity, step.session, step.readAt, step.writeAt);
      AnyHolder(w.holders, step.identity, step.session);
      assert step.session in v.tables.claims;
    } else {
      var a := w.holders[step.who];
      AnyHolder(w.holders - {step.who}, a.identity, a.session);
      assert a.session in v.tables.claims;
    }
  }

  /** The step deletes every row that is over by then. */
  predicate Prunes(ttl: real, w: World, step: Step, end: real) {
    match step
    case ClaimSession(who, identity, session, _, readAt, writeAt) =>
      && who !in w.holders && who !in w.binders && OwnershipFree(w.creators, session)
      && (end <= readAt || (Claims(ttl, w, step) && end <= writeAt))
    case CutClaim(identity, session, readAt, writeAt) =>
      && OwnershipFree(w.creators, session)
      && (end <= readAt || (end <= writeAt
            && ClaimSection(w.tables, ttl, identity, session, readAt, writeAt).1 == Claimed))
    case FinalizeClaim(who, now) => who in w.holders && OwnershipFree(w.creators, w.holders[who].session) && end <= now
    case CutFinalize(who, now, _) => who in w.holders && OwnershipFree(w.creators, w.holders[who].session) && end <= now
    case CutRead(now) => end <= now
    case _ => false
  }

  /** The same identity claims the session again. */
  predicate Reclaims(ttl: real, w: World, step: Step, identity: Name, session: Name) {
    match step
    case ClaimSession(_, caller, target, _, _, _) => caller == identity && target == session && Claims(ttl, w, step)
    case CutClaim(caller, target, readAt, writeAt) =>
      && caller == identity && target == session && OwnershipFree(w.creators, session)
      && ClaimSection(w.tables, ttl, identity, session, readAt, writeAt).1 == Claimed
    case _ => false
  }

  predicate HasRow(t: Tables, session: Name, identity: Name) {
    session in t.claims && t.claims[session].identity == identity
  }

  lemma RowThroughClaim(t: Tables, ttl: real, caller: Name, target: Name, readAt: real, writeAt: real,
                        session: Name, identity: Name)
    requires ttl > 0.0 && HasRow(t, session, identity)
    ensures var (after, answer) := ClaimSection(t, ttl, caller, target, readAt, writeAt);
      var end := t.claims[session].expiresAt;
      !HasRow(after, session, identity) <==>
        (end <= readAt || (answer == Claimed && end <= writeAt))
        && !(answer == Claimed && caller == identity && target == session)
  {
  }

  lemma RowThroughFinalize(t: Tables, ttl: real, caller: Name, target: Name, now: real, session: Name, identity: Name)
    requires ttl > 0.0 && HasRow(t, session, identity) && !(caller == identity && target == session)
    ensures var end := t.claims[session].expiresAt;
      && (!HasRow(FinalizeSection(t, ttl, caller, target, now).0, session, identity) <==> end <= now)
      && (!HasRow(t.(claims := Prune(t.claims, ttl, now)), session, identity) <==> end <= now)
  {
  }

  /** A leaked row goes exactly with the first step that prunes at or after its expiry, unless
      that step is its identity claiming again. */
  lemma LeakedRowEnds(ttl: real, w: World, step: Step, session: Name, identity: Name)
    requires ttl > 0.0 && HasRow(w.tables, session, identity) && !AnyHolds(w.holders, identity, session)
    ensures !HasRow(Apply(ttl, w, step).tables, session, identity) <==>
      Prunes(ttl, w, step, w.tables.claims[session].expiresAt) && !Reclaims(ttl, w, step, identity, session)
  {
    AnyHolder(w.holders, identity, session);
    match step
    case ClaimSession(who, caller, target, context, readAt, writeAt) => ClaimRow(ttl, w, step, session, identity);
    case CutClaim(caller, target, readAt, writeAt) => CutClaimRow(ttl, w, step, session, identity);
    case FinalizeClaim(who, now) => FinalizeRow(ttl, w, step, who, now, session, identity);
    case CutFinalize(who, now, cleared) => FinalizeRow(ttl, w, step, who, now, session, identity);
    case ExitClaim(who) => assert !Holds(w.holders, who, identity, session);
    case CutRead(now) =>
    case _ =>
      ClaimsUntouched(ttl, w, step);
      hide Apply;
  }

  lemma ClaimRow(ttl: real, w: World, step: Step, session: Name, identity: Name)
    requires ttl > 0.0 && HasRow(w.tables, session, identity) && step.ClaimSession?
    ensures !HasRow(Apply(ttl, w, step).tables, session, identity) <==>
      Prunes(ttl, w, step, w.tables.claims[session].expiresAt) && !Reclaims(ttl, w, step, identity, session)
  {
    RowThroughClaim(w.tables, ttl, step.identity, step.session, step.readAt, step.writeAt, session, identity);
    ClaimTables(ttl, w, step);
    hide Apply, ClaimSection, HasRow;
  }

  lemma CutClaimRow(ttl: real, w: World, step: Step, session: Name, identity: Name)
    requires ttl > 0.0 && HasRow(w.tables, session, identity) && step.CutClaim?
    ensures !HasRow(Apply(ttl, w, step).tables, session, identity) <==>
      Prunes(ttl, w, step, w.tables.claims[session].expiresAt) && !Reclaims(ttl, w, step, identity, session)
  {
    RowThroughClaim(w.tables, ttl, step.identity, step.session, step.readAt, step.writeAt, session, identity);
    hide ClaimSection, HasRow;
  }

  lemma FinalizeRow(ttl: real, w: World, step: Step, who: nat, now: real, session: Name, identity: Name)
    requires (step.FinalizeClaim? && step == FinalizeClaim(who, now))
      || (step.CutFinalize? && step.who == who && step.now == now)
    requires ttl > 0.0 && HasRow(w.tables, session, identity) && !Holds(w.holders, who, identity, session)
    ensures !HasRow(Apply(ttl, w, step).tables, session, identity) <==>
      Prunes(ttl, w, step, w.tables.claims[session].expiresAt)
  {
    if who in w.holders {
      var a := w.holders[who];
      RowThroughFinalize(w.tables, ttl, a.identity, a.session, now, session, identity);
    }
  }

  /** Alice's only request for a session is cancelled right after its claim was written: nobody
      is left to release it, and bob is refused until the claim's lifetime ends. */
  lemma CutClaimKeepsOthersOut(at: real, later: real)
    ensures
      var w := Run(30.0, Init(), [CutClaim("alice", "s", 0.0, 0.0)]);
      && w.holders == map[] && w.tables.claims == map["s" := Claim("alice", 30.0)]
      && (ClaimSection(w.tables, 30.0, "bob", "s", at, later).1 == Forbidden <==> at < 30.0)
  {
    var step := CutClaim("alice", "s", 0.0, 0.0);
    assert [step] == [step] + [];
    RunCons(30.0, Init(), step, []);
    var w := Apply(30.0, Init(), step);
    assert w.tables.claims == map["s" := Claim("alice", 30.0)];
    RefusedIffTaken(w.tables, 30.0, "bob", "s", at, later);
  }
}
