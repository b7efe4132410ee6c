/** Borrows that nobody will return: closing evicted clients may be cut, by a cancellation or a
    failing close, and a borrow that is cut there was counted but never handed out. */
module ClientLosses {
  import opened Prelude
  import opened ClientCache

  /** The cache with the borrows that were lost; these stay outstanding for ever. */
  datatype Tally = Tally(world: World, lost: multiset<Ticket>)

  /** An operation, or one that is cut while it closes what it evicted. */
  datatype Act = Done(op: Op) | Cut(op: Op)

  /** Only borrows from the cache and returns to it close evicted clients. */
  predicate CanCut(limits: Limits, op: Op) {
    (op.Borrow? && limits.maxsize > 0) || (op.Return? && op.ticket.Cached?)
  }

  /** Who returns holds a borrow that is not lost. */
  predicate Entitled(t: Tally, op: Op) {
    op.Return? ==> t.world.borrowed[op.ticket] > t.lost[op.ticket]
  }

  /** A cut leaves some of the clients open that it should have closed. */
  ghost predicate CutTo(w: World, full: World, w': World) {
    w' == full.(closes := w'.closes) && w.closes <= w'.closes <= full.closes
  }

  ghost predicate Step(limits: Limits, t: Tally, act: Act, t': Tally) {
    && Entitled(t, act.op)
    && match act
       case Done(op) => ClientCache.Step(limits, t.world, op, t'.world) && t'.lost == t.lost
       case Cut(op) =>
         && CanCut(limits, op)
         && exists full ::
              && ClientCache.Step(limits, t.world, op, full) && CutTo(t.world, full, t'.world)
              && t'.lost == if op.Borrow? then t.lost + (full.borrowed - t.world.borrowed) else t.lost
  }

  ghost predicate Ok(t: Tally) {
    Inv(t.world) && t.lost <= t.world.borrowed
  }

  lemma FewerCloses(w: World, full: World, w': World)
    requires Inv(full) && ClosesOk(w) && CutTo(w, full, w') && full.shutdown == w.shutdown
    ensures Inv(w')
  {
    assert forall c | c in w'.closes :: c in full.closes;
    forall k | k in w'.table
      ensures SlotOk(w', k)
    {
      assert SlotOk(full, k);
    }
    forall b | b in w'.borrowed
      ensures TicketOk(w', b)
    {
      assert TicketOk(full, b);
    }
  }

  lemma BorrowAdds(limits: Limits, w: World, op: Op, w': World)
    requires ClientCache.Step(limits, w, op, w') && op.Borrow?
    ensures exists ticket :: w'.borrowed == w.borrowed + multiset{ticket}
  {
    if limits.maxsize > 0 {
      BorrowRenews(limits, w, op, w');
      assert w'.borrowed == w.borrowed + multiset{Cached(op.url, w'.table[op.url].client)};
    } else {
      assert w'.borrowed == w.borrowed + multiset{Direct(w.next)};
    }
  }

  lemma ReturnTakes(limits: Limits, w: World, op: Op, w': World)
    requires ClientCache.Step(limits, w, op, w') && op.Return?
    ensures w'.borrowed == w.borrowed - multiset{op.ticket}
  {
  }

  lemma StepOk(limits: Limits, t: Tally, act: Act, t': Tally)
    requires Ok(t) && Step(limits, t, act, t')
    ensures Ok(t')
  {
    match act
    case Done(op) =>
      StepInv(limits, t.world, op, t'.world);
      StillOutstanding(limits, t, op, t'.world);
    case Cut(op) =>
      var full :| ClientCache.Step(limits, t.world, op, full) && CutTo(t.world, full, t'.world)
        && t'.lost == if op.Borrow? then t.lost + (full.borrowed - t.world.borrowed) else t.lost;
      StepInv(limits, t.world, op, full);
      StepShutdown(limits, t.world, op, full);
      FewerCloses(t.world, full, t'.world);
      StillOutstanding(limits, t, op, full);
      if op.Borrow? {
        BorrowAdds(limits, t.world, op, full);
      }
  }

  lemma StillOutstanding(limits: Limits, t: Tally, op: Op, w': World)
    requires t.lost <= t.world.borrowed && Entitled(t, op) && ClientCache.Step(limits, t.world, op, w')
    ensures t.lost <= w'.borrowed
  {
    match op
    case Borrow(_, _, _) => BorrowAdds(limits, t.world, op, w');
    case Return(_, _, _) => ReturnTakes(limits, t.world, op, w');
    case CloseAll =>
  }

  /** The one borrow that a borrow adds. */
  lemma BorrowedBy(limits: Limits, w: World, op: Op, full: World)
    requires ClientCache.Step(limits, w, op, full) && op.Borrow? && limits.maxsize > 0
    ensures op.url in full.table
    ensures full.borrowed - w.borrowed == multiset{Cached(op.url, full.table[op.url].client)}
  {
    BorrowRenews(limits, w, op, full);
    hide ClientCache.Step;
    var ticket := Cached(op.url, full.table[op.url].client);
    assert (w.borrowed + multiset{ticket}) - w.borrowed == multiset{ticket};
  }

  lemma CutBorrowLoses(limits: Limits, t: Tally, act: Act, t': Tally)
    requires Step(limits, t, act, t') && act.Cut? && act.op.Borrow?
    ensures act.op.url in t'.world.table
    ensures t'.lost == t.lost + multiset{Cached(act.op.url, t'.world.table[act.op.url].client)}
  {
    hide ClientCache.Step;
    var full :| ClientCache.Step(limits, t.world, act.op, full) && CutTo(t.world, full, t'.world)
      && t'.lost == t.lost + (full.borrowed - t.world.borrowed);
    BorrowedBy(limits, t.world, act.op, full);
  }

  /** A step loses a borrow if and only if it is a borrow that is cut, and then it loses its own. */
  lemma LosesIffCut(limits: Limits, t: Tally, act: Act, t': Tally)
    requires Step(limits, t, act, t')
    ensures t'.lost != t.lost <==> act.Cut? && act.op.Borrow?
    ensures act.Cut? && act.op.Borrow? ==>
      act.op.url in t'.world.table
      && t'.lost == t.lost + multiset{Cached(act.op.url, t'.world.table[act.op.url].client)}
  {
    hide ClientCache.Step;
    if act.Cut? && act.op.Borrow? {
      CutBorrowLoses(limits, t, act, t');
      var ticket := Cached(act.op.url, t'.world.table[act.op.url].client);
      assert t'.lost[ticket] == t.lost[ticket] + 1;
    }
  }

  // ---------------------------------------------------------------- runs

  ghost predicate IsRun(limits: Limits, tallies: seq<Tally>, acts: seq<Act>) {
    && |tallies| == |acts| + 1 && tallies[0] == Tally(Init(), multiset{})
    && forall i | 0 <= i < |acts| :: Step(limits, tallies[i], acts[i], tallies[i + 1])
  }

  lemma {:induction false} RunOk(limits: Limits, tallies: seq<Tally>, acts: seq<Act>, i: nat)
    requires IsRun(limits, tallies, acts) && i < |tallies|
    ensures Ok(tallies[i])
  {
    hide Step;
    if i > 0 {
      hide Ok;
      RunOk(limits, tallies, acts, i - 1);
      StepOk(limits, tallies[i - 1], acts[i - 1], tallies[i]);
    }
  }

  lemma {:induction false} RunShutdown(limits: Limits, tallies: seq<Tally>, acts: seq<Act>, i: nat)
    requires IsRun(limits, tallies, acts) && i < |tallies| && forall act | act in acts :: !act.op.CloseAll?
    ensures tallies[i].world.shutdown == {}
  {
    hide Step;
    if i > 0 {
      RunShutdown(limits, tallies, acts, i - 1);
      assert acts[i - 1] in acts;
      ActShutdown(limits, tallies[i - 1], acts[i - 1], tallies[i]);
    }
  }

  lemma ActShutdown(limits: Limits, t: Tally, act: Act, t': Tally)
    requires Step(limits, t, act, t') && !act.op.CloseAll?
    ensures t'.world.shutdown == t.world.shutdown
  {
    if act.Done? {
      StepShutdown(limits, t.world, act.op, t'.world);
    } else {
      var full :| ClientCache.Step(limits, t.world, act.op, full) && CutTo(t.world, full, t'.world);
      StepShutdown(limits, t.world, act.op, full);
    }
  }

  lemma LostGrows(limits: Limits, t: Tally, act: Act, t': Tally)
    requires Step(limits, t, act, t')
    ensures t.lost <= t'.lost
  {
    LosesIffCut(limits, t, act, t');
    hide Step;
  }

  lemma {:induction false} LostForEver(limits: Limits, tallies: seq<Tally>, acts: seq<Act>, i: nat, j: nat)
    requires IsRun(limits, tallies, acts) && i <= j < |tallies|
    ensures tallies[i].lost <= tallies[j].lost
    decreases j
  {
    hide Step;
    if i < j {
      LostForEver(limits, tallies, acts, i, j - 1);
      LostGrows(limits, tallies[j - 1], acts[j - 1], tallies[j]);
    }
  }

  /** What was said of runs without cuts holds with them: without close_all each entry's count is
      the number of its outstanding borrows and every borrowed entry is cached; and an entry
      with a lost borrow is one of these for ever, so that no eviction ever removes it. */
  lemma LostBorrowPins(limits: Limits, tallies: seq<Tally>, acts: seq<Act>, i: nat, j: nat, ticket: Ticket)
    requires IsRun(limits, tallies, acts) && i <= j < |tallies| && forall act | act in acts :: !act.op.CloseAll?
    requires ticket in tallies[i].lost && ticket.Cached?
    ensures var t := tallies[j].world.table;
      Holds(t, ticket.url, ticket.client) && t[ticket.url].borrows >= tallies[i].lost[ticket] > 0
  {
    LostForEver(limits, tallies, acts, i, j);
    RunOk(limits, tallies, acts, j);
    RunShutdown(limits, tallies, acts, j);
    var w := tallies[j].world;
    assert ticket in w.borrowed && TicketOk(w, ticket);
    assert SlotOk(w, ticket.url);
  }

  /** With cuts, too, each entry's count is the number of its outstanding borrows, every borrowed
      entry is still cached, and no client is closed twice. */
  lemma CutsKeepEntries(limits: Limits, tallies: seq<Tally>, acts: seq<Act>, i: nat, client: nat)
    requires IsRun(limits, tallies, acts) && i < |tallies| && forall act | act in acts :: !act.op.CloseAll?
    ensures var w := tallies[i].world;
      && (forall k | k in w.table :: w.table[k].borrows == w.borrowed[Cached(k, w.table[k].client)])
      && (forall b | b in w.borrowed && b.Cached? :: Holds(w.table, b.url, b.client))
      && w.closes[client] <= 1
  {
    RunOk(limits, tallies, acts, i);
    RunShutdown(limits, tallies, acts, i);
    var w := tallies[i].world;
    forall k | k in w.table
      ensures w.table[k].borrows == w.borrowed[Cached(k, w.table[k].client)]
    {
      assert SlotOk(w, k);
    }
    forall b | b in w.borrowed && b.Cached?
      ensures Holds(w.table, b.url, b.client)
    {
      assert TicketOk(w, b);
    }
  }
}
