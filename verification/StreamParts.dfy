/** How one part's deltas and snapshots become chunks: the chunks spell the part's buffer, a
    repetition sends nothing, and early deltas are as good as late ones. */
module StreamParts {
  import opened Prelude
  import opened Text
  import opened StreamState
  import opened StreamRuntime

  function Buffer(parts: Parts, partId: string): string {
    if partId in parts.states then parts.states[partId].buffer else ""
  }

  /** The texts of the accumulating chunks of one part, in order. */
  function Texts(chunks: seq<Chunk>, partId: string): string {
    if chunks == [] then ""
    else
      var own := chunks[0].accumulate && chunks[0].partId == partId;
      (if own then chunks[0].contentKey else "") + Texts(chunks[1..], partId)
  }

  lemma {:induction false} TextsAppend(a: seq<Chunk>, b: seq<Chunk>, partId: string)
    ensures Texts(a + b, partId) == Texts(a, partId) + Texts(b, partId)
  {
    if a == [] {
      assert a + b == b;
    } else {
      assert (a + b)[1..] == a[1..] + b;
      TextsAppend(a[1..], b, partId);
      var own := if a[0].accumulate && a[0].partId == partId then a[0].contentKey else "";
      Associate(own, Texts(a[1..], partId), Texts(b, partId));
    }
  }

  lemma {:induction false} BufferedTexts(state: PartState, partId: string, pending: seq<PendingDelta>)
    ensures var (next, chunks) := BufferedChunks(state, partId, pending);
      && next.buffer == state.buffer + Texts(chunks, partId)
      && next.block == state.block && next.role == state.role && next.artifactId == state.artifactId
      && (forall c | c in chunks :: c.partId == partId)
    decreases |pending|
  {
    if pending != [] {
      var (first, chunks) := DeltaChunks(state, partId, pending[0].delta, pending[0].messageId);
      BufferedTexts(first, partId, pending[1..]);
      TextsAppend(chunks, BufferedChunks(first, partId, pending[1..]).1, partId);
      assert Texts(chunks, partId) == pending[0].delta;
      Associate(state.buffer, pending[0].delta, Texts(BufferedChunks(first, partId, pending[1..]).1, partId));
    }
  }

  /** The state whose buffer an update's own content is compared with. */
  function Flushed(cfg: Config, parts: Parts, e: PartEvent): PartState
    requires e.Updated? && e.block.Some?
  {
    var state := Upsert(cfg, parts, e.partId, e.block.value, e.role, e.messageId);
    BufferedChunks(state, e.partId, Pending(parts, e.partId)).0
  }

  /** The event carries a snapshot that does not extend what the part has so far. */
  predicate Rewrites(cfg: Config, parts: Parts, e: PartEvent) {
    && e.Updated? && e.partId != "" && e.block.Some? && e.block != Some(ToolBlock)
    && !Given(e.delta) && e.snapshot.Some?
    && !Silent(Upsert(cfg, parts, e.partId, e.block.value, e.role, e.messageId).role)
    && !(Flushed(cfg, parts, e).buffer <= e.snapshot.value)
  }

  predicate IsToolEvent(e: PartEvent) {
    e.Updated? && e.block == Some(ToolBlock)
  }

  lemma OwnTexts(cfg: Config, state: PartState, e: PartEvent)
    requires e.Updated? && state.block != ToolBlock
    ensures var (next, chunks) := OwnChunks(cfg, state, e);
      && (forall c | c in chunks :: c.partId == e.partId)
      && (next.buffer == state.buffer + Texts(chunks, e.partId)
          <==> Given(e.delta) || e.snapshot.None? || state.buffer <= e.snapshot.value)
  {
    var (next, chunks) := OwnChunks(cfg, state, e);
    assert |chunks| <= 1;
    if |chunks| == 1 {
      assert Texts(chunks, e.partId) == chunks[0].contentKey + Texts([], e.partId);
    }
  }

  /** An event's chunks carry exactly what it adds to the part's buffer, unless it rewrites. */
  lemma EventTexts(cfg: Config, parts: Parts, e: PartEvent)
    requires !IsToolEvent(e)
    ensures var (next, chunks) := HandlePart(cfg, parts, e);
      && (forall c | c in chunks :: c.partId == e.partId)
      && (Buffer(next, e.partId) == Buffer(parts, e.partId) + Texts(chunks, e.partId) <==> !Rewrites(cfg, parts, e))
  {
    if e.Updated? {
      UpdatedTexts(cfg, parts, e);
    } else {
      var (next, chunks) := HandlePart(cfg, parts, e);
      if chunks != [] {
        assert Texts(chunks, e.partId) == chunks[0].contentKey + Texts([], e.partId);
      }
    }
  }

  lemma UpdatedTexts(cfg: Config, parts: Parts, e: PartEvent)
    requires e.Updated? && !IsToolEvent(e)
    ensures var (next, chunks) := HandleUpdated(cfg, parts, e);
      && (forall c | c in chunks :: c.partId == e.partId)
      && (Buffer(next, e.partId) == Buffer(parts, e.partId) + Texts(chunks, e.partId) <==> !Rewrites(cfg, parts, e))
  {
    if e.partId != "" && e.block.Some? {
      var state := Upsert(cfg, parts, e.partId, e.block.value, e.role, e.messageId);
      if !Silent(state.role) {
        AllTexts(cfg, state, e, Pending(parts, e.partId));
      }
    }
  }

  /** Buffered deltas and own content together. */
  lemma AllTexts(cfg: Config, state: PartState, e: PartEvent, pending: seq<PendingDelta>)
    requires e.Updated? && state.block != ToolBlock
    ensures var (flushed, early) := BufferedChunks(state, e.partId, pending);
      var (next, own) := OwnChunks(cfg, flushed, e);
      && (forall c | c in early + own :: c.partId == e.partId)
      && (next.buffer == state.buffer + Texts(early + own, e.partId)
          <==> Given(e.delta) || e.snapshot.None? || flushed.buffer <= e.snapshot.value)
  {
    var (flushed, early) := BufferedChunks(state, e.partId, pending);
    BufferedTexts(state, e.partId, pending);
    OwnTexts(cfg, flushed, e);
    var (next, own) := OwnChunks(cfg, flushed, e);
    TextsAppend(early, own, e.partId);
    assert state.buffer + Texts(early + own, e.partId) == flushed.buffer + Texts(own, e.partId);
  }

  lemma OwnBelong(cfg: Config, state: PartState, e: PartEvent)
    requires e.Updated?
    ensures forall c | c in OwnChunks(cfg, state, e).1 :: c.partId == e.partId
  {
  }

  /** Every chunk belongs to the part of its event. */
  lemma ChunksBelong(cfg: Config, parts: Parts, e: PartEvent)
    ensures forall c | c in HandlePart(cfg, parts, e).1 :: c.partId == e.partId
  {
    if e.Updated? && e.block.Some? {
      var state := Upsert(cfg, parts, e.partId, e.block.value, e.role, e.messageId);
      BufferedTexts(state, e.partId, Pending(parts, e.partId));
      OwnBelong(cfg, BufferedChunks(state, e.partId, Pending(parts, e.partId)).0, e);
      hide Upsert, BufferedChunks, OwnChunks, Texts;
    }
  }

  lemma {:induction false} TextsOfOthers(chunks: seq<Chunk>, partId: string)
    requires forall c | c in chunks :: c.partId != partId
    ensures Texts(chunks, partId) == ""
  {
    if chunks != [] {
      TextsOfOthers(chunks[1..], partId);
    }
  }

  lemma OtherPart(cfg: Config, parts: Parts, e: PartEvent, partId: string)
    requires e.partId != partId
    ensures Buffer(HandlePart(cfg, parts, e).0, partId) == Buffer(parts, partId)
    ensures Texts(HandlePart(cfg, parts, e).1, partId) == ""
  {
    ChunksBelong(cfg, parts, e);
    TextsOfOthers(HandlePart(cfg, parts, e).1, partId);
  }

  // ---------------------------------------------------------------- runs of part events

  /** Part states and all chunks produced by a run of part events. */
  function RunParts(cfg: Config, parts: Parts, events: seq<PartEvent>): (Parts, seq<Chunk>)
    decreases |events|
  {
    if events == [] then (parts, []) else
      var (next, chunks) := HandlePart(cfg, parts, events[0]);
      var (last, more) := RunParts(cfg, next, events[1..]);
      (last, chunks + more)
  }

  /** No event of the part is a rewrite or a tool update when its turn comes. */
  ghost predicate Growing(cfg: Config, parts: Parts, events: seq<PartEvent>, partId: string)
    decreases |events|
  {
    events == [] ||
    ((events[0].partId == partId ==> !IsToolEvent(events[0]) && !Rewrites(cfg, parts, events[0]))
     && Growing(cfg, HandlePart(cfg, parts, events[0]).0, events[1..], partId))
  }

  lemma StepSpells(cfg: Config, parts: Parts, e: PartEvent, partId: string)
    requires e.partId == partId ==> !IsToolEvent(e) && !Rewrites(cfg, parts, e)
    ensures var (next, chunks) := HandlePart(cfg, parts, e);
      Buffer(next, partId) == Buffer(parts, partId) + Texts(chunks, partId)
  {
    if e.partId == partId {
      EventTexts(cfg, parts, e);
    } else {
      OtherPart(cfg, parts, e, partId);
    }
  }

  /** While every snapshot extends the buffer, the texts of the part's chunks concatenate to
      what was added to its buffer: each character is sent once, however deltas and growing
      snapshots are mixed. */
  lemma {:induction false} ChunksSpellBuffer(cfg: Config, parts: Parts, events: seq<PartEvent>, partId: string)
    requires Growing(cfg, parts, events, partId)
    ensures var (last, chunks) := RunParts(cfg, parts, events);
      Buffer(last, partId) == Buffer(parts, partId) + Texts(chunks, partId)
    decreases |events|
  {
    if events != [] {
      var (next, chunks) := HandlePart(cfg, parts, events[0]);
      var (last, more) := RunParts(cfg, next, events[1..]);
      StepSpells(cfg, parts, events[0], partId);
      ChunksSpellBuffer(cfg, next, events[1..], partId);
      TextsAppend(chunks, more, partId);
      hide HandlePart, Rewrites, Texts;
      Associate(Buffer(parts, partId), Texts(chunks, partId), Texts(more, partId));
    }
  }

  /** Taking the same snapshot again leaves a state as it is. */
  lemma SnapshotTwice(cfg: Config, state: PartState, e: PartEvent)
    requires e.Updated? && state.block != ToolBlock && !Given(e.delta) && e.snapshot.Some?
    ensures var next := OwnChunks(cfg, state, e).0;
      && OwnChunks(cfg, next, e) == (next, [])
      && next.block == state.block && next.role == state.role && next.artifactId == state.artifactId
      && (Given(e.messageId) ==> next.messageId == e.messageId)
  {
  }

  lemma UpsertTwice(cfg: Config, parts: Parts, partId: string, block: BlockType, role: Option<Role>,
                    messageId: Option<string>)
    requires partId in parts.states
    requires var state := parts.states[partId];
      && state.block == block && state.artifactId == ArtifactId(cfg.base, block, partId)
      && (role.Some? ==> state.role == role) && (Given(messageId) ==> state.messageId == messageId)
    ensures Upsert(cfg, parts, partId, block, role, messageId) == parts.states[partId]
  {
  }

  /** A repeated snapshot update produces nothing and changes nothing. */
  lemma RepeatedSnapshot(cfg: Config, parts: Parts, e: PartEvent)
    requires e.Updated? && !IsToolEvent(e) && !Given(e.delta) && e.snapshot.Some?
    ensures var next := HandlePart(cfg, parts, e).0;
      HandlePart(cfg, next, e) == (next, [])
  {
    var next := HandlePart(cfg, parts, e).0;
    if e.partId != "" {
      assert next.pending == parts.pending - {e.partId};
      assert next.pending - {e.partId} == next.pending && Pending(next, e.partId) == [];
      if e.block.Some? {
        RepeatedState(cfg, parts, e);
        var state := next.states[e.partId];
        assert next.states[e.partId := state] == next.states;
        assert BufferedChunks(state, e.partId, []) == (state, []);
        var none: seq<Chunk> := [];
        assert none + none == none;
      }
    }
  }

  lemma RepeatedState(cfg: Config, parts: Parts, e: PartEvent)
    requires e.Updated? && !IsToolEvent(e) && !Given(e.delta) && e.snapshot.Some?
    requires e.partId != "" && e.block.Some?
    ensures var next := HandlePart(cfg, parts, e).0;
      && e.partId in next.states
      && Upsert(cfg, next, e.partId, e.block.value, e.role, e.messageId) == next.states[e.partId]
      && (!Silent(next.states[e.partId].role) ==>
        OwnChunks(cfg, next.states[e.partId], e) == (next.states[e.partId], []))
  {
    var next := HandlePart(cfg, parts, e).0;
    var state := Upsert(cfg, parts, e.partId, e.block.value, e.role, e.messageId);
    if !Silent(state.role) {
      BufferedTexts(state, e.partId, Pending(parts, e.partId));
      SnapshotTwice(cfg, BufferedChunks(state, e.partId, Pending(parts, e.partId)).0, e);
    }
    UpsertTwice(cfg, next, e.partId, e.block.value, e.role, e.messageId);
  }

  // ---------------------------------------------------------------- early deltas

  function DeltaEvents(partId: string, deltas: seq<PendingDelta>): seq<Event> {
    seq(|deltas|, i requires 0 <= i < |deltas| =>
      Event(None, false, None, None, Some(Delta(partId, "text", deltas[i].delta, deltas[i].messageId))))
  }

  /** The update that announces a part's type and carries no content of its own. */
  function Announcement(partId: string, block: BlockType, role: Option<Role>, messageId: Option<string>): Event {
    Event(None, false, None, None, Some(Updated(partId, Some(block), role, messageId, None, None, None)))
  }

  /** The user's own prompt, as an upstream may repeat it. */
  predicate RepeatsPrompt(cfg: Config, c: Chunk) {
    && c.role.None? && c.block == TextBlock && c.part.TextPart? && c.contentKey == c.part.text
    && Strip(cfg.userText) != "" && Strip(c.part.text) == Strip(cfg.userText)
  }

  /** Repetitions of the prompt before anything was sent leave no trace, however many there
      are; afterwards a repetition is content like any other and extends its artifact. */
  lemma {:induction false} EchoesLeaveNoTrace(cfg: Config, out: Out, echoes: seq<Chunk>, rest: seq<Chunk>)
    requires forall c | c in echoes :: RepeatsPrompt(cfg, c)
    ensures !out.state.sawAnyChunk ==> EmitAll(cfg, out, echoes + rest) == EmitAll(cfg, out, rest)
    ensures out.state.sawAnyChunk && echoes != [] && echoes[0].append && echoes[0].accumulate ==>
      Content(EmitChunk(cfg, out, echoes[0]).state.buffers, echoes[0].artifactId)
        == Content(out.state.buffers, echoes[0].artifactId) + echoes[0].contentKey
    decreases |echoes|
  {
    if echoes == [] {
      assert echoes + rest == rest;
    } else {
      assert echoes[0] in echoes;
      assert (echoes + rest)[1..] == echoes[1..] + rest;
      EchoesLeaveNoTrace(cfg, out, echoes[1..], rest);
    }
  }

  lemma {:induction false} EmitAllAppend(cfg: Config, out: Out, a: seq<Chunk>, b: seq<Chunk>)
    ensures EmitAll(cfg, out, a + b) == EmitAll(cfg, EmitAll(cfg, out, a), b)
    decreases |a|
  {
    if a == [] {
      assert a + b == b;
    } else {
      assert (a + b)[1..] == a[1..] + b;
      EmitAllAppend(cfg, EmitChunk(cfg, out, a[0]), a[1..], b);
    }
  }

  lemma {:induction false} BufferedAppend(state: PartState, partId: string, a: seq<PendingDelta>, b: seq<PendingDelta>)
    ensures var (mid, first) := BufferedChunks(state, partId, a);
      var (last, second) := BufferedChunks(mid, partId, b);
      BufferedChunks(state, partId, a + b) == (last, first + second)
    decreases |a|
  {
    if a == [] {
      assert a + b == b;
      assert [] + BufferedChunks(state, partId, b).1 == BufferedChunks(state, partId, b).1;
    } else {
      assert (a + b)[1..] == a[1..] + b;
      var (next, chunks) := DeltaChunks(state, partId, a[0].delta, a[0].messageId);
      BufferedAppend(next, partId, a[1..], b);
      var (mid, first) := BufferedChunks(next, partId, a[1..]);
      var (last, second) := BufferedChunks(mid, partId, b);
      assert chunks + (first + second) == (chunks + first) + second;
    }
  }

  /** Deltas of an unknown part are only remembered. */
  lemma {:induction false} DeltasBefore(cfg: Config, s: Stream, partId: string, deltas: seq<PendingDelta>)
    requires !s.stopped && partId != "" && partId !in s.parts.states
    requires forall d | d in deltas :: d.delta != ""
    ensures var t := ConsumeAll(cfg, s, DeltaEvents(partId, deltas));
      && t.out == s.out && !t.stopped && t.parts.states == s.parts.states
      && t.parts.pending - {partId} == s.parts.pending - {partId}
      && Pending(t.parts, partId) == Pending(s.parts, partId) + deltas
    decreases |deltas|
  {
    var events := DeltaEvents(partId, deltas);
    if deltas != [] {
      assert deltas[0] in deltas;
      assert events[1..] == DeltaEvents(partId, deltas[1..]);
      var next := Handle(cfg, s, events[0]);
      assert next.out == s.out;
      DeltasBefore(cfg, next, partId, deltas[1..]);
      assert next.parts.pending - {partId} == s.parts.pending - {partId};
      assert Pending(next.parts, partId) + deltas[1..] == Pending(s.parts, partId) + deltas;
    }
  }

  /** Deltas of a known part are emitted as they come, and ignored if the part is silent. */
  lemma {:induction false} DeltasAfter(cfg: Config, s: Stream, partId: string, deltas: seq<PendingDelta>)
    requires !s.stopped && partId != "" && partId in s.parts.states
    requires forall d | d in deltas :: d.delta != ""
    ensures var state := s.parts.states[partId];
      var (last, chunks) := BufferedChunks(state, partId, deltas);
      ConsumeAll(cfg, s, DeltaEvents(partId, deltas))
      == if Silent(state.role) then s
         else Stream(s.parts.(states := s.parts.states[partId := last]), EmitAll(cfg, s.out, chunks), false)
    decreases |deltas|
  {
    var events := DeltaEvents(partId, deltas);
    var state := s.parts.states[partId];
    if deltas == [] {
      assert s.parts.states[partId := state] == s.parts.states;
    } else {
      assert deltas[0] in deltas;
      assert events[1..] == DeltaEvents(partId, deltas[1..]);
      var next := Handle(cfg, s, events[0]);
      DeltasAfter(cfg, next, partId, deltas[1..]);
      if !Silent(state.role) {
        var (first, chunks) := DeltaChunks(state, partId, deltas[0].delta, deltas[0].messageId);
        var (last, more) := BufferedChunks(first, partId, deltas[1..]);
        EmitAllAppend(cfg, s.out, chunks, more);
        assert s.parts.states[partId := first][partId := last] == s.parts.states[partId := last];
      }
    }
  }

  lemma AnnouncementStep(cfg: Config, s: Stream, partId: string, block: BlockType, role: Option<Role>,
                         messageId: Option<string>)
    requires !s.stopped && partId != ""
    ensures var state := Upsert(cfg, s.parts, partId, block, role, messageId);
      var (flushed, chunks) := BufferedChunks(state, partId, Pending(s.parts, partId));
      var cleared := s.parts.pending - {partId};
      ConsumeAll(cfg, s, [Announcement(partId, block, role, messageId)])
      == if Silent(state.role) then Stream(Parts(s.parts.states[partId := state], cleared), s.out, false)
         else Stream(Parts(s.parts.states[partId := flushed], cleared), EmitAll(cfg, s.out, chunks), false)
  {
    var state := Upsert(cfg, s.parts, partId, block, role, messageId);
    var (flushed, chunks) := BufferedChunks(state, partId, Pending(s.parts, partId));
    assert chunks + [] == chunks;
    assert EmitAll(cfg, s.out, []) == s.out;
  }

  /** What either order comes to. */
  function Announced(cfg: Config, s: Stream, partId: string, state: PartState, deltas: seq<PendingDelta>): Stream {
    var cleared := s.parts.pending - {partId};
    var (last, chunks) := BufferedChunks(state, partId, Pending(s.parts, partId) + deltas);
    if Silent(state.role) then Stream(Parts(s.parts.states[partId := state], cleared), s.out, false)
    else Stream(Parts(s.parts.states[partId := last], cleared), EmitAll(cfg, s.out, chunks), false)
  }

  lemma DeltasFirst(cfg: Config, s: Stream, partId: string, deltas: seq<PendingDelta>,
                    block: BlockType, role: Option<Role>, messageId: Option<string>)
    requires !s.stopped && partId != "" && partId !in s.parts.states
    requires forall d | d in deltas :: d.delta != ""
    ensures ConsumeAll(cfg, s, DeltaEvents(partId, deltas) + [Announcement(partId, block, role, messageId)])
         == Announced(cfg, s, partId, Upsert(cfg, s.parts, partId, block, role, messageId), deltas)
  {
    var events := DeltaEvents(partId, deltas);
    ConsumeAppend(cfg, s, events, [Announcement(partId, block, role, messageId)]);
    DeltasBefore(cfg, s, partId, deltas);
    AnnouncementStep(cfg, ConsumeAll(cfg, s, events), partId, block, role, messageId);
  }

  lemma EmitBuffered(cfg: Config, out: Out, state: PartState, partId: string, a: seq<PendingDelta>,
                     b: seq<PendingDelta>)
    ensures var (mid, first) := BufferedChunks(state, partId, a);
      var (last, second) := BufferedChunks(mid, partId, b);
      && BufferedChunks(state, partId, a + b).0 == last
      && EmitAll(cfg, out, BufferedChunks(state, partId, a + b).1) == EmitAll(cfg, EmitAll(cfg, out, first), second)
  {
    BufferedAppend(state, partId, a, b);
    var (mid, first) := BufferedChunks(state, partId, a);
    EmitAllAppend(cfg, out, first, BufferedChunks(mid, partId, b).1);
  }

  lemma AnnouncementFirst(cfg: Config, s: Stream, partId: string, deltas: seq<PendingDelta>,
                          block: BlockType, role: Option<Role>, messageId: Option<string>)
    requires !s.stopped && partId != "" && partId !in s.parts.states
    requires forall d | d in deltas :: d.delta != ""
    ensures ConsumeAll(cfg, s, [Announcement(partId, block, role, messageId)] + DeltaEvents(partId, deltas))
         == Announced(cfg, s, partId, Upsert(cfg, s.parts, partId, block, role, messageId), deltas)
  {
    var state := Upsert(cfg, s.parts, partId, block, role, messageId);
    var announced := ConsumeAll(cfg, s, [Announcement(partId, block, role, messageId)]);
    ConsumeAppend(cfg, s, [Announcement(partId, block, role, messageId)], DeltaEvents(partId, deltas));
    AnnouncementStep(cfg, s, partId, block, role, messageId);
    AfterAnnouncement(cfg, s, announced, partId, deltas, state);
  }

  lemma AfterAnnouncement(cfg: Config, s: Stream, announced: Stream, partId: string, deltas: seq<PendingDelta>,
                          state: PartState)
    requires partId != "" && forall d | d in deltas :: d.delta != ""
    requires var (flushed, chunks) := BufferedChunks(state, partId, Pending(s.parts, partId));
      var cleared := s.parts.pending - {partId};
      announced == if Silent(state.role) then Stream(Parts(s.parts.states[partId := state], cleared), s.out, false)
                   else Stream(Parts(s.parts.states[partId := flushed], cleared), EmitAll(cfg, s.out, chunks), false)
    ensures ConsumeAll(cfg, announced, DeltaEvents(partId, deltas)) == Announced(cfg, s, partId, state, deltas)
  {
    var pending := Pending(s.parts, partId);
    DeltasAfter(cfg, announced, partId, deltas);
    if !Silent(state.role) {
      BufferedTexts(state, partId, pending);
      EmitBuffered(cfg, s.out, state, partId, pending, deltas);
      var flushed := BufferedChunks(state, partId, pending).0;
      var last := BufferedChunks(flushed, partId, deltas).0;
      assert s.parts.states[partId := flushed][partId := last] == s.parts.states[partId := last];
    }
  }

  /** Buffering is order-insensitive: the deltas of a new part followed by the update that
      announces its type end in the very same stream as the update followed by the deltas. */
  lemma EarlyDeltasCommute(cfg: Config, s: Stream, partId: string, deltas: seq<PendingDelta>,
                           block: BlockType, role: Option<Role>, messageId: Option<string>)
    requires !s.stopped && partId != "" && partId !in s.parts.states
    requires forall d | d in deltas :: d.delta != ""
    ensures var announcement := Announcement(partId, block, role, messageId);
      ConsumeAll(cfg, s, DeltaEvents(partId, deltas) + [announcement])
      == ConsumeAll(cfg, s, [announcement] + DeltaEvents(partId, deltas))
  {
    DeltasFirst(cfg, s, partId, deltas, block, role, messageId);
    AnnouncementFirst(cfg, s, partId, deltas, block, role, messageId);
  }
}
