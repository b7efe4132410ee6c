/** Turning decoded upstream events into chunks, and chunks into queue updates. */
module StreamRuntime {
  import opened Prelude
  import opened Text
  import opened StreamState

  /** A part as the runtime tracks it. */
  datatype PartState = PartState(
    artifactId: string,
    block: BlockType,
    messageId: Option<string>,
    role: Option<Role>,
    buffer: string,
    sawDelta: bool)

  datatype PendingDelta = PendingDelta(delta: string, messageId: Option<string>)

  datatype Parts = Parts(states: map<string, PartState>, pending: map<string, seq<PendingDelta>>)

  /** `tool` is the JSON text of a tool payload. */
  datatype PartEvent =
    | Delta(partId: string, field: string, text: string, messageId: Option<string>)
    | Updated(partId: string, block: Option<BlockType>, role: Option<Role>, messageId: Option<string>,
              delta: Option<string>, tool: Option<Name>, snapshot: Option<string>)

  /** One decoded upstream event of this session; each aspect may be absent. */
  datatype Event = Event(
    progress: Option<(string, string, Option<string>)>,
    terminal: bool,
    asked: Option<string>,
    resolved: Option<string>,
    part: Option<PartEvent>)

  datatype Stream = Stream(parts: Parts, out: Out, stopped: bool)

  const FRESH_PARTS := Parts(map[], map[])

  function Begin(): Stream {
    Stream(FRESH_PARTS, Out(EMPTY_OUTPUT, []), false)
  }

  // ---------------------------------------------------------------- parts to chunks

  function ArtifactId(base: string, block: BlockType, partId: string): string {
    match block
    case TextBlock => base + ":text"
    case ReasoningBlock => base + ":reasoning"
    case ToolBlock => if Strip(partId) != "" then base + ":tool:" + Strip(partId) else base + ":tool"
  }

  predicate Given(s: Option<string>) {
    s.Some? && s.value != ""
  }

  /** Only user and system parts are silent. */
  predicate Silent(role: Option<Role>) {
    role == Some(User) || role == Some(System)
  }

  function Upsert(cfg: Config, parts: Parts, partId: string, block: BlockType, role: Option<Role>,
                  messageId: Option<string>): PartState
  {
    if partId !in parts.states then
      PartState(ArtifactId(cfg.base, block, partId), block, messageId, role, "", false)
    else
      var known := parts.states[partId];
      known.(artifactId := ArtifactId(cfg.base, block, partId),
             block := block,
             role := if role.Some? then role else known.role,
             messageId := if Given(messageId) then messageId else known.messageId)
  }

  function WithMessage(state: PartState, messageId: Option<string>): PartState {
    if Given(messageId) then state.(messageId := messageId) else state
  }

  function TextChunk(state: PartState, partId: string, text: string): Chunk {
    Chunk(state.artifactId, TextPart(text, ""), text, true, true, state.block, partId, state.messageId, state.role)
  }

  function DeltaChunks(state: PartState, partId: string, delta: string, messageId: Option<string>)
    : (PartState, seq<Chunk>)
  {
    if delta == "" then (state, []) else
      var grown := WithMessage(state, messageId).(buffer := state.buffer + delta, sawDelta := true);
      (grown, [TextChunk(grown, partId, delta)])
  }

  /** A cumulative snapshot sends what it adds; one that rewrites the buffer sends nothing. */
  function SnapshotChunks(state: PartState, partId: string, snapshot: string, messageId: Option<string>)
    : (PartState, seq<Chunk>)
  {
    var stamped := WithMessage(state, messageId);
    if snapshot == state.buffer then (stamped, [])
    else if state.buffer <= snapshot then
      var grown := stamped.(buffer := snapshot);
      (grown, [TextChunk(grown, partId, snapshot[|state.buffer|..])])
    else (stamped.(buffer := snapshot), [])
  }

  /** Without structured output a payload is shown as text, its JSON in ASCII. */
  function ToolKey(cfg: Config, tool: Name): string {
    if cfg.structured then tool else Escaped(tool)
  }

  function ToolPart(cfg: Config, tool: Name): Part {
    if cfg.structured then DataPart(tool, "") else TextPart(Escaped(tool), "")
  }

  function ToolChunks(cfg: Config, state: PartState, partId: string, tool: Option<Name>, messageId: Option<string>)
    : (PartState, seq<Chunk>)
  {
    if tool.None? then (state, []) else
      var stamped := WithMessage(state, messageId);
      if tool.value == state.buffer then (stamped, []) else
        var next := stamped.(buffer := tool.value);
        (next, [Chunk(next.artifactId, ToolPart(cfg, tool.value), ToolKey(cfg, tool.value), false,
                      state.buffer != "", next.block, partId, next.messageId, next.role)])
  }

  function BufferedChunks(state: PartState, partId: string, pending: seq<PendingDelta>): (PartState, seq<Chunk>)
    decreases |pending|
  {
    if pending == [] then (state, []) else
      var (first, chunks) := DeltaChunks(state, partId, pending[0].delta, pending[0].messageId);
      var (last, more) := BufferedChunks(first, partId, pending[1..]);
      (last, chunks + more)
  }

  function Pending(parts: Parts, partId: string): seq<PendingDelta> {
    Lookup(parts.pending, partId).GetOr([])
  }

  function HandleDelta(parts: Parts, e: PartEvent): (Parts, seq<Chunk>)
    requires e.Delta?
  {
    if e.partId == "" || e.field != "text" || e.text == "" then (parts, [])
    else if e.partId !in parts.states then
      (parts.(pending := parts.pending[e.partId := Pending(parts, e.partId) + [PendingDelta(e.text, e.messageId)]]), [])
    else
      var state := parts.states[e.partId];
      if Silent(state.role) then (parts, []) else
        var (next, chunks) := DeltaChunks(state, e.partId, e.text, e.messageId);
        (parts.(states := parts.states[e.partId := next]), chunks)
  }

  /** The chunks of an update's own content, after its buffered deltas. */
  function OwnChunks(cfg: Config, state: PartState, e: PartEvent): (PartState, seq<Chunk>)
    requires e.Updated?
  {
    if Given(e.delta) then DeltaChunks(state, e.partId, e.delta.value, e.messageId)
    else if state.block == ToolBlock then ToolChunks(cfg, state, e.partId, e.tool, e.messageId)
    else if e.snapshot.Some? then SnapshotChunks(state, e.partId, e.snapshot.value, e.messageId)
    else (state, [])
  }

  function HandleUpdated(cfg: Config, parts: Parts, e: PartEvent): (Parts, seq<Chunk>)
    requires e.Updated?
  {
    if e.partId == "" then (parts, [])
    else if e.block.None? then (parts.(pending := parts.pending - {e.partId}), [])
    else
      var state := Upsert(cfg, parts, e.partId, e.block.value, e.role, e.messageId);
      var cleared := parts.pending - {e.partId};
      if Silent(state.role) then (Parts(parts.states[e.partId := state], cleared), []) else
        var (flushed, early) := BufferedChunks(state, e.partId, Pending(parts, e.partId));
        var (next, own) := OwnChunks(cfg, flushed, e);
        (Parts(parts.states[e.partId := next], cleared), early + own)
  }

  function HandlePart(cfg: Config, parts: Parts, e: PartEvent): (Parts, seq<Chunk>) {
    match e
    case Delta(_, _, _, _) => HandleDelta(parts, e)
    case Updated(_, _, _, _, _, _, _) => HandleUpdated(cfg, parts, e)
  }

  // ---------------------------------------------------------------- whole events

  function HandleStatus(cfg: Config, out: Out, e: Event): Out {
    var reported := match e.progress
      case None => out
      case Some((identity, key, messageId)) => Report(cfg, out, identity, key, messageId);
    var asked := if e.asked.Some? then Ask(cfg, reported, e.asked.value) else reported;
    if e.resolved.Some? then Resolve(cfg, asked, e.resolved.value) else asked
  }

  function Handle(cfg: Config, s: Stream, e: Event): Stream {
    var out := HandleStatus(cfg, s.out, e);
    match e.part
    case None => Stream(s.parts, out, s.stopped || e.terminal)
    case Some(part) =>
      var (parts, chunks) := HandlePart(cfg, s.parts, part);
      Stream(parts, EmitAll(cfg, out, chunks), s.stopped || e.terminal)
  }

  /** Events after the terminal one are not looked at. */
  function ConsumeAll(cfg: Config, s: Stream, events: seq<Event>): Stream
    decreases |events|
  {
    if events == [] || s.stopped then s else ConsumeAll(cfg, Handle(cfg, s, events[0]), events[1..])
  }

  /** A completed run: the events, then the response. */
  function Complete(cfg: Config, events: seq<Event>, text: string, messageId: Option<string>): Out {
    StreamState.Finish(cfg, ConsumeAll(cfg, Begin(), events).out, text, messageId)
  }

  // ---------------------------------------------------------------- the runtime's loops

  method EmitChunks(state: StreamOutputState, queue: EventQueue, chunks: seq<Chunk>)
    modifies state, queue
    ensures Out(state.View(), queue.items) == EmitAll(state.cfg, old(Out(state.View(), queue.items)), chunks)
  {
    ghost var start := Out(state.View(), queue.items);
    var i := 0;
    while i < |chunks|
      invariant 0 <= i <= |chunks|
      invariant EmitAll(state.cfg, start, chunks)
             == EmitAll(state.cfg, Out(state.View(), queue.items), chunks[i..])
    {
      assert chunks[i..][0] == chunks[i] && chunks[i..][1..] == chunks[i + 1..];
      EmitOne(state, queue, chunks[i]);
      i := i + 1;
    }
  }

  method EmitOne(state: StreamOutputState, queue: EventQueue, c: Chunk)
    modifies state, queue
    ensures Out(state.View(), queue.items) == EmitChunk(state.cfg, old(Out(state.View(), queue.items)), c)
  {
    if IsUserEcho(state.cfg, state.View(), ChunkText(c), c.block, c.role) {
      return;
    }
    var emit, effectiveAppend := state.RegisterChunk(c.artifactId, c.contentKey, c.append, c.accumulate);
    if !emit {
      return;
    }
    if c.block == TextBlock {
      state.RememberTextArtifactId(c.artifactId);
    }
    var sequence := state.NextSequence();
    queue.Enqueue(ArtifactUpdate(c.artifactId, c.part, effectiveAppend, false, c.block, state.cfg.described,
      Stamp(ResolveMessageId(state.cfg, c.messageId), EventId(state.cfg, sequence), sequence)));
  }

  method EmitStatusUpdate(state: StreamOutputState, queue: EventQueue, phase: Phase, messageId: Option<string>)
    modifies state`sequence, queue
    ensures Out(state.View(), queue.items)
         == EmitStatus(state.cfg, old(Out(state.View(), queue.items)), phase, messageId)
  {
    var sequence := state.NextSequence();
    queue.Enqueue(StatusUpdate(phase,
      Stamp(ResolveMessageId(state.cfg, messageId), EventId(state.cfg, sequence), sequence)));
  }

  method ReportProgress(state: StreamOutputState, queue: EventQueue, identity: string, key: string,
                        messageId: Option<string>)
    modifies state, queue
    ensures Out(state.View(), queue.items)
         == Report(state.cfg, old(Out(state.View(), queue.items)), identity, key, messageId)
  {
    var changed := state.RegisterProgress(identity, key);
    if changed && state.cfg.described {
      EmitStatusUpdate(state, queue, Progress, messageId);
    }
  }

  method AskInterrupt(state: StreamOutputState, queue: EventQueue, requestId: string)
    modifies state, queue
    ensures Out(state.View(), queue.items) == Ask(state.cfg, old(Out(state.View(), queue.items)), requestId)
  {
    var marked := state.MarkInterruptPending(requestId);
    if marked {
      EmitStatusUpdate(state, queue, Asked(requestId), None);
    }
  }

  method ResolveInterrupt(state: StreamOutputState, queue: EventQueue, requestId: string)
    modifies state, queue
    ensures Out(state.View(), queue.items) == Resolve(state.cfg, old(Out(state.View(), queue.items)), requestId)
  {
    var cleared := state.ClearInterruptPending(requestId);
    if cleared {
      EmitStatusUpdate(state, queue, Resolved(requestId), None);
    }
  }

  method HandleStatusAspects(state: StreamOutputState, queue: EventQueue, e: Event)
    modifies state, queue
    ensures Out(state.View(), queue.items) == HandleStatus(state.cfg, old(Out(state.View(), queue.items)), e)
  {
    if e.progress.Some? {
      ReportProgress(state, queue, e.progress.value.0, e.progress.value.1, e.progress.value.2);
    }
    if e.asked.Some? {
      AskInterrupt(state, queue, e.asked.value);
    }
    if e.resolved.Some? {
      ResolveInterrupt(state, queue, e.resolved.value);
    }
  }

  /** One connection to the upstream: the events it delivered, and whether it then failed. */
  datatype Connection = Connection(events: seq<Event>, failed: bool)

  /** A connection that ends without failing is the last one. */
  function Arrived(connections: seq<Connection>): seq<Event> {
    if connections == [] then []
    else if connections[0].failed then connections[0].events + Arrived(connections[1..])
    else connections[0].events
  }

  /** The pause after the n-th failure. */
  function Pause(n: nat): real {
    if n == 0 then 0.5 else if Pause(n - 1) * 2.0 <= 5.0 then Pause(n - 1) * 2.0 else 5.0
  }

  lemma {:induction false} ConsumeAppend(cfg: Config, s: Stream, a: seq<Event>, b: seq<Event>)
    ensures ConsumeAll(cfg, s, a + b) == ConsumeAll(cfg, ConsumeAll(cfg, s, a), b)
    decreases |a|
  {
    if a == [] {
      assert a + b == b;
    } else if !s.stopped {
      assert (a + b)[1..] == a[1..] + b;
      ConsumeAppend(cfg, Handle(cfg, s, a[0]), a[1..], b);
    }
  }

  /** The events of one connection, until the terminal one. */
  method ConsumeConnection(state: StreamOutputState, queue: EventQueue, parts: Parts, events: seq<Event>)
    returns (final: Parts, stopped: bool)
    modifies state, queue
    ensures Stream(final, Out(state.View(), queue.items), stopped)
         == ConsumeAll(state.cfg, Stream(parts, old(Out(state.View(), queue.items)), false), events)
  {
    ghost var start := Stream(parts, Out(state.View(), queue.items), false);
    final, stopped := parts, false;
    var i := 0;
    while i < |events| && !stopped
      invariant 0 <= i <= |events|
      invariant ConsumeAll(state.cfg, start, events)
             == ConsumeAll(state.cfg, Stream(final, Out(state.View(), queue.items), stopped), events[i..])
    {
      var e := events[i];
      assert events[i..][0] == e && events[i..][1..] == events[i + 1..];
      stopped := e.terminal;
      HandleStatusAspects(state, queue, e);
      if e.part.Some? {
        var (next, chunks) := HandlePart(state.cfg, final, e.part.value);
        final := next;
        EmitChunks(state, queue, chunks);
      }
      i := i + 1;
    }
  }

  /** What is left of a run after the first i connections. */
  ghost predicate Consuming(cfg: Config, start: Stream, connections: seq<Connection>, i: nat, ended: bool, s: Stream) {
    && i <= |connections|
    && ConsumeAll(cfg, start, Arrived(connections))
       == ConsumeAll(cfg, s, if ended then [] else Arrived(connections[i..]))
  }

  lemma ConsumingStep(cfg: Config, start: Stream, connections: seq<Connection>, i: nat, s: Stream)
    requires Consuming(cfg, start, connections, i, false, s) && i < |connections|
    ensures Consuming(cfg, start, connections, i + 1, !connections[i].failed, ConsumeAll(cfg, s, connections[i].events))
  {
    var events := connections[i].events;
    var rest := if connections[i].failed then Arrived(connections[i + 1..]) else [];
    assert connections[i..][0] == connections[i] && connections[i..][1..] == connections[i + 1..];
    assert Arrived(connections[i..]) == events + rest by {
      assert events + [] == events;
    }
    ConsumeAppend(cfg, s, events, rest);
  }

  /** The consuming loop: it reconnects after a failure, each time after a longer pause, and
      carries on with the parts it knows. */
  method Consume(state: StreamOutputState, queue: EventQueue, connections: seq<Connection>)
    returns (final: Parts, stopped: bool, pauses: seq<real>)
    modifies state, queue
    ensures Stream(final, Out(state.View(), queue.items), stopped)
         == ConsumeAll(state.cfg, Stream(FRESH_PARTS, old(Out(state.View(), queue.items)), false), Arrived(connections))
    ensures forall n: nat | n < |pauses| :: pauses[n] == Pause(n)
  {
    hide ConsumeAll, Arrived;
    ghost var start := Stream(FRESH_PARTS, Out(state.View(), queue.items), false);
    final, stopped, pauses := FRESH_PARTS, false, [];
    var ended, backoff, i := false, 0.5, 0;
    NoneConsumed(state.cfg, start, connections);
    hide Consuming;
    while i < |connections| && !stopped && !ended
      invariant i <= |connections|
      invariant Consuming(state.cfg, start, connections, i, ended,
                          Stream(final, Out(state.View(), queue.items), stopped))
      invariant backoff == Pause(|pauses|) && forall n: nat | n < |pauses| :: pauses[n] == Pause(n)
    {
      ConsumingStep(state.cfg, start, connections, i, Stream(final, Out(state.View(), queue.items), false));
      final, stopped := ConsumeConnection(state, queue, final, connections[i].events);
      ended := !connections[i].failed;
      if !stopped && connections[i].failed {
        pauses := pauses + [backoff];
        backoff := if backoff * 2.0 <= 5.0 then backoff * 2.0 else 5.0;
      }
      i := i + 1;
    }
    AllConsumed(state.cfg, start, connections, i, ended, Stream(final, Out(state.View(), queue.items), stopped));
  }

  lemma NoneConsumed(cfg: Config, start: Stream, connections: seq<Connection>)
    ensures Consuming(cfg, start, connections, 0, false, start)
  {
    assert connections[0..] == connections;
  }

  lemma AllConsumed(cfg: Config, start: Stream, connections: seq<Connection>, i: nat, ended: bool, s: Stream)
    requires Consuming(cfg, start, connections, i, ended, s) && (i == |connections| || s.stopped || ended)
    ensures s == ConsumeAll(cfg, start, Arrived(connections))
  {
    if i == |connections| {
      assert connections[i..] == [];
    }
  }

  /** The coordinator's tail of a completed streaming run. */
  method FinishStreaming(state: StreamOutputState, queue: EventQueue, text: string, messageId: Option<string>)
    modifies state, queue
    ensures Out(state.View(), queue.items)
         == StreamState.Finish(state.cfg, old(Out(state.View(), queue.items)), text, messageId)
  {
    var resolved := ResolveMessageId(state.cfg, messageId);
    var artifactId := ResolvedTextId(state.View(), state.cfg.base + ":text");
    var emit := state.ShouldEmitFinalSnapshot(artifactId, text);
    if emit {
      var sequence := state.NextSequence();
      queue.Enqueue(ArtifactUpdate(artifactId, TextPart(text, ""), false, true, TextBlock, state.cfg.described,
        Stamp(resolved, EventId(state.cfg, sequence), sequence)));
    }
    queue.Enqueue(CompletedUpdate(resolved, state.cfg.namespace + ":status"));
  }
}
