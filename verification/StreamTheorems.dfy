/** What every streaming run keeps, for any sequence of events. */
module StreamTheorems {
  import opened Prelude
  import opened Text
  import opened StreamState
  import opened StreamRuntime

  // ---------------------------------------------------------------- artifact ids

  function TextId(cfg: Config): string {
    cfg.base + ":text"
  }

  /** Text and reasoning artifacts, whose content only ever accumulates. */
  predicate IsProse(cfg: Config, id: string) {
    id == cfg.base + ":text" || id == cfg.base + ":reasoning"
  }

  /** The artifact id determines the block type, and no id is shorter than the text id. */
  lemma ArtifactIdShape(cfg: Config, block: BlockType, partId: string)
    ensures |ArtifactId(cfg.base, block, partId)| >= |TextId(cfg)|
    ensures ArtifactId(cfg.base, block, partId) == TextId(cfg) <==> block == TextBlock
    ensures ArtifactId(cfg.base, block, partId) == cfg.base + ":reasoning" <==> block == ReasoningBlock
  {
    var id := ArtifactId(cfg.base, block, partId);
    var n := |cfg.base|;
    assert TextId(cfg)[n + 2] == 'e' && TextId(cfg)[n + 1] == 't';
    assert (cfg.base + ":reasoning")[n + 1] == 'r';
    if block == ToolBlock {
      assert id[n + 2] == 'o' && id[n + 1] == 't';
    }
  }

  // ---------------------------------------------------------------- chunks

  function PartOfKey(cfg: Config, key: string): Part {
    if cfg.structured then DataPart(key, "") else TextPart(key, "")
  }

  ghost predicate ChunkOk(cfg: Config, c: Chunk) {
    && c.artifactId == ArtifactId(cfg.base, c.block, c.partId)
    && (c.accumulate ==> c.append && c.part == TextPart(c.contentKey, ""))
    && (!c.accumulate ==> c.block == ToolBlock && c.contentKey != "" && c.part == PartOfKey(cfg, c.contentKey))
  }

  ghost predicate ChunksOk(cfg: Config, chunks: seq<Chunk>, partId: string) {
    forall c | c in chunks :: ChunkOk(cfg, c) && c.partId == partId
  }

  ghost predicate StateOk(cfg: Config, state: PartState, partId: string) {
    state.artifactId == ArtifactId(cfg.base, state.block, partId)
  }

  ghost predicate PartsOk(cfg: Config, parts: Parts) {
    forall p | p in parts.states :: StateOk(cfg, parts.states[p], p)
  }

  lemma {:induction false} BufferedOk(cfg: Config, state: PartState, partId: string, pending: seq<PendingDelta>)
    requires StateOk(cfg, state, partId)
    ensures var (next, chunks) := BufferedChunks(state, partId, pending);
      StateOk(cfg, next, partId) && next.block == state.block && ChunksOk(cfg, chunks, partId)
    decreases |pending|
  {
    if pending != [] {
      var (first, _) := DeltaChunks(state, partId, pending[0].delta, pending[0].messageId);
      BufferedOk(cfg, first, partId, pending[1..]);
    }
  }

  lemma OwnOk(cfg: Config, state: PartState, e: PartEvent)
    requires e.Updated? && StateOk(cfg, state, e.partId)
    ensures var (next, chunks) := OwnChunks(cfg, state, e);
      StateOk(cfg, next, e.partId) && ChunksOk(cfg, chunks, e.partId)
  {
  }

  lemma UpdatedOk(cfg: Config, parts: Parts, e: PartEvent)
    requires PartsOk(cfg, parts) && e.Updated?
    ensures var (next, chunks) := HandleUpdated(cfg, parts, e);
      PartsOk(cfg, next) && ChunksOk(cfg, chunks, e.partId)
  {
    if e.partId != "" && e.block.Some? {
      var state := Upsert(cfg, parts, e.partId, e.block.value, e.role, e.messageId);
      BufferedOk(cfg, state, e.partId, Pending(parts, e.partId));
      OwnOk(cfg, BufferedChunks(state, e.partId, Pending(parts, e.partId)).0, e);
    }
  }

  lemma PartOk(cfg: Config, parts: Parts, e: PartEvent)
    requires PartsOk(cfg, parts)
    ensures var (next, chunks) := HandlePart(cfg, parts, e);
      PartsOk(cfg, next) && ChunksOk(cfg, chunks, e.partId)
  {
    if e.Updated? {
      UpdatedOk(cfg, parts, e);
    }
  }

  // ---------------------------------------------------------------- what the client sees

  /** The client knows an artifact exactly when it was registered, and the client's fold of
      a text or reasoning artifact is its content buffer. */
  ghost predicate Mirrors(out: Out, id: string) {
    && (Client(out.queue, id).Some? <==> id in out.state.emitted)
    && (id in out.state.emitted <==> id in out.state.buffers)
  }

  ghost predicate FoldsTo(queue: seq<Update>, id: string, content: string) {
    match Client(queue, id)
    case None => content == ""
    case Some(parts) => AllText(parts) && Join(parts) == content
  }

  /** A streamed artifact update: its id determines its block, and prose is plain text. */
  ghost predicate UpdateOk(cfg: Config, u: Update)
    requires u.ArtifactUpdate?
  {
    && u.described == cfg.described
    && |u.artifactId| >= |TextId(cfg)|
    && (u.block == TextBlock <==> u.artifactId == TextId(cfg))
    && (u.block == ReasoningBlock <==> u.artifactId == cfg.base + ":reasoning")
    && (u.block != ToolBlock ==> u.part.TextPart? && u.part.attributes == "")
  }

  ghost predicate ArtifactsOk(cfg: Config, out: Out) {
    && (forall id :: Mirrors(out, id))
    && (forall id | IsProse(cfg, id) :: FoldsTo(out.queue, id, Content(out.state.buffers, id)))
    && (forall id | id in out.state.buffers :: |id| >= |TextId(cfg)|)
    && (forall u | u in out.queue && u.ArtifactUpdate? :: UpdateOk(cfg, u))
    && (match out.state.textArtifactId
        case None => TextId(cfg) !in out.state.emitted
        case Some(id) => TextId(cfg) in out.state.emitted && id == Strip(TextId(cfg)))
  }

  /** Everything enqueued while consuming carries the numbers 1, 2, 3, ... in order. */
  ghost predicate Numbered(cfg: Config, out: Out) {
    && out.state.sequence == |out.queue|
    && (forall i | 0 <= i < |out.queue| ::
          && !out.queue[i].CompletedUpdate?
          && out.queue[i].stamp.sequence == i + 1
          && out.queue[i].stamp.eventId == EventId(cfg, i + 1))
  }

  /** The asked (true) and resolved (false) statuses sent for one request id. */
  function Phases(queue: seq<Update>, id: string): seq<bool> {
    if queue == [] then [] else
      var u := queue[|queue| - 1];
      var earlier := Phases(queue[..|queue| - 1], id);
      if u.StatusUpdate? && !u.phase.Progress? && Strip(u.phase.requestId) == id
      then earlier + [u.phase.Asked?] else earlier
  }

  ghost predicate Alternates(phases: seq<bool>) {
    forall i | 0 <= i < |phases| :: phases[i] == (i % 2 == 0)
  }

  ghost predicate InterruptsOk(out: Out) {
    forall id :: InterruptOk(out, id)
  }

  ghost predicate InterruptOk(out: Out, id: string) {
    var phases := Phases(out.queue, id);
    Alternates(phases) && (id in out.state.pendingInterrupts <==> |phases| % 2 == 1)
  }

  ghost predicate OutOk(cfg: Config, out: Out) {
    ArtifactsOk(cfg, out) && Numbered(cfg, out) && InterruptsOk(out)
  }

  lemma PhasesStep(queue: seq<Update>, u: Update, id: string)
    ensures Phases(queue + [u], id) == Phases(queue, id)
      + if u.StatusUpdate? && !u.phase.Progress? && Strip(u.phase.requestId) == id then [u.phase.Asked?] else []
  {
    assert (queue + [u])[..|queue|] == queue;
  }

  lemma EmitChunkArtifacts(cfg: Config, out: Out, c: Chunk)
    requires ArtifactsOk(cfg, out) && ChunkOk(cfg, c)
    ensures ArtifactsOk(cfg, EmitChunk(cfg, out, c))
  {
    var after := EmitChunk(cfg, out, c);
    if after != out {
      var u := after.queue[|out.queue|];
      assert after.queue == out.queue + [u];
      ArtifactIdShape(cfg, c.block, c.partId);
      StripOfInkEnd(TextId(cfg));
      forall id
        ensures Mirrors(after, id)
      {
        ClientStep(out.queue, u, id);
        assert Mirrors(out, id);
      }
      forall id | IsProse(cfg, id)
        ensures FoldsTo(after.queue, id, Content(after.state.buffers, id))
      {
        ClientStep(out.queue, u, id);
        assert Mirrors(out, id) && FoldsTo(out.queue, id, Content(out.state.buffers, id));
        if c.artifactId == id {
          EmitProse(out.queue, u, id, Content(out.state.buffers, id));
        }
      }
    }
  }

  /** One registered text chunk extends the client's fold by its text. */
  lemma EmitProse(queue: seq<Update>, u: Update, id: string, content: string)
    requires FoldsTo(queue, id, content)
    requires u.ArtifactUpdate? && u.artifactId == id && u.part.TextPart?
    requires u.append <==> Client(queue, id).Some?
    ensures FoldsTo(queue + [u], id, content + u.part.text)
  {
    ClientStep(queue, u, id);
    JoinStep([], u.part);
    assert [] + [u.part] == [u.part];
    if u.append {
      JoinStep(Client(queue, id).value, u.part);
    }
  }

  lemma SameInterrupts(out: Out, after: Out)
    requires InterruptsOk(out) && after.state.pendingInterrupts == out.state.pendingInterrupts
    requires forall id :: Phases(after.queue, id) == Phases(out.queue, id)
    ensures InterruptsOk(after)
  {
    forall id
      ensures InterruptOk(after, id)
    {
      assert InterruptOk(out, id);
    }
  }

  lemma EmitChunkNumbered(cfg: Config, out: Out, c: Chunk)
    requires Numbered(cfg, out)
    ensures Numbered(cfg, EmitChunk(cfg, out, c))
  {
  }

  lemma EmitChunkInterrupts(cfg: Config, out: Out, c: Chunk)
    requires InterruptsOk(out)
    ensures InterruptsOk(EmitChunk(cfg, out, c))
  {
    var after := EmitChunk(cfg, out, c);
    if after != out {
      forall id
        ensures Phases(after.queue, id) == Phases(out.queue, id)
      {
        PhasesStep(out.queue, after.queue[|out.queue|], id);
      }
      SameInterrupts(out, after);
    }
  }

  lemma EmitChunkOk(cfg: Config, out: Out, c: Chunk)
    requires OutOk(cfg, out) && ChunkOk(cfg, c)
    ensures OutOk(cfg, EmitChunk(cfg, out, c))
  {
    EmitChunkArtifacts(cfg, out, c);
    EmitChunkNumbered(cfg, out, c);
    EmitChunkInterrupts(cfg, out, c);
  }

  lemma {:induction false} EmitAllOk(cfg: Config, out: Out, chunks: seq<Chunk>)
    requires OutOk(cfg, out) && forall c | c in chunks :: ChunkOk(cfg, c)
    ensures OutOk(cfg, EmitAll(cfg, out, chunks))
    decreases |chunks|
  {
    if chunks != [] {
      EmitChunkOk(cfg, out, chunks[0]);
      EmitAllOk(cfg, EmitChunk(cfg, out, chunks[0]), chunks[1..]);
    }
  }

  /** A status update changes no artifact. */
  lemma EmitStatusArtifacts(cfg: Config, out: Out, o: Output, phase: Phase, messageId: Option<string>)
    requires ArtifactsOk(cfg, out)
    requires o.buffers == out.state.buffers && o.emitted == out.state.emitted
    requires o.textArtifactId == out.state.textArtifactId
    ensures ArtifactsOk(cfg, EmitStatus(cfg, Out(o, out.queue), phase, messageId))
  {
    var after := EmitStatus(cfg, Out(o, out.queue), phase, messageId);
    forall id
      ensures Client(after.queue, id) == Client(out.queue, id)
      ensures Mirrors(after, id)
    {
      ClientStep(out.queue, after.queue[|out.queue|], id);
      assert Mirrors(out, id);
    }
  }

  lemma EmitStatusNumbered(cfg: Config, out: Out, o: Output, phase: Phase, messageId: Option<string>)
    requires Numbered(cfg, out) && o.sequence == out.state.sequence
    ensures Numbered(cfg, EmitStatus(cfg, Out(o, out.queue), phase, messageId))
  {
  }

  lemma AskInterrupts(cfg: Config, out: Out, requestId: string)
    requires InterruptsOk(out)
    ensures InterruptsOk(Ask(cfg, out, requestId))
  {
    var after := Ask(cfg, out, requestId);
    forall id
      ensures InterruptOk(after, id)
    {
      assert InterruptOk(out, id);
      if after != out {
        PhasesStep(out.queue, after.queue[|out.queue|], id);
      }
    }
  }

  lemma ResolveInterrupts(cfg: Config, out: Out, requestId: string)
    requires InterruptsOk(out)
    ensures InterruptsOk(Resolve(cfg, out, requestId))
  {
    var after := Resolve(cfg, out, requestId);
    forall id
      ensures InterruptOk(after, id)
    {
      assert InterruptOk(out, id);
      if after != out {
        PhasesStep(out.queue, after.queue[|out.queue|], id);
      }
    }
  }

  lemma AskOk(cfg: Config, out: Out, requestId: string)
    requires OutOk(cfg, out)
    ensures OutOk(cfg, Ask(cfg, out, requestId))
  {
    AskInterrupts(cfg, out, requestId);
    var pending := out.state.(pendingInterrupts := out.state.pendingInterrupts + {Strip(requestId)});
    EmitStatusArtifacts(cfg, out, pending, Asked(requestId), None);
    EmitStatusNumbered(cfg, out, pending, Asked(requestId), None);
  }

  lemma ResolveOk(cfg: Config, out: Out, requestId: string)
    requires OutOk(cfg, out)
    ensures OutOk(cfg, Resolve(cfg, out, requestId))
  {
    ResolveInterrupts(cfg, out, requestId);
    var pending := out.state.(pendingInterrupts := out.state.pendingInterrupts - {Strip(requestId)});
    EmitStatusArtifacts(cfg, out, pending, Resolved(requestId), None);
    EmitStatusNumbered(cfg, out, pending, Resolved(requestId), None);
  }

  lemma ReportOk(cfg: Config, out: Out, identity: string, key: string, messageId: Option<string>)
    requires OutOk(cfg, out)
    ensures OutOk(cfg, Report(cfg, out, identity, key, messageId))
  {
    var noted := out.state.(progress := out.state.progress[identity := key]);
    var after := Report(cfg, out, identity, key, messageId);
    if after == Out(noted, out.queue) {
      forall id
        ensures Mirrors(after, id)
      {
        assert Mirrors(out, id);
      }
      SameInterrupts(out, after);
    } else if after != out {
      EmitStatusArtifacts(cfg, out, noted, Progress, messageId);
      forall id
        ensures Phases(after.queue, id) == Phases(out.queue, id)
      {
        PhasesStep(out.queue, after.queue[|out.queue|], id);
      }
      SameInterrupts(out, after);
    }
  }

  ghost predicate StreamOk(cfg: Config, s: Stream) {
    PartsOk(cfg, s.parts) && OutOk(cfg, s.out)
  }

  lemma BeginOk(cfg: Config)
    ensures StreamOk(cfg, Begin())
  {
    forall id
      ensures Mirrors(Begin().out, id) && InterruptOk(Begin().out, id)
    {
    }
  }

  lemma HandleStatusOk(cfg: Config, out: Out, e: Event)
    requires OutOk(cfg, out)
    ensures OutOk(cfg, HandleStatus(cfg, out, e))
  {
    var reported := out;
    if e.progress.Some? {
      var (identity, key, messageId) := e.progress.value;
      ReportOk(cfg, out, identity, key, messageId);
      reported := Report(cfg, out, identity, key, messageId);
    }
    var asked := reported;
    if e.asked.Some? {
      AskOk(cfg, reported, e.asked.value);
      asked := Ask(cfg, reported, e.asked.value);
    }
    if e.resolved.Some? {
      ResolveOk(cfg, asked, e.resolved.value);
    }
  }

  lemma HandleOk(cfg: Config, s: Stream, e: Event)
    requires StreamOk(cfg, s)
    ensures StreamOk(cfg, Handle(cfg, s, e))
  {
    HandleStatusOk(cfg, s.out, e);
    if e.part.Some? {
      PartOk(cfg, s.parts, e.part.value);
      EmitAllOk(cfg, HandleStatus(cfg, s.out, e), HandlePart(cfg, s.parts, e.part.value).1);
    }
  }

  lemma {:induction false} ConsumeOk(cfg: Config, s: Stream, events: seq<Event>)
    requires StreamOk(cfg, s)
    ensures StreamOk(cfg, ConsumeAll(cfg, s, events))
    decreases |events|
  {
    if events != [] && !s.stopped {
      HandleOk(cfg, s, events[0]);
      ConsumeOk(cfg, Handle(cfg, s, events[0]), events[1..]);
    }
  }

  lemma ReachableOk(cfg: Config, events: seq<Event>)
    ensures StreamOk(cfg, ConsumeAll(cfg, Begin(), events))
  {
    BeginOk(cfg);
    ConsumeOk(cfg, Begin(), events);
  }

  // ---------------------------------------------------------------- folds

  /** For every event sequence, the client's fold of a text or reasoning artifact is that
      artifact's content buffer, and it knows the artifact exactly when there is content. */
  lemma FoldIsBuffer(cfg: Config, events: seq<Event>, id: string)
    requires IsProse(cfg, id)
    ensures
      var out := ConsumeAll(cfg, Begin(), events).out;
      && (Client(out.queue, id).Some? <==> id in out.state.buffers)
      && FoldsTo(out.queue, id, Content(out.state.buffers, id))
  {
    ReachableOk(cfg, events);
    assert Mirrors(ConsumeAll(cfg, Begin(), events).out, id);
  }

  /** The same after the final snapshot, at the id the snapshot is addressed to and at
      every other text or reasoning artifact. */
  lemma FoldIsBufferAfterFinish(cfg: Config, events: seq<Event>, text: string, messageId: Option<string>, id: string)
    requires IsProse(cfg, id) || id == ResolvedTextId(ConsumeAll(cfg, Begin(), events).out.state, TextId(cfg))
    ensures
      var out := Complete(cfg, events, text, messageId);
      FoldsTo(out.queue, id, Content(out.state.buffers, id))
  {
    var out := ConsumeAll(cfg, Begin(), events).out;
    ReachableOk(cfg, events);
    FinishFold(cfg, out, text, messageId, id);
  }

  /** A replacing text update followed by the closing status. */
  lemma SnapshotFolds(queue: seq<Update>, u: Update, completed: Update, id: string, content: string)
    requires FoldsTo(queue, id, content) && completed.CompletedUpdate?
    requires u.ArtifactUpdate? && !u.append && u.part.TextPart?
    ensures FoldsTo(queue + [u] + [completed], id, if u.artifactId == id then u.part.text else content)
  {
    ClientStep(queue, u, id);
    ClientStep(queue + [u], completed, id);
    JoinStep([], u.part);
    assert [] + [u.part] == [u.part];
  }

  lemma FinishFold(cfg: Config, out: Out, text: string, messageId: Option<string>, id: string)
    requires ArtifactsOk(cfg, out)
    requires IsProse(cfg, id) || id == ResolvedTextId(out.state, TextId(cfg))
    ensures
      var after := StreamState.Finish(cfg, out, text, messageId);
      FoldsTo(after.queue, id, Content(after.state.buffers, id))
  {
    var after := StreamState.Finish(cfg, out, text, messageId);
    ResolvedShape(cfg, out);
    assert FoldsTo(out.queue, id, Content(out.state.buffers, id)) by {
      assert Mirrors(out, id);
    }
    var completed := after.queue[|after.queue| - 1];
    if NeedsFinalSnapshot(out.state, ResolvedTextId(out.state, TextId(cfg)), text) {
      var u := after.queue[|out.queue|];
      assert after.queue == out.queue + [u] + [completed];
      SnapshotFolds(out.queue, u, completed, id, Content(out.state.buffers, id));
    } else {
      ClientStep(out.queue, completed, id);
    }
  }

  /** The final snapshot goes to the streamed text artifact, or, when the task id starts
      with a space and text was streamed, to a shorter id that no streamed artifact has. */
  lemma ResolvedShape(cfg: Config, out: Out)
    requires ArtifactsOk(cfg, out)
    ensures
      var id := ResolvedTextId(out.state, TextId(cfg));
      && (id == TextId(cfg) <==> TextId(cfg) !in out.state.emitted || !IsSpace(TextId(cfg)[0]))
      && (id != TextId(cfg) ==> id !in out.state.buffers && |id| < |TextId(cfg)|)
  {
    StripOfInkEnd(TextId(cfg));
    StripIdempotent(TextId(cfg));
  }

  /** A run that completes with a non-blank response leaves the client with that response,
      up to outer whitespace, whatever deltas, snapshots, rewrites, repetitions and dropped
      echoes came before it. */
  lemma ClientEndsWithResponse(cfg: Config, events: seq<Event>, text: string, messageId: Option<string>)
    requires Strip(text) != ""
    ensures
      var id := ResolvedTextId(ConsumeAll(cfg, Begin(), events).out.state, TextId(cfg));
      var received := Client(Complete(cfg, events, text, messageId).queue, id);
      received.Some? && AllText(received.value) && Strip(Join(received.value)) == Strip(text)
  {
    var out := ConsumeAll(cfg, Begin(), events).out;
    var id := ResolvedTextId(out.state, TextId(cfg));
    FoldIsBufferAfterFinish(cfg, events, text, messageId, id);
  }

  /** There is a single text artifact, streamed text and final snapshot alike, exactly when
      no text was streamed or the artifact id has no leading space to lose. */
  lemma OneTextArtifact(cfg: Config, events: seq<Event>, text: string, messageId: Option<string>)
    requires Strip(text) != ""
    ensures
      var out := ConsumeAll(cfg, Begin(), events).out;
      var id := ResolvedTextId(out.state, TextId(cfg));
      (forall u | u in Complete(cfg, events, text, messageId).queue && u.ArtifactUpdate? && u.block == TextBlock ::
         u.artifactId == id)
      <==> TextId(cfg) !in out.state.emitted || !IsSpace(TextId(cfg)[0])
  {
    var out := ConsumeAll(cfg, Begin(), events).out;
    var queue := Complete(cfg, events, text, messageId).queue;
    ReachableOk(cfg, events);
    ResolvedShape(cfg, out);
    if TextId(cfg) in out.state.emitted {
      assert Mirrors(out, TextId(cfg));
      ClientWitness(out.queue, TextId(cfg));
      var u :| u in out.queue && u.ArtifactUpdate? && u.artifactId == TextId(cfg);
      assert u in queue;
    }
    forall u | u in queue && u.ArtifactUpdate? && u.block == TextBlock
      ensures u in out.queue || u.artifactId == ResolvedTextId(out.state, TextId(cfg))
    {
    }
  }

  /** A run whose task id begins with a space: one delta and a longer response end up in two
      text artifacts, the streamed one and the one the final snapshot goes to. */
  lemma LeadingSpaceSplitsText(messageId: Option<string>)
    ensures
      var cfg := Config("", "m", "n", " t", true, true);
      var e := Event(None, false, None, None, Some(Updated("p", Some(TextBlock), None, None, Some("a"), None, None)));
      var queue := Complete(cfg, [e], "ab", messageId).queue;
      && |queue| == 3 && queue[0].ArtifactUpdate? && queue[1].ArtifactUpdate?
      && queue[0].artifactId == " t:text" && queue[0].part == TextPart("a", "")
      && queue[1].artifactId == "t:text" && queue[1].part == TextPart("ab", "")
  {
    var cfg := Config("", "m", "n", " t", true, true);
    var e := Event(None, false, None, None, Some(Updated("p", Some(TextBlock), None, None, Some("a"), None, None)));
    SpacesStripped();
    assert TextId(cfg) == " t:text";
    OneDelta(cfg, e);
    SplitFinish(cfg, ConsumeAll(cfg, Begin(), [e]).out, messageId);
  }

  lemma SpacesStripped()
    ensures Strip(" t:text") == "t:text" && Strip("t:text") == "t:text" && Strip("ab") == "ab" && Strip("a") == "a"
      && Strip("") == ""
  {
    var id := " t:text";
    assert id[1..] == "t:text";
    assert StripLeft(id) == StripLeft("t:text") == "t:text";
  }

  lemma SplitFinish(cfg: Config, out: Out, messageId: Option<string>)
    requires Strip("t:text") == "t:text" && Strip("ab") == "ab" && Strip("") == ""
    requires out.state.buffers == map[" t:text" := "a"] && out.state.textArtifactId == Some("t:text")
    ensures var queue := StreamState.Finish(cfg, out, "ab", messageId).queue;
      && |queue| == |out.queue| + 2 && queue[..|out.queue|] == out.queue && queue[|out.queue|].ArtifactUpdate?
      && queue[|out.queue|].artifactId == "t:text" && queue[|out.queue|].part == TextPart("ab", "")
  {
    assert ResolvedTextId(out.state, cfg.base + ":text") == "t:text";
    assert Content(out.state.buffers, "t:text") == "";
  }

  lemma OneDelta(cfg: Config, e: Event)
    requires cfg == Config("", "m", "n", " t", true, true) && Strip("") == "" && Strip(TextId(cfg)) == "t:text"
    requires e == Event(None, false, None, None,
                        Some(Updated("p", Some(TextBlock), None, None, Some("a"), None, None)))
    ensures var out := ConsumeAll(cfg, Begin(), [e]).out;
      && out.state.buffers == map[TextId(cfg) := "a"] && out.state.textArtifactId == Some("t:text")
      && |out.queue| == 1 && out.queue[0].ArtifactUpdate?
      && out.queue[0].artifactId == TextId(cfg) && out.queue[0].part == TextPart("a", "")
  {
    var state := PartState(TextId(cfg), TextBlock, None, None, "", false);
    var grown := state.(buffer := "" + "a", sawDelta := true);
    var chunk := TextChunk(grown, "p", "a");
    assert Upsert(cfg, FRESH_PARTS, "p", TextBlock, None, None) == state;
    assert BufferedChunks(state, "p", []) == (state, []);
    assert HandlePart(cfg, FRESH_PARTS, e.part.value).1 == [chunk];
    var begin, sent := Out(EMPTY_OUTPUT, []), EmitChunk(cfg, Out(EMPTY_OUTPUT, []), chunk);
    assert NextContent(begin.state, TextId(cfg), "a", true, true) == "a"
      && Content(begin.state.buffers, TextId(cfg)) == "";
    assert EmitAll(cfg, begin, [chunk]) == EmitAll(cfg, sent, []) == sent;
    assert Handle(cfg, Begin(), e).out == sent;
    assert ConsumeAll(cfg, Begin(), [e]) == ConsumeAll(cfg, Handle(cfg, Begin(), e), []) == Handle(cfg, Begin(), e);
  }

  lemma {:induction false} ClientWitness(queue: seq<Update>, id: string)
    requires Client(queue, id).Some?
    ensures exists u | u in queue :: u.ArtifactUpdate? && u.artifactId == id
    decreases |queue|
  {
    var last := queue[|queue| - 1];
    if last.ArtifactUpdate? && last.artifactId == id {
      assert last in queue;
    } else {
      ClientWitness(queue[..|queue| - 1], id);
    }
  }

  // ---------------------------------------------------------------- numbering and interrupts

  /** Distinct numbers give distinct event ids, none of which is the status event's. */
  lemma EventIdsDistinct(cfg: Config, m: nat, n: nat)
    ensures m != n ==> EventId(cfg, m) != EventId(cfg, n)
    ensures EventId(cfg, m) != cfg.namespace + ":status"
  {
    ValueOfDecimal(m);
    ValueOfDecimal(n);
    var prefix := cfg.namespace + ":";
    assert EventId(cfg, m)[|prefix|..] == Decimal(m);
    assert EventId(cfg, n)[|prefix|..] == Decimal(n);
    var status := cfg.namespace + ":status";
    assert status[|status| - 1] == 's' && EventId(cfg, m)[|EventId(cfg, m)| - 1] <= '9';
  }

  ghost predicate NumberedRun(cfg: Config, queue: seq<Update>) {
    var n := |queue| - 1;
    && n >= 0 && queue[n].CompletedUpdate? && queue[n].eventId == cfg.namespace + ":status"
    && (forall i | 0 <= i < n :: !queue[i].CompletedUpdate? && queue[i].stamp.sequence == i + 1)
    && (forall i, j | 0 <= i < j < n :: queue[i].stamp.eventId != queue[j].stamp.eventId)
    && (forall i | 0 <= i < n :: queue[i].stamp.eventId != queue[n].eventId)
  }

  lemma FinishNumbered(cfg: Config, out: Out, text: string, messageId: Option<string>)
    requires Numbered(cfg, out)
    ensures NumberedRun(cfg, StreamState.Finish(cfg, out, text, messageId).queue)
  {
    var queue := StreamState.Finish(cfg, out, text, messageId).queue;
    forall i | 0 <= i < |queue| - 1
      ensures !queue[i].CompletedUpdate? && queue[i].stamp.sequence == i + 1
      ensures queue[i].stamp.eventId == EventId(cfg, i + 1)
    {
      assert i < |out.queue| ==> queue[i] == out.queue[i];
    }
    forall i, j | 0 <= i < j < |queue| - 1
      ensures queue[i].stamp.eventId != queue[j].stamp.eventId
    {
      EventIdsDistinct(cfg, i + 1, j + 1);
    }
    forall i | 0 <= i < |queue| - 1
      ensures queue[i].stamp.eventId != cfg.namespace + ":status"
    {
      EventIdsDistinct(cfg, i + 1, i + 1);
    }
  }

  /** Over any run, the enqueued stream events are numbered 1, 2, 3, ... with pairwise
      distinct event ids, also distinct from the closing status event's. */
  lemma EventsNumbered(cfg: Config, events: seq<Event>, text: string, messageId: Option<string>)
    ensures NumberedRun(cfg, Complete(cfg, events, text, messageId).queue)
  {
    ReachableOk(cfg, events);
    FinishNumbered(cfg, ConsumeAll(cfg, Begin(), events).out, text, messageId);
  }

  ghost predicate AlternatingPhases(out: Out, id: string) {
    var phases := Phases(out.queue, id);
    && (forall i | 0 <= i < |phases| :: phases[i] == (i % 2 == 0))
    && (id in out.state.pendingInterrupts <==> phases != [] && phases[|phases| - 1])
  }

  lemma AlternatesFrom(out: Out, id: string)
    requires InterruptsOk(out)
    ensures AlternatingPhases(out, id)
  {
    assert InterruptOk(out, id);
    var phases := Phases(out.queue, id);
    if phases != [] {
      assert phases[|phases| - 1] == ((|phases| - 1) % 2 == 0);
    }
  }

  /** Per request id, the sent interrupt statuses alternate asked, resolved, asked, ..., and
      the pending set holds exactly the ids whose last status is asked. */
  lemma InterruptsAlternate(cfg: Config, events: seq<Event>, id: string)
    ensures AlternatingPhases(ConsumeAll(cfg, Begin(), events).out, id)
  {
    ReachableOk(cfg, events);
    AlternatesFrom(ConsumeAll(cfg, Begin(), events).out, id);
  }
}
