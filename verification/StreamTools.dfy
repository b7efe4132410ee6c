/** Runs of part events, and tool artifacts: the client's last part is that of the last chunk. */
module StreamTools {
  import opened Prelude
  import opened Text
  import opened StreamState
  import opened StreamRuntime
  import opened StreamTheorems
  import opened StreamParts

  /** The part events that a run looks at: those up to the terminal event. */
  function Seen(events: seq<Event>): seq<PartEvent>
    decreases |events|
  {
    if events == [] then [] else
      (if events[0].part.Some? then [events[0].part.value] else [])
      + (if events[0].terminal then [] else Seen(events[1..]))
  }

  lemma RunPartsCons(cfg: Config, parts: Parts, e: PartEvent, rest: seq<PartEvent>)
    ensures var (next, chunks) := HandlePart(cfg, parts, e);
      var (last, more) := RunParts(cfg, next, rest);
      RunParts(cfg, parts, [e] + rest) == (last, chunks + more)
  {
    assert ([e] + rest)[1..] == rest;
  }

  /** A run's part states are those of its part events alone. */
  lemma {:induction false} ConsumeParts(cfg: Config, s: Stream, events: seq<Event>)
    requires !s.stopped
    ensures ConsumeAll(cfg, s, events).parts == RunParts(cfg, s.parts, Seen(events)).0
    decreases |events|
  {
    if events != [] {
      var e := events[0];
      var next := Handle(cfg, s, e);
      if !e.terminal {
        ConsumeParts(cfg, next, events[1..]);
      }
      var rest := if e.terminal then [] else Seen(events[1..]);
      if e.part.Some? {
        RunPartsCons(cfg, s.parts, e.part.value, rest);
      } else {
        assert [] + rest == rest;
      }
    }
  }

  // ---------------------------------------------------------------- tool artifacts

  function LastKey(chunks: seq<Chunk>, id: string, default: string): string {
    if chunks == [] then default
    else LastKey(chunks[1..], id, if chunks[0].artifactId == id then chunks[0].contentKey else default)
  }

  ghost predicate NoTextIn(chunks: seq<Chunk>, id: string) {
    forall c | c in chunks && c.artifactId == id :: !c.accumulate
  }

  ghost predicate EndsWith(cfg: Config, received: Option<seq<Part>>, key: string) {
    match received
    case None => key == ""
    case Some(parts) => key != "" && parts != [] && parts[|parts| - 1] == PartOfKey(cfg, key)
  }

  ghost predicate ToolOk(cfg: Config, out: Out, id: string) {
    EndsWith(cfg, Client(out.queue, id), Content(out.state.buffers, id))
  }

  lemma EmitChunkTool(cfg: Config, out: Out, c: Chunk, id: string)
    requires OutOk(cfg, out) && ToolOk(cfg, out, id) && ChunkOk(cfg, c)
    requires c.artifactId == id ==> !c.accumulate
    ensures ToolOk(cfg, EmitChunk(cfg, out, c), id)
    ensures Content(EmitChunk(cfg, out, c).state.buffers, id)
         == if c.artifactId == id then c.contentKey else Content(out.state.buffers, id)
  {
    var after := EmitChunk(cfg, out, c);
    if after != out {
      ClientStep(out.queue, after.queue[|out.queue|], id);
      assert Mirrors(out, id);
    }
  }

  lemma {:induction false} EmitAllTool(cfg: Config, out: Out, chunks: seq<Chunk>, id: string)
    requires OutOk(cfg, out) && ToolOk(cfg, out, id) && NoTextIn(chunks, id)
    requires forall c | c in chunks :: ChunkOk(cfg, c)
    ensures ToolOk(cfg, EmitAll(cfg, out, chunks), id)
    ensures Content(EmitAll(cfg, out, chunks).state.buffers, id) == LastKey(chunks, id, Content(out.state.buffers, id))
    decreases |chunks|
  {
    if chunks != [] {
      assert chunks[0] in chunks;
      EmitChunkOk(cfg, out, chunks[0]);
      EmitChunkTool(cfg, out, chunks[0], id);
      EmitAllTool(cfg, EmitChunk(cfg, out, chunks[0]), chunks[1..], id);
    }
  }

  lemma {:induction false} LastKeyAppend(a: seq<Chunk>, b: seq<Chunk>, id: string, default: string)
    ensures LastKey(a + b, id, default) == LastKey(b, id, LastKey(a, id, default))
  {
    if a == [] {
      assert a + b == b;
    } else {
      assert (a + b)[1..] == a[1..] + b;
      LastKeyAppend(a[1..], b, id, if a[0].artifactId == id then a[0].contentKey else default);
    }
  }

  lemma ReportKeepsArtifact(cfg: Config, out: Out, identity: string, key: string, messageId: Option<string>, id: string)
    ensures var after := Report(cfg, out, identity, key, messageId);
      Client(after.queue, id) == Client(out.queue, id) && after.state.buffers == out.state.buffers
  {
    var after := Report(cfg, out, identity, key, messageId);
    if after.queue != out.queue {
      ClientStep(out.queue, after.queue[|out.queue|], id);
    }
  }

  lemma AskKeepsArtifact(cfg: Config, out: Out, requestId: string, id: string)
    ensures var after := Ask(cfg, out, requestId);
      Client(after.queue, id) == Client(out.queue, id) && after.state.buffers == out.state.buffers
  {
    var after := Ask(cfg, out, requestId);
    if after != out {
      ClientStep(out.queue, after.queue[|out.queue|], id);
    }
  }

  lemma ResolveKeepsArtifact(cfg: Config, out: Out, requestId: string, id: string)
    ensures var after := Resolve(cfg, out, requestId);
      Client(after.queue, id) == Client(out.queue, id) && after.state.buffers == out.state.buffers
  {
    var after := Resolve(cfg, out, requestId);
    if after != out {
      ClientStep(out.queue, after.queue[|out.queue|], id);
    }
  }

  /** Status updates leave every artifact alone. */
  lemma StatusKeepsArtifact(cfg: Config, out: Out, e: Event, id: string)
    ensures Client(HandleStatus(cfg, out, e).queue, id) == Client(out.queue, id)
    ensures HandleStatus(cfg, out, e).state.buffers == out.state.buffers
  {
    var reported := out;
    if e.progress.Some? {
      var (identity, key, messageId) := e.progress.value;
      ReportKeepsArtifact(cfg, out, identity, key, messageId, id);
      reported := Report(cfg, out, identity, key, messageId);
    }
    var asked := reported;
    if e.asked.Some? {
      AskKeepsArtifact(cfg, reported, e.asked.value, id);
      asked := Ask(cfg, reported, e.asked.value);
    }
    if e.resolved.Some? {
      ResolveKeepsArtifact(cfg, asked, e.resolved.value, id);
    }
  }

  lemma HandleTool(cfg: Config, s: Stream, e: Event, id: string)
    requires StreamOk(cfg, s) && ToolOk(cfg, s.out, id)
    requires e.part.Some? ==> NoTextIn(HandlePart(cfg, s.parts, e.part.value).1, id)
    ensures var t := Handle(cfg, s, e);
      && ToolOk(cfg, t.out, id)
      && Content(t.out.state.buffers, id)
         == if e.part.None? then Content(s.out.state.buffers, id)
            else LastKey(HandlePart(cfg, s.parts, e.part.value).1, id, Content(s.out.state.buffers, id))
  {
    StatusKeepsArtifact(cfg, s.out, e, id);
    HandleStatusOk(cfg, s.out, e);
    if e.part.Some? {
      PartOk(cfg, s.parts, e.part.value);
      EmitAllTool(cfg, HandleStatus(cfg, s.out, e), HandlePart(cfg, s.parts, e.part.value).1, id);
    }
  }

  lemma {:induction false} ConsumeTool(cfg: Config, s: Stream, events: seq<Event>, id: string)
    requires StreamOk(cfg, s) && ToolOk(cfg, s.out, id) && !s.stopped
    requires NoTextIn(RunParts(cfg, s.parts, Seen(events)).1, id)
    ensures var out := ConsumeAll(cfg, s, events).out;
      && ToolOk(cfg, out, id)
      && Content(out.state.buffers, id)
         == LastKey(RunParts(cfg, s.parts, Seen(events)).1, id, Content(s.out.state.buffers, id))
    decreases |events|
  {
    if events != [] {
      var e := events[0];
      var next := Handle(cfg, s, e);
      var rest := if e.terminal then [] else Seen(events[1..]);
      var now: seq<Chunk> := if e.part.Some? then HandlePart(cfg, s.parts, e.part.value).1 else [];
      var later := RunParts(cfg, next.parts, rest).1;
      if e.part.Some? {
        RunPartsCons(cfg, s.parts, e.part.value, rest);
      } else {
        assert [] + rest == rest && now + later == later;
      }
      assert RunParts(cfg, s.parts, Seen(events)).1 == now + later;
      assert NoTextIn(now, id) && NoTextIn(later, id);
      HandleTool(cfg, s, e, id);
      HandleOk(cfg, s, e);
      LastKeyAppend(now, later, id, Content(s.out.state.buffers, id));
      if !e.terminal {
        ConsumeTool(cfg, next, events[1..], id);
      }
    }
  }

  /** For any artifact that got no text deltas, the client's last part is the payload of the
      last tool chunk; without one the client does not know the artifact. */
  lemma ToolArtifactEndsWithLastPayload(cfg: Config, events: seq<Event>, id: string)
    requires NoTextIn(RunParts(cfg, FRESH_PARTS, Seen(events)).1, id)
    ensures EndsWith(cfg, Client(ConsumeAll(cfg, Begin(), events).out.queue, id),
                     LastKey(RunParts(cfg, FRESH_PARTS, Seen(events)).1, id, ""))
  {
    BeginOk(cfg);
    ConsumeTool(cfg, Begin(), events, id);
  }
}
