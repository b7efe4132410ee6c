/** Compaction of stored stream artifacts, and how it meets streaming. */
module OutputModes {
  import opened Prelude
  import opened Text
  import opened StreamState
  import opened StreamRuntime
  import opened StreamTheorems

  /** A stored artifact with the block type found in its stream metadata, if any. */
  datatype Artifact = Artifact(block: Option<string>, parts: seq<Part>)

  predicate IsProseBlock(a: Artifact) {
    a.block == Some("text") || a.block == Some("reasoning")
  }

  predicate IsToolArtifact(a: Artifact) {
    a.block == Some("tool_call")
  }

  /** The compact form of one artifact. */
  function Canonical(a: Artifact): Artifact {
    if a.parts == [] then a
    else if IsProseBlock(a) && AllText(a.parts) then a.(parts := [TextPart(Join(a.parts), a.parts[0].attributes)])
    else if IsToolArtifact(a) && |a.parts| > 1 then a.(parts := [a.parts[|a.parts| - 1]])
    else a
  }

  /** The store compacts every artifact of a task in its own copy. */
  method CanonicalizeStreamArtifacts(task: seq<Artifact>) returns (updated: seq<Artifact>)
    ensures |updated| == |task|
    ensures forall i | 0 <= i < |task| :: updated[i] == Canonical(task[i])
  {
    updated := task;
    var i := 0;
    while i < |updated|
      invariant 0 <= i <= |updated| == |task|
      invariant forall j | 0 <= j < i :: updated[j] == Canonical(task[j])
      invariant forall j | i <= j < |task| :: updated[j] == task[j]
    {
      var artifact := updated[i];
      if artifact.parts != [] {
        if IsProseBlock(artifact) && AllText(artifact.parts) {
          var text := JoinTexts(artifact.parts);
          updated := updated[i := artifact.(parts := [artifact.parts[0].(text := text)])];
        } else if IsToolArtifact(artifact) && |artifact.parts| > 1 {
          updated := updated[i := artifact.(parts := [artifact.parts[|artifact.parts| - 1]])];
        }
      }
      i := i + 1;
    }
  }

  method JoinTexts(parts: seq<Part>) returns (text: string)
    requires AllText(parts)
    ensures text == Join(parts)
  {
    text := "";
    var i := 0;
    while i < |parts|
      invariant 0 <= i <= |parts| && text == Join(parts[..i])
    {
      assert parts[..i + 1] == parts[..i] + [parts[i]];
      JoinStep(parts[..i], parts[i]);
      text := text + parts[i].text;
      i := i + 1;
    }
    assert parts[..i] == parts;
  }

  lemma CanonicalIdempotent(a: Artifact)
    ensures Canonical(Canonical(a)) == Canonical(a)
  {
    if a.parts != [] && IsProseBlock(a) && AllText(a.parts) {
      JoinOne(Canonical(a).parts[0]);
    }
  }

  lemma JoinOne(part: Part)
    requires part.TextPart?
    ensures Join([part]) == part.text
  {
    JoinStep([], part);
    assert [] + [part] == [part];
  }

  function Extend(a: Artifact, parts: seq<Part>): Artifact {
    a.(parts := a.parts + parts)
  }

  /** Compacting before an append gives the same as compacting after it alone, exactly when
      the artifact is a tool's, is compact already, or is extended by text only. */
  lemma CanonicalCommutes(a: Artifact, parts: seq<Part>)
    ensures Canonical(Extend(Canonical(a), parts)) == Canonical(Extend(a, parts))
      <==> IsToolArtifact(a) || Canonical(a) == a || AllText(parts)
  {
    if a.parts != [] && IsProseBlock(a) && AllText(a.parts) {
      CanonicalCommutesProse(a, parts);
    } else if IsToolArtifact(a) && |a.parts| > 1 {
      var last := a.parts[|a.parts| - 1];
      assert Extend(Canonical(a), parts).parts[|parts|] == Extend(a, parts).parts[|a.parts| - 1 + |parts|];
    }
  }

  lemma CanonicalCommutesProse(a: Artifact, parts: seq<Part>)
    requires a.parts != [] && IsProseBlock(a) && AllText(a.parts)
    ensures Canonical(Extend(Canonical(a), parts)) == Canonical(Extend(a, parts))
      <==> Canonical(a) == a || AllText(parts)
  {
    var compact := Canonical(a).parts;
    JoinOne(compact[0]);
    JoinAppend(compact, parts);
    JoinAppend(a.parts, parts);
    if AllText(parts) {
      assert (compact + parts)[0] == compact[0] && (a.parts + parts)[0] == a.parts[0];
      assert AllText(compact + parts) && AllText(a.parts + parts);
    } else {
      var i :| 0 <= i < |parts| && !parts[i].TextPart?;
      assert !(compact + parts)[1 + i].TextPart? && !(a.parts + parts)[|a.parts| + i].TextPart?;
      assert Canonical(Extend(a, parts)) == Extend(a, parts);
      assert Canonical(Extend(Canonical(a), parts)) == Extend(Canonical(a), parts);
      if |compact + parts| == |a.parts + parts| {
        assert compact == (compact + parts)[..1] && a.parts == (a.parts + parts)[..1];
      }
    }
  }

  // ---------------------------------------------------------------- a stored stream

  function BlockName(block: BlockType): string {
    match block
    case TextBlock => "text"
    case ReasoningBlock => "reasoning"
    case ToolBlock => "tool_call"
  }

  /** The stored artifact after one update: replaced, or extended with its block type kept. */
  function StoreApply(stored: Option<Artifact>, u: Update, id: string): Option<Artifact> {
    if !u.ArtifactUpdate? || u.artifactId != id then stored
    else if !u.append then Some(Artifact(if u.described then Some(BlockName(u.block)) else None, [u.part]))
    else if stored.Some? then Some(Extend(stored.value, [u.part]))
    else None
  }

  function CanonicalStored(stored: Option<Artifact>): Option<Artifact> {
    if stored.Some? then Some(Canonical(stored.value)) else None
  }

  /** Never compacted. */
  function Raw(queue: seq<Update>, id: string): Option<Artifact> {
    if queue == [] then None
    else StoreApply(Raw(queue[..|queue| - 1], id), queue[|queue| - 1], id)
  }

  /** Compacted at every save, one save per update. */
  function Saved(queue: seq<Update>, id: string): Option<Artifact> {
    if queue == [] then None
    else CanonicalStored(StoreApply(Saved(queue[..|queue| - 1], id), queue[|queue| - 1], id))
  }

  /** An artifact whose updates are all of one kind: tool updates, or text without exception. */
  ghost predicate Homogeneous(queue: seq<Update>, id: string) {
    || (forall u | u in queue && u.ArtifactUpdate? && u.artifactId == id :: u.block == ToolBlock)
    || (forall u | u in queue && u.ArtifactUpdate? && u.artifactId == id :: u.block != ToolBlock && u.part.TextPart?)
  }

  ghost predicate StoredOk(stored: Option<Artifact>, queue: seq<Update>, id: string) {
    stored.Some? ==>
      || (stored.value.block == None)
      || (IsToolArtifact(stored.value)
          && exists u | u in queue :: u.ArtifactUpdate? && u.artifactId == id && u.block == ToolBlock)
      || (IsProseBlock(stored.value)
          && exists u | u in queue :: u.ArtifactUpdate? && u.artifactId == id && u.block != ToolBlock)
  }

  lemma {:induction false} RawKind(queue: seq<Update>, id: string)
    ensures StoredOk(Raw(queue, id), queue, id)
    ensures Saved(queue, id).Some? <==> Raw(queue, id).Some?
    ensures Raw(queue, id).Some? ==> Saved(queue, id).value.block == Raw(queue, id).value.block
    decreases |queue|
  {
    if queue != [] {
      var init, last := queue[..|queue| - 1], queue[|queue| - 1];
      RawKind(init, id);
      assert last in queue;
      assert forall u | u in init :: u in queue;
    }
  }

  /** Compaction commutes with streaming: compacting at every save of a homogeneous
      artifact gives what compacting once at the end gives. */
  lemma {:induction false} CompactionCommutes(queue: seq<Update>, id: string)
    requires Homogeneous(queue, id)
    ensures Saved(queue, id) == CanonicalStored(Raw(queue, id))
    decreases |queue|
  {
    if queue != [] {
      var init, last := queue[..|queue| - 1], queue[|queue| - 1];
      assert forall u | u in init :: u in queue;
      assert last in queue;
      CompactionCommutes(init, id);
      RawKind(init, id);
      if Raw(init, id).Some? {
        CompactionStep(Raw(init, id).value, last, id, init, queue);
      }
    }
  }

  lemma CompactionStep(raw: Artifact, u: Update, id: string, init: seq<Update>, queue: seq<Update>)
    requires Homogeneous(queue, id) && u in queue && (forall v | v in init :: v in queue)
    requires StoredOk(Some(raw), init, id)
    ensures CanonicalStored(StoreApply(Some(Canonical(raw)), u, id)) == CanonicalStored(StoreApply(Some(raw), u, id))
  {
    if u.ArtifactUpdate? && u.artifactId == id && u.append {
      CanonicalCommutes(raw, [u.part]);
    } else {
      CanonicalIdempotent(raw);
    }
  }

  // ---------------------------------------------------------------- stored stream artifacts

  /** All updates of one artifact are described, of one text block type, and plain text. */
  ghost predicate PlainProse(queue: seq<Update>, id: string, block: BlockType) {
    && block != ToolBlock
    && forall u | u in queue && u.ArtifactUpdate? && u.artifactId == id ::
         u.described && u.block == block && u.part.TextPart? && u.part.attributes == ""
  }

  lemma {:induction false} RawIsClient(queue: seq<Update>, id: string, block: BlockType)
    requires PlainProse(queue, id, block)
    ensures Raw(queue, id) == match Client(queue, id)
      case None => None
      case Some(parts) => Some(Artifact(Some(BlockName(block)), parts))
    ensures Client(queue, id).Some? ==>
      Client(queue, id).value != [] && forall p | p in Client(queue, id).value :: p.TextPart? && p.attributes == ""
    decreases |queue|
  {
    if queue != [] {
      var init, last := queue[..|queue| - 1], queue[|queue| - 1];
      assert forall u | u in init :: u in queue;
      assert last in queue;
      RawIsClient(init, id, block);
    }
  }

  lemma SavedIsContent(queue: seq<Update>, id: string, block: BlockType, content: string)
    requires PlainProse(queue, id, block) && FoldsTo(queue, id, content) && Client(queue, id).Some?
    ensures Saved(queue, id) == Some(Artifact(Some(BlockName(block)), [TextPart(content, "")]))
  {
    CompactionCommutes(queue, id);
    RawIsClient(queue, id, block);
    assert Client(queue, id).value[0] in Client(queue, id).value;
  }

  /** With stream metadata on, a stored text or reasoning artifact is, at every moment of a
      run, one part equal to its content buffer. */
  lemma StoredIsBuffer(cfg: Config, events: seq<Event>, block: BlockType)
    requires cfg.described && block != ToolBlock
    ensures
      var out := ConsumeAll(cfg, Begin(), events).out;
      var id := ArtifactId(cfg.base, block, "");
      Saved(out.queue, id) ==
        if id in out.state.buffers
        then Some(Artifact(Some(BlockName(block)), [TextPart(out.state.buffers[id], "")]))
        else None
  {
    var out := ConsumeAll(cfg, Begin(), events).out;
    var id := ArtifactId(cfg.base, block, "");
    ReachableOk(cfg, events);
    StoredFrom(cfg, out, block, id);
  }

  lemma StoredFrom(cfg: Config, out: Out, block: BlockType, id: string)
    requires ArtifactsOk(cfg, out) && cfg.described && block != ToolBlock && id == ArtifactId(cfg.base, block, "")
    ensures Saved(out.queue, id) ==
      if id in out.state.buffers
      then Some(Artifact(Some(BlockName(block)), [TextPart(out.state.buffers[id], "")]))
      else None
  {
    assert Mirrors(out, id) && IsProse(cfg, id);
    assert PlainProse(out.queue, id, block);
    if id in out.state.buffers {
      SavedIsContent(out.queue, id, block, out.state.buffers[id]);
    } else {
      RawIsClient(out.queue, id, block);
      RawKind(out.queue, id);
    }
  }

  /** The stored text artifact of a run that completes with a non-blank response is one part
      that equals the response up to outer whitespace. */
  lemma StoredEndsWithResponse(cfg: Config, events: seq<Event>, text: string, messageId: Option<string>)
    requires cfg.described && Strip(text) != ""
    ensures
      var id := ResolvedTextId(ConsumeAll(cfg, Begin(), events).out.state, TextId(cfg));
      var stored := Saved(Complete(cfg, events, text, messageId).queue, id);
      && stored.Some? && stored.value.block == Some("text") && |stored.value.parts| == 1
      && stored.value.parts[0].TextPart? && Strip(stored.value.parts[0].text) == Strip(text)
  {
    var out := ConsumeAll(cfg, Begin(), events).out;
    var id := ResolvedTextId(out.state, TextId(cfg));
    var after := Complete(cfg, events, text, messageId);
    ReachableOk(cfg, events);
    ResolvedShape(cfg, out);
    FinalProse(cfg, out, text, messageId, id);
    FoldIsBufferAfterFinish(cfg, events, text, messageId, id);
    ClientEndsWithResponse(cfg, events, text, messageId);
    SavedIsContent(after.queue, id, TextBlock, Content(after.state.buffers, id));
  }

  lemma FinalProse(cfg: Config, out: Out, text: string, messageId: Option<string>, id: string)
    requires ArtifactsOk(cfg, out) && cfg.described && id == ResolvedTextId(out.state, TextId(cfg))
    ensures PlainProse(StreamState.Finish(cfg, out, text, messageId).queue, id, TextBlock)
  {
    ResolvedShape(cfg, out);
  }
}
