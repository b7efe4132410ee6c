/** The output state of one streaming run, what it sends to the event queue, and how a
    client folds what it receives. */
module StreamState {
  import opened Prelude
  import opened Text

  datatype BlockType = TextBlock | ReasoningBlock | ToolBlock

  datatype Role = Agent | User | System

  /** An artifact part; `attributes` stands for everything beside the content. */
  datatype Part =
    | TextPart(text: string, attributes: string)
    | DataPart(json: string, attributes: string)
    | BlobPart(mediaType: string, attributes: string)
    | OtherPart(attributes: string)

  datatype Chunk = Chunk(
    artifactId: string,
    part: Part,
    contentKey: string,
    accumulate: bool,
    append: bool,
    block: BlockType,
    partId: string,
    messageId: Option<string>,
    role: Option<Role>)

  datatype Stamp = Stamp(messageId: string, eventId: string, sequence: nat)

  datatype Phase = Progress | Asked(requestId: string) | Resolved(requestId: string)

  /** What is put on the event queue. `described` says whether the stream metadata (block
      type and stamp) travels with the artifact; the stamp's number is used up either way. */
  datatype Update =
    | ArtifactUpdate(artifactId: string, part: Part, append: bool, last: bool,
                     block: BlockType, described: bool, stamp: Stamp)
    | StatusUpdate(phase: Phase, stamp: Stamp)
    | CompletedUpdate(messageId: string, eventId: string)

  /** What is fixed for a run. */
  datatype Config = Config(
    userText: string,
    stableMessageId: string,
    namespace: string,
    base: string,
    structured: bool,
    described: bool)

  /** The mutable fields of the output state. */
  datatype Output = Output(
    buffers: map<string, string>,
    emitted: set<string>,
    textArtifactId: Option<string>,
    sawAnyChunk: bool,
    sequence: nat,
    pendingInterrupts: set<string>,
    progress: map<string, string>)

  /** Output state and event queue together. */
  datatype Out = Out(state: Output, queue: seq<Update>)

  const EMPTY_OUTPUT := Output(map[], {}, None, false, 0, {}, map[])

  // ---------------------------------------------------------------- specification functions

  function Content(buffers: map<string, string>, artifactId: string): string {
    Lookup(buffers, artifactId).GetOr("")
  }

  function ResolveMessageId(cfg: Config, messageId: Option<string>): string {
    if messageId.Some? && Strip(messageId.value) != "" then Strip(messageId.value) else cfg.stableMessageId
  }

  function EventId(cfg: Config, sequence: nat): string {
    cfg.namespace + ":" + Decimal(sequence)
  }

  /** Only a run's first text chunk, of unknown role, can be a dropped user echo. */
  predicate IsUserEcho(cfg: Config, o: Output, text: string, block: BlockType, role: Option<Role>) {
    role.None? && block == TextBlock && !o.sawAnyChunk && Strip(cfg.userText) != ""
      && Strip(text) == Strip(cfg.userText)
  }

  function NextContent(o: Output, artifactId: string, contentKey: string, append: bool, accumulate: bool): string {
    if append && accumulate then Content(o.buffers, artifactId) + contentKey else contentKey
  }

  function Registered(o: Output, artifactId: string, next: string): Output {
    o.(buffers := o.buffers[artifactId := next], sawAnyChunk := true, emitted := o.emitted + {artifactId})
  }

  function Remembered(o: Output, artifactId: string): Output {
    if Strip(artifactId) != "" then o.(textArtifactId := Some(Strip(artifactId))) else o
  }

  function ResolvedTextId(o: Output, default: string): string {
    if o.textArtifactId.Some? && Strip(o.textArtifactId.value) != "" then Strip(o.textArtifactId.value) else default
  }

  predicate NeedsFinalSnapshot(o: Output, artifactId: string, text: string) {
    Strip(text) != "" && Strip(Content(o.buffers, artifactId)) != Strip(text)
  }

  /** The text that the echo test looks at. */
  function ChunkText(c: Chunk): string {
    if c.part.TextPart? then c.part.text else ""
  }

  /** One chunk: dropped as an echo, ignored as a repetition, or sent. */
  function EmitChunk(cfg: Config, out: Out, c: Chunk): Out {
    var o := out.state;
    var next := NextContent(o, c.artifactId, c.contentKey, c.append, c.accumulate);
    if IsUserEcho(cfg, o, ChunkText(c), c.block, c.role) then out
    else if next == Content(o.buffers, c.artifactId) then out
    else
      var registered := Registered(o, c.artifactId, next);
      var known := if c.block == TextBlock then Remembered(registered, c.artifactId) else registered;
      var sequence := o.sequence + 1;
      Out(known.(sequence := sequence), out.queue + [
        ArtifactUpdate(c.artifactId, c.part, c.artifactId in o.emitted, false, c.block, cfg.described,
                       Stamp(ResolveMessageId(cfg, c.messageId), EventId(cfg, sequence), sequence))])
  }

  function EmitAll(cfg: Config, out: Out, chunks: seq<Chunk>): Out
    decreases |chunks|
  {
    if chunks == [] then out else EmitAll(cfg, EmitChunk(cfg, out, chunks[0]), chunks[1..])
  }

  function EmitStatus(cfg: Config, out: Out, phase: Phase, messageId: Option<string>): Out {
    var sequence := out.state.sequence + 1;
    Out(out.state.(sequence := sequence),
        out.queue + [StatusUpdate(phase, Stamp(ResolveMessageId(cfg, messageId), EventId(cfg, sequence), sequence))])
  }

  function Ask(cfg: Config, out: Out, requestId: string): Out {
    var id := Strip(requestId);
    if id == "" || id in out.state.pendingInterrupts then out
    else EmitStatus(cfg, out.(state := out.state.(pendingInterrupts := out.state.pendingInterrupts + {id})),
                    Asked(requestId), None)
  }

  function Resolve(cfg: Config, out: Out, requestId: string): Out {
    var id := Strip(requestId);
    if id == "" || id !in out.state.pendingInterrupts then out
    else EmitStatus(cfg, out.(state := out.state.(pendingInterrupts := out.state.pendingInterrupts - {id})),
                    Resolved(requestId), None)
  }

  function Report(cfg: Config, out: Out, identity: string, key: string, messageId: Option<string>): Out {
    if Lookup(out.state.progress, identity) == Some(key) then out else
      var noted := out.(state := out.state.(progress := out.state.progress[identity := key]));
      if cfg.described then EmitStatus(cfg, noted, Progress, messageId) else noted
  }

  /** The end of a completed run: a correcting snapshot if one is needed, then the status. */
  function Finish(cfg: Config, out: Out, text: string, messageId: Option<string>): Out {
    var artifactId := ResolvedTextId(out.state, cfg.base + ":text");
    var resolved := ResolveMessageId(cfg, messageId);
    var snapped :=
      if !NeedsFinalSnapshot(out.state, artifactId, text) then out else
        var sequence := out.state.sequence + 1;
        Out(out.state.(buffers := out.state.buffers[artifactId := text], sawAnyChunk := true, sequence := sequence),
            out.queue + [ArtifactUpdate(artifactId, TextPart(text, ""), false, true, TextBlock, cfg.described,
                                        Stamp(resolved, EventId(cfg, sequence), sequence))]);
    snapped.(queue := snapped.queue + [CompletedUpdate(resolved, cfg.namespace + ":status")])
  }

  // ---------------------------------------------------------------- the mutable state

  class EventQueue {
    var items: seq<Update>

    constructor ()
      ensures items == []
    {
      items := [];
    }

    method Enqueue(update: Update)
      modifies this
      ensures items == old(items) + [update]
    {
      items := items + [update];
    }
  }

  class StreamOutputState {
    const cfg: Config
    var buffers: map<string, string>
    var emitted: set<string>
    var textArtifactId: Option<string>
    var sawAnyChunk: bool
    var sequence: nat
    var pendingInterrupts: set<string>
    var progress: map<string, string>

    constructor (cfg: Config)
      ensures this.cfg == cfg && View() == EMPTY_OUTPUT
    {
      this.cfg := cfg;
      buffers, emitted, textArtifactId := map[], {}, None;
      sawAnyChunk, sequence, pendingInterrupts, progress := false, 0, {}, map[];
    }

    function View(): Output
      reads this
    {
      Output(buffers, emitted, textArtifactId, sawAnyChunk, sequence, pendingInterrupts, progress)
    }

    method RegisterChunk(artifactId: string, contentKey: string, append: bool, accumulate: bool)
      returns (emit: bool, effectiveAppend: bool)
      modifies this
      ensures var next := NextContent(old(View()), artifactId, contentKey, append, accumulate);
        && emit == (next != Content(old(buffers), artifactId))
        && View() == (if emit then Registered(old(View()), artifactId, next) else old(View()))
      ensures emit ==> effectiveAppend == (artifactId in old(emitted))
    {
      var previous := if artifactId in buffers then buffers[artifactId] else "";
      var next := if append && accumulate then previous + contentKey else contentKey;
      if next == previous {
        return false, false;
      }
      buffers := buffers[artifactId := next];
      sawAnyChunk := true;
      effectiveAppend := artifactId in emitted;
      emitted := emitted + {artifactId};
      emit := true;
    }

    method RegisterProgress(identity: string, key: string) returns (fresh_: bool)
      modifies this`progress
      ensures fresh_ == (Lookup(old(progress), identity) != Some(key))
      ensures progress == if fresh_ then old(progress)[identity := key] else old(progress)
    {
      if identity in progress && progress[identity] == key {
        return false;
      }
      progress := progress[identity := key];
      fresh_ := true;
    }

    method RememberTextArtifactId(artifactId: string)
      modifies this`textArtifactId
      ensures View() == Remembered(old(View()), artifactId)
    {
      var normalized := Strip(artifactId);
      if normalized != "" {
        textArtifactId := Some(normalized);
      }
    }

    method ShouldEmitFinalSnapshot(artifactId: string, text: string) returns (emit: bool)
      modifies this`buffers, this`sawAnyChunk
      ensures emit == NeedsFinalSnapshot(old(View()), artifactId, text)
      ensures buffers == if emit then old(buffers)[artifactId := text] else old(buffers)
      ensures sawAnyChunk == (old(sawAnyChunk) || emit)
    {
      if Strip(text) == "" {
        return false;
      }
      var existing := if artifactId in buffers then buffers[artifactId] else "";
      if Strip(existing) == Strip(text) {
        return false;
      }
      buffers := buffers[artifactId := text];
      sawAnyChunk := true;
      emit := true;
    }

    method NextSequence() returns (n: nat)
      modifies this`sequence
      ensures n == sequence == old(sequence) + 1
    {
      sequence := sequence + 1;
      n := sequence;
    }

    method MarkInterruptPending(requestId: string) returns (marked: bool)
      modifies this`pendingInterrupts
      ensures marked == (Strip(requestId) != "" && Strip(requestId) !in old(pendingInterrupts))
      ensures pendingInterrupts == old(pendingInterrupts) + if marked then {Strip(requestId)} else {}
    {
      var normalized := Strip(requestId);
      if normalized == "" || normalized in pendingInterrupts {
        return false;
      }
      pendingInterrupts := pendingInterrupts + {normalized};
      marked := true;
    }

    method ClearInterruptPending(requestId: string) returns (cleared: bool)
      modifies this`pendingInterrupts
      ensures cleared == (Strip(requestId) != "" && Strip(requestId) in old(pendingInterrupts))
      ensures pendingInterrupts == old(pendingInterrupts) - if cleared then {Strip(requestId)} else {}
    {
      var normalized := Strip(requestId);
      if normalized == "" || normalized !in pendingInterrupts {
        return false;
      }
      pendingInterrupts := pendingInterrupts - {normalized};
      cleared := true;
    }
  }

  // ---------------------------------------------------------------- the client

  /** A client's copy of one artifact after one update: append=true extends the parts of a
      known artifact, append=false replaces them (A2A 1.0, section 4.2.2). */
  function ClientApply(parts: Option<seq<Part>>, update: Update, artifactId: string): Option<seq<Part>> {
    if !update.ArtifactUpdate? || update.artifactId != artifactId then parts
    else if !update.append then Some([update.part])
    else if parts.Some? then Some(parts.value + [update.part])
    else None
  }

  function Client(queue: seq<Update>, artifactId: string): Option<seq<Part>>
    decreases |queue|
  {
    if queue == [] then None
    else ClientApply(Client(queue[..|queue| - 1], artifactId), queue[|queue| - 1], artifactId)
  }

  predicate AllText(parts: seq<Part>) {
    forall i | 0 <= i < |parts| :: parts[i].TextPart?
  }

  function Join(parts: seq<Part>): string {
    if parts == [] then ""
    else Join(parts[..|parts| - 1]) + (if parts[|parts| - 1].TextPart? then parts[|parts| - 1].text else "")
  }

  lemma ClientStep(queue: seq<Update>, update: Update, artifactId: string)
    ensures Client(queue + [update], artifactId) == ClientApply(Client(queue, artifactId), update, artifactId)
  {
    assert (queue + [update])[..|queue|] == queue;
  }

  lemma JoinStep(parts: seq<Part>, part: Part)
    ensures Join(parts + [part]) == Join(parts) + (if part.TextPart? then part.text else "")
  {
    assert (parts + [part])[..|parts|] == parts;
  }

  lemma {:induction false} JoinAppend(a: seq<Part>, b: seq<Part>)
    ensures Join(a + b) == Join(a) + Join(b)
  {
    if b == [] {
      assert a + b == a;
    } else {
      var last := b[|b| - 1];
      assert a + b == (a + b[..|b| - 1]) + [last];
      JoinStep(a + b[..|b| - 1], last);
      JoinAppend(a, b[..|b| - 1]);
      Associate(Join(a), Join(b[..|b| - 1]), if last.TextPart? then last.text else "");
    }
  }
}
