/** What the upstream reported, without chunks and buffers, and that this is what a client gets.
    A part's text is what its deltas append and its snapshots replace; deltas that come before
    the part's type is known count with it, and users' and system parts say nothing. */
module StreamReports {
  import opened Prelude
  import opened Text
  import opened StreamState
  import opened StreamRuntime
  import opened StreamTheorems
  import opened StreamParts
  import opened StreamTools

  // ---------------------------------------------------------------- reports

  /** What is known of a part: early deltas only, or its type, role and whole text. For a tool
      part without deltas the text is its last payload. */
  datatype Report = Unknown(early: seq<string>) | Known(block: BlockType, role: Option<Role>, text: string)

  type Reports = map<string, Report>

  function ReportOf(u: Reports, partId: string): Report {
    if partId in u then u[partId] else Unknown([])
  }

  function Concat(texts: seq<string>): string {
    if texts == [] then "" else texts[0] + Concat(texts[1..])
  }

  function Reported(r: Report): string {
    match r
    case Unknown(early) => Concat(early)
    case Known(_, _, text) => text
  }

  function RoleAfter(r: Report, role: Option<Role>): Option<Role> {
    if role.Some? then role else if r.Known? then r.role else None
  }

  predicate IsText(e: PartEvent)
    requires e.Delta?
  {
    e.field == "text" && e.text != ""
  }

  /** A delta appends, a tool payload or a snapshot replaces. */
  function TextAfter(block: BlockType, text: string, e: PartEvent): string
    requires e.Updated?
  {
    if Given(e.delta) then text + e.delta.value
    else if block == ToolBlock then (if e.tool.Some? then e.tool.value else text)
    else if e.snapshot.Some? then e.snapshot.value
    else text
  }

  function Hear(r: Report, e: PartEvent): Report {
    match e
    case Delta(_, _, text, _) =>
      if !IsText(e) then r
      else (match r
            case Unknown(early) => Unknown(early + [text])
            case Known(block, role, known) => if Silent(role) then r else Known(block, role, known + text))
    case Updated(_, block, role, _, _, _, _) =>
      if block.None? then (if r.Known? then r else Unknown([]))
      else
        var now := RoleAfter(r, role);
        if Silent(now) then Known(block.value, now, if r.Known? then r.text else "")
        else Known(block.value, now, TextAfter(block.value, Reported(r), e))
  }

  /** A piece of what a part says: words, or a tool payload. */
  datatype Said = Words(words: string) | Payload(json: Name)

  function AsWords(texts: seq<string>): seq<Said> {
    if texts == [] then [] else [Words(texts[0])] + AsWords(texts[1..])
  }

  /** What an update adds to the given text: nothing if it rewrites it. */
  function Adds(block: BlockType, text: string, e: PartEvent): seq<Said>
    requires e.Updated?
  {
    if Given(e.delta) then [Words(e.delta.value)]
    else if block == ToolBlock then (if e.tool.Some? && e.tool.value != text then [Payload(e.tool.value)] else [])
    else if e.snapshot.Some? && text < e.snapshot.value then [Words(e.snapshot.value[|text|..])]
    else []
  }

  function Says(r: Report, e: PartEvent): seq<Said> {
    match e
    case Delta(_, _, text, _) => if IsText(e) && r.Known? && !Silent(r.role) then [Words(text)] else []
    case Updated(_, block, role, _, _, _, _) =>
      if block.None? || Silent(RoleAfter(r, role)) then []
      else (if r.Unknown? then AsWords(r.early) else []) + Adds(block.value, Reported(r), e)
  }

  // ---------------------------------------------------------------- what is to be told

  /** The text and the reasoning told so far, and whether anything was told at all. */
  datatype Told = Told(any: bool, text: string, reasoning: string)

  const NOTHING := Told(false, "", "")

  /** Words of unknown role that repeat the prompt before anything was told are not told. */
  predicate RepeatsUser(cfg: Config, t: Told, block: BlockType, role: Option<Role>, s: Said) {
    && !t.any && role.None? && block == TextBlock && s.Words?
    && Strip(cfg.userText) != "" && Strip(s.words) == Strip(cfg.userText)
  }

  function TellOne(cfg: Config, t: Told, block: BlockType, role: Option<Role>, s: Said): Told {
    if RepeatsUser(cfg, t, block, role, s) then t
    else if s.Words? && block == TextBlock then Told(true, t.text + s.words, t.reasoning)
    else if s.Words? && block == ReasoningBlock then Told(true, t.text, t.reasoning + s.words)
    else Told(true, t.text, t.reasoning)
  }

  function TellAll(cfg: Config, t: Told, block: BlockType, role: Option<Role>, said: seq<Said>): Told
    decreases |said|
  {
    if said == [] then t else TellAll(cfg, TellOne(cfg, t, block, role, said[0]), block, role, said[1..])
  }

  function TellEvent(cfg: Config, u: Reports, t: Told, e: PartEvent): (Reports, Told) {
    var r := ReportOf(u, e.partId);
    var after := Hear(r, e);
    (u[e.partId := after],
     if e.partId != "" && after.Known? then TellAll(cfg, t, after.block, after.role, Says(r, e)) else t)
  }

  /** All that a sequence of part events reports, in the order in which it arrives. */
  function Tell(cfg: Config, u: Reports, t: Told, events: seq<PartEvent>): (Reports, Told)
    decreases |events|
  {
    if events == [] then (u, t) else
      var (u', t') := TellEvent(cfg, u, t, events[0]);
      Tell(cfg, u', t', events[1..])
  }

  /** The reports alone. */
  function Final(u: Reports, events: seq<PartEvent>): Reports
    decreases |events|
  {
    if events == [] then u
    else Final(u[events[0].partId := Hear(ReportOf(u, events[0].partId), events[0])], events[1..])
  }

  lemma {:induction false} TellReports(cfg: Config, u: Reports, t: Told, events: seq<PartEvent>)
    ensures Tell(cfg, u, t, events).0 == Final(u, events)
    decreases |events|
  {
    if events != [] {
      TellReports(cfg, TellEvent(cfg, u, t, events[0]).0, TellEvent(cfg, u, t, events[0]).1, events[1..]);
    }
  }

  // ---------------------------------------------------------------- parts

  function Deltas(pending: seq<PendingDelta>): seq<string> {
    if pending == [] then [] else [pending[0].delta] + Deltas(pending[1..])
  }

  /** The runtime's state of a part is its report. */
  ghost predicate Tracks(cfg: Config, parts: Parts, partId: string, r: Report) {
    match r
    case Unknown(early) =>
      && partId !in parts.states && Deltas(Pending(parts, partId)) == early
      && forall d | d in Pending(parts, partId) :: d.delta != ""
    case Known(block, role, text) =>
      && partId in parts.states && partId !in parts.pending
      && var state := parts.states[partId];
         state.block == block && state.role == role && state.buffer == text && StateOk(cfg, state, partId)
  }

  /** The chunk carries the piece, for the right artifact. */
  ghost predicate Carries(cfg: Config, c: Chunk, s: Said, block: BlockType, role: Option<Role>, partId: string) {
    && c.artifactId == ArtifactId(cfg.base, block, partId) && c.block == block && c.role == role && c.partId == partId
    && match s
       case Words(words) =>
         c.accumulate && c.append && c.contentKey == words && words != "" && c.part == TextPart(words, "")
       case Payload(json) =>
         block == ToolBlock && !c.accumulate && c.contentKey == ToolKey(cfg, json) && c.part == ToolPart(cfg, json)
  }

  ghost predicate CarryAll(cfg: Config, chunks: seq<Chunk>, said: seq<Said>, block: BlockType, role: Option<Role>,
                           partId: string)
  {
    |chunks| == |said| && forall i | 0 <= i < |said| :: Carries(cfg, chunks[i], said[i], block, role, partId)
  }

  lemma {:induction false} DeltasAppend(a: seq<PendingDelta>, b: seq<PendingDelta>)
    ensures Deltas(a + b) == Deltas(a) + Deltas(b)
  {
    if a == [] {
      assert a + b == b;
    } else {
      assert (a + b)[1..] == a[1..] + b;
      DeltasAppend(a[1..], b);
    }
  }

  lemma {:induction false} BufferedCarry(cfg: Config, state: PartState, partId: string, pending: seq<PendingDelta>)
    requires StateOk(cfg, state, partId) && forall d | d in pending :: d.delta != ""
    ensures var (next, chunks) := BufferedChunks(state, partId, pending);
      && next.buffer == state.buffer + Concat(Deltas(pending))
      && next.block == state.block && next.role == state.role && StateOk(cfg, next, partId)
      && CarryAll(cfg, chunks, AsWords(Deltas(pending)), state.block, state.role, partId)
    decreases |pending|
  {
    if pending != [] {
      var (first, _) := DeltaChunks(state, partId, pending[0].delta, pending[0].messageId);
      BufferedCarry(cfg, first, partId, pending[1..]);
      Associate(state.buffer, pending[0].delta, Concat(Deltas(pending[1..])));
    }
  }

  lemma OwnCarry(cfg: Config, state: PartState, e: PartEvent)
    requires e.Updated? && StateOk(cfg, state, e.partId)
    ensures var (next, chunks) := OwnChunks(cfg, state, e);
      && next.buffer == TextAfter(state.block, state.buffer, e)
      && next.block == state.block && next.role == state.role && StateOk(cfg, next, e.partId)
      && CarryAll(cfg, chunks, Adds(state.block, state.buffer, e), state.block, state.role, e.partId)
  {
  }

  lemma CarryBoth(cfg: Config, a: seq<Chunk>, b: seq<Chunk>, x: seq<Said>, y: seq<Said>,
                  block: BlockType, role: Option<Role>, partId: string)
    requires CarryAll(cfg, a, x, block, role, partId) && CarryAll(cfg, b, y, block, role, partId)
    ensures CarryAll(cfg, a + b, x + y, block, role, partId)
  {
  }

  lemma UpdatedCarries(cfg: Config, parts: Parts, e: PartEvent, r: Report)
    requires e.Updated? && e.partId != "" && e.block.Some? && Tracks(cfg, parts, e.partId, r)
    requires !Silent(RoleAfter(r, e.role))
    ensures var (next, chunks) := HandleUpdated(cfg, parts, e);
      && Tracks(cfg, next, e.partId, Hear(r, e))
      && CarryAll(cfg, chunks, Says(r, e), Hear(r, e).block, Hear(r, e).role, e.partId)
  {
    var state := Upsert(cfg, parts, e.partId, e.block.value, e.role, e.messageId);
    var pending := Pending(parts, e.partId);
    BufferedCarry(cfg, state, e.partId, pending);
    var (flushed, early) := BufferedChunks(state, e.partId, pending);
    OwnCarry(cfg, flushed, e);
    var (next, own) := OwnChunks(cfg, flushed, e);
    CarryBoth(cfg, early, own, AsWords(Deltas(pending)), Adds(flushed.block, flushed.buffer, e),
              flushed.block, flushed.role, e.partId);
  }

  lemma DeltaCarries(cfg: Config, parts: Parts, e: PartEvent, r: Report)
    requires e.Delta? && e.partId != "" && Tracks(cfg, parts, e.partId, r)
    ensures var (next, chunks) := HandleDelta(parts, e);
      && Tracks(cfg, next, e.partId, Hear(r, e))
      && (if Hear(r, e).Known? then CarryAll(cfg, chunks, Says(r, e), Hear(r, e).block, Hear(r, e).role, e.partId)
          else chunks == [])
  {
    if IsText(e) && r.Unknown? {
      DeltasAppend(Pending(parts, e.partId), [PendingDelta(e.text, e.messageId)]);
    }
  }

  /** An event turns the part's state into its next report, and its chunks carry exactly the
      pieces that it says. */
  lemma EventCarries(cfg: Config, parts: Parts, e: PartEvent, r: Report)
    requires e.partId != "" && Tracks(cfg, parts, e.partId, r)
    ensures var (next, chunks) := HandlePart(cfg, parts, e);
      && Tracks(cfg, next, e.partId, Hear(r, e))
      && (if Hear(r, e).Known? then CarryAll(cfg, chunks, Says(r, e), Hear(r, e).block, Hear(r, e).role, e.partId)
          else chunks == [])
  {
    if e.Delta? {
      DeltaCarries(cfg, parts, e, r);
    } else if e.block.Some? && !Silent(RoleAfter(r, e.role)) {
      UpdatedCarries(cfg, parts, e, r);
    }
  }

  lemma OthersTracked(cfg: Config, parts: Parts, e: PartEvent, partId: string, r: Report)
    requires e.partId != partId && Tracks(cfg, parts, partId, r)
    ensures Tracks(cfg, HandlePart(cfg, parts, e).0, partId, r)
  {
  }

  ghost predicate TracksAll(cfg: Config, parts: Parts, u: Reports) {
    forall partId | partId != "" :: Tracks(cfg, parts, partId, ReportOf(u, partId))
  }

  lemma PartTracked(cfg: Config, parts: Parts, u: Reports, t: Told, e: PartEvent)
    requires TracksAll(cfg, parts, u)
    ensures TracksAll(cfg, HandlePart(cfg, parts, e).0, TellEvent(cfg, u, t, e).0)
  {
    var next, v := HandlePart(cfg, parts, e).0, TellEvent(cfg, u, t, e).0;
    if e.partId != "" {
      EventCarries(cfg, parts, e, ReportOf(u, e.partId));
    }
    forall partId | partId != ""
      ensures Tracks(cfg, next, partId, ReportOf(v, partId))
    {
      if partId != e.partId {
        OthersTracked(cfg, parts, e, partId, ReportOf(u, partId));
        assert ReportOf(v, partId) == ReportOf(u, partId);
      }
    }
  }

  // ---------------------------------------------------------------- artifacts

  /** The content buffers are what was told. */
  ghost predicate Holds(cfg: Config, o: Output, t: Told) {
    && o.sawAnyChunk == t.any
    && Content(o.buffers, TextId(cfg)) == t.text
    && Content(o.buffers, cfg.base + ":reasoning") == t.reasoning
    && (forall id | id in o.buffers && o.buffers[id] != "" :: o.sawAnyChunk)
  }

  /** One chunk adds its piece to the content of its artifact, echoes aside. */
  lemma EmitTells(cfg: Config, out: Out, c: Chunk, s: Said, block: BlockType, role: Option<Role>, partId: string,
                  t: Told)
    requires Holds(cfg, out.state, t) && Carries(cfg, c, s, block, role, partId)
    ensures Holds(cfg, EmitChunk(cfg, out, c).state, TellOne(cfg, t, block, role, s))
  {
    ArtifactIdShape(cfg, block, partId);
    var next := NextContent(out.state, c.artifactId, c.contentKey, c.append, c.accumulate);
    if s.Words? {
      assert |next| > |Content(out.state.buffers, c.artifactId)|;
    } else {
      assert next == ToolKey(cfg, s.json) && next != "";
    }
  }

  lemma {:induction false} EmitAllTells(cfg: Config, out: Out, chunks: seq<Chunk>, said: seq<Said>, block: BlockType,
                                       role: Option<Role>, partId: string, t: Told)
    requires Holds(cfg, out.state, t) && CarryAll(cfg, chunks, said, block, role, partId)
    ensures Holds(cfg, EmitAll(cfg, out, chunks).state, TellAll(cfg, t, block, role, said))
    decreases |chunks|
  {
    if chunks != [] {
      assert Carries(cfg, chunks[0], said[0], block, role, partId);
      EmitTells(cfg, out, chunks[0], said[0], block, role, partId, t);
      forall i | 0 <= i < |said| - 1
        ensures Carries(cfg, chunks[1..][i], said[1..][i], block, role, partId)
      {
        assert Carries(cfg, chunks[i + 1], said[i + 1], block, role, partId);
      }
      EmitAllTells(cfg, EmitChunk(cfg, out, chunks[0]), chunks[1..], said[1..], block, role, partId,
                   TellOne(cfg, t, block, role, said[0]));
    }
  }

  lemma StatusHolds(cfg: Config, out: Out, e: Event, t: Told)
    requires Holds(cfg, out.state, t)
    ensures Holds(cfg, HandleStatus(cfg, out, e).state, t)
  {
    StatusKeepsArtifact(cfg, out, e, "");
    assert HandleStatus(cfg, out, e).state.sawAnyChunk == out.state.sawAnyChunk;
  }

  lemma PartTells(cfg: Config, parts: Parts, out: Out, e: PartEvent, u: Reports, t: Told)
    requires TracksAll(cfg, parts, u) && Holds(cfg, out.state, t)
    ensures Holds(cfg, EmitAll(cfg, out, HandlePart(cfg, parts, e).1).state, TellEvent(cfg, u, t, e).1)
  {
    if e.partId != "" {
      var r := ReportOf(u, e.partId);
      EventCarries(cfg, parts, e, r);
      var after := Hear(r, e);
      if after.Known? {
        EmitAllTells(cfg, out, HandlePart(cfg, parts, e).1, Says(r, e), after.block, after.role, e.partId, t);
      }
    }
  }

  lemma {:induction false} ConsumeTells(cfg: Config, s: Stream, events: seq<Event>, u: Reports, t: Told)
    requires !s.stopped && TracksAll(cfg, s.parts, u) && Holds(cfg, s.out.state, t)
    ensures var v := ConsumeAll(cfg, s, events);
      var (u', t') := Tell(cfg, u, t, Seen(events));
      TracksAll(cfg, v.parts, u') && Holds(cfg, v.out.state, t')
    decreases |events|
  {
    if events != [] {
      var e := events[0];
      var next := Handle(cfg, s, e);
      var rest := if e.terminal then [] else Seen(events[1..]);
      StatusHolds(cfg, s.out, e, t);
      var u1, t1 := u, t;
      if e.part.Some? {
        PartTracked(cfg, s.parts, u, t, e.part.value);
        PartTells(cfg, s.parts, HandleStatus(cfg, s.out, e), e.part.value, u, t);
        u1, t1 := TellEvent(cfg, u, t, e.part.value).0, TellEvent(cfg, u, t, e.part.value).1;
        assert Seen(events)[0] == e.part.value && Seen(events)[1..] == rest;
      } else {
        assert Seen(events) == rest;
      }
      assert Tell(cfg, u, t, Seen(events)) == Tell(cfg, u1, t1, rest);
      if !e.terminal {
        ConsumeTells(cfg, next, events[1..], u1, t1);
      }
    }
  }

  lemma NothingTold(cfg: Config)
    ensures TracksAll(cfg, FRESH_PARTS, map[]) && Holds(cfg, EMPTY_OUTPUT, NOTHING)
  {
    forall partId | partId != ""
      ensures Tracks(cfg, FRESH_PARTS, partId, ReportOf(map[], partId))
    {
      assert Pending(FRESH_PARTS, partId) == [];
    }
  }

  function TextOf(r: Report): string {
    if r.Known? then r.text else ""
  }

  /** Over any run, the runtime's buffer of every part is the text that was reported of it. */
  lemma BufferIsReported(cfg: Config, events: seq<Event>, partId: string)
    requires partId != ""
    ensures Buffer(ConsumeAll(cfg, Begin(), events).parts, partId)
      == TextOf(ReportOf(Final(map[], Seen(events)), partId))
  {
    NothingTold(cfg);
    ConsumeTells(cfg, Begin(), events, map[], NOTHING);
    TellReports(cfg, map[], NOTHING, Seen(events));
  }

  /** For every event sequence, the client's fold of the text and of the reasoning artifact is
      what was reported, piece by piece in the order of arrival, prompt repetitions aside. */
  lemma ClientGetsWhatWasReported(cfg: Config, events: seq<Event>)
    ensures var out := ConsumeAll(cfg, Begin(), events).out;
      var told := Tell(cfg, map[], NOTHING, Seen(events)).1;
      && FoldsTo(out.queue, TextId(cfg), told.text)
      && FoldsTo(out.queue, cfg.base + ":reasoning", told.reasoning)
  {
    NothingTold(cfg);
    ConsumeTells(cfg, Begin(), events, map[], NOTHING);
    ReachableOk(cfg, events);
    assert IsProse(cfg, TextId(cfg)) && IsProse(cfg, cfg.base + ":reasoning");
  }

  // ---------------------------------------------------------------- the pieces of one part

  function WordsOf(said: seq<Said>): string {
    if said == [] then "" else (if said[0].Words? then said[0].words else "") + WordsOf(said[1..])
  }

  /** The words that a part says in one event. */
  function SpokenAt(u: Reports, e: PartEvent, partId: string): string {
    if e.partId == partId then WordsOf(Says(ReportOf(u, e.partId), e)) else ""
  }

  /** The words that a part says over a sequence of events. */
  function Spoken(u: Reports, events: seq<PartEvent>, partId: string): string
    decreases |events|
  {
    if events == [] then "" else
      var e := events[0];
      SpokenAt(u, e, partId) + Spoken(u[e.partId := Hear(ReportOf(u, e.partId), e)], events[1..], partId)
  }

  /** A snapshot that does not extend what was reported before. */
  predicate Corrects(r: Report, e: PartEvent) {
    && e.Updated? && e.block.Some? && e.block != Some(ToolBlock) && !Silent(RoleAfter(r, e.role))
    && !Given(e.delta) && e.snapshot.Some? && !(Reported(r) <= e.snapshot.value)
  }

  ghost predicate OnlyGrows(u: Reports, events: seq<PartEvent>, partId: string)
    decreases |events|
  {
    events == [] ||
    (var e := events[0];
     var r := ReportOf(u, e.partId);
     && (e.partId == partId ==> !IsToolEvent(e) && !Corrects(r, e))
     && OnlyGrows(u[e.partId := Hear(r, e)], events[1..], partId))
  }

  lemma {:induction false} WordsOfBoth(a: seq<Said>, b: seq<Said>)
    ensures WordsOf(a + b) == WordsOf(a) + WordsOf(b)
  {
    if a == [] {
      assert a + b == b;
    } else {
      assert (a + b)[1..] == a[1..] + b;
      WordsOfBoth(a[1..], b);
      Associate(if a[0].Words? then a[0].words else "", WordsOf(a[1..]), WordsOf(b));
    }
  }

  lemma {:induction false} WordsOfTexts(texts: seq<string>)
    ensures WordsOf(AsWords(texts)) == Concat(texts)
  {
    if texts != [] {
      WordsOfTexts(texts[1..]);
      assert AsWords(texts)[1..] == AsWords(texts[1..]);
    }
  }

  lemma WordsOfOne(words: string)
    ensures WordsOf([Words(words)]) == words
  {
    assert WordsOf([Words(words)]) == words + WordsOf([]);
  }

  lemma AddsTheDifference(block: BlockType, text: string, e: PartEvent)
    requires e.Updated? && block != ToolBlock
    ensures TextAfter(block, text, e) == text + WordsOf(Adds(block, text, e))
      <==> Given(e.delta) || e.snapshot.None? || text <= e.snapshot.value
  {
    var said := Adds(block, text, e);
    if |said| == 1 {
      WordsOfOne(said[0].words);
      assert said == [Words(said[0].words)];
    }
  }

  /** What an event says is what it adds to the report, if and only if it corrects nothing. */
  lemma SaysTheDifference(r: Report, e: PartEvent)
    requires !IsToolEvent(e)
    ensures TextOf(Hear(r, e)) == TextOf(r) + WordsOf(Says(r, e)) <==> !Corrects(r, e)
  {
    if e.Delta? {
      WordsOfOne(e.text);
    } else if e.block.Some? && !Silent(RoleAfter(r, e.role)) {
      var early := if r.Unknown? then AsWords(r.early) else [];
      var own := Adds(e.block.value, Reported(r), e);
      if r.Unknown? {
        WordsOfTexts(r.early);
      }
      WordsOfBoth(early, own);
      AddsTheDifference(e.block.value, Reported(r), e);
      assert TextOf(r) + WordsOf(early + own) == Reported(r) + WordsOf(own);
    }
  }

  lemma EventSpells(u: Reports, e: PartEvent, partId: string)
    requires var r := ReportOf(u, e.partId); e.partId == partId ==> !IsToolEvent(e) && !Corrects(r, e)
    ensures var v := u[e.partId := Hear(ReportOf(u, e.partId), e)];
      TextOf(ReportOf(v, partId)) == TextOf(ReportOf(u, partId)) + SpokenAt(u, e, partId)
  {
    if e.partId == partId {
      SaysTheDifference(ReportOf(u, e.partId), e);
    }
  }

  /** While a part's snapshots only grow, the pieces it says are its reported text: each
      character once, however deltas and cumulative snapshots are mixed. */
  lemma {:induction false} PiecesSpellReport(u: Reports, events: seq<PartEvent>, partId: string)
    requires OnlyGrows(u, events, partId)
    ensures TextOf(ReportOf(Final(u, events), partId)) == TextOf(ReportOf(u, partId)) + Spoken(u, events, partId)
    decreases |events|
  {
    hide Hear, SpokenAt, TextOf, ReportOf, Corrects, IsToolEvent;
    if events != [] {
      var e := events[0];
      var v := u[e.partId := Hear(ReportOf(u, e.partId), e)];
      EventSpells(u, e, partId);
      PiecesSpellReport(v, events[1..], partId);
      Associate(TextOf(ReportOf(u, partId)), SpokenAt(u, e, partId), Spoken(v, events[1..], partId));
    }
  }

  /** Nothing can pass for the user's own prompt: there is none, or every update has a role. */
  predicate NoEcho(cfg: Config, events: seq<PartEvent>) {
    Strip(cfg.userText) == "" || forall e | e in events && e.Updated? :: e.role.Some?
  }

  /** All events are of one part, which is text. */
  predicate OneTextPart(events: seq<PartEvent>, partId: string) {
    forall e | e in events :: e.partId == partId && (e.Updated? ==> e.block.None? || e.block == Some(TextBlock))
  }

  lemma {:induction false} TellWords(cfg: Config, t: Told, role: Option<Role>, said: seq<Said>)
    requires (Strip(cfg.userText) == "" || role.Some?) && forall s | s in said :: s.Words?
    ensures TellAll(cfg, t, TextBlock, role, said).text == t.text + WordsOf(said)
    decreases |said|
  {
    if said != [] {
      assert said[0] in said;
      var next := TellOne(cfg, t, TextBlock, role, said[0]);
      assert next.text == t.text + said[0].words;
      hide TellOne;
      TellWords(cfg, next, role, said[1..]);
      Associate(t.text, said[0].words, WordsOf(said[1..]));
    }
  }

  lemma {:induction false} OnlyWords(texts: seq<string>)
    ensures forall s | s in AsWords(texts) :: s.Words?
  {
    if texts != [] {
      OnlyWords(texts[1..]);
    }
  }

  /** The report of a text part whose role, if it has to be, is known. */
  ghost predicate IsTextReport(cfg: Config, r: Report) {
    r.Known? ==> r.block == TextBlock && (Strip(cfg.userText) == "" || r.role.Some?)
  }

  lemma OneEventTold(cfg: Config, t: Told, r: Report, e: PartEvent)
    requires OneTextPart([e], e.partId) && NoEcho(cfg, [e]) && IsTextReport(cfg, r)
    ensures var after := Hear(r, e);
      && IsTextReport(cfg, after) && (after.Unknown? ==> Says(r, e) == [])
      && (after.Known? ==>
            TellAll(cfg, t, after.block, after.role, Says(r, e)).text == t.text + WordsOf(Says(r, e)))
  {
    assert e in [e];
    var after := Hear(r, e);
    if after.Known? {
      if r.Unknown? {
        OnlyWords(r.early);
      }
      assert forall s | s in Says(r, e) :: s.Words?;
      TellWords(cfg, t, after.role, Says(r, e));
    }
  }

  lemma OneEventText(cfg: Config, u: Reports, t: Told, e: PartEvent)
    requires e.partId != "" && OneTextPart([e], e.partId) && NoEcho(cfg, [e])
      && IsTextReport(cfg, ReportOf(u, e.partId))
    ensures var r := ReportOf(u, e.partId);
      var (v, t') := TellEvent(cfg, u, t, e);
      v == u[e.partId := Hear(r, e)] && IsTextReport(cfg, ReportOf(v, e.partId))
        && t'.text == t.text + WordsOf(Says(r, e))
  {
    OneEventTold(cfg, t, ReportOf(u, e.partId), e);
  }

  lemma TextPartCons(cfg: Config, events: seq<PartEvent>, partId: string)
    requires events != [] && OneTextPart(events, partId) && NoEcho(cfg, events)
    ensures events[0].partId == partId && OneTextPart([events[0]], partId) && NoEcho(cfg, [events[0]])
    ensures OneTextPart(events[1..], partId) && NoEcho(cfg, events[1..])
  {
    assert events[0] in events;
  }

  lemma {:induction false} OnePartTold(cfg: Config, u: Reports, t: Told, events: seq<PartEvent>, partId: string)
    requires partId != "" && OneTextPart(events, partId) && NoEcho(cfg, events)
      && IsTextReport(cfg, ReportOf(u, partId))
    ensures Tell(cfg, u, t, events).1.text == t.text + Spoken(u, events, partId)
    decreases |events|
  {
    if events != [] {
      var e := events[0];
      hide TellEvent, Hear, Says, WordsOf, OneTextPart, NoEcho, IsTextReport;
      TextPartCons(cfg, events, partId);
      OneEventText(cfg, u, t, e);
      var (v, t') := TellEvent(cfg, u, t, e);
      var words, rest := WordsOf(Says(ReportOf(u, partId), e)), Spoken(v, events[1..], partId);
      OnePartTold(cfg, v, t', events[1..], partId);
      Associate(t.text, words, rest);
    }
  }

  /** When one text part speaks and its snapshots only grow, the client's text is exactly the
      text that was reported of the part. */
  lemma ClientGetsThePart(cfg: Config, events: seq<Event>, partId: string)
    requires partId != "" && OneTextPart(Seen(events), partId) && NoEcho(cfg, Seen(events))
    requires OnlyGrows(map[], Seen(events), partId)
    ensures FoldsTo(ConsumeAll(cfg, Begin(), events).out.queue, TextId(cfg),
                    TextOf(ReportOf(Final(map[], Seen(events)), partId)))
  {
    ClientGetsWhatWasReported(cfg, events);
    OnePartTold(cfg, map[], NOTHING, Seen(events), partId);
    PiecesSpellReport(map[], Seen(events), partId);
  }

  // ---------------------------------------------------------------- several text parts

  /** Words of one part among the words of several. */
  datatype Piece = Piece(partId: string, words: string)

  function PiecesOf(partId: string, said: seq<Said>): seq<Piece> {
    if said == [] then []
    else (if said[0].Words? then [Piece(partId, said[0].words)] else []) + PiecesOf(partId, said[1..])
  }

  /** The words of all text parts in the order in which they arrive. */
  function Story(u: Reports, events: seq<PartEvent>): seq<Piece>
    decreases |events|
  {
    if events == [] then [] else
      var e := events[0];
      var r := ReportOf(u, e.partId);
      var after := Hear(r, e);
      (if e.partId != "" && after.Known? && after.block == TextBlock then PiecesOf(e.partId, Says(r, e)) else [])
      + Story(u[e.partId := after], events[1..])
  }

  function Merged(pieces: seq<Piece>): string {
    if pieces == [] then "" else pieces[0].words + Merged(pieces[1..])
  }

  function MergedOf(pieces: seq<Piece>, partId: string): string {
    if pieces == [] then ""
    else (if pieces[0].partId == partId then pieces[0].words else "") + MergedOf(pieces[1..], partId)
  }

  /** The part is text whenever its type is told. */
  predicate IsTextPart(events: seq<PartEvent>, partId: string) {
    forall e | e in events && e.partId == partId && e.Updated? :: e.block.None? || e.block == Some(TextBlock)
  }

  /** Every known part whose role matters has one. */
  ghost predicate Attributed(cfg: Config, u: Reports) {
    Strip(cfg.userText) == "" || forall p | p in u && u[p].Known? :: u[p].role.Some?
  }

  lemma {:induction false} MergedBoth(a: seq<Piece>, b: seq<Piece>)
    ensures Merged(a + b) == Merged(a) + Merged(b)
  {
    if a == [] {
      assert a + b == b;
    } else {
      assert (a + b)[1..] == a[1..] + b;
      MergedBoth(a[1..], b);
      Associate(a[0].words, Merged(a[1..]), Merged(b));
    }
  }

  lemma {:induction false} MergedOfBoth(a: seq<Piece>, b: seq<Piece>, partId: string)
    ensures MergedOf(a + b, partId) == MergedOf(a, partId) + MergedOf(b, partId)
  {
    if a == [] {
      assert a + b == b;
    } else {
      assert (a + b)[1..] == a[1..] + b;
      MergedOfBoth(a[1..], b, partId);
      Associate(if a[0].partId == partId then a[0].words else "", MergedOf(a[1..], partId), MergedOf(b, partId));
    }
  }

  lemma {:induction false} PiecesSpell(partId: string, said: seq<Said>, other: string)
    ensures Merged(PiecesOf(partId, said)) == WordsOf(said)
    ensures MergedOf(PiecesOf(partId, said), other) == if other == partId then WordsOf(said) else ""
  {
    if said != [] {
      PiecesSpell(partId, said[1..], other);
      var head := if said[0].Words? then [Piece(partId, said[0].words)] else [];
      MergedBoth(head, PiecesOf(partId, said[1..]));
      MergedOfBoth(head, PiecesOf(partId, said[1..]), other);
      if said[0].Words? {
        assert Merged(head) == said[0].words + Merged([]);
        assert MergedOf(head, other) == (if partId == other then said[0].words else "") + MergedOf([], other);
      }
    }
  }

  lemma {:induction false} TellOthers(cfg: Config, t: Told, block: BlockType, role: Option<Role>, said: seq<Said>)
    requires block != TextBlock
    ensures TellAll(cfg, t, block, role, said).text == t.text
    decreases |said|
  {
    if said != [] {
      TellOthers(cfg, TellOne(cfg, t, block, role, said[0]), block, role, said[1..]);
    }
  }

  lemma TextSaysWords(r: Report, e: PartEvent)
    requires Hear(r, e).Known? && Hear(r, e).block == TextBlock
    ensures forall s | s in Says(r, e) :: s.Words?
  {
    if r.Unknown? {
      OnlyWords(r.early);
    }
  }

  lemma EventMerges(cfg: Config, u: Reports, t: Told, e: PartEvent)
    requires Attributed(cfg, u) && NoEcho(cfg, [e])
    ensures var (v, t') := TellEvent(cfg, u, t, e);
      Attributed(cfg, v) && t'.text == t.text + Merged(Story(u, [e]))
  {
    assert e in [e];
    var r := ReportOf(u, e.partId);
    var after := Hear(r, e);
    assert [e][1..] == [];
    var told := if e.partId != "" && after.Known? && after.block == TextBlock
      then PiecesOf(e.partId, Says(r, e)) else [];
    assert Story(u, [e]) == told + [];
    assert told + [] == told;
    if e.partId != "" && after.Known? {
      if after.block == TextBlock {
        TextSaysWords(r, e);
        TellWords(cfg, t, after.role, Says(r, e));
        PiecesSpell(e.partId, Says(r, e), e.partId);
      } else {
        TellOthers(cfg, t, after.block, after.role, Says(r, e));
      }
    }
  }

  lemma StoryCons(u: Reports, events: seq<PartEvent>)
    requires events != []
    ensures var e := events[0];
      Story(u, events) == Story(u, [e]) + Story(u[e.partId := Hear(ReportOf(u, e.partId), e)], events[1..])
  {
    assert [events[0]][1..] == [];
    var e := events[0];
    var after := Hear(ReportOf(u, e.partId), e);
    var told := if e.partId != "" && after.Known? && after.block == TextBlock
      then PiecesOf(e.partId, Says(ReportOf(u, e.partId), e)) else [];
    assert told + [] == told;
  }

  /** The text told is the story, words in order of arrival. */
  lemma {:induction false} TextIsStory(cfg: Config, u: Reports, t: Told, events: seq<PartEvent>)
    requires Attributed(cfg, u) && NoEcho(cfg, events)
    ensures Tell(cfg, u, t, events).1.text == t.text + Merged(Story(u, events))
    decreases |events|
  {
    if events != [] {
      var e := events[0];
      assert e in events && forall x | x in [e] :: x in events;
      EventMerges(cfg, u, t, e);
      StoryCons(u, events);
      hide Story, NoEcho, Attributed;
      var (v, t') := TellEvent(cfg, u, t, e);
      NoEchoRest(cfg, events);
      TextIsStory(cfg, v, t', events[1..]);
      MergedBoth(Story(u, [e]), Story(v, events[1..]));
      Associate(t.text, Merged(Story(u, [e])), Merged(Story(v, events[1..])));
    }
  }

  lemma NoEchoRest(cfg: Config, events: seq<PartEvent>)
    requires events != [] && NoEcho(cfg, events)
    ensures NoEcho(cfg, events[1..])
  {
  }

  /** A text part's own pieces of the story are the words it speaks. */
  lemma {:induction false} StoryOfPart(u: Reports, events: seq<PartEvent>, partId: string)
    requires partId != "" && IsTextPart(events, partId)
    requires var r := ReportOf(u, partId); r.Known? ==> r.block == TextBlock
    ensures MergedOf(Story(u, events), partId) == Spoken(u, events, partId)
    decreases |events|
  {
    if events != [] {
      var e := events[0];
      assert e in events;
      var r := ReportOf(u, e.partId);
      var v := u[e.partId := Hear(r, e)];
      StoryCons(u, events);
      OwnPieces(u, e, partId);
      MergedOfBoth(Story(u, [e]), Story(v, events[1..]), partId);
      StoryOfPart(v, events[1..], partId);
    }
  }

  lemma OwnPieces(u: Reports, e: PartEvent, partId: string)
    requires partId != "" && IsTextPart([e], partId)
    requires var r := ReportOf(u, partId); r.Known? ==> r.block == TextBlock
    ensures var r := ReportOf(u, e.partId);
      && MergedOf(Story(u, [e]), partId) == (if e.partId == partId then WordsOf(Says(r, e)) else "")
      && (e.partId == partId && Hear(r, e).Known? ==> Hear(r, e).block == TextBlock)
  {
    assert e in [e];
    var r := ReportOf(u, e.partId);
    var after := Hear(r, e);
    var told := if e.partId != "" && after.Known? && after.block == TextBlock
      then PiecesOf(e.partId, Says(r, e)) else [];
    assert [e][1..] == [] && Story(u, [e]) == told + [] && told + [] == told;
    PiecesSpell(e.partId, Says(r, e), partId);
    if e.partId == partId && after.Unknown? {
      assert Says(r, e) == [];
    }
  }

  /** With any number of text parts the client's text is a merge of their words in order of
      arrival, in which the words of every part whose snapshots only grow spell exactly the
      text reported of it. */
  lemma ClientGetsMergedParts(cfg: Config, events: seq<Event>, partId: string)
    requires NoEcho(cfg, Seen(events))
    ensures FoldsTo(ConsumeAll(cfg, Begin(), events).out.queue, TextId(cfg), Merged(Story(map[], Seen(events))))
    ensures partId != "" && IsTextPart(Seen(events), partId) && OnlyGrows(map[], Seen(events), partId) ==>
      MergedOf(Story(map[], Seen(events)), partId) == TextOf(ReportOf(Final(map[], Seen(events)), partId))
  {
    ClientGetsWhatWasReported(cfg, events);
    TextIsStory(cfg, map[], NOTHING, Seen(events));
    if partId != "" && IsTextPart(Seen(events), partId) && OnlyGrows(map[], Seen(events), partId) {
      StoryOfPart(map[], Seen(events), partId);
      PiecesSpellReport(map[], Seen(events), partId);
    }
  }

  // ---------------------------------------------------------------- tools

  function ToolId(cfg: Config, partId: string): string {
    ArtifactId(cfg.base, ToolBlock, partId)
  }

  /** The last payload that a part reported while it was not silent. */
  function LastPayload(u: Reports, events: seq<PartEvent>, partId: string, last: Option<Name>): Option<Name>
    decreases |events|
  {
    if events == [] then last else
      var e := events[0];
      var r := ReportOf(u, e.partId);
      LastPayload(u[e.partId := Hear(r, e)], events[1..], partId,
                  if e.partId == partId then PayloadAfter(r, e, last) else last)
  }

  function PayloadAfter(r: Report, e: PartEvent, last: Option<Name>): Option<Name> {
    if IsToolEvent(e) && !Given(e.delta) && !Silent(RoleAfter(r, e.role)) && e.tool.Some? then e.tool else last
  }

  /** The part is a tool and gets no text deltas. */
  predicate IsPlainTool(events: seq<PartEvent>, partId: string) {
    forall e | e in events && e.partId == partId ::
      e.Updated? && (e.block.None? || e.block == Some(ToolBlock)) && !Given(e.delta)
  }

  /** The decoder trims part ids. */
  predicate Trimmed(events: seq<PartEvent>) {
    forall e | e in events :: Strip(e.partId) == e.partId
  }

  function KeyOf(cfg: Config, last: Option<Name>): string {
    if last.Some? then ToolKey(cfg, last.value) else ""
  }

  /** The report of a plain tool is its last payload. */
  ghost predicate IsToolReport(r: Report, last: Option<Name>) {
    match r
    case Unknown(early) => early == [] && last.None?
    case Known(block, _, text) => block == ToolBlock && text == if last.Some? then last.value else ""
  }

  lemma ToolIdsDiffer(cfg: Config, block: BlockType, other: string, partId: string)
    requires Strip(other) == other && Strip(partId) == partId && other != partId && other != "" && partId != ""
    ensures ArtifactId(cfg.base, block, other) != ToolId(cfg, partId)
  {
    ArtifactIdShape(cfg, block, other);
    ArtifactIdShape(cfg, ToolBlock, partId);
    if block == ToolBlock {
      var head := cfg.base + ":tool:";
      assert ArtifactId(cfg.base, block, other) == head + other && ToolId(cfg, partId) == head + partId;
      assert (head + other)[|head|..] == other && (head + partId)[|head|..] == partId;
    }
  }

  lemma {:induction false} OtherKeys(chunks: seq<Chunk>, id: string, default: string)
    requires forall c | c in chunks :: c.artifactId != id
    ensures LastKey(chunks, id, default) == default && NoTextIn(chunks, id)
  {
    if chunks != [] {
      assert chunks[0] in chunks;
      OtherKeys(chunks[1..], id, default);
    }
  }

  /** A plain tool says its next payload or nothing, and the report keeps up. */
  lemma ToolSays(r: Report, e: PartEvent, last: Option<Name>)
    requires IsPlainTool([e], e.partId) && IsToolReport(r, last)
    ensures var next := PayloadAfter(r, e, last);
      && IsToolReport(Hear(r, e), next) && (Hear(r, e).Known? ==> Hear(r, e).block == ToolBlock)
      && (Says(r, e) == [] ==> next == last)
      && (Says(r, e) != [] ==> next.Some? && Says(r, e) == [Payload(next.value)] && Hear(r, e).Known?)
  {
    assert e in [e];
  }

  lemma ToolEventKey(cfg: Config, parts: Parts, e: PartEvent, r: Report, last: Option<Name>)
    requires e.partId != "" && IsPlainTool([e], e.partId)
    requires Tracks(cfg, parts, e.partId, r) && IsToolReport(r, last)
    ensures var chunks, id := HandlePart(cfg, parts, e).1, ToolId(cfg, e.partId);
      var next := PayloadAfter(r, e, last);
      && IsToolReport(Hear(r, e), next)
      && NoTextIn(chunks, id) && LastKey(chunks, id, KeyOf(cfg, last)) == KeyOf(cfg, next)
  {
    ToolSays(r, e, last);
    EventCarries(cfg, parts, e, r);
    hide Hear, Says, HandlePart, Tracks, PayloadAfter, IsPlainTool, IsToolReport;
    var chunks, id := HandlePart(cfg, parts, e).1, ToolId(cfg, e.partId);
    var said := Says(r, e);
    if said != [] {
      assert Carries(cfg, chunks[0], said[0], ToolBlock, Hear(r, e).role, e.partId);
      assert |chunks| == 1 && chunks[1..] == [];
      assert LastKey(chunks, id, KeyOf(cfg, last)) == LastKey(chunks[1..], id, chunks[0].contentKey);
    } else {
      assert chunks == [];
    }
  }

  lemma OtherEventKey(cfg: Config, parts: Parts, e: PartEvent, r: Report, partId: string, key: string)
    requires (e.partId != "" ==> Tracks(cfg, parts, e.partId, r)) && Strip(e.partId) == e.partId
    requires Strip(partId) == partId && partId != "" && e.partId != partId
    ensures var chunks, id := HandlePart(cfg, parts, e).1, ToolId(cfg, partId);
      NoTextIn(chunks, id) && LastKey(chunks, id, key) == key
  {
    var chunks, id := HandlePart(cfg, parts, e).1, ToolId(cfg, partId);
    if e.partId != "" {
      EventCarries(cfg, parts, e, r);
      if Hear(r, e).Known? {
        ToolIdsDiffer(cfg, Hear(r, e).block, e.partId, partId);
        forall c | c in chunks
          ensures c.artifactId != id
        {
          var i :| 0 <= i < |chunks| && chunks[i] == c;
          assert Carries(cfg, chunks[i], Says(r, e)[i], Hear(r, e).block, Hear(r, e).role, e.partId);
        }
      }
    }
    OtherKeys(chunks, id, key);
  }

  lemma {:induction false} RunKeys(cfg: Config, parts: Parts, u: Reports, events: seq<PartEvent>, partId: string,
                                  last: Option<Name>)
    requires TracksAll(cfg, parts, u) && partId != "" && Strip(partId) == partId
    requires IsPlainTool(events, partId) && Trimmed(events) && IsToolReport(ReportOf(u, partId), last)
    ensures var chunks, id := RunParts(cfg, parts, events).1, ToolId(cfg, partId);
      && NoTextIn(chunks, id)
      && LastKey(chunks, id, KeyOf(cfg, last)) == KeyOf(cfg, LastPayload(u, events, partId, last))
    decreases |events|
  {
    if events != [] {
      var e := events[0];
      assert e in events;
      var r := ReportOf(u, e.partId);
      var id, v := ToolId(cfg, partId), u[e.partId := Hear(r, e)];
      var (next, chunks) := HandlePart(cfg, parts, e);
      var later := if e.partId == partId then PayloadAfter(r, e, last) else last;
      if e.partId == partId {
        assert forall x | x in [e] :: x in events;
        ToolEventKey(cfg, parts, e, r, last);
      } else {
        OtherEventKey(cfg, parts, e, r, partId, KeyOf(cfg, last));
      }
      PartTracked(cfg, parts, u, NOTHING, e);
      RunKeys(cfg, next, v, events[1..], partId, later);
      LastKeyAppend(chunks, RunParts(cfg, next, events[1..]).1, id, KeyOf(cfg, last));
    }
  }

  /** For a tool part that gets no text deltas the client's last part is the last payload that
      was reported of it; without one the client does not know the artifact. */
  lemma ToolShowsLastPayload(cfg: Config, events: seq<Event>, partId: string)
    requires partId != "" && IsPlainTool(Seen(events), partId) && Trimmed(Seen(events)) && Strip(partId) == partId
    ensures var last := LastPayload(map[], Seen(events), partId, None);
      match Client(ConsumeAll(cfg, Begin(), events).out.queue, ToolId(cfg, partId))
      case None => last.None?
      case Some(parts) => last.Some? && parts != [] && parts[|parts| - 1] == ToolPart(cfg, last.value)
  {
    hide RunParts, LastPayload, TracksAll, ConsumeAll, IsPlainTool, Trimmed;
    NothingTold(cfg);
    RunKeys(cfg, FRESH_PARTS, map[], Seen(events), partId, None);
    ToolArtifactEndsWithLastPayload(cfg, events, ToolId(cfg, partId));
  }
}
