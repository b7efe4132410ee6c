/** Output modes: normalised, kept in a task's metadata, and applied to what clients see. */
module OutputNegotiation {
  import opened Prelude
  import opened Text
  import opened StreamState
  import opened OutputModes

  // ---------------------------------------------------------------- normalisation

  /** Decoded metadata; `Scalar` is anything that is neither text, list nor mapping. */
  datatype Json = Str(s: string) | Arr(items: seq<Json>) | Obj(fields: map<string, Json>) | Scalar

  /** Lower case, for the letters that media types are made of. */
  function Lower(s: string): string {
    if s == "" then "" else [if 'A' <= s[0] <= 'Z' then s[0] - 'A' + 'a' else s[0]] + Lower(s[1..])
  }

  function Mode(value: Json): string {
    if value.Str? then Lower(Strip(value.s)) else ""
  }

  predicate IsWildcard(mode: string) {
    mode == "*" || mode == "*/*"
  }

  function NormalizeFrom(items: seq<Json>, modes: seq<string>): Option<seq<string>>
    decreases |items|
  {
    if items == [] then (if modes == [] then None else Some(modes)) else
      var mode := Mode(items[0]);
      if mode == "" || mode in modes then NormalizeFrom(items[1..], modes)
      else if IsWildcard(mode) then None
      else NormalizeFrom(items[1..], modes + [mode])
  }

  function Normalize(items: seq<Json>): Option<seq<string>> {
    NormalizeFrom(items, [])
  }

  method NormalizeAcceptedOutputModes(items: seq<Json>) returns (accepted: Option<seq<string>>)
    ensures accepted == Normalize(items)
  {
    var modes := [];
    var i := 0;
    while i < |items|
      invariant 0 <= i <= |items|
      invariant NormalizeFrom(items[i..], modes) == Normalize(items)
    {
      assert items[i..][0] == items[i] && items[i..][1..] == items[i + 1..];
      var mode := Mode(items[i]);
      if mode != "" && mode !in modes {
        if IsWildcard(mode) {
          return None;
        }
        modes := modes + [mode];
      }
      i := i + 1;
    }
    accepted := if modes == [] then None else Some(modes);
  }

  predicate Distinct(modes: seq<string>) {
    forall i, j | 0 <= i < j < |modes| :: modes[i] != modes[j]
  }

  lemma {:induction false} NormalizeFromMeans(items: seq<Json>, modes: seq<string>)
    requires Distinct(modes) && forall m | m in modes :: !IsWildcard(m) && m != ""
    ensures NormalizeFrom(items, modes).None? <==>
      (exists v | v in items :: IsWildcard(Mode(v))) || (modes == [] && forall v | v in items :: Mode(v) == "")
    ensures NormalizeFrom(items, modes).Some? ==>
      var ms := NormalizeFrom(items, modes).value;
      && Distinct(ms)
      && (forall m :: m in ms <==> m in modes || (m != "" && exists v | v in items :: Mode(v) == m))
    decreases |items|
  {
    if items != [] {
      var mode := Mode(items[0]);
      assert items == [items[0]] + items[1..];
      if mode == "" || mode in modes {
        NormalizeFromMeans(items[1..], modes);
      } else if IsWildcard(mode) {
        assert items[0] in items;
      } else {
        NormalizeFromMeans(items[1..], modes + [mode]);
      }
    }
  }

  /** Everything is accepted when a wildcard is listed or nothing is; otherwise exactly the
      trimmed, lower-case entries are, once each. */
  lemma NormalizeMeans(items: seq<Json>)
    ensures Normalize(items).None? <==>
      (exists v | v in items :: IsWildcard(Mode(v))) || (forall v | v in items :: Mode(v) == "")
    ensures Normalize(items).Some? ==>
      var ms := Normalize(items).value;
      && Distinct(ms)
      && (forall m :: m in ms <==> m != "" && exists v | v in items :: Mode(v) == m)
  {
    NormalizeFromMeans(items, []);
  }

  lemma {:induction false} LowerShape(s: string)
    ensures |Lower(s)| == |s| && Lower(Lower(s)) == Lower(s)
    ensures forall i | 0 <= i < |s| :: IsSpace(Lower(s)[i]) <==> IsSpace(s[i])
  {
    if s != "" {
      LowerShape(s[1..]);
    }
  }

  lemma StripTight(s: string)
    requires s != "" ==> !IsSpace(s[0]) && !IsSpace(s[|s| - 1])
    ensures Strip(s) == s
  {
  }

  /** A normalised mode is its own normal form. */
  lemma ModeIsNormal(v: Json)
    ensures Mode(Str(Mode(v))) == Mode(v)
  {
    if v.Str? {
      var tight := Strip(v.s);
      StripLeftShape(v.s);
      StripRightShape(StripLeft(v.s));
      LowerShape(tight);
      StripTight(Lower(tight));
    }
  }

  function Strs(modes: seq<string>): seq<Json> {
    if modes == [] then [] else [Str(modes[0])] + Strs(modes[1..])
  }

  predicate Normal(modes: seq<string>) {
    Distinct(modes) && forall m | m in modes :: m != "" && !IsWildcard(m) && Mode(Str(m)) == m
  }

  lemma {:induction false} NormalizeNormal(modes: seq<string>, before: seq<string>)
    requires Normal(before + modes) && before + modes != []
    ensures NormalizeFrom(Strs(modes), before) == Some(before + modes)
    decreases |modes|
  {
    if modes == [] {
      assert before + modes == before;
    } else {
      assert before + modes == (before + [modes[0]]) + modes[1..];
      assert modes[0] in before + modes;
      assert (before + modes)[|before|] == modes[0];
      assert forall i | 0 <= i < |before| :: (before + modes)[i] == before[i];
      NormalizeNormal(modes[1..], before + [modes[0]]);
    }
  }

  lemma NormalizeIsNormal(items: seq<Json>)
    requires Normalize(items).Some?
    ensures Normal(Normalize(items).value) && Normalize(items).value != []
  {
    NormalizeMeans(items);
    var kept :| kept in items && Mode(kept) != "";
    assert Mode(kept) in Normalize(items).value;
    forall m | m in Normalize(items).value
      ensures m != "" && !IsWildcard(m) && Mode(Str(m)) == m
    {
      var v :| v in items && Mode(v) == m;
      ModeIsNormal(v);
    }
  }

  // ---------------------------------------------------------------- sorting

  predicate Rising(modes: seq<string>) {
    forall i, j | 0 <= i < j < |modes| :: Before(modes[i], modes[j])
  }

  function InsertMode(mode: string, sorted: seq<string>): seq<string> {
    if sorted == [] || Before(mode, sorted[0]) then [mode] + sorted else [sorted[0]] + InsertMode(mode, sorted[1..])
  }

  function Sorted(modes: seq<string>): seq<string> {
    if modes == [] then [] else InsertMode(modes[0], Sorted(modes[1..]))
  }

  lemma {:induction false} InsertModeKeeps(mode: string, sorted: seq<string>)
    requires Rising(sorted) && mode !in sorted
    ensures Rising(InsertMode(mode, sorted))
    ensures forall m :: m in InsertMode(mode, sorted) <==> m == mode || m in sorted
  {
    if sorted != [] {
      assert sorted == [sorted[0]] + sorted[1..];
      if Before(mode, sorted[0]) {
        forall m | m in sorted[1..]
          ensures Before(mode, m)
        {
          BeforeTransitive(mode, sorted[0], m);
        }
      } else {
        InsertModeKeeps(mode, sorted[1..]);
        BeforeTotal(mode, sorted[0]);
        assert forall m | m in InsertMode(mode, sorted[1..]) :: Before(sorted[0], m);
      }
    }
  }

  lemma {:induction false} SortedKeeps(modes: seq<string>)
    requires Distinct(modes)
    ensures Rising(Sorted(modes)) && forall m :: m in Sorted(modes) <==> m in modes
  {
    if modes != [] {
      assert modes == [modes[0]] + modes[1..];
      SortedKeeps(modes[1..]);
      assert modes[0] !in modes[1..];
      InsertModeKeeps(modes[0], Sorted(modes[1..]));
    }
  }

  lemma {:induction false} SortedStays(modes: seq<string>)
    requires Rising(modes)
    ensures Sorted(modes) == modes
  {
    if modes != [] {
      assert modes == [modes[0]] + modes[1..];
      SortedStays(modes[1..]);
    }
  }

  lemma RisingDistinct(modes: seq<string>)
    requires Rising(modes)
    ensures Distinct(modes)
  {
    forall i, j | 0 <= i < j < |modes|
      ensures modes[i] != modes[j]
    {
      BeforeAsymmetric(modes[i], modes[j]);
    }
  }

  // ---------------------------------------------------------------- metadata

  const OPENCODE := "opencode"
  const NEGOTIATION := "output_negotiation"
  const ACCEPTED := "accepted_output_modes"

  type Metadata = map<string, Json>

  function Section(md: Metadata, key: string): map<string, Json> {
    if key in md && md[key].Obj? then md[key].fields else map[]
  }

  function Merge(md: Metadata, accepted: Option<seq<string>>): Metadata {
    match accepted
    case None => md
    case Some(modes) =>
      md[OPENCODE := Obj(Section(md, OPENCODE)[NEGOTIATION := Obj(map[ACCEPTED := Arr(Strs(Sorted(modes)))])])]
  }

  function Extract(md: Metadata): Option<seq<string>> {
    var negotiation := Section(Section(md, OPENCODE), NEGOTIATION);
    if ACCEPTED in negotiation && negotiation[ACCEPTED].Arr? then Normalize(negotiation[ACCEPTED].items) else None
  }

  /** What is merged into metadata is found there again, in order, whatever else the
      metadata holds; and nothing else in it changes. */
  lemma MergeExtract(md: Metadata, items: seq<Json>)
    requires Normalize(items).Some?
    ensures var modes := Normalize(items).value;
      var merged := Merge(md, Some(modes));
      && Extract(merged) == Some(Sorted(modes))
      && merged - {OPENCODE} == md - {OPENCODE}
      && Section(merged, OPENCODE) - {NEGOTIATION} == Section(md, OPENCODE) - {NEGOTIATION}
  {
    var modes := Normalize(items).value;
    NormalizeIsNormal(items);
    SortedNormal(modes);
    NormalizeNormal(Sorted(modes), []);
    assert [] + Sorted(modes) == Sorted(modes);
  }

  lemma SortedNormal(modes: seq<string>)
    requires Normal(modes) && modes != []
    ensures Normal(Sorted(modes)) && Sorted(modes) != []
  {
    SortedKeeps(modes);
    RisingDistinct(Sorted(modes));
    assert modes[0] in Sorted(modes);
  }

  /** Merging what metadata says already changes nothing, if it was merged there. */
  lemma MergeTwice(md: Metadata, items: seq<Json>)
    requires Normalize(items).Some?
    ensures var merged := Merge(md, Normalize(items)); Merge(merged, Extract(merged)) == merged
  {
    var modes := Normalize(items).value;
    MergeExtract(md, items);
    NormalizeIsNormal(items);
    SortedKeeps(modes);
    SortedStays(Sorted(modes));
    var merged := Merge(md, Some(modes));
    assert Section(merged, OPENCODE)[NEGOTIATION := Obj(map[ACCEPTED := Arr(Strs(Sorted(modes)))])]
      == Section(merged, OPENCODE);
  }

  // ---------------------------------------------------------------- filtering

  const TEXT_PLAIN := "text/plain"
  const APPLICATION_JSON := "application/json"

  /** The media type that decides about a part, if one does. */
  function MediaType(part: Part): Option<string> {
    match part
    case TextPart(_, _) => Some(TEXT_PLAIN)
    case DataPart(_, _) => Some(APPLICATION_JSON)
    case BlobPart(media, _) => Some(if media == "" then "application/octet-stream" else media)
    case OtherPart(_) => None
  }

  predicate Accepts(modes: seq<string>, part: Part) {
    MediaType(part).None? || MediaType(part).value in modes
  }

  /** A part as it is shown: unchanged, as plain text, or not at all. */
  function Shown(modes: seq<string>, part: Part): seq<Part> {
    if Accepts(modes, part) then [part]
    else if TEXT_PLAIN in modes && part.DataPart? then [TextPart(Escaped(part.json), "")]
    else []
  }

  function Filter(modes: seq<string>, parts: seq<Part>): seq<Part> {
    if parts == [] then [] else Filter(modes, parts[..|parts| - 1]) + Shown(modes, parts[|parts| - 1])
  }

  method FilterParts(parts: seq<Part>, modes: seq<string>) returns (filtered: seq<Part>)
    ensures filtered == Filter(modes, parts)
  {
    filtered := [];
    for i := 0 to |parts|
      invariant filtered == Filter(modes, parts[..i])
    {
      assert parts[..i + 1][..i] == parts[..i];
      if Accepts(modes, parts[i]) {
        filtered := filtered + [parts[i]];
      } else if TEXT_PLAIN in modes && parts[i].DataPart? {
        filtered := filtered + [TextPart(Escaped(parts[i].json), "")];
      }
    }
    assert parts[..|parts|] == parts;
  }

  /** Artifacts and messages that keep no part are left out. */
  function FilterAll(modes: seq<string>, many: seq<seq<Part>>): seq<seq<Part>> {
    if many == [] then [] else
      var first := Filter(modes, many[0]);
      (if first == [] then [] else [first]) + FilterAll(modes, many[1..])
  }

  lemma {:induction false} FilterAccepts(modes: seq<string>, parts: seq<Part>)
    ensures forall p | p in Filter(modes, parts) :: Accepts(modes, p)
  {
    if parts != [] {
      FilterAccepts(modes, parts[..|parts| - 1]);
    }
  }

  lemma {:induction false} FilterStays(modes: seq<string>, parts: seq<Part>)
    requires forall p | p in parts :: Accepts(modes, p)
    ensures Filter(modes, parts) == parts
  {
    if parts != [] {
      var most, last := parts[..|parts| - 1], parts[|parts| - 1];
      assert last in parts && forall p | p in most :: p in parts;
      assert Filter(modes, parts) == Filter(modes, most) + [last] by {
        assert Shown(modes, last) == [last];
      }
      hide Shown, Accepts, Filter;
      FilterStays(modes, most);
      assert parts == most + [last];
    }
  }

  /** Filtering shows acceptable parts only, and filtering what is shown changes nothing. */
  lemma {:induction false} FilterAllTwice(modes: seq<string>, many: seq<seq<Part>>)
    ensures forall parts | parts in FilterAll(modes, many) :: parts != [] && forall p | p in parts :: Accepts(modes, p)
    ensures FilterAll(modes, FilterAll(modes, many)) == FilterAll(modes, many)
  {
    if many != [] {
      var first, rest := Filter(modes, many[0]), FilterAll(modes, many[1..]);
      FilterAllTwice(modes, many[1..]);
      FilterAccepts(modes, many[0]);
      FilterStays(modes, first);
      if first != [] {
        assert ([first] + rest)[1..] == rest;
      } else {
        assert [] + rest == rest;
      }
    }
  }

  /** A part that is shown in some form. */
  predicate Keeps(modes: seq<string>, part: Part) {
    Accepts(modes, part) || (TEXT_PLAIN in modes && part.DataPart?)
  }

  function Rendered(modes: seq<string>, part: Part): Part
    requires Keeps(modes, part)
  {
    if Accepts(modes, part) then part else TextPart(Escaped(part.json), "")
  }

  lemma {:induction false} FilterBoth(modes: seq<string>, a: seq<Part>, b: seq<Part>)
    ensures Filter(modes, a + b) == Filter(modes, a) + Filter(modes, b)
    decreases |b|
  {
    if b == [] {
      assert a + b == a;
    } else {
      var most, last := b[..|b| - 1], b[|b| - 1];
      FilterBoth(modes, a, most);
      hide Shown;
      assert (a + b)[..|a + b| - 1] == a + most && (a + b)[|a + b| - 1] == last;
      assert Filter(modes, a + b) == Filter(modes, a + most) + Shown(modes, last);
      Associate(Filter(modes, a), Filter(modes, most), Shown(modes, last));
    }
  }

  lemma {:induction false} FilterAllBoth(modes: seq<string>, a: seq<seq<Part>>, b: seq<seq<Part>>)
    ensures FilterAll(modes, a + b) == FilterAll(modes, a) + FilterAll(modes, b)
  {
    if a == [] {
      assert a + b == b;
    } else {
      var first := Filter(modes, a[0]);
      var head := if first == [] then [] else [first];
      assert (a + b)[1..] == a[1..] + b;
      FilterAllBoth(modes, a[1..], b);
      Associate(head, FilterAll(modes, a[1..]), FilterAll(modes, b));
    }
  }

  /** What is shown is decided part by part and stays in order: every kept part is there,
      accepted ones as they are and data as text where text is accepted, and no other. */
  lemma FilterShowsKept(modes: seq<string>, a: seq<Part>, part: Part, b: seq<Part>)
    ensures Filter(modes, a + [part] + b) ==
      Filter(modes, a) + (if Keeps(modes, part) then [Rendered(modes, part)] else []) + Filter(modes, b)
  {
    FilterBoth(modes, a + [part], b);
    FilterBoth(modes, a, [part]);
    assert Filter(modes, [part]) == Filter(modes, [part][..0]) + Shown(modes, part) == Shown(modes, part);
  }

  /** Artifacts and messages stay in order too, and one is left out exactly when none of its
      parts is kept. */
  lemma FilterAllShowsKept(modes: seq<string>, a: seq<seq<Part>>, parts: seq<Part>, b: seq<seq<Part>>)
    ensures FilterAll(modes, a + [parts] + b) ==
      FilterAll(modes, a)
      + (if exists p | p in parts :: Keeps(modes, p) then [Filter(modes, parts)] else [])
      + FilterAll(modes, b)
  {
    FilterAllBoth(modes, a + [parts], b);
    FilterAllBoth(modes, a, [parts]);
    SomeShownIffKept(modes, parts);
    var first := Filter(modes, parts);
    assert FilterAll(modes, [parts]) == (if first == [] then [] else [first]) + FilterAll(modes, []);
  }

  lemma {:induction false} SomeShownIffKept(modes: seq<string>, parts: seq<Part>)
    ensures Filter(modes, parts) != [] <==> exists p | p in parts :: Keeps(modes, p)
  {
    if parts != [] {
      var most, last := parts[..|parts| - 1], parts[|parts| - 1];
      assert forall p :: p in parts <==> p in most || p == last;
      assert Shown(modes, last) != [] <==> Keeps(modes, last);
      SomeShownIffKept(modes, most);
    }
  }

  predicate SameModes(a: seq<string>, b: seq<string>) {
    (forall m | m in a :: m in b) && (forall m | m in b :: m in a)
  }

  lemma {:induction false} FilterSame(a: seq<string>, b: seq<string>, parts: seq<Part>)
    requires SameModes(a, b)
    ensures Filter(a, parts) == Filter(b, parts)
  {
    if parts != [] {
      FilterSame(a, b, parts[..|parts| - 1]);
    }
  }

  lemma {:induction false} FilterAllSame(a: seq<string>, b: seq<string>, many: seq<seq<Part>>)
    requires SameModes(a, b)
    ensures FilterAll(a, many) == FilterAll(b, many)
  {
    if many != [] {
      FilterSame(a, b, many[0]);
      FilterAllSame(a, b, many[1..]);
    }
  }

  // ---------------------------------------------------------------- registry and store

  datatype Task = Task(id: string, terminal: bool, metadata: Metadata, artifacts: seq<Artifact>)

  type Modes = map<string, seq<string>>

  function ModesOf(registry: Modes, task: Task): Option<seq<string>> {
    if task.id in registry then Some(registry[task.id]) else Extract(task.metadata)
  }

  /** What the wrapper hands to the inner store. */
  function Stored(registry: Modes, task: Task): Task {
    task.(metadata := Merge(task.metadata, ModesOf(registry, task)), artifacts := CanonicalAll(task.artifacts))
  }

  function CanonicalAll(artifacts: seq<Artifact>): seq<Artifact> {
    if artifacts == [] then [] else [Canonical(artifacts[0])] + CanonicalAll(artifacts[1..])
  }

  class TaskOutputModeRegistry {
    var modes: Modes

    constructor ()
      ensures modes == map[]
    {
      modes := map[];
    }

    method Remember(taskId: string, items: seq<Json>)
      modifies this
      ensures modes ==
        if Normalize(items).Some? then old(modes)[taskId := Normalize(items).value] else old(modes) - {taskId}
    {
      var normalized := NormalizeAcceptedOutputModes(items);
      modes := if normalized.None? then modes - {taskId} else modes[taskId := normalized.value];
    }

    method Clear(taskId: string)
      modifies this
      ensures modes == old(modes) - {taskId}
    {
      modes := modes - {taskId};
    }
  }

  class NegotiatingTaskStore {
    const registry: TaskOutputModeRegistry
    var tasks: map<string, Task>

    constructor (registry: TaskOutputModeRegistry)
      ensures this.registry == registry && tasks == map[]
    {
      this.registry := registry;
      tasks := map[];
    }

    method Save(task: Task)
      modifies this, registry
      ensures tasks == old(tasks)[task.id := Stored(old(registry.modes), task)]
      ensures registry.modes == if task.terminal then old(registry.modes) - {task.id} else old(registry.modes)
    {
      var artifacts := CanonicalizeStreamArtifacts(task.artifacts);
      CanonicalEach(task.artifacts, artifacts);
      var canonical := task.(artifacts := artifacts);
      var accepted := ModesOf(registry.modes, canonical);
      tasks := tasks[task.id := canonical.(metadata := Merge(canonical.metadata, accepted))];
      if task.terminal {
        registry.Clear(task.id);
      }
    }

    method Delete(taskId: string)
      modifies this, registry
      ensures tasks == old(tasks) - {taskId} && registry.modes == old(registry.modes) - {taskId}
    {
      tasks := tasks - {taskId};
      registry.Clear(taskId);
    }
  }

  lemma {:induction false} CanonicalEach(before: seq<Artifact>, after: seq<Artifact>)
    requires |after| == |before| && forall i | 0 <= i < |before| :: after[i] == Canonical(before[i])
    ensures after == CanonicalAll(before)
  {
    if before != [] {
      CanonicalEach(before[1..], after[1..]);
      assert after == [after[0]] + after[1..];
    }
  }

  lemma {:induction false} CanonicalAllTwice(artifacts: seq<Artifact>)
    ensures CanonicalAll(CanonicalAll(artifacts)) == CanonicalAll(artifacts)
  {
    if artifacts != [] {
      CanonicalIdempotent(artifacts[0]);
      CanonicalAllTwice(artifacts[1..]);
      assert CanonicalAll(artifacts)[1..] == CanonicalAll(artifacts[1..]);
    }
  }

  /** The registry holds what it was told to remember. */
  ghost predicate Remembers(registry: Modes) {
    forall id | id in registry :: exists items :: Normalize(items) == Some(registry[id])
  }

  /** Losing the registry, at the end of a task or by a restart, loses nothing: the stored
      task alone yields the modes the task was saved under, so the client is shown the same. */
  lemma NegotiationSurvives(registry: Modes, later: Modes, task: Task, many: seq<seq<Part>>)
    requires Remembers(registry) && ModesOf(registry, task).Some? && task.id !in later
    ensures var modes, again := ModesOf(registry, task), ModesOf(later, Stored(registry, task));
      && again == Some(Sorted(modes.value)) && SameModes(modes.value, again.value)
      && FilterAll(again.value, many) == FilterAll(modes.value, many)
  {
    var modes := ModesOf(registry, task).value;
    var items := ModesFrom(registry, task);
    MergeExtract(task.metadata, items);
    NormalizeIsNormal(items);
    SortedKeeps(modes);
    FilterAllSame(modes, Sorted(modes), many);
  }

  /** Some list of values that normalises to the modes of a task. */
  lemma ModesFrom(registry: Modes, task: Task) returns (items: seq<Json>)
    requires Remembers(registry) && ModesOf(registry, task).Some?
    ensures Normalize(items) == ModesOf(registry, task)
  {
    if task.id in registry {
      items :| Normalize(items) == Some(registry[task.id]);
    } else {
      items := Section(Section(task.metadata, OPENCODE), NEGOTIATION)[ACCEPTED].items;
    }
  }

  /** Saving a stored task again, with or without the registry's help, stores the same task. */
  lemma SaveTwice(registry: Modes, later: Modes, task: Task)
    requires Remembers(registry) && (task.id in later ==> Some(later[task.id]) == ModesOf(registry, task))
    ensures Stored(later, Stored(registry, task)) == Stored(registry, task)
  {
    var stored := Stored(registry, task);
    CanonicalAllTwice(task.artifacts);
    if ModesOf(registry, task).Some? {
      var items := ModesFrom(registry, task);
      MergeTwice(task.metadata, items);
      MergeExtract(task.metadata, items);
      if task.id in later {
        MergeOver(task.metadata, later[task.id]);
      }
    }
  }

  lemma MergeOver(md: Metadata, modes: seq<string>)
    ensures Merge(Merge(md, Some(modes)), Some(modes)) == Merge(md, Some(modes))
  {
    var entry := Obj(map[ACCEPTED := Arr(Strs(Sorted(modes)))]);
    assert Section(md, OPENCODE)[NEGOTIATION := entry][NEGOTIATION := entry]
      == Section(md, OPENCODE)[NEGOTIATION := entry];
  }
}
