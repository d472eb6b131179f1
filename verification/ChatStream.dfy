/**
 From the model runtime's events to UI message chunks: the event translator
 (pi-translate.ts), the chunk converter (ui-message-stream.ts) and the grammar that a
 chat client expects of the result.
 */
module ChatStream {
  import opened Prelude

  type BlockId = nat

  // ----- the translator -----

  datatype PiEvent =
    | TurnStart
    | MessageStart(assistant: bool)
    | TextDelta(delta: string)
    | ThinkingDelta(delta: string)
    | MessageEnd(fullText: string)       // message_end or turn_end, with the text of its message
    | ToolStart(callId: string, name: string, input: string)
    | ToolEnd(callId: string, endName: Option<string>, output: string, isError: bool)
    | CompactionEnd(aborted: bool, manual: bool, result: Option<Compacted>)
    | OtherEvent

  /** The result of a compaction, when it is an object. */
  datatype Compacted = Compacted(summary: Option<string>, tokensBefore: Option<int>)

  /** What the host submitted for a tool of its own: a tool-content envelope, another value, or none at all. */
  datatype HostResult = Envelope(content: string) | Plain(value: string) | Nothing

  datatype Part =
    | TextStartPart(id: BlockId) | TextDeltaPart(id: BlockId, delta: string) | TextEndPart(id: BlockId)
    | ReasoningStartPart(id: BlockId) | ReasoningDeltaPart(id: BlockId, delta: string) | ReasoningEndPart(id: BlockId)
    | ToolCallPart(callId: string, name: string, input: string, native: Option<string>, providerExecuted: bool)
    | ToolResultPart(callId: string, name: string, output: string, isError: bool)
    | CompactionPart(manual: bool, summary: string, tokensBefore: Option<int>)
    | FinishPart | OtherPart

  datatype TState = TState(
    promptStarted: bool, streamed: string, textId: Option<BlockId>, reasoningId: Option<BlockId>,
    reasoningStarted: bool,
    observed: map<string, string>, hostResults: map<string, HostResult>, names: ToolNames, nextId: BlockId)

  /** The tools that run natively, and the common names of native ones. */
  datatype ToolNames = ToolNames(builtin: set<string>, common: map<string, string>)

  function NewTurn(names: ToolNames, nextId: BlockId): TState {
    TState(false, "", None, None, false, map[], map[], names, nextId)
  }

  /** `resolveToolName`. */
  function WireName(names: ToolNames, name: string): string {
    if name in names.common then names.common[name] else name
  }

  function TranslateText(s: TState, delta: string): (TState, seq<Part>) {
    var closes := s.reasoningStarted && s.reasoningId.Some?;
    var closing := if closes then [ReasoningEndPart(s.reasoningId.value)] else [];
    var a := if closes then s.(reasoningStarted := false, reasoningId := None) else s;
    var opening := if a.textId.None? then [TextStartPart(a.nextId)] else [];
    var b := if a.textId.None? then a.(textId := Some(a.nextId), nextId := a.nextId + 1) else a;
    (b.(streamed := b.streamed + delta), closing + opening + [TextDeltaPart(b.textId.value, delta)])
  }

  function TranslateThinking(s: TState, delta: string): (TState, seq<Part>) {
    var closing := if s.textId.Some? then [TextEndPart(s.textId.value)] else [];
    var a := s.(textId := None);
    var b := if a.reasoningId.None? then a.(reasoningId := Some(a.nextId), nextId := a.nextId + 1) else a;
    var opening := if b.reasoningStarted then [] else [ReasoningStartPart(b.reasoningId.value)];
    (b.(reasoningStarted := true), closing + opening + [ReasoningDeltaPart(b.reasoningId.value, delta)])
  }

  /** What the streamed text lacks of the full text, if it is a proper prefix. */
  function Gap(streamed: string, full: string): string {
    if streamed <= full then full[|streamed|..] else ""
  }

  function TranslateEnd(s: TState, full: string): (TState, seq<Part>) {
    var gap := if s.textId.Some? then Gap(s.streamed, full) else "";
    var filling := if s.textId.Some? && gap != "" then [TextDeltaPart(s.textId.value, gap)] else [];
    var textEnd := if s.textId.Some? then [TextEndPart(s.textId.value)] else [];
    var closes := s.reasoningStarted && s.reasoningId.Some?;
    var reasoningEnd := if closes then [ReasoningEndPart(s.reasoningId.value)] else [];
    var a := s.(streamed := if gap != "" then full else s.streamed, textId := None);
    (if closes then a.(reasoningStarted := false, reasoningId := None) else a, filling + textEnd + reasoningEnd)
  }

  /** `translatePiEvent`. */
  function Translate(s: TState, e: PiEvent): (TState, seq<Part>) {
    match e
    case TurnStart => (Opened(s), [])
    case MessageStart(assistant) => if assistant then (Opened(s), []) else (s, [])
    case TextDelta(delta) => if s.promptStarted then TranslateText(s, delta) else (s, [])
    case ThinkingDelta(delta) => if s.promptStarted then TranslateThinking(s, delta) else (s, [])
    case MessageEnd(full) => if s.promptStarted then TranslateEnd(s, full) else (s, [])
    case ToolStart(callId, name, input) =>
      if callId == "" || name == "" then (s, []) else TranslateCall(s, callId, name, input)
    case ToolEnd(callId, name, output, isError) =>
      if callId == "" || ResultName(s, callId, name) == "" then (s, [])
      else TranslateResult(s, callId, name, output, isError)
    case CompactionEnd(aborted, manual, result) =>
      if aborted || result.None? then (s, [])
      else (s, [CompactionPart(manual, SummaryOf(result.value), result.value.tokensBefore)])
    case OtherEvent => (s, [])
  }

  function TranslateCall(s: TState, callId: string, name: string, input: string): (TState, seq<Part>) {
    var wire := WireName(s.names, name);
    (s.(observed := s.observed[callId := wire]),
     [ToolCallPart(callId, wire, input, if wire != name then Some(name) else None, name in s.names.builtin)])
  }

  /** The name a result goes by: that of its call, or else its own; "" when there is none. */
  function ResultName(s: TState, callId: string, name: Option<string>): string {
    if callId in s.observed then s.observed[callId]
    else if name.None? || name.value == "" then "" else WireName(s.names, name.value)
  }

  function TranslateResult(s: TState, callId: string, name: Option<string>, output: string,
                           isError: bool): (TState, seq<Part>) {
    (s.(hostResults := s.hostResults - {callId}),
     [ToolResultPart(callId, ResultName(s, callId, name), ResultOf(s.hostResults, callId, output), isError)])
  }

  /** The value the host submitted, an envelope bare, wins over the echoed text; values are their JSON texts. */
  function ResultOf(hostResults: map<string, HostResult>, callId: string, echoed: string): string {
    if callId !in hostResults then echoed
    else match hostResults[callId]
      case Envelope(content) => content
      case Plain(value) => value
      case Nothing => "null"
  }

  function SummaryOf(result: Compacted): string {
    if result.summary.Some? then result.summary.value else "(no summary provided)"
  }

  function Opened(s: TState): TState {
    s.(promptStarted := true, streamed := "", textId := None, reasoningId := None, reasoningStarted := false)
  }

  // ----- the converter -----

  datatype Chunk =
    | Start | StartStep
    | TextStart(id: BlockId) | TextChunk(id: BlockId, delta: string) | TextEnd(id: BlockId)
    | ReasoningStart(id: BlockId) | ReasoningChunk(id: BlockId, delta: string) | ReasoningEnd(id: BlockId)
    | ToolInput(callId: string, name: string, input: Option<string>)
    | ToolOutput(callId: string, output: Option<string>)
    | FinishStep | Finish | Metadata | ErrorChunk(text: string)

  datatype Policy = Full | NamesOnly | Hidden

  datatype ToolOption = Unset | Flag(on: bool) | Names

  datatype SendTools = Same(option: ToolOption) | PerTool(options: map<string, ToolOption>)

  datatype Options = Options(sendReasoning: bool, sendTools: SendTools)

  function AsPolicy(option: ToolOption): Policy {
    match option
    case Flag(on) => if on then Full else Hidden
    case Names => NamesOnly
    case Unset => Full
  }

  /** `resolveToolPolicy`. */
  function ResolveToolPolicy(sendTools: SendTools, name: string): Policy {
    match sendTools
    case Same(option) => AsPolicy(option)
    case PerTool(options) => AsPolicy(if name in options then options[name] else Unset)
  }

  predicate IsInternal(name: string) {
    name == "submitResult" || name == "fileChange"
  }

  predicate IsShown(opts: Options, name: string) {
    name != "" && !IsInternal(name) && !ResolveToolPolicy(opts.sendTools, name).Hidden?
  }

  function Shown(opts: Options, name: string, value: string): Option<string> {
    if ResolveToolPolicy(opts.sendTools, name).NamesOnly? then None else Some(value)
  }

  datatype CState = CState(messageStarted: bool, stepOpen: bool, textId: Option<BlockId>, reasoningId: Option<BlockId>)

  const NOTHING_SENT := CState(false, false, None, None)

  function Opening(c: CState): seq<Chunk> {
    (if c.messageStarted then [] else [Start]) + (if c.stepOpen then [] else [StartStep])
  }

  function InStepNow(c: CState): CState {
    c.(messageStarted := true, stepOpen := true)
  }

  function Closing(c: CState): seq<Chunk> {
    (if c.textId.Some? then [TextEnd(c.textId.value)] else [])
    + (if c.reasoningId.Some? then [ReasoningEnd(c.reasoningId.value)] else [])
  }

  function WithoutBlocks(c: CState): CState {
    c.(textId := None, reasoningId := None)
  }

  /** `handlePart`. */
  function Handle(opts: Options, c: CState, part: Part): (CState, seq<Chunk>) {
    var open := InStepNow(c);
    match part
    case TextStartPart(id) => (open.(textId := Some(id)), Opening(c) + [TextStart(id)])
    case TextDeltaPart(id, delta) =>
      if c.textId.None? then (open.(textId := Some(id)), Opening(c) + [TextStart(id), TextChunk(id, delta)])
      else (open, Opening(c) + [TextChunk(c.textId.value, delta)])
    case TextEndPart(_) => if c.textId.None? then (c, []) else (c.(textId := None), [TextEnd(c.textId.value)])
    case ReasoningStartPart(id) =>
      if !opts.sendReasoning then (c, []) else (open.(reasoningId := Some(id)), Opening(c) + [ReasoningStart(id)])
    case ReasoningDeltaPart(id, delta) =>
      if !opts.sendReasoning then (c, [])
      else if c.reasoningId.None? then (open.(reasoningId := Some(id)),
                                        Opening(c) + [ReasoningStart(id), ReasoningChunk(id, delta)])
      else (open, Opening(c) + [ReasoningChunk(c.reasoningId.value, delta)])
    case ReasoningEndPart(_) =>
      if c.reasoningId.None? then (c, []) else (c.(reasoningId := None), [ReasoningEnd(c.reasoningId.value)])
    case ToolCallPart(callId, name, input, _, _) =>
      if !IsShown(opts, name) then (c, [])
      else (WithoutBlocks(open), Opening(c) + Closing(c) + [ToolInput(callId, name, Shown(opts, name, input))])
    case ToolResultPart(callId, name, output, _) =>
      if !IsShown(opts, name) then (c, []) else (open, Opening(c) + [ToolOutput(callId, Shown(opts, name, output))])
    case FinishPart =>
      if c.stepOpen then (WithoutBlocks(c).(stepOpen := false), Closing(c) + [FinishStep]) else (c, [])
    case CompactionPart(_, _, _) => (c, [])
    case OtherPart => (c, [])
  }

  datatype End = Finished | Failed(usage: bool, text: string)

  /** `finish` and `fail`. */
  function Terminal(c: CState, end: End): seq<Chunk> {
    (if c.messageStarted then [] else [Start]) + Closing(c) + (if c.stepOpen then [FinishStep] else [])
    + LastChunks(end)
  }

  // ----- the grammar -----

  datatype Block = TextBlock(id: BlockId) | ReasoningBlock(id: BlockId)

  datatype Place = Fresh | BetweenSteps | InStep(block: Option<Block>) | Closed | Bad

  /** One message: `start`, steps with at most one block open at a time, then one terminal chunk. */
  function Read(p: Place, c: Chunk): Place {
    match p
    case Fresh => if c.Start? then BetweenSteps else Bad
    case BetweenSteps =>
      (match c
       case StartStep => InStep(None)
       case Metadata => BetweenSteps
       case Finish => Closed
       case ErrorChunk(_) => Closed
       case _ => Bad)
    case InStep(None) =>
      (match c
       case TextStart(id) => InStep(Some(TextBlock(id)))
       case ReasoningStart(id) => InStep(Some(ReasoningBlock(id)))
       case ToolInput(_, _, _) => p
       case ToolOutput(_, _) => p
       case FinishStep => BetweenSteps
       case _ => Bad)
    case InStep(Some(TextBlock(id))) =>
      if c.TextChunk? && c.id == id then p
      else if c == TextEnd(id) then InStep(None)
      else if c.ToolOutput? then p else Bad
    case InStep(Some(ReasoningBlock(id))) =>
      if c.ReasoningChunk? && c.id == id then p
      else if c == ReasoningEnd(id) then InStep(None)
      else if c.ToolOutput? then p else Bad
    case _ => Bad
  }

  function ReadAll(p: Place, chunks: seq<Chunk>): Place
    decreases chunks
  {
    if chunks == [] then p else ReadAll(Read(p, chunks[0]), chunks[1..])
  }

  /** A complete message. */
  predicate IsMessage(chunks: seq<Chunk>) {
    ReadAll(Fresh, chunks) == Closed
  }

  lemma {:induction false} ReadConcat(p: Place, a: seq<Chunk>, b: seq<Chunk>)
    ensures ReadAll(p, a + b) == ReadAll(ReadAll(p, a), b)
    decreases a
  {
    if a == [] {
      assert a + b == b;
    } else {
      ReadConcat(Read(p, a[0]), a[1..], b);
      ConcatTail(a, b);
    }
  }

  lemma {:induction false} BadForGood(chunks: seq<Chunk>)
    ensures ReadAll(Bad, chunks) == Bad
    decreases chunks
  {
    if chunks != [] {
      BadForGood(chunks[1..]);
    }
  }

  lemma ReadOne(p: Place, c: Chunk)
    ensures ReadAll(p, [c]) == Read(p, c)
  {
    assert [c][1..] == [];
  }

  // ----- the converter against the grammar -----

  predicate Sane(c: CState) {
    && (c.stepOpen ==> c.messageStarted)
    && (c.textId.Some? || c.reasoningId.Some? ==> c.stepOpen)
    && !(c.textId.Some? && c.reasoningId.Some?)
  }

  function PlaceOf(c: CState): Place {
    if !c.messageStarted then Fresh
    else if !c.stepOpen then BetweenSteps
    else InStep(if c.textId.Some? then Some(TextBlock(c.textId.value))
                else if c.reasoningId.Some? then Some(ReasoningBlock(c.reasoningId.value)) else None)
  }

  /** The part does not open or continue a block while another one is open. */
  predicate Fits(opts: Options, c: CState, part: Part) {
    match part
    case TextStartPart(_) => c.textId.None? && c.reasoningId.None?
    case TextDeltaPart(_, _) => c.reasoningId.None?
    case ReasoningStartPart(_) => opts.sendReasoning ==> c.textId.None? && c.reasoningId.None?
    case ReasoningDeltaPart(_, _) => opts.sendReasoning ==> c.textId.None?
    case _ => true
  }

  lemma OpeningReads(c: CState)
    requires Sane(c)
    ensures ReadAll(PlaceOf(c), Opening(c)) == PlaceOf(InStepNow(c))
  {
    ReadOne(Fresh, Start);
    ReadOne(BetweenSteps, StartStep);
    ReadConcat(PlaceOf(c), if c.messageStarted then [] else [Start], if c.stepOpen then [] else [StartStep]);
  }

  lemma ClosingReads(c: CState)
    requires Sane(c)
    ensures ReadAll(PlaceOf(c), Closing(c)) == PlaceOf(WithoutBlocks(c))
  {
    if c.textId.Some? {
      ReadOne(PlaceOf(c), TextEnd(c.textId.value));
    } else if c.reasoningId.Some? {
      ReadOne(PlaceOf(c), ReasoningEnd(c.reasoningId.value));
    }
  }

  /** Opening the step, then more. */
  lemma OpeningThen(c: CState, more: seq<Chunk>)
    requires Sane(c)
    ensures ReadAll(PlaceOf(c), Opening(c) + more) == ReadAll(PlaceOf(InStepNow(c)), more)
  {
    OpeningReads(c);
    ReadConcat(PlaceOf(c), Opening(c), more);
  }

  lemma ReadTwo(p: Place, a: Chunk, b: Chunk)
    ensures ReadAll(p, [a, b]) == Read(Read(p, a), b)
  {
    assert [a, b] == [a] + [b];
    ReadConcat(p, [a], [b]);
    ReadOne(p, a);
    ReadOne(Read(p, a), b);
  }

  /** A part that fits takes the message from one place to the next; one that does not spoils it. */
  predicate Reads(opts: Options, c: CState, part: Part) {
    var r := Handle(opts, c, part);
    && ReadAll(PlaceOf(c), r.1) == (if Fits(opts, c, part) then PlaceOf(r.0) else Bad)
    && (Fits(opts, c, part) ==> Sane(r.0))
  }

  lemma TextPartReads(opts: Options, c: CState, part: Part)
    requires Sane(c) && (part.TextStartPart? || part.TextDeltaPart? || part.TextEndPart?)
    ensures Reads(opts, c, part)
  {
    var p := PlaceOf(InStepNow(c));
    match part
    case TextStartPart(id) =>
      OpeningThen(c, [TextStart(id)]);
      ReadOne(p, TextStart(id));
    case TextDeltaPart(id, delta) =>
      if c.textId.None? {
        OpeningThen(c, [TextStart(id), TextChunk(id, delta)]);
        ReadTwo(p, TextStart(id), TextChunk(id, delta));
      } else {
        OpeningThen(c, [TextChunk(c.textId.value, delta)]);
        ReadOne(p, TextChunk(c.textId.value, delta));
      }
    case TextEndPart(_) =>
      if c.textId.Some? {
        ReadOne(PlaceOf(c), TextEnd(c.textId.value));
      }
  }

  lemma ReasoningPartReads(opts: Options, c: CState, part: Part)
    requires Sane(c) && (part.ReasoningStartPart? || part.ReasoningDeltaPart? || part.ReasoningEndPart?)
    ensures Reads(opts, c, part)
  {
    var p := PlaceOf(InStepNow(c));
    match part
    case ReasoningStartPart(id) =>
      OpeningThen(c, [ReasoningStart(id)]);
      ReadOne(p, ReasoningStart(id));
    case ReasoningDeltaPart(id, delta) =>
      if c.reasoningId.None? {
        OpeningThen(c, [ReasoningStart(id), ReasoningChunk(id, delta)]);
        ReadTwo(p, ReasoningStart(id), ReasoningChunk(id, delta));
      } else {
        OpeningThen(c, [ReasoningChunk(c.reasoningId.value, delta)]);
        ReadOne(p, ReasoningChunk(c.reasoningId.value, delta));
      }
    case ReasoningEndPart(_) =>
      if c.reasoningId.Some? {
        ReadOne(PlaceOf(c), ReasoningEnd(c.reasoningId.value));
      }
  }

  lemma ToolCallReads(opts: Options, c: CState, part: Part)
    requires Sane(c) && part.ToolCallPart?
    ensures Reads(opts, c, part)
  {
    var open, chunk := InStepNow(c), ToolInput(part.callId, part.name, Shown(opts, part.name, part.input));
    assert Opening(c) + Closing(c) + [chunk] == Opening(c) + (Closing(c) + [chunk]);
    OpeningThen(c, Closing(c) + [chunk]);
    assert Closing(open) == Closing(c);
    ClosingReads(open);
    ReadConcat(PlaceOf(open), Closing(c), [chunk]);
    ReadOne(PlaceOf(WithoutBlocks(open)), chunk);
  }

  lemma ToolResultReads(opts: Options, c: CState, part: Part)
    requires Sane(c) && part.ToolResultPart?
    ensures Reads(opts, c, part)
  {
    var chunk := ToolOutput(part.callId, Shown(opts, part.name, part.output));
    OpeningThen(c, [chunk]);
    ReadOne(PlaceOf(InStepNow(c)), chunk);
  }

  lemma FinishReads(opts: Options, c: CState)
    requires Sane(c)
    ensures Reads(opts, c, FinishPart)
  {
    if c.stepOpen {
      ClosingReads(c);
      ReadConcat(PlaceOf(c), Closing(c), [FinishStep]);
      ReadOne(PlaceOf(WithoutBlocks(c)), FinishStep);
    }
  }

  lemma PartReads(opts: Options, c: CState, part: Part)
    requires Sane(c)
    ensures Reads(opts, c, part)
  {
    if part.ToolCallPart? {
      ToolCallReads(opts, c, part);
    } else if part.ToolResultPart? {
      ToolResultReads(opts, c, part);
    } else if part.FinishPart? {
      FinishReads(opts, c);
    } else if part.TextStartPart? || part.TextDeltaPart? || part.TextEndPart? {
      TextPartReads(opts, c, part);
    } else if !part.OtherPart? && !part.CompactionPart? {
      ReasoningPartReads(opts, c, part);
    }
  }

  function LastChunks(end: End): seq<Chunk> {
    match end
    case Finished => [Finish]
    case Failed(usage, text) => (if usage then [Metadata] else []) + [ErrorChunk(text)]
  }

  lemma LastChunksClose(end: End)
    ensures ReadAll(BetweenSteps, LastChunks(end)) == Closed
  {
    ReadOne(BetweenSteps, Finish);
    if end.Failed? {
      ReadOne(BetweenSteps, Metadata);
      ReadOne(BetweenSteps, ErrorChunk(end.text));
      ReadConcat(BetweenSteps, if end.usage then [Metadata] else [], [ErrorChunk(end.text)]);
    }
  }

  lemma StepEnds(c: CState)
    requires c.messageStarted && c.textId.None? && c.reasoningId.None?
    ensures ReadAll(PlaceOf(c), if c.stepOpen then [FinishStep] else []) == BetweenSteps
  {
    ReadOne(InStep(None), FinishStep);
  }

  /** Wherever the message is, `finish` and `fail` complete it. */
  lemma TerminalCloses(c: CState, end: End)
    requires Sane(c)
    ensures ReadAll(PlaceOf(c), Terminal(c, end)) == Closed
  {
    var start := if c.messageStarted then [] else [Start];
    var step := if c.stepOpen then [FinishStep] else [];
    var begun := c.(messageStarted := true);
    ReadOne(Fresh, Start);
    ClosingReads(begun);
    StepEnds(WithoutBlocks(begun));
    LastChunksClose(end);
    ReadConcat(PlaceOf(c), start + Closing(c) + step, LastChunks(end));
    ReadConcat(PlaceOf(c), start + Closing(c), step);
    ReadConcat(PlaceOf(c), start, Closing(c));
  }

  // ----- the two composed -----

  /**
   The events of a turn, what the host submits meanwhile, and the end of a turn, after which the
   next one starts afresh.
   */
  datatype Input = Event(event: PiEvent) | Submitted(callId: string, result: HostResult) | TurnOver

  function HandleAll(opts: Options, c: CState, parts: seq<Part>): (CState, seq<Chunk>)
    decreases parts
  {
    if parts == [] then (c, [])
    else
      var r := Handle(opts, c, parts[0]);
      var rest := HandleAll(opts, r.0, parts[1..]);
      (rest.0, r.1 + rest.1)
  }

  function PartsOf(s: TState, input: Input): (TState, seq<Part>) {
    match input
    case Event(e) => Translate(s, e)
    case Submitted(callId, result) => (s.(hostResults := s.hostResults[callId := result]), [])
    case TurnOver => (NewTurn(s.names, s.nextId), [FinishPart])
  }

  /** All chunks of a run: its inputs, then its end. */
  function Chunks(opts: Options, s: TState, c: CState, inputs: seq<Input>, end: End): seq<Chunk>
    decreases inputs
  {
    if inputs == [] then Terminal(c, end)
    else
      var t := PartsOf(s, inputs[0]);
      var r := HandleAll(opts, c, t.1);
      r.1 + Chunks(opts, t.0, r.0, inputs[1..], end)
  }

  predicate FitsAll(opts: Options, c: CState, parts: seq<Part>)
    decreases parts
  {
    parts == [] || (Fits(opts, c, parts[0]) && FitsAll(opts, Handle(opts, c, parts[0]).0, parts[1..]))
  }

  lemma {:induction false} PartsRead(opts: Options, c: CState, parts: seq<Part>)
    requires Sane(c)
    ensures var r := HandleAll(opts, c, parts);
            && ReadAll(PlaceOf(c), r.1) == (if FitsAll(opts, c, parts) then PlaceOf(r.0) else Bad)
            && (FitsAll(opts, c, parts) ==> Sane(r.0))
    decreases parts
  {
    if parts != [] {
      var r := Handle(opts, c, parts[0]);
      PartReads(opts, c, parts[0]);
      var rest := HandleAll(opts, r.0, parts[1..]);
      ReadConcat(PlaceOf(c), r.1, rest.1);
      if Fits(opts, c, parts[0]) {
        PartsRead(opts, r.0, parts[1..]);
      } else {
        BadForGood(rest.1);
      }
    }
  }

  // ----- when the stream is well formed, in terms of the input -----

  datatype Kind = NoBlock | Text | Reasoning

  const NO_NAMES := ToolNames({}, map[])

  /** What the turn has open, and what the client has open. */
  datatype Track = Track(started: bool, block: Kind, shown: Kind)

  predicate ShownCall(opts: Options, names: ToolNames, e: PiEvent) {
    e.ToolStart? && e.callId != "" && e.name != "" && IsShown(opts, WireName(names, e.name))
  }

  /** A new block begins while the client still has another one open. */
  predicate Clashes(opts: Options, t: Track, input: Input) {
    && input.Event? && t.started
    && match input.event
       case TextDelta(_) => t.block != Text && t.shown != NoBlock && t.shown != t.block
       case ThinkingDelta(_) => opts.sendReasoning && t.block != Reasoning && t.shown != NoBlock && t.shown != t.block
       case _ => false
  }

  function Follow(opts: Options, names: ToolNames, t: Track, input: Input): Track {
    match input
    case TurnOver => Track(false, NoBlock, NoBlock)
    case Submitted(_, _) => t
    case Event(e) =>
      match e
      case TurnStart => Track(true, NoBlock, t.shown)
      case MessageStart(assistant) => if assistant then Track(true, NoBlock, t.shown) else t
      case TextDelta(_) => if t.started then Track(true, Text, Text) else t
      case ThinkingDelta(_) =>
        if !t.started then t
        else if opts.sendReasoning then Track(true, Reasoning, Reasoning)
        else Track(true, Reasoning, if t.shown == t.block then NoBlock else t.shown)
      case MessageEnd(_) =>
        if t.started then Track(true, NoBlock, if t.shown == t.block then NoBlock else t.shown) else t
      case _ => if ShownCall(opts, names, e) then t.(shown := NoBlock) else t
  }

  predicate Clean(opts: Options, names: ToolNames, t: Track, inputs: seq<Input>)
    decreases inputs
  {
    inputs == [] || (!Clashes(opts, t, inputs[0]) && Clean(opts, names, Follow(opts, names, t, inputs[0]), inputs[1..]))
  }

  function KindOfTurn(s: TState): Kind {
    if s.textId.Some? then Text else if s.reasoningStarted then Reasoning else NoBlock
  }

  function KindShown(c: CState): Kind {
    if c.textId.Some? then Text else if c.reasoningId.Some? then Reasoning else NoBlock
  }

  predicate Tracks(opts: Options, t: Track, s: TState, c: CState) {
    && Sane(c)
    && t == Track(s.promptStarted, KindOfTurn(s), KindShown(c))
    && (s.reasoningStarted <==> s.reasoningId.Some?)
    && !(s.textId.Some? && s.reasoningStarted)
    && (!s.promptStarted ==> t.block == NoBlock)
    && (t.block == Text ==> t.shown != Reasoning)
    && (t.block == Reasoning && opts.sendReasoning ==> t.shown != Text)
    && (!opts.sendReasoning ==> t.shown != Reasoning)
  }

  lemma HandleTwo(opts: Options, c: CState, a: Part, b: Part)
    ensures FitsAll(opts, c, [a, b]) <==> Fits(opts, c, a) && Fits(opts, Handle(opts, c, a).0, b)
    ensures HandleAll(opts, c, [a, b]).0 == Handle(opts, Handle(opts, c, a).0, b).0
  {
    HandleOne(opts, Handle(opts, c, a).0, b);
    assert [a, b][1..] == [b];
  }

  lemma HandleOne(opts: Options, c: CState, a: Part)
    ensures FitsAll(opts, c, [a]) <==> Fits(opts, c, a)
    ensures HandleAll(opts, c, [a]).0 == Handle(opts, c, a).0
    ensures HandleAll(opts, c, [a]).1 == Handle(opts, c, a).1
  {
    assert [a][1..] == [];
  }

  lemma HandleThree(opts: Options, c: CState, a: Part, b: Part, d: Part)
    ensures var c1 := Handle(opts, c, a).0;
            var c2 := Handle(opts, c1, b).0;
            && (FitsAll(opts, c, [a, b, d]) <==> Fits(opts, c, a) && Fits(opts, c1, b) && Fits(opts, c2, d))
            && HandleAll(opts, c, [a, b, d]).0 == Handle(opts, c2, d).0
  {
    HandleTwo(opts, Handle(opts, c, a).0, b, d);
    assert [a, b, d][1..] == [b, d];
  }

  lemma TextTracked(opts: Options, t: Track, s: TState, c: CState, delta: string)
    requires Tracks(opts, t, s, c) && s.promptStarted
    ensures var r := TranslateText(s, delta);
            && (FitsAll(opts, c, r.1) <==> !Clashes(opts, t, Event(TextDelta(delta))))
            && (FitsAll(opts, c, r.1) ==> Tracks(opts, Track(true, Text, Text), r.0, HandleAll(opts, c, r.1).0))
  {
    var parts := TranslateText(s, delta).1;
    if s.textId.Some? {
      assert parts == [TextDeltaPart(s.textId.value, delta)];
      HandleOne(opts, c, parts[0]);
    } else if s.reasoningStarted {
      assert parts == [ReasoningEndPart(s.reasoningId.value), TextStartPart(s.nextId), TextDeltaPart(s.nextId, delta)];
      HandleThree(opts, c, parts[0], parts[1], parts[2]);
    } else {
      assert parts == [TextStartPart(s.nextId), TextDeltaPart(s.nextId, delta)];
      HandleTwo(opts, c, parts[0], parts[1]);
    }
  }

  lemma ThinkingTracked(opts: Options, t: Track, s: TState, c: CState, delta: string)
    requires Tracks(opts, t, s, c) && s.promptStarted
    ensures var r := TranslateThinking(s, delta);
            && (FitsAll(opts, c, r.1) <==> !Clashes(opts, t, Event(ThinkingDelta(delta))))
            && (FitsAll(opts, c, r.1) ==>
                  Tracks(opts, Follow(opts, NO_NAMES, t, Event(ThinkingDelta(delta))), r.0, HandleAll(opts, c, r.1).0))
  {
    var parts := TranslateThinking(s, delta).1;
    if s.reasoningStarted {
      assert parts == [ReasoningDeltaPart(s.reasoningId.value, delta)];
      HandleOne(opts, c, parts[0]);
    } else if s.textId.Some? {
      assert parts == [TextEndPart(s.textId.value), ReasoningStartPart(s.nextId), ReasoningDeltaPart(s.nextId, delta)];
      HandleThree(opts, c, parts[0], parts[1], parts[2]);
    } else {
      assert parts == [ReasoningStartPart(s.nextId), ReasoningDeltaPart(s.nextId, delta)];
      HandleTwo(opts, c, parts[0], parts[1]);
    }
  }

  lemma EndTracked(opts: Options, t: Track, s: TState, c: CState, full: string)
    requires Tracks(opts, t, s, c) && s.promptStarted
    ensures var r := TranslateEnd(s, full);
            && FitsAll(opts, c, r.1)
            && Tracks(opts, Follow(opts, NO_NAMES, t, Event(MessageEnd(full))), r.0, HandleAll(opts, c, r.1).0)
  {
    var parts := TranslateEnd(s, full).1;
    if s.textId.Some? {
      if Gap(s.streamed, full) != "" {
        assert parts == [TextDeltaPart(s.textId.value, Gap(s.streamed, full)), TextEndPart(s.textId.value)];
        HandleTwo(opts, c, parts[0], parts[1]);
      } else {
        assert parts == [TextEndPart(s.textId.value)];
        HandleOne(opts, c, parts[0]);
      }
    } else if s.reasoningStarted {
      assert parts == [ReasoningEndPart(s.reasoningId.value)];
      HandleOne(opts, c, parts[0]);
    }
  }

  lemma ToolTracked(opts: Options, t: Track, s: TState, c: CState, e: PiEvent)
    requires Tracks(opts, t, s, c) && (e.ToolStart? || e.ToolEnd?)
    ensures var r := Translate(s, e);
            FitsAll(opts, c, r.1) && Tracks(opts, Follow(opts, s.names, t, Event(e)), r.0, HandleAll(opts, c, r.1).0)
  {
    var parts := Translate(s, e).1;
    if parts != [] {
      HandleOne(opts, c, parts[0]);
    }
  }

  lemma QuietTracked(opts: Options, t: Track, s: TState, c: CState, e: PiEvent)
    requires Tracks(opts, t, s, c)
    requires e.TurnStart? || e.MessageStart? || e.CompactionEnd? || e.OtherEvent? ||
             (!s.promptStarted && !e.ToolStart? && !e.ToolEnd?)
    ensures var r := Translate(s, e);
            && !Clashes(opts, t, Event(e)) && FitsAll(opts, c, r.1) && HandleAll(opts, c, r.1).0 == c
            && Tracks(opts, Follow(opts, s.names, t, Event(e)), r.0, c)
  {
    var parts := Translate(s, e).1;
    if parts != [] {
      HandleOne(opts, c, parts[0]);
    }
  }

  /** The parts fit exactly when the input does not clash, and then the tracking goes on. */
  predicate Tracked(opts: Options, t: Track, s: TState, c: CState, input: Input, n: TState, parts: seq<Part>) {
    && (FitsAll(opts, c, parts) <==> !Clashes(opts, t, input))
    && (FitsAll(opts, c, parts) ==> Tracks(opts, Follow(opts, s.names, t, input), n, HandleAll(opts, c, parts).0))
  }

  lemma EventTracked(opts: Options, t: Track, s: TState, c: CState, e: PiEvent)
    requires Tracks(opts, t, s, c)
    ensures Tracked(opts, t, s, c, Event(e), Translate(s, e).0, Translate(s, e).1)
  {
    if e.ToolStart? || e.ToolEnd? {
      ToolTracked(opts, t, s, c, e);
    } else if s.promptStarted && e.TextDelta? {
      TextTracked(opts, t, s, c, e.delta);
    } else if s.promptStarted && e.ThinkingDelta? {
      ThinkingTracked(opts, t, s, c, e.delta);
    } else if s.promptStarted && e.MessageEnd? {
      EndTracked(opts, t, s, c, e.fullText);
    } else {
      QuietTracked(opts, t, s, c, e);
    }
  }

  /** The input alone decides whether the next parts fit. */
  lemma InputTracked(opts: Options, t: Track, s: TState, c: CState, input: Input)
    requires Tracks(opts, t, s, c)
    ensures Tracked(opts, t, s, c, input, PartsOf(s, input).0, PartsOf(s, input).1)
    ensures PartsOf(s, input).0.names == s.names
  {
    if input.TurnOver? {
      HandleOne(opts, c, FinishPart);
    } else if input.Event? {
      EventTracked(opts, t, s, c, input.event);
    }
  }

  lemma {:induction false} ChunksRead(opts: Options, t: Track, s: TState, c: CState, inputs: seq<Input>, end: End)
    requires Tracks(opts, t, s, c)
    ensures ReadAll(PlaceOf(c), Chunks(opts, s, c, inputs, end)) ==
            if Clean(opts, s.names, t, inputs) then Closed else Bad
    decreases inputs
  {
    if inputs == [] {
      TerminalCloses(c, end);
    } else {
      var n := PartsOf(s, inputs[0]);
      var r := HandleAll(opts, c, n.1);
      var rest := Chunks(opts, n.0, r.0, inputs[1..], end);
      InputTracked(opts, t, s, c, inputs[0]);
      PartsRead(opts, c, n.1);
      ReadConcat(PlaceOf(c), r.1, rest);
      if FitsAll(opts, c, n.1) {
        ChunksRead(opts, Follow(opts, s.names, t, inputs[0]), n.0, r.0, inputs[1..], end);
      } else {
        BadForGood(rest);
      }
    }
  }

  const UNSTARTED := Track(false, NoBlock, NoBlock)

  /**
   For every sequence of events and turns, and either ending: the chunks form one
   well-formed message exactly when no block begins while the client still has another
   one open.
   */
  lemma WellFormedExactlyWhenClean(opts: Options, names: ToolNames, inputs: seq<Input>, end: End)
    ensures IsMessage(Chunks(opts, NewTurn(names, 0), NOTHING_SENT, inputs, end))
       <==> Clean(opts, names, UNSTARTED, inputs)
  {
    ChunksRead(opts, UNSTARTED, NewTurn(names, 0), NOTHING_SENT, inputs, end);
  }

  predicate IsStartEvent(input: Input) {
    input.Event? && (input.event.TurnStart? || (input.event.MessageStart? && input.event.assistant))
  }

  /** No turn or assistant message starts while the client has a block open. */
  predicate StartsBetweenBlocks(opts: Options, names: ToolNames, t: Track, inputs: seq<Input>)
    decreases inputs
  {
    inputs == [] ||
    ((IsStartEvent(inputs[0]) ==> t.shown == NoBlock)
     && StartsBetweenBlocks(opts, names, Follow(opts, names, t, inputs[0]), inputs[1..]))
  }

  lemma {:induction false} StartsBetweenBlocksIsClean(opts: Options, names: ToolNames, t: Track, inputs: seq<Input>)
    requires StartsBetweenBlocks(opts, names, t, inputs) && (t.shown == NoBlock || t.shown == t.block)
    ensures Clean(opts, names, t, inputs)
    decreases inputs
  {
    if inputs != [] {
      StartsBetweenBlocksIsClean(opts, names, Follow(opts, names, t, inputs[0]), inputs[1..]);
    }
  }

  /** Without that condition it fails: a second text block begins inside the first. */
  lemma StartInsideABlockBreaksTheMessage(opts: Options)
    ensures var inputs := [Event(TurnStart), Event(TextDelta("a")), Event(MessageStart(true)), Event(TextDelta("b"))];
            !IsMessage(Chunks(opts, NewTurn(NO_NAMES, 0), NOTHING_SENT, inputs, Finished))
  {
    var inputs := [Event(TurnStart), Event(TextDelta("a")), Event(MessageStart(true)), Event(TextDelta("b"))];
    assert inputs[1..] == [Event(TextDelta("a")), Event(MessageStart(true)), Event(TextDelta("b"))];
    assert inputs[1..][1..] == [Event(MessageStart(true)), Event(TextDelta("b"))];
    assert inputs[1..][1..][1..] == [Event(TextDelta("b"))];
    WellFormedExactlyWhenClean(opts, NO_NAMES, inputs, Finished);
  }

  // ----- the results that arrive -----

  function StateAfter(s: TState, inputs: seq<Input>): TState
    decreases inputs
  {
    if inputs == [] then s else StateAfter(PartsOf(s, inputs[0]).0, inputs[1..])
  }

  /** Within one turn, and not about the result of this call. */
  predicate LeavesResult(input: Input, callId: string) {
    match input
    case Event(e) => e.ToolEnd? ==> e.callId != callId
    case Submitted(other, _) => other != callId
    case TurnOver => false
  }

  lemma {:induction false} ResultIsKept(s: TState, callId: string, inputs: seq<Input>)
    requires callId in s.hostResults && forall i :: 0 <= i < |inputs| ==> LeavesResult(inputs[i], callId)
    ensures var t := StateAfter(s, inputs); callId in t.hostResults && t.hostResults[callId] == s.hostResults[callId]
    decreases inputs
  {
    if inputs != [] {
      assert LeavesResult(inputs[0], callId);
      ResultIsKept(PartsOf(s, inputs[0]).0, callId, inputs[1..]);
    }
  }

  /** The parts of two result events of one call, one after the other. */
  function TwoResults(t: TState, end: PiEvent): (seq<Part>, seq<Part>) {
    var first := Translate(t, end);
    (first.1, Translate(first.0, end).1)
  }

  lemma StoredResultIsUsedUp(t: TState, callId: string, name: Option<string>, echoed: string, isError: bool)
    requires callId != "" && callId in t.hostResults && ResultName(t, callId, name) != ""
    ensures var wire := ResultName(t, callId, name);
            TwoResults(t, ToolEnd(callId, name, echoed, isError)) ==
            ([ToolResultPart(callId, wire, ResultOf(t.hostResults, callId, echoed), isError)],
             [ToolResultPart(callId, wire, echoed, isError)])
  {
    var t' := TranslateResult(t, callId, name, echoed, isError).0;
    assert callId !in t'.hostResults && ResultName(t', callId, name) == ResultName(t, callId, name);
  }

  /**
   The result part of a call carries what the host submitted in place of the text the
   runtime echoes, whatever else the turn brings in between, and does so once: a further
   result event of the same call shows its own text.
   */
  lemma HostResultArrivesOnce(s: TState, callId: string, submitted: HostResult, inputs: seq<Input>,
                              name: Option<string>, echoed: string, isError: bool)
    requires callId != "" && forall i :: 0 <= i < |inputs| ==> LeavesResult(inputs[i], callId)
    requires ResultName(StateAfter(PartsOf(s, Submitted(callId, submitted)).0, inputs), callId, name) != ""
    ensures var t := StateAfter(PartsOf(s, Submitted(callId, submitted)).0, inputs);
            var wire := ResultName(t, callId, name);
            TwoResults(t, ToolEnd(callId, name, echoed, isError)) ==
            ([ToolResultPart(callId, wire, ResultOf(map[callId := submitted], callId, echoed), isError)],
             [ToolResultPart(callId, wire, echoed, isError)])
  {
    ResultIsKept(PartsOf(s, Submitted(callId, submitted)).0, callId, inputs);
    StoredResultIsUsedUp(StateAfter(PartsOf(s, Submitted(callId, submitted)).0, inputs), callId, name, echoed, isError);
  }

  // ----- the text that arrives -----

  function ChunkText(chunks: seq<Chunk>): string
    decreases chunks
  {
    if chunks == [] then "" else (if chunks[0].TextChunk? then chunks[0].delta else "") + ChunkText(chunks[1..])
  }

  lemma {:induction false} ChunkTextConcat(a: seq<Chunk>, b: seq<Chunk>)
    ensures ChunkText(a + b) == ChunkText(a) + ChunkText(b)
    decreases a
  {
    if a == [] {
      assert a + b == b;
    } else {
      ChunkTextConcat(a[1..], b);
      ConcatTail(a, b);
    }
  }

  function PartText(parts: seq<Part>): string
    decreases parts
  {
    if parts == [] then "" else (if parts[0].TextDeltaPart? then parts[0].delta else "") + PartText(parts[1..])
  }

  lemma NoTextInFrame(c: CState)
    ensures ChunkText(Opening(c)) == "" && ChunkText(Closing(c)) == ""
  {
    ChunkTextConcat(if c.messageStarted then [] else [Start], if c.stepOpen then [] else [StartStep]);
    ChunkTextConcat(if c.textId.Some? then [TextEnd(c.textId.value)] else [],
                    if c.reasoningId.Some? then [ReasoningEnd(c.reasoningId.value)] else []);
  }

  lemma OpeningThenText(c: CState, more: seq<Chunk>)
    ensures ChunkText(Opening(c) + more) == ChunkText(more)
  {
    NoTextInFrame(c);
    ChunkTextConcat(Opening(c), more);
  }

  lemma HandleBlockText(opts: Options, c: CState, part: Part)
    requires part.TextDeltaPart? || part.ReasoningDeltaPart?
    ensures ChunkText(Handle(opts, c, part).1) == if part.TextDeltaPart? then part.delta else ""
  {
    match part
    case TextDeltaPart(id, delta) =>
      var chunk := TextChunk(if c.textId.None? then id else c.textId.value, delta);
      assert [TextStart(id), chunk][1..] == [chunk];
      assert ChunkText([chunk]) == delta + ChunkText([]);
      OpeningThenText(c, if c.textId.None? then [TextStart(id), chunk] else [chunk]);
    case ReasoningDeltaPart(id, delta) =>
      var chunk := ReasoningChunk(if c.reasoningId.None? then id else c.reasoningId.value, delta);
      assert [ReasoningStart(id), chunk][1..] == [chunk];
      assert ChunkText([chunk]) == "" + ChunkText([]);
      OpeningThenText(c, if c.reasoningId.None? then [ReasoningStart(id), chunk] else [chunk]);
  }

  lemma HandleToolText(opts: Options, c: CState, part: Part)
    requires part.ToolCallPart? || part.ToolResultPart? || part.FinishPart?
    ensures ChunkText(Handle(opts, c, part).1) == ""
  {
    NoTextInFrame(c);
    match part
    case ToolCallPart(callId, name, input, _, _) =>
      ChunkTextConcat(Opening(c), Closing(c));
      ChunkTextConcat(Opening(c) + Closing(c), [ToolInput(callId, name, Shown(opts, name, input))]);
    case ToolResultPart(callId, name, output, _) => OpeningThenText(c, [ToolOutput(callId, Shown(opts, name, output))]);
    case FinishPart => ChunkTextConcat(Closing(c), [FinishStep]);
  }

  lemma HandleText(opts: Options, c: CState, part: Part)
    ensures ChunkText(Handle(opts, c, part).1) == if part.TextDeltaPart? then part.delta else ""
  {
    if part.TextDeltaPart? || part.ReasoningDeltaPart? {
      HandleBlockText(opts, c, part);
    } else if part.ToolCallPart? || part.ToolResultPart? || part.FinishPart? {
      HandleToolText(opts, c, part);
    } else if part.TextStartPart? {
      OpeningThenText(c, [TextStart(part.id)]);
    } else if part.ReasoningStartPart? {
      OpeningThenText(c, [ReasoningStart(part.id)]);
    }
  }

  lemma {:induction false} HandleAllText(opts: Options, c: CState, parts: seq<Part>)
    ensures ChunkText(HandleAll(opts, c, parts).1) == PartText(parts)
    decreases parts
  {
    if parts != [] {
      var r := Handle(opts, c, parts[0]);
      HandleText(opts, c, parts[0]);
      HandleAllText(opts, r.0, parts[1..]);
      ChunkTextConcat(r.1, HandleAll(opts, r.0, parts[1..]).1);
    }
  }

  lemma {:induction false} PartTextConcat(a: seq<Part>, b: seq<Part>)
    ensures PartText(a + b) == PartText(a) + PartText(b)
    decreases a
  {
    if a == [] {
      assert a + b == b;
    } else {
      PartTextConcat(a[1..], b);
      ConcatTail(a, b);
    }
  }

  /** The text one event adds to what the client sees. */
  function TextOf(s: TState, e: PiEvent): string {
    match e
    case TextDelta(delta) => if s.promptStarted then delta else ""
    case MessageEnd(full) => if s.promptStarted && s.textId.Some? then Gap(s.streamed, full) else ""
    case _ => ""
  }

  lemma DeltaText(s: TState, delta: string)
    ensures PartText(TranslateText(s, delta).1) == delta
  {
    var parts := TranslateText(s, delta).1;
    var frame, last := parts[..|parts| - 1], parts[|parts| - 1];
    assert parts == frame + [last];
    PartTextConcat(frame, [last]);
    SilentPrefix(frame);
    assert PartText([last]) == last.delta + PartText([]);
  }

  lemma EndText(s: TState, full: string)
    ensures PartText(TranslateEnd(s, full).1) == if s.textId.Some? then Gap(s.streamed, full) else ""
  {
    var parts := TranslateEnd(s, full).1;
    if s.textId.Some? && Gap(s.streamed, full) != "" {
      SilentPrefix(parts[1..]);
    } else {
      SilentPrefix(parts);
    }
  }

  lemma EventText(s: TState, e: PiEvent)
    ensures PartText(Translate(s, e).1) == TextOf(s, e)
  {
    match e
    case TextDelta(delta) => DeltaText(s, delta);
    case MessageEnd(full) => EndText(s, full);
    case _ => SilentPrefix(Translate(s, e).1);
  }

  lemma EventState(s: TState, e: PiEvent)
    requires s.promptStarted && !e.TurnStart? && !e.MessageStart? && !e.MessageEnd?
    ensures var t := Translate(s, e).0;
            && t.promptStarted
            && t.streamed == (if e.TextDelta? then s.streamed + e.delta else s.streamed)
            && t.textId.Some? == (if e.TextDelta? then true else if e.ThinkingDelta? then false else s.textId.Some?)
  {
  }

  lemma {:induction false} SilentPrefix(parts: seq<Part>)
    requires forall i :: 0 <= i < |parts| ==> !parts[i].TextDeltaPart?
    ensures PartText(parts) == ""
    decreases parts
  {
    if parts != [] {
      SilentPrefix(parts[1..]);
    }
  }

  /** The events of one message between its start and its end. */
  predicate WithinMessage(events: seq<PiEvent>) {
    forall i :: 0 <= i < |events| ==> !events[i].TurnStart? && !events[i].MessageStart? && !events[i].MessageEnd?
  }

  function Deltas(events: seq<PiEvent>): string
    decreases events
  {
    if events == [] then "" else (if events[0].TextDelta? then events[0].delta else "") + Deltas(events[1..])
  }

  /** Whether the text block is open after the events. */
  function EndsInText(open: bool, events: seq<PiEvent>): bool
    decreases events
  {
    if events == [] then open
    else if events[0].TextDelta? then EndsInText(true, events[1..])
    else if events[0].ThinkingDelta? then EndsInText(false, events[1..])
    else EndsInText(open, events[1..])
  }

  /** The chunks of a sequence of events. */
  function EventChunks(opts: Options, s: TState, c: CState, events: seq<PiEvent>): seq<Chunk>
    decreases events
  {
    if events == [] then []
    else
      var t := Translate(s, events[0]);
      var r := HandleAll(opts, c, t.1);
      r.1 + EventChunks(opts, t.0, r.0, events[1..])
  }

  lemma OneMoreEvent(opts: Options, s: TState, c: CState, events: seq<PiEvent>)
    requires events != []
    ensures ChunkText(EventChunks(opts, s, c, events))
         == TextOf(s, events[0])
            + ChunkText(EventChunks(opts, Translate(s, events[0]).0, HandleAll(opts, c, Translate(s, events[0]).1).0,
                                    events[1..]))
  {
    var t := Translate(s, events[0]);
    var r := HandleAll(opts, c, t.1);
    EventText(s, events[0]);
    HandleAllText(opts, c, t.1);
    ChunkTextConcat(r.1, EventChunks(opts, t.0, r.0, events[1..]));
  }

  function Completed(open: bool, streamed: string, full: string): string {
    if open && streamed <= full then full else streamed
  }

  lemma EndOfMessageText(opts: Options, s: TState, c: CState, full: string)
    requires s.promptStarted
    ensures s.streamed + ChunkText(EventChunks(opts, s, c, [MessageEnd(full)])) ==
            Completed(s.textId.Some?, s.streamed, full)
  {
    OneMoreEvent(opts, s, c, [MessageEnd(full)]);
    assert [MessageEnd(full)][1..] == [];
    assert ChunkText(EventChunks(opts, s, c, [MessageEnd(full)])) == TextOf(s, MessageEnd(full)) + "";
  }

  lemma {:induction false} MessageText(opts: Options, s: TState, c: CState, events: seq<PiEvent>, full: string)
    requires s.promptStarted && WithinMessage(events)
    ensures s.streamed + ChunkText(EventChunks(opts, s, c, events + [MessageEnd(full)]))
         == Completed(EndsInText(s.textId.Some?, events), s.streamed + Deltas(events), full)
    decreases events
  {
    if events == [] {
      EndOfMessageText(opts, s, c, full);
      assert events + [MessageEnd(full)] == [MessageEnd(full)] && s.streamed + "" == s.streamed;
    } else {
      var all, e := events + [MessageEnd(full)], events[0];
      var t := Translate(s, e).0;
      var r := HandleAll(opts, c, Translate(s, e).1).0;
      assert all[0] == e && all[1..] == events[1..] + [MessageEnd(full)];
      OneMoreEvent(opts, s, c, all);
      EventState(s, e);
      MessageText(opts, t, r, events[1..], full);
      assert t.streamed == s.streamed + TextOf(s, e) by {
        Regroup(s.streamed, "", "");
      }
      MessageTextStep(s.streamed, TextOf(s, e), Deltas(events[1..]), ChunkText(EventChunks(opts, t, r, all[1..])),
                      EndsInText(t.textId.Some?, events[1..]), full);
    }
  }

  lemma MessageTextStep(streamed: string, added: string, deltas: string, text: string, open: bool, full: string)
    requires (streamed + added) + text == Completed(open, (streamed + added) + deltas, full)
    ensures streamed + (added + text) == Completed(open, streamed + (added + deltas), full)
  {
    Regroup(streamed, added, text);
    Regroup(streamed, added, deltas);
  }

  lemma Regroup(a: string, b: string, c: string)
    ensures a + (b + c) == (a + b) + c && a + "" == a
  {
  }

  /**
   The client receives exactly the text of a message: the streamed deltas, completed to
   the full text whenever the deltas are a prefix of it and the text block is still open
   when the message ends.
   */
  lemma ClientSeesTheMessageText(opts: Options, s: TState, c: CState, events: seq<PiEvent>, full: string)
    requires WithinMessage(events)
    ensures ChunkText(EventChunks(opts, s, c, [MessageStart(true)] + events + [MessageEnd(full)]))
         == Completed(EndsInText(false, events), Deltas(events), full)
  {
    var all := [MessageStart(true)] + events + [MessageEnd(full)];
    assert all[1..] == events + [MessageEnd(full)];
    OneMoreEvent(opts, s, c, all);
    MessageText(opts, Opened(s), c, events, full);
    assert "" + Deltas(events) == Deltas(events);
  }
}

/**
 The translator and the converter as the source runs them: state updated in place, parts and
 chunks pushed one by one.
 */
module ChatStreamClass {
  import opened Prelude
  import opened ChatStream

  class PiTranslator {
    var promptStarted: bool
    var streamedAssistantText: string
    var currentTextId: Option<BlockId>
    var currentReasoningId: Option<BlockId>
    var reasoningStarted: bool
    var observedToolNames: map<string, string>
    var hostToolResults: map<string, HostResult>
    const names: ToolNames
    var nextId: BlockId

    ghost function View(): TState
      reads this
    {
      TState(promptStarted, streamedAssistantText, currentTextId, currentReasoningId, reasoningStarted,
             observedToolNames, hostToolResults, names, nextId)
    }

    constructor (names: ToolNames, firstId: BlockId)
      ensures View() == NewTurn(names, firstId)
    {
      promptStarted, streamedAssistantText := false, "";
      currentTextId, currentReasoningId, reasoningStarted := None, None, false;
      observedToolNames, hostToolResults := map[], map[];
      this.names, nextId := names, firstId;
    }

    method NewId() returns (id: BlockId)
      modifies this`nextId
      ensures id == old(nextId) && nextId == id + 1
    {
      id := nextId;
      nextId := nextId + 1;
    }

    method CloseReasoning(before: seq<Part>) returns (parts: seq<Part>)
      modifies this`currentReasoningId, this`reasoningStarted
      ensures var closes := old(reasoningStarted && currentReasoningId.Some?);
              && parts == before + (if closes then [ReasoningEndPart(old(currentReasoningId.value))] else [])
              && View() == if closes then old(View()).(reasoningStarted := false, reasoningId := None) else old(View())
    {
      parts := before;
      if reasoningStarted && currentReasoningId.Some? {
        parts := parts + [ReasoningEndPart(currentReasoningId.value)];
        reasoningStarted := false;
        currentReasoningId := None;
      }
    }

    method TextDeltaArrives(delta: string) returns (parts: seq<Part>)
      modifies this
      ensures View() == TranslateText(old(View()), delta).0
      ensures parts == TranslateText(old(View()), delta).1
    {
      parts := CloseReasoning([]);
      if currentTextId.None? {
        var id := NewId();
        currentTextId := Some(id);
        parts := parts + [TextStartPart(id)];
      }
      streamedAssistantText := streamedAssistantText + delta;
      parts := parts + [TextDeltaPart(currentTextId.value, delta)];
    }

    method ThinkingDeltaArrives(delta: string) returns (parts: seq<Part>)
      modifies this
      ensures View() == TranslateThinking(old(View()), delta).0
      ensures parts == TranslateThinking(old(View()), delta).1
    {
      parts := [];
      if currentTextId.Some? {
        parts := parts + [TextEndPart(currentTextId.value)];
        currentTextId := None;
      }
      if currentReasoningId.None? {
        var id := NewId();
        currentReasoningId := Some(id);
      }
      if !reasoningStarted {
        reasoningStarted := true;
        parts := parts + [ReasoningStartPart(currentReasoningId.value)];
      }
      parts := parts + [ReasoningDeltaPart(currentReasoningId.value, delta)];
    }

    method MessageEnds(fullText: string) returns (parts: seq<Part>)
      modifies this
      ensures View() == TranslateEnd(old(View()), fullText).0
      ensures parts == TranslateEnd(old(View()), fullText).1
    {
      parts := [];
      if currentTextId.Some? && streamedAssistantText <= fullText && |fullText| > |streamedAssistantText| {
        var missing := fullText[|streamedAssistantText|..];
        streamedAssistantText := fullText;
        parts := parts + [TextDeltaPart(currentTextId.value, missing)];
      }
      if currentTextId.Some? {
        parts := parts + [TextEndPart(currentTextId.value)];
        currentTextId := None;
      }
      parts := CloseReasoning(parts);
    }

    /** `translatePiEvent`. */
    method TranslateEvent(e: PiEvent) returns (parts: seq<Part>)
      modifies this
      ensures View() == Translate(old(View()), e).0
      ensures parts == Translate(old(View()), e).1
    {
      parts := [];
      match e {
        case TurnStart => Reset();
        case MessageStart(assistant) =>
          if assistant {
            Reset();
          }
        case TextDelta(delta) =>
          if promptStarted {
            parts := TextDeltaArrives(delta);
          }
        case ThinkingDelta(delta) =>
          if promptStarted {
            parts := ThinkingDeltaArrives(delta);
          }
        case MessageEnd(fullText) =>
          if promptStarted {
            parts := MessageEnds(fullText);
          }
        case ToolStart(callId, name, input) =>
          if callId != "" && name != "" {
            var wire := WireName(names, name);
            observedToolNames := observedToolNames[callId := wire];
            var native := if wire != name then Some(name) else None;
            parts := [ToolCallPart(callId, wire, input, native, name in names.builtin)];
          }
        case ToolEnd(callId, name, output, isError) =>
          if callId != "" {
            parts := ToolEnds(callId, name, output, isError);
          }
        case CompactionEnd(aborted, manual, result) =>
          if !aborted && result.Some? {
            parts := [CompactionPart(manual, SummaryOf(result.value), result.value.tokensBefore)];
          }
        case OtherEvent =>
      }
    }

    method ToolEnds(callId: string, name: Option<string>, output: string, isError: bool) returns (parts: seq<Part>)
      requires callId != ""
      modifies this`hostToolResults
      ensures View() == Translate(old(View()), ToolEnd(callId, name, output, isError)).0
      ensures parts == Translate(old(View()), ToolEnd(callId, name, output, isError)).1
    {
      var wire :=
        if callId in observedToolNames then observedToolNames[callId]
        else if name.Some? && name.value != "" then WireName(names, name.value) else "";
      if wire == "" {
        return [];
      }
      var result := output;
      if callId in hostToolResults {
        match hostToolResults[callId] {
          case Envelope(content) => result := content;
          case Plain(value) => result := value;
          case Nothing => result := "null";
        }
      }
      hostToolResults := hostToolResults - {callId};
      parts := [ToolResultPart(callId, wire, result, isError)];
    }

    /** The session records what the host submitted for one of its own tools. */
    method Submit(callId: string, result: HostResult)
      modifies this`hostToolResults
      ensures View() == PartsOf(old(View()), Submitted(callId, result)).0
    {
      hostToolResults := hostToolResults[callId := result];
    }

    method Reset()
      modifies this
      ensures View() == Opened(old(View()))
    {
      promptStarted, streamedAssistantText := true, "";
      currentTextId, currentReasoningId, reasoningStarted := None, None, false;
    }
  }

  class ChunkConverter {
    const options: Options
    var messageStarted: bool
    var stepOpen: bool
    var openTextId: Option<BlockId>
    var openReasoningId: Option<BlockId>

    ghost function View(): CState
      reads this
    {
      CState(messageStarted, stepOpen, openTextId, openReasoningId)
    }

    constructor (options: Options)
      ensures View() == NOTHING_SENT && this.options == options
    {
      this.options := options;
      messageStarted, stepOpen, openTextId, openReasoningId := false, false, None, None;
    }

    method OpenMessageAndStep(before: seq<Chunk>) returns (chunks: seq<Chunk>)
      modifies this`messageStarted, this`stepOpen
      ensures chunks == before + Opening(old(View())) && View() == InStepNow(old(View()))
    {
      chunks := before;
      if !messageStarted {
        messageStarted := true;
        chunks := chunks + [Start];
      }
      if !stepOpen {
        stepOpen := true;
        chunks := chunks + [StartStep];
      }
    }

    method CloseOpenBlocks(before: seq<Chunk>) returns (chunks: seq<Chunk>)
      modifies this`openTextId, this`openReasoningId
      ensures chunks == before + Closing(old(View())) && View() == WithoutBlocks(old(View()))
    {
      chunks := before;
      if openTextId.Some? {
        chunks := chunks + [TextEnd(openTextId.value)];
        openTextId := None;
      }
      if openReasoningId.Some? {
        chunks := chunks + [ReasoningEnd(openReasoningId.value)];
        openReasoningId := None;
      }
    }

    method HandleText(part: Part) returns (chunks: seq<Chunk>)
      requires part.TextStartPart? || part.TextDeltaPart? || part.TextEndPart?
      modifies this
      ensures View() == Handle(options, old(View()), part).0
      ensures chunks == Handle(options, old(View()), part).1
    {
      chunks := [];
      match part {
        case TextStartPart(id) =>
          chunks := OpenMessageAndStep(chunks);
          openTextId := Some(id);
          chunks := chunks + [TextStart(id)];
        case TextDeltaPart(id, delta) =>
          chunks := OpenMessageAndStep(chunks);
          if openTextId.None? {
            openTextId := Some(id);
            chunks := chunks + [TextStart(id)];
          }
          chunks := chunks + [TextChunk(openTextId.value, delta)];
        case TextEndPart(_) =>
          if openTextId.Some? {
            chunks := chunks + [TextEnd(openTextId.value)];
            openTextId := None;
          }
      }
    }

    method HandleReasoning(part: Part) returns (chunks: seq<Chunk>)
      requires part.ReasoningStartPart? || part.ReasoningDeltaPart? || part.ReasoningEndPart?
      modifies this
      ensures View() == Handle(options, old(View()), part).0
      ensures chunks == Handle(options, old(View()), part).1
    {
      chunks := [];
      match part {
        case ReasoningStartPart(id) =>
          if !options.sendReasoning {
            return;
          }
          chunks := OpenMessageAndStep(chunks);
          openReasoningId := Some(id);
          chunks := chunks + [ReasoningStart(id)];
        case ReasoningDeltaPart(id, delta) =>
          if !options.sendReasoning {
            return;
          }
          chunks := OpenMessageAndStep(chunks);
          if openReasoningId.None? {
            openReasoningId := Some(id);
            chunks := chunks + [ReasoningStart(id)];
          }
          chunks := chunks + [ReasoningChunk(openReasoningId.value, delta)];
        case ReasoningEndPart(_) =>
          if openReasoningId.Some? {
            chunks := chunks + [ReasoningEnd(openReasoningId.value)];
            openReasoningId := None;
          }
      }
    }

    /** `handlePart`. */
    method HandlePart(part: Part) returns (chunks: seq<Chunk>)
      modifies this
      ensures View() == Handle(options, old(View()), part).0
      ensures chunks == Handle(options, old(View()), part).1
    {
      chunks := [];
      if part.TextStartPart? || part.TextDeltaPart? || part.TextEndPart? {
        chunks := HandleText(part);
      } else if part.ReasoningStartPart? || part.ReasoningDeltaPart? || part.ReasoningEndPart? {
        chunks := HandleReasoning(part);
      } else if part.ToolCallPart? {
        if IsShown(options, part.name) {
          chunks := OpenMessageAndStep(chunks);
          chunks := CloseOpenBlocks(chunks);
          chunks := chunks + [ToolInput(part.callId, part.name, Shown(options, part.name, part.input))];
        }
      } else if part.ToolResultPart? {
        if IsShown(options, part.name) {
          chunks := OpenMessageAndStep(chunks);
          chunks := chunks + [ToolOutput(part.callId, Shown(options, part.name, part.output))];
        }
      } else if part.FinishPart? {
        if stepOpen {
          chunks := CloseOpenBlocks(chunks);
          chunks := chunks + [FinishStep];
          stepOpen := false;
        }
      }
    }

    /** `finish` and `fail`. */
    method EndMessage(end: End) returns (chunks: seq<Chunk>)
      modifies this
      ensures chunks == Terminal(old(View()), end)
      ensures View() == WithoutBlocks(old(View())).(messageStarted := true, stepOpen := false)
    {
      chunks := [];
      if !messageStarted {
        messageStarted := true;
        chunks := chunks + [Start];
      }
      chunks := CloseOpenBlocks(chunks);
      if stepOpen {
        chunks := chunks + [FinishStep];
        stepOpen := false;
      }
      chunks := PushLast(chunks, end);
    }

    method PushLast(before: seq<Chunk>, end: End) returns (chunks: seq<Chunk>)
      ensures chunks == before + LastChunks(end)
    {
      chunks := before;
      match end {
        case Finished => chunks := chunks + [Finish];
        case Failed(usage, text) =>
          if usage {
            chunks := chunks + [Metadata];
          }
          chunks := chunks + [ErrorChunk(text)];
      }
    }
  }
}
