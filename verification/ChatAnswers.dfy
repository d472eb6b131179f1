/**
 What reaches the client of a chat stream besides its shape: which tool calls and results
 under which setting, the model's reasoning, and how the message ends.
 */
module ChatAnswers {
  import opened Prelude
  import opened ChatStream

  // ----- tools -----

  /**
   Nothing of this tool is shown: it is internal or has no name, or `sendTools` is false, for all
   tools or for this one.
   */
  predicate SwitchedOff(opts: Options, name: string) {
    || name == "" || name == "submitResult" || name == "fileChange"
    || match opts.sendTools
       case Same(option) => option == Flag(false)
       case PerTool(options) => name in options && options[name] == Flag(false)
  }

  /** `sendTools` is 'names-only', for all tools or for this one. */
  predicate NamesOnly(opts: Options, name: string) {
    match opts.sendTools
    case Same(option) => option == Names
    case PerTool(options) => name in options && options[name] == Names
  }

  function Payload(opts: Options, name: string, value: string): Option<string> {
    if NamesOnly(opts, name) then None else Some(value)
  }

  predicate IsToolChunk(c: Chunk) {
    c.ToolInput? || c.ToolOutput?
  }

  function ToolChunks(chunks: seq<Chunk>): seq<Chunk>
    decreases chunks
  {
    if chunks == [] then [] else (if IsToolChunk(chunks[0]) then [chunks[0]] else []) + ToolChunks(chunks[1..])
  }

  /** One chunk for each part of a tool that is shown, with its call id, name and payload; none for the others. */
  function ToolsOf(opts: Options, part: Part): seq<Chunk> {
    match part
    case ToolCallPart(callId, name, input, _, _) =>
      if SwitchedOff(opts, name) then [] else [ToolInput(callId, name, Payload(opts, name, input))]
    case ToolResultPart(callId, name, output, _) =>
      if SwitchedOff(opts, name) then [] else [ToolOutput(callId, Payload(opts, name, output))]
    case _ => []
  }

  function ToolsOfAll(opts: Options, parts: seq<Part>): seq<Chunk>
    decreases parts
  {
    if parts == [] then [] else ToolsOf(opts, parts[0]) + ToolsOfAll(opts, parts[1..])
  }

  lemma {:induction false} ToolChunksConcat(a: seq<Chunk>, b: seq<Chunk>)
    ensures ToolChunks(a + b) == ToolChunks(a) + ToolChunks(b)
    decreases a
  {
    if a == [] {
      assert a + b == b;
    } else {
      ToolChunksConcat(a[1..], b);
      ConcatTail(a, b);
    }
  }

  lemma {:induction false} NoToolChunks(chunks: seq<Chunk>)
    requires forall i :: 0 <= i < |chunks| ==> !IsToolChunk(chunks[i])
    ensures ToolChunks(chunks) == []
    decreases chunks
  {
    if chunks != [] {
      NoToolChunks(chunks[1..]);
    }
  }

  lemma LastIsTool(before: seq<Chunk>, last: Chunk)
    requires forall i :: 0 <= i < |before| ==> !IsToolChunk(before[i])
    requires IsToolChunk(last)
    ensures ToolChunks(before + [last]) == [last]
  {
    NoToolChunks(before);
    ToolChunksConcat(before, [last]);
    assert [last][1..] == [];
  }

  lemma HandledCall(opts: Options, c: CState, part: Part)
    requires part.ToolCallPart?
    ensures ToolChunks(Handle(opts, c, part).1) == ToolsOf(opts, part)
  {
    var chunk := ToolInput(part.callId, part.name, Payload(opts, part.name, part.input));
    if SwitchedOff(opts, part.name) {
      assert Handle(opts, c, part).1 == [];
    } else {
      assert Handle(opts, c, part).1 == Opening(c) + Closing(c) + [chunk];
      LastIsTool(Opening(c) + Closing(c), chunk);
    }
  }

  lemma HandledResult(opts: Options, c: CState, part: Part)
    requires part.ToolResultPart?
    ensures ToolChunks(Handle(opts, c, part).1) == ToolsOf(opts, part)
  {
    var chunk := ToolOutput(part.callId, Payload(opts, part.name, part.output));
    if SwitchedOff(opts, part.name) {
      assert Handle(opts, c, part).1 == [];
    } else {
      assert Handle(opts, c, part).1 == Opening(c) + [chunk];
      LastIsTool(Opening(c), chunk);
    }
  }

  lemma HandledTools(opts: Options, c: CState, part: Part)
    ensures ToolChunks(Handle(opts, c, part).1) == ToolsOf(opts, part)
  {
    if part.ToolCallPart? {
      HandledCall(opts, c, part);
    } else if part.ToolResultPart? {
      HandledResult(opts, c, part);
    } else {
      OtherPartsShowNoTool(opts, c, part);
      NoToolChunks(Handle(opts, c, part).1);
    }
  }

  lemma OtherPartsShowNoTool(opts: Options, c: CState, part: Part)
    requires !part.ToolCallPart? && !part.ToolResultPart?
    ensures forall i :: 0 <= i < |Handle(opts, c, part).1| ==> !IsToolChunk(Handle(opts, c, part).1[i])
  {
  }

  /** The tool chunks of any parts are exactly those the settings allow, in the order of the parts. */
  lemma {:induction false} ToolsAreShownAsSet(opts: Options, c: CState, parts: seq<Part>)
    ensures ToolChunks(HandleAll(opts, c, parts).1) == ToolsOfAll(opts, parts)
    decreases parts
  {
    if parts != [] {
      var r := Handle(opts, c, parts[0]);
      HandledTools(opts, c, parts[0]);
      ToolsAreShownAsSet(opts, r.0, parts[1..]);
      ToolChunksConcat(r.1, HandleAll(opts, r.0, parts[1..]).1);
    }
  }

  /** The parts of a whole run. */
  function AllParts(s: TState, inputs: seq<Input>): seq<Part>
    decreases inputs
  {
    if inputs == [] then [] else PartsOf(s, inputs[0]).1 + AllParts(PartsOf(s, inputs[0]).0, inputs[1..])
  }

  lemma {:induction false} ToolsOfAllConcat(opts: Options, a: seq<Part>, b: seq<Part>)
    ensures ToolsOfAll(opts, a + b) == ToolsOfAll(opts, a) + ToolsOfAll(opts, b)
    decreases a
  {
    if a == [] {
      assert a + b == b;
    } else {
      ToolsOfAllConcat(opts, a[1..], b);
      ConcatTail(a, b);
    }
  }

  lemma FirstShown(opts: Options, c: CState, parts: seq<Part>, later: seq<Chunk>, laterParts: seq<Part>)
    requires ToolChunks(later) == ToolsOfAll(opts, laterParts)
    ensures ToolChunks(HandleAll(opts, c, parts).1 + later) == ToolsOfAll(opts, parts + laterParts)
  {
    ToolsAreShownAsSet(opts, c, parts);
    ToolChunksConcat(HandleAll(opts, c, parts).1, later);
    ToolsOfAllConcat(opts, parts, laterParts);
  }

  /** Of a whole run the client sees exactly the tools that the settings allow, in order. */
  lemma {:induction false} RunShowsToolsAsSet(opts: Options, s: TState, c: CState, inputs: seq<Input>, end: End)
    ensures ToolChunks(Chunks(opts, s, c, inputs, end)) == ToolsOfAll(opts, AllParts(s, inputs))
    decreases inputs
  {
    if inputs == [] {
      NoToolChunks(Terminal(c, end));
    } else {
      var t := PartsOf(s, inputs[0]);
      var r := HandleAll(opts, c, t.1);
      RunShowsToolsAsSet(opts, t.0, r.0, inputs[1..], end);
      FirstShown(opts, c, t.1, Chunks(opts, t.0, r.0, inputs[1..], end), AllParts(t.0, inputs[1..]));
    }
  }

  lemma {:induction false} ToolChunkIsListed(chunks: seq<Chunk>, chunk: Chunk)
    requires chunk in chunks && IsToolChunk(chunk)
    ensures chunk in ToolChunks(chunks)
    decreases chunks
  {
    if chunks[0] != chunk {
      ToolChunkIsListed(chunks[1..], chunk);
    }
  }

  predicate IsAllowed(opts: Options, chunk: Chunk) {
    match chunk
    case ToolInput(_, name, input) => !SwitchedOff(opts, name) && (NamesOnly(opts, name) ==> input == None)
    case ToolOutput(_, output) =>
      && opts.sendTools != Same(Flag(false))
      && (opts.sendTools == Same(Names) ==> output == None)
    case _ => true
  }

  lemma {:induction false} OnlyAllowed(opts: Options, parts: seq<Part>)
    ensures forall chunk :: chunk in ToolsOfAll(opts, parts) ==> IsAllowed(opts, chunk)
    decreases parts
  {
    if parts != [] {
      OnlyAllowed(opts, parts[1..]);
    }
  }

  /** So no input or output ever leaves under names-only, and nothing at all of a tool that is switched off. */
  lemma NothingHiddenLeaves(opts: Options, s: TState, c: CState, inputs: seq<Input>, end: End, chunk: Chunk)
    requires chunk in Chunks(opts, s, c, inputs, end)
    ensures match chunk
            case ToolInput(_, name, input) => !SwitchedOff(opts, name) && (NamesOnly(opts, name) ==> input == None)
            case ToolOutput(_, output) =>
              && opts.sendTools != Same(Flag(false))
              && (opts.sendTools == Same(Names) ==> output == None)
            case _ => true
  {
    if IsToolChunk(chunk) {
      RunShowsToolsAsSet(opts, s, c, inputs, end);
      ToolChunkIsListed(Chunks(opts, s, c, inputs, end), chunk);
      OnlyAllowed(opts, AllParts(s, inputs));
      assert IsAllowed(opts, chunk);
    }
  }

  // ----- what the translator makes of tools and compactions -----

  function CommonName(names: ToolNames, name: string): string {
    if name in names.common then names.common[name] else name
  }

  /**
   A call goes by its common name, keeps its native one beside it if they differ, and is marked
   when it runs natively.
   */
  lemma CallsAreTranslated(s: TState, callId: string, name: string, input: string)
    ensures var r := Translate(s, ToolStart(callId, name, input));
            if callId == "" || name == "" then r == (s, [])
            else
              var common := CommonName(s.names, name);
              var native := if common == name then None else Some(name);
              && r.1 == [ToolCallPart(callId, common, input, native, name in s.names.builtin)]
              && r.0 == s.(observed := s.observed[callId := common])
  {
  }

  /**
   A result goes by the name of its call, or else by its own, and keeps its error mark; without a
   name it is dropped.
   */
  lemma ResultsAreTranslated(s: TState, callId: string, name: Option<string>, echoed: string, isError: bool)
    ensures var r := Translate(s, ToolEnd(callId, name, echoed, isError));
            var wire := if callId in s.observed then s.observed[callId]
                        else if name.Some? && name.value != "" then CommonName(s.names, name.value) else "";
            if callId == "" || wire == "" then r == (s, [])
            else
              && r.0 == s.(hostResults := s.hostResults - {callId})
              && r.1 == [ToolResultPart(callId, wire,
                                        if callId !in s.hostResults then echoed
                                        else match s.hostResults[callId]
                                          case Envelope(content) => content
                                          case Plain(value) => value
                                          case Nothing => "null",
                                        isError)]
  {
  }

  /** A compaction that took place is reported, with its summary or a placeholder. */
  lemma CompactionsAreReported(s: TState, aborted: bool, manual: bool, result: Option<Compacted>)
    ensures Translate(s, CompactionEnd(aborted, manual, result))
         == (s, if aborted || result.None? then []
                else [CompactionPart(manual,
                                     if result.value.summary.Some? then result.value.summary.value
                                     else "(no summary provided)",
                                     result.value.tokensBefore)])
  {
  }

  /** The end of a turn finishes its step; the next one knows nothing of it but the ids in use. */
  lemma TurnsStartAfresh(s: TState)
    ensures PartsOf(s, TurnOver)
         == (TState(false, "", None, None, false, map[], map[], s.names, s.nextId), [FinishPart])
  {
  }

  // ----- reasoning -----

  function ChunkReasoning(chunks: seq<Chunk>): string
    decreases chunks
  {
    if chunks == [] then ""
    else (if chunks[0].ReasoningChunk? then chunks[0].delta else "") + ChunkReasoning(chunks[1..])
  }

  lemma {:induction false} ChunkReasoningConcat(a: seq<Chunk>, b: seq<Chunk>)
    ensures ChunkReasoning(a + b) == ChunkReasoning(a) + ChunkReasoning(b)
    decreases a
  {
    if a == [] {
      assert a + b == b;
    } else {
      ChunkReasoningConcat(a[1..], b);
      ConcatTail(a, b);
    }
  }

  lemma {:induction false} NoReasoning(chunks: seq<Chunk>)
    requires forall i :: 0 <= i < |chunks| ==> !chunks[i].ReasoningChunk?
    ensures ChunkReasoning(chunks) == ""
    decreases chunks
  {
    if chunks != [] {
      NoReasoning(chunks[1..]);
    }
  }

  lemma LastIsReasoning(before: seq<Chunk>, id: BlockId, delta: string)
    requires forall i :: 0 <= i < |before| ==> !before[i].ReasoningChunk?
    ensures ChunkReasoning(before + [ReasoningChunk(id, delta)]) == delta
  {
    NoReasoning(before);
    ChunkReasoningConcat(before, [ReasoningChunk(id, delta)]);
    assert [ReasoningChunk(id, delta)][1..] == [];
    assert delta + "" == delta;
  }

  lemma HandledReasoning(opts: Options, c: CState, part: Part)
    ensures ChunkReasoning(Handle(opts, c, part).1) ==
            if part.ReasoningDeltaPart? && opts.sendReasoning then part.delta else ""
  {
    if part.ReasoningDeltaPart? && opts.sendReasoning {
      if c.reasoningId.None? {
        LastIsReasoning(Opening(c) + [ReasoningStart(part.id)], part.id, part.delta);
        assert Opening(c) + [ReasoningStart(part.id), ReasoningChunk(part.id, part.delta)]
            == Opening(c) + [ReasoningStart(part.id)] + [ReasoningChunk(part.id, part.delta)];
      } else {
        LastIsReasoning(Opening(c), c.reasoningId.value, part.delta);
      }
    } else {
      NoReasoning(Handle(opts, c, part).1);
    }
  }

  function PartReasoning(parts: seq<Part>): string
    decreases parts
  {
    if parts == [] then ""
    else (if parts[0].ReasoningDeltaPart? then parts[0].delta else "") + PartReasoning(parts[1..])
  }

  lemma {:induction false} HandledReasoningAll(opts: Options, c: CState, parts: seq<Part>)
    ensures ChunkReasoning(HandleAll(opts, c, parts).1) == if opts.sendReasoning then PartReasoning(parts) else ""
    decreases parts
  {
    if parts != [] {
      var r := Handle(opts, c, parts[0]);
      HandledReasoning(opts, c, parts[0]);
      HandledReasoningAll(opts, r.0, parts[1..]);
      ChunkReasoningConcat(r.1, HandleAll(opts, r.0, parts[1..]).1);
    }
  }

  lemma {:induction false} NoPartReasoning(parts: seq<Part>)
    requires forall i :: 0 <= i < |parts| ==> !parts[i].ReasoningDeltaPart?
    ensures PartReasoning(parts) == ""
    decreases parts
  {
    if parts != [] {
      NoPartReasoning(parts[1..]);
    }
  }

  lemma {:induction false} PartReasoningLast(before: seq<Part>, id: BlockId, delta: string)
    requires forall i :: 0 <= i < |before| ==> !before[i].ReasoningDeltaPart?
    ensures PartReasoning(before + [ReasoningDeltaPart(id, delta)]) == delta
    decreases before
  {
    if before == [] {
      assert before + [ReasoningDeltaPart(id, delta)] == [ReasoningDeltaPart(id, delta)];
      assert [ReasoningDeltaPart(id, delta)][1..] == [];
      assert delta + "" == delta;
    } else {
      PartReasoningLast(before[1..], id, delta);
      ConcatTail(before, [ReasoningDeltaPart(id, delta)]);
    }
  }

  /** Whether a turn or assistant message has started since the last turn was over. */
  function Started(started: bool, input: Input): bool {
    match input
    case TurnOver => false
    case Submitted(_, _) => started
    case Event(e) => started || e.TurnStart? || (e.MessageStart? && e.assistant)
  }

  /** The model's reasoning: the thinking deltas of started turns, in order. */
  function Thinking(started: bool, inputs: seq<Input>): string
    decreases inputs
  {
    if inputs == [] then ""
    else
      var here := if started && inputs[0].Event? && inputs[0].event.ThinkingDelta? then inputs[0].event.delta else "";
      here + Thinking(Started(started, inputs[0]), inputs[1..])
  }

  lemma ThinkingParts(s: TState, delta: string)
    ensures PartReasoning(TranslateThinking(s, delta).1) == delta
  {
    var parts := TranslateThinking(s, delta).1;
    var before := parts[..|parts| - 1];
    assert parts == before + [parts[|parts| - 1]];
    PartReasoningLast(before, parts[|parts| - 1].id, delta);
  }

  lemma OtherInputsDoNotThink(s: TState, input: Input)
    requires !(s.promptStarted && input.Event? && input.event.ThinkingDelta?)
    ensures forall i :: 0 <= i < |PartsOf(s, input).1| ==> !PartsOf(s, input).1[i].ReasoningDeltaPart?
  {
  }

  lemma InputStarts(s: TState, input: Input)
    ensures PartsOf(s, input).0.promptStarted == Started(s.promptStarted, input)
  {
  }

  lemma InputReasoning(s: TState, input: Input)
    ensures PartReasoning(PartsOf(s, input).1)
         == if s.promptStarted && input.Event? && input.event.ThinkingDelta? then input.event.delta else ""
  {
    if s.promptStarted && input.Event? && input.event.ThinkingDelta? {
      ThinkingParts(s, input.event.delta);
    } else {
      OtherInputsDoNotThink(s, input);
      NoPartReasoning(PartsOf(s, input).1);
    }
  }

  /** The client receives exactly the model's reasoning, or none of it when `sendReasoning` is off. */
  lemma {:induction false} ClientSeesTheReasoning(opts: Options, s: TState, c: CState, inputs: seq<Input>, end: End)
    ensures ChunkReasoning(Chunks(opts, s, c, inputs, end))
         == if opts.sendReasoning then Thinking(s.promptStarted, inputs) else ""
    decreases inputs
  {
    if inputs == [] {
      NoReasoning(Terminal(c, end));
    } else {
      var t := PartsOf(s, inputs[0]);
      var r := HandleAll(opts, c, t.1);
      InputReasoning(s, inputs[0]);
      InputStarts(s, inputs[0]);
      HandledReasoningAll(opts, c, t.1);
      ClientSeesTheReasoning(opts, t.0, r.0, inputs[1..], end);
      ChunkReasoningConcat(r.1, Chunks(opts, t.0, r.0, inputs[1..], end));
    }
  }

  // ----- block ids -----

  /** A block has the id of the part that opens it, and keeps it. */
  lemma BlocksKeepTheirIds(opts: Options, c: CState, part: Part)
    ensures var r := Handle(opts, c, part);
            match part
            case TextStartPart(id) => r.0.textId == Some(id) && TextStart(id) in r.1
            case TextDeltaPart(id, delta) =>
              var open := if c.textId.Some? then c.textId.value else id;
              r.0.textId == Some(open) && TextChunk(open, delta) in r.1
            case ReasoningStartPart(id) =>
              opts.sendReasoning ==> r.0.reasoningId == Some(id) && ReasoningStart(id) in r.1
            case ReasoningDeltaPart(id, delta) =>
              opts.sendReasoning ==>
                var open := if c.reasoningId.Some? then c.reasoningId.value else id;
                r.0.reasoningId == Some(open) && ReasoningChunk(open, delta) in r.1
            case _ => true
  {
  }

  predicate Opens(part: Part) {
    part.TextStartPart? || part.ReasoningStartPart?
  }

  /** The blocks opened by the parts have ids from `from` up to, not including, `to`, in increasing order. */
  ghost predicate FreshIds(parts: seq<Part>, from: nat, to: nat) {
    && (forall i :: 0 <= i < |parts| && Opens(parts[i]) ==> from <= parts[i].id < to)
    && (forall i, j :: 0 <= i < j < |parts| && Opens(parts[i]) && Opens(parts[j]) ==> parts[i].id < parts[j].id)
  }

  predicate ReasoningInStep(s: TState) {
    s.reasoningStarted <==> s.reasoningId.Some?
  }

  lemma TextOpensFresh(s: TState, delta: string)
    requires ReasoningInStep(s)
    ensures var t := TranslateText(s, delta);
            s.nextId <= t.0.nextId && ReasoningInStep(t.0) && FreshIds(t.1, s.nextId, t.0.nextId)
  {
  }

  lemma ThinkingOpensFresh(s: TState, delta: string)
    requires ReasoningInStep(s)
    ensures var t := TranslateThinking(s, delta);
            s.nextId <= t.0.nextId && ReasoningInStep(t.0) && FreshIds(t.1, s.nextId, t.0.nextId)
  {
  }

  lemma EndOpensNothing(s: TState, full: string)
    requires ReasoningInStep(s)
    ensures var t := TranslateEnd(s, full);
            s.nextId <= t.0.nextId && ReasoningInStep(t.0) && FreshIds(t.1, s.nextId, t.0.nextId)
  {
  }

  lemma InputOpensFresh(s: TState, input: Input)
    requires ReasoningInStep(s)
    ensures var t := PartsOf(s, input);
            s.nextId <= t.0.nextId && ReasoningInStep(t.0) && FreshIds(t.1, s.nextId, t.0.nextId)
  {
    if input.Event? {
      match input.event
      case TextDelta(delta) => TextOpensFresh(s, delta);
      case ThinkingDelta(delta) => ThinkingOpensFresh(s, delta);
      case MessageEnd(full) => EndOpensNothing(s, full);
      case _ =>
    }
  }

  lemma FreshIdsConcat(a: seq<Part>, b: seq<Part>, from: nat, mid: nat, to: nat)
    requires FreshIds(a, from, mid) && FreshIds(b, mid, to) && from <= mid <= to
    ensures FreshIds(a + b, from, to)
  {
  }

  function IdAfter(s: TState, inputs: seq<Input>): nat
    decreases inputs
  {
    if inputs == [] then s.nextId else IdAfter(PartsOf(s, inputs[0]).0, inputs[1..])
  }

  /** In a whole run no two blocks are opened under the same id. */
  lemma {:induction false} BlocksAreOpenedUnderFreshIds(s: TState, inputs: seq<Input>)
    requires ReasoningInStep(s)
    ensures s.nextId <= IdAfter(s, inputs) && FreshIds(AllParts(s, inputs), s.nextId, IdAfter(s, inputs))
    decreases inputs
  {
    if inputs != [] {
      var t := PartsOf(s, inputs[0]);
      InputOpensFresh(s, inputs[0]);
      BlocksAreOpenedUnderFreshIds(t.0, inputs[1..]);
      FreshIdsConcat(t.1, AllParts(t.0, inputs[1..]), s.nextId, t.0.nextId, IdAfter(s, inputs));
    }
  }

  // ----- the end -----

  lemma PartsSendNoMetadata(opts: Options, c: CState, part: Part)
    ensures Metadata !in Handle(opts, c, part).1
  {
  }

  lemma {:induction false} HandledWithoutMetadata(opts: Options, c: CState, parts: seq<Part>)
    ensures Metadata !in HandleAll(opts, c, parts).1
    decreases parts
  {
    if parts != [] {
      PartsSendNoMetadata(opts, c, parts[0]);
      HandledWithoutMetadata(opts, Handle(opts, c, parts[0]).0, parts[1..]);
    }
  }

  lemma Regrouped(a: seq<Chunk>, b: seq<Chunk>, c: seq<Chunk>)
    ensures a + (b + c) == (a + b) + c
    ensures Metadata in a + b <==> Metadata in a || Metadata in b
  {
  }

  lemma {:induction false} RunEndsInTerminal(opts: Options, s: TState, c: CState, inputs: seq<Input>, end: End)
    returns (before: seq<Chunk>, last: CState)
    ensures Chunks(opts, s, c, inputs, end) == before + Terminal(last, end) && Metadata !in before
    decreases inputs
  {
    if inputs == [] {
      before, last := [], c;
    } else {
      var t := PartsOf(s, inputs[0]);
      var r := HandleAll(opts, c, t.1);
      HandledWithoutMetadata(opts, c, t.1);
      before, last := RunEndsInTerminal(opts, t.0, r.0, inputs[1..], end);
      Regrouped(r.1, before, Terminal(last, end));
      before := r.1 + before;
    }
  }

  /**
   A run that finished ends in `finish`; one that failed in its error text, right after its usage
   if that is known.
   */
  lemma MessageEndsAsTheRunDid(opts: Options, s: TState, c: CState, inputs: seq<Input>, end: End)
    ensures var chunks := Chunks(opts, s, c, inputs, end);
            match end
            case Finished => chunks != [] && chunks[|chunks| - 1] == Finish && Metadata !in chunks
            case Failed(usage, text) =>
              && chunks != [] && chunks[|chunks| - 1] == ErrorChunk(text)
              && (usage <==> Metadata in chunks)
              && (usage ==> |chunks| > 1 && chunks[|chunks| - 2] == Metadata)
  {
    var before, last := RunEndsInTerminal(opts, s, c, inputs, end);
    assert Metadata in Terminal(last, end) <==> end.Failed? && end.usage;
    var chunks := Chunks(opts, s, c, inputs, end);
    assert Metadata in chunks <==> Metadata in before || Metadata in Terminal(last, end);
  }
}
