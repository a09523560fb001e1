/** An Anthropic Messages stream converted into chat completion chunks. */
module AnthropicStream {
  import opened Options
  import opened ChatStream
  import opened AnthropicEvents

  /** `ordinals` numbers the tool blocks in the order they started. */
  datatype Converter = Converter(id: string, model: string, usage: Usage, ordinals: map<int, nat>, sentRole: bool)

  datatype Stop = Finished | Broke(message: string)

  /** The reaction to one event: at most one chunk, and whether reading stops. */
  datatype Reaction = Reaction(next: Converter, chunk: Option<Chunk>, stop: Option<Stop>)

  const TRUNCATED := "anthropic: upstream stream ended before completion"

  /** Applies the counts that are present. */
  function Merge(c: Counts, prev: Usage): Usage {
    var prompt := if c.input.Some? then c.input.value else prev.prompt;
    var completion := if c.output.Some? then c.output.value else prev.completion;
    var cached := if c.cached.Some? && c.cached.value > 0 then c.cached else prev.cached;
    Usage(prompt, completion, prompt + completion, cached)
  }

  function MapAnthropicStopReason(reason: string): string {
    if reason == "" then ""
    else if reason == "max_tokens" || reason == "model_context_window_exceeded" then "length"
    else if reason == "tool_use" then "tool_calls"
    else if reason == "refusal" then "content_filter"
    else "stop"
  }

  function FinishOf(reason: string): string {
    if reason == "" then "stop" else MapAnthropicStopReason(reason)
  }

  /** A chat client is given one of four finish reasons. */
  lemma {:induction false} FinishIs(reason: string)
    ensures FinishOf(reason) == "length" <==> reason in {"max_tokens", "model_context_window_exceeded"}
    ensures FinishOf(reason) == "tool_calls" <==> reason == "tool_use"
    ensures FinishOf(reason) == "content_filter" <==> reason == "refusal"
    ensures FinishOf(reason) in {"stop", "length", "tool_calls", "content_filter"}
  {
  }

  /** A chunk with one choice; the first one of the stream carries the role. */
  function Sent(s: Converter, content: string, reasoning: string, calls: seq<ToolDelta>, finish: string): Reaction {
    var role := if s.sentRole then "" else "assistant";
    Reaction(s.(sentRole := true),
             Some(Chunk(s.id, s.model, [ChunkChoice(0, Delta(role, content, reasoning, calls), finish)], None)), None)
  }

  function Silent(s: Converter): Reaction {
    Reaction(s, None, None)
  }

  function ReactDelta(s: Converter, index: int, d: BlockDelta): Reaction {
    if d.kind == JSON_DELTA then
      if d.json == "" || index !in s.ordinals then Silent(s)
      else Sent(s, "", "", [ToolDelta(Some(s.ordinals[index]), "", "", "", d.json)], "")
    else if d.thinking != "" then Sent(s, "", d.thinking, [], "")
    else if d.text != "" then Sent(s, d.text, "", [], "")
    else Silent(s)
  }

  function React(s: Converter, e: Event): Reaction {
    match e
    case Failure(message) => Reaction(s, None, Some(Broke("anthropic stream error: " + message)))
    case Unreadable => Reaction(s, None, Some(Broke("anthropic stream: malformed event")))
    case MessageStart(id, model, usage) =>
      Sent(s.(id := if id != "" then id else s.id, model := if model != "" then model else s.model, usage := Merge(usage, s.usage)),
           "", "", [], "")
    case BlockStart(index, block) =>
      if block.kind != TOOL_USE then Silent(s)
      else
        var ordinal := |s.ordinals|;
        Sent(s.(ordinals := s.ordinals[index := ordinal]), "", "",
             [ToolDelta(Some(ordinal), block.id, "function", block.name, StartArguments(block.input))], "")
    case ContentDelta(index, delta) => ReactDelta(s, index, delta)
    case MessageDelta(stop, usage) => Sent(s.(usage := Merge(usage, s.usage)), "", "", [], FinishOf(stop))
    case MessageStop => Reaction(s, None, Some(Finished))
    case BlockStop(_) => Silent(s)
    case Other => Silent(s)
  }

  /** The events read so far: the converter, the chunks sent and why reading stopped, if it did. */
  datatype Progress = Progress(state: Converter, sent: seq<Payload>, stop: Option<Stop>)

  function Advance(p: Progress, e: Event): Progress {
    if p.stop.Some? then p
    else
      var r := React(p.state, e);
      Progress(r.next, if r.chunk.Some? then p.sent + [Data(r.chunk.value)] else p.sent, r.stop)
  }

  function Begun(id: string, model: string): Progress {
    Progress(Converter(id, model, NO_USAGE, map[], false), [], None)
  }

  function Consume(p: Progress, es: seq<Event>): Progress {
    if es == [] then p else Advance(Consume(p, es[..|es| - 1]), es[|es| - 1])
  }

  /** What follows the last event: the usage and [DONE] after message_stop, else one error. */
  function Tail(p: Progress, readError: Option<string>): seq<Payload> {
    if p.stop == Some(Finished) then [Data(Chunk(p.state.id, p.state.model, [], Some(p.state.usage))), Done]
    else if p.stop.Some? then [Error(p.stop.value.message)]
    else [Error(if readError.Some? then readError.value else TRUNCATED)]
  }

  /** The whole chat stream for the events of a body that ends, or fails with a read error. */
  function Convert(id: string, model: string, es: seq<Event>, readError: Option<string>): seq<Payload> {
    var p := Consume(Begun(id, model), es);
    p.sent + Tail(p, readError)
  }

  class StreamAnthropic {
    var id: string
    var model: string
    var usage: Usage
    var toolOrdinals: map<int, nat>
    var sentRole: bool

    function View(): Converter
      reads this
    {
      Converter(id, model, usage, toolOrdinals, sentRole)
    }

    constructor (id: string, fallbackModel: string)
      ensures View() == Begun(id, fallbackModel).state
    {
      this.id, model, usage, toolOrdinals, sentRole := id, fallbackModel, NO_USAGE, map[], false;
    }

    method NewChunk(content: string, reasoning: string, calls: seq<ToolDelta>, finish: string) returns (chunk: Option<Chunk>)
      modifies this
      ensures Reaction(View(), chunk, None) == Sent(old(View()), content, reasoning, calls, finish)
    {
      var role := "";
      if !sentRole {
        role := "assistant";
        sentRole := true;
      }
      chunk := Some(Chunk(id, model, [ChunkChoice(0, Delta(role, content, reasoning, calls), finish)], None));
    }

    method Handle(e: Event) returns (chunk: Option<Chunk>, stop: Option<Stop>)
      modifies this
      ensures Reaction(View(), chunk, stop) == React(old(View()), e)
    {
      chunk, stop := None, None;
      match e {
        case Failure(message) =>
          stop := Some(Broke("anthropic stream error: " + message));
        case Unreadable =>
          stop := Some(Broke("anthropic stream: malformed event"));
        case MessageStart(newId, newModel, counts) =>
          if newId != "" {
            id := newId;
          }
          if newModel != "" {
            model := newModel;
          }
          usage := Merge(counts, usage);
          chunk := NewChunk("", "", [], "");
        case BlockStart(index, block) =>
          if block.kind == TOOL_USE {
            var ordinal := |toolOrdinals|;
            toolOrdinals := toolOrdinals[index := ordinal];
            chunk := NewChunk("", "", [ToolDelta(Some(ordinal), block.id, "function", block.name, StartArguments(block.input))], "");
          }
        case ContentDelta(index, delta) =>
          if delta.kind == JSON_DELTA {
            if delta.json != "" && index in toolOrdinals {
              chunk := NewChunk("", "", [ToolDelta(Some(toolOrdinals[index]), "", "", "", delta.json)], "");
            }
          } else if delta.thinking != "" {
            chunk := NewChunk("", delta.thinking, [], "");
          } else if delta.text != "" {
            chunk := NewChunk(delta.text, "", [], "");
          }
        case MessageDelta(reason, counts) =>
          usage := Merge(counts, usage);
          var finish := MapAnthropicStopReason(reason);
          if finish == "" {
            finish := "stop";
          }
          chunk := NewChunk("", "", [], finish);
        case MessageStop =>
          stop := Some(Finished);
        case BlockStop(_) =>
        case Other =>
      }
    }

    /** Reads events until one stops the stream or the body ends. */
    method Run(es: seq<Event>, readError: Option<string>) returns (payloads: seq<Payload>)
      modifies this
      ensures var p := Consume(Progress(old(View()), [], None), es);
              View() == p.state && payloads == p.sent + Tail(p, readError)
    {
      ghost var start := Progress(View(), [], None);
      payloads := [];
      var i, stop := 0, None;
      while i < |es| && stop == None
        invariant 0 <= i <= |es|
        invariant Progress(View(), payloads, stop) == Consume(start, es[..i])
      {
        var chunk;
        chunk, stop := Handle(es[i]);
        if chunk.Some? {
          payloads := payloads + [Data(chunk.value)];
        }
        assert es[..i + 1][..i] == es[..i];
        i := i + 1;
      }
      StoppedStays(start, es, i);
      payloads := payloads + Tail(Progress(View(), payloads, stop), readError);
    }
  }

  /** Nothing after the event that stopped the stream is read. */
  lemma {:induction false} StoppedStays(p: Progress, es: seq<Event>, i: nat)
    requires i <= |es| && (i < |es| ==> Consume(p, es[..i]).stop.Some?)
    ensures Consume(p, es) == Consume(p, es[..i])
  {
    if i < |es| {
      var n := |es| - 1;
      assert es[..n][..i] == es[..i];
      StoppedStays(p, es[..n], i);
    } else {
      assert es[..i] == es;
    }
  }

  // ---- The chunks say what the events said ----

  /** Every call is known to the client under its ordinal. */
  ghost predicate Numbered(keys: map<int, nat>, calls: nat) {
    forall k :: (k in keys <==> 0 <= k < calls) && (k in keys ==> keys[k] == k)
  }

  ghost predicate SameSoFar(s: Converter, a: Reader, c: Client) {
    && c.order == a.order && c.tools == a.tools && c.named
    && Numbered(c.keys, |c.tools|)
    && s.ordinals == a.blocks && |s.ordinals| == |a.tools|
    && s.usage == Usage(a.input, a.output, a.input + a.output, a.cached)
    && (c.finish == FinishOf(a.stop) || (c.finish == "" && a.stop == ""))
  }

  ghost predicate Conveyed(p: Progress, a: Reader, c: Client) {
    && SameSoFar(p.state, a, c)
    && c.ending == Open
    && a.ending == (if p.stop == None then Open else if p.stop == Some(Finished) then Complete else Failed)
  }

  /** The events before block `index` never started a tool block with it. */
  ghost predicate NewBlock(a: Reader, e: Event) {
    ToolStart(e) ==> e.index !in a.blocks && e.block.id != ""
  }

  /** A delta with the next number opens a call, under the number its block has. */
  lemma {:induction false} CallOpens(s: Converter, a: Reader, c: Client, e: Event, d: ToolDelta)
    requires a.Valid() && c.Valid() && a.ending == Open && SameSoFar(s, a, c)
    requires ToolStart(e) && NewBlock(a, e)
    requires d == ToolDelta(Some(|s.ordinals|), e.block.id, "function", e.block.name, StartArguments(e.block.input))
    ensures SameSoFar(React(s, e).next, ReadEvent(a, e), ReadTool(c, d))
  {
    hide FinishOf, StartArguments;
    assert s.ordinals[e.index := |s.ordinals|].Keys == s.ordinals.Keys + {e.index};
  }

  lemma {:induction false} StartConveyed(s: Converter, a: Reader, c: Client, e: Event)
    requires a.Valid() && c.Valid() && a.ending == Open && c.ending == Open && SameSoFar(s, a, c)
    requires ToolStart(e) && NewBlock(a, e)
    ensures var r := React(s, e);
            r.chunk.Some? && SameSoFar(r.next, ReadEvent(a, e), ReadPayload(c, Data(r.chunk.value)))
  {
    var d := ToolDelta(Some(|s.ordinals|), e.block.id, "function", e.block.name, StartArguments(e.block.input));
    assert ChoicePieces(React(s, e).chunk.value.choices[0]) == [Tool(d)];
    hide ReadPayload, ChoicePieces, ReadTool, ReadEvent, SameSoFar;
    ReadSingle(c, React(s, e).chunk.value, Tool(d));
    CallOpens(s, a, c, e, d);
  }

  lemma {:induction false} DeltaConveyed(s: Converter, a: Reader, c: Client, index: int, d: BlockDelta)
    requires a.Valid() && c.Valid() && a.ending == Open && c.ending == Open && SameSoFar(s, a, c)
    requires PlainDelta(d)
    ensures var r := ReactDelta(s, index, d);
            SameSoFar(r.next, ReadDelta(a, index, d), if r.chunk.Some? then ReadPayload(c, Data(r.chunk.value)) else c)
  {
    var r := ReactDelta(s, index, d);
    if r.chunk.Some? {
      var choice := r.chunk.value.choices[0];
      if d.kind == JSON_DELTA {
        var call := ToolDelta(Some(s.ordinals[index]), "", "", "", d.json);
        assert ChoicePieces(choice) == [Tool(call)];
        ReadSingle(c, r.chunk.value, Tool(call));
      } else {
        assert ChoicePieces(choice) == WordPieces(choice.delta.content);
        ReadSingle(c, r.chunk.value, Words(d.text));
      }
    } else if d.kind == JSON_DELTA && index in a.blocks {
      var n := a.blocks[index];
      assert d.json == "" && a.tools[n].arguments + "" == a.tools[n].arguments;
      assert AppendArguments(a.tools, n, d.json) == a.tools;
    }
  }

  /** The events with token counts: the start of the message and its end. */
  lemma {:induction false} CountsConveyed(s: Converter, a: Reader, c: Client, e: Event)
    requires a.Valid() && c.Valid() && a.ending == Open && c.ending == Open && SameSoFar(s, a, c)
    requires e.MessageStart? || e.MessageDelta?
    ensures var r := React(s, e); r.chunk.Some? && SameSoFar(r.next, ReadEvent(a, e), ReadPayload(c, Data(r.chunk.value)))
  {
    hide ReadPayload, ChoicePieces, Numbered, MapAnthropicStopReason, FinishOf, ReactDelta, ReadDelta;
    if e.MessageDelta? {
      FinishIs(e.stopReason);
    }
    var choice := React(s, e).chunk.value.choices[0];
    OnlyFinish(choice);
    ReadSingle(c, React(s, e).chunk.value, Finish(choice.finish));
  }

  lemma {:induction false} OnlyFinish(choice: ChunkChoice)
    requires choice.delta.content == "" && choice.delta.toolCalls == []
    ensures ChoicePieces(choice) == FinishPieces(choice.finish)
  {
  }

  lemma {:induction false} EventConveyed(s: Converter, a: Reader, c: Client, e: Event)
    requires a.Valid() && c.Valid() && a.ending == Open && c.ending == Open && SameSoFar(s, a, c)
    requires NewBlock(a, e) && (e.ContentDelta? ==> PlainDelta(e.delta))
    ensures var r := React(s, e);
            SameSoFar(r.next, ReadEvent(a, e), if r.chunk.Some? then ReadPayload(c, Data(r.chunk.value)) else c)
  {
    hide ReadPayload, Numbered, PlainDelta, FinishOf, Merge, ReactDelta, ReadDelta;
    if ToolStart(e) {
      hide SameSoFar;
      StartConveyed(s, a, c, e);
    } else if e.ContentDelta? {
      hide SameSoFar;
      DeltaConveyed(s, a, c, e.index, e.delta);
    } else if e.MessageStart? || e.MessageDelta? {
      hide SameSoFar;
      CountsConveyed(s, a, c, e);
    }
  }

  lemma {:induction false} StopAlike(s: Converter, a: Reader, e: Event)
    requires a.Valid() && a.ending == Open
    ensures ReadEvent(a, e).ending
         == (if React(s, e).stop == None then Open else if React(s, e).stop == Some(Finished) then Complete else Failed)
  {
  }

  lemma {:induction false} PiecesLeaveOpen(c: Client, p: Payload)
    requires c.Valid() && c.ending == Open && p.Data?
    ensures ReadPayload(c, p).ending == Open
  {
    PiecesKeepEnding(if p.chunk.usage.Some? then c.(usage := p.chunk.usage.value) else c, Pieces(p.chunk.choices));
  }

  lemma {:induction false} AdvanceConveyed(p: Progress, a: Reader, e: Event)
    requires a.Valid() && Conveyed(p, a, ReadPayloads(p.sent))
    requires p.stop.None? ==> NewBlock(a, e) && (e.ContentDelta? ==> PlainDelta(e.delta))
    ensures Conveyed(Advance(p, e), ReadEvent(a, e), ReadPayloads(Advance(p, e).sent))
  {
    if p.stop.None? {
      var c := ReadPayloads(p.sent);
      EventConveyed(p.state, a, c, e);
      StopAlike(p.state, a, e);
      var r := React(p.state, e);
      hide React, ReadEvent, ReadPayload, ReadPayloads, SameSoFar, NewBlock, PlainDelta;
      if r.chunk.Some? {
        PiecesLeaveOpen(c, Data(r.chunk.value));
        ReadNext(p.sent, Data(r.chunk.value));
      }
    }
  }

  /** The blocks a reader knows were started by events it has read. */
  lemma {:induction false} BlocksStarted(es: seq<Event>, index: int)
    requires index in Read(NEW_READER, es).blocks
    ensures exists i :: 0 <= i < |es| && ToolStart(es[i]) && es[i].index == index
  {
    var n := |es| - 1;
    if index in Read(NEW_READER, es[..n]).blocks {
      BlocksStarted(es[..n], index);
      var i :| 0 <= i < n && ToolStart(es[..n][i]) && es[..n][i].index == index;
      assert ToolStart(es[i]) && es[i].index == index;
    } else {
      assert ToolStart(es[n]) && es[n].index == index;
    }
  }

  lemma {:induction false} EventsConveyed(id: string, model: string, es: seq<Event>)
    requires WellFormed(es)
    ensures var p := Consume(Begun(id, model), es);
            Conveyed(p, Read(NEW_READER, es), ReadPayloads(p.sent))
  {
    if es != [] {
      var n := |es| - 1;
      var before := es[..n];
      assert forall i :: 0 <= i < n ==> before[i] == es[i];
      assert WellFormed(before);
      EventsConveyed(id, model, before);
      var a := Read(NEW_READER, before);
      if ToolStart(es[n]) && es[n].index in a.blocks {
        BlocksStarted(before, es[n].index);
      }
      AdvanceConveyed(Consume(Begun(id, model), before), a, es[n]);
    }
  }

  lemma {:induction false} UsageRead(c: Client, id: string, model: string, usage: Usage)
    requires c.Valid() && c.ending == Open
    ensures ReadPayload(c, Data(Chunk(id, model, [], Some(usage)))) == c.(usage := usage)
  {
  }

  /** What the end of the stream tells a client. */
  lemma {:induction false} TailRead(p: Progress, readError: Option<string>)
    requires ReadPayloads(p.sent).ending == Open
    ensures var c, told := ReadPayloads(p.sent), ReadPayloads(p.sent + Tail(p, readError));
            told == if p.stop == Some(Finished) then c.(usage := p.state.usage, ending := Complete) else c.(ending := Failed)
  {
    hide ReadPayloads;
    var end := Tail(p, readError);
    ReadNext(p.sent, end[0]);
    if p.stop == Some(Finished) {
      UsageRead(ReadPayloads(p.sent), p.state.id, p.state.model, p.state.usage);
      ReadNext(p.sent + [end[0]], end[1]);
      assert p.sent + [end[0]] + [end[1]] == p.sent + end;
    } else {
      assert p.sent + [end[0]] == p.sent + end;
    }
  }

  /**
     A client of the chunks learns the answer the events carry, with its token
     counts; it is told of success exactly when message_stop was read, and of a
     failure in every other case.
   */
  lemma {:induction false} ChunksSayTheSame(id: string, model: string, es: seq<Event>, readError: Option<string>)
    requires WellFormed(es)
    ensures var a := Read(NEW_READER, es);
            var c := ReadPayloads(Convert(id, model, es, readError));
            && c.order == a.order && c.tools == a.tools && c.named
            && c.ending == (if a.ending == Complete then Complete else Failed)
            && (c.ending == Complete ==> c.usage == Usage(a.input, a.output, a.input + a.output, a.cached))
            && (c.finish == FinishOf(a.stop) || (c.finish == "" && a.stop == ""))
  {
    EventsConveyed(id, model, es);
    var p := Consume(Begun(id, model), es);
    hide Consume, Read, ReadPayloads, Tail, FinishOf, Numbered, WellFormed;
    TailRead(p, readError);
  }

  /** The first chunk carries the id and model of the message it starts. */
  lemma {:induction false} FirstChunk(id: string, model: string, es: seq<Event>)
    requires es != [] && es[0].MessageStart? && es[0].id != "" && es[0].model != ""
    ensures var sent := Consume(Begun(id, model), es).sent;
            sent != [] && sent[0].Data? && sent[0].chunk.id == es[0].id && sent[0].chunk.model == es[0].model
  {
    var n := |es| - 1;
    if n == 0 {
      assert es[..0] == [];
    } else {
      FirstChunk(id, model, es[..n]);
    }
  }

  /** Every chunk has one choice; the first one names the speaker and no other does. */
  lemma {:induction false} RoleComesFirst(id: string, model: string, es: seq<Event>)
    ensures var p := Consume(Begun(id, model), es);
            && (p.state.sentRole <==> p.sent != [])
            && forall i :: 0 <= i < |p.sent| ==> p.sent[i].Data? && SpokenBy(p.sent[i].chunk, if i == 0 then "assistant" else "")
  {
    if es != [] {
      var n := |es| - 1;
      RoleComesFirst(id, model, es[..n]);
      var before := Consume(Begun(id, model), es[..n]);
      if before.stop.None? {
        ReactionIs(before.state, es[n]);
        hide React, SpokenBy;
      }
    }
  }

  ghost predicate SpokenBy(chunk: Chunk, role: string) {
    |chunk.choices| == 1 && chunk.choices[0].index == 0 && chunk.choices[0].delta.role == role && chunk.usage.None?
  }

  lemma {:induction false} ReactionIs(s: Converter, e: Event)
    ensures var r := React(s, e);
            && (r.chunk.Some? ==> SpokenBy(r.chunk.value, if s.sentRole then "" else "assistant") && r.next.sentRole)
            && (r.chunk.None? ==> r.next.sentRole == s.sentRole)
            && (r.chunk.Some? ==> r.chunk.value.id == r.next.id && r.chunk.value.model == r.next.model)
            && (!e.MessageStart? ==> r.next.id == s.id && r.next.model == s.model)
            && (r.stop.Some? <==> Ends(e))
  {
  }

  /** Nothing is read after such an event. */
  predicate Ends(e: Event) {
    e.Failure? || e.Unreadable? || e.MessageStop?
  }

  /** All chunks of a message carry its id and model, or those of the request where it gives none. */
  lemma {:induction false} ChunksAreNamed(id: string, model: string, es: seq<Event>, readError: Option<string>, i: nat)
    requires es != [] && es[0].MessageStart? && forall k :: 0 < k < |es| ==> !es[k].MessageStart?
    requires i < |Convert(id, model, es, readError)| && Convert(id, model, es, readError)[i].Data?
    ensures var chunk := Convert(id, model, es, readError)[i].chunk;
            && chunk.id == (if |es[0].id| > 0 then es[0].id else id)
            && chunk.model == (if |es[0].model| > 0 then es[0].model else model)
  {
    SentAreNamed(id, model, es);
  }

  lemma {:induction false} SentAreNamed(id: string, model: string, es: seq<Event>)
    requires es != [] && es[0].MessageStart? && forall k :: 0 < k < |es| ==> !es[k].MessageStart?
    ensures var p := Consume(Begun(id, model), es);
            && p.state.id == (if |es[0].id| > 0 then es[0].id else id) && p.state.model == (if |es[0].model| > 0 then es[0].model else model)
            && forall i :: 0 <= i < |p.sent| ==> p.sent[i].Data? && p.sent[i].chunk.id == p.state.id && p.sent[i].chunk.model == p.state.model
  {
    var n := |es| - 1;
    if n == 0 {
      assert es[..0] == [];
    } else {
      SentAreNamed(id, model, es[..n]);
      ReactionIs(Consume(Begun(id, model), es[..n]).state, es[n]);
      hide React;
    }
  }

  lemma {:induction false} StopIs(id: string, model: string, es: seq<Event>, i: nat)
    requires i <= |es| && (forall k :: 0 <= k < i ==> !Ends(es[k])) && (i < |es| ==> Ends(es[i]))
    ensures var p := Consume(Begun(id, model), es);
            if i == |es| then p.stop.None? else p.stop == React(Begun(id, model).state, es[i]).stop && p.stop.Some?
  {
    if es != [] {
      var n := |es| - 1;
      StopIs(id, model, es[..n], if i <= n then i else n);
      ReactionIs(Consume(Begun(id, model), es[..n]).state, es[n]);
    }
  }

  /** The first event that ends the stream decides its ending; without one it is an error. */
  lemma {:induction false} EndingIs(id: string, model: string, es: seq<Event>, readError: Option<string>, i: nat)
    requires i <= |es| && (forall k :: 0 <= k < i ==> !Ends(es[k])) && (i < |es| ==> Ends(es[i]))
    ensures var ps := Convert(id, model, es, readError);
            && ps != []
            && ps[|ps| - 1] == (if i == |es| then
                                  Error(if readError.Some? then readError.value else "anthropic: upstream stream ended before completion")
                                else if es[i].Failure? then Error("anthropic stream error: " + es[i].message)
                                else if es[i].Unreadable? then Error("anthropic stream: malformed event")
                                else Done)
  {
    StopIs(id, model, es, i);
    hide Consume;
  }

  // ---- Thinking text ----

  ghost predicate Ended(es: seq<Event>) {
    exists k :: 0 <= k < |es| && Ends(es[k])
  }

  /** The thinking text of the events that are read. */
  ghost function Thinking(es: seq<Event>): string {
    if es == [] then ""
    else
      var n := |es| - 1;
      Thinking(es[..n])
      + if !Ended(es[..n]) && es[n].ContentDelta? && es[n].delta.kind != "input_json_delta" then es[n].delta.thinking else ""
  }

  function ReasoningIn(ps: seq<Payload>): string {
    if ps == [] then ""
    else
      var last := ps[|ps| - 1];
      ReasoningIn(ps[..|ps| - 1])
      + if last.Data? && last.chunk.choices != [] then last.chunk.choices[0].delta.reasoning else ""
  }

  lemma {:induction false} ReasoningLast(ps: seq<Payload>, p: Payload)
    ensures ReasoningIn(ps + [p])
         == ReasoningIn(ps) + if p.Data? && p.chunk.choices != [] then p.chunk.choices[0].delta.reasoning else ""
  {
    assert (ps + [p])[..|ps|] == ps;
  }

  lemma {:induction false} EndedNow(es: seq<Event>)
    requires es != []
    ensures Ended(es) <==> Ended(es[..|es| - 1]) || Ends(es[|es| - 1])
  {
    assert forall k :: 0 <= k < |es| - 1 ==> es[..|es| - 1][k] == es[k];
  }

  lemma {:induction false} ThinkingSent(id: string, model: string, es: seq<Event>)
    ensures var p := Consume(Begun(id, model), es); (p.stop.Some? <==> Ended(es)) && ReasoningIn(p.sent) == Thinking(es)
  {
    if es != [] {
      var n := |es| - 1;
      ThinkingSent(id, model, es[..n]);
      EndedNow(es);
      var before := Consume(Begun(id, model), es[..n]);
      var r := React(before.state, es[n]);
      if before.stop.None? {
        ReactionIs(before.state, es[n]);
        ReactionReasons(before.state, es[n]);
        if r.chunk.Some? {
          ReasoningLast(before.sent, Data(r.chunk.value));
        }
      }
      hide React, ReasoningIn, Ended;
    }
  }

  lemma {:induction false} ReactionReasons(s: Converter, e: Event)
    ensures var r := React(s, e);
            var thinking := if e.ContentDelta? && e.delta.kind != "input_json_delta" then e.delta.thinking else "";
            if r.chunk.Some? then r.chunk.value.choices != [] && r.chunk.value.choices[0].delta.reasoning == thinking
            else thinking == ""
  {
  }

  /** The chunks carry all thinking text that was read, and no other. */
  lemma {:induction false} ThinkingSurvives(id: string, model: string, es: seq<Event>, readError: Option<string>)
    ensures ReasoningIn(Convert(id, model, es, readError)) == Thinking(es)
  {
    ThinkingSent(id, model, es);
    var p := Consume(Begun(id, model), es);
    var tail := Tail(p, readError);
    ReasoningLast(p.sent, tail[0]);
    if |tail| == 1 {
      assert p.sent + tail == p.sent + [tail[0]];
    } else {
      ReasoningLast(p.sent + [tail[0]], tail[1]);
      assert p.sent + tail == p.sent + [tail[0]] + [tail[1]];
    }
    hide ReasoningIn, Thinking, Consume;
  }
}
