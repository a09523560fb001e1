/** Chat completion chunks translated into an Anthropic Messages stream. */
module MessagesStream {
  import opened Options
  import opened Texts
  import opened ChatStream
  import opened ToolCalls
  import opened AnthropicEvents

  /** `blocks` counts the started content blocks; `textBlock` is the open text block or -1. */
  datatype Messages = Messages(id: string, model: string, usage: Usage, started: bool, completed: bool,
                               stopReason: string, finishReason: string,
                               blocks: nat, textBlock: int, open: seq<int>, calls: Calls)

  const NEW_MESSAGES := Messages("", "", NO_USAGE, false, false, "", "", 0, -1, [], Calls([], map[]))

  /** A state and everything emitted on the way to it. */
  datatype Out = Out(next: Messages, events: seq<Event>)

  function Start(id: string, model: string, prompt: int): Event {
    MessageStart(id, model, Counts(Some(prompt), Some(0), None))
  }

  function TextDelta(index: int, text: string): Event {
    ContentDelta(index, BlockDelta(TEXT_DELTA, text, "", ""))
  }

  function ArgumentsDelta(index: int, arguments: string): Event {
    ContentDelta(index, BlockDelta(JSON_DELTA, "", "", arguments))
  }

  function ToolBlock(id: string, name: string): Block {
    Block(TOOL_USE, id, name, "{}")
  }

  const TEXT_BLOCK := Block(TEXT, "", "", "")

  /** The id shown for a call whose upstream sent none. */
  function ShownId(stream: string, call: Collected): string {
    if call.id != "" then call.id
    else "toolu_" + FirstNonEmpty(stream, "stream") + "_" + Decimal(call.position)
  }

  /** The list without the first place that holds `x`. */
  function Without(s: seq<int>, x: int): seq<int> {
    if s == [] then [] else if s[0] == x then s[1..] else [s[0]] + Without(s[1..], x)
  }

  function CloseText(t: Messages): Out {
    if t.textBlock < 0 then Out(t, [])
    else Out(t.(textBlock := -1, open := Without(t.open, t.textBlock)), [BlockStop(t.textBlock)])
  }

  function TakeWords(t: Messages, text: string): Out {
    if t.textBlock < 0 then
      Out(t.(textBlock := t.blocks, blocks := t.blocks + 1, open := t.open + [t.blocks]),
          [BlockStart(t.blocks, TEXT_BLOCK), TextDelta(t.blocks, text)])
    else Out(t, [TextDelta(t.textBlock, text)])
  }

  /** Adds the delta to its call, opening a block for a new one; the text block is closed already. */
  function TakeCall(t: Messages, d: ToolDelta): Out
    requires t.calls.Valid()
  {
    var a := Add(t.calls, d, t.blocks);
    var call := a.calls.list[a.at];
    var next := if a.isNew then t.(calls := a.calls, blocks := t.blocks + 1, open := t.open + [t.blocks]) else t.(calls := a.calls);
    Out(next,
        (if a.isNew then [BlockStart(call.position, ToolBlock(ShownId(t.id, call), call.name))] else [])
        + (if d.arguments != "" then [ArgumentsDelta(call.position, d.arguments)] else []))
  }

  function TakePiece(t: Messages, p: Piece): (o: Out)
    requires t.calls.Valid()
    ensures o.next.calls.Valid()
  {
    match p
    case Words(text) => TakeWords(t, text)
    case Tool(d) =>
      var closed := CloseText(t);
      var o := TakeCall(closed.next, d);
      Out(o.next, closed.events + o.events)
    case Finish(reason) => Out(t.(finishReason := reason, stopReason := MapOpenAIStopReason(reason)), [])
  }

  function MapOpenAIStopReason(reason: string): string {
    if reason == "length" then "max_tokens" else if reason == "tool_calls" then "tool_use" else "end_turn"
  }

  /** The pieces after what was emitted before. */
  function TakePieces(o: Out, ps: seq<Piece>): (o': Out)
    requires o.next.calls.Valid()
    ensures o'.next.calls.Valid()
  {
    if ps == [] then o else Then(TakePieces(o, ps[..|ps| - 1]), ps[|ps| - 1])
  }

  function Then(o: Out, p: Piece): (o': Out)
    requires o.next.calls.Valid()
    ensures o'.next.calls.Valid()
  {
    var more := TakePiece(o.next, p);
    Out(more.next, o.events + more.events)
  }

  /** What a chunk says about the whole message; the first chunk starts it. */
  function TakeHead(t: Messages, chunk: Chunk): Out {
    var seen := t.(id := if chunk.id != "" then chunk.id else t.id,
                   model := if chunk.model != "" then chunk.model else t.model,
                   usage := if chunk.usage.Some? then chunk.usage.value else t.usage);
    Out(seen.(started := true), if t.started then [] else [Start(seen.id, seen.model, seen.usage.prompt)])
  }

  function Stops(open: seq<int>): seq<Event> {
    seq(|open|, i requires 0 <= i < |open| => BlockStop(open[i]))
  }

  /** The stop reason reported at the end. */
  function FinalStop(stopReason: string, finishReason: string, tools: bool): string {
    if tools && (finishReason == "" || finishReason == "stop") then "tool_use"
    else if stopReason == "" then "end_turn" else stopReason
  }

  function TakeDone(t: Messages): Out {
    var stop := FinalStop(t.stopReason, t.finishReason, |t.calls.list| > 0);
    Out(t.(completed := true, started := true, open := [], textBlock := -1, stopReason := stop),
        (if t.started then [] else [Start(t.id, t.model, t.usage.prompt)])
        + Stops(t.open)
        + [MessageDelta(stop, Counts(Some(t.usage.prompt), Some(t.usage.completion), None)), MessageStop])
  }

  function TakePayload(t: Messages, p: Payload): (o: Out)
    requires t.calls.Valid()
    ensures o.next.calls.Valid()
  {
    if t.completed then Out(t, []) else
    match p
    case Done => TakeDone(t)
    case Error(message) => Out(t.(completed := true), [Failure(FirstNonEmpty(message, "upstream stream failed"))])
    case Malformed => Out(t, [])
    case Data(chunk) =>
      TakePieces(TakeHead(t, chunk), Pieces(chunk.choices))
  }

  /** Everything a stream of payloads is translated into. */
  function Translate(ps: seq<Payload>): (o: Out)
    ensures o.next.calls.Valid()
  {
    if ps == [] then Out(NEW_MESSAGES, [])
    else
      var before := Translate(ps[..|ps| - 1]);
      var o := TakePayload(before.next, ps[|ps| - 1]);
      Out(o.next, before.events + o.events)
  }

  // ---- Every emitted stream follows the rules of the protocol ----

  ghost predicate Distinct(s: seq<int>) {
    forall i, j :: 0 <= i < j < |s| ==> s[i] != s[j]
  }

  /** `open` lists exactly the open blocks, each once. */
  ghost predicate Lists(open: seq<int>, blocks: seq<BlockState>) {
    Distinct(open) && forall b :: b in open <==> OpenBlock(blocks, b)
  }

  ghost predicate IsOpen(blocks: seq<BlockState>, index: int, kind: string) {
    OpenBlock(blocks, index) && blocks[index].kind == kind
  }

  /** The translator's bookkeeping describes the blocks a checker has seen. */
  ghost predicate Tracks(t: Messages, blocks: seq<BlockState>) {
    && |blocks| == t.blocks
    && Lists(t.open, blocks)
    && (t.textBlock >= 0 ==> IsOpen(blocks, t.textBlock, TEXT))
    && (forall i :: 0 <= i < |t.calls.list| ==> IsOpen(blocks, t.calls.list[i].position, TOOL_USE))
  }

  ghost predicate Follows(t: Messages, c: Checker) {
    if t.completed then c.phase == Ended
    else c.phase == (if t.started then Started else Fresh) && Tracks(t, c.blocks)
  }

  lemma {:induction false} WithoutRemoves(s: seq<int>, x: int)
    requires Distinct(s)
    ensures Distinct(Without(s, x))
    ensures forall b :: b in Without(s, x) <==> b in s && b != x
  {
    if s != [] {
      var rest := s[1..];
      assert s == [s[0]] + rest;
      assert s[0] !in rest;
      if s[0] != x {
        WithoutRemoves(rest, x);
        var kept := Without(rest, x);
        assert s[0] !in kept;
      }
    }
  }

  lemma {:induction false} CheckOne(c: Checker, e: Event)
    ensures Check(c, [e]) == CheckEvent(c, e)
  {
  }

  lemma {:induction false} CheckTwo(c: Checker, e: Event, f: Event)
    ensures Check(c, [e, f]) == CheckEvent(CheckEvent(c, e), f)
  {
    assert [e, f][..1] == [e];
    CheckOne(c, e);
  }

  lemma {:induction false} CloseTextChecks(t: Messages, c: Checker)
    requires !t.completed && t.started && Follows(t, c)
    ensures var o := CloseText(t);
            !o.next.completed && o.next.started && Follows(o.next, Check(c, o.events)) && o.next.textBlock < 0
  {
    if t.textBlock >= 0 {
      CheckOne(c, BlockStop(t.textBlock));
      WithoutRemoves(t.open, t.textBlock);
    }
  }

  lemma {:induction false} OpenChecks(open: seq<int>, blocks: seq<BlockState>, kind: string)
    requires Lists(open, blocks)
    ensures Lists(open + [|blocks|], blocks + [BlockState(kind, true)])
  {
    assert |blocks| in open <==> OpenBlock(blocks, |blocks|);
    forall b ensures b in open + [|blocks|] <==> OpenBlock(blocks + [BlockState(kind, true)], b) {
      assert b in open <==> OpenBlock(blocks, b);
    }
  }

  lemma {:induction false} WordsCheck(t: Messages, c: Checker, text: string)
    requires !t.completed && t.started && Follows(t, c)
    ensures var o := TakeWords(t, text); Follows(o.next, Check(c, o.events))
  {
    if t.textBlock < 0 {
      CheckTwo(c, BlockStart(t.blocks, TEXT_BLOCK), TextDelta(t.blocks, text));
      OpenChecks(t.open, c.blocks, TEXT);
    } else {
      CheckOne(c, TextDelta(t.textBlock, text));
    }
  }

  /** An open tool block takes argument deltas. */
  lemma {:induction false} ArgumentsCheck(c: Checker, position: nat, arguments: string)
    requires c.phase == Started && IsOpen(c.blocks, position, TOOL_USE)
    ensures CheckEvent(c, ArgumentsDelta(position, arguments)) == c
  {
  }

  lemma {:induction false} NewBlockTracks(t: Messages, c: Checker, calls: Calls, block: Block)
    requires c.phase == Started && Tracks(t, c.blocks) && block.kind == TOOL_USE
    requires |calls.list| == |t.calls.list| + 1 && calls.list[|t.calls.list|].position == t.blocks
    requires forall i :: 0 <= i < |t.calls.list| ==> calls.list[i].position == t.calls.list[i].position
    ensures var c' := CheckEvent(c, BlockStart(t.blocks, block));
            && c'.phase == Started && IsOpen(c'.blocks, t.blocks, TOOL_USE)
            && Tracks(t.(calls := calls, blocks := t.blocks + 1, open := t.open + [t.blocks]), c'.blocks)
  {
    OpenChecks(t.open, c.blocks, TOOL_USE);
  }

  lemma {:induction false} CallChecks(t: Messages, c: Checker, d: ToolDelta)
    requires t.calls.Valid() && !t.completed && t.started && Follows(t, c)
    ensures var o := TakeCall(t, d); Follows(o.next, Check(c, o.events))
  {
    var a := Add(t.calls, d, t.blocks);
    var call := a.calls.list[a.at];
    var block := ToolBlock(ShownId(t.id, call), call.name);
    var start, part := BlockStart(call.position, block), ArgumentsDelta(call.position, d.arguments);
    if a.isNew {
      NewBlockTracks(t, c, a.calls, block);
      CheckOne(c, start);
      CheckTwo(c, start, part);
      ArgumentsCheck(CheckEvent(c, start), call.position, d.arguments);
    } else {
      CheckOne(c, part);
      ArgumentsCheck(c, call.position, d.arguments);
    }
  }

  lemma {:induction false} PieceChecks(t: Messages, c: Checker, p: Piece)
    requires t.calls.Valid() && !t.completed && t.started && Follows(t, c)
    ensures var o := TakePiece(t, p); !o.next.completed && o.next.started && Follows(o.next, Check(c, o.events))
  {
    match p
    case Words(text) => WordsCheck(t, c, text);
    case Tool(d) =>
      var closed := CloseText(t);
      CloseTextChecks(t, c);
      CallChecks(closed.next, Check(c, closed.events), d);
      CheckAppend(c, closed.events, TakeCall(closed.next, d).events);
    case Finish(reason) =>
  }

  lemma {:induction false} PiecesCheck(o: Out, c: Checker, ps: seq<Piece>)
    requires o.next.calls.Valid() && !o.next.completed && o.next.started && Follows(o.next, Check(c, o.events))
    ensures var o' := TakePieces(o, ps); !o'.next.completed && o'.next.started && Follows(o'.next, Check(c, o'.events))
  {
    if ps != [] {
      var before := TakePieces(o, ps[..|ps| - 1]);
      PiecesCheck(o, c, ps[..|ps| - 1]);
      PieceChecks(before.next, Check(c, before.events), ps[|ps| - 1]);
      CheckAppend(c, before.events, TakePiece(before.next, ps[|ps| - 1]).events);
    }
  }

  /** Stopping what is listed as open leaves nothing open. */
  lemma {:induction false} StopsCheck(open: seq<int>, blocks: seq<BlockState>)
    requires Lists(open, blocks)
    ensures var c := Check(Checker(Started, blocks), Stops(open));
            c.phase == Started && AllStopped(c.blocks)
    decreases |open|
  {
    if open == [] {
      assert Check(Checker(Started, blocks), Stops(open)) == Checker(Started, blocks);
      forall i | 0 <= i < |blocks| ensures !blocks[i].open {
        assert i in open <==> OpenBlock(blocks, i);
      }
    } else {
      var stop := BlockStop(open[0]);
      assert open[0] in open;
      var next := blocks[open[0] := BlockState(blocks[open[0]].kind, false)];
      forall b ensures b in open[1..] <==> OpenBlock(next, b) {
        assert b in open <==> b == open[0] || b in open[1..];
      }
      StopsCheck(open[1..], next);
      assert Stops(open) == [stop] + Stops(open[1..]);
      CheckOne(Checker(Started, blocks), stop);
      CheckAppend(Checker(Started, blocks), [stop], Stops(open[1..]));
    }
  }

  lemma {:induction false} EndChecks(c: Checker, delta: Event)
    requires c.phase == Started && AllStopped(c.blocks) && delta.MessageDelta?
    ensures Check(c, [delta, MessageStop]).phase == Ended
  {
    CheckTwo(c, delta, MessageStop);
  }

  lemma {:induction false} DoneChecks(t: Messages, c: Checker)
    requires !t.completed && Follows(t, c)
    ensures Follows(TakeDone(t).next, Check(c, TakeDone(t).events))
  {
    var start := if t.started then [] else [Start(t.id, t.model, t.usage.prompt)];
    var delta := MessageDelta(TakeDone(t).next.stopReason, Counts(Some(t.usage.prompt), Some(t.usage.completion), None));
    if !t.started {
      CheckOne(c, start[0]);
    }
    assert Check(c, start) == Checker(Started, c.blocks) && Lists(t.open, c.blocks);
    assert TakeDone(t).events == start + Stops(t.open) + [delta, MessageStop] && TakeDone(t).next.completed;
    hide TakeDone, Check, CheckEvent, Lists, AllStopped, Start;
    CheckAppend(c, start, Stops(t.open));
    CheckAppend(c, start + Stops(t.open), [delta, MessageStop]);
    StopsCheck(t.open, c.blocks);
    EndChecks(Check(c, start + Stops(t.open)), delta);
  }

  lemma {:induction false} PayloadChecks(t: Messages, c: Checker, p: Payload)
    requires t.calls.Valid() && Follows(t, c)
    ensures var o := TakePayload(t, p); Follows(o.next, Check(c, o.events))
  {
    if !t.completed {
      match p
      case Done => DoneChecks(t, c);
      case Error(message) => CheckOne(c, Failure(FirstNonEmpty(message, "upstream stream failed")));
      case Malformed =>
      case Data(chunk) =>
        var head := TakeHead(t, chunk);
        if !t.started {
          CheckOne(c, head.events[0]);
        }
        PiecesCheck(head, c, Pieces(chunk.choices));
    }
  }

  lemma {:induction false} TranslationFollows(ps: seq<Payload>)
    ensures Follows(Translate(ps).next, Check(NEW_CHECKER, Translate(ps).events))
  {
    if ps != [] {
      var n := |ps| - 1;
      var before := Translate(ps[..n]);
      TranslationFollows(ps[..n]);
      PayloadChecks(before.next, Check(NEW_CHECKER, before.events), ps[n]);
      CheckAppend(NEW_CHECKER, before.events, TakePayload(before.next, ps[n]).events);
    } else {
      assert Lists([], []);
    }
  }

  lemma {:induction false} CompletedByFinal(ps: seq<Payload>)
    ensures Translate(ps).next.completed == HasFinal(ps)
  {
    if ps != [] {
      var n := |ps| - 1;
      CompletedByFinal(ps[..n]);
      CompletedNow(Translate(ps[..n]).next, ps[n]);
      FinalNow(ps);
    }
  }

  /**
     Whatever payloads arrive, the emitted stream follows the rules; it has ended
     exactly when [DONE] or an error has arrived.
   */
  lemma {:induction false} MessagesAreWellFormed(ps: seq<Payload>)
    ensures var c := Check(NEW_CHECKER, Translate(ps).events);
            c.phase != Broken && (c.phase == Ended <==> HasFinal(ps))
  {
    TranslationFollows(ps);
    CompletedByFinal(ps);
  }

  lemma {:induction false} CompletedNow(t: Messages, p: Payload)
    requires t.calls.Valid()
    ensures TakePayload(t, p).next.completed == (t.completed || Final(p))
  {
    if !t.completed && p.Data? {
      PiecesKeepOpen(TakeHead(t, p.chunk), Pieces(p.chunk.choices));
    }
  }

  lemma {:induction false} PiecesKeepOpen(o: Out, ps: seq<Piece>)
    requires o.next.calls.Valid()
    ensures TakePieces(o, ps).next.completed == o.next.completed
  {
    if ps != [] {
      PiecesKeepOpen(o, ps[..|ps| - 1]);
    }
  }

  // ---- The emitted stream says what the chunks said ----

  function Reason(stopReason: string): string {
    if stopReason == "" then "end_turn" else stopReason
  }

  /** The stop reason an answer with this finish reason ends with. */
  function StopOf(finish: string, tools: bool): string {
    if tools && (finish == "" || finish == "stop") then "tool_use" else MapOpenAIStopReason(finish)
  }

  /** A reader of the events emitted so far knows the same answer as a client of the chunks. */
  ghost predicate SameAnswer(r: Client, o: Reader) {
    && o.order == r.order && o.tools == r.tools && o.ending == r.ending
    && (r.ending == Complete ==> o.input == r.usage.prompt && o.output == r.usage.completion
                                 && o.stop == StopOf(r.finish, |r.tools| > 0))
  }

  /** Each collected call has its own block, and the reader finds it there. */
  ghost predicate Found(list: seq<Collected>, blocks: nat, found: map<int, nat>) {
    && (forall i :: 0 <= i < |list| ==> list[i].position in found && found[list[i].position] == i)
    && (forall k :: k in found ==> k < blocks)
  }

  /** How the translator knows what the client knows while the stream is open. */
  ghost predicate Knows(t: Messages, r: Client) {
    && Agree(t.calls, r) && AllNamed(r.tools)
    && t.usage == r.usage && t.finishReason == r.finish && Reason(t.stopReason) == MapOpenAIStopReason(r.finish)
  }

  ghost predicate Conveys(t: Messages, r: Client, o: Reader) {
    && SameAnswer(r, o)
    && (t.completed <==> r.ending != Open)
    && (!t.completed ==> Knows(t, r) && Found(t.calls.list, t.blocks, o.blocks))
  }

  lemma {:induction false} ReadOne(r: Reader, e: Event)
    requires r.Valid()
    ensures Read(r, [e]) == ReadEvent(r, e)
  {
  }

  lemma {:induction false} ReadTwo(r: Reader, e: Event, f: Event)
    requires r.Valid()
    ensures Read(r, [e, f]) == ReadEvent(ReadEvent(r, e), f)
  {
    assert [e, f][..1] == [e];
    ReadOne(r, e);
  }

  lemma {:induction false} CloseTextConveys(t: Messages, r: Client, o: Reader)
    requires r.Valid() && o.Valid() && t.calls.Valid() && !t.completed && Conveys(t, r, o)
    ensures Read(o, CloseText(t).events) == o && Conveys(CloseText(t).next, r, o)
  {
    if t.textBlock >= 0 {
      ReadOne(o, BlockStop(t.textBlock));
    }
  }

  lemma {:induction false} WordsConvey(t: Messages, r: Client, o: Reader, text: string)
    requires r.Valid() && o.Valid() && t.calls.Valid() && !t.completed && Conveys(t, r, o)
    ensures var w := TakeWords(t, text); Conveys(w.next, ReadPiece(r, Words(text)), Read(o, w.events))
  {
    if t.textBlock < 0 {
      ReadTwo(o, BlockStart(t.blocks, TEXT_BLOCK), TextDelta(t.blocks, text));
    } else {
      ReadOne(o, TextDelta(t.textBlock, text));
    }
  }

  /** What opening a call emits, and what is known afterwards. */
  lemma {:induction false} CallOpens(t: Messages, r: Client, d: ToolDelta)
    requires r.Valid() && t.calls.Valid() && Agree(t.calls, r) && ReadTool(r, d).named && Continues(r, d).None?
    ensures var w, call := TakeCall(t, d), Collected(d.id, d.name, d.arguments, t.blocks);
            && w.next.calls.list == t.calls.list + [call] && Agree(w.next.calls, ReadTool(r, d))
            && w.events == [BlockStart(t.blocks, ToolBlock(d.id, d.name))]
                           + (if d.arguments != "" then [ArgumentsDelta(t.blocks, d.arguments)] else [])
            && w.next.blocks == t.blocks + 1
            && (w.next.usage, w.next.finishReason, w.next.stopReason, w.next.completed)
            == (t.usage, t.finishReason, t.stopReason, t.completed)
  {
    AddAgrees(t.calls, r, d, t.blocks);
    hide Agree, ToolBlock;
    assert "" + d.arguments == d.arguments;
  }

  /** A reader of a new tool block knows its call with all its arguments. */
  lemma {:induction false} CallRead(o: Reader, index: int, d: ToolDelta)
    requires o.Valid() && o.ending == Open && d.id != ""
    ensures var es := [BlockStart(index, ToolBlock(d.id, d.name))] + (if d.arguments != "" then [ArgumentsDelta(index, d.arguments)] else []);
            Read(o, es) == o.(order := o.order + [Call(|o.tools|)], blocks := o.blocks[index := |o.tools|],
                              tools := o.tools + [ToolCall(d.id, d.name, d.arguments)])
  {
    var start, part := BlockStart(index, ToolBlock(d.id, d.name)), ArgumentsDelta(index, d.arguments);
    var begun := o.tools + [ToolCall(d.id, d.name, "")];
    var o1 := ReadEvent(o, start);
    assert o1 == o.(order := o.order + [Call(|o.tools|)], blocks := o.blocks[index := |o.tools|], tools := begun);
    if d.arguments != "" {
      assert ReadEvent(o1, part) == o1.(tools := AppendArguments(begun, |o.tools|, d.arguments));
      hide Read, ReadEvent;
      ReadTwo(o, start, part);
      assert [start] + [part] == [start, part] && "" + d.arguments == d.arguments;
      assert AppendArguments(begun, |o.tools|, d.arguments) == o.tools + [ToolCall(d.id, d.name, d.arguments)];
    } else {
      hide Read, ReadEvent;
      ReadOne(o, start);
      assert [start] + [] == [start];
    }
  }

  lemma {:induction false} FoundMore(list: seq<Collected>, blocks: nat, found: map<int, nat>, call: Collected)
    requires Found(list, blocks, found) && call.position == blocks
    ensures Found(list + [call], blocks + 1, found[blocks := |list|])
  {
  }

  lemma {:induction false} NewCallKnown(t: Messages, r: Client, d: ToolDelta)
    requires r.Valid() && t.calls.Valid() && Knows(t, r) && ReadTool(r, d).named && Continues(r, d).None?
    ensures Knows(TakeCall(t, d).next, ReadTool(r, d))
  {
    CallOpens(t, r, d);
    hide TakeCall, Agree, Reason, MapOpenAIStopReason, Continues;
  }

  lemma {:induction false} NewCallConveys(t: Messages, r: Client, o: Reader, d: ToolDelta)
    requires r.Valid() && o.Valid() && t.calls.Valid() && !t.completed && Conveys(t, r, o)
    requires ReadTool(r, d).named && Continues(r, d).None?
    ensures var w := TakeCall(t, d); Conveys(w.next, ReadTool(r, d), Read(o, w.events))
  {
    NewCallKnown(t, r, d);
    CallOpens(t, r, d);
    hide Knows, Agree;
    CallRead(o, t.blocks, d);
    FoundMore(t.calls.list, t.blocks, o.blocks, Collected(d.id, d.name, d.arguments, t.blocks));
    hide TakeCall, Read, ToolBlock, StopOf, Found;
    assert SameAnswer(ReadTool(r, d), Read(o, TakeCall(t, d).events));
    hide SameAnswer;
  }

  lemma {:induction false} KnownCallConveys(t: Messages, r: Client, o: Reader, d: ToolDelta)
    requires r.Valid() && o.Valid() && t.calls.Valid() && !t.completed && Conveys(t, r, o)
    requires ReadTool(r, d).named && Continues(r, d).Some?
    ensures var w := TakeCall(t, d); Conveys(w.next, ReadTool(r, d), Read(o, w.events))
  {
    AddAgrees(t.calls, r, d, t.blocks);
    var k := Continues(r, d).value;
    var position := t.calls.list[k].position;
    assert o.blocks[position] == k;
    if d.arguments == "" {
      assert r.tools[k].arguments + "" == r.tools[k].arguments;
      assert AppendArguments(r.tools, k, "") == r.tools;
    } else {
      ReadOne(o, ArgumentsDelta(position, d.arguments));
    }
  }

  lemma {:induction false} CallConveys(t: Messages, r: Client, o: Reader, d: ToolDelta)
    requires r.Valid() && o.Valid() && t.calls.Valid() && !t.completed && Conveys(t, r, o)
    requires ReadTool(r, d).named
    ensures var w := TakeCall(t, d); Conveys(w.next, ReadTool(r, d), Read(o, w.events))
  {
    if Continues(r, d).None? {
      NewCallConveys(t, r, o, d);
    } else {
      KnownCallConveys(t, r, o, d);
    }
  }

  lemma {:induction false} PieceConveys(t: Messages, r: Client, o: Reader, p: Piece)
    requires r.Valid() && o.Valid() && t.calls.Valid() && !t.completed && Conveys(t, r, o)
    requires ReadPiece(r, p).named
    ensures var w := TakePiece(t, p); !w.next.completed && Conveys(w.next, ReadPiece(r, p), Read(o, w.events))
  {
    match p
    case Words(text) => WordsConvey(t, r, o, text);
    case Tool(d) =>
      var closed := CloseText(t);
      CloseTextConveys(t, r, o);
      CallConveys(closed.next, r, o, d);
      ReadAppend(o, closed.events, TakeCall(closed.next, d).events);
    case Finish(reason) =>
  }

  /** `w` is what was emitted before to the reader who started as `o`. */
  ghost predicate Speaks(w: Out, r: Client, o: Reader)
    requires o.Valid()
  {
    r.Valid() && w.next.calls.Valid() && !w.next.completed && Conveys(w.next, r, Read(o, w.events))
  }

  lemma {:induction false} PiecesConvey(w: Out, r: Client, o: Reader, ps: seq<Piece>)
    requires o.Valid() && Speaks(w, r, o)
    requires ReadPieces(r, ps).named
    ensures Speaks(TakePieces(w, ps), ReadPieces(r, ps), o)
  {
    if ps != [] {
      var before := TakePieces(w, ps[..|ps| - 1]);
      var last := ps[|ps| - 1];
      PiecesConvey(w, r, o, ps[..|ps| - 1]);
      PieceConveys(before.next, ReadPieces(r, ps[..|ps| - 1]), Read(o, before.events), last);
      ReadAppend(o, before.events, TakePiece(before.next, last).events);
    }
  }

  lemma {:induction false} StopsSayNothing(o: Reader, open: seq<int>)
    requires o.Valid()
    ensures Read(o, Stops(open)) == o
  {
    if open != [] {
      var n := |open| - 1;
      assert Stops(open)[..n] == Stops(open[..n]);
      StopsSayNothing(o, open[..n]);
    }
  }

  lemma {:induction false} DoneConveys(t: Messages, r: Client, o: Reader)
    requires r.Valid() && o.Valid() && t.calls.Valid() && !t.completed && Conveys(t, r, o)
    ensures Conveys(TakeDone(t).next, ReadPayload(r, Done), Read(o, TakeDone(t).events))
  {
    var w := TakeDone(t);
    var start := if t.started then [] else [Start(t.id, t.model, t.usage.prompt)];
    var end := [MessageDelta(w.next.stopReason, Counts(Some(t.usage.prompt), Some(t.usage.completion), None)), MessageStop];
    ReadAppend(o, start, Stops(t.open));
    ReadAppend(o, start + Stops(t.open), end);
    var o' := Read(o, start);
    if !t.started {
      ReadOne(o, start[0]);
    }
    StopsSayNothing(o', t.open);
    ReadTwo(o', end[0], end[1]);
  }

  lemma {:induction false} DataConveys(t: Messages, r: Client, o: Reader, chunk: Chunk)
    requires r.Valid() && o.Valid() && t.calls.Valid() && !t.completed && Conveys(t, r, o)
    requires ReadPayload(r, Data(chunk)).named
    ensures var w := TakePayload(t, Data(chunk)); Conveys(w.next, ReadPayload(r, Data(chunk)), Read(o, w.events))
  {
    var head := TakeHead(t, chunk);
    var r' := if chunk.usage.Some? then r.(usage := chunk.usage.value) else r;
    if !t.started {
      ReadOne(o, head.events[0]);
    }
    PiecesConvey(head, r', o, Pieces(chunk.choices));
  }

  lemma {:induction false} PayloadConveys(t: Messages, r: Client, o: Reader, p: Payload)
    requires r.Valid() && o.Valid() && t.calls.Valid() && Conveys(t, r, o)
    requires ReadPayload(r, p).named
    ensures var w := TakePayload(t, p); Conveys(w.next, ReadPayload(r, p), Read(o, w.events))
  {
    if !t.completed {
      match p
      case Done => DoneConveys(t, r, o);
      case Error(message) => ReadOne(o, Failure(FirstNonEmpty(message, "upstream stream failed")));
      case Malformed =>
      case Data(chunk) => DataConveys(t, r, o, chunk);
    }
  }

  lemma {:induction false} TranslationConveys(ps: seq<Payload>)
    requires ReadPayloads(ps).named
    ensures Conveys(Translate(ps).next, ReadPayloads(ps), Read(NEW_READER, Translate(ps).events))
  {
    if ps != [] {
      var n := |ps| - 1;
      var before := Translate(ps[..n]);
      NamedUntil(ReadPayloads(ps[..n]), ps[n]);
      TranslationConveys(ps[..n]);
      PayloadConveys(before.next, ReadPayloads(ps[..n]), Read(NEW_READER, before.events), ps[n]);
      ReadAppend(NEW_READER, before.events, TakePayload(before.next, ps[n]).events);
    }
  }

  ghost predicate Kept(before: seq<ToolCall>, after: seq<ToolCall>) {
    |before| <= |after| && forall i :: 0 <= i < |before| ==> after[i].id == before[i].id
  }

  lemma {:induction false} ReadKeepsIds(o: Reader, es: seq<Event>)
    requires o.Valid()
    ensures Kept(o.tools, Read(o, es).tools)
  {
    if es != [] {
      ReadKeepsIds(o, es[..|es| - 1]);
    }
  }

  lemma {:induction false} PiecesKeepIds(r: Client, ps: seq<Piece>)
    requires r.Valid()
    ensures Kept(r.tools, ReadPieces(r, ps).tools)
  {
    if ps != [] {
      PiecesKeepIds(r, ps[..|ps| - 1]);
    }
  }

  /** Some call carries another id than its upstream gave it. */
  ghost predicate Differ(r: Client, o: Reader) {
    exists i :: 0 <= i < |r.tools| && i < |o.tools| && r.tools[i].id != o.tools[i].id
  }

  lemma {:induction false} StillDiffer(r: Client, o: Reader, r': Client, o': Reader)
    requires Differ(r, o) && Kept(r.tools, r'.tools) && Kept(o.tools, o'.tools)
    ensures Differ(r', o')
  {
    var i :| 0 <= i < |r.tools| && i < |o.tools| && r.tools[i].id != o.tools[i].id;
    assert r'.tools[i].id != o'.tools[i].id;
  }

  lemma {:induction false} UnnamedCallDiffers(t: Messages, r: Client, o: Reader, d: ToolDelta)
    requires r.Valid() && o.Valid() && t.calls.Valid() && !t.completed && Conveys(t, r, o)
    requires r.named && !ReadTool(r, d).named
    ensures Differ(ReadTool(r, d), Read(o, TakePiece(t, Tool(d)).events))
  {
    hide TakeCall, Read, Differ, ReadTool, Found, StopOf, Agree;
    var closed := CloseText(t);
    CloseTextConveys(t, r, o);
    OpenedUnnamed(closed.next, r, o, d);
    ReadAppend(o, closed.events, TakeCall(closed.next, d).events);
  }

  lemma {:induction false} OpenedUnnamed(t: Messages, r: Client, o: Reader, d: ToolDelta)
    requires r.Valid() && o.Valid() && t.calls.Valid() && Agree(t.calls, r) && o.ending == Open && o.tools == r.tools
    requires r.named && !ReadTool(r, d).named
    ensures Differ(ReadTool(r, d), Read(o, TakeCall(t, d).events))
  {
    assert Add(t.calls, d, t.blocks).isNew;
    var start := TakeCall(t, d).events[0];
    ReadOne(o, start);
    var rest := if d.arguments != "" then [ArgumentsDelta(t.blocks, d.arguments)] else [];
    ReadAppend(o, [start], rest);
    ReadKeepsIds(ReadEvent(o, start), rest);
    var n := |r.tools|;
    assert start.block.id != "" && ReadEvent(o, start).tools[n].id == start.block.id;
    assert ReadTool(r, d).tools[n].id == "";
    assert TakeCall(t, d).events == [start] + rest;
  }

  lemma {:induction false} PieceStillDiffers(r: Client, o: Reader, p: Piece, events: seq<Event>)
    requires r.Valid() && o.Valid() && Differ(r, o)
    ensures Differ(ReadPiece(r, p), Read(o, events))
  {
    ReadKeepsIds(o, events);
    PiecesKeepIds(r, [p]);
    assert [p][..0] == [];
    assert ReadPieces(r, [p]) == ReadPiece(r, p);
    hide Differ, Kept, ReadPiece, Read;
    StillDiffer(r, o, ReadPiece(r, p), Read(o, events));
  }

  lemma {:induction false} UnnamedPiecesDiffer(w: Out, r: Client, o: Reader, ps: seq<Piece>)
    requires o.Valid() && Speaks(w, r, o)
    requires r.named && !ReadPieces(r, ps).named
    ensures Differ(ReadPieces(r, ps), Read(o, TakePieces(w, ps).events))
  {
    hide Differ, Conveys, Read, TakePiece, ReadPiece;
    var before, last := TakePieces(w, ps[..|ps| - 1]), ps[|ps| - 1];
    var r', o' := ReadPieces(r, ps[..|ps| - 1]), Read(o, before.events);
    var events := TakePiece(before.next, last).events;
    ReadAppend(o, before.events, events);
    if r'.named {
      PiecesConvey(w, r, o, ps[..|ps| - 1]);
      OnlyCallsAreNamed(r', last);
      UnnamedCallDiffers(before.next, r', o', last.delta);
    } else {
      UnnamedPiecesDiffer(w, r, o, ps[..|ps| - 1]);
      PieceStillDiffers(r', o', last, events);
    }
  }

  lemma {:induction false} OnlyCallsAreNamed(r: Client, p: Piece)
    requires r.Valid() && r.named && !ReadPiece(r, p).named
    ensures p.Tool? && ReadPiece(r, p) == ReadTool(r, p.delta)
  {
  }

  lemma {:induction false} UnnamedPayloadDiffers(t: Messages, r: Client, o: Reader, p: Payload)
    requires r.Valid() && o.Valid() && t.calls.Valid() && Conveys(t, r, o)
    requires r.named && !ReadPayload(r, p).named
    ensures Differ(ReadPayload(r, p), Read(o, TakePayload(t, p).events))
  {
    var chunk := p.chunk;
    var head := TakeHead(t, chunk);
    var r' := if chunk.usage.Some? then r.(usage := chunk.usage.value) else r;
    if !t.started {
      ReadOne(o, head.events[0]);
    }
    UnnamedPiecesDiffer(head, r', o, Pieces(chunk.choices));
  }

  lemma {:induction false} UnnamedDiffers(ps: seq<Payload>)
    requires !ReadPayloads(ps).named
    ensures Differ(ReadPayloads(ps), Read(NEW_READER, Translate(ps).events))
  {
    var n := |ps| - 1;
    var before := Translate(ps[..n]);
    var r, o := ReadPayloads(ps[..n]), Read(NEW_READER, before.events);
    var events := TakePayload(before.next, ps[n]).events;
    ReadAppend(NEW_READER, before.events, events);
    if r.named {
      TranslationConveys(ps[..n]);
      UnnamedPayloadDiffers(before.next, r, o, ps[n]);
    } else {
      UnnamedDiffers(ps[..n]);
      ReadKeepsIds(o, events);
      PayloadKeepsIds(r, ps[n]);
      StillDiffer(r, o, ReadPayloads(ps), Read(o, events));
    }
  }

  lemma {:induction false} PayloadKeepsIds(r: Client, p: Payload)
    requires r.Valid()
    ensures Kept(r.tools, ReadPayload(r, p).tools)
  {
    if r.ending == Open && p.Data? {
      PiecesKeepIds(if p.chunk.usage.Some? then r.(usage := p.chunk.usage.value) else r, Pieces(p.chunk.choices));
    }
  }

  /**
     The emitted stream says what the chunks said (the same text and calls in the
     same order, and at the end the same token counts and the mapped stop
     reason), exactly when every call opened with an id.
   */
  lemma {:induction false} MessagesSayTheSame(ps: seq<Payload>)
    ensures SameAnswer(ReadPayloads(ps), Read(NEW_READER, Translate(ps).events)) <==> ReadPayloads(ps).named
  {
    if ReadPayloads(ps).named {
      TranslationConveys(ps);
    } else {
      UnnamedDiffers(ps);
    }
  }

  /** A complete stream with a call that has no id does not reach the client as it was sent. */
  lemma {:induction false} CallWithoutId()
    ensures !SameAnswer(ReadPayloads(NeverNamed()), Read(NEW_READER, Translate(NeverNamed()).events))
  {
    WithoutId();
    hide NeverNamed, Translate, ReadPayloads, SameAnswer, Read;
    MessagesSayTheSame(NeverNamed());
  }

  lemma {:induction false} PiecesAddAtTheEnd(o: Out, ps: seq<Piece>)
    requires o.next.calls.Valid()
    ensures o.events <= TakePieces(o, ps).events
  {
    if ps != [] {
      PiecesAddAtTheEnd(o, ps[..|ps| - 1]);
    }
  }

  /** What cannot be parsed is skipped. */
  lemma {:induction false} NothingYet(ps: seq<Payload>)
    requires forall k :: 0 <= k < |ps| ==> ps[k].Malformed?
    ensures Translate(ps) == Out(NEW_MESSAGES, [])
  {
    if ps != [] {
      NothingYet(ps[..|ps| - 1]);
    }
  }

  /** The first chunk opens the message, with its id and model and the prompt tokens it reports. */
  lemma {:induction false} FirstEvent(ps: seq<Payload>, i: nat)
    requires i < |ps| && ps[i].Data? && forall k :: 0 <= k < i ==> ps[k].Malformed?
    ensures var events, chunk := Translate(ps).events, ps[i].chunk;
            var prompt := if chunk.usage.Some? then chunk.usage.value.prompt else 0;
            events != [] && events[0] == MessageStart(chunk.id, chunk.model, Counts(Some(prompt), Some(0), None))
  {
    var n := |ps| - 1;
    if n == i {
      NothingYet(ps[..n]);
      PiecesAddAtTheEnd(TakeHead(NEW_MESSAGES, ps[n].chunk), Pieces(ps[n].chunk.choices));
    } else {
      FirstEvent(ps[..n], i);
    }
    hide TakePieces, Pieces;
  }

  /** A stream that ends before its first chunk is an empty message. */
  lemma {:induction false} EmptyMessage(ps: seq<Payload>)
    requires forall k :: 0 <= k < |ps| ==> ps[k].Malformed?
    ensures Translate(ps + [Done]).events
         == [MessageStart("", "", Counts(Some(0), Some(0), None)), MessageDelta("end_turn", Counts(Some(0), Some(0), None)), MessageStop]
  {
    NothingYet(ps);
    assert (ps + [Done])[..|ps|] == ps;
    assert Stops([]) == [];
  }

  /** An error ends the stream, and what was sent before stays. */
  lemma {:induction false} FailureEnds(ps: seq<Payload>, message: string)
    requires !HasFinal(ps)
    ensures Translate(ps + [Error(message)]).events
         == Translate(ps).events + [Failure(if AllBy(message, IsSpace) then "upstream stream failed" else Trim(message))]
  {
    CompletedByFinal(ps);
    assert (ps + [Error(message)])[..|ps|] == ps;
    FirstNonEmptyIs(message, "upstream stream failed");
    assert Trim("upstream stream failed") == "upstream stream failed";
  }

  /** A call is shown under its id, or one made up from the message and its place. */
  lemma {:induction false} ShownIdIs(stream: string, call: Collected)
    ensures ShownId(stream, call)
         == if |call.id| > 0 then call.id
            else "toolu_" + (if AllBy(stream, IsSpace) then "stream" else Trim(stream)) + "_" + Decimal(call.position)
  {
    FirstNonEmptyIs(stream, "stream");
    assert Trim("stream") == "stream";
  }

  // ---- Text between two calls stays in one block ----

  /** Everything the chunks before the end ask for. */
  function AllPieces(ps: seq<Payload>): seq<Piece> {
    if ps == [] then []
    else
      var n := |ps| - 1;
      AllPieces(ps[..n]) + if ps[n].Data? && !HasFinal(ps[..n]) then Pieces(ps[n].chunk.choices) else []
  }

  /** No call came after the last text. */
  function InText(ps: seq<Piece>): bool {
    if ps == [] then false
    else
      match ps[|ps| - 1]
      case Words(_) => true
      case Tool(_) => false
      case Finish(_) => InText(ps[..|ps| - 1])
  }

  /** How often text starts, at first or after a call. */
  function Runs(ps: seq<Piece>): nat {
    if ps == [] then 0
    else Runs(ps[..|ps| - 1]) + if ps[|ps| - 1].Words? && !InText(ps[..|ps| - 1]) then 1 else 0
  }

  function TextBlocks(es: seq<Event>): nat {
    if es == [] then 0
    else
      var last := es[|es| - 1];
      TextBlocks(es[..|es| - 1]) + if last.BlockStart? && last.block.kind == "text" then 1 else 0
  }

  lemma {:induction false} TextBlocksAppend(a: seq<Event>, b: seq<Event>)
    ensures TextBlocks(a + b) == TextBlocks(a) + TextBlocks(b)
  {
    if b == [] {
      assert a + b == a;
    } else {
      var n := |b| - 1;
      assert (a + b)[..|a| + n] == a + b[..n];
      TextBlocksAppend(a, b[..n]);
    }
  }

  lemma {:induction false} TextBlocksOf(es: seq<Event>)
    ensures |es| == 1 ==> TextBlocks(es) == if es[0].BlockStart? && es[0].block.kind == "text" then 1 else 0
    ensures |es| == 2 ==> TextBlocks(es) == TextBlocks(es[..1]) + TextBlocks(es[1..])
  {
    if |es| == 1 {
      assert es[..0] == [];
    } else if |es| == 2 {
      assert es == es[..1] + es[1..];
      TextBlocksAppend(es[..1], es[1..]);
    }
  }

  lemma {:induction false} PieceBlocks(t: Messages, p: Piece, inText: bool)
    requires t.calls.Valid() && (t.textBlock >= 0 <==> inText)
    ensures var o := TakePiece(t, p);
            && TextBlocks(o.events) == (if p.Words? && !inText then 1 else 0)
            && (o.next.textBlock >= 0 <==> if p.Finish? then inText else p.Words?)
  {
    match p
    case Words(text) =>
      TextBlocksOf(TakeWords(t, text).events);
      if t.textBlock < 0 {
        TextBlocksOf([BlockStart(t.blocks, TEXT_BLOCK)]);
        TextBlocksOf([TextDelta(t.blocks, text)]);
        assert TakeWords(t, text).events[..1] == [BlockStart(t.blocks, TEXT_BLOCK)];
        assert TakeWords(t, text).events[1..] == [TextDelta(t.blocks, text)];
      }
    case Tool(d) =>
      var closed := CloseText(t);
      TextBlocksOf(closed.events);
      TextBlocksAppend(closed.events, TakeCall(closed.next, d).events);
      CallBlocks(closed.next, d);
    case Finish(_) =>
  }

  lemma {:induction false} CallBlocks(t: Messages, d: ToolDelta)
    requires t.calls.Valid()
    ensures var o := TakeCall(t, d); TextBlocks(o.events) == 0 && o.next.textBlock == t.textBlock
  {
    var a := Add(t.calls, d, t.blocks);
    var call := a.calls.list[a.at];
    var started := if a.isNew then [BlockStart(call.position, ToolBlock(ShownId(t.id, call), call.name))] else [];
    var arguments := if d.arguments != "" then [ArgumentsDelta(call.position, d.arguments)] else [];
    hide Add, ShownId;
    TextBlocksAppend(started, arguments);
    TextBlocksOf(started);
    TextBlocksOf(arguments);
  }

  /** The events open as many text blocks as the pieces have runs, and one is open within a run. */
  ghost predicate Counted(o: Out, said: seq<Piece>) {
    (o.next.textBlock >= 0 <==> InText(said)) && TextBlocks(o.events) == Runs(said)
  }

  lemma {:induction false} ThenCounted(o: Out, said: seq<Piece>, p: Piece)
    requires o.next.calls.Valid() && Counted(o, said)
    ensures Counted(Then(o, p), said + [p])
  {
    assert (said + [p])[..|said|] == said;
    PieceBlocks(o.next, p, InText(said));
    TextBlocksAppend(o.events, TakePiece(o.next, p).events);
    hide TakePiece;
  }

  lemma {:induction false} PiecesBlocks(o: Out, said: seq<Piece>, ps: seq<Piece>)
    requires o.next.calls.Valid() && Counted(o, said)
    ensures Counted(TakePieces(o, ps), said + ps)
  {
    hide Counted, Then;
    if ps == [] {
      assert said + ps == said;
    } else {
      var n := |ps| - 1;
      PiecesBlocks(o, said, ps[..n]);
      ThenCounted(TakePieces(o, ps[..n]), said + ps[..n], ps[n]);
      assert said + ps[..n] + [ps[n]] == said + ps;
    }
  }

  lemma {:induction false} StopsBlocks(open: seq<int>)
    ensures TextBlocks(Stops(open)) == 0
  {
    if open != [] {
      var n := |open| - 1;
      StopsBlocks(open[..n]);
      assert Stops(open)[..n] == Stops(open[..n]);
    }
  }

  lemma {:induction false} DoneBlocks(t: Messages)
    ensures TextBlocks(TakeDone(t).events) == 0
  {
    var start := if t.started then [] else [Start(t.id, t.model, t.usage.prompt)];
    var stop := FinalStop(t.stopReason, t.finishReason, |t.calls.list| > 0);
    var counts := Counts(Some(t.usage.prompt), Some(t.usage.completion), None);
    hide FinalStop;
    StopsBlocks(t.open);
    TextBlocksOf(start);
    TextBlocksAppend(start, Stops(t.open));
    TextBlocksAppend(start + Stops(t.open), [MessageDelta(stop, counts), MessageStop]);
    TextBlocksOf([MessageDelta(stop, counts), MessageStop]);
    TextBlocksOf([MessageDelta(stop, counts), MessageStop][..1]);
    TextBlocksOf([MessageDelta(stop, counts), MessageStop][1..]);
  }

  lemma {:induction false} HeadBlocks(t: Messages, chunk: Chunk)
    ensures var o := TakeHead(t, chunk); TextBlocks(o.events) == 0 && o.next.textBlock == t.textBlock
  {
    TextBlocksOf(TakeHead(t, chunk).events);
  }

  lemma {:induction false} BlocksAre(ps: seq<Payload>)
    ensures if HasFinal(ps) then TextBlocks(Translate(ps).events) == Runs(AllPieces(ps))
            else Counted(Translate(ps), AllPieces(ps))
  {
    if ps != [] {
      var n := |ps| - 1;
      var before, p := Translate(ps[..n]), ps[n];
      BlocksAre(ps[..n]);
      CompletedByFinal(ps[..n]);
      FinalNow(ps);
      if !HasFinal(ps[..n]) && p.Data? {
        ChunkBlocks(before, AllPieces(ps[..n]), p.chunk);
        hide Counted, TakePayload;
      } else {
        assert AllPieces(ps) == AllPieces(ps[..n]);
        QuietPayload(before.next, p);
        TextBlocksAppend(before.events, TakePayload(before.next, p).events);
        hide Runs, InText;
      }
    }
  }

  lemma {:induction false} QuietPayload(t: Messages, p: Payload)
    requires t.calls.Valid() && (p.Data? ==> t.completed)
    ensures TextBlocks(TakePayload(t, p).events) == 0
    ensures p.Malformed? ==> TakePayload(t, p) == Out(t, [])
  {
    DoneBlocks(t);
    TextBlocksOf(TakePayload(t, p).events);
  }

  lemma {:induction false} ChunkBlocks(before: Out, said: seq<Piece>, chunk: Chunk)
    requires before.next.calls.Valid() && !before.next.completed && Counted(before, said)
    ensures var o := TakePayload(before.next, Data(chunk));
            Counted(Out(o.next, before.events + o.events), said + Pieces(chunk.choices))
  {
    var head := TakeHead(before.next, chunk);
    HeadBlocks(before.next, chunk);
    TextBlocksAppend(before.events, head.events);
    assert Counted(Out(head.next, before.events + head.events), said);
    hide Counted, TakeHead;
    PiecesBlocks(Out(head.next, before.events + head.events), said, Pieces(chunk.choices));
    PiecesAfter(before.events, head, Pieces(chunk.choices));
  }

  lemma {:induction false} PiecesAfter(es: seq<Event>, o: Out, ps: seq<Piece>)
    requires o.next.calls.Valid()
    ensures TakePieces(Out(o.next, es + o.events), ps) == Out(TakePieces(o, ps).next, es + TakePieces(o, ps).events)
  {
    if ps != [] {
      var n := |ps| - 1;
      PiecesAfter(es, o, ps[..n]);
      var mid := TakePieces(o, ps[..n]);
      var more := TakePiece(mid.next, ps[n]);
      assert es + mid.events + more.events == es + (mid.events + more.events);
      hide TakePiece;
    }
  }

  /** As many text blocks are opened as there are runs of text: one at first and one after each call that text follows. */
  lemma {:induction false} OneBlockEach(ps: seq<Payload>)
    ensures TextBlocks(Translate(ps).events) == Runs(AllPieces(ps))
  {
    BlocksAre(ps);
  }

  // ---- The translator ----

  lemma {:induction false} PieceLast(o: Out, ps: seq<Piece>, p: Piece)
    requires o.next.calls.Valid()
    ensures TakePieces(o, ps + [p]) == Then(TakePieces(o, ps), p)
  {
    assert (ps + [p])[..|ps|] == ps;
  }

  lemma {:induction false} PiecesAppend(o: Out, a: seq<Piece>, b: seq<Piece>)
    requires o.next.calls.Valid()
    ensures TakePieces(o, a + b) == TakePieces(TakePieces(o, a), b)
  {
    hide Then;
    if b == [] {
      assert a + b == a;
    } else {
      var n := |b| - 1;
      assert (a + b)[..|a| + n] == a + b[..n];
      PiecesAppend(o, a, b[..n]);
    }
  }

  lemma {:induction false} WithoutFirst(open: seq<int>, index: int, i: nat)
    requires i <= |open| && (i < |open| ==> open[i] == index) && forall k :: 0 <= k < i ==> open[k] != index
    ensures Without(open, index) == if i < |open| then open[..i] + open[i + 1..] else open
  {
    if i > 0 {
      assert Without(open, index) == [open[0]] + Without(open[1..], index);
      var rest := open[1..];
      WithoutFirst(rest, index, i - 1);
      hide Without;
      assert i < |open| ==> [open[0]] + (rest[..i - 1] + rest[i..]) == open[..i] + open[i + 1..];
    }
  }

  /** Takes the first place of a block out of the open ones. */
  method Dropped(open: seq<int>, index: int) returns (left: seq<int>)
    ensures left == Without(open, index)
  {
    var i := 0;
    while i < |open| && open[i] != index
      invariant 0 <= i <= |open| && forall k :: 0 <= k < i ==> open[k] != index
    {
      i := i + 1;
    }
    WithoutFirst(open, index, i);
    left := if i < |open| then open[..i] + open[i + 1..] else open;
  }

  method StopAll(open: seq<int>, before: seq<Event>) returns (events: seq<Event>)
    ensures events == before + Stops(open)
  {
    events := before;
    for i := 0 to |open|
      invariant events == before + Stops(open)[..i]
    {
      events := events + [BlockStop(open[i])];
    }
  }

  class MessagesStreamTranslator {
    var id: string
    var model: string
    var usage: Usage
    var started: bool
    var completed: bool
    var stopReason: string
    var finishReason: string
    var blocks: nat
    var textBlock: int
    var open: seq<int>
    const toolCalls: StreamToolCalls

    ghost var received: seq<Payload>

    function View(): Messages
      reads this, toolCalls
    {
      Messages(id, model, usage, started, completed, stopReason, finishReason, blocks, textBlock, open, toolCalls.View())
    }

    predicate Valid()
      reads this, toolCalls
    {
      forall k :: k in toolCalls.byIndex ==> toolCalls.byIndex[k] < |toolCalls.list|
    }

    constructor ()
      ensures Consistent() && received == [] && fresh(toolCalls)
    {
      id, model, usage, started, completed := "", "", NO_USAGE, false, false;
      stopReason, finishReason, blocks, textBlock, open, received := "", "", 0, -1, [], [];
      toolCalls := new StreamToolCalls();
    }

    method CloseTextBlock() returns (events: seq<Event>)
      modifies this
      ensures received == old(received)
      ensures Out(View(), events) == CloseText(old(View()))
    {
      if textBlock < 0 {
        return [];
      }
      var index := textBlock;
      textBlock := -1;
      open := Dropped(open, index);
      events := [BlockStop(index)];
    }

    method WriteText(text: string) returns (events: seq<Event>)
      modifies this
      ensures received == old(received)
      ensures Out(View(), events) == TakeWords(old(View()), text)
    {
      events := [];
      if textBlock < 0 {
        textBlock := blocks;
        blocks := blocks + 1;
        open := open + [textBlock];
        events := [BlockStart(textBlock, TEXT_BLOCK)];
      }
      events := events + [TextDelta(textBlock, text)];
    }

    method WriteCall(d: ToolDelta) returns (events: seq<Event>)
      requires Valid()
      modifies this, toolCalls
      ensures received == old(received)
      ensures Valid() && Out(View(), events) == TakePiece(old(View()), Tool(d))
    {
      events := CloseTextBlock();
      var at, isNew := toolCalls.AddDelta(d, blocks);
      var call := toolCalls.list[at];
      if isNew {
        blocks := blocks + 1;
        open := open + [call.position];
        events := events + [BlockStart(call.position, ToolBlock(ShownId(id, call), call.name))];
      }
      if d.arguments != "" {
        events := events + [ArgumentsDelta(call.position, d.arguments)];
      }
    }

    method WriteCalls(deltas: seq<ToolDelta>, events: seq<Event>) returns (all: seq<Event>)
      requires Valid()
      modifies this, toolCalls
      ensures received == old(received)
      ensures Valid() && Out(View(), all) == TakePieces(Out(old(View()), events), ToolPieces(deltas))
    {
      ghost var from := Out(View(), events);
      all := events;
      for i := 0 to |deltas|
        invariant received == old(received)
        invariant Valid() && Out(View(), all) == TakePieces(from, ToolPieces(deltas[..i]))
      {
        PieceLast(from, ToolPieces(deltas[..i]), Tool(deltas[i]));
        ToolPiecesNext(deltas, i);
        var more := WriteCall(deltas[i]);
        all := all + more;
      }
      assert deltas[..|deltas|] == deltas;
    }

    method WriteContent(content: string, events: seq<Event>) returns (all: seq<Event>)
      requires Valid()
      modifies this
      ensures received == old(received)
      ensures Valid() && Out(View(), all) == TakePieces(Out(old(View()), events), WordPieces(content))
    {
      all := events;
      if content != "" {
        PieceLast(Out(View(), events), [], Words(content));
        var more := WriteText(content);
        all := all + more;
        assert WordPieces(content) == [] + [Words(content)];
      }
    }

    method WriteFinish(finish: string, ghost events: seq<Event>)
      requires Valid()
      modifies this
      ensures received == old(received)
      ensures Valid() && Out(View(), events) == TakePieces(Out(old(View()), events), FinishPieces(finish))
    {
      if finish != "" {
        PieceLast(Out(View(), events), [], Finish(finish));
        finishReason := finish;
        stopReason := MapOpenAIStopReason(finish);
        assert events + [] == events;
        assert FinishPieces(finish) == [] + [Finish(finish)];
      }
    }

    method WriteChoice(choice: ChunkChoice, events: seq<Event>) returns (all: seq<Event>)
      requires Valid()
      modifies this, toolCalls
      ensures received == old(received)
      ensures Valid() && Out(View(), all) == TakePieces(Out(old(View()), events), ChoicePieces(choice))
    {
      ghost var from := Out(View(), events);
      all := WriteContent(choice.delta.content, events);
      all := WriteCalls(choice.delta.toolCalls, all);
      WriteFinish(choice.finish, all);
      ghost var words, calls := WordPieces(choice.delta.content), ToolPieces(choice.delta.toolCalls);
      PiecesAppend(from, words, calls);
      PiecesAppend(from, words + calls, FinishPieces(choice.finish));
    }

    method WriteHead(chunk: Chunk) returns (events: seq<Event>)
      requires Valid()
      modifies this
      ensures received == old(received)
      ensures Valid() && Out(View(), events) == TakeHead(old(View()), chunk)
    {
      if chunk.id != "" {
        id := chunk.id;
      }
      if chunk.model != "" {
        model := chunk.model;
      }
      if chunk.usage.Some? {
        usage := chunk.usage.value;
      }
      events := [];
      if !started {
        started := true;
        events := [Start(id, model, usage.prompt)];
      }
    }

    method WriteChunk(chunk: Chunk) returns (events: seq<Event>)
      requires Valid() && !completed
      modifies this, toolCalls
      ensures received == old(received)
      ensures Valid() && Out(View(), events) == TakePayload(old(View()), Data(chunk))
    {
      events := WriteHead(chunk);
      ghost var head := Out(View(), events);
      for i := 0 to |chunk.choices|
        invariant Valid() && received == old(received)
        invariant Out(View(), events) == TakePieces(head, Pieces(chunk.choices[..i]))
      {
        events := WriteChoice(chunk.choices[i], events);
        PiecesAppend(head, Pieces(chunk.choices[..i]), ChoicePieces(chunk.choices[i]));
        assert chunk.choices[..i + 1][..i] == chunk.choices[..i];
      }
      assert chunk.choices[..|chunk.choices|] == chunk.choices;
    }

    method WriteDone() returns (events: seq<Event>)
      requires Valid()
      modifies this
      ensures received == old(received)
      ensures Valid() && Out(View(), events) == TakeDone(old(View()))
    {
      completed := true;
      events := [];
      if !started {
        started := true;
        events := [Start(id, model, usage.prompt)];
      }
      events := StopAll(open, events);
      open, textBlock := [], -1;
      if stopReason == "" {
        stopReason := "end_turn";
      }
      if |toolCalls.list| > 0 && (finishReason == "" || finishReason == "stop") {
        stopReason := "tool_use";
      }
      events := events + [MessageDelta(stopReason, Counts(Some(usage.prompt), Some(usage.completion), None)), MessageStop];
    }

    /** The state after the payloads received. */
    ghost predicate Consistent()
      reads this, toolCalls
    {
      Valid() && View() == Translate(received).next
    }

    /** The events of one payload; they continue the stream of the earlier ones. */
    method TranslatePayload(payload: Payload) returns (events: seq<Event>)
      requires Consistent()
      modifies this, toolCalls
      ensures Consistent() && received == old(received) + [payload]
      ensures Translate(received).events == old(Translate(received).events) + events
    {
      ghost var t := View();
      if completed {
        events := [];
      } else {
        match payload {
          case Done =>
            events := WriteDone();
          case Error(message) =>
            completed := true;
            events := [Failure(FirstNonEmpty(message, "upstream stream failed"))];
          case Malformed =>
            events := [];
          case Data(chunk) =>
            events := WriteChunk(chunk);
        }
      }
      assert Out(View(), events) == TakePayload(t, payload);
      assert (received + [payload])[..|received|] == received;
      received := received + [payload];
    }
  }
}
