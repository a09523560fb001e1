/** The events of an Anthropic Messages stream: what a client reads from them, and which sequences follow the protocol. */
module AnthropicEvents {
  import opened Options
  import opened ChatStream

  /** Token counts; each may be absent. */
  datatype Counts = Counts(input: Option<int>, output: Option<int>, cached: Option<int>)
  const NO_COUNTS := Counts(None, None, None)

  datatype Block = Block(kind: string, id: string, name: string, input: string)
  datatype BlockDelta = BlockDelta(kind: string, text: string, thinking: string, json: string)

  datatype Event =
    | MessageStart(id: string, model: string, usage: Counts)
    | BlockStart(index: int, block: Block)
    | ContentDelta(index: int, delta: BlockDelta)
    | BlockStop(index: int)
    | MessageDelta(stopReason: string, usage: Counts)
    | MessageStop
    | Failure(message: string)
    | Unreadable
    | Other

  const TEXT := "text"
  const TOOL_USE := "tool_use"
  const TEXT_DELTA := "text_delta"
  const JSON_DELTA := "input_json_delta"

  /** An empty input object says that the arguments follow as deltas. */
  function StartArguments(input: string): string {
    if input == "{}" then "" else input
  }

  /** A client of the stream: `blocks` finds the call of a tool_use block. */
  datatype Reader = Reader(order: seq<Item>, tools: seq<ToolCall>, blocks: map<int, nat>,
                           input: int, output: int, cached: Option<int>, stop: string, ending: Ending)
  {
    ghost predicate Valid() {
      forall k :: k in blocks ==> blocks[k] < |tools|
    }
  }

  const NEW_READER := Reader([], [], map[], 0, 0, None, "", Open)

  /** Counts are cumulative: one that is present replaces what was known; that nothing was cached is not worth telling. */
  function Counted(r: Reader, c: Counts): Reader {
    r.(input := if c.input.Some? then c.input.value else r.input,
       output := if c.output.Some? then c.output.value else r.output,
       cached := if c.cached == None || c.cached.value <= 0 then r.cached else c.cached)
  }

  function ReadDelta(r: Reader, index: int, d: BlockDelta): (r': Reader)
    requires r.Valid()
    ensures r'.Valid()
  {
    if d.kind == TEXT_DELTA then r.(order := AddText(r.order, d.text))
    else if d.kind == JSON_DELTA && index in r.blocks then
      r.(tools := AppendArguments(r.tools, r.blocks[index], d.json))
    else r
  }

  function ReadEvent(r: Reader, e: Event): (r': Reader)
    requires r.Valid()
    ensures r'.Valid()
  {
    if r.ending != Open then r else
    match e
    case MessageStart(_, _, usage) => Counted(r, usage)
    case BlockStart(index, block) =>
      if block.kind != TOOL_USE then r
      else r.(order := r.order + [Call(|r.tools|)], blocks := r.blocks[index := |r.tools|],
              tools := r.tools + [ToolCall(block.id, block.name, StartArguments(block.input))])
    case ContentDelta(index, delta) => ReadDelta(r, index, delta)
    case BlockStop(_) => r
    case MessageDelta(stop, usage) => Counted(r, usage).(stop := stop)
    case MessageStop => r.(ending := Complete)
    case Failure(_) => r.(ending := Failed)
    case Unreadable => r.(ending := Failed)
    case Other => r
  }

  function Read(r: Reader, es: seq<Event>): (r': Reader)
    requires r.Valid()
    ensures r'.Valid()
  {
    if es == [] then r else ReadEvent(Read(r, es[..|es| - 1]), es[|es| - 1])
  }

  lemma {:induction false} ReadAppend(r: Reader, a: seq<Event>, b: seq<Event>)
    requires r.Valid()
    ensures Read(r, a + b) == Read(Read(r, a), b)
  {
    hide ReadEvent;
    if b == [] {
      assert a + b == a;
    } else {
      var n := |b| - 1;
      assert (a + b)[..|a| + n] == a + b[..n];
      ReadAppend(r, a, b[..n]);
    }
  }

  // ---- The rules of the protocol ----

  datatype BlockState = BlockState(kind: string, open: bool)
  datatype Phase = Fresh | Started | Closing | Ended | Broken
  datatype Checker = Checker(phase: Phase, blocks: seq<BlockState>)

  const NEW_CHECKER := Checker(Fresh, [])
  const BROKEN := Checker(Broken, [])

  predicate OpenBlock(blocks: seq<BlockState>, index: int) {
    0 <= index < |blocks| && blocks[index].open
  }

  predicate AllStopped(blocks: seq<BlockState>) {
    forall i :: 0 <= i < |blocks| ==> !blocks[i].open
  }

  predicate Fits(block: string, delta: string) {
    (block == TEXT && delta == TEXT_DELTA) || (block == TOOL_USE && delta == JSON_DELTA)
  }

  /**
     One event: message_start comes first, blocks are numbered from 0 in order,
     a delta belongs to an open block of its kind, message_delta and
     message_stop close the message after every block stopped; an error may end
     the stream at any point, and nothing follows the end.
   */
  function CheckEvent(c: Checker, e: Event): Checker {
    match (c.phase, e)
    case (Fresh, MessageStart(_, _, _)) => c.(phase := Started)
    case (Started, BlockStart(index, block)) =>
      if index == |c.blocks| then c.(blocks := c.blocks + [BlockState(block.kind, true)]) else BROKEN
    case (Started, ContentDelta(index, delta)) =>
      if OpenBlock(c.blocks, index) && Fits(c.blocks[index].kind, delta.kind) then c else BROKEN
    case (Started, BlockStop(index)) =>
      if OpenBlock(c.blocks, index) then c.(blocks := c.blocks[index := BlockState(c.blocks[index].kind, false)]) else BROKEN
    case (Started, MessageDelta(_, _)) => if AllStopped(c.blocks) then c.(phase := Closing) else BROKEN
    case (Closing, MessageStop) => c.(phase := Ended)
    case (_, Failure(_)) => if c.phase == Ended || c.phase == Broken then BROKEN else c.(phase := Ended)
    case _ => BROKEN
  }

  function Check(c: Checker, es: seq<Event>): Checker {
    if es == [] then c else CheckEvent(Check(c, es[..|es| - 1]), es[|es| - 1])
  }

  lemma {:induction false} CheckAppend(c: Checker, a: seq<Event>, b: seq<Event>)
    ensures Check(c, a + b) == Check(Check(c, a), b)
  {
    hide CheckEvent;
    if b == [] {
      assert a + b == a;
    } else {
      var n := |b| - 1;
      assert (a + b)[..|a| + n] == a + b[..n];
      CheckAppend(c, a, b[..n]);
    }
  }

  // ---- Conditions on streams an upstream sends ----

  predicate ToolStart(e: Event) {
    e.BlockStart? && e.block.kind == TOOL_USE
  }

  /** Text comes in text deltas and nowhere else. */
  predicate PlainDelta(d: BlockDelta) {
    if d.kind == TEXT_DELTA then d.thinking == ""
    else d.kind == JSON_DELTA || d.text == "" || d.thinking != ""
  }

  /** Tool blocks have ids and no two share an index. */
  predicate WellFormed(es: seq<Event>) {
    && (forall i :: 0 <= i < |es| && ToolStart(es[i]) ==> es[i].block.id != "")
    && (forall i, j :: 0 <= i < j < |es| && ToolStart(es[i]) && ToolStart(es[j]) ==> es[i].index != es[j].index)
    && (forall i :: 0 <= i < |es| && es[i].ContentDelta? ==> PlainDelta(es[i].delta))
  }
}
