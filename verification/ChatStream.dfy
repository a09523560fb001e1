/** Streamed chat completions: decoded payloads, and what a client that reads them learns. */
module ChatStream {
  import opened Options

  datatype Usage = Usage(prompt: int, completion: int, total: int, cached: Option<int>)
  const NO_USAGE := Usage(0, 0, 0, None)

  datatype ToolDelta = ToolDelta(index: Option<int>, id: string, kind: string, name: string, arguments: string)
  datatype Delta = Delta(role: string, content: string, reasoning: string, toolCalls: seq<ToolDelta>)
  datatype ChunkChoice = ChunkChoice(index: int, delta: Delta, finish: string)
  datatype Chunk = Chunk(id: string, model: string, choices: seq<ChunkChoice>, usage: Option<Usage>)

  /** One decoded `data:` payload. */
  datatype Payload = Done | Error(message: string) | Malformed | Data(chunk: Chunk)

  predicate Final(p: Payload) {
    p.Done? || p.Error?
  }

  predicate HasFinal(ps: seq<Payload>) {
    exists i :: 0 <= i < |ps| && Final(ps[i])
  }

  lemma {:induction false} FinalNow(ps: seq<Payload>)
    requires ps != []
    ensures HasFinal(ps) == (HasFinal(ps[..|ps| - 1]) || Final(ps[|ps| - 1]))
  {
    var n := |ps| - 1;
    assert forall i :: 0 <= i < n ==> ps[..n][i] == ps[i];
  }

  /** What one choice of a chunk adds, in the order the translators handle it. */
  datatype Piece = Words(text: string) | Tool(delta: ToolDelta) | Finish(reason: string)

  function ToolPieces(deltas: seq<ToolDelta>): seq<Piece> {
    seq(|deltas|, i requires 0 <= i < |deltas| => Tool(deltas[i]))
  }

  lemma {:induction false} ToolPiecesNext(deltas: seq<ToolDelta>, i: nat)
    requires i < |deltas|
    ensures ToolPieces(deltas[..i + 1]) == ToolPieces(deltas[..i]) + [Tool(deltas[i])]
  {
  }

  function WordPieces(content: string): seq<Piece> {
    if content != "" then [Words(content)] else []
  }

  function FinishPieces(finish: string): seq<Piece> {
    if finish != "" then [Finish(finish)] else []
  }

  function ChoicePieces(c: ChunkChoice): seq<Piece> {
    WordPieces(c.delta.content) + ToolPieces(c.delta.toolCalls) + FinishPieces(c.finish)
  }

  function Pieces(choices: seq<ChunkChoice>): seq<Piece> {
    if choices == [] then []
    else Pieces(choices[..|choices| - 1]) + ChoicePieces(choices[|choices| - 1])
  }

  // ---- The pieces are what the chunk says ----

  function TextIn(ps: seq<Piece>): string {
    if ps == [] then ""
    else TextIn(ps[..|ps| - 1]) + if ps[|ps| - 1].Words? then ps[|ps| - 1].text else ""
  }

  function DeltasIn(ps: seq<Piece>): seq<ToolDelta> {
    if ps == [] then []
    else DeltasIn(ps[..|ps| - 1]) + if ps[|ps| - 1].Tool? then [ps[|ps| - 1].delta] else []
  }

  function FinishesIn(ps: seq<Piece>): seq<string> {
    if ps == [] then []
    else FinishesIn(ps[..|ps| - 1]) + if ps[|ps| - 1].Finish? then [ps[|ps| - 1].reason] else []
  }

  function Contents(choices: seq<ChunkChoice>): string {
    if choices == [] then "" else Contents(choices[..|choices| - 1]) + choices[|choices| - 1].delta.content
  }

  function Deltas(choices: seq<ChunkChoice>): seq<ToolDelta> {
    if choices == [] then [] else Deltas(choices[..|choices| - 1]) + choices[|choices| - 1].delta.toolCalls
  }

  /** The finish reasons that are given. */
  function Reasons(choices: seq<ChunkChoice>): seq<string> {
    if choices == [] then []
    else
      var last := choices[|choices| - 1].finish;
      Reasons(choices[..|choices| - 1]) + if |last| > 0 then [last] else []
  }

  lemma {:induction false} TextInAppend(a: seq<Piece>, b: seq<Piece>)
    ensures TextIn(a + b) == TextIn(a) + TextIn(b)
  {
    if b == [] {
      assert a + b == a;
    } else {
      var n := |b| - 1;
      assert (a + b)[..|a| + n] == a + b[..n];
      TextInAppend(a, b[..n]);
    }
  }

  lemma {:induction false} DeltasInAppend(a: seq<Piece>, b: seq<Piece>)
    ensures DeltasIn(a + b) == DeltasIn(a) + DeltasIn(b)
  {
    if b == [] {
      assert a + b == a;
    } else {
      var n := |b| - 1;
      assert (a + b)[..|a| + n] == a + b[..n];
      DeltasInAppend(a, b[..n]);
    }
  }

  lemma {:induction false} FinishesInAppend(a: seq<Piece>, b: seq<Piece>)
    ensures FinishesIn(a + b) == FinishesIn(a) + FinishesIn(b)
  {
    if b == [] {
      assert a + b == a;
    } else {
      var n := |b| - 1;
      assert (a + b)[..|a| + n] == a + b[..n];
      FinishesInAppend(a, b[..n]);
    }
  }

  lemma {:induction false} InAppend(a: seq<Piece>, b: seq<Piece>)
    ensures TextIn(a + b) == TextIn(a) + TextIn(b)
    ensures DeltasIn(a + b) == DeltasIn(a) + DeltasIn(b)
    ensures FinishesIn(a + b) == FinishesIn(a) + FinishesIn(b)
  {
    TextInAppend(a, b);
    DeltasInAppend(a, b);
    FinishesInAppend(a, b);
  }

  lemma {:induction false} ToolPiecesSay(deltas: seq<ToolDelta>)
    ensures TextIn(ToolPieces(deltas)) == "" && DeltasIn(ToolPieces(deltas)) == deltas && FinishesIn(ToolPieces(deltas)) == []
  {
    if deltas != [] {
      var n := |deltas| - 1;
      ToolPiecesSay(deltas[..n]);
      assert ToolPieces(deltas)[..n] == ToolPieces(deltas[..n]);
      assert deltas == deltas[..n] + [deltas[n]];
    }
  }

  lemma {:induction false} ChoiceSays(c: ChunkChoice)
    ensures var ps := ChoicePieces(c);
            && TextIn(ps) == c.delta.content && DeltasIn(ps) == c.delta.toolCalls
            && FinishesIn(ps) == if |c.finish| > 0 then [c.finish] else []
  {
    var words, tools, finish := WordPieces(c.delta.content), ToolPieces(c.delta.toolCalls), FinishPieces(c.finish);
    InAppend(words, tools);
    InAppend(words + tools, finish);
    ToolPiecesSay(c.delta.toolCalls);
    assert words != [] ==> words[..0] == [];
    assert finish != [] ==> finish[..0] == [];
    assert TextIn([]) == "" && DeltasIn([]) == [] && FinishesIn([]) == [];
    hide ToolPieces;
    assert TextIn(words) == c.delta.content && DeltasIn(words) == [] && FinishesIn(words) == [];
  }

  /** All text, all call deltas and all finish reasons of a chunk are among its pieces, each kind in order. */
  lemma {:induction false} PiecesSay(choices: seq<ChunkChoice>)
    ensures var ps := Pieces(choices);
            TextIn(ps) == Contents(choices) && DeltasIn(ps) == Deltas(choices) && FinishesIn(ps) == Reasons(choices)
  {
    if choices != [] {
      var n := |choices| - 1;
      PiecesSay(choices[..n]);
      ChoiceSays(choices[n]);
      hide ChoicePieces;
      InAppend(Pieces(choices[..n]), ChoicePieces(choices[n]));
    }
  }

  function Turn(p: Piece): nat {
    match p
    case Words(_) => 0
    case Tool(_) => 1
    case Finish(_) => 2
  }

  /** Within a choice the text comes first and the finish reason last. */
  lemma {:induction false} ChoiceInTurn(c: ChunkChoice)
    ensures forall i, j :: 0 <= i < j < |ChoicePieces(c)| ==> Turn(ChoicePieces(c)[i]) <= Turn(ChoicePieces(c)[j])
    ensures forall i :: 0 <= i < |ChoicePieces(c)| && ChoicePieces(c)[i].Words? ==> ChoicePieces(c)[i].text != ""
  {
  }

  /** One place in the answer: a run of text, or the tool call of this number. */
  datatype Item = Text(text: string) | Call(number: nat)
  datatype ToolCall = ToolCall(id: string, name: string, arguments: string)
  datatype Ending = Open | Complete | Failed

  /** Text joins the run at the end of the answer or starts a new one. */
  function AddText(order: seq<Item>, text: string): seq<Item> {
    if text == "" then order
    else if order != [] && order[|order| - 1].Text? then
      order[..|order| - 1] + [Text(order[|order| - 1].text + text)]
    else order + [Text(text)]
  }

  function AppendArguments(tools: seq<ToolCall>, number: nat, arguments: string): seq<ToolCall>
    requires number < |tools|
  {
    tools[number := ToolCall(tools[number].id, tools[number].name, tools[number].arguments + arguments)]
  }

  /** All text of an answer. */
  function TextOf(order: seq<Item>): string {
    if order == [] then ""
    else TextOf(order[..|order| - 1]) + (if order[|order| - 1].Text? then order[|order| - 1].text else "")
  }

  lemma {:induction false} AddTextAppends(order: seq<Item>, text: string)
    ensures TextOf(AddText(order, text)) == TextOf(order) + text
  {
    var n := |order|;
    if text != "" {
      if n > 0 && order[n - 1].Text? {
        var added := order[..n - 1] + [Text(order[n - 1].text + text)];
        assert added[..n - 1] == order[..n - 1];
      } else {
        assert (order + [Text(text)])[..n] == order;
      }
    }
  }

  /**
     A client of the chat stream: `keys` finds the call that later deltas of an
     index belong to; `named` says that every call so far opened with an id,
     `settled` that no call got its id after it was opened.
     A call is known by the id and name of the delta that opened it.
   */
  datatype Client = Client(order: seq<Item>, tools: seq<ToolCall>, keys: map<int, nat>, named: bool,
                           settled: bool, finish: string, usage: Usage, ending: Ending)
  {
    ghost predicate Valid() {
      forall k :: k in keys ==> keys[k] < |tools|
    }
  }

  const NEW_CLIENT := Client([], [], map[], true, true, "", NO_USAGE, Open)

  /** The call a delta continues: the one of its index, else the latest unless the delta has a new id. */
  function Continues(c: Client, d: ToolDelta): (known: Option<nat>)
    requires c.Valid()
    ensures known.Some? ==> known.value < |c.tools|
  {
    if d.index.Some? then
      var key := d.index.value;
      if key in c.keys then Some(c.keys[key]) else None
    else if |c.tools| > 0 && (d.id == "" || d.id == c.tools[|c.tools| - 1].id) then Some(|c.tools| - 1)
    else None
  }

  /** The delta brings the id of a call that was opened without one. */
  predicate Late(c: Client, d: ToolDelta)
    requires c.Valid()
  {
    var known := Continues(c, d);
    known.Some? && c.tools[known.value].id == "" && d.id != ""
  }

  function ReadTool(c: Client, d: ToolDelta): (r: Client)
    requires c.Valid()
    ensures r.Valid()
  {
    var known := Continues(c, d);
    if known.Some? then c.(tools := AppendArguments(c.tools, known.value, d.arguments), settled := c.settled && !Late(c, d))
    else
      var key := if d.index.Some? then d.index.value else |c.tools|;
      c.(order := c.order + [Call(|c.tools|)], tools := c.tools + [ToolCall(d.id, d.name, d.arguments)],
         keys := c.keys[key := |c.tools|], named := c.named && d.id != "")
  }

  function ReadPiece(c: Client, p: Piece): (r: Client)
    requires c.Valid()
    ensures r.Valid()
  {
    match p
    case Words(text) => c.(order := AddText(c.order, text))
    case Tool(d) => ReadTool(c, d)
    case Finish(reason) => c.(finish := reason)
  }

  function ReadPieces(c: Client, ps: seq<Piece>): (r: Client)
    requires c.Valid()
    ensures r.Valid()
  {
    if ps == [] then c else ReadPiece(ReadPieces(c, ps[..|ps| - 1]), ps[|ps| - 1])
  }

  function ReadPayload(c: Client, p: Payload): (r: Client)
    requires c.Valid()
    ensures r.Valid()
  {
    if c.ending != Open then c else
    match p
    case Done => c.(ending := Complete)
    case Error(_) => c.(ending := Failed)
    case Malformed => c
    case Data(chunk) =>
      ReadPieces(if chunk.usage.Some? then c.(usage := chunk.usage.value) else c, Pieces(chunk.choices))
  }

  function ReadPayloads(ps: seq<Payload>): (r: Client)
    ensures r.Valid()
  {
    if ps == [] then NEW_CLIENT else ReadPayload(ReadPayloads(ps[..|ps| - 1]), ps[|ps| - 1])
  }

  lemma {:induction false} ReadNext(ps: seq<Payload>, p: Payload)
    ensures ReadPayloads(ps + [p]) == ReadPayload(ReadPayloads(ps), p)
  {
    assert (ps + [p])[..|ps|] == ps;
  }

  /** A chunk with nothing but one part of a call. */
  function CallChunk(d: ToolDelta): Chunk {
    Chunk("", "", [ChunkChoice(0, Delta("", "", "", [d]), "")], None)
  }

  /** What a client reads from a chunk that carries a single piece, or none. */
  lemma {:induction false} ReadSingle(c: Client, chunk: Chunk, p: Piece)
    requires c.Valid() && c.ending == Open && chunk.usage.None? && |chunk.choices| == 1
    ensures ChoicePieces(chunk.choices[0]) == [p] ==> ReadPayload(c, Data(chunk)) == ReadPiece(c, p)
    ensures ChoicePieces(chunk.choices[0]) == [] ==> ReadPayload(c, Data(chunk)) == c
  {
    hide ReadPiece, ChoicePieces;
    var ps := ChoicePieces(chunk.choices[0]);
    assert chunk.choices[..0] == [];
    assert Pieces(chunk.choices) == [] + ps == ps;
    if ps == [p] {
      assert ps[..0] == [];
      assert ReadPieces(c, ps) == ReadPiece(c, p);
    }
  }

  lemma {:induction false} ReadCallChunk(c: Client, d: ToolDelta)
    requires c.Valid() && c.ending == Open
    ensures ReadPayload(c, Data(CallChunk(d))) == ReadTool(c, d)
  {
    ReadSingle(c, CallChunk(d), Tool(d));
    assert ChoicePieces(CallChunk(d).choices[0]) == [Tool(d)];
    hide ReadPayload, ChoicePieces;
  }

  lemma {:induction false} NamedBefore(c: Client, ps: seq<Piece>)
    requires c.Valid() && ReadPieces(c, ps).named
    ensures c.named
  {
    if ps != [] {
      NamedBefore(c, ps[..|ps| - 1]);
    }
  }

  /** A finished answer keeps what it says. */
  lemma {:induction false} PiecesKeepEnding(c: Client, ps: seq<Piece>)
    requires c.Valid()
    ensures ReadPieces(c, ps).ending == c.ending && ReadPieces(c, ps).usage == c.usage
  {
    if ps != [] {
      PiecesKeepEnding(c, ps[..|ps| - 1]);
    }
  }

  lemma {:induction false} NamedUntil(c: Client, p: Payload)
    requires c.Valid() && ReadPayload(c, p).named
    ensures c.named
  {
    if c.ending == Open && p.Data? {
      NamedBefore(if p.chunk.usage.Some? then c.(usage := p.chunk.usage.value) else c, Pieces(p.chunk.choices));
    }
  }

  lemma {:induction false} SettledBefore(c: Client, ps: seq<Piece>)
    requires c.Valid() && ReadPieces(c, ps).settled
    ensures c.settled
  {
    if ps != [] {
      SettledBefore(c, ps[..|ps| - 1]);
    }
  }

  lemma {:induction false} SettledUntil(c: Client, p: Payload)
    requires c.Valid() && ReadPayload(c, p).settled
    ensures c.settled
  {
    if c.ending == Open && p.Data? {
      SettledBefore(if p.chunk.usage.Some? then c.(usage := p.chunk.usage.value) else c, Pieces(p.chunk.choices));
    }
  }

  // ---- A call without an id ----

  const NO_ID := ToolDelta(Some(0), "", "function", "lookup", "")
  const ITS_ID := ToolDelta(Some(0), "x", "", "", "{}")

  /** A complete stream whose one call never gets an id. */
  function NeverNamed(): seq<Payload> {
    [Data(CallChunk(NO_ID)), Done]
  }

  /** A complete stream whose one call gets its id with its arguments. */
  function NamedLate(): seq<Payload> {
    [Data(CallChunk(NO_ID)), Data(CallChunk(ITS_ID)), Done]
  }

  lemma {:induction false} WithoutId()
    ensures var c := ReadPayloads(NeverNamed()); c.ending == Complete && !c.named && c.settled
  {
    var first := Data(CallChunk(NO_ID));
    ReadNext([], first);
    ReadCallChunk(NEW_CLIENT, NO_ID);
    ReadNext([first], Done);
    hide ReadPayloads;
    assert [] + [first] == [first] && [first] + [Done] == NeverNamed();
  }

  lemma {:induction false} LateId()
    ensures var c := ReadPayloads(NamedLate()); c.ending == Complete && !c.settled
  {
    var first, second := Data(CallChunk(NO_ID)), Data(CallChunk(ITS_ID));
    ReadNext([], first);
    ReadCallChunk(NEW_CLIENT, NO_ID);
    ReadNext([first], second);
    ReadCallChunk(ReadTool(NEW_CLIENT, NO_ID), ITS_ID);
    ReadNext([first, second], Done);
    hide ReadPayloads;
    assert [] + [first] == [first] && [first] + [second] == [first, second] && [first, second] + [Done] == NamedLate();
  }
}
