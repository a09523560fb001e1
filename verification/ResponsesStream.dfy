/** Chat completion chunks translated into a Responses stream. */
module ResponsesStream {
  import opened Options
  import opened Texts
  import opened Folds
  import opened ChatStream
  import opened ToolCalls

  datatype OutputItem =
    | MessageItem(id: string, status: string, text: string)
    | CallItem(id: string, status: string, callId: string, name: string, arguments: string)

  datatype Event =
    | Created(id: string, model: string)
    | ItemAdded(index: int, item: OutputItem)
    | PartAdded(itemId: string, index: int)
    | TextDelta(itemId: string, index: int, delta: string)
    | ArgumentsDelta(itemId: string, index: int, delta: string)
    | TextDone(itemId: string, index: int, text: string)
    | PartDone(itemId: string, index: int, text: string)
    | ArgumentsDone(itemId: string, index: int, arguments: string)
    | ItemDone(index: int, item: OutputItem)
    | Completed(id: string, model: string, output: seq<Option<OutputItem>>, usage: Usage)
    | Failure(id: string, model: string, message: string)
    | DoneMarker

  /** `messageIndex` is the output of the text or -1; `outputs` counts the outputs given out. */
  datatype Responses = Responses(id: string, model: string, usage: Option<Usage>, started: bool, completed: bool,
                                 text: string, messageIndex: int, outputs: nat, calls: Calls)

  const NEW_RESPONSES := Responses("", "", None, false, false, "", -1, 0, Calls([], map[]))

  datatype Out = Out(next: Responses, events: seq<Event>)

  const IN_PROGRESS := "in_progress"
  const COMPLETED := "completed"

  function ResponseId(t: Responses): string {
    FirstNonEmpty(t.id, "resp_stream")
  }

  function MessageItemId(t: Responses): string {
    "msg_" + FirstNonEmpty(t.id, "stream")
  }

  function CallItemId(t: Responses, call: Collected): string {
    if call.id != "" then "fc_" + call.id
    else "fc_" + FirstNonEmpty(t.id, "stream") + "_" + Decimal(call.position)
  }

  function ItemOfCall(t: Responses, call: Collected, status: string, arguments: string): OutputItem {
    CallItem(CallItemId(t, call), status, call.id, call.name, arguments)
  }

  function TakeWords(t: Responses, text: string): Out {
    var id := MessageItemId(t);
    if t.messageIndex < 0 then
      Out(t.(messageIndex := t.outputs, outputs := t.outputs + 1, text := t.text + text),
          [ItemAdded(t.outputs, MessageItem(id, IN_PROGRESS, "")), PartAdded(id, t.outputs), TextDelta(id, t.outputs, text)])
    else Out(t.(text := t.text + text), [TextDelta(id, t.messageIndex, text)])
  }

  function TakeCall(t: Responses, d: ToolDelta): Out
    requires t.calls.Valid()
  {
    var a := Add(t.calls, d, t.outputs);
    var call := a.calls.list[a.at];
    Out(t.(calls := a.calls, outputs := if a.isNew then t.outputs + 1 else t.outputs),
        (if a.isNew then [ItemAdded(call.position, ItemOfCall(t, call, IN_PROGRESS, ""))] else [])
        + (if d.arguments != "" then [ArgumentsDelta(CallItemId(t, call), call.position, d.arguments)] else []))
  }

  function TakePiece(t: Responses, p: Piece): (o: Out)
    requires t.calls.Valid()
    ensures o.next.calls.Valid()
  {
    match p
    case Words(text) => TakeWords(t, text)
    case Tool(d) => TakeCall(t, d)
    case Finish(_) => Out(t, [])
  }

  function Then(o: Out, p: Piece): (o': Out)
    requires o.next.calls.Valid()
    ensures o'.next.calls.Valid()
  {
    var more := TakePiece(o.next, p);
    Out(more.next, o.events + more.events)
  }

  /** The pieces after what was emitted before. */
  function TakePieces(o: Out, ps: seq<Piece>): (o': Out)
    requires o.next.calls.Valid()
    ensures o'.next.calls.Valid()
  {
    if ps == [] then o else Then(TakePieces(o, ps[..|ps| - 1]), ps[|ps| - 1])
  }

  function TakeHead(t: Responses, chunk: Chunk): Out {
    var seen := t.(id := if chunk.id != "" then ReplaceFirst(chunk.id, "chat_", "resp_") else t.id,
                   model := if chunk.model != "" then chunk.model else t.model,
                   usage := if chunk.usage.Some? then chunk.usage else t.usage);
    Out(seen.(started := true), if t.started then [] else [Created(ResponseId(seen), seen.model)])
  }

  /** The closing events of the message item, when there is one. */
  function MessageDone(t: Responses): seq<Event> {
    if t.messageIndex < 0 then []
    else
      var id := MessageItemId(t);
      [TextDone(id, t.messageIndex, t.text), PartDone(id, t.messageIndex, t.text),
       ItemDone(t.messageIndex, MessageItem(id, COMPLETED, t.text))]
  }

  function DoneItem(t: Responses, call: Collected): OutputItem {
    ItemOfCall(t, call, COMPLETED, call.arguments)
  }

  function CallDone(t: Responses, call: Collected): seq<Event> {
    [ArgumentsDone(CallItemId(t, call), call.position, call.arguments), ItemDone(call.position, DoneItem(t, call))]
  }

  function CallsDone(t: Responses, calls: seq<Collected>): seq<Event> {
    if calls == [] then [] else CallsDone(t, calls[..|calls| - 1]) + CallDone(t, calls[|calls| - 1])
  }

  function Holes(n: nat): (output: seq<Option<OutputItem>>)
    ensures |output| == n
  {
    if n == 0 then [] else Holes(n - 1) + [None]
  }

  /** The output list: the message and the calls, each at its place. */
  function Placed(t: Responses, calls: seq<Collected>): (output: seq<Option<OutputItem>>)
    ensures |output| == t.outputs
  {
    if calls == [] then
      var holes := Holes(t.outputs);
      if 0 <= t.messageIndex < t.outputs then
        holes[t.messageIndex := Some(MessageItem(MessageItemId(t), COMPLETED, t.text))]
      else holes
    else
      var call := calls[|calls| - 1];
      var before := Placed(t, calls[..|calls| - 1]);
      if call.position < t.outputs then before[call.position := Some(DoneItem(t, call))] else before
  }

  function TakeDone(t: Responses): Out {
    var usage := if t.usage.Some? then t.usage.value else NO_USAGE;
    Out(t.(completed := true),
        MessageDone(t) + CallsDone(t, t.calls.list)
        + [Completed(ResponseId(t), t.model, Placed(t, t.calls.list), usage), DoneMarker])
  }

  function TakePayload(t: Responses, p: Payload): (o: Out)
    requires t.calls.Valid()
    ensures o.next.calls.Valid()
  {
    if t.completed then Out(t, []) else
    match p
    case Done => TakeDone(t)
    case Error(message) => Out(t.(completed := true), [Failure(ResponseId(t), t.model, FirstNonEmpty(message, "upstream stream failed"))])
    case Malformed => Out(t, [])
    case Data(chunk) => TakePieces(TakeHead(t, chunk), Pieces(chunk.choices))
  }

  /** Everything a stream of payloads is translated into, before it is numbered. */
  function Translate(ps: seq<Payload>): (o: Out)
    ensures o.next.calls.Valid()
  {
    if ps == [] then Out(NEW_RESPONSES, [])
    else
      var before := Translate(ps[..|ps| - 1]);
      var o := TakePayload(before.next, ps[|ps| - 1]);
      Out(o.next, before.events + o.events)
  }

  // ---- A reader that checks the stream ----

  /** How far an item got: a message is added, gets its part, is told its text, closes and finishes. */
  datatype Stage = Opened | Streaming | Told | Closing | Finished

  /** `said` is what the deltas of the item said so far. */
  datatype Slot = Slot(message: bool, said: string, stage: Stage)
  datatype Phase = Running | Ending | Ended | Broken
  datatype Reader = Reader(phase: Phase, created: bool, slots: seq<Slot>)

  const NEW_READER := Reader(Running, false, [])
  const BROKEN := Reader(Broken, false, [])

  predicate At(slots: seq<Slot>, index: int, message: bool, stage: Stage) {
    0 <= index < |slots| && slots[index].message == message && slots[index].stage == stage
  }

  predicate ItemSays(item: OutputItem, slot: Slot) {
    if slot.message then item.MessageItem? && item.text == slot.said
    else item.CallItem? && item.arguments == slot.said
  }

  function To(r: Reader, index: int, stage: Stage): Reader
    requires 0 <= index < |r.slots|
  {
    r.(slots := r.slots[index := r.slots[index].(stage := stage)])
  }

  function Say(r: Reader, index: int, delta: string): Reader
    requires 0 <= index < |r.slots|
  {
    r.(slots := r.slots[index := r.slots[index].(said := r.slots[index].said + delta)])
  }

  /** Every item finished, and the output list repeats what each of them said. */
  predicate Accounts(output: seq<Option<OutputItem>>, slots: seq<Slot>) {
    && |output| == |slots|
    && forall i :: 0 <= i < |slots| ==> slots[i].stage == Finished && output[i].Some? && ItemSays(output[i].value, slots[i])
  }

  function ReadEvent(r: Reader, e: Event): Reader {
    if r.phase == Ending then if e.DoneMarker? then r.(phase := Ended) else BROKEN
    else if r.phase != Running then BROKEN
    else
      match e
      case Created(_, _) => if r.created || r.slots != [] then BROKEN else r.(created := true)
      case ItemAdded(index, item) =>
        if r.created && index == |r.slots| then
          r.(slots := r.slots + [Slot(item.MessageItem?, "", if item.MessageItem? then Opened else Streaming)])
        else BROKEN
      case PartAdded(_, index) => if At(r.slots, index, true, Opened) then To(r, index, Streaming) else BROKEN
      case TextDelta(_, index, delta) => if At(r.slots, index, true, Streaming) then Say(r, index, delta) else BROKEN
      case ArgumentsDelta(_, index, delta) => if At(r.slots, index, false, Streaming) then Say(r, index, delta) else BROKEN
      case TextDone(_, index, text) =>
        if At(r.slots, index, true, Streaming) && text == r.slots[index].said then To(r, index, Told) else BROKEN
      case PartDone(_, index, text) =>
        if At(r.slots, index, true, Told) && text == r.slots[index].said then To(r, index, Closing) else BROKEN
      case ArgumentsDone(_, index, arguments) =>
        if At(r.slots, index, false, Streaming) && arguments == r.slots[index].said then To(r, index, Closing) else BROKEN
      case ItemDone(index, item) =>
        if At(r.slots, index, item.MessageItem?, Closing) && ItemSays(item, r.slots[index]) then To(r, index, Finished) else BROKEN
      case Completed(_, _, output, _) => if Accounts(output, r.slots) then r.(phase := Ending) else BROKEN
      case Failure(_, _, _) => r.(phase := Ended)
      case DoneMarker => BROKEN
  }

  function Read(r: Reader, es: seq<Event>): Reader {
    Fold(ReadEvent, r, es)
  }

  lemma {:induction false} ReadAppend(r: Reader, a: seq<Event>, b: seq<Event>)
    ensures Read(r, a + b) == Read(Read(r, a), b)
  {
    FoldAppend(ReadEvent, r, a, b);
  }

  lemma {:induction false} ReadOne(r: Reader, e: Event)
    ensures Read(r, [e]) == ReadEvent(r, e)
  {
    FoldOne(ReadEvent, r, e);
  }

  lemma {:induction false} ReadTwo(r: Reader, e: Event, f: Event)
    ensures Read(r, [e, f]) == ReadEvent(ReadEvent(r, e), f)
  {
    FoldTwo(ReadEvent, r, e, f);
  }

  lemma {:induction false} ReadThree(r: Reader, e: Event, f: Event, g: Event)
    ensures Read(r, [e, f, g]) == ReadEvent(ReadEvent(ReadEvent(r, e), f), g)
  {
    FoldThree(ReadEvent, r, e, f, g);
  }

  // ---- The outputs given out and the items of the stream ----

  /** The message and the calls take every place below `outputs`, and no two the same. */
  ghost predicate Places(messageIndex: int, outputs: nat, list: seq<Collected>) {
    && messageIndex < outputs
    && (forall i :: 0 <= i < |list| ==> list[i].position < outputs && list[i].position != messageIndex)
    && (forall i, j :: 0 <= i < j < |list| ==> list[i].position < list[j].position)
    && (forall k :: 0 <= k < outputs && k != messageIndex ==> Taken(list, k))
  }

  ghost predicate Taken(list: seq<Collected>, k: int) {
    exists i :: 0 <= i < |list| && list[i].position == k
  }

  /** The slots a reader built say what the translator collected. */
  ghost predicate Holds(t: Responses, slots: seq<Slot>) {
    && |slots| == t.outputs
    && (if t.messageIndex >= 0 then t.messageIndex < |slots| && slots[t.messageIndex] == Slot(true, t.text, Streaming) else t.text == "")
    && (forall i :: 0 <= i < |t.calls.list| ==> SlotOf(t.calls.list[i], slots))
  }

  ghost predicate SlotOf(call: Collected, slots: seq<Slot>) {
    call.position < |slots| && slots[call.position] == Slot(false, call.arguments, Streaming)
  }

  ghost predicate Follows(t: Responses, r: Reader) {
    if t.completed then r.phase == Ended
    else
      && r.phase == Running && r.created == t.started && (!t.started ==> t.outputs == 0)
      && Holds(t, r.slots) && Places(t.messageIndex, t.outputs, t.calls.list)
  }

  lemma {:induction false} WordsFollow(t: Responses, r: Reader, text: string)
    requires !t.completed && t.started && Follows(t, r)
    ensures var o := TakeWords(t, text); Follows(o.next, Read(r, o.events))
  {
    var es := TakeWords(t, text).events;
    if t.messageIndex < 0 {
      ReadThree(r, es[0], es[1], es[2]);
      assert forall k :: 0 <= k < t.outputs ==> Taken(t.calls.list, k);
    } else {
      ReadOne(r, es[0]);
    }
  }

  lemma {:induction false} NewCall(t: Responses, d: ToolDelta)
    requires t.calls.Valid() && Add(t.calls, d, t.outputs).isNew
    ensures var o, call := TakeCall(t, d), Collected(d.id, d.name, d.arguments, t.outputs);
            && o.next == t.(calls := o.next.calls, outputs := t.outputs + 1) && o.next.calls.list == t.calls.list + [call]
            && o.events == [ItemAdded(t.outputs, ItemOfCall(t, call, IN_PROGRESS, ""))]
                           + (if d.arguments != "" then [ArgumentsDelta(CallItemId(t, call), t.outputs, d.arguments)] else [])
  {
    hide ItemOfCall, CallItemId;
    assert "" + d.arguments == d.arguments;
  }

  lemma {:induction false} NewCallRead(r: Reader, start: Event, part: Event, arguments: string)
    requires r.phase == Running && r.created && start.ItemAdded? && start.index == |r.slots| && start.item.CallItem?
    requires part.ArgumentsDelta? && part.index == start.index && part.delta == arguments
    ensures Read(r, [start] + if arguments != "" then [part] else []) == r.(slots := r.slots + [Slot(false, arguments, Streaming)])
  {
    assert [start] + [part] == [start, part] && [start] + [] == [start] && "" + arguments == arguments;
    if arguments != "" {
      ReadTwo(r, start, part);
    } else {
      ReadOne(r, start);
    }
  }

  lemma {:induction false} NewCallFollows(t: Responses, r: Reader, d: ToolDelta)
    requires t.calls.Valid() && !t.completed && t.started && Follows(t, r) && Add(t.calls, d, t.outputs).isNew
    ensures var o := TakeCall(t, d); Follows(o.next, Read(r, o.events))
  {
    var call := Collected(d.id, d.name, d.arguments, t.outputs);
    var start := ItemAdded(t.outputs, ItemOfCall(t, call, IN_PROGRESS, ""));
    var part := ArgumentsDelta(CallItemId(t, call), t.outputs, d.arguments);
    NewCall(t, d);
    NewCallRead(r, start, part, d.arguments);
    hide TakeCall, Add, Places, CallItemId, Read;
    OnePlaceMore(t.messageIndex, t.outputs, t.calls.list, call);
  }

  lemma {:induction false} OnePlaceMore(messageIndex: int, outputs: nat, list: seq<Collected>, call: Collected)
    requires Places(messageIndex, outputs, list) && call.position == outputs
    ensures Places(messageIndex, outputs + 1, list + [call])
  {
    var list' := list + [call];
    forall k | 0 <= k < outputs + 1 && k != messageIndex ensures Taken(list', k) {
      if k == outputs {
        assert list'[|list|].position == k;
      } else {
        assert Taken(list, k);
        var i :| 0 <= i < |list| && list[i].position == k;
        assert list'[i].position == k;
      }
    }
  }

  lemma {:induction false} KnownCallFollows(t: Responses, r: Reader, d: ToolDelta)
    requires t.calls.Valid() && !t.completed && t.started && Follows(t, r) && !Add(t.calls, d, t.outputs).isNew
    ensures var o := TakeCall(t, d); Follows(o.next, Read(r, o.events))
  {
    var a := Add(t.calls, d, t.outputs);
    var call := a.calls.list[a.at];
    ReadOne(r, ArgumentsDelta(CallItemId(t, call), call.position, d.arguments));
    assert SlotOf(t.calls.list[a.at], r.slots);
    assert t.calls.list[a.at].arguments + "" == t.calls.list[a.at].arguments;
    SamePlaces(t.messageIndex, t.outputs, t.calls.list, a.calls.list);
    PlacesApart(t.messageIndex, t.outputs, t.calls.list);
    hide Places, CallItemId, Read;
  }

  lemma {:induction false} PlacesApart(messageIndex: int, outputs: nat, list: seq<Collected>)
    requires Places(messageIndex, outputs, list)
    ensures forall i, j :: 0 <= i < |list| && 0 <= j < |list| && i != j ==> list[i].position != list[j].position
    ensures forall i :: 0 <= i < |list| ==> list[i].position != messageIndex && list[i].position < outputs
  {
  }

  lemma {:induction false} SamePlaces(messageIndex: int, outputs: nat, list: seq<Collected>, list': seq<Collected>)
    requires Places(messageIndex, outputs, list)
    requires |list| == |list'| && forall i :: 0 <= i < |list| ==> list'[i].position == list[i].position
    ensures Places(messageIndex, outputs, list')
  {
    forall k | 0 <= k < outputs && k != messageIndex ensures Taken(list', k) {
      assert Taken(list, k);
      var i :| 0 <= i < |list| && list[i].position == k;
      assert list'[i].position == k;
    }
  }

  lemma {:induction false} PieceFollows(t: Responses, r: Reader, p: Piece)
    requires t.calls.Valid() && !t.completed && t.started && Follows(t, r)
    ensures var o := TakePiece(t, p); !o.next.completed && o.next.started && Follows(o.next, Read(r, o.events))
  {
    match p
    case Words(text) => WordsFollow(t, r, text);
    case Tool(d) =>
      if Add(t.calls, d, t.outputs).isNew {
        NewCallFollows(t, r, d);
      } else {
        KnownCallFollows(t, r, d);
      }
    case Finish(_) =>
  }

  lemma {:induction false} PiecesFollow(o: Out, r: Reader, ps: seq<Piece>)
    requires o.next.calls.Valid() && !o.next.completed && o.next.started && Follows(o.next, Read(r, o.events))
    ensures var o' := TakePieces(o, ps); !o'.next.completed && o'.next.started && Follows(o'.next, Read(r, o'.events))
  {
    if ps != [] {
      var before := TakePieces(o, ps[..|ps| - 1]);
      PiecesFollow(o, r, ps[..|ps| - 1]);
      PieceFollows(before.next, Read(r, before.events), ps[|ps| - 1]);
      ReadAppend(r, before.events, TakePiece(before.next, ps[|ps| - 1]).events);
    }
  }

  // ---- Completion ----

  /** The slots after the message and the first `n` calls finished. */
  ghost predicate Finishing(t: Responses, before: seq<Slot>, slots: seq<Slot>, n: nat)
    requires n <= |t.calls.list|
  {
    && |slots| == |before|
    && (forall k :: 0 <= k < |slots| ==> slots[k].message == before[k].message && slots[k].said == before[k].said)
    && (t.messageIndex >= 0 ==> t.messageIndex < |slots| && slots[t.messageIndex].stage == Finished)
    && (forall i :: 0 <= i < n ==> t.calls.list[i].position < |slots| && slots[t.calls.list[i].position].stage == Finished)
    && (forall i :: n <= i < |t.calls.list| ==> t.calls.list[i].position < |slots| && slots[t.calls.list[i].position].stage == Streaming)
  }

  lemma {:induction false} MessageFinishes(t: Responses, r: Reader)
    requires !t.completed && Follows(t, r)
    ensures var r' := Read(r, MessageDone(t));
            r'.phase == Running && Finishing(t, r.slots, r'.slots, 0)
  {
    if t.messageIndex >= 0 {
      var es := MessageDone(t);
      ReadThree(r, es[0], es[1], es[2]);
    }
    assert forall i :: 0 <= i < |t.calls.list| ==> SlotOf(t.calls.list[i], r.slots);
  }

  lemma {:induction false} CallsFinish(t: Responses, r: Reader, n: nat)
    requires !t.completed && Follows(t, r) && n <= |t.calls.list|
    ensures var r' := Read(Read(r, MessageDone(t)), CallsDone(t, t.calls.list[..n]));
            r'.phase == Running && Finishing(t, r.slots, r'.slots, n)
  {
    var start := Read(r, MessageDone(t));
    if n == 0 {
      MessageFinishes(t, r);
    } else {
      hide Follows, Finishing, CallDone, Read, MessageDone;
      CallsFinish(t, r, n - 1);
      var calls, call := t.calls.list[..n], t.calls.list[n - 1];
      assert calls[..n - 1] == t.calls.list[..n - 1];
      CallFinishes(t, r, Read(start, CallsDone(t, calls[..n - 1])), n);
      ReadAppend(start, CallsDone(t, calls[..n - 1]), CallDone(t, call));
    }
  }

  lemma {:induction false} CallFinishes(t: Responses, r: Reader, before: Reader, n: nat)
    requires !t.completed && Follows(t, r) && 0 < n <= |t.calls.list|
    requires before.phase == Running && Finishing(t, r.slots, before.slots, n - 1)
    ensures var r' := Read(before, CallDone(t, t.calls.list[n - 1]));
            r'.phase == Running && Finishing(t, r.slots, r'.slots, n)
  {
    var call := t.calls.list[n - 1];
    assert SlotOf(call, r.slots);
    ReadTwo(before, CallDone(t, call)[0], CallDone(t, call)[1]);
  }

  /** No hole is left: the message and every call are found at their places. */
  lemma {:induction false} PlacedAt(t: Responses, n: nat)
    requires n <= |t.calls.list| && Places(t.messageIndex, t.outputs, t.calls.list)
    ensures var output := Placed(t, t.calls.list[..n]);
            && (t.messageIndex >= 0 ==> output[t.messageIndex] == Some(MessageItem(MessageItemId(t), COMPLETED, t.text)))
            && (forall i :: 0 <= i < n ==> output[t.calls.list[i].position] == Some(DoneItem(t, t.calls.list[i])))
  {
    if n > 0 {
      PlacedAt(t, n - 1);
      assert t.calls.list[..n][..n - 1] == t.calls.list[..n - 1];
    }
  }

  lemma {:induction false} OutputAccounts(t: Responses, r: Reader, slots: seq<Slot>)
    requires !t.completed && Follows(t, r) && Finishing(t, r.slots, slots, |t.calls.list|)
    ensures Accounts(Placed(t, t.calls.list), slots)
  {
    assert t.calls.list[..|t.calls.list|] == t.calls.list;
    PlacedAt(t, |t.calls.list|);
    var output := Placed(t, t.calls.list);
    forall k | 0 <= k < t.outputs
      ensures slots[k].stage == Finished && output[k].Some? && ItemSays(output[k].value, slots[k])
    {
      if k != t.messageIndex {
        assert Taken(t.calls.list, k);
        var i :| 0 <= i < |t.calls.list| && t.calls.list[i].position == k;
        assert SlotOf(t.calls.list[i], r.slots);
      }
    }
  }

  lemma {:induction false} OutcomeEnds(r: Reader, completed: Event)
    requires r.phase == Running && completed.Completed? && Accounts(completed.output, r.slots)
    ensures Read(r, [completed, DoneMarker]).phase == Ended
  {
    ReadTwo(r, completed, DoneMarker);
  }

  lemma {:induction false} DoneFollows(t: Responses, r: Reader)
    requires !t.completed && Follows(t, r)
    ensures Read(r, TakeDone(t).events).phase == Ended
  {
    var n := |t.calls.list|;
    assert t.calls.list[..n] == t.calls.list;
    CallsFinish(t, r, n);
    var items := MessageDone(t) + CallsDone(t, t.calls.list);
    var completed := TakeDone(t).events[|items|];
    var r' := Read(r, items);
    ReadAppend(r, MessageDone(t), CallsDone(t, t.calls.list));
    OutputAccounts(t, r, r'.slots);
    OutcomeEnds(r', completed);
    ReadAppend(r, items, [completed, DoneMarker]);
    assert TakeDone(t).events == items + [completed, DoneMarker];
  }

  lemma {:induction false} PayloadFollows(t: Responses, r: Reader, p: Payload)
    requires t.calls.Valid() && Follows(t, r)
    ensures var o := TakePayload(t, p); Follows(o.next, Read(r, o.events))
  {
    if !t.completed {
      match p
      case Done => DoneFollows(t, r);
      case Error(_) => ReadOne(r, TakePayload(t, p).events[0]);
      case Malformed =>
      case Data(chunk) =>
        var head := TakeHead(t, chunk);
        if !t.started {
          ReadOne(r, head.events[0]);
        }
        PiecesFollow(head, r, Pieces(chunk.choices));
    }
  }

  lemma {:induction false} TranslationFollows(ps: seq<Payload>)
    ensures Follows(Translate(ps).next, Read(NEW_READER, Translate(ps).events))
  {
    if ps != [] {
      var n := |ps| - 1;
      var before := Translate(ps[..n]);
      TranslationFollows(ps[..n]);
      PayloadFollows(before.next, Read(NEW_READER, before.events), ps[n]);
      ReadAppend(NEW_READER, before.events, TakePayload(before.next, ps[n]).events);
    }
  }

  lemma {:induction false} PiecesKeepOpen(o: Out, ps: seq<Piece>)
    requires o.next.calls.Valid()
    ensures TakePieces(o, ps).next.completed == o.next.completed
  {
    if ps != [] {
      PiecesKeepOpen(o, ps[..|ps| - 1]);
    }
  }

  lemma {:induction false} CompletedNow(t: Responses, p: Payload)
    requires t.calls.Valid()
    ensures TakePayload(t, p).next.completed == (t.completed || Final(p))
  {
    if !t.completed && p.Data? {
      PiecesKeepOpen(TakeHead(t, p.chunk), Pieces(p.chunk.choices));
    }
  }

  lemma {:induction false} CompletedByFinal(ps: seq<Payload>)
    ensures Translate(ps).next.completed == HasFinal(ps)
  {
    if ps != [] {
      var n := |ps| - 1;
      CompletedByFinal(ps[..n]);
      CompletedNow(Translate(ps[..n]).next, ps[n]);
      FinalNow(ps);
    }
  }

  /**
     Whatever payloads arrive, items are numbered in order, every done event and
     the final output repeat the deltas, and nothing follows the one outcome,
     which comes exactly when [DONE] or an error has arrived.
   */
  lemma {:induction false} ResponsesAreWellFormed(ps: seq<Payload>)
    ensures var r := Read(NEW_READER, Translate(ps).events);
            r.phase != Broken && (r.phase == Ended <==> HasFinal(ps))
  {
    TranslationFollows(ps);
    CompletedByFinal(ps);
  }

  /** The message and the calls share out the outputs without a gap, for every run. */
  lemma {:induction false} OutputsAreShared(ps: seq<Payload>)
    requires !HasFinal(ps)
    ensures var t := Translate(ps).next; Places(t.messageIndex, t.outputs, t.calls.list)
  {
    TranslationFollows(ps);
    CompletedByFinal(ps);
  }

  // ---- Sequence numbers ----

  /** What is sent: every event carries a sequence number, the final marker none. */
  datatype Sent = Numbered(number: nat, event: Event) | Marker

  function Count(es: seq<Event>): nat {
    if es == [] then 0 else Count(es[..|es| - 1]) + if es[|es| - 1].DoneMarker? then 0 else 1
  }

  function Number(from: nat, es: seq<Event>): seq<Sent> {
    if es == [] then []
    else
      var n := |es| - 1;
      Number(from, es[..n]) + [if es[n].DoneMarker? then Marker else Numbered(from + Count(es[..n]), es[n])]
  }

  lemma {:induction false} NumberAppend(from: nat, a: seq<Event>, b: seq<Event>)
    ensures Count(a + b) == Count(a) + Count(b)
    ensures Number(from, a + b) == Number(from, a) + Number(from + Count(a), b)
  {
    if b == [] {
      assert a + b == a;
    } else {
      var n := |b| - 1;
      assert (a + b)[..|a| + n] == a + b[..n];
      NumberAppend(from, a, b[..n]);
    }
  }

  lemma {:induction false} ReadLast(r: Reader, es: seq<Event>)
    requires es != []
    ensures Read(r, es) == ReadEvent(Read(r, es[..|es| - 1]), es[|es| - 1])
  {
  }

  lemma {:induction false} MarkerEnds(r: Reader, e: Event)
    ensures ReadEvent(r, e).phase != Broken ==> r.phase == Running || (r.phase == Ending && e.DoneMarker?)
    ensures e.DoneMarker? ==> ReadEvent(r, e).phase == Ended || ReadEvent(r, e).phase == Broken
  {
  }

  /** Only the last event can be the marker. */
  lemma {:induction false} MarkerIsLast(r: Reader, es: seq<Event>)
    requires Read(r, es).phase != Broken
    ensures forall i :: 0 <= i < |es| - 1 ==> !es[i].DoneMarker?
  {
    if |es| >= 2 {
      var n := |es| - 1;
      ReadLast(r, es);
      ReadLast(r, es[..n]);
      hide Read, ReadEvent;
      MarkerEnds(Read(r, es[..n]), es[n]);
      MarkerEnds(Read(r, es[..n][..n - 1]), es[n - 1]);
      MarkerIsLast(r, es[..n]);
      assert forall i :: 0 <= i < n ==> es[..n][i] == es[i];
    }
  }

  lemma {:induction false} NumbersAreIndexes(es: seq<Event>)
    requires forall i :: 0 <= i < |es| - 1 ==> !es[i].DoneMarker?
    ensures |Number(0, es)| == |es|
    ensures forall i :: 0 <= i < |es| ==> Number(0, es)[i] == if es[i].DoneMarker? then Marker else Numbered(i, es[i])
    ensures Count(es) == if es != [] && es[|es| - 1].DoneMarker? then |es| - 1 else |es|
  {
    if es != [] {
      NumbersAreIndexes(es[..|es| - 1]);
    }
  }

  /** The events of a run carry the numbers 0, 1, 2, ... in order. */
  lemma {:induction false} SequenceIsConsecutive(ps: seq<Payload>)
    ensures var es := Translate(ps).events;
            var sent := Number(0, es);
            |sent| == |es| && forall i :: 0 <= i < |es| ==> sent[i] == if es[i].DoneMarker? then Marker else Numbered(i, es[i])
  {
    ResponsesAreWellFormed(ps);
    MarkerIsLast(NEW_READER, Translate(ps).events);
    NumbersAreIndexes(Translate(ps).events);
  }

  // ---- The final output says what the chunks said ----

  /** The text of an output list. */
  function OutputText(output: seq<Option<OutputItem>>): string {
    if output == [] then ""
    else
      var last := output[|output| - 1];
      OutputText(output[..|output| - 1]) + if last.Some? && last.value.MessageItem? then last.value.text else ""
  }

  /** Its calls, in order. */
  function OutputCalls(output: seq<Option<OutputItem>>): seq<ToolCall> {
    if output == [] then []
    else
      var last := output[|output| - 1];
      OutputCalls(output[..|output| - 1])
      + if last.Some? && last.value.CallItem? then [ToolCall(last.value.callId, last.value.name, last.value.arguments)] else []
  }

  function AsCalls(list: seq<Collected>): seq<ToolCall> {
    seq(|list|, i requires 0 <= i < |list| => ToolCall(list[i].id, list[i].name, list[i].arguments))
  }

  /** The first `n` calls are those placed below `k`. */
  ghost predicate Below(list: seq<Collected>, k: nat, n: nat) {
    && n <= |list|
    && (forall i :: 0 <= i < n ==> list[i].position < k)
    && (forall i :: n <= i < |list| ==> list[i].position >= k)
  }

  lemma {:induction false} OutputNext(output: seq<Option<OutputItem>>, k: nat)
    requires k < |output| && output[k].Some?
    ensures var item, text, calls := output[k].value, OutputText(output[..k]), OutputCalls(output[..k]);
            && OutputText(output[..k + 1]) == (if item.MessageItem? then text + item.text else text)
            && OutputCalls(output[..k + 1])
            == (if item.CallItem? then calls + [ToolCall(item.callId, item.name, item.arguments)] else calls)
  {
    assert output[..k + 1][..k] == output[..k];
    assert OutputText(output[..k]) + "" == OutputText(output[..k]) && OutputCalls(output[..k]) + [] == OutputCalls(output[..k]);
  }

  lemma {:induction false} AsCallsNext(list: seq<Collected>, n: nat)
    requires n < |list|
    ensures AsCalls(list[..n + 1]) == AsCalls(list[..n]) + [ToolCall(list[n].id, list[n].name, list[n].arguments)]
  {
  }

  /** The places below `k` hold the first `n` calls, and the text once its place is among them. */
  ghost predicate HoldsBelow(t: Responses, output: seq<Option<OutputItem>>, k: nat, n: nat)
    requires k <= |output|
  {
    && Below(t.calls.list, k, n)
    && OutputCalls(output[..k]) == AsCalls(t.calls.list[..n])
    && OutputText(output[..k]) == if 0 <= t.messageIndex < k then t.text else ""
  }

  lemma {:induction false} MessageHolds(t: Responses, output: seq<Option<OutputItem>>, k: nat, n: nat)
    requires k < |output| == t.outputs && k == t.messageIndex && Filled(t, output)
    requires Places(k, t.outputs, t.calls.list) && HoldsBelow(t, output, k, n)
    ensures HoldsBelow(t, output, k + 1, n)
  {
    MessageAt(t.calls.list, t.outputs, k, n);
    hide Places, Below, OutputText, OutputCalls, AsCalls;
    OutputNext(output, k);
  }

  lemma {:induction false} CallHolds(t: Responses, output: seq<Option<OutputItem>>, k: nat, n: nat)
    requires k < |output| == t.outputs && k != t.messageIndex && Filled(t, output)
    requires Places(t.messageIndex, t.outputs, t.calls.list) && HoldsBelow(t, output, k, n)
    ensures HoldsBelow(t, output, k + 1, n + 1)
  {
    CallAt(t.calls.list, t.messageIndex, t.outputs, k, n);
    hide Places, Below, OutputText, OutputCalls, AsCalls;
    AsCallsNext(t.calls.list, n);
    assert HasItem(t, output, t.calls.list[n]);
    OutputNext(output, k);
  }

  lemma {:induction false} OutputHolds(t: Responses, output: seq<Option<OutputItem>>, k: nat) returns (n: nat)
    requires Filled(t, output) && k <= |output| == t.outputs && Places(t.messageIndex, t.outputs, t.calls.list)
    ensures HoldsBelow(t, output, k, n)
  {
    if k == 0 {
      n := 0;
    } else {
      hide Places, Filled, HoldsBelow;
      n := OutputHolds(t, output, k - 1);
      if k - 1 == t.messageIndex {
        MessageHolds(t, output, k - 1, n);
      } else {
        CallHolds(t, output, k - 1, n);
        n := n + 1;
      }
    }
  }

  lemma {:induction false} MessageAt(list: seq<Collected>, outputs: nat, k: nat, n: nat)
    requires Places(k, outputs, list) && Below(list, k, n)
    ensures Below(list, k + 1, n)
  {
  }

  lemma {:induction false} CallAt(list: seq<Collected>, messageIndex: int, outputs: nat, k: nat, n: nat)
    requires Places(messageIndex, outputs, list) && k < outputs && k != messageIndex && Below(list, k, n)
    ensures n < |list| && list[n].position == k && Below(list, k + 1, n + 1)
  {
    assert Taken(list, k);
    var i :| 0 <= i < |list| && list[i].position == k;
    assert n < |list| ==> k <= list[n].position;
    assert forall j :: n < j < |list| ==> list[n].position < list[j].position;
  }

  ghost predicate HasItem(t: Responses, output: seq<Option<OutputItem>>, call: Collected) {
    call.position < |output| && output[call.position] == Some(DoneItem(t, call))
  }

  /** The output list has the message and the calls at their places. */
  ghost predicate Filled(t: Responses, output: seq<Option<OutputItem>>) {
    && |output| == t.outputs
    && (t.messageIndex >= 0 ==> t.messageIndex < t.outputs
                                && output[t.messageIndex] == Some(MessageItem(MessageItemId(t), COMPLETED, t.text)))
    && (forall i :: 0 <= i < |t.calls.list| ==> HasItem(t, output, t.calls.list[i]))
  }

  /** The translator's text and counts are the client's, and so are its calls until one gets its id late. */
  ghost predicate Knows(t: Responses, c: Client) {
    && (if c.settled then Agree(t.calls, c) else LateIds(t.calls.list, c.tools))
    && t.text == TextOf(c.order)
    && c.usage == (if t.usage.Some? then t.usage.value else NO_USAGE)
  }

  lemma {:induction false} CallKnown(t: Responses, c: Client, d: ToolDelta)
    requires t.calls.Valid() && c.Valid() && Knows(t, c)
    ensures Knows(TakeCall(t, d).next, ReadTool(c, d))
  {
    hide Add, Agree;
    if c.settled {
      AddAgrees(t.calls, c, d, t.outputs);
    } else {
      LateIdsStay(t.calls, c, d, t.outputs);
    }
    hide LateIds;
    AddTextKept(c, d);
  }

  lemma {:induction false} PieceKnown(t: Responses, c: Client, p: Piece)
    requires t.calls.Valid() && c.Valid() && Knows(t, c)
    ensures Knows(TakePiece(t, p).next, ReadPiece(c, p))
  {
    match p
    case Words(text) => AddTextAppends(c.order, text);
    case Tool(d) => CallKnown(t, c, d);
    case Finish(_) =>
  }

  lemma {:induction false} PiecesKnown(o: Out, c: Client, ps: seq<Piece>)
    requires o.next.calls.Valid() && c.Valid() && Knows(o.next, c)
    ensures Knows(TakePieces(o, ps).next, ReadPieces(c, ps))
  {
    if ps != [] {
      hide Knows, TakePiece, ReadPiece;
      var n := |ps| - 1;
      PiecesKnown(o, c, ps[..n]);
      PieceKnown(TakePieces(o, ps[..n]).next, ReadPieces(c, ps[..n]), ps[n]);
    }
  }

  lemma {:induction false} AddTextKept(c: Client, d: ToolDelta)
    requires c.Valid()
    ensures TextOf(ReadTool(c, d).order) == TextOf(c.order)
  {
    if Continues(c, d).None? {
      assert (c.order + [Call(|c.tools|)])[..|c.order|] == c.order;
    }
  }

  lemma {:induction false} HeadKnown(t: Responses, c: Client, chunk: Chunk)
    requires t.calls.Valid() && c.Valid() && Knows(t, c) && !t.completed && c.ending == Open
    ensures var c' := if chunk.usage.Some? then c.(usage := chunk.usage.value) else c;
            && Knows(TakeHead(t, chunk).next, c')
            && ReadPayload(c, Data(chunk)) == ReadPieces(c', Pieces(chunk.choices))
  {
    var c' := if chunk.usage.Some? then c.(usage := chunk.usage.value) else c;
    assert c.settled ==> Agree(t.calls, c');
    assert !c.settled ==> LateIds(t.calls.list, c'.tools);
  }

  lemma {:induction false} PayloadKnown(t: Responses, c: Client, p: Payload)
    requires t.calls.Valid() && c.Valid() && Knows(t, c) && t.completed == (c.ending != Open)
    ensures var t' := TakePayload(t, p).next; Knows(t', ReadPayload(c, p)) && t'.completed == (ReadPayload(c, p).ending != Open)
  {
    CompletedNow(t, p);
    if !t.completed && p.Data? {
      var chunk := p.chunk;
      var c' := if chunk.usage.Some? then c.(usage := chunk.usage.value) else c;
      HeadKnown(t, c, chunk);
      hide Knows, ReadPieces;
      PiecesKnown(TakeHead(t, chunk), c', Pieces(chunk.choices));
      PiecesKeepEnding(c', Pieces(chunk.choices));
    }
  }

  lemma {:induction false} TranslationKnows(ps: seq<Payload>)
    ensures Knows(Translate(ps).next, ReadPayloads(ps)) && Translate(ps).next.completed == (ReadPayloads(ps).ending != Open)
  {
    if ps != [] {
      var n := |ps| - 1;
      TranslationKnows(ps[..n]);
      PayloadKnown(Translate(ps[..n]).next, ReadPayloads(ps[..n]), ps[n]);
    }
  }

  /** A complete stream ends with the completed response and the marker. */
  ghost predicate EndsWith(es: seq<Event>, t: Responses) {
    && |es| >= 2 && es[|es| - 1] == DoneMarker
    && es[|es| - 2] == Completed(ResponseId(t), t.model, Placed(t, t.calls.list), if t.usage.Some? then t.usage.value else NO_USAGE)
  }

  lemma {:induction false} DoneEnds(t: Responses, before: seq<Event>)
    requires !t.completed
    ensures var o := TakeDone(t); o.next == t.(completed := true) && EndsWith(before + o.events, t)
  {
    hide ResponseId, Placed, MessageDone, CallsDone;
  }

  lemma {:induction false} CompletedLast(ps: seq<Payload>)
    requires ReadPayloads(ps).ending == Complete
    ensures var o := Translate(ps); o.next.completed && EndsWith(o.events, o.next.(completed := false))
    ensures var t := Translate(ps).next;
            Places(t.messageIndex, t.outputs, t.calls.list) && (t.messageIndex < 0 ==> t.text == "")
  {
    var n := |ps| - 1;
    var before := Translate(ps[..n]);
    CompletedAlike(ps[..n]);
    if ReadPayloads(ps[..n]).ending == Complete {
      CompletedLast(ps[..n]);
      assert before.events + [] == before.events;
    } else {
      PiecesEnding(ReadPayloads(ps[..n]), ps[n]);
      TranslationFollows(ps[..n]);
      DoneEnds(before.next, before.events);
      hide TakeDone, EndsWith, Places, ReadPayloads;
    }
  }

  /** Only [DONE] completes an answer. */
  lemma {:induction false} PiecesEnding(c: Client, p: Payload)
    requires c.Valid() && c.ending != Complete && ReadPayload(c, p).ending == Complete
    ensures p == Done && c.ending == Open
  {
    if c.ending == Open && p.Data? {
      PiecesKeepEnding(if p.chunk.usage.Some? then c.(usage := p.chunk.usage.value) else c, Pieces(p.chunk.choices));
    }
  }

  lemma {:induction false} CompletedAlike(ps: seq<Payload>)
    ensures Translate(ps).next.completed == (ReadPayloads(ps).ending != Open)
  {
    if ps != [] {
      var n := |ps| - 1;
      CompletedAlike(ps[..n]);
      CompletedNow(Translate(ps[..n]).next, ps[n]);
      var c := ReadPayloads(ps[..n]);
      if c.ending == Open && ps[n].Data? {
        var chunk := ps[n].chunk;
        PiecesKeepEnding(if chunk.usage.Some? then c.(usage := chunk.usage.value) else c, Pieces(chunk.choices));
      }
    }
  }

  ghost predicate SameCalls(calls: seq<ToolCall>, tools: seq<ToolCall>) {
    && |calls| == |tools|
    && forall i :: 0 <= i < |tools| ==> calls[i].id == tools[i].id && calls[i].arguments == tools[i].arguments
                                        && (tools[i].name != "" ==> calls[i].name == tools[i].name)
  }

  /** The collected calls are the client's exactly when no call got its id late. */
  lemma {:induction false} CallsSay(calls: Calls, c: Client)
    requires if c.settled then Agree(calls, c) else LateIds(calls.list, c.tools)
    ensures SameCalls(AsCalls(calls.list), c.tools) <==> c.settled
  {
  }

  lemma {:induction false} OutputSays(t: Responses, c: Client)
    requires Knows(t, c) && Places(t.messageIndex, t.outputs, t.calls.list) && (t.messageIndex < 0 ==> t.text == "")
    ensures var output := Placed(t, t.calls.list);
            OutputText(output) == TextOf(c.order) && (SameCalls(OutputCalls(output), c.tools) <==> c.settled)
  {
    var list, output := t.calls.list, Placed(t, t.calls.list);
    hide SameCalls, AsCalls, OutputCalls, OutputText, TextOf, Agree, LateIds;
    CallsSay(t.calls, c);
    assert list[..|list|] == list;
    PlacedAt(t, |list|);
    hide Placed;
    var n := OutputHolds(t, output, t.outputs);
    assert output[..t.outputs] == output;
    hide Places;
    assert n == |list|;
  }

  /**
     The completed response gives the whole text and the counts the chunks
     reported, and it gives their calls in order exactly when no call got its id
     after it was opened. A call that never gets one is no exception.
   */
  lemma {:induction false} ResponsesSayTheSame(ps: seq<Payload>)
    requires ReadPayloads(ps).ending == Complete
    ensures var es, c := Translate(ps).events, ReadPayloads(ps);
            && |es| >= 2 && es[|es| - 2].Completed?
            && OutputText(es[|es| - 2].output) == TextOf(c.order)
            && es[|es| - 2].usage == c.usage
            && (SameCalls(OutputCalls(es[|es| - 2].output), c.tools) <==> c.settled)
  {
    TranslationKnows(ps);
    CompletedLast(ps);
    var t := Translate(ps).next;
    PlacedSame(t, t.calls.list);
    OutputSays(t, ReadPayloads(ps));
  }

  /** A call without an id is conveyed; one whose id comes with its arguments is not the one that was opened. */
  lemma {:induction false} CallGetsItsId()
    ensures var es, c := Translate(NeverNamed()).events, ReadPayloads(NeverNamed());
            |es| >= 2 && es[|es| - 2].Completed? && SameCalls(OutputCalls(es[|es| - 2].output), c.tools)
    ensures var es, c := Translate(NamedLate()).events, ReadPayloads(NamedLate());
            |es| >= 2 && es[|es| - 2].Completed? && !SameCalls(OutputCalls(es[|es| - 2].output), c.tools)
  {
    WithoutId();
    LateId();
    hide NeverNamed, NamedLate, Translate, ReadPayloads, SameCalls, OutputCalls, OutputText;
    ResponsesSayTheSame(NeverNamed());
    ResponsesSayTheSame(NamedLate());
  }

  // ---- The response keeps the name of the answer ----

  /** The latest id the chunks give. */
  function IdIn(ps: seq<Payload>): string {
    if ps == [] then ""
    else
      var last := ps[|ps| - 1];
      if last.Data? && |last.chunk.id| > 0 then last.chunk.id else IdIn(ps[..|ps| - 1])
  }

  function ModelIn(ps: seq<Payload>): string {
    if ps == [] then ""
    else
      var last := ps[|ps| - 1];
      if last.Data? && |last.chunk.model| > 0 then last.chunk.model else ModelIn(ps[..|ps| - 1])
  }

  ghost predicate AnyChunk(ps: seq<Payload>) {
    exists i :: 0 <= i < |ps| && ps[i].Data?
  }

  /** The id of the response that stands for an answer of this id. */
  function ShownAs(id: string): string {
    var renamed := ReplaceFirst(id, "chat_", "resp_");
    if AllBy(renamed, IsSpace) then "resp_stream" else Trim(renamed)
  }

  /** What all items and events of a response are named after. */
  lemma {:induction false} IdsAre(t: Responses, call: Collected)
    ensures ResponseId(t) == if AllBy(t.id, IsSpace) then "resp_stream" else Trim(t.id)
    ensures MessageItemId(t) == "msg_" + if AllBy(t.id, IsSpace) then "stream" else Trim(t.id)
    ensures CallItemId(t, call)
         == "fc_" + if |call.id| > 0 then call.id
                    else (if AllBy(t.id, IsSpace) then "stream" else Trim(t.id)) + "_" + Decimal(call.position)
  {
    FirstNonEmptyIs(t.id, "resp_stream");
    FirstNonEmptyIs(t.id, "stream");
    assert Trim("resp_stream") == "resp_stream";
    assert Trim("stream") == "stream";
    var id := FirstNonEmpty(t.id, "stream");
    assert "fc_" + (id + "_" + Decimal(call.position)) == "fc_" + id + "_" + Decimal(call.position);
  }

  lemma {:induction false} PiecesKeepHead(o: Out, ps: seq<Piece>)
    requires o.next.calls.Valid()
    ensures var t := TakePieces(o, ps).next; t.id == o.next.id && t.model == o.next.model && t.started == o.next.started
    ensures o.events <= TakePieces(o, ps).events
  {
    if ps != [] {
      PiecesKeepHead(o, ps[..|ps| - 1]);
    }
  }

  lemma {:induction false} HeadKept(ps: seq<Payload>)
    requires !HasFinal(ps)
    ensures var t := Translate(ps).next;
            t.id == ReplaceFirst(IdIn(ps), "chat_", "resp_") && t.model == ModelIn(ps) && (t.started <==> AnyChunk(ps))
  {
    if ps != [] {
      var n := |ps| - 1;
      FinalNow(ps);
      HeadKept(ps[..n]);
      CompletedByFinal(ps[..n]);
      var t := Translate(ps[..n]).next;
      assert AnyChunk(ps) <==> AnyChunk(ps[..n]) || ps[n].Data? by {
        assert forall i :: 0 <= i < n ==> ps[i] == ps[..n][i];
      }
      if ps[n].Data? {
        PiecesKeepHead(TakeHead(t, ps[n].chunk), Pieces(ps[n].chunk.choices));
      }
      hide TakePieces, Pieces, ReplaceFirst, AnyChunk;
    }
  }

  lemma {:induction false} ResponseIdIs(ps: seq<Payload>)
    requires !HasFinal(ps)
    ensures ResponseId(Translate(ps).next) == ShownAs(IdIn(ps))
  {
    HeadKept(ps);
    IdsAre(Translate(ps).next, Collected("", "", "", 0));
  }

  /**
     However a stream ends, its last response has the latest id and model the
     chunks gave; a failure carries its message and nothing else is sent.
   */
  lemma {:induction false} ResponseIsNamed(ps: seq<Payload>, message: string)
    requires !HasFinal(ps)
    ensures var es := Translate(ps + [Done]).events;
            |es| >= 2 && es[|es| - 2].Completed? && es[|es| - 2].id == ShownAs(IdIn(ps)) && es[|es| - 2].model == ModelIn(ps)
    ensures Translate(ps + [Error(message)]).events
         == Translate(ps).events
            + [Failure(ShownAs(IdIn(ps)), ModelIn(ps), if AllBy(message, IsSpace) then "upstream stream failed" else Trim(message))]
  {
    var before := Translate(ps);
    HeadKept(ps);
    ResponseIdIs(ps);
    CompletedByFinal(ps);
    TranslateLast(ps, Done);
    TranslateLast(ps, Error(message));
    FirstNonEmptyIs(message, "upstream stream failed");
    assert Trim("upstream stream failed") == "upstream stream failed";
    hide ShownAs, IdIn, ModelIn, ResponseId, Trim, AllBy, ReplaceFirst, HasFinal, Translate, MessageDone, CallsDone, Placed;
  }

  /** The first chunk opens the response under its own id and model. */
  lemma {:induction false} CreatedFirst(ps: seq<Payload>, chunk: Chunk)
    requires !HasFinal(ps) && !AnyChunk(ps)
    ensures var es := Translate(ps + [Data(chunk)]).events;
            |es| > 0 && es[0] == Created(ShownAs(chunk.id), chunk.model)
  {
    NothingBeforeChunk(ps);
    TranslateLast(ps, Data(chunk));
    var t := Translate(ps).next;
    var head := TakeHead(t, chunk);
    PiecesKeepHead(head, Pieces(chunk.choices));
    IdsAre(head.next, Collected("", "", "", 0));
    hide TakePieces, Pieces, Translate, Trim, AllBy;
  }

  lemma {:induction false} NothingBeforeChunk(ps: seq<Payload>)
    requires !HasFinal(ps) && !AnyChunk(ps)
    ensures Translate(ps) == Out(NEW_RESPONSES, [])
  {
    if ps != [] {
      var n := |ps| - 1;
      FinalNow(ps);
      assert forall i :: 0 <= i < n ==> ps[i] == ps[..n][i];
      NothingBeforeChunk(ps[..n]);
      assert !ps[n].Data?;
    }
  }

  lemma {:induction false} PlacedSame(t: Responses, calls: seq<Collected>)
    ensures Placed(t.(completed := false), calls) == Placed(t, calls)
  {
    if calls != [] {
      PlacedSame(t, calls[..|calls| - 1]);
    }
  }

  // ---- The translator ----

  lemma {:induction false} PieceLast(o: Out, ps: seq<Piece>, p: Piece)
    requires o.next.calls.Valid()
    ensures TakePieces(o, ps + [p]) == Then(TakePieces(o, ps), p)
  {
    assert (ps + [p])[..|ps|] == ps;
  }

  lemma {:induction false} PiecesAppend(o: Out, a: seq<Piece>, b: seq<Piece>)
    requires o.next.calls.Valid()
    ensures TakePieces(o, a + b) == TakePieces(TakePieces(o, a), b)
  {
    hide Then;
    if b == [] {
      assert a + b == a;
    } else {
      var n := |b| - 1;
      assert (a + b)[..|a| + n] == a + b[..n];
      PiecesAppend(o, a, b[..n]);
    }
  }

  lemma {:induction false} DoneNext(t: Responses, list: seq<Collected>, i: nat)
    requires i < |list| && list[i].position < t.outputs
    ensures CallsDone(t, list[..i + 1]) == CallsDone(t, list[..i]) + CallDone(t, list[i])
    ensures Placed(t, list[..i + 1]) == Placed(t, list[..i])[list[i].position := Some(DoneItem(t, list[i]))]
  {
    assert list[..i + 1][..i] == list[..i];
  }

  lemma {:induction false} PlacesWhileOpen(ps: seq<Payload>)
    ensures var t := Translate(ps).next; t.completed || Places(t.messageIndex, t.outputs, t.calls.list)
  {
    CompletedByFinal(ps);
    hide Places;
    if !HasFinal(ps) {
      OutputsAreShared(ps);
    }
  }

  lemma {:induction false} TranslateLast(ps: seq<Payload>, p: Payload)
    ensures var before := Translate(ps);
            var o := TakePayload(before.next, p);
            Translate(ps + [p]) == Out(o.next, before.events + o.events)
  {
    hide TakePayload;
    assert (ps + [p])[..|ps|] == ps;
  }

  lemma {:induction false} NoPieces(o: Out)
    requires o.next.calls.Valid()
    ensures TakePieces(o, []) == o
  {
  }

  lemma {:induction false} WriteChoicesIsPayload(t: Responses, chunk: Chunk, head: Out)
    requires t.calls.Valid() && !t.completed && head == TakeHead(t, chunk)
    ensures TakePayload(t, Data(chunk)) == TakePieces(head, Pieces(chunk.choices))
  {
  }

  /** The finish reason of a choice changes nothing here. */
  lemma {:induction false} ChoiceWithoutFinish(o: Out, c: ChunkChoice)
    requires o.next.calls.Valid()
    ensures TakePieces(o, ChoicePieces(c)) == TakePieces(TakePieces(o, WordPieces(c.delta.content)), ToolPieces(c.delta.toolCalls))
  {
    var words, calls := WordPieces(c.delta.content), ToolPieces(c.delta.toolCalls);
    PiecesAppend(o, words, calls);
    if c.finish != "" {
      PieceLast(o, words + calls, Finish(c.finish));
      var before := TakePieces(o, words + calls);
      assert before.events + [] == before.events;
    } else {
      assert words + calls + [] == words + calls;
    }
  }

  /** Closes every call and puts it into its place of the output list. */
  method FinishCalls(t: Responses, list: seq<Collected>, before: seq<Event>, holes: seq<Option<OutputItem>>)
    returns (events: seq<Event>, output: seq<Option<OutputItem>>)
    requires holes == Placed(t, []) && forall i :: 0 <= i < |list| ==> list[i].position < t.outputs
    ensures events == before + CallsDone(t, list) && output == Placed(t, list)
  {
    events, output := before, holes;
    for i := 0 to |list|
      invariant output == Placed(t, list[..i]) && events == before + CallsDone(t, list[..i])
    {
      DoneNext(t, list, i);
      var item := ItemOfCall(t, list[i], COMPLETED, list[i].arguments);
      output := output[list[i].position := Some(item)];
      var more := [ArgumentsDone(CallItemId(t, list[i]), list[i].position, list[i].arguments), ItemDone(list[i].position, item)];
      assert before + (CallsDone(t, list[..i]) + more) == before + CallsDone(t, list[..i]) + more;
      events := events + more;
    }
    assert list[..|list|] == list;
  }

  lemma {:induction false} SamePlaced(t: Responses, list: seq<Collected>)
    ensures Placed(t.(completed := true), list) == Placed(t, list) && CallsDone(t.(completed := true), list) == CallsDone(t, list)
  {
    if list != [] {
      SamePlaced(t, list[..|list| - 1]);
    }
  }

  class ResponsesStreamTranslator {
    var id: string
    var model: string
    var usage: Option<Usage>
    var started: bool
    var completed: bool
    var text: string
    var messageIndex: int
    var outputs: nat
    const toolCalls: StreamToolCalls
    var sequence: nat

    ghost var received: seq<Payload>

    function View(): Responses
      reads this, toolCalls
    {
      Responses(id, model, usage, started, completed, text, messageIndex, outputs, toolCalls.View())
    }

    predicate Valid()
      reads this, toolCalls
    {
      forall k :: k in toolCalls.byIndex ==> toolCalls.byIndex[k] < |toolCalls.list|
    }

    constructor ()
      ensures Consistent() && received == [] && fresh(toolCalls)
    {
      id, model, usage, started, completed := "", "", None, false, false;
      text, messageIndex, outputs, sequence, received := "", -1, 0, 0, [];
      toolCalls := new StreamToolCalls();
    }

    method WriteText(delta: string, events: seq<Event>) returns (all: seq<Event>)
      requires Valid()
      modifies this`text, this`messageIndex, this`outputs
      ensures Valid() && Out(View(), all) == TakePieces(Out(old(View()), events), WordPieces(delta))
    {
      all := events;
      if delta != "" {
        PieceLast(Out(View(), events), [], Words(delta));
        assert WordPieces(delta) == [] + [Words(delta)];
        var itemId := MessageItemId(View());
        var more := [];
        if messageIndex < 0 {
          messageIndex := outputs;
          outputs := outputs + 1;
          more := [ItemAdded(messageIndex, MessageItem(itemId, IN_PROGRESS, "")), PartAdded(itemId, messageIndex)];
        }
        text := text + delta;
        more := more + [TextDelta(itemId, messageIndex, delta)];
        all := all + more;
      }
    }

    method WriteCall(d: ToolDelta) returns (events: seq<Event>)
      requires Valid()
      modifies this`outputs, toolCalls
      ensures Valid() && Out(View(), events) == TakePiece(old(View()), Tool(d))
    {
      events := [];
      var at, isNew := toolCalls.AddDelta(d, outputs);
      var call := toolCalls.list[at];
      if isNew {
        outputs := outputs + 1;
        events := [ItemAdded(call.position, ItemOfCall(View(), call, IN_PROGRESS, ""))];
      }
      if d.arguments != "" {
        events := events + [ArgumentsDelta(CallItemId(View(), call), call.position, d.arguments)];
      }
    }

    method WriteCalls(deltas: seq<ToolDelta>, events: seq<Event>) returns (all: seq<Event>)
      requires Valid()
      modifies this`outputs, toolCalls
      ensures Valid() && Out(View(), all) == TakePieces(Out(old(View()), events), ToolPieces(deltas))
    {
      ghost var from := Out(View(), events);
      all := events;
      for i := 0 to |deltas|
        invariant Valid() && Out(View(), all) == TakePieces(from, ToolPieces(deltas[..i]))
      {
        PieceLast(from, ToolPieces(deltas[..i]), Tool(deltas[i]));
        ToolPiecesNext(deltas, i);
        var more := WriteCall(deltas[i]);
        all := all + more;
      }
      assert deltas[..|deltas|] == deltas;
    }

    method WriteHead(chunk: Chunk) returns (events: seq<Event>)
      requires Valid()
      modifies this
      ensures Valid() && Out(View(), events) == TakeHead(old(View()), chunk) && sequence == old(sequence) && received == old(received)
    {
      if chunk.id != "" {
        id := ReplaceFirst(chunk.id, "chat_", "resp_");
      }
      if chunk.model != "" {
        model := chunk.model;
      }
      if chunk.usage.Some? {
        usage := chunk.usage;
      }
      events := [];
      if !started {
        started := true;
        events := [Created(FirstNonEmpty(id, "resp_stream"), model)];
      }
    }

    method WriteChunk(chunk: Chunk) returns (events: seq<Event>)
      requires Valid() && !completed
      modifies this, toolCalls
      ensures Valid() && Out(View(), events) == TakePayload(old(View()), Data(chunk)) && sequence == old(sequence) && received == old(received)
    {
      events := WriteHead(chunk);
      ghost var head := Out(View(), events);
      WriteChoicesIsPayload(old(View()), chunk, head);
      events := WriteChoices(chunk.choices, events);
    }

    method WriteChoices(choices: seq<ChunkChoice>, events: seq<Event>) returns (all: seq<Event>)
      requires Valid()
      modifies this, toolCalls
      ensures Valid() && Out(View(), all) == TakePieces(Out(old(View()), events), Pieces(choices))
      ensures sequence == old(sequence) && received == old(received)
    {
      hide TakePieces, WordPieces, ToolPieces, ChoicePieces;
      all := events;
      ghost var head := Out(View(), events);
      NoPieces(head);
      for i := 0 to |choices|
        invariant Valid() && sequence == old(sequence) && received == old(received)
        invariant Out(View(), all) == TakePieces(head, Pieces(choices[..i]))
      {
        PiecesAppend(head, Pieces(choices[..i]), ChoicePieces(choices[i]));
        ChoiceWithoutFinish(Out(View(), all), choices[i]);
        all := WriteText(choices[i].delta.content, all);
        all := WriteCalls(choices[i].delta.toolCalls, all);
        assert choices[..i + 1][..i] == choices[..i];
      }
      assert choices[..|choices|] == choices;
    }

    /** The closing events; the output list is filled place by place, and none is left empty. */
    method WriteDone() returns (events: seq<Event>)
      requires Valid() && !completed && Places(messageIndex, outputs, toolCalls.list)
      modifies this`completed
      ensures Valid() && Out(View(), events) == TakeDone(old(View()))
    {
      ghost var t := View();
      completed := true;
      var output := Holes(outputs);
      events := [];
      if messageIndex >= 0 {
        var item := MessageItem(MessageItemId(View()), COMPLETED, text);
        output := output[messageIndex := Some(item)];
        events := [TextDone(item.id, messageIndex, text), PartDone(item.id, messageIndex, text), ItemDone(messageIndex, item)];
      }
      events, output := FinishCalls(View(), toolCalls.list, events, output);
      SamePlaced(t, toolCalls.list);
      var counts := if usage.Some? then usage.value else NO_USAGE;
      events := events + [Completed(ResponseId(View()), model, output, counts), DoneMarker];
    }

    method Unnumbered(payload: Payload) returns (events: seq<Event>)
      requires Valid() && (!completed ==> Places(messageIndex, outputs, toolCalls.list))
      modifies this, toolCalls
      ensures Valid() && Out(View(), events) == TakePayload(old(View()), payload) && sequence == old(sequence) && received == old(received)
    {
      if completed {
        return [];
      }
      match payload {
        case Done =>
          events := WriteDone();
        case Error(message) =>
          completed := true;
          events := [Failure(ResponseId(View()), model, FirstNonEmpty(message, "upstream stream failed"))];
        case Malformed =>
          events := [];
        case Data(chunk) =>
          events := WriteChunk(chunk);
      }
    }

    /** The state after the payloads received, and the next sequence number. */
    ghost predicate Consistent()
      reads this, toolCalls
    {
      Valid() && View() == Translate(received).next && sequence == Count(Translate(received).events)
    }

    /** The events of one payload; they continue the numbered stream of the earlier ones. */
    method TranslatePayload(payload: Payload) returns (sent: seq<Sent>)
      requires Consistent()
      modifies this, toolCalls
      ensures Consistent() && received == old(received) + [payload]
      ensures Number(0, Translate(received).events) == Number(0, old(Translate(received).events)) + sent
    {
      hide Places, TakePayload, Translate, Number, Count;
      PlacesWhileOpen(received);
      TranslateLast(received, payload);
      ghost var before := Translate(received);
      var events := Unnumbered(payload);
      NumberAppend(0, before.events, events);
      received := received + [payload];
      sent := NumberEvents(events);
    }

    method NumberEvents(events: seq<Event>) returns (sent: seq<Sent>)
      modifies this`sequence
      ensures sequence == old(sequence) + Count(events) && sent == Number(old(sequence), events)
    {
      sent := [];
      for i := 0 to |events|
        invariant sequence == old(sequence) + Count(events[..i])
        invariant sent == Number(old(sequence), events[..i])
      {
        assert events[..i + 1][..i] == events[..i];
        if events[i].DoneMarker? {
          sent := sent + [Marker];
        } else {
          sent := sent + [Numbered(sequence, events[i])];
          sequence := sequence + 1;
        }
      }
      assert events[..|events|] == events;
    }
  }
}
