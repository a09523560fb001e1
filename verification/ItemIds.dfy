module ItemIds {
  // The ids of the items of a Responses stream: exactly when all events about an
  // output, and the final output list, give its item the same one. An id is made
  // from the response id and from the id of the call, and either can change midway.

  import opened Options
  import opened Texts
  import opened ChatStream
  import opened ToolCalls
  import opened ResponsesStream

  /** The event gives the item at this output this id. */
  predicate Names(e: Event, index: int, id: string) {
    match e
    case ItemAdded(k, item) => k == index && item.id == id
    case PartAdded(itemId, k) => k == index && itemId == id
    case TextDelta(itemId, k, _) => k == index && itemId == id
    case ArgumentsDelta(itemId, k, _) => k == index && itemId == id
    case TextDone(itemId, k, _) => k == index && itemId == id
    case PartDone(itemId, k, _) => k == index && itemId == id
    case ArgumentsDone(itemId, k, _) => k == index && itemId == id
    case ItemDone(k, item) => k == index && item.id == id
    case Completed(_, _, output, _) => 0 <= index < |output| && output[index].Some? && output[index].value.id == id
    case _ => false
  }

  ghost predicate Named(es: seq<Event>, index: int, id: string) {
    exists i :: 0 <= i < |es| && Names(es[i], index, id)
  }

  /** All events about an output, and the final output list, give its item the same id. */
  ghost predicate OneIdEach(es: seq<Event>) {
    forall index, x, y :: Named(es, index, x) && Named(es, index, y) ==> x == y
  }

  // ---- When a call is renamed ----

  /**
     The delta brings the id of a call that was opened without one, and it is not
     the id that was made up for it.
   */
  predicate Renames(t: Responses, p: Piece)
    requires t.calls.Valid()
  {
    p.Tool? &&
    var a := Add(t.calls, p.delta, t.outputs);
    !a.isNew && t.calls.list[a.at].id == "" && p.delta.id != ""
    && p.delta.id != FirstNonEmpty(t.id, "stream") + "_" + Decimal(t.calls.list[a.at].position)
  }

  predicate SomeRenames(o: Out, ps: seq<Piece>)
    requires o.next.calls.Valid()
  {
    ps != [] && (SomeRenames(o, ps[..|ps| - 1]) || Renames(TakePieces(o, ps[..|ps| - 1]).next, ps[|ps| - 1]))
  }

  predicate PayloadRenames(t: Responses, p: Payload)
    requires t.calls.Valid()
  {
    p.Data? && !t.completed && SomeRenames(TakeHead(t, p.chunk), Pieces(p.chunk.choices))
  }

  /** Some delta renames its call before the stream ends. */
  predicate Renamed(ps: seq<Payload>) {
    ps != [] && (Renamed(ps[..|ps| - 1]) || PayloadRenames(Translate(ps[..|ps| - 1]).next, ps[|ps| - 1]))
  }

  ghost predicate IsCall(t: Responses, i: int, index: int, id: string) {
    0 <= i < |t.calls.list| && t.calls.list[i].position == index && CallItemId(t, t.calls.list[i]) == id
  }

  /** The message or the call at this output has this id. */
  ghost predicate Fits(t: Responses, index: int, id: string) {
    || (0 <= index == t.messageIndex && id == MessageItemId(t))
    || exists i :: IsCall(t, i, index, id)
  }

  ghost predicate AllFit(t: Responses, es: seq<Event>) {
    forall i, index, id :: 0 <= i < |es| && Names(es[i], index, id) ==> Fits(t, index, id)
  }

  /** The calls of `t` are still at their places, under their item ids. */
  ghost predicate KeepsCalls(t: Responses, t': Responses) {
    |t.calls.list| <= |t'.calls.list| &&
    forall i :: 0 <= i < |t.calls.list| ==>
      && t'.calls.list[i].position == t.calls.list[i].position
      && CallItemId(t', t'.calls.list[i]) == CallItemId(t, t.calls.list[i])
  }

  /** And so is the message. */
  ghost predicate Keeps(t: Responses, t': Responses) {
    t'.id == t.id && (t.messageIndex >= 0 ==> t'.messageIndex == t.messageIndex) && KeepsCalls(t, t')
  }

  lemma {:induction false} StillFits(t: Responses, t': Responses, index: int, id: string)
    requires Keeps(t, t') && Fits(t, index, id)
    ensures Fits(t', index, id)
  {
    if !(0 <= index == t.messageIndex && id == MessageItemId(t)) {
      var i :| IsCall(t, i, index, id);
      assert IsCall(t', i, index, id);
    }
  }

  lemma {:induction false} StillFit(t: Responses, t': Responses, es: seq<Event>)
    requires Keeps(t, t') && AllFit(t, es)
    ensures AllFit(t', es)
  {
    hide Fits, Names, Keeps;
    forall i, index, id | 0 <= i < |es| && Names(es[i], index, id) ensures Fits(t', index, id) {
      StillFits(t, t', index, id);
    }
  }

  lemma {:induction false} BothFit(t: Responses, a: seq<Event>, b: seq<Event>)
    requires AllFit(t, a) && AllFit(t, b)
    ensures AllFit(t, a + b)
  {
    hide Fits, Names;
  }

  lemma {:induction false} KeepsOn(t: Responses, t': Responses, t'': Responses)
    requires Keeps(t, t') && Keeps(t', t'')
    ensures Keeps(t, t'')
  {
  }

  // ---- Without renaming every event gives its item the id it has ----

  lemma {:induction false} WordsFit(t: Responses, text: string)
    ensures var o := TakeWords(t, text); Keeps(t, o.next) && AllFit(o.next, o.events)
  {
  }

  /** The guard is exact: the item id of a known call changes in no other case. */
  lemma {:induction false} RenamesChanges(t: Responses, d: ToolDelta)
    requires t.calls.Valid() && !Add(t.calls, d, t.outputs).isNew
    ensures var a := Add(t.calls, d, t.outputs);
            Renames(t, Tool(d)) <==> CallItemId(t, a.calls.list[a.at]) != CallItemId(t, t.calls.list[a.at])
  {
    var a := Add(t.calls, d, t.outputs);
    var was, made := t.calls.list[a.at], FirstNonEmpty(t.id, "stream") + "_" + Decimal(t.calls.list[a.at].position);
    assert a.calls.list[a.at] == Merged(was, d);
    hide FirstNonEmpty, Decimal;
    assert "fc_" + FirstNonEmpty(t.id, "stream") + "_" + Decimal(was.position) == "fc_" + made;
    SameTail("fc_", d.id, made);
  }

  lemma {:induction false} SameTail(a: string, b: string, c: string)
    ensures a + b == a + c <==> b == c
  {
    assert (a + b)[|a|..] == b && (a + c)[|a|..] == c;
  }

  lemma {:induction false} CallKeeps(t: Responses, d: ToolDelta)
    requires t.calls.Valid() && !Renames(t, Tool(d))
    ensures Keeps(t, TakeCall(t, d).next)
  {
    if !Add(t.calls, d, t.outputs).isNew {
      RenamesChanges(t, d);
    }
    hide Renames, FirstNonEmpty, Decimal;
  }

  lemma {:induction false} CallFits(t: Responses, d: ToolDelta)
    requires t.calls.Valid()
    ensures var o := TakeCall(t, d); AllFit(o.next, o.events)
  {
    var a := Add(t.calls, d, t.outputs);
    var call := a.calls.list[a.at];
    var t' := TakeCall(t, d).next;
    assert IsCall(t', a.at, call.position, CallItemId(t, call));
  }

  lemma {:induction false} NothingSaid(t: Responses)
    ensures AllFit(t, []) && Keeps(t, t)
  {
  }

  lemma {:induction false} PieceFits(t: Responses, p: Piece)
    requires t.calls.Valid() && !Renames(t, p)
    ensures var o := TakePiece(t, p); Keeps(t, o.next) && AllFit(o.next, o.events)
  {
    hide AllFit, Keeps;
    match p
    case Words(text) => WordsFit(t, text);
    case Tool(d) =>
      CallKeeps(t, d);
      CallFits(t, d);
    case Finish(_) => NothingSaid(t);
  }

  lemma {:induction false} PiecesFit(o: Out, ps: seq<Piece>)
    requires o.next.calls.Valid() && !SomeRenames(o, ps) && AllFit(o.next, o.events)
    ensures var o' := TakePieces(o, ps); Keeps(o.next, o'.next) && AllFit(o'.next, o'.events)
  {
    if ps == [] {
      NothingSaid(o.next);
    } else {
      hide AllFit, Keeps, Renames, TakePiece;
      var n := |ps| - 1;
      var before := TakePieces(o, ps[..n]);
      var o' := TakePiece(before.next, ps[n]);
      PiecesFit(o, ps[..n]);
      PieceFits(before.next, ps[n]);
      StillFit(before.next, o'.next, before.events);
      BothFit(o'.next, before.events, o'.events);
      KeepsOn(o.next, before.next, o'.next);
    }
  }

  // ---- Completion ----

  lemma {:induction false} MessageDoneFits(t: Responses)
    ensures AllFit(t, MessageDone(t))
  {
  }

  lemma {:induction false} CallDoneFits(t: Responses, i: nat)
    requires i < |t.calls.list|
    ensures AllFit(t, CallDone(t, t.calls.list[i]))
  {
    var call := t.calls.list[i];
    assert IsCall(t, i, call.position, CallItemId(t, call));
  }

  lemma {:induction false} CallsDoneFit(t: Responses, n: nat)
    requires n <= |t.calls.list|
    ensures AllFit(t, CallsDone(t, t.calls.list[..n]))
  {
    hide AllFit;
    if n == 0 {
      NothingSaid(t);
    } else {
      CallsDoneFit(t, n - 1);
      CallDoneFits(t, n - 1);
      assert t.calls.list[..n][..n - 1] == t.calls.list[..n - 1];
      BothFit(t, CallsDone(t, t.calls.list[..n - 1]), CallDone(t, t.calls.list[n - 1]));
    }
  }

  lemma {:induction false} OutputFits(t: Responses, completed: Event)
    requires Places(t.messageIndex, t.outputs, t.calls.list)
    requires completed.Completed? && completed.output == Placed(t, t.calls.list)
    ensures AllFit(t, [completed, DoneMarker])
  {
    var list := t.calls.list;
    assert list[..|list|] == list;
    PlacedAt(t, |list|);
    hide Placed;
    forall index, id | Names(completed, index, id) ensures Fits(t, index, id) {
      if index != t.messageIndex {
        assert Taken(list, index);
        var i :| 0 <= i < |list| && list[i].position == index;
        assert IsCall(t, i, index, id);
      }
    }
  }

  lemma {:induction false} DoneFits(t: Responses)
    requires Places(t.messageIndex, t.outputs, t.calls.list)
    ensures var o := TakeDone(t); Keeps(t, o.next) && AllFit(o.next, o.events)
  {
    var o, n := TakeDone(t), |t.calls.list|;
    var items := MessageDone(t) + CallsDone(t, t.calls.list);
    var end := [o.events[|items|], DoneMarker];
    assert Keeps(t, o.next);
    hide Placed, Places, Keeps, AllFit;
    MessageDoneFits(t);
    CallsDoneFit(t, n);
    assert t.calls.list[..n] == t.calls.list;
    BothFit(t, MessageDone(t), CallsDone(t, t.calls.list));
    OutputFits(t, end[0]);
    BothFit(t, items, end);
    assert items + end == o.events;
    StillFit(t, o.next, o.events);
  }

  // ---- Runs ----

  /** Every chunk carries the same response id. */
  ghost predicate OneId(ps: seq<Payload>, id: string) {
    forall i :: 0 <= i < |ps| && ps[i].Data? ==> ps[i].chunk.id == id
  }

  /** The id the translator knows once it started. */
  ghost predicate Identified(t: Responses, id: string) {
    t.id == if t.started && id != "" then ReplaceFirst(id, "chat_", "resp_") else ""
  }

  lemma {:induction false} HeadFits(t: Responses, chunk: Chunk)
    requires t.calls.Valid() && Identified(t, chunk.id) && Places(t.messageIndex, t.outputs, t.calls.list)
    requires !t.started ==> t.outputs == 0
    ensures var o := TakeHead(t, chunk);
            && Identified(o.next, chunk.id) && o.next.started && o.next.calls == t.calls && AllFit(o.next, o.events)
            && (t.started ==> Keeps(t, o.next)) && (!t.started ==> t.calls.list == [] && t.messageIndex < 0)
  {
    assert t.calls.list != [] ==> t.calls.list[0].position < t.outputs;
  }

  lemma {:induction false} PiecesKeepStart(o: Out, ps: seq<Piece>)
    requires o.next.calls.Valid()
    ensures TakePieces(o, ps).next.started == o.next.started
  {
    if ps != [] {
      PiecesKeepStart(o, ps[..|ps| - 1]);
    }
  }

  /** Before the first item no event names one. */
  lemma {:induction false} NothingNamed(t: Responses, t': Responses, es: seq<Event>)
    requires t.calls.list == [] && t.messageIndex < 0 && AllFit(t, es)
    ensures AllFit(t', es)
  {
    forall i, index, id | 0 <= i < |es| ensures !Names(es[i], index, id) {
      assert !Fits(t, index, id);
    }
  }

  lemma {:induction false} ItemsFit(t: Responses, chunk: Chunk)
    requires t.calls.Valid() && !t.completed && !PayloadRenames(t, Data(chunk))
    requires Identified(t, chunk.id) && Places(t.messageIndex, t.outputs, t.calls.list) && (!t.started ==> t.outputs == 0)
    ensures var o := TakePayload(t, Data(chunk));
            && AllFit(o.next, o.events)
            && (if t.started then Keeps(t, o.next) else t.calls.list == [] && t.messageIndex < 0)
  {
    var head, pieces := TakeHead(t, chunk), Pieces(chunk.choices);
    HeadFits(t, chunk);
    hide AllFit, Keeps, Places, TakeHead, TakePieces, Pieces, SomeRenames;
    assert TakePieces(head, pieces) == TakePayload(t, Data(chunk));
    hide TakePayload;
    PiecesFit(head, pieces);
    if t.started {
      KeepsOn(t, head.next, TakePieces(head, pieces).next);
    }
  }

  lemma {:induction false} DataFits(t: Responses, chunk: Chunk, es: seq<Event>)
    requires t.calls.Valid() && !t.completed && !PayloadRenames(t, Data(chunk)) && AllFit(t, es)
    requires Identified(t, chunk.id) && Places(t.messageIndex, t.outputs, t.calls.list) && (!t.started ==> t.outputs == 0)
    ensures var o := TakePayload(t, Data(chunk)); AllFit(o.next, es + o.events)
  {
    var o := TakePayload(t, Data(chunk));
    ItemsFit(t, chunk);
    hide AllFit, Keeps, Places, TakePayload;
    if t.started {
      StillFit(t, o.next, es);
    } else {
      NothingNamed(t, o.next, es);
    }
    BothFit(o.next, es, o.events);
  }

  lemma {:induction false} PayloadFits(t: Responses, p: Payload, id: string, es: seq<Event>)
    requires t.calls.Valid() && !PayloadRenames(t, p) && AllFit(t, es) && Identified(t, id) && (p.Data? ==> p.chunk.id == id)
    requires !t.completed ==> Places(t.messageIndex, t.outputs, t.calls.list) && (!t.started ==> t.outputs == 0)
    ensures var o := TakePayload(t, p); AllFit(o.next, es + o.events)
  {
    hide AllFit, Keeps, Places, PayloadRenames;
    var o := TakePayload(t, p);
    if t.completed || p.Malformed? {
      assert es + [] == es;
    } else {
      match p
      case Done =>
        DoneFits(t);
        StillFit(t, o.next, es);
        BothFit(o.next, es, o.events);
      case Error(_) =>
        FailureFits(t, o);
        StillFit(t, o.next, es);
        BothFit(o.next, es, o.events);
      case Data(chunk) => DataFits(t, chunk, es);
    }
  }

  lemma {:induction false} FailureFits(t: Responses, o: Out)
    requires o.next == t.(completed := true) && |o.events| == 1 && o.events[0].Failure?
    ensures Keeps(t, o.next) && AllFit(o.next, o.events)
  {
  }

  lemma {:induction false} PiecesKeepId(o: Out, ps: seq<Piece>)
    requires o.next.calls.Valid()
    ensures TakePieces(o, ps).next.id == o.next.id
  {
    if ps != [] {
      PiecesKeepId(o, ps[..|ps| - 1]);
    }
  }

  lemma {:induction false} PayloadIdentified(t: Responses, p: Payload, id: string)
    requires t.calls.Valid() && Identified(t, id) && (p.Data? ==> p.chunk.id == id)
    ensures Identified(TakePayload(t, p).next, id)
  {
    if p.Data? && !t.completed {
      PiecesKeepStart(TakeHead(t, p.chunk), Pieces(p.chunk.choices));
      PiecesKeepId(TakeHead(t, p.chunk), Pieces(p.chunk.choices));
    }
  }

  lemma {:induction false} TranslationIdentified(ps: seq<Payload>, id: string)
    requires OneId(ps, id)
    ensures Identified(Translate(ps).next, id)
  {
    if ps != [] {
      hide TakePayload, Identified;
      TranslationIdentified(ps[..|ps| - 1], id);
      PayloadIdentified(Translate(ps[..|ps| - 1]).next, ps[|ps| - 1], id);
    } else {
      assert Identified(NEW_RESPONSES, id);
    }
  }

  lemma {:induction false} TranslationFits(ps: seq<Payload>, id: string)
    requires OneId(ps, id) && !Renamed(ps)
    ensures AllFit(Translate(ps).next, Translate(ps).events)
  {
    hide AllFit, Holds, Places, PayloadRenames, Identified;
    if ps == [] {
      NothingSaid(NEW_RESPONSES);
    } else {
      var n := |ps| - 1;
      TranslationIdentified(ps[..n], id);
      TranslationFits(ps[..n], id);
      TranslationFollows(ps[..n]);
      PayloadFits(Translate(ps[..n]).next, ps[n], id, Translate(ps[..n]).events);
    }
  }

  /** The places stay shared out after the end of the stream. */
  lemma {:induction false} PlacesAlways(ps: seq<Payload>)
    ensures var t := Translate(ps).next; Places(t.messageIndex, t.outputs, t.calls.list)
  {
    var t := Translate(ps).next;
    hide Places, Holds;
    TranslationFollows(ps);
    if t.completed {
      var n := |ps| - 1;
      PlacesAlways(ps[..n]);
      if ps[n].Data? && !Translate(ps[..n]).next.completed {
        PiecesKeepOpen(TakeHead(Translate(ps[..n]).next, ps[n].chunk), Pieces(ps[n].chunk.choices));
      }
    }
  }

  lemma {:induction false} FitsOnce(t: Responses, index: int, x: string, y: string)
    requires Places(t.messageIndex, t.outputs, t.calls.list) && Fits(t, index, x) && Fits(t, index, y)
    ensures x == y
  {
    if index != t.messageIndex {
      var i :| IsCall(t, i, index, x);
      var j :| IsCall(t, j, index, y);
      assert i == j;
    }
  }

  // ---- A renamed call is shown under two ids ----

  lemma {:induction false} NamedAt(es: seq<Event>, i: nat, index: int, id: string)
    requires i < |es| && Names(es[i], index, id)
    ensures Named(es, index, id)
  {
  }

  lemma {:induction false} StillNamed(a: seq<Event>, b: seq<Event>, index: int, id: string)
    requires Named(a, index, id) || Named(b, index, id)
    ensures Named(a + b, index, id)
  {
    hide Names;
    if Named(a, index, id) {
      var i :| 0 <= i < |a| && Names(a[i], index, id);
      assert Names((a + b)[i], index, id);
    } else {
      var i :| 0 <= i < |b| && Names(b[i], index, id);
      assert Names((a + b)[|a| + i], index, id);
    }
  }

  /** Every call was named under the item id it has. */
  ghost predicate AllShown(t: Responses, es: seq<Event>) {
    forall i :: 0 <= i < |t.calls.list| ==> Shown(t, t.calls.list[i], es)
  }

  ghost predicate Shown(t: Responses, call: Collected, es: seq<Event>) {
    Named(es, call.position, CallItemId(t, call))
  }

  /** This call was named under another item id than the one it has for good. */
  ghost predicate Misnamed(call: Collected, es: seq<Event>) {
    call.id != "" && exists x :: Named(es, call.position, x) && x != "fc_" + call.id
  }

  ghost predicate SomeMisnamed(t: Responses, es: seq<Event>) {
    exists i :: 0 <= i < |t.calls.list| && Misnamed(t.calls.list[i], es)
  }

  /** What the events so far show of the calls, `renamed` or not. */
  ghost predicate Shows(t: Responses, es: seq<Event>, renamed: bool) {
    if renamed then SomeMisnamed(t, es) else AllShown(t, es)
  }

  /** Calls that have an id keep it and their place. */
  ghost predicate KeepsIds(t: Responses, t': Responses) {
    |t.calls.list| <= |t'.calls.list| &&
    forall i :: 0 <= i < |t.calls.list| ==>
      && t'.calls.list[i].position == t.calls.list[i].position
      && (t.calls.list[i].id != "" ==> t'.calls.list[i].id == t.calls.list[i].id)
  }

  lemma {:induction false} StillMisnamed(t: Responses, t': Responses, es: seq<Event>, more: seq<Event>)
    requires SomeMisnamed(t, es) && KeepsIds(t, t')
    ensures SomeMisnamed(t', es + more)
  {
    hide Named;
    var i :| 0 <= i < |t.calls.list| && Misnamed(t.calls.list[i], es);
    var x :| Named(es, t.calls.list[i].position, x) && x != "fc_" + t.calls.list[i].id;
    StillNamed(es, more, t.calls.list[i].position, x);
    assert Misnamed(t'.calls.list[i], es + more);
  }

  lemma {:induction false} StillAllShown(t: Responses, t': Responses, es: seq<Event>, more: seq<Event>)
    requires AllShown(t, es) && KeepsCalls(t, t')
    ensures forall i :: 0 <= i < |t.calls.list| ==> Shown(t', t'.calls.list[i], es + more)
  {
    hide Named, CallItemId;
    forall i | 0 <= i < |t.calls.list| ensures Shown(t', t'.calls.list[i], es + more) {
      assert Shown(t, t.calls.list[i], es);
      StillNamed(es, more, t.calls.list[i].position, CallItemId(t, t.calls.list[i]));
    }
  }

  lemma {:induction false} CallKeepsIds(t: Responses, d: ToolDelta)
    requires t.calls.Valid()
    ensures KeepsIds(t, TakeCall(t, d).next)
  {
  }

  lemma {:induction false} NewCallShown(t: Responses, d: ToolDelta, es: seq<Event>)
    requires t.calls.Valid() && AllShown(t, es) && Add(t.calls, d, t.outputs).isNew
    ensures var o := TakeCall(t, d); AllShown(o.next, es + o.events)
  {
    var o := TakeCall(t, d);
    NewCall(t, d);
    var call := o.next.calls.list[|t.calls.list|];
    assert Names(o.events[0], call.position, CallItemId(o.next, call));
    StillNamed(es, o.events, call.position, CallItemId(o.next, call));
    assert KeepsCalls(t, o.next);
    hide TakeCall, Add, CallItemId, Named, KeepsCalls;
    StillAllShown(t, o.next, es, o.events);
  }

  /** The id a call was opened under stays among the events when its delta brings another. */
  lemma {:induction false} RenamedCallShown(t: Responses, d: ToolDelta, es: seq<Event>)
    requires t.calls.Valid() && AllShown(t, es) && Renames(t, Tool(d))
    ensures var o := TakeCall(t, d); SomeMisnamed(o.next, es + o.events)
  {
    var o, a := TakeCall(t, d), Add(t.calls, d, t.outputs);
    var was, call := t.calls.list[a.at], a.calls.list[a.at];
    assert call == Merged(was, d) && o.next.calls == a.calls;
    RenamesChanges(t, d);
    assert Shown(t, was, es);
    StillNamed(es, o.events, was.position, CallItemId(t, was));
    assert CallItemId(t, call) == "fc_" + call.id;
    hide Named, CallItemId, TakeCall, Add, Renames;
    assert Misnamed(call, es + o.events);
  }

  lemma {:induction false} CallShown(t: Responses, d: ToolDelta, es: seq<Event>, renamed: bool)
    requires t.calls.Valid() && Shows(t, es, renamed)
    ensures var o := TakeCall(t, d); Shows(o.next, es + o.events, renamed || Renames(t, Tool(d)))
  {
    var o := TakeCall(t, d);
    hide SomeMisnamed, Shown, KeepsCalls;
    if renamed {
      CallKeepsIds(t, d);
      StillMisnamed(t, o.next, es, o.events);
    } else if Renames(t, Tool(d)) {
      RenamedCallShown(t, d, es);
    } else if Add(t.calls, d, t.outputs).isNew {
      NewCallShown(t, d, es);
    } else {
      CallKeeps(t, d);
      StillAllShown(t, o.next, es, o.events);
    }
  }

  /** A step that leaves the calls and the response id alone. */
  lemma {:induction false} SameCallsShown(t: Responses, t': Responses, es: seq<Event>, more: seq<Event>, renamed: bool)
    requires Shows(t, es, renamed) && t'.calls == t.calls && (t'.id == t.id || t.calls.list == [])
    ensures Shows(t', es + more, renamed)
  {
    hide Named, CallItemId, SomeMisnamed, KeepsCalls;
    if renamed {
      StillMisnamed(t, t', es, more);
    } else if t.calls.list == [] {
      NoCallsShown(t', es + more);
    } else {
      SameCallsKept(t, t');
      StillAllShown(t, t', es, more);
    }
  }

  lemma {:induction false} NoCallsShown(t: Responses, es: seq<Event>)
    requires t.calls.list == []
    ensures AllShown(t, es)
  {
  }

  lemma {:induction false} SameCallsKept(t: Responses, t': Responses)
    requires t'.calls == t.calls && t'.id == t.id
    ensures KeepsCalls(t, t')
  {
  }

  lemma {:induction false} PieceShown(t: Responses, p: Piece, es: seq<Event>, renamed: bool)
    requires t.calls.Valid() && Shows(t, es, renamed)
    ensures var o := TakePiece(t, p); Shows(o.next, es + o.events, renamed || Renames(t, p))
  {
    hide Shows;
    var o := TakePiece(t, p);
    if p.Tool? {
      CallShown(t, p.delta, es, renamed);
    } else {
      SameCallsShown(t, o.next, es, o.events, renamed);
    }
  }

  lemma {:induction false} PiecesShown(o: Out, ps: seq<Piece>, es: seq<Event>, renamed: bool)
    requires o.next.calls.Valid() && Shows(o.next, es + o.events, renamed)
    ensures var o' := TakePieces(o, ps); Shows(o'.next, es + o'.events, renamed || SomeRenames(o, ps))
  {
    if ps != [] {
      hide Shows, Renames, TakePiece;
      var before, last := TakePieces(o, ps[..|ps| - 1]), ps[|ps| - 1];
      PiecesShown(o, ps[..|ps| - 1], es, renamed);
      PieceShown(before.next, last, es + before.events, renamed || SomeRenames(o, ps[..|ps| - 1]));
      assert es + before.events + TakePiece(before.next, last).events == es + (before.events + TakePiece(before.next, last).events);
    }
  }

  lemma {:induction false} PayloadShown(t: Responses, p: Payload, id: string, es: seq<Event>, renamed: bool)
    requires t.calls.Valid() && !t.completed && Shows(t, es, renamed) && Identified(t, id) && (p.Data? ==> p.chunk.id == id)
    requires Places(t.messageIndex, t.outputs, t.calls.list) && (!t.started ==> t.outputs == 0)
    ensures var o := TakePayload(t, p); Shows(o.next, es + o.events, renamed || PayloadRenames(t, p))
  {
    if p.Data? {
      var head := TakeHead(t, p.chunk);
      HeadFits(t, p.chunk);
      hide Shows, Places, Keeps, AllFit, TakeHead, TakePieces, SomeRenames;
      if t.started {
        HeadKeepsId(t, p.chunk);
      }
      SameCallsShown(t, head.next, es, head.events, renamed);
      PiecesShown(head, Pieces(p.chunk.choices), es, renamed);
    } else {
      hide Shows;
      SameCallsShown(t, TakePayload(t, p).next, es, TakePayload(t, p).events, renamed);
    }
  }

  lemma {:induction false} HeadKeepsId(t: Responses, chunk: Chunk)
    requires Identified(t, chunk.id) && t.started
    ensures TakeHead(t, chunk).next.id == t.id
  {
  }

  lemma {:induction false} TranslationShows(ps: seq<Payload>, id: string)
    requires OneId(ps, id) && !Translate(ps).next.completed
    ensures Shows(Translate(ps).next, Translate(ps).events, Renamed(ps))
  {
    if ps == [] {
      NoCallsShown(NEW_RESPONSES, []);
    } else {
      var n := |ps| - 1;
      CompletedNow(Translate(ps[..n]).next, ps[n]);
      hide Shows, Places, Holds, PayloadRenames, TakePayload, Identified;
      TranslationIdentified(ps[..n], id);
      TranslationShows(ps[..n], id);
      TranslationFollows(ps[..n]);
      PayloadShown(Translate(ps[..n]).next, ps[n], id, Translate(ps[..n]).events, Renamed(ps[..n]));
    }
  }

  /** The final output list shows every call under the id it has. */
  lemma {:induction false} DoneShows(t: Responses, es: seq<Event>)
    requires Places(t.messageIndex, t.outputs, t.calls.list) && SomeMisnamed(t, es)
    ensures !OneIdEach(es + TakeDone(t).events)
  {
    var list, more := t.calls.list, TakeDone(t).events;
    var i :| 0 <= i < |list| && Misnamed(list[i], es);
    var x :| Named(es, list[i].position, x) && x != "fc_" + list[i].id;
    var k, y := list[i].position, CallItemId(t, list[i]);
    assert list[..|list|] == list;
    PlacedAt(t, |list|);
    hide Places, Placed, MessageDone, CallsDone, Named;
    var completed := |more| - 2;
    assert more[completed].Completed? && more[completed].output == Placed(t, list);
    assert Names(more[completed], k, y);
    NamedAt(more, completed, k, y);
    StillNamed(es, more, k, x);
    StillNamed(es, more, k, y);
  }

  lemma {:induction false} RenamedDiffers(ps: seq<Payload>, id: string)
    requires OneId(ps, id) && ReadPayloads(ps).ending == Complete && Renamed(ps)
    ensures !OneIdEach(Translate(ps).events)
  {
    var n := |ps| - 1;
    var before := Translate(ps[..n]);
    CompletedAlike(ps[..n]);
    hide OneIdEach;
    if ReadPayloads(ps[..n]).ending == Complete {
      RenamedDiffers(ps[..n], id);
      assert before.events + [] == before.events;
    } else {
      PiecesEnding(ReadPayloads(ps[..n]), ps[n]);
      TranslationShows(ps[..n], id);
      TranslationFollows(ps[..n]);
      hide Places, SomeMisnamed, TakeDone, ReadPayloads;
      DoneShows(before.next, before.events);
    }
  }

  lemma {:induction false} NotRenamedAgrees(ps: seq<Payload>, id: string)
    requires OneId(ps, id) && !Renamed(ps)
    ensures OneIdEach(Translate(ps).events)
  {
    var es, t := Translate(ps).events, Translate(ps).next;
    TranslationFits(ps, id);
    PlacesAlways(ps);
    hide Translate, Places, Fits, Names, Renamed;
    forall index, x, y | Named(es, index, x) && Named(es, index, y) ensures x == y {
      FitsOnce(t, index, x, y);
    }
  }

  /**
     When all chunks carry one response id, the events of a complete stream about
     an output, and its final output list, give the item one id, for every output,
     exactly when no delta renamed its call. Unless one did, that holds of every
     stream, however it ended.
   */
  lemma {:induction false} ItemIdsAgree(ps: seq<Payload>, id: string)
    requires OneId(ps, id)
    ensures ReadPayloads(ps).ending == Complete ==> (OneIdEach(Translate(ps).events) <==> !Renamed(ps))
    ensures !Renamed(ps) ==> OneIdEach(Translate(ps).events)
  {
    if Renamed(ps) {
      if ReadPayloads(ps).ending == Complete {
        RenamedDiffers(ps, id);
      }
    } else {
      NotRenamedAgrees(ps, id);
    }
  }

  // ---- Streams in which no id arrives late ----

  lemma {:induction false} PieceSettled(t: Responses, c: Client, p: Piece)
    requires t.calls.Valid() && c.Valid() && Knows(t, c) && ReadPiece(c, p).settled
    ensures !Renames(t, p)
  {
    if p.Tool? {
      AddAgrees(t.calls, c, p.delta, t.outputs);
      hide LateIds, Decimal, FirstNonEmpty;
    }
  }

  lemma {:induction false} PiecesSettled(o: Out, c: Client, ps: seq<Piece>)
    requires o.next.calls.Valid() && c.Valid() && Knows(o.next, c) && ReadPieces(c, ps).settled
    ensures !SomeRenames(o, ps)
  {
    if ps != [] {
      hide Knows, Renames;
      var n := |ps| - 1;
      SettledBefore(ReadPieces(c, ps[..n]), [ps[n]]);
      PiecesSettled(o, c, ps[..n]);
      PiecesKnown(o, c, ps[..n]);
      PieceSettled(TakePieces(o, ps[..n]).next, ReadPieces(c, ps[..n]), ps[n]);
    }
  }

  /** A call is renamed only when it gets its id after it was opened. */
  lemma {:induction false} SettledIsNotRenamed(ps: seq<Payload>)
    requires ReadPayloads(ps).settled
    ensures !Renamed(ps)
  {
    if ps != [] {
      hide Knows, SomeRenames;
      var n := |ps| - 1;
      var t, c := Translate(ps[..n]).next, ReadPayloads(ps[..n]);
      SettledUntil(c, ps[n]);
      SettledIsNotRenamed(ps[..n]);
      TranslationKnows(ps[..n]);
      if ps[n].Data? && !t.completed {
        var chunk := ps[n].chunk;
        HeadKnown(t, c, chunk);
        PiecesSettled(TakeHead(t, chunk), if chunk.usage.Some? then c.(usage := chunk.usage.value) else c, Pieces(chunk.choices));
      }
    }
  }

  // ---- Inputs at which an item has two ids ----

  /** Two events of the first two payloads name an item differently. */
  lemma {:induction false} TwoNames(first: Payload, second: Payload, i: nat, j: nat, index: int, x: string, y: string)
    requires var start := TakePayload(NEW_RESPONSES, first);
             var later := TakePayload(start.next, second);
             i < |start.events| && j < |later.events| && Names(start.events[i], index, x) && Names(later.events[j], index, y) && x != y
    ensures !OneIdEach(Translate([first, second, Done]).events)
  {
    hide Translate, TakePayload, Names;
    var start := TakePayload(NEW_RESPONSES, first);
    var es := Translate([first, second, Done]).events;
    TwoPayloads(first, second);
    assert es[i] == start.events[i] && es[|start.events| + j] == TakePayload(start.next, second).events[j];
    NamedAt(es, i, index, x);
    NamedAt(es, |start.events| + j, index, y);
  }

  /** A call whose id comes with its arguments changes its item id when it arrives. */
  lemma {:induction false} LateIdRenames()
    ensures !OneIdEach(Translate(NamedLate()).events)
  {
    var first, second := Data(CallChunk(NO_ID)), Data(CallChunk(ITS_ID));
    hide Names, TakePayload, CallChunk, OneIdEach, Translate;
    TwoCalls();
    var start := TakePayload(NEW_RESPONSES, first);
    var later := TakePayload(start.next, second);
    TwoNames(first, second, 1, 0, 0, start.events[1].item.id, later.events[0].itemId);
  }

  /** A chunk with nothing but text. */
  function TextChunk(id: string, text: string): Chunk {
    Chunk(id, "", [ChunkChoice(0, Delta("", text, "", []), "")], None)
  }

  function TwoResponses(): seq<Payload> {
    [Data(TextChunk("a", "one")), Data(TextChunk("b", "two")), Done]
  }

  /** A message whose chunks carry two response ids has two item ids. */
  lemma {:induction false} ResponseIdRenames()
    ensures !OneIdEach(Translate(TwoResponses()).events)
  {
    var first, second := Data(TextChunk("a", "one")), Data(TextChunk("b", "two"));
    var start := TakePayload(NEW_RESPONSES, first);
    TwoTexts();
    hide TakePayload, TextChunk, Names, OneIdEach, Translate;
    TwoNames(first, second, 1, 0, 0, "msg_a", "msg_b");
  }

  lemma {:induction false} TwoTexts()
    ensures var start := TakePayload(NEW_RESPONSES, Data(TextChunk("a", "one")));
            var later := TakePayload(start.next, Data(TextChunk("b", "two")));
            |start.events| > 1 && |later.events| > 0 && Names(start.events[1], 0, "msg_a") && Names(later.events[0], 0, "msg_b")
  {
    var start := TakePayload(NEW_RESPONSES, Data(TextChunk("a", "one")));
    OneText(NEW_RESPONSES, "a", "one");
    OneText(start.next, "b", "two");
    ShortId('a');
    ShortId('b');
    hide TakePayload, FirstNonEmpty, ReplaceFirst;
    assert "msg_" + "a" == "msg_a" && "msg_" + "b" == "msg_b";
  }

  lemma {:induction false} ShortId(c: char)
    requires !IsSpace(c)
    ensures FirstNonEmpty(ReplaceFirst([c], "chat_", "resp_"), "stream") == [c]
  {
    assert !("chat_" <= [c]) && !("chat_" <= "");
    assert ReplaceFirst([c][1..], "chat_", "resp_") == "";
    assert Trim([c]) == [c];
  }

  lemma {:induction false} OneText(t: Responses, id: string, text: string)
    requires t.calls.Valid() && !t.completed && text != ""
    ensures var head := TakeHead(t, TextChunk(id, text));
            var o := TakeWords(head.next, text);
            TakePayload(t, Data(TextChunk(id, text))) == Out(o.next, head.events + o.events)
  {
    var choices := TextChunk(id, text).choices;
    assert Pieces(choices[..0]) == [];
    assert Pieces(choices) == [Words(text)];
    PieceLast(TakeHead(t, TextChunk(id, text)), [], Words(text));
    assert [] + [Words(text)] == [Words(text)];
  }

  lemma {:induction false} TranslateNothing()
    ensures Translate([]) == Out(NEW_RESPONSES, [])
  {
  }

  lemma {:induction false} TwoPayloads(first: Payload, second: Payload)
    ensures var start := TakePayload(NEW_RESPONSES, first);
            start.events + TakePayload(start.next, second).events <= Translate([first, second, Done]).events
  {
    TranslateNothing();
    hide TakePayload, Translate;
    TranslateLast([], first);
    TranslateLast([first], second);
    TranslateLast([first, second], Done);
    assert [] + [first] == [first] && [first] + [second] == [first, second] && [first, second] + [Done] == [first, second, Done];
  }

  lemma {:induction false} TwoCalls()
    ensures var start := TakePayload(NEW_RESPONSES, Data(CallChunk(NO_ID)));
            var later := TakePayload(start.next, Data(CallChunk(ITS_ID)));
            && |start.events| == 2 && start.events[1].ItemAdded? && start.events[1].index == 0
            && |later.events| == 1 && later.events[0].ArgumentsDelta? && later.events[0].index == 0
            && Names(start.events[1], 0, start.events[1].item.id) && Names(later.events[0], 0, later.events[0].itemId)
            && start.events[1].item.id != later.events[0].itemId
  {
    var start := TakePayload(NEW_RESPONSES, Data(CallChunk(NO_ID)));
    OneCall(NEW_RESPONSES, NO_ID);
    OneCall(start.next, ITS_ID);
    hide TakePayload, Trim, Decimal, ReplaceFirst;
    var call := Collected("", "lookup", "", 0);
    assert start.next.calls.list == [call];
    assert |Decimal(0)| > 0;
    assert |CallItemId(start.next, call)| > 4;
  }

  lemma {:induction false} OneCall(t: Responses, d: ToolDelta)
    requires t.calls.Valid() && !t.completed
    ensures var head := TakeHead(t, CallChunk(d));
            var o := TakeCall(head.next, d);
            TakePayload(t, Data(CallChunk(d))) == Out(o.next, head.events + o.events)
  {
    var choices := CallChunk(d).choices;
    assert Pieces(choices[..0]) == [];
    assert Pieces(choices) == [Tool(d)];
    PieceLast(TakeHead(t, CallChunk(d)), [], Tool(d));
    assert [] + [Tool(d)] == [Tool(d)];
  }
}
