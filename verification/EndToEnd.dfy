/** An Anthropic stream that passes through chat chunks and back. */
module EndToEnd {
  import opened Options
  import opened ChatStream
  import opened AnthropicEvents
  import AnthropicStream
  import MessagesStream

  /** The events a Messages client receives for the events an Anthropic upstream sent. */
  function Passed(id: string, model: string, es: seq<Event>, readError: Option<string>): seq<Event> {
    MessagesStream.Translate(AnthropicStream.Convert(id, model, es, readError)).events
  }

  /**
     The client reads the answer the upstream sent: the same text and the same
     calls in the same order. It sees the end exactly when the upstream sent
     message_stop, then with the upstream's token counts.
   */
  lemma {:induction false} AnswerSurvives(id: string, model: string, es: seq<Event>, readError: Option<string>)
    requires WellFormed(es)
    ensures var a, o := Read(NEW_READER, es), Read(NEW_READER, Passed(id, model, es, readError));
            && o.order == a.order && o.tools == a.tools
            && o.ending == (if a.ending == Complete then Complete else Failed)
            && (o.ending == Complete ==> o.input == a.input && o.output == a.output)
  {
    AnthropicStream.ChunksSayTheSame(id, model, es, readError);
    MessagesStream.MessagesSayTheSame(AnthropicStream.Convert(id, model, es, readError));
  }

  /** The stop reason of a complete answer survives exactly in these cases. */
  lemma {:induction false} StopSurvivesWhen(id: string, model: string, es: seq<Event>, readError: Option<string>)
    requires WellFormed(es) && Read(NEW_READER, es).ending == Complete
    ensures var a, o := Read(NEW_READER, es), Read(NEW_READER, Passed(id, model, es, readError));
            o.stop == a.stop <==> a.stop == "max_tokens" || a.stop == "tool_use" || (a.stop == "end_turn" && a.tools == [])
  {
    AnthropicStream.ChunksSayTheSame(id, model, es, readError);
    MessagesStream.MessagesSayTheSame(AnthropicStream.Convert(id, model, es, readError));
    var a, c := Read(NEW_READER, es), ReadPayloads(AnthropicStream.Convert(id, model, es, readError));
    StopMaps(a.stop, c.finish, |a.tools| > 0);
    hide MessagesStream.StopOf, AnthropicStream.FinishOf;
    assert Read(NEW_READER, Passed(id, model, es, readError)).stop == MessagesStream.StopOf(c.finish, |a.tools| > 0);
  }

  lemma {:induction false} StopMaps(stop: string, finish: string, tools: bool)
    requires finish == AnthropicStream.FinishOf(stop) || (finish == "" && stop == "")
    ensures MessagesStream.StopOf(finish, tools) == stop <==> stop == "max_tokens" || stop == "tool_use" || (stop == "end_turn" && !tools)
  {
  }

  /** What a client is shown for each stop reason, with and without tool calls. */
  function Shown(stop: string, tools: bool): string {
    if stop in {"max_tokens", "model_context_window_exceeded"} then "max_tokens"
    else if stop == "tool_use" then "tool_use"
    else if stop == "refusal" || !tools then "end_turn"
    else "tool_use"
  }

  lemma {:induction false} StopShown(id: string, model: string, es: seq<Event>, readError: Option<string>)
    requires WellFormed(es) && Read(NEW_READER, es).ending == Complete
    ensures var a, o := Read(NEW_READER, es), Read(NEW_READER, Passed(id, model, es, readError));
            o.stop == Shown(a.stop, a.tools != [])
  {
    AnthropicStream.ChunksSayTheSame(id, model, es, readError);
    MessagesStream.MessagesSayTheSame(AnthropicStream.Convert(id, model, es, readError));
    var a, c := Read(NEW_READER, es), ReadPayloads(AnthropicStream.Convert(id, model, es, readError));
    ShownStop(a.stop, c.finish, |a.tools| > 0);
    hide MessagesStream.StopOf, AnthropicStream.FinishOf, Shown;
    assert Read(NEW_READER, Passed(id, model, es, readError)).stop == MessagesStream.StopOf(c.finish, |a.tools| > 0);
  }

  lemma {:induction false} ShownStop(stop: string, finish: string, tools: bool)
    requires finish == AnthropicStream.FinishOf(stop) || (finish == "" && stop == "")
    ensures MessagesStream.StopOf(finish, tools) == Shown(stop, tools)
  {
  }

  function Stopped(stop: string): seq<Event> {
    [MessageStart("msg_1", "model", NO_COUNTS), MessageDelta(stop, NO_COUNTS), MessageStop]
  }

  /** A complete stream without content. */
  lemma {:induction false} StoppedStops(stop: string)
    ensures var es := Stopped(stop);
            && WellFormed(es) && Check(NEW_CHECKER, es).phase == Ended
            && Read(NEW_READER, es).ending == Complete && Read(NEW_READER, es).stop == stop && Read(NEW_READER, es).tools == []
  {
    var start, delta := Stopped(stop)[0], Stopped(stop)[1];
    ReadAppend(NEW_READER, [start], [delta]);
    ReadAppend(NEW_READER, [start, delta], [MessageStop]);
    CheckAppend(NEW_CHECKER, [start], [delta]);
    CheckAppend(NEW_CHECKER, [start, delta], [MessageStop]);
    assert [start] + [delta] == [start, delta] && [start, delta] + [MessageStop] == Stopped(stop);
    assert forall i :: 0 <= i < 3 ==> !ToolStart(Stopped(stop)[i]) && !Stopped(stop)[i].ContentDelta?;
  }

  /** A stop sequence, for one, reaches the client as the end of a turn. */
  lemma {:induction false} StopSequenceIsLost(id: string, model: string)
    ensures var es := Stopped("stop_sequence");
            && WellFormed(es) && Check(NEW_CHECKER, es).phase == Ended
            && Read(NEW_READER, es).ending == Complete && Read(NEW_READER, es).stop == "stop_sequence"
            && Read(NEW_READER, Passed(id, model, es, None)).stop == "end_turn"
  {
    var es := Stopped("stop_sequence");
    StoppedStops("stop_sequence");
    hide Read, Check, WellFormed, Stopped, AnthropicStream.Convert, MessagesStream.Translate, ReadPayloads;
    AnthropicStream.ChunksSayTheSame(id, model, es, None);
    MessagesStream.MessagesSayTheSame(AnthropicStream.Convert(id, model, es, None));
  }

  /** The client sees the id and model the upstream gave the message. */
  lemma {:induction false} IdentitySurvives(id: string, model: string, es: seq<Event>, readError: Option<string>)
    requires es != [] && es[0].MessageStart? && es[0].id != "" && es[0].model != ""
    ensures var out := Passed(id, model, es, readError);
            out != [] && out[0].MessageStart? && out[0].id == es[0].id && out[0].model == es[0].model
  {
    AnthropicStream.FirstChunk(id, model, es);
    MessagesStream.FirstEvent(AnthropicStream.Convert(id, model, es, readError), 0);
  }

  /** Whatever the upstream sends, the client receives one complete, well-formed stream. */
  lemma {:induction false} OneEnding(id: string, model: string, es: seq<Event>, readError: Option<string>)
    ensures Check(NEW_CHECKER, Passed(id, model, es, readError)).phase == Ended
  {
    var ps := AnthropicStream.Convert(id, model, es, readError);
    assert Final(ps[|ps| - 1]);
    MessagesStream.MessagesAreWellFormed(ps);
  }
}
