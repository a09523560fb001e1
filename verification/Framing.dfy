/** The response writer that cuts a byte stream into events and translates them. */
module Framing {
  import opened Options
  import opened Folds
  import opened Texts

  newtype Byte = x: int | 0 <= x < 256
  type Bytes = seq<Byte>

  const NEWLINE: Byte := 10
  const BREAK: Bytes := [10, 10]
  const DATA: Bytes := [100, 97, 116, 97, 58]   // "data:"

  predicate BreakAt(s: Bytes, i: int) {
    0 <= i <= |s| - 2 && s[i] == NEWLINE && s[i + 1] == NEWLINE
  }

  ghost predicate Unbroken(s: Bytes) {
    forall i :: !BreakAt(s, i)
  }

  /** Where the first blank line starts at or after `from`. */
  method FindBreak(s: Bytes) returns (at: Option<nat>)
    ensures at.None? ==> Unbroken(s)
    ensures at.Some? ==> BreakAt(s, at.value) && forall i :: 0 <= i < at.value ==> !BreakAt(s, i)
  {
    var i := 0;
    while i + 2 <= |s|
      invariant forall k :: 0 <= k < i ==> !BreakAt(s, k)
    {
      if s[i] == NEWLINE && s[i + 1] == NEWLINE {
        return Some(i);
      }
      i := i + 1;
    }
    return None;
  }

  ghost function FirstBreak(s: Bytes, from: nat): (at: Option<nat>)
    requires from <= |s|
    ensures at.None? ==> forall i :: from <= i ==> !BreakAt(s, i)
    ensures at.Some? ==> from <= at.value && BreakAt(s, at.value) && forall i :: from <= i < at.value ==> !BreakAt(s, i)
    decreases |s| - from
  {
    if BreakAt(s, from) then Some(from) else if from == |s| then None else FirstBreak(s, from + 1)
  }

  /** The complete events of a byte stream, in order, and the bytes after the last of them. */
  datatype Framed = Framed(frames: seq<Bytes>, rest: Bytes)

  ghost function Frames(s: Bytes): Framed
    decreases |s|
  {
    var at := FirstBreak(s, 0);
    if at.None? then Framed([], s)
    else
      var later := Frames(s[at.value + 2..]);
      Framed([s[..at.value]] + later.frames, later.rest)
  }

  ghost function Rejoined(f: Framed): Bytes
    decreases |f.frames|
  {
    if f.frames == [] then f.rest
    else f.frames[0] + BREAK + Rejoined(Framed(f.frames[1..], f.rest))
  }

  /** `f` cuts `s` at blank lines, each as early as possible. */
  ghost predicate Cuts(f: Framed, s: Bytes) {
    && Rejoined(f) == s
    && Unbroken(f.rest)
    && forall i :: 0 <= i < |f.frames| ==> Unbroken(f.frames[i] + [NEWLINE])
  }

  lemma {:induction false} FirstCut(s: Bytes, frame: Bytes, rest: Bytes)
    requires s == frame + BREAK + rest && Unbroken(frame + [NEWLINE])
    ensures FirstBreak(s, 0) == Some(|frame|) && s[|frame| + 2..] == rest
  {
    assert BreakAt(s, |frame|);
    forall i | 0 <= i < |frame| ensures !BreakAt(s, i) {
      assert s[i] == (frame + [NEWLINE])[i] && s[i + 1] == (frame + [NEWLINE])[i + 1];
      assert !BreakAt(frame + [NEWLINE], i);
    }
  }

  lemma {:induction false} FramesCons(frame: Bytes, rest: Bytes)
    requires Unbroken(frame + [NEWLINE])
    ensures Frames(frame + BREAK + rest) == Framed([frame] + Frames(rest).frames, Frames(rest).rest)
  {
    var s := frame + BREAK + rest;
    FirstCut(s, frame, rest);
    assert s[..|frame|] == frame;
  }

  /** Where the first blank line cuts. */
  lemma {:induction false} FirstFrame(s: Bytes, at: nat)
    requires BreakAt(s, at) && forall i :: 0 <= i < at ==> !BreakAt(s, i)
    ensures s == s[..at] + BREAK + s[at + 2..] && Unbroken(s[..at] + [NEWLINE])
    ensures Frames(s) == Framed([s[..at]] + Frames(s[at + 2..]).frames, Frames(s[at + 2..]).rest)
  {
    assert s == s[..at] + BREAK + s[at + 2..];
    forall i ensures !BreakAt(s[..at] + [NEWLINE], i) {
      assert 0 <= i < at ==> !BreakAt(s, i);
    }
    FramesCons(s[..at], s[at + 2..]);
  }

  lemma {:induction false} CutsCons(frame: Bytes, tail: Framed, rest: Bytes)
    requires Cuts(tail, rest) && Unbroken(frame + [NEWLINE])
    ensures Cuts(Framed([frame] + tail.frames, tail.rest), frame + BREAK + rest)
  {
    assert ([frame] + tail.frames)[1..] == tail.frames;
  }

  lemma {:induction false} FramesCuts(s: Bytes)
    ensures Cuts(Frames(s), s)
    decreases |s|
  {
    var at := FirstBreak(s, 0);
    if at.Some? {
      FirstFrame(s, at.value);
      FramesCuts(s[at.value + 2..]);
      CutsCons(s[..at.value], Frames(s[at.value + 2..]), s[at.value + 2..]);
    }
  }

  lemma {:induction false} OnlyCut(s: Bytes, f: Framed)
    requires Cuts(f, s)
    ensures f == Frames(s)
    decreases |f.frames|
  {
    if f.frames != [] {
      var tail := Framed(f.frames[1..], f.rest);
      var rest := Rejoined(tail);
      OnlyCut(rest, tail);
      FramesCons(f.frames[0], rest);
      assert f.frames == [f.frames[0]] + tail.frames;
    }
  }

  /** There is exactly one such cut, and it is the one the writer makes. */
  lemma {:induction false} FramesIsTheCut(s: Bytes, f: Framed)
    ensures Cuts(f, s) <==> f == Frames(s)
  {
    FramesCuts(s);
    if Cuts(f, s) {
      OnlyCut(s, f);
    }
  }

  /** The events of `first`, then those of `later`. */
  function Joined(first: Framed, later: Framed): Framed {
    Framed(first.frames + later.frames, later.rest)
  }

  lemma {:induction false} JoinedCons(frame: Bytes, first: Framed, later: Framed)
    ensures Joined(Framed([frame] + first.frames, first.rest), later)
         == Framed([frame] + Joined(first, later).frames, Joined(first, later).rest)
  {
  }

  lemma {:induction false} JoinedBytes(frame: Bytes, rest: Bytes, b: Bytes)
    ensures frame + BREAK + rest + b == frame + BREAK + (rest + b)
  {
  }

  /** Bytes that arrive later do not change the events already complete. */
  lemma {:induction false} FramesAppend(a: Bytes, b: Bytes)
    ensures Frames(a + b) == Joined(Frames(a), Frames(Frames(a).rest + b))
    decreases |a|
  {
    var at := FirstBreak(a, 0);
    if at.None? {
      assert Frames(a) == Framed([], a);
    } else {
      var frame, rest := a[..at.value], a[at.value + 2..];
      FirstFrame(a, at.value);
      FramesAppend(rest, b);
      JoinedBytes(frame, rest, b);
      FramesCons(frame, rest + b);
      JoinedCons(frame, Frames(rest), Frames(Frames(rest).rest + b));
    }
  }

  // ---- From an event to payloads ----

  predicate SpaceByte(b: Byte) {
    IsSpace(b as char)
  }

  /** The lines of an event. */
  function Lines(raw: Bytes): (lines: seq<Bytes>)
    ensures lines != []
  {
    if raw == [] then [[]]
    else
      var before := Lines(raw[..|raw| - 1]);
      var last := raw[|raw| - 1];
      if last == NEWLINE then before + [[]]
      else before[..|before| - 1] + [before[|before| - 1] + [last]]
  }

  /** The payload of a `data:` line. */
  function PayloadOf(line: Bytes): Option<Bytes> {
    var text := TrimBy(line, SpaceByte);
    if DATA <= text then Some(TrimBy(text[|DATA|..], SpaceByte)) else None
  }

  /** A translator: its state, and the state and events after one payload. */
  datatype Step<S, E> = Step(state: S, events: seq<E>)

  function TakeLine<S, E>(translate: (S, Bytes) -> Step<S, E>): (Step<S, E>, Bytes) -> Step<S, E> {
    (s: Step<S, E>, line: Bytes) =>
      var payload := PayloadOf(line);
      if payload.None? then s
      else var next := translate(s.state, payload.value); Step(next.state, s.events + next.events)
  }

  function TakeFrame<S, E>(translate: (S, Bytes) -> Step<S, E>): (Step<S, E>, Bytes) -> Step<S, E> {
    (s: Step<S, E>, raw: Bytes) => Fold(TakeLine(translate), s, Lines(raw))
  }

  // ---- What an event says ----

  /** The line is a data field with this payload: `data:`, white space, the payload, which neither starts nor ends with it, in white space. */
  ghost predicate DataField(line: Bytes, payload: Bytes) {
    exists before, between, after :: Field(line, before, between, payload, after)
  }

  ghost predicate Field(line: Bytes, before: Bytes, between: Bytes, payload: Bytes, after: Bytes) {
    && line == before + [100, 97, 116, 97, 58] + between + payload + after
    && AllSpace(before) && AllSpace(between) && AllSpace(after)
    && (payload != [] ==> !SpaceByte(payload[0]) && !SpaceByte(payload[|payload| - 1]))
  }

  predicate AllSpace(s: Bytes) {
    AllBy(s, SpaceByte)
  }

  lemma {:induction false} FieldPayload(line: Bytes, before: Bytes, between: Bytes, payload: Bytes, after: Bytes)
    requires Field(line, before, between, payload, after)
    ensures PayloadOf(line) == Some(payload)
  {
    var rest := between + payload;
    assert !SpaceByte(100) && !SpaceByte(58);
    hide SpaceByte, TrimBy;
    if payload == [] {
      assert line == before + DATA + (between + after);
      TrimByCuts(before, DATA, between + after, SpaceByte);
      assert DATA[|DATA|..] == [];
      var none: Bytes := [];
      TrimByCuts(none, none, none, SpaceByte);
      assert none + none + none == none;
    } else {
      var core := DATA + rest;
      assert line == before + core + after;
      assert core[|core| - 1] == payload[|payload| - 1];
      TrimByCuts(before, core, after, SpaceByte);
      assert core[|DATA|..] == rest == between + payload + [];
      TrimByCuts(between, payload, [], SpaceByte);
    }
  }

  lemma {:induction false} PayloadField(line: Bytes)
    requires PayloadOf(line).Some?
    ensures DataField(line, PayloadOf(line).value)
  {
    hide TrimBy, SpaceByte;
    var before, after := TrimByParts(line, SpaceByte);
    var text := TrimBy(line, SpaceByte);
    var between, after' := TrimByParts(text[|DATA|..], SpaceByte);
    var payload := TrimBy(text[|DATA|..], SpaceByte);
    assert text == DATA + text[|DATA|..];
    assert line == before + DATA + between + payload + (after' + after);
    assert Field(line, before, between, payload, after' + after);
  }

  /** A line gives a payload exactly when it is a data field, and it gives that one. */
  lemma {:induction false} PayloadWhen(line: Bytes, payload: Bytes)
    ensures PayloadOf(line) == Some(payload) <==> DataField(line, payload)
  {
    if PayloadOf(line) == Some(payload) {
      PayloadField(line);
    }
    if DataField(line, payload) {
      var before, between, after :| Field(line, before, between, payload, after);
      FieldPayload(line, before, between, payload, after);
    }
  }

  /** The lines of an event as bytes. */
  function Body(lines: seq<Bytes>): Bytes {
    if lines == [] then []
    else if |lines| == 1 then lines[0]
    else Body(lines[..|lines| - 1]) + [NEWLINE] + lines[|lines| - 1]
  }

  predicate LineOk(line: Bytes) {
    line != [] && NEWLINE !in line
  }

  /** An event is some lines that are not empty. */
  predicate EventOk(lines: seq<Bytes>) {
    lines != [] && forall i :: 0 <= i < |lines| ==> LineOk(lines[i])
  }

  /** The last line goes on. */
  function Longer(lines: seq<Bytes>, more: Bytes): seq<Bytes>
    requires lines != []
  {
    lines[..|lines| - 1] + [lines[|lines| - 1] + more]
  }

  lemma {:induction false} LongerTwice(lines: seq<Bytes>, more: Bytes, b: Byte)
    requires lines != []
    ensures Longer(Longer(lines, more), [b]) == Longer(lines, more + [b]) && Longer(lines, []) == lines
  {
    var n := |lines| - 1;
    var longer := Longer(lines, more);
    assert longer[..n] == lines[..n] && longer[n] == lines[n] + more;
    assert lines[n] + more + [b] == lines[n] + (more + [b]) && lines[n] + [] == lines[n];
  }

  lemma {:induction false} LinesMore(raw: Bytes, line: Bytes)
    requires NEWLINE !in line
    ensures Lines(raw + line) == Longer(Lines(raw), line)
  {
    if line == [] {
      assert raw + line == raw;
      LongerTwice(Lines(raw), [], 0);
    } else {
      var n := |line| - 1;
      assert (raw + line)[..|raw| + n] == raw + line[..n] && line == line[..n] + [line[n]];
      assert line[n] in line;
      LinesMore(raw, line[..n]);
      LongerTwice(Lines(raw), line[..n], line[n]);
    }
  }

  lemma {:induction false} LinesBreak(raw: Bytes)
    ensures Lines(raw + [NEWLINE]) == Lines(raw) + [[]]
  {
    assert (raw + [NEWLINE])[..|raw|] == raw;
  }

  lemma {:induction false} LineAdded(lines: seq<Bytes>, line: Bytes)
    ensures Longer(lines + [[]], line) == lines + [line]
  {
    assert (lines + [[]])[..|lines|] == lines;
    assert [] + line == line;
  }

  lemma {:induction false} OneLine(line: Bytes)
    requires NEWLINE !in line
    ensures Lines(line) == [line]
  {
    LinesMore([], line);
    assert [] + line == line;
    assert Lines([]) == [[]];
    assert Longer([[]], line) == [line];
  }

  /** An event is read as the lines it was written as. */
  lemma {:induction false} LinesOfText(lines: seq<Bytes>)
    requires EventOk(lines)
    ensures Lines(Body(lines)) == lines
  {
    hide Lines, Longer;
    var n := |lines| - 1;
    assert LineOk(lines[n]);
    assert lines == lines[..n] + [lines[n]];
    if n == 0 {
      OneLine(lines[0]);
    } else {
      LinesOfText(lines[..n]);
      LinesBreak(Body(lines[..n]));
      LinesMore(Body(lines[..n]) + [NEWLINE], lines[n]);
      LineAdded(lines[..n], lines[n]);
    }
  }

  lemma {:induction false} TextUnbroken(lines: seq<Bytes>)
    requires EventOk(lines)
    ensures Body(lines) != [] && Body(lines)[|Body(lines)| - 1] != NEWLINE && Unbroken(Body(lines) + [NEWLINE])
  {
    var n := |lines| - 1;
    var text := Body(lines);
    assert LineOk(lines[n]) && lines[n][|lines[n]| - 1] in lines[n] && lines[n][0] in lines[n];
    if n > 0 {
      TextUnbroken(lines[..n]);
      var before := Body(lines[..n]);
      forall i ensures !BreakAt(text + [NEWLINE], i) {
        assert !BreakAt(before + [NEWLINE], i);
        if i > |before| && i + 1 < |text| {
          assert (text + [NEWLINE])[i] == lines[n][i - |before| - 1];
        }
      }
    } else {
      forall i ensures !BreakAt(text + [NEWLINE], i) {
        if 0 <= i < |text| {
          assert (text + [NEWLINE])[i] in lines[0];
        }
      }
    }
  }

  /** Events as a server sends them: each ends with a blank line. */
  function Sent(events: seq<seq<Bytes>>): Bytes {
    if events == [] then [] else Body(events[0]) + BREAK + Sent(events[1..])
  }

  function Bodies(events: seq<seq<Bytes>>): seq<Bytes> {
    if events == [] then [] else [Body(events[0])] + Bodies(events[1..])
  }

  /** The payloads of some lines, in order. */
  function PayloadsIn(lines: seq<Bytes>): seq<Bytes> {
    if lines == [] then []
    else
      var last := PayloadOf(lines[|lines| - 1]);
      PayloadsIn(lines[..|lines| - 1]) + if last.Some? then [last.value] else []
  }

  function AllPayloads(events: seq<seq<Bytes>>): seq<Bytes> {
    if events == [] then [] else PayloadsIn(events[0]) + AllPayloads(events[1..])
  }

  /** A translator that is given a payload. */
  function Feed<S, E>(translate: (S, Bytes) -> Step<S, E>): (Step<S, E>, Bytes) -> Step<S, E> {
    (s: Step<S, E>, payload: Bytes) =>
      var next := translate(s.state, payload); Step(next.state, s.events + next.events)
  }

  lemma {:induction false} LinesFeed<S, E>(translate: (S, Bytes) -> Step<S, E>, s: Step<S, E>, lines: seq<Bytes>)
    ensures Fold(TakeLine(translate), s, lines) == Fold(Feed(translate), s, PayloadsIn(lines))
  {
    if lines != [] {
      var n := |lines| - 1;
      LinesFeed(translate, s, lines[..n]);
      var last := PayloadOf(lines[n]);
      if last.Some? {
        FoldLast(Feed(translate), s, PayloadsIn(lines[..n]), last.value);
      } else {
        assert PayloadsIn(lines[..n]) + [] == PayloadsIn(lines[..n]);
      }
    }
  }

  lemma {:induction false} SentIsCut(events: seq<seq<Bytes>>)
    requires forall i :: 0 <= i < |events| ==> EventOk(events[i])
    ensures Frames(Sent(events)) == Framed(Bodies(events), [])
  {
    if events == [] {
      assert Cuts(Framed([], []), []);
      FramesIsTheCut([], Framed([], []));
    } else {
      TextUnbroken(events[0]);
      SentIsCut(events[1..]);
      FramesCons(Body(events[0]), Sent(events[1..]));
    }
  }

  lemma {:induction false} TextsFeed<S, E>(translate: (S, Bytes) -> Step<S, E>, s: Step<S, E>, events: seq<seq<Bytes>>)
    requires forall i :: 0 <= i < |events| ==> EventOk(events[i])
    ensures Fold(TakeFrame(translate), s, Bodies(events)) == Fold(Feed(translate), s, AllPayloads(events))
    decreases |events|
  {
    if events != [] {
      var first := Fold(Feed(translate), s, PayloadsIn(events[0]));
      FoldAppend(TakeFrame(translate), s, [Body(events[0])], Bodies(events[1..]));
      FoldOne(TakeFrame(translate), s, Body(events[0]));
      LinesOfText(events[0]);
      LinesFeed(translate, s, events[0]);
      TextsFeed(translate, first, events[1..]);
      FoldAppend(Feed(translate), s, PayloadsIn(events[0]), AllPayloads(events[1..]));
    }
  }

  /** The writer as a value: the translator with everything emitted, and the bytes of an unfinished event. */
  datatype Writer<S, E> = Writer(done: Step<S, E>, buffer: Bytes)

  /** Emits every complete event of the buffer. */
  ghost function Drained<S, E>(translate: (S, Bytes) -> Step<S, E>, w: Writer<S, E>): Writer<S, E> {
    var f := Frames(w.buffer);
    Writer(Fold(TakeFrame(translate), w.done, f.frames), f.rest)
  }

  ghost function Written<S, E>(translate: (S, Bytes) -> Step<S, E>, w: Writer<S, E>, data: Bytes): Writer<S, E> {
    Drained(translate, Writer(w.done, w.buffer + data))
  }

  lemma {:induction false} WrittenTwice<S, E>(translate: (S, Bytes) -> Step<S, E>, w: Writer<S, E>, a: Bytes, b: Bytes)
    ensures Written(translate, Written(translate, w, a), b) == Written(translate, w, a + b)
  {
    hide Frames;
    var s := w.buffer + a;
    FramesAppend(s, b);
    FoldAppend(TakeFrame(translate), w.done, Frames(s).frames, Frames(Frames(s).rest + b).frames);
    assert w.buffer + (a + b) == s + b;
  }

  lemma {:induction false} MoreReceived<S, E>(translate: (S, Bytes) -> Step<S, E>, start: Writer<S, E>, before: Bytes, data: Bytes)
    requires start.buffer == []
    ensures var w := Drained(translate, Writer(start.done, before));
            Drained(translate, Writer(w.done, w.buffer + data)) == Drained(translate, Writer(start.done, before + data))
  {
    WrittenTwice(translate, start, before, data);
    assert start.buffer + before == before && start.buffer + (before + data) == before + data;
  }

  /** The translator is given exactly the payloads of the events received, in order, and nothing stays behind. */
  lemma {:induction false} PayloadsArrive<S, E>(translate: (S, Bytes) -> Step<S, E>, done: Step<S, E>, events: seq<seq<Bytes>>)
    requires forall i :: 0 <= i < |events| ==> EventOk(events[i])
    ensures Drained(translate, Writer(done, Sent(events))) == Writer(Fold(Feed(translate), done, AllPayloads(events)), [])
  {
    SentIsCut(events);
    TextsFeed(translate, done, events);
  }

  // ---- A server that sends one data field per event ----

  /** A payload that can be sent in one line: no line break, no white space at its ends. */
  predicate Sendable(payload: Bytes) {
    NEWLINE !in payload && (payload != [] ==> !SpaceByte(payload[0]) && !SpaceByte(payload[|payload| - 1]))
  }

  function DataEvents(payloads: seq<Bytes>): seq<seq<Bytes>> {
    seq(|payloads|, i requires 0 <= i < |payloads| => [[100, 97, 116, 97, 58, 32] + payloads[i]])
  }

  lemma {:induction false} DataEventIs(payload: Bytes)
    requires Sendable(payload)
    ensures EventOk([[100, 97, 116, 97, 58, 32] + payload]) && PayloadsIn([[100, 97, 116, 97, 58, 32] + payload]) == [payload]
  {
    var line: Bytes := [100, 97, 116, 97, 58, 32] + payload;
    assert SpaceByte(32);
    assert line == [] + [100, 97, 116, 97, 58] + [32] + payload + [];
    assert Field(line, [], [32], payload, []);
    FieldPayload(line, [], [32], payload, []);
    assert [line][..0] == [] && PayloadsIn([]) == [] && [] + [payload] == [payload];
  }

  lemma {:induction false} DataEventsAre(payloads: seq<Bytes>)
    requires forall i :: 0 <= i < |payloads| ==> Sendable(payloads[i])
    ensures forall i :: 0 <= i < |payloads| ==> EventOk(DataEvents(payloads)[i])
    ensures AllPayloads(DataEvents(payloads)) == payloads
  {
    if payloads != [] {
      DataEventIs(payloads[0]);
      DataEventsAre(payloads[1..]);
      hide EventOk, PayloadsIn, Sendable;
      assert DataEvents(payloads)[1..] == DataEvents(payloads[1..]);
      assert payloads == [payloads[0]] + payloads[1..];
      forall i | 0 <= i < |payloads| ensures EventOk(DataEvents(payloads)[i]) {
        assert i > 0 ==> DataEvents(payloads)[i] == DataEvents(payloads[1..])[i - 1];
      }
    }
  }

  /** What is sent as data fields is what the translator is given. */
  lemma {:induction false} DataRoundTrip<S, E>(translate: (S, Bytes) -> Step<S, E>, done: Step<S, E>, payloads: seq<Bytes>)
    requires forall i :: 0 <= i < |payloads| ==> Sendable(payloads[i])
    ensures Drained(translate, Writer(done, Sent(DataEvents(payloads)))) == Writer(Fold(Feed(translate), done, payloads), [])
  {
    DataEventsAre(payloads);
    PayloadsArrive(translate, done, DataEvents(payloads));
  }

  /** Events without a data field give the translator nothing. */
  lemma {:induction false} NothingWithoutData<S, E>(translate: (S, Bytes) -> Step<S, E>, done: Step<S, E>, lines: seq<Bytes>)
    requires EventOk(lines) && forall i, payload :: 0 <= i < |lines| ==> !DataField(lines[i], payload)
    ensures Drained(translate, Writer(done, Body(lines) + BREAK)) == Writer(done, [])
  {
    NoPayloads(lines);
    PayloadsArrive(translate, done, [lines]);
    assert AllPayloads([lines]) == PayloadsIn(lines) + AllPayloads([]) == [];
    assert Sent([lines]) == Body(lines) + BREAK + Sent([]) == Body(lines) + BREAK;
  }

  lemma {:induction false} NoPayloads(lines: seq<Bytes>)
    requires forall i, payload :: 0 <= i < |lines| ==> !DataField(lines[i], payload)
    ensures PayloadsIn(lines) == []
  {
    if lines != [] {
      var n := |lines| - 1;
      NoPayloads(lines[..n]);
      if PayloadOf(lines[n]).Some? {
        PayloadField(lines[n]);
      }
    }
  }

  ghost function Concat(writes: seq<Bytes>): Bytes {
    if writes == [] then [] else Concat(writes[..|writes| - 1]) + writes[|writes| - 1]
  }

  ghost function WrittenAll<S, E>(translate: (S, Bytes) -> Step<S, E>, w: Writer<S, E>, writes: seq<Bytes>): Writer<S, E> {
    if writes == [] then w
    else Written(translate, WrittenAll(translate, w, writes[..|writes| - 1]), writes[|writes| - 1])
  }

  /** However the bytes are split into writes, the same events come out in the same order. */
  lemma {:induction false} SplitDoesNotMatter<S, E>(translate: (S, Bytes) -> Step<S, E>, s: S, writes: seq<Bytes>)
    ensures var start := Writer(Step(s, []), []);
            WrittenAll(translate, start, writes) == Drained(translate, Writer(Step(s, []), Concat(writes)))
  {
    var start := Writer(Step(s, []), []);
    if writes == [] {
      FramesAppend([], []);
      NothingToDrain<S, E>(translate, start);
    } else {
      var n := |writes| - 1;
      SplitDoesNotMatter(translate, s, writes[..n]);
      assert [] + Concat(writes[..n]) == Concat(writes[..n]);
      WrittenTwice(translate, start, Concat(writes[..n]), writes[n]);
      assert [] + (Concat(writes[..n]) + writes[n]) == Concat(writes);
    }
  }

  /** A flush between writes emits nothing that was not emitted already. */
  lemma {:induction false} NothingToDrain<S, E>(translate: (S, Bytes) -> Step<S, E>, w: Writer<S, E>)
    requires Unbroken(w.buffer)
    ensures Drained(translate, w) == w
  {
  }

  lemma {:induction false} RestIsUnbroken(s: Bytes)
    ensures Unbroken(Frames(s).rest)
    decreases |s|
  {
    var at := FirstBreak(s, 0);
    if at.Some? {
      RestIsUnbroken(s[at.value + 2..]);
    }
  }

  class TransformResponseWriter<S, E> {
    const translate: (S, Bytes) -> Step<S, E>
    ghost const initial: S
    var contentType: string
    var state: S
    var buffer: Bytes
    var streaming: bool
    var wrote: bool

    // what the target received: translated events, or the bytes of another kind of response
    var emitted: seq<E>
    var passed: Bytes

    ghost var received: Bytes

    constructor (translate: (S, Bytes) -> Step<S, E>, state: S)
      ensures Valid() && !wrote && received == [] && initial == state && this.translate == translate
    {
      this.translate, this.initial, this.state := translate, state, state;
      contentType, buffer, streaming, wrote, emitted, passed, received := "", [], false, false, [], [], [];
    }

    ghost function View(): Writer<S, E>
      reads this
    {
      Writer(Step(state, emitted), buffer)
    }

    /** What was sent depends on the bytes received, not on how they arrived. */
    ghost predicate Valid()
      reads this
    {
      && (streaming ==> wrote)
      && (if streaming then passed == [] && View() == Drained(translate, Writer(Step(initial, []), received))
          else passed == received && View() == Writer(Step(initial, []), []))
      && (!wrote ==> received == [])
    }

    /** When what was received so far are whole events, the translator was given their payloads and nothing is left over. */
    lemma {:induction false} AllTranslated(events: seq<seq<Bytes>>)
      requires Valid() && streaming && received == Sent(events) && forall i :: 0 <= i < |events| ==> EventOk(events[i])
      ensures View() == Writer(Fold(Feed(translate), Step(initial, []), AllPayloads(events)), [])
    {
      PayloadsArrive(translate, Step(initial, []), events);
    }

    /** Decides once whether the response is an event stream. */
    method WriteHeader()
      requires Valid()
      modifies this`wrote, this`streaming
      ensures Valid() && wrote
      ensures streaming == if old(wrote) then old(streaming) else IsEventStream(contentType)
    {
      if wrote {
        return;
      }
      wrote := true;
      streaming := IsEventStream(contentType);
      NothingToDrain(translate, Writer(Step(initial, []), []));
    }

    method Write(data: Bytes)
      requires Valid()
      modifies this
      ensures Valid() && wrote && received == old(received) + data
      ensures streaming == if old(wrote) then old(streaming) else IsEventStream(old(contentType))
    {
      if !wrote {
        WriteHeader();
      }
      ghost var before := received;
      received := received + data;
      if !streaming {
        passed := passed + data;
        return;
      }
      buffer := buffer + data;
      TranslateCompleteEvents();
      MoreReceived(translate, Writer(Step(initial, []), []), before, data);
    }

    method Flush()
      requires Valid()
      modifies this
      ensures Valid() && wrote == old(wrote) && streaming == old(streaming) && received == old(received)
      ensures View() == old(View())
    {
      if streaming {
        RestIsUnbroken(received);
        NothingToDrain(translate, View());
        TranslateCompleteEvents();
      }
    }

    /** Cuts events off the front of the buffer until none is complete. */
    method TranslateCompleteEvents()
      modifies this`state, this`emitted, this`buffer
      ensures View() == Drained(translate, old(View()))
    {
      while true
        invariant Drained(translate, View()) == Drained(translate, old(View()))
        decreases |buffer|
      {
        var at := FindBreak(buffer);
        if at.None? {
          NothingToDrain(translate, View());
          return;
        }
        var event := buffer[..at.value];
        FirstFrame(buffer, at.value);
        FoldAppend(TakeFrame(translate), Step(state, emitted), [event], Frames(buffer[at.value + 2..]).frames);
        FoldOne(TakeFrame(translate), Step(state, emitted), event);
        buffer := buffer[at.value + 2..];
        WriteTranslatedEvent(event);
      }
    }

    method WriteTranslatedEvent(raw: Bytes)
      modifies this`state, this`emitted
      ensures Step(state, emitted) == TakeFrame(translate)(old(Step(state, emitted)), raw)
    {
      var lines := Lines(raw);
      ghost var start := Step(state, emitted);
      for i := 0 to |lines|
        invariant Step(state, emitted) == Fold(TakeLine(translate), start, lines[..i])
      {
        FoldLast(TakeLine(translate), start, lines[..i], lines[i]);
        assert lines[..i] + [lines[i]] == lines[..i + 1];
        var payload := PayloadOf(lines[i]);
        if payload.Some? {
          var next := translate(state, payload.value);
          state, emitted := next.state, emitted + next.events;
        }
      }
      assert lines[..|lines|] == lines;
    }
  }

  predicate Contains(s: string, part: string) {
    part <= s || (s != "" && Contains(s[1..], part))
  }

  lemma {:induction false} ContainsWhen(s: string, part: string)
    ensures Contains(s, part) <==> exists before, after :: s == before + part + after
  {
    if part <= s {
      assert s == "" + part + s[|part|..];
    } else if s != "" {
      ContainsWhen(s[1..], part);
      if Contains(s[1..], part) {
        var before, after :| s[1..] == before + part + after;
        assert s == ([s[0]] + before) + part + after;
      }
      if before, after :| s == before + part + after {
        assert before != [];
        assert s[1..] == before[1..] + part + after;
      }
    } else if before, after :| s == before + part + after {
      assert false;
    }
  }

  predicate IsEventStream(contentType: string) {
    Contains(Lower(contentType), "text/event-stream")
  }
}
