module Replay {
  // A complete response replayed as chunks, and chunks put together to a response.
  // The two are inverse to each other for every response whose choices are listed
  // in the order of their indexes.

  import opened Options
  import opened Texts
  import opened Folds
  import opened Ascending
  import opened Sets
  import opened ChatStream

  datatype Choice = Choice(index: int, role: string, content: string, toolCalls: seq<ToolDelta>, finish: string)
  datatype Response = Response(id: string, model: string, choices: seq<Choice>, usage: Usage)

  const CHUNK_RUNES := 16
  const ASSISTANT := "assistant"
  const EMPTY_CHOICE := Choice(0, ASSISTANT, "", [], "")

  // ---- Cutting text ----

  /** Cuts text into pieces of `size` runes; the last may be shorter. */
  function Cut(text: string, size: int): (pieces: seq<string>)
    ensures text != "" ==> pieces != []
    decreases |text|
  {
    if text == "" then []
    else if size <= 0 || |text| <= size then [text]
    else [text[..size]] + Cut(text[size..], size)
  }

  lemma {:induction false} JoinedCons(first: string, rest: seq<string>)
    ensures Joined([first] + rest) == first + Joined(rest)
  {
    if rest != [] {
      var n := |rest| - 1;
      assert ([first] + rest)[..n + 1] == [first] + rest[..n];
      JoinedCons(first, rest[..n]);
    }
  }

  /** The pieces join to the text; none is empty and only the last may be shorter than `size`. */
  lemma {:induction false} CutJoins(text: string, size: int)
    ensures var pieces := Cut(text, size);
            && Joined(pieces) == text
            && (forall i :: 0 <= i < |pieces| ==> pieces[i] != "" && (size > 0 ==> |pieces[i]| <= size))
            && (forall i :: 0 <= i < |pieces| - 1 ==> |pieces[i]| == size)
    decreases |text|
  {
    if text != "" && size > 0 && |text| > size {
      CutJoins(text[size..], size);
      JoinedCons(text[..size], Cut(text[size..], size));
    } else if text != "" {
      JoinedCons(text, []);
    }
  }

  lemma {:induction false} CutNext(text: string, start: nat, size: int)
    requires 0 < size && start + size < |text|
    ensures Cut(text[start..], size) == [text[start..start + size]] + Cut(text[start + size..], size)
  {
    assert text[start..][..size] == text[start..start + size];
    assert text[start..][size..] == text[start + size..];
  }

  method SplitRunes(text: string, size: int) returns (pieces: seq<string>)
    ensures pieces == Cut(text, size)
  {
    if text == "" {
      return [];
    }
    if size <= 0 {
      return [text];
    }
    pieces := [];
    var start, count := 0, 0;
    for index := 0 to |text|
      invariant 0 <= start && start + count == index && 0 <= count <= size && (index > 0 ==> count > 0)
      invariant Cut(text, size) == pieces + Cut(text[start..], size)
    {
      if count == size {
        CutNext(text, start, size);
        pieces := pieces + [text[start..index]];
        start, count := index, 0;
      }
      count := count + 1;
    }
    assert Cut(text[start..], size) == [text[start..]];
    pieces := pieces + [text[start..]];
  }

  // ---- Replaying a response ----

  function Numbered(calls: seq<ToolDelta>): seq<ToolDelta> {
    if calls == [] then []
    else
      var n := |calls| - 1;
      Numbered(calls[..n]) + [calls[n].(index := Some(n))]
  }

  function ContentChoice(index: int, role: string, piece: string): ChunkChoice {
    ChunkChoice(index, Delta(role, piece, "", []), "")
  }

  function FinishChoice(c: Choice): ChunkChoice {
    ChunkChoice(c.index, Delta("", "", "", []), FinishOf(c))
  }

  /** The role goes with the first piece. */
  function ContentChoices(index: int, role: string, pieces: seq<string>): seq<ChunkChoice> {
    if pieces == [] then []
    else
      var n := |pieces| - 1;
      ContentChoices(index, role, pieces[..n]) + [ContentChoice(index, if n == 0 then role else "", pieces[n])]
  }

  function ToolChoices(index: int, role: string, calls: seq<ToolDelta>): seq<ChunkChoice> {
    if calls == [] then [] else [ChunkChoice(index, Delta(role, "", "", Numbered(calls)), "")]
  }

  function ToolRole(c: Choice): string {
    if c.content == "" then FirstNonEmpty(c.role, ASSISTANT) else ""
  }

  function Spoken(c: Choice): seq<ChunkChoice> {
    var role := FirstNonEmpty(c.role, ASSISTANT);
    ContentChoices(c.index, role, Cut(c.content, CHUNK_RUNES))
    + ToolChoices(c.index, ToolRole(c), c.toolCalls)
  }

  function AllSpoken(choices: seq<Choice>): seq<ChunkChoice> {
    if choices == [] then [] else AllSpoken(choices[..|choices| - 1]) + Spoken(choices[|choices| - 1])
  }

  function FinishOf(c: Choice): string {
    FirstNonEmpty(c.finish, "stop")
  }

  function Finishes(choices: seq<Choice>): seq<ChunkChoice> {
    if choices == [] then [] else Finishes(choices[..|choices| - 1]) + [FinishChoice(choices[|choices| - 1])]
  }

  function ChoicesOf(resp: Response): (choices: seq<Choice>)
    ensures choices != []
  {
    if resp.choices == [] then [EMPTY_CHOICE] else resp.choices
  }

  function Wrapped(resp: Response, cs: seq<ChunkChoice>): seq<Chunk> {
    if cs == [] then []
    else Wrapped(resp, cs[..|cs| - 1]) + [Chunk(resp.id, resp.model, [cs[|cs| - 1]], None)]
  }

  function UsageChunks(resp: Response, includeUsage: bool): seq<Chunk> {
    if includeUsage then [Chunk(resp.id, resp.model, [], Some(resp.usage))] else []
  }

  /** The chunks of a replayed response; [DONE] follows. */
  function Replayed(resp: Response, includeUsage: bool): seq<Chunk> {
    Wrapped(resp, AllSpoken(ChoicesOf(resp)) + Finishes(ChoicesOf(resp))) + UsageChunks(resp, includeUsage)
  }

  lemma {:induction false} WrappedLast(resp: Response, cs: seq<ChunkChoice>, c: ChunkChoice)
    ensures Wrapped(resp, cs + [c]) == Wrapped(resp, cs) + [Chunk(resp.id, resp.model, [c], None)]
  {
    assert (cs + [c])[..|cs|] == cs;
  }

  method NumberCalls(calls: seq<ToolDelta>) returns (deltas: seq<ToolDelta>)
    ensures deltas == Numbered(calls)
  {
    deltas := [];
    for i := 0 to |calls|
      invariant deltas == Numbered(calls[..i])
    {
      assert calls[..i + 1][..i] == calls[..i];
      deltas := deltas + [calls[i].(index := Some(i))];
    }
    assert calls[..|calls|] == calls;
  }

  lemma {:induction false} WrappedMore(resp: Response, cs: seq<ChunkChoice>, more: seq<ChunkChoice>, c: ChunkChoice)
    ensures Wrapped(resp, cs + (more + [c])) == Wrapped(resp, cs + more) + [Chunk(resp.id, resp.model, [c], None)]
  {
    WrappedLast(resp, cs + more, c);
    assert cs + more + [c] == cs + (more + [c]);
  }

  lemma {:induction false} ContentNext(resp: Response, cs: seq<ChunkChoice>, index: int, role: string, pieces: seq<string>, i: nat)
    requires i < |pieces|
    ensures Wrapped(resp, cs + ContentChoices(index, role, pieces[..i + 1]))
         == Wrapped(resp, cs + ContentChoices(index, role, pieces[..i]))
            + [Chunk(resp.id, resp.model, [ContentChoice(index, if i == 0 then role else "", pieces[i])], None)]
  {
    assert pieces[..i + 1][..i] == pieces[..i];
    WrappedMore(resp, cs, ContentChoices(index, role, pieces[..i]), ContentChoice(index, if i == 0 then role else "", pieces[i]));
  }

  lemma {:induction false} FinishNext(resp: Response, cs: seq<ChunkChoice>, choices: seq<Choice>, i: nat)
    requires i < |choices|
    ensures Wrapped(resp, cs + Finishes(choices[..i + 1]))
         == Wrapped(resp, cs + Finishes(choices[..i])) + [Chunk(resp.id, resp.model, [FinishChoice(choices[i])], None)]
  {
    assert choices[..i + 1][..i] == choices[..i];
    WrappedMore(resp, cs, Finishes(choices[..i]), FinishChoice(choices[i]));
  }

  method SpeakContent(resp: Response, choice: Choice, ghost cs: seq<ChunkChoice>, chunks: seq<Chunk>) returns (all: seq<Chunk>)
    requires chunks == Wrapped(resp, cs)
    ensures all == Wrapped(resp, cs + ContentChoices(choice.index, FirstNonEmpty(choice.role, ASSISTANT), Cut(choice.content, CHUNK_RUNES)))
  {
    all := chunks;
    var role := FirstNonEmpty(choice.role, ASSISTANT);
    ghost var first := role;
    var pieces := SplitRunes(choice.content, CHUNK_RUNES);
    assert cs + [] == cs;
    for i := 0 to |pieces|
      invariant role == if i == 0 then first else ""
      invariant all == Wrapped(resp, cs + ContentChoices(choice.index, first, pieces[..i]))
    {
      ContentNext(resp, cs, choice.index, first, pieces, i);
      var next := ContentChoice(choice.index, role, pieces[i]);
      all := all + [Chunk(resp.id, resp.model, [next], None)];
      role := "";
    }
    assert pieces[..|pieces|] == pieces;
  }

  method SpeakChoice(resp: Response, choice: Choice, ghost cs: seq<ChunkChoice>, chunks: seq<Chunk>) returns (all: seq<Chunk>)
    requires chunks == Wrapped(resp, cs)
    ensures all == Wrapped(resp, cs + Spoken(choice))
  {
    ghost var content := ContentChoices(choice.index, FirstNonEmpty(choice.role, ASSISTANT), Cut(choice.content, CHUNK_RUNES));
    all := SpeakContent(resp, choice, cs, chunks);
    if |choice.toolCalls| > 0 {
      var deltas := NumberCalls(choice.toolCalls);
      var next := ChunkChoice(choice.index, Delta(ToolRole(choice), "", "", deltas), "");
      WrappedLast(resp, cs + content, next);
      assert cs + content + [next] == cs + (content + [next]);
      all := all + [Chunk(resp.id, resp.model, [next], None)];
    } else {
      assert content + [] == content;
    }
  }

  method FinishChoices(resp: Response, choices: seq<Choice>, ghost spoken: seq<ChunkChoice>, chunks: seq<Chunk>) returns (all: seq<Chunk>)
    requires chunks == Wrapped(resp, spoken)
    ensures all == Wrapped(resp, spoken + Finishes(choices))
  {
    all := chunks;
    assert spoken + [] == spoken;
    for i := 0 to |choices|
      invariant all == Wrapped(resp, spoken + Finishes(choices[..i]))
    {
      FinishNext(resp, spoken, choices, i);
      var next := ChunkChoice(choices[i].index, Delta("", "", "", []), FirstNonEmpty(choices[i].finish, "stop"));
      all := all + [Chunk(resp.id, resp.model, [next], None)];
    }
    assert choices[..|choices|] == choices;
  }

  method SpeakChoices(resp: Response, choices: seq<Choice>) returns (chunks: seq<Chunk>)
    ensures chunks == Wrapped(resp, AllSpoken(choices))
  {
    chunks := [];
    for i := 0 to |choices|
      invariant chunks == Wrapped(resp, AllSpoken(choices[..i]))
    {
      assert choices[..i + 1][..i] == choices[..i];
      chunks := SpeakChoice(resp, choices[i], AllSpoken(choices[..i]), chunks);
    }
    assert choices[..|choices|] == choices;
  }

  /** The payloads of chunks. */
  function Sent(chunks: seq<Chunk>): seq<Payload> {
    seq(|chunks|, i requires 0 <= i < |chunks| => Data(chunks[i]))
  }

  /** Replays a response as an event stream. */
  method WriteStream(resp: Response, includeUsage: bool) returns (payloads: seq<Payload>)
    ensures payloads == Sent(Replayed(resp, includeUsage)) + [Done]
  {
    var choices := resp.choices;
    if |choices| == 0 {
      choices := [EMPTY_CHOICE];
    }
    var chunks := SpeakChoices(resp, choices);
    chunks := FinishChoices(resp, choices, AllSpoken(choices), chunks);
    if includeUsage {
      chunks := chunks + [Chunk(resp.id, resp.model, [], Some(resp.usage))];
    } else {
      assert chunks + [] == chunks;
    }
    payloads := Sent(chunks) + [Done];
  }

  // ---- Putting chunks together ----

  const FUNCTION_CALL := ToolDelta(None, "", "function", "", "")

  function Padded(calls: seq<ToolDelta>, length: nat): (r: seq<ToolDelta>)
    ensures |r| == if |calls| < length then length else |calls|
    decreases length - |calls|
  {
    if |calls| < length then Padded(calls + [FUNCTION_CALL], length) else calls
  }

  function MergedCall(call: ToolDelta, d: ToolDelta): ToolDelta {
    var kind := if d.kind != "" then d.kind else call.kind;
    ToolDelta(call.index, if d.id != "" then d.id else call.id, if kind == "" then "function" else kind,
              call.name + d.name, call.arguments + d.arguments)
  }

  function MergeTool(calls: seq<ToolDelta>, d: ToolDelta): seq<ToolDelta> {
    var at := if d.index.Some? && d.index.value >= 0 then d.index.value else |calls|;
    var padded := Padded(calls, at + 1);
    padded[at := MergedCall(padded[at], d)]
  }

  lemma {:induction false} PaddedIs(calls: seq<ToolDelta>, length: nat)
    ensures var r := Padded(calls, length);
            && (forall i :: 0 <= i < |calls| ==> r[i] == calls[i])
            && (forall i :: |calls| <= i < |r| ==> r[i] == FUNCTION_CALL)
    decreases length - |calls|
  {
    if |calls| < length {
      var more := calls + [FUNCTION_CALL];
      PaddedIs(more, length);
      assert Padded(calls, length) == Padded(more, length);
      assert forall i :: 0 <= i < |calls| ==> more[i] == calls[i];
      assert more[|calls|] == FUNCTION_CALL;
      hide Padded;
    }
  }

  lemma {:induction false} MergedCallIs(call: ToolDelta, d: ToolDelta)
    ensures var r := MergedCall(call, d);
            && r.index == call.index && r.id == (if |d.id| > 0 then d.id else call.id)
            && r.name == call.name + d.name && r.arguments == call.arguments + d.arguments
            && r.kind == if |d.kind| > 0 then d.kind else if |call.kind| > 0 then call.kind else "function"
  {
  }

  /** Where a delta belongs: at its index, or after all calls. */
  function Place(calls: seq<ToolDelta>, d: ToolDelta): nat {
    match d.index
    case None => |calls|
    case Some(index) => if index < 0 then |calls| else index
  }

  /**
     One delta changes one call only, new ones up to it being empty functions: its
     id and kind are the last that were given, its name and arguments grow.
   */
  lemma {:induction false} MergeToolIs(calls: seq<ToolDelta>, d: ToolDelta)
    ensures var r, at := MergeTool(calls, d), Place(calls, d);
            && |r| == (if at < |calls| then |calls| else at + 1)
            && (forall i :: 0 <= i < |calls| && i != at ==> r[i] == calls[i])
            && (forall i :: |calls| <= i < at ==> r[i] == ToolDelta(None, "", "function", "", ""))
            && (var was := if at < |calls| then calls[at] else ToolDelta(None, "", "function", "", "");
                && r[at].index == was.index && r[at].id == (if |d.id| > 0 then d.id else was.id)
                && r[at].name == was.name + d.name && r[at].arguments == was.arguments + d.arguments
                && r[at].kind == if |d.kind| > 0 then d.kind else if |was.kind| > 0 then was.kind else "function")
  {
    var at := Place(calls, d);
    PaddedIs(calls, at + 1);
    MergedCallIs(Padded(calls, at + 1)[at], d);
    hide MergedCall, Padded;
  }

  function MergeTools(calls: seq<ToolDelta>, ds: seq<ToolDelta>): seq<ToolDelta> {
    Fold(MergeTool, calls, ds)
  }

  datatype Builder = Builder(role: string, content: string, toolCalls: seq<ToolDelta>, finish: string)
  const NEW_BUILDER := Builder(ASSISTANT, "", [], "")

  function Built(b: Builder, c: ChunkChoice): Builder {
    Builder(if c.delta.role != "" then c.delta.role else b.role, b.content + c.delta.content,
            MergeTools(b.toolCalls, c.delta.toolCalls), if c.finish != "" then c.finish else b.finish)
  }

  function MergeChoice(m: map<int, Builder>, c: ChunkChoice): map<int, Builder> {
    m[c.index := Built(if c.index in m then m[c.index] else NEW_BUILDER, c)]
  }

  function MergeChoices(m: map<int, Builder>, cs: seq<ChunkChoice>): map<int, Builder> {
    Fold(MergeChoice, m, cs)
  }

  // ---- What the builders hold ----

  /** The text the chunks give the choice at this index. */
  function ContentAt(cs: seq<ChunkChoice>, index: int): string {
    if cs == [] then ""
    else ContentAt(cs[..|cs| - 1], index) + if cs[|cs| - 1].index == index then cs[|cs| - 1].delta.content else ""
  }

  function DeltasAt(cs: seq<ChunkChoice>, index: int): seq<ToolDelta> {
    if cs == [] then []
    else DeltasAt(cs[..|cs| - 1], index) + if cs[|cs| - 1].index == index then cs[|cs| - 1].delta.toolCalls else []
  }

  /** The last role given for the index. */
  function RoleAt(cs: seq<ChunkChoice>, index: int): string {
    if cs == [] then "assistant"
    else
      var last := cs[|cs| - 1];
      if last.index == index && |last.delta.role| > 0 then last.delta.role else RoleAt(cs[..|cs| - 1], index)
  }

  /** The last finish reason given for the index. */
  function ReasonAt(cs: seq<ChunkChoice>, index: int): string {
    if cs == [] then ""
    else
      var last := cs[|cs| - 1];
      if last.index == index && |last.finish| > 0 then last.finish else ReasonAt(cs[..|cs| - 1], index)
  }

  /** Everything the chunks give the choice at this index. */
  function BuilderAt(cs: seq<ChunkChoice>, index: int): Builder {
    Builder(RoleAt(cs, index), ContentAt(cs, index), MergeTools([], DeltasAt(cs, index)), ReasonAt(cs, index))
  }

  lemma {:induction false} BuilderGrows(cs: seq<ChunkChoice>, last: ChunkChoice, index: int)
    ensures BuilderAt(cs + [last], index)
         == if last.index == index then Built(BuilderAt(cs, index), last) else BuilderAt(cs, index)
  {
    assert (cs + [last])[..|cs|] == cs;
    FoldAppend(MergeTool, [], DeltasAt(cs, index), last.delta.toolCalls);
    hide MergeTool, Fold;
    assert RoleAt(cs + [last], index) == if last.index == index && last.delta.role != "" then last.delta.role else RoleAt(cs, index);
    assert ReasonAt(cs + [last], index) == if last.index == index && last.finish != "" then last.finish else ReasonAt(cs, index);
    if last.index == index {
      assert ContentAt(cs + [last], index) == ContentAt(cs, index) + last.delta.content;
      assert DeltasAt(cs + [last], index) == DeltasAt(cs, index) + last.delta.toolCalls;
    } else {
      assert ContentAt(cs + [last], index) == ContentAt(cs, index) + "" == ContentAt(cs, index);
      assert DeltasAt(cs + [last], index) == DeltasAt(cs, index) + [] == DeltasAt(cs, index);
    }
  }

  lemma {:induction false} OnlyNamed(cs: seq<ChunkChoice>, index: int)
    ensures index in MergeChoices(map[], cs) <==> exists i :: 0 <= i < |cs| && cs[i].index == index
  {
    if cs != [] {
      var n := |cs| - 1;
      OnlyNamed(cs[..n], index);
      assert (exists i :: 0 <= i < n && cs[i].index == index) <==> exists i :: 0 <= i < n && cs[..n][i].index == index;
      hide Built;
    }
  }

  /** Whatever chunks arrive, each index named has a builder with all its text, its last role and reason, and its calls merged in order. */
  lemma {:induction false} BuildersAre(cs: seq<ChunkChoice>, index: int)
    ensures var m := MergeChoices(map[], cs);
            && (index in m <==> exists i :: 0 <= i < |cs| && cs[i].index == index)
            && (if index in m then m[index] else Builder("assistant", "", [], "")) == BuilderAt(cs, index)
  {
    OnlyNamed(cs, index);
    if cs != [] {
      var n := |cs| - 1;
      BuildersAre(cs[..n], index);
      BuilderGrows(cs[..n], cs[n], index);
      assert cs == cs[..n] + [cs[n]];
      hide BuilderAt, Built;
    }
  }

  /** A builder as a choice: nothing but the finish reason has a default. */
  lemma {:induction false} ChoiceIs(index: int, b: Builder)
    ensures var c := ChoiceOf(index, b);
            && c.index == index && c.role == b.role && c.content == b.content && c.toolCalls == b.toolCalls
            && c.finish == if AllBy(b.finish, IsSpace) then "stop" else Trim(b.finish)
  {
    TrimByEmpty(b.finish, IsSpace);
  }

  datatype Aggregate = Aggregate(id: string, model: string, choices: map<int, Builder>, usage: Usage, hasUsage: bool)

  function NewAggregate(model: string): Aggregate {
    Aggregate("", model, map[], NO_USAGE, false)
  }

  function AddChunk(a: Aggregate, chunk: Chunk): Aggregate {
    Aggregate(if chunk.id != "" then chunk.id else a.id, if chunk.model != "" then chunk.model else a.model,
              MergeChoices(a.choices, chunk.choices),
              if chunk.usage.Some? then chunk.usage.value else a.usage, a.hasUsage || chunk.usage.Some?)
  }

  function AddChunks(a: Aggregate, chunks: seq<Chunk>): Aggregate {
    Fold(AddChunk, a, chunks)
  }

  ghost predicate Sorts(s: seq<int>, keys: set<int>) {
    Increasing(s) && forall x :: x in s <==> x in keys
  }

  function ChoiceOf(index: int, b: Builder): Choice {
    Choice(index, b.role, b.content, b.toolCalls, FirstNonEmpty(b.finish, "stop"))
  }

  /** The builders as choices in the order of their indexes. */
  ghost predicate InOrder(choices: seq<Choice>, m: map<int, Builder>) {
    && Sorts(Indexes(choices), m.Keys)
    && forall i :: 0 <= i < |choices| ==> choices[i].index in m && choices[i] == ChoiceOf(choices[i].index, m[choices[i].index])
  }

  function Indexes(choices: seq<Choice>): seq<int> {
    seq(|choices|, i requires 0 <= i < |choices| => choices[i].index)
  }

  /** `resp` is the response the aggregate stands for; `newId` is used when no chunk had an id. */
  ghost predicate Represents(resp: Response, a: Aggregate, newId: string) {
    && resp.id == FirstNonEmpty(a.id, newId) && resp.model == a.model && resp.usage == a.usage
    && (if a.choices == map[] then resp.choices == [EMPTY_CHOICE.(finish := "stop")] else InOrder(resp.choices, a.choices))
  }

  class StreamAggregator {
    var id: string
    var model: string
    var choices: map<int, Builder>
    var usage: Usage
    var hasUsage: bool

    function View(): Aggregate
      reads this
    {
      Aggregate(id, model, choices, usage, hasUsage)
    }

    constructor (model: string)
      ensures View() == NewAggregate(model)
    {
      id, this.model, choices, usage, hasUsage := "", model, map[], NO_USAGE, false;
    }

    method Add(chunk: Chunk)
      modifies this
      ensures View() == AddChunk(old(View()), chunk)
    {
      if chunk.id != "" {
        id := chunk.id;
      }
      if chunk.model != "" {
        model := chunk.model;
      }
      AddChoices(chunk.choices);
      if chunk.usage.Some? {
        usage, hasUsage := chunk.usage.value, true;
      }
    }

    method AddChoices(cs: seq<ChunkChoice>)
      modifies this`choices
      ensures choices == MergeChoices(old(choices), cs)
    {
      for i := 0 to |cs|
        invariant choices == MergeChoices(old(choices), cs[..i])
      {
        FoldNext(MergeChoice, old(choices), cs, i);
        AddChoice(cs[i]);
      }
      FoldAll(MergeChoice, old(choices), cs);
    }

    method AddChoice(choice: ChunkChoice)
      modifies this`choices
      ensures choices == MergeChoice(old(choices), choice)
    {
      var builder := if choice.index in choices then choices[choice.index] else NEW_BUILDER;
      if choice.delta.role != "" {
        builder := builder.(role := choice.delta.role);
      }
      builder := builder.(content := builder.content + choice.delta.content);
      if |choice.delta.toolCalls| > 0 {
        var merged := MergeToolCallDeltas(builder.toolCalls, choice.delta.toolCalls);
        builder := builder.(toolCalls := merged);
      }
      if choice.finish != "" {
        builder := builder.(finish := choice.finish);
      }
      choices := choices[choice.index := builder];
    }

    /** The response so far, its choices ordered by index. */
    method GetResponse(newId: string) returns (resp: Response)
      ensures Represents(resp, View(), newId)
    {
      var keys := choices.Keys;
      var indices := SortInts(keys);
      var made: seq<Choice> := [];
      for i := 0 to |indices|
        invariant |made| == i && forall k :: 0 <= k < i ==> made[k] == ChoiceOf(indices[k], choices[indices[k]])
      {
        assert indices[i] in indices;
        made := made + [ChoiceOf(indices[i], choices[indices[i]])];
      }
      assert Indexes(made) == indices;
      if |made| == 0 {
        assert |keys| == 0;
        made := [Choice(0, ASSISTANT, "", [], "stop")];
      } else {
        assert indices[0] in choices.Keys;
      }
      resp := Response(FirstNonEmpty(id, newId), model, made, usage);
    }
  }

  method MergeToolCallDeltas(target: seq<ToolDelta>, deltas: seq<ToolDelta>) returns (calls: seq<ToolDelta>)
    ensures calls == MergeTools(target, deltas)
  {
    calls := target;
    for i := 0 to |deltas|
      invariant calls == MergeTools(target, deltas[..i])
    {
      FoldNext(MergeTool, target, deltas, i);
      calls := MergeToolCallDelta(calls, deltas[i]);
    }
    FoldAll(MergeTool, target, deltas);
  }

  method MergeToolCallDelta(target: seq<ToolDelta>, d: ToolDelta) returns (calls: seq<ToolDelta>)
    ensures calls == MergeTool(target, d)
  {
    calls := target;
    var index := |calls|;
    if d.index.Some? && d.index.value >= 0 {
      index := d.index.value;
    }
    while |calls| <= index
      invariant Padded(calls, index + 1) == Padded(target, index + 1)
      invariant |target| <= |calls|
    {
      calls := calls + [FUNCTION_CALL];
    }
    var current := calls[index];
    if d.id != "" {
      current := current.(id := d.id);
    }
    if d.kind != "" {
      current := current.(kind := d.kind);
    }
    if current.kind == "" {
      current := current.(kind := "function");
    }
    if d.name != "" {
      current := current.(name := current.name + d.name);
    }
    if d.arguments != "" {
      current := current.(arguments := current.arguments + d.arguments);
    }
    assert current == MergedCall(calls[index], d);
    calls := calls[index := current];
  }

  method SortInts(keys: set<int>) returns (sorted: seq<int>)
    ensures Sorts(sorted, keys) && |sorted| == |keys|
  {
    sorted := [];
    var rest := keys;
    while rest != {}
      invariant rest <= keys && Sorts(sorted, keys - rest) && |sorted| + |rest| == |keys|
      decreases rest
    {
      var x := Pick(rest);
      sorted := InsertInt(sorted, x);
      rest := rest - {x};
    }
  }

  method InsertInt(sorted: seq<int>, x: int) returns (r: seq<int>)
    requires Increasing(sorted) && x !in sorted
    ensures Increasing(r) && |r| == |sorted| + 1 && forall y :: y in r <==> y in sorted || y == x
  {
    var at := 0;
    while at < |sorted| && sorted[at] < x
      invariant 0 <= at <= |sorted| && forall k :: 0 <= k < at ==> sorted[k] < x
    {
      at := at + 1;
    }
    assert at < |sorted| ==> sorted[at] in sorted;
    Inserted(sorted, at, x);
    r := sorted[..at] + [x] + sorted[at..];
  }

  lemma {:induction false} Inserted(s: seq<int>, at: nat, x: int)
    requires at <= |s| && Increasing(s)
    requires (forall k :: 0 <= k < at ==> s[k] < x) && (forall k :: at <= k < |s| ==> s[k] > x)
    ensures var r := s[..at] + [x] + s[at..]; Increasing(r) && forall y :: y in r <==> y in s || y == x
  {
    assert s == s[..at] + s[at..];
  }

  // ---- Aggregating a replay gives the response back ----

  predicate Silent(c: Choice) {
    c.content == "" && c.toolCalls == []
  }

  function Plain(calls: seq<ToolDelta>): (r: seq<ToolDelta>)
    ensures |r| == |calls|
  {
    if calls == [] then [] else Plain(calls[..|calls| - 1]) + [MergedCall(FUNCTION_CALL, calls[|calls| - 1])]
  }

  /** The builder of a choice whose content and calls arrived. */
  function BuilderOf(c: Choice): Builder {
    Builder(FirstNonEmpty(c.role, ASSISTANT), c.content, Plain(c.toolCalls), "")
  }

  /** A choice as a client gets it back: defaults filled in, calls without their positions. */
  function NormalChoice(c: Choice): Choice {
    Choice(c.index, if Silent(c) then ASSISTANT else FirstNonEmpty(c.role, ASSISTANT), c.content, Plain(c.toolCalls), FinishOf(c))
  }

  /** The calls keep their order, ids, names and arguments. */
  lemma {:induction false} PlainIs(calls: seq<ToolDelta>)
    ensures forall i :: 0 <= i < |calls| ==>
              var r := Plain(calls)[i];
              && r.index == None && r.id == calls[i].id && r.name == calls[i].name && r.arguments == calls[i].arguments
              && r.kind == if |calls[i].kind| > 0 then calls[i].kind else "function"
  {
    if calls != [] {
      PlainIs(calls[..|calls| - 1]);
    }
  }

  /** What that means: the text stays, the finish reason is `stop` if none is given, and the role and the calls are filled in. */
  lemma {:induction false} NormalIs(c: Choice)
    ensures var r := NormalChoice(c);
            && r.index == c.index && r.content == c.content && |r.toolCalls| == |c.toolCalls|
            && r.finish == (if AllBy(c.finish, IsSpace) then "stop" else Trim(c.finish))
            && r.role == (if AllBy(c.role, IsSpace) || (c.content == "" && c.toolCalls == []) then "assistant" else Trim(c.role))
            && (forall i :: 0 <= i < |c.toolCalls| ==>
                  && r.toolCalls[i].index == None && r.toolCalls[i].id == c.toolCalls[i].id && r.toolCalls[i].name == c.toolCalls[i].name
                  && r.toolCalls[i].arguments == c.toolCalls[i].arguments
                  && r.toolCalls[i].kind == if |c.toolCalls[i].kind| > 0 then c.toolCalls[i].kind else "function")
  {
    TrimByEmpty(c.finish, IsSpace);
    TrimByEmpty(c.role, IsSpace);
    PlainIs(c.toolCalls);
    hide Plain;
  }

  function NormalChoices(choices: seq<Choice>): seq<Choice> {
    seq(|choices|, i requires 0 <= i < |choices| => NormalChoice(choices[i]))
  }

  function Normal(resp: Response, includeUsage: bool, model: string, newId: string): Response {
    Response(FirstNonEmpty(resp.id, newId), if resp.model != "" then resp.model else model,
             NormalChoices(ChoicesOf(resp)), if includeUsage then resp.usage else NO_USAGE)
  }

  lemma {:induction false} PaddedOnce(calls: seq<ToolDelta>)
    ensures Padded(calls, |calls| + 1) == calls + [FUNCTION_CALL]
  {
  }

  lemma {:induction false} NumberedMerge(calls: seq<ToolDelta>)
    ensures MergeTools([], Numbered(calls)) == Plain(calls)
  {
    if calls != [] {
      var n := |calls| - 1;
      NumberedMerge(calls[..n]);
      FoldLast(MergeTool, [], Numbered(calls[..n]), calls[n].(index := Some(n)));
      PlacedLast(Plain(calls[..n]), calls[n]);
    }
  }

  lemma {:induction false} PlacedLast(calls: seq<ToolDelta>, d: ToolDelta)
    ensures MergeTool(calls, d.(index := Some(|calls|))) == calls + [MergedCall(FUNCTION_CALL, d)]
  {
    PaddedOnce(calls);
  }

  lemma {:induction false} Overwritten<K, V>(m: map<K, V>, k: K, first: V, second: V)
    ensures m[k := first][k := second] == m[k := second]
  {
  }

  lemma {:induction false} ContentMerges(m: map<int, Builder>, index: int, role: string, pieces: seq<string>)
    requires index !in m && role != "" && pieces != []
    ensures MergeChoices(m, ContentChoices(index, role, pieces)) == m[index := Builder(role, Joined(pieces), [], "")]
  {
    var n := |pieces| - 1;
    var before := ContentChoices(index, role, pieces[..n]);
    if n == 0 {
      var c := ContentChoice(index, role, pieces[0]);
      FoldOne(MergeChoice, m, c);
      assert before + [c] == [c];
      assert Built(NEW_BUILDER, c) == Builder(role, Joined(pieces), [], "");
    } else {
      ContentMerges(m, index, role, pieces[..n]);
      var c := ContentChoice(index, "", pieces[n]);
      FoldLast(MergeChoice, m, before, c);
      var b := Builder(role, Joined(pieces[..n]), [], "");
      assert Built(b, c) == Builder(role, Joined(pieces), [], "");
      Overwritten(m, index, b, Built(b, c));
    }
  }

  lemma {:induction false} RoleIsSet(role: string)
    ensures FirstNonEmpty(role, ASSISTANT) != "" && FirstNonEmpty(FirstNonEmpty(role, "stop"), "stop") == FirstNonEmpty(role, "stop")
  {
    TrimTwice(role);
    TrimTwice("stop");
  }

  function WithCalls(m: map<int, Builder>, index: int, role: string, calls: seq<ToolDelta>): Builder {
    var b := if index in m then m[index] else NEW_BUILDER;
    Builder(if role != "" then role else b.role, b.content, Plain(calls), b.finish)
  }

  /** The calls of a choice complete its builder. */
  lemma {:induction false} CallsMerge(m: map<int, Builder>, index: int, role: string, calls: seq<ToolDelta>)
    requires index in m ==> m[index].toolCalls == []
    ensures MergeChoices(m, ToolChoices(index, role, calls)) == if calls == [] then m else m[index := WithCalls(m, index, role, calls)]
  {
    if calls != [] {
      NumberedMerge(calls);
      FoldOne(MergeChoice, m, ToolChoices(index, role, calls)[0]);
      var b := if index in m then m[index] else NEW_BUILDER;
      assert b.content + "" == b.content;
    }
  }

  lemma {:induction false} ContentOfChoice(m: map<int, Builder>, index: int, role: string, content: string)
    requires index !in m && role != "" && content != ""
    ensures MergeChoices(m, ContentChoices(index, role, Cut(content, CHUNK_RUNES))) == m[index := Builder(role, content, [], "")]
  {
    var pieces := Cut(content, CHUNK_RUNES);
    CutJoins(content, CHUNK_RUNES);
    ContentMerges(m, index, role, pieces);
  }

  lemma {:induction false} SpokenParts(m: map<int, Builder>, index: int, role: string, content: string, calls: seq<ToolDelta>)
    requires index !in m && role != "" && (content != "" || calls != [])
    ensures MergeChoices(m, ContentChoices(index, role, Cut(content, CHUNK_RUNES))
                            + ToolChoices(index, if content == "" then role else "", calls))
         == m[index := Builder(role, content, Plain(calls), "")]
  {
    var spoken := ContentChoices(index, role, Cut(content, CHUNK_RUNES));
    if content == "" {
      assert spoken == [];
      assert spoken + ToolChoices(index, role, calls) == ToolChoices(index, role, calls);
      CallsMerge(m, index, role, calls);
      assert WithCalls(m, index, role, calls) == Builder(role, content, Plain(calls), "");
    } else {
      FoldAppend(MergeChoice, m, spoken, ToolChoices(index, "", calls));
      ContentOfChoice(m, index, role, content);
      var b, done := Builder(role, content, [], ""), Builder(role, content, Plain(calls), "");
      CallsMerge(m[index := b], index, "", calls);
      Overwritten(m, index, b, done);
      if calls != [] {
        assert WithCalls(m[index := b], index, "", calls) == done;
      } else {
        assert b == done;
      }
    }
  }

  lemma {:induction false} SpokenMerges(m: map<int, Builder>, c: Choice)
    requires c.index !in m
    ensures MergeChoices(m, Spoken(c)) == if Silent(c) then m else m[c.index := BuilderOf(c)]
  {
    if !Silent(c) {
      RoleIsSet(c.role);
      SpokenParts(m, c.index, FirstNonEmpty(c.role, ASSISTANT), c.content, c.toolCalls);
    }
  }

  /** The builders once the first `n` choices were spoken and the first `done` of them finished. */
  ghost predicate BuiltUpTo(m: map<int, Builder>, choices: seq<Choice>, n: nat, done: nat)
    requires done <= n <= |choices|
  {
    && (forall i :: 0 <= i < n ==> Progress(m, choices[i], i < done))
    && (forall k :: k in m ==> exists i :: 0 <= i < n && choices[i].index == k)
  }

  ghost predicate Progress(m: map<int, Builder>, c: Choice, done: bool) {
    if done then c.index in m && ChoiceOf(c.index, m[c.index]) == NormalChoice(c)
    else if Silent(c) then c.index !in m
    else c.index in m && m[c.index] == BuilderOf(c)
  }

  ghost predicate Distinct(choices: seq<Choice>) {
    forall i, j :: 0 <= i < j < |choices| ==> choices[i].index != choices[j].index
  }

  lemma {:induction false} AllSpokenBuilds(choices: seq<Choice>, n: nat)
    requires n <= |choices| && Distinct(choices)
    ensures BuiltUpTo(MergeChoices(map[], AllSpoken(choices[..n])), choices, n, 0)
  {
    if n > 0 {
      AllSpokenBuilds(choices, n - 1);
      assert choices[..n][..n - 1] == choices[..n - 1];
      var m, c := MergeChoices(map[], AllSpoken(choices[..n - 1])), choices[n - 1];
      FoldAppend(MergeChoice, map[], AllSpoken(choices[..n - 1]), Spoken(c));
      assert c.index !in m;
      SpokenMerges(m, c);
      SpokenBuilds(m, choices, n);
    }
  }

  lemma {:induction false} SpokenBuilds(m: map<int, Builder>, choices: seq<Choice>, n: nat)
    requires 0 < n <= |choices| && Distinct(choices) && BuiltUpTo(m, choices, n - 1, 0)
    ensures var c := choices[n - 1]; BuiltUpTo(if Silent(c) then m else m[c.index := BuilderOf(c)], choices, n, 0)
  {
    var c := choices[n - 1];
    assert c.index !in m;
    forall i | 0 <= i < n - 1
      ensures Progress(if Silent(c) then m else m[c.index := BuilderOf(c)], choices[i], false)
    {
      assert Progress(m, choices[i], i < 0);
    }
  }

  lemma {:induction false} FinishesBuild(m: map<int, Builder>, choices: seq<Choice>, done: nat)
    requires done <= |choices| && Distinct(choices) && BuiltUpTo(m, choices, |choices|, 0)
    ensures BuiltUpTo(MergeChoices(m, Finishes(choices[..done])), choices, |choices|, done)
  {
    hide BuiltUpTo, Distinct, MergeChoice, Fold, FinishChoice;
    if done == 0 {
      assert MergeChoices(m, Finishes(choices[..0])) == m by {
        FoldNone(MergeChoice, m);
      }
    } else {
      FinishesBuild(m, choices, done - 1);
      assert choices[..done][..done - 1] == choices[..done - 1];
      FoldLast(MergeChoice, m, Finishes(choices[..done - 1]), FinishChoice(choices[done - 1]));
      FinishBuilds(MergeChoices(m, Finishes(choices[..done - 1])), choices, done);
    }
  }

  lemma {:induction false} FinishBuilds(m: map<int, Builder>, choices: seq<Choice>, done: nat)
    requires 0 < done <= |choices| && Distinct(choices) && BuiltUpTo(m, choices, |choices|, done - 1)
    ensures BuiltUpTo(MergeChoice(m, FinishChoice(choices[done - 1])), choices, |choices|, done)
  {
    var c, m' := choices[done - 1], MergeChoice(m, FinishChoice(choices[done - 1]));
    assert Progress(m, c, done - 1 < done - 1);
    ChoiceFinished(m, c);
    OneMoreDone(m, choices, done, m'[c.index]);
  }

  lemma {:induction false} OneMoreDone(m: map<int, Builder>, choices: seq<Choice>, done: nat, b: Builder)
    requires 0 < done <= |choices| && Distinct(choices) && BuiltUpTo(m, choices, |choices|, done - 1)
    requires Progress(m[choices[done - 1].index := b], choices[done - 1], true)
    ensures BuiltUpTo(m[choices[done - 1].index := b], choices, |choices|, done)
  {
    var c, m' := choices[done - 1], m[choices[done - 1].index := b];
    forall i | 0 <= i < |choices| ensures Progress(m', choices[i], i < done) {
      assert Progress(m, choices[i], i < done - 1);
      assert i != done - 1 ==> choices[i].index != c.index;
    }
  }

  lemma {:induction false} ChoiceFinished(m: map<int, Builder>, c: Choice)
    requires Progress(m, c, false)
    ensures Progress(MergeChoice(m, FinishChoice(c)), c, true)
  {
    RoleIsSet(c.finish);
    FinishSet(c.finish);
    assert Silent(c) ==> Plain(c.toolCalls) == [];
  }

  lemma {:induction false} FinishSet(finish: string)
    ensures FirstNonEmpty(finish, "stop") != ""
  {
  }

  lemma {:induction false} SameIndexes(got: seq<Choice>, m: map<int, Builder>, choices: seq<Choice>, k: int)
    requires BuiltUpTo(m, choices, |choices|, |choices|) && InOrder(got, m)
    ensures k in Indexes(got) <==> k in Indexes(choices)
  {
    hide NormalChoice, ChoiceOf;
    var a, b := Indexes(got), Indexes(choices);
    if k in b {
      var i :| 0 <= i < |b| && b[i] == k;
      assert Progress(m, choices[i], true);
      assert k in m.Keys;
    }
    if k in a {
      assert k in m.Keys;
      var i :| 0 <= i < |choices| && choices[i].index == k;
      assert b[i] == k;
    }
  }

  /** Sorting the indexes again changes nothing exactly when they were increasing. */
  lemma {:induction false} InOrderIsNormal(got: seq<Choice>, m: map<int, Builder>, choices: seq<Choice>)
    requires Increasing(Indexes(choices)) && BuiltUpTo(m, choices, |choices|, |choices|) && InOrder(got, m)
    ensures got == NormalChoices(choices)
  {
    var a, b := Indexes(got), Indexes(choices);
    forall k ensures k in a <==> k in b {
      SameIndexes(got, m, choices, k);
    }
    SameIncreasing(a, b);
    forall i | 0 <= i < |choices| ensures got[i] == NormalChoice(choices[i]) {
      assert a[i] == b[i];
      assert Progress(m, choices[i], true);
    }
  }

  /** `a` with the id and model of `resp`, where it has them, and other builders. */
  function Headed(a: Aggregate, resp: Response, m: map<int, Builder>): Aggregate {
    Aggregate(if resp.id != "" then resp.id else a.id, if resp.model != "" then resp.model else a.model, m, a.usage, a.hasUsage)
  }

  lemma {:induction false} WrappedAdds(a: Aggregate, resp: Response, cs: seq<ChunkChoice>)
    requires cs != []
    ensures AddChunks(a, Wrapped(resp, cs)) == Headed(a, resp, MergeChoices(a.choices, cs))
  {
    var n := |cs| - 1;
    var last := Chunk(resp.id, resp.model, [cs[n]], None);
    var before := Wrapped(resp, cs[..n]);
    if n > 0 {
      WrappedAdds(a, resp, cs[..n]);
    }
    FoldLast(AddChunk, a, before, last);
    FoldNext(MergeChoice, a.choices, cs, n);
    FoldAll(MergeChoice, a.choices, cs);
    OneChoice(AddChunks(a, before), resp, cs[n]);
  }

  lemma {:induction false} OneChoice(a: Aggregate, resp: Response, c: ChunkChoice)
    ensures AddChunk(a, Chunk(resp.id, resp.model, [c], None)) == Headed(a, resp, MergeChoice(a.choices, c))
  {
    FoldOne(MergeChoice, a.choices, c);
  }

  function BuildersAfter(m: map<int, Builder>, choices: seq<Choice>): map<int, Builder> {
    MergeChoices(MergeChoices(m, AllSpoken(choices)), Finishes(choices))
  }

  /** The chunk with the usage comes last. */
  lemma {:induction false} UsageAdds(a: Aggregate, resp: Response)
    ensures AddChunk(a, Chunk(resp.id, resp.model, [], Some(resp.usage)))
         == Headed(a, resp, a.choices).(usage := resp.usage, hasUsage := true)
  {
    assert MergeChoices(a.choices, []) == a.choices;
  }

  lemma {:induction false} HeadedTwice(a: Aggregate, resp: Response, m: map<int, Builder>)
    ensures var b := Headed(a, resp, m);
            Headed(b, resp, b.choices) == b && b.choices == m && b.usage == a.usage && b.hasUsage == a.hasUsage
  {
  }

  lemma {:induction false} ChoicesAdd(a: Aggregate, resp: Response)
    ensures var choices := ChoicesOf(resp);
            AddChunks(a, Wrapped(resp, AllSpoken(choices) + Finishes(choices))) == Headed(a, resp, BuildersAfter(a.choices, choices))
  {
    var choices := ChoicesOf(resp);
    assert |Finishes(choices)| > 0;
    hide MergeChoice, Headed, Wrapped, AddChunk, AddChunks;
    WrappedAdds(a, resp, AllSpoken(choices) + Finishes(choices));
    FoldAppend(MergeChoice, a.choices, AllSpoken(choices), Finishes(choices));
    hide AllSpoken, Finishes;
  }

  lemma {:induction false} ReplayedAdds(a: Aggregate, resp: Response, includeUsage: bool)
    ensures AddChunks(a, Replayed(resp, includeUsage))
         == Headed(a, resp, BuildersAfter(a.choices, ChoicesOf(resp)))
            .(usage := if includeUsage then resp.usage else a.usage, hasUsage := includeUsage || a.hasUsage)
  {
    var choices := ChoicesOf(resp);
    var chunks := Wrapped(resp, AllSpoken(choices) + Finishes(choices));
    var before := Headed(a, resp, BuildersAfter(a.choices, choices));
    ChoicesAdd(a, resp);
    hide Wrapped, AllSpoken, Finishes, ChoicesOf, AddChunk, BuildersAfter, Headed;
    HeadedTwice(a, resp, BuildersAfter(a.choices, choices));
    if includeUsage {
      FoldLast(AddChunk, a, chunks, Chunk(resp.id, resp.model, [], Some(resp.usage)));
      UsageAdds(before, resp);
    } else {
      assert chunks + [] == chunks;
    }
  }

  lemma {:induction false} AllBuilt(choices: seq<Choice>)
    requires Distinct(choices)
    ensures BuiltUpTo(BuildersAfter(map[], choices), choices, |choices|, |choices|)
  {
    assert choices[..|choices|] == choices;
    AllSpokenBuilds(choices, |choices|);
    FinishesBuild(MergeChoices(map[], AllSpoken(choices)), choices, |choices|);
  }

  lemma {:induction false} ChoicesComeBack(choices: seq<Choice>, got: seq<Choice>)
    requires InOrder(got, BuildersAfter(map[], choices))
    ensures got == NormalChoices(choices) <==> Increasing(Indexes(choices))
  {
    assert Indexes(NormalChoices(choices)) == Indexes(choices);
    if Increasing(Indexes(choices)) {
      assert forall i :: 0 <= i < |choices| ==> Indexes(choices)[i] == choices[i].index;
      AllBuilt(choices);
      InOrderIsNormal(got, BuildersAfter(map[], choices), choices);
    }
  }

  /**
     Aggregating the replay of a response gives the response back, up to its
     defaults, exactly when the indexes of its choices increase.
   */
  lemma {:induction false} ReplayThenAggregate(resp: Response, includeUsage: bool, model: string, newId: string, got: Response)
    requires Represents(got, AddChunks(NewAggregate(model), Replayed(resp, includeUsage)), newId)
    ensures got == Normal(resp, includeUsage, model, newId) <==> Increasing(Indexes(ChoicesOf(resp)))
    ensures AddChunks(NewAggregate(model), Replayed(resp, includeUsage)).hasUsage == includeUsage
  {
    var choices := ChoicesOf(resp);
    ReplayedAdds(NewAggregate(model), resp, includeUsage);
    LastIsKept(MergeChoices(map[], AllSpoken(choices)), Finishes(choices));
    ChoicesComeBack(choices, got.choices);
    BlankId(resp.id, newId);
  }

  function Answer(index: int): Choice {
    Choice(index, ASSISTANT, "answer", [], "stop")
  }

  /** Two choices in the other order, for one, come back sorted. */
  lemma {:induction false} SecondChoiceFirst(includeUsage: bool, model: string, newId: string, got: Response)
    requires var resp := Response("chat_1", "model", [Answer(1), Answer(0)], NO_USAGE);
             Represents(got, AddChunks(NewAggregate(model), Replayed(resp, includeUsage)), newId)
    ensures var resp := Response("chat_1", "model", [Answer(1), Answer(0)], NO_USAGE);
            got != Normal(resp, includeUsage, model, newId)
  {
    var resp := Response("chat_1", "model", [Answer(1), Answer(0)], NO_USAGE);
    hide Represents, AddChunks, Replayed, Normal;
    ReplayThenAggregate(resp, includeUsage, model, newId, got);
    assert Indexes(ChoicesOf(resp))[0] == 1 && Indexes(ChoicesOf(resp))[1] == 0;
  }

  lemma {:induction false} BlankId(id: string, newId: string)
    ensures FirstNonEmpty(if id != "" then id else "", newId) == FirstNonEmpty(id, newId)
  {
  }

  lemma {:induction false} LastIsKept(m: map<int, Builder>, cs: seq<ChunkChoice>)
    requires cs != []
    ensures MergeChoices(m, cs) != map[]
  {
    var n := |cs| - 1;
    FoldNext(MergeChoice, m, cs, n);
    FoldAll(MergeChoice, m, cs);
    assert cs[n].index in MergeChoices(m, cs);
  }
}
