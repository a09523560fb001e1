/** The rule accelerator: patterns travel as lines, and a scan reports which patterns occur in a text. */
module Accelerator {
  // An engine's `accepts` says which patterns it can compile; a pattern it accepts
  // matches as `matches` says.

  import opened Options
  import opened Folds

  const MAX_REJECTED := 256
  const RECORD_SIZE := 12
  const PAGE := 4096

  // ---- Patterns as lines ----

  predicate SafePattern(p: string) {
    '\n' !in p && '\r' !in p
  }

  function Blanked(p: string): string {
    if SafePattern(p) then p else ""
  }

  /** The patterns one per line; one that is not safe becomes a blank line. */
  function Join(patterns: seq<string>): string {
    if patterns == [] then "" else Blanked(patterns[0]) + "\n" + Join(patterns[1..])
  }

  function WithoutReturns(line: string): string {
    if line != "" && line[|line| - 1] == '\r' then WithoutReturns(line[..|line| - 1]) else line
  }

  /** Where the first line ends; the length when there is no line break. */
  function LineEnd(s: string): (n: nat)
    ensures n <= |s| && '\n' !in s[..n] && (n < |s| ==> s[n] == '\n')
  {
    if s == "" || s[0] == '\n' then 0
    else
      var n := LineEnd(s[1..]);
      assert s[..n + 1] == [s[0]] + s[1..][..n];
      n + 1
  }

  /** The lines of a text without their ends; a final line break starts no line. */
  function Lines(s: string): seq<string>
    decreases |s|
  {
    if s == "" then []
    else
      var n := LineEnd(s);
      [WithoutReturns(s[..n])] + if n == |s| then [] else Lines(s[n + 1..])
  }

  lemma {:induction false} LineEndAt(p: string, rest: string)
    requires '\n' !in p
    ensures LineEnd(p + "\n" + rest) == |p|
  {
    var s := p + "\n" + rest;
    if p != "" {
      assert s[1..] == p[1..] + "\n" + rest;
      LineEndAt(p[1..], rest);
    }
  }

  function BlankedAll(patterns: seq<string>): seq<string> {
    seq(|patterns|, i requires 0 <= i < |patterns| => Blanked(patterns[i]))
  }

  lemma {:induction false} FirstLine(p: string, rest: string)
    requires SafePattern(p)
    ensures Lines(p + "\n" + rest) == [p] + Lines(rest)
  {
    var s := p + "\n" + rest;
    LineEndAt(p, rest);
    assert s[..|p|] == p && s[|p| + 1..] == rest;
    assert rest == "" ==> [WithoutReturns(p)] + [] == [p] + Lines(rest);
  }

  lemma {:induction false} BlankedFirst(patterns: seq<string>)
    requires patterns != []
    ensures BlankedAll(patterns) == [Blanked(patterns[0])] + BlankedAll(patterns[1..])
  {
  }

  /** Both engines see the same pattern under the same number. */
  lemma {:induction false} LinesOfJoin(patterns: seq<string>)
    ensures Lines(Join(patterns)) == BlankedAll(patterns)
  {
    if patterns != [] {
      FirstLine(Blanked(patterns[0]), Join(patterns[1..]));
      LinesOfJoin(patterns[1..]);
      BlankedFirst(patterns);
      hide Lines, BlankedAll;
    }
  }

  lemma {:induction false} JoinLast(patterns: seq<string>, p: string)
    ensures Join(patterns + [p]) == Join(patterns) + Blanked(p) + "\n"
  {
    if patterns == [] {
      assert [p][1..] == [];
    } else {
      assert (patterns + [p])[1..] == patterns[1..] + [p];
      JoinLast(patterns[1..], p);
    }
  }

  /** The numbers of the patterns that are not safe. */
  function UnsafeNumbers(patterns: seq<string>): seq<nat> {
    if patterns == [] then []
    else
      var n := |patterns| - 1;
      UnsafeNumbers(patterns[..n]) + if SafePattern(patterns[n]) then [] else [n]
  }

  method JoinPatterns(patterns: seq<string>) returns (config: string, rejected: seq<nat>)
    ensures config == Join(patterns) && rejected == UnsafeNumbers(patterns)
  {
    config, rejected := "", [];
    for i := 0 to |patterns|
      invariant config == Join(patterns[..i]) && rejected == UnsafeNumbers(patterns[..i])
    {
      assert patterns[..i + 1][..i] == patterns[..i];
      var p := patterns[i];
      if !SafePattern(p) {
        rejected := rejected + [i];
        p := "";
      }
      JoinLast(patterns[..i], patterns[i]);
      assert patterns[..i] + [patterns[i]] == patterns[..i + 1];
      config := config + p + "\n";
    }
    assert patterns[..|patterns|] == patterns;
  }

  // ---- The scanner ----

  /** The numbers of the lines the engine rejects, at most `room` of them. */
  function RejectedLines(lines: seq<string>, accepts: string -> bool, room: nat): seq<nat> {
    if lines == [] then []
    else
      var n := |lines| - 1;
      var before := RejectedLines(lines[..n], accepts, room);
      if lines[n] != "" && !accepts(lines[n]) && |before| < room then before + [n] else before
  }

  method ScannerValidate(config: string, accepts: string -> bool, room: nat) returns (failed: seq<nat>)
    ensures failed == RejectedLines(Lines(config), accepts, room)
  {
    failed := [];
    var lines := Lines(config);
    for i := 0 to |lines|
      invariant failed == RejectedLines(lines[..i], accepts, room)
    {
      assert lines[..i + 1][..i] == lines[..i];
      if lines[i] != "" && !accepts(lines[i]) && |failed| < room {
        failed := failed + [i];
      }
    }
    assert lines[..|lines|] == lines;
  }

  /** The pattern of a line, or None for one that never matches. */
  function Compiled(line: string, accepts: string -> bool): Option<string> {
    if line != "" && accepts(line) then Some(line) else None
  }

  function CompiledAll(lines: seq<string>, accepts: string -> bool): seq<Option<string>> {
    seq(|lines|, i requires 0 <= i < |lines| => Compiled(lines[i], accepts))
  }

  method ScannerNew(config: string, accepts: string -> bool) returns (patterns: seq<Option<string>>)
    ensures patterns == CompiledAll(Lines(config), accepts)
  {
    patterns := [];
    var lines := Lines(config);
    for i := 0 to |lines|
      invariant patterns == CompiledAll(lines[..i], accepts)
    {
      var compiled := if lines[i] == "" then None else if accepts(lines[i]) then Some(lines[i]) else None;
      patterns := patterns + [compiled];
    }
    assert lines[..|lines|] == lines;
  }

  predicate Occurs(pattern: Option<string>, text: string, matches: (string, string) -> bool) {
    pattern.Some? && matches(pattern.value, text)
  }

  /** The numbers of the patterns that occur, in order, cut off at `room`. */
  function Hits(patterns: seq<Option<string>>, text: string, matches: (string, string) -> bool, room: nat): (hits: seq<nat>)
    ensures |hits| <= |patterns| && |hits| <= room
    ensures forall i :: 0 <= i < |hits| ==> hits[i] < |patterns|
  {
    if patterns == [] then []
    else
      var n := |patterns| - 1;
      var before := Hits(patterns[..n], text, matches, room);
      if |before| < room && Occurs(patterns[n], text, matches) then before + [n] else before
  }

  lemma {:induction false} FullStays(patterns: seq<Option<string>>, text: string, matches: (string, string) -> bool, room: nat, i: nat)
    requires i <= |patterns| && |Hits(patterns[..i], text, matches, room)| >= room
    ensures Hits(patterns, text, matches, room) == Hits(patterns[..i], text, matches, room)
  {
    if i < |patterns| {
      var n := |patterns| - 1;
      assert patterns[..n][..i] == patterns[..i];
      FullStays(patterns[..n], text, matches, room, i);
    } else {
      assert patterns[..i] == patterns;
    }
  }

  method ScanFirst(patterns: seq<Option<string>>, text: string, matches: (string, string) -> bool, room: nat) returns (hits: seq<nat>)
    ensures hits == Hits(patterns, text, matches, room)
  {
    hits := [];
    var i := 0;
    while i < |patterns| && |hits| < room
      invariant 0 <= i <= |patterns| && hits == Hits(patterns[..i], text, matches, room)
    {
      assert patterns[..i + 1][..i] == patterns[..i];
      if Occurs(patterns[i], text, matches) {
        hits := hits + [i];
      }
      i := i + 1;
    }
    if i < |patterns| {
      FullStays(patterns, text, matches, room, i);
    }
    assert patterns[..|patterns|] == patterns;
  }

  // ---- The buffers of an instance ----

  /** The size of the buffers for a text of this length. */
  function Capacity(size: nat): nat {
    var required := if size < PAGE then PAGE else size;
    var output := size / 2 + PAGE;
    var larger := if output > required then output else required;
    (larger + PAGE - 1) / PAGE * PAGE
  }

  /** Whole pages, enough for the text, for half as much again of matches and one page more, and no page too many. */
  lemma {:induction false} CapacityIs(size: nat)
    ensures Capacity(size) % 4096 == 0 && Capacity(size) >= size && Capacity(size) >= size / 2 + 4096
    ensures Capacity(size) < size + 4096 || Capacity(size) < size / 2 + 4096 + 4096
  {
    RoundedUp(if size / 2 + PAGE > size then size / 2 + PAGE else size);
  }

  class Instance {
    const patterns: seq<Option<string>>
    var ready: bool
    var bufferSize: nat

    constructor (patterns: seq<Option<string>>)
      ensures this.patterns == patterns && !ready && bufferSize == 0
    {
      this.patterns, ready, bufferSize := patterns, false, 0;
    }

    /** Grows the buffers when the text or its matches might not fit. */
    method EnsureBuffers(size: nat)
      modifies this
      ensures ready && bufferSize >= size && bufferSize >= size / 2 + PAGE
      ensures bufferSize == old(bufferSize) || bufferSize == Capacity(size)
      ensures old(ready) ==> bufferSize >= old(bufferSize)
    {
      var required := size;
      var output := size / 2 + PAGE;
      if required < PAGE {
        required := PAGE;
      }
      if ready && required <= bufferSize && output <= bufferSize {
        return;
      }
      var capacity := required;
      if output > capacity {
        capacity := output;
      }
      RoundedUp(capacity);
      bufferSize := (capacity + PAGE - 1) / PAGE * PAGE;
      ready := true;
    }

    method Scan(text: string, matches: (string, string) -> bool) returns (hits: seq<nat>)
      modifies this
      ensures hits == Hits(patterns, text, matches, bufferSize / RECORD_SIZE)
      ensures ready && bufferSize >= |text| / 2 + PAGE && (old(ready) ==> bufferSize >= old(bufferSize))
    {
      EnsureBuffers(|text|);
      hits := ScanFirst(patterns, text, matches, bufferSize / RECORD_SIZE);
    }
  }

  lemma {:induction false} RoundedUp(n: nat)
    ensures n <= (n + PAGE - 1) / PAGE * PAGE < n + PAGE
    ensures (n + PAGE - 1) / PAGE * PAGE % PAGE == 0
  {
  }

  /** How many patterns occur in a text. */
  function Occurrences(patterns: seq<Option<string>>, text: string, matches: (string, string) -> bool): (n: nat)
    ensures n <= |patterns|
  {
    if patterns == [] then 0
    else Occurrences(patterns[..|patterns| - 1], text, matches) + if Occurs(patterns[|patterns| - 1], text, matches) then 1 else 0
  }

  function Min(a: nat, b: nat): nat {
    if a < b then a else b
  }

  lemma {:induction false} HitsCount(patterns: seq<Option<string>>, text: string, matches: (string, string) -> bool, room: nat)
    ensures |Hits(patterns, text, matches, room)| == Min(Occurrences(patterns, text, matches), room)
  {
    if patterns != [] {
      HitsCount(patterns[..|patterns| - 1], text, matches, room);
    }
  }

  /** A pattern is reported exactly when it occurs and fewer patterns than there is room for occur before it. */
  lemma {:induction false} HitsAre(patterns: seq<Option<string>>, text: string, matches: (string, string) -> bool, room: nat)
    ensures forall i: nat :: i in Hits(patterns, text, matches, room) <==>
                             i < |patterns| && Occurs(patterns[i], text, matches) && Occurrences(patterns[..i], text, matches) < room
  {
    if patterns != [] {
      var n := |patterns| - 1;
      var before := Hits(patterns[..n], text, matches, room);
      HitsAre(patterns[..n], text, matches, room);
      HitsCount(patterns[..n], text, matches, room);
      forall i: nat
        ensures i in Hits(patterns, text, matches, room) <==>
                i < |patterns| && Occurs(patterns[i], text, matches) && Occurrences(patterns[..i], text, matches) < room
      {
        if i < n {
          assert patterns[..n][..i] == patterns[..i];
        }
      }
    }
  }

  /** The patterns the accelerator rejects: lines its engine refuses, the first few of them, and patterns that are not safe. */
  method ValidatePatterns(patterns: seq<string>, accepts: string -> bool) returns (rejected: seq<nat>)
    ensures rejected == RejectedLines(BlankedAll(patterns), accepts, MAX_REJECTED) + UnsafeNumbers(patterns)
  {
    var config, unsafe := JoinPatterns(patterns);
    var failed := ScannerValidate(config, accepts, MAX_REJECTED);
    LinesOfJoin(patterns);
    rejected := failed + unsafe;
  }

  method NewScanner(patterns: seq<string>, accepts: string -> bool) returns (instance: Instance)
    ensures fresh(instance) && instance.patterns == CompiledAll(BlankedAll(patterns), accepts)
    ensures instance.ready && instance.bufferSize == Capacity(PAGE)
  {
    var config, unsafe := JoinPatterns(patterns);
    LinesOfJoin(patterns);
    var compiled := ScannerNew(config, accepts);
    instance := new Instance(compiled);
    instance.EnsureBuffers(PAGE);
  }

  lemma {:induction false} UnsafeNumbersAre(patterns: seq<string>)
    ensures forall i: nat :: i in UnsafeNumbers(patterns) <==> i < |patterns| && !SafePattern(patterns[i])
  {
    if patterns != [] {
      UnsafeNumbersAre(patterns[..|patterns| - 1]);
    }
  }

  predicate Refused(line: string, accepts: string -> bool) {
    line != "" && !accepts(line)
  }

  /** How many lines the engine refuses. */
  function RefusedCount(lines: seq<string>, accepts: string -> bool): nat {
    if lines == [] then 0
    else RefusedCount(lines[..|lines| - 1], accepts) + if Refused(lines[|lines| - 1], accepts) then 1 else 0
  }

  /** A line is reported exactly when it is refused and fewer lines than there is room for are refused before it. */
  lemma {:induction false} RejectedAre(lines: seq<string>, accepts: string -> bool, room: nat)
    ensures |RejectedLines(lines, accepts, room)| == Min(RefusedCount(lines, accepts), room)
    ensures forall i: nat :: i in RejectedLines(lines, accepts, room) <==>
                             i < |lines| && Refused(lines[i], accepts) && RefusedCount(lines[..i], accepts) < room
  {
    if lines != [] {
      var n := |lines| - 1;
      RejectedAre(lines[..n], accepts, room);
      forall i: nat
        ensures i in RejectedLines(lines, accepts, room) <==>
                i < |lines| && Refused(lines[i], accepts) && RefusedCount(lines[..i], accepts) < room
      {
        if i < n {
          assert lines[..n][..i] == lines[..i];
        }
      }
    }
  }

  lemma {:induction false} RefusedGrows(lines: seq<string>, accepts: string -> bool, i: nat)
    requires i <= |lines|
    ensures RefusedCount(lines[..i], accepts) <= RefusedCount(lines, accepts)
    ensures i < |lines| && Refused(lines[i], accepts) ==> RefusedCount(lines[..i], accepts) < RefusedCount(lines, accepts)
  {
    if i < |lines| {
      var n := |lines| - 1;
      assert lines[..n][..i] == lines[..i];
      RefusedGrows(lines[..n], accepts, i);
    } else {
      assert lines[..i] == lines;
    }
  }
}
