/** Custom guardrail rules: run one by one, or with an accelerator and the remaining ones one by one. */
module Guardrails {
  import opened Options
  import opened Texts
  import opened Accelerator
  import opened Ascending

  datatype Rule = Rule(name: string, stage: string, pattern: string, action: string, message: string,
                       fallback: string, provider: string, retries: int)
  datatype Result = Result(kind: string, action: string, message: string, details: string,
                           fallback: string, provider: string, retries: int)

  const BOTH := "both"
  const INPUT := "input"
  const OUTPUT := "output"

  function ResultOf(r: Rule): Result {
    Result(r.name, r.action, r.message, r.pattern, r.fallback, r.provider, r.retries)
  }

  // ---- Rules one by one ----

  /** A text to check in a stage, and the engine that matches patterns. */
  datatype Query = Query(stage: string, text: string, matches: (string, string) -> bool)

  predicate ForStage(r: Rule, stage: string) {
    r.stage == BOTH || r.stage == stage
  }

  predicate Triggers(r: Rule, q: Query) {
    ForStage(r, q.stage) && q.matches(r.pattern, q.text)
  }

  /** The results of running every rule. */
  function Plain(rules: seq<Rule>, q: Query): seq<Result> {
    if rules == [] then []
    else
      var r := rules[|rules| - 1];
      Plain(rules[..|rules| - 1], q) + if Triggers(r, q) then [ResultOf(r)] else []
  }

  /** The result says what the rule says. */
  predicate Carries(result: Result, r: Rule) {
    && result.kind == r.name && result.action == r.action && result.message == r.message && result.details == r.pattern
    && result.fallback == r.fallback && result.provider == r.provider && result.retries == r.retries
  }

  /** The rules at `picked`, in order, are those of the stage, or of both, whose pattern matches, and these are their results. */
  ghost predicate Lists(results: seq<Result>, rules: seq<Rule>, q: Query, picked: seq<nat>) {
    && Increasing(picked) && |results| == |picked|
    && (forall i: nat :: i in picked <==>
          i < |rules| && (rules[i].stage == "both" || rules[i].stage == q.stage) && q.matches(rules[i].pattern, q.text))
    && (forall k :: 0 <= k < |results| ==> picked[k] < |rules| && Carries(results[k], rules[picked[k]]))
  }

  ghost predicate Listed(results: seq<Result>, rules: seq<Rule>, q: Query) {
    exists picked: seq<nat> :: Lists(results, rules, q, picked)
  }

  /** Running every rule gives one result for each rule that applies, in their order. */
  lemma {:induction false} PlainLists(rules: seq<Rule>, q: Query)
    ensures Listed(Plain(rules, q), rules, q)
  {
    if rules == [] {
      assert Lists([], [], q, []);
    } else {
      var n := |rules| - 1;
      PlainLists(rules[..n], q);
      var picked :| Lists(Plain(rules[..n], q), rules[..n], q, picked);
      var picked' := if Triggers(rules[n], q) then picked + [n] else picked;
      ListsMore(Plain(rules[..n], q), rules, q, picked);
      assert Lists(Plain(rules, q), rules, q, picked');
    }
  }

  /** There is only one such list. */
  lemma {:induction false} ListedOnce(a: seq<Result>, b: seq<Result>, rules: seq<Rule>, q: Query)
    requires Listed(a, rules, q) && Listed(b, rules, q)
    ensures a == b
  {
    var x: seq<nat> :| Lists(a, rules, q, x);
    var y: seq<nat> :| Lists(b, rules, q, y);
    OnePicked(a, b, rules, q, x, y);
  }

  lemma {:induction false} OnePicked(a: seq<Result>, b: seq<Result>, rules: seq<Rule>, q: Query, x: seq<nat>, y: seq<nat>)
    requires Lists(a, rules, q, x) && Lists(b, rules, q, y)
    ensures a == b
  {
    assert x == y by {
      hide Carries, Increasing;
      forall k: int ensures k in x <==> k in y {
        assert k in x ==> k >= 0;
        assert k in y ==> k >= 0;
      }
      SameIncreasing(x, y);
    }
    hide Increasing;
    forall k | 0 <= k < |a| ensures a[k] == b[k] {
      assert Carries(a[k], rules[x[k]]) && Carries(b[k], rules[x[k]]);
    }
  }

  /** These are, in some order, the results of the rules that apply. */
  ghost predicate ListedInSomeOrder(results: seq<Result>, rules: seq<Rule>, q: Query) {
    exists plain :: Listed(plain, rules, q) && multiset(results) == multiset(plain)
  }

  lemma {:induction false} InSomeOrder(results: seq<Result>, rules: seq<Rule>, q: Query)
    ensures ListedInSomeOrder(results, rules, q) <==> multiset(results) == multiset(Plain(rules, q))
  {
    PlainLists(rules, q);
    hide Plain, Listed;
    if ListedInSomeOrder(results, rules, q) {
      var plain :| Listed(plain, rules, q) && multiset(results) == multiset(plain);
      ListedOnce(plain, Plain(rules, q), rules, q);
    }
  }

  lemma {:induction false} ListsMore(results: seq<Result>, rules: seq<Rule>, q: Query, picked: seq<nat>)
    requires rules != [] && Lists(results, rules[..|rules| - 1], q, picked)
    ensures var n := |rules| - 1;
            if Triggers(rules[n], q) then Lists(results + [ResultOf(rules[n])], rules, q, picked + [n])
            else Lists(results, rules, q, picked)
    ensures results + [] == results
  {
    var n := |rules| - 1;
    forall k | 0 <= k < |picked| ensures picked[k] < n && rules[..n][picked[k]] == rules[picked[k]] {
      assert picked[k] in picked;
    }
    forall i: nat | i < n ensures rules[..n][i] == rules[i] {
    }
  }

  method AppendRegexMatches(triggered: seq<Result>, rules: seq<Rule>, q: Query)
    returns (all: seq<Result>)
    ensures all == triggered + Plain(rules, q) && Listed(all[|triggered|..], rules, q)
  {
    all := triggered;
    for i := 0 to |rules|
      invariant all == triggered + Plain(rules[..i], q)
    {
      assert rules[..i + 1][..i] == rules[..i];
      var r := rules[i];
      if r.stage != BOTH && r.stage != q.stage {
        continue;
      }
      if !q.matches(r.pattern, q.text) {
        continue;
      }
      all := all + [ResultOf(r)];
    }
    assert rules[..|rules|] == rules;
    PlainLists(rules, q);
    assert all[|triggered|..] == Plain(rules, q);
  }

  // ---- Sharing the rules out ----

  function InputPattern(r: Rule): string {
    if Lower(r.stage) == INPUT || Lower(r.stage) == BOTH then r.pattern else ""
  }

  function OutputPattern(r: Rule): string {
    if Lower(r.stage) == OUTPUT || Lower(r.stage) == BOTH then r.pattern else ""
  }

  function InputPatterns(rules: seq<Rule>): (patterns: seq<string>)
    ensures |patterns| == |rules|
  {
    seq(|rules|, i requires 0 <= i < |rules| => InputPattern(rules[i]))
  }

  function OutputPatterns(rules: seq<Rule>): (patterns: seq<string>)
    ensures |patterns| == |rules|
  {
    seq(|rules|, i requires 0 <= i < |rules| => OutputPattern(rules[i]))
  }

  function AllPatterns(rules: seq<Rule>): seq<string> {
    InputPatterns(rules) + OutputPatterns(rules)
  }

  function Rejected(rules: seq<Rule>, accepts: string -> bool): seq<nat> {
    RejectedLines(BlankedAll(AllPatterns(rules)), accepts, MAX_REJECTED) + UnsafeNumbers(AllPatterns(rules))
  }

  /** Whether the accelerator takes this rule over. */
  predicate Taken(rules: seq<Rule>, rejected: seq<nat>, i: nat)
    requires i < |rules|
  {
    i !in rejected && i + |rules| !in rejected && SafePattern(rules[i].pattern)
  }

  function Flags(rules: seq<Rule>, rejected: seq<nat>): (flags: seq<bool>)
    ensures |flags| == |rules|
  {
    seq(|rules|, i requires 0 <= i < |rules| => Taken(rules, rejected, i))
  }

  /** The patterns of some rules, blank for the others. */
  function Chosen(patterns: seq<string>, flags: seq<bool>, taken: bool): (chosen: seq<string>)
    requires |patterns| == |flags|
    ensures |chosen| == |patterns|
  {
    seq(|patterns|, i requires 0 <= i < |patterns| => if flags[i] == taken then patterns[i] else "")
  }

  /** The rules with a pattern for some stage. */
  function Retained(rules: seq<Rule>, a: seq<string>, b: seq<string>): seq<Rule>
    requires |rules| == |a| == |b|
  {
    if rules == [] then []
    else
      var n := |rules| - 1;
      Retained(rules[..n], a[..n], b[..n]) + if a[n] != "" || b[n] != "" then [rules[n]] else []
  }

  method RetainGoRules(rules: seq<Rule>, a: seq<string>, b: seq<string>) returns (kept: seq<Rule>)
    requires |rules| == |a| == |b|
    ensures kept == Retained(rules, a, b)
  {
    kept := [];
    for i := 0 to |rules|
      invariant kept == Retained(rules[..i], a[..i], b[..i])
    {
      assert rules[..i + 1][..i] == rules[..i] && a[..i + 1][..i] == a[..i] && b[..i + 1][..i] == b[..i];
      if a[i] != "" || b[i] != "" {
        kept := kept + [rules[i]];
      }
    }
    assert rules[..|rules|] == rules && a[..|a|] == a && b[..|b|] == b;
  }

  /** An engine: the rules it runs itself, and the scanners with the rules behind them. */
  datatype Engine = Engine(rules: seq<Rule>, compiled: seq<Rule>, accelRules: seq<Rule>,
                           scanInput: Option<seq<Option<string>>>, scanOutput: Option<seq<Option<string>>>)

  function PlainEngine(rules: seq<Rule>): Engine {
    Engine(rules, rules, [], None, None)
  }

  function Accelerated(rules: seq<Rule>, accepts: string -> bool): Engine {
    var flags := Flags(rules, Rejected(rules, accepts));
    var a, b := Chosen(InputPatterns(rules), flags, true), Chosen(OutputPatterns(rules), flags, true);
    Engine(rules,
           if false in flags
           then Retained(rules, Chosen(InputPatterns(rules), flags, false), Chosen(OutputPatterns(rules), flags, false))
           else [],
           Retained(rules, a, b),
           Some(CompiledAll(BlankedAll(a), accepts)), Some(CompiledAll(BlankedAll(b), accepts)))
  }

  /** The results for the matches of a scan: each rule of the stage once, unknown numbers skipped. */
  function Reported(rules: seq<Rule>, hits: seq<nat>, stage: string): seq<Result> {
    if hits == [] then []
    else
      var before, i := Reported(rules, hits[..|hits| - 1], stage), hits[|hits| - 1];
      if i < |rules| && ForStage(rules[i], stage) && i !in hits[..|hits| - 1] then before + [ResultOf(rules[i])] else before
  }

  /** The results of an evaluation; `broken` says that the scan failed. */
  function Evaluated(e: Engine, q: Query, broken: bool, room: nat): seq<Result> {
    var scan := if q.stage == INPUT then e.scanInput else e.scanOutput;
    (if scan.None? || q.text == "" then []
     else if broken then Plain(e.accelRules, q)
     else Reported(e.rules, Hits(scan.value, q.text, q.matches, room), q.stage))
    + Plain(e.compiled, q)
  }

  // ---- The accelerated results are those of the plain rules ----

  /** Some of the rules. */
  function Select(rules: seq<Rule>, flags: seq<bool>, taken: bool): seq<Rule>
    requires |rules| == |flags|
  {
    if rules == [] then []
    else
      var n := |rules| - 1;
      Select(rules[..n], flags[..n], taken) + if flags[n] == taken then [rules[n]] else []
  }

  lemma {:induction false} SplitStep(all: seq<Result>, a: seq<Result>, b: seq<Result>, more: seq<Result>)
    requires multiset(all) == multiset(a) + multiset(b)
    ensures multiset(all + more) == multiset(a + more) + multiset(b) == multiset(a) + multiset(b + more)
  {
  }

  lemma {:induction false} SelectSplits(rules: seq<Rule>, flags: seq<bool>, q: Query)
    requires |rules| == |flags|
    ensures multiset(Plain(rules, q)) == multiset(Plain(Select(rules, flags, true), q)) + multiset(Plain(Select(rules, flags, false), q))
  {
    if rules != [] {
      var n := |rules| - 1;
      SelectSplits(rules[..n], flags[..n], q);
      var taken, left := Select(rules[..n], flags[..n], true), Select(rules[..n], flags[..n], false);
      PlainLast(taken, rules[n], q);
      PlainLast(left, rules[n], q);
      SplitStep(Plain(rules[..n], q), Plain(taken, q), Plain(left, q), if Triggers(rules[n], q) then [ResultOf(rules[n])] else []);
      SelectLast(rules, flags, true);
      SelectLast(rules, flags, false);
    }
  }

  lemma {:induction false} PlainLast(rules: seq<Rule>, r: Rule, q: Query)
    ensures Plain(rules + [r], q) == if Triggers(r, q) then Plain(rules, q) + [ResultOf(r)] else Plain(rules, q)
  {
    assert (rules + [r])[..|rules|] == rules;
    assert Plain(rules, q) + [] == Plain(rules, q);
  }

  lemma {:induction false} SelectLast(rules: seq<Rule>, flags: seq<bool>, taken: bool)
    requires |rules| == |flags| > 0
    ensures var n := |rules| - 1;
            var before := Select(rules[..n], flags[..n], taken);
            Select(rules, flags, taken) == if flags[n] == taken then before + [rules[n]] else before
  {
    var n := |rules| - 1;
    assert Select(rules[..n], flags[..n], taken) + [] == Select(rules[..n], flags[..n], taken);
  }

  lemma {:induction false} RetainedLast(rules: seq<Rule>, a: seq<string>, b: seq<string>)
    requires |rules| == |a| == |b| > 0
    ensures var n := |rules| - 1;
            var before := Retained(rules[..n], a[..n], b[..n]);
            Retained(rules, a, b) == if a[n] != "" || b[n] != "" then before + [rules[n]] else before
  {
    var n := |rules| - 1;
    assert Retained(rules[..n], a[..n], b[..n]) + [] == Retained(rules[..n], a[..n], b[..n]);
  }

  /** A rule that triggers in a stage has a pattern for it. */
  lemma {:induction false} StagePattern(r: Rule, stage: string)
    requires (stage == INPUT || stage == OUTPUT) && (r.stage == BOTH || r.stage == stage)
    ensures stage == INPUT ==> InputPattern(r) == r.pattern
    ensures stage == OUTPUT ==> OutputPattern(r) == r.pattern
  {
    assert Lower(BOTH) == BOTH && Lower(INPUT) == INPUT && Lower(OUTPUT) == OUTPUT;
  }

  /** Leaving out rules that do not trigger changes nothing. */
  lemma {:induction false} RetainedIsSelected(rules: seq<Rule>, flags: seq<bool>, taken: bool, q: Query)
    requires |rules| == |flags| && (q.stage == INPUT || q.stage == OUTPUT)
    requires forall i :: 0 <= i < |rules| ==> rules[i].pattern != ""
    ensures Plain(Retained(rules, Chosen(InputPatterns(rules), flags, taken), Chosen(OutputPatterns(rules), flags, taken)), q)
         == Plain(Select(rules, flags, taken), q)
  {
    if rules != [] {
      var n := |rules| - 1;
      var r := rules[n];
      var a, b := Chosen(InputPatterns(rules), flags, taken), Chosen(OutputPatterns(rules), flags, taken);
      assert a[..n] == Chosen(InputPatterns(rules[..n]), flags[..n], taken);
      assert b[..n] == Chosen(OutputPatterns(rules[..n]), flags[..n], taken);
      RetainedIsSelected(rules[..n], flags[..n], taken, q);
      RetainedLast(rules, a, b);
      SelectLast(rules, flags, taken);
      PlainLast(Select(rules[..n], flags[..n], taken), r, q);
      PlainLast(Retained(rules[..n], a[..n], b[..n]), r, q);
      if ForStage(r, q.stage) {
        StagePattern(r, q.stage);
      }
    }
  }

  function StagePatterns(rules: seq<Rule>, stage: string): seq<string> {
    if stage == INPUT then InputPatterns(rules) else OutputPatterns(rules)
  }

  /** The patterns the scan reports: those that occur while there is room for their records. */
  function Found(patterns: seq<Option<string>>, q: Query, room: nat): (found: seq<bool>)
    ensures |found| == |patterns|
  {
    seq(|patterns|, i requires 0 <= i < |patterns| =>
      Occurs(patterns[i], q.text, q.matches) && Occurrences(patterns[..i], q.text, q.matches) < room)
  }

  lemma {:induction false} FoundBefore(patterns: seq<Option<string>>, q: Query, room: nat)
    requires patterns != []
    ensures Found(patterns, q, room)[..|patterns| - 1] == Found(patterns[..|patterns| - 1], q, room)
  {
    var n := |patterns| - 1;
    forall i | 0 <= i < n ensures Found(patterns, q, room)[i] == Found(patterns[..n], q, room)[i] {
      assert patterns[..n][..i] == patterns[..i];
    }
  }

  /** A scanner with the patterns of these rules, or none, under their numbers. */
  ghost predicate Scans(rules: seq<Rule>, patterns: seq<Option<string>>, stage: string) {
    && |rules| == |patterns|
    && forall i :: 0 <= i < |rules| && ForStage(rules[i], stage) ==> patterns[i].None? || patterns[i].value == rules[i].pattern
  }

  /** The scan reports, in order, the rules it found that trigger. */
  lemma {:induction false} ReportedIsFound(rules: seq<Rule>, patterns: seq<Option<string>>, q: Query, room: nat)
    requires Scans(rules, patterns, q.stage)
    ensures Reported(rules, Hits(patterns, q.text, q.matches, room), q.stage) == Plain(Select(rules, Found(patterns, q, room), true), q)
  {
    if rules != [] {
      var n := |rules| - 1;
      var before, found := Hits(patterns[..n], q.text, q.matches, room), Found(patterns, q, room);
      ReportedIsFound(rules[..n], patterns[..n], q, room);
      FoundBefore(patterns, q, room);
      ReportedBefore(rules, n, before, q.stage);
      SelectLast(rules, found, true);
      PlainLast(Select(rules[..n], found[..n], true), rules[n], q);
      ReportedLast(rules, before, n, q.stage);
      HitsCount(patterns[..n], q.text, q.matches, room);
      assert n !in before;
      hide Plain, Select, Reported;
    } else {
      assert Select(rules, Found(patterns, q, room), true) == [];
    }
  }

  lemma {:induction false} ReportedLast(rules: seq<Rule>, hits: seq<nat>, n: nat, stage: string)
    requires n < |rules| && n !in hits
    ensures Reported(rules, hits + [n], stage)
         == if ForStage(rules[n], stage) then Reported(rules, hits, stage) + [ResultOf(rules[n])] else Reported(rules, hits, stage)
  {
    assert (hits + [n])[..|hits|] == hits;
  }

  lemma {:induction false} ReportedBefore(rules: seq<Rule>, n: nat, hits: seq<nat>, stage: string)
    requires n <= |rules| && forall i :: 0 <= i < |hits| ==> hits[i] < n
    ensures Reported(rules, hits, stage) == Reported(rules[..n], hits, stage)
  {
    if hits != [] {
      ReportedBefore(rules, n, hits[..|hits| - 1], stage);
    }
  }

  /** The results that neither the scan nor Go gives: of rules taken over, not found, that trigger. */
  function LostCount(rules: seq<Rule>, flags: seq<bool>, found: seq<bool>, q: Query): nat
    requires |rules| == |flags| == |found|
  {
    if rules == [] then 0
    else
      var n := |rules| - 1;
      LostCount(rules[..n], flags[..n], found[..n], q) + if flags[n] && !found[n] && Triggers(rules[n], q) then 1 else 0
  }

  ghost predicate NothingLost(rules: seq<Rule>, flags: seq<bool>, found: seq<bool>, q: Query)
    requires |rules| == |flags| == |found|
  {
    forall i :: 0 <= i < |rules| && flags[i] && Triggers(rules[i], q) ==> found[i]
  }

  lemma {:induction false} LostCounts(rules: seq<Rule>, flags: seq<bool>, found: seq<bool>, q: Query)
    requires |rules| == |flags| == |found| && forall i :: 0 <= i < |rules| && found[i] ==> flags[i]
    ensures |Plain(Select(rules, found, false), q)| == |Plain(Select(rules, flags, false), q)| + LostCount(rules, flags, found, q)
    ensures LostCount(rules, flags, found, q) == 0 ==> Plain(Select(rules, found, false), q) == Plain(Select(rules, flags, false), q)
  {
    if rules != [] {
      var n := |rules| - 1;
      LostCounts(rules[..n], flags[..n], found[..n], q);
      SelectLast(rules, found, false);
      SelectLast(rules, flags, false);
      PlainLast(Select(rules[..n], found[..n], false), rules[n], q);
      PlainLast(Select(rules[..n], flags[..n], false), rules[n], q);
      hide Plain, Select;
    }
  }

  lemma {:induction false} LostNone(rules: seq<Rule>, flags: seq<bool>, found: seq<bool>, q: Query)
    requires |rules| == |flags| == |found|
    ensures NothingLost(rules, flags, found, q) <==> LostCount(rules, flags, found, q) == 0
  {
    if rules != [] {
      var n := |rules| - 1;
      LostNone(rules[..n], flags[..n], found[..n], q);
      assert forall i :: 0 <= i < n ==> rules[..n][i] == rules[i] && flags[..n][i] == flags[i] && found[..n][i] == found[i];
    }
  }

  /** The scanner of a stage. */
  function ScannerOf(rules: seq<Rule>, accepts: string -> bool, stage: string): seq<Option<string>> {
    CompiledAll(BlankedAll(Chosen(StagePatterns(rules, stage), Flags(rules, Rejected(rules, accepts)), true)), accepts)
  }

  function PatternTaken(rules: seq<Rule>, accepts: string -> bool, i: nat): Option<string>
    requires i < |rules|
  {
    if Taken(rules, Rejected(rules, accepts), i) && accepts(rules[i].pattern) then Some(rules[i].pattern) else None
  }

  /** The scanner has the pattern of a rule of the stage exactly when the rule is taken over and its engine accepts it. */
  lemma {:induction false} ScannerHolds(rules: seq<Rule>, accepts: string -> bool, stage: string, i: nat)
    requires i < |rules| && (stage == INPUT || stage == OUTPUT) && rules[i].pattern != ""
    ensures |ScannerOf(rules, accepts, stage)| == |rules|
    ensures ScannerOf(rules, accepts, stage)[i].Some? ==> Taken(rules, Rejected(rules, accepts), i)
    ensures ForStage(rules[i], stage) ==> ScannerOf(rules, accepts, stage)[i] == PatternTaken(rules, accepts, i)
  {
    if ForStage(rules[i], stage) {
      StagePattern(rules[i], stage);
    }
  }

  /** Without rules left to Go every rule is taken over. */
  lemma {:induction false} AllTaken(rules: seq<Rule>, flags: seq<bool>)
    requires |rules| == |flags| && forall i :: 0 <= i < |flags| ==> flags[i]
    ensures Select(rules, flags, false) == []
  {
    if rules != [] {
      AllTaken(rules[..|rules| - 1], flags[..|rules| - 1]);
    }
  }

  lemma {:induction false} GoPart(rules: seq<Rule>, accepts: string -> bool, q: Query)
    requires (q.stage == INPUT || q.stage == OUTPUT) && forall i :: 0 <= i < |rules| ==> rules[i].pattern != ""
    ensures var flags := Flags(rules, Rejected(rules, accepts));
            && Plain(Accelerated(rules, accepts).compiled, q) == Plain(Select(rules, flags, false), q)
            && Plain(Accelerated(rules, accepts).accelRules, q) == Plain(Select(rules, flags, true), q)
  {
    var flags := Flags(rules, Rejected(rules, accepts));
    RetainedIsSelected(rules, flags, true, q);
    RetainedIsSelected(rules, flags, false, q);
    if false !in flags {
      AllTaken(rules, flags);
    }
  }

  /** When the scan fails, the rules taken over are run one by one and nothing is lost. */
  lemma {:induction false} FailedScanIsPlain(rules: seq<Rule>, accepts: string -> bool, q: Query, room: nat)
    requires (q.stage == INPUT || q.stage == OUTPUT) && forall i :: 0 <= i < |rules| ==> rules[i].pattern != ""
    requires q.text != ""
    ensures multiset(Evaluated(Accelerated(rules, accepts), q, true, room)) == multiset(Plain(rules, q))
  {
    GoPart(rules, accepts, q);
    SelectSplits(rules, Flags(rules, Rejected(rules, accepts)), q);
  }

  /** The scan can answer for rule `i`: its engine accepts the pattern, and there is room for its record. */
  predicate Answered(rules: seq<Rule>, accepts: string -> bool, q: Query, room: nat, i: nat)
    requires i < |rules|
  {
    && accepts(rules[i].pattern)
    && i <= |ScannerOf(rules, accepts, q.stage)| && Occurrences(ScannerOf(rules, accepts, q.stage)[..i], q.text, q.matches) < room
  }

  /** No rule that triggers was taken over by a scan that cannot answer for it. */
  ghost predicate AllAnswered(rules: seq<Rule>, accepts: string -> bool, q: Query, room: nat) {
    forall i :: 0 <= i < |rules| && Taken(rules, Rejected(rules, accepts), i) && Triggers(rules[i], q) ==> Answered(rules, accepts, q, room, i)
  }

  lemma {:induction false} FoundIsAnswered(rules: seq<Rule>, accepts: string -> bool, q: Query, room: nat)
    requires (q.stage == INPUT || q.stage == OUTPUT) && forall i :: 0 <= i < |rules| ==> rules[i].pattern != ""
    ensures var patterns, flags := ScannerOf(rules, accepts, q.stage), Flags(rules, Rejected(rules, accepts));
            && |patterns| == |rules|
            && Scans(rules, patterns, q.stage)
            && (forall i :: 0 <= i < |rules| && Found(patterns, q, room)[i] ==> flags[i])
            && (NothingLost(rules, flags, Found(patterns, q, room), q) <==> AllAnswered(rules, accepts, q, room))
  {
    forall i | 0 <= i < |rules|
      ensures |ScannerOf(rules, accepts, q.stage)| == |rules|
      ensures ScannerOf(rules, accepts, q.stage)[i].Some? ==> Taken(rules, Rejected(rules, accepts), i)
      ensures ForStage(rules[i], q.stage) ==> ScannerOf(rules, accepts, q.stage)[i] == PatternTaken(rules, accepts, i)
    {
      ScannerHolds(rules, accepts, q.stage, i);
    }
    hide ScannerOf, Taken;
    var found, flags := Found(ScannerOf(rules, accepts, q.stage), q, room), Flags(rules, Rejected(rules, accepts));
    forall i | 0 <= i < |rules| && flags[i] && Triggers(rules[i], q) ensures found[i] <==> Answered(rules, accepts, q, room, i) {
    }
  }

  /**
     For a text that is not empty the accelerated results are those of running
     every rule, in some order, exactly when the scan can answer for every rule
     taken over that triggers. A rule is lost when its engine refuses the pattern
     although validation did not report it, or when the records are used up by
     patterns before it.
   */
  lemma {:induction false} AcceleratedIsPlainWhen(rules: seq<Rule>, accepts: string -> bool, q: Query, room: nat)
    requires (q.stage == INPUT || q.stage == OUTPUT) && forall i :: 0 <= i < |rules| ==> rules[i].pattern != ""
    requires q.text != ""
    ensures multiset(Evaluated(Accelerated(rules, accepts), q, false, room)) == multiset(Plain(rules, q))
            <==> AllAnswered(rules, accepts, q, room)
  {
    hide Plain, Select, Reported, NothingLost, LostCount, AllAnswered, Found, Scans, Hits;
    var patterns, flags := ScannerOf(rules, accepts, q.stage), Flags(rules, Rejected(rules, accepts));
    var found := Found(patterns, q, room);
    FoundIsAnswered(rules, accepts, q, room);
    GoPart(rules, accepts, q);
    ReportedIsFound(rules, patterns, q, room);
    SelectSplits(rules, found, q);
    LostCounts(rules, flags, found, q);
    LostNone(rules, flags, found, q);
    SameMultisets(Plain(Select(rules, found, true), q), Plain(Select(rules, flags, false), q), Plain(Select(rules, found, false), q));
    assert Evaluated(Accelerated(rules, accepts), q, false, room)
        == Plain(Select(rules, found, true), q) + Plain(Select(rules, flags, false), q);
  }

  lemma {:induction false} SameMultisets(a: seq<Result>, b: seq<Result>, c: seq<Result>)
    ensures multiset(a + b) == multiset(a) + multiset(c) ==> |b| == |c|
    ensures b == c ==> multiset(a + b) == multiset(a) + multiset(c)
  {
    assert |multiset(a + b)| == |a| + |b|;
    assert |multiset(a) + multiset(c)| == |a| + |c|;
  }

  /**
     Validation misses a pattern the accelerator's engine refuses, and the rule is
     taken over, exactly when it had reported 256 others before each of its lines.
   */
  lemma {:induction false} MissedWhenFull(rules: seq<Rule>, accepts: string -> bool, i: nat)
    requires i < |rules| && !accepts(rules[i].pattern) && rules[i].pattern != ""
    ensures var lines, n := BlankedAll(AllPatterns(rules)), |rules|;
            Taken(rules, Rejected(rules, accepts), i)
            <==> && SafePattern(rules[i].pattern)
                 && (InputPattern(rules[i]) != "" ==> RefusedCount(lines[..i], accepts) >= MAX_REJECTED)
                 && (OutputPattern(rules[i]) != "" ==> RefusedCount(lines[..i + n], accepts) >= MAX_REJECTED)
  {
    var all, p := AllPatterns(rules), rules[i].pattern;
    assert all[i] == InputPattern(rules[i]) && all[i + |rules|] == OutputPattern(rules[i]);
    hide AllPatterns, BlankedAll, RejectedLines, UnsafeNumbers, RefusedCount, Lower;
    if SafePattern(p) {
      assert SafePattern("");
      hide SafePattern;
      RejectedAt(all, accepts, i);
      RejectedAt(all, accepts, i + |rules|);
    }
  }

  /** A safe pattern is rejected exactly when it is refused and one of the first that are. */
  lemma {:induction false} RejectedAt(patterns: seq<string>, accepts: string -> bool, k: nat)
    requires k < |patterns| && SafePattern(patterns[k])
    ensures var lines := BlankedAll(patterns);
            && |lines| == |patterns|
            && (k in RejectedLines(lines, accepts, MAX_REJECTED) + UnsafeNumbers(patterns)
                <==> Refused(patterns[k], accepts) && RefusedCount(lines[..k], accepts) < MAX_REJECTED)
  {
    RejectedAre(BlankedAll(patterns), accepts, MAX_REJECTED);
    UnsafeNumbersAre(patterns);
    LineOf(patterns, k, patterns[k]);
    hide RejectedLines, UnsafeNumbers, RefusedCount, BlankedAll, SafePattern, Refused;
  }


  /** What the accelerator's engine refuses among the patterns of the rules. */
  function RefusedPatterns(rules: seq<Rule>, accepts: string -> bool): nat {
    RefusedCount(BlankedAll(AllPatterns(rules)), accepts)
  }

  /** Within both limits nothing is lost: at most 256 refused patterns, and no more rules than records. */
  lemma {:induction false} AcceleratedIsPlain(rules: seq<Rule>, accepts: string -> bool, q: Query, broken: bool, room: nat)
    requires (q.stage == INPUT || q.stage == OUTPUT) && forall i :: 0 <= i < |rules| ==> rules[i].pattern != ""
    requires q.text != "" && RefusedPatterns(rules, accepts) <= MAX_REJECTED && |rules| <= room
    ensures multiset(Evaluated(Accelerated(rules, accepts), q, broken, room)) == multiset(Plain(rules, q))
  {
    if broken {
      FailedScanIsPlain(rules, accepts, q, room);
    } else {
      AcceleratedIsPlainWhen(rules, accepts, q, room);
      forall i | 0 <= i < |rules| && Taken(rules, Rejected(rules, accepts), i) && Triggers(rules[i], q)
        ensures Answered(rules, accepts, q, room, i)
      {
        ScannerHolds(rules, accepts, q.stage, i);
        if !accepts(rules[i].pattern) {
          MissedNone(rules, accepts, q.stage, i);
        }
      }
    }
  }

  lemma {:induction false} MissedNone(rules: seq<Rule>, accepts: string -> bool, stage: string, i: nat)
    requires i < |rules| && rules[i].pattern != "" && (stage == INPUT || stage == OUTPUT) && ForStage(rules[i], stage)
    requires !accepts(rules[i].pattern) && RefusedPatterns(rules, accepts) <= MAX_REJECTED
    ensures !Taken(rules, Rejected(rules, accepts), i)
  {
    MissedWhenFull(rules, accepts, i);
    StageLine(rules, stage, i);
    hide Taken, Rejected, RefusedCount, BlankedAll, AllPatterns, InputPattern, OutputPattern, ForStage, Lower, SafePattern;
    if Taken(rules, Rejected(rules, accepts), i) {
      var j := if stage == INPUT then i else i + |rules|;
      RefusedGrows(BlankedAll(AllPatterns(rules)), accepts, j);
      LineOf(AllPatterns(rules), j, rules[i].pattern);
    }
  }

  /** Where the pattern of a rule of the stage is among those of all rules. */
  lemma {:induction false} StageLine(rules: seq<Rule>, stage: string, i: nat)
    requires i < |rules| && (stage == INPUT || stage == OUTPUT) && ForStage(rules[i], stage)
    ensures var j := if stage == INPUT then i else i + |rules|;
            && j < |AllPatterns(rules)| && AllPatterns(rules)[j] == rules[i].pattern
            && (if stage == INPUT then InputPattern(rules[i]) else OutputPattern(rules[i])) == rules[i].pattern
  {
    StagePattern(rules[i], stage);
    hide InputPattern, OutputPattern;
  }

  lemma {:induction false} LineOf(patterns: seq<string>, j: nat, p: string)
    requires j < |patterns| && patterns[j] == p && SafePattern(p)
    ensures |BlankedAll(patterns)| == |patterns| && BlankedAll(patterns)[j] == p
  {
  }

  // ---- Inputs at which rules are lost ----

  function Copies(r: Rule, n: nat): seq<Rule> {
    seq(n, i => r)
  }

  predicate Never(pattern: string) {
    false
  }

  predicate Always(pattern: string, text: string) {
    true
  }

  const SECRET := Rule("words", INPUT, "secret", "deny", "", "", "", 0)

  lemma {:induction false} SecretPatterns()
    ensures InputPattern(SECRET) == "secret" && OutputPattern(SECRET) == ""
  {
    assert Lower(INPUT) == INPUT;
  }

  lemma {:induction false} CopiesRefused(lines: seq<string>, n: nat)
    requires n <= |lines| && forall i :: 0 <= i < n ==> lines[i] != ""
    ensures RefusedCount(lines[..n], Never) == n
  {
    if n > 0 {
      CopiesRefused(lines, n - 1);
      assert lines[..n][..n - 1] == lines[..n - 1];
    }
  }

  /** With 257 rules whose patterns the accelerator refuses, the last one is never evaluated. */
  lemma {:induction false} OneTooMany()
    ensures var q := Query(INPUT, "a secret", Always);
            var rules := Copies(SECRET, 257);
            multiset(Evaluated(Accelerated(rules, Never), q, false, 682)) != multiset(Plain(rules, q))
  {
    var q, rules := Query(INPUT, "a secret", Always), Copies(SECRET, 257);
    var all := AllPatterns(rules);
    var lines := BlankedAll(all);
    SecretPatterns();
    assert SafePattern("secret");
    hide InputPattern, OutputPattern, Lower, SafePattern, Evaluated, Accelerated, Plain, Rejected, RefusedCount, ScannerOf;
    forall i | 0 <= i < 257 ensures lines[i] != "" {
      assert all[i] == "secret";
    }
    CopiesRefused(lines, 256);
    MissedWhenFull(rules, Never, 256);
    assert Triggers(rules[256], q);
    AcceleratedIsPlainWhen(rules, Never, q, 682);
    assert !Answered(rules, Never, q, 682, 256);
  }

  /** For an empty text the results agree exactly when no rule taken over triggers on it. */
  lemma {:induction false} EmptyText(rules: seq<Rule>, accepts: string -> bool, q: Query, broken: bool, room: nat)
    requires (q.stage == INPUT || q.stage == OUTPUT) && forall i :: 0 <= i < |rules| ==> rules[i].pattern != ""
    requires q.text == ""
    ensures multiset(Evaluated(Accelerated(rules, accepts), q, broken, room)) == multiset(Plain(rules, q))
            <==> forall i :: 0 <= i < |rules| && Taken(rules, Rejected(rules, accepts), i) ==> !Triggers(rules[i], q)
  {
    var flags := Flags(rules, Rejected(rules, accepts));
    GoPart(rules, accepts, q);
    SelectSplits(rules, flags, q);
    NoneTriggers(rules, flags, q);
    assert |multiset(Plain(Select(rules, flags, true), q))| == |Plain(Select(rules, flags, true), q)|;
  }

  ghost predicate Silent(rules: seq<Rule>, flags: seq<bool>, q: Query)
    requires |rules| == |flags|
  {
    forall i :: 0 <= i < |rules| && flags[i] ==> !Triggers(rules[i], q)
  }

  lemma {:induction false} SilentLast(rules: seq<Rule>, flags: seq<bool>, q: Query)
    requires |rules| == |flags| > 0
    ensures var n := |rules| - 1;
            Silent(rules, flags, q) <==> Silent(rules[..n], flags[..n], q) && !(flags[n] && Triggers(rules[n], q))
  {
    var n := |rules| - 1;
    hide Triggers;
    assert forall i :: 0 <= i < n ==> rules[..n][i] == rules[i] && flags[..n][i] == flags[i];
  }

  lemma {:induction false} NoneTriggers(rules: seq<Rule>, flags: seq<bool>, q: Query)
    requires |rules| == |flags|
    ensures Plain(Select(rules, flags, true), q) == [] <==> Silent(rules, flags, q)
  {
    if rules != [] {
      var n := |rules| - 1;
      hide Plain, Select, Triggers, Silent;
      NoneTriggers(rules[..n], flags[..n], q);
      SilentLast(rules, flags, q);
      SelectLast(rules, flags, true);
      PlainLast(Select(rules[..n], flags[..n], true), rules[n], q);
    }
  }

  predicate Any(pattern: string) {
    true
  }

  /** An engine that accepts every pattern takes every rule over whose pattern is safe. */
  lemma {:induction false} AllAccepted(rules: seq<Rule>)
    requires forall i :: 0 <= i < |rules| ==> SafePattern(rules[i].pattern)
    ensures forall i :: 0 <= i < |rules| ==> Taken(rules, Rejected(rules, Any), i)
  {
    var all := AllPatterns(rules);
    RejectedAre(BlankedAll(all), Any, MAX_REJECTED);
    UnsafeNumbersAre(all);
    assert SafePattern("");
    hide RejectedLines, UnsafeNumbers, RefusedCount, BlankedAll, Lower, SafePattern;
    forall k | 0 <= k < |all| ensures SafePattern(all[k]) {
    }
  }

  /** How many of the first `n` rules trigger and are left to a scanner that accepts their patterns. */
  function Wanted(rules: seq<Rule>, accepts: string -> bool, q: Query, n: nat): nat
    requires n <= |rules|
  {
    if n == 0 then 0
    else
      Wanted(rules, accepts, q, n - 1)
      + if Taken(rules, Rejected(rules, accepts), n - 1) && accepts(rules[n - 1].pattern) && Triggers(rules[n - 1], q) then 1 else 0
  }

  /** Each of them takes a record. */
  lemma {:induction false} WantedOccur(rules: seq<Rule>, accepts: string -> bool, q: Query, n: nat)
    requires (q.stage == INPUT || q.stage == OUTPUT) && forall i :: 0 <= i < |rules| ==> rules[i].pattern != ""
    requires n <= |rules|
    ensures var patterns := ScannerOf(rules, accepts, q.stage);
            |patterns| == |rules| && Wanted(rules, accepts, q, n) <= Occurrences(patterns[..n], q.text, q.matches)
  {
    var patterns := ScannerOf(rules, accepts, q.stage);
    if n == 0 {
      ScannerSize(rules, accepts, q.stage);
    } else {
      hide ScannerOf, Taken, Rejected;
      WantedOccur(rules, accepts, q, n - 1);
      ScannerHolds(rules, accepts, q.stage, n - 1);
      assert patterns[..n][..n - 1] == patterns[..n - 1];
    }
  }

  lemma {:induction false} ScannerSize(rules: seq<Rule>, accepts: string -> bool, stage: string)
    ensures |ScannerOf(rules, accepts, stage)| == |rules|
  {
  }

  /** One of more rules than there are records is not answered. */
  lemma {:induction false} OneUnanswered(rules: seq<Rule>, accepts: string -> bool, q: Query, room: nat, n: nat)
    requires (q.stage == INPUT || q.stage == OUTPUT) && forall i :: 0 <= i < |rules| ==> rules[i].pattern != ""
    requires n <= |rules| && Wanted(rules, accepts, q, n) > room
    ensures !AllAnswered(rules, accepts, q, room)
  {
    hide ScannerOf, Taken, Rejected, Triggers, Occurrences;
    if Wanted(rules, accepts, q, n - 1) > room {
      OneUnanswered(rules, accepts, q, room, n - 1);
    } else {
      WantedOccur(rules, accepts, q, n - 1);
      assert Taken(rules, Rejected(rules, accepts), n - 1) && Triggers(rules[n - 1], q);
      assert !Answered(rules, accepts, q, room, n - 1);
    }
  }

  /** When more of the rules left to the scanner trigger than there are records, some result is lost. */
  lemma {:induction false} RecordsRunOut(rules: seq<Rule>, accepts: string -> bool, q: Query, room: nat)
    requires (q.stage == INPUT || q.stage == OUTPUT) && forall i :: 0 <= i < |rules| ==> rules[i].pattern != ""
    requires q.text != "" && Wanted(rules, accepts, q, |rules|) > room
    ensures multiset(Evaluated(Accelerated(rules, accepts), q, false, room)) != multiset(Plain(rules, q))
  {
    hide Wanted, AllAnswered, Evaluated, Accelerated, Plain;
    OneUnanswered(rules, accepts, q, room, |rules|);
    AcceleratedIsPlainWhen(rules, accepts, q, room);
  }

  lemma {:induction false} AllWanted(rules: seq<Rule>, q: Query, n: nat)
    requires n <= |rules| && forall i :: 0 <= i < |rules| ==> SafePattern(rules[i].pattern) && Triggers(rules[i], q)
    ensures Wanted(rules, Any, q, n) == n
  {
    if n > 0 {
      AllAccepted(rules);
      hide SafePattern, Triggers, Taken, Rejected;
      AllWanted(rules, q, n - 1);
    }
  }

  lemma {:induction false} SecretTriggers(text: string)
    ensures SafePattern(SECRET.pattern) && SECRET.pattern != "" && Triggers(SECRET, Query(INPUT, text, Always))
  {
  }

  lemma {:induction false} FirstRoom()
    ensures Capacity(PAGE) / RECORD_SIZE == 682
  {
  }

  /** The buffers an instance starts with have room for 682 records; of 683 rules that trigger one is lost. */
  lemma {:induction false} OneRecordShort()
    ensures var q, rules := Query(INPUT, "a secret", Always), Copies(SECRET, 683);
            multiset(Evaluated(Accelerated(rules, Any), q, false, Capacity(PAGE) / RECORD_SIZE)) != multiset(Plain(rules, q))
  {
    hide SafePattern, Triggers, Evaluated, Accelerated, Plain, Wanted, Capacity;
    var q, rules := Query(INPUT, "a secret", Always), Copies(SECRET, 683);
    SecretTriggers("a secret");
    FirstRoom();
    AllWanted(rules, q, 683);
    RecordsRunOut(rules, Any, q, 682);
  }

  /** A rule whose pattern matches the empty text is lost on it as soon as the accelerator takes the rule over. */
  lemma {:induction false} EmptyTextLoses()
    ensures var q, rules := Query(INPUT, "", Always), Copies(SECRET, 1);
            multiset(Evaluated(Accelerated(rules, Any), q, false, 682)) != multiset(Plain(rules, q))
  {
    var q, rules := Query(INPUT, "", Always), Copies(SECRET, 1);
    assert SafePattern("secret");
    hide Taken, Rejected, Evaluated, Accelerated, Plain, Lower, SafePattern;
    AllAccepted(rules);
    EmptyText(rules, Any, q, false, 682);
    assert Triggers(rules[0], q);
  }

  predicate ValidAction(action: string) {
    Lower(Trim(action)) in {"deny", "warn", "log", "redact", "retry", "reroute", "fallback"}
  }

  /** The rules an engine keeps: named, with a pattern that compiles, and with the defaults filled in. */
  function Usable(rules: seq<Rule>, compiles: string -> bool): (r: seq<Rule>)
    ensures forall i :: 0 <= i < |r| ==> r[i].pattern != ""
  {
    if rules == [] then []
    else
      var before, rule := Usable(rules[..|rules| - 1], compiles), rules[|rules| - 1];
      if Trim(rule.name) == "" || Trim(rule.pattern) == "" || !compiles(rule.pattern) then before
      else before + [WithDefaults(rule)]
  }

  function WithDefaults(r: Rule): (r': Rule)
    ensures r'.pattern == r.pattern
  {
    r.(stage := if r.stage == "" then BOTH else r.stage,
       action := if ValidAction(r.action) then r.action else "deny",
       message := if r.message == "" then "Custom guardrail triggered: " + r.name else r.message)
  }

  predicate Blank(s: string) {
    AllBy(s, IsSpace)
  }

  /** The rules at `picked`, in order, are those an engine can run, and these are they with what they left open filled in. */
  ghost predicate Keeps(kept: seq<Rule>, rules: seq<Rule>, compiles: string -> bool, picked: seq<nat>) {
    && Increasing(picked) && |kept| == |picked|
    && (forall i: nat :: i in picked <==> i < |rules| && Runs(rules[i], compiles))
    && (forall k :: 0 <= k < |kept| ==> picked[k] < |rules| && Filled(kept[k], rules[picked[k]]))
  }

  ghost predicate KeepsThose(kept: seq<Rule>, rules: seq<Rule>, compiles: string -> bool) {
    exists picked: seq<nat> :: Keeps(kept, rules, compiles, picked)
  }

  /** An open stage means both, an unknown action denies, and an open message names the rule. */
  predicate Filled(r': Rule, r: Rule) {
    && r'.name == r.name && r'.pattern == r.pattern
    && r'.fallback == r.fallback && r'.provider == r.provider && r'.retries == r.retries
    && r'.stage == (if r.stage != "" then r.stage else "both")
    && r'.action == (if ValidAction(r.action) then r.action else "deny")
    && r'.message == (if r.message != "" then r.message else "Custom guardrail triggered: " + r.name)
  }

  lemma {:induction false} UsableKeeps(rules: seq<Rule>, compiles: string -> bool) returns (picked: seq<nat>)
    ensures Keeps(Usable(rules, compiles), rules, compiles, picked)
  {
    if rules == [] {
      picked := [];
    } else {
      var n := |rules| - 1;
      picked := UsableKeeps(rules[..n], compiles);
      TrimBlank(rules[n].name);
      TrimBlank(rules[n].pattern);
      KeepsMore(Usable(rules[..n], compiles), rules, compiles, picked);
      if Runs(rules[n], compiles) {
        picked := picked + [n];
      }
    }
  }

  /** Whether an engine can run the rule. */
  predicate Runs(r: Rule, compiles: string -> bool) {
    !Blank(r.name) && !Blank(r.pattern) && compiles(r.pattern)
  }

  lemma {:induction false} KeepsMore(kept: seq<Rule>, rules: seq<Rule>, compiles: string -> bool, picked: seq<nat>)
    requires rules != [] && Keeps(kept, rules[..|rules| - 1], compiles, picked)
    ensures var n := |rules| - 1;
            if Runs(rules[n], compiles) then Keeps(kept + [WithDefaults(rules[n])], rules, compiles, picked + [n])
            else Keeps(kept, rules, compiles, picked)
  {
    var n := |rules| - 1;
    assert Filled(WithDefaults(rules[n]), rules[n]);
    hide Runs, Filled, WithDefaults;
    forall k | 0 <= k < |picked| ensures picked[k] < n && rules[..n][picked[k]] == rules[picked[k]] {
      assert picked[k] in picked;
    }
    forall i: nat | i < n ensures rules[..n][i] == rules[i] {
    }
  }

  lemma {:induction false} TrimBlank(s: string)
    ensures Trim(s) == "" <==> Blank(s)
  {
    TrimByEmpty(s, IsSpace);
  }

  /** The rules of a config that an engine can run. */
  method KeepUsable(rules: seq<Rule>, compiles: string -> bool) returns (kept: seq<Rule>)
    ensures kept == Usable(rules, compiles) && KeepsThose(kept, rules, compiles)
  {
    kept := [];
    for i := 0 to |rules|
      invariant kept == Usable(rules[..i], compiles)
    {
      assert rules[..i + 1][..i] == rules[..i];
      var rule := rules[i];
      if Trim(rule.name) == "" || Trim(rule.pattern) == "" || !compiles(rule.pattern) {
        continue;
      }
      if rule.stage == "" {
        rule := rule.(stage := BOTH);
      }
      if !ValidAction(rule.action) {
        rule := rule.(action := "deny");
      }
      if rule.message == "" {
        rule := rule.(message := "Custom guardrail triggered: " + rule.name);
      }
      kept := kept + [rule];
    }
    assert rules[..|rules|] == rules;
    ghost var picked := UsableKeeps(rules, compiles);
  }

  class GuardrailEngine {
    const rules: seq<Rule>
    const accepts: string -> bool
    var compiled: seq<Rule>
    var accelRules: seq<Rule>
    var accelInput: Instance?
    var accelOutput: Instance?

    function View(): Engine
      reads this
    {
      Engine(rules, compiled, accelRules, PatternsOf(accelInput), PatternsOf(accelOutput))
    }

    /** The engine runs every rule itself or shares them with the accelerator. */
    ghost predicate Ready()
      reads this
    {
      && (forall i :: 0 <= i < |rules| ==> rules[i].pattern != "")
      && (View() == PlainEngine(rules) || View() == Accelerated(rules, accepts))
    }

    constructor (rules: seq<Rule>, compiles: string -> bool, accepts: string -> bool)
      ensures Ready() && View() == PlainEngine(Usable(rules, compiles)) && this.accepts == accepts
      ensures KeepsThose(this.rules, rules, compiles)
    {
      var kept := KeepUsable(rules, compiles);
      this.rules, this.accepts := kept, accepts;
      compiled, accelRules, accelInput, accelOutput := kept, [], null, null;
    }

    /** Hands rules over to the accelerator, unless it is absent or fails. */
    method InitAccelerator(available: bool, validateFails: bool, scannerFails: bool)
      requires Ready() && View() == PlainEngine(rules)
      modifies this
      ensures Ready()
      ensures View() == if !available || rules == [] || validateFails || scannerFails then PlainEngine(rules) else Accelerated(rules, accepts)
    {
      if !available || |compiled| == 0 || validateFails {
        return;
      }
      var onInput, onOutput, taken, left := ShareOut(compiled, accepts);
      if scannerFails {
        return;
      }
      hide Accelerated, BlankedAll, CompiledAll;
      var input := NewScanner(onInput, accepts);
      var output := NewScanner(onOutput, accepts);
      accelInput, accelOutput, accelRules, compiled := input, output, taken, left;
    }

    /** The results of all custom rules for a text. */
    method Evaluate(q: Query, broken: bool) returns (triggered: seq<Result>, ghost room: nat)
      requires Ready() && (q.stage == INPUT || q.stage == OUTPUT)
      modifies accelInput, accelOutput
      ensures Ready() && View() == old(View())
      ensures triggered == Evaluated(View(), q, broken, room) && room >= (|q.text| / 2 + PAGE) / RECORD_SIZE
      ensures View() == PlainEngine(rules) ==> Listed(triggered, rules, q)
      ensures q.text != "" && broken ==> ListedInSomeOrder(triggered, rules, q)
      ensures q.text != "" && !broken && View() == Accelerated(rules, accepts) ==>
                (ListedInSomeOrder(triggered, rules, q) <==> AllAnswered(rules, accepts, q, room))
    {
      triggered, room := Scanned(q, broken);
      triggered := AppendRegexMatches(triggered, compiled, q);
      PlainLists(rules, q);
      InSomeOrder(triggered, rules, q);
      hide Listed, ListedInSomeOrder, Plain, Accelerated;
      assert [] + Plain(rules, q) == Plain(rules, q);
      if q.text != "" && View() == Accelerated(rules, accepts) {
        if broken {
          FailedScanIsPlain(rules, accepts, q, room);
        } else {
          AcceleratedIsPlainWhen(rules, accepts, q, room);
        }
      }
    }

    method Scanned(q: Query, broken: bool) returns (triggered: seq<Result>, ghost room: nat)
      modifies accelInput, accelOutput
      ensures View() == old(View()) && room >= (|q.text| / 2 + PAGE) / RECORD_SIZE
      ensures triggered + Plain(compiled, q) == Evaluated(View(), q, broken, room)
    {
      var scanner := if q.stage == INPUT then accelInput else accelOutput;
      triggered, room := [], (|q.text| / 2 + PAGE) / RECORD_SIZE;
      if scanner == null || q.text == "" {
        return;
      }
      if broken {
        triggered := AppendRegexMatches([], accelRules, q);
        assert triggered == Plain(accelRules, q);
        return;
      }
      var hits := scanner.Scan(q.text, q.matches);
      room := scanner.bufferSize / RECORD_SIZE;
      DividesMore(scanner.bufferSize, |q.text| / 2 + PAGE);
      triggered := Report(rules, hits, q.stage);
    }
  }

  function PatternsOf(scanner: Instance?): Option<seq<Option<string>>> {
    if scanner == null then None else Some(scanner.patterns)
  }

  lemma {:induction false} DividesMore(a: nat, b: nat)
    requires a >= b
    ensures a / RECORD_SIZE >= b / RECORD_SIZE
  {
  }

  /** The places at which a hit is the first of a known rule of the stage, or of both, and the results of these rules in order. */
  ghost predicate ListsHits(results: seq<Result>, rules: seq<Rule>, hits: seq<nat>, stage: string, places: seq<nat>) {
    && Increasing(places) && |results| == |places|
    && (forall p: nat :: p in places <==>
          p < |hits| && hits[p] < |rules| && (rules[hits[p]].stage == "both" || rules[hits[p]].stage == stage) && hits[p] !in hits[..p])
    && (forall k :: 0 <= k < |results| ==>
          places[k] < |hits| && hits[places[k]] < |rules| && Carries(results[k], rules[hits[places[k]]]))
  }

  lemma {:induction false} ReportedLists(rules: seq<Rule>, hits: seq<nat>, stage: string) returns (places: seq<nat>)
    ensures ListsHits(Reported(rules, hits, stage), rules, hits, stage, places)
  {
    if hits == [] {
      places := [];
    } else {
      var n := |hits| - 1;
      places := ReportedLists(rules, hits[..n], stage);
      HitsMore(Reported(rules, hits[..n], stage), rules, hits, stage, places);
      if hits[n] < |rules| && ForStage(rules[hits[n]], stage) && hits[n] !in hits[..n] {
        places := places + [n];
      }
    }
  }

  ghost predicate HitsListed(results: seq<Result>, rules: seq<Rule>, hits: seq<nat>, stage: string) {
    exists places: seq<nat> :: ListsHits(results, rules, hits, stage, places)
  }

  lemma {:induction false} ReportedListed(rules: seq<Rule>, hits: seq<nat>, stage: string)
    ensures HitsListed(Reported(rules, hits, stage), rules, hits, stage)
  {
    var places := ReportedLists(rules, hits, stage);
  }

  lemma {:induction false} HitsMore(results: seq<Result>, rules: seq<Rule>, hits: seq<nat>, stage: string, places: seq<nat>)
    requires hits != [] && ListsHits(results, rules, hits[..|hits| - 1], stage, places)
    ensures var n := |hits| - 1;
            if hits[n] < |rules| && ForStage(rules[hits[n]], stage) && hits[n] !in hits[..n] then
              ListsHits(results + [ResultOf(rules[hits[n]])], rules, hits, stage, places + [n])
            else ListsHits(results, rules, hits, stage, places)
  {
    var n := |hits| - 1;
    forall k | 0 <= k < |places| ensures places[k] < n && hits[..n][places[k]] == hits[places[k]] {
      assert places[k] in places;
    }
    forall p: nat | p < n ensures hits[..n][p] == hits[p] && hits[..n][..p] == hits[..p] {
    }
  }

  /** Turns hits into results, skipping rules of the other stage, unknown numbers and repeated ones. */
  method Report(rules: seq<Rule>, hits: seq<nat>, stage: string) returns (triggered: seq<Result>)
    ensures triggered == Reported(rules, hits, stage) && HitsListed(triggered, rules, hits, stage)
  {
    triggered := [];
    var emitted: set<nat> := {};
    for i := 0 to |hits|
      invariant triggered == Reported(rules, hits[..i], stage)
      invariant forall k: nat :: k in emitted <==> k in hits[..i] && k < |rules| && ForStage(rules[k], stage)
    {
      assert hits[..i + 1] == hits[..i] + [hits[i]];
      assert hits[..i + 1][..i] == hits[..i];
      if hits[i] >= |rules| || hits[i] in emitted {
        continue;
      }
      var rule := rules[hits[i]];
      if rule.stage != BOTH && rule.stage != stage {
        continue;
      }
      emitted := emitted + {hits[i]};
      triggered := triggered + [ResultOf(rule)];
    }
    assert hits[..|hits|] == hits;
    ReportedListed(rules, hits, stage);
  }

  /** The patterns for the scanners, the rules behind them and the rules left to Go. */
  method ShareOut(rules: seq<Rule>, accepts: string -> bool)
    returns (onInput: seq<string>, onOutput: seq<string>, taken: seq<Rule>, left: seq<Rule>)
    ensures Accelerated(rules, accepts)
         == Engine(rules, left, taken, Some(CompiledAll(BlankedAll(onInput), accepts)), Some(CompiledAll(BlankedAll(onOutput), accepts)))
  {
    var inputPatterns, outputPatterns := StageLists(rules);
    var rejected := ValidatePatterns(inputPatterns + outputPatterns, accepts);
    hide Chosen, Retained, InputPatterns, OutputPatterns, Flags, BlankedAll, CompiledAll, RejectedLines, UnsafeNumbers;
    var flags, fallback := FlagRules(rules, rejected);
    onInput, onOutput := Chosen(inputPatterns, flags, true), Chosen(outputPatterns, flags, true);
    left := [];
    taken := RetainGoRules(rules, onInput, onOutput);
    if fallback {
      left := RetainGoRules(rules, Chosen(inputPatterns, flags, false), Chosen(outputPatterns, flags, false));
    }
  }

  /** The patterns of each stage, blank for the rules of the other one. */
  method StageLists(rules: seq<Rule>) returns (onInput: seq<string>, onOutput: seq<string>)
    ensures onInput == InputPatterns(rules) && onOutput == OutputPatterns(rules)
  {
    onInput, onOutput := [], [];
    for i := 0 to |rules|
      invariant onInput == InputPatterns(rules)[..i] && onOutput == OutputPatterns(rules)[..i]
    {
      var stage := Lower(rules[i].stage);
      onInput := onInput + [if stage == INPUT || stage == BOTH then rules[i].pattern else ""];
      onOutput := onOutput + [if stage == OUTPUT || stage == BOTH then rules[i].pattern else ""];
    }
  }

  method FlagRules(rules: seq<Rule>, rejected: seq<nat>) returns (flags: seq<bool>, fallback: bool)
    ensures flags == Flags(rules, rejected) && fallback == (false in flags)
  {
    flags, fallback := [], false;
    for i := 0 to |rules|
      invariant flags == Flags(rules, rejected)[..i] && fallback == (false in flags)
    {
      if i in rejected || i + |rules| in rejected || !SafePattern(rules[i].pattern) {
        fallback := true;
        flags := flags + [false];
      } else {
        flags := flags + [true];
      }
    }
  }
}
