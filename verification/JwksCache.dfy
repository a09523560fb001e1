module JwksCache {
  // The keys that verify login tokens: stale ones are used while a shared fetch
  // runs or backs off, but not beyond a grace. Times are milliseconds.

  import opened Options

  const INITIAL_BACKOFF := 1000
  const MAX_BACKOFF := 60000
  const MIN_FORCED_INTERVAL := 30000

  type Keys = map<string, string>

  // ---- The backoff ----

  function Power(n: nat): nat {
    if n == 0 then 1 else 2 * Power(n - 1)
  }

  function Min(a: int, b: int): int {
    if a < b then a else b
  }

  /** One second for the first failure, doubling up to a minute. */
  function Backoff(failures: nat): int
    requires failures >= 1
  {
    Min(1000 * Power(failures - 1), MAX_BACKOFF)
  }

  lemma {:induction false} PowerGrows(a: nat, b: nat)
    requires a <= b
    ensures Power(a) <= Power(b)
    decreases b
  {
    if a < b {
      PowerGrows(a, b - 1);
    }
  }

  /** The first failure waits a second, each further one twice as long as the one before, up to a minute. */
  lemma {:induction false} BackoffDoubles(failures: nat)
    requires failures >= 1
    ensures Backoff(1) == 1_000 <= Backoff(failures) <= 60_000
    ensures Backoff(failures + 1) == if Backoff(failures) >= 30_000 then 60_000 else Backoff(failures) + Backoff(failures)
  {
    assert Power(0) == 1 && Power(failures) == 2 * Power(failures - 1);
    PowerGrows(0, failures - 1);
  }

  method ComputeBackoff(failures: nat) returns (delay: int)
    requires failures >= 1
    ensures delay == Backoff(failures)
  {
    delay := INITIAL_BACKOFF;
    var i := 1;
    while i < failures && delay < MAX_BACKOFF
      invariant 1 <= i <= failures && delay == 1000 * Power(i - 1)
    {
      delay := delay * 2;
      i := i + 1;
    }
    PowerGrows(i - 1, failures - 1);
    delay := Min(delay, MAX_BACKOFF);
  }

  // ---- One fetch ----

  datatype Fetched = Fetch(keys: Keys) | Failure(error: string)
  datatype ParsedKey = Parsed(kid: string, key: string) | Bad(error: string)

  /** The key set of a document: every key readable, no key id twice, at least one key. */
  function Collect(document: seq<ParsedKey>): Fetched {
    if document == [] then Fetch(map[])
    else
      var before, last := Collect(document[..|document| - 1]), document[|document| - 1];
      if before.Failure? then before
      else if last.Bad? then Failure(last.error)
      else if last.kid in before.keys then Failure("JWKS contains duplicate kid")
      else Fetch(before.keys[last.kid := last.key])
  }

  function FetchedKeys(document: seq<ParsedKey>): Fetched {
    var all := Collect(document);
    if all.Fetch? && all.keys == map[] then Failure("JWKS contains no supported public keys") else all
  }

  predicate HasKey(keys: Keys, p: ParsedKey) {
    p.Parsed? && p.kid in keys && keys[p.kid] == p.key
  }

  predicate Gives(p: ParsedKey, kid: string) {
    p.Parsed? && p.kid == kid
  }

  /** The keys are those of the document. */
  ghost predicate Holds(keys: Keys, document: seq<ParsedKey>) {
    && (forall i :: 0 <= i < |document| ==> HasKey(keys, document[i]))
    && (forall kid :: kid in keys ==> exists i :: 0 <= i < |document| && Gives(document[i], kid))
  }

  /** One more key joins a set unless its id is taken. */
  lemma {:induction false} HoldsMore(keys: Keys, document: seq<ParsedKey>, last: ParsedKey)
    requires Holds(keys, document) && last.Parsed? && last.kid !in keys
    ensures Holds(keys[last.kid := last.key], document + [last])
  {
    var all, keys' := document + [last], keys[last.kid := last.key];
    forall i | 0 <= i < |all| ensures HasKey(keys', all[i]) {
      assert i < |document| ==> HasKey(keys, document[i]);
    }
    forall kid | kid in keys' ensures exists i :: 0 <= i < |all| && Gives(all[i], kid) {
      if kid == last.kid {
        assert Gives(all[|document|], kid);
      } else {
        var i :| 0 <= i < |document| && Gives(document[i], kid);
        assert Gives(all[i], kid);
      }
    }
  }

  lemma {:induction false} CollectLast(before: seq<ParsedKey>, last: ParsedKey)
    requires Collect(before + [last]).Fetch?
    ensures Collect(before).Fetch? && last.Parsed? && last.kid !in Collect(before).keys
    ensures Collect(before + [last]).keys == Collect(before).keys[last.kid := last.key]
  {
    assert (before + [last])[..|before|] == before;
  }

  lemma {:induction false} OneKeyMore(keys: Keys, last: ParsedKey)
    requires last.Parsed? && last.kid !in keys
    ensures |keys[last.kid := last.key]| == |keys| + 1
  {
    assert keys[last.kid := last.key].Keys == keys.Keys + {last.kid};
  }

  lemma {:induction false} CollectHolds(document: seq<ParsedKey>)
    ensures Collect(document).Fetch? ==> Holds(Collect(document).keys, document) && |Collect(document).keys| == |document|
  {
    if document != [] && Collect(document).Fetch? {
      hide Holds, Collect;
      var before, last := document[..|document| - 1], document[|document| - 1];
      assert document == before + [last];
      CollectLast(before, last);
      CollectHolds(before);
      HoldsMore(Collect(before).keys, before, last);
      OneKeyMore(Collect(before).keys, last);
    }
  }

  /** Two keys of the document share an id. */
  ghost predicate Clash(document: seq<ParsedKey>, i: nat, j: nat) {
    i < j < |document| && document[i].Parsed? && Gives(document[j], document[i].kid)
  }

  /** A key of the document is not readable. */
  ghost predicate BadAt(document: seq<ParsedKey>, i: nat) {
    i < |document| && document[i].Bad?
  }

  lemma {:induction false} CollectFails(document: seq<ParsedKey>)
    requires Collect(document).Failure?
    ensures (exists i :: BadAt(document, i)) || (exists i, j :: Clash(document, i, j))
  {
    var n := |document| - 1;
    var before, last := document[..n], document[n];
    if Collect(before).Failure? {
      CollectFails(before);
      if i :| BadAt(before, i) {
        assert BadAt(document, i);
      } else {
        var i, j :| Clash(before, i, j);
        assert Clash(document, i, j);
      }
    } else if last.Parsed? {
      CollectHolds(before);
      var i :| 0 <= i < n && Gives(before[i], last.kid);
      assert Clash(document, i, n);
    } else {
      assert BadAt(document, n);
    }
  }

  /**
     A successful fetch gives at least one key, each of the document's keys and no
     other; a failed one had no key, an unreadable key or an id used twice.
   */
  lemma {:induction false} FetchSucceeds(document: seq<ParsedKey>)
    ensures var result := FetchedKeys(document);
            result.Fetch? ==> result.keys != map[] && Holds(result.keys, document) && |result.keys| == |document|
    ensures FetchedKeys(document).Failure? ==>
              document == [] || (exists i :: BadAt(document, i)) || (exists i, j :: Clash(document, i, j))
  {
    hide Holds, Clash, BadAt;
    CollectHolds(document);
    if Collect(document).Failure? {
      CollectFails(document);
    } else if Collect(document).keys == map[] {
      assert |document| == 0;
    }
  }

  // ---- The cache ----

  datatype Config = Config(ttl: int, staleIfError: int)

  /** `flight` is the number of the fetch in flight. */
  datatype Cache = Cache(keys: Keys, fetchedAt: int, retryAt: Option<int>, failures: nat, lastErr: Option<string>,
                         lastForced: Option<int>, flight: Option<nat>, started: nat)

  const NEW_CACHE := Cache(map[], 0, None, 0, None, None, None, 0)

  /** Keys at once, an error at once, or the outcome of a fetch; with `held` its failure falls back on these keys. */
  datatype Answer = Now(keys: Keys) | Refused(error: Option<string>) | Await(flight: nat, held: Keys)

  function DropExpired(c: Cache, config: Config, now: int): Cache {
    if c.keys != map[] && now - c.fetchedAt >= config.ttl + config.staleIfError then c.(keys := map[]) else c
  }

  function StartFetch(c: Cache): Cache {
    if c.flight.Some? then c else c.(flight := Some(c.started), started := c.started + 1)
  }

  predicate BackingOff(c: Cache, now: int) {
    c.retryAt.Some? && now < c.retryAt.value
  }

  predicate ForcedAllowed(c: Cache, now: int) {
    !BackingOff(c, now) && (c.lastForced.Some? ==> now - c.lastForced.value >= MIN_FORCED_INTERVAL)
  }

  datatype Asked = Asked(cache: Cache, answer: Answer)

  /** The decision a request for keys makes. */
  function Ask(c0: Cache, config: Config, now: int, force: bool): Asked {
    var c := DropExpired(c0, config, now);
    if c.keys != map[] then
      if force && ForcedAllowed(c, now) then
        var s := StartFetch(c.(lastForced := Some(now)));
        Asked(s, Await(s.flight.value, c.keys))
      else if now - c.fetchedAt >= config.ttl && !BackingOff(c, now) then Asked(StartFetch(c), Now(c.keys))
      else Asked(c, Now(c.keys))
    else if BackingOff(c, now) then Asked(c, Refused(c.lastErr))
    else
      var s := StartFetch(if force then c.(lastForced := Some(now)) else c);
      Asked(s, Await(s.flight.value, map[]))
  }

  /** The keys may still be used: they are younger than the cache time plus the grace. */
  predicate KeysUsable(c: Cache, config: Config, now: int) {
    c.keys != map[] && now < c.fetchedAt + config.ttl + config.staleIfError
  }

  /** A failed fetch still keeps the next one off. */
  predicate KeptOff(c: Cache, now: int) {
    match c.retryAt
    case None => false
    case Some(until) => now < until
  }

  /** A refresh was forced less than half a minute ago. */
  predicate ForcedLately(c: Cache, now: int) {
    match c.lastForced
    case None => false
    case Some(at) => now < at + 30_000
  }

  /** The fetch a request takes part in: the one in flight, or the next one. */
  function Flight(c: Cache): nat {
    if c.flight.Some? then c.flight.value else c.started
  }

  /**
     What a request is given. Usable keys are given at once, however old and
     whatever backs off, unless a refresh is forced and may be: then the request
     waits, and holds them. Without usable keys it waits while nothing backs off,
     and only otherwise it is refused, with the error of the last fetch.
   */
  predicate RightAnswer(c: Cache, config: Config, at: int, force: bool, answer: Answer) {
    if KeysUsable(c, config, at) then
      answer == if force && !KeptOff(c, at) && !ForcedLately(c, at) then Await(Flight(c), c.keys) else Now(c.keys)
    else answer == if KeptOff(c, at) then Refused(c.lastErr) else Await(Flight(c), map[])
  }

  lemma {:induction false} AskAnswers(c: Cache, config: Config, at: int, force: bool)
    ensures RightAnswer(c, config, at, force, Ask(c, config, at, force).answer)
  {
  }

  /** What a request changes: keys past their grace are dropped, a fetch may start, and a refresh that was forced is noted. */
  lemma {:induction false} AskChanges(c: Cache, config: Config, at: int, force: bool)
    ensures var a := Ask(c, config, at, force);
            && a.cache == c.(keys := if KeysUsable(c, config, at) then c.keys else map[], flight := a.cache.flight,
                             started := a.cache.started, lastForced := a.cache.lastForced)
            && a.cache.lastForced == (if force && a.answer.Await? then Some(at) else c.lastForced)
            && (if c.flight.Some? || a.cache.flight.None? then a.cache.flight == c.flight && a.cache.started == c.started
                else a.cache.flight == Some(c.started) && a.cache.started == c.started + 1)
  {
  }

  function EndFetch(c: Cache, result: Fetched, now: int): Cache {
    match result
    case Fetch(keys) => c.(keys := keys, fetchedAt := now, failures := 0, retryAt := None, lastErr := None, flight := None)
    case Failure(error) =>
      c.(failures := c.failures + 1, retryAt := Some(now + Backoff(c.failures + 1)), lastErr := Some(error), flight := None)
  }

  /** What a caller that waited is given. */
  datatype Given = Granted(keys: Keys) | Rejected(error: string)

  function Awaited(held: Keys, result: Fetched): Given {
    match result
    case Fetch(keys) => Granted(keys)
    case Failure(error) => if held != map[] then Granted(held) else Rejected(error)
  }

  class JWTAuthenticator {
    const config: Config
    var keys: Keys
    var fetchedAt: int
    var retryAt: Option<int>
    var failures: nat
    var lastErr: Option<string>
    var lastForced: Option<int>
    var flight: Option<nat>
    var started: nat

    function View(): Cache
      reads this
    {
      Cache(keys, fetchedAt, retryAt, failures, lastErr, lastForced, flight, started)
    }

    constructor (config: Config)
      ensures View() == NEW_CACHE && this.config == config
    {
      this.config := config;
      keys, fetchedAt, retryAt, failures, lastErr, lastForced, flight, started := map[], 0, None, 0, None, None, None, 0;
    }

    method DropExpiredKeys(now: int)
      modifies this
      ensures View() == DropExpired(old(View()), config, now)
    {
      if keys == map[] {
        return;
      }
      var limit := config.ttl + config.staleIfError;
      if now - fetchedAt < limit {
        return;
      }
      keys := map[];
    }

    method JoinFetch() returns (call: nat)
      modifies this
      ensures View() == StartFetch(old(View())) && flight == Some(call)
    {
      if flight.Some? {
        return flight.value;
      }
      call := started;
      flight, started := Some(call), started + 1;
    }

    method CurrentKeys(now: int, force: bool) returns (answer: Answer)
      modifies this
      ensures Asked(View(), answer) == Ask(old(View()), config, now, force)
      ensures RightAnswer(old(View()), config, now, force, answer)
    {
      AskAnswers(View(), config, now, force);
      DropExpiredKeys(now);
      var hasKeys := keys != map[];
      var young := hasKeys && now - fetchedAt < config.ttl;
      var backingOff := retryAt.Some? && now < retryAt.value;
      if hasKeys {
        var forcedAllowed := force && !backingOff && (lastForced.Some? ==> now - lastForced.value >= MIN_FORCED_INTERVAL);
        if !forcedAllowed {
          if !young && !backingOff {
            var background := JoinFetch();
          }
          return Now(keys);
        }
        lastForced := Some(now);
        var shared := JoinFetch();
        return Await(shared, keys);
      }
      if backingOff {
        return Refused(lastErr);
      }
      if force {
        lastForced := Some(now);
      }
      var call := JoinFetch();
      answer := Await(call, map[]);
    }

    method FinishFetch(result: Fetched, now: int)
      modifies this
      ensures View() == EndFetch(old(View()), result, now)
    {
      match result {
        case Fetch(fetched) =>
          keys, fetchedAt, failures, retryAt, lastErr := fetched, now, 0, None, None;
        case Failure(error) =>
          failures := failures + 1;
          var backoff := ComputeBackoff(failures);
          retryAt, lastErr := Some(now + backoff), Some(error);
      }
      flight := None;
    }
  }

  // ---- Every run ----

  /**
     The cache with its history: the time, when the fetch in flight started, how
     many fetches ended, and when the failures since the last success ended.
   */
  datatype World = World(cache: Cache, now: int, startedAt: int, ended: nat, failed: seq<int>)

  datatype Step = Request(at: int, force: bool) | Land(at: int, document: seq<ParsedKey>) | Break(at: int, error: string)

  function Begin(now: int): World {
    World(NEW_CACHE, now, now, 0, [])
  }

  predicate Enabled(w: World, s: Step) {
    s.at >= w.now && (s.Request? || w.cache.flight.Some?)
  }

  function ResultOf(s: Step): Fetched
    requires !s.Request?
  {
    if s.Land? then FetchedKeys(s.document) else Failure(s.error)
  }

  function Apply(w: World, s: Step, config: Config): World {
    if s.Request? then
      var c := Ask(w.cache, config, s.at, s.force).cache;
      World(c, s.at, if c.started > w.cache.started then s.at else w.startedAt, w.ended, w.failed)
    else
      var result := ResultOf(s);
      World(EndFetch(w.cache, result, s.at), s.at, w.startedAt, w.ended + 1, if result.Fetch? then [] else w.failed + [s.at])
  }

  /** Each failure ended at least the backoff after the one before it. */
  ghost predicate Spaced(failed: seq<int>) {
    forall i :: 0 < i < |failed| ==> Gap(failed, i)
  }

  ghost predicate Gap(failed: seq<int>, i: nat)
    requires 0 < i < |failed|
  {
    failed[i] - failed[i - 1] >= Backoff(i)
  }

  /** The next attempt waits for the backoff of the last failure. */
  ghost predicate Waits(c: Cache, failed: seq<int>) {
    && |failed| == c.failures
    && c.retryAt == (if failed == [] then None else Some(failed[|failed| - 1] + Backoff(|failed|)))
    && (c.retryAt.Some? <==> c.lastErr.Some?)
  }

  ghost predicate Inv(w: World) {
    && Spaced(w.failed) && Waits(w.cache, w.failed)
    && w.cache.started == w.ended + (if w.cache.flight.Some? then 1 else 0)
    && (w.cache.flight.Some? ==> w.cache.flight.value == w.ended && w.startedAt <= w.now)
    && (w.cache.flight.Some? && w.cache.retryAt.Some? ==> w.startedAt >= w.cache.retryAt.value)
    && (w.cache.keys != map[] ==> w.cache.fetchedAt <= w.now)
  }

  lemma {:induction false} AskKeepsInv(w: World, s: Step, config: Config)
    requires Inv(w) && Enabled(w, s) && s.Request?
    ensures Inv(Apply(w, s, config))
  {
  }

  lemma {:induction false} FailureKeepsSpaced(failed: seq<int>, at: int)
    requires Spaced(failed) && (failed != [] ==> at - failed[|failed| - 1] >= Backoff(|failed|))
    ensures Spaced(failed + [at])
  {
    forall i | 0 < i < |failed + [at]| ensures Gap(failed + [at], i) {
      assert i < |failed| ==> Gap(failed, i);
    }
  }

  lemma {:induction false} EndKeepsInv(w: World, s: Step, config: Config)
    requires Inv(w) && Enabled(w, s) && !s.Request?
    ensures Inv(Apply(w, s, config))
  {
    if ResultOf(s).Failure? {
      FailureKeepsSpaced(w.failed, s.at);
    }
  }

  lemma {:induction false} StepKeepsInv(w: World, s: Step, config: Config)
    requires Inv(w) && Enabled(w, s)
    ensures Inv(Apply(w, s, config))
  {
    if s.Request? {
      AskKeepsInv(w, s, config);
    } else {
      EndKeepsInv(w, s, config);
    }
  }

  function After(start: int, steps: seq<Step>, config: Config): World {
    if steps == [] then Begin(start) else Apply(After(start, steps[..|steps| - 1], config), steps[|steps| - 1], config)
  }

  predicate ValidRun(start: int, steps: seq<Step>, config: Config) {
    steps == [] || (ValidRun(start, steps[..|steps| - 1], config)
                    && Enabled(After(start, steps[..|steps| - 1], config), steps[|steps| - 1]))
  }

  /** `w` is where these steps lead. */
  predicate Reaches(start: int, steps: seq<Step>, config: Config, w: World) {
    ValidRun(start, steps, config) && w == After(start, steps, config)
  }

  lemma {:induction false} ReachableInv(start: int, steps: seq<Step>, config: Config, w: World)
    requires Reaches(start, steps, config, w)
    ensures Inv(w)
  {
    if steps != [] {
      var before := After(start, steps[..|steps| - 1], config);
      ReachableInv(start, steps[..|steps| - 1], config, before);
      StepKeepsInv(before, steps[|steps| - 1], config);
    }
  }

  /** At most one fetch is in flight: every fetch but the last one started has ended. */
  lemma {:induction false} OneFetch(start: int, steps: seq<Step>, config: Config, w: World)
    requires Reaches(start, steps, config, w)
    ensures w.ended <= w.cache.started <= w.ended + 1 && (w.cache.started == w.ended + 1 <==> w.cache.flight.Some?)
  {
    ReachableInv(start, steps, config, w);
  }

  /** What the failure after a wait of `delay` waits. */
  function Longer(delay: int): int {
    if delay >= 30_000 then 60_000 else 2 * delay
  }

  /** The wait after the k-th of consecutive failures: one second, two, four, ... up to a minute. */
  function WaitAfter(k: nat): int {
    if k <= 1 then 1_000 else Longer(WaitAfter(k - 1))
  }

  lemma {:induction false} BackoffIsWait(k: nat)
    requires k >= 1
    ensures Backoff(k) == WaitAfter(k)
  {
    BackoffDoubles(1);
    if k > 1 {
      BackoffIsWait(k - 1);
      BackoffDoubles(k - 1);
    }
  }

  /** The least time `k` consecutive failures take, counted between their ends. */
  function BackoffSum(k: nat): int {
    if k <= 1 then 0 else BackoffSum(k - 1) + WaitAfter(k - 1)
  }

  lemma {:induction false} SpacedSpan(failed: seq<int>)
    requires failed != [] && Spaced(failed)
    ensures failed[|failed| - 1] - failed[0] >= BackoffSum(|failed|)
  {
    var n := |failed| - 1;
    if n > 0 {
      forall i | 0 < i < n ensures Gap(failed[..n], i) {
        assert Gap(failed, i);
      }
      SpacedSpan(failed[..n]);
      assert Gap(failed, n);
      BackoffIsWait(n);
    }
  }

  /** A failing key server is asked ever more rarely: k consecutive failures span at least the sum of their backoffs. */
  lemma {:induction false} FailuresAreSpaced(start: int, steps: seq<Step>, config: Config, w: World)
    requires Reaches(start, steps, config, w) && w.cache.failures > 0
    ensures |w.failed| == w.cache.failures && w.failed[|w.failed| - 1] - w.failed[0] >= BackoffSum(w.cache.failures)
  {
    ReachableInv(start, steps, config, w);
    SpacedSpan(w.failed);
  }

  /**
     In every reachable state a request is given the right answer: a refusal
     carries an error, and to wait means to wait for the fetch that runs then.
   */
  lemma {:induction false} AnswerIsSound(start: int, steps: seq<Step>, config: Config, w: World, at: int, force: bool)
    requires Reaches(start, steps, config, w) && at >= w.now
    ensures var a := Ask(w.cache, config, at, force);
            && RightAnswer(w.cache, config, at, force, a.answer)
            && (a.answer.Refused? ==> a.answer.error.Some?)
            && (a.answer.Await? ==> a.cache.flight == Some(a.answer.flight))
  {
    ReachableInv(start, steps, config, w);
    AskAnswers(w.cache, config, at, force);
    hide Ask, Spaced;
    AskChanges(w.cache, config, at, force);
  }

  /** A caller that waited gets the keys fetched, the keys it held, or the error of the fetch. */
  lemma {:induction false} AwaitedIsSound(held: Keys, s: Step)
    requires !s.Request?
    ensures var result, given := ResultOf(s), Awaited(held, ResultOf(s));
            && (given.Rejected? <==> held == map[] && result.Failure?)
            && (given.Rejected? ==> given.error == result.error)
            && (given.Granted? ==> given.keys == (if result.Fetch? then result.keys else held) && given.keys != map[])
  {
    if s.Land? {
      FetchSucceeds(s.document);
    }
  }

  // ---- Where the keys come from ----

  predicate Succeeds(s: Step) {
    s.Land? && FetchedKeys(s.document).Fetch?
  }

  /** The keys a fetch brought. */
  function Brought(s: Step): Keys {
    if Succeeds(s) then FetchedKeys(s.document).keys else map[]
  }

  /** What a fetch that failed complained about. */
  function Complaint(s: Step): Option<string> {
    if !s.Request? && ResultOf(s).Failure? then Some(ResultOf(s).error) else None
  }

  /** The last step that brought keys. */
  ghost predicate LastSuccess(steps: seq<Step>, i: int) {
    0 <= i < |steps| && Succeeds(steps[i]) && forall j :: i < j < |steps| ==> !Succeeds(steps[j])
  }

  /** The last step that ended a fetch, a failed one. */
  ghost predicate LastEndFailed(steps: seq<Step>, i: int) {
    0 <= i < |steps| && !steps[i].Request? && !Succeeds(steps[i]) && forall j :: i < j < |steps| ==> steps[j].Request?
  }

  /** No request since step `i` came after the grace of keys fetched then. */
  ghost predicate NoneTooLate(steps: seq<Step>, i: int, config: Config)
    requires 0 <= i < |steps|
  {
    forall j :: i < j < |steps| && steps[j].Request? ==> steps[j].at < steps[i].at + config.ttl + config.staleIfError
  }

  lemma {:induction false} KeysStep(w: World, s: Step, config: Config)
    ensures var c := Apply(w, s, config).cache;
            if Succeeds(s) then c.keys == Brought(s) != map[] && c.fetchedAt == s.at
            else c.fetchedAt == w.cache.fetchedAt
                 && c.keys == if !s.Request? || KeysUsable(w.cache, config, s.at) then w.cache.keys else map[]
  {
    if s.Request? {
      AskChanges(w.cache, config, s.at, s.force);
    } else if s.Land? {
      FetchSucceeds(s.document);
    }
    hide Ask, FetchedKeys, Holds;
  }

  lemma {:induction false} SuccessBefore(steps: seq<Step>, i: int, config: Config)
    requires LastSuccess(steps, i) && i < |steps| - 1
    ensures var n := |steps| - 1;
            && LastSuccess(steps[..n], i) && !Succeeds(steps[n])
            && (NoneTooLate(steps, i, config)
                <==> NoneTooLate(steps[..n], i, config) && (steps[n].Request? ==> steps[n].at < steps[i].at + config.ttl + config.staleIfError))
  {
    hide Succeeds;
    var n := |steps| - 1;
    assert forall j :: 0 <= j < n ==> steps[..n][j] == steps[j];
  }

  lemma {:induction false} UsableUntil(c: Cache, config: Config, at: int)
    ensures (if KeysUsable(c, config, at) then c.keys else map[])
         == if at < c.fetchedAt + config.ttl + config.staleIfError then c.keys else map[]
  {
  }

  lemma {:induction false} ReachesBefore(start: int, steps: seq<Step>, config: Config, w: World)
    requires Reaches(start, steps, config, w) && steps != []
    ensures var n := |steps| - 1;
            Reaches(start, steps[..n], config, After(start, steps[..n], config)) && w == Apply(After(start, steps[..n], config), steps[n], config)
  {
  }

  /** A set of keys replaces the one before and is kept until a request comes after its grace. */
  lemma {:induction false} KeysAreFrom(start: int, steps: seq<Step>, config: Config, w: World, i: int)
    requires Reaches(start, steps, config, w) && LastSuccess(steps, i)
    ensures w.cache.fetchedAt == steps[i].at
    ensures w.cache.keys == if NoneTooLate(steps, i, config) then Brought(steps[i]) else map[]
  {
    var n := |steps| - 1;
    var before := After(start, steps[..n], config);
    hide Apply, Reaches, After, Succeeds, Brought, KeysUsable;
    ReachesBefore(start, steps, config, w);
    KeysStep(before, steps[n], config);
    if i < n {
      SuccessBefore(steps, i, config);
      hide NoneTooLate, LastSuccess;
      KeysAreFrom(start, steps[..n], config, before, i);
      UsableUntil(before.cache, config, steps[n].at);
    }
  }

  /** Before a fetch succeeded there are no keys. */
  lemma {:induction false} NoKeysYet(start: int, steps: seq<Step>, config: Config, w: World)
    requires Reaches(start, steps, config, w) && forall i :: 0 <= i < |steps| ==> !Succeeds(steps[i])
    ensures w.cache.keys == map[]
  {
    if steps != [] {
      NoKeysYet(start, steps[..|steps| - 1], config, After(start, steps[..|steps| - 1], config));
    }
  }

  lemma {:induction false} ErrorStep(w: World, s: Step, config: Config)
    ensures var c := Apply(w, s, config).cache;
            && (s.Request? ==> c.lastErr == w.cache.lastErr && c.failures == w.cache.failures && c.retryAt == w.cache.retryAt)
            && (!s.Request? && !Succeeds(s) ==>
                  && c.lastErr == Complaint(s) && c.lastErr.Some? && c.failures == w.cache.failures + 1
                  && c.retryAt == Some(s.at + Backoff(c.failures)))
  {
    if s.Request? {
      AskChanges(w.cache, config, s.at, s.force);
    }
    hide Ask, FetchedKeys, Backoff;
  }

  /** While failures last, the error kept is that of the last of them, and the next fetch waits for its backoff. */
  lemma {:induction false} ErrorIsFrom(start: int, steps: seq<Step>, config: Config, w: World, i: int)
    requires Reaches(start, steps, config, w) && LastEndFailed(steps, i)
    ensures w.cache.lastErr == Complaint(steps[i]) && w.cache.lastErr.Some? && w.cache.failures >= 1
    ensures w.cache.retryAt == Some(steps[i].at + Backoff(w.cache.failures))
  {
    var n := |steps| - 1;
    var before := After(start, steps[..n], config);
    hide Apply, Backoff, Reaches, After, Succeeds, Complaint;
    ReachesBefore(start, steps, config, w);
    ErrorStep(before, steps[n], config);
    if i < n {
      assert forall j :: 0 <= j < n ==> steps[..n][j] == steps[j];
      ErrorIsFrom(start, steps[..n], config, before, i);
    }
  }

  /** While a failure backs off no fetch starts, whoever asks. */
  lemma {:induction false} NoFetchDuringBackoff(start: int, steps: seq<Step>, config: Config, w: World, at: int, force: bool)
    requires Reaches(start, steps, config, w) && at >= w.now && KeptOff(w.cache, at)
    ensures Ask(w.cache, config, at, force).cache.started == w.cache.started && w.cache.flight.None?
  {
    ReachableInv(start, steps, config, w);
  }

  /** The keys are younger than the cache time. */
  predicate Young(c: Cache, config: Config, now: int) {
    c.keys != map[] && now < c.fetchedAt + config.ttl
  }

  /** A decision leaves a fetch running exactly when one ran already, or nothing backs off and the keys are not young or a refresh is forced. */
  lemma {:induction false} FetchRunsWhen(start: int, steps: seq<Step>, config: Config, w: World, at: int, force: bool)
    requires Reaches(start, steps, config, w) && at >= w.now && config.staleIfError >= 0
    ensures Ask(w.cache, config, at, force).cache.flight.Some?
            <==> w.cache.flight.Some?
                 || (!KeptOff(w.cache, at) && (!Young(w.cache, config, at) || (force && !ForcedLately(w.cache, at))))
  {
    ReachableInv(start, steps, config, w);
  }
}
