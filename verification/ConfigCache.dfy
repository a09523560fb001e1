/** The stored configs in use: references resolved or unknown, reads in flight, and the epoch of the last invalidation. */
module ConfigCache {
  import opened Options
  import opened ConfigLru
  import opened ConfigRecency

  const ROUTER_TTL := 5000
  const NEGATIVE_TTL := 2000
  const MAX_KEYS := 512
  const MAX_NEGATIVE := 1024
  const MAX_NEGATIVE_BYTES := 256

  /** A read in flight; `number` tells reads apart and `epoch` is the one it started in. */
  datatype Call = Call(ref: string, number: nat, epoch: nat)

  /** What the store answers. `routes` is None for a body that does not parse. */
  datatype Record = Record(name: string, id: string, routes: Option<string>)
  datatype Result = Found(record: Record) | Missing | Failed

  datatype Cache = Cache(positive: Lru, negative: Lru, inflight: map<string, Call>, epoch: nat, begun: nat)

  datatype Answer = Hit(entry: Entry) | Join(call: Call) | Read(call: Call)
  datatype Begun = Begun(cache: Cache, answer: Answer)

  const NEW_CACHE := Cache(EMPTY, EMPTY, map[], 0, 0)

  /** A fresh entry moves to the front; an expired one is dropped with all its keys. */
  function CheckPositive(l: Lru, ref: string, now: int): Lru {
    if ref !in l.items then l
    else if now < l.items[ref].expires then ToFront(l, ref)
    else RemoveKey(RemoveEntry(ToFront(l, ref), l.items[ref]), ref)
  }

  function CheckNegative(l: Lru, ref: string, now: int): Lru {
    if ref !in l.items then l
    else if now < l.items[ref].expires then ToFront(l, ref)
    else RemoveKey(ToFront(l, ref), ref)
  }

  /** The first part of a lookup, up to the read of the store. */
  function Begin(c: Cache, ref: string, now: int): Begun {
    var positive := CheckPositive(c.positive, ref, now);
    if ref in positive.items then Begun(c.(positive := positive), Hit(positive.items[ref]))
    else
      var negative := CheckNegative(c.negative, ref, now);
      var checked := c.(positive := positive, negative := negative);
      if ref in negative.items then Begun(checked, Hit(negative.items[ref]))
      else if ref in c.inflight then Begun(checked, Join(c.inflight[ref]))
      else
        var call := Call(ref, c.begun + 1, c.epoch);
        Begun(checked.(inflight := c.inflight[ref := call], begun := c.begun + 1), Read(call))
  }

  /** The distinct keys of a config, without empty ones. */
  function KeysOf(keys: seq<string>): (r: seq<string>)
    ensures |r| <= |keys|
  {
    if keys == [] then []
    else
      var before, k := KeysOf(keys[..|keys| - 1]), keys[|keys| - 1];
      if k != "" && k !in before then before + [k] else before
  }

  /** The entry for what a read found; None for a failed read. */
  function EntryOf(call: Call, result: Result, now: int): Option<Entry> {
    match result
    case Found(record) =>
      Some(Entry(call.number, KeysOf([record.name, record.id, call.ref]),
                 if record.routes.Some? then record.routes.value else "", record.routes.None?, false, now + ROUTER_TTL))
    case Missing => Some(Entry(call.number, [call.ref], "", false, true, now + NEGATIVE_TTL))
    case Failed => None
  }

  /**
     What a read tells the lookups that are given its entry: a config with its
     routes, or that it is invalid when its body does not parse, for five seconds
     under its name, its id and the reference; that there is none, for two seconds
     under the reference; or nothing, when the store failed.
   */
  ghost predicate Reports(e: Option<Entry>, call: Call, result: Result, now: int) {
    match result
    case Failed => e.None?
    case Missing =>
      && e.Some? && e.value.notFound && !e.value.error && e.value.keys == [call.ref]
      && e.value.expires == now + 2000 && e.value.readAt == call.number
    case Found(record) =>
      && e.Some? && !e.value.notFound && e.value.expires == now + 5000 && e.value.readAt == call.number
      && (e.value.error <==> record.routes.None?) && (record.routes.Some? ==> e.value.routes == record.routes.value)
      && (forall k :: k in e.value.keys <==> k != "" && k in {record.name, record.id, call.ref})
      && Distinct(e.value.keys)
  }

  lemma {:induction false} EntryReports(call: Call, result: Result, now: int)
    ensures Reports(EntryOf(call, result, now), call, result, now)
  {
    if result.Found? {
      var keys := [result.record.name, result.record.id, call.ref];
      KeysAre(keys);
      KeysDistinct(keys);
      hide KeysOf;
      forall k ensures k in EntryOf(call, result, now).value.keys <==> k != "" && k in {keys[0], keys[1], keys[2]} {
      }
    }
  }

  lemma {:induction false} KeysAre(keys: seq<string>)
    ensures forall k :: k in KeysOf(keys) <==> k != "" && k in keys
  {
    if keys != [] {
      KeysAre(keys[..|keys| - 1]);
      assert keys == keys[..|keys| - 1] + [keys[|keys| - 1]];
    }
  }

  /** What a request for a stored config is told. */
  datatype Reply = Unknown | Invalid | Routed(routes: string)

  /** The reply for the entry a lookup is given, or for none. */
  function ReplyOf(e: Option<Entry>): Reply {
    if e.None? || e.value.notFound then Unknown else if e.value.error then Invalid else Routed(e.value.routes)
  }

  /** The reply for what the store answered. */
  lemma {:induction false} RepliesWith(e: Option<Entry>, call: Call, result: Result, now: int)
    requires Reports(e, call, result, now)
    ensures match result
            case Found(record) => ReplyOf(e) == if record.routes.Some? then Routed(record.routes.value) else Invalid
            case _ => ReplyOf(e) == Unknown
  {
  }

  function RemoveAllKeys(l: Lru, keys: seq<string>): Lru {
    if keys == [] then l else RemoveKey(RemoveAllKeys(l, keys[..|keys| - 1]), keys[|keys| - 1])
  }

  /** What is kept of a result; nothing when an invalidation came after the read began. */
  function Kept(c: Cache, call: Call, result: Result, now: int): Option<Entry> {
    if c.epoch == call.epoch then EntryOf(call, result, now) else None
  }

  /** A new entry takes its keys over from the entries that hold them. */
  ghost function LandPositive(l: Lru, kept: Option<Entry>): Lru
    requires Valid(l) && Whole(l)
    requires kept.Some? ==> forall k :: k in l.items ==> l.items[k] != kept.value
  {
    if kept.None? || kept.value.notFound then l
    else
      DropHoldersWhole(l, kept.value, kept.value.keys);
      Store(l, kept.value, MAX_KEYS)
  }

  ghost function LandNegative(l: Lru, ref: string, kept: Option<Entry>): Lru
    requires Valid(l)
  {
    if kept.None? then l
    else if !kept.value.notFound then RemoveAllKeys(l, kept.value.keys)
    else if |ref| <= MAX_NEGATIVE_BYTES then Put(l, ref, kept.value, MAX_NEGATIVE)
    else l
  }

  function LandInflight(inflight: map<string, Call>, call: Call): map<string, Call> {
    if call.ref in inflight && inflight[call.ref] == call then inflight - {call.ref} else inflight
  }

  /** Whether an entry of the read is not cached yet. */
  ghost predicate NotYet(l: Lru, number: nat) {
    forall k :: k in l.items ==> l.items[k].readAt != number
  }

  /** The second part: the read is no longer in flight, and its result is kept if no invalidation came between. */
  ghost function End(c: Cache, call: Call, result: Result, now: int): Cache
    requires Valid(c.positive) && Whole(c.positive) && Valid(c.negative) && NotYet(c.positive, call.number)
  {
    var kept := Kept(c, call, result, now);
    c.(positive := LandPositive(c.positive, kept), negative := LandNegative(c.negative, call.ref, kept),
       inflight := LandInflight(c.inflight, call))
  }

  function ForgetPositive(l: Lru, ref: string): Lru {
    RemoveKey(if ref in l.items then RemoveEntry(l, l.items[ref]) else l, ref)
  }

  function ForgetAllPositive(l: Lru, refs: seq<string>): Lru {
    if refs == [] then l else ForgetPositive(ForgetAllPositive(l, refs[..|refs| - 1]), refs[|refs| - 1])
  }

  function Named(refs: seq<string>): set<string> {
    set ref | ref in refs
  }

  lemma {:induction false} NamedNext(refs: seq<string>, i: nat)
    requires i < |refs|
    ensures Named(refs[..i + 1]) == Named(refs[..i]) + {refs[i]}
  {
    assert refs[..i + 1] == refs[..i] + [refs[i]];
  }

  /** Drops what is known of the references, whole entries at a time, and starts a new epoch. */
  function Invalidate(c: Cache, refs: seq<string>): Cache {
    c.(epoch := c.epoch + 1, positive := ForgetAllPositive(c.positive, refs), negative := RemoveAllKeys(c.negative, refs),
       inflight := c.inflight - Named(refs))
  }

  // ---- Every interleaving of lookups and invalidations ----

  /**
     The cache with its history: the reads still running, for each reference how
     many reads had begun when it was last invalidated, and the same for the
     last invalidation of any.
   */
  datatype World = World(cache: Cache, running: set<Call>, forgotten: map<string, nat>, last: nat)

  datatype Step = Lookup(ref: string, now: int) | Land(call: Call, result: Result, now: int) | Drop(refs: seq<string>)

  const NEW_WORLD := World(NEW_CACHE, {}, map[], 0)

  ghost predicate Enabled(w: World, s: Step) {
    s.Land? ==> s.call in w.running
  }

  function Marked(forgotten: map<string, nat>, refs: seq<string>, begun: nat): map<string, nat> {
    if refs == [] then forgotten else Marked(forgotten, refs[..|refs| - 1], begun)[refs[|refs| - 1] := begun]
  }

  /** The result of a read can land: the caches are well formed and have no entry of the read yet. */
  ghost predicate Defined(c: Cache, s: Step) {
    s.Land? ==> Valid(c.positive) && Whole(c.positive) && Valid(c.negative) && NotYet(c.positive, s.call.number)
  }

  ghost function Apply(w: World, s: Step): World
    requires Defined(w.cache, s)
  {
    match s
    case Lookup(ref, now) =>
      var b := Begin(w.cache, ref, now);
      w.(cache := b.cache, running := if b.answer.Read? then w.running + {b.answer.call} else w.running)
    case Land(call, result, now) =>
      w.(cache := End(w.cache, call, result, now), running := w.running - {call})
    case Drop(refs) =>
      w.(cache := Invalidate(w.cache, refs), forgotten := Marked(w.forgotten, refs, w.cache.begun), last := w.cache.begun)
  }

  /** The caches are well formed: complete entries, sizes within capacity. */
  ghost predicate PositiveOk(l: Lru) {
    Valid(l) && Whole(l) && |l.items| <= MAX_KEYS && forall k :: k in l.items ==> !l.items[k].notFound
  }

  ghost predicate NegativeOk(l: Lru) {
    Valid(l) && |l.items| <= MAX_NEGATIVE && forall k :: k in l.items ==> l.items[k].notFound && l.items[k].keys == [k]
  }

  ghost predicate Shaped(c: Cache) {
    PositiveOk(c.positive) && NegativeOk(c.negative)
  }

  /** Nothing cached or in flight under a reference was read from before its last invalidation. */
  ghost predicate Recent(c: Cache, forgotten: map<string, nat>) {
    RecentItems(c.positive, forgotten) && RecentItems(c.negative, forgotten) && RecentCalls(c.inflight, forgotten)
  }

  ghost predicate RecentItems(l: Lru, forgotten: map<string, nat>) {
    forall k :: k in l.items ==> Since(l.items[k].readAt, forgotten, k)
  }

  ghost predicate RecentCalls(inflight: map<string, Call>, forgotten: map<string, nat>) {
    forall k :: k in inflight ==> Since(inflight[k].number, forgotten, k)
  }

  ghost predicate Since(number: nat, forgotten: map<string, nat>, ref: string) {
    ref in forgotten ==> number > forgotten[ref]
  }

  /** Reads are numbered as they begin; one begun in the current epoch began after every invalidation. */
  ghost predicate Numbered(running: set<Call>, begun: nat, epoch: nat, last: nat) {
    && (forall call :: call in running ==> call.number <= begun && call.epoch <= epoch)
    && (forall call :: call in running && call.epoch == epoch ==> call.number > last)
    && (forall a, b :: a in running && b in running && a.number == b.number ==> a == b)
  }

  /** A cached entry comes from a read that has ended. */
  ghost predicate Ended(l: Lru, running: set<Call>, begun: nat) {
    forall k :: k in l.items ==> l.items[k].readAt <= begun && forall call :: call in running ==> call.number != l.items[k].readAt
  }

  /** A running read is registered under its reference unless an invalidation superseded it. */
  ghost predicate Registered(inflight: map<string, Call>, running: set<Call>, forgotten: map<string, nat>) {
    && (forall k :: k in inflight ==> inflight[k] in running && inflight[k].ref == k)
    && (forall call :: call in running ==> InFlight(inflight, call) || !Since(call.number, forgotten, call.ref))
  }

  ghost predicate InFlight(inflight: map<string, Call>, call: Call) {
    call.ref in inflight && inflight[call.ref] == call
  }

  ghost predicate Dated(forgotten: map<string, nat>, last: nat, begun: nat) {
    last <= begun && forall k :: k in forgotten ==> forgotten[k] <= last
  }

  ghost predicate Inv(w: World) {
    && Shaped(w.cache)
    && Recent(w.cache, w.forgotten)
    && Numbered(w.running, w.cache.begun, w.cache.epoch, w.last)
    && Ended(w.cache.positive, w.running, w.cache.begun) && Ended(w.cache.negative, w.running, w.cache.begun)
    && Registered(w.cache.inflight, w.running, w.forgotten)
    && Dated(w.forgotten, w.last, w.cache.begun)
  }

  /** `r` keeps some of the entries of `l`. */
  ghost predicate Fewer(r: Lru, l: Lru) {
    Valid(r) && Within(r, l) && |r.items| <= |l.items|
  }

  // ---- Lookup ----

  lemma {:induction false} CheckPositiveKeeps(l: Lru, ref: string, now: int)
    requires Valid(l) && Whole(l)
    ensures var r := CheckPositive(l, ref, now);
            Fewer(r, l) && Whole(r) && (ref in r.items <==> ref in l.items && now < l.items[ref].expires)
  {
    if ref in l.items {
      FrontValid(l, ref, l.items[ref]);
      var front := ToFront(l, ref);
      assert forall k :: k in l.items ==> Complete(l, k) && Complete(front, k);
      assert Whole(front);
      if now >= l.items[ref].expires {
        RemoveWhole(front, ref);
      }
    }
  }

  lemma {:induction false} RemoveKeyKeeps(l: Lru, k: string)
    requires Valid(l)
    ensures Fewer(RemoveKey(l, k), l) && k !in RemoveKey(l, k).items
  {
    if k in l.items {
      CutValid(l, {k});
      CutSmaller(l, {k});
    }
  }

  lemma {:induction false} CheckNegativeKeeps(l: Lru, ref: string, now: int)
    requires Valid(l)
    ensures var r := CheckNegative(l, ref, now);
            Fewer(r, l) && (ref in r.items <==> ref in l.items && now < l.items[ref].expires)
  {
    if ref in l.items {
      FrontValid(l, ref, l.items[ref]);
      RemoveKeyKeeps(ToFront(l, ref), ref);
    }
  }

  /** Both caches keep some of their entries. */
  ghost predicate Shrinks(c: Cache, c': Cache) {
    Fewer(c'.positive, c.positive) && Whole(c'.positive) && Fewer(c'.negative, c.negative)
  }

  lemma {:induction false} ShrunkShaped(c: Cache, c': Cache)
    requires Shaped(c) && Shrinks(c, c')
    ensures Shaped(c')
  {
  }

  lemma {:induction false} BeginShrinks(c: Cache, ref: string, now: int)
    requires Shaped(c)
    ensures var b := Begin(c, ref, now);
            && Shrinks(c, b.cache) && b.cache.epoch == c.epoch
            && (b.answer.Read? ==> ref !in c.inflight && b.answer.call == Call(ref, c.begun + 1, c.epoch)
                                   && b.cache.inflight == c.inflight[ref := b.answer.call] && b.cache.begun == c.begun + 1)
            && (!b.answer.Read? ==> b.cache.inflight == c.inflight && b.cache.begun == c.begun)
  {
    CheckPositiveKeeps(c.positive, ref, now);
    CheckNegativeKeeps(c.negative, ref, now);
  }

  lemma {:induction false} FewerRecent(l: Lru, r: Lru, running: set<Call>, begun: nat, forgotten: map<string, nat>)
    requires Fewer(r, l)
    ensures RecentItems(l, forgotten) ==> RecentItems(r, forgotten)
    ensures Ended(l, running, begun) ==> Ended(r, running, begun)
  {
    if RecentItems(l, forgotten) {
      forall k | k in r.items ensures Since(r.items[k].readAt, forgotten, k) {
        assert Since(l.items[k].readAt, forgotten, k);
      }
    }
  }

  lemma {:induction false} LookupStep(w: World, ref: string, now: int)
    requires Inv(w)
    ensures Inv(Apply(w, Lookup(ref, now)))
  {
    var b := Begin(w.cache, ref, now);
    BeginShrinks(w.cache, ref, now);
    ShrunkShaped(w.cache, b.cache);
    FewerRecent(w.cache.positive, b.cache.positive, w.running, w.cache.begun, w.forgotten);
    FewerRecent(w.cache.negative, b.cache.negative, w.running, w.cache.begun, w.forgotten);
    if b.answer.Read? {
      var call := b.answer.call;
      NewReadNumbered(w.running, w.cache.begun, w.cache.epoch, w.last, call);
      assert Dated(w.forgotten, w.last, w.cache.begun + 1);
      NewRead(w.cache.inflight, w.running, w.forgotten, w.last, w.cache.begun, call);
      NewReadEnded(b.cache.positive, w.running, w.cache.begun, call);
      NewReadEnded(b.cache.negative, w.running, w.cache.begun, call);
    }
  }

  lemma {:induction false} NewReadNumbered(running: set<Call>, begun: nat, epoch: nat, last: nat, call: Call)
    requires Numbered(running, begun, epoch, last) && last <= begun && call.number == begun + 1 && call.epoch == epoch
    ensures Numbered(running + {call}, begun + 1, epoch, last)
  {
  }

  lemma {:induction false} NewReadEnded(l: Lru, running: set<Call>, begun: nat, call: Call)
    requires Ended(l, running, begun) && call.number == begun + 1
    ensures Ended(l, running + {call}, begun + 1)
  {
  }

  lemma {:induction false} NewRead(inflight: map<string, Call>, running: set<Call>, forgotten: map<string, nat>, last: nat, begun: nat, call: Call)
    requires Registered(inflight, running, forgotten) && Dated(forgotten, last, begun) && RecentCalls(inflight, forgotten)
    requires call.ref !in inflight && call.number == begun + 1
    ensures Registered(inflight[call.ref := call], running + {call}, forgotten) && RecentCalls(inflight[call.ref := call], forgotten)
  {
    var inflight' := inflight[call.ref := call];
    forall other | other in running + {call} ensures InFlight(inflight', other) || !Since(other.number, forgotten, other.ref) {
      assert other != call ==> InFlight(inflight, other) || !Since(other.number, forgotten, other.ref);
    }
    forall k | k in inflight' ensures Since(inflight'[k].number, forgotten, k) {
      assert k != call.ref ==> Since(inflight[k].number, forgotten, k);
    }
  }

  // ---- The end of a read ----

  lemma {:induction false} KeysDistinct(keys: seq<string>)
    ensures Distinct(KeysOf(keys)) && "" !in KeysOf(keys)
  {
    if keys != [] {
      KeysDistinct(keys[..|keys| - 1]);
    }
  }

  lemma {:induction false} RemoveAllKeysKeeps(l: Lru, keys: seq<string>)
    requires Valid(l)
    ensures Fewer(RemoveAllKeys(l, keys), l) && forall k :: k in keys ==> k !in RemoveAllKeys(l, keys).items
  {
    if keys != [] {
      assert forall k :: k in keys ==> k == keys[|keys| - 1] || k in keys[..|keys| - 1];
      RemoveAllKeysKeeps(l, keys[..|keys| - 1]);
      RemoveKeyKeeps(RemoveAllKeys(l, keys[..|keys| - 1]), keys[|keys| - 1]);
    }
  }

  /** Whatever is cached after a read landed was cached before, or is what this read found. */
  ghost predicate Gains(l: Lru, l': Lru, number: nat) {
    forall k :: k in l'.items ==> l'.items[k].readAt == number || SameItem(l, l', k)
  }

  ghost predicate SameItem(l: Lru, l': Lru, k: string) {
    k in l.items && k in l'.items && l'.items[k] == l.items[k]
  }

  lemma {:induction false} PositiveLands(l: Lru, kept: Option<Entry>, number: nat)
    requires PositiveOk(l) && NotYet(l, number)
    requires kept.Some? ==> kept.value.readAt == number && Distinct(kept.value.keys) && |kept.value.keys| <= 3
    ensures var l' := LandPositive(l, kept); PositiveOk(l') && Gains(l, l', number)
  {
    if kept.Some? && !kept.value.notFound {
      StoreWhole(l, kept.value, MAX_KEYS);
      var l' := LandPositive(l, kept);
      forall k | k in l'.items ensures !l'.items[k].notFound && (l'.items[k].readAt == number || SameItem(l, l', k)) {
        assert k in kept.value.keys || k in l.items;
      }
    }
  }

  lemma {:induction false} NegativeLands(l: Lru, ref: string, kept: Option<Entry>, number: nat)
    requires NegativeOk(l)
    requires kept.Some? ==> kept.value.readAt == number && (kept.value.notFound ==> kept.value.keys == [ref])
    ensures var l' := LandNegative(l, ref, kept); NegativeOk(l') && Gains(l, l', number)
  {
    if kept.Some? {
      if kept.value.notFound {
        PutWithin(l, ref, kept.value, MAX_NEGATIVE);
        PutSize(l, ref, kept.value, MAX_NEGATIVE);
      } else {
        RemoveAllKeysKeeps(l, kept.value.keys);
      }
    }
  }

  lemma {:induction false} EntryShape(call: Call, result: Result, now: int)
    ensures var e := EntryOf(call, result, now);
            e.Some? ==> && e.value.readAt == call.number && Distinct(e.value.keys) && |e.value.keys| <= 3
                        && (e.value.notFound ==> e.value.keys == [call.ref])
  {
    if result.Found? {
      KeysDistinct([result.record.name, result.record.id, call.ref]);
    }
  }

  lemma {:induction false} LandRegisters(inflight: map<string, Call>, running: set<Call>, forgotten: map<string, nat>, call: Call)
    requires Registered(inflight, running, forgotten) && call in running
    ensures Registered(LandInflight(inflight, call), running - {call}, forgotten)
  {
    var inflight' := LandInflight(inflight, call);
    forall other | other in running - {call} ensures InFlight(inflight', other) || !Since(other.number, forgotten, other.ref) {
      assert InFlight(inflight, other) || !Since(other.number, forgotten, other.ref);
    }
  }

  lemma {:induction false} LandEnded(l: Lru, l': Lru, running: set<Call>, call: Call, begun: nat)
    requires Ended(l, running, begun) && call in running && call.number <= begun && Gains(l, l', call.number)
    requires forall a, b :: a in running && b in running && a.number == b.number ==> a == b
    ensures Ended(l', running - {call}, begun)
  {
    forall k | k in l'.items
      ensures l'.items[k].readAt <= begun && forall other :: other in running - {call} ==> other.number != l'.items[k].readAt
    {
      assert l'.items[k].readAt == call.number || SameItem(l, l', k);
    }
  }

  lemma {:induction false} LandRecent(l: Lru, l': Lru, number: nat, forgotten: map<string, nat>, last: nat)
    requires RecentItems(l, forgotten) && Gains(l, l', number) && forall k :: k in forgotten ==> forgotten[k] <= last
    requires l' == l || number > last
    ensures RecentItems(l', forgotten)
  {
    forall k | k in l'.items ensures Since(l'.items[k].readAt, forgotten, k) {
      assert l'.items[k].readAt == number || SameItem(l, l', k);
      assert k in l.items ==> Since(l.items[k].readAt, forgotten, k);
    }
  }

  lemma {:induction false} LandStep(w: World, call: Call, result: Result, now: int)
    requires Inv(w) && call in w.running
    ensures Inv(Apply(w, Land(call, result, now)))
  {
    var kept := Kept(w.cache, call, result, now);
    EntryShape(call, result, now);
    PositiveLands(w.cache.positive, kept, call.number);
    NegativeLands(w.cache.negative, call.ref, kept, call.number);
    LandRegisters(w.cache.inflight, w.running, w.forgotten, call);
    var c' := End(w.cache, call, result, now);
    LandEnded(w.cache.positive, c'.positive, w.running, call, w.cache.begun);
    LandEnded(w.cache.negative, c'.negative, w.running, call, w.cache.begun);
    LandRecent(w.cache.positive, c'.positive, call.number, w.forgotten, w.last);
    LandRecent(w.cache.negative, c'.negative, call.number, w.forgotten, w.last);
  }

  // ---- Invalidation ----

  lemma {:induction false} ForgetPositiveKeeps(l: Lru, ref: string)
    requires Valid(l) && Whole(l)
    ensures var r := ForgetPositive(l, ref); Fewer(r, l) && Whole(r) && ref !in r.items
  {
    if ref in l.items {
      RemoveWhole(l, ref);
    }
  }

  /** An invalidated reference has nothing cached and no read in flight. */
  ghost predicate Absent(c: Cache, ref: string) {
    ref !in c.positive.items && ref !in c.negative.items && ref !in c.inflight
  }

  lemma {:induction false} ForgetAllKeeps(l: Lru, refs: seq<string>)
    requires Valid(l) && Whole(l)
    ensures var r := ForgetAllPositive(l, refs); Fewer(r, l) && Whole(r) && forall ref :: ref in refs ==> ref !in r.items
  {
    if refs != [] {
      var before, ref := refs[..|refs| - 1], refs[|refs| - 1];
      ForgetAllKeeps(l, before);
      ForgetPositiveKeeps(ForgetAllPositive(l, before), ref);
      assert forall other :: other in refs ==> other == ref || other in before;
    }
  }

  lemma {:induction false} MarkedAll(forgotten: map<string, nat>, refs: seq<string>, begun: nat)
    ensures var marked := Marked(forgotten, refs, begun);
            forall k :: if k in refs then k in marked && marked[k] == begun
                        else (k in marked <==> k in forgotten) && (k in marked ==> marked[k] == forgotten[k])
  {
    if refs != [] {
      var before, ref := refs[..|refs| - 1], refs[|refs| - 1];
      MarkedAll(forgotten, before, begun);
      assert refs == before + [ref];
    }
  }

  lemma {:induction false} DropRegisters(inflight: map<string, Call>, running: set<Call>, forgotten: map<string, nat>, refs: seq<string>, begun: nat)
    requires Registered(inflight, running, forgotten) && forall call :: call in running ==> call.number <= begun
    ensures Registered(inflight - Named(refs), running, Marked(forgotten, refs, begun))
  {
    MarkedAll(forgotten, refs, begun);
    var inflight' := inflight - Named(refs);
    forall call | call in running ensures InFlight(inflight', call) || !Since(call.number, Marked(forgotten, refs, begun), call.ref) {
      assert InFlight(inflight, call) || !Since(call.number, forgotten, call.ref);
    }
  }

  lemma {:induction false} DropRecent(l: Lru, r: Lru, forgotten: map<string, nat>, refs: seq<string>, begun: nat)
    requires RecentItems(l, forgotten) && Fewer(r, l) && forall k :: k in refs ==> k !in r.items
    ensures RecentItems(r, Marked(forgotten, refs, begun))
  {
    MarkedAll(forgotten, refs, begun);
    forall k | k in r.items ensures Since(r.items[k].readAt, Marked(forgotten, refs, begun), k) {
      assert Since(l.items[k].readAt, forgotten, k);
    }
  }

  lemma {:induction false} DropRecentCalls(inflight: map<string, Call>, forgotten: map<string, nat>, refs: seq<string>, begun: nat)
    requires RecentCalls(inflight, forgotten)
    ensures RecentCalls(inflight - Named(refs), Marked(forgotten, refs, begun))
  {
    MarkedAll(forgotten, refs, begun);
    forall k | k in inflight && k !in refs ensures Since(inflight[k].number, Marked(forgotten, refs, begun), k) {
      assert Since(inflight[k].number, forgotten, k);
    }
  }

  lemma {:induction false} DropStep(w: World, refs: seq<string>)
    requires Inv(w)
    ensures Inv(Apply(w, Drop(refs)))
    ensures forall ref :: ref in refs ==> Absent(Apply(w, Drop(refs)).cache, ref)
  {
    InvalidateKeeps(w.cache, refs);
    DropTo(w, refs, Invalidate(w.cache, refs));
  }

  lemma {:induction false} InvalidateKeeps(c: Cache, refs: seq<string>)
    requires Shaped(c)
    ensures Shrinks(c, Invalidate(c, refs)) && forall ref :: ref in refs ==> Absent(Invalidate(c, refs), ref)
  {
    ForgetAllKeeps(c.positive, refs);
    RemoveAllKeysKeeps(c.negative, refs);
  }

  lemma {:induction false} DropTo(w: World, refs: seq<string>, c': Cache)
    requires Inv(w) && Shrinks(w.cache, c') && forall ref :: ref in refs ==> Absent(c', ref)
    requires c'.epoch == w.cache.epoch + 1 && c'.begun == w.cache.begun && c'.inflight == w.cache.inflight - Named(refs)
    ensures Inv(World(c', w.running, Marked(w.forgotten, refs, w.cache.begun), w.cache.begun))
  {
    var begun := w.cache.begun;
    assert forall k :: k in refs ==> Absent(c', k) && k !in c'.positive.items && k !in c'.negative.items;
    ShrunkShaped(w.cache, c');
    FewerRecent(w.cache.positive, c'.positive, w.running, begun, w.forgotten);
    FewerRecent(w.cache.negative, c'.negative, w.running, begun, w.forgotten);
    DropRecent(w.cache.positive, c'.positive, w.forgotten, refs, begun);
    DropRecent(w.cache.negative, c'.negative, w.forgotten, refs, begun);
    DropRecentCalls(w.cache.inflight, w.forgotten, refs, begun);
    DropRegisters(w.cache.inflight, w.running, w.forgotten, refs, begun);
    DropDated(w.forgotten, w.last, refs, begun);
    DropNumbered(w.running, begun, w.cache.epoch, w.last);
  }

  lemma {:induction false} DropDated(forgotten: map<string, nat>, last: nat, refs: seq<string>, begun: nat)
    requires Dated(forgotten, last, begun)
    ensures Dated(Marked(forgotten, refs, begun), begun, begun)
  {
    MarkedAll(forgotten, refs, begun);
  }

  /** No running read belongs to the new epoch. */
  lemma {:induction false} DropNumbered(running: set<Call>, begun: nat, epoch: nat, last: nat)
    requires Numbered(running, begun, epoch, last)
    ensures Numbered(running, begun, epoch + 1, begun)
  {
  }

  // ---- Every run ----

  lemma {:induction false} ForgetExact(l: Lru, refs: seq<string>, k: string)
    requires Valid(l) && Whole(l) && k in l.items
    ensures k in ForgetAllPositive(l, refs).items <==> !SharesKey(l, k, refs)
  {
    if refs != [] {
      var n := |refs| - 1;
      var before, last := ForgetAllPositive(l, refs[..n]), refs[n];
      assert refs == refs[..n] + [last];
      ForgetExact(l, refs[..n], k);
      ForgetAllKeeps(l, refs[..n]);
      assert SharesKey(l, k, refs) <==> SharesKey(l, k, refs[..n]) || (last in l.items && l.items[last] == l.items[k]);
      if last in l.items {
        ForgetExact(l, refs[..n], last);
        assert l.items[last] == l.items[k] ==> (SharesKey(l, last, refs[..n]) <==> SharesKey(l, k, refs[..n]));
      }
      hide SharesKey;
      ForgetOne(before, last, k);
    }
  }

  lemma {:induction false} ForgetOne(l: Lru, ref: string, k: string)
    requires Valid(l) && Whole(l)
    ensures k in ForgetPositive(l, ref).items <==> k in l.items && !(ref in l.items && l.items[ref] == l.items[k])
  {
    if ref in l.items {
      RemoveWhole(l, ref);
      if k in l.items {
        RemoveExact(l, l.items[ref], k);
      }
    }
  }

  lemma {:induction false} RemovedExact(l: Lru, keys: seq<string>)
    requires Valid(l)
    ensures forall k :: k in RemoveAllKeys(l, keys).items <==> k in l.items && k !in keys
  {
    if keys != [] {
      var n := |keys| - 1;
      RemovedExact(l, keys[..n]);
      assert keys == keys[..n] + [keys[n]];
    }
  }

  /** An invalidation takes exactly the configs cached under one of the references, and what was missing or is being read under one. */
  lemma {:induction false} DropTakes(w: World, refs: seq<string>, k: string)
    requires Inv(w)
    ensures var c, c' := w.cache, Apply(w, Drop(refs)).cache;
            && (k in c'.positive.items <==> k in c.positive.items && !SharesKey(c.positive, k, refs))
            && (k in c'.negative.items <==> k in c.negative.items && k !in refs)
            && (k in c'.inflight <==> k in c.inflight && k !in refs)
            && Within(c'.positive, c.positive) && Within(c'.negative, c.negative)
  {
    hide SharesKey, ForgetAllPositive, RemoveAllKeys, Recent, Numbered, Ended, Registered, Dated;
    ForgetAllKeeps(w.cache.positive, refs);
    RemoveAllKeysKeeps(w.cache.negative, refs);
    RemovedExact(w.cache.negative, refs);
    if k in w.cache.positive.items {
      ForgetExact(w.cache.positive, refs, k);
    }
  }

  /**
     A config that lands takes exactly its place: another one stays unless it held
     one of its keys or no longer fits behind it.
   */
  lemma {:induction false} LandTakes(w: World, call: Call, record: Record, now: int, k: string)
    requires Inv(w) && call in w.running && call.epoch == w.cache.epoch && k in w.cache.positive.items
    requires k !in KeysOf([record.name, record.id, call.ref])
    ensures var c, c', e := w.cache, Apply(w, Land(call, Found(record), now)).cache, EntryOf(call, Found(record), now).value;
            var dropped := DropHolders(c.positive, e, e.keys);
            && (k in c'.positive.items <==>
                  !SharesKey(c.positive, k, e.keys) && k in dropped.items && |e.keys| + |NotOlder(dropped, k)| <= 512)
            && (k in c'.positive.items ==> c'.positive.items[k] == c.positive.items[k])
            && (forall other :: other in c'.negative.items <==> other in c.negative.items && other !in e.keys)
  {
    var e := EntryOf(call, Found(record), now).value;
    EntryShape(call, Found(record), now);
    RemovedExact(w.cache.negative, e.keys);
    hide KeysOf;
    StoreExact(w.cache.positive, e, MAX_KEYS, k);
  }

  lemma {:induction false} StepKeepsInv(w: World, s: Step)
    requires Inv(w) && Enabled(w, s)
    ensures Inv(Apply(w, s))
  {
    match s
    case Lookup(ref, now) => LookupStep(w, ref, now);
    case Land(call, result, now) => LandStep(w, call, result, now);
    case Drop(refs) => DropStep(w, refs);
  }

  lemma {:induction false} InitialInv()
    ensures Inv(NEW_WORLD)
  {
  }

  /** One step; what it does is only said where the invariant holds. */
  ghost predicate Next(w: World, s: Step, w': World) {
    Enabled(w, s) && (Defined(w.cache, s) ==> w' == Apply(w, s))
  }

  /** `w` can be reached from the empty cache by these steps. */
  ghost predicate Reaches(steps: seq<Step>, w: World)
    decreases |steps|, 0
  {
    if steps == [] then w == NEW_WORLD else ReachesBy(steps[..|steps| - 1], steps[|steps| - 1], w)
  }

  ghost predicate ReachesBy(steps: seq<Step>, last: Step, w: World)
    decreases |steps|, 1
  {
    exists before :: Reaches(steps, before) && Next(before, last, w)
  }

  lemma {:induction false} ReachableInv(steps: seq<Step>, w: World)
    requires Reaches(steps, w)
    ensures Inv(w)
  {
    if steps == [] {
      InitialInv();
    } else {
      var before :| Reaches(steps[..|steps| - 1], before) && Next(before, steps[|steps| - 1], w);
      ReachableInv(steps[..|steps| - 1], before);
      StepKeepsInv(before, steps[|steps| - 1]);
    }
  }

  /**
     No stale result is resurrected: whatever a lookup is given, be it cached or
     the result of a read it joins, was read by a read that began after the last
     invalidation of the reference.
   */
  lemma {:induction false} NothingStale(steps: seq<Step>, w: World, ref: string, now: int)
    requires Reaches(steps, w)
    ensures match Begin(w.cache, ref, now).answer
            case Hit(e) => Since(e.readAt, w.forgotten, ref)
            case Join(call) => call.ref == ref && Since(call.number, w.forgotten, ref)
            case Read(call) => call.ref == ref && call.number > w.last
  {
    ReachableInv(steps, w);
    CheckPositiveKeeps(w.cache.positive, ref, now);
    CheckNegativeKeeps(w.cache.negative, ref, now);
  }

  /** A hit has not expired and belongs to the reference asked for. */
  lemma {:induction false} HitIsFresh(steps: seq<Step>, w: World, ref: string, now: int)
    requires Reaches(steps, w) && Begin(w.cache, ref, now).answer.Hit?
    ensures var e := Begin(w.cache, ref, now).answer.entry; now < e.expires && ref in e.keys
  {
    ReachableInv(steps, w);
    CheckPositiveKeeps(w.cache.positive, ref, now);
    CheckNegativeKeeps(w.cache.negative, ref, now);
    assert ref in w.cache.positive.items ==> Complete(w.cache.positive, ref);
  }

  /** The answer of a lookup: an entry that has not expired, positive ones first, else the read in flight, else a new one. */
  lemma {:induction false} BeginAnswers(c: Cache, ref: string, now: int)
    requires Shaped(c)
    ensures var b := Begin(c, ref, now);
            var known := if ref in c.positive.items && now < c.positive.items[ref].expires then Some(c.positive.items[ref])
                         else if ref in c.negative.items && now < c.negative.items[ref].expires then Some(c.negative.items[ref])
                         else None;
            && b.answer == (if known.Some? then Hit(known.value) else if ref in c.inflight then Join(c.inflight[ref]) else Read(Call(ref, c.begun + 1, c.epoch)))
            && (forall k :: k in b.cache.positive.items <==>
                  k in c.positive.items && !(ref in c.positive.items && now >= c.positive.items[ref].expires && c.positive.items[k] == c.positive.items[ref]))
            && (forall k :: k in b.cache.negative.items <==>
                  k in c.negative.items && !(k == ref && now >= c.negative.items[ref].expires && !b.answer.Hit?))
            && Within(b.cache.positive, c.positive) && Within(b.cache.negative, c.negative)
            && (b.answer.Hit? && !b.answer.entry.notFound ==> b.cache.positive == ToFront(c.positive, ref))
  {
    CheckPositiveKeeps(c.positive, ref, now);
    CheckNegativeKeeps(c.negative, ref, now);
    forall k | k in c.positive.items
      ensures k in CheckPositive(c.positive, ref, now).items
              <==> !(ref in c.positive.items && now >= c.positive.items[ref].expires && c.positive.items[k] == c.positive.items[ref])
    {
      CheckPositiveExact(c.positive, ref, now, k);
    }
    hide CheckPositive;
  }

  lemma {:induction false} CheckPositiveExact(l: Lru, ref: string, now: int, k: string)
    requires Valid(l) && Whole(l) && k in l.items
    ensures k in CheckPositive(l, ref, now).items <==> !(ref in l.items && now >= l.items[ref].expires && l.items[k] == l.items[ref])
  {
    if ref in l.items && now >= l.items[ref].expires {
      FrontValid(l, ref, l.items[ref]);
      var front := ToFront(l, ref);
      assert forall other :: other in l.items ==> Complete(l, other) && Complete(front, other);
      RemoveExact(front, l.items[ref], k);
      RemoveWhole(front, ref);
    }
  }

  /**
     Unless an invalidation came between, the lookups of the next five seconds are
     given what the read found, under each key of the config, and later ones are
     not.
   */
  lemma {:induction false} LandedIsFound(w: World, call: Call, record: Record, now: int, k: string, at: int)
    requires Inv(w) && call in w.running && call.epoch == w.cache.epoch
    requires k != "" && k in {record.name, record.id, call.ref}
    ensures var answer := Begin(Apply(w, Land(call, Found(record), now)).cache, k, at).answer;
            if at < now + 5000 then
              && answer.Hit? && Reports(Some(answer.entry), call, Found(record), now)
              && ReplyOf(Some(answer.entry)) == (if record.routes.Some? then Routed(record.routes.value) else Invalid)
            else !answer.Hit?
  {
    var result := Found(record);
    var e := EntryOf(call, result, now).value;
    EntryShape(call, result, now);
    EntryReports(call, result, now);
    StoreWhole(w.cache.positive, e, MAX_KEYS);
    var landed := Apply(w, Land(call, result, now)).cache;
    LandStep(w, call, result, now);
    assert k in e.keys;
    RemoveAllKeysKeeps(w.cache.negative, e.keys);
    assert k in landed.positive.items && landed.positive.items[k] == e && k !in landed.negative.items;
    hide EntryOf, Store, Apply, Begin;
    BeginAnswers(landed, k, at);
  }

  /**
     A config that is missing is remembered for two seconds under a reference that
     is not too long, beside a config still cached under it.
   */
  lemma {:induction false} MissingIsFound(w: World, call: Call, now: int, at: int)
    requires Inv(w) && call in w.running && call.epoch == w.cache.epoch
    ensures var ref, c := call.ref, w.cache;
            var answer := Begin(Apply(w, Land(call, Missing, now)).cache, ref, at).answer;
            if ref in c.positive.items && at < c.positive.items[ref].expires then answer == Hit(c.positive.items[ref])
            else if |ref| <= 256 then
              if at < now + 2000 then answer.Hit? && Reports(Some(answer.entry), call, Missing, now) else !answer.Hit?
            else if ref in c.negative.items && at < c.negative.items[ref].expires then answer == Hit(c.negative.items[ref])
            else !answer.Hit?
  {
    var ref, e := call.ref, EntryOf(call, Missing, now).value;
    EntryReports(call, Missing, now);
    EntryShape(call, Missing, now);
    var landed := Apply(w, Land(call, Missing, now)).cache;
    LandStep(w, call, Missing, now);
    if |ref| <= 256 {
      NegativeHas(w.cache.negative, ref, e);
      assert landed.negative == Put(w.cache.negative, ref, e, MAX_NEGATIVE);
    }
    assert landed.positive == w.cache.positive;
    hide EntryOf, Apply, Begin;
    BeginAnswers(landed, ref, at);
  }

  lemma {:induction false} NegativeLeads(l: Lru, ref: string, e: Entry)
    requires NegativeOk(l) && e.keys == [ref] && NotYet(l, e.readAt) && ref !in l.items
    ensures var front := Lru([ref] + l.order, l.items[ref := e]); Valid(front) && Leads(front, e, 1) && OthersWhole(front, e)
  {
    FrontValid(l, ref, e);
    var front := Lru([ref] + l.order, l.items[ref := e]);
    assert front.order[..1] == [ref] && front.order[1..] == l.order;
    forall k | k in l.items ensures k != ref && front.items[k] == l.items[k] != e && Complete(front, k) {
      assert l.items[k].keys == [k];
    }
  }

  lemma {:induction false} NegativeHas(l: Lru, ref: string, e: Entry)
    requires NegativeOk(l) && e.keys == [ref] && NotYet(l, e.readAt)
    ensures ref in Put(l, ref, e, MAX_NEGATIVE).items && Put(l, ref, e, MAX_NEGATIVE).items[ref] == e
  {
    if ref !in l.items {
      NegativeLeads(l, ref, e);
      hide Leads, OthersWhole, Valid;
      EvictKeeps(Lru([ref] + l.order, l.items[ref := e]), e, 1, MAX_NEGATIVE);
    }
  }

  /** A read that failed, or began before the last invalidation, leaves what is cached alone. */
  lemma {:induction false} OtherwiseNotCached(w: World, call: Call, result: Result, now: int)
    requires Inv(w) && call in w.running && (result.Failed? || call.epoch != w.cache.epoch)
    ensures var landed := Apply(w, Land(call, result, now)).cache;
            landed.positive == w.cache.positive && landed.negative == w.cache.negative
  {
  }

  /** Every stored config is cached under all its keys or none, within capacity, in every reachable state. */
  lemma {:induction false} AllOrNothing(steps: seq<Step>, w: World)
    requires Reaches(steps, w)
    ensures Valid(w.cache.positive) && Whole(w.cache.positive) && |w.cache.positive.order| == |w.cache.positive.items| <= MAX_KEYS
    ensures Valid(w.cache.negative) && |w.cache.negative.order| == |w.cache.negative.items| <= MAX_NEGATIVE
  {
    ReachableInv(steps, w);
    SameSize(w.cache.positive);
    SameSize(w.cache.negative);
  }

  /** Two reads of one reference run together only when an invalidation came between their starts. */
  lemma {:induction false} SingleFlight(steps: seq<Step>, w: World, a: Call, b: Call)
    requires Reaches(steps, w) && a in w.running && b in w.running && a.ref == b.ref && a.number < b.number
    ensures a.ref in w.forgotten && a.number <= w.forgotten[a.ref]
  {
    ReachableInv(steps, w);
    assert InFlight(w.cache.inflight, a) || !Since(a.number, w.forgotten, a.ref);
    assert InFlight(w.cache.inflight, b) || !Since(b.number, w.forgotten, b.ref);
  }

  /** A read that was superseded leaves the newer one registered and the cache as it is. */
  lemma {:induction false} SupersededLeavesNewer(w: World, call: Call, result: Result, now: int)
    requires Inv(w) && call in w.running && !Since(call.number, w.forgotten, call.ref)
    ensures Apply(w, Land(call, result, now)).cache == w.cache
  {
    assert call.epoch != w.cache.epoch;
    assert !InFlight(w.cache.inflight, call);
  }

  // ---- The cache ----

  class ConfigRouterCache {
    const positive: ConfigLRU
    const negative: ConfigLRU
    var inflight: map<string, Call>
    var epoch: nat
    var begun: nat

    function View(): Cache
      reads this, positive, negative
    {
      Cache(positive.View(), negative.View(), inflight, epoch, begun)
    }

    ghost predicate Ready()
      reads this, positive, negative
    {
      positive != negative && Shaped(View())
    }

    constructor ()
      ensures Ready() && View() == NEW_CACHE && fresh(positive) && fresh(negative)
    {
      positive := new ConfigLRU();
      negative := new ConfigLRU();
      inflight, epoch, begun := map[], 0, 0;
    }

    method CheckPositiveCache(ref: string, now: int) returns (hit: Option<Entry>)
      requires Valid(positive.View()) && Whole(positive.View())
      modifies positive
      ensures positive.View() == CheckPositive(old(positive.View()), ref, now)
      ensures hit == if ref in positive.items then Some(positive.items[ref]) else None
    {
      CheckPositiveKeeps(positive.View(), ref, now);
      var found, entry := positive.Get(ref);
      if !found {
        return None;
      }
      if now < entry.expires {
        return Some(entry);
      }
      positive.RemoveAll(entry);
      positive.Remove(ref);
      hit := None;
    }

    method CheckNegativeCache(ref: string, now: int) returns (hit: Option<Entry>)
      requires Valid(negative.View())
      modifies negative
      ensures negative.View() == CheckNegative(old(negative.View()), ref, now)
      ensures hit == if ref in negative.items then Some(negative.items[ref]) else None
    {
      CheckNegativeKeeps(negative.View(), ref, now);
      var found, entry := negative.Get(ref);
      if !found {
        return None;
      }
      if now < entry.expires {
        return Some(entry);
      }
      negative.Remove(ref);
      hit := None;
    }

    /** The first critical section of a lookup. */
    method BeginLookup(ref: string, now: int) returns (answer: Answer)
      requires Ready()
      modifies this, positive, negative
      ensures Ready() && Begun(View(), answer) == Begin(old(View()), ref, now)
    {
      BeginShrinks(View(), ref, now);
      ShrunkShaped(View(), Begin(View(), ref, now).cache);
      answer := Answered(ref, now);
    }

    method Answered(ref: string, now: int) returns (answer: Answer)
      requires positive != negative && Valid(positive.View()) && Whole(positive.View()) && Valid(negative.View())
      modifies this, positive, negative
      ensures Begun(View(), answer) == Begin(old(View()), ref, now)
    {
      var hit := CheckPositiveCache(ref, now);
      if hit.Some? {
        return Hit(hit.value);
      }
      hit := CheckNegativeCache(ref, now);
      if hit.Some? {
        return Hit(hit.value);
      }
      if ref in inflight {
        return Join(inflight[ref]);
      }
      begun := begun + 1;
      var call := Call(ref, begun, epoch);
      inflight := inflight[ref := call];
      answer := Read(call);
    }

    method StoreEntry(entry: Entry)
      requires positive != negative && Valid(positive.View()) && Whole(positive.View())
      requires forall k :: k in positive.items ==> positive.items[k] != entry
      modifies positive, negative
      ensures Valid(DropHolders(old(positive.View()), entry, entry.keys))
      ensures positive.View() == Store(old(positive.View()), entry, MAX_KEYS)
      ensures negative.View() == RemoveAllKeys(old(negative.View()), entry.keys)
    {
      DropHoldersWhole(positive.View(), entry, entry.keys);
      DropHeld(entry);
      PutAll(entry);
    }

    /** A key held by another entry drops that entry completely. */
    method DropHeld(entry: Entry)
      requires positive != negative
      modifies positive, negative
      ensures positive.View() == DropHolders(old(positive.View()), entry, entry.keys)
      ensures negative.View() == RemoveAllKeys(old(negative.View()), entry.keys)
    {
      var keys := entry.keys;
      for i := 0 to |keys|
        invariant positive.View() == DropHolders(old(positive.View()), entry, keys[..i])
        invariant negative.View() == RemoveAllKeys(old(negative.View()), keys[..i])
      {
        assert keys[..i + 1][..i] == keys[..i];
        DropHolder(entry, keys[i]);
      }
      assert keys[..|keys|] == keys;
    }

    method DropHolder(entry: Entry, key: string)
      requires positive != negative
      modifies positive, negative
      ensures var l := old(positive.View());
              positive.View() == if key in l.items && l.items[key] != entry then RemoveEntry(l, l.items[key]) else l
      ensures negative.View() == RemoveKey(old(negative.View()), key)
    {
      if key in positive.items && positive.items[key] != entry {
        positive.RemoveAll(positive.items[key]);
      }
      negative.Remove(key);
    }

    method PutAll(entry: Entry)
      requires Valid(positive.View())
      modifies positive
      ensures positive.View() == PutKeys(old(positive.View()), entry, entry.keys, MAX_KEYS)
    {
      var keys := entry.keys;
      for i := 0 to |keys|
        invariant Valid(positive.View()) && positive.View() == PutKeys(old(positive.View()), entry, keys[..i], MAX_KEYS)
      {
        assert keys[..i + 1][..i] == keys[..i];
        positive.PutKey(keys[i], entry, MAX_KEYS);
      }
      assert keys[..|keys|] == keys;
    }

    /** The second critical section, after the store answered. */
    method EndLookup(call: Call, result: Result, now: int) returns (entry: Option<Entry>)
      requires Ready() && NotYet(positive.View(), call.number)
      modifies this, positive, negative
      ensures Ready() && View() == End(old(View()), call, result, now) && entry == EntryOf(call, result, now)
      ensures Reports(entry, call, result, now)
    {
      EntryReports(call, result, now);
      hide Reports;
      ghost var was, kept := View(), Kept(View(), call, result, now);
      EntryShape(call, result, now);
      PositiveLands(was.positive, kept, call.number);
      NegativeLands(was.negative, call.ref, kept, call.number);
      entry := EntryOf(call, result, now);
      if call.ref in inflight && inflight[call.ref] == call {
        inflight := inflight - {call.ref};
      }
      if entry.Some? && epoch == call.epoch {
        if entry.value.notFound {
          if |call.ref| <= MAX_NEGATIVE_BYTES {
            negative.PutKey(call.ref, entry.value, MAX_NEGATIVE);
          }
        } else {
          StoreEntry(entry.value);
        }
      }
    }

    method Forget(ref: string)
      requires positive != negative
      modifies positive, negative, `inflight
      ensures positive.View() == ForgetPositive(old(positive.View()), ref)
      ensures negative.View() == RemoveKey(old(negative.View()), ref)
      ensures inflight == old(inflight) - {ref}
    {
      if ref in positive.items {
        positive.RemoveAll(positive.items[ref]);
      }
      positive.Remove(ref);
      negative.Remove(ref);
      inflight := inflight - {ref};
    }

    method ForgetRefs(refs: seq<string>)
      requires positive != negative
      modifies positive, negative, `inflight
      ensures positive.View() == ForgetAllPositive(old(positive.View()), refs)
      ensures negative.View() == RemoveAllKeys(old(negative.View()), refs)
      ensures inflight == old(inflight) - Named(refs)
    {
      for i := 0 to |refs|
        invariant positive.View() == ForgetAllPositive(old(positive.View()), refs[..i])
        invariant negative.View() == RemoveAllKeys(old(negative.View()), refs[..i])
        invariant inflight == old(inflight) - Named(refs[..i])
      {
        assert refs[..i + 1][..i] == refs[..i];
        NamedNext(refs, i);
        Forget(refs[i]);
      }
      assert refs[..|refs|] == refs;
    }

    method InvalidateRefs(refs: seq<string>)
      requires Ready()
      modifies this, positive, negative
      ensures Ready() && View() == Invalidate(old(View()), refs)
    {
      InvalidateKeeps(View(), refs);
      ShrunkShaped(View(), Invalidate(View(), refs));
      epoch := epoch + 1;
      ForgetRefs(refs);
    }
  }
}
