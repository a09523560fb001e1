/**
 A least-recently-used map whose entries live under several keys each.
 An entry is found under all of its keys or under none of them.
 */
module ConfigLru {

  /** What a read of the store gave: `readAt` numbers the read and so tells entries apart. */
  datatype Entry = Entry(readAt: nat, keys: seq<string>, routes: string, error: bool, notFound: bool, expires: int)

  /** The keys, most recently used first, and the entry of each. */
  datatype Lru = Lru(order: seq<string>, items: map<string, Entry>)

  const EMPTY := Lru([], map[])

  ghost predicate Distinct(s: seq<string>) {
    forall i, j :: 0 <= i < j < |s| ==> s[i] != s[j]
  }

  /** List and map hold the same keys, each once. */
  ghost predicate Valid(l: Lru) {
    Distinct(l.order) && forall k :: k in l.order <==> k in l.items
  }

  /** Every entry is found under each of its keys. */
  ghost predicate Whole(l: Lru) {
    forall k :: k in l.items ==> Complete(l, k)
  }

  ghost predicate Complete(l: Lru, k: string)
    requires k in l.items
  {
    k in l.items[k].keys && forall other :: other in l.items[k].keys ==> other in l.items && l.items[other] == l.items[k]
  }

  /** The list without some keys. */
  function Minus(s: seq<string>, keys: set<string>): seq<string> {
    if s == [] then []
    else Minus(s[..|s| - 1], keys) + if s[|s| - 1] in keys then [] else [s[|s| - 1]]
  }

  function Cut(l: Lru, keys: set<string>): Lru {
    Lru(Minus(l.order, keys), l.items - keys)
  }

  function RemoveKey(l: Lru, k: string): Lru {
    if k in l.items then Cut(l, {k}) else l
  }

  /** Removes every one of the keys that still points at the entry. */
  function RemoveKeys(l: Lru, e: Entry, keys: seq<string>): Lru {
    if keys == [] then l
    else
      var before := RemoveKeys(l, e, keys[..|keys| - 1]);
      var k := keys[|keys| - 1];
      if k in before.items && before.items[k] == e then RemoveKey(before, k) else before
  }

  function RemoveEntry(l: Lru, e: Entry): Lru {
    RemoveKeys(l, e, e.keys)
  }

  function ToFront(l: Lru, k: string): Lru {
    Lru([k] + Minus(l.order, {k}), l.items)
  }

  // ---- What the operations do to keys ----

  lemma {:induction false} MinusHas(s: seq<string>, keys: set<string>)
    ensures forall k :: k in Minus(s, keys) <==> k in s && k !in keys
    ensures Distinct(s) ==> Distinct(Minus(s, keys))
  {
    if s != [] {
      var before, last := s[..|s| - 1], s[|s| - 1];
      MinusHas(before, keys);
      assert s == before + [last];
      if Distinct(s) {
        DistinctLast(before, last);
        assert last !in Minus(before, keys);
      }
    }
  }

  lemma {:induction false} DistinctLast(s: seq<string>, k: string)
    requires Distinct(s + [k])
    ensures Distinct(s) && k !in s
  {
    assert forall i :: 0 <= i < |s| ==> (s + [k])[i] == s[i];
    assert (s + [k])[|s|] == k;
  }

  lemma {:induction false} MinusMinus(s: seq<string>, a: set<string>, b: set<string>)
    ensures Minus(Minus(s, a), b) == Minus(s, a + b)
  {
    if s != [] {
      var n := |s| - 1;
      MinusMinus(s[..n], a, b);
      if s[n] !in a {
        var kept := Minus(s[..n], a);
        assert Minus(s, a) == kept + [s[n]];
        assert (kept + [s[n]])[..|kept|] == kept;
      } else {
        assert Minus(s, a) == Minus(s[..n], a);
      }
    }
  }

  lemma {:induction false} MinusNone(s: seq<string>, keys: set<string>)
    requires forall k :: k in s ==> k !in keys
    ensures Minus(s, keys) == s
  {
    if s != [] {
      assert s[|s| - 1] in s;
      MinusNone(s[..|s| - 1], keys);
      assert s == s[..|s| - 1] + [s[|s| - 1]];
    }
  }

  lemma {:induction false} MinusAppend(a: seq<string>, b: seq<string>, keys: set<string>)
    ensures Minus(a + b, keys) == Minus(a, keys) + Minus(b, keys)
  {
    if b == [] {
      assert a + b == a;
    } else {
      var n := |b| - 1;
      assert (a + b)[..|a| + n] == a + b[..n];
      MinusAppend(a, b[..n], keys);
    }
  }

  lemma {:induction false} CutValid(l: Lru, keys: set<string>)
    requires Valid(l)
    ensures Valid(Cut(l, keys))
  {
    MinusHas(l.order, keys);
  }

  lemma {:induction false} CutCut(l: Lru, a: set<string>, b: set<string>)
    ensures Cut(Cut(l, a), b) == Cut(l, a + b)
  {
    MinusMinus(l.order, a, b);
    assert l.items - a - b == l.items - (a + b);
  }

  lemma {:induction false} CutNothing(l: Lru)
    ensures Cut(l, {}) == l
  {
    MinusNone(l.order, {});
    assert l.items - {} == l.items;
  }

  /** The keys among `keys` under which the entry is held. */
  ghost function Held(l: Lru, e: Entry, keys: seq<string>): set<string> {
    set k | k in keys && k in l.items && l.items[k] == e
  }

  lemma {:induction false} RemoveKeysCuts(l: Lru, e: Entry, keys: seq<string>)
    ensures RemoveKeys(l, e, keys) == Cut(l, Held(l, e, keys))
  {
    if keys == [] {
      CutNothing(l);
      assert Held(l, e, keys) == {};
    } else {
      var before, k := keys[..|keys| - 1], keys[|keys| - 1];
      RemoveKeysCuts(l, e, before);
      var held := Held(l, e, before);
      assert keys == before + [k];
      if k in Cut(l, held).items && l.items[k] == e {
        CutCut(l, held, {k});
        assert Held(l, e, keys) == held + {k};
      } else {
        assert Held(l, e, keys) == held;
      }
    }
  }

  /** The list is as long as the map is large. */
  lemma {:induction false} OrderSize(order: seq<string>, keys: set<string>)
    requires Distinct(order) && forall k :: k in order <==> k in keys
    ensures |order| == |keys|
  {
    if order != [] {
      var before, last := order[..|order| - 1], order[|order| - 1];
      assert order == before + [last];
      assert last in keys && last !in before;
      OrderSize(before, keys - {last});
    } else {
      assert keys == {};
    }
  }

  lemma {:induction false} SameSize(l: Lru)
    requires Valid(l)
    ensures |l.order| == |l.items|
  {
    assert forall k :: k in l.items.Keys <==> k in l.order;
    OrderSize(l.order, l.items.Keys);
  }

  // ---- Putting an entry ----

  lemma {:induction false} SmallerKeys(a: map<string, Entry>, b: map<string, Entry>)
    requires b.Keys < a.Keys
    ensures |b| < |a|
  {
    var rest := a.Keys - b.Keys;
    assert a.Keys == b.Keys + rest;
    assert rest != {};
  }

  lemma {:induction false} CutSmaller(l: Lru, keys: set<string>)
    ensures |Cut(l, keys).items| <= |l.items|
  {
    var kept := Cut(l, keys).items;
    if kept.Keys < l.items.Keys {
      SmallerKeys(l.items, kept);
    } else {
      assert kept.Keys == l.items.Keys;
      assert kept == l.items;
    }
  }

  /** Evicts the oldest key and, unless it is of `e` itself, every key of its entry. */
  function EvictOldest(l: Lru, e: Entry): Lru
    requires l.order != [] && l.order[|l.order| - 1] in l.items
  {
    var oldest := l.order[|l.order| - 1];
    var victim := l.items[oldest];
    var rest := RemoveKey(l, oldest);
    if victim == e then rest else RemoveEntry(rest, victim)
  }

  lemma {:induction false} EvictOldestShrinks(l: Lru, e: Entry)
    requires Valid(l) && |l.items| > 0
    ensures l.order != [] && l.order[|l.order| - 1] in l.items
    ensures Valid(EvictOldest(l, e)) && |EvictOldest(l, e).items| < |l.items|
  {
    SameSize(l);
    var oldest := l.order[|l.order| - 1];
    assert oldest in l.order;
    var victim, rest := l.items[oldest], RemoveKey(l, oldest);
    CutValid(l, {oldest});
    RemoveKeysCuts(rest, victim, victim.keys);
    CutValid(rest, Held(rest, victim, victim.keys));
    SmallerKeys(l.items, rest.items);
    CutSmaller(rest, Held(rest, victim, victim.keys));
  }

  /** Evicts until the map fits. */
  function Evict(l: Lru, e: Entry, capacity: nat): (r: Lru)
    requires Valid(l)
    ensures Valid(r) && |r.items| <= capacity
    decreases |l.items|
  {
    if |l.items| <= capacity then l
    else
      EvictOldestShrinks(l, e);
      Evict(EvictOldest(l, e), e, capacity)
  }

  lemma {:induction false} FrontValid(l: Lru, k: string, e: Entry)
    requires Valid(l)
    ensures k in l.items ==> Valid(ToFront(l, k))
    ensures Valid(Lru([k] + Minus(l.order, {k}), l.items[k := e]))
    ensures k !in l.items ==> Valid(Lru([k] + l.order, l.items[k := e]))
  {
    MinusHas(l.order, {k});
    if k !in l.items {
      assert k !in l.order;
    }
  }

  function Put(l: Lru, k: string, e: Entry, capacity: nat): (r: Lru)
    requires Valid(l)
    ensures Valid(r)
  {
    FrontValid(l, k, e);
    if k in l.items then Lru([k] + Minus(l.order, {k}), l.items[k := e])
    else Evict(Lru([k] + l.order, l.items[k := e]), e, capacity)
  }


  // ---- An entry is cached under all of its keys or under none ----

  /** The first `n` keys of the list are those of `e`, and all its keys so far. */
  ghost predicate Leads(l: Lru, e: Entry, n: nat) {
    && n <= |l.order|
    && (forall k :: k in l.order[..n] ==> k in l.items && l.items[k] == e)
    && (forall k :: k in l.order[n..] ==> k in l.items && l.items[k] != e)
  }

  /** Entries other than `e` are found under each of their keys. */
  ghost predicate OthersWhole(l: Lru, e: Entry) {
    forall k :: k in l.items && l.items[k] != e ==> Complete(l, k)
  }

  /** Cutting exactly the keys of a complete entry leaves the others complete. */
  lemma {:induction false} CutEntry(l: Lru, e: Entry, k: string)
    requires Valid(l) && OthersWhole(l, e) && k in l.items && l.items[k] != e
    ensures var victim, rest := l.items[k], RemoveKey(l, k);
            var l' := RemoveEntry(rest, victim);
            && l' == Cut(l, set other | other in victim.keys)
            && OthersWhole(l', e)
  {
    var victim, rest := l.items[k], RemoveKey(l, k);
    var all := set other | other in victim.keys;
    assert Complete(l, k);
    RemoveKeysCuts(rest, victim, victim.keys);
    CutCut(l, {k}, Held(rest, victim, victim.keys));
    assert {k} + Held(rest, victim, victim.keys) == all;
    OthersStayWhole(l, e, victim);
  }

  lemma {:induction false} OthersStayWhole(l: Lru, e: Entry, victim: Entry)
    requires OthersWhole(l, e) && victim != e
    requires exists k :: k in l.items && l.items[k] == victim
    ensures OthersWhole(Cut(l, set other | other in victim.keys), e)
  {
    var all := set other | other in victim.keys;
    var held :| held in l.items && l.items[held] == victim;
    assert Complete(l, held);
    var l' := Cut(l, all);
    forall k | k in l'.items && l'.items[k] != e ensures Complete(l', k) {
      assert Complete(l, k);
      forall other | other in l'.items[k].keys ensures other in l'.items && l'.items[other] == l'.items[k] {
        assert other in l.items && l.items[other] == l.items[k];
      }
    }
  }

  lemma {:induction false} LeadsAfterCut(l: Lru, e: Entry, n: nat, keys: set<string>)
    requires Valid(l) && Leads(l, e, n) && forall k :: k in keys && k in l.items ==> l.items[k] != e
    ensures Leads(Cut(l, keys), e, n)
  {
    var front, back := l.order[..n], l.order[n..];
    assert l.order == front + back;
    MinusAppend(front, back, keys);
    MinusNone(front, keys);
    MinusHas(back, keys);
    var order := Minus(l.order, keys);
    assert order[..n] == front && order[n..] == Minus(back, keys);
  }

  lemma {:induction false} OldestIsOther(l: Lru, e: Entry, n: nat)
    requires Valid(l) && Leads(l, e, n) && |l.items| > n
    ensures l.order != [] && l.order[|l.order| - 1] in l.items && l.items[l.order[|l.order| - 1]] != e
  {
    SameSize(l);
    assert l.order[|l.order| - 1] == l.order[n..][|l.order| - 1 - n];
  }

  /** One eviction takes a whole entry, and not the one at the front. */
  lemma {:induction false} EvictOldestKeeps(l: Lru, e: Entry, n: nat)
    requires Valid(l) && Leads(l, e, n) && OthersWhole(l, e) && |l.items| > n && l.order != [] && l.order[|l.order| - 1] in l.items
    ensures var l' := EvictOldest(l, e); Leads(l', e, n) && OthersWhole(l', e) && Within(l', l) && KeepsHeld(l, l', e)
  {
    hide Leads, Within, KeepsHeld, Cut, RemoveKey, RemoveEntry;
    var oldest := l.order[|l.order| - 1];
    var victim := l.items[oldest];
    var all := set k | k in victim.keys;
    OldestIsOther(l, e, n);
    assert Complete(l, oldest);
    CutEntry(l, e, oldest);
    hide OthersWhole, Valid;
    assert EvictOldest(l, e) == Cut(l, all);
    CutOther(l, e, n, victim, all);
  }

  lemma {:induction false} CutOther(l: Lru, e: Entry, n: nat, victim: Entry, all: set<string>)
    requires Valid(l) && Leads(l, e, n) && victim != e && forall k :: k in all ==> k in l.items && l.items[k] == victim
    ensures Leads(Cut(l, all), e, n) && Within(Cut(l, all), l) && KeepsHeld(l, Cut(l, all), e)
  {
    LeadsAfterCut(l, e, n, all);
  }

  lemma {:induction false} KeepsTwice(a: Lru, b: Lru, c: Lru, e: Entry)
    requires Within(b, a) && KeepsHeld(a, b, e) && Within(c, b) && KeepsHeld(b, c, e)
    ensures Within(c, a) && KeepsHeld(a, c, e)
  {
  }

  /** Eviction takes whole entries, and never the one being put while that fits. */
  lemma {:induction false} EvictKeeps(l: Lru, e: Entry, n: nat, capacity: nat)
    requires Valid(l) && Leads(l, e, n) && OthersWhole(l, e) && n <= capacity
    ensures var r := Evict(l, e, capacity); Leads(r, e, n) && OthersWhole(r, e) && Within(r, l) && KeepsHeld(l, r, e)
    decreases |l.items|
  {
    if |l.items| > capacity {
      EvictOldestShrinks(l, e);
      EvictOldestKeeps(l, e, n);
      EvictKeeps(EvictOldest(l, e), e, n, capacity);
      KeepsTwice(l, EvictOldest(l, e), Evict(l, e, capacity), e);
    }
  }

  ghost predicate KeepsHeld(a: Lru, b: Lru, e: Entry) {
    forall k :: k in a.items && a.items[k] == e ==> k in b.items && b.items[k] == e
  }

  ghost predicate Within(a: Lru, b: Lru) {
    forall k :: k in a.items ==> k in b.items && a.items[k] == b.items[k]
  }

  /** Puts an entry under the first `n` of its keys. */
  function PutKeys(l: Lru, e: Entry, keys: seq<string>, capacity: nat): (r: Lru)
    requires Valid(l)
    ensures Valid(r)
  {
    if keys == [] then l else Put(PutKeys(l, e, keys[..|keys| - 1], capacity), keys[|keys| - 1], e, capacity)
  }

  /** While an entry is put key by key: it is held under these keys, all others are complete, and the map fits. */
  ghost predicate Partly(l: Lru, e: Entry, keys: seq<string>, capacity: nat) {
    && Leads(l, e, |keys|) && OthersWhole(l, e) && |l.items| <= capacity
    && (forall k :: k in keys <==> k in l.items && l.items[k] == e)
  }

  lemma {:induction false} PutPartly(l: Lru, e: Entry, keys: seq<string>, k: string, capacity: nat)
    requires Valid(l) && Partly(l, e, keys, capacity) && k !in l.items && |keys| < capacity
    ensures Partly(Put(l, k, e, capacity), e, keys + [k], capacity)
    ensures Within(Put(l, k, e, capacity), Lru(l.order, l.items[k := e]))
  {
    FrontValid(l, k, e);
    LeadsFront(l, e, |keys|, k);
    OthersWholeFront(l, e, k);
    EvictKeeps(Lru([k] + l.order, l.items[k := e]), e, |keys| + 1, capacity);
    HeldFront(l, Put(l, k, e, capacity), e, keys, k);
  }

  lemma {:induction false} LeadsFront(l: Lru, e: Entry, n: nat, k: string)
    requires Valid(l) && Leads(l, e, n) && k !in l.items
    ensures Leads(Lru([k] + l.order, l.items[k := e]), e, n + 1)
  {
    var order := [k] + l.order;
    assert k !in l.order;
    assert order[..n + 1] == [k] + l.order[..n];
    assert order[n + 1..] == l.order[n..];
    assert forall other :: other in l.order[n..] ==> other in l.order;
  }

  lemma {:induction false} HeldFront(l: Lru, r: Lru, e: Entry, keys: seq<string>, k: string)
    requires forall other :: other in keys <==> other in l.items && l.items[other] == e
    requires Within(r, Lru([k] + l.order, l.items[k := e])) && KeepsHeld(Lru([k] + l.order, l.items[k := e]), r, e)
    ensures forall other :: other in keys + [k] <==> other in r.items && r.items[other] == e
  {
    forall other ensures other in keys + [k] <==> other in r.items && r.items[other] == e {
      assert other in keys + [k] <==> other in l.items[k := e] && l.items[k := e][other] == e;
    }
  }

  lemma {:induction false} OthersWholeFront(l: Lru, e: Entry, k: string)
    requires OthersWhole(l, e) && k !in l.items
    ensures OthersWhole(Lru([k] + l.order, l.items[k := e]), e)
  {
    var l' := Lru([k] + l.order, l.items[k := e]);
    forall other | other in l'.items && l'.items[other] != e ensures Complete(l', other) {
      assert Complete(l, other);
    }
  }

  /** What a put may leave: entries from before, and the keys put. */
  ghost predicate From(r: Lru, l: Lru, e: Entry, keys: seq<string>) {
    forall k :: k in r.items ==> if k in keys then r.items[k] == e else k in l.items && r.items[k] == l.items[k]
  }

  lemma {:induction false} PutKeysPartly(l: Lru, e: Entry, keys: seq<string>, capacity: nat)
    requires Valid(l) && Whole(l) && |l.items| <= capacity && Distinct(keys) && |keys| <= capacity
    requires forall k :: k in l.items ==> l.items[k] != e && k !in keys
    ensures Partly(PutKeys(l, e, keys, capacity), e, keys, capacity) && From(PutKeys(l, e, keys, capacity), l, e, keys)
  {
    if keys == [] {
      assert l.order[0..] == l.order;
    } else {
      var before, k := keys[..|keys| - 1], keys[|keys| - 1];
      assert keys == before + [k];
      assert k !in before;
      PutKeysPartly(l, e, before, capacity);
      var l' := PutKeys(l, e, before, capacity);
      PutPartly(l', e, before, k, capacity);
    }
  }

  /** Drops the entries that hold one of the keys. */
  function DropHolders(l: Lru, e: Entry, keys: seq<string>): Lru {
    if keys == [] then l
    else
      var before, k := DropHolders(l, e, keys[..|keys| - 1]), keys[|keys| - 1];
      if k in before.items && before.items[k] != e then RemoveEntry(before, before.items[k]) else before
  }

  /** Removing an entry by one of its keys removes it entirely and leaves the others alone. */
  lemma {:induction false} RemoveWhole(l: Lru, k: string)
    requires Valid(l) && Whole(l) && k in l.items
    ensures var e, r := l.items[k], RemoveEntry(l, l.items[k]);
            && Valid(r) && Whole(r) && Within(r, l) && |r.items| <= |l.items| && k !in r.items
            && RemoveKey(r, k) == r
            && (forall other :: other in l.items && other !in e.keys ==> other in r.items)
  {
    var e, r := l.items[k], RemoveEntry(l, l.items[k]);
    assert Complete(l, k);
    var all := set other | other in e.keys;
    RemoveKeysCuts(l, e, e.keys);
    assert Held(l, e, e.keys) == all;
    CutValid(l, all);
    CutSmaller(l, all);
    forall other | other in r.items ensures Complete(r, other) {
      assert Complete(l, other);
      forall third | third in r.items[other].keys ensures third in r.items && r.items[third] == r.items[other] {
        assert third in l.items && l.items[third] == l.items[other];
        assert third !in all;
      }
    }
  }

  lemma {:induction false} DropHoldersWhole(l: Lru, e: Entry, keys: seq<string>)
    requires Valid(l) && Whole(l) && forall k :: k in l.items ==> l.items[k] != e
    ensures var r := DropHolders(l, e, keys);
            Valid(r) && Whole(r) && Within(r, l) && |r.items| <= |l.items| && forall k :: k in keys ==> k !in r.items
  {
    if keys != [] {
      var before, k := DropHolders(l, e, keys[..|keys| - 1]), keys[|keys| - 1];
      DropHoldersWhole(l, e, keys[..|keys| - 1]);
      assert keys == keys[..|keys| - 1] + [k];
      if k in before.items {
        RemoveWhole(before, k);
      }
    }
  }

  /** Caches an entry under all its keys. */
  function Store(l: Lru, e: Entry, capacity: nat): Lru
    requires Valid(DropHolders(l, e, e.keys))
  {
    PutKeys(DropHolders(l, e, e.keys), e, e.keys, capacity)
  }

  /**
     Storing an entry keeps every entry complete and the map within capacity,
     even when the entry takes keys over from others: it is held under all its
     keys, and what else is held was held before.
   */
  lemma {:induction false} StoreWhole(l: Lru, e: Entry, capacity: nat)
    requires Valid(l) && Whole(l) && |l.items| <= capacity && Distinct(e.keys) && |e.keys| <= capacity
    requires forall k :: k in l.items ==> l.items[k] != e
    ensures Valid(DropHolders(l, e, e.keys))
    ensures var r := Store(l, e, capacity);
            && Valid(r) && Whole(r) && |r.items| <= capacity && From(r, l, e, e.keys)
            && (forall k :: k in e.keys ==> k in r.items && r.items[k] == e)
  {
    DropHoldersWhole(l, e, e.keys);
    var dropped := DropHolders(l, e, e.keys);
    PutKeysPartly(dropped, e, e.keys, capacity);
    var r := PutKeys(dropped, e, e.keys, capacity);
    assert Partly(r, e, e.keys, capacity);
    forall k | k in r.items ensures Complete(r, k) {
      if r.items[k] == e {
        assert k in e.keys;
      }
    }
  }

  lemma {:induction false} EvictWithin(l: Lru, e: Entry, capacity: nat)
    requires Valid(l)
    ensures Within(Evict(l, e, capacity), l)
    decreases |l.items|
  {
    if |l.items| > capacity {
      EvictOldestShrinks(l, e);
      var oldest := l.order[|l.order| - 1];
      var rest, victim := RemoveKey(l, oldest), l.items[oldest];
      RemoveKeysCuts(rest, victim, victim.keys);
      EvictWithin(EvictOldest(l, e), e, capacity);
    }
  }

  /** A put leaves nothing but the new key and entries from before. */
  lemma {:induction false} PutWithin(l: Lru, k: string, e: Entry, capacity: nat)
    requires Valid(l)
    ensures Within(Put(l, k, e, capacity), Lru(l.order, l.items[k := e]))
  {
    FrontValid(l, k, e);
    if k !in l.items {
      EvictWithin(Lru([k] + l.order, l.items[k := e]), e, capacity);
    }
  }

  lemma {:induction false} PutSize(l: Lru, k: string, e: Entry, capacity: nat)
    requires Valid(l) && |l.items| <= capacity
    ensures |Put(l, k, e, capacity).items| <= capacity
  {
    FrontValid(l, k, e);
    if k in l.items {
      assert l.items[k := e].Keys == l.items.Keys;
    }
  }

  class ConfigLRU {
    var order: seq<string>
    var items: map<string, Entry>

    function View(): Lru
      reads this
    {
      Lru(order, items)
    }

    constructor ()
      ensures View() == EMPTY
    {
      order, items := [], map[];
    }

    method RemoveFromOrder(key: string)
      modifies this`order
      ensures order == Minus(old(order), {key})
    {
      var kept: seq<string> := [];
      for i := 0 to |order|
        invariant kept == Minus(order[..i], {key})
      {
        assert order[..i + 1][..i] == order[..i];
        if order[i] != key {
          kept := kept + [order[i]];
        }
      }
      assert order[..|order|] == order;
      order := kept;
    }

    method Get(key: string) returns (found: bool, entry: Entry)
      requires Valid(View())
      modifies this
      ensures found == (key in old(items))
      ensures if found then key in items && entry == items[key] && View() == ToFront(old(View()), key) else View() == old(View())
    {
      if key !in items {
        return false, Entry(0, [], "", false, false, 0);
      }
      RemoveFromOrder(key);
      order := [key] + order;
      return true, items[key];
    }

    method Remove(key: string)
      modifies this
      ensures View() == RemoveKey(old(View()), key)
    {
      if key in items {
        RemoveFromOrder(key);
        items := items - {key};
      }
    }

    method RemoveAll(entry: Entry)
      modifies this
      ensures View() == RemoveEntry(old(View()), entry)
    {
      for i := 0 to |entry.keys|
        invariant View() == RemoveKeys(old(View()), entry, entry.keys[..i])
      {
        assert entry.keys[..i + 1][..i] == entry.keys[..i];
        var key := entry.keys[i];
        if key in items && items[key] == entry {
          Remove(key);
        }
      }
      assert entry.keys[..|entry.keys|] == entry.keys;
    }

    method PutKey(key: string, entry: Entry, capacity: nat)
      requires Valid(View())
      modifies this
      ensures View() == Put(old(View()), key, entry, capacity)
    {
      FrontValid(View(), key, entry);
      if key in items {
        RemoveFromOrder(key);
        items := items[key := entry];
        order := [key] + order;
        return;
      }
      items := items[key := entry];
      order := [key] + order;
      while |items| > capacity
        invariant Valid(View())
        invariant Evict(View(), entry, capacity) == Put(old(View()), key, entry, capacity)
        decreases |items|
      {
        EvictOldestShrinks(View(), entry);
        var oldest := order[|order| - 1];
        var victim := items[oldest];
        Remove(oldest);
        if victim != entry {
          RemoveAll(victim);
        }
      }
    }
  }
}
