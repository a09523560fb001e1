/** Which entries the config cache gives up: exactly those least recently used. */
module ConfigRecency {
  import opened ConfigLru

  // An entry is as old as the oldest of its keys, since that key is the one whose
  // turn it is first.

  /** The key at this place is one of the entry. */
  predicate At(l: Lru, i: nat, e: Entry)
    requires i < |l.order|
  {
    l.order[i] in l.items && l.items[l.order[i]] == e
  }

  /** How far down the first `n` places of the list the last key of the entry is; 0 when it has none there. */
  function OldestAmong(l: Lru, e: Entry, n: nat): (age: nat)
    requires n <= |l.order|
    ensures age <= n
  {
    if n == 0 then 0
    else if At(l, n - 1, e) then n
    else OldestAmong(l, e, n - 1)
  }

  function Age(l: Lru, e: Entry): (age: nat)
    ensures age <= |l.order|
  {
    OldestAmong(l, e, |l.order|)
  }

  /** The keys of the entries not older than that of `k`. */
  ghost function NotOlder(l: Lru, k: string): set<string>
    requires k in l.items
  {
    set other | other in l.items && Age(l, l.items[other]) <= Age(l, l.items[k])
  }

  lemma {:induction false} OldestIs(l: Lru, e: Entry, n: nat)
    requires n <= |l.order|
    ensures var age := OldestAmong(l, e, n);
            (age > 0 ==> At(l, age - 1, e)) && (forall i :: age <= i < n ==> !At(l, i, e))
  {
    if n > 0 {
      OldestIs(l, e, n - 1);
    }
  }

  lemma {:induction false} OldestUnique(l: Lru, e: Entry, n: nat, age: nat)
    requires n <= |l.order| && age <= n
    requires (age > 0 ==> At(l, age - 1, e)) && (forall i :: age <= i < n ==> !At(l, i, e))
    ensures OldestAmong(l, e, n) == age
  {
    OldestIs(l, e, n);
  }

  // ---- Cutting other entries keeps who is older ----

  lemma {:induction false} MinusPrefix(s: seq<string>, keys: set<string>, i: nat)
    requires i <= |s|
    ensures Minus(s, keys) == Minus(s[..i], keys) + Minus(s[i..], keys)
  {
    assert s == s[..i] + s[i..];
    MinusAppend(s[..i], s[i..], keys);
  }

  /** Below the oldest key of an entry no place of the cut list is one of its. */
  lemma {:induction false} NoneBelow(l: Lru, e: Entry, keys: set<string>, age: nat)
    requires age <= |l.order| && forall i :: age <= i < |l.order| ==> !At(l, i, e)
    requires Cut(l, keys).order == Minus(l.order[..age], keys) + Minus(l.order[age..], keys)
    ensures forall i :: |Minus(l.order[..age], keys)| <= i < |Cut(l, keys).order| ==> !At(Cut(l, keys), i, e)
  {
    var l', n, back := Cut(l, keys), |Minus(l.order[..age], keys)|, Minus(l.order[age..], keys);
    MinusHas(l.order[age..], keys);
    forall i | n <= i < |l'.order| ensures !At(l', i, e) {
      assert l'.order[i] == back[i - n] && back[i - n] in back;
      var j :| 0 <= j < |l.order| - age && l.order[age..][j] == back[i - n];
      assert !At(l, age + j, e);
    }
  }

  /** The oldest key of an entry stays the last of the keys kept down to it. */
  lemma {:induction false} OldestStays(l: Lru, e: Entry, keys: set<string>, age: nat)
    requires 0 < age <= |l.order| && At(l, age - 1, e) && l.order[age - 1] !in keys
    requires Cut(l, keys).order == Minus(l.order[..age], keys) + Minus(l.order[age..], keys)
    ensures var n := |Minus(l.order[..age], keys)|; 0 < n <= |Cut(l, keys).order| && At(Cut(l, keys), n - 1, e)
  {
    MinusPrefix(l.order[..age], keys, age - 1);
    assert l.order[..age][..age - 1] == l.order[..age - 1] && l.order[..age][age - 1..] == [l.order[age - 1]];
    MinusOne(l.order[age - 1], keys);
  }

  /** After a cut the entry is as old as many keys remain down to its oldest. */
  lemma {:induction false} AgeAfterCut(l: Lru, e: Entry, keys: set<string>)
    requires Valid(l) && forall k :: k in keys && k in l.items ==> l.items[k] != e
    ensures Age(Cut(l, keys), e) == |Minus(l.order[..Age(l, e)], keys)|
  {
    var l', age := Cut(l, keys), Age(l, e);
    OldestIs(l, e, |l.order|);
    MinusPrefix(l.order, keys, age);
    NoneBelow(l, e, keys, age);
    if age > 0 {
      OldestStays(l, e, keys, age);
    }
    hide At, Valid, Minus;
    OldestUnique(l', e, |l'.order|, |Minus(l.order[..age], keys)|);
  }

  lemma {:induction false} MinusOne(k: string, keys: set<string>)
    ensures Minus([k], keys) == if k in keys then [] else [k]
  {
    assert [k][..0] == [];
  }

  lemma {:induction false} CutKeepsAges(l: Lru, a: Entry, b: Entry, keys: set<string>)
    requires Valid(l) && forall k :: k in keys && k in l.items ==> l.items[k] != a && l.items[k] != b
    ensures Age(Cut(l, keys), a) <= Age(Cut(l, keys), b) <==> Age(l, a) <= Age(l, b)
  {
    AgeAfterCut(l, a, keys);
    AgeAfterCut(l, b, keys);
    MoreBelow(l, a, b, keys);
    MoreBelow(l, b, a, keys);
  }

  lemma {:induction false} PrefixCount(s: seq<string>, keys: set<string>, x: nat, y: nat)
    requires x <= y <= |s|
    ensures |Minus(s[..x], keys)| <= |Minus(s[..y], keys)|
    ensures x < y && s[y - 1] !in keys ==> |Minus(s[..x], keys)| < |Minus(s[..y], keys)|
  {
    if x < y {
      assert s[..y][..y - 1] == s[..y - 1];
      PrefixCount(s, keys, x, y - 1);
    }
  }

  /** The younger of two entries that stay has fewer keys above its oldest. */
  lemma {:induction false} MoreBelow(l: Lru, a: Entry, b: Entry, keys: set<string>)
    requires Valid(l) && forall k :: k in keys && k in l.items ==> l.items[k] != a && l.items[k] != b
    ensures Age(l, a) <= Age(l, b) ==> |Minus(l.order[..Age(l, a)], keys)| <= |Minus(l.order[..Age(l, b)], keys)|
    ensures Age(l, a) < Age(l, b) ==> |Minus(l.order[..Age(l, a)], keys)| < |Minus(l.order[..Age(l, b)], keys)|
  {
    OldestIs(l, b, |l.order|);
    hide Minus, Valid;
    if Age(l, a) <= Age(l, b) {
      PrefixCount(l.order, keys, Age(l, a), Age(l, b));
    }
  }

  lemma {:induction false} CutKeepsNotOlder(l: Lru, victim: Entry, keys: set<string>, k: string)
    requires Valid(l) && k in l.items && l.items[k] != victim
    requires forall other :: other in l.items ==> (other in keys <==> l.items[other] == victim)
    requires Age(l, victim) > Age(l, l.items[k])
    ensures k in Cut(l, keys).items && NotOlder(Cut(l, keys), k) == NotOlder(l, k)
  {
    var l' := Cut(l, keys);
    forall other ensures other in NotOlder(l', k) <==> other in NotOlder(l, k) {
      if other in l'.items {
        CutKeepsAges(l, l.items[other], l.items[k], keys);
      }
    }
  }

  // ---- Eviction ----

  lemma {:induction false} LastIsOldest(l: Lru, k: string)
    requires Valid(l) && l.order != [] && k in l.items
    ensures var victim := l.items[l.order[|l.order| - 1]];
            l.order[|l.order| - 1] in l.items && Age(l, victim) == |l.order|
            && (l.items[k] != victim ==> Age(l, l.items[k]) < |l.order|)
  {
    assert l.order[|l.order| - 1] in l.order;
  }

  /** One eviction takes the oldest entry, and the others are as old as before. */
  lemma {:induction false} EvictOneExact(l: Lru, e: Entry, n: nat, k: string)
    requires Valid(l) && Leads(l, e, n) && OthersWhole(l, e) && |l.items| > n && k in l.items
    requires l.order != [] && l.order[|l.order| - 1] in l.items
    ensures var r := EvictOldest(l, e);
            if k in r.items then r.items[k] == l.items[k] && NotOlder(r, k) == NotOlder(l, k)
            else NotOlder(l, k) == l.items.Keys
  {
    OldestIsOther(l, e, n);
    var oldest := l.order[|l.order| - 1];
    var victim := l.items[oldest];
    var all := set other | other in victim.keys;
    VictimKeys(l, e, oldest);
    CutEntry(l, e, oldest);
    assert EvictOldest(l, e) == Cut(l, all);
    LastIsOldest(l, k);
    hide Leads, OthersWhole, RemoveEntry, RemoveKey, EvictOldest, Age;
    if l.items[k] != victim {
      CutKeepsNotOlder(l, victim, all, k);
    }
  }

  /**
     Eviction is exact: a key stays exactly when the keys of its entry and of all
     entries not older than it fit, and who is older stays as it was.
   */
  lemma {:induction false} EvictExact(l: Lru, e: Entry, n: nat, capacity: nat, k: string)
    requires Valid(l) && Leads(l, e, n) && OthersWhole(l, e) && n <= capacity && k in l.items
    ensures var r := Evict(l, e, capacity);
            && (k in r.items <==> |NotOlder(l, k)| <= capacity)
            && (k in r.items ==> r.items[k] == l.items[k] && NotOlder(r, k) == NotOlder(l, k))
    decreases |l.items|
  {
    if |l.items| <= capacity {
      SubsetSize(NotOlder(l, k), l.items.Keys);
    } else {
      hide Leads, OthersWhole, NotOlder, Valid, EvictOldest;
      EvictOldestShrinks(l, e);
      EvictOldestKeeps(l, e, n);
      EvictOneExact(l, e, n, k);
      var l' := EvictOldest(l, e);
      if k in l'.items {
        EvictExact(l', e, n, capacity, k);
      } else {
        EvictWithin(l', e, capacity);
      }
    }
  }

  lemma {:induction false} VictimKeys(l: Lru, e: Entry, oldest: string)
    requires OthersWhole(l, e) && oldest in l.items && l.items[oldest] != e
    ensures forall other :: other in l.items ==> (other in l.items[oldest].keys <==> l.items[other] == l.items[oldest])
  {
    assert Complete(l, oldest);
    forall other | other in l.items && l.items[other] == l.items[oldest] ensures other in l.items[oldest].keys {
      assert Complete(l, other);
    }
  }

  lemma {:induction false} SubsetSize(a: set<string>, b: set<string>)
    requires a <= b
    ensures |a| <= |b|
  {
    assert b == a + (b - a);
  }

  // ---- Putting an entry under its keys ----

  function InFront(l: Lru, k: string, e: Entry): Lru {
    Lru([k] + l.order, l.items[k := e])
  }

  lemma {:induction false} PlacesInFront(l: Lru, k: string, e: Entry, x: Entry)
    requires Valid(l) && k !in l.items
    ensures At(InFront(l, k, e), 0, x) <==> x == e
    ensures forall i :: 0 <= i < |l.order| ==> (At(InFront(l, k, e), i + 1, x) <==> At(l, i, x))
  {
    forall i | 0 <= i < |l.order| ensures At(InFront(l, k, e), i + 1, x) <==> At(l, i, x) {
      assert l.order[i] in l.order && l.order[i] != k;
    }
  }

  /** A key put in front makes what is there one place older. */
  lemma {:induction false} AgeInFront(l: Lru, k: string, e: Entry, x: Entry)
    requires Valid(l) && k !in l.items
    ensures Age(InFront(l, k, e), x) == if x == e || Age(l, x) > 0 then Age(l, x) + 1 else 0
  {
    var front, age := InFront(l, k, e), Age(l, x);
    OldestIs(l, x, |l.order|);
    PlacesInFront(l, k, e, x);
    hide At, Valid;
    var age' := if x == e || age > 0 then age + 1 else 0;
    forall i | age' <= i < |front.order| ensures !At(front, i, x) {
      assert i > 0 ==> (At(front, (i - 1) + 1, x) <==> At(l, i - 1, x));
    }
    assert age' > 1 ==> (At(front, (age - 1) + 1, x) <==> At(l, age - 1, x));
    OldestUnique(front, x, |front.order|, age');
  }

  lemma {:induction false} HeldAt(l: Lru, k: string) returns (i: nat)
    requires Valid(l) && k in l.items
    ensures i < |l.order| && l.order[i] == k && At(l, i, l.items[k])
  {
    assert k in l.order;
    i :| 0 <= i < |l.order| && l.order[i] == k;
  }

  lemma {:induction false} HeldHasAge(l: Lru, k: string)
    requires Valid(l) && k in l.items
    ensures Age(l, l.items[k]) > 0
  {
    var i := HeldAt(l, k);
    OldestIs(l, l.items[k], |l.order|);
  }

  lemma {:induction false} LeadsPlaces(l: Lru, e: Entry, n: nat)
    requires Leads(l, e, n)
    ensures forall i :: 0 <= i < |l.order| ==> (At(l, i, e) <==> i < n)
  {
    forall i | 0 <= i < |l.order| ensures At(l, i, e) <==> i < n {
      assert i < n ==> l.order[i] == l.order[..n][i] && l.order[i] in l.order[..n];
      assert i >= n ==> l.order[i] == l.order[n..][i - n] && l.order[i] in l.order[n..];
    }
  }

  /** The entry at the front is younger than any other. */
  lemma {:induction false} FrontIsYounger(l: Lru, e: Entry, n: nat, k: string)
    requires Valid(l) && Leads(l, e, n) && k in l.items && l.items[k] != e
    ensures Age(l, e) <= n < Age(l, l.items[k])
  {
    LeadsPlaces(l, e, n);
    OldestIs(l, e, |l.order|);
    OldestIs(l, l.items[k], |l.order|);
    var i := HeldAt(l, k);
    assert !At(l, i, e);
  }

  lemma {:induction false} NotOlderInFront(l: Lru, e: Entry, n: nat, added: string, k: string)
    requires Valid(l) && Leads(l, e, n) && added !in l.items && k in l.items && l.items[k] != e
    ensures k in InFront(l, added, e).items && InFront(l, added, e).items[k] == l.items[k]
    ensures NotOlder(InFront(l, added, e), k) == NotOlder(l, k) + {added}
  {
    var front := InFront(l, added, e);
    FrontIsYounger(l, e, n, k);
    AgeInFront(l, added, e, e);
    AgeInFront(l, added, e, l.items[k]);
    hide Age, Leads, Valid;
    forall other ensures other in NotOlder(front, k) <==> other in NotOlder(l, k) || other == added {
      if other in l.items {
        HeldHasAge(l, other);
        AgeInFront(l, added, e, l.items[other]);
      }
    }
  }

  /** An entry put under its keys costs exactly the entries that no longer fit behind it. */
  lemma {:induction false} PutKeysExact(d: Lru, e: Entry, keys: seq<string>, capacity: nat, k: string)
    requires Valid(d) && Whole(d) && |d.items| <= capacity && Distinct(keys) && |keys| <= capacity
    requires (forall other :: other in d.items ==> d.items[other] != e && other !in keys) && k in d.items
    ensures var r := PutKeys(d, e, keys, capacity);
            && (k in r.items <==> |keys| + |NotOlder(d, k)| <= capacity)
            && (k in r.items ==> r.items[k] == d.items[k] && NotOlder(r, k) == NotOlder(d, k) + (set other | other in keys))
  {
    if keys == [] {
      SubsetSize(NotOlder(d, k), d.items.Keys);
      assert (set other: string | other in keys) == {};
    } else {
      var before, added := keys[..|keys| - 1], keys[|keys| - 1];
      assert keys == before + [added] && added !in before;
      PutKeysExact(d, e, before, capacity, k);
      PutKeysPartly(d, e, before, capacity);
      var l := PutKeys(d, e, before, capacity);
      PutExact(l, e, before, added, capacity, k, d.items[k]);
      if k in l.items {
        CountMore(NotOlder(d, k), before, added);
        assert forall other :: other in NotOlder(d, k) ==> other !in keys;
      }
    }
  }

  lemma {:induction false} CountMore(a: set<string>, before: seq<string>, added: string)
    requires forall k :: k in a ==> k !in before + [added]
    requires Distinct(before + [added])
    ensures |a + (set k | k in before + [added])| == |a| + |before| + 1
    ensures a + (set k | k in before) + {added} == a + (set k | k in before + [added])
  {
    KeyCount(before + [added]);
    var all := set k | k in before + [added];
    assert a !! all;
  }

  lemma {:induction false} KeyCount(keys: seq<string>)
    requires Distinct(keys)
    ensures |set k | k in keys| == |keys|
  {
    var all := set k | k in keys;
    if keys == [] {
      assert all == {};
    } else {
      var before, last := keys[..|keys| - 1], keys[|keys| - 1];
      assert keys == before + [last];
      KeyCount(before);
      assert all == (set k | k in before) + {last};
      assert last !in before;
    }
  }

  /** One more key of an entry already at the front. */
  lemma {:induction false} PutExact(l: Lru, e: Entry, keys: seq<string>, added: string, capacity: nat, k: string, x: Entry)
    requires Valid(l) && Partly(l, e, keys, capacity) && added !in l.items && |keys| < capacity
    requires k != added && x != e && (k in l.items ==> l.items[k] == x)
    ensures var r := Put(l, added, e, capacity);
            if k !in l.items then k !in r.items
            else && (k in r.items <==> |NotOlder(l, k) + {added}| <= capacity)
                 && (k in r.items ==> r.items[k] == x && NotOlder(r, k) == NotOlder(l, k) + {added})
  {
    var front := InFront(l, added, e);
    FrontValid(l, added, e);
    PutWithin(l, added, e, capacity);
    if k in l.items {
      LeadsFront(l, e, |keys|, added);
      OthersWholeFront(l, e, added);
      NotOlderInFront(l, e, |keys|, added, k);
      EvictExact(front, e, |keys| + 1, capacity, k);
    }
  }

  // ---- What else removal, take-over and use leave ----

  /** Removing an entry takes exactly its keys. */
  lemma {:induction false} RemoveExact(l: Lru, e: Entry, k: string)
    requires Whole(l) && k in l.items
    ensures k in RemoveEntry(l, e).items <==> l.items[k] != e
    ensures k in RemoveEntry(l, e).items ==> RemoveEntry(l, e).items[k] == l.items[k]
  {
    RemoveKeysCuts(l, e, e.keys);
    assert Complete(l, k);
  }

  /** The entry at `k` is found under one of the keys as well. */
  ghost predicate SharesKey(l: Lru, k: string, keys: seq<string>)
    requires k in l.items
  {
    exists other :: other in keys && other in l.items && l.items[other] == l.items[k]
  }

  /** Taking keys over costs exactly the entries that hold one of them. */
  lemma {:induction false} DropExact(l: Lru, e: Entry, keys: seq<string>, k: string)
    requires Valid(l) && Whole(l) && (forall other :: other in l.items ==> l.items[other] != e) && k in l.items
    ensures var r := DropHolders(l, e, keys);
            && (k in r.items <==> !SharesKey(l, k, keys)) && (k in r.items ==> r.items[k] == l.items[k])
  {
    if keys != [] {
      var n := |keys| - 1;
      var before, last := DropHolders(l, e, keys[..n]), keys[n];
      assert keys == keys[..n] + [last];
      DropExact(l, e, keys[..n], k);
      DropHoldersWhole(l, e, keys[..n]);
      assert SharesKey(l, k, keys) <==> SharesKey(l, k, keys[..n]) || (last in l.items && l.items[last] == l.items[k]);
      if last in l.items {
        DropExact(l, e, keys[..n], last);
        assert l.items[last] == l.items[k] ==> (SharesKey(l, last, keys[..n]) <==> SharesKey(l, k, keys[..n]));
      }
      if last in before.items && k in before.items {
        RemoveExact(before, before.items[last], k);
      } else if last in before.items {
        RemoveWhole(before, last);
      }
    }
  }

  /**
     Storing an entry is exact: what was there stays unless it held one of the
     keys or no longer fits behind the entry and what is not older than it.
   */
  lemma {:induction false} StoreExact(l: Lru, e: Entry, capacity: nat, k: string)
    requires Valid(l) && Whole(l) && |l.items| <= capacity && Distinct(e.keys) && |e.keys| <= capacity
    requires (forall other :: other in l.items ==> l.items[other] != e) && k in l.items && k !in e.keys
    ensures Valid(DropHolders(l, e, e.keys))
    ensures var dropped, r := DropHolders(l, e, e.keys), Store(l, e, capacity);
            && (k in r.items <==> !SharesKey(l, k, e.keys) && k in dropped.items && |e.keys| + |NotOlder(dropped, k)| <= capacity)
            && (k in r.items ==> r.items[k] == l.items[k])
  {
    DropHoldersWhole(l, e, e.keys);
    DropExact(l, e, e.keys, k);
    var dropped := DropHolders(l, e, e.keys);
    PutKeysPartly(dropped, e, e.keys, capacity);
    if k in dropped.items {
      PutKeysExact(dropped, e, e.keys, capacity, k);
    }
  }

  /** The key used goes to the front, and the others keep their order. */
  lemma {:induction false} UseExact(l: Lru, k: string)
    requires Valid(l) && k in l.items
    ensures var r := ToFront(l, k);
            r.items == l.items && r.order != [] && r.order[0] == k && Minus(r.order, {k}) == Minus(l.order, {k})
  {
    MinusAppend([k], Minus(l.order, {k}), {k});
    MinusOne(k, {k});
    MinusMinus(l.order, {k}, {k});
    assert {k} + {k} == {k};
  }
}
