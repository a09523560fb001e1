/** The ledger as the program keeps it: its entries, reservations and running charges are objects in a map and a list. */
module BudgetLedger {
  // The list is ordered most recently used first. Every critical section is one
  // method, proved against the functions of BudgetEntries.

  import opened MapSums
  import opened Options
  import opened BudgetEntries

  const EVICT_SCAN := 64

  /** The estimate of one admitted request until it is charged or ends. */
  class BudgetReservation {
    const entry: BudgetEntry
    const amount: Amount
    var released: bool

    constructor (entry: BudgetEntry, amount: Amount)
      ensures this.entry == entry && this.amount == amount && !released
    {
      this.entry, this.amount, released := entry, amount, false;
    }
  }

  /** A charge whose store writes are in progress. */
  class BudgetPending {
    const entry: BudgetEntry
    const charge: Charge
    var done: bool

    constructor (entry: BudgetEntry, charge: Charge)
      ensures this.entry == entry && this.charge == charge && !done
    {
      this.entry, this.charge, done := entry, charge, false;
    }
  }

  /** Adds up the charges of one map, as the loops over pending, done and lost do. */
  method SumCharges<K(==)>(m: map<K, Charge>, month: nat) returns (lifetime: int, monthly: Amount)
    ensures lifetime == Total(m, Lifetime)
    ensures monthly == Amount(Total(m, MonthCost(month)), Total(m, MonthTokens(month)))
  {
    lifetime, monthly := 0, ZERO;
    var rest := m.Keys;
    ghost var seen: map<K, Charge> := map[];
    assert forall q :: Parts(seen, q) == map[];
    while rest != {}
      invariant rest <= m.Keys
      invariant seen == m - rest
      invariant lifetime == Total(seen, Lifetime)
      invariant monthly == Amount(Total(seen, MonthCost(month)), Total(seen, MonthTokens(month)))
      decreases rest
    {
      var k :| k in rest;
      var c := m[k];
      TotalUpdate(seen, k, c, Lifetime);
      TotalUpdate(seen, k, c, MonthCost(month));
      TotalUpdate(seen, k, c, MonthTokens(month));
      seen := seen[k := c];
      rest := rest - {k};
      lifetime := lifetime + c.lifetime;
      if c.month == month {
        monthly := Amount(monthly.cost + c.monthly.cost, monthly.tokens + c.monthly.tokens);
      }
    }
    assert seen == m;
  }

  class BudgetEntry {
    const scope: string
    var limits: Limits
    var snap: Snapshot
    var hasSnap: bool
    var snapAt: int
    var loading: bool
    var loadErrAt: Option<int>
    var gen: nat
    var reserved: Amount
    var reservations: int
    var pending: set<BudgetPending>
    var done: map<DoneKey, Charge>
    var lost: map<nat, Charge>

    ghost var live: set<BudgetReservation>   // made on this entry and not released

    constructor (scope: string)
      ensures this.scope == scope && View() == NewEntry() && live == {} && Accounted()
    {
      this.scope := scope;
      limits, snap, hasSnap, snapAt := NO_LIMITS, NO_SNAPSHOT, false, 0;
      loading, loadErrAt, gen := false, None, 0;
      reserved, reservations := ZERO, 0;
      pending, done, lost, live := {}, map[], map[], {};
    }

    function Charges(): map<BudgetPending, Charge>
      reads this
    {
      map p | p in pending :: p.charge
    }

    /** The entry as a value. */
    function View(): Entry<BudgetPending>
      reads this
    {
      Entry(limits, snap, hasSnap, snapAt, loading, loadErrAt, gen, reserved, reservations, Charges(), done, lost)
    }

    /** The reservations held are exactly the live ones, and pending charges belong here. */
    ghost predicate Accounted()
      reads this
    {
      && reservations == |live|
      && reserved == Amount(Sum(Costs(live)), Sum(Tokens(live)))
      && (forall r :: r in live ==> r.entry == this)
      && (forall p :: p in pending ==> p.entry == this)
    }

    predicate Busy()
      reads this
    {
      reservations > 0 || |pending| > 0 || loading
    }

    /** An entry is busy exactly while a reservation on it is live, a charge is pending or a load runs; otherwise it holds nothing back. */
    lemma {:induction false} BusyWhen()
      requires Accounted()
      ensures Busy() <==> live != {} || pending != {} || loading
      ensures Busy() <==> View().Busy()
      ensures !Busy() ==> reserved == ZERO
    {
      assert live != {} ==> |live| > 0;
      assert pending != {} ==> |pending| > 0;
      if live == {} {
        assert Costs(live) == map[] && Tokens(live) == map[];
      }
      assert Charges().Keys == pending;
      assert |Charges()| == |Charges().Keys|;
    }

    method CommittedIn(month: nat) returns (lifetime: int, monthly: Amount)
      ensures lifetime == Committed(View(), Lifetime)
      ensures monthly == CommittedMonth(View(), month)
    {
      var pendingLife, pendingMonth := SumCharges(Charges(), month);
      var doneLife, doneMonth := SumCharges(done, month);
      var lostLife, lostMonth := SumCharges(lost, month);
      var known := if snap.month == month then snap.monthly else ZERO;
      lifetime := snap.lifetime + pendingLife + doneLife + lostLife;
      monthly := Amount(known.cost + pendingMonth.cost + doneMonth.cost + lostMonth.cost,
                        known.tokens + pendingMonth.tokens + doneMonth.tokens + lostMonth.tokens);
    }

    /** Marks a load as running and returns the generation it started at. */
    method StartLoading() returns (startGen: nat)
      requires !loading
      modifies this
      ensures startGen == old(gen) && View() == StartLoad(old(View()))
      ensures pending == old(pending) && live == old(live) && (old(Accounted()) ==> Accounted())
    {
      loading := true;
      startGen := gen;
      gen := gen + 1;
    }

    /** Ends a load: installs what it read and forgets the charges it must have seen, or notes the failure. */
    method EndLoading(result: Option<Snapshot>, startedAt: int, startGen: nat, now: int)
      requires loading
      modifies this
      ensures pending == old(pending) && live == old(live) && (old(Accounted()) ==> Accounted())
      ensures View() == if result.Some? then Install(old(View()), result.value, startedAt, startGen) else FailLoad(old(View()), now)
    {
      loading := false;
      if result.None? {
        loadErrAt := Some(now);
        return;
      }
      snap, hasSnap, snapAt, loadErrAt := result.value, true, startedAt, None;
      ForgetDone(startGen);
    }

    method ForgetDone(startGen: nat)
      modifies `done
      ensures done == Forget(old(done), startGen)
    {
      var keys := done.Keys;
      while keys != {}
        invariant keys <= old(done).Keys
        invariant done == map k | k in old(done) && (k in keys || k.gen > startGen) :: old(done)[k]
        decreases keys
      {
        var key :| key in keys;
        keys := keys - {key};
        if key.gen <= startGen {
          done := done - {key};
        }
      }
    }

    /** Merges the lost records of past months into one that keeps their lifetime parts. */
    method SweepLost(month: nat)
      modifies `lost
      ensures lost == Sweep(old(lost), month)
    {
      ghost var was, merged: map<nat, Charge> := lost, map[];
      var keys := lost.Keys;
      while keys != {}
        invariant keys <= was.Keys
        invariant merged == PastLost(was - keys, month)
        invariant lost == Swept(was, merged)
        decreases keys
      {
        var key :| key in keys;
        PastNext(was, keys, key, month);
        keys := keys - {key};
        hide PastLost, Swept;
        if key != 0 && key < month {
          SweptStep(was, merged, key);
          MergePast(key);
          merged := merged[key := was[key]];
        }
      }
      assert was - {} == was;
    }

    /** Moves the lifetime part of one lost record into that of past months. */
    method MergePast(key: nat)
      requires key in lost
      modifies `lost
      ensures var rest := old(lost) - {key};
              var bucket := if 0 in rest then rest[0] else Charge(0, 0, ZERO);
              lost == rest[0 := bucket.(lifetime := bucket.lifetime + old(lost)[key].lifetime)]
    {
      var past := lost[key];
      lost := lost - {key};
      var bucket := if 0 in lost then lost[0] else Charge(0, 0, ZERO);
      lost := lost[0 := bucket.(lifetime := bucket.lifetime + past.lifetime)];
    }

    /** Keeps a charge whose store write failed. */
    method KeepLost(c: Charge, month: nat)
      modifies `lost
      ensures lost == AddLost(old(lost), c, month)
    {
      SweepLost(month);
      var key, monthly := c.month, c.monthly;
      if key != 0 && key < month {
        key, monthly := 0, ZERO;
      }
      var bucket := if key in lost then lost[key] else Charge(0, key, ZERO);
      lost := lost[key := Charge(bucket.lifetime + c.lifetime, bucket.month,
                                 Amount(bucket.monthly.cost + monthly.cost, bucket.monthly.tokens + monthly.tokens))];
    }

    /** One pass of the admission loop on this entry. */
    method AdmitHere(hint: Option<Limits>, estimate: Amount, now: int, month: nat, timing: Timing, attempt: Attempt)
      returns (verdict: Verdict, load: Option<LoadOrder>, res: BudgetReservation?)
      requires Accounted()
      modifies this
      ensures Accounted() && pending == old(pending)
      ensures Pass(View(), verdict, load) == AdmitPass(old(View()), hint, estimate, now, month, timing, attempt)
      ensures Decision(verdict, old(View()), hint, estimate, now, month, timing, attempt)
      ensures if verdict.Reserved? then res != null && fresh(res) && !res.released && res.entry == this
                                        && res.amount == estimate && live == old(live) + {res}
              else res == null && live == old(live)
    {
      PassDecides(View(), hint, estimate, now, month, timing, attempt);
      hide Decision;
      res, load := null, None;
      var wanted := LimitsFor(View(), hint);
      var order := LoadOrder(gen, month, wanted.Monthly());
      if !Usable(View(), hint, now, month, timing) {
        if attempt.ranLoad || attempt.waits >= 2 {
          return Unavailable, None, null;
        }
        if loading {
          return Wait, None, null;
        }
        if BackingOff(View(), now, timing) {
          return Unavailable, None, null;
        }
        var startGen := StartLoading();
        return Load, Some(order), null;
      }
      if RefreshDue(View(), now, timing) {
        var startGen := StartLoading();
        load := Some(order);
      }
      limits := wanted;
      if !limits.Any() {
        return NoBudget, load, null;
      }
      var lifetime, monthly := CommittedIn(month);
      var denial := Denial(limits, lifetime, monthly, reserved, estimate);
      if denial.Some? {
        return Denied(denial.value), load, null;
      }
      res := HoldFor(estimate);
      verdict := Reserved;
    }

    /** Holds the estimate of an admitted request. */
    method HoldFor(estimate: Amount) returns (res: BudgetReservation)
      requires Accounted()
      modifies this
      ensures Accounted() && View() == Reserve(old(View()), estimate) && pending == old(pending)
      ensures fresh(res) && !res.released && res.entry == this && res.amount == estimate && live == old(live) + {res}
    {
      res := new BudgetReservation(this, estimate);
      reserved := Amount(reserved.cost + estimate.cost, reserved.tokens + estimate.tokens);
      reservations := reservations + 1;
      LiveInserted(live, res);
      live := live + {res};
    }

    /** Gives a live reservation back; the last one resets the sums. */
    method GiveBack(res: BudgetReservation)
      requires Accounted() && res in live && !res.released
      modifies this, res
      ensures Accounted() && View() == Release(old(View()), res.amount) && pending == old(pending)
      ensures res.released && live == old(live) - {res}
    {
      res.released := true;
      LiveRemoved(live, res);
      live := live - {res};
      reserved := Amount(reserved.cost - res.amount.cost, reserved.tokens - res.amount.tokens);
      reservations := reservations - 1;
      if reservations == 0 {
        NoneLive(live);
        reserved := ZERO;
      }
    }

    /** Counts a charge from before its store writes start. */
    method BeginPending(charge: Charge) returns (p: BudgetPending)
      requires Accounted()
      modifies this
      ensures Accounted() && live == old(live) && pending == old(pending) + {p}
      ensures fresh(p) && !p.done && p.entry == this && p.charge == charge
      ensures View() == Begin(old(View()), p, charge)
    {
      p := new BudgetPending(this, charge);
      ghost var was := Charges();
      pending := pending + {p};
      assert Charges() == was[p := charge];
    }

    /** Gives a reservation back and counts its charge in the same step. */
    method Settle(res: BudgetReservation, charge: Charge) returns (p: BudgetPending)
      requires Accounted() && res in live && !res.released
      modifies this, res
      ensures Accounted() && res.released && live == old(live) - {res} && pending == old(pending) + {p}
      ensures fresh(p) && !p.done && p.entry == this && p.charge == charge
      ensures View() == Begin(Release(old(View()), res.amount), p, charge)
    {
      GiveBack(res);
      p := BeginPending(charge);
    }

    /** Ends a running charge: stored parts go to this generation's bucket, failed parts are kept as lost. */
    method FinishPending(p: BudgetPending, logStored: bool, spendStored: bool, month: nat)
      requires Accounted() && p in pending && p.entry == this && !p.done
      modifies this, p
      ensures Accounted() && live == old(live) && pending == old(pending) - {p} && p.done
      ensures View() == Finish(old(View()), p, logStored, spendStored, month)
    {
      p.done := true;
      ghost var was := Charges();
      pending := pending - {p};
      assert Charges() == was - {p};
      var stored := StoredPart(p.charge, logStored, spendStored);
      var failed := StoredPart(p.charge, !logStored, !spendStored);
      if !Nothing(stored) {
        done := AddTo(done, DoneKey(gen, stored.month), stored.month, stored);
      }
      if !Nothing(failed) {
        KeepLost(failed, month);
      }
    }
  }

  lemma {:induction false} LiveInserted(live: set<BudgetReservation>, res: BudgetReservation)
    requires res !in live
    ensures Sum(Costs(live + {res})) == Sum(Costs(live)) + res.amount.cost
    ensures Sum(Tokens(live + {res})) == Sum(Tokens(live)) + res.amount.tokens
  {
    assert Costs(live + {res}) == Costs(live)[res := res.amount.cost];
    assert Tokens(live + {res}) == Tokens(live)[res := res.amount.tokens];
    SumUpdate(Costs(live), res, res.amount.cost);
    SumUpdate(Tokens(live), res, res.amount.tokens);
  }

  lemma {:induction false} LiveRemoved(live: set<BudgetReservation>, res: BudgetReservation)
    requires res in live
    ensures Sum(Costs(live - {res})) == Sum(Costs(live)) - res.amount.cost
    ensures Sum(Tokens(live - {res})) == Sum(Tokens(live)) - res.amount.tokens
  {
    assert Costs(live - {res}) == Costs(live) - {res};
    assert Tokens(live - {res}) == Tokens(live) - {res};
    SumDrop(Costs(live), res);
    SumDrop(Tokens(live), res);
  }

  lemma {:induction false} NoneLive(live: set<BudgetReservation>)
    ensures |live| == 0 ==> Sum(Costs(live)) == 0 == Sum(Tokens(live))
  {
    if |live| == 0 {
      assert Costs(live) == map[] == Tokens(live);
    }
  }

  /** The lost records after the ones in `merged` were folded into the record of past months. */
  ghost function Swept(lost: map<nat, Charge>, merged: map<nat, Charge>): map<nat, Charge> {
    if merged == map[] then lost
    else AddTo(lost - merged.Keys, 0, 0, Charge(Total(merged, Lifetime), 0, ZERO))
  }

  lemma {:induction false} PastNext(was: map<nat, Charge>, keys: set<nat>, key: nat, month: nat)
    requires keys <= was.Keys && key in keys
    ensures key !in PastLost(was - keys, month) && 0 !in PastLost(was - keys, month)
    ensures PastLost(was - (keys - {key}), month)
         == if key != 0 && key < month then PastLost(was - keys, month)[key := was[key]] else PastLost(was - keys, month)
  {
  }

  lemma {:induction false} SweptStep(lost: map<nat, Charge>, merged: map<nat, Charge>, key: nat)
    requires key in lost && key != 0 && key !in merged
    requires 0 !in merged
    ensures key in Swept(lost, merged) && Swept(lost, merged)[key] == lost[key]
    ensures var s := Swept(lost, merged) - {key};
            var bucket := if 0 in s then s[0] else Charge(0, 0, ZERO);
            Swept(lost, merged[key := lost[key]]) == s[0 := bucket.(lifetime := bucket.lifetime + lost[key].lifetime)]
  {
    TotalUpdate(merged, key, lost[key], Lifetime);
    if merged == map[] {
      assert Parts(merged, Lifetime) == map[];
    }
    assert lost - merged[key := lost[key]].Keys == lost - merged.Keys - {key};
  }

  function Costs(live: set<BudgetReservation>): map<BudgetReservation, int> {
    map r | r in live :: r.amount.cost
  }

  function Tokens(live: set<BudgetReservation>): map<BudgetReservation, int> {
    map r | r in live :: r.amount.tokens
  }

  /** A place in the list: an entry and when it was last used. */
  datatype Slot = Slot(entry: BudgetEntry, lastUsed: int)

  predicate Has(entries: map<string, BudgetEntry>, e: BudgetEntry) {
    e.scope in entries && entries[e.scope] == e
  }

  /** The map holds the first `n` entries of the list, each once, and no other. */
  ghost predicate RegisteredTo(entries: map<string, BudgetEntry>, lru: seq<Slot>, n: nat)
    requires n <= |lru|
  {
    && |entries| == n
    && (forall s :: s in entries ==> entries[s].scope == s)
    && (forall i :: 0 <= i < n ==> Has(entries, lru[i].entry))
    && (forall i, j :: 0 <= i < j < n ==> lru[i].entry.scope != lru[j].entry.scope)
  }

  /** The map and the list hold the same entries, each once, within capacity. */
  ghost predicate Registered(entries: map<string, BudgetEntry>, lru: seq<Slot>, maxEntries: nat) {
    RegisteredTo(entries, lru, |lru|) && |lru| <= maxEntries
  }

  /** The list is ordered by last use. */
  ghost predicate Ordered(lru: seq<Slot>, clock: int) {
    && (forall i, j :: 0 <= i < j < |lru| ==> lru[i].lastUsed >= lru[j].lastUsed)
    && (forall i :: 0 <= i < |lru| ==> lru[i].lastUsed <= clock)
  }

  /** Whatever has a live reservation, a running charge or a running load is still registered. */
  ghost predicate Pinned(entries: map<string, BudgetEntry>, made: set<BudgetEntry>)
    reads made
  {
    && (forall e :: e in made ==> e.Accounted() && (e.Busy() ==> Has(entries, e)))
  }

  function Cut<T>(s: seq<T>, k: nat): (r: seq<T>)
    requires k < |s|
    ensures |r| == |s| - 1
    ensures forall i :: 0 <= i < |r| ==> r[i] == if i < k then s[i] else s[i + 1]
  {
    s[..k] + s[k + 1..]
  }

  lemma {:induction false} CutRegistered(entries: map<string, BudgetEntry>, lru: seq<Slot>, maxEntries: nat, k: nat)
    requires Registered(entries, lru, maxEntries) && k < |lru|
    ensures Registered(entries - {lru[k].entry.scope}, Cut(lru, k), maxEntries)
  {
    assert (entries - {lru[k].entry.scope}).Keys == entries.Keys - {lru[k].entry.scope};
  }

  predicate Within(kept: map<string, BudgetEntry>, entries: map<string, BudgetEntry>) {
    forall s :: s in kept ==> s in entries && kept[s] == entries[s]
  }

  /** Takes the last of the first `n` entries of the list out of the map. */
  method Drop(entries: map<string, BudgetEntry>, lru: seq<Slot>, n: nat, ghost made: set<BudgetEntry>)
    returns (kept: map<string, BudgetEntry>)
    requires 0 < n <= |lru| && RegisteredTo(entries, lru, n) && Pinned(entries, made) && !lru[n - 1].entry.Busy()
    ensures RegisteredTo(kept, lru, n - 1) && Pinned(kept, made) && Within(kept, entries)
  {
    kept := entries - {lru[n - 1].entry.scope};
    assert kept.Keys == entries.Keys - {lru[n - 1].entry.scope};
  }

  /** An idle or freshly registered entry joins the ones ever created. */
  lemma {:induction false} PinnedMore(entries: map<string, BudgetEntry>, e: BudgetEntry, made: set<BudgetEntry>)
    requires Pinned(entries, made) && e.scope !in entries && e.Accounted()
    ensures Pinned(entries[e.scope := e], made + {e})
  {
  }

  lemma {:induction false} TakeRegistered(kept: map<string, BudgetEntry>, lru: seq<Slot>, n: nat, clock: int)
    requires n <= |lru| && RegisteredTo(kept, lru, n) && Ordered(lru, clock)
    ensures RegisteredTo(kept, lru[..n], n) && Ordered(lru[..n], clock)
  {
  }

  lemma {:induction false} CutOrdered(lru: seq<Slot>, clock: int, k: nat)
    requires Ordered(lru, clock) && k < |lru|
    ensures Ordered(Cut(lru, k), clock)
  {
  }

  ghost predicate IdleFrom(lru: seq<Slot>, n: nat, now: int, idleTTL: int)
    reads set s | s in lru :: s.entry
  {
    forall i :: n <= i < |lru| ==> now - lru[i].lastUsed >= idleTTL && !lru[i].entry.Busy()
  }

  lemma {:induction false} IdleMore(lru: seq<Slot>, n: nat, now: int, idleTTL: int)
    requires 0 < n <= |lru| && IdleFrom(lru, n, now, idleTTL) && now - lru[n - 1].lastUsed >= idleTTL && !lru[n - 1].entry.Busy()
    ensures IdleFrom(lru, n - 1, now, idleTTL)
  {
  }

  class BudgetLedger {
    const maxEntries: nat
    const idleTTL: int
    const timing: Timing
    var entries: map<string, BudgetEntry>
    var lru: seq<Slot>                 // front = most recently used

    ghost var made: set<BudgetEntry>   // every entry ever created
    ghost var clock: int               // latest time seen

    ghost predicate Valid()
      reads this, made
    {
      Sound(entries, lru, made, clock)
    }

    constructor (maxEntries: nat, idleTTL: int, timing: Timing)
      ensures Valid() && entries == map[] && made == {}
      ensures this.maxEntries == maxEntries && this.idleTTL == idleTTL && this.timing == timing
    {
      this.maxEntries, this.idleTTL, this.timing := maxEntries, idleTTL, timing;
      entries, lru, made := map[], [], {};
    }

    /** The invariant for given contents. */
    ghost predicate Sound(entries: map<string, BudgetEntry>, lru: seq<Slot>, made: set<BudgetEntry>, clock: int)
      reads made
    {
      && Registered(entries, lru, maxEntries)
      && Ordered(lru, clock)
      && (forall s :: s in entries ==> entries[s] in made)
      && Pinned(entries, made)
    }

    method Replace(entries: map<string, BudgetEntry>, lru: seq<Slot>, ghost made: set<BudgetEntry>, ghost clock: int)
      requires Sound(entries, lru, made, clock)
      modifies `entries, `lru, `made, `clock
      ensures Valid() && this.entries == entries && this.lru == lru && this.made == made && this.clock == clock
    {
      this.entries, this.lru, this.made, this.clock := entries, lru, made, clock;
    }

    method RemoveAt(k: nat)
      requires Valid() && k < |lru| && !lru[k].entry.Busy()
      modifies `entries, `lru, `made, `clock
      ensures Valid() && made == old(made) && clock == old(clock)
      ensures lru == Cut(old(lru), k) && entries == old(entries) - {old(lru)[k].entry.scope}
    {
      CutRegistered(entries, lru, maxEntries, k);
      CutOrdered(lru, clock, k);
      Replace(entries - {lru[k].entry.scope}, Cut(lru, k), made, clock);
    }

    /** The entries to keep when those idle at the end of the list are dropped. */
    method IdleTail(now: int) returns (kept: map<string, BudgetEntry>, n: nat)
      requires Valid()
      ensures n <= |lru| && RegisteredTo(kept, lru, n) && Pinned(kept, made)
      ensures Within(kept, entries)
      ensures IdleFrom(lru, n, now, idleTTL) && (n > 0 ==> now - lru[n - 1].lastUsed < idleTTL || lru[n - 1].entry.Busy())
    {
      kept, n := entries, |lru|;
      while n > 0 && now - lru[n - 1].lastUsed >= idleTTL && !lru[n - 1].entry.Busy()
        invariant 0 <= n <= |lru|
        invariant RegisteredTo(kept, lru, n)
        invariant Pinned(kept, made) && Within(kept, entries)
        invariant IdleFrom(lru, n, now, idleTTL)
      {
        IdleMore(lru, n, now, idleTTL);
        kept := Drop(kept, lru, n, made);
        n := n - 1;
      }
    }

    /** Drops entries that were not used for the idle time, oldest first, up to the first that is recent or busy. */
    method EvictIdle(now: int)
      requires Valid()
      modifies `entries, `lru, `made, `clock
      ensures Valid() && Within(entries, old(entries)) && made == old(made) && clock == old(clock)
      ensures var n := |lru|;
              && n <= |old(lru)| && lru == old(lru)[..n]
              && old(IdleFrom(lru, n, now, idleTTL))
              && (n > 0 ==> old(now - lru[n - 1].lastUsed < idleTTL || lru[n - 1].entry.Busy()))
    {
      var kept, n := IdleTail(now);
      TakeRegistered(kept, lru, n, clock);
      Replace(kept, lru[..n], made, clock);
    }

    /** The slot to evict: the last one that is not busy, among the last EVICT_SCAN. */
    ghost predicate Victim(k: int)
      reads this, set s | s in lru :: s.entry
    {
      && 0 <= k < |lru| && |lru| - EVICT_SCAN <= k
      && !lru[k].entry.Busy()
      && forall i :: k < i < |lru| ==> lru[i].entry.Busy()
    }

    /** Drops the least recently used entry that is not busy, looking at no more than EVICT_SCAN of them. */
    method EvictOne() returns (evicted: bool)
      requires Valid()
      modifies `entries, `lru, `made, `clock
      ensures Valid() && made == old(made) && clock == old(clock)
      ensures Within(entries, old(entries))
      ensures evicted ==> |entries| == |old(entries)| - 1
      ensures evicted ==> exists k :: old(Victim(k)) && lru == Cut(old(lru), k)
      ensures !evicted ==> lru == old(lru) && entries == old(entries) && forall k :: !Victim(k)
    {
      var scanned, victim := 0, -1;
      while victim < 0 && scanned < |lru| && scanned < EVICT_SCAN
        invariant 0 <= scanned <= |lru| && scanned <= EVICT_SCAN
        invariant victim < 0 ==> forall i :: |lru| - scanned <= i < |lru| ==> lru[i].entry.Busy()
        invariant victim >= 0 ==> Victim(victim)
        decreases EVICT_SCAN - scanned
      {
        scanned := scanned + 1;
        if !lru[|lru| - scanned].entry.Busy() {
          victim := |lru| - scanned;
        }
      }
      if victim >= 0 {
        RemoveAt(victim);
      }
      return victim >= 0;
    }

    /** Moves an entry to the front of the list. */
    method Touch(e: BudgetEntry, now: int)
      requires Valid() && Has(entries, e) && clock <= now
      modifies `entries, `lru, `made, `clock
      ensures Valid() && clock == now && entries == old(entries) && made == old(made)
      ensures lru != [] && lru[0] == Slot(e, now) && |lru| == |old(lru)|
    {
      var moved := MoveToFront(entries, lru, Slot(e, now), clock);
      Replace(entries, moved, made, now);
    }

    lemma {:induction false} JoinedSound(e: BudgetEntry, now: int, lru': seq<Slot>)
      requires Valid() && e.scope !in entries && |entries| < maxEntries && e.Accounted()
      requires RegisteredTo(entries[e.scope := e], lru', |lru'|) && Ordered(lru', now) && |lru'| == |lru| + 1
      ensures Sound(entries[e.scope := e], lru', made + {e}, now)
    {
      PinnedMore(entries, e, made);
    }

    /** Puts a new entry at the front of the list. */
    method Register(e: BudgetEntry, now: int)
      requires Valid() && clock <= now && e.scope !in entries && |entries| < maxEntries && e.Accounted()
      modifies `entries, `lru, `made, `clock
      ensures Valid() && clock == now && lru != [] && lru[0] == Slot(e, now)
      ensures entries == old(entries)[e.scope := e] && made == old(made) + {e}
    {
      ghost var entries';
      var lru';
      entries', lru' := PushFront(entries, lru, Slot(e, now), clock);
      JoinedSound(e, now, lru');
      Replace(entries[e.scope := e], lru', made + {e}, now);
    }

    /** Makes room for one more entry, unless the ledger is full of busy ones. */
    method MakeRoom(now: int) returns (ok: bool)
      requires Valid()
      modifies `entries, `lru, `made, `clock
      ensures Valid() && Within(entries, old(entries)) && made == old(made) && clock == old(clock)
      ensures ok <==> |entries| < maxEntries
      ensures !ok ==> forall k :: !Victim(k)
    {
      EvictIdle(now);
      ok := true;
      if |entries| >= maxEntries {
        ok := EvictOne();
      }
    }

    /** A new entry for a scope that has none; null when the ledger is full of busy entries. */
    method NewEntryFor(scope: string, now: int) returns (e: BudgetEntry?)
      requires Valid() && clock <= now && scope !in entries
      modifies `entries, `lru, `made, `clock
      ensures Valid()
      ensures e != null ==> fresh(e) && e.View() == NewEntry() && made == old(made) + {e}
      ensures e != null ==> Has(entries, e) && e.scope == scope && lru != [] && lru[0] == Slot(e, now)
      ensures e == null ==> scope !in entries && |entries| >= maxEntries && made == old(made) && forall k :: !Victim(k)
    {
      var ok := MakeRoom(now);
      if !ok {
        return null;
      }
      e := new BudgetEntry(scope);
      Register(e, now);
    }

    /** The scope's entry, created when needed. */
    method EntryFor(scope: string, now: int) returns (e: BudgetEntry?)
      requires Valid() && clock <= now
      modifies `entries, `lru, `made, `clock
      ensures Valid()
      ensures e != null ==> Has(entries, e) && e.scope == scope && lru != [] && lru[0] == Slot(e, now) && made == old(made) + {e}
      ensures if scope in old(entries) then e == old(entries)[scope] && entries == old(entries)
              else e != null ==> fresh(e) && e.View() == NewEntry()
      ensures e == null ==> scope !in entries && |entries| >= maxEntries && made == old(made) && forall k :: !Victim(k)
    {
      if scope in entries {
        e := entries[scope];
        Touch(e, now);
      } else {
        e := NewEntryFor(scope, now);
      }
    }

    /** One pass of admission for a scope. */
    method Admit(scope: string, hint: Option<Limits>, estimate: Amount, now: int, month: nat, attempt: Attempt)
      returns (verdict: Verdict, load: Option<LoadOrder>, res: BudgetReservation?, e: BudgetEntry?)
      requires Valid() && clock <= now
      modifies this, entries.Values
      ensures Valid()
      ensures WithoutLimits(hint) ==> verdict == NoBudget && e == null && unchanged(this) && unchanged(old(entries.Values))
      ensures e == null ==> res == null && load.None? && (WithoutLimits(hint) || verdict == Unavailable)
      ensures forall other :: other in old(made) && other != e ==> unchanged(other)
      ensures e != null ==> Has(entries, e) && e.scope == scope
      ensures e != null ==>
                (var was := if scope in old(entries) then old(entries[scope].View()) else NewEntry();
                 && Pass(e.View(), verdict, load) == AdmitPass(was, hint, estimate, now, month, timing, attempt)
                 && Decision(verdict, was, hint, estimate, now, month, timing, attempt))
      ensures res != null <==> verdict.Reserved?
      ensures res != null ==> fresh(res) && res.entry == e && res.amount == estimate && Holds(res)
    {
      if WithoutLimits(hint) {
        return NoBudget, None, null, null;
      }
      e := EntryFor(scope, now);
      if e == null {
        return Unavailable, None, null, null;
      }
      hide Decision;
      verdict, load, res := AdmitTo(e, hint, estimate, now, month, attempt);
    }

    method AdmitTo(e: BudgetEntry, hint: Option<Limits>, estimate: Amount, now: int, month: nat, attempt: Attempt)
      returns (verdict: Verdict, load: Option<LoadOrder>, res: BudgetReservation?)
      requires Valid() && Has(entries, e)
      modifies e
      ensures Valid()
      ensures Pass(e.View(), verdict, load) == AdmitPass(old(e.View()), hint, estimate, now, month, timing, attempt)
      ensures Decision(verdict, old(e.View()), hint, estimate, now, month, timing, attempt)
      ensures res != null <==> verdict.Reserved?
      ensures res != null ==> fresh(res) && res.entry == e && res.amount == estimate && Holds(res)
    {
      verdict, load, res := e.AdmitHere(hint, estimate, now, month, timing, attempt);
    }

    /** A reservation made here: it is live exactly while it is not released. */
    ghost predicate Holds(res: BudgetReservation)
      reads this, made, res
    {
      res.entry in made && (res in res.entry.live <==> !res.released)
    }

    /** Returning a reservation twice has no further effect. */
    method Release(res: BudgetReservation)
      requires Valid() && Holds(res)
      modifies res, res.entry
      ensures Valid() && Holds(res) && res.released
      ensures res.entry.View() == if old(res.released) then old(res.entry.View())
                                  else BudgetEntries.Release(old(res.entry.View()), res.amount)
      ensures !old(res.released) ==> Has(entries, res.entry)
    {
      hide Registered, Ordered, BudgetEntries.Release;
      if !res.released {
        assert |res.entry.live| > 0;
        assert Has(entries, res.entry);
        res.entry.GiveBack(res);
      }
    }

    /** Ends a load of a registered entry. */
    method EndLoad(e: BudgetEntry, result: Option<Snapshot>, startedAt: int, startGen: nat, now: int)
      requires Valid() && e in made && e.loading
      modifies e
      ensures Valid()
      ensures e.View() == if result.Some? then Install(old(e.View()), result.value, startedAt, startGen) else FailLoad(old(e.View()), now)
    {
      hide Registered, Ordered, Install, FailLoad;
      e.EndLoading(result, startedAt, startGen, now);
    }

    /** The charge settles this reservation: it is live and of the same scope. */
    predicate Settles(res: BudgetReservation?, scope: string)
      reads res
    {
      res != null && !res.released && res.entry.scope == scope
    }

    /** Without a reservation only an entry that exists needs the charge. */
    method BeginTracked(scope: string, charge: Charge) returns (p: BudgetPending?)
      requires Valid()
      modifies made
      ensures Valid() && (p == null <==> scope !in entries)
      ensures forall e :: e in made && !(scope in entries && e == entries[scope]) ==> unchanged(e)
      ensures p != null ==> fresh(p) && !p.done && p.charge == charge && p.entry == entries[scope] && p in p.entry.pending
                            && p.entry.View() == Begin(old(entries[scope].View()), p, charge) && p.entry.live == old(entries[scope].live)
    {
      hide Ordered, Begin;
      if scope !in entries {
        return null;
      }
      p := entries[scope].BeginPending(charge);
    }

    method SettleHere(res: BudgetReservation, charge: Charge) returns (p: BudgetPending)
      requires Valid() && Holds(res) && !res.released && Has(entries, res.entry)
      modifies res, res.entry
      ensures Valid() && Holds(res) && res.released
      ensures fresh(p) && !p.done && p.charge == charge && p.entry == res.entry && p in p.entry.pending
      ensures p.entry.View() == Begin(BudgetEntries.Release(old(res.entry.View()), res.amount), p, charge)
    {
      hide Registered, Ordered, Begin, BudgetEntries.Release;
      p := res.entry.Settle(res, charge);
    }

    method SettleReserved(res: BudgetReservation, charge: Charge, now: int) returns (p: BudgetPending)
      requires Valid() && clock <= now && Holds(res) && !res.released
      modifies `entries, `lru, `made, `clock, res, res.entry
      ensures Valid() && Holds(res) && res.released
      ensures fresh(p) && !p.done && p.charge == charge && p.entry == res.entry && Has(entries, res.entry) && p in p.entry.pending
      ensures p.entry.View() == Begin(BudgetEntries.Release(old(res.entry.View()), res.amount), p, charge)
      ensures made == old(made)
    {
      assert res.entry.Busy();
      Touch(res.entry, now);
      p := SettleHere(res, charge);
    }

    /**
     Counts a charge before it is written and returns its reservation in the
     same step. Null means the scope is not tracked.
     */
    method BeginCharge(scope: string, res: BudgetReservation?, charge: Charge, now: int) returns (p: BudgetPending?)
      requires Valid() && clock <= now && (res != null ==> Holds(res))
      modifies this, made, res
      ensures Valid() && (res != null ==> Holds(res) && res.released)
      ensures p == null <==> !old(Settles(res, scope)) && scope !in old(entries)
      ensures p != null ==> fresh(p) && !p.done && p.charge == charge && Has(entries, p.entry) && p.entry.scope == scope && p in p.entry.pending
      ensures old(Settles(res, scope)) ==>
                p.entry == res.entry && p.entry.View() == Begin(BudgetEntries.Release(old(res.entry.View()), res.amount), p, charge)
      ensures p != null && !old(Settles(res, scope)) ==> p.entry.View() == Begin(old(entries[scope].View()), p, charge)
      ensures res != null && !old(Settles(res, scope)) && (p == null || res.entry != p.entry) ==>
                res.entry.View() == if old(res.released) then old(res.entry.View())
                                    else BudgetEntries.Release(old(res.entry.View()), res.amount)
      ensures forall e :: e in old(made) && (res == null || e != res.entry) && (p == null || e != p.entry) ==> unchanged(e)
    {
      hide Ordered, Begin, BudgetEntries.Release;
      if Settles(res, scope) {
        p := SettleReserved(res, charge, now);
        return;
      }
      if res != null {
        Release(res);
      }
      p := BeginTracked(scope, charge);
    }

    method FinishHere(p: BudgetPending, logStored: bool, spendStored: bool, month: nat)
      requires Valid() && p.entry in made && p in p.entry.pending && !p.done
      modifies p, p.entry
      ensures Valid() && p.done && p !in p.entry.pending
      ensures p.entry.View() == Finish(old(p.entry.View()), p, logStored, spendStored, month)
    {
      hide Registered, Ordered, Finish;
      var e := p.entry;
      assert e.Busy();
      e.FinishPending(p, logStored, spendStored, month);
    }

    /** Ends a running charge; ending it twice has no further effect. */
    method FinishCharge(p: BudgetPending, logStored: bool, spendStored: bool, month: nat)
      returns (limits: Limits, lifetime: int, monthly: Amount)
      requires Valid() && p.entry in made && (p in p.entry.pending <==> !p.done)
      modifies p, p.entry
      ensures Valid() && p.done && p !in p.entry.pending && limits == p.entry.limits
      ensures if old(p.done) then p.entry.View() == old(p.entry.View()) && lifetime == 0 && monthly == ZERO
              else p.entry.View() == Finish(old(p.entry.View()), p, logStored, spendStored, month)
                   && lifetime == Committed(p.entry.View(), Lifetime) && monthly == CommittedMonth(p.entry.View(), month)
    {
      limits, lifetime, monthly := p.entry.limits, 0, ZERO;
      if !p.done {
        FinishHere(p, logStored, spendStored, month);
        lifetime, monthly := p.entry.CommittedIn(month);
      }
    }
  }

  lemma {:induction false} SlotExists(entries: map<string, BudgetEntry>, lru: seq<Slot>, n: nat, e: BudgetEntry)
    requires n <= |lru| && RegisteredTo(entries, lru, n) && Has(entries, e)
    ensures exists k :: 0 <= k < n && lru[k].entry == e
    decreases n
  {
    assert entries.Keys != {};
    if n > 0 && lru[n - 1].entry != e {
      var scope := lru[n - 1].entry.scope;
      assert (entries - {scope}).Keys == entries.Keys - {scope};
      SlotExists(entries - {scope}, lru, n - 1, e);
    }
  }

  method MoveToFront(ghost entries: map<string, BudgetEntry>, lru: seq<Slot>, slot: Slot, ghost clock: int)
    returns (moved: seq<Slot>)
    requires RegisteredTo(entries, lru, |lru|) && Ordered(lru, clock) && Has(entries, slot.entry) && clock <= slot.lastUsed
    ensures |moved| == |lru| && RegisteredTo(entries, moved, |moved|) && Ordered(moved, slot.lastUsed)
    ensures moved != [] && moved[0] == slot
  {
    SlotExists(entries, lru, |lru|, slot.entry);
    var k :| 0 <= k < |lru| && lru[k].entry == slot.entry;
    CutRegistered(entries, lru, |lru|, k);
    CutOrdered(lru, clock, k);
    ghost var entries';
    entries', moved := PushFront(entries - {slot.entry.scope}, Cut(lru, k), slot, clock);
    assert entries' == entries;
  }

  method PushFront(ghost entries: map<string, BudgetEntry>, lru: seq<Slot>, slot: Slot, ghost clock: int)
    returns (ghost entries': map<string, BudgetEntry>, lru': seq<Slot>)
    requires RegisteredTo(entries, lru, |lru|) && Ordered(lru, clock) && slot.entry.scope !in entries && clock <= slot.lastUsed
    ensures entries' == entries[slot.entry.scope := slot.entry] && |lru'| == |lru| + 1 && lru'[0] == slot
    ensures RegisteredTo(entries', lru', |lru'|) && Ordered(lru', slot.lastUsed)
  {
    entries', lru' := entries[slot.entry.scope := slot.entry], [slot] + lru;
    assert entries'.Keys == entries.Keys + {slot.entry.scope};
  }
}
