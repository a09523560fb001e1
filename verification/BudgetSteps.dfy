/**
 Every step of the interleaving model keeps the ledger's invariant.

 The invariant has five parts, and each step has one lemma for every part that
 it could break, named after both: `FinishKeepsLinks`, `FinishKeepsEntry` and so
 on, put together by `FinishStep`.

 The arguments are about totals. Charges are selected by what happened to them
 (`Sel`), a total adds up one component of the selected charges, and a step moves
 single charges from one selection to another: a store write makes one stored, a
 read marks the stored ones as seen, an installed load makes the seen ones part
 of the snapshot and drops the buckets that it covers, a finished charge leaves
 the open ones for the bucket of its generation or for the lost record. What the
 ledger adds up is the same before and after, component by component.
 */
module BudgetSteps {
  import opened MapSums
  import opened Options
  import opened BudgetEntries
  import opened BudgetProtocol

  // ---- Totals over charges and reservations ----

  lemma {:induction false} TotEq(a: map<nat, Rec>, sa: Sel, b: map<nat, Rec>, sb: Sel, q: Component)
    requires a.Keys == b.Keys
    requires forall i :: i in a ==> Weight(a[i], sa, q) == Weight(b[i], sb, q)
    ensures Tot(a, sa, q) == Tot(b, sb, q)
  {
    assert Weights(a, sa, q) == Weights(b, sb, q);
  }

  lemma {:induction false} TotUpdate(charges: map<nat, Rec>, i: nat, r: Rec, s: Sel, q: Component)
    ensures Tot(charges[i := r], s, q)
         == Tot(charges, s, q) - (if i in charges then Weight(charges[i], s, q) else 0) + Weight(r, s, q)
  {
    assert Weights(charges[i := r], s, q) == Weights(charges, s, q)[i := Weight(r, s, q)];
    SumUpdate(Weights(charges, s, q), i, Weight(r, s, q));
  }

  lemma {:induction false} StoredOrNot(charges: map<nat, Rec>, q: Component)
    ensures Tot(charges, Every, q) == Tot(charges, Stored, q) + Tot(charges, Unstored, q)
  {
    SumAdd(Weights(charges, Stored, q), Weights(charges, Unstored, q), Weights(charges, Every, q));
  }

  lemma {:induction false} TotZero(charges: map<nat, Rec>, s: Sel, q: Component)
    requires forall i :: i in charges ==> Weight(charges[i], s, q) == 0
    ensures Tot(charges, s, q) == 0
  {
    SumPad(map[], Weights(charges, s, q));
  }

  lemma {:induction false} TotNonNegative(charges: map<nat, Rec>, s: Sel, q: Component)
    requires forall i :: i in charges ==> charges[i].charge.NonNegative()
    ensures 0 <= Tot(charges, s, q)
  {
    var zeros := map i | i in charges :: 0;
    SumPad(map[], zeros);
    forall i | i in charges ensures 0 <= Weight(charges[i], s, q) {
      assert charges[i].charge.NonNegative();
      hide Chosen;
    }
    hide Weight;
    SumLe(zeros, Weights(charges, s, q));
  }

  lemma {:induction false} HeldInsert(holds: map<nat, Hold>, i: nat, h: Hold, q: Component)
    requires i !in holds
    ensures Held(holds[i := h], q) == Held(holds, q) + HoldWeight(h, q)
  {
    assert HoldWeights(holds[i := h], q) == HoldWeights(holds, q)[i := HoldWeight(h, q)];
    SumUpdate(HoldWeights(holds, q), i, HoldWeight(h, q));
  }

  lemma {:induction false} HeldRemove(holds: map<nat, Hold>, i: nat, q: Component)
    requires i in holds
    ensures Held(holds - {i}, q) == Held(holds, q) - HoldWeight(holds[i], q)
  {
    assert HoldWeights(holds - {i}, q) == HoldWeights(holds, q) - {i};
    SumDrop(HoldWeights(holds, q), i);
  }

  /** Once every reservation is old enough, all months see the same reservations. */
  lemma {:induction false} HeldSame(holds: map<nat, Hold>, a: Component, b: Component)
    requires forall i :: i in holds ==> HoldWeight(holds[i], a) == HoldWeight(holds[i], b)
    ensures Held(holds, a) == Held(holds, b)
  {
    assert HoldWeights(holds, a) == HoldWeights(holds, b);
  }

  lemma {:induction false} PendingIsOpen(charges: map<nat, Rec>, q: Component)
    ensures Total(OpenCharges(charges), q) == Tot(charges, Open, q)
  {
    SumPad(Parts(OpenCharges(charges), q), Weights(charges, Open, q));
  }

  // ---- Steps that only concern the clock, other writers and the registry ----

  lemma {:induction false} TickKeepsLost(lost: map<nat, Charge>, charges: map<nat, Rec>, was: nat, month: nat)
    requires LostIsFailed(lost, charges, was) && ChargesDated(charges, was) && was <= month
    ensures LostIsFailed(lost, charges, month)
  {
    forall q | Current(q, month)
      ensures Total(lost, q) == Tot(charges, Lost, q)
    {
      if !Current(q, was) {
        SumPad(map[], Parts(lost, q));
        TotZero(charges, Lost, q);
      }
    }
  }

  lemma {:induction false} TickKeepsEntry(w: World, now: int, month: nat)
    requires w.entry.Some? && EntrySound(w, w.entry.value) && Dated(w) && w.month <= month
    ensures EntrySound(AfterTick(w, now, month), w.entry.value)
  {
    hide LostIsFailed, Sound, DoneIsStored, ClosedAreWritten, Held;
    HeldSame(w.holds, MonthTokens(w.month), MonthTokens(month));
    TickKeepsLost(w.entry.value.lost, w.charges, w.month, month);
  }

  lemma {:induction false} TickKeepsDated(w: World, now: int, month: nat)
    requires Dated(w) && w.month <= month
    ensures Dated(AfterTick(w, now, month))
  {
  }

  lemma {:induction false} TickStep(w: World, now: int, month: nat)
    requires Inv(w) && w.month <= month
    ensures Inv(AfterTick(w, now, month))
  {
    hide EntrySound, Dated, Held, LimitOf, Sound;
    TickKeepsDated(w, now, month);
    if w.entry.Some? {
      TickKeepsEntry(w, now, month);
    }
  }

  lemma {:induction false} SoundGrows(snap: Snapshot, base: Base, was: Store, store: Store, charges: map<nat, Rec>, seen: Sel, dropGen: nat)
    requires Sound(snap, base, was, charges, seen, false, dropGen)
    requires forall q :: StoreVal(was, q) <= StoreVal(store, q)
    ensures Sound(snap, base, store, charges, seen, false, dropGen)
  {
    hide SeenAreStored, DroppedAreSeen, StoreVal, BaseVal, SnapshotPart, Covered;
    forall q | Covered(snap.month, q)
      ensures PartIsSeen(snap, base, store, charges, seen, false, q)
    {
      assert PartIsSeen(snap, base, was, charges, seen, false, q);
    }
  }

  lemma {:induction false} StoreGrows(w: World, store: Store)
    requires Inv(w) && !w.solo && UsageDated(store, w.month, false)
    requires forall q :: StoreVal(w.store, q) <= StoreVal(store, q)
    ensures Inv(w.(store := store))
  {
    hide Sound, StoreVal, LostIsFailed, DoneIsStored, ClosedAreWritten, ReservedIsHeld;
    if w.load.Some? && ReadSoFar(w.load.value.phase).Some? {
      SoundGrows(ReadSoFar(w.load.value.phase).value, w.readBase, w.store, store, w.charges, Read, w.load.value.order.startGen + 1);
    }
    if w.entry.Some? && w.entry.value.hasSnap {
      SoundGrows(w.entry.value.snap, w.snapBase, w.store, store, w.charges, Snap, w.dropGen);
    }
  }

  lemma {:induction false} AddUsageVal(store: Store, month: nat, a: Amount, q: Component)
    ensures StoreVal(AddUsage(store, month, a), q) == StoreVal(store, q) + Part(Charge(0, month, a), q)
  {
  }

  lemma {:induction false} ForeignStep(w: World, c: Charge)
    requires Inv(w) && !w.solo && c.NonNegative()
    ensures Inv(AfterForeign(w, c))
  {
    var paid := w.store.(lifetime := w.store.lifetime + c.lifetime);
    var store := AddUsage(paid, c.month, c.monthly);
    forall q
      ensures StoreVal(w.store, q) <= StoreVal(store, q)
    {
      AddUsageVal(paid, c.month, c.monthly, q);
    }
    assert UsageDated(store, w.month, false);
    StoreGrows(w, store);
    assert AfterForeign(w, c) == w.(store := store);
  }

  lemma {:induction false} EvictStep(w: World)
    requires Inv(w) && w.entry.Some? && !w.entry.value.Busy()
    ensures Inv(AfterEvict(w))
  {
    var w' := AfterEvict(w);
    assert w.holds == map[];
    if w.solo {
      forall q | LimitOf(w.store.limits, q) > 0
        ensures Spent(w', q) + Held(w'.holds, q) <= LimitOf(w.store.limits, q)
      {
        TotNonNegative(w.charges, Unstored, q);
        TotZero(w'.charges, Unstored, q);
      }
    }
  }

  // ---- Store writes of a running charge ----

  /** The charges and the store change so that no total but the stored ones does. */
  lemma {:induction false} SoundKept(snap: Snapshot, base: Base, store: Store, charges: map<nat, Rec>, store': Store, charges': map<nat, Rec>,
                  seen: Sel, solo: bool, dropGen: nat)
    requires Sound(snap, base, store, charges, seen, solo, dropGen)
    requires store'.limits == store.limits
    requires SeenAreStored(charges', seen, snap.month) && DroppedAreSeen(charges', seen, snap.month, dropGen)
    requires forall q :: Tot(charges', seen, q) == Tot(charges, seen, q)
    requires forall q :: Others(store', charges', q) == Others(store, charges, q)
    ensures Sound(snap, base, store', charges', seen, solo, dropGen)
  {
  }

  /** `r` is a running charge after one more of its store writes ended. */
  predicate Progress(was: Rec, r: Rec) {
    && was.open
    && r == was.(log := r.log, spend := r.spend)
    && (r.log == was.log || was.log.Unwritten?)
    && (r.spend == was.spend || was.spend.Unwritten?)
  }

  function NewlyStored(was: Rec, r: Rec, q: Component): int {
    Weight(r, Stored, q) - Weight(was, Stored, q)
  }

  lemma {:induction false} ProgressTotals(charges: map<nat, Rec>, i: nat, r: Rec, s: Sel, q: Component)
    requires i in charges && Progress(charges[i], r)
    ensures Tot(charges[i := r], s, q) == Tot(charges, s, q)
            + (if s.Stored? then NewlyStored(charges[i], r, q) else if s.Unstored? then -NewlyStored(charges[i], r, q) else 0)
  {
    TotUpdate(charges, i, r, s, q);
  }

  lemma {:induction false} ProgressSeen(charges: map<nat, Rec>, i: nat, r: Rec, seen: Sel, month: nat)
    requires i in charges && Progress(charges[i], r) && seen in {Read, Snap}
    requires SeenAreStored(charges, seen, month)
    ensures SeenAreStored(charges[i := r], seen, month)
  {
    var charges' := charges[i := r];
    forall j, q: Component | j in charges' && Chosen(charges'[j], seen, q)
      ensures charges'[j].WriteOf(q).Written? && (q.Lifetime? || charges'[j].charge.month == month)
    {
      assert Chosen(charges[j], seen, q);
    }
  }

  lemma {:induction false} ProgressSound(snap: Snapshot, base: Base, store: Store, charges: map<nat, Rec>, i: nat, r: Rec, store': Store,
                      seen: Sel, solo: bool, dropGen: nat)
    requires Sound(snap, base, store, charges, seen, solo, dropGen) && seen in {Read, Snap}
    requires i in charges && Progress(charges[i], r) && store'.limits == store.limits
    requires forall q :: StoreVal(store', q) == StoreVal(store, q) + NewlyStored(charges[i], r, q)
    ensures Sound(snap, base, store', charges[i := r], seen, solo, dropGen)
  {
    forall q
      ensures Tot(charges[i := r], seen, q) == Tot(charges, seen, q)
      ensures Others(store', charges[i := r], q) == Others(store, charges, q)
    {
      ProgressTotals(charges, i, r, seen, q);
      ProgressTotals(charges, i, r, Stored, q);
    }
    ProgressSeen(charges, i, r, seen, snap.month);
    SoundKept(snap, base, store, charges, store', charges[i := r], seen, solo, dropGen);
  }

  /** The store after the write that turned charge `i` into `r`. */
  ghost predicate Follows(w: World, i: nat, r: Rec, store: Store) {
    && i in w.charges && Progress(w.charges[i], r)
    && store.limits == w.store.limits && UsageDated(store, w.month, w.solo)
    && forall q :: StoreVal(store, q) == StoreVal(w.store, q) + NewlyStored(w.charges[i], r, q)
  }

  lemma {:induction false} WriteKeepsEntry(w: World, i: nat, r: Rec, store: Store)
    requires w.entry.Some? && EntrySound(w, w.entry.value) && Follows(w, i, r, store)
    ensures EntrySound(w.(charges := w.charges[i := r], store := store), w.entry.value)
  {
    var charges, charges', e := w.charges, w.charges[i := r], w.entry.value;
    if e.hasSnap {
      ProgressSound(e.snap, w.snapBase, w.store, charges, i, r, store, Snap, w.solo, w.dropGen);
    }
    forall t: nat, q
      ensures Tot(charges', Done(t), q) == Tot(charges, Done(t), q)
    {
      ProgressTotals(charges, i, r, Done(t), q);
    }
    forall q
      ensures Tot(charges', Lost, q) == Tot(charges, Lost, q)
    {
      ProgressTotals(charges, i, r, Lost, q);
    }
    assert DoneIsStored(e.done, charges', w.dropGen);
    assert LostIsFailed(e.lost, charges', w.month);
  }

  lemma {:induction false} WriteKeepsLoad(w: World, i: nat, r: Rec, store: Store)
    requires LoadSound(w) && Follows(w, i, r, store)
    ensures LoadSound(w.(charges := w.charges[i := r], store := store))
  {
    if w.load.Some? && ReadSoFar(w.load.value.phase).Some? {
      ProgressSound(ReadSoFar(w.load.value.phase).value, w.readBase, w.store, w.charges, i, r, store, Read, w.solo,
                    w.load.value.order.startGen + 1);
    }
  }

  lemma {:induction false} WriteKeepsSpent(w: World, i: nat, r: Rec, store: Store)
    requires WithinBudget(w) && Follows(w, i, r, store)
    ensures WithinBudget(w.(charges := w.charges[i := r], store := store))
  {
    var w' := w.(charges := w.charges[i := r], store := store);
    forall q
      ensures Spent(w', q) == Spent(w, q)
    {
      ProgressTotals(w.charges, i, r, Unstored, q);
    }
  }

  lemma {:induction false} WriteKeepsLinks(w: World, i: nat, r: Rec, store: Store)
    requires Linked(w) && Dated(w) && Follows(w, i, r, store)
    ensures Linked(w.(charges := w.charges[i := r], store := store))
    ensures Dated(w.(charges := w.charges[i := r], store := store))
    ensures w.entry.Some?
  {
    assert OpenCharges(w.charges[i := r]) == OpenCharges(w.charges);
  }

  lemma {:induction false} WriteStep(w: World, i: nat, r: Rec, store: Store)
    requires Inv(w) && Follows(w, i, r, store)
    ensures Inv(w.(charges := w.charges[i := r], store := store))
  {
    WriteKeepsLinks(w, i, r, store);
    WriteKeepsEntry(w, i, r, store);
    WriteKeepsLoad(w, i, r, store);
    WriteKeepsSpent(w, i, r, store);
  }

  lemma {:induction false} WriteLogStep(w: World, i: nat, ok: bool)
    requires Inv(w) && i in w.charges && w.charges[i].open && w.charges[i].log.Unwritten?
    ensures Inv(AfterWriteLog(w, i, ok))
  {
    var was := w.charges[i];
    var r := was.(log := if ok then Written else Failed);
    var store := if ok then AddUsage(w.store, was.charge.month, was.charge.monthly) else w.store;
    forall q
      ensures StoreVal(store, q) == StoreVal(w.store, q) + NewlyStored(was, r, q)
    {
      AddUsageVal(w.store, was.charge.month, was.charge.monthly, q);
    }
    WriteStep(w, i, r, store);
  }

  lemma {:induction false} WriteSpendStep(w: World, i: nat, ok: bool)
    requires Inv(w) && i in w.charges && w.charges[i].open && w.charges[i].spend.Unwritten?
    ensures Inv(AfterWriteSpend(w, i, ok))
  {
    var was := w.charges[i];
    var r := was.(spend := if ok then Written else Failed);
    var store := if ok then w.store.(lifetime := w.store.lifetime + was.charge.lifetime) else w.store;
    assert forall q :: StoreVal(store, q) == StoreVal(w.store, q) + NewlyStored(was, r, q);
    WriteStep(w, i, r, store);
    assert AfterWriteSpend(w, i, ok) == w.(charges := w.charges[i := r], store := store);
  }

  // ---- Loads ----

  /** Only what the running load has seen differs. */
  predicate SameButRead(a: map<nat, Rec>, b: map<nat, Rec>) {
    && a.Keys == b.Keys
    && forall i :: i in a ==> b[i] == a[i].(readLife := b[i].readLife, readMonth := b[i].readMonth)
  }

  lemma {:induction false} SameTots(a: map<nat, Rec>, b: map<nat, Rec>, s: Sel, q: Component)
    requires SameButRead(a, b) && !s.Read?
    ensures Tot(a, s, q) == Tot(b, s, q)
  {
    TotEq(a, s, b, s, q);
  }

  lemma {:induction false} RereadKeepsSound(snap: Snapshot, base: Base, store: Store, a: map<nat, Rec>, b: map<nat, Rec>, solo: bool, dropGen: nat)
    requires Sound(snap, base, store, a, Snap, solo, dropGen) && SameButRead(a, b)
    ensures Sound(snap, base, store, b, Snap, solo, dropGen)
  {
    forall i, q: Component | i in b
      ensures Chosen(b[i], Snap, q) == Chosen(a[i], Snap, q)
      ensures Dropped(b[i], q, dropGen) == Dropped(a[i], q, dropGen)
    {
    }
    forall q
      ensures Tot(b, Snap, q) == Tot(a, Snap, q) && Others(store, b, q) == Others(store, a, q)
    {
      SameTots(a, b, Snap, q);
      SameTots(a, b, Stored, q);
    }
  }

  lemma {:induction false} RereadKeepsEntry(w: World, w': World, e: Entry<nat>)
    requires EntrySound(w, e) && SameButRead(w.charges, w'.charges)
    requires w' == w.(charges := w'.charges, load := w'.load, readBase := w'.readBase)
    ensures EntrySound(w', e)
  {
    if e.hasSnap {
      RereadKeepsSound(e.snap, w.snapBase, w.store, w.charges, w'.charges, w.solo, w.dropGen);
    }
    forall t: nat, q
      ensures Tot(w.charges, Done(t), q) == Tot(w'.charges, Done(t), q)
    {
      SameTots(w.charges, w'.charges, Done(t), q);
    }
    forall q
      ensures Tot(w.charges, Lost, q) == Tot(w'.charges, Lost, q)
    {
      SameTots(w.charges, w'.charges, Lost, q);
    }
    assert DoneIsStored(e.done, w'.charges, w.dropGen);
    assert LostIsFailed(e.lost, w'.charges, w.month);
  }

  lemma {:induction false} RereadKeepsRest(w: World, w': World)
    requires Linked(w) && Dated(w) && WithinBudget(w) && SameButRead(w.charges, w'.charges)
    requires w' == w.(charges := w'.charges, load := w'.load, readBase := w'.readBase)
    requires w.load.Some? && w'.load.Some? && w'.load.value.order == w.load.value.order
    ensures Linked(w') && Dated(w') && WithinBudget(w')
  {
    assert OpenCharges(w'.charges) == OpenCharges(w.charges);
    forall q
      ensures Spent(w', q) == Spent(w, q)
    {
      SameTots(w.charges, w'.charges, Unstored, q);
    }
  }

  /** Reading the key row sees exactly the charges whose spend is stored. */
  lemma {:induction false} ReadKeySound(w: World, order: LoadOrder)
    requires ClosedAreWritten(w.charges, order.startGen + 1) && w.dropGen <= order.startGen && 0 < order.month
    requires w.load == Some(Fetch(order, Started))
    ensures LoadSound(AfterReadKey(w))
  {
    var w' := AfterReadKey(w);
    var snap := Snapshot(w.store.limits, w.store.lifetime, 0, ZERO);
    assert ReadSoFar(w'.load.value.phase) == Some(snap);
    TotEq(w'.charges, Read, w.charges, Stored, Lifetime);
    TotEq(w'.charges, Stored, w.charges, Stored, Lifetime);
    assert ReadIsSeen(snap, w'.readBase, w.store, w'.charges, Read, w.solo);
    assert SeenAreStored(w'.charges, Read, 0);
    assert DroppedAreSeen(w'.charges, Read, 0, order.startGen + 1);
  }

  lemma {:induction false} ReadKeyStep(w: World)
    requires Inv(w) && w.load.Some? && w.load.value.phase.Started?
    ensures Inv(AfterReadKey(w))
  {
    ReadKeySound(w, w.load.value.order);
    RereadKeepsEntry(w, AfterReadKey(w), w.entry.value);
    RereadKeepsRest(w, AfterReadKey(w));
  }

  function WithMonthRead(charges: map<nat, Rec>, month: nat): map<nat, Rec> {
    map i | i in charges :: MarkReadMonth(charges[i], month)
  }

  lemma {:induction false} MonthReadSeen(charges: map<nat, Rec>, month: nat, dropGen: nat)
    requires month != 0 && SeenAreStored(charges, Read, 0) && DroppedAreSeen(charges, Read, 0, dropGen)
    ensures SeenAreStored(WithMonthRead(charges, month), Read, month)
    ensures DroppedAreSeen(WithMonthRead(charges, month), Read, month, dropGen)
  {
    var charges' := WithMonthRead(charges, month);
    forall i, q: Component | i in charges' && q.Lifetime?
      ensures Chosen(charges'[i], Read, q) == Chosen(charges[i], Read, q)
      ensures Dropped(charges'[i], q, dropGen) == Dropped(charges[i], q, dropGen)
    {
    }
  }

  /** Reading the month sees exactly the charges of that month whose log row is stored. */
  lemma {:induction false} MonthReadTotals(charges: map<nat, Rec>, month: nat, q: Component)
    requires Covered(month, q)
    ensures Tot(WithMonthRead(charges, month), Read, q)
         == if q.Lifetime? then Tot(charges, Read, q) else Tot(charges, Stored, q)
    ensures Tot(WithMonthRead(charges, month), Stored, q) == Tot(charges, Stored, q)
  {
    TotEq(WithMonthRead(charges, month), Read, charges, if q.Lifetime? then Read else Stored, q);
    SameTots(charges, WithMonthRead(charges, month), Stored, q);
  }

  function WithMonth(snap: Snapshot, month: nat, usage: Amount): Snapshot {
    snap.(month := month, monthly := usage)
  }

  ghost function BaseWithMonth(base: Base, store: Store, charges: map<nat, Rec>, month: nat): Base {
    Base(base.lifetime, Amount(Others(store, charges, MonthCost(month)), Others(store, charges, MonthTokens(month))))
  }

  lemma {:induction false} MonthPartIsSeen(was: Snapshot, base: Base, store: Store, charges: map<nat, Rec>, month: nat, solo: bool, q: Component)
    requires PartIsSeen(was, base, store, charges, Read, solo, Lifetime) && Covered(month, q)
    ensures PartIsSeen(WithMonth(was, month, UsageOf(store, month)), BaseWithMonth(base, store, charges, month),
                       store, WithMonthRead(charges, month), Read, solo, q)
  {
    MonthReadTotals(charges, month, q);
    match q
    case Lifetime =>
    case MonthCost(_) =>
    case MonthTokens(_) =>
  }

  lemma {:induction false} MonthReadIsSeen(was: Snapshot, base: Base, store: Store, charges: map<nat, Rec>, month: nat, solo: bool)
    requires ReadIsSeen(was, base, store, charges, Read, solo) && month != 0
    ensures ReadIsSeen(WithMonth(was, month, UsageOf(store, month)), BaseWithMonth(base, store, charges, month),
                       store, WithMonthRead(charges, month), Read, solo)
  {
    assert Covered(was.month, Lifetime);
    forall q | Covered(month, q)
      ensures PartIsSeen(WithMonth(was, month, UsageOf(store, month)), BaseWithMonth(base, store, charges, month),
                         store, WithMonthRead(charges, month), Read, solo, q)
    {
      MonthPartIsSeen(was, base, store, charges, month, solo, q);
    }
  }

  lemma {:induction false} ReadUsageSound(w: World, order: LoadOrder, phase: Phase)
    requires LoadSound(w) && phase.KeyRead? && w.load == Some(Fetch(order, phase))
    ensures LoadSound(AfterReadUsage(w))
  {
    var was := Snapshot(phase.limits, phase.lifetime, 0, ZERO);
    assert Sound(was, w.readBase, w.store, w.charges, Read, w.solo, order.startGen + 1);
    MonthReadSeen(w.charges, order.month, order.startGen + 1);
    MonthReadIsSeen(was, w.readBase, w.store, w.charges, order.month, w.solo);
    assert AfterReadUsage(w).charges == WithMonthRead(w.charges, order.month);
  }

  lemma {:induction false} ReadUsageStep(w: World)
    requires Inv(w) && w.load.Some? && w.load.value.phase.KeyRead?
    ensures Inv(AfterReadUsage(w))
  {
    ReadUsageSound(w, w.load.value.order, w.load.value.phase);
    RereadKeepsEntry(w, AfterReadUsage(w), w.entry.value);
    RereadKeepsRest(w, AfterReadUsage(w));
  }

  lemma {:induction false} AbandonStep(w: World)
    requires Inv(w) && w.load.Some?
    ensures Inv(AfterAbandon(w))
  {
  }

  function Marked(charges: map<nat, Rec>): map<nat, Rec> {
    map i | i in charges :: MarkSnap(charges[i])
  }

  lemma {:induction false} InstallSound(snap: Snapshot, base: Base, store: Store, charges: map<nat, Rec>, solo: bool, dropGen: nat)
    requires Sound(snap, base, store, charges, Read, solo, dropGen)
    ensures Sound(snap, base, store, Marked(charges), Snap, solo, dropGen)
  {
    forall i, q: Component | i in charges
      ensures Chosen(Marked(charges)[i], Snap, q) == Chosen(charges[i], Read, q)
      ensures Dropped(Marked(charges)[i], q, dropGen) == Dropped(charges[i], q, dropGen)
    {
    }
    forall q
      ensures Tot(Marked(charges), Snap, q) == Tot(charges, Read, q)
      ensures Tot(Marked(charges), Stored, q) == Tot(charges, Stored, q)
    {
      TotEq(Marked(charges), Snap, charges, Read, q);
      TotEq(Marked(charges), Stored, charges, Stored, q);
    }
    assert ReadIsSeen(snap, base, store, Marked(charges), Snap, solo);
  }

  /** Dropping the buckets up to the load's generation leaves the later ones exact. */
  lemma {:induction false} InstallDone(done: map<DoneKey, Charge>, charges: map<nat, Rec>, dropGen: nat, startGen: nat)
    requires DoneIsStored(done, charges, dropGen) && dropGen <= startGen
    ensures DoneIsStored(Forget(done, startGen), Marked(charges), startGen + 1)
  {
    forall t: nat, q | t >= startGen + 1
      ensures Total(From(Forget(done, startGen), t), q) == Tot(Marked(charges), Done(t), q)
    {
      assert From(Forget(done, startGen), t) == From(done, t);
      TotEq(Marked(charges), Done(t), charges, Done(t), q);
    }
  }

  lemma {:induction false} InstallKeepsEntry(w: World, startedAt: int)
    requires w.entry.Some? && EntrySound(w, w.entry.value) && LoadSound(w)
    requires w.load.Some? && w.load.value.phase.Complete? && w.load.value.order.startGen + 1 == w.entry.value.gen
    ensures EntrySound(AfterInstall(w, startedAt), AfterInstall(w, startedAt).entry.value)
  {
    var e, load := w.entry.value, w.load.value;
    assert AfterInstall(w, startedAt).charges == Marked(w.charges);
    InstallSound(load.phase.snap, w.readBase, w.store, w.charges, w.solo, load.order.startGen + 1);
    InstallDone(e.done, w.charges, w.dropGen, load.order.startGen);
    InstallLost(e.lost, w.charges, w.month);
    InstallClosed(w.charges, e.gen);
  }

  lemma {:induction false} InstallClosed(charges: map<nat, Rec>, gen: nat)
    requires ClosedAreWritten(charges, gen)
    ensures ClosedAreWritten(Marked(charges), gen)
  {
  }

  lemma {:induction false} InstallLost(lost: map<nat, Charge>, charges: map<nat, Rec>, month: nat)
    requires LostIsFailed(lost, charges, month)
    ensures LostIsFailed(lost, Marked(charges), month)
  {
    forall q
      ensures Tot(Marked(charges), Lost, q) == Tot(charges, Lost, q)
    {
      TotEq(Marked(charges), Lost, charges, Lost, q);
    }
  }

  lemma {:induction false} InstallKeepsRest(w: World, startedAt: int)
    requires Linked(w) && Dated(w) && WithinBudget(w) && w.load.Some? && w.load.value.phase.Complete?
    ensures var w' := AfterInstall(w, startedAt);
            Linked(w') && Dated(w') && WithinBudget(w')
  {
    var w' := AfterInstall(w, startedAt);
    assert OpenCharges(w'.charges) == OpenCharges(w.charges);
    forall q
      ensures Spent(w', q) == Spent(w, q)
    {
      TotEq(w'.charges, Unstored, w.charges, Unstored, q);
    }
  }

  lemma {:induction false} InstallStep(w: World, startedAt: int)
    requires Inv(w) && w.load.Some? && w.load.value.phase.Complete?
    ensures Inv(AfterInstall(w, startedAt))
  {
    InstallKeepsEntry(w, startedAt);
    InstallKeepsRest(w, startedAt);
  }

  // ---- Reservations ----

  /** Returning a reservation keeps the sum exact; with the last one it is reset to zero. */
  lemma {:induction false} ReleaseHeld(e: Entry<nat>, holds: map<nat, Hold>, hold: nat, month: nat)
    requires hold in holds && e.reservations == |holds| && ReservedIsHeld(e.reserved, holds, month)
    requires holds[hold].madeIn <= month
    ensures ReservedIsHeld(Release(e, holds[hold].amount).reserved, holds - {hold}, month)
    ensures Release(e, holds[hold].amount).reservations == |holds - {hold}|
  {
    assert (holds - {hold}).Keys == holds.Keys - {hold};
    HeldRemove(holds, hold, Lifetime);
    HeldRemove(holds, hold, MonthTokens(month));
    if e.reservations == 1 {
      assert |(holds - {hold}).Keys| == 0;
      assert holds - {hold} == map[];
      assert HoldWeights(holds - {hold}, Lifetime) == map[] == HoldWeights(holds - {hold}, MonthTokens(month));
    }
  }

  lemma {:induction false} ReleaseKeepsRest(w: World, hold: nat)
    requires Linked(w) && Dated(w) && LoadSound(w) && WithinBudget(w) && hold in w.holds
    requires |w.holds - {hold}| == |w.holds| - 1
    ensures var w' := AfterRelease(w, hold); Linked(w') && Dated(w') && LoadSound(w') && WithinBudget(w')
  {
    var w' := AfterRelease(w, hold);
    forall q
      ensures Held(w'.holds, q) <= Held(w.holds, q) && Spent(w', q) == Spent(w, q)
    {
      HeldRemove(w.holds, hold, q);
    }
  }

  lemma {:induction false} ReleaseStep(w: World, hold: nat)
    requires Inv(w) && hold in w.holds
    ensures Inv(AfterRelease(w, hold))
  {
    ReleaseHeld(w.entry.value, w.holds, hold, w.month);
    ReleaseKeepsRest(w, hold);
    assert EntrySound(AfterRelease(w, hold), AfterRelease(w, hold).entry.value);
  }

  lemma {:induction false} CoverPays(h: Hold, c: Charge, q: Component)
    requires Covers(h, c) && h.amount.NonNegative()
    ensures Part(c, q) <= HoldWeight(h, q)
  {
  }

  // ---- Charges ----

  lemma {:induction false} NewRecTotals(charges: map<nat, Rec>, i: nat, c: Charge, s: Sel, q: Component)
    requires i !in charges
    ensures Tot(charges[i := NewRec(c)], s, q) == Tot(charges, s, q) + Weight(NewRec(c), s, q)
  {
    TotUpdate(charges, i, NewRec(c), s, q);
  }

  lemma {:induction false} BeginSound(snap: Snapshot, base: Base, store: Store, charges: map<nat, Rec>, i: nat, c: Charge, seen: Sel, solo: bool, dropGen: nat)
    requires Sound(snap, base, store, charges, seen, solo, dropGen) && seen in {Read, Snap} && i !in charges
    ensures Sound(snap, base, store, charges[i := NewRec(c)], seen, solo, dropGen)
  {
    forall q
      ensures Tot(charges[i := NewRec(c)], seen, q) == Tot(charges, seen, q)
      ensures Others(store, charges[i := NewRec(c)], q) == Others(store, charges, q)
    {
      NewRecTotals(charges, i, c, seen, q);
      NewRecTotals(charges, i, c, Stored, q);
    }
    SoundKept(snap, base, store, charges, store, charges[i := NewRec(c)], seen, solo, dropGen);
  }

  lemma {:induction false} BeginKeepsEntry(w: World, i: nat, c: Charge)
    requires w.entry.Some? && EntrySound(w, w.entry.value) && i !in w.charges
    ensures EntrySound(AfterBegin(w, i, c), AfterBegin(w, i, c).entry.value)
  {
    var w', e := AfterBegin(w, i, c), w.entry.value;
    if e.hasSnap {
      BeginSound(e.snap, w.snapBase, w.store, w.charges, i, c, Snap, w.solo, w.dropGen);
    }
    forall t: nat, q
      ensures Tot(w'.charges, Done(t), q) == Tot(w.charges, Done(t), q)
    {
      NewRecTotals(w.charges, i, c, Done(t), q);
    }
    forall q
      ensures Tot(w'.charges, Lost, q) == Tot(w.charges, Lost, q)
    {
      NewRecTotals(w.charges, i, c, Lost, q);
    }
    assert DoneIsStored(e.done, w'.charges, w.dropGen);
    assert LostIsFailed(e.lost, w'.charges, w.month);
  }

  lemma {:induction false} OpenInsert(charges: map<nat, Rec>, i: nat, c: Charge)
    ensures OpenCharges(charges[i := NewRec(c)]) == OpenCharges(charges)[i := c]
  {
  }

  lemma {:induction false} BeginKeepsLoad(w: World, i: nat, c: Charge)
    requires LoadSound(w) && w.entry.Some? && i !in w.charges
    ensures LoadSound(AfterBegin(w, i, c))
  {
    hide Sound;
    if w.load.Some? && ReadSoFar(w.load.value.phase).Some? {
      BeginSound(ReadSoFar(w.load.value.phase).value, w.readBase, w.store, w.charges, i, c, Read, w.solo,
                 w.load.value.order.startGen + 1);
    }
  }

  lemma {:induction false} BeginKeepsLinks(w: World, i: nat, c: Charge)
    requires Linked(w) && Dated(w) && LoadSound(w) && w.entry.Some? && i !in w.charges
    requires c.NonNegative() && 0 < c.month <= w.month
    ensures var w' := AfterBegin(w, i, c); Linked(w') && Dated(w') && LoadSound(w')
  {
    BeginKeepsLoad(w, i, c);
    OpenInsert(w.charges, i, c);
    hide LoadSound, OpenCharges, UsageDated;
  }

  /** A charge is begun when its amount fits beside what is spent and held. */
  lemma {:induction false} BeginStep(w: World, i: nat, c: Charge)
    requires Inv(w) && w.entry.Some? && i !in w.charges && c.NonNegative() && 0 < c.month <= w.month
    requires w.solo ==> forall q :: LimitOf(w.store.limits, q) > 0 ==>
               Spent(w, q) + Held(w.holds, q) + Part(c, q) <= LimitOf(w.store.limits, q)
    ensures Inv(AfterBegin(w, i, c))
  {
    var w' := AfterBegin(w, i, c);
    BeginKeepsEntry(w, i, c);
    BeginKeepsLinks(w, i, c);
    forall q
      ensures Spent(w', q) == Spent(w, q) + Part(c, q)
    {
      NewRecTotals(w.charges, i, c, Unstored, q);
    }
    assert WithinBudget(w');
  }

  lemma {:induction false} ReservedBegin(w: World, hold: nat, i: nat, c: Charge)
    requires Inv(w) && hold in w.holds && i !in w.charges && c.NonNegative() && 0 < c.month <= w.month
    requires w.solo ==> Covers(w.holds[hold], c)
    ensures Inv(AfterBegin(AfterRelease(w, hold), i, c))
  {
    var w1 := AfterRelease(w, hold);
    ReleaseStep(w, hold);
    if w.solo {
      forall q | LimitOf(w.store.limits, q) > 0
        ensures Spent(w1, q) + Held(w1.holds, q) + Part(c, q) <= LimitOf(w.store.limits, q)
      {
        HeldRemove(w.holds, hold, q);
        CoverPays(w.holds[hold], c, q);
        assert Spent(w1, q) == Spent(w, q);
      }
    }
    BeginStep(w1, i, c);
  }

  function Closed(r: Rec, gen: nat): Rec { r.(open := false, doneGen := gen) }

  predicate Ended(charges: map<nat, Rec>, i: nat) {
    i in charges && charges[i].open && !charges[i].log.Unwritten? && !charges[i].spend.Unwritten?
  }

  lemma {:induction false} ClosedTotals(charges: map<nat, Rec>, i: nat, gen: nat, s: Sel, q: Component)
    requires Ended(charges, i) && !s.Here?
    ensures Tot(charges[i := Closed(charges[i], gen)], s, q) == Tot(charges, s, q) +
            match s
            case Open => -Part(charges[i].charge, q)
            case Lost => if charges[i].WriteOf(q).Failed? then Part(charges[i].charge, q) else 0
            case Done(from) => if charges[i].WriteOf(q).Written? && gen >= from then Part(charges[i].charge, q) else 0
            case _ => 0
  {
    TotUpdate(charges, i, Closed(charges[i], gen), s, q);
  }

  /** The stored and the lost part of a finished charge are its written and its failed components. */
  lemma {:induction false} StoredIsWritten(r: Rec, q: Component)
    requires !r.log.Unwritten? && !r.spend.Unwritten?
    ensures Part(StoredPart(r.charge, r.log.Written?, r.spend.Written?), q) == if r.WriteOf(q).Written? then Part(r.charge, q) else 0
    ensures Part(StoredPart(r.charge, !r.log.Written?, !r.spend.Written?), q) == if r.WriteOf(q).Failed? then Part(r.charge, q) else 0
  {
  }

  function WithStored(done: map<DoneKey, Charge>, gen: nat, stored: Charge): map<DoneKey, Charge> {
    if Nothing(stored) then done else AddTo(done, DoneKey(gen, stored.month), stored.month, stored)
  }

  ghost function WithLost(lost: map<nat, Charge>, c: Charge, month: nat): map<nat, Charge> {
    if Nothing(c) then lost else AddLost(lost, c, month)
  }

  lemma {:induction false} WithStoredTotal(done: map<DoneKey, Charge>, gen: nat, stored: Charge, t: nat, q: Component)
    requires forall k :: k in done ==> done[k].month == k.month
    ensures Total(From(WithStored(done, gen, stored), t), q)
         == Total(From(done, t), q) + if t <= gen then Part(stored, q) else 0
  {
    if !Nothing(stored) {
      var k := DoneKey(gen, stored.month);
      var done' := AddTo(done, k, stored.month, stored);
      if t <= gen {
        assert From(done', t) == AddTo(From(done, t), k, stored.month, stored);
        TotalAddTo(From(done, t), k, stored.month, stored, q);
      } else {
        assert From(done', t) == From(done, t);
      }
    }
  }

  lemma {:induction false} FinishDone(done: map<DoneKey, Charge>, charges: map<nat, Rec>, dropGen: nat, i: nat, gen: nat)
    requires DoneIsStored(done, charges, dropGen) && dropGen <= gen && Ended(charges, i)
    ensures DoneIsStored(WithStored(done, gen, StoredPart(charges[i].charge, charges[i].log.Written?, charges[i].spend.Written?)),
                         charges[i := Closed(charges[i], gen)], dropGen)
  {
    var r := charges[i];
    var stored := StoredPart(r.charge, r.log.Written?, r.spend.Written?);
    forall t: nat, q | t >= dropGen
      ensures Total(From(WithStored(done, gen, stored), t), q) == Tot(charges[i := Closed(r, gen)], Done(t), q)
    {
      WithStoredTotal(done, gen, stored, t, q);
      StoredIsWritten(r, q);
      ClosedTotals(charges, i, gen, Done(t), q);
    }
  }

  lemma {:induction false} FinishLost(lost: map<nat, Charge>, charges: map<nat, Rec>, month: nat, i: nat, gen: nat)
    requires LostIsFailed(lost, charges, month) && Ended(charges, i) && 0 < charges[i].charge.month <= month
    ensures LostIsFailed(WithLost(lost, StoredPart(charges[i].charge, !charges[i].log.Written?, !charges[i].spend.Written?), month),
                         charges[i := Closed(charges[i], gen)], month)
  {
    var r := charges[i];
    var c := StoredPart(r.charge, !r.log.Written?, !r.spend.Written?);
    if !Nothing(c) {
      AddLostIsSmall(lost, c, month);
    }
    forall q | Current(q, month)
      ensures Total(WithLost(lost, c, month), q) == Tot(charges[i := Closed(r, gen)], Lost, q)
    {
      if !Nothing(c) {
        AddLostKeeps(lost, c, month, q);
      }
      StoredIsWritten(r, q);
      ClosedTotals(charges, i, gen, Lost, q);
    }
  }

  lemma {:induction false} FinishSound(snap: Snapshot, base: Base, store: Store, charges: map<nat, Rec>, i: nat, gen: nat, seen: Sel, solo: bool, dropGen: nat)
    requires Sound(snap, base, store, charges, seen, solo, dropGen) && seen in {Read, Snap} && Ended(charges, i) && dropGen <= gen
    ensures Sound(snap, base, store, charges[i := Closed(charges[i], gen)], seen, solo, dropGen)
  {
    var charges' := charges[i := Closed(charges[i], gen)];
    forall q
      ensures Tot(charges', seen, q) == Tot(charges, seen, q)
      ensures Others(store, charges', q) == Others(store, charges, q)
    {
      ClosedTotals(charges, i, gen, seen, q);
      ClosedTotals(charges, i, gen, Stored, q);
    }
    forall j, q: Component | j in charges
      ensures Chosen(charges'[j], seen, q) == Chosen(charges[j], seen, q)
      ensures Dropped(charges'[j], q, dropGen) == Dropped(charges[j], q, dropGen)
    {
    }
    SoundKept(snap, base, store, charges, store, charges', seen, solo, dropGen);
  }

  lemma {:induction false} FinishKeepsEntry(w: World, i: nat)
    requires w.entry.Some? && EntrySound(w, w.entry.value) && Ended(w.charges, i)
    requires i in w.entry.value.pending && w.entry.value.pending[i] == w.charges[i].charge
    requires 0 < w.charges[i].charge.month <= w.month
    ensures EntrySound(AfterFinish(w, i), AfterFinish(w, i).entry.value)
  {
    var w', e := AfterFinish(w, i), w.entry.value;
    FinishDone(e.done, w.charges, w.dropGen, i, e.gen);
    FinishLost(e.lost, w.charges, w.month, i, e.gen);
    if e.hasSnap {
      FinishSound(e.snap, w.snapBase, w.store, w.charges, i, e.gen, Snap, w.solo, w.dropGen);
    }
  }

  lemma {:induction false} FinishKeepsLoad(w: World, i: nat)
    requires LoadSound(w) && Ended(w.charges, i) && w.entry.Some? && i in w.entry.value.pending
    requires w.load.Some? ==> w.load.value.order.startGen + 1 == w.entry.value.gen
    ensures LoadSound(AfterFinish(w, i))
  {
    if w.load.Some? && ReadSoFar(w.load.value.phase).Some? {
      FinishSound(ReadSoFar(w.load.value.phase).value, w.readBase, w.store, w.charges, i, w.entry.value.gen, Read, w.solo,
                  w.load.value.order.startGen + 1);
    }
  }

  lemma {:induction false} FinishPending(w: World, i: nat)
    requires Linked(w) && Ended(w.charges, i)
    ensures w.entry.Some? && i in w.entry.value.pending && w.entry.value.pending[i] == w.charges[i].charge
    ensures OpenCharges(w.charges[i := Closed(w.charges[i], w.entry.value.gen)]) == w.entry.value.pending - {i}
  {
  }

  lemma {:induction false} FinishKeepsLinks(w: World, i: nat)
    requires Linked(w) && Dated(w) && Ended(w.charges, i)
    requires w.entry.Some? && i in w.entry.value.pending
    requires OpenCharges(w.charges[i := Closed(w.charges[i], w.entry.value.gen)]) == w.entry.value.pending - {i}
    ensures Linked(AfterFinish(w, i)) && Dated(AfterFinish(w, i))
  {
    var w' := AfterFinish(w, i);
    assert w'.charges == w.charges[i := Closed(w.charges[i], w.entry.value.gen)];
    assert w'.entry.value.pending == w.entry.value.pending - {i};
  }

  lemma {:induction false} FinishKeepsSpent(w: World, i: nat)
    requires WithinBudget(w) && Ended(w.charges, i) && w.entry.Some? && i in w.entry.value.pending
    ensures WithinBudget(AfterFinish(w, i))
  {
    forall q
      ensures Spent(AfterFinish(w, i), q) == Spent(w, q)
    {
      ClosedTotals(w.charges, i, w.entry.value.gen, Unstored, q);
    }
  }

  lemma {:induction false} FinishStep(w: World, i: nat)
    requires Inv(w) && Ended(w.charges, i)
    ensures i in w.entry.value.pending
    ensures Inv(AfterFinish(w, i))
  {
    FinishPending(w, i);
    FinishKeepsLinks(w, i);
    FinishKeepsEntry(w, i);
    FinishKeepsLoad(w, i);
    FinishKeepsSpent(w, i);
  }
}
