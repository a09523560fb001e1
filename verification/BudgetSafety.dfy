module BudgetSafety {
  // What the ledger guarantees over every run: no charge is missed or counted
  // more than twice, and no limit is jointly exceeded.

  import opened MapSums
  import opened Options
  import opened BudgetEntries
  import opened BudgetProtocol
  import opened BudgetSteps

  // ---- What the ledger counts ----

  /** The components for which the installed snapshot is current. */
  predicate Known(w: World, q: Component) {
    w.entry.Some? && w.entry.value.hasSnap && (q.Lifetime? || q.month == w.month == w.entry.value.snap.month)
  }

  lemma {:induction false} HereIs(charges: map<nat, Rec>, from: nat, q: Component)
    requires forall i :: i in charges && !charges[i].open ==> !charges[i].WriteOf(q).Unwritten?
    ensures Tot(charges, Here(from), q) == Tot(charges, Open, q) + Tot(charges, Done(from), q) + Tot(charges, Lost, q)
  {
    SumAdd3(Weights(charges, Open, q), Weights(charges, Done(from), q), Weights(charges, Lost, q), Weights(charges, Here(from), q));
  }

  /**
   The committed usage is what others had written when the snapshot was read,
   plus every charge the snapshot contains, plus every charge kept here.
   */
  lemma {:induction false} CommittedIs(w: World, q: Component)
    requires Inv(w) && Known(w, q)
    ensures Committed(w.entry.value, q)
         == BaseVal(w.snapBase, q) + Tot(w.charges, Snap, q) + Tot(w.charges, Here(w.dropGen), q)
  {
    var e := w.entry.value;
    assert Covered(e.snap.month, q);
    assert PartIsSeen(e.snap, w.snapBase, w.store, w.charges, Snap, w.solo, q);
    PendingIsOpen(w.charges, q);
    assert From(e.done, w.dropGen) == e.done;
    assert Current(q, w.month);
    HereIs(w.charges, w.dropGen, q);
  }

  /**
   No tracked charge is ever missed, and none is counted more than twice: a
   charge is in the snapshot, or kept here, or both.
   */
  lemma {:induction false} CountedOnceOrTwice(w: World, q: Component)
    requires Inv(w) && Known(w, q)
    ensures BaseVal(w.snapBase, q) + Tot(w.charges, Every, q) <= Committed(w.entry.value, q)
    ensures Committed(w.entry.value, q) <= BaseVal(w.snapBase, q) + 2 * Tot(w.charges, Every, q)
  {
    CommittedIs(w, q);
    forall i | i in w.charges
      ensures OnceOrTwice(w.charges[i], w.dropGen, q)
    {
      SeenOrHere(w, i, q);
    }
    TotOnceOrTwice(w.charges, w.dropGen, q);
  }

  predicate OnceOrTwice(r: Rec, dropGen: nat, q: Component) {
    Weight(r, Every, q) <= Weight(r, Snap, q) + Weight(r, Here(dropGen), q) <= 2 * Weight(r, Every, q)
  }

  lemma {:induction false} TotOnceOrTwice(charges: map<nat, Rec>, dropGen: nat, q: Component)
    requires forall i :: i in charges ==> OnceOrTwice(charges[i], dropGen, q)
    ensures Tot(charges, Every, q) <= Tot(charges, Snap, q) + Tot(charges, Here(dropGen), q) <= 2 * Tot(charges, Every, q)
  {
    var every, snap, here := Weights(charges, Every, q), Weights(charges, Snap, q), Weights(charges, Here(dropGen), q);
    var counted := map i | i in charges :: snap[i] + here[i];
    SumAdd(snap, here, counted);
    var twice := map i | i in charges :: every[i] + every[i];
    SumAdd(every, every, twice);
    assert forall i :: i in charges ==> OnceOrTwice(charges[i], dropGen, q);
    SumLe(every, counted);
    SumLe(counted, twice);
  }

  lemma {:induction false} SeenOrHere(w: World, i: nat, q: Component)
    requires Inv(w) && Known(w, q) && i in w.charges
    ensures OnceOrTwice(w.charges[i], w.dropGen, q)
  {
    var r, e := w.charges[i], w.entry.value;
    assert Covered(e.snap.month, q);
    if Part(r.charge, q) != 0 && !Chosen(r, Here(w.dropGen), q) {
      assert Dropped(r, q, w.dropGen);
    }
  }

  /** With one writer and a start within budget, admission never sees less than was spent. */
  lemma {:induction false} SpentIsCounted(w: World, q: Component)
    requires Inv(w) && Known(w, q) && w.solo
    ensures Spent(w, q) <= Committed(w.entry.value, q)
  {
    CountedOnceOrTwice(w, q);
    var e := w.entry.value;
    assert Covered(e.snap.month, q);
    assert PartIsSeen(e.snap, w.snapBase, w.store, w.charges, Snap, w.solo, q);
    StoredOrNot(w.charges, q);
  }

  // ---- Over-counting ends with a load that started late enough ----

  /** The charge finished before the running load started. */
  predicate FinishedBefore(r: Rec, startGen: nat) { !r.open && r.doneGen <= startGen }

  /**
   When such a load completes with nothing pending, the committed usage is the
   snapshot plus the lost charges; with one writer it is exactly what was spent.
   */
  lemma {:induction false} QuietLoadIsExact(w: World, startedAt: int, q: Component)
    requires Inv(w) && w.load.Some? && w.load.value.phase.Complete?
    requires forall i :: i in w.charges ==> FinishedBefore(w.charges[i], w.load.value.order.startGen)
    requires q.Lifetime? || q.month == w.month == w.load.value.phase.snap.month
    ensures var w' := AfterInstall(w, startedAt);
            var e := w'.entry.value;
            && Committed(e, q) == SnapshotPart(e.snap, q) + Total(e.lost, q)
            && (w.solo ==> Committed(e, q) == Spent(w', q))
  {
    var w' := AfterInstall(w, startedAt);
    InstallStep(w, startedAt);
    QuietIsExact(w', q);
  }

  lemma {:induction false} QuietIsExact(w: World, q: Component)
    requires Inv(w) && Known(w, q)
    requires forall i :: i in w.charges ==> !w.charges[i].open && w.charges[i].doneGen < w.dropGen
    ensures Committed(w.entry.value, q) == SnapshotPart(w.entry.value.snap, q) + Total(w.entry.value.lost, q)
    ensures w.solo ==> Committed(w.entry.value, q) == Spent(w, q)
  {
    var e := w.entry.value;
    PendingIsOpen(w.charges, q);
    assert From(e.done, w.dropGen) == e.done;
    TotZero(w.charges, Open, q);
    TotZero(w.charges, Done(w.dropGen), q);
    assert Current(q, w.month) && Covered(e.snap.month, q);
    assert PartIsSeen(e.snap, w.snapBase, w.store, w.charges, Snap, w.solo, q);
    forall i | i in w.charges
      ensures Weight(w.charges[i], Snap, q) == Weight(w.charges[i], Stored, q)
      ensures Weight(w.charges[i], Unstored, q) == Weight(w.charges[i], Lost, q)
    {
      StoredIsSeen(w, i, q);
    }
    TotEq(w.charges, Snap, w.charges, Stored, q);
    TotEq(w.charges, Unstored, w.charges, Lost, q);
  }

  lemma {:induction false} StoredIsSeen(w: World, i: nat, q: Component)
    requires Inv(w) && Known(w, q) && i in w.charges
    requires !w.charges[i].open && w.charges[i].doneGen < w.dropGen
    ensures Weight(w.charges[i], Snap, q) == Weight(w.charges[i], Stored, q)
    ensures Weight(w.charges[i], Unstored, q) == Weight(w.charges[i], Lost, q)
  {
    var r := w.charges[i];
    assert Covered(w.entry.value.snap.month, q);
    assert Chosen(r, Snap, q) ==> Chosen(r, Stored, q);
    if Part(r.charge, q) != 0 && Chosen(r, Stored, q) {
      assert Dropped(r, q, w.dropGen);
    }
  }

  // ---- Admission ----

  lemma {:induction false} NewEntryStep(w: World)
    requires Inv(w) && w.entry.None?
    ensures Inv(w.(entry := Some(NewEntry())))
  {
    var w' := w.(entry := Some(NewEntry()));
    forall q
      ensures HoldWeights(w.holds, q) == map[]
    {
    }
    forall t: nat, s: Sel, q
      ensures Total(From(map[], t), q) == Tot(map[], s, q) == 0
    {
      assert Parts(From(map[], t), q) == map[];
      assert Weights(map[], s, q) == map[];
    }
    forall q
      ensures Total<nat>(map[], q) == 0
    {
      assert Parts<nat>(map[], q) == map[];
    }
    assert OpenCharges(map[]) == map[];
    assert DoneIsStored(map[], map[], 0);
    assert EntrySound(w', NewEntry());
  }

  lemma {:induction false} StartLoadStep(w: World, order: LoadOrder)
    requires Inv(w) && w.entry.Some? && !w.entry.value.loading
    requires order.startGen == w.entry.value.gen && order.month == w.month
    ensures Inv(w.(entry := Some(StartLoad(w.entry.value)), load := Some(Fetch(order, Started))))
  {
    var w' := w.(entry := Some(StartLoad(w.entry.value)), load := Some(Fetch(order, Started)));
    assert EntrySound(w', w'.entry.value);
  }

  /** The estimate fits under one limit, beside everything committed and reserved. */
  ghost predicate Fits(e: Entry<nat>, estimate: Amount, q: Component, limit: int) {
    AmountPart(estimate, q) > 0 ==> Committed(e, q) + AmountPart(e.reserved, q) + AmountPart(estimate, q) <= limit
  }

  ghost predicate FitsAll(w: World, e: Entry<nat>, estimate: Amount) {
    forall q :: Current(q, w.month) && LimitOf(w.store.limits, q) > 0 ==>
      Known(w, q) && Fits(e, estimate, q, LimitOf(w.store.limits, q))
  }

  /** A limit that is not exceeded now is not exceeded after the reservation. */
  lemma {:induction false} ReserveFits(w: World, estimate: Amount, q: Component)
    requires Inv(w) && w.solo && w.entry.Some? && estimate.NonNegative() && LimitOf(w.store.limits, q) > 0
    requires FitsAll(w, w.entry.value, estimate)
    ensures Spent(w, q) + Held(w.holds, q) + HoldWeight(Hold(estimate, w.month), q) <= LimitOf(w.store.limits, q)
    decreases !Current(q, w.month)
  {
    var e := w.entry.value;
    if Current(q, w.month) {
      assert Fits(e, estimate, q, LimitOf(w.store.limits, q));
      SpentIsCounted(w, q);
      HeldSame(w.holds, q, if q.MonthTokens? then q else Lifetime);
    } else if w.month < q.month {
      FutureIsEmpty(w, q);
      var now := if q.MonthCost? then MonthCost(w.month) else MonthTokens(w.month);
      PresentIsNonNegative(w, now);
      HeldSame(w.holds, q, now);
      assert Current(now, w.month);
      ReserveFits(w, estimate, now);
    }
  }

  lemma {:induction false} FutureIsEmpty(w: World, q: Component)
    requires Inv(w) && w.solo && !q.Lifetime? && w.month < q.month
    ensures Spent(w, q) == 0
  {
    TotZero(w.charges, Unstored, q);
  }

  lemma {:induction false} PresentIsNonNegative(w: World, q: Component)
    requires Inv(w) && !q.Lifetime?
    ensures 0 <= Spent(w, q)
  {
    TotNonNegative(w.charges, Unstored, q);
  }

  lemma {:induction false} ReserveHeld(reserved: Amount, holds: map<nat, Hold>, hold: nat, estimate: Amount, month: nat)
    requires ReservedIsHeld(reserved, holds, month) && hold !in holds
    ensures ReservedIsHeld(Amount(reserved.cost + estimate.cost, reserved.tokens + estimate.tokens), holds[hold := Hold(estimate, month)], month)
  {
    HeldInsert(holds, hold, Hold(estimate, month), Lifetime);
    HeldInsert(holds, hold, Hold(estimate, month), MonthTokens(month));
  }

  function AfterReserve(w: World, hold: nat, estimate: Amount): World
    requires w.entry.Some?
  {
    w.(entry := Some(Reserve(w.entry.value, estimate)), holds := w.holds[hold := Hold(estimate, w.month)])
  }

  lemma {:induction false} ReserveWithinBudget(w: World, hold: nat, estimate: Amount)
    requires Inv(w) && w.entry.Some? && hold !in w.holds && estimate.NonNegative()
    requires w.solo ==> FitsAll(w, w.entry.value, estimate)
    ensures WithinBudget(AfterReserve(w, hold, estimate))
  {
    var w' := AfterReserve(w, hold, estimate);
    if w.solo {
      forall q | LimitOf(w.store.limits, q) > 0
        ensures Spent(w', q) + Held(w'.holds, q) <= LimitOf(w.store.limits, q)
      {
        HeldInsert(w.holds, hold, Hold(estimate, w.month), q);
        ReserveFits(w, estimate, q);
        assert Spent(w', q) == Spent(w, q);
      }
    }
  }

  lemma {:induction false} ReserveKeepsEntry(w: World, hold: nat, estimate: Amount)
    requires w.entry.Some? && EntrySound(w, w.entry.value) && hold !in w.holds
    ensures EntrySound(AfterReserve(w, hold, estimate), AfterReserve(w, hold, estimate).entry.value)
  {
    var e := w.entry.value;
    ReserveHeld(e.reserved, w.holds, hold, estimate, w.month);
  }

  lemma {:induction false} ReserveKeepsLinks(w: World, hold: nat, estimate: Amount)
    requires Linked(w) && Dated(w) && LoadSound(w) && w.entry.Some? && hold !in w.holds && estimate.NonNegative()
    ensures var w' := AfterReserve(w, hold, estimate); Linked(w') && Dated(w') && LoadSound(w')
  {
    assert |w.holds[hold := Hold(estimate, w.month)]| == |w.holds| + 1;
  }

  lemma {:induction false} ReserveStep(w: World, hold: nat, estimate: Amount)
    requires Inv(w) && w.entry.Some? && hold !in w.holds && estimate.NonNegative()
    requires w.solo ==> FitsAll(w, w.entry.value, estimate)
    ensures Inv(AfterReserve(w, hold, estimate))
  {
    ReserveKeepsEntry(w, hold, estimate);
    ReserveKeepsLinks(w, hold, estimate);
    ReserveWithinBudget(w, hold, estimate);
  }

  lemma {:induction false} LimitsStep(w: World, limits: Limits)
    requires Inv(w) && w.entry.Some?
    ensures Inv(w.(entry := Some(w.entry.value.(limits := limits))))
  {
    var w' := w.(entry := Some(w.entry.value.(limits := limits)));
    assert EntrySound(w', w'.entry.value);
  }

  lemma {:induction false} NoDenial(limits: Limits, lifetime: int, monthly: Amount, reserved: Amount, estimate: Amount)
    requires Denial(limits, lifetime, monthly, reserved, estimate).None?
    ensures limits.lifetimeCost > 0 && estimate.cost > 0 ==> lifetime + reserved.cost + estimate.cost <= limits.lifetimeCost
    ensures limits.monthlyCost > 0 && estimate.cost > 0 ==> monthly.cost + reserved.cost + estimate.cost <= limits.monthlyCost
    ensures limits.monthlyTokens > 0 && estimate.tokens > 0 ==> monthly.tokens + reserved.tokens + estimate.tokens <= limits.monthlyTokens
  {
  }

  /** The world after the background refresh (if any) was started and the limits were noted. */
  ghost function AfterPrepare(w: World, refresh: bool, limits: Limits, order: LoadOrder): World
    requires w.entry.Some?
  {
    w.(entry := Some(Prepared(w.entry.value, refresh, limits)),
    load := if refresh then Some(Fetch(order, Started)) else w.load)
  }

  lemma {:induction false} PrepareStep(w: World, refresh: bool, limits: Limits, order: LoadOrder)
    requires Inv(w) && w.entry.Some? && (refresh ==> !w.entry.value.loading)
    requires order.startGen == w.entry.value.gen && order.month == w.month
    ensures Inv(AfterPrepare(w, refresh, limits, order))
  {
    if refresh {
      StartLoadStep(w, order);
      LimitsStep(w.(entry := Some(StartLoad(w.entry.value)), load := Some(Fetch(order, Started))), limits);
    } else {
      LimitsStep(w, limits);
    }
  }

  /** An allowing verdict means the estimate fits under every limit. */
  lemma {:induction false} AllowedFits(w: World, hint: Option<Limits>, estimate: Amount, order: LoadOrder)
    requires w.entry.Some? && Usable(w.entry.value, hint, w.now, w.month, w.timing)
    requires LimitsFor(w.entry.value, hint) == w.store.limits && w.store.limits.Any()
    requires var e1 := Prepared(w.entry.value, RefreshDue(w.entry.value, w.now, w.timing), w.store.limits);
             Denial(w.store.limits, Committed(e1, Lifetime), CommittedMonth(e1, w.month), e1.reserved, estimate).None?
    ensures var w1 := AfterPrepare(w, RefreshDue(w.entry.value, w.now, w.timing), w.store.limits, order);
            FitsAll(w1, w1.entry.value, estimate)
  {
    var e1 := Prepared(w.entry.value, RefreshDue(w.entry.value, w.now, w.timing), w.store.limits);
    NoDenial(w.store.limits, Committed(e1, Lifetime), CommittedMonth(e1, w.month), e1.reserved, estimate);
  }

  lemma {:induction false} LimitsAreFixed(w: World, hint: Option<Limits>)
    requires Inv(w) && w.solo && w.entry.Some? && w.entry.value.hasSnap
    requires hint.Some? ==> hint.value == w.store.limits
    ensures LimitsFor(w.entry.value, hint) == w.store.limits
  {
  }

  lemma {:induction false} UsablePassStep(w: World, hint: Option<Limits>, estimate: Amount, attempt: Attempt, hold: nat)
    requires Inv(w) && w.entry.Some? && hold !in w.holds && estimate.NonNegative()
    requires w.solo && hint.Some? ==> hint.value == w.store.limits
    requires Usable(w.entry.value, hint, w.now, w.month, w.timing)
    ensures Inv(AfterPass(w, AdmitPass(w.entry.value, hint, estimate, w.now, w.month, w.timing, attempt), hold, estimate))
  {
    var e := w.entry.value;
    var pass := AdmitPass(e, hint, estimate, w.now, w.month, w.timing, attempt);
    var limits, refresh := LimitsFor(e, hint), RefreshDue(e, w.now, w.timing);
    var order := LoadOrder(e.gen, w.month, limits.Monthly());
    PrepareStep(w, refresh, limits, order);
    var w1 := AfterPrepare(w, refresh, limits, order);
    UsablePass(w, hint, estimate, attempt, hold);
    if pass.verdict.Reserved? {
      if w.solo {
        LimitsAreFixed(w, hint);
        AllowedFits(w, hint, estimate, order);
      }
      ReserveStep(w1, hold, estimate);
    }
  }

  /** A pass over a usable entry notes the limits, then reserves if the verdict says so. */
  lemma {:induction false} UsablePass(w: World, hint: Option<Limits>, estimate: Amount, attempt: Attempt, hold: nat)
    requires w.entry.Some? && Usable(w.entry.value, hint, w.now, w.month, w.timing)
    ensures var e := w.entry.value;
            var pass := AdmitPass(e, hint, estimate, w.now, w.month, w.timing, attempt);
            var limits, refresh := LimitsFor(e, hint), RefreshDue(e, w.now, w.timing);
            var w1 := AfterPrepare(w, refresh, limits, LoadOrder(e.gen, w.month, limits.Monthly()));
            AfterPass(w, pass, hold, estimate) == if pass.verdict.Reserved? then AfterReserve(w1, hold, estimate) else w1
  {
  }

  lemma {:induction false} PassStep(w: World, hint: Option<Limits>, estimate: Amount, attempt: Attempt, hold: nat)
    requires Inv(w) && w.entry.Some? && hold !in w.holds && estimate.NonNegative()
    requires w.solo && hint.Some? ==> hint.value == w.store.limits
    ensures Inv(AfterPass(w, AdmitPass(w.entry.value, hint, estimate, w.now, w.month, w.timing, attempt), hold, estimate))
  {
    if Usable(w.entry.value, hint, w.now, w.month, w.timing) {
      UsablePassStep(w, hint, estimate, attempt, hold);
    } else {
      var pass := AdmitPass(w.entry.value, hint, estimate, w.now, w.month, w.timing, attempt);
      if pass.verdict.Load? {
        StartLoadStep(w, pass.load.value);
        assert AfterPass(w, pass, hold, estimate)
            == w.(entry := Some(StartLoad(w.entry.value)), load := Some(Fetch(pass.load.value, Started)));
      } else {
        assert AfterPass(w, pass, hold, estimate) == w;
      }
    }
  }

  lemma {:induction false} AdmitStep(w: World, s: Step)
    requires Inv(w) && s.Admit? && Enabled(w, s)
    ensures Inv(AfterPass(w, AdmitNow(w, s), s.hold, s.estimate))
  {
    if w.entry.None? {
      NewEntryStep(w);
    }
    var w0 := w.(entry := Some(EntryFor(w)));
    assert w.entry.Some? ==> w0 == w;
    PassStep(w0, s.hint, s.estimate, s.attempt, s.hold);
    assert AfterPass(w, AdmitNow(w, s), s.hold, s.estimate) == AfterPass(w0, AdmitNow(w, s), s.hold, s.estimate);
  }

  // ---- Denials ----

  /** Every charge has finished and its buckets were dropped. */
  ghost predicate Quiet(w: World) {
    forall i :: i in w.charges ==> !w.charges[i].open && w.charges[i].doneGen < w.dropGen
  }

  lemma {:induction false} HeldIsReserved(w: World, q: Component)
    requires Inv(w) && w.entry.Some? && Current(q, w.month)
    ensures AmountPart(w.entry.value.reserved, q) == Held(w.holds, q)
  {
    HeldSame(w.holds, q, if q.MonthTokens? then q else Lifetime);
  }

  /**
   Denials are exact. With one writer and no charge in flight or freshly
   finished, a request whose scope is known well enough is denied exactly when
   what was truly spent has used up a limit that counts now, or leaves no room for
   it beside the reservations of running requests; the reason names such a limit.
   */
  lemma {:induction false} DenialIsDeserved(w: World, hint: Option<Limits>, estimate: Amount, attempt: Attempt)
    requires Inv(w) && w.solo && w.entry.Some? && Quiet(w) && (hint.Some? ==> hint.value == w.store.limits)
    ensures var v := AdmitPass(w.entry.value, hint, estimate, w.now, w.month, w.timing, attempt).verdict;
            && (v.Denied? <==> && StateKnown(w.entry.value, w.store.limits, w.now, w.month, w.timing)
                               && exists q :: Current(q, w.month) && TrulyFull(w, estimate, q))
            && (v.Denied? ==> TrulyFull(w, estimate, ComponentOf(v.reason, w.month)))
  {
    PassDecides(w.entry.value, hint, estimate, w.now, w.month, w.timing, attempt);
    hide AdmitPass, Inv, Quiet, Full, TrulyFull;
    if w.entry.value.hasSnap {
      LimitsAreFixed(w, hint);
    }
    if StateKnown(w.entry.value, w.store.limits, w.now, w.month, w.timing) {
      forall q | Current(q, w.month) ensures Full(w.store.limits, w.entry.value, estimate, q) <==> TrulyFull(w, estimate, q) {
        FullIsTrue(w, estimate, q);
      }
      var v := AdmitPass(w.entry.value, hint, estimate, w.now, w.month, w.timing, attempt).verdict;
      if v.Denied? {
        assert Current(ComponentOf(v.reason, w.month), w.month);
      }
    }
  }

  /** What was spent and is held leaves no room under this limit. */
  ghost predicate TrulyFull(w: World, estimate: Amount, q: Component) {
    NoRoom(LimitOf(w.store.limits, q), Spent(w, q), Held(w.holds, q), AmountPart(estimate, q))
  }

  lemma {:induction false} FullIsTrue(w: World, estimate: Amount, q: Component)
    requires Inv(w) && w.solo && w.entry.Some? && Quiet(w) && Current(q, w.month)
    requires StateKnown(w.entry.value, w.store.limits, w.now, w.month, w.timing)
    ensures Full(w.store.limits, w.entry.value, estimate, q) <==> TrulyFull(w, estimate, q)
  {
    if LimitOf(w.store.limits, q) > 0 {
      QuietIsExact(w, q);
      HeldIsReserved(w, q);
    }
  }

  // ---- Runs ----

  lemma {:induction false} StepKeepsInv(w: World, s: Step)
    requires Inv(w) && Enabled(w, s)
    ensures Inv(Apply(w, s))
  {
    match s
    case Tick(now, month) => TickStep(w, now, month);
    case Admit(_, _, _, _) => AdmitStep(w, s);
    case ReadKey => ReadKeyStep(w);
    case ReadUsage => ReadUsageStep(w);
    case InstallLoad(startedAt) => InstallStep(w, startedAt);
    case AbandonLoad => AbandonStep(w);
    case BeginCharge(ticket, from, charge) =>
      if from.Some? {
        ReservedBegin(w, from.value, ticket, charge);
      } else {
        FreeBegin(w, ticket, charge);
      }
    case ReleaseHold(hold) => ReleaseStep(w, hold);
    case WriteLog(ticket, ok) => WriteLogStep(w, ticket, ok);
    case WriteSpend(ticket, ok) => WriteSpendStep(w, ticket, ok);
    case FinishCharge(ticket) => FinishStep(w, ticket);
    case Foreign(charge) => ForeignStep(w, charge);
    case SetLimits(limits) => NewLimitsStep(w, limits);
    case Evict => EvictStep(w);
  }

  lemma {:induction false} FreeBegin(w: World, i: nat, c: Charge)
    requires Inv(w) && w.entry.Some? && i !in w.charges && c.NonNegative() && 0 < c.month <= w.month
    requires w.solo ==> Nothing(c)
    ensures Inv(AfterBegin(w, i, c))
  {
    assert w.solo ==> forall q :: Part(c, q) == 0;
    BeginStep(w, i, c);
  }

  lemma {:induction false} NewLimitsStep(w: World, limits: Limits)
    requires Inv(w) && !w.solo
    ensures Inv(w.(store := w.store.(limits := limits)))
  {
    StoreGrows(w, w.store.(limits := limits));
  }

  /**
   A run: every step is enabled where it is taken. That reservations, charges
   and loads belong to a registered entry is part of the invariant, so from an
   initial world it rules no run out.
   */
  ghost predicate ValidRun(w: World, run: seq<Step>)
    decreases |run|
  {
    run == [] || (Linked(w) && Enabled(w, run[0]) && ValidRun(Apply(w, run[0]), run[1..]))
  }

  ghost function After(w: World, run: seq<Step>): World
    requires ValidRun(w, run)
    decreases |run|
  {
    if run == [] then w else After(Apply(w, run[0]), run[1..])
  }

  /** The ledger before the scope's first request. */
  ghost predicate Initial(w: World) {
    && w.entry.None? && w.load.None? && w.holds == map[] && w.charges == map[] && w.dropGen == 0
    && w.month > 0 && UsageDated(w.store, w.month, w.solo)
    && (w.solo ==> forall q :: LimitOf(w.store.limits, q) > 0 ==> StoreVal(w.store, q) <= LimitOf(w.store.limits, q))
  }

  lemma {:induction false} InitialInv(w: World)
    requires Initial(w)
    ensures Inv(w)
  {
    forall q
      ensures Spent(w, q) == StoreVal(w.store, q) && Held(w.holds, q) == 0
    {
      TotZero(w.charges, Unstored, q);
      assert HoldWeights(w.holds, q) == map[];
    }
  }

  lemma {:induction false} RunKeepsInv(w: World, run: seq<Step>)
    requires Inv(w) && ValidRun(w, run)
    ensures Inv(After(w, run))
    decreases |run|
  {
    if run != [] {
      StepKeepsInv(w, run[0]);
      RunKeepsInv(Apply(w, run[0]), run[1..]);
    }
  }

  lemma {:induction false} ApplyKeepsTerms(w: World, s: Step)
    requires Linked(w) && Enabled(w, s)
    ensures Apply(w, s).solo == w.solo && (w.solo ==> Apply(w, s).store.limits == w.store.limits)
  {
    match s case _ =>
  }

  lemma {:induction false} RunKeepsTerms(w: World, run: seq<Step>)
    requires ValidRun(w, run)
    ensures After(w, run).solo == w.solo && (w.solo ==> After(w, run).store.limits == w.store.limits)
    decreases |run|
  {
    if run != [] {
      ApplyKeepsTerms(w, run[0]);
      RunKeepsTerms(Apply(w, run[0]), run[1..]);
    }
  }

  /**
   No joint overspend. One process writes, limits are fixed, spend starts within
   budget and every non-zero charge settles a reservation at least as large:
   then after every run, under every limit (of the lifetime and of every month),
   what is stored, pending and lost plus all that is reserved stays within it.
   */
  lemma {:induction false} NoJointOverspend(w: World, run: seq<Step>, q: Component)
    requires Initial(w) && w.solo && ValidRun(w, run)
    requires LimitOf(w.store.limits, q) > 0
    ensures var w' := After(w, run);
            Spent(w', q) + Held(w'.holds, q) <= LimitOf(w.store.limits, q)
  {
    InitialInv(w);
    RunKeepsInv(w, run);
    RunKeepsTerms(w, run);
  }

  /**
   Whatever other processes write meanwhile, after every run the committed
   usage counts every charge begun since the entry was created at least once
   and at most twice, on top of what others had stored at the snapshot's read.
   */
  lemma {:induction false} NoChargeMissed(w: World, run: seq<Step>, q: Component)
    requires Initial(w) && ValidRun(w, run) && Known(After(w, run), q)
    ensures var w' := After(w, run);
            var others := BaseVal(w'.snapBase, q);
            && others + Tot(w'.charges, Every, q) <= Committed(w'.entry.value, q) <= others + 2 * Tot(w'.charges, Every, q)
            && others <= Others(w'.store, w'.charges, q)
  {
    InitialInv(w);
    RunKeepsInv(w, run);
    var w' := After(w, run);
    CountedOnceOrTwice(w', q);
    assert Covered(w'.entry.value.snap.month, q);
    assert PartIsSeen(w'.entry.value.snap, w'.snapBase, w'.store, w'.charges, Snap, w'.solo, q);
  }

  lemma {:induction false} RunAppend(w: World, r1: seq<Step>, r2: seq<Step>)
    requires ValidRun(w, r1 + r2)
    ensures ValidRun(w, r1) && ValidRun(After(w, r1), r2) && After(w, r1 + r2) == After(After(w, r1), r2)
    decreases |r1|
  {
    if r1 == [] {
      assert r1 + r2 == r2;
    } else {
      assert (r1 + r2)[1..] == r1[1..] + r2;
      RunAppend(Apply(w, r1[0]), r1[1..], r2);
    }
  }

  // ---- Over-counting ends: what a later load does in a run ----

  ghost predicate StartsLoad(w: World, s: Step) {
    s.Admit? && AdmitNow(w, s).load.Some?
  }

  /** The step at `k` starts a load. */
  ghost predicate StartsAt(w: World, run: seq<Step>, k: nat)
    requires ValidRun(w, run) && k < |run|
    decreases k
  {
    if k == 0 then StartsLoad(w, run[0]) else StartsAt(Apply(w, run[0]), run[1..], k - 1)
  }

  /** The charge finished, in this generation. */
  predicate FinishedIn(w: World, i: nat, gen: nat) {
    i in w.charges && !w.charges[i].open && w.charges[i].doneGen == gen
  }

  /** A pass that starts a load begins a new generation. */
  lemma {:induction false} PassGenerations(e: Entry<nat>, hint: Option<Limits>, estimate: Amount, now: int, month: nat,
                                           timing: Timing, attempt: Attempt)
    ensures var pass := AdmitPass(e, hint, estimate, now, month, timing, attempt);
            pass.entry.gen == if pass.load.Some? then e.gen + 1 else e.gen
  {
    hide Denial, Usable, RefreshDue, BackingOff, Committed, CommittedMonth;
  }

  /** Generations only grow, a start begins a new one, and an installed load drops all before its own. */
  lemma {:induction false} StepGenerations(w: World, s: Step)
    requires Linked(w) && Enabled(w, s) && !s.Evict? && w.entry.Some?
    ensures var w' := Apply(w, s);
            && w'.entry.Some? && w'.entry.value.gen >= w.entry.value.gen
            && (StartsLoad(w, s) ==> w'.entry.value.gen == w.entry.value.gen + 1)
            && w'.dropGen == (if s.InstallLoad? then w.entry.value.gen else w.dropGen)
  {
    hide AdmitPass, StoredPart, AddLost, AddTo, Forget;
    if s.Admit? {
      PassGenerations(EntryFor(w), s.hint, s.estimate, w.now, w.month, w.timing, s.attempt);
    }
    match s case _ =>
  }

  lemma {:induction false} StepKeepsFinished(w: World, s: Step, i: nat, gen: nat)
    requires Linked(w) && Enabled(w, s) && !s.Evict? && FinishedIn(w, i, gen)
    ensures FinishedIn(Apply(w, s), i, gen)
  {
    hide AdmitPass;
    match s case _ =>
  }

  /** From generation `from` on: `seen` says that a load was started since, `dropped` that one of those was installed. */
  ghost predicate Outlived(w: World, from: nat, seen: bool, dropped: bool) {
    w.entry.Some? && w.entry.value.gen >= from && (seen ==> w.entry.value.gen > from) && (dropped ==> w.dropGen > from)
  }

  /** A run in which the step at `start` starts a load and the one at `install` installs one; negative positions are past. */
  ghost predicate Reloads(w: World, run: seq<Step>, start: int, install: int)
    requires ValidRun(w, run)
  {
    && start < install < |run|
    && (0 <= start ==> StartsAt(w, run, start)) && (0 <= install ==> run[install].InstallLoad?)
    && forall k :: 0 <= k < |run| ==> !run[k].Evict?
  }

  lemma {:induction false} ReloadsNext(w: World, run: seq<Step>, start: int, install: int)
    requires ValidRun(w, run) && run != [] && Reloads(w, run, start, install)
    ensures Reloads(Apply(w, run[0]), run[1..], start - 1, install - 1)
  {
  }

  lemma {:induction false} RunOutlives(w: World, run: seq<Step>, start: int, install: int, i: nat, gen: nat)
    requires Inv(w) && ValidRun(w, run) && Reloads(w, run, start, install)
    requires FinishedIn(w, i, gen) && Outlived(w, gen, start < 0, install < 0)
    ensures FinishedIn(After(w, run), i, gen) && Outlived(After(w, run), gen, true, true) && Inv(After(w, run))
    decreases |run|
  {
    if run != [] {
      ReloadsNext(w, run, start, install);
      hide Inv;
      StepKeepsInv(w, run[0]);
      StepGenerations(w, run[0]);
      StepKeepsFinished(w, run[0], i, gen);
      RunOutlives(Apply(w, run[0]), run[1..], start - 1, install - 1, i, gen);
    }
  }

  /**
   Over-counting ends. Once a charge has finished, the next load that is started
   and installed takes it out of the done buckets, for the rest of the entry's
   life: from then on it is counted by the snapshot alone.
   */
  lemma {:induction false} LoadDropsFinished(w: World, before: seq<Step>, run: seq<Step>, start: nat, install: nat, i: nat, q: Component)
    requires Initial(w) && ValidRun(w, before + run)
    requires ValidRun(w, before) && ValidRun(After(w, before), run) && Reloads(After(w, before), run, start, install)
    requires i in After(w, before).charges && !After(w, before).charges[i].open
    ensures var w' := After(w, before + run);
            && i in w'.charges && !Chosen(w'.charges[i], Done(w'.dropGen), q)
            && w'.entry.Some? && (forall k :: k in w'.entry.value.done ==> k.gen > w'.charges[i].doneGen)
  {
    InitialInv(w);
    RunAppend(w, before, run);
    RunKeepsInv(w, before);
    var w1 := After(w, before);
    RunOutlives(w1, run, start, install, i, w1.charges[i].doneGen);
  }

  lemma {:induction false} StepKeepsCharges(w: World, s: Step)
    requires Linked(w) && Enabled(w, s) && !s.BeginCharge? && !s.Evict?
    ensures Apply(w, s).charges.Keys == w.charges.Keys
  {
    hide AdmitPass;
    match s case _ =>
  }

  lemma {:induction false} RunKeepsCharges(w: World, run: seq<Step>)
    requires ValidRun(w, run) && forall k :: 0 <= k < |run| ==> !run[k].BeginCharge? && !run[k].Evict?
    ensures After(w, run).charges.Keys == w.charges.Keys
    decreases |run|
  {
    if run != [] {
      StepKeepsCharges(w, run[0]);
      RunKeepsCharges(Apply(w, run[0]), run[1..]);
    }
  }

  /**
   Then, if every charge has finished and none begins, the committed usage is the
   snapshot plus the lost charges; with one writer it is exactly what was spent.
   */
  lemma {:induction false} LoadEndsOvercount(w: World, before: seq<Step>, run: seq<Step>, start: nat, install: nat, q: Component)
    requires Initial(w) && ValidRun(w, before + run)
    requires ValidRun(w, before) && ValidRun(After(w, before), run) && Reloads(After(w, before), run, start, install)
    requires forall i :: i in After(w, before).charges ==> !After(w, before).charges[i].open
    requires (forall k :: 0 <= k < |run| ==> !run[k].BeginCharge?) && Known(After(w, before + run), q)
    ensures var w' := After(w, before + run);
            && Committed(w'.entry.value, q) == SnapshotPart(w'.entry.value.snap, q) + Total(w'.entry.value.lost, q)
            && (w'.solo ==> Committed(w'.entry.value, q) == Spent(w', q))
  {
    InitialInv(w);
    RunAppend(w, before, run);
    RunKeepsInv(w, before);
    var w1, w' := After(w, before), After(w, before + run);
    RunKeepsInv(w1, run);
    RunKeepsCharges(w1, run);
    forall i | i in w'.charges ensures !w'.charges[i].open && w'.charges[i].doneGen < w'.dropGen {
      RunOutlives(w1, run, start, install, i, w1.charges[i].doneGen);
    }
    QuietIsExact(w', q);
  }
}
