/**
 One budget scope under every interleaving of the gateway's goroutines: requests
 that are admitted and charged, the store writes of each charge, the reads of
 each refresh, other writers of the same store row, the clock and eviction.

 The store is a row (limits, lifetime spend) and the usage of every month. A
 refresh reads the two in two steps and a charge writes them in two steps, so
 everything is argued component by component.

 Besides the entry itself the world keeps, for the proofs only, every charge
 begun since the entry was created with what happened to it.
 */
module BudgetProtocol {
  import opened MapSums
  import opened Options
  import opened BudgetEntries

  // ---- Charges and what is known about them ----

  datatype Write = Unwritten | Written | Failed

  /**
   A charge of the current entry. `doneGen` is the generation it finished in;
   `read...` says that the running load's reads saw its store rows, `snap...`
   that the installed snapshot contains them.
   */
  datatype Rec = Rec(charge: Charge, log: Write, spend: Write, open: bool, doneGen: nat,
                     readLife: bool, readMonth: bool, snapLife: bool, snapMonth: bool)
  {
    function WriteOf(q: Component): Write { if q.Lifetime? then spend else log }
    predicate InRead(q: Component) { if q.Lifetime? then readLife else readMonth }
    predicate InSnap(q: Component) { if q.Lifetime? then snapLife else snapMonth }
  }

  /** Ways to select charges. */
  datatype Sel = Every | Stored | Unstored | Open | Lost | Done(from: nat) | Here(from: nat) | Read | Snap

  predicate Chosen(r: Rec, s: Sel, q: Component) {
    match s
    case Every => true
    case Stored => r.WriteOf(q).Written?
    case Unstored => !r.WriteOf(q).Written?
    case Open => r.open
    case Lost => !r.open && r.WriteOf(q).Failed?
    case Done(from) => !r.open && r.WriteOf(q).Written? && r.doneGen >= from
    case Here(from) => r.open || r.WriteOf(q).Failed? || r.doneGen >= from
    case Read => r.InRead(q)
    case Snap => r.InSnap(q)
  }

  function Weight(r: Rec, s: Sel, q: Component): int {
    if Chosen(r, s, q) then Part(r.charge, q) else 0
  }

  function Weights(charges: map<nat, Rec>, s: Sel, q: Component): map<nat, int> {
    map i | i in charges :: Weight(charges[i], s, q)
  }

  ghost function Tot(charges: map<nat, Rec>, s: Sel, q: Component): int {
    Sum(Weights(charges, s, q))
  }

  // ---- The world ----

  datatype Store = Store(limits: Limits, lifetime: int, usage: map<nat, Amount>)

  function UsageOf(store: Store, month: nat): Amount {
    if month in store.usage then store.usage[month] else ZERO
  }

  function StoreVal(store: Store, q: Component): int {
    match q
    case Lifetime => store.lifetime
    case MonthCost(m) => UsageOf(store, m).cost
    case MonthTokens(m) => UsageOf(store, m).tokens
  }

  /** The estimate of a running request and the month it was admitted in. */
  datatype Hold = Hold(amount: Amount, madeIn: nat)

  function HoldWeight(h: Hold, q: Component): int {
    if q.Lifetime? || h.madeIn <= q.month then AmountPart(h.amount, q) else 0
  }

  function HoldWeights(holds: map<nat, Hold>, q: Component): map<nat, int> {
    map i | i in holds :: HoldWeight(holds[i], q)
  }

  ghost function Held(holds: map<nat, Hold>, q: Component): int {
    Sum(HoldWeights(holds, q))
  }

  /** A load that was started, has read the key row, or has read everything. */
  datatype Phase = Started | KeyRead(limits: Limits, lifetime: int) | Complete(snap: Snapshot)

  datatype Fetch = Fetch(order: LoadOrder, phase: Phase)

  /** What other writers (and earlier entries) had written when a read happened. */
  datatype Base = Base(lifetime: int, monthly: Amount)

  function BaseVal(b: Base, q: Component): int {
    match q
    case Lifetime => b.lifetime
    case MonthCost(_) => b.monthly.cost
    case MonthTokens(_) => b.monthly.tokens
  }

  datatype World = World(
    now: int, month: nat, timing: Timing,
    store: Store,
    entry: Option<Entry<nat>>, load: Option<Fetch>,
    holds: map<nat, Hold>, charges: map<nat, Rec>,
    dropGen: nat,      // done buckets of earlier generations are gone
    readBase: Base, snapBase: Base,
    solo: bool)        // fixed limits, one writer, every charge reserved before

  /** The part of the store that does not come from this entry's charges. */
  ghost function Others(store: Store, charges: map<nat, Rec>, q: Component): int {
    StoreVal(store, q) - Tot(charges, Stored, q)
  }

  /** Spent so far: stored, or begun and not (yet) stored. */
  ghost function Spent(w: World, q: Component): int {
    StoreVal(w.store, q) + Tot(w.charges, Unstored, q)
  }

  // ---- Steps ----

  datatype Step =
    | Tick(now: int, month: nat)
    | Admit(hint: Option<Limits>, estimate: Amount, attempt: Attempt, hold: nat)
    | ReadKey
    | ReadUsage
    | InstallLoad(startedAt: int)
    | AbandonLoad
    | BeginCharge(ticket: nat, from: Option<nat>, charge: Charge)
    | ReleaseHold(hold: nat)
    | WriteLog(ticket: nat, ok: bool)
    | WriteSpend(ticket: nat, ok: bool)
    | FinishCharge(ticket: nat)
    | Foreign(charge: Charge)
    | SetLimits(limits: Limits)
    | Evict

  /** A reservation that covers a charge: at least as large, and not made in a later month. */
  predicate Covers(h: Hold, c: Charge) {
    && c.lifetime <= h.amount.cost && c.monthly.cost <= h.amount.cost && c.monthly.tokens <= h.amount.tokens
    && h.madeIn <= c.month
  }

  ghost predicate Enabled(w: World, s: Step) {
    match s
    case Tick(now, month) => w.now <= now && w.month <= month
    case Admit(hint, estimate, _, hold) =>
      && estimate.NonNegative() && hold !in w.holds
      && !WithoutLimits(hint)   // else the request passes without a look at the ledger
      && (w.solo && hint.Some? ==> hint.value == w.store.limits)
    case ReadKey => w.load.Some? && w.load.value.phase.Started?
    case ReadUsage => w.load.Some? && w.load.value.phase.KeyRead?
    case InstallLoad(_) => w.load.Some? && w.load.value.phase.Complete?
    case AbandonLoad => w.load.Some?
    case BeginCharge(ticket, from, charge) =>
      && w.entry.Some? && ticket !in w.charges
      && charge.NonNegative() && 0 < charge.month <= w.month
      && (from.Some? ==> from.value in w.holds)
      && (w.solo ==> if from.Some? then Covers(w.holds[from.value], charge) else Nothing(charge))
    case ReleaseHold(hold) => hold in w.holds
    case WriteLog(ticket, _) => ticket in w.charges && w.charges[ticket].open && w.charges[ticket].log.Unwritten?
    case WriteSpend(ticket, _) =>
      && ticket in w.charges && w.charges[ticket].open
      && !w.charges[ticket].log.Unwritten? && w.charges[ticket].spend.Unwritten?
    case FinishCharge(ticket) =>
      && ticket in w.charges && w.charges[ticket].open
      && !w.charges[ticket].log.Unwritten? && !w.charges[ticket].spend.Unwritten?
    case Foreign(charge) => !w.solo && charge.NonNegative()
    case SetLimits(_) => !w.solo
    case Evict => w.entry.Some? && !w.entry.value.Busy()
  }

  function AddUsage(store: Store, month: nat, a: Amount): Store {
    var was := UsageOf(store, month);
    store.(usage := store.usage[month := Amount(was.cost + a.cost, was.tokens + a.tokens)])
  }

  function MarkReadLife(r: Rec): Rec { r.(readLife := r.spend.Written?) }

  function MarkReadMonth(r: Rec, month: nat): Rec {
    r.(readMonth := month != 0 && r.log.Written? && r.charge.month == month)
  }

  function MarkSnap(r: Rec): Rec { r.(snapLife := r.readLife, snapMonth := r.readMonth) }

  function NewRec(c: Charge): Rec { Rec(c, Unwritten, Unwritten, true, 0, false, false, false, false) }

  /** Admission finds the entry or creates it. */
  function EntryFor(w: World): Entry<nat> {
    if w.entry.Some? then w.entry.value else NewEntry()
  }

  ghost function AdmitNow(w: World, s: Step): Pass<nat>
    requires s.Admit?
  {
    AdmitPass(EntryFor(w), s.hint, s.estimate, w.now, w.month, w.timing, s.attempt)
  }

  /** The key row says whether the month has to be read as well. */
  predicate MonthWanted(order: LoadOrder, limits: Limits) { order.withMonthly || limits.Monthly() }

  function AfterTick(w: World, now: int, month: nat): World {
    w.(now := now, month := month)
  }

  function AfterPass(w: World, pass: Pass<nat>, hold: nat, estimate: Amount): World {
    w.(entry := Some(pass.entry),
    load := if pass.load.Some? then Some(Fetch(pass.load.value, Started)) else w.load,
    holds := if pass.verdict.Reserved? then w.holds[hold := Hold(estimate, w.month)] else w.holds)
  }

  function KeyPhase(order: LoadOrder, limits: Limits, lifetime: int): Phase {
    if MonthWanted(order, limits) then KeyRead(limits, lifetime) else Complete(Snapshot(limits, lifetime, 0, ZERO))
  }

  ghost function AfterReadKey(w: World): World
    requires w.load.Some?
  {
    var order := w.load.value.order;
    w.(load := Some(Fetch(order, KeyPhase(order, w.store.limits, w.store.lifetime))),
    charges := map i | i in w.charges :: MarkReadMonth(MarkReadLife(w.charges[i]), 0),
    readBase := Base(Others(w.store, w.charges, Lifetime), ZERO))
  }

  ghost function AfterReadUsage(w: World): World
    requires w.load.Some? && w.load.value.phase.KeyRead?
  {
    var order, phase := w.load.value.order, w.load.value.phase;
    var month := order.month;
    w.(load := Some(Fetch(order, Complete(Snapshot(phase.limits, phase.lifetime, month, UsageOf(w.store, month))))),
    charges := map i | i in w.charges :: MarkReadMonth(w.charges[i], month),
    readBase := Base(w.readBase.lifetime,
                     Amount(Others(w.store, w.charges, MonthCost(month)), Others(w.store, w.charges, MonthTokens(month)))))
  }

  function AfterInstall(w: World, startedAt: int): World
    requires w.load.Some? && w.load.value.phase.Complete? && w.entry.Some?
  {
    var load := w.load.value;
    w.(entry := Some(Install(w.entry.value, load.phase.snap, startedAt, load.order.startGen)),
    load := None,
    charges := map i | i in w.charges :: MarkSnap(w.charges[i]),
    snapBase := w.readBase,
    dropGen := load.order.startGen + 1)
  }

  function AfterAbandon(w: World): World
    requires w.entry.Some?
  {
    w.(entry := Some(FailLoad(w.entry.value, w.now)), load := None)
  }

  function AfterRelease(w: World, hold: nat): World
    requires w.entry.Some? && hold in w.holds
  {
    w.(entry := Some(Release(w.entry.value, w.holds[hold].amount)), holds := w.holds - {hold})
  }

  function AfterBegin(w: World, ticket: nat, charge: Charge): World
    requires w.entry.Some?
  {
    w.(entry := Some(Begin(w.entry.value, ticket, charge)), charges := w.charges[ticket := NewRec(charge)])
  }

  function AfterWriteLog(w: World, ticket: nat, ok: bool): World
    requires ticket in w.charges
  {
    var r := w.charges[ticket];
    w.(charges := w.charges[ticket := r.(log := if ok then Written else Failed)],
    store := if ok then AddUsage(w.store, r.charge.month, r.charge.monthly) else w.store)
  }

  function AfterWriteSpend(w: World, ticket: nat, ok: bool): World
    requires ticket in w.charges
  {
    var r := w.charges[ticket];
    w.(charges := w.charges[ticket := r.(spend := if ok then Written else Failed)],
    store := if ok then w.store.(lifetime := w.store.lifetime + r.charge.lifetime) else w.store)
  }

  ghost function AfterFinish(w: World, ticket: nat): World
    requires w.entry.Some? && ticket in w.charges && ticket in w.entry.value.pending
  {
    var r, e := w.charges[ticket], w.entry.value;
    w.(entry := Some(Finish(e, ticket, r.log.Written?, r.spend.Written?, w.month)),
    charges := w.charges[ticket := r.(open := false, doneGen := e.gen)])
  }

  function AfterForeign(w: World, c: Charge): World {
    w.(store := AddUsage(w.store.(lifetime := w.store.lifetime + c.lifetime), c.month, c.monthly))
  }

  function AfterEvict(w: World): World {
    w.(entry := None, charges := map[], dropGen := 0)
  }

  ghost function Apply(w: World, s: Step): World
    requires Linked(w) && Enabled(w, s)
  {
    match s
    case Tick(now, month) => AfterTick(w, now, month)
    case Admit(_, estimate, _, hold) => AfterPass(w, AdmitNow(w, s), hold, estimate)
    case ReadKey => AfterReadKey(w)
    case ReadUsage => AfterReadUsage(w)
    case InstallLoad(startedAt) => AfterInstall(w, startedAt)
    case AbandonLoad => AfterAbandon(w)
    case BeginCharge(ticket, from, charge) =>
      AfterBegin(if from.Some? then AfterRelease(w, from.value) else w, ticket, charge)
    case ReleaseHold(hold) => AfterRelease(w, hold)
    case WriteLog(ticket, ok) => AfterWriteLog(w, ticket, ok)
    case WriteSpend(ticket, ok) => AfterWriteSpend(w, ticket, ok)
    case FinishCharge(ticket) => AfterFinish(w, ticket)
    case Foreign(charge) => AfterForeign(w, charge)
    case SetLimits(limits) => w.(store := w.store.(limits := limits))
    case Evict => AfterEvict(w)
  }

  // ---- The invariant ----

  function OpenCharges(charges: map<nat, Rec>): map<nat, Charge> {
    map i | i in charges && charges[i].open :: charges[i].charge
  }

  function From(done: map<DoneKey, Charge>, from: nat): map<DoneKey, Charge> {
    map k | k in done && k.gen >= from :: done[k]
  }

  /** Reservations, pending charges and loads exist only while the entry is registered. */
  predicate Linked(w: World) {
    && (w.entry.None? ==> w.holds == map[] && w.charges == map[] && w.load.None? && w.dropGen == 0)
    && (w.entry.Some? ==>
          && w.entry.value.pending == OpenCharges(w.charges)
          && w.entry.value.reservations == |w.holds|
          && w.entry.value.loading == w.load.Some?
          && (w.load.Some? ==> w.load.value.order.startGen + 1 == w.entry.value.gen))
  }

  predicate Dated(w: World) {
    && w.month > 0
    && ChargesDated(w.charges, w.month)
    && (forall i :: i in w.holds ==> w.holds[i].amount.NonNegative() && w.holds[i].madeIn <= w.month)
    && UsageDated(w.store, w.month, w.solo)
  }

  predicate ChargesDated(charges: map<nat, Rec>, month: nat) {
    forall i :: i in charges ==> 0 < charges[i].charge.month <= month && charges[i].charge.NonNegative()
  }

  predicate UsageDated(store: Store, month: nat, solo: bool) {
    && (forall m :: m in store.usage ==> store.usage[m].NonNegative())
    && (solo ==> forall m :: m in store.usage && m > month ==> store.usage[m] == ZERO)
  }

  ghost predicate ReservedIsHeld(reserved: Amount, holds: map<nat, Hold>, month: nat) {
    && reserved.cost == Held(holds, Lifetime)
    && reserved.tokens == Held(holds, MonthTokens(month))
  }

  predicate ClosedAreWritten(charges: map<nat, Rec>, gen: nat) {
    forall i :: i in charges && !charges[i].open ==>
      !charges[i].log.Unwritten? && !charges[i].spend.Unwritten? && charges[i].doneGen <= gen
  }

  /** Whatever generation one starts from, the buckets hold what those charges stored. */
  ghost predicate DoneIsStored(done: map<DoneKey, Charge>, charges: map<nat, Rec>, dropGen: nat) {
    && (forall k :: k in done ==> k.gen >= dropGen && done[k].month == k.month)
    && (forall t: nat, q :: t >= dropGen ==> Total(From(done, t), q) == Tot(charges, Done(t), q))
  }

  ghost predicate LostIsFailed(lost: map<nat, Charge>, charges: map<nat, Rec>, month: nat) {
    && LostShape(lost, month)
    && (forall q :: Current(q, month) ==> Total(lost, q) == Tot(charges, Lost, q))
  }

  predicate Covered(month: nat, q: Component) { q.Lifetime? || (q.month == month && q.month != 0) }

  predicate Dropped(r: Rec, q: Component, dropGen: nat) {
    !r.open && r.WriteOf(q).Written? && r.doneGen < dropGen && (q.Lifetime? || r.charge.month == q.month)
  }

  /** Charges marked as seen (in the snapshot or by the running load) are stored, and of the month read. */
  ghost predicate SeenAreStored(charges: map<nat, Rec>, seen: Sel, month: nat) {
    forall i, q: Component {:trigger Chosen(charges[i], seen, q)} :: i in charges && Chosen(charges[i], seen, q) ==>
      charges[i].WriteOf(q).Written? && (q.Lifetime? || charges[i].charge.month == month)
  }

  /** Every stored charge finished before generation `dropGen` was seen. */
  ghost predicate DroppedAreSeen(charges: map<nat, Rec>, seen: Sel, month: nat, dropGen: nat) {
    forall i, q {:trigger Dropped(charges[i], q, dropGen)} ::
      i in charges && Covered(month, q) && Dropped(charges[i], q, dropGen) ==> Chosen(charges[i], seen, q)
  }

  /**
   What was read is the others' part, as it was then, plus exactly the charges
   marked as seen. With one writer the others' part never changes.
   */
  ghost predicate ReadIsSeen(snap: Snapshot, base: Base, store: Store, charges: map<nat, Rec>, seen: Sel, solo: bool) {
    forall q :: Covered(snap.month, q) ==> PartIsSeen(snap, base, store, charges, seen, solo, q)
  }

  ghost predicate PartIsSeen(snap: Snapshot, base: Base, store: Store, charges: map<nat, Rec>, seen: Sel, solo: bool, q: Component) {
    && SnapshotPart(snap, q) == BaseVal(base, q) + Tot(charges, seen, q)
    && BaseVal(base, q) <= Others(store, charges, q)
    && (solo ==> BaseVal(base, q) == Others(store, charges, q))
  }

  ghost predicate Sound(snap: Snapshot, base: Base, store: Store, charges: map<nat, Rec>, seen: Sel, solo: bool, dropGen: nat) {
    && (solo ==> snap.limits == store.limits)
    && SeenAreStored(charges, seen, snap.month)
    && DroppedAreSeen(charges, seen, snap.month, dropGen)
    && ReadIsSeen(snap, base, store, charges, seen, solo)
  }

  /** What a load has read so far, as a snapshot without the month until that is read. */
  function ReadSoFar(p: Phase): Option<Snapshot> {
    match p
    case Started => None
    case KeyRead(limits, lifetime) => Some(Snapshot(limits, lifetime, 0, ZERO))
    case Complete(snap) => Some(snap)
  }

  ghost predicate LoadSound(w: World) {
    w.load.Some? ==>
      var load := w.load.value;
      && w.dropGen <= load.order.startGen
      && 0 < load.order.month
      && (ReadSoFar(load.phase).Some? ==>
            Sound(ReadSoFar(load.phase).value, w.readBase, w.store, w.charges, Read, w.solo, load.order.startGen + 1))
  }

  ghost predicate EntrySound(w: World, e: Entry<nat>) {
    && w.dropGen <= e.gen
    && ReservedIsHeld(e.reserved, w.holds, w.month)
    && ClosedAreWritten(w.charges, e.gen)
    && DoneIsStored(e.done, w.charges, w.dropGen)
    && LostIsFailed(e.lost, w.charges, w.month)
    && (if e.hasSnap then Sound(e.snap, w.snapBase, w.store, w.charges, Snap, w.solo, w.dropGen)
        else w.dropGen == 0 && forall i :: i in w.charges ==> !w.charges[i].snapLife && !w.charges[i].snapMonth)
  }

  /** No limit is exceeded, even if every running request costs all it reserved. */
  ghost predicate WithinBudget(w: World) {
    w.solo ==> forall q :: LimitOf(w.store.limits, q) > 0 ==>
      Spent(w, q) + Held(w.holds, q) <= LimitOf(w.store.limits, q)
  }

  ghost predicate Inv(w: World) {
    && Linked(w)
    && Dated(w)
    && LoadSound(w)
    && WithinBudget(w)
    && (w.entry.Some? ==> EntrySound(w, w.entry.value))
  }
}
