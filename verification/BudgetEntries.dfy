/** One budget scope as a value: what the ledger knows about it and how every critical section changes it. */
module BudgetEntries {
  // Money is an integer number of micro-dollars, time an integer number of
  // nanoseconds, and a month the ordinal of its first instant, with 0 for the zero
  // time. `T` identifies a charge whose store writes are running (a pointer in the
  // program): the classes of BudgetLedger use the ticket objects, the interleaving
  // model of BudgetProtocol uses numbers.

  import opened MapSums
  import opened Options

  const SECOND := 1_000_000_000
  const MINUTE := 60 * SECOND
  const MAX_STALE_FACTOR := 12

  datatype Amount = Amount(cost: int, tokens: int) {
    predicate NonNegative() { 0 <= cost && 0 <= tokens }
  }

  const ZERO := Amount(0, 0)

  /** The caps of one scope. Zero means "no limit". */
  datatype Limits = Limits(lifetimeCost: int, monthlyCost: int, monthlyTokens: int) {
    predicate Monthly() { monthlyCost > 0 || monthlyTokens > 0 }
    predicate Any() { lifetimeCost > 0 || Monthly() }
  }

  const NO_LIMITS := Limits(0, 0, 0)

  datatype Snapshot = Snapshot(limits: Limits, lifetime: int, month: nat, monthly: Amount)

  const NO_SNAPSHOT := Snapshot(NO_LIMITS, 0, 0, ZERO)

  datatype Charge = Charge(lifetime: int, month: nat, monthly: Amount) {
    predicate NonNegative() { 0 <= lifetime && monthly.NonNegative() }
  }

  datatype DoneKey = DoneKey(gen: nat, month: nat)

  /** The quantities that can be capped. Every argument is made once per component. */
  datatype Component = Lifetime | MonthCost(month: nat) | MonthTokens(month: nat)

  function Part(c: Charge, q: Component): int {
    match q
    case Lifetime => c.lifetime
    case MonthCost(m) => if c.month == m then c.monthly.cost else 0
    case MonthTokens(m) => if c.month == m then c.monthly.tokens else 0
  }

  function SnapshotPart(s: Snapshot, q: Component): int {
    match q
    case Lifetime => s.lifetime
    case MonthCost(m) => if s.month == m then s.monthly.cost else 0
    case MonthTokens(m) => if s.month == m then s.monthly.tokens else 0
  }

  function LimitOf(l: Limits, q: Component): int {
    match q
    case Lifetime => l.lifetimeCost
    case MonthCost(_) => l.monthlyCost
    case MonthTokens(_) => l.monthlyTokens
  }

  function AmountPart(a: Amount, q: Component): int {
    if q.MonthTokens? then a.tokens else a.cost
  }

  function Parts<K>(m: map<K, Charge>, q: Component): map<K, int> {
    map k | k in m :: Part(m[k], q)
  }

  /** What the charges of one map add to a component. */
  ghost function Total<K>(m: map<K, Charge>, q: Component): int {
    Sum(Parts(m, q))
  }

  datatype Entry<T> = Entry(
    limits: Limits,
    snap: Snapshot, hasSnap: bool, snapAt: int,
    loading: bool, loadErrAt: Option<int>, gen: nat,
    reserved: Amount, reservations: int,
    pending: map<T, Charge>, done: map<DoneKey, Charge>, lost: map<nat, Charge>)
  {
    predicate Busy() { reservations > 0 || |pending| > 0 || loading }
  }

  function NewEntry<T>(): Entry<T> {
    Entry(NO_LIMITS, NO_SNAPSHOT, false, 0, false, None, 0, ZERO, 0, map[], map[], map[])
  }

  /** Snapshot plus local charges: the usage this process knows of. */
  ghost function Committed<T>(e: Entry<T>, q: Component): int {
    SnapshotPart(e.snap, q) + Total(e.pending, q) + Total(e.done, q) + Total(e.lost, q)
  }

  ghost function CommittedMonth<T>(e: Entry<T>, month: nat): Amount {
    Amount(Committed(e, MonthCost(month)), Committed(e, MonthTokens(month)))
  }

  // ---- Store loads ----

  function StartLoad<T>(e: Entry<T>): Entry<T> {
    e.(loading := true, gen := e.gen + 1)
  }

  function Forget(done: map<DoneKey, Charge>, startGen: nat): map<DoneKey, Charge> {
    map k | k in done && k.gen > startGen :: done[k]
  }

  function Install<T>(e: Entry<T>, snap: Snapshot, startedAt: int, startGen: nat): Entry<T> {
    e.(loading := false, snap := snap, hasSnap := true, snapAt := startedAt, loadErrAt := None,
    done := Forget(e.done, startGen))
  }

  function FailLoad<T>(e: Entry<T>, at: int): Entry<T> {
    e.(loading := false, loadErrAt := Some(at))
  }

  // ---- Reservations ----

  function Reserve<T>(e: Entry<T>, estimate: Amount): Entry<T> {
    e.(reserved := Amount(e.reserved.cost + estimate.cost, e.reserved.tokens + estimate.tokens),
    reservations := e.reservations + 1)
  }

  function Release<T>(e: Entry<T>, amount: Amount): Entry<T> {
    e.(reserved := if e.reservations == 1 then ZERO
                 else Amount(e.reserved.cost - amount.cost, e.reserved.tokens - amount.tokens),
    reservations := e.reservations - 1)
  }

  // ---- Charges ----

  function Begin<T>(e: Entry<T>, ticket: T, charge: Charge): Entry<T> {
    e.(pending := e.pending[ticket := charge])
  }

  function StoredPart(c: Charge, logStored: bool, spendStored: bool): Charge {
    Charge(if spendStored then c.lifetime else 0, c.month, if logStored then c.monthly else ZERO)
  }

  predicate Nothing(c: Charge) { c.lifetime == 0 && c.monthly == ZERO }

  function AddTo<K>(m: map<K, Charge>, k: K, month: nat, c: Charge): map<K, Charge> {
    var bucket := if k in m then m[k] else Charge(0, month, ZERO);
    m[k := Charge(bucket.lifetime + c.lifetime, bucket.month,
                  Amount(bucket.monthly.cost + c.monthly.cost, bucket.monthly.tokens + c.monthly.tokens))]
  }

  function PastLost(lost: map<nat, Charge>, month: nat): map<nat, Charge> {
    map k | k in lost && k != 0 && k < month :: lost[k]
  }

  /** Lost charges of past months keep only their lifetime part, in one record. */
  ghost function Sweep(lost: map<nat, Charge>, month: nat): map<nat, Charge> {
    var past := PastLost(lost, month);
    if past == map[] then lost
    else AddTo(lost - past.Keys, 0, 0, Charge(Total(past, Lifetime), 0, ZERO))
  }

  /** A failed charge of a past month keeps its lifetime part only. */
  function Kept(c: Charge, month: nat): Charge {
    if c.month != 0 && c.month < month then Charge(c.lifetime, 0, ZERO) else c
  }

  ghost function AddLost(lost: map<nat, Charge>, c: Charge, month: nat): map<nat, Charge> {
    var kept := Kept(c, month);
    AddTo(Sweep(lost, month), kept.month, kept.month, kept)
  }

  ghost function Finish<T>(e: Entry<T>, ticket: T, logStored: bool, spendStored: bool, month: nat): Entry<T>
    requires ticket in e.pending
  {
    var c := e.pending[ticket];
    var stored := StoredPart(c, logStored, spendStored);
    var lost := StoredPart(c, !logStored, !spendStored);
    e.(pending := e.pending - {ticket},
    done := if Nothing(stored) then e.done
            else AddTo(e.done, DoneKey(e.gen, c.month), c.month, stored),
    lost := if Nothing(lost) then e.lost else AddLost(e.lost, lost, month))
  }

  // ---- Admission ----

  /** The caller knows that the scope has no limits. */
  predicate WithoutLimits(hint: Option<Limits>) {
    hint.Some? && !hint.value.Any()
  }

  datatype Reason =
    | LifetimeUsed | LifetimeWouldExceed
    | MonthlyCostUsed | MonthlyCostWouldExceed
    | MonthlyTokensUsed | MonthlyTokensWouldExceed

  /** Why a request with this estimate does not fit, if it does not. */
  function Denial(limits: Limits, lifetime: int, monthly: Amount, reserved: Amount, estimate: Amount): Option<Reason> {
    if limits.lifetimeCost > 0 && lifetime >= limits.lifetimeCost then Some(LifetimeUsed)
    else if limits.lifetimeCost > 0 && estimate.cost > 0
            && lifetime + reserved.cost + estimate.cost > limits.lifetimeCost then Some(LifetimeWouldExceed)
    else if limits.monthlyCost > 0 && monthly.cost >= limits.monthlyCost then Some(MonthlyCostUsed)
    else if limits.monthlyCost > 0 && estimate.cost > 0
            && monthly.cost + reserved.cost + estimate.cost > limits.monthlyCost then Some(MonthlyCostWouldExceed)
    else if limits.monthlyTokens > 0 && monthly.tokens >= limits.monthlyTokens then Some(MonthlyTokensUsed)
    else if limits.monthlyTokens > 0 && estimate.tokens > 0
            && monthly.tokens + reserved.tokens + estimate.tokens > limits.monthlyTokens then Some(MonthlyTokensWouldExceed)
    else None
  }

  datatype Timing = Timing(refresh: int, retryBackoff: int) {
    function MaxStale(): int {
      if MAX_STALE_FACTOR * refresh < MINUTE then MINUTE else MAX_STALE_FACTOR * refresh
    }
  }

  /** What one goroutine has already done for its request. */
  datatype Attempt = Attempt(ranLoad: bool, waits: nat)

  datatype Verdict =
    | Unavailable
    | Wait               // a load by another goroutine is running: wait for it
    | Load               // this goroutine runs the load itself
    | NoBudget
    | Denied(reason: Reason)
    | Reserved

  /** A load to run: the generation it started at and what it must read. */
  datatype LoadOrder = LoadOrder(startGen: nat, month: nat, withMonthly: bool)

  datatype Pass<T> = Pass(entry: Entry<T>, verdict: Verdict, load: Option<LoadOrder>)

  predicate Usable<T>(e: Entry<T>, hint: Option<Limits>, now: int, month: nat, timing: Timing) {
    var limits := LimitsFor(e, hint);
    && e.hasSnap
    && now - e.snapAt <= timing.MaxStale()
    && (!limits.Monthly() || e.snap.month == month || (hint.None? && !e.snap.limits.Any()))
  }

  function LimitsFor<T>(e: Entry<T>, hint: Option<Limits>): Limits {
    if hint.Some? then hint.value else e.snap.limits
  }

  predicate BackingOff<T>(e: Entry<T>, now: int, timing: Timing) {
    e.loadErrAt.Some? && now - e.loadErrAt.value < timing.retryBackoff
  }

  predicate RefreshDue<T>(e: Entry<T>, now: int, timing: Timing) {
    !e.loading && now - e.snapAt >= timing.refresh && !BackingOff(e, now, timing)
  }

  /** A usable entry as the check sees it: a refresh may have been started in the background. */
  function Prepared<T>(e: Entry<T>, refresh: bool, limits: Limits): Entry<T> {
    (if refresh then StartLoad(e) else e).(limits := limits)
  }

  /** One pass of the admission loop, between taking and dropping the ledger lock. */
  ghost function AdmitPass<T>(e: Entry<T>, hint: Option<Limits>, estimate: Amount, now: int, month: nat,
                              timing: Timing, attempt: Attempt): Pass<T>
  {
    var limits := LimitsFor(e, hint);
    var order := LoadOrder(e.gen, month, limits.Monthly());
    if !Usable(e, hint, now, month, timing) then
      if attempt.ranLoad || attempt.waits >= 2 then Pass(e, Unavailable, None)
      else if e.loading then Pass(e, Wait, None)
      else if BackingOff(e, now, timing) then Pass(e, Unavailable, None)
      else Pass(StartLoad(e), Load, Some(order))
    else
      var refresh := RefreshDue(e, now, timing);
      var load := if refresh then Some(order) else None;
      var e1 := Prepared(e, refresh, limits);
      if !limits.Any() then Pass(e1, NoBudget, load)
      else
        var denial := Denial(limits, Committed(e1, Lifetime), CommittedMonth(e1, month), e1.reserved, estimate);
        if denial.Some? then Pass(e1, Denied(denial.value), load)
        else Pass(Reserve(e1, estimate), Reserved, load)
  }

  /** What a goroutine remembers after a pass that sends it round the loop again. */
  function NextAttempt(attempt: Attempt, verdict: Verdict): Attempt {
    match verdict
    case Wait => attempt.(waits := attempt.waits + 1)
    case Load => attempt.(ranLoad := true)
    case _ => attempt
  }

  // ---- Facts about sums of charges ----

  lemma {:induction false} TotalUpdate<K>(m: map<K, Charge>, k: K, c: Charge, q: Component)
    ensures Total(m[k := c], q) == Total(m, q) - Get(Parts(m, q), k) + Part(c, q)
  {
    assert Parts(m[k := c], q) == Parts(m, q)[k := Part(c, q)];
    SumUpdate(Parts(m, q), k, Part(c, q));
  }

  lemma {:induction false} PartPlus(a: Charge, b: Charge, q: Component)
    requires b.month == a.month || b.monthly == ZERO
    ensures Part(Charge(a.lifetime + b.lifetime, a.month,
                        Amount(a.monthly.cost + b.monthly.cost, a.monthly.tokens + b.monthly.tokens)), q) == Part(a, q) + Part(b, q)
  {
  }

  lemma {:induction false} TotalAddTo<K>(m: map<K, Charge>, k: K, month: nat, c: Charge, q: Component)
    requires c.month == month || c.monthly == ZERO
    requires k in m ==> m[k].month == month
    ensures Total(AddTo(m, k, month, c), q) == Total(m, q) + Part(c, q)
  {
    var bucket := if k in m then m[k] else Charge(0, month, ZERO);
    var sum := Charge(bucket.lifetime + c.lifetime, bucket.month,
                      Amount(bucket.monthly.cost + c.monthly.cost, bucket.monthly.tokens + c.monthly.tokens));
    PartPlus(bucket, c, q);
    TotalUpdate(m, k, sum, q);
  }

  /** Splitting a map in two splits its total. */
  lemma {:induction false} TotalSplit<K>(m: map<K, Charge>, a: map<K, Charge>, q: Component)
    requires a.Keys <= m.Keys && forall k :: k in a ==> a[k] == m[k]
    ensures Total(m, q) == Total(a, q) + Total(m - a.Keys, q)
  {
    var all, left, right := Parts(m, q), Parts(a, q), Parts(m - a.Keys, q);
    var padLeft := map k | k in m :: Get(left, k);
    var padRight := map k | k in m :: Get(right, k);
    SumPad(left, padLeft);
    SumPad(right, padRight);
    SumAdd(padLeft, padRight, all);
  }

  // ---- Lost charges are kept exactly ----

  /** Every record names the month of its key, and none is dated after `month`. */
  predicate LostShape(lost: map<nat, Charge>, month: nat) {
    forall k :: k in lost ==> lost[k].month == k <= month
  }

  /** The components an admission in `month` looks at. */
  predicate Current(q: Component, month: nat) {
    q.Lifetime? || q.month == month
  }

  lemma {:induction false} SweepKeeps(lost: map<nat, Charge>, month: nat, q: Component)
    requires LostShape(lost, month) && month > 0 && Current(q, month)
    ensures LostShape(Sweep(lost, month), month)
    ensures Total(Sweep(lost, month), q) == Total(lost, q)
  {
    var past := PastLost(lost, month);
    if past != map[] {
      TotalSplit(lost, past, q);
      TotalAddTo(lost - past.Keys, 0, 0, Charge(Total(past, Lifetime), 0, ZERO), q);
      if !q.Lifetime? {
        SumPad(map[], Parts(past, q));
      }
    }
  }

  /**
   Keeping a failed charge adds exactly its amounts to the lifetime total and
   to the current month's totals, although the records of past months are
   merged away; what stays is at most the current month and the merged record.
   */
  lemma {:induction false} AddLostKeeps(lost: map<nat, Charge>, c: Charge, month: nat, q: Component)
    requires LostShape(lost, month) && 0 < c.month <= month && Current(q, month)
    ensures Total(AddLost(lost, c, month), q) == Total(lost, q) + Part(c, q)
  {
    SweepKeeps(lost, month, q);
    var kept := Kept(c, month);
    TotalAddTo(Sweep(lost, month), kept.month, kept.month, kept, q);
  }

  lemma {:induction false} AddLostIsSmall(lost: map<nat, Charge>, c: Charge, month: nat)
    requires LostShape(lost, month) && 0 < c.month <= month
    ensures LostShape(AddLost(lost, c, month), month)
    ensures AddLost(lost, c, month).Keys <= {0, month}
  {
    SweepKeeps(lost, month, Lifetime);
    SweepIsSmall(lost, month);
  }

  lemma {:induction false} SweepIsSmall(lost: map<nat, Charge>, month: nat)
    requires LostShape(lost, month)
    ensures Sweep(lost, month).Keys <= {0, month}
  {
    assert forall k :: k in lost && k !in PastLost(lost, month) ==> k == 0 || k == month;
  }

  // ---- What an admission decides ----

  /** The component a denial is about. */
  function ComponentOf(reason: Reason, month: nat): Component {
    match reason
    case LifetimeUsed => Lifetime
    case LifetimeWouldExceed => Lifetime
    case MonthlyCostUsed => MonthCost(month)
    case MonthlyCostWouldExceed => MonthCost(month)
    case MonthlyTokensUsed => MonthTokens(month)
    case MonthlyTokensWouldExceed => MonthTokens(month)
  }

  /** Of this much used and held, a limit is used up or has no room for what is needed. */
  predicate NoRoom(limit: int, used: int, held: int, need: int) {
    limit > 0 && (used >= limit || (need > 0 && used + held + need > limit))
  }

  /** The limit of this component has no room. */
  ghost predicate Full<T>(limits: Limits, e: Entry<T>, estimate: Amount, q: Component) {
    NoRoom(LimitOf(limits, q), Committed(e, q), AmountPart(e.reserved, q), AmountPart(estimate, q))
  }

  lemma {:induction false} DenialIsAbout(limits: Limits, lifetime: int, monthly: Amount, reserved: Amount, estimate: Amount, month: nat)
    ensures Denial(limits, lifetime, monthly, reserved, estimate).None?
            <==> && !NoRoom(limits.lifetimeCost, lifetime, reserved.cost, estimate.cost)
                 && !NoRoom(limits.monthlyCost, monthly.cost, reserved.cost, estimate.cost)
                 && !NoRoom(limits.monthlyTokens, monthly.tokens, reserved.tokens, estimate.tokens)
    ensures Denial(limits, lifetime, monthly, reserved, estimate).Some? ==>
              var reason := Denial(limits, lifetime, monthly, reserved, estimate).value;
              var q := ComponentOf(reason, month);
              var used := if q.Lifetime? then lifetime else AmountPart(monthly, q);
              && NoRoom(LimitOf(limits, q), used, AmountPart(reserved, q), AmountPart(estimate, q))
              && (UsedUp(reason) <==> used >= LimitOf(limits, q))
              && (q != Lifetime ==> !NoRoom(limits.lifetimeCost, lifetime, reserved.cost, estimate.cost))
              && (q.MonthTokens? ==> !NoRoom(limits.monthlyCost, monthly.cost, reserved.cost, estimate.cost))
  {
  }

  /** The reason says that the limit is used up already, whatever the request needs. */
  predicate UsedUp(reason: Reason) {
    reason.LifetimeUsed? || reason.MonthlyCostUsed? || reason.MonthlyTokensUsed?
  }

  /** What must be known of the scope: a snapshot of a minute or twelve refreshes at most, of this month if the limits are monthly. */
  predicate StateKnown<T>(e: Entry<T>, limits: Limits, now: int, month: nat, timing: Timing) {
    && e.hasSnap && (now - e.snapAt <= 60_000_000_000 || now - e.snapAt <= 12 * timing.refresh)
    && (limits.monthlyCost > 0 || limits.monthlyTokens > 0 ==> e.snap.month == month)
  }

  /** The last load failed less than a backoff ago. */
  predicate FailedLately<T>(e: Entry<T>, now: int, timing: Timing) {
    match e.loadErrAt
    case None => false
    case Some(at) => at + timing.retryBackoff > now
  }

  /** The decision by what is known: `v` names the first limit without room, if there is one. */
  ghost predicate Decides<T>(v: Verdict, limits: Limits, e: Entry<T>, estimate: Amount, month: nat) {
    && (v.NoBudget? <==> !(limits.lifetimeCost > 0 || limits.monthlyCost > 0 || limits.monthlyTokens > 0))
    && (v.Denied? <==> exists q :: Current(q, month) && Full(limits, e, estimate, q))
    && (v.Denied? || v.NoBudget? || v.Reserved?)
    && (v.Denied? ==>
          var named := ComponentOf(v.reason, month);
          && Full(limits, e, estimate, named) && (UsedUp(v.reason) <==> Committed(e, named) >= LimitOf(limits, named))
          && (forall q :: Current(q, month) && Full(limits, e, estimate, q) ==> Rank(named) <= Rank(q)))
  }

  lemma {:induction false} KnownDecides<T>(e: Entry<T>, hint: Option<Limits>, estimate: Amount, now: int, month: nat, timing: Timing, attempt: Attempt)
    requires Usable(e, hint, now, month, timing)
    ensures Decides(AdmitPass(e, hint, estimate, now, month, timing, attempt).verdict, LimitsFor(e, hint), e, estimate, month)
  {
    var limits := LimitsFor(e, hint);
    hide Usable, RefreshDue;
    var e1 := Prepared(e, RefreshDue(e, now, timing), limits);
    DenialIsAbout(limits, Committed(e1, Lifetime), CommittedMonth(e1, month), e1.reserved, estimate, month);
    hide Denial, NoRoom;
    SamePrepared(e, RefreshDue(e, now, timing), limits, month);
    FullIs(limits, e, estimate, month);
    hide Full, Committed, CommittedMonth;
    CurrentOnes(limits, e, estimate, month);
    if !limits.Any() {
      WithoutLimitsNotFull(limits, e, estimate, month);
    }
  }

  /**
   The whole decision of a pass. What is not known well enough makes the
   goroutine wait or load, at most once by itself; what is known decides: without
   limits the request passes, and it is denied exactly when a limit that counts
   now is used up or has no room for what the request needs.
   */
  ghost predicate Decision<T>(v: Verdict, e: Entry<T>, hint: Option<Limits>, estimate: Amount, now: int, month: nat, timing: Timing, attempt: Attempt) {
    var limits := if hint.Some? then hint.value else e.snap.limits;
    if StateKnown(e, limits, now, month, timing) then Decides(v, limits, e, estimate, month)
    else if attempt.ranLoad || attempt.waits >= 2 then v.Unavailable?
    else if e.loading then v.Wait?
    else if FailedLately(e, now, timing) then v.Unavailable?
    else v.Load?
  }

  lemma {:induction false} PassDecides<T>(e: Entry<T>, hint: Option<Limits>, estimate: Amount, now: int, month: nat, timing: Timing, attempt: Attempt)
    ensures Decision(AdmitPass(e, hint, estimate, now, month, timing, attempt).verdict, e, hint, estimate, now, month, timing, attempt)
  {
    KnownIsUsable(e, hint, now, month, timing);
    if Usable(e, hint, now, month, timing) {
      KnownDecides(e, hint, estimate, now, month, timing, attempt);
    }
    hide Usable, StateKnown, RefreshDue, Decides, Denial, Committed, CommittedMonth;
  }

  /**
   What a pass changes: it starts a load when its own goroutine runs it, or in the
   background when the snapshot is old enough and no load runs or backs off; it
   notes the limits it decided by, and an admitted request's estimate is reserved.
   */
  lemma {:induction false} PassChanges<T>(e: Entry<T>, hint: Option<Limits>, estimate: Amount, now: int, month: nat, timing: Timing, attempt: Attempt)
    ensures var limits := if hint.Some? then hint.value else e.snap.limits;
            var known := StateKnown(e, limits, now, month, timing);
            var pass := AdmitPass(e, hint, estimate, now, month, timing, attempt);
            && (pass.load.Some? <==>
                  if known then !e.loading && now - e.snapAt >= timing.refresh && !FailedLately(e, now, timing) else pass.verdict.Load?)
            && (pass.load.Some? ==> pass.load.value == LoadOrder(e.gen, month, limits.monthlyCost > 0 || limits.monthlyTokens > 0))
            && pass.entry == e.(loading := e.loading || pass.load.Some?, gen := if pass.load.Some? then e.gen + 1 else e.gen,
                                limits := if known then limits else e.limits,
                                reserved := if pass.verdict.Reserved? then Amount(e.reserved.cost + estimate.cost, e.reserved.tokens + estimate.tokens)
                                            else e.reserved,
                                reservations := if pass.verdict.Reserved? then e.reservations + 1 else e.reservations)
  {
    KnownIsUsable(e, hint, now, month, timing);
    hide Usable, StateKnown, Denial, Committed, CommittedMonth;
  }

  /** The limits in the order they are looked at. */
  function Rank(q: Component): nat {
    match q
    case Lifetime => 0
    case MonthCost(_) => 1
    case MonthTokens(_) => 2
  }

  lemma {:induction false} KnownIsUsable<T>(e: Entry<T>, hint: Option<Limits>, now: int, month: nat, timing: Timing)
    ensures LimitsFor(e, hint) == if hint.Some? then hint.value else e.snap.limits
    ensures Usable(e, hint, now, month, timing) <==> StateKnown(e, LimitsFor(e, hint), now, month, timing)
  {
  }

  lemma {:induction false} SamePrepared<T>(e: Entry<T>, refresh: bool, limits: Limits, month: nat)
    ensures var e1 := Prepared(e, refresh, limits);
            && e1.reserved == e.reserved && Committed(e1, Lifetime) == Committed(e, Lifetime)
            && CommittedMonth(e1, month) == Amount(Committed(e, MonthCost(month)), Committed(e, MonthTokens(month)))
  {
  }

  lemma {:induction false} FullIs<T>(limits: Limits, e: Entry<T>, estimate: Amount, month: nat)
    ensures Full(limits, e, estimate, Lifetime) <==> NoRoom(limits.lifetimeCost, Committed(e, Lifetime), e.reserved.cost, estimate.cost)
    ensures Full(limits, e, estimate, MonthCost(month)) <==> NoRoom(limits.monthlyCost, Committed(e, MonthCost(month)), e.reserved.cost, estimate.cost)
    ensures Full(limits, e, estimate, MonthTokens(month)) <==> NoRoom(limits.monthlyTokens, Committed(e, MonthTokens(month)), e.reserved.tokens, estimate.tokens)
  {
  }

  lemma {:induction false} CurrentOnes<T>(limits: Limits, e: Entry<T>, estimate: Amount, month: nat)
    ensures (exists q :: Current(q, month) && Full(limits, e, estimate, q))
            <==> Full(limits, e, estimate, Lifetime) || Full(limits, e, estimate, MonthCost(month)) || Full(limits, e, estimate, MonthTokens(month))
    ensures forall q :: Current(q, month) <==> q in {Lifetime, MonthCost(month), MonthTokens(month)}
  {
    hide Full;
    assert Current(Lifetime, month) && Current(MonthCost(month), month) && Current(MonthTokens(month), month);
  }

  lemma {:induction false} WithoutLimitsNotFull<T>(limits: Limits, e: Entry<T>, estimate: Amount, month: nat)
    requires !limits.Any()
    ensures forall q :: Current(q, month) ==> !Full(limits, e, estimate, q)
  {
  }

  // ---- The admission loop cannot spin ----

  /** How often a goroutine can still be sent round the loop. */
  function PassesLeft(attempt: Attempt): nat {
    if attempt.ranLoad || attempt.waits >= 2 then 0 else 2 - attempt.waits
  }

  /** What one pass finds: the entry, whatever others did to it meanwhile, and the time. */
  datatype Look<T> = Look(entry: Entry<T>, now: int, month: nat)

  /** What a goroutine remembers after these passes. */
  ghost function Attempted<T>(looks: seq<Look<T>>, hint: Option<Limits>, estimate: Amount, timing: Timing): Attempt {
    if looks == [] then Attempt(false, 0)
    else
      var before := Attempted(looks[..|looks| - 1], hint, estimate, timing);
      NextAttempt(before, VerdictAt(looks, |looks| - 1, before, hint, estimate, timing))
  }

  ghost function VerdictAt<T>(looks: seq<Look<T>>, k: nat, attempt: Attempt, hint: Option<Limits>, estimate: Amount, timing: Timing): Verdict
    requires k < |looks|
  {
    AdmitPass(looks[k].entry, hint, estimate, looks[k].now, looks[k].month, timing, attempt).verdict
  }

  /** Each of these passes sent the goroutine round again. */
  ghost predicate AllLoop<T>(looks: seq<Look<T>>, hint: Option<Limits>, estimate: Amount, timing: Timing) {
    looks == [] ||
    (var n := |looks| - 1;
     && AllLoop(looks[..n], hint, estimate, timing)
     && VerdictAt(looks, n, Attempted(looks[..n], hint, estimate, timing), hint, estimate, timing) in {Wait, Load})
  }

  lemma {:induction false} LoopingCosts<T>(looks: seq<Look<T>>, hint: Option<Limits>, estimate: Amount, timing: Timing)
    requires AllLoop(looks, hint, estimate, timing)
    ensures |looks| + PassesLeft(Attempted(looks, hint, estimate, timing)) <= 2
  {
    if looks != [] {
      LoopingCosts(looks[..|looks| - 1], hint, estimate, timing);
      hide Usable, BackingOff, RefreshDue, Denial, Committed, CommittedMonth;
    }
  }

  /** Whatever a goroutine finds when it looks at the entry again, its third pass ends the admission. */
  lemma {:induction false} AdmissionEnds<T>(looks: seq<Look<T>>, hint: Option<Limits>, estimate: Amount, timing: Timing)
    requires AllLoop(looks, hint, estimate, timing)
    ensures |looks| <= 2
  {
    LoopingCosts(looks, hint, estimate, timing);
  }
}
