/** Agent tasks: the states of one task, and the bounded registry that keeps them. */
module A2ATasks {
  import opened Options
  import opened MapSums
  import opened Sets
  import opened Ascending
  import Texts

  // ---- One task ----

  datatype State = Working | Completed | Canceled | Failed

  predicate Terminal(s: State) {
    s != Working
  }

  /** A task; `cancels` counts how often its inference was stopped, which is possible while `cancelable`. */
  datatype Task = Task(state: State, history: seq<string>, artifacts: seq<string>, note: Option<string>,
                       cancelable: bool, cancels: nat)

  datatype Op = Cancel | Complete(message: string, artifact: string) | Fail(text: string)

  function Do(t: Task, op: Op): Task {
    match op
    case Cancel =>
      if Terminal(t.state) then t
      else t.(state := Canceled, cancels := if t.cancelable then t.cancels + 1 else t.cancels)
    case Complete(message, artifact) =>
      (if t.state == Working then t.(state := Completed, history := t.history + [message], artifacts := t.artifacts + [artifact]) else t)
      .(cancelable := false)
    case Fail(text) =>
      (if t.state == Working then t.(state := Failed, note := Some(text)) else t).(cancelable := false)
  }

  function DoAll(t: Task, ops: seq<Op>): Task {
    if ops == [] then t else Do(DoAll(t, ops[..|ops| - 1]), ops[|ops| - 1])
  }

  /** What the first thing that happens to a working task makes it tell: an answer, a failure, or only that it was canceled. */
  predicate Tells(r: Task, t: Task, first: Op) {
    match first
    case Cancel => r.state == Canceled && r.history == t.history && r.artifacts == t.artifacts && r.note == t.note
    case Complete(message, artifact) =>
      r.state == Completed && r.history == t.history + [message] && r.artifacts == t.artifacts + [artifact] && r.note == t.note
    case Fail(text) => r.state == Failed && r.history == t.history && r.artifacts == t.artifacts && r.note == Some(text)
  }

  /**
     What a task tells about itself is decided by the first thing that happens to
     it, and it can be stopped as long as nothing but cancels happened.
   */
  lemma {:induction false} FirstOpDecides(t: Task, ops: seq<Op>)
    requires t.state == Working && ops != []
    ensures var r := DoAll(t, ops);
            && Tells(r, t, ops[0]) && r.state != Working
            && (r.cancelable <==> t.cancelable && forall i :: 0 <= i < |ops| ==> ops[i] == Cancel)
            && r.cancels == t.cancels + (if ops[0] == Cancel && t.cancelable then 1 else 0)
  {
    var n := |ops| - 1;
    var before := ops[..n];
    assert (forall i :: 0 <= i < |ops| ==> ops[i] == Cancel) <==> (forall i :: 0 <= i < n ==> before[i] == Cancel) && ops[n] == Cancel;
    if n == 0 {
      assert DoAll(t, before) == t;
      FirstTells(t, ops[0]);
    } else {
      FirstOpDecides(t, before);
      LaterTells(DoAll(t, before), ops[n]);
    }
  }

  lemma {:induction false} FirstTells(t: Task, op: Op)
    requires t.state == Working
    ensures var r := Do(t, op);
            && Tells(r, t, op) && r.state != Working && (r.cancelable <==> t.cancelable && op == Cancel)
            && r.cancels == t.cancels + (if op == Cancel && t.cancelable then 1 else 0)
  {
  }

  lemma {:induction false} LaterTells(t: Task, op: Op)
    requires t.state != Working
    ensures Do(t, op) == t.(cancelable := t.cancelable && op == Cancel)
  {
  }

  /** The inference of a task is stopped at most once, and only when the task ends canceled. */
  lemma {:induction false} CanceledOnce(t: Task, ops: seq<Op>)
    requires t.state == Working && t.cancels == 0
    ensures var r := DoAll(t, ops); r.cancels <= 1 && (r.cancels == 1 <==> r.state == Canceled && t.cancelable)
  {
    if ops != [] {
      FirstOpDecides(t, ops);
    }
  }

  class A2ATask {
    const id: string
    const ownerKeyID: string
    const workspaceID: string
    const owner: string := ownerKeyID + "\0" + workspaceID
    const createdAt: int
    var state: State
    var history: seq<string>
    var artifacts: seq<string>
    var note: Option<string>
    var cancelable: bool

    ghost var cancels: nat

    constructor (id: string, ownerKeyID: string, workspaceID: string, now: int, cancelable: bool)
      ensures this.id == id && this.ownerKeyID == ownerKeyID && this.workspaceID == workspaceID && createdAt == now
      ensures View() == Task(Working, [], [], None, cancelable, 0)
    {
      this.id, this.ownerKeyID, this.workspaceID, createdAt := id, ownerKeyID, workspaceID, now;
      state, history, artifacts, note, this.cancelable, cancels := Working, [], [], None, cancelable, 0;
    }

    ghost function View(): Task
      reads this
    {
      Task(state, history, artifacts, note, cancelable, cancels)
    }

    predicate OwnedBy(keyID: string, workspaceID: string) {
      ownerKeyID == keyID && this.workspaceID == workspaceID
    }

    method RequestCancel() returns (stopped: bool)
      modifies this
      ensures View() == Do(old(View()), Cancel) && Terminal(state) && stopped == (old(state) == Working)
    {
      if Terminal(state) {
        return false;
      }
      state := Canceled;
      if cancelable {
        cancels := cancels + 1;
      }
      stopped := true;
    }

    method Finish(message: string, artifact: string)
      modifies this
      ensures View() == Do(old(View()), Complete(message, artifact)) && Terminal(state)
    {
      if state == Working {
        history := history + [message];
        artifacts := artifacts + [artifact];
        state := Completed;
      }
      cancelable := false;
    }

    method GiveUp(text: string)
      modifies this
      ensures View() == Do(old(View()), Fail(text)) && Terminal(state)
    {
      if state == Working {
        state := Failed;
        note := Some(text);
      }
      cancelable := false;
    }
  }

  // ---- The registry ----

  const PRUNE_INTERVAL := 60

  /** Tasks by id, and each owner's tasks in the order they were created. */
  datatype Registry = Registry(tasks: map<string, A2ATask>, owners: map<string, seq<A2ATask>>)

  ghost predicate Listed(owners: map<string, seq<A2ATask>>, t: A2ATask) {
    t.owner in owners && exists i :: 0 <= i < |owners[t.owner]| && owners[t.owner][i] == t
  }

  /** One owner's list: not empty, only its own tasks, each registered and once. */
  ghost predicate ListOk(tasks: map<string, A2ATask>, owner: string, list: seq<A2ATask>) {
    && (forall i :: 0 <= i < |list| ==> list[i].owner == owner && list[i].id in tasks && tasks[list[i].id] == list[i])
    && (forall i, j :: 0 <= i < j < |list| ==> list[i].id != list[j].id)
  }

  function Sizes(owners: map<string, seq<A2ATask>>): map<string, int> {
    map o | o in owners :: |owners[o]|
  }

  /** Both indexes hold the same tasks, and no owner's list is empty. */
  ghost predicate Sound(r: Registry) {
    && (forall id :: id in r.tasks ==> r.tasks[id].id == id && Listed(r.owners, r.tasks[id]))
    && (forall o :: o in r.owners ==> r.owners[o] != [] && ListOk(r.tasks, o, r.owners[o]))
    && Sum(Sizes(r.owners)) == |r.tasks|
  }

  function With(owners: map<string, seq<A2ATask>>, o: string, list: seq<A2ATask>): map<string, seq<A2ATask>> {
    if list == [] then owners - {o} else owners[o := list]
  }

  function Without(list: seq<A2ATask>, i: nat): (r: seq<A2ATask>)
    requires i < |list|
    ensures |r| == |list| - 1 && forall k :: 0 <= k < |r| ==> r[k] == list[if k < i then k else k + 1]
  {
    list[..i] + list[i + 1..]
  }

  function Removed(r: Registry, o: string, i: nat): Registry
    requires o in r.owners && i < |r.owners[o]|
  {
    Registry(r.tasks - {r.owners[o][i].id}, With(r.owners, o, Without(r.owners[o], i)))
  }

  function ListOf(owners: map<string, seq<A2ATask>>, o: string): seq<A2ATask> {
    if o in owners then owners[o] else []
  }

  function Inserted(r: Registry, t: A2ATask): Registry {
    Registry(r.tasks[t.id := t], r.owners[t.owner := ListOf(r.owners, t.owner) + [t]])
  }

  lemma {:induction false} WithSizes(owners: map<string, seq<A2ATask>>, o: string, list: seq<A2ATask>)
    ensures Sum(Sizes(With(owners, o, list))) == Sum(Sizes(owners)) - Get(Sizes(owners), o) + |list|
  {
    if list == [] {
      assert Sizes(owners - {o}) == Sizes(owners) - {o};
      SumDrop(Sizes(owners), o);
    } else {
      assert Sizes(owners[o := list]) == Sizes(owners)[o := |list|];
      SumUpdate(Sizes(owners), o, |list|);
    }
  }

  lemma {:induction false} StillListed(owners: map<string, seq<A2ATask>>, o: string, i: nat, t: A2ATask)
    requires o in owners && i < |owners[o]| && Listed(owners, t) && t != owners[o][i]
    ensures Listed(With(owners, o, Without(owners[o], i)), t)
  {
    var k :| 0 <= k < |owners[t.owner]| && owners[t.owner][k] == t;
    if t.owner == o {
      var rest := Without(owners[o], i);
      assert rest[if k < i then k else k - 1] == t;
    } else {
      assert With(owners, o, Without(owners[o], i))[t.owner][k] == t;
    }
  }

  lemma {:induction false} ListStaysOk(tasks: map<string, A2ATask>, o: string, list: seq<A2ATask>, i: nat)
    requires ListOk(tasks, o, list) && i < |list|
    ensures ListOk(tasks - {list[i].id}, o, Without(list, i))
  {
  }

  lemma {:induction false} OtherListStaysOk(tasks: map<string, A2ATask>, o: string, list: seq<A2ATask>, gone: A2ATask)
    requires ListOk(tasks, o, list) && gone.owner != o && gone.id in tasks && tasks[gone.id] == gone
    ensures ListOk(tasks - {gone.id}, o, list)
  {
    assert forall k :: 0 <= k < |list| && list[k].id == gone.id ==> list[k] == gone;
  }

  lemma {:induction false} RemovedSound(r: Registry, o: string, i: nat)
    requires Sound(r) && o in r.owners && i < |r.owners[o]|
    ensures Sound(Removed(r, o, i)) && |Removed(r, o, i).tasks| == |r.tasks| - 1
  {
    var list, gone, r' := r.owners[o], r.owners[o][i], Removed(r, o, i);
    assert ListOk(r.tasks, o, list);
    WithSizes(r.owners, o, Without(list, i));
    assert r'.tasks.Keys == r.tasks.Keys - {gone.id};
    forall id | id in r'.tasks ensures r'.tasks[id].id == id && Listed(r'.owners, r'.tasks[id]) {
      StillListed(r.owners, o, i, r.tasks[id]);
    }
    forall p | p in r'.owners ensures r'.owners[p] != [] && ListOk(r'.tasks, p, r'.owners[p]) {
      assert ListOk(r.tasks, p, r.owners[p]);
      if p == o {
        ListStaysOk(r.tasks, o, list, i);
      } else {
        OtherListStaysOk(r.tasks, p, r.owners[p], gone);
      }
    }
  }

  lemma {:induction false} ListedMore(owners: map<string, seq<A2ATask>>, t: A2ATask, u: A2ATask)
    requires Listed(owners, u)
    ensures Listed(owners[t.owner := ListOf(owners, t.owner) + [t]], u)
  {
    var k :| 0 <= k < |owners[u.owner]| && owners[u.owner][k] == u;
    assert owners[t.owner := ListOf(owners, t.owner) + [t]][u.owner][k] == u;
  }

  lemma {:induction false} ListOkMore(tasks: map<string, A2ATask>, o: string, list: seq<A2ATask>, t: A2ATask)
    requires ListOk(tasks, o, list) && t.id !in tasks
    ensures ListOk(tasks[t.id := t], o, list)
    ensures t.owner == o ==> ListOk(tasks[t.id := t], o, list + [t])
  {
  }

  lemma {:induction false} InsertedSound(r: Registry, t: A2ATask)
    requires Sound(r) && t.id !in r.tasks
    ensures Sound(Inserted(r, t)) && |Inserted(r, t).tasks| == |r.tasks| + 1
  {
    hide Listed, ListOk;
    var list, r' := ListOf(r.owners, t.owner), Inserted(r, t);
    WithSizes(r.owners, t.owner, list + [t]);
    assert r'.tasks.Keys == r.tasks.Keys + {t.id};
    forall id | id in r'.tasks ensures r'.tasks[id].id == id && Listed(r'.owners, r'.tasks[id]) {
      InsertedListed(r, t, id);
    }
    forall p | p in r'.owners ensures r'.owners[p] != [] && ListOk(r'.tasks, p, r'.owners[p]) {
      InsertedListOk(r, t, p);
    }
  }

  lemma {:induction false} InsertedListed(r: Registry, t: A2ATask, id: string)
    requires Sound(r) && id in Inserted(r, t).tasks
    ensures Inserted(r, t).tasks[id].id == id && Listed(Inserted(r, t).owners, Inserted(r, t).tasks[id])
  {
    if id == t.id {
      var list := ListOf(r.owners, t.owner) + [t];
      assert list[|list| - 1] == t;
    } else {
      ListedMore(r.owners, t, r.tasks[id]);
    }
  }

  lemma {:induction false} InsertedListOk(r: Registry, t: A2ATask, p: string)
    requires Sound(r) && t.id !in r.tasks && p in Inserted(r, t).owners
    ensures Inserted(r, t).owners[p] != [] && ListOk(Inserted(r, t).tasks, p, Inserted(r, t).owners[p])
  {
    assert p in r.owners ==> ListOk(r.tasks, p, r.owners[p]);
    ListOkMore(r.tasks, p, ListOf(r.owners, p), t);
  }

  /** The largest of n owners holds at least the n-th part of all tasks. */
  lemma {:induction false} LargestHoldsShare(r: Registry, largest: string)
    requires Sound(r) && largest in r.owners && forall o :: o in r.owners ==> |r.owners[o]| <= |r.owners[largest]|
    ensures |r.tasks| <= |r.owners| * |r.owners[largest]|
  {
    var size := |r.owners[largest]|;
    var flat := map o | o in r.owners :: size;
    SumLe(Sizes(r.owners), flat);
    SumFlat(flat, size);
    assert flat.Keys == r.owners.Keys;
  }

  lemma {:induction false} SumFlat(m: map<string, int>, size: int)
    requires forall k :: k in m ==> m[k] == size
    ensures Sum(m) == |m| * size
    decreases |m|
  {
    if m != map[] {
      var k :| k in m;
      SumPick(m, k);
      assert (m - {k}).Keys == m.Keys - {k};
      SumFlat(m - {k}, size);
      assert |m| * size == (|m| - 1) * size + size;
    }
  }

  // ---- Expiry ----

  function Live(list: seq<A2ATask>, cutoff: int): seq<A2ATask> {
    if list == [] then []
    else
      var t := list[|list| - 1];
      Live(list[..|list| - 1], cutoff) + if t.createdAt < cutoff then [] else [t]
  }

  /** The tasks at `picked`, in order, are those that have not expired. */
  ghost predicate KeepsLive(live: seq<A2ATask>, list: seq<A2ATask>, cutoff: int, picked: seq<nat>) {
    && Increasing(picked) && |live| == |picked|
    && (forall i: nat :: i in picked <==> i < |list| && list[i].createdAt >= cutoff)
    && (forall k :: 0 <= k < |live| ==> picked[k] < |list| && live[k] == list[picked[k]])
  }

  /** Expiry keeps the live tasks in their order. */
  lemma {:induction false} LiveKeeps(list: seq<A2ATask>, cutoff: int) returns (picked: seq<nat>)
    ensures KeepsLive(Live(list, cutoff), list, cutoff, picked)
  {
    picked := [];
    if list != [] {
      var n := |list| - 1;
      picked := LiveKeeps(list[..n], cutoff);
      LiveMore(Live(list[..n], cutoff), list, cutoff, picked);
      hide KeepsLive;
      if list[n].createdAt >= cutoff {
        picked := picked + [n];
      } else {
        assert Live(list[..n], cutoff) + [] == Live(list[..n], cutoff);
      }
    }
  }

  lemma {:induction false} LiveMore(live: seq<A2ATask>, list: seq<A2ATask>, cutoff: int, picked: seq<nat>)
    requires list != [] && KeepsLive(live, list[..|list| - 1], cutoff, picked)
    ensures var n := |list| - 1;
            if list[n].createdAt >= cutoff then KeepsLive(live + [list[n]], list, cutoff, picked + [n]) else KeepsLive(live, list, cutoff, picked)
  {
    var n := |list| - 1;
    forall k | 0 <= k < |picked| ensures picked[k] < n && list[..n][picked[k]] == list[picked[k]] {
      assert picked[k] in picked;
    }
    forall i: nat | i < n ensures list[..n][i] == list[i] {
    }
  }

  ghost function DeadIds(list: seq<A2ATask>, cutoff: int): set<string> {
    if list == [] then {}
    else
      var t := list[|list| - 1];
      DeadIds(list[..|list| - 1], cutoff) + if t.createdAt < cutoff then {t.id} else {}
  }

  lemma {:induction false} DeadIdsAre(list: seq<A2ATask>, cutoff: int)
    ensures forall i :: 0 <= i < |list| && Expired(list[i], cutoff) ==> list[i].id in DeadIds(list, cutoff)
    ensures forall id :: id in DeadIds(list, cutoff) ==> exists i :: 0 <= i < |list| && list[i].id == id && Expired(list[i], cutoff)
  {
    if list != [] {
      var n := |list| - 1;
      DeadIdsAre(list[..n], cutoff);
      forall id | id in DeadIds(list, cutoff) ensures exists i :: 0 <= i < |list| && list[i].id == id && Expired(list[i], cutoff) {
        if id in DeadIds(list[..n], cutoff) {
          var i :| 0 <= i < n && list[..n][i].id == id && Expired(list[..n][i], cutoff);
          assert list[i].id == id && Expired(list[i], cutoff);
        }
      }
      forall i | 0 <= i < |list| && Expired(list[i], cutoff) ensures list[i].id in DeadIds(list, cutoff) {
        if i < n {
          assert list[..n][i] == list[i];
        }
      }
    }
  }

  /** The dead ids of an owner's list are those of its expired tasks. */
  lemma {:induction false} DeadAreExpired(r: Registry, o: string, cutoff: int)
    requires Sound(r) && o in r.owners
    ensures Expelled(r.tasks, r.tasks - DeadIds(r.owners[o], cutoff), {o}, cutoff)
  {
    var list := r.owners[o];
    DeadIdsAre(list, cutoff);
    assert ListOk(r.tasks, o, list);
    forall id | id in r.tasks ensures id in DeadIds(list, cutoff) <==> r.tasks[id].owner == o && Expired(r.tasks[id], cutoff) {
      assert Listed(r.owners, r.tasks[id]);
    }
  }

  predicate Expired(t: A2ATask, cutoff: int) {
    t.createdAt < cutoff
  }

  /** The tasks of `old` without the expired ones of some owners. */
  ghost predicate Expelled(before: map<string, A2ATask>, after: map<string, A2ATask>, owners: set<string>, cutoff: int) {
    forall id :: (id in after <==> id in before && !(before[id].owner in owners && Expired(before[id], cutoff)))
              && (id in after ==> after[id] == before[id])
  }

  /** The lists of these owners keep their live tasks in order; the others are untouched. */
  ghost predicate Filtered(before: map<string, seq<A2ATask>>, after: map<string, seq<A2ATask>>, owners: set<string>, cutoff: int) {
    forall o :: LiveList(before, o, owners, cutoff) == ListOf(after, o)
  }

  ghost function LiveList(before: map<string, seq<A2ATask>>, o: string, owners: set<string>, cutoff: int): seq<A2ATask> {
    if o !in before then [] else if o in owners then Live(before[o], cutoff) else before[o]
  }

  lemma {:induction false} WithTwice(owners: map<string, seq<A2ATask>>, o: string, a: seq<A2ATask>, b: seq<A2ATask>)
    ensures With(With(owners, o, a), o, b) == With(owners, o, b)
  {
    if b == [] {
      assert With(owners, o, a) - {o} == owners - {o};
    }
  }

  lemma {:induction false} WithoutMiddle(kept: seq<A2ATask>, t: A2ATask, rest: seq<A2ATask>)
    ensures (kept + [t] + rest)[|kept|] == t && Without(kept + [t] + rest, |kept|) == kept + rest
  {
  }

  lemma {:induction false} DropNext(r: Registry, owners: map<string, seq<A2ATask>>, o: string, kept: seq<A2ATask>, t: A2ATask, rest: seq<A2ATask>)
    requires Sound(r) && r.owners == With(owners, o, kept + [t] + rest)
    ensures Sound(Registry(r.tasks - {t.id}, With(owners, o, kept + rest)))
  {
    var list := kept + [t] + rest;
    WithoutMiddle(kept, t, rest);
    assert list != [];
    RemovedSound(r, o, |kept|);
    WithTwice(owners, o, list, kept + rest);
    assert Removed(r, o, |kept|) == Registry(r.tasks - {t.id}, With(owners, o, kept + rest));
  }

  lemma {:induction false} MinusTwice<K, V>(m: map<K, V>, a: set<K>, b: set<K>)
    ensures m - a - b == m - (a + b)
  {
  }

  lemma {:induction false} KeptRest(kept: seq<A2ATask>, list: seq<A2ATask>, i: nat)
    requires i < |list|
    ensures kept + list[i..] == kept + [list[i]] + list[i + 1..]
  {
  }

  /** The registry when the first `i` tasks of an owner were looked at. */
  ghost function Midway(r: Registry, o: string, list: seq<A2ATask>, i: nat, cutoff: int): Registry
    requires i <= |list|
  {
    Registry(r.tasks - DeadIds(list[..i], cutoff), With(r.owners, o, Live(list[..i], cutoff) + list[i..]))
  }

  lemma {:induction false} KeepNext(r: Registry, o: string, list: seq<A2ATask>, i: nat, cutoff: int)
    requires i < |list| && Sound(Midway(r, o, list, i, cutoff))
    ensures Sound(Midway(r, o, list, i + 1, cutoff))
    ensures r.tasks - DeadIds(list[..i + 1], cutoff)
         == if list[i].createdAt < cutoff then r.tasks - DeadIds(list[..i], cutoff) - {list[i].id} else r.tasks - DeadIds(list[..i], cutoff)
    ensures Live(list[..i + 1], cutoff) == if list[i].createdAt < cutoff then Live(list[..i], cutoff) else Live(list[..i], cutoff) + [list[i]]
  {
    var kept := Live(list[..i], cutoff);
    LiveNext(list, i, cutoff);
    KeptRest(kept, list, i);
    if list[i].createdAt < cutoff {
      DropNext(Midway(r, o, list, i, cutoff), r.owners, o, kept, list[i], list[i + 1..]);
      MinusTwice(r.tasks, DeadIds(list[..i], cutoff), {list[i].id});
    }
  }

  lemma {:induction false} MidwayEnds(r: Registry, o: string, list: seq<A2ATask>, cutoff: int)
    requires o in r.owners && r.owners[o] == list && list != []
    ensures Midway(r, o, list, 0, cutoff) == r
    ensures Midway(r, o, list, |list|, cutoff) == Registry(r.tasks - DeadIds(list, cutoff), With(r.owners, o, Live(list, cutoff)))
  {
    assert list[0..] == list && list[..0] == [] && [] + list == list && r.tasks - {} == r.tasks;
    assert list[..|list|] == list && Live(list, cutoff) + list[|list|..] == Live(list, cutoff);
  }

  /** Filters one owner's list in place. */
  method KeepLive(ghost r: Registry, ghost o: string, tasks: map<string, A2ATask>, list: seq<A2ATask>, cutoff: int)
    returns (kept: seq<A2ATask>, left: map<string, A2ATask>)
    requires Sound(r) && r.tasks == tasks && o in r.owners && r.owners[o] == list
    ensures kept == Live(list, cutoff) && left == tasks - DeadIds(list, cutoff)
    ensures Sound(Registry(left, With(r.owners, o, kept)))
  {
    kept, left := [], tasks;
    MidwayEnds(r, o, list, cutoff);
    assert list[..0] == [] && tasks - DeadIds([], cutoff) == tasks && Live([], cutoff) == [];
    hide Sound, Live, DeadIds, With, Midway;
    for i := 0 to |list|
      invariant kept == Live(list[..i], cutoff) && left == tasks - DeadIds(list[..i], cutoff)
      invariant Sound(Midway(r, o, list, i, cutoff))
    {
      KeepNext(r, o, list, i, cutoff);
      if list[i].createdAt < cutoff {
        left := left - {list[i].id};
      } else {
        kept := kept + [list[i]];
      }
    }
    assert list[..|list|] == list;
  }

  lemma {:induction false} LiveNext(list: seq<A2ATask>, i: nat, cutoff: int)
    requires i < |list|
    ensures if list[i].createdAt < cutoff
            then Live(list[..i + 1], cutoff) == Live(list[..i], cutoff) && DeadIds(list[..i + 1], cutoff) == DeadIds(list[..i], cutoff) + {list[i].id}
            else Live(list[..i + 1], cutoff) == Live(list[..i], cutoff) + [list[i]] && DeadIds(list[..i + 1], cutoff) == DeadIds(list[..i], cutoff)
  {
    assert list[..i + 1][..i] == list[..i];
  }

  /** Exactly the expired tasks are gone, from both indexes, and the others kept their order. */
  ghost predicate Pruned(before: Registry, after: Registry, cutoff: int) {
    && (forall id :: id in after.tasks <==> id in before.tasks && !Expired(before.tasks[id], cutoff))
    && (forall id :: id in after.tasks ==> after.tasks[id] == before.tasks[id])
    && (forall o :: o in after.owners || o in before.owners ==> ListOf(after.owners, o) == Live(ListOf(before.owners, o), cutoff))
  }

  lemma {:induction false} AllPruned(before: Registry, after: Registry, done: set<string>, cutoff: int)
    requires Sound(before) && done == before.owners.Keys
    requires Expelled(before.tasks, after.tasks, done, cutoff) && Filtered(before.owners, after.owners, done, cutoff)
    ensures Pruned(before, after, cutoff)
  {
    forall id ensures id in after.tasks <==> id in before.tasks && !Expired(before.tasks[id], cutoff) {
      assert id in before.tasks ==> Listed(before.owners, before.tasks[id]);
    }
    forall o ensures ListOf(after.owners, o) == Live(ListOf(before.owners, o), cutoff) {
      assert LiveList(before.owners, o, done, cutoff) == ListOf(after.owners, o);
    }
  }

  lemma {:induction false} NothingPruned(r: Registry, cutoff: int)
    ensures Expelled(r.tasks, r.tasks, {}, cutoff) && Filtered(r.owners, r.owners, {}, cutoff)
  {
  }

  lemma {:induction false} ExpelledMore(first: map<string, A2ATask>, before: map<string, A2ATask>, after: map<string, A2ATask>, owners: set<string>, o: string, cutoff: int)
    requires Expelled(first, before, owners, cutoff) && Expelled(before, after, {o}, cutoff)
    ensures Expelled(first, after, owners + {o}, cutoff)
  {
  }

  lemma {:induction false} FilteredMore(first: map<string, seq<A2ATask>>, before: map<string, seq<A2ATask>>, owners: set<string>, o: string, cutoff: int)
    requires Filtered(first, before, owners, cutoff) && o in before && o !in owners
    ensures Filtered(first, With(before, o, Live(before[o], cutoff)), owners + {o}, cutoff)
  {
    var after := With(before, o, Live(before[o], cutoff));
    forall p ensures LiveList(first, p, owners + {o}, cutoff) == ListOf(after, p) {
      assert LiveList(first, p, owners, cutoff) == ListOf(before, p);
    }
  }

  /** No list got longer, and no owner is new. */
  ghost predicate Shorter(before: map<string, seq<A2ATask>>, after: map<string, seq<A2ATask>>) {
    forall o :: o in after ==> o in before && |after[o]| <= |before[o]|
  }

  lemma {:induction false} FewerTasks(m: map<string, A2ATask>, gone: set<string>)
    ensures |m - gone| <= |m|
  {
    var rest := m - gone;
    assert m.Keys == rest.Keys + (m.Keys * gone);
  }

  lemma {:induction false} LiveShorter(list: seq<A2ATask>, cutoff: int)
    ensures |Live(list, cutoff)| <= |list|
  {
    if list != [] {
      LiveShorter(list[..|list| - 1], cutoff);
    }
  }

  /** The expiry sweep runs at most once a minute. */
  predicate PruneDue(last: Option<int>, now: int) {
    last.None? || now - last.value >= PRUNE_INTERVAL
  }

  class A2ATaskStore {
    const max: nat
    const maxPerOwner: nat
    const ttl: int
    var tasks: map<string, A2ATask>
    var owners: map<string, seq<A2ATask>>
    var lastPrune: Option<int>

    function View(): Registry
      reads this
    {
      Registry(tasks, owners)
    }

    /** Both indexes agree and both caps hold. */
    ghost predicate Valid()
      reads this
    {
      && max >= 1 && maxPerOwner >= 1
      && Sound(View()) && |tasks| <= max && forall o :: o in owners ==> |owners[o]| <= maxPerOwner
    }

    constructor (max: nat, maxPerOwner: nat, ttl: int)
      requires max >= 1 && maxPerOwner >= 1
      ensures Valid() && tasks == map[]
      ensures this.max == max && this.maxPerOwner == maxPerOwner && this.ttl == ttl
    {
      this.max, this.maxPerOwner, this.ttl := max, maxPerOwner, ttl;
      tasks, owners, lastPrune := map[], map[], None;
      assert Sizes(map[]) == map[];
    }

    /** Takes an owner's expired tasks out of both indexes, keeping the others in order. */
    method PruneOwner(o: string, cutoff: int)
      requires Sound(View()) && o in owners
      modifies `tasks, `owners
      ensures Sound(View())
      ensures owners == With(old(owners), o, Live(old(owners[o]), cutoff))
      ensures Expelled(old(tasks), tasks, {o}, cutoff)
      ensures |tasks| <= |old(tasks)| && Shorter(old(owners), owners)
    {
      var list := owners[o];
      LiveShorter(list, cutoff);
      FewerTasks(tasks, DeadIds(list, cutoff));
      DeadAreExpired(View(), o, cutoff);
      var kept: seq<A2ATask>;
      kept, tasks := KeepLive(View(), o, tasks, list, cutoff);
      if |kept| == 0 {
        owners := owners - {o};
      } else {
        owners := owners[o := kept];
      }
    }

    /** Takes all expired tasks out of both indexes. */
    method Prune(now: int)
      requires Valid()
      modifies `tasks, `owners, `lastPrune
      ensures Valid() && lastPrune == Some(now)
      ensures Pruned(old(View()), View(), now - ttl)
    {
      hide Pruned, Sound;
      lastPrune := Some(now);
      PruneOwners(now - ttl);
    }

    method PruneOwners(cutoff: int)
      requires Sound(View())
      modifies `tasks, `owners
      ensures Sound(View()) && Pruned(old(View()), View(), cutoff)
      ensures |tasks| <= |old(tasks)| && Shorter(old(owners), owners)
    {
      hide Pruned, Sound, Expelled, Filtered;
      ghost var start := View();
      NothingPruned(start, cutoff);
      var rest := owners.Keys;
      ghost var done: set<string> := {};
      while rest != {}
        invariant Sound(View()) && |tasks| <= |start.tasks| && Shorter(start.owners, owners)
        invariant done + rest == start.owners.Keys && done !! rest && rest <= owners.Keys
        invariant Expelled(start.tasks, tasks, done, cutoff) && Filtered(start.owners, owners, done, cutoff)
        decreases rest
      {
        var o := Pick(rest);
        ghost var before := View();
        PruneOwner(o, cutoff);
        ExpelledMore(start.tasks, before.tasks, tasks, done, o, cutoff);
        FilteredMore(start.owners, before.owners, done, o, cutoff);
        done := done + {o};
        rest := rest - {o};
      }
      AllPruned(start, View(), done, cutoff);
    }

    method LargestOwner() returns (largest: string)
      ensures owners != map[] ==> largest in owners && forall o :: o in owners ==> |owners[o]| <= |owners[largest]|
    {
      var size := -1;
      largest := "";
      var rest := owners.Keys;
      while rest != {}
        invariant rest <= owners.Keys
        invariant size == -1 ==> rest == owners.Keys
        invariant size >= 0 ==> largest in owners && size == |owners[largest]|
        invariant size >= -1 && forall o :: o in owners && o !in rest ==> |owners[o]| <= size
        decreases rest
      {
        var o := Pick(rest);
        if |owners[o]| > size {
          largest, size := o, |owners[o]|;
        }
        rest := rest - {o};
      }
    }

    method OldestEnded(list: seq<A2ATask>, ghost ended: set<A2ATask>) returns (index: nat)
      requires list != [] && forall i :: 0 <= i < |list| ==> (list[i] in ended <==> Terminal(list[i].state))
      ensures index < |list| && Chosen(list, index, ended)
    {
      for i := 0 to |list|
        invariant forall k :: 0 <= k < i ==> list[k] !in ended
      {
        if Terminal(list[i].state) {
          return i;
        }
      }
      index := 0;
    }

    /** Once a task left the registry no one could cancel it any more. */
    method CancelEvicted(gone: A2ATask, ghost v: Candidate, ghost was: map<A2ATask, Task>)
      requires v.Victim? && v.task == gone && Cancels(was, NoOne)
      modifies gone
      ensures Cancels(was, v)
    {
      var stopped := gone.RequestCancel();
    }

    /** Takes a task out of both indexes. */
    method Unlist(o: string, index: nat)
      requires Sound(View()) && o in owners && index < |owners[o]|
      modifies `tasks, `owners
      ensures Sound(View()) && View() == Removed(old(View()), o, index) && |tasks| == |old(tasks)| - 1
    {
      RemovedSound(View(), o, index);
      hide Sound;
      var rest := Without(owners[o], index);
      tasks := tasks - {owners[o][index].id};
      if |rest| == 0 {
        owners := owners - {o};
      } else {
        owners := owners[o := rest];
      }
    }

    method OldestOf(o: string, ghost ended: set<A2ATask>) returns (index: nat)
      requires Sound(View()) && o in owners && Knows(tasks, ended)
      ensures index < |owners[o]| && IsVictim(Victim(o, index, owners[o][index]), View(), ended)
    {
      assert ListOk(tasks, o, owners[o]);
      assert forall i :: 0 <= i < |owners[o]| ==> owners[o][i] in tasks.Values;
      hide ListOk, Listed;
      index := OldestEnded(owners[o], ended);
    }

    /** Drops one task of the owner and cancels it if it is still working. */
    method Evict(o: string, ghost ended: set<A2ATask>, ghost was: map<A2ATask, Task>) returns (ghost v: Candidate)
      requires Sound(View()) && o in owners && Knows(tasks, ended) && Cancels(was, NoOne)
      modifies `tasks, `owners, tasks.Values
      ensures IsVictim(v, old(View()), ended) && v.owner == o
      ensures Sound(View()) && View() == Removed(old(View()), o, v.index) && |tasks| == |old(tasks)| - 1
      ensures Cancels(was, v)
    {
      hide Sound, Knows, Cancels;
      var index := OldestOf(o, ended);
      var gone := owners[o][index];
      v := Victim(o, index, gone);
      assert gone in tasks.Values;
      Unlist(o, index);
      CancelEvicted(gone, v, was);
    }

    /** Makes the owner with the most tasks give one up. */
    method EvictLargest(ghost ended: set<A2ATask>, ghost was: map<A2ATask, Task>) returns (ghost v: Candidate)
      requires Sound(View()) && |tasks| > 0 && Knows(tasks, ended) && Cancels(was, NoOne)
      modifies `tasks, `owners, tasks.Values
      ensures IsVictim(v, old(View()), ended) && Largest(old(owners), v.owner)
      ensures |old(tasks)| <= |old(owners)| * |old(owners)[v.owner]|
      ensures Sound(View()) && View() == Removed(old(View()), v.owner, v.index) && |tasks| == |old(tasks)| - 1
      ensures Cancels(was, v)
    {
      NotEmpty(View());
      var largest := LargestOwner();
      LargestHoldsShare(View(), largest);
      hide Sound, Knows, Cancels, Chosen;
      v := Evict(largest, ended, was);
    }

    /** At the owner's cap one of its own tasks makes room. */
    method MakeRoomFor(o: string, ghost ended: set<A2ATask>, ghost was: map<A2ATask, Task>) returns (ghost v: Candidate)
      requires Sound(View()) && 1 <= maxPerOwner && |ListOf(owners, o)| <= maxPerOwner
      requires Knows(tasks, ended) && KnowsIn(was, ended) && tasks.Values <= was.Keys && Cancels(was, NoOne)
      modifies `tasks, `owners, tasks.Values
      ensures Sound(View()) && Cancels(was, v)
      ensures if |ListOf(old(owners), o)| < maxPerOwner then v.NoOne? else IsVictim(v, old(View()), ended) && v.owner == o
      ensures View() == After(old(View()), v)
    {
      v := NoOne;
      hide Sound, Chosen, Cancels, Knows, KnowsIn;
      ghost var before := View();
      while o in owners && |owners[o]| >= maxPerOwner
        invariant Sound(View()) && Cancels(was, v) && View() == After(before, v)
        invariant v.Victim? ==> |ListOf(before.owners, o)| >= maxPerOwner && IsVictim(v, before, ended) && v.owner == o
        invariant v.Victim? ==> |ListOf(owners, o)| < maxPerOwner
        decreases |tasks|
      {
        StillKnown(tasks, ended, was);
        v := Evict(o, ended, was);
        RemovedFacts(before, o, v.index);
      }
    }

    /** At the global cap the owner with the most tasks gives one up. */
    method MakeRoom(ghost ended: set<A2ATask>, ghost was: map<A2ATask, Task>) returns (ghost v: Candidate)
      requires Sound(View()) && 1 <= max && |tasks| <= max
      requires Knows(tasks, ended) && KnowsIn(was, ended) && tasks.Values <= was.Keys && Cancels(was, NoOne)
      modifies `tasks, `owners, tasks.Values
      ensures Sound(View()) && Cancels(was, v)
      ensures if |old(tasks)| < max then v.NoOne?
              else IsVictim(v, old(View()), ended) && Largest(old(owners), v.owner) && |old(tasks)| <= |old(owners)| * |old(owners)[v.owner]|
      ensures View() == After(old(View()), v)
    {
      v := NoOne;
      hide Sound, Chosen, Largest, Cancels, Knows, KnowsIn;
      ghost var before := View();
      while |tasks| >= max
        invariant Sound(View()) && Cancels(was, v) && View() == After(before, v)
        invariant v.Victim? ==> |before.tasks| >= max && IsVictim(v, before, ended) && Largest(before.owners, v.owner)
        invariant v.Victim? ==> |before.tasks| <= |before.owners| * |before.owners[v.owner]| && |tasks| < max
        decreases |tasks|
      {
        StillKnown(tasks, ended, was);
        v := EvictLargest(ended, was);
      }
    }

    method Insert(task: A2ATask)
      requires Sound(View()) && task.id !in tasks
      modifies `tasks, `owners
      ensures Sound(View()) && View() == Inserted(old(View()), task) && |tasks| == |old(tasks)| + 1
    {
      InsertedSound(View(), task);
      tasks := tasks[task.id := task];
      owners := owners[task.owner := (if task.owner in owners then owners[task.owner] else []) + [task]];
    }

    /** Makes room under both caps, for which one task is enough. */
    method MakeRooms(o: string, ghost ended: set<A2ATask>, ghost was: map<A2ATask, Task>) returns (ghost v: Candidate)
      requires Valid() && Knows(tasks, ended) && KnowsIn(was, ended) && tasks.Values <= was.Keys && Cancels(was, NoOne)
      modifies `tasks, `owners, tasks.Values
      ensures Sound(View()) && Cancels(was, v)
      ensures Fair(v, old(View()), ended, o, max, maxPerOwner) && View() == After(old(View()), v)
    {
      ghost var before := View();
      assert |ListOf(owners, o)| <= maxPerOwner;
      hide Sound, Chosen, Largest, Knows, KnowsIn, Cancels;
      v := MakeRoomFor(o, ended, was);
      if v.Victim? {
        RemovedSound(before, v.owner, v.index);
        VictimGone(before, v, ended);
      }
      ghost var ended' := if v.Victim? then ended + {v.task} else ended;
      FirstCancelled(tasks, was, v, ended);
      hide IsVictim, Middle;
      ghost var second := MakeRoom(ended', Middle(was, v));
      SecondCancelled(was, v, second);
      if v.NoOne? {
        v := second;
      }
    }

    /**
       Registers a new task. Both caps hold afterwards and the task is there, last
       of its owner's. After the sweep at most one task makes room for it: at its
       owner's cap one of that owner's, else at the global cap one of an owner with
       the most tasks; the oldest ended one, or the oldest. It is cancelled if it
       was working, and nothing else changes.
     */
    method Put(task: A2ATask, now: int) returns (ghost pruned: Registry, ghost v: Candidate)
      requires Valid() && task.id !in tasks
      modifies this, tasks.Values
      ensures Valid()
      ensures if old(lastPrune).None? || now - old(lastPrune).value >= 60 then Pruned(old(View()), pruned, now - ttl)
              else pruned == old(View())
      ensures Fair(v, pruned, old(EndedOf(tasks)), task.owner, max, maxPerOwner)
      ensures View() == Inserted(After(pruned, v), task) && Cancels(old(ViewsOf(tasks)), v)
      ensures Registers(View(), pruned, v, task)
    {
      ghost var before, was, ended := View(), ViewsOf(tasks), EndedOf(tasks);
      Snapshots(tasks);
      hide Sound, Fair, ViewsOf, EndedOf, Pruned, Cancels, Knows, KnowsIn;
      PruneIfDue(now);
      pruned := View();
      FewerKnown(before.tasks, tasks, ended);
      v := PutBounded(task, ended, was);
      hide Registers, After, Inserted, IsVictim;
      PutRegisters(pruned, v, ended, task, max, maxPerOwner);
    }

    method PutBounded(task: A2ATask, ghost ended: set<A2ATask>, ghost was: map<A2ATask, Task>) returns (ghost v: Candidate)
      requires Valid() && task.id !in tasks
      requires Knows(tasks, ended) && KnowsIn(was, ended) && tasks.Values <= was.Keys && Cancels(was, NoOne)
      modifies `tasks, `owners, tasks.Values
      ensures Valid() && Cancels(was, v)
      ensures Fair(v, old(View()), ended, task.owner, max, maxPerOwner) && View() == Inserted(After(old(View()), v), task)
    {
      ghost var before := View();
      hide Sound, Knows, KnowsIn, Cancels;
      v := MakeRooms(task.owner, ended, was);
      RoomMade(before, v, ended, task.owner, max, maxPerOwner);
      Insert(task);
    }

    method PruneIfDue(now: int)
      requires Valid()
      modifies `tasks, `owners, `lastPrune
      ensures Valid()
      ensures if PruneDue(old(lastPrune), now) then Pruned(old(View()), View(), now - ttl) else View() == old(View())
      ensures tasks.Values <= old(tasks).Values && tasks.Keys <= old(tasks).Keys
    {
      if PruneDue(lastPrune, now) {
        Prune(now);
      }
    }

    /** A task is shown only to the key and workspace that created it, until it expires. */
    method Lookup(id: string, keyID: string, workspaceID: string, now: int) returns (task: A2ATask?)
      ensures var known := Texts.Trim(id);
              if known in tasks && tasks[known].ownerKeyID == keyID && tasks[known].workspaceID == workspaceID && now - tasks[known].createdAt <= ttl
              then task == tasks[known] else task == null
    {
      var known := Texts.Trim(id);
      if known !in tasks || !tasks[known].OwnedBy(keyID, workspaceID) {
        return null;
      }
      if now - tasks[known].createdAt > ttl {
        return null;
      }
      task := tasks[known];
    }
  }

  /** Who makes room for a new task: nobody, or the task at this place of an owner's list. */
  datatype Candidate = NoOne | Victim(owner: string, index: nat, task: A2ATask)

  ghost function EndedOf(tasks: map<string, A2ATask>): set<A2ATask>
    reads tasks.Values
  {
    set t | t in tasks.Values && Terminal(t.state)
  }

  /** `ended` tells which of the tasks have ended. */
  ghost predicate Knows(tasks: map<string, A2ATask>, ended: set<A2ATask>)
    reads tasks.Values
  {
    forall t :: t in tasks.Values ==> (t in ended <==> Terminal(t.state))
  }

  /** The oldest ended task of a list, or the oldest task when all are still working. */
  ghost predicate Chosen(list: seq<A2ATask>, index: nat, ended: set<A2ATask>)
    requires index < |list|
  {
    if list[index] in ended then forall i :: 0 <= i < index ==> list[i] !in ended
    else index == 0 && forall i :: 0 <= i < |list| ==> list[i] !in ended
  }

  ghost predicate IsVictim(v: Candidate, r: Registry, ended: set<A2ATask>) {
    && v.Victim? && v.owner in r.owners && v.index < |r.owners[v.owner]|
    && v.task == r.owners[v.owner][v.index] && v.task in r.tasks.Values && Chosen(r.owners[v.owner], v.index, ended)
  }

  ghost predicate Largest(owners: map<string, seq<A2ATask>>, largest: string) {
    largest in owners && forall o :: o in owners ==> |owners[o]| <= |owners[largest]|
  }

  /** At most one task goes; a full owner pays for itself, else an owner with the most tasks does, who holds its share of them. */
  ghost predicate Fair(v: Candidate, r: Registry, ended: set<A2ATask>, o: string, max: nat, maxPerOwner: nat) {
    if |ListOf(r.owners, o)| >= maxPerOwner then IsVictim(v, r, ended) && v.owner == o
    else if |r.tasks| >= max then
      IsVictim(v, r, ended) && Largest(r.owners, v.owner) && |r.tasks| <= |r.owners| * |r.owners[v.owner]|
    else v.NoOne?
  }

  /** The registry without the task that made room. */
  ghost function After(r: Registry, v: Candidate): Registry {
    if v.Victim? && v.owner in r.owners && v.index < |r.owners[v.owner]| then Removed(r, v.owner, v.index) else r
  }

  ghost function ViewsOf(tasks: map<string, A2ATask>): map<A2ATask, Task>
    reads tasks.Values
  {
    map t | t in tasks.Values :: t.View()
  }

  /** The tasks are as they were, but the one that made room is cancelled: once it left no one could cancel it any more. */
  ghost predicate Cancels(was: map<A2ATask, Task>, v: Candidate)
    reads was.Keys
  {
    forall t :: t in was ==> t.View() == if v.Victim? && t == v.task then Do(was[t], Cancel) else was[t]
  }

  lemma {:induction false} Snapshots(tasks: map<string, A2ATask>)
    ensures var was, ended := ViewsOf(tasks), EndedOf(tasks);
            Knows(tasks, ended) && KnowsIn(was, ended) && Cancels(was, NoOne) && was.Keys == tasks.Values
  {
  }

  predicate KnowsIn(was: map<A2ATask, Task>, ended: set<A2ATask>) {
    forall t :: t in was ==> (t in ended <==> Terminal(was[t].state))
  }

  lemma {:induction false} StillKnown(tasks: map<string, A2ATask>, ended: set<A2ATask>, was: map<A2ATask, Task>)
    requires KnowsIn(was, ended) && Cancels(was, NoOne) && tasks.Values <= was.Keys
    ensures Knows(tasks, ended)
  {
    forall t | t in tasks.Values ensures t in ended <==> Terminal(t.state) {
      assert t.View() == was[t];
    }
  }

  function Middle(was: map<A2ATask, Task>, v: Candidate): map<A2ATask, Task> {
    map t | t in was :: if v.Victim? && t == v.task then Do(was[t], Cancel) else was[t]
  }

  lemma {:induction false} FirstCancelled(tasks: map<string, A2ATask>, was: map<A2ATask, Task>, v: Candidate, ended: set<A2ATask>)
    requires Cancels(was, v) && KnowsIn(was, ended) && tasks.Values <= was.Keys
    ensures var middle, ended' := Middle(was, v), if v.Victim? then ended + {v.task} else ended;
            Cancels(middle, NoOne) && KnowsIn(middle, ended') && Knows(tasks, ended') && tasks.Values <= middle.Keys
  {
    var middle, ended' := Middle(was, v), if v.Victim? then ended + {v.task} else ended;
    assert middle.Keys == was.Keys;
    assert Cancels(middle, NoOne);
    StillKnown(tasks, ended', middle);
  }

  lemma {:induction false} SecondCancelled(was: map<A2ATask, Task>, v: Candidate, second: Candidate)
    requires Cancels(Middle(was, v), second) && (v.Victim? ==> second.NoOne?)
    ensures Cancels(was, if v.Victim? then v else second)
  {
    assert Middle(was, v).Keys == was.Keys;
    assert v.NoOne? ==> Middle(was, v) == was;
    hide Do;
  }

  lemma {:induction false} FewerKnown(before: map<string, A2ATask>, after: map<string, A2ATask>, ended: set<A2ATask>)
    requires Knows(before, ended) && after.Values <= before.Values
    ensures Knows(after, ended)
  {
  }

  /** Taking out one task under its id leaves the others. */
  lemma {:induction false} OthersLeft(tasks: map<string, A2ATask>, gone: A2ATask)
    requires (forall id :: id in tasks ==> tasks[id].id == id) && gone in tasks.Values
    ensures (tasks - {gone.id}).Values == tasks.Values - {gone}
  {
    var left := tasks - {gone.id};
    forall t | t in tasks.Values && t != gone ensures t in left.Values {
      assert tasks[t.id] == t && tasks[gone.id] == gone;
      assert left[t.id] == t;
    }
  }

  lemma {:induction false} VictimGone(r: Registry, v: Candidate, ended: set<A2ATask>)
    requires Sound(r) && IsVictim(v, r, ended)
    ensures v.task in r.tasks.Values && After(r, v).tasks.Values == r.tasks.Values - {v.task}
  {
    hide Chosen, ListOk, Listed;
    OthersLeft(r.tasks, v.task);
  }

  /** The new task is last of its owner's and under its id; of the others only the one that made room is gone. */
  ghost predicate Registers(r: Registry, before: Registry, v: Candidate, task: A2ATask) {
    && (forall id :: id in r.tasks <==> id == task.id || (id in before.tasks && !(v.Victim? && before.tasks[id] == v.task)))
    && (forall id :: id in r.tasks ==> r.tasks[id] == if id == task.id then task else before.tasks[id])
    && (forall o :: ListOf(r.owners, o) == RestOf(before.owners, o, v) + if o == task.owner then [task] else [])
    && |r.tasks| + (if v.Victim? then 1 else 0) == |before.tasks| + 1
  }

  /** An owner's list without the task that made room. */
  ghost function RestOf(owners: map<string, seq<A2ATask>>, o: string, v: Candidate): seq<A2ATask> {
    var list := ListOf(owners, o);
    if v.Victim? && v.owner == o && v.index < |list| then list[..v.index] + list[v.index + 1..] else list
  }

  lemma {:induction false} PutRegisters(r: Registry, v: Candidate, ended: set<A2ATask>, task: A2ATask, max: nat, maxPerOwner: nat)
    requires Sound(r) && task.id !in r.tasks && Fair(v, r, ended, task.owner, max, maxPerOwner)
    ensures Registers(Inserted(After(r, v), task), r, v, task)
  {
    hide After, Sound, IsVictim, Inserted, RestOf, ListOf;
    var middle := After(r, v);
    AfterIs(r, v, ended);
    assert task.id !in middle.tasks;
    hide Fair;
    InsertedIs(middle, task);
  }

  lemma {:induction false} AfterIs(r: Registry, v: Candidate, ended: set<A2ATask>)
    requires Sound(r) && (v.Victim? ==> IsVictim(v, r, ended))
    ensures var middle := After(r, v);
            && (forall id :: id in middle.tasks <==> id in r.tasks && !(v.Victim? && r.tasks[id] == v.task))
            && (forall id :: id in middle.tasks ==> middle.tasks[id] == r.tasks[id])
            && (forall o :: ListOf(middle.owners, o) == RestOf(r.owners, o, v))
            && |middle.tasks| + (if v.Victim? then 1 else 0) == |r.tasks|
  {
    if v.Victim? {
      RemovedSound(r, v.owner, v.index);
      assert ListOk(r.tasks, v.owner, r.owners[v.owner]);
    }
    hide ListOk, Listed, Chosen;
  }

  lemma {:induction false} InsertedIs(r: Registry, t: A2ATask)
    requires t.id !in r.tasks
    ensures var r' := Inserted(r, t);
            && (forall id :: id in r'.tasks <==> id in r.tasks || id == t.id)
            && (forall id :: id in r'.tasks ==> r'.tasks[id] == if id == t.id then t else r.tasks[id])
            && (forall o :: ListOf(r'.owners, o) == ListOf(r.owners, o) + if o == t.owner then [t] else [])
            && |r'.tasks| == |r.tasks| + 1
  {
    assert Inserted(r, t).tasks.Keys == r.tasks.Keys + {t.id};
  }

  /** One task fewer is room enough. */
  lemma {:induction false} RoomMade(r: Registry, v: Candidate, ended: set<A2ATask>, o: string, max: nat, maxPerOwner: nat)
    requires Sound(r) && |r.tasks| <= max && 1 <= max && 1 <= maxPerOwner
    requires (forall p :: p in r.owners ==> |r.owners[p]| <= maxPerOwner) && Fair(v, r, ended, o, max, maxPerOwner)
    ensures var r' := After(r, v);
            && |r'.tasks| < max && |ListOf(r'.owners, o)| < maxPerOwner && (forall id :: id in r'.tasks ==> id in r.tasks)
            && (forall p :: p in r'.owners ==> |r'.owners[p]| <= maxPerOwner)
  {
    if v.Victim? {
      RemovedSound(r, v.owner, v.index);
      RemovedFacts(r, v.owner, v.index);
    }
    hide Sound, Chosen, Largest;
  }

  lemma {:induction false} RemovedFacts(r: Registry, o: string, i: nat)
    requires o in r.owners && i < |r.owners[o]|
    ensures Shorter(r.owners, Removed(r, o, i).owners) && |ListOf(Removed(r, o, i).owners, o)| == |r.owners[o]| - 1
  {
  }

  lemma {:induction false} NotEmpty(r: Registry)
    requires Sound(r) && |r.tasks| > 0
    ensures r.owners != map[]
  {
    assert Sizes(map[]) == map[];
  }
}
