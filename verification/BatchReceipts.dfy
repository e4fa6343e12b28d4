/** The receipt store behind batch account operations: what one critical section
    of the store does to the in-memory receipts and to the receipt file. */
module BatchReceipts {
  import opened Basics

  const CAPACITY := 256
  const RETENTION_MS := 24 * 60 * 60 * 1000

  /** An identifier, request identifier or fingerprint: text that is only compared for equality. */
  type Token = nat
  const NONE: Token := 0

  datatype ItemStatus = Ready | Running | Succeeded | Failed | Stale | Unsupported | Interrupted

  datatype OperationState = OpPrepared | OpRunning | OpCompleted | OpInterrupted

  /** `target` stands for the bound action item that a retry passes on. */
  datatype Item = Item(target: Token, status: ItemStatus)

  /** NONE, the empty text, is the absent client request, fingerprint, retry or parent. */
  datatype Operation = Operation(
    id: Token, clientRequestId: Token, fingerprint: Token, state: OperationState,
    createdAt: int, expiresAt: int, items: seq<Item>, retryId: Token, parentId: Token)

  /** `broken` is the load error that makes every later save fail without writing. */
  datatype Store = Store(ops: map<Token, Operation>, disk: map<Token, Operation>, broken: bool) {
    function Save(w: Write): Store {
      if broken || w.Lost? then this else this.(disk := ops)
    }

    predicate Saved(w: Write) {
      !broken && w.Stored?
    }
  }

  predicate Unfinished(status: ItemStatus) {
    status == Ready || status == Running
  }

  predicate Terminal(state: OperationState) {
    state == OpCompleted || state == OpInterrupted
  }

  predicate Expired(op: Operation, now: int) {
    now - op.createdAt > RETENTION_MS
  }

  ghost predicate Keyed(m: map<Token, Operation>) {
    forall id :: id in m ==> m[id].id == id
  }

  ghost predicate UniqueClients(m: map<Token, Operation>) {
    forall a, b :: a in m && b in m && m[a].clientRequestId == m[b].clientRequestId != NONE ==> a == b
  }

  ghost predicate Ordered(m: map<Token, Operation>) {
    Keyed(m) && UniqueClients(m)
  }

  /** What survives the retention sweep of `insert`. */
  function Pruned(m: map<Token, Operation>, now: int): (r: map<Token, Operation>)
    ensures |r| <= |m|
  {
    var r := map id | id in m && (m[id].state == OpRunning || !Expired(m[id], now)) :: m[id];
    SubsetSize(r.Keys, m.Keys);
    r
  }

  function WithStatus(op: Operation, i: nat, status: ItemStatus): Operation
    requires i < |op.items|
  {
    op.(items := op.items[i := op.items[i].(status := status)])
  }

  /** Every unfinished item takes the given status, the others keep theirs. */
  function Settled(items: seq<Item>, status: ItemStatus): seq<Item> {
    seq(|items|, i requires 0 <= i < |items| =>
      if Unfinished(items[i].status) then items[i].(status := status) else items[i])
  }

  function CompletedForm(op: Operation): Operation {
    op.(items := Settled(op.items, Failed), state := OpCompleted)
  }

  /** A receipt as a restarted server sees it. */
  function Recovered(op: Operation): Operation {
    if op.state == OpRunning || op.state == OpPrepared then
      op.(items := Settled(op.items, Interrupted), state := OpInterrupted)
    else op
  }

  function RecoveredAll(disk: map<Token, Operation>, now: int): (r: map<Token, Operation>)
    ensures |r| <= |disk|
  {
    var r := map id | id in disk && !Expired(disk[id], now) :: Recovered(disk[id]);
    SubsetSize(r.Keys, disk.Keys);
    r
  }

  /** A new process on what the old one left on file. */
  function LoadStore(disk: map<Token, Operation>, now: int, w: Write): Store {
    var loaded := RecoveredAll(disk, now);
    Store(loaded, if w.Lost? then disk else loaded, !w.Stored?)
  }

  lemma RecoveredOrdered(m: map<Token, Operation>, now: int)
    requires Ordered(m)
    ensures Ordered(RecoveredAll(m, now))
  {
  }

  predicate HasReady(op: Operation) {
    exists i :: 0 <= i < |op.items| && op.items[i].status == Ready
  }

  lemma SubsetSize<T>(a: set<T>, b: set<T>)
    requires a <= b
    ensures |a| <= |b|
  {
    if a != {} {
      var x :| x in a;
      SubsetSize(a - {x}, b - {x});
    }
  }

  /** The file's list of receipts, read back by identifier; a later record wins. */
  function Index(records: seq<Operation>): map<Token, Operation> {
    if records == [] then map[]
    else Index(records[..|records| - 1])[records[|records| - 1].id := records[|records| - 1]]
  }

  ghost predicate DistinctIds(records: seq<Operation>) {
    forall i, j :: 0 <= i < j < |records| ==> records[i].id != records[j].id
  }

  /** What a save leaves: a list that is read back as the receipts it was made of. */
  ghost predicate Canonical(records: seq<Operation>) {
    DistinctIds(records) && |records| <= CAPACITY && Ordered(Index(records))
  }

  lemma IndexMore(records: seq<Operation>, op: Operation)
    ensures Index(records + [op]) == Index(records)[op.id := op]
  {
    assert (records + [op])[..|records|] == records;
  }

  lemma {:induction false} IndexSource(records: seq<Operation>, id: Token) returns (i: nat)
    requires id in Index(records)
    ensures i < |records| && records[i].id == id && Index(records)[id] == records[i]
  {
    if id == records[|records| - 1].id {
      i := |records| - 1;
    } else {
      i := IndexSource(records[..|records| - 1], id);
    }
  }

  /** Reading the list back loses nothing when no identifier is repeated. */
  lemma {:induction false} IndexKeepsAll(records: seq<Operation>, k: nat)
    requires DistinctIds(records) && k < |records|
    ensures records[k].id in Index(records) && Index(records)[records[k].id] == records[k]
  {
    if k < |records| - 1 {
      IndexKeepsAll(records[..|records| - 1], k);
    }
  }

  lemma RecoveredUpdate(m: map<Token, Operation>, id: Token, op: Operation, now: int)
    requires id !in m
    ensures RecoveredAll(m[id := op], now) ==
      if Expired(op, now) then RecoveredAll(m, now) else RecoveredAll(m, now)[id := Recovered(op)]
  {
    var all, rest := RecoveredAll(m[id := op], now), RecoveredAll(m, now);
    forall k
      ensures k in all <==> k in rest || (k == id && !Expired(op, now))
      ensures k in all ==> all[k] == if k == id then Recovered(op) else rest[k]
    {
    }
  }

  /** The load of the first n records, one after the other. */
  function RecoveredPrefix(records: seq<Operation>, n: nat, now: int): (kept: map<Token, Operation>)
    requires n <= |records|
    ensures |kept| <= n && Keyed(kept)
    ensures forall id :: id in kept ==> Terminal(kept[id].state)
  {
    if n == 0 then map[]
    else
      var before := RecoveredPrefix(records, n - 1, now);
      if Expired(records[n - 1], now) then before
      else before[records[n - 1].id := Recovered(records[n - 1])]
  }

  lemma {:induction false} RecoveredPrefixIsAll(records: seq<Operation>, n: nat, now: int)
    requires DistinctIds(records) && n <= |records|
    ensures RecoveredPrefix(records, n, now) == RecoveredAll(Index(records[..n]), now)
  {
    if n > 0 {
      var front, last := records[..n - 1], records[n - 1];
      assert records[..n][..n - 1] == front;
      RecoveredPrefixIsAll(records, n - 1, now);
      if last.id in Index(front) {
        var k := IndexSource(front, last.id);
        assert false;
      }
      RecoveredUpdate(Index(front), last.id, last, now);
    }
  }

  lemma RecoveredCanonical(records: seq<Operation>, now: int)
    ensures Canonical(records) ==>
      && RecoveredPrefix(records, |records|, now) == RecoveredAll(Index(records), now)
      && Ordered(RecoveredAll(Index(records), now))
    ensures forall n :: 0 <= n <= |records| && Canonical(records) && |RecoveredPrefix(records, n, now)| >= CAPACITY ==> n == |records|
  {
    if Canonical(records) {
      RecoveredPrefixIsAll(records, |records|, now);
      assert records[..|records|] == records;
      RecoveredOrdered(Index(records), now);
    }
    hide Index, Ordered, DistinctIds;
  }

  // ----- The handlers' replies and their effect on the store -----

  datatype Reply =
    | NotLoaded
    | Existing(id: Token)
    | Conflict
    | Full
    | NotPersisted
    | Launched(id: Token)
    | Accepted(id: Token)
    | Refused

  ghost predicate ClientLive(m: map<Token, Operation>, client: Token) {
    client != NONE && exists id :: id in m && m[id].clientRequestId == client
  }

  ghost function ClientOperation(m: map<Token, Operation>, client: Token): (id: Token)
    requires ClientLive(m, client)
    ensures id in m && m[id].clientRequestId == client
  {
    var id :| id in m && m[id].clientRequestId == client;
    id
  }

  predicate IdempotencyConflict(op: Operation, fingerprint: Token) {
    op.fingerprint != NONE && op.fingerprint != fingerprint
  }

  function Insert(s: Store, op: Operation, now: int): Store {
    var kept := Pruned(s.ops, now);
    s.(ops := if |kept| >= CAPACITY then kept else kept[op.id := op])
  }

  predicate Fits(s: Store, now: int) {
    |Pruned(s.ops, now)| < CAPACITY
  }

  /** Insert and persist; the receipt stays in memory only when the file confirmed it. */
  function InsertAndSave(s: Store, op: Operation, now: int, w: Write): Store {
    var kept := Pruned(s.ops, now);
    if |kept| >= CAPACITY then s.(ops := kept)
    else
      var t := s.(ops := kept[op.id := op]).Save(w);
      if s.Saved(w) then t else t.(ops := kept)
  }

  ghost function StartStore(s: Store, op: Operation, now: int, w: Write): Store {
    if ClientLive(s.ops, op.clientRequestId) then s else InsertAndSave(s, op, now, w)
  }

  /** The answer to a client request that has a live receipt. */
  ghost function RepeatReply(s: Store, client: Token, fingerprint: Token): Reply
    requires ClientLive(s.ops, client)
  {
    var id := ClientOperation(s.ops, client);
    if IdempotencyConflict(s.ops[id], fingerprint) then Conflict else Existing(id)
  }

  /** First section of a start: the answer, or None if the request goes on to preflight. A store that
      could not be loaded, or not saved after loading, answers nobody. */
  ghost function LookReply(s: Store, client: Token, fingerprint: Token): Option<Reply> {
    if s.broken then Some(NotLoaded)
    else if ClientLive(s.ops, client) then Some(RepeatReply(s, client, fingerprint))
    else None
  }

  ghost function StartReply(s: Store, op: Operation, now: int, w: Write): Reply {
    if ClientLive(s.ops, op.clientRequestId) then RepeatReply(s, op.clientRequestId, op.fingerprint)
    else if !Fits(s, now) then Full
    else if s.Saved(w) then Launched(op.id)
    else NotPersisted
  }

  /** Both sections of a start that see the same store. */
  ghost function RequestStore(s: Store, op: Operation, now: int, w: Write): Store {
    if LookReply(s, op.clientRequestId, op.fingerprint).Some? then s else StartStore(s, op, now, w)
  }

  ghost function RequestReply(s: Store, op: Operation, now: int, w: Write): Reply {
    var look := LookReply(s, op.clientRequestId, op.fingerprint);
    if look.Some? then look.value else StartReply(s, op, now, w)
  }

  predicate Executable(s: Store, id: Token, now: int) {
    id in s.ops && s.ops[id].state == OpPrepared && now <= s.ops[id].expiresAt
  }

  /** Prepared becomes running; a save that was not confirmed takes it back. */
  function ExecuteStore(s: Store, id: Token, now: int, w: Write): Store {
    if !Executable(s, id, now) then s
    else
      var t := s.(ops := s.ops[id := s.ops[id].(state := OpRunning)]).Save(w);
      if s.Saved(w) then t else t.(ops := s.ops)
  }

  function Linked(m: map<Token, Operation>, parent: Token, child: Token): map<Token, Operation> {
    if parent in m then m[parent := m[parent].(retryId := child)] else m
  }

  /** The second critical section of a retry that found no live child: the child joins and its
      parent points to it, unless the file does not confirm both. */
  function RetryStore(s: Store, parent: Token, child: Operation, now: int, w: Write): Store {
    var kept := Pruned(s.ops, now);
    if |kept| >= CAPACITY then s.(ops := kept)
    else
      var t := s.(ops := Linked(kept, parent, child.id)[child.id := child.(parentId := parent)]).Save(w);
      if s.Saved(w) then t else t.(ops := Linked(kept, parent, NONE))
  }

  lemma PrunedOrdered(m: map<Token, Operation>, now: int)
    requires Ordered(m)
    ensures Ordered(Pruned(m, now))
    ensures forall client :: ClientLive(Pruned(m, now), client) ==> ClientLive(m, client)
  {
  }

  lemma AddedOrdered(m: map<Token, Operation>, op: Operation)
    requires Ordered(m) && !ClientLive(m, op.clientRequestId)
    ensures Ordered(m[op.id := op])
  {
  }

  lemma LinkedOrdered(m: map<Token, Operation>, parent: Token, child: Token)
    requires Ordered(m)
    ensures Ordered(Linked(m, parent, child))
    ensures forall client :: ClientLive(Linked(m, parent, child), client) ==> ClientLive(m, client)
  {
  }

  /** Sweeping, linking and adding a receipt of a new or no client keep the receipts in order. */
  lemma OrderKept(m: map<Token, Operation>, now: int, parent: Token, child: Operation)
    requires Ordered(m) && child.id !in m && !ClientLive(m, child.clientRequestId)
    ensures Ordered(Pruned(m, now)) && Ordered(Pruned(m, now)[child.id := child]) && child.id !in Pruned(m, now)
    ensures Ordered(Linked(Pruned(m, now), parent, child.id)[child.id := child]) && Ordered(Linked(Pruned(m, now), parent, NONE))
  {
    var kept := Pruned(m, now);
    PrunedOrdered(m, now);
    AddedOrdered(kept, child);
    LinkedOrdered(kept, parent, child.id);
    LinkedOrdered(kept, parent, NONE);
    AddedOrdered(Linked(kept, parent, child.id), child);
    hide Ordered, ClientLive, Linked;
  }

  /** The receipts at each point of a retry. */
  lemma RetryOrdered(m: map<Token, Operation>, now: int, parent: Token, child: Operation)
    requires Ordered(m) && child.id !in m && child.id != parent && child.clientRequestId == NONE
    ensures var kept, joined := Pruned(m, now), child.(parentId := parent);
      var all := kept[child.id := joined];
      && Keyed(m) && Ordered(kept) && Keyed(all) && Keyed(Linked(all, parent, child.id)) && child.id !in kept
      && Linked(all, parent, child.id) == Linked(kept, parent, child.id)[child.id := joined]
      && Ordered(Linked(all, parent, child.id)) && |Linked(all, parent, child.id)| == |all|
      && all - {child.id} == kept
      && Ordered(Linked(kept, parent, NONE)) && |Linked(kept, parent, NONE)| == |kept|
  {
    hide UniqueClients, Pruned;
    var kept, joined := Pruned(m, now), child.(parentId := parent);
    OrderKept(m, now, parent, joined);
    LinkedFirst(kept, parent, joined);
    TakenOut(kept, joined);
    LinkedSize(kept[child.id := joined], parent, child.id);
    LinkedSize(kept, parent, NONE);
  }

  /** A sweep, and with an accepted child the child and the link to it; a child that could not be
      persisted leaves its parent without a link. */
  ghost predicate RetriedTo(
    before: map<Token, Operation>, after: map<Token, Operation>, parent: Token, child: Operation, reply: Reply, now: int)
  {
    && (forall id :: id != child.id ==> (id in after <==> id in before && OutlivesSweep(before[id], now)))
    && (forall id :: id in after && id != child.id && id != parent ==> after[id] == before[id])
    && (reply.Accepted? ==> child.id in after && after[child.id] == child.(parentId := parent))
    && (!reply.Accepted? ==> child.id !in after)
    && (parent in after && parent in before ==>
          && (reply.Accepted? ==> after[parent] == before[parent].(retryId := child.id))
          && (reply.NotPersisted? ==> after[parent] == before[parent].(retryId := NONE))
          && (reply.Full? ==> after[parent] == before[parent]))
  }

  lemma RetryExact(s: Store, parent: Token, child: Operation, now: int, w: Write)
    requires child.id !in s.ops && child.id != parent
    ensures RetriedTo(s.ops, RetryStore(s, parent, child, now, w).ops, parent, child,
                      if !Fits(s, now) then Full else if s.Saved(w) then Accepted(child.id) else NotPersisted, now)
    ensures child.id in RetryStore(s, parent, child, now, w).ops <==> Fits(s, now) && s.Saved(w)
    ensures Fits(s, now) && s.Saved(w) ==>
      RetryStore(s, parent, child, now, w).disk == RetryStore(s, parent, child, now, w).ops && w == Stored && !s.broken
  {
  }

  lemma TakenOut(m: map<Token, Operation>, op: Operation)
    requires op.id !in m
    ensures m[op.id := op] - {op.id} == m
  {
  }

  lemma LinkedFirst(m: map<Token, Operation>, parent: Token, child: Operation)
    requires child.id !in m && child.id != parent
    ensures Linked(m[child.id := child], parent, child.id) == Linked(m, parent, child.id)[child.id := child]
  {
  }

  lemma SetTwice(m: map<Token, Operation>, id: Token, item: nat)
    requires id in m && item < |m[id].items|
    ensures SetItem(SetItem(m, id, item, Running), id, item, Failed) == SetItem(m, id, item, Failed)
  {
    var once, twice := WithStatus(m[id], item, Failed), WithStatus(WithStatus(m[id], item, Running), item, Failed);
    assert once.items == twice.items;
  }

  lemma Unlinked(m: map<Token, Operation>, parent: Token, child: Token)
    requires child != parent
    ensures Linked(Linked(m, parent, child) - {child}, parent, NONE) == Linked(m - {child}, parent, NONE)
  {
  }

  lemma LinkedSize(m: map<Token, Operation>, parent: Token, child: Token)
    ensures |Linked(m, parent, child)| == |m|
  {
    assert Linked(m, parent, child).Keys == m.Keys;
    assert |Linked(m, parent, child)| == |Linked(m, parent, child).Keys| && |m| == |m.Keys|;
  }

  function SetItem(m: map<Token, Operation>, id: Token, item: nat, status: ItemStatus): map<Token, Operation>
    requires id in m && item < |m[id].items|
  {
    m[id := WithStatus(m[id], item, status)]
  }

  lemma SetItemOrdered(m: map<Token, Operation>, id: Token, item: nat, status: ItemStatus)
    requires Ordered(m) && id in m && item < |m[id].items|
    ensures Ordered(SetItem(m, id, item, status)) && |SetItem(m, id, item, status)| == |m|
  {
    assert SetItem(m, id, item, status).Keys == m.Keys;
    assert |m.Keys| == |m| && |SetItem(m, id, item, status)| == |SetItem(m, id, item, status).Keys|;
  }

  /** Records that an item is about to act. When the file does not confirm it, a sequential item
      fails and a concurrent one stays running until its receipt. */
  function IntendStore(s: Store, id: Token, item: nat, concurrent: bool, w: Write): Store
    requires id in s.ops && item < |s.ops[id].items|
  {
    var t := s.(ops := SetItem(s.ops, id, item, Running)).Save(w);
    if s.Saved(w) || concurrent then t else t.(ops := SetItem(s.ops, id, item, Failed))
  }

  function OutcomeStore(s: Store, id: Token, item: nat, status: ItemStatus, w: Write): Store
    requires id in s.ops && item < |s.ops[id].items|
  {
    s.(ops := SetItem(s.ops, id, item, status)).Save(w)
  }

  predicate Retryable(item: Item) {
    item.status == Failed || item.status == Stale
  }

  /** Positions of the items that a retry of `items[..n]` passes on, in order. */
  function RetryPicks(items: seq<Item>, n: nat): (picks: seq<nat>)
    requires n <= |items|
    ensures forall k :: 0 <= k < |picks| ==> picks[k] < n && Retryable(items[picks[k]])
    ensures forall k, l :: 0 <= k < l < |picks| ==> picks[k] < picks[l]
    ensures forall i :: 0 <= i < n && Retryable(items[i]) ==> i in picks
  {
    if n == 0 then []
    else RetryPicks(items, n - 1) + if Retryable(items[n - 1]) then [n - 1] else []
  }

  /** What a retry passes on: the targets of these items, in order. */
  function RetryTargets(items: seq<Item>): seq<Token> {
    var picks := RetryPicks(items, |items|);
    seq(|picks|, k requires 0 <= k < |picks| => items[picks[k]].target)
  }

  /** Exactly the targets of the failed and stale items are passed on, in order. */
  lemma RetryTargetsExact(items: seq<Item>, target: Token)
    ensures target in RetryTargets(items) <==> exists i :: 0 <= i < |items| && Retryable(items[i]) && items[i].target == target
    ensures |RetryTargets(items)| <= |items|
  {
    var picks, targets := RetryPicks(items, |items|), RetryTargets(items);
    if target in targets {
      var k :| 0 <= k < |targets| && targets[k] == target;
      assert Retryable(items[picks[k]]) && items[picks[k]].target == target;
    }
    if i :| 0 <= i < |items| && Retryable(items[i]) && items[i].target == target {
      var k :| 0 <= k < |picks| && picks[k] == i;
      assert targets[k] == target;
    }
    PicksFit(items, |items|);
  }

  lemma {:induction false} PicksFit(items: seq<Item>, n: nat)
    requires n <= |items|
    ensures |RetryPicks(items, n)| <= n
  {
    if n > 0 {
      PicksFit(items, n - 1);
    }
  }

  function Targets(items: seq<Item>): seq<Token> {
    seq(|items|, i requires 0 <= i < |items| => items[i].target)
  }

  /** A file that was never written has no records. */
  function Records(file: Option<seq<Operation>>): seq<Operation> {
    if file.Some? then file.value else []
  }

  // ----- What the sections come to, receipt by receipt and item by item -----

  /** Nothing but the state and the items' status differs. */
  predicate SameReceipt(before: Operation, after: Operation) {
    && after == before.(state := after.state, items := after.items) && |after.items| == |before.items|
    && forall i :: 0 <= i < |before.items| ==> after.items[i].target == before.items[i].target
  }

  /** What a restarted server makes of a receipt on file: of an active one, the items whose outcome is
      unknown are interrupted, and nothing else changes. */
  predicate RestartedFrom(file: Operation, op: Operation) {
    && SameReceipt(file, op)
    && (file.state == OpCompleted || file.state == OpInterrupted ==> op == file)
    && (file.state == OpPrepared || file.state == OpRunning ==> op.state == OpInterrupted)
    && (file.state == OpPrepared || file.state == OpRunning ==> forall i :: 0 <= i < |op.items| ==>
          op.items[i].status ==
            if file.items[i].status == Ready || file.items[i].status == Running then Interrupted else file.items[i].status)
  }

  /** What the end of a run makes of its receipt: no item of it is left, and no outcome is touched. */
  predicate CompletedFrom(before: Operation, after: Operation) {
    && SameReceipt(before, after) && after.state == OpCompleted
    && forall i :: 0 <= i < |after.items| ==>
         after.items[i].status ==
           if before.items[i].status == Ready || before.items[i].status == Running then Failed else before.items[i].status
  }

  /** Only the status of one item differs. */
  predicate OneItem(before: map<Token, Operation>, after: map<Token, Operation>, id: Token, item: nat, status: ItemStatus) {
    && after.Keys == before.Keys && id in before && item < |before[id].items|
    && (forall other :: other in before && other != id ==> after[other] == before[other])
    && SameReceipt(before[id], after[id]) && after[id].state == before[id].state
    && (forall i :: 0 <= i < |before[id].items| ==>
          after[id].items[i].status == if i == item then status else before[id].items[i].status)
  }

  /** The receipts that a sweep leaves alone. */
  predicate OutlivesSweep(op: Operation, now: int) {
    op.state == OpRunning || now - op.createdAt <= 24 * 60 * 60 * 1000
  }

  /** A sweep, and perhaps the new receipt. */
  ghost predicate SweptAnd(before: map<Token, Operation>, after: map<Token, Operation>, op: Operation, added: bool, now: int) {
    && (forall id :: id in after <==> (id in before && OutlivesSweep(before[id], now)) || (added && id == op.id))
    && (forall id :: id in after && id != op.id ==> after[id] == before[id])
    && (added ==> after[op.id] == op)
  }

  lemma RecoveredExact(op: Operation)
    ensures RestartedFrom(op, Recovered(op))
  {
  }

  /** A restart keeps exactly the receipts within retention, each as it must be. */
  lemma RecoveredAllExact(disk: map<Token, Operation>, now: int)
    ensures forall id :: id in RecoveredAll(disk, now) <==> id in disk && now - disk[id].createdAt <= 24 * 60 * 60 * 1000
    ensures forall id :: id in RecoveredAll(disk, now) ==> RestartedFrom(disk[id], RecoveredAll(disk, now)[id])
  {
    forall id | id in RecoveredAll(disk, now) ensures RestartedFrom(disk[id], RecoveredAll(disk, now)[id]) {
      RecoveredExact(disk[id]);
    }
    hide RestartedFrom;
  }

  /** After a restart a retry can pass on only what the file already showed as failed or stale. */
  lemma RestartedTargets(file: Operation, op: Operation, target: Token)
    requires RestartedFrom(file, op)
    ensures target in RetryTargets(op.items) <==>
      exists i :: 0 <= i < |file.items| && (file.items[i].status == Failed || file.items[i].status == Stale) && file.items[i].target == target
  {
    RetryTargetsExact(op.items, target);
    hide RetryTargets;
    assert forall i :: 0 <= i < |op.items| ==>
      (Retryable(op.items[i]) <==> file.items[i].status == Failed || file.items[i].status == Stale) && op.items[i].target == file.items[i].target;
    if target in RetryTargets(op.items) {
      var i :| 0 <= i < |op.items| && Retryable(op.items[i]) && op.items[i].target == target;
      assert file.items[i].target == target;
    }
    if i :| 0 <= i < |file.items| && (file.items[i].status == Failed || file.items[i].status == Stale) && file.items[i].target == target {
      assert Retryable(op.items[i]) && op.items[i].target == target;
    }
  }

  lemma CompletedExact(op: Operation)
    ensures CompletedFrom(op, CompletedForm(op))
  {
  }

  lemma SetItemExact(m: map<Token, Operation>, id: Token, item: nat, status: ItemStatus)
    requires id in m && item < |m[id].items|
    ensures OneItem(m, SetItem(m, id, item, status), id, item, status)
  {
  }

  lemma PrunedExact(m: map<Token, Operation>, op: Operation, now: int)
    requires op.id !in m
    ensures SweptAnd(m, Pruned(m, now), op, false, now) && SweptAnd(m, Pruned(m, now)[op.id := op], op, true, now)
  {
  }

  /** The store object itself. */
  class BatchStore {
    var operations: map<Token, Operation>
    var file: Option<seq<Operation>>
    var loadFailed: bool

    ghost predicate Valid()
      reads this
    {
      Ordered(operations) && |operations| <= CAPACITY && Canonical(Records(file))
    }

    ghost function View(): Store
      reads this
    {
      Store(operations, Index(Records(file)), loadFailed)
    }

    constructor (saved: Option<seq<Operation>>)
      ensures operations == map[] && file == saved && !loadFailed
    {
      operations, file, loadFailed := map[], saved, false;
    }

    /** The loop over the receipts. */
    method Listed() returns (records: seq<Operation>)
      requires Keyed(operations)
      ensures Index(records) == operations && DistinctIds(records) && |records| == |operations|
    {
      records := [];
      assert Index(records) == map[];
      hide Index;
      var pending := operations.Keys;
      while pending != {}
        invariant pending <= operations.Keys
        invariant DistinctIds(records) && |records| + |pending| == |operations.Keys|
        invariant forall k :: 0 <= k < |records| ==> records[k].id in operations && records[k].id !in pending
        invariant forall id :: id in operations && id !in pending ==> id in Index(records)
        invariant forall id :: id in Index(records) ==> id in operations && id !in pending && Index(records)[id] == operations[id]
        decreases |pending|
      {
        var id :| id in pending;
        IndexMore(records, operations[id]);
        records, pending := records + [operations[id]], pending - {id};
      }
      assert Index(records) == operations && |operations.Keys| == |operations|;
    }

    method Save(w: Write) returns (ok: bool)
      requires Keyed(operations)
      modifies this`file
      ensures ok == View().Saved(w)
      ensures View() == old(View().Save(w))
      ensures ok <==> !loadFailed && w == Stored
      ensures View().disk == if loadFailed || w == Lost then old(View()).disk else operations
      ensures !w.Lost? && !loadFailed ==> DistinctIds(Records(file)) && |Records(file)| == |operations|
      ensures w.Lost? || loadFailed ==> file == old(file)
    {
      hide Index, DistinctIds;
      if loadFailed {
        return false;
      }
      var records := Listed();
      if w == Stored || w == StoredWithError {
        file := Some(records);
      }
      ok := w == Stored;
    }

    /** Sweeps out receipts past retention, then adds the new one if there is room. */
    method InsertReceipt(op: Operation, now: int) returns (ok: bool)
      requires Keyed(operations)
      modifies this`operations
      ensures ok == old(Fits(View(), now))
      ensures View() == old(Insert(View(), op, now))
      ensures op.id !in old(operations) ==> SweptAnd(old(operations), operations, op, ok, now)
      ensures ok ==> |operations| <= 256
      ensures !ok ==> |operations| >= 256
    {
      hide Index;
      var pending := operations.Keys;
      while pending != {}
        invariant pending <= old(operations).Keys
        invariant forall id :: id in operations ==> id in old(operations) && operations[id] == old(operations)[id]
        invariant forall id :: id in pending ==> id in operations
        invariant forall id :: id in old(operations) && id !in pending ==>
          (id in operations <==> old(operations)[id].state == OpRunning || !Expired(old(operations)[id], now))
        decreases |pending|
      {
        var id :| id in pending;
        if operations[id].state != OpRunning && now - operations[id].createdAt > RETENTION_MS {
          operations := map other | other in operations && other != id :: operations[other];
        }
        pending := pending - {id};
      }
      assert operations == Pruned(old(operations), now);
      if op.id !in old(operations) {
        PrunedExact(old(operations), op, now);
      }
      hide SweptAnd, Pruned;
      if |operations| >= CAPACITY {
        return false;
      }
      operations := operations[op.id := op];
      return true;
    }

    /** The live receipt of a client request, if there is one. */
    method FindClient(client: Token) returns (found: Option<Token>)
      ensures found.None? <==> !ClientLive(operations, client)
      ensures found.Some? ==> found.value in operations && operations[found.value].clientRequestId == client
    {
      if client == NONE {
        return None;
      }
      var pending := operations.Keys;
      while pending != {}
        invariant pending <= operations.Keys
        invariant forall id :: id in operations && id !in pending ==> operations[id].clientRequestId != client
        decreases |pending|
      {
        var id :| id in pending;
        if operations[id].clientRequestId == client {
          return Some(id);
        }
        pending := pending - {id};
      }
      return None;
    }

    /** Insert, persist, and take the receipt out again when the file was not confirmed. */
    method InsertPersisted(op: Operation, now: int, w: Write) returns (reply: Reply)
      requires Valid() && op.id !in operations && !ClientLive(operations, op.clientRequestId)
      modifies this`operations, this`file
      ensures View() == old(InsertAndSave(View(), op, now, w))
      ensures SweptAnd(old(operations), operations, op, reply.Accepted?, now)
      ensures reply.Accepted? ==> reply.id == op.id && View().disk == operations && w == Stored && !loadFailed
      ensures reply.NotPersisted? ==> w != Stored || loadFailed
      ensures reply.Full? ==> |operations| >= 256 && file == old(file)
      ensures reply == if !old(Fits(View(), now)) then Full else if old(View().Saved(w)) then Accepted(op.id) else NotPersisted
      ensures Valid()
    {
      ghost var kept := Pruned(operations, now);
      OrderKept(operations, now, op.id, op);
      TakenOut(kept, op);
      PrunedExact(operations, op, now);
      hide Index, Ordered, DistinctIds, Pruned, SweptAnd;
      var ok := InsertReceipt(op, now);
      if !ok {
        return Full;
      }
      ok := Save(w);
      if !ok {
        operations := operations - {op.id};
        assert operations == kept;
        return NotPersisted;
      }
      return Accepted(op.id);
    }

    /** First section of a start. */
    method Look(client: Token, fingerprint: Token) returns (reply: Option<Reply>)
      requires Valid()
      ensures reply == LookReply(View(), client, fingerprint)
      ensures loadFailed ==> reply == Some(NotLoaded)
      ensures !loadFailed ==> (reply.None? <==> client == NONE || forall id :: id in operations ==> operations[id].clientRequestId != client)
      ensures forall id :: !loadFailed && id in operations && operations[id].clientRequestId == client != NONE ==>
        reply == Some(if operations[id].fingerprint != NONE && operations[id].fingerprint != fingerprint then Conflict else Existing(id))
    {
      hide Index;
      if loadFailed {
        return Some(NotLoaded);
      }
      var existing := FindClient(client);
      if existing.None? {
        return None;
      }
      return Some(if IdempotencyConflict(operations[existing.value], fingerprint) then Conflict else Existing(existing.value));
    }

    /** A request to start: both sections, with the preflight in between. */
    method Request(op: Operation, now: int, w: Write) returns (reply: Reply)
      requires Valid() && op.id !in operations
      modifies this`operations, this`file
      ensures View() == old(RequestStore(View(), op, now, w))
      ensures reply == old(RequestReply(View(), op, now, w))
      ensures Valid()
    {
      hide Index, InsertAndSave;
      var look := Look(op.clientRequestId, op.fingerprint);
      if look.Some? {
        return look.value;
      }
      reply := Start(op, now, w);
    }

    /** Second section of a start: look again, then insert, persist and launch. */
    method Start(op: Operation, now: int, w: Write) returns (reply: Reply)
      requires Valid() && op.id !in operations
      modifies this`operations, this`file
      ensures View() == old(StartStore(View(), op, now, w))
      ensures reply == old(StartReply(View(), op, now, w))
      ensures reply.Existing? || reply.Conflict? ==> operations == old(operations) && file == old(file)
      ensures reply.Existing? || reply.Conflict? <==>
        op.clientRequestId != NONE && exists id :: id in old(operations) && old(operations)[id].clientRequestId == op.clientRequestId
      ensures forall id :: id in old(operations) && old(operations)[id].clientRequestId == op.clientRequestId != NONE ==>
        reply == if old(operations)[id].fingerprint != NONE && old(operations)[id].fingerprint != op.fingerprint then Conflict else Existing(id)
      ensures reply.Launched? ==> reply.id == op.id && op.id in operations && operations[op.id] == op && View().disk == operations
      ensures reply.Full? ==> op.id !in operations && |operations| >= 256
      ensures reply.NotPersisted? ==> op.id !in operations && (w != Stored || loadFailed)
      ensures !reply.Existing? && !reply.Conflict? ==> SweptAnd(old(operations), operations, op, reply.Launched?, now)
      ensures Valid()
    {
      hide Index;
      var existing := FindClient(op.clientRequestId);
      if existing.Some? {
        if IdempotencyConflict(operations[existing.value], op.fingerprint) {
          return Conflict;
        }
        return Existing(existing.value);
      }
      reply := InsertPersisted(op, now, w);
      if reply.Accepted? {
        reply := Launched(op.id);
      }
    }

    /** Executes a prepared receipt; every other live state is answered with the receipt. */
    method Execute(id: Token, now: int, w: Write) returns (reply: Reply)
      requires Valid()
      modifies this`operations, this`file
      ensures View() == old(ExecuteStore(View(), id, now, w))
      ensures reply.Launched? <==> old(Executable(View(), id, now) && View().Saved(w))
      ensures reply.Launched? ==> id in View().disk && View().disk[id].state == OpRunning
      ensures reply.Launched? <==>
        id in old(operations) && old(operations)[id].state == OpPrepared && now <= old(operations)[id].expiresAt && w == Stored && !loadFailed
      ensures reply.Launched? ==> operations == old(operations)[id := old(operations)[id].(state := OpRunning)] && View().disk == operations
      ensures !reply.Launched? ==> operations == old(operations)
      ensures reply.Accepted? <==> id in old(operations) && old(operations)[id].state in {OpRunning, OpCompleted}
      ensures Valid()
    {
      hide Index;
      if id !in operations || operations[id].state == OpInterrupted {
        return Refused;
      }
      if operations[id].state == OpPrepared {
        if now > operations[id].expiresAt {
          return Refused;
        }
        var before := operations;
        operations := operations[id := operations[id].(state := OpRunning)];
        var ok := Save(w);
        if !ok {
          operations := operations[id := operations[id].(state := OpPrepared)];
          assert operations == before;
          return NotPersisted;
        }
        return Launched(id);
      }
      return Accepted(id);
    }

    /** Collects the items that a retry passes on. */
    method CollectRetry(id: Token) returns (targets: seq<Token>)
      requires id in operations
      ensures targets == RetryTargets(operations[id].items)
      ensures var items := operations[id].items;
        var picks := RetryPicks(items, |items|);
        |targets| == |picks| && forall k :: 0 <= k < |picks| ==> targets[k] == items[picks[k]].target
    {
      targets := [];
      var items := operations[id].items;
      for i := 0 to |items|
        invariant |targets| == |RetryPicks(items, i)|
        invariant forall k :: 0 <= k < |targets| ==> targets[k] == items[RetryPicks(items, i)[k]].target
      {
        if items[i].status == Failed || items[i].status == Stale {
          targets := targets + [items[i].target];
        }
      }
    }

    /** Second section of a retry when the parent has no live child. */
    method Retry(parent: Token, child: Operation, now: int, w: Write) returns (reply: Reply)
      requires Valid() && parent in operations && operations[parent].retryId !in operations
      requires child.id !in operations && child.id != parent && child.clientRequestId == NONE
      modifies this`operations, this`file
      ensures View() == old(RetryStore(View(), parent, child, now, w))
      ensures reply == if !old(Fits(View(), now)) then Full else if old(View().Saved(w)) then Accepted(child.id) else NotPersisted
      ensures reply.Accepted? <==> child.id in operations
      ensures reply.Accepted? ==> View().disk == operations && w == Stored && !loadFailed
      ensures RetriedTo(old(operations), operations, parent, child, reply, now)
      ensures Valid()
    {
      hide Index, Ordered, Keyed, DistinctIds, Pruned, Linked, RetriedTo, SweptAnd;
      RetryExact(View(), parent, child, now, w);
      RetryOrdered(operations, now, parent, child);
      var ok := InsertReceipt(child.(parentId := parent), now);
      if !ok {
        return Full;
      }
      ok := LinkPersisted(parent, child.id, w);
      return if ok then Accepted(child.id) else NotPersisted;
    }

    /** Links, persists, and takes the child and the link back when the file was not confirmed. */
    method LinkPersisted(parent: Token, child: Token, w: Write) returns (ok: bool)
      requires Keyed(operations) && Keyed(Linked(operations, parent, child)) && child != parent
      modifies this`operations, this`file
      ensures ok == old(View().Saved(w))
      ensures operations == if ok then Linked(old(operations), parent, child) else Linked(old(operations) - {child}, parent, NONE)
      ensures View().disk == old(View().(ops := Linked(operations, parent, child)).Save(w)).disk
      ensures !w.Lost? && !loadFailed ==> DistinctIds(Records(file)) && |Records(file)| == |Linked(old(operations), parent, child)|
      ensures w.Lost? || loadFailed ==> file == old(file)
    {
      hide Index, DistinctIds, Keyed;
      ghost var before := operations;
      Link(parent, child);
      ok := Save(w);
      if !ok {
        Unlinked(before, parent, child);
        operations := operations - {child};
        Link(parent, NONE);
      }
    }

    /** Points a receipt to its retry, if the receipt is still there. */
    method Link(parent: Token, child: Token)
      modifies this`operations
      ensures operations == Linked(old(operations), parent, child)
    {
      if parent in operations {
        operations := operations[parent := operations[parent].(retryId := child)];
      }
    }

    /** Persists the intent of one item; the caller goes on to act only when this returns true. */
    method Intend(id: Token, item: nat, concurrent: bool, w: Write) returns (ok: bool)
      requires Valid() && id in operations && item < |operations[id].items|
      modifies this`operations, this`file
      ensures View() == old(IntendStore(View(), id, item, concurrent, w))
      ensures ok == old(View().Saved(w)) && Valid()
      ensures ok ==> View().disk == operations && operations[id].items[item].status == Running
      ensures ok <==> w == Stored && !loadFailed
      ensures OneItem(old(operations), operations, id, item, if ok || concurrent then Running else Failed)
    {
      SetItemOrdered(operations, id, item, Running);
      SetItemOrdered(operations, id, item, Failed);
      SetItemExact(operations, id, item, Running);
      SetItemExact(operations, id, item, Failed);
      hide Index, UniqueClients, OneItem;
      ghost var before := operations;
      operations := operations[id := WithStatus(operations[id], item, Running)];
      ok := Save(w);
      if !ok && !concurrent {
        operations := operations[id := WithStatus(operations[id], item, Failed)];
        SetTwice(before, id, item);
      }
    }

    /** Persists the outcome of one item. */
    method Record(id: Token, item: nat, status: ItemStatus, w: Write) returns (ok: bool)
      requires Valid() && id in operations && item < |operations[id].items|
      modifies this`operations, this`file
      ensures View() == old(OutcomeStore(View(), id, item, status, w))
      ensures ok == old(View().Saved(w)) && Valid()
      ensures OneItem(old(operations), operations, id, item, status)
      ensures View().disk == if loadFailed || w == Lost then old(View()).disk else operations
    {
      SetItemOrdered(operations, id, item, status);
      SetItemExact(operations, id, item, status);
      hide Index, UniqueClients, OneItem;
      operations := operations[id := WithStatus(operations[id], item, status)];
      ok := Save(w);
    }

    /** Gives every ready or running item the given status. */
    static method SettleItems(items: seq<Item>, status: ItemStatus) returns (settled: seq<Item>)
      ensures settled == Settled(items, status)
      ensures |settled| == |items| && forall i :: 0 <= i < |items| ==>
        settled[i] == if items[i].status == Ready || items[i].status == Running then Item(items[i].target, status) else items[i]
    {
      settled := items;
      for i := 0 to |items|
        invariant |settled| == |items|
        invariant forall k :: 0 <= k < |items| ==> settled[k] == if k < i then Settled(items, status)[k] else items[k]
      {
        if settled[i].status == Ready || settled[i].status == Running {
          settled := settled[i := settled[i].(status := status)];
        }
      }
    }

    /** A finished run leaves no item ready or running and persists the completed receipt. */
    method Complete(id: Token, w: Write) returns (ok: bool)
      requires Valid() && id in operations
      modifies this`operations, this`file
      ensures View() == old(View().(ops := operations[id := CompletedForm(operations[id])]).Save(w))
      ensures ok == View().Saved(w) && Valid()
      ensures operations.Keys == old(operations).Keys && CompletedFrom(old(operations)[id], operations[id])
      ensures forall other :: other in operations && other != id ==> operations[other] == old(operations)[other]
      ensures View().disk == if loadFailed || w == Lost then old(View()).disk else operations
    {
      CompletedExact(operations[id]);
      hide Index, CompletedFrom;
      var items := SettleItems(operations[id].items, Failed);
      operations := operations[id := operations[id].(items := items, state := OpCompleted)];
      ok := Save(w);
    }

    /** The loop of a load: receipts past retention are skipped, active ones become interrupted. */
    static method Recover(saved: seq<Operation>, now: int) returns (kept: map<Token, Operation>)
      ensures exists n :: 0 <= n <= |saved| && (n == |saved| || |kept| == CAPACITY) && kept == RecoveredPrefix(saved, n, now)
      ensures |kept| <= CAPACITY && Keyed(kept) && forall id :: id in kept ==> Terminal(kept[id].state)
      ensures Canonical(saved) ==> kept == RecoveredAll(Index(saved), now) && Ordered(kept)
    {
      RecoveredCanonical(saved, now);
      hide Canonical, Index;
      kept := map[];
      var i := 0;
      while i < |saved|
        invariant 0 <= i <= |saved|
        invariant |kept| < CAPACITY
        invariant kept == RecoveredPrefix(saved, i, now)
      {
        var op := saved[i];
        i := i + 1;
        if now - op.createdAt > RETENTION_MS {
          continue;
        }
        if op.state == OpRunning || op.state == OpPrepared {
          var items := SettleItems(op.items, Interrupted);
          op := op.(items := items, state := OpInterrupted);
        }
        kept := kept[op.id := op];
        assert kept == RecoveredPrefix(saved, i, now);
        if |kept| >= CAPACITY {
          break;
        }
      }
    }

    /** Reads the file back after a restart and saves what it kept; without a file there is nothing to do. */
    method Load(now: int, w: Write)
      requires operations == map[] && !loadFailed
      modifies this
      ensures |operations| <= CAPACITY && Keyed(operations)
      ensures forall id :: id in operations ==> Terminal(operations[id].state)
      ensures var write := if old(file).None? then Stored else w;
        && (Canonical(Records(old(file))) ==> Valid() && View() == LoadStore(old(View()).disk, now, write))
        && loadFailed == !write.Stored?
        && View().disk == (if write.Lost? then old(View()).disk else operations)
      ensures old(file).None? ==> file.None?
      ensures Canonical(Records(old(file))) ==> var disk := old(View()).disk;
        && (forall id :: id in operations <==> id in disk && now - disk[id].createdAt <= 24 * 60 * 60 * 1000)
        && (forall id :: id in operations ==> RestartedFrom(disk[id], operations[id]))
    {
      RecoveredAllExact(View().disk, now);
      if file.None? {
        assert RecoveredAll(map[], now) == map[];
        return;
      }
      hide Index, Ordered, DistinctIds, RecoveredAll, RecoveredPrefix, RestartedFrom;
      operations := Recover(file.value, now);
      var ok := Save(w);
      loadFailed := !ok;
    }

    /** A crash and a new process: whatever this store left on file is loaded as a whole. */
    method Reopen(now: int, w: Write) returns (next: BatchStore)
      requires Valid()
      ensures fresh(next) && next.Valid()
      ensures next.View() == LoadStore(View().disk, now, if file.None? then Stored else w)
      ensures forall id :: id in next.operations <==> id in View().disk && now - View().disk[id].createdAt <= 24 * 60 * 60 * 1000
      ensures forall id :: id in next.operations ==> RestartedFrom(View().disk[id], next.operations[id])
    {
      hide RestartedFrom, Index;
      next := new BatchStore(file);
      next.Load(now, w);
    }
  }
}
