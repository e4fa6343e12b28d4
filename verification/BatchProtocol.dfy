/** Runs of the batch receipt protocol: handlers, batch goroutines, failing saves,
    crashes and reloads, interleaved in any order. One action is one critical
    section of the store, or one effect that starts outside it. */
module BatchProtocol {
  import opened Basics
  import opened BatchReceipts

  /** A batch goroutine: items still to do, items whose intent is on file, items acting. */
  datatype Worker = Worker(todo: set<nat>, armed: set<nat>, acting: set<nat>)

  /** A retry between its two critical sections: the parent and the targets it passes on. */
  datatype Ticket = Ticket(parent: Token, targets: seq<Token>)

  datatype Identity = Identity(client: Token, fingerprint: Token)

  /** What has happened so far; a crash does not undo it. `retries` holds what every child that
      reached the file was made of. */
  datatype History = History(
    issued: map<Token, Identity>, launches: seq<Token>, effects: seq<(Token, nat)>, retries: map<Token, Ticket>)

  datatype World = World(
    store: Store, now: int, workers: map<Token, Worker>, tickets: set<Ticket>, past: History)

  datatype Action =
    | Tick(to: int)
    | Prepare(op: Operation, w: Write)
    | Begin(op: Operation, w: Write)
    | Execute(id: Token, w: Write)
    | OpenRetry(parent: Token)
    | CommitRetry(ticket: Ticket, child: Operation, execute: bool, w: Write)
    | ResumeRetry(parent: Token, w: Write)
    | Intend(id: Token, item: nat, concurrent: bool, w: Write)
    | Act(id: Token, item: nat)
    | Receipt(id: Token, item: nat, status: ItemStatus, w: Write)
    | Finish(id: Token, w: Write)
    | Restart(readable: bool, w: Write)

  function Init(): World {
    World(Store(map[], map[], false), 0, map[], {}, History(map[], [], [], map[]))
  }

  /** A preflight result: a fresh random identifier and statuses that no execution has touched. Its
      times were read before the section, from a clock that may go back. */
  ghost predicate FreshOperation(w: World, op: Operation) {
    && op.id != NONE && op.id !in w.past.issued
    && op.retryId == NONE && op.parentId == NONE
    && forall i :: 0 <= i < |op.items| ==> op.items[i].status in {Ready, Stale, Unsupported}
  }

  function Issue(h: History, op: Operation): History {
    h.(issued := h.issued[op.id := Identity(op.clientRequestId, op.fingerprint)])
  }

  function ReadyItems(op: Operation): set<nat> {
    set i: nat | i < |op.items| && op.items[i].status == Ready
  }

  function Launch(w: World, id: Token): World
    requires id in w.store.ops
  {
    w.(past := w.past.(launches := w.past.launches + [id]), workers := w.workers[id := Worker(ReadyItems(w.store.ops[id]), {}, {})])
  }

  /** `PreflightAccountInspectionBatch`: a prepared receipt without a client request. */
  ghost predicate PrepareEnabled(w: World, op: Operation) {
    FreshOperation(w, op) && op.state == OpPrepared && op.clientRequestId == NONE
  }

  function DoPrepare(w: World, op: Operation, write: Write): World {
    w.(past := Issue(w.past, op), store := InsertAndSave(w.store, op, w.now, write))
  }

  /** `StartAccountInspectionBatch` after the first look and the preflight. */
  ghost predicate BeginEnabled(w: World, op: Operation) {
    FreshOperation(w, op) && op.state == OpRunning && op.clientRequestId != NONE && HasReady(op) && !w.store.broken
  }

  ghost function DoBegin(w: World, op: Operation, write: Write): World
    requires BeginEnabled(w, op)
  {
    var v := w.(past := Issue(w.past, op), store := StartStore(w.store, op, w.now, write));
    if StartReply(w.store, op, w.now, write).Launched? then Launch(v, op.id) else v
  }

  function DoExecute(w: World, id: Token, write: Write): World {
    var v := w.(store := ExecuteStore(w.store, id, w.now, write));
    if Executable(w.store, id, w.now) && w.store.Saved(write) then Launch(v, id) else v
  }

  /** First critical section of a retry. */
  predicate OpenRetryEnabled(w: World, parent: Token) {
    && parent in w.store.ops && Terminal(w.store.ops[parent].state)
    && w.store.ops[parent].retryId !in w.store.ops
    && RetryTargets(w.store.ops[parent].items) != []
  }

  function DoOpenRetry(w: World, parent: Token): World
    requires parent in w.store.ops
  {
    var items := w.store.ops[parent].items;
    w.(tickets := w.tickets + {Ticket(parent, RetryTargets(items))})
  }

  /** Second critical section, with the child that the preflight in between built of the targets. */
  ghost predicate CommitEnabled(w: World, t: Ticket, child: Operation) {
    && t in w.tickets && FreshOperation(w, child) && child.state == OpPrepared && child.clientRequestId == NONE
    && Targets(child.items) == t.targets
  }

  function Retried(h: History, child: Token, t: Ticket): History {
    h.(retries := h.retries[child := t])
  }

  function DoCommitRetry(w: World, t: Ticket, child: Operation, execute: bool, write: Write): World {
    var v := w.(past := Issue(w.past, child), tickets := w.tickets - {t});
    if t.parent !in w.store.ops || w.store.ops[t.parent].retryId in w.store.ops || (execute && !HasReady(child)) then v
    else
      var inserted := child.(state := if execute then OpRunning else OpPrepared);
      var u := v.(store := RetryStore(w.store, t.parent, inserted, w.now, write));
      if !Fits(w.store, w.now) || w.store.broken || write.Lost? then u
      else
        var logged := u.(past := Retried(u.past, child.id, t));
        if write.Stored? && execute && child.id in u.store.ops then Launch(logged, child.id) else logged
  }

  /** A retry with execution that finds its child prepared. */
  predicate ResumeEnabled(w: World, parent: Token) {
    && parent in w.store.ops && Terminal(w.store.ops[parent].state)
    && w.store.ops[parent].retryId in w.store.ops && HasReady(w.store.ops[w.store.ops[parent].retryId])
  }

  predicate WorkerHas(w: World, id: Token, item: nat) {
    id in w.workers && id in w.store.ops && item < |w.store.ops[id].items|
  }

  predicate IntendEnabled(w: World, id: Token, item: nat) {
    WorkerHas(w, id, item) && item in w.workers[id].todo
  }

  function DoIntend(w: World, id: Token, item: nat, concurrent: bool, write: Write): World
    requires IntendEnabled(w, id, item)
  {
    var worker := w.workers[id].(todo := w.workers[id].todo - {item});
    w.(store := IntendStore(w.store, id, item, concurrent, write),
       workers := w.workers[id := if w.store.Saved(write) then worker.(armed := worker.armed + {item}) else worker])
  }

  predicate ActEnabled(w: World, id: Token, item: nat) {
    id in w.workers && item in w.workers[id].armed
  }

  function DoAct(w: World, id: Token, item: nat): World
    requires ActEnabled(w, id, item)
  {
    var worker := w.workers[id];
    w.(past := w.past.(effects := w.past.effects + [(id, item)]),
       workers := w.workers[id := worker.(armed := worker.armed - {item}, acting := worker.acting + {item})])
  }

  predicate ReceiptEnabled(w: World, id: Token, item: nat, status: ItemStatus) {
    WorkerHas(w, id, item) && status in {Succeeded, Failed, Stale} && w.store.ops[id].items[item].status in {Ready, Running}
  }

  function DoReceipt(w: World, id: Token, item: nat, status: ItemStatus, write: Write): World
    requires ReceiptEnabled(w, id, item, status)
  {
    var worker := w.workers[id];
    w.(store := OutcomeStore(w.store, id, item, status, write),
       workers := w.workers[id := Worker(worker.todo - {item}, worker.armed - {item}, worker.acting - {item})])
  }

  function DoFinish(w: World, id: Token, write: Write): World
    requires id in w.workers && id in w.store.ops
  {
    w.(store := w.store.(ops := w.store.ops[id := CompletedForm(w.store.ops[id])]).Save(write), workers := w.workers - {id})
  }

  /** A crash loses memory, goroutines and requests; the new process loads the file. */
  function DoRestart(w: World, readable: bool, write: Write): World {
    w.(workers := map[], tickets := {}, store :=
      if readable then LoadStore(w.store.disk, w.now, write) else Store(map[], w.store.disk, true))
  }

  ghost predicate Enabled(w: World, a: Action) {
    match a
    case Tick(to) => true
    case Prepare(op, write) => PrepareEnabled(w, op)
    case Begin(op, write) => BeginEnabled(w, op)
    case Execute(id, write) => true
    case OpenRetry(parent) => OpenRetryEnabled(w, parent)
    case CommitRetry(t, child, execute, write) => CommitEnabled(w, t, child)
    case ResumeRetry(parent, write) => ResumeEnabled(w, parent)
    case Intend(id, item, concurrent, write) => IntendEnabled(w, id, item)
    case Act(id, item) => ActEnabled(w, id, item)
    case Receipt(id, item, status, write) => ReceiptEnabled(w, id, item, status)
    case Finish(id, write) => id in w.workers && id in w.store.ops
    case Restart(readable, write) => true
  }

  ghost function Step(w: World, a: Action): World
    requires Enabled(w, a)
  {
    match a
    case Tick(to) => w.(now := to)
    case Prepare(op, write) => DoPrepare(w, op, write)
    case Begin(op, write) => DoBegin(w, op, write)
    case Execute(id, write) => DoExecute(w, id, write)
    case OpenRetry(parent) => DoOpenRetry(w, parent)
    case CommitRetry(t, child, execute, write) => DoCommitRetry(w, t, child, execute, write)
    case ResumeRetry(parent, write) => DoExecute(w, w.store.ops[parent].retryId, write)
    case Intend(id, item, concurrent, write) => DoIntend(w, id, item, concurrent, write)
    case Act(id, item) => DoAct(w, id, item)
    case Receipt(id, item, status, write) => DoReceipt(w, id, item, status, write)
    case Finish(id, write) => DoFinish(w, id, write)
    case Restart(readable, write) => DoRestart(w, readable, write)
  }

  /** The worlds a list of actions leads through; an action that is not enabled does nothing. */
  ghost function Run(w: World, actions: seq<Action>): World {
    if actions == [] then w
    else
      var v := Run(w, actions[..|actions| - 1]);
      var a := actions[|actions| - 1];
      if Enabled(v, a) then Step(v, a) else v
  }

  // ----- What every copy of the receipts satisfies, in memory and on file -----

  ghost predicate Family(m: map<Token, Operation>) {
    forall c, p :: c in m && p in m && m[c].parentId == p ==> m[p].retryId == c
  }

  ghost predicate Known(m: map<Token, Operation>, issued: map<Token, Identity>) {
    forall id :: id in m ==>
      && id in issued && id != NONE && issued[id] == Identity(m[id].clientRequestId, m[id].fingerprint)
      && (m[id].parentId == NONE || m[id].parentId in issued)
  }

  ghost predicate NotReprepared(m: map<Token, Operation>, launches: seq<Token>) {
    forall id :: id in m && m[id].state == OpPrepared ==> id !in launches
  }

  ghost predicate EffectsRecorded(m: map<Token, Operation>, effects: seq<(Token, nat)>) {
    forall e :: e in effects && e.0 in m ==> e.1 < |m[e.0].items| && m[e.0].items[e.1].status != Ready
  }

  ghost predicate TerminalSettled(m: map<Token, Operation>) {
    forall id, i :: id in m && Terminal(m[id].state) && 0 <= i < |m[id].items| ==> !Unfinished(m[id].items[i].status)
  }

  /** A ticket passes on what failed or went stale in a terminal receipt. */
  ghost predicate Justified(m: map<Token, Operation>, t: Ticket) {
    t.parent in m ==> Terminal(m[t.parent].state) && t.targets == RetryTargets(m[t.parent].items)
  }

  ghost predicate RetriesJustified(m: map<Token, Operation>, retries: map<Token, Ticket>) {
    forall c :: c in retries ==> Justified(m, retries[c])
  }

  /** A child has the targets that its ticket passed on. */
  ghost predicate MadeOf(child: Operation, retries: map<Token, Ticket>) {
    child.parentId != NONE ==>
      child.id in retries && retries[child.id].parent == child.parentId && retries[child.id].targets == Targets(child.items)
  }

  ghost predicate ChildrenMade(m: map<Token, Operation>, retries: map<Token, Ticket>) {
    forall c :: c in m ==> m[c].id == c && MadeOf(m[c], retries)
  }

  ghost predicate Identified(m: map<Token, Operation>, issued: map<Token, Identity>) {
    |m| <= CAPACITY && Keyed(m) && UniqueClients(m) && Family(m) && Known(m, issued)
  }

  ghost predicate Recorded(m: map<Token, Operation>, h: History) {
    && NotReprepared(m, h.launches) && EffectsRecorded(m, h.effects)
    && TerminalSettled(m) && RetriesJustified(m, h.retries) && ChildrenMade(m, h.retries)
  }

  ghost predicate Consistent(m: map<Token, Operation>, h: History) {
    Identified(m, h.issued) && Recorded(m, h)
  }

  // ----- What ties goroutines and open requests to the two copies -----

  ghost predicate OnFile(w: World, id: Token) {
    && id in w.store.ops && w.store.ops[id].state == OpRunning
    && id in w.store.disk && w.store.disk[id].state == OpRunning
    && |w.store.disk[id].items| == |w.store.ops[id].items|
    && id in w.past.launches
  }

  ghost predicate ItemsOf(w: World, id: Token)
    requires OnFile(w, id) && id in w.workers
  {
    var worker := w.workers[id];
    var memory, file := w.store.ops[id].items, w.store.disk[id].items;
    && worker.todo !! worker.armed
    && (forall i :: i in worker.todo ==> i < |memory| && memory[i].status == Ready)
    && (forall i :: i in worker.armed ==> i < |memory| && memory[i].status == Running && file[i].status == Running)
    && (forall i :: i in worker.todo + worker.armed ==> (id, i) !in w.past.effects)
  }

  ghost predicate WorkersOnFile(w: World) {
    && (forall id :: id in w.workers ==> OnFile(w, id) && ItemsOf(w, id))
    && (forall id :: id in w.store.ops && w.store.ops[id].state == OpRunning ==> id in w.workers)
  }

  ghost predicate TicketsSound(w: World) {
    forall t :: t in w.tickets ==> t.parent in w.past.issued && Justified(w.store.ops, t)
  }

  ghost predicate NoRepeats<T>(s: seq<T>) {
    forall i, j :: 0 <= i < j < |s| ==> s[i] != s[j]
  }

  ghost predicate HistorySound(h: History) {
    && NoRepeats(h.launches) && NoRepeats(h.effects)
    && (forall id :: id in h.launches ==> id in h.issued)
    && (forall e :: e in h.effects ==> e.0 in h.launches)
    && (forall c :: c in h.retries ==> h.retries[c].parent in h.issued)
  }

  ghost predicate Inv(w: World) {
    && Consistent(w.store.ops, w.past) && Consistent(w.store.disk, w.past)
    && WorkersOnFile(w) && TicketsSound(w) && HistorySound(w.past)
  }
}
