/** Safety of the batch receipt protocol over every run. */
module BatchSafety {
  import opened Basics
  import opened BatchReceipts
  import opened BatchProtocol

  // ----- How the changes a section makes keep one copy of the receipts consistent -----

  lemma SubmapStays(m: map<Token, Operation>, k: map<Token, Operation>, h: History)
    requires Consistent(m, h)
    requires |k| <= CAPACITY && forall id :: id in k ==> id in m && k[id] == m[id]
    ensures Consistent(k, h)
  {
  }

  /** An operation changes in place without leaving the rules for its own items. */
  ghost predicate Progress(before: Operation, after: Operation) {
    && after.id == before.id && after.clientRequestId == before.clientRequestId && after.fingerprint == before.fingerprint
    && after.parentId == before.parentId && after.retryId == before.retryId
    && !Terminal(before.state) && |after.items| == |before.items| && Targets(after.items) == Targets(before.items)
    && (after.state == OpPrepared ==> before.state == OpPrepared)
    && (forall i :: 0 <= i < |after.items| && after.items[i].status == Ready ==> before.items[i].status == Ready)
    && (Terminal(after.state) ==> forall i :: 0 <= i < |after.items| ==> !Unfinished(after.items[i].status))
  }

  lemma ProgressClients(m: map<Token, Operation>, id: Token, after: Operation)
    requires UniqueClients(m) && Family(m) && id in m && Progress(m[id], after)
    ensures UniqueClients(m[id := after]) && Family(m[id := after])
  {
  }

  lemma ProgressKnown(m: map<Token, Operation>, id: Token, after: Operation, issued: map<Token, Identity>)
    requires Keyed(m) && Known(m, issued) && id in m && Progress(m[id], after)
    ensures Keyed(m[id := after]) && Known(m[id := after], issued)
  {
  }

  lemma ProgressIdentified(m: map<Token, Operation>, id: Token, after: Operation, h: History)
    requires Identified(m, h.issued) && id in m && Progress(m[id], after)
    ensures Identified(m[id := after], h.issued)
  {
    ProgressClients(m, id, after);
    ProgressKnown(m, id, after, h.issued);
    hide UniqueClients, Family, Keyed, Known, Progress;
    var k := m[id := after];
    assert k.Keys == m.Keys;
    assert |k| == |k.Keys|;
  }

  lemma ProgressRecorded(m: map<Token, Operation>, id: Token, after: Operation, h: History)
    requires Recorded(m, h) && id in m && Progress(m[id], after)
    ensures Recorded(m[id := after], h)
  {
    var k := m[id := after];
    assert NotReprepared(k, h.launches);
    assert EffectsRecorded(k, h.effects);
    assert TerminalSettled(k);
  }

  lemma ProgressStays(m: map<Token, Operation>, id: Token, after: Operation, h: History)
    requires Consistent(m, h) && id in m && Progress(m[id], after)
    ensures Consistent(m[id := after], h)
  {
    ProgressIdentified(m, id, after, h);
    ProgressRecorded(m, id, after, h);
  }

  /** A fresh operation: never launched, acted on or retried, and nobody's parent yet. */
  ghost predicate Fresh(m: map<Token, Operation>, op: Operation, h: History) {
    && op.id !in m && op.id in h.issued && op.id != NONE
    && h.issued[op.id] == Identity(op.clientRequestId, op.fingerprint)
    && op.id !in h.launches && !Terminal(op.state)
    && (forall e :: e in h.effects ==> e.0 != op.id)
    && (forall c :: c in h.retries ==> h.retries[c].parent != op.id)
    && (forall c :: c in m ==> m[c].parentId != op.id)
    && (op.clientRequestId == NONE || !ClientLive(m, op.clientRequestId))
    && (op.parentId == NONE || op.parentId in h.issued) && op.parentId != op.id && MadeOf(op, h.retries)
  }

  lemma AdditionClients(m: map<Token, Operation>, op: Operation)
    requires UniqueClients(m) && (op.clientRequestId == NONE || !ClientLive(m, op.clientRequestId))
    ensures UniqueClients(m[op.id := op])
  {
  }

  lemma AdditionFamily(m: map<Token, Operation>, op: Operation)
    requires Family(m) && op.parentId != op.id && forall c :: c in m ==> m[c].parentId != op.id
    requires op.parentId in m ==> m[op.parentId].retryId == op.id && forall c :: c in m ==> m[c].parentId != op.parentId
    ensures Family(m[op.id := op])
  {
  }

  lemma AdditionKnown(m: map<Token, Operation>, op: Operation, issued: map<Token, Identity>)
    requires Keyed(m) && Known(m, issued) && op.id in issued && op.id != NONE
    requires issued[op.id] == Identity(op.clientRequestId, op.fingerprint) && (op.parentId == NONE || op.parentId in issued)
    ensures Keyed(m[op.id := op]) && Known(m[op.id := op], issued)
  {
  }

  lemma AdditionSize(m: map<Token, Operation>, op: Operation)
    requires |m| < CAPACITY && op.id !in m
    ensures |m[op.id := op]| <= CAPACITY
  {
    var k := m[op.id := op];
    assert k.Keys == m.Keys + {op.id};
    assert |k| == |k.Keys|;
  }

  lemma AdditionIdentified(m: map<Token, Operation>, op: Operation, h: History)
    requires Identified(m, h.issued) && |m| < CAPACITY && Fresh(m, op, h)
    requires op.parentId in m ==> m[op.parentId].retryId == op.id && forall c :: c in m ==> m[c].parentId != op.parentId
    ensures Identified(m[op.id := op], h.issued)
  {
    AdditionClients(m, op);
    AdditionFamily(m, op);
    AdditionKnown(m, op, h.issued);
    AdditionSize(m, op);
    hide UniqueClients, Family, Keyed, Known, ClientLive;
  }

  lemma AdditionRecorded(m: map<Token, Operation>, op: Operation, h: History)
    requires Recorded(m, h) && Fresh(m, op, h)
    ensures Recorded(m[op.id := op], h)
  {
    var k := m[op.id := op];
    assert EffectsRecorded(k, h.effects);
    assert TerminalSettled(k);
    assert RetriesJustified(k, h.retries);
  }

  lemma AdditionStays(m: map<Token, Operation>, op: Operation, h: History)
    requires Consistent(m, h) && |m| < CAPACITY && Fresh(m, op, h)
    requires op.parentId in m ==> m[op.parentId].retryId == op.id && forall c :: c in m ==> m[c].parentId != op.parentId
    ensures Consistent(m[op.id := op], h)
  {
    AdditionIdentified(m, op, h);
    AdditionRecorded(m, op, h);
  }

  lemma LinkFamily(m: map<Token, Operation>, parent: Token, child: Token)
    requires Family(m) && parent in m && m[parent].retryId !in m
    ensures Family(m[parent := m[parent].(retryId := child)])
    ensures forall c :: c in m ==> m[c].parentId != parent
  {
  }

  lemma LinkClients(m: map<Token, Operation>, parent: Token, child: Token)
    requires UniqueClients(m) && parent in m
    ensures UniqueClients(m[parent := m[parent].(retryId := child)])
  {
  }

  lemma LinkKnown(m: map<Token, Operation>, parent: Token, child: Token, issued: map<Token, Identity>)
    requires Keyed(m) && Known(m, issued) && parent in m
    ensures Keyed(m[parent := m[parent].(retryId := child)]) && Known(m[parent := m[parent].(retryId := child)], issued)
  {
  }

  /** A parent without live child may point to any identifier. */
  lemma LinkIdentified(m: map<Token, Operation>, parent: Token, child: Token, issued: map<Token, Identity>)
    requires Identified(m, issued) && parent in m && m[parent].retryId !in m
    ensures Identified(m[parent := m[parent].(retryId := child)], issued)
    ensures forall c :: c in m ==> m[c].parentId != parent
  {
    LinkFamily(m, parent, child);
    LinkClients(m, parent, child);
    LinkKnown(m, parent, child, issued);
    hide Family, UniqueClients, Known, Keyed;
    var k := m[parent := m[parent].(retryId := child)];
    assert k.Keys == m.Keys;
    assert |k| == |k.Keys|;
  }

  lemma LinkRecorded(m: map<Token, Operation>, parent: Token, child: Token, h: History)
    requires Recorded(m, h) && parent in m
    ensures Recorded(m[parent := m[parent].(retryId := child)], h)
  {
    var k := m[parent := m[parent].(retryId := child)];
    assert EffectsRecorded(k, h.effects);
    assert TerminalSettled(k);
    assert RetriesJustified(k, h.retries);
  }

  lemma LinkStays(m: map<Token, Operation>, parent: Token, child: Token, h: History)
    requires Consistent(m, h) && parent in m && m[parent].retryId !in m
    ensures Consistent(m[parent := m[parent].(retryId := child)], h)
    ensures forall c :: c in m ==> m[c].parentId != parent
  {
    hide Identified, Recorded;
    LinkIdentified(m, parent, child, h.issued);
    LinkRecorded(m, parent, child, h);
  }

  lemma IssueStays(m: map<Token, Operation>, h: History, op: Operation)
    requires Consistent(m, h) && op.id !in h.issued
    ensures Consistent(m, Issue(h, op))
  {
    assert Known(m, Issue(h, op).issued);
  }

  lemma IssuedIsFresh(m: map<Token, Operation>, h: History, op: Operation)
    requires Consistent(m, h) && HistorySound(h) && op.id !in h.issued && op.id != NONE && !Terminal(op.state)
    requires (op.clientRequestId == NONE || !ClientLive(m, op.clientRequestId)) && op.parentId == NONE
    ensures Fresh(m, op, Issue(h, op))
  {
    NotIssued(m, h, op.id);
    NobodysParent(m, h, op.id);
    hide Consistent, ClientLive;
  }

  lemma NotIssued(m: map<Token, Operation>, h: History, id: Token)
    requires Consistent(m, h) && id !in h.issued
    ensures id !in m
  {
    hide Recorded;
  }

  lemma NobodysParent(m: map<Token, Operation>, h: History, id: Token)
    requires Consistent(m, h) && id !in h.issued && id != NONE
    ensures forall c :: c in m ==> m[c].parentId != id
  {
    hide Recorded;
  }

  // ----- Goroutines and open requests across a section -----

  /** Only the operation x and its goroutine may change; the file keeps every other active
      operation or receives the copy in memory. */
  ghost predicate Carries(w: World, v: World, x: Token) {
    && (forall id :: id in v.workers && id != x ==>
          && id in w.workers && v.workers[id] == w.workers[id]
          && (OnFile(w, id) ==>
                && id in v.store.ops && v.store.ops[id] == w.store.ops[id]
                && id in v.store.disk && (v.store.disk[id] == w.store.disk[id] || v.store.disk[id] == w.store.ops[id])))
    && (forall id :: id in w.workers && id != x ==> id in v.workers)
    && (forall id :: id in v.store.ops && v.store.ops[id].state == OpRunning && id != x ==>
          id in w.store.ops && w.store.ops[id].state == OpRunning)
    && (x in v.workers ==> OnFile(v, x) && ItemsOf(v, x))
    && (x in v.store.ops && v.store.ops[x].state == OpRunning ==> x in v.workers)
    && (forall e :: e in v.past.effects ==> e in w.past.effects || e.0 == x)
    && (forall id :: id in w.past.launches ==> id in v.past.launches)
  }

  lemma CarriedWorkers(w: World, v: World, x: Token)
    requires WorkersOnFile(w) && Carries(w, v, x)
    ensures WorkersOnFile(v)
  {
    forall id | id in v.workers && id != x ensures OnFile(v, id) && ItemsOf(v, id) {
      assert OnFile(w, id) && ItemsOf(w, id);
    }
  }

  /** Terminal receipts keep their items; only identifiers that were never issued join. */
  ghost predicate KeepsTerminal(w: World, v: World) {
    && (forall id :: id in w.past.issued ==> id in v.past.issued)
    && v.tickets <= w.tickets
    && (forall id :: id in v.store.ops && id in w.store.ops && Terminal(w.store.ops[id].state) ==>
          v.store.ops[id].state == w.store.ops[id].state && v.store.ops[id].items == w.store.ops[id].items)
    && (forall id :: id in v.store.ops && id !in w.store.ops ==> id !in w.past.issued)
  }

  lemma KeptTickets(w: World, v: World)
    requires TicketsSound(w) && KeepsTerminal(w, v)
    ensures TicketsSound(v)
  {
  }

  lemma SectionStays(w: World, v: World, x: Token)
    requires Inv(w) && Carries(w, v, x) && KeepsTerminal(w, v)
    requires Consistent(v.store.ops, v.past) && Consistent(v.store.disk, v.past) && HistorySound(v.past)
    ensures Inv(v)
  {
    CarriedWorkers(w, v, x);
    KeptTickets(w, v);
  }

  // ----- The inserting sections -----

  lemma CopiesConsistent(w: World)
    requires Inv(w)
    ensures Consistent(w.store.ops, w.past) && Consistent(w.store.disk, w.past) && HistorySound(w.past)
  {
    hide Consistent, WorkersOnFile, TicketsSound, HistorySound;
  }

  lemma PrunedStays(w: World)
    requires Inv(w)
    ensures Consistent(Pruned(w.store.ops, w.now), w.past)
  {
    hide Recorded, WorkersOnFile, TicketsSound, HistorySound;
    SubmapStays(w.store.ops, Pruned(w.store.ops, w.now), w.past);
  }

  lemma NewIdentifier(w: World, op: Operation)
    requires Inv(w) && FreshOperation(w, op)
    ensures op.id !in w.store.ops && op.id !in w.store.disk && op.id !in w.workers && op.id !in w.past.launches
    ensures forall e :: e in w.past.effects ==> e.0 != op.id
    ensures HistorySound(Issue(w.past, op))
  {
    hide Recorded, TicketsSound, ItemsOf;
  }

  /** What an insertion with its save leaves: a swept memory in which only a finished receipt may
      point to another retry, and a file that misses no active receipt it had. */
  ghost predicate Inserted(s: Store, t: Store, x: Token) {
    && (forall id :: id in t.ops && id != x ==>
          && id in s.ops && t.ops[id].state == s.ops[id].state && t.ops[id].items == s.ops[id].items)
    && (forall id :: id in s.ops && s.ops[id].state == OpRunning ==> id in t.ops && t.ops[id] == s.ops[id])
    && (t.disk == s.disk || forall id :: id in s.ops && s.ops[id].state == OpRunning ==> id in t.disk && t.disk[id] == s.ops[id])
  }

  lemma InsertAndSaveEffect(s: Store, op: Operation, now: int, write: Write)
    requires op.id !in s.ops
    ensures var t := InsertAndSave(s, op, now, write);
      && Inserted(s, t, op.id)
      && (op.id in t.ops <==> Fits(s, now) && s.Saved(write))
      && (op.id in t.ops ==> t.ops[op.id] == op && t.disk == t.ops)
  {
  }

  lemma InsertAndSaveStays(w: World, op: Operation, write: Write)
    requires Inv(w) && FreshOperation(w, op) && !Terminal(op.state)
    requires op.clientRequestId == NONE || !ClientLive(w.store.ops, op.clientRequestId)
    ensures var s, h := InsertAndSave(w.store, op, w.now, write), Issue(w.past, op);
      Consistent(s.ops, h) && Consistent(s.disk, h)
  {
    NewIdentifier(w, op);
    CopiesConsistent(w);
    hide Inv, Consistent, HistorySound, Fresh;
    var kept := Pruned(w.store.ops, w.now);
    PrunedStays(w);
    IssueStays(kept, w.past, op);
    IssueStays(w.store.disk, w.past, op);
    IssuedIsFresh(kept, w.past, op);
    hide Pruned;
    if |kept| < CAPACITY {
      AdditionStays(kept, op, Issue(w.past, op));
    }
  }

  /** A section that inserted the receipt x, or gave up, and launched nothing. */
  lemma InsertedStays(w: World, s: Store, h: History, x: Token, tickets: set<Ticket>)
    requires Inv(w) && x !in w.past.issued && x !in w.store.ops && x !in w.workers
    requires Consistent(s.ops, h) && Consistent(s.disk, h) && HistorySound(h)
    requires h.launches == w.past.launches && h.effects == w.past.effects && w.past.issued.Keys <= h.issued.Keys
    requires Inserted(w.store, s, x) && tickets <= w.tickets
    requires x in s.ops ==> s.ops[x].state != OpRunning
    ensures Inv(World(s, w.now, w.workers, tickets, h))
  {
    hide Consistent, WorkersOnFile, TicketsSound, HistorySound, ItemsOf;
    SectionStays(w, World(s, w.now, w.workers, tickets, h), x);
  }

  lemma PrepareStays(w: World, op: Operation, write: Write)
    requires Inv(w) && PrepareEnabled(w, op)
    ensures Inv(DoPrepare(w, op, write))
  {
    hide Consistent, WorkersOnFile, TicketsSound, HistorySound;
    NewIdentifier(w, op);
    InsertAndSaveStays(w, op, write);
    InsertAndSaveEffect(w.store, op, w.now, write);
    hide InsertAndSave, Inserted;
    InsertedStays(w, InsertAndSave(w.store, op, w.now, write), Issue(w.past, op), op.id, w.tickets);
  }

  // ----- The launching sections -----

  function Launched(h: History, id: Token): History {
    h.(launches := h.launches + [id])
  }

  lemma LaunchStays(m: map<Token, Operation>, h: History, id: Token)
    requires Consistent(m, h) && (id in m ==> m[id].state != OpPrepared)
    ensures Consistent(m, Launched(h, id))
  {
    hide Identified;
  }

  lemma LaunchHistory(h: History, id: Token)
    requires HistorySound(h) && id in h.issued && id !in h.launches
    ensures HistorySound(Launched(h, id))
  {
  }

  lemma NewWorker(v: World, id: Token)
    requires id in v.workers && id in v.store.ops && v.store.ops[id].state == OpRunning && v.store.disk == v.store.ops
    requires id in v.past.launches && v.workers[id] == Worker(ReadyItems(v.store.ops[id]), {}, {})
    requires forall e :: e in v.past.effects ==> e.0 != id
    ensures OnFile(v, id) && ItemsOf(v, id)
  {
  }

  /** A section that inserted, persisted and launched the receipt x. */
  lemma LaunchedStays(w: World, s: Store, h: History, x: Token, tickets: set<Ticket>)
    requires Inv(w) && x !in w.past.issued && x !in w.store.ops && x !in w.workers
    requires Consistent(s.ops, h) && HistorySound(h) && x in h.issued && x !in h.launches
    requires h.launches == w.past.launches && h.effects == w.past.effects && w.past.issued.Keys <= h.issued.Keys
    requires forall e :: e in h.effects ==> e.0 != x
    requires Inserted(w.store, s, x) && tickets <= w.tickets
    requires s.disk == s.ops && x in s.ops && s.ops[x].state == OpRunning
    ensures Inv(World(s, w.now, w.workers[x := Worker(ReadyItems(s.ops[x]), {}, {})], tickets, Launched(h, x)))
  {
    hide Consistent, WorkersOnFile, TicketsSound, HistorySound, ItemsOf;
    var v := World(s, w.now, w.workers[x := Worker(ReadyItems(s.ops[x]), {}, {})], tickets, Launched(h, x));
    LaunchStays(s.ops, h, x);
    LaunchHistory(h, x);
    NewWorker(v, x);
    SectionStays(w, v, x);
  }

  lemma BeginStays(w: World, op: Operation, write: Write)
    requires Inv(w) && BeginEnabled(w, op)
    ensures Inv(DoBegin(w, op, write))
  {
    hide Consistent, WorkersOnFile, TicketsSound, HistorySound;
    var h := Issue(w.past, op);
    NewIdentifier(w, op);
    if ClientLive(w.store.ops, op.clientRequestId) {
      IssueStays(w.store.ops, w.past, op);
      IssueStays(w.store.disk, w.past, op);
      InsertedStays(w, w.store, h, op.id, w.tickets);
    } else {
      var s := InsertAndSave(w.store, op, w.now, write);
      InsertAndSaveStays(w, op, write);
      InsertAndSaveEffect(w.store, op, w.now, write);
      hide InsertAndSave, Inserted;
      if op.id in s.ops {
        LaunchedStays(w, s, h, op.id, w.tickets);
      } else {
        InsertedStays(w, s, h, op.id, w.tickets);
      }
    }
  }

  lemma ExecuteStays(w: World, id: Token, write: Write)
    requires Inv(w)
    ensures Inv(DoExecute(w, id, write))
  {
    hide WorkersOnFile, TicketsSound, HistorySound, ItemsOf, Recorded, Identified;
    var v := DoExecute(w, id, write);
    if Executable(w.store, id, w.now) {
      var after := w.store.ops[id].(state := OpRunning);
      ProgressStays(w.store.ops, id, after, w.past);
      Dormant(w, id);
      if w.store.Saved(write) {
        LaunchStays(v.store.ops, w.past, id);
        LaunchHistory(w.past, id);
        NewWorker(v, id);
      }
      SectionStays(w, v, id);
    }
  }

  /** A prepared receipt has no goroutine and no past. */
  lemma Dormant(w: World, id: Token)
    requires Inv(w) && id in w.store.ops && w.store.ops[id].state == OpPrepared
    ensures id !in w.workers && id !in w.past.launches && id in w.past.issued
    ensures forall e :: e in w.past.effects ==> e.0 != id
  {
    hide TicketsSound, ItemsOf;
  }

  // ----- The second section of a retry -----

  lemma UnlinkedStays(m: map<Token, Operation>, parent: Token, h: History)
    requires Consistent(m, h) && (parent in m ==> m[parent].retryId !in m)
    ensures Consistent(Linked(m, parent, NONE), h)
  {
    hide Consistent;
    if parent in m {
      LinkStays(m, parent, NONE, h);
    }
  }

  lemma RetriedIsFresh(m: map<Token, Operation>, h: History, t: Ticket, joined: Operation)
    requires Consistent(m, h) && HistorySound(h) && joined.id !in h.issued && joined.id != NONE && !Terminal(joined.state)
    requires joined.clientRequestId == NONE && joined.parentId == t.parent && t.parent in h.issued && Targets(joined.items) == t.targets
    ensures Fresh(m, joined, Retried(Issue(h, joined), joined.id, t))
  {
    NotIssued(m, h, joined.id);
    NobodysParent(m, h, joined.id);
    hide Consistent, Targets;
  }

  lemma JoinedStays(m: map<Token, Operation>, h: History, t: Ticket, joined: Operation)
    requires Consistent(m, h) && HistorySound(h) && |m| < CAPACITY && Justified(m, t)
    requires t.parent in m ==> m[t.parent].retryId !in m
    requires joined.id !in h.issued && joined.id != NONE && !Terminal(joined.state)
    requires joined.clientRequestId == NONE && joined.parentId == t.parent && t.parent in h.issued && Targets(joined.items) == t.targets
    ensures var next := Retried(Issue(h, joined), joined.id, t);
      && Consistent(Linked(m, t.parent, NONE), next)
      && Consistent(Linked(m, t.parent, joined.id)[joined.id := joined], next)
  {
    NotIssued(m, h, joined.id);
    hide Consistent, HistorySound, Justified, Fresh, Targets;
    var linked, next := Linked(m, t.parent, joined.id), Retried(Issue(h, joined), joined.id, t);
    if t.parent in m {
      LinkStays(m, t.parent, joined.id, h);
    }
    RetriedIsFresh(linked, h, t, joined);
    IssueStays(m, h, joined);
    RetriedStays(m, Issue(h, joined), joined.id, t);
    UnlinkedStays(m, t.parent, next);
    if t.parent in m {
      LinkStays(m, t.parent, joined.id, next);
    }
    AdditionStays(linked, joined, next);
  }

  /** The ticket of a child that is not there yet. */
  lemma RetriedStays(m: map<Token, Operation>, h: History, child: Token, t: Ticket)
    requires Consistent(m, h) && Justified(m, t) && child !in m
    ensures Consistent(m, Retried(h, child, t))
  {
    hide Identified;
  }

  /** Nothing new, and no active receipt missing or changed. */
  ghost predicate Sweeps(m: map<Token, Operation>, k: map<Token, Operation>) {
    && (forall id :: id in k ==> id in m && k[id].state == m[id].state && k[id].items == m[id].items)
    && (forall id :: id in m && m[id].state == OpRunning ==> id in k && k[id] == m[id])
  }

  lemma LinkedSweeps(m: map<Token, Operation>, now: int, parent: Token, child: Token)
    requires parent in m ==> Terminal(m[parent].state)
    ensures Sweeps(m, Linked(Pruned(m, now), parent, child)) && Sweeps(m, Pruned(m, now))
  {
  }

  lemma JoinedEffect(s: Store, before: map<Token, Operation>, linked: map<Token, Operation>, child: Operation)
    requires child.id !in s.ops && Sweeps(s.ops, before) && Sweeps(s.ops, linked)
    ensures Inserted(s, Store(linked[child.id := child], linked[child.id := child], s.broken), child.id)
    ensures Inserted(s, Store(before, linked[child.id := child], s.broken), child.id)
    ensures Inserted(s, Store(before, s.disk, s.broken), child.id) && child.id !in before
  {
  }

  lemma RetryEffect(s: Store, parent: Token, child: Operation, now: int, write: Write)
    requires child.id !in s.ops && child.id != parent && (parent in s.ops ==> Terminal(s.ops[parent].state))
    ensures var t := RetryStore(s, parent, child, now, write);
      && Inserted(s, t, child.id)
      && (child.id in t.ops <==> Fits(s, now) && s.Saved(write))
      && (child.id in t.ops ==> t.ops[child.id] == child.(parentId := parent) && t.disk == t.ops)
  {
    hide Linked, Inserted, Pruned, Sweeps;
    var kept, joined := Pruned(s.ops, now), child.(parentId := parent);
    LinkedSweeps(s.ops, now, parent, NONE);
    LinkedSweeps(s.ops, now, parent, child.id);
    JoinedEffect(s, Linked(kept, parent, NONE), Linked(kept, parent, child.id), joined);
    JoinedEffect(s, kept, kept, joined);
  }

  /** The child of a retry reaches the file. */
  predicate Reaches(s: Store, now: int, write: Write) {
    Fits(s, now) && !s.broken && !write.Lost?
  }

  function RetryHistory(w: World, t: Ticket, child: Operation, write: Write): History {
    var h := Issue(w.past, child);
    if Reaches(w.store, w.now, write) then Retried(h, child.id, t) else h
  }

  /** The copies that a retry can leave, apart from the old ones. */
  lemma RetryCopies(s: Store, parent: Token, child: Operation, now: int, write: Write)
    ensures var t, kept := RetryStore(s, parent, child, now, write), Pruned(s.ops, now);
      var linked := Linked(kept, parent, child.id)[child.id := child.(parentId := parent)];
      && (Reaches(s, now, write) ==> t.disk == linked && (t.ops == linked || t.ops == Linked(kept, parent, NONE)))
      && (!Reaches(s, now, write) ==> t.disk == s.disk && (t.ops == kept || t.ops == Linked(kept, parent, NONE)))
  {
    hide Pruned, Linked;
  }

  lemma RetryStoreStays(w: World, t: Ticket, child: Operation, write: Write)
    requires Inv(w) && t in w.tickets && FreshOperation(w, child) && child.clientRequestId == NONE && !Terminal(child.state)
    requires t.parent in w.store.ops && w.store.ops[t.parent].retryId !in w.store.ops && Targets(child.items) == t.targets
    ensures var s, h := RetryStore(w.store, t.parent, child, w.now, write), RetryHistory(w, t, child, write);
      Consistent(s.ops, h) && Consistent(s.disk, h) && HistorySound(h)
  {
    KeptJustified(w, t);
    NewIdentifier(w, child);
    CopiesConsistent(w);
    hide Inv, Consistent, HistorySound, Justified, Targets, RetryStore, Linked;
    var kept, joined := Pruned(w.store.ops, w.now), child.(parentId := t.parent);
    RetryCopies(w.store, t.parent, child, w.now, write);
    PrunedStays(w);
    hide Pruned;
    assert Issue(w.past, joined) == Issue(w.past, child);
    if Reaches(w.store, w.now, write) {
      JoinedStays(kept, w.past, t, joined);
      RetriedHistory(Issue(w.past, child), child.id, t);
    } else {
      IssueStays(kept, w.past, child);
      IssueStays(w.store.disk, w.past, child);
      UnlinkedStays(kept, t.parent, Issue(w.past, child));
    }
  }

  /** The parent of an open retry is terminal and its ticket still names what failed in it. */
  lemma KeptJustified(w: World, t: Ticket)
    requires Inv(w) && t in w.tickets
    ensures t.parent in w.past.issued && Justified(w.store.ops, t) && Justified(Pruned(w.store.ops, w.now), t)
    ensures t.parent in Pruned(w.store.ops, w.now) ==>
      Pruned(w.store.ops, w.now)[t.parent] == w.store.ops[t.parent]
    ensures forall id :: id in Pruned(w.store.ops, w.now) ==> id in w.store.ops
  {
    hide Consistent, WorkersOnFile, HistorySound, RetryTargets;
  }

  /** A retry whose child is not inserted. */
  lemma GivenUpStays(w: World, op: Operation, tickets: set<Ticket>)
    requires Inv(w) && FreshOperation(w, op) && tickets <= w.tickets
    ensures Inv(World(w.store, w.now, w.workers, tickets, Issue(w.past, op)))
  {
    NewIdentifier(w, op);
    CopiesConsistent(w);
    hide Inv, Consistent, HistorySound;
    IssueStays(w.store.ops, w.past, op);
    IssueStays(w.store.disk, w.past, op);
    InsertedStays(w, w.store, Issue(w.past, op), op.id, tickets);
  }

  lemma CommitInserts(w: World, t: Ticket, child: Operation, write: Write, tickets: set<Ticket>)
    requires Inv(w) && t in w.tickets && FreshOperation(w, child) && child.clientRequestId == NONE && !Terminal(child.state)
    requires t.parent in w.store.ops && w.store.ops[t.parent].retryId !in w.store.ops && Targets(child.items) == t.targets
    requires tickets <= w.tickets
    ensures var s, h := RetryStore(w.store, t.parent, child, w.now, write), RetryHistory(w, t, child, write);
      && (child.id in s.ops <==> Fits(w.store, w.now) && w.store.Saved(write))
      && (child.id in s.ops && child.state == OpRunning ==>
            Inv(World(s, w.now, w.workers[child.id := Worker(ReadyItems(s.ops[child.id]), {}, {})], tickets, Launched(h, child.id))))
      && (child.id !in s.ops || child.state != OpRunning ==> Inv(World(s, w.now, w.workers, tickets, h)))
  {
    KeptJustified(w, t);
    NewIdentifier(w, child);
    RetryStoreStays(w, t, child, write);
    hide Inv, Consistent, HistorySound, Targets, RetryTargets;
    RetryEffect(w.store, t.parent, child, w.now, write);
    hide RetryStore, Inserted;
    var s, h := RetryStore(w.store, t.parent, child, w.now, write), RetryHistory(w, t, child, write);
    if child.id in s.ops && child.state == OpRunning {
      LaunchedStays(w, s, h, child.id, tickets);
    } else {
      InsertedStays(w, s, h, child.id, tickets);
    }
  }

  lemma CommitStays(w: World, t: Ticket, child: Operation, execute: bool, write: Write)
    requires Inv(w) && CommitEnabled(w, t, child)
    ensures Inv(DoCommitRetry(w, t, child, execute, write))
  {
    hide Inv, FreshOperation, RetryStore, Targets, RetryTargets, HasReady;
    GivenUpStays(w, child, w.tickets - {t});
    if t.parent in w.store.ops && w.store.ops[t.parent].retryId !in w.store.ops && !(execute && !HasReady(child)) {
      var inserted := child.(state := if execute then OpRunning else OpPrepared);
      StillFresh(w, child, inserted);
      CommitInserts(w, t, inserted, write, w.tickets - {t});
    }
  }

  lemma StillFresh(w: World, op: Operation, other: Operation)
    requires FreshOperation(w, op) && other == op.(state := other.state)
    ensures FreshOperation(w, other)
  {
  }

  lemma RetriedHistory(h: History, child: Token, t: Ticket)
    requires HistorySound(h) && t.parent in h.issued
    ensures HistorySound(Retried(h, child, t))
  {
  }

  lemma WorkersKept(w: World, tickets: set<Ticket>)
    requires WorkersOnFile(w)
    ensures WorkersOnFile(w.(tickets := tickets))
  {
    forall id | id in w.workers ensures OnFile(w.(tickets := tickets), id) && ItemsOf(w.(tickets := tickets), id) {
      assert OnFile(w, id) && ItemsOf(w, id);
    }
    hide ItemsOf;
  }

  lemma TicketAdded(w: World, t: Ticket)
    requires TicketsSound(w) && t.parent in w.past.issued && Justified(w.store.ops, t)
    ensures TicketsSound(w.(tickets := w.tickets + {t}))
  {
    hide Justified;
  }

  lemma OpenRetryStays(w: World, parent: Token)
    requires Inv(w) && OpenRetryEnabled(w, parent)
    ensures Inv(DoOpenRetry(w, parent))
  {
    ParentIssued(w, parent);
    hide Consistent, HistorySound, RetryTargets, WorkersOnFile, TicketsSound;
    var t := Ticket(parent, RetryTargets(w.store.ops[parent].items));
    WorkersKept(w, w.tickets + {t});
    TicketAdded(w, t);
  }

  lemma ParentIssued(w: World, id: Token)
    requires Inv(w) && id in w.store.ops
    ensures id in w.past.issued
  {
    hide Recorded, WorkersOnFile, TicketsSound, HistorySound;
  }

  // ----- The sections of a batch goroutine -----

  lemma SetItemStays(w: World, id: Token, item: nat, status: ItemStatus)
    requires Inv(w) && id in w.workers && OnFile(w, id) && item < |w.store.ops[id].items| && status != Ready
    ensures Consistent(SetItem(w.store.ops, id, item, status), w.past)
  {
    hide Consistent, WorkersOnFile, TicketsSound, HistorySound;
    ProgressStays(w.store.ops, id, WithStatus(w.store.ops[id], item, status), w.past);
  }

  lemma Workers(w: World, id: Token)
    requires WorkersOnFile(w) && id in w.workers
    ensures OnFile(w, id) && ItemsOf(w, id)
  {
  }

  /** A section of the goroutine of x: its receipt becomes `after`, the file keeps its content or
      takes the receipts with x as `written`. */
  lemma GoroutineStays(w: World, v: World, x: Token, after: Operation, written: Operation)
    requires Inv(w) && x in w.workers && OnFile(w, x)
    requires v.store.ops == w.store.ops[x := after]
    requires v.store.disk == w.store.disk || v.store.disk == w.store.ops[x := written]
    requires v.past == w.past && v.tickets == w.tickets
    requires v.workers == w.workers - {x} || (x in v.workers && v.workers == w.workers[x := v.workers[x]])
    requires x in v.workers ==> OnFile(v, x) && ItemsOf(v, x)
    requires x in v.workers <==> after.state == OpRunning
    requires Consistent(v.store.ops, w.past) && Consistent(v.store.disk, w.past)
    ensures Inv(v)
  {
    hide Consistent, TicketsSound, HistorySound, WorkersOnFile, ItemsOf;
    SectionStays(w, v, x);
  }

  lemma IntendItems(w: World, id: Token, item: nat, concurrent: bool, write: Write)
    requires IntendEnabled(w, id, item) && OnFile(w, id) && ItemsOf(w, id)
    ensures OnFile(DoIntend(w, id, item, concurrent, write), id) && ItemsOf(DoIntend(w, id, item, concurrent, write), id)
  {
  }

  lemma IntendStays(w: World, id: Token, item: nat, concurrent: bool, write: Write)
    requires Inv(w) && IntendEnabled(w, id, item)
    ensures Inv(DoIntend(w, id, item, concurrent, write))
  {
    hide Consistent, TicketsSound, HistorySound, WorkersOnFile;
    var v := DoIntend(w, id, item, concurrent, write);
    Workers(w, id);
    SetItemStays(w, id, item, Running);
    SetItemStays(w, id, item, Failed);
    IntendItems(w, id, item, concurrent, write);
    hide ItemsOf;
    GoroutineStays(w, v, id, v.store.ops[id], WithStatus(w.store.ops[id], item, Running));
  }

  lemma ReceiptItems(w: World, id: Token, item: nat, status: ItemStatus, write: Write)
    requires ReceiptEnabled(w, id, item, status) && OnFile(w, id) && ItemsOf(w, id)
    ensures OnFile(DoReceipt(w, id, item, status, write), id) && ItemsOf(DoReceipt(w, id, item, status, write), id)
  {
  }

  lemma ReceiptStays(w: World, id: Token, item: nat, status: ItemStatus, write: Write)
    requires Inv(w) && ReceiptEnabled(w, id, item, status)
    ensures Inv(DoReceipt(w, id, item, status, write))
  {
    hide Consistent, TicketsSound, HistorySound, WorkersOnFile, ItemsOf;
    var after := WithStatus(w.store.ops[id], item, status);
    Workers(w, id);
    SetItemStays(w, id, item, status);
    ReceiptItems(w, id, item, status, write);
    GoroutineStays(w, DoReceipt(w, id, item, status, write), id, after, after);
  }

  lemma FinishStays(w: World, id: Token, write: Write)
    requires Inv(w) && id in w.workers && id in w.store.ops
    ensures Inv(DoFinish(w, id, write))
  {
    hide Consistent, TicketsSound, HistorySound, WorkersOnFile, ItemsOf;
    var after := CompletedForm(w.store.ops[id]);
    Workers(w, id);
    ProgressStays(w.store.ops, id, after, w.past);
    GoroutineStays(w, DoFinish(w, id, write), id, after, after);
  }

  function Acted(h: History, id: Token, item: nat): History {
    h.(effects := h.effects + [(id, item)])
  }

  lemma ActedStays(m: map<Token, Operation>, h: History, id: Token, item: nat)
    requires Consistent(m, h) && id in m && item < |m[id].items| && m[id].items[item].status != Ready
    ensures Consistent(m, Acted(h, id, item))
  {
    hide Identified;
  }

  lemma ActedHistory(h: History, id: Token, item: nat)
    requires HistorySound(h) && id in h.launches && (id, item) !in h.effects
    ensures HistorySound(Acted(h, id, item))
  {
  }

  lemma ActStays(w: World, id: Token, item: nat)
    requires Inv(w) && ActEnabled(w, id, item)
    ensures Inv(DoAct(w, id, item))
  {
    hide Consistent, TicketsSound, HistorySound, WorkersOnFile;
    Workers(w, id);
    ActedStays(w.store.ops, w.past, id, item);
    ActedStays(w.store.disk, w.past, id, item);
    ActedHistory(w.past, id, item);
    SectionStays(w, DoAct(w, id, item), id);
  }

  // ----- Restart -----

  lemma RecoveredIdentified(m: map<Token, Operation>, now: int, issued: map<Token, Identity>)
    requires Identified(m, issued)
    ensures Identified(RecoveredAll(m, now), issued)
  {
    var k := RecoveredAll(m, now);
    forall id | id in k
      ensures id in m && k[id].id == m[id].id && k[id].clientRequestId == m[id].clientRequestId && k[id].fingerprint == m[id].fingerprint
      ensures k[id].parentId == m[id].parentId && k[id].retryId == m[id].retryId
    {
    }
    hide RecoveredAll, Recovered;
  }

  lemma RecoveredRecorded(m: map<Token, Operation>, now: int, h: History)
    requires Recorded(m, h)
    ensures Recorded(RecoveredAll(m, now), h)
  {
    var k := RecoveredAll(m, now);
    forall id | id in k
      ensures id in m && Terminal(k[id].state) && |k[id].items| == |m[id].items|
      ensures Terminal(m[id].state) ==> k[id] == m[id]
      ensures forall i :: 0 <= i < |k[id].items| ==>
        k[id].items[i].status == if Terminal(m[id].state) || !Unfinished(m[id].items[i].status) then m[id].items[i].status else Interrupted
    {
    }
    hide RecoveredAll, Recovered;
  }

  lemma RestartStays(w: World, readable: bool, write: Write)
    requires Inv(w)
    ensures Inv(DoRestart(w, readable, write))
  {
    hide Identified, Recorded, OnFile, ItemsOf, HistorySound;
    SubmapStays(w.store.disk, map[], w.past);
    RecoveredIdentified(w.store.disk, w.now, w.past.issued);
    RecoveredRecorded(w.store.disk, w.now, w.past);
  }

  // ----- Over every run -----

  lemma StepStays(w: World, a: Action)
    requires Inv(w) && Enabled(w, a)
    ensures Inv(Step(w, a))
  {
    hide DoPrepare, DoBegin, DoExecute, DoOpenRetry, DoCommitRetry, DoIntend, DoAct, DoReceipt, DoFinish, DoRestart;
    hide Inv, FreshOperation, RetryTargets, HasReady;
    match a
    case Tick(to) => TickStays(w, to);
    case Prepare(op, write) => PrepareStays(w, op, write);
    case Begin(op, write) => BeginStays(w, op, write);
    case Execute(id, write) => ExecuteStays(w, id, write);
    case OpenRetry(parent) => OpenRetryStays(w, parent);
    case CommitRetry(t, child, execute, write) => CommitStays(w, t, child, execute, write);
    case ResumeRetry(parent, write) => ExecuteStays(w, w.store.ops[parent].retryId, write);
    case Intend(id, item, concurrent, write) => IntendStays(w, id, item, concurrent, write);
    case Act(id, item) => ActStays(w, id, item);
    case Receipt(id, item, status, write) => ReceiptStays(w, id, item, status, write);
    case Finish(id, write) => FinishStays(w, id, write);
    case Restart(readable, write) => RestartStays(w, readable, write);
  }

  lemma TickStays(w: World, to: int)
    requires Inv(w)
    ensures Inv(w.(now := to))
  {
    hide Consistent, HistorySound;
  }

  lemma {:induction false} RunStays(w: World, actions: seq<Action>)
    requires Inv(w)
    ensures Inv(Run(w, actions))
    ensures forall id :: id in w.past.issued ==> id in Run(w, actions).past.issued && Run(w, actions).past.issued[id] == w.past.issued[id]
  {
    hide Inv, Step, Enabled;
    if actions != [] {
      var front, a := actions[..|actions| - 1], actions[|actions| - 1];
      RunStays(w, front);
      var v := Run(w, front);
      if Enabled(v, a) {
        StepStays(v, a);
        IdentityStays(v, a);
      }
    }
  }

  lemma IdentityStays(w: World, a: Action)
    requires Inv(w) && Enabled(w, a)
    ensures forall id :: id in w.past.issued ==> id in Step(w, a).past.issued && Step(w, a).past.issued[id] == w.past.issued[id]
  {
    hide Inv, InsertAndSave, RetryStore, ExecuteStore, StartStore, RecoveredAll, SetItem, CompletedForm;
  }

  lemma InitHolds()
    ensures Inv(Init())
  {
  }

  /** Over every run no operation is launched twice and no item acts twice. What acts was launched,
      and no copy of its receipt ever shows it as ready again. */
  lemma {:induction false} LaunchedAndActedOnce(actions: seq<Action>)
    ensures var w := Run(Init(), actions);
      && NoRepeats(w.past.launches) && NoRepeats(w.past.effects)
      && forall e :: e in w.past.effects ==>
           && e.0 in w.past.launches
           && (e.0 in w.store.ops ==> e.1 < |w.store.ops[e.0].items| && w.store.ops[e.0].items[e.1].status != Ready)
           && (e.0 in w.store.disk ==> e.1 < |w.store.disk[e.0].items| && w.store.disk[e.0].items[e.1].status != Ready)
  {
    InitHolds();
    RunStays(Init(), actions);
    hide Run, Identified, WorkersOnFile, TicketsSound, NotReprepared, TerminalSettled, RetriesJustified;
  }

  /** In every run, the file says running before an operation is launched and before an item acts. */
  lemma {:induction false} IntentPrecedesEffect(actions: seq<Action>, a: Action)
    requires Enabled(Run(Init(), actions), a)
    ensures var w := Run(Init(), actions);
      var v := Step(w, a);
      && (forall id :: id in v.past.launches && id !in w.past.launches ==>
            id in v.store.disk && v.store.disk[id].state == OpRunning)
      && (forall e :: e in v.past.effects && e !in w.past.effects ==>
            && e.0 in w.store.disk && w.store.disk[e.0].state == OpRunning
            && e.1 < |w.store.disk[e.0].items| && w.store.disk[e.0].items[e.1].status == Running)
  {
    hide Run;
    InitHolds();
    RunStays(Init(), actions);
    var w := Run(Init(), actions);
    StepIntent(w, a);
  }

  lemma RestartIsQuiet(w: World, readable: bool, write: Write)
    requires TerminalSettled(DoRestart(w, readable, write).store.ops)
    ensures var v := DoRestart(w, readable, write);
      && v.workers == map[] && v.tickets == {}
      && forall id :: id in v.store.ops ==> Terminal(v.store.ops[id].state)
    ensures var v := DoRestart(w, readable, write);
      forall id, i :: id in v.store.ops && 0 <= i < |v.store.ops[id].items| ==> !Unfinished(v.store.ops[id].items[i].status)
  {
  }

  /** Whatever ran before, a restarted server has no prepared or running receipt and no item that is
      ready or running, and its goroutines and open requests are gone. */
  lemma {:induction false} RestartLeavesNothingActive(actions: seq<Action>, readable: bool, write: Write)
    ensures var w := DoRestart(Run(Init(), actions), readable, write);
      && w.workers == map[] && w.tickets == {}
      && (forall id :: id in w.store.ops ==> Terminal(w.store.ops[id].state))
      && (forall id, i :: id in w.store.ops && 0 <= i < |w.store.ops[id].items| ==> !Unfinished(w.store.ops[id].items[i].status))
  {
    InitHolds();
    RunStays(Init(), actions);
    hide Run, DoRestart, Identified, WorkersOnFile, TicketsSound, HistorySound, TerminalSettled;
    RestartStays(Run(Init(), actions), readable, write);
    RestartIsQuiet(Run(Init(), actions), readable, write);
  }

  // ----- What gets through -----

  lemma NextStep(w: World, actions: seq<Action>, a: Action)
    ensures Run(w, actions + [a]) == if Enabled(Run(w, actions), a) then Step(Run(w, actions), a) else Run(w, actions)
  {
    assert (actions + [a])[..|actions|] == actions;
  }

  /** A goroutine with exactly the ready items to do. */
  ghost predicate StartedOn(w: World, id: Token, items: seq<Item>) {
    && id in w.workers && w.workers[id].armed == {} && w.workers[id].acting == {}
    && forall i: nat :: i in w.workers[id].todo <==> i < |items| && items[i].status == Ready
  }

  ghost predicate RoomFor(m: map<Token, Operation>, now: int) {
    |set id | id in m && OutlivesSweep(m[id], now)| < 256
  }

  lemma RoomFits(s: Store, now: int)
    ensures RoomFor(s.ops, now) <==> Fits(s, now)
  {
    assert Pruned(s.ops, now).Keys == set id | id in s.ops && OutlivesSweep(s.ops[id], now);
    assert |Pruned(s.ops, now)| == |Pruned(s.ops, now).Keys|;
  }

  /** A new request launches exactly if no receipt answers it, there is room and the file confirms. */
  lemma BeginLaunches(w: World, op: Operation, write: Write)
    requires BeginEnabled(w, op)
    ensures var v := DoBegin(w, op, write);
      var launched := (forall id :: id in w.store.ops ==> w.store.ops[id].clientRequestId != op.clientRequestId)
                      && RoomFor(w.store.ops, w.now) && write == Stored;
      && v.past.launches == (if launched then w.past.launches + [op.id] else w.past.launches)
      && (launched ==> StartedOn(v, op.id, op.items) && op.id in v.store.disk && v.store.disk[op.id] == op && v.store.ops == v.store.disk)
      && (!launched ==> v.workers == w.workers)
  {
    RoomFits(w.store, w.now);
    hide Pruned, RoomFor;
  }

  /** A prepared receipt is launched exactly if it has not expired and the file confirms. */
  lemma ExecuteLaunches(w: World, id: Token, write: Write)
    ensures var v := DoExecute(w, id, write);
      var launched := id in w.store.ops && w.store.ops[id].state == OpPrepared && w.now <= w.store.ops[id].expiresAt
                      && write == Stored && !w.store.broken;
      && v.past.launches == (if launched then w.past.launches + [id] else w.past.launches)
      && (launched ==> StartedOn(v, id, w.store.ops[id].items) && id in v.store.disk && v.store.disk[id].state == OpRunning)
      && (!launched ==> v.workers == w.workers && v.store.ops == w.store.ops)
  {
  }

  /** A retry with execution launches its child exactly if the parent is live without a live child, some
      target is ready, there is room and the file confirms. */
  lemma CommitLaunches(w: World, t: Ticket, child: Operation, execute: bool, write: Write)
    requires CommitEnabled(w, t, child) && child.id !in w.store.ops && child.id != t.parent
    ensures var v := DoCommitRetry(w, t, child, execute, write);
      var launched := t.parent in w.store.ops && w.store.ops[t.parent].retryId !in w.store.ops
                      && execute && (exists i :: 0 <= i < |child.items| && child.items[i].status == Ready)
                      && RoomFor(w.store.ops, w.now) && write == Stored && !w.store.broken;
      && v.past.launches == (if launched then w.past.launches + [child.id] else w.past.launches)
      && (launched ==> StartedOn(v, child.id, child.items) && v.store.disk == v.store.ops && child.id in v.store.ops
                       && v.store.ops[child.id].parentId == t.parent && v.store.ops[child.id].state == OpRunning)
      && (!launched ==> v.workers == w.workers)
  {
    RoomFits(w.store, w.now);
    var inserted := child.(state := if execute then OpRunning else OpPrepared);
    RetryExact(w.store, t.parent, inserted, w.now, write);
    hide RetryStore, RoomFor, FreshOperation, Targets;
  }

  /** A retry goes through both its sections: with a fresh child of the targets to retry it can be
      committed, and then launches; the first section touches neither receipts nor goroutines. */
  lemma RetryGetsThrough(w: World, parent: Token, child: Operation)
    requires OpenRetryEnabled(w, parent) && FreshOperation(w, child) && child.id !in w.store.ops && child.id != parent
    requires child.state == OpPrepared && child.clientRequestId == NONE
    requires Targets(child.items) == RetryTargets(w.store.ops[parent].items)
    ensures var v := Step(w, OpenRetry(parent)); var commit := CommitRetry(Ticket(parent, Targets(child.items)), child, true, Stored);
      && Enabled(v, commit) && var u := Step(v, commit);
      && v.store == w.store && v.workers == w.workers && v.past == w.past && v.now == w.now
      && ((exists i :: 0 <= i < |child.items| && child.items[i].status == Ready) && RoomFor(w.store.ops, w.now) && !w.store.broken ==>
            && u.past.launches == w.past.launches + [child.id] && StartedOn(u, child.id, child.items)
            && u.store.disk == u.store.ops && child.id in u.store.ops && u.store.ops[child.id].parentId == parent)
  {
    var v := Step(w, OpenRetry(parent));
    var t := Ticket(parent, Targets(child.items));
    CommitLaunches(v, t, child, true, Stored);
    hide DoCommitRetry, Targets, RetryTargets, RoomFor, StartedOn;
  }

  /** After any run, an item that a goroutine still has to do goes through when its writes are confirmed:
      it acts, and memory and file show its outcome and the rest of the receipt as it was. */
  lemma {:induction false} ReadyItemGetsThrough(actions: seq<Action>, id: Token, item: nat, status: ItemStatus, concurrent: bool)
    requires id in Run(Init(), actions).workers && item in Run(Init(), actions).workers[id].todo
    requires !Run(Init(), actions).store.broken && status in {Succeeded, Failed, Stale}
    ensures var w := Run(Init(), actions);
      var v := Run(Init(), actions + [Intend(id, item, concurrent, Stored)] + [Act(id, item)] + [Receipt(id, item, status, Stored)]);
      && v.past.effects == w.past.effects + [(id, item)]
      && OneItem(w.store.ops, v.store.ops, id, item, status) && v.store.disk == v.store.ops
  {
    InitHolds();
    RunStays(Init(), actions);
    var w := Run(Init(), actions);
    var a, b, c := Intend(id, item, concurrent, Stored), Act(id, item), Receipt(id, item, status, Stored);
    ItemReady(w, id, item);
    hide Run, Inv, Step, Enabled, OneItem;
    IntendedThen(w, id, item, concurrent);
    ActedThen(Step(w, a), id, item);
    ReceivedThen(w, Step(Step(w, a), b), id, item, status);
    NextStep(Init(), actions, a);
    NextStep(Init(), actions + [a], b);
    NextStep(Init(), actions + [a] + [b], c);
  }

  lemma IntendedThen(w: World, id: Token, item: nat, concurrent: bool)
    requires IntendEnabled(w, id, item) && !w.store.broken
    ensures var a := Intend(id, item, concurrent, Stored);
      && Enabled(w, a) && Step(w, a).past == w.past && !Step(w, a).store.broken
      && Step(w, a).store.ops == SetItem(w.store.ops, id, item, Running)
      && id in Step(w, a).workers && item in Step(w, a).workers[id].armed
  {
  }

  lemma ActedThen(w: World, id: Token, item: nat)
    requires ActEnabled(w, id, item)
    ensures var b := Act(id, item);
      && Enabled(w, b) && Step(w, b).store == w.store && id in Step(w, b).workers
      && Step(w, b).past.effects == w.past.effects + [(id, item)]
  {
  }

  lemma ReceivedThen(w: World, v: World, id: Token, item: nat, status: ItemStatus)
    requires id in w.store.ops && item < |w.store.ops[id].items| && v.store.ops == SetItem(w.store.ops, id, item, Running)
    requires id in v.workers && !v.store.broken && status in {Succeeded, Failed, Stale}
    ensures var c := Receipt(id, item, status, Stored);
      && Enabled(v, c) && Step(v, c).past == v.past
      && OneItem(w.store.ops, Step(v, c).store.ops, id, item, status) && Step(v, c).store.disk == Step(v, c).store.ops
  {
    SetItemTwice(w.store.ops, id, item, status);
    hide SetItem, OneItem;
  }

  lemma ItemReady(w: World, id: Token, item: nat)
    requires Inv(w) && id in w.workers && item in w.workers[id].todo
    ensures id in w.store.ops && item < |w.store.ops[id].items| && w.store.ops[id].items[item].status == Ready
  {
    hide Consistent, TicketsSound, HistorySound;
    assert OnFile(w, id) && ItemsOf(w, id);
  }

  lemma SetItemTwice(m: map<Token, Operation>, id: Token, item: nat, status: ItemStatus)
    requires id in m && item < |m[id].items|
    ensures var once := SetItem(m, id, item, Running);
      id in once && item < |once[id].items| && once[id].items[item].status == Running
      && OneItem(m, SetItem(once, id, item, status), id, item, status)
  {
    SetItemExact(m, id, item, Running);
    SetItemExact(SetItem(m, id, item, Running), id, item, status);
  }

  // ----- What a restart interrupted stays so -----

  /** A section leaves this receipt's state and items alone, in memory and in what it writes. */
  ghost predicate LeavesAlone(s: Store, t: Store, id: Token) {
    && (id in t.ops ==> id in s.ops && t.ops[id].state == s.ops[id].state && t.ops[id].items == s.ops[id].items)
    && (t.disk == s.disk
        || (id in t.disk ==> id in s.ops && t.disk[id].state == s.ops[id].state && t.disk[id].items == s.ops[id].items))
  }

  lemma InsertLeavesAlone(s: Store, op: Operation, now: int, write: Write, id: Token)
    requires op.id != id
    ensures LeavesAlone(s, InsertAndSave(s, op, now, write), id)
  {
  }

  lemma RetryLeavesAlone(s: Store, parent: Token, child: Operation, now: int, write: Write, id: Token)
    requires child.id != id
    ensures LeavesAlone(s, RetryStore(s, parent, child, now, write), id)
  {
  }

  lemma ExecuteLeavesAlone(s: Store, other: Token, now: int, write: Write, id: Token)
    requires id in s.ops ==> Terminal(s.ops[id].state)
    ensures LeavesAlone(s, ExecuteStore(s, other, now, write), id)
  {
  }

  lemma ItemLeavesAlone(s: Store, other: Token, item: nat, status: ItemStatus, concurrent: bool, write: Write, id: Token)
    requires other in s.ops && item < |s.ops[other].items| && other != id
    ensures LeavesAlone(s, IntendStore(s, other, item, concurrent, write), id)
    ensures LeavesAlone(s, OutcomeStore(s, other, item, status, write), id)
  {
  }

  lemma FinishLeavesAlone(s: Store, other: Token, write: Write, id: Token)
    requires other in s.ops && other != id
    ensures LeavesAlone(s, s.(ops := s.ops[other := CompletedForm(s.ops[other])]).Save(write), id)
  {
  }

  lemma StepLeavesAlone(w: World, a: Action, id: Token)
    requires Inv(w) && Enabled(w, a) && !a.Restart? && id in w.past.issued
    requires id in w.store.ops ==> Terminal(w.store.ops[id].state)
    ensures LeavesAlone(w.store, Step(w, a).store, id)
  {
    hide LeavesAlone, Inv, InsertAndSave, RetryStore, ExecuteStore, IntendStore, OutcomeStore, CompletedForm, HasReady, RetryTargets, ClientLive;
    Untouched(w.store, id);
    match a
    case Prepare(op, write) => InsertLeavesAlone(w.store, op, w.now, write, id);
    case Begin(op, write) => InsertLeavesAlone(w.store, op, w.now, write, id);
    case Execute(other, write) => ExecuteLeavesAlone(w.store, other, w.now, write, id);
    case ResumeRetry(parent, write) => ExecuteLeavesAlone(w.store, w.store.ops[parent].retryId, w.now, write, id);
    case CommitRetry(t, child, execute, write) =>
      RetryLeavesAlone(w.store, t.parent, child.(state := if execute then OpRunning else OpPrepared), w.now, write, id);
    case Intend(other, item, concurrent, write) =>
      WorkersRun(w, other);
      ItemLeavesAlone(w.store, other, item, Failed, concurrent, write, id);
    case Receipt(other, item, status, write) =>
      WorkersRun(w, other);
      ItemLeavesAlone(w.store, other, item, status, true, write, id);
    case Finish(other, write) =>
      WorkersRun(w, other);
      FinishLeavesAlone(w.store, other, write, id);
    case _ =>
  }

  lemma Untouched(s: Store, id: Token)
    ensures LeavesAlone(s, s, id)
  {
  }

  lemma WorkersRun(w: World, id: Token)
    requires Inv(w) && id in w.workers
    ensures id in w.store.ops && w.store.ops[id].state == OpRunning
  {
    hide Consistent, TicketsSound, HistorySound, ItemsOf;
  }

  /** Finished with these items, in memory and, read back, on file. */
  ghost predicate Frozen(w: World, id: Token, items: seq<Item>) {
    && id in w.past.issued
    && (id in w.store.ops ==> Terminal(w.store.ops[id].state) && w.store.ops[id].items == items)
    && (id in w.store.disk ==> Recovered(w.store.disk[id]).items == items)
  }

  lemma RestartFrozen(w: World, readable: bool, write: Write, id: Token, items: seq<Item>)
    requires Frozen(w, id, items)
    ensures Frozen(DoRestart(w, readable, write), id, items)
  {
    RecoveredAllIs(w.store.disk, w.now, id);
    RecoveredTwice(w.store.disk, w.now, id);
    hide RecoveredAll, Recovered;
  }

  lemma RecoveredAllIs(m: map<Token, Operation>, now: int, id: Token)
    ensures id in RecoveredAll(m, now) ==> id in m && RecoveredAll(m, now)[id] == Recovered(m[id])
  {
  }

  lemma RecoveredTwice(m: map<Token, Operation>, now: int, id: Token)
    ensures id in m ==> Terminal(Recovered(m[id]).state) && Recovered(Recovered(m[id])) == Recovered(m[id])
  {
    hide Settled;
  }

  lemma AloneFrozen(w: World, v: World, id: Token, items: seq<Item>)
    requires Frozen(w, id, items) && LeavesAlone(w.store, v.store, id) && id in v.past.issued
    ensures Frozen(v, id, items)
  {
    hide Settled;
  }

  lemma RestartStep(w: World, readable: bool, write: Write)
    ensures Enabled(w, Restart(readable, write)) && Step(w, Restart(readable, write)) == DoRestart(w, readable, write)
  {
    hide DoRestart;
  }

  lemma StepFrozen(w: World, a: Action, id: Token, items: seq<Item>)
    requires Inv(w) && Enabled(w, a) && Frozen(w, id, items)
    ensures Frozen(Step(w, a), id, items)
  {
    hide Step, Inv, Enabled, DoRestart;
    if a.Restart? {
      RestartStep(w, a.readable, a.w);
      RestartFrozen(w, a.readable, a.w, id, items);
    } else {
      IdentityStays(w, a);
      StepLeavesAlone(w, a, id);
      AloneFrozen(w, Step(w, a), id, items);
    }
  }

  lemma {:induction false} RunFrozen(w: World, actions: seq<Action>, id: Token, items: seq<Item>)
    requires Inv(w) && Frozen(w, id, items)
    ensures Frozen(Run(w, actions), id, items)
  {
    hide Inv, Step, Enabled, Frozen;
    if actions != [] {
      var front, a := actions[..|actions| - 1], actions[|actions| - 1];
      RunFrozen(w, front, id, items);
      RunStays(w, front);
      if Enabled(Run(w, front), a) {
        StepFrozen(Run(w, front), a, id, items);
      }
    }
  }

  lemma FreshlyFrozen(w: World, write: Write, id: Token)
    requires Inv(w) && id in DoRestart(w, true, write).store.ops
    ensures Frozen(DoRestart(w, true, write), id, DoRestart(w, true, write).store.ops[id].items)
  {
    CopiesConsistent(w);
    RecoveredAllExact(w.store.disk, w.now);
    hide Inv, Recorded, HistorySound, Settled;
  }

  /** After any run a restart keeps exactly the receipts on file within retention. Of one that was
      prepared or running, every item without an outcome is interrupted; all else is as on file. */
  lemma RestartInterruptsUnfinished(actions: seq<Action>, write: Write)
    ensures var w := Run(Init(), actions); var v := DoRestart(w, true, write);
      && (forall id :: id in v.store.ops <==> id in w.store.disk && w.now - w.store.disk[id].createdAt <= 24 * 60 * 60 * 1000)
      && (forall id :: id in v.store.ops ==> RestartedFrom(w.store.disk[id], v.store.ops[id]))
      && (v.store.disk == if write == Lost then w.store.disk else v.store.ops)
  {
    var w := Run(Init(), actions);
    RecoveredAllExact(w.store.disk, w.now);
    hide Run, RestartedFrom;
  }

  /** And so it stays: in every continuation, further restarts included, a receipt that came out of the
      restart has the same items, and a retry of it passes on only targets of items that the file showed
      as failed or stale. */
  lemma {:induction false} InterruptedIsNeverRetried(actions: seq<Action>, write: Write, more: seq<Action>, id: Token, target: Token)
    requires id in DoRestart(Run(Init(), actions), true, write).store.ops
    ensures var w := Run(Init(), actions); var v := DoRestart(w, true, write); var u := Run(v, more);
      && id in w.store.disk
      && (id in u.store.ops ==>
            && u.store.ops[id].items == v.store.ops[id].items
            && (target in RetryTargets(u.store.ops[id].items) <==>
                  exists i :: 0 <= i < |w.store.disk[id].items| && w.store.disk[id].items[i].status in {Failed, Stale}
                              && w.store.disk[id].items[i].target == target))
  {
    InitHolds();
    RunStays(Init(), actions);
    var w := Run(Init(), actions);
    var v := DoRestart(w, true, write);
    RestartStays(w, true, write);
    FreshlyFrozen(w, write, id);
    RunFrozen(v, more, id, v.store.ops[id].items);
    RestartInterruptsUnfinished(actions, write);
    RestartedTargets(w.store.disk[id], v.store.ops[id], target);
    hide Run, Inv, RestartedFrom, RetryTargets, DoRestart;
  }

  /** Over every run, in memory and on file: a client request has one live receipt, a live parent has
      one live retry, and there are at most 256 receipts. */
  lemma {:induction false} OneReceiptPerRequestAndRetry(actions: seq<Action>)
    ensures var w := Run(Init(), actions);
      forall m: map<Token, Operation> :: m == w.store.ops || m == w.store.disk ==>
        && |m| <= CAPACITY && UniqueClients(m)
        && forall a, b :: a in m && b in m && m[a].parentId == m[b].parentId && m[a].parentId in m ==> a == b
  {
    InitHolds();
    RunStays(Init(), actions);
    hide Recorded, WorkersOnFile, TicketsSound, HistorySound, Run;
  }

  /** What retries pass on, in every run, in memory and on file: a live child of a live parent has
      exactly the targets of the failed and stale items of that parent, in order, and the parent is
      finished. Nor does the parent change afterwards, whether the child lives or not. In particular no
      interrupted item is ever passed on. */
  lemma {:induction false} OnlyFailedItemsAreRetried(actions: seq<Action>, child: Token)
    ensures var w := Run(Init(), actions);
      && PassedOn(w.store.ops, child) && PassedOn(w.store.disk, child)
      && (child in w.past.retries ==> Justified(w.store.ops, w.past.retries[child]))
  {
    InitHolds();
    RunStays(Init(), actions);
    hide Run, Consistent, WorkersOnFile, TicketsSound, HistorySound, PassedOn;
    ParentIsReal(Run(Init(), actions).store.ops, Run(Init(), actions).past, child);
    ParentIsReal(Run(Init(), actions).store.disk, Run(Init(), actions).past, child);
  }

  ghost predicate PassedOn(m: map<Token, Operation>, child: Token) {
    child in m && m[child].parentId in m ==>
      && Terminal(m[m[child].parentId].state)
      && Targets(m[child].items) == RetryTargets(m[m[child].parentId].items)
  }

  lemma ParentIsReal(m: map<Token, Operation>, h: History, child: Token)
    requires Consistent(m, h)
    ensures PassedOn(m, child) && (child in h.retries ==> Justified(m, h.retries[child]))
  {
    hide Targets, RetryTargets, NotReprepared, EffectsRecorded, TerminalSettled, UniqueClients, Family;
    if child in m && m[child].parentId in m {
      assert MadeOf(m[child], h.retries);
      assert Justified(m, h.retries[child]);
    }
  }

  /** A receipt whose goroutine is at work is never pruned: it stays in memory and on file until the
      goroutine finishes or the server restarts. */
  lemma {:induction false} RunningIsKept(actions: seq<Action>, id: Token)
    requires id in Run(Init(), actions).workers
    ensures var w := Run(Init(), actions);
      && id in w.store.ops && w.store.ops[id].state == OpRunning
      && id in w.store.disk && w.store.disk[id].state == OpRunning
  {
    InitHolds();
    RunStays(Init(), actions);
    hide Consistent, TicketsSound, HistorySound, Run, ItemsOf;
  }

  /** A start that repeats a live receipt's client request changes nothing, whatever happened in
      between. It is answered with that receipt, or with a conflict when the request differs, if and
      only if the store could be loaded and saved again at the last restart; else it is refused. A
      request that passed the first look before the receipt came is answered in its second section. */
  lemma {:induction false} RepeatedStartIsAnswered(before: seq<Action>, after: seq<Action>, id: Token, again: Operation, write: Write)
    requires id in Run(Init(), before).store.ops && id in Run(Run(Init(), before), after).store.ops
    requires Run(Init(), before).store.ops[id].clientRequestId == again.clientRequestId != NONE
    ensures var v := Run(Run(Init(), before), after);
      var first := Run(Init(), before).store.ops[id].fingerprint;
      var answer := if first != NONE && first != again.fingerprint then Conflict else Existing(id);
      && RequestStore(v.store, again, v.now, write) == v.store
      && (RequestReply(v.store, again, v.now, write) == answer <==> !v.store.broken)
      && (v.store.broken ==> RequestReply(v.store, again, v.now, write) == NotLoaded)
      && StartStore(v.store, again, v.now, write) == v.store
      && (BeginEnabled(v, again) ==> StartReply(v.store, again, v.now, write) == answer)
  {
    InitHolds();
    var w := Run(Init(), before);
    RunStays(Init(), before);
    RunStays(w, after);
    hide Recorded, WorkersOnFile, TicketsSound, HistorySound, Run, Family, InsertAndSave, FreshOperation, HasReady;
    var v := Run(w, after);
    assert v.store.ops[id].clientRequestId == again.clientRequestId;
    assert ClientLive(v.store.ops, again.clientRequestId);
  }

  /** Such a refusal: the save that ends a load is lost, and the request of a receipt that is live in
      memory and on file is answered by neither the receipt nor a conflict. */
  lemma FailedReloadRefusesRepeat(op: Operation, again: Operation, write: Write)
    requires BeginEnabled(Init(), op) && !Expired(op, 0) && again.clientRequestId == op.clientRequestId
    ensures var v := Run(Init(), [Begin(op, Stored)] + [Restart(true, Lost)]);
      && op.id in v.store.ops && v.store.ops[op.id].clientRequestId == again.clientRequestId && op.id in v.store.disk
      && v.store.broken && RequestReply(v.store, again, v.now, write) == NotLoaded
  {
    NextStep(Init(), [], Begin(op, Stored));
    assert [] + [Begin(op, Stored)] == [Begin(op, Stored)];
    NextStep(Init(), [Begin(op, Stored)], Restart(true, Lost));
    BegunAlone(op);
    hide Run, DoBegin, FreshOperation;
  }

  lemma BegunAlone(op: Operation)
    requires BeginEnabled(Init(), op)
    ensures DoBegin(Init(), op, Stored).store == Store(map[op.id := op], map[op.id := op], false)
    ensures DoBegin(Init(), op, Stored).now == 0
  {
    assert Pruned(map[], 0) == map[];
    assert map[][op.id := op] == map[op.id := op];
  }

  lemma StepIntent(w: World, a: Action)
    requires Inv(w) && Enabled(w, a)
    ensures var v := Step(w, a);
      && (forall id :: id in v.past.launches && id !in w.past.launches ==>
            id in v.store.disk && v.store.disk[id].state == OpRunning)
      && (forall e :: e in v.past.effects && e !in w.past.effects ==>
            && e.0 in w.store.disk && w.store.disk[e.0].state == OpRunning
            && e.1 < |w.store.disk[e.0].items| && w.store.disk[e.0].items[e.1].status == Running)
  {
    StepStays(w, a);
    NewHistory(w, a);
    hide Inv, Step, Enabled;
    var v := Step(w, a);
    forall id | id in v.past.launches && id !in w.past.launches
      ensures id in v.store.disk && v.store.disk[id].state == OpRunning
    {
      ActiveOnFile(v, id);
    }
    forall e | e in v.past.effects && e !in w.past.effects
      ensures e.0 in w.store.disk && w.store.disk[e.0].state == OpRunning
      ensures e.1 < |w.store.disk[e.0].items| && w.store.disk[e.0].items[e.1].status == Running
    {
      ActiveOnFile(w, e.0);
    }
  }

  /** A launch leaves a goroutine behind; an effect starts from an armed item. */
  lemma NewHistory(w: World, a: Action)
    requires Enabled(w, a)
    ensures forall id :: id in Step(w, a).past.launches && id !in w.past.launches ==> id in Step(w, a).workers
    ensures forall e :: e in Step(w, a).past.effects && e !in w.past.effects ==> e.0 in w.workers && e.1 in w.workers[e.0].armed
  {
    hide InsertAndSave, RetryStore, ExecuteStore, StartStore, RecoveredAll, SetItem, CompletedForm, FreshOperation;
  }

  lemma ActiveOnFile(w: World, id: Token)
    requires Inv(w) && id in w.workers
    ensures id in w.store.disk && w.store.disk[id].state == OpRunning
    ensures forall i :: i in w.workers[id].armed ==> i < |w.store.disk[id].items| && w.store.disk[id].items[i].status == Running
  {
    hide Consistent, TicketsSound, HistorySound;
  }
}
