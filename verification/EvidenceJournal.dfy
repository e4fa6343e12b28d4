/** The audit journal of account inspection: every operation is begun in the journal file before it
    acts and finished afterwards; the journal keeps a bounded number of records and observations. */
module EvidenceJournal {
  import opened Basics

  const HISTORY_LIMIT := 1000
  const OPERATION_LIMIT := 256

  /** Identifiers and result references; NONE is the empty text. */
  type Token = nat
  const NONE: Token := 0

  datatype Observation = Observation(key: Token, ref: Token, detail: nat)

  datatype Status = Running | Succeeded | Failed | Interrupted

  datatype Record = Record(id: Token, status: Status, before: Observation, after: Option<Observation>)

  datatype Evidence = Evidence(history: seq<Observation>, operations: seq<Record>)

  function Last<T>(s: seq<T>, limit: nat): seq<T> {
    if |s| > limit then s[|s| - limit..] else s
  }

  predicate Mentions(history: seq<Observation>, ref: Token) {
    exists i :: 0 <= i < |history| && history[i].ref == ref
  }

  /** An observation joins the history once; the oldest observations make room. */
  function Archived(history: seq<Observation>, o: Observation): seq<Observation> {
    if o.key == NONE || (o.ref != NONE && Mentions(history, o.ref)) then history
    else Last(history + [o], HISTORY_LIMIT)
  }

  /** Position of the first record that is not running, or the length. */
  function FirstSettled(records: seq<Record>): (k: nat)
    ensures k <= |records|
    ensures forall i :: 0 <= i < k ==> records[i].status == Running
    ensures k < |records| ==> records[k].status != Running
  {
    if records == [] || records[0].status != Running then 0 else 1 + FirstSettled(records[1..])
  }

  function Without<T>(s: seq<T>, k: nat): seq<T>
    requires k < |s|
  {
    s[..k] + s[k + 1..]
  }

  predicate Room(e: Evidence) {
    |e.operations| < OPERATION_LIMIT || FirstSettled(e.operations) < |e.operations|
  }

  /** The evidence a successful begin leaves. */
  function Begun(e: Evidence, id: Token, before: Observation): Evidence
    requires Room(e)
  {
    var kept := if |e.operations| < OPERATION_LIMIT then e.operations else Without(e.operations, FirstSettled(e.operations));
    Evidence(Archived(e.history, before), kept + [Record(id, Running, before, None)])
  }

  function Settled(r: Record, after: Option<Observation>, ok: bool): Record {
    r.(status := if ok then Succeeded else Failed, after := if after.Some? then after else r.after)
  }

  /** The first record with the identifier is settled. */
  function Finished(records: seq<Record>, id: Token, after: Option<Observation>, ok: bool): (r: seq<Record>)
    ensures |r| == |records|
  {
    if records == [] then []
    else if records[0].id == id then [Settled(records[0], after, ok)] + records[1..]
    else [records[0]] + Finished(records[1..], id, after, ok)
  }

  function Aborted(r: Record): Record {
    if r.status == Running then r.(status := Interrupted) else r
  }

  /** What a load makes of the evidence on file. */
  function Normalized(e: Evidence): Evidence {
    var kept := Last(e.operations, OPERATION_LIMIT);
    Evidence(Last(e.history, HISTORY_LIMIT), seq(|kept|, i requires 0 <= i < |kept| => Aborted(kept[i])))
  }

  // ----- What the operations come to, record by record -----

  predicate NewestOf<T(==)>(all: seq<T>, kept: seq<T>, limit: nat) {
    (|all| <= limit ==> kept == all) && (|all| > limit ==> |kept| == limit && kept == all[|all| - limit..])
  }

  /** The observation joins unless it has no account or its result is there already; the newest 1000 stay. */
  predicate ArchivedTo(before: seq<Observation>, after: seq<Observation>, o: Observation) {
    if o.key == 0 || (o.ref != 0 && exists i :: 0 <= i < |before| && before[i].ref == o.ref) then after == before
    else NewestOf(before + [o], after, 1000)
  }

  /** A running record joins at the end; at the limit the oldest record that is not running makes room. */
  ghost predicate BegunTo(before: seq<Record>, after: seq<Record>, id: Token, o: Observation) {
    && |after| > 0 && after[|after| - 1] == Record(id, Running, o, None)
    && (|before| < 256 ==> after[..|after| - 1] == before)
    && (|before| >= 256 ==>
          exists k :: (
            && 0 <= k < |before| && before[k].status != Running
            && (forall i :: 0 <= i < k ==> before[i].status == Running)
            && after[..|after| - 1] == before[..k] + before[k + 1..]))
  }

  /** The first record of the operation gets its outcome, and nothing else changes. */
  ghost predicate FinishedTo(before: seq<Record>, after: seq<Record>, id: Token, o: Option<Observation>, ok: bool) {
    && |after| == |before|
    && forall k :: 0 <= k < |before| ==>
         after[k] == if before[k].id == id && (forall i :: 0 <= i < k ==> before[i].id != id)
                     then Record(id, if ok then Succeeded else Failed, before[k].before, if o.Some? then o else before[k].after)
                     else before[k]
  }

  /** The newest of each kind, and running records interrupted. */
  ghost predicate NormalizedTo(before: Evidence, after: Evidence) {
    && NewestOf(before.history, after.history, 1000)
    && |after.operations| == (if |before.operations| > 256 then 256 else |before.operations|)
    && forall i :: 0 <= i < |after.operations| ==>
         var r := before.operations[|before.operations| - |after.operations| + i];
         after.operations[i] == Record(r.id, if r.status == Running then Interrupted else r.status, r.before, r.after)
  }

  lemma ArchivedExact(history: seq<Observation>, o: Observation)
    ensures ArchivedTo(history, Archived(history, o), o)
  {
  }

  lemma BegunExact(e: Evidence, id: Token, o: Observation)
    ensures Room(e) <==> |e.operations| < 256 || exists i :: 0 <= i < |e.operations| && e.operations[i].status != Running
    ensures Room(e) ==> BegunTo(e.operations, Begun(e, id, o).operations, id, o) && ArchivedTo(e.history, Begun(e, id, o).history, o)
  {
    ArchivedExact(e.history, o);
    hide Archived, ArchivedTo;
    var k := FirstSettled(e.operations);
    if Room(e) {
      var ops := Begun(e, id, o).operations;
      if |e.operations| >= 256 {
        assert ops[..|ops| - 1] == e.operations[..k] + e.operations[k + 1..];
      }
    }
  }

  lemma FinishedExact(records: seq<Record>, id: Token, after: Option<Observation>, ok: bool)
    ensures FinishedTo(records, Finished(records, id, after, ok), id, after, ok)
  {
    FinishedEffect(records, id, after, ok);
    hide Finished;
  }

  lemma NormalizedExact(e: Evidence)
    ensures NormalizedTo(e, Normalized(e))
  {
  }

  // ----- The journal over a run -----

  /** `file` is the journal, `snapshot` the copy that the result snapshot keeps of it. `outstanding` holds
      the operations that were begun successfully in this process and not yet finished; `begun` numbers
      every begin in order. */
  datatype World = World(
    memory: Evidence, file: Option<Evidence>, snapshot: Option<Evidence>, outstanding: set<Token>, begun: map<Token, nat>)

  datatype Action =
    | Begin(id: Token, before: Observation, w: Write)
    | Finish(id: Token, after: Option<Observation>, ok: bool, w: Write)
    | Archive(o: Observation)
    | Save(w: Write)
    | SaveSnapshot(w: Write)
    | Restart(snapshotReadable: bool, usable: bool, w: Write)

  function Saved(file: Option<Evidence>, e: Evidence, w: Write): Option<Evidence> {
    if w.Lost? then file else Some(e)
  }

  function BeginStep(w: World, id: Token, before: Observation, write: Write): World {
    var v := w.(begun := w.begun[id := |w.begun|]);
    if !Room(w.memory) then v
    else
      var e := Begun(w.memory, id, before);
      var u := v.(file := Saved(w.file, e, write));
      if write.Stored? then u.(memory := e, outstanding := w.outstanding + {id}) else u
  }

  function Step(w: World, a: Action): World {
    match a
    case Begin(id, before, write) => BeginStep(w, id, before, write)
    case Finish(id, after, ok, write) =>
      var e := w.memory.(operations := Finished(w.memory.operations, id, after, ok));
      w.(memory := e, file := Saved(w.file, e, write), outstanding := w.outstanding - {id})
    case Archive(o) => w.(memory := w.memory.(history := Archived(w.memory.history, o)))
    case Save(write) => w.(file := Saved(w.file, w.memory, write))
    case SaveSnapshot(write) => w.(snapshot := Saved(w.snapshot, w.memory, write))
    case Restart(snapshotReadable, usable, write) => RestartStep(w, snapshotReadable, usable, write)
  }

  function OfFile(file: Option<Evidence>): Evidence {
    if file.Some? then Normalized(file.value) else Evidence([], [])
  }

  /** The snapshot's copy is loaded first. The journal takes its place, and is saved, unless it cannot be
      read or is of another generation than the snapshot. */
  function RestartStep(w: World, snapshotReadable: bool, usable: bool, write: Write): World {
    var v := w.(memory := OfFile(if snapshotReadable then w.snapshot else None), outstanding := {});
    if !usable || w.file.None? then v
    else v.(memory := OfFile(w.file), file := Saved(w.file, OfFile(w.file), write))
  }

  /** A begin draws a new identifier; a finish names an operation that is outstanding. */
  predicate Enabled(w: World, a: Action) {
    match a
    case Begin(id, before, write) => id != NONE && id !in w.begun
    case Finish(id, after, ok, write) => id in w.outstanding
    case _ => true
  }

  function Run(actions: seq<Action>): World {
    if actions == [] then World(Evidence([], []), None, None, {}, map[])
    else
      var w, a := Run(actions[..|actions| - 1]), actions[|actions| - 1];
      if Enabled(w, a) then Step(w, a) else w
  }

  ghost predicate Numbered(begun: map<Token, nat>) {
    forall id :: id in begun ==> begun[id] < |begun|
  }

  /** Records stand in the order in which their operations were begun. */
  ghost predicate InBeginOrder(records: seq<Record>, begun: map<Token, nat>) {
    && (forall i :: 0 <= i < |records| ==> records[i].id in begun)
    && (forall i, j :: 0 <= i < j < |records| ==> begun[records[i].id] < begun[records[j].id])
  }

  ghost predicate RefsOnce(history: seq<Observation>) {
    forall i, j :: 0 <= i < j < |history| && history[i].ref == history[j].ref ==> history[i].ref == NONE
  }

  ghost predicate Orderly(e: Evidence, begun: map<Token, nat>) {
    && |e.history| <= HISTORY_LIMIT && |e.operations| <= OPERATION_LIMIT
    && InBeginOrder(e.operations, begun) && RefsOnce(e.history)
  }

  ghost predicate Holds(records: seq<Record>, id: Token) {
    exists i :: 0 <= i < |records| && records[i].id == id && records[i].status == Running
  }

  ghost predicate Inv(w: World) {
    && Numbered(w.begun) && Orderly(w.memory, w.begun)
    && (w.file.Some? ==> Orderly(w.file.value, w.begun)) && (w.snapshot.Some? ==> Orderly(w.snapshot.value, w.begun))
    && (forall id :: id in w.outstanding ==>
          Holds(w.memory.operations, id) && w.file.Some? && Holds(w.file.value.operations, id))
  }

  lemma ArchivedOrderly(history: seq<Observation>, o: Observation)
    requires |history| <= HISTORY_LIMIT && RefsOnce(history)
    ensures |Archived(history, o)| <= HISTORY_LIMIT && RefsOnce(Archived(history, o))
  {
    var grown := history + [o];
    if !Mentions(history, o.ref) || o.ref == NONE {
      forall i | 0 <= i < |history| && history[i].ref == o.ref ensures o.ref == NONE {
      }
      assert RefsOnce(grown);
    }
  }

  lemma WithoutInOrder(records: seq<Record>, k: nat, begun: map<Token, nat>)
    requires k < |records| && InBeginOrder(records, begun)
    ensures InBeginOrder(Without(records, k), begun)
    ensures forall id :: Holds(records, id) && records[k].status != Running ==> Holds(Without(records, k), id)
  {
    var rest := Without(records, k);
    assert forall i :: 0 <= i < |rest| ==> rest[i] == records[if i < k then i else i + 1];
    forall id | Holds(records, id) && records[k].status != Running ensures Holds(rest, id) {
      var i :| 0 <= i < |records| && records[i].id == id && records[i].status == Running;
      assert rest[if i < k then i else i - 1] == records[i];
    }
  }

  lemma AppendedInOrder(records: seq<Record>, r: Record, begun: map<Token, nat>)
    requires InBeginOrder(records, begun) && Numbered(begun) && r.id !in begun && r.status == Running
    ensures InBeginOrder(records + [r], begun[r.id := |begun|])
    ensures forall id :: Holds(records, id) ==> Holds(records + [r], id)
    ensures Holds(records + [r], r.id)
  {
    var all := records + [r];
    assert forall i :: 0 <= i < |records| ==> all[i] == records[i];
    forall id | Holds(records, id) ensures Holds(all, id) {
      var i :| 0 <= i < |records| && records[i].id == id && records[i].status == Running;
      assert all[i] == records[i];
    }
    assert all[|records|] == r;
  }

  lemma BegunOrderly(e: Evidence, id: Token, before: Observation, begun: map<Token, nat>)
    requires Orderly(e, begun) && Room(e) && Numbered(begun) && id !in begun
    ensures Orderly(Begun(e, id, before), begun[id := |begun|])
    ensures forall other :: Holds(e.operations, other) ==> Holds(Begun(e, id, before).operations, other)
    ensures Holds(Begun(e, id, before).operations, id)
  {
    ArchivedOrderly(e.history, before);
    var kept := e.operations;
    if |e.operations| >= OPERATION_LIMIT {
      kept := Without(e.operations, FirstSettled(e.operations));
      WithoutInOrder(e.operations, FirstSettled(e.operations), begun);
    }
    AppendedInOrder(kept, Record(id, Running, before, None), begun);
    hide InBeginOrder, Holds, RefsOnce, Archived, Numbered;
  }

  /** Position of the first record with the identifier, or the length. */
  function FirstWith(records: seq<Record>, id: Token): (k: nat)
    ensures k <= |records| && (k < |records| ==> records[k].id == id)
    ensures forall i :: 0 <= i < k ==> records[i].id != id
  {
    if records == [] || records[0].id == id then 0 else 1 + FirstWith(records[1..], id)
  }

  /** Finishing changes the first record with the identifier and no other. */
  lemma {:induction false} FinishedEffect(records: seq<Record>, id: Token, after: Option<Observation>, ok: bool)
    ensures var k := FirstWith(records, id);
      Finished(records, id, after, ok) == if k < |records| then records[k := Settled(records[k], after, ok)] else records
  {
    if records != [] {
      FinishedEffect(records[1..], id, after, ok);
      assert records == [records[0]] + records[1..];
    }
  }

  lemma NumberingGrows(e: Evidence, begun: map<Token, nat>, id: Token)
    requires Orderly(e, begun) && Numbered(begun) && id !in begun
    ensures Orderly(e, begun[id := |begun|])
  {
  }

  lemma BeginKeeps(w: World, id: Token, before: Observation, write: Write)
    requires Inv(w) && id != NONE && id !in w.begun
    ensures Inv(BeginStep(w, id, before, write))
  {
    NumberingGrows(w.memory, w.begun, id);
    if w.file.Some? {
      NumberingGrows(w.file.value, w.begun, id);
    }
    if w.snapshot.Some? {
      NumberingGrows(w.snapshot.value, w.begun, id);
    }
    if Room(w.memory) {
      BegunOrderly(w.memory, id, before, w.begun);
    }
    hide Begun, Orderly, Holds, Room;
  }

  lemma FinishKeeps(w: World, id: Token, after: Option<Observation>, ok: bool, write: Write)
    requires Inv(w) && id in w.outstanding
    ensures Inv(Step(w, Finish(id, after, ok, write)))
  {
    FinishedEffect(w.memory.operations, id, after, ok);
    hide Finished, RefsOnce;
    var r := Finished(w.memory.operations, id, after, ok);
    assert InBeginOrder(r, w.begun);
    forall other | other in w.outstanding - {id} ensures Holds(r, other) {
      var i :| 0 <= i < |r| && w.memory.operations[i].id == other && w.memory.operations[i].status == Running;
      assert r[i] == w.memory.operations[i];
    }
    hide InBeginOrder;
  }

  lemma NormalizedEffect(e: Evidence, begun: map<Token, nat>)
    requires Orderly(e, begun)
    ensures Orderly(Normalized(e), begun) && |Normalized(e).operations| == |e.operations|
    ensures forall i :: 0 <= i < |e.operations| ==> Normalized(e).operations[i] == Aborted(e.operations[i])
  {
  }

  lemma StepKeeps(w: World, a: Action)
    requires Inv(w) && Enabled(w, a)
    ensures Inv(Step(w, a))
  {
    match a
    case Begin(id, before, write) => BeginKeeps(w, id, before, write);
    case Finish(id, after, ok, write) => FinishKeeps(w, id, after, ok, write);
    case Archive(o) =>
      ArchivedOrderly(w.memory.history, o);
      hide Archived, InBeginOrder, RefsOnce;
    case Save(write) =>
    case SaveSnapshot(write) =>
    case Restart(snapshotReadable, usable, write) =>
      if w.file.Some? {
        NormalizedEffect(w.file.value, w.begun);
      }
      if w.snapshot.Some? {
        NormalizedEffect(w.snapshot.value, w.begun);
      }
      hide Normalized, Orderly;
  }

  /** Over any interleaving of begins, finishes, merges, other saves of journal and snapshot, and restarts,
      with any write failing and either file unreadable: at most 1000 observations, each reference once, and 256
      records in begin order; every operation that is outstanding has its running record in memory
      and on file. */
  lemma {:induction false} JournalIsBoundedAndComplete(actions: seq<Action>)
    ensures Inv(Run(actions))
  {
    if actions != [] {
      var w, a := Run(actions[..|actions| - 1]), actions[|actions| - 1];
      JournalIsBoundedAndComplete(actions[..|actions| - 1]);
      if Enabled(w, a) {
        StepKeeps(w, a);
      }
    }
  }

  lemma RunOne(actions: seq<Action>, a: Action)
    ensures Run(actions + [a]) == if Enabled(Run(actions), a) then Step(Run(actions), a) else Run(actions)
  {
    assert (actions + [a])[..|actions|] == actions;
  }

  /** After any run, an operation whose begin is confirmed is on record in memory and on file, first as
      running and after its finish with its outcome; a begin without room or confirmation leaves no trace
      in memory. */
  lemma {:induction false} OperationGetsOnRecord(actions: seq<Action>, id: Token, o: Observation, after: Option<Observation>, ok: bool, w: Write)
    requires id != NONE && id !in Run(actions).begun
    ensures var u := Run(actions);
      var v := Run(actions + [Begin(id, o, w)]);
      var room := |u.memory.operations| < 256 || exists i :: 0 <= i < |u.memory.operations| && u.memory.operations[i].status != Running;
      && (room && w == Stored ==>
            && BegunTo(u.memory.operations, v.memory.operations, id, o) && ArchivedTo(u.memory.history, v.memory.history, o)
            && v.file == Some(v.memory) && id in v.outstanding
            && var f := Run(actions + [Begin(id, o, w)] + [Finish(id, after, ok, Stored)]);
               FinishedTo(v.memory.operations, f.memory.operations, id, after, ok) && f.file == Some(f.memory) && id !in f.outstanding)
      && (!room || w != Stored ==> v.memory == u.memory && v.outstanding == u.outstanding)
  {
    var u := Run(actions);
    BegunExact(u.memory, id, o);
    RunOne(actions, Begin(id, o, w));
    RunOne(actions + [Begin(id, o, w)], Finish(id, after, ok, Stored));
    FinishedExact(Run(actions + [Begin(id, o, w)]).memory.operations, id, after, ok);
    hide Run, BegunTo, ArchivedTo, FinishedTo, Finished;
  }

  /** After any run, an observation that is archived and saved comes back after a restart: from the
      journal, or from the snapshot's copy if the journal cannot be used. */
  lemma {:induction false} ObservationComesBack(actions: seq<Action>, o: Observation, usable: bool, last: Write)
    ensures var u := Run(actions);
      var v := Run(actions + [Archive(o)] + [Save(Stored)] + [SaveSnapshot(Stored)]);
      var r := Run(actions + [Archive(o)] + [Save(Stored)] + [SaveSnapshot(Stored)] + [Restart(true, usable, last)]);
      && ArchivedTo(u.memory.history, v.memory.history, o) && v.memory.operations == u.memory.operations
      && v.file == Some(v.memory) && v.snapshot == Some(v.memory)
      && r.memory.history == v.memory.history && NormalizedTo(v.memory, r.memory)
      && r.file == (if usable && !last.Lost? then Some(r.memory) else v.file) && r.snapshot == v.snapshot
  {
    var archived := actions + [Archive(o)];
    RunOne(actions, Archive(o));
    RunOne(archived, Save(Stored));
    RunOne(archived + [Save(Stored)], SaveSnapshot(Stored));
    RunOne(archived + [Save(Stored)] + [SaveSnapshot(Stored)], Restart(true, usable, last));
    ArchivedExact(Run(actions).memory.history, o);
    JournalIsBoundedAndComplete(archived + [Save(Stored)] + [SaveSnapshot(Stored)]);
    hide Run, ArchivedTo, Archived;
    NormalizedExact(Run(archived + [Save(Stored)] + [SaveSnapshot(Stored)]).memory);
  }

  /** A finish finds its record, settles that one and leaves every other as it was. */
  lemma {:induction false} FinishFindsItsRecord(actions: seq<Action>, id: Token, after: Option<Observation>, ok: bool, write: Write)
    returns (k: nat)
    requires id in Run(actions).outstanding
    ensures var before := Run(actions).memory.operations;
      && k < |before| && before[k].id == id && before[k].status == Running
      && Step(Run(actions), Finish(id, after, ok, write)).memory.operations
         == before[k := Record(id, if ok then Succeeded else Failed, before[k].before, if after.Some? then after else before[k].after)]
  {
    JournalIsBoundedAndComplete(actions);
    var w := Run(actions);
    k :| 0 <= k < |w.memory.operations| && w.memory.operations[k].id == id && w.memory.operations[k].status == Running;
    FinishedEffect(w.memory.operations, id, after, ok);
    hide Run, Finished, RefsOnce;
  }

  /** After a crash at any point nothing runs, whatever files can be read, and with the journal everything
      that was outstanding is on record as interrupted. */
  lemma {:induction false} RestartInterruptsOutstanding(actions: seq<Action>, snapshotReadable: bool, usable: bool, write: Write)
    ensures var w, v := Run(actions), Step(Run(actions), Restart(snapshotReadable, usable, write));
      && v.outstanding == {}
      && (usable && w.file.Some? ==> NormalizedTo(w.file.value, v.memory))
      && ((!usable || w.file.None?) && snapshotReadable && w.snapshot.Some? ==> NormalizedTo(w.snapshot.value, v.memory))
      && (forall i :: 0 <= i < |v.memory.operations| ==> v.memory.operations[i].status != Running)
      && forall id :: id in w.outstanding && usable ==>
           exists i :: 0 <= i < |v.memory.operations| && v.memory.operations[i].id == id && v.memory.operations[i].status == Interrupted
  {
    JournalIsBoundedAndComplete(actions);
    var w, v := Run(actions), Step(Run(actions), Restart(snapshotReadable, usable, write));
    hide Run, NormalizedTo;
    if w.snapshot.Some? {
      NormalizedEffect(w.snapshot.value, w.begun);
      NormalizedExact(w.snapshot.value);
    }
    if w.file.Some? {
      NormalizedEffect(w.file.value, w.begun);
      NormalizedExact(w.file.value);
      hide Normalized, Orderly;
      forall id | id in w.outstanding && usable
        ensures exists i :: 0 <= i < |v.memory.operations| && v.memory.operations[i].id == id && v.memory.operations[i].status == Interrupted
      {
        var i :| 0 <= i < |w.file.value.operations| && w.file.value.operations[i].id == id && w.file.value.operations[i].status == Running;
        assert v.memory.operations[i] == Aborted(w.file.value.operations[i]);
      }
    }
  }

  // ----- The journal object -----

  class Journal {
    var history: seq<Observation>
    var operations: seq<Record>
    var file: Option<Evidence>
    var snapshot: Option<Evidence>

    ghost function Memory(): Evidence
      reads this
    {
      Evidence(history, operations)
    }

    constructor (saved: Option<Evidence>, copied: Option<Evidence>)
      ensures Memory() == Evidence([], []) && file == saved && snapshot == copied
    {
      history, operations, file, snapshot := [], [], saved, copied;
    }

    method Save(w: Write) returns (ok: bool)
      modifies this`file
      ensures file == Saved(old(file), Memory(), w) && ok == w.Stored?
      ensures file == if w == Lost then old(file) else Some(Evidence(history, operations))
    {
      if w != Lost {
        file := Some(Evidence(history, operations));
      }
      ok := w == Stored;
    }

    /** The journal first; the snapshot follows only if it was confirmed and there is a result. */
    method SaveSnapshot(finished: bool, journal: Write, w: Write) returns (ok: bool)
      modifies this`file, this`snapshot
      ensures file == Saved(old(file), Memory(), journal)
      ensures snapshot == if journal == Stored && finished && w != Lost then Some(Evidence(history, operations)) else old(snapshot)
      ensures ok == (journal.Stored? && (finished ==> w.Stored?))
    {
      ok := Save(journal);
      if ok && finished {
        if w != Lost {
          snapshot := Some(Evidence(history, operations));
        }
        ok := w == Stored;
      }
    }

    method Archive(o: Observation)
      modifies this`history
      ensures history == Archived(old(history), o) && ArchivedTo(old(history), history, o)
    {
      ArchivedExact(history, o);
      hide ArchivedTo;
      if o.key == NONE {
        return;
      }
      for i := 0 to |history|
        invariant history == old(history)
        invariant o.ref == NONE || forall j :: 0 <= j < i ==> history[j].ref != o.ref
      {
        if o.ref != NONE && history[i].ref == o.ref {
          return;
        }
      }
      history := history + [o];
      if |history| > HISTORY_LIMIT {
        history := history[|history| - HISTORY_LIMIT..];
      }
    }

    /** The loop that looks for a record to make room. */
    method FindRemovable() returns (removable: nat)
      ensures removable == FirstSettled(operations)
    {
      removable := 0;
      while removable < |operations| && operations[removable].status == Running
        invariant removable <= |operations|
        invariant removable + FirstSettled(operations[removable..]) == FirstSettled(operations)
      {
        assert operations[removable..][1..] == operations[removable + 1..];
        removable := removable + 1;
      }
    }

    /** Succeeds with the running record in memory and on file, or leaves memory as it was. */
    method Begin(id: Token, before: Observation, w: Write) returns (ok: bool)
      modifies this
      ensures ok == (old(Room(Memory())) && w.Stored?)
      ensures ok ==> Memory() == old(Begun(Memory(), id, before)) && file == Some(Memory())
      ensures !ok ==> Memory() == old(Memory())
      ensures file == if old(Room(Memory())) then Saved(old(file), old(Begun(Memory(), id, before)), w) else old(file)
      ensures snapshot == old(snapshot)
      ensures ok <==>
        w == Stored && (|old(operations)| < 256 || exists i :: 0 <= i < |old(operations)| && old(operations)[i].status != Running)
      ensures ok ==>
        && BegunTo(old(operations), operations, id, before) && ArchivedTo(old(history), history, before)
        && file == Some(Evidence(history, operations))
    {
      BegunExact(Memory(), id, before);
      hide Archived, FirstSettled, BegunTo, ArchivedTo;
      var previousHistory, previousOperations := history, operations;
      Archive(before);
      var record := Record(id, Running, before, None);
      if |operations| >= OPERATION_LIMIT {
        var removable := FindRemovable();
        if removable == |operations| {
          history := previousHistory;
          return false;
        }
        operations := operations[..removable] + operations[removable + 1..];
      }
      operations := operations + [record];
      ok := Save(w);
      if !ok {
        history, operations := previousHistory, previousOperations;
      }
    }

    method Finish(id: Token, after: Option<Observation>, success: bool, w: Write) returns (ok: bool)
      modifies this`operations, this`file
      ensures operations == Finished(old(operations), id, after, success)
      ensures file == Saved(old(file), Memory(), w) && ok == w.Stored?
      ensures FinishedTo(old(operations), operations, id, after, success)
      ensures file == if w == Lost then old(file) else Some(Evidence(history, operations))
    {
      FinishedExact(operations, id, after, success);
      hide FinishedTo;
      FinishedEffect(operations, id, after, success);
      hide Finished, Settled;
      ghost var before := operations;
      for i := 0 to |operations|
        invariant operations == before && file == old(file) && history == old(history)
        invariant forall j :: 0 <= j < i ==> operations[j].id != id
      {
        if operations[i].id == id {
          operations := operations[i := Settled(operations[i], after, success)];
          break;
        }
      }
      assert operations == Finished(before, id, after, success);
      ok := Save(w);
    }

    /** Cuts to the limits and interrupts what was running. */
    method Normalize()
      modifies this`history, this`operations
      ensures Memory() == Normalized(old(Memory())) && NormalizedTo(old(Memory()), Memory())
    {
      NormalizedExact(Memory());
      hide NormalizedTo;
      if |history| > HISTORY_LIMIT {
        history := history[|history| - HISTORY_LIMIT..];
      }
      if |operations| > OPERATION_LIMIT {
        operations := operations[|operations| - OPERATION_LIMIT..];
      }
      ghost var kept := operations;
      for i := 0 to |operations|
        invariant |operations| == |kept| && history == Last(old(history), HISTORY_LIMIT)
        invariant forall k :: 0 <= k < |kept| ==> operations[k] == if k < i then Aborted(kept[k]) else kept[k]
      {
        if operations[i].status == Running {
          operations := operations[i := operations[i].(status := Interrupted)];
        }
      }
    }

    /** Start of the server: the snapshot's copy, then the journal in its place if it can be used. */
    method Load(snapshotReadable: bool, usable: bool, w: Write)
      requires Memory() == Evidence([], [])
      modifies this
      ensures snapshot == old(snapshot)
      ensures !usable || old(file).None? ==>
        Memory() == OfFile(if snapshotReadable then old(snapshot) else None) && file == old(file)
      ensures usable && old(file).Some? ==> Memory() == OfFile(old(file)) && file == Saved(old(file), Memory(), w)
      ensures usable && old(file).Some? ==>
        NormalizedTo(old(file).value, Memory()) && file == if w == Lost then old(file) else Some(Memory())
      ensures (!usable || old(file).None?) && snapshotReadable && snapshot.Some? ==> NormalizedTo(snapshot.value, Memory())
      ensures (!usable || old(file).None?) && (!snapshotReadable || snapshot.None?) ==> history == [] && operations == []
    {
      hide Normalized, NormalizedTo;
      if snapshotReadable && snapshot.Some? {
        history, operations := snapshot.value.history, snapshot.value.operations;
        Normalize();
      }
      if !usable || file.None? {
        return;
      }
      history, operations := file.value.history, file.value.operations;
      Normalize();
      var ok := Save(w);
    }
  }
}
