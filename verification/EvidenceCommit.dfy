/** The result snapshot and the evidence journal are two atomic files. Each carries the generation
    that the last import drew, and the snapshot is the commit point of an import. */
module EvidenceCommit {
  import opened Basics

  /** A random generation label; NONE is the empty label of a server that never imported. */
  type Label = nat
  const NONE: Label := 0

  /** A result, observation or audit record, stamped with the import under which it came into memory
      (0 before the first). The stamp is provenance, the program does not store it. */
  datatype Item = Item(stamp: nat, data: nat)

  datatype Snapshot = Snapshot(gen: Label, cleared: bool, results: seq<Item>, history: seq<Item>, operations: seq<Item>)

  datatype Sidecar = Sidecar(gen: Label, history: seq<Item>, operations: seq<Item>)

  datatype Files = Files(snapshot: Option<Snapshot>, sidecar: Option<Sidecar>)

  /** How far an import has come; the scheduler's mutex is held until it is quiet again. */
  datatype Import = Quiet | SidecarWritten(next: Snapshot, previous: Option<Sidecar>) | RollBack(previous: Option<Sidecar>)

  datatype Memory = Memory(gen: Label, results: seq<Item>, history: seq<Item>, operations: seq<Item>, finished: bool)

  /** `imports` numbers the labels that were drawn. */
  datatype World = World(memory: Memory, files: Files, import_: Import, imports: map<Label, nat>)

  function Put<T>(file: Option<T>, content: Option<T>, w: Write): Option<T> {
    if w.Lost? then file else content
  }

  function SnapshotOf(m: Memory): Snapshot {
    Snapshot(m.gen, false, m.results, m.history, m.operations)
  }

  function SidecarOf(m: Memory): Sidecar {
    Sidecar(m.gen, m.history, m.operations)
  }

  /** What a snapshot makes of the memory. */
  function Applied(s: Snapshot): Memory {
    if s.cleared then Memory(s.gen, [], [], [], false) else Memory(s.gen, s.results, s.history, s.operations, true)
  }

  /** The memory has what the snapshot has, or nothing if that was cleared. */
  predicate TakenFrom(m: Memory, s: Snapshot) {
    && m.gen == s.gen
    && (!s.cleared ==> m.results == s.results && m.history == s.history && m.operations == s.operations && m.finished)
    && (s.cleared ==> m.results == [] && m.history == [] && m.operations == [] && !m.finished)
  }

  function OfSnapshot(s: Option<Snapshot>): Memory {
    if s.Some? then Applied(s.value) else Memory(NONE, [], [], [], false)
  }

  datatype Action =
    | Work(results: seq<Item>, history: seq<Item>, operations: seq<Item>, finished: bool)
    | SaveSidecar(w: Write)
    | SaveSnapshot(w: Write)
    | BeginImport(next: Snapshot, w: Write)
    | CommitImport(w: Write)
    | UndoImport(w: Write)
    | Restart(snapshotReadable: bool, sidecarReadable: bool, w: Write)

  predicate Stamped(items: seq<Item>, stamp: nat) {
    forall i :: 0 <= i < |items| ==> items[i].stamp == stamp
  }

  /** Work keeps items or adds items under the import in force. */
  predicate Grows(before: seq<Item>, after: seq<Item>, stamp: nat) {
    forall i :: 0 <= i < |after| ==> after[i] in before || after[i].stamp == stamp
  }

  /** An import of "null" writes a cleared snapshot, which is made without any content. */
  predicate Sensible(next: Snapshot) {
    next.cleared ==> next.results == [] && next.history == [] && next.operations == []
  }

  predicate Enabled(w: World, a: Action) {
    match a
    case Work(results, history, operations, finished) =>
      && w.import_.Quiet? && w.memory.gen in w.imports
      && Grows(w.memory.results, results, w.imports[w.memory.gen])
      && Grows(w.memory.history, history, w.imports[w.memory.gen])
      && Grows(w.memory.operations, operations, w.imports[w.memory.gen])
    case SaveSidecar(write) => w.import_.Quiet?
    case SaveSnapshot(write) => w.import_.Quiet? && w.memory.finished
    case BeginImport(next, write) =>
      && w.import_.Quiet? && next.gen !in w.imports && Sensible(next)
      && Stamped(next.results, |w.imports|) && Stamped(next.history, |w.imports|) && Stamped(next.operations, |w.imports|)
    case CommitImport(write) => w.import_.SidecarWritten?
    case UndoImport(write) => w.import_.RollBack?
    case Restart(snapshotReadable, sidecarReadable, write) => true
  }

  /** First file of an import: the journal with the new label. */
  function DoBegin(w: World, next: Snapshot, write: Write): World {
    var files := w.files.(sidecar := Put(w.files.sidecar, Some(Sidecar(next.gen, next.history, next.operations)), write));
    World(w.memory, files, if write.Stored? then SidecarWritten(next, w.files.sidecar) else Quiet,
          w.imports[next.gen := |w.imports|])
  }

  /** Second file: the snapshot. Memory follows only when it was confirmed. */
  function DoCommit(w: World, write: Write): World
    requires w.import_.SidecarWritten?
  {
    var files := w.files.(snapshot := Put(w.files.snapshot, Some(w.import_.next), write));
    if write.Stored? then w.(memory := Applied(w.import_.next), files := files, import_ := Quiet)
    else w.(files := files, import_ := RollBack(w.import_.previous))
  }

  /** The journal file gets its old content back, or is removed if there was none. */
  function DoUndo(w: World, write: Write): World
    requires w.import_.RollBack?
  {
    w.(files := w.files.(sidecar := Put(w.files.sidecar, w.import_.previous, write)), import_ := Quiet)
  }

  /** The snapshot is loaded first; the journal counts only if its gen is the snapshot's. */
  function DoRestart(w: World, snapshotReadable: bool, sidecarReadable: bool, write: Write): World {
    var m := OfSnapshot(if snapshotReadable then w.files.snapshot else None);
    if !sidecarReadable || w.files.sidecar.None? || w.files.sidecar.value.gen != m.gen then
      w.(memory := m, import_ := Quiet)
    else
      var loaded := m.(history := w.files.sidecar.value.history, operations := w.files.sidecar.value.operations);
      w.(memory := loaded, import_ := Quiet, files := w.files.(sidecar := Put(w.files.sidecar, Some(SidecarOf(loaded)), write)))
  }

  function Step(w: World, a: Action): World
    requires Enabled(w, a)
  {
    match a
    case Work(results, history, operations, finished) => w.(memory := Memory(w.memory.gen, results, history, operations, finished))
    case SaveSidecar(write) => w.(files := w.files.(sidecar := Put(w.files.sidecar, Some(SidecarOf(w.memory)), write)))
    case SaveSnapshot(write) => w.(files := w.files.(snapshot := Put(w.files.snapshot, Some(SnapshotOf(w.memory)), write)))
    case BeginImport(next, write) => DoBegin(w, next, write)
    case CommitImport(write) => DoCommit(w, write)
    case UndoImport(write) => DoUndo(w, write)
    case Restart(snapshotReadable, sidecarReadable, write) => DoRestart(w, snapshotReadable, sidecarReadable, write)
  }

  function Init(): World {
    World(Memory(NONE, [], [], [], false), Files(None, None), Quiet, map[NONE := 0])
  }

  function Run(actions: seq<Action>): World {
    if actions == [] then Init()
    else
      var w, a := Run(actions[..|actions| - 1]), actions[|actions| - 1];
      if Enabled(w, a) then Step(w, a) else w
  }

  /** Everything under a label came in under the import that drew the label. */
  predicate Uniform(gen: Label, results: seq<Item>, history: seq<Item>, operations: seq<Item>, imports: map<Label, nat>) {
    && gen in imports
    && Stamped(results, imports[gen]) && Stamped(history, imports[gen]) && Stamped(operations, imports[gen])
  }

  predicate UniformSnapshot(s: Snapshot, imports: map<Label, nat>) {
    Uniform(s.gen, s.results, s.history, s.operations, imports)
  }

  predicate UniformSidecar(s: Option<Sidecar>, imports: map<Label, nat>) {
    s.Some? ==> Uniform(s.value.gen, [], s.value.history, s.value.operations, imports)
  }

  predicate Inv(w: World) {
    && NONE in w.imports && w.imports[NONE] == 0
    && Uniform(w.memory.gen, w.memory.results, w.memory.history, w.memory.operations, w.imports)
    && (w.files.snapshot.Some? ==> UniformSnapshot(w.files.snapshot.value, w.imports))
    && UniformSidecar(w.files.sidecar, w.imports)
    && (w.import_.SidecarWritten? ==> UniformSnapshot(w.import_.next, w.imports) && UniformSidecar(w.import_.previous, w.imports))
    && (w.import_.RollBack? ==> UniformSidecar(w.import_.previous, w.imports))
  }

  lemma StepKeeps(w: World, a: Action)
    requires Inv(w) && Enabled(w, a)
    ensures Inv(Step(w, a))
  {
  }

  /** For every crash point in any sequence of journal writes, snapshot writes and imports, with any
      write or rollback failing and any file unreadable: results, observations and audit records in
      memory all belong to one import. */
  lemma {:induction false} OneGenerationInMemory(actions: seq<Action>)
    ensures Inv(Run(actions))
    ensures var w := Run(actions);
      forall item :: item in w.memory.results + w.memory.history + w.memory.operations ==>
        w.memory.gen in w.imports && item.stamp == w.imports[w.memory.gen]
  {
    if actions != [] {
      var w, a := Run(actions[..|actions| - 1]), actions[|actions| - 1];
      OneGenerationInMemory(actions[..|actions| - 1]);
      if Enabled(w, a) {
        StepKeeps(w, a);
      }
    }
  }

  /** What an import leaves on file is a state that a restart accepts as the old or as the new
      generation: the snapshot decides, whichever of the three writes failed. */
  lemma {:induction false} ImportIsAllOrNothing(actions: seq<Action>, next: Snapshot, journal: Write, commit: Write, undo: Write, last: Write)
    requires Enabled(Run(actions), BeginImport(next, journal))
    ensures var w := Run(actions);
      var v, m := DoRestart(WholeImport(w, next, journal, commit, undo), true, true, last), OfSnapshot(w.files.snapshot);
      && (v.memory.gen == next.gen <==> journal.Stored? && !commit.Lost?)
      && (v.memory.gen == next.gen ==> TakenFrom(v.memory, next))
      && (v.memory.gen != next.gen ==> v.memory.gen == m.gen && v.memory.results == m.results && v.memory.finished == m.finished)
      && (w.files.snapshot.Some? ==> TakenFrom(m, w.files.snapshot.value))
      && (w.files.snapshot.None? ==> m == Memory(NONE, [], [], [], false))
  {
    OneGenerationInMemory(actions);
    hide Run;
  }

  // ----- What is saved comes back -----

  /** After any run, results, observations and audit records that were saved in both files are those
      that a restart finds. */
  lemma {:induction false} SavedComesBack(actions: seq<Action>, last: Write)
    requires Run(actions).import_.Quiet? && Run(actions).memory.finished
    ensures var w := Run(actions);
      var v := Run(actions + [SaveSidecar(Stored)] + [SaveSnapshot(Stored)] + [Restart(true, true, last)]);
      && v.memory == w.memory
      && v.files.snapshot == Some(Snapshot(w.memory.gen, false, w.memory.results, w.memory.history, w.memory.operations))
      && v.files.sidecar == Some(Sidecar(w.memory.gen, w.memory.history, w.memory.operations))
  {
    RunOne(actions, SaveSidecar(Stored));
    RunOne(actions + [SaveSidecar(Stored)], SaveSnapshot(Stored));
    RunOne(actions + [SaveSidecar(Stored)] + [SaveSnapshot(Stored)], Restart(true, true, last));
    hide Run;
  }

  /** With the journal alone saved, its records come back exactly if the snapshot is of their generation
      or has the same ones; the results are those of the snapshot. */
  lemma {:induction false} SavedJournalComesBack(actions: seq<Action>, last: Write)
    requires Run(actions).import_.Quiet?
    ensures var w := Run(actions);
      var v, m := Run(actions + [SaveSidecar(Stored)] + [Restart(true, true, last)]), OfSnapshot(w.files.snapshot);
      && v.memory.gen == m.gen && v.memory.results == m.results
      && (v.memory.history == w.memory.history && v.memory.operations == w.memory.operations
          <==> w.memory.gen == m.gen || (w.memory.history == m.history && w.memory.operations == m.operations))
  {
    RunOne(actions, SaveSidecar(Stored));
    RunOne(actions + [SaveSidecar(Stored)], Restart(true, true, last));
    hide Run;
  }

  /** After any run, work goes on where an import or a restart has left the memory: what is added to the
      imported results is there, and neither a restart nor a failed import leaves the import open. */
  lemma {:induction false} WorkGoesOn(actions: seq<Action>, next: Snapshot, data: nat, undo: Write)
    requires Enabled(Run(actions), BeginImport(next, Stored)) && !next.cleared
    ensures var w := Run(actions); var results := next.results + [Item(|w.imports|, data)];
      var done := actions + [BeginImport(next, Stored)] + [CommitImport(Stored)];
      var failed := actions + [BeginImport(next, Stored)] + [CommitImport(Lost)] + [UndoImport(undo)];
      && Run(done + [Work(results, next.history, next.operations, true)]).memory
         == Memory(next.gen, results, next.history, next.operations, true)
      && Run(failed).import_.Quiet? && Run(failed).memory == w.memory && Run(failed).files.snapshot == w.files.snapshot
      && (undo.Stored? ==> Run(failed).files == w.files)
  {
    var w := Run(actions);
    OneGenerationInMemory(actions);
    RunOne(actions, BeginImport(next, Stored));
    var begun := actions + [BeginImport(next, Stored)];
    RunOne(begun, CommitImport(Stored));
    RunOne(begun + [CommitImport(Stored)], Work(next.results + [Item(|w.imports|, data)], next.history, next.operations, true));
    RunOne(begun, CommitImport(Lost));
    RunOne(begun + [CommitImport(Lost)], UndoImport(undo));
    hide Run, Uniform;
  }

  lemma {:induction false} RestartIsQuiet(actions: seq<Action>, snapshotReadable: bool, sidecarReadable: bool, write: Write)
    ensures Run(actions + [Restart(snapshotReadable, sidecarReadable, write)]).import_.Quiet?
  {
    RunOne(actions, Restart(snapshotReadable, sidecarReadable, write));
    hide Run;
  }

  // ----- Crashes and failures in the middle of an import -----

  /** The journal file adds nothing to what the snapshot has. */
  predicate JournalRedundant(f: Files) {
    var m := OfSnapshot(f.snapshot);
    || f.sidecar.None? || f.sidecar.value.gen != m.gen
    || (f.sidecar.value.history == m.history && f.sidecar.value.operations == m.operations)
  }

  /** Starting an import overwrites the journal file before the import is committed. A crash right
      there loses what only the journal file had, and nothing else. */
  lemma {:induction false} CrashAfterFirstWrite(actions: seq<Action>, next: Snapshot, journal: Write, last: Write)
    requires Enabled(Run(actions), BeginImport(next, journal))
    ensures var w := Run(actions);
      var u, v := DoRestart(w, true, true, last), DoRestart(DoBegin(w, next, journal), true, true, last);
      && v.memory.(history := u.memory.history, operations := u.memory.operations) == u.memory
      && (v.memory == u.memory <==> journal.Lost? || JournalRedundant(w.files))
  {
    OneGenerationInMemory(actions);
    hide Run;
  }

  /** A crash between a failed second write and the rollback: as after the first write, unless the
      snapshot was replaced in spite of the error, which makes the import complete. */
  lemma {:induction false} CrashBeforeRollback(actions: seq<Action>, next: Snapshot, commit: Write, last: Write)
    requires Enabled(Run(actions), BeginImport(next, Stored)) && !commit.Stored?
    ensures var w := Run(actions);
      var failed := DoCommit(DoBegin(w, next, Stored), commit);
      var u, v := DoRestart(w, true, true, last), DoRestart(failed, true, true, last);
      && failed.import_.RollBack?
      && (commit.StoredWithError? ==> TakenFrom(v.memory, next))
      && (commit.Lost? ==> (v.memory == u.memory <==> JournalRedundant(w.files)))
  {
    OneGenerationInMemory(actions);
    hide Run;
  }

  /** A whole import whose snapshot was not replaced is undone on file, too, except that the journal's
      own records are lost if its write was reported as failed although it took place, or if the
      rollback is lost. */
  lemma {:induction false} FailedImportIsUndone(actions: seq<Action>, next: Snapshot, journal: Write, commit: Write, undo: Write, last: Write)
    requires Enabled(Run(actions), BeginImport(next, journal)) && !(journal.Stored? && !commit.Lost?)
    ensures var w := Run(actions);
      var u, v := DoRestart(w, true, true, last), DoRestart(WholeImport(w, next, journal, commit, undo), true, true, last);
      v.memory == u.memory <==> journal.Lost? || (journal.Stored? && !undo.Lost?) || JournalRedundant(w.files)
  {
    OneGenerationInMemory(actions);
    hide Run;
  }

  lemma SavedOperation(op: Item)
    requires op.stamp == 1
    ensures var first := Snapshot(7, false, [], [], []);
      Run([BeginImport(first, Stored), CommitImport(Stored), Work([], [], [op], true), SaveSidecar(Stored)])
      == World(Memory(7, [], [], [op], true), Files(Some(first), Some(Sidecar(7, [], [op]))), Quiet, map[NONE := 0, 7 := 1])
  {
    var first := Snapshot(7, false, [], [], []);
    var a := [BeginImport(first, Stored)];
    var b := a + [CommitImport(Stored)];
    var c := b + [Work([], [], [op], true)];
    RunOne([], BeginImport(first, Stored));
    RunOne(a, CommitImport(Stored));
    RunOne(b, Work([], [], [op], true));
    RunOne(c, SaveSidecar(Stored));
    assert [] + [BeginImport(first, Stored)] == a;
    assert c + [SaveSidecar(Stored)] == [BeginImport(first, Stored), CommitImport(Stored), Work([], [], [op], true), SaveSidecar(Stored)];
    hide Run;
  }

  /** An audit record that was safely on file before the import is gone after the crash. */
  lemma InterruptedImportForgetsAnOperation(op: Item, at: Write)
    requires op.stamp == 1
    ensures var first, second := Snapshot(7, false, [], [], []), Snapshot(8, false, [], [], []);
      var saved := [BeginImport(first, Stored), CommitImport(Stored), Work([], [], [op], true), SaveSidecar(Stored)];
      && Run(saved + [Restart(true, true, at)]).memory.operations == [op]
      && Run(saved + [BeginImport(second, Stored)] + [Restart(true, true, at)]).memory.operations == []
  {
    hide Run;
    var first, second := Snapshot(7, false, [], [], []), Snapshot(8, false, [], [], []);
    var saved := [BeginImport(first, Stored), CommitImport(Stored), Work([], [], [op], true), SaveSidecar(Stored)];
    SavedOperation(op);
    RunOne(saved, BeginImport(second, Stored));
    RunOne(saved, Restart(true, true, at));
    RunOne(saved + [BeginImport(second, Stored)], Restart(true, true, at));
  }

  lemma RunOne(actions: seq<Action>, a: Action)
    ensures Run(actions + [a]) == if Enabled(Run(actions), a) then Step(Run(actions), a) else Run(actions)
  {
    assert (actions + [a])[..|actions|] == actions;
  }

  // ----- The import as the scheduler runs it under its mutex -----

  function WholeImport(w: World, next: Snapshot, journal: Write, commit: Write, undo: Write): World {
    var begun := DoBegin(w, next, journal);
    if !begun.import_.SidecarWritten? then begun
    else
      var committed := DoCommit(begun, commit);
      if committed.import_.RollBack? then DoUndo(committed, undo) else committed
  }

  /** The scheduler's evidence, with the files it keeps it in. */
  class Evidence {
    var memory: Memory
    var files: Files
    /** Labels drawn so far. */
    ghost var drawn: map<Label, nat>

    ghost function View(): World reads this {
      World(memory, files, Quiet, drawn)
    }

    /** Normalized snapshot to the files and to memory. Each of the three writes may fail. */
    method Import(next: Snapshot, journalReadable: bool, journal: Write, commit: Write, undo: Write) returns (ok: bool)
      requires Inv(View()) && Enabled(View(), BeginImport(next, journal))
      modifies this
      ensures ok <==> journalReadable && journal.Stored? && commit.Stored?
      ensures if journalReadable then View() == WholeImport(old(View()), next, journal, commit, undo) else View() == old(View())
      ensures ok ==> TakenFrom(memory, next) && files.snapshot == Some(next)
      ensures ok ==> files.sidecar == Some(Sidecar(next.gen, next.history, next.operations))
      ensures !ok ==> memory == old(memory)
      ensures !journalReadable || journal.Lost? ==> files == old(files)
      ensures files.snapshot == if journalReadable && journal.Stored? && !commit.Lost? then Some(next) else old(files.snapshot)
      ensures !ok && undo.Stored? && !journal.StoredWithError? ==> files.sidecar == old(files.sidecar)
      ensures Inv(View())
    {
      if !journalReadable {
        return false;
      }
      ghost var start := View();
      var previous := files.sidecar;
      drawn := drawn[next.gen := |drawn|];
      files := files.(sidecar := Put(files.sidecar, Some(Sidecar(next.gen, next.history, next.operations)), journal));
      StepKeeps(start, BeginImport(next, journal));
      ghost var begun := DoBegin(start, next, journal);
      if !journal.Stored? {
        return false;
      }
      files := files.(snapshot := Put(files.snapshot, Some(next), commit));
      StepKeeps(begun, CommitImport(commit));
      ghost var committed := DoCommit(begun, commit);
      if !commit.Stored? {
        files := files.(sidecar := Put(files.sidecar, previous, undo));
        StepKeeps(committed, UndoImport(undo));
        return false;
      }
      memory := Applied(next);
      return true;
    }

    /** The journal first; the snapshot follows only if it was confirmed and there is a result. */
    method Save(journal: Write, w: Write) returns (ok: bool)
      requires Inv(View())
      modifies this`files
      ensures files.sidecar == if journal.Lost? then old(files.sidecar) else Some(Sidecar(memory.gen, memory.history, memory.operations))
      ensures files.snapshot ==
        if journal.Stored? && memory.finished && !w.Lost?
        then Some(Snapshot(memory.gen, false, memory.results, memory.history, memory.operations))
        else old(files.snapshot)
      ensures ok <==> journal.Stored? && (memory.finished ==> w.Stored?)
      ensures Inv(View())
    {
      files := files.(sidecar := Put(files.sidecar, Some(SidecarOf(memory)), journal));
      if !journal.Stored? {
        return false;
      }
      if !memory.finished {
        return true;
      }
      files := files.(snapshot := Put(files.snapshot, Some(SnapshotOf(memory)), w));
      return w.Stored?;
    }

    /** Start of the server. */
    method Load(snapshotReadable: bool, sidecarReadable: bool, write: Write)
      requires Inv(View())
      modifies this
      ensures View() == DoRestart(old(View()), snapshotReadable, sidecarReadable, write)
      ensures files.snapshot == old(files.snapshot)
      ensures var gen := if snapshotReadable && files.snapshot.Some? then files.snapshot.value.gen else NONE;
        var sidecar := old(files.sidecar);
        if sidecarReadable && sidecar.Some? && sidecar.value.gen == gen then
          && memory.gen == gen && memory.history == sidecar.value.history && memory.operations == sidecar.value.operations
          && files.sidecar == (if write.Lost? then sidecar else Some(Sidecar(gen, memory.history, memory.operations)))
          && (snapshotReadable && files.snapshot.Some? ==>
                && memory.finished == !files.snapshot.value.cleared
                && memory.results == (if files.snapshot.value.cleared then [] else files.snapshot.value.results))
          && (!snapshotReadable || files.snapshot.None? ==> memory.results == [] && !memory.finished)
        else
          && files == old(files)
          && (snapshotReadable && files.snapshot.Some? ==> TakenFrom(memory, files.snapshot.value))
          && (!snapshotReadable || files.snapshot.None? ==> memory == Memory(NONE, [], [], [], false))
      ensures Inv(View())
    {
      StepKeeps(View(), Restart(snapshotReadable, sidecarReadable, write));
      memory := Memory(NONE, [], [], [], false);
      if snapshotReadable && files.snapshot.Some? {
        memory := Applied(files.snapshot.value);
      }
      if !sidecarReadable || files.sidecar.None? || files.sidecar.value.gen != memory.gen {
        return;
      }
      memory := memory.(history := files.sidecar.value.history, operations := files.sidecar.value.operations);
      files := files.(sidecar := Put(files.sidecar, Some(SidecarOf(memory)), write));
    }
  }
}
