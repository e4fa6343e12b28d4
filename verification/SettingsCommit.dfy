/** The inspection schedule and the result snapshot are two atomic files. Automatic actions wait for
    confirmations counted over consecutive runs; a settings change must not let counts that were
    gathered under other settings trigger an action. */
module SettingsCommit {
  import opened Basics

  /** Normalized settings; target 0 stands for a blank target type. */
  datatype Settings = Settings(target: nat, rest: nat)

  const DEFAULT := Settings(1, 0)

  /** One counted confirmation, stamped with the settings of the run that counted it and with the
      number of changes of the settings in force before it. */
  datatype Vote = Vote(key: nat, settings: Settings, epoch: nat)

  datatype Snapshot = Snapshot(cleared: bool, settings: Settings, votes: set<Vote>)

  datatype Files = Files(schedule: Option<Settings>, snapshot: Option<Snapshot>) {
    /** The settings a restart would put in force when it can read the schedule. */
    function InForce(): Settings {
      if schedule.Some? then schedule.value else DEFAULT
    }

    predicate HasVotes() {
      snapshot.Some? && snapshot.value.votes != {}
    }
  }

  /** How far an update has come; the scheduler's mutex is held until it is idle again. */
  datatype Update = Idle | SaveSchedule(next: Settings, previous: Option<Snapshot>) | Restore(snapshot: Snapshot)

  /** `finished` is a positive completion time: there is a result to snapshot. */
  datatype Memory = Memory(
    schedule: Settings, lastRun: Settings, votes: set<Vote>, finished: bool, running: bool, update: Update)
  {
    function Snap(): Snapshot {
      Snapshot(false, if lastRun.target == 0 then schedule else lastRun, votes)
    }
  }

  datatype World = World(memory: Memory, files: Files, epoch: nat)

  function WriteSnapshot(f: Files, s: Snapshot, w: Write): Files {
    if w.Lost? then f else f.(snapshot := Some(s))
  }

  function WriteSchedule(f: Files, s: Settings, w: Write): Files {
    if w.Lost? then f else f.(schedule := Some(s))
  }

  datatype Action =
    | BeginUpdate(next: Settings, w: Write)
    | UpdateSchedule(w: Write)
    | UpdateRestore(w: Write)
    | StartRun
    | Confirm(key: nat)
    | Forget(votes: set<Vote>)
    | EndRun
    | ResaveSchedule(w: Write)
    | ResaveSnapshot(w: Write)
    | Import(snapshot: Snapshot, w: Write)
    | Restart(scheduleReadable: bool, snapshotReadable: bool)

  /** First part of an update: with changed settings, the snapshot loses its counts first. */
  function DoBegin(w: World, next: Settings, write: Write): World {
    var m := w.memory;
    if next == m.schedule then w.(memory := m.(update := SaveSchedule(next, None)))
    else if m.running then w
    else if !m.finished then w.(memory := m.(update := SaveSchedule(next, None)))
    else
      var files := WriteSnapshot(w.files, m.Snap().(votes := {}), write);
      if write.Stored? then World(m.(update := SaveSchedule(next, Some(m.Snap()))), files, w.epoch)
      else w.(files := files)
  }

  /** Second part: the schedule file, and only then the settings in memory. */
  function DoSchedule(w: World, write: Write): World
    requires w.memory.update.SaveSchedule?
  {
    var m, u := w.memory, w.memory.update;
    var files := WriteSchedule(w.files, u.next, write);
    if write.Stored? then
      var changed := u.next != m.schedule;
      World(m.(schedule := u.next, votes := if changed then {} else m.votes, update := Idle), files,
            if changed then w.epoch + 1 else w.epoch)
    else World(m.(update := if u.previous.Some? then Restore(u.previous.value) else Idle), files, w.epoch)
  }

  /** Last part, after a schedule write that was not confirmed: the counts go back to the snapshot. */
  function DoRestore(w: World, write: Write): World
    requires w.memory.update.Restore?
  {
    World(w.memory.(update := Idle), WriteSnapshot(w.files, w.memory.update.snapshot, write), w.epoch)
  }

  /** Only counts gathered under the settings of the schedule file are taken over. */
  function DoRestart(w: World, scheduleReadable: bool, snapshotReadable: bool): World {
    var schedule := if scheduleReadable then w.files.InForce() else DEFAULT;
    var epoch := if schedule == w.memory.schedule then w.epoch else w.epoch + 1;
    var blank := Memory(schedule, DEFAULT, {}, false, false, Idle);
    var m :=
      if !snapshotReadable || w.files.snapshot.None? || w.files.snapshot.value.cleared then blank
      else
        var s := w.files.snapshot.value;
        blank.(lastRun := s.settings, finished := true, votes := if s.settings == schedule then s.votes else {});
    World(m, w.files, epoch)
  }

  predicate Enabled(w: World, a: Action) {
    match a
    case BeginUpdate(next, write) => w.memory.update.Idle?
    case UpdateSchedule(write) => w.memory.update.SaveSchedule?
    case UpdateRestore(write) => w.memory.update.Restore?
    case StartRun => w.memory.update.Idle? && !w.memory.running
    case Confirm(key) => w.memory.running
    case Forget(votes) => w.memory.running
    case EndRun => w.memory.update.Idle? && w.memory.running
    case ResaveSchedule(write) => w.memory.update.Idle?
    case ResaveSnapshot(write) => w.memory.update.Idle? && w.memory.finished
    case Import(snapshot, write) => w.memory.update.Idle? && !w.memory.running && snapshot.votes == {}
    case Restart(scheduleReadable, snapshotReadable) => true
  }

  function Step(w: World, a: Action): World
    requires Enabled(w, a)
  {
    var m := w.memory;
    match a
    case BeginUpdate(next, write) => DoBegin(w, next, write)
    case UpdateSchedule(write) => DoSchedule(w, write)
    case UpdateRestore(write) => DoRestore(w, write)
    case StartRun => w.(memory := m.(running := true, finished := false, lastRun := m.schedule))
    case Confirm(key) => w.(memory := m.(votes := m.votes + {Vote(key, m.schedule, w.epoch)}))
    case Forget(votes) => w.(memory := m.(votes := m.votes - votes))
    case EndRun => w.(memory := m.(running := false, finished := true))
    case ResaveSchedule(write) => w.(files := WriteSchedule(w.files, m.schedule, write))
    case ResaveSnapshot(write) => w.(files := WriteSnapshot(w.files, m.Snap(), write))
    case Import(snapshot, write) =>
      var files := WriteSnapshot(w.files, snapshot, write);
      if !write.Stored? then w.(files := files)
      else World(m.(lastRun := if snapshot.cleared then m.schedule else snapshot.settings,
                    votes := {}, finished := !snapshot.cleared), files, w.epoch)
    case Restart(scheduleReadable, snapshotReadable) => DoRestart(w, scheduleReadable, snapshotReadable)
  }

  function Init(): World {
    World(Memory(DEFAULT, DEFAULT, {}, false, false, Idle), Files(None, None), 0)
  }

  function Run(actions: seq<Action>): World {
    if actions == [] then Init()
    else
      var w := Run(actions[..|actions| - 1]);
      var a := actions[|actions| - 1];
      if Enabled(w, a) then Step(w, a) else w
  }

  // ----- Counts and settings -----

  predicate Under(votes: set<Vote>, settings: Settings) {
    forall v :: v in votes ==> v.settings == settings
  }

  predicate Attributed(w: World) {
    var m := w.memory;
    && Under(m.votes, m.schedule)
    && (m.votes != {} || m.running ==> m.lastRun == m.schedule)
    && (w.files.snapshot.Some? ==> Under(w.files.snapshot.value.votes, w.files.snapshot.value.settings))
    && (m.update.Restore? ==> Under(m.update.snapshot.votes, m.update.snapshot.settings))
    && (m.update.SaveSchedule? && m.update.previous.Some? ==>
          Under(m.update.previous.value.votes, m.update.previous.value.settings))
    && (m.update.SaveSchedule? && m.update.next != m.schedule ==> !m.running)
  }

  lemma StepAttributed(w: World, a: Action)
    requires Attributed(w) && Enabled(w, a)
    ensures Attributed(Step(w, a))
  {
  }

  /** Whatever settings updates, runs, imports, failed writes, unreadable files and crashes happen in
      whatever order, every count in memory was gathered under exactly the settings now in force. */
  lemma {:induction false} CountsMatchSettings(actions: seq<Action>)
    ensures Attributed(Run(actions))
    ensures forall v :: v in Run(actions).memory.votes ==> v.settings == Run(actions).memory.schedule
  {
    if actions != [] {
      var w, a := Run(actions[..|actions| - 1]), actions[|actions| - 1];
      CountsMatchSettings(actions[..|actions| - 1]);
      if Enabled(w, a) {
        StepAttributed(w, a);
      }
    }
  }

  // ----- Changing the settings away and back -----

  predicate Current(votes: set<Vote>, epoch: nat) {
    forall v :: v in votes ==> v.epoch == epoch
  }

  /** A count of this epoch was gathered under the settings now in force. */
  predicate Stamped(votes: set<Vote>, w: World) {
    forall v :: v in votes ==> v.epoch <= w.epoch && (v.epoch == w.epoch ==> v.settings == w.memory.schedule)
  }

  /** Counts of an earlier epoch can only lie in a snapshot that neither the settings in force nor the
      schedule file match, and no update under way brings its settings back. */
  predicate Aged(w: World) {
    var m, f := w.memory, w.files;
    && Current(m.votes, w.epoch)
    && (m.update.Restore? ==>
          Current(m.update.snapshot.votes, w.epoch) && Stamped(m.update.snapshot.votes, w) && !m.update.snapshot.cleared)
    && (m.update.SaveSchedule? && m.update.previous.Some? ==>
          Current(m.update.previous.value.votes, w.epoch) && Stamped(m.update.previous.value.votes, w) && !m.update.previous.value.cleared)
    && (m.update.SaveSchedule? && m.update.next != m.schedule && f.HasVotes() ==> f.snapshot.value.settings != m.update.next)
    && (f.snapshot.Some? ==>
          && Stamped(f.snapshot.value.votes, w)
          && (!Current(f.snapshot.value.votes, w.epoch) ==>
                f.snapshot.value.settings != m.schedule && f.snapshot.value.settings != f.InForce())
          && (f.snapshot.value.cleared ==> f.snapshot.value.votes == {}))
  }

  /** The two steps that can bring counts back. An update to the settings of a snapshot that has counts
      must find a result in memory, which makes it clear the file first. A restart that cannot read the
      schedule must not fall back from the settings of such a snapshot, nor fall back to them. */
  predicate Allowed(w: World, a: Action) {
    match a
    case BeginUpdate(next, _) =>
      || next == w.memory.schedule || w.memory.running || w.memory.finished
      || !w.files.HasVotes() || w.files.snapshot.value.settings != next
    case Restart(scheduleReadable, _) =>
      || scheduleReadable || !w.files.HasVotes()
      || (if w.files.snapshot.value.settings == DEFAULT then w.memory.schedule == DEFAULT
          else w.files.snapshot.value.settings != w.files.InForce())
    case _ => true
  }

  lemma UpdateAged(w: World, a: Action)
    requires Attributed(w) && Aged(w) && Enabled(w, a) && Allowed(w, a) && (a.BeginUpdate? || a.UpdateRestore?)
    ensures Aged(Step(w, a))
  {
  }

  lemma ScheduleAged(w: World, write: Write)
    requires Attributed(w) && Aged(w) && Enabled(w, UpdateSchedule(write))
    ensures Aged(DoSchedule(w, write))
  {
  }

  lemma RestartAged(w: World, scheduleReadable: bool, snapshotReadable: bool)
    requires Attributed(w) && Aged(w) && Allowed(w, Restart(scheduleReadable, snapshotReadable))
    ensures Aged(DoRestart(w, scheduleReadable, snapshotReadable))
  {
  }

  lemma RunAged(w: World, a: Action)
    requires Attributed(w) && Aged(w) && Enabled(w, a) && (a.StartRun? || a.Confirm? || a.Forget? || a.EndRun?)
    ensures Aged(Step(w, a))
  {
  }

  lemma StepAged(w: World, a: Action)
    requires Attributed(w) && Aged(w) && Enabled(w, a) && Allowed(w, a)
    ensures Aged(Step(w, a))
  {
    match a
    case BeginUpdate(next, write) => UpdateAged(w, a);
    case UpdateSchedule(write) => ScheduleAged(w, write);
    case UpdateRestore(write) => UpdateAged(w, a);
    case Restart(scheduleReadable, snapshotReadable) => RestartAged(w, scheduleReadable, snapshotReadable);
    case StartRun => RunAged(w, a);
    case Confirm(_) => RunAged(w, a);
    case Forget(_) => RunAged(w, a);
    case EndRun => RunAged(w, a);
    case _ =>
  }

  /** Every step of `more`, taken after `actions`, is allowed. */
  predicate Guarded(actions: seq<Action>, more: seq<Action>)
    decreases |more|
  {
    more != [] ==>
      var front, a := more[..|more| - 1], more[|more| - 1];
      Guarded(actions, front) && (Enabled(Run(actions + front), a) ==> Allowed(Run(actions + front), a))
  }

  predicate CountsAreCurrent(w: World) {
    Current(w.memory.votes, w.epoch)
  }

  lemma {:induction false} GuardedStays(actions: seq<Action>, more: seq<Action>)
    requires Guarded(actions, more) && Attributed(Run(actions)) && Aged(Run(actions))
    ensures Attributed(Run(actions + more)) && Aged(Run(actions + more))
  {
    hide Attributed, Aged, Allowed, Enabled, Step, Run;
    if more == [] {
      assert actions + more == actions;
    } else {
      var front, a := more[..|more| - 1], more[|more| - 1];
      GuardedStays(actions, front);
      Next(actions + front, a);
      assert (actions + front) + [a] == actions + more;
      if Enabled(Run(actions + front), a) {
        StepAttributed(Run(actions + front), a);
        StepAged(Run(actions + front), a);
      }
    }
  }

  /** While all steps are allowed, whatever files cannot be read and whatever writes fail, no count
      outlives a change of the settings in force, not even when the settings change back. */
  lemma {:induction false} CountsDoNotReturn(actions: seq<Action>)
    requires Guarded([], actions)
    ensures Attributed(Run(actions)) && Aged(Run(actions))
    ensures CountsAreCurrent(Run(actions))
  {
    GuardedStays([], actions);
    assert [] + actions == actions;
  }

  /** How counts return after a step that is not allowed. */
  function Revival(w: World, a: Action): seq<Action> {
    if a.BeginUpdate? then [UpdateSchedule(Stored)] + [Restart(true, true)]
    else if w.files.snapshot.Some? && w.files.snapshot.value.settings == DEFAULT then [ResaveSchedule(Stored)] + [Restart(true, true)]
    else [] + [Restart(true, true)]
  }

  /** The step before the last restart of the revival. */
  function Middle(w: World, a: Action): World
    requires Enabled(w, a)
  {
    var v, m := Step(w, a), Revival(w, a)[0];
    if m.Restart? || !Enabled(v, m) then v else Step(v, m)
  }

  lemma MiddleRevives(w: World, a: Action)
    requires Attributed(w) && Aged(w) && Enabled(w, a) && !Allowed(w, a)
    ensures !Revival(w, a)[0].Restart? ==> Enabled(Step(w, a), Revival(w, a)[0])
    ensures Enabled(Middle(w, a), Restart(true, true)) && !CountsAreCurrent(Step(Middle(w, a), Restart(true, true)))
    ensures forall v :: Allowed(v, Restart(true, true)) && (!Revival(w, a)[0].Restart? ==> Allowed(v, Revival(w, a)[0]))
  {
    var votes := w.files.snapshot.value.votes;
    var v :| v in votes;
    assert v.epoch <= w.epoch;
    assert v in DoRestart(Middle(w, a), true, true).memory.votes;
  }

  lemma {:induction false} RevivalRuns(actions: seq<Action>, a: Action)
    requires Attributed(Run(actions)) && Aged(Run(actions)) && Enabled(Run(actions), a) && !Allowed(Run(actions), a)
    ensures var more := Revival(Run(actions), a);
      Guarded(actions + [a], more) && !CountsAreCurrent(Run(actions + [a] + more))
  {
    hide Run, Aged, Attributed, Step, Enabled, Allowed, CountsAreCurrent;
    var w := Run(actions);
    var more := Revival(w, a);
    MiddleRevives(w, a);
    Next(actions, a);
    var begun, front, last := actions + [a], more[..|more| - 1], Restart(true, true);
    assert more == front + [last];
    if front == [] {
      assert begun + front == begun;
    } else {
      assert front == [more[0]];
      Next(begun, more[0]);
      GuardedOne(begun, more[0]);
    }
    Next(begun + front, last);
    assert begun + more == begun + front + [last];
  }

  lemma GuardedOne(actions: seq<Action>, a: Action)
    requires forall v :: Allowed(v, a)
    ensures Guarded(actions, [a])
  {
    assert [a][..0] == [];
    assert Guarded(actions, []);
  }

  /** Exactly: after a run of allowed steps, the next step is allowed if and only if counts never
      return in any continuation by allowed steps. */
  lemma {:induction false} AllowedIsExact(actions: seq<Action>, a: Action)
    requires Guarded([], actions) && Enabled(Run(actions), a)
    ensures Allowed(Run(actions), a) <==>
      forall more :: Guarded(actions + [a], more) ==> CountsAreCurrent(Run(actions + [a] + more))
  {
    CountsDoNotReturn(actions);
    var w := Run(actions);
    if Allowed(w, a) {
      StepAttributed(w, a);
      StepAged(w, a);
      Next(actions, a);
      forall more | Guarded(actions + [a], more) ensures CountsAreCurrent(Run(actions + [a] + more)) {
        GuardedStays(actions + [a], more);
      }
    } else {
      RevivalRuns(actions, a);
    }
    hide Run, Aged, Attributed;
  }

  lemma Next(actions: seq<Action>, a: Action)
    ensures Run(actions + [a]) == if Enabled(Run(actions), a) then Step(Run(actions), a) else Run(actions)
  {
    assert (actions + [a])[..|actions|] == actions;
  }

  /** With an unreadable snapshot at one restart they do return: nothing is in memory to be cleared
      from the file when the settings change, and the change back makes the file match again. */
  lemma UnreadableSnapshotRevivesCounts(other: Settings)
    requires other != DEFAULT
    ensures var gather := [StartRun] + [Confirm(7)] + [EndRun] + [ResaveSnapshot(Stored)] + [Restart(true, false)];
      var change := gather + [BeginUpdate(other, Stored)] + [UpdateSchedule(Stored)];
      var back := change + [BeginUpdate(DEFAULT, Stored)] + [UpdateSchedule(Stored)] + [Restart(true, true)];
      Vote(7, DEFAULT, 0) in Run(back).memory.votes && Run(back).epoch == 2
  {
    var counted := [StartRun] + [Confirm(7)] + [EndRun];
    Next([], StartRun);
    assert [] + [StartRun] == [StartRun];
    Next([StartRun], Confirm(7));
    Next([StartRun] + [Confirm(7)], EndRun);
    assert Run(counted).memory.votes == {Vote(7, DEFAULT, 0)};
    Next(counted, ResaveSnapshot(Stored));
    var gather := counted + [ResaveSnapshot(Stored)] + [Restart(true, false)];
    Next(counted + [ResaveSnapshot(Stored)], Restart(true, false));
    var saved := Some(Snapshot(false, DEFAULT, {Vote(7, DEFAULT, 0)}));
    assert Run(gather) == World(Memory(DEFAULT, DEFAULT, {}, false, false, Idle), Files(None, saved), 0);
    Next(gather, BeginUpdate(other, Stored));
    var change := gather + [BeginUpdate(other, Stored)] + [UpdateSchedule(Stored)];
    Next(gather + [BeginUpdate(other, Stored)], UpdateSchedule(Stored));
    assert Run(change) == World(Memory(other, DEFAULT, {}, false, false, Idle), Files(Some(other), saved), 1);
    Next(change, BeginUpdate(DEFAULT, Stored));
    Next(change + [BeginUpdate(DEFAULT, Stored)], UpdateSchedule(Stored));
    Next(change + [BeginUpdate(DEFAULT, Stored)] + [UpdateSchedule(Stored)], Restart(true, true));
  }

  /** With an unreadable schedule at one restart they do, too: the defaults are in force in between, and
      nothing has touched the snapshot when the schedule can be read again. */
  lemma UnreadableScheduleRevivesCounts(a: Settings)
    requires a != DEFAULT
    ensures var gather := [BeginUpdate(a, Stored)] + [UpdateSchedule(Stored)] + [StartRun] + [Confirm(7)] + [EndRun] + [ResaveSnapshot(Stored)];
      var back := gather + [Restart(false, true)] + [Restart(true, true)];
      Vote(7, a, 1) in Run(back).memory.votes && Run(back).epoch == 3
  {
    var changed := [BeginUpdate(a, Stored)] + [UpdateSchedule(Stored)];
    Next([], BeginUpdate(a, Stored));
    assert [] + [BeginUpdate(a, Stored)] == [BeginUpdate(a, Stored)];
    Next([BeginUpdate(a, Stored)], UpdateSchedule(Stored));
    assert Run(changed) == World(Memory(a, DEFAULT, {}, false, false, Idle), Files(Some(a), None), 1);
    hide Run;
    var counted := changed + [StartRun] + [Confirm(7)] + [EndRun];
    Next(changed, StartRun);
    Next(changed + [StartRun], Confirm(7));
    Next(changed + [StartRun] + [Confirm(7)], EndRun);
    assert Run(counted).memory.votes == {Vote(7, a, 1)};
    var gather := counted + [ResaveSnapshot(Stored)];
    Next(counted, ResaveSnapshot(Stored));
    Next(gather, Restart(false, true));
    Next(gather + [Restart(false, true)], Restart(true, true));
  }

  // ----- What is counted and saved is there -----

  /** After any run, a run that confirms a key adds exactly this count, under the settings in force. */
  lemma {:induction false} RunsCount(actions: seq<Action>, key: nat)
    requires Run(actions).memory.update.Idle? && !Run(actions).memory.running
    ensures var w := Run(actions); var m := Run(actions + [StartRun] + [Confirm(key)] + [EndRun]).memory;
      && m.votes == w.memory.votes + {Vote(key, w.memory.schedule, w.epoch)}
      && m.lastRun == m.schedule == w.memory.schedule && m.finished && !m.running
  {
    Next(actions, StartRun);
    Next(actions + [StartRun], Confirm(key));
    Next(actions + [StartRun] + [Confirm(key)], EndRun);
    hide Run;
  }

  /** After any run, counts that were saved with the settings in force are there after a restart. */
  lemma {:induction false} SavedCountsComeBack(actions: seq<Action>)
    requires Run(actions).memory.update.Idle? && Run(actions).memory.finished
    ensures var w := Run(actions); var v := Run(actions + [ResaveSchedule(Stored)] + [ResaveSnapshot(Stored)] + [Restart(true, true)]);
      && v.memory.votes == w.memory.votes && v.memory.schedule == w.memory.schedule && v.epoch == w.epoch && v.memory.finished
      && v.files.schedule == Some(w.memory.schedule) && v.files.snapshot.Some? && v.files.snapshot.value.votes == w.memory.votes
  {
    CountsMatchSettings(actions);
    Next(actions, ResaveSchedule(Stored));
    Next(actions + [ResaveSchedule(Stored)], ResaveSnapshot(Stored));
    Next(actions + [ResaveSchedule(Stored)] + [ResaveSnapshot(Stored)], Restart(true, true));
    hide Run;
  }

  /** After any run, an update at rest whose writes are confirmed puts the settings in force; if they are
      others than before, it leaves no count in memory, nor on file if there was a result. */
  lemma {:induction false} UpdatesTakeEffect(actions: seq<Action>, next: Settings)
    requires Run(actions).memory.update.Idle? && !Run(actions).memory.running
    ensures var w := Run(actions); var v := Run(actions + [BeginUpdate(next, Stored)] + [UpdateSchedule(Stored)]);
      && v.memory.schedule == next && v.files.schedule == Some(next) && v.memory.update.Idle?
      && v.memory.votes == (if next == w.memory.schedule then w.memory.votes else {})
      && v.epoch == (if next == w.memory.schedule then w.epoch else w.epoch + 1)
      && (next != w.memory.schedule && w.memory.finished ==> v.files.snapshot.Some? && v.files.snapshot.value.votes == {})
      && (next == w.memory.schedule || !w.memory.finished ==> v.files.snapshot == w.files.snapshot)
  {
    Next(actions, BeginUpdate(next, Stored));
    Next(actions + [BeginUpdate(next, Stored)], UpdateSchedule(Stored));
    hide Run;
  }

  /** After any run, a run that starts withdraws the result, and what it forgets is counted no more. */
  lemma {:induction false} RunsForget(actions: seq<Action>, votes: set<Vote>)
    requires Run(actions).memory.update.Idle? && !Run(actions).memory.running
    ensures var w := Run(actions); var m := Run(actions + [StartRun] + [Forget(votes)]).memory;
      m == w.memory.(running := true, finished := false, lastRun := w.memory.schedule, votes := w.memory.votes - votes)
  {
    Next(actions, StartRun);
    Next(actions + [StartRun], Forget(votes));
    hide Run;
  }

  /** After any run, an import at rest ends all counting if its write is confirmed; otherwise the memory
      stays as it was, whatever became of the file. The schedule is not touched. */
  lemma {:induction false} ImportsEndCounting(actions: seq<Action>, snapshot: Snapshot, write: Write)
    requires Enabled(Run(actions), Import(snapshot, write))
    ensures var w, v := Run(actions), Run(actions + [Import(snapshot, write)]);
      && v.files.schedule == w.files.schedule && v.memory.schedule == w.memory.schedule && v.epoch == w.epoch
      && v.files.snapshot == (if write.Lost? then w.files.snapshot else Some(snapshot))
      && (write.Stored? ==>
            && v.memory.votes == {} && v.memory.finished == !snapshot.cleared
            && v.memory.lastRun == (if snapshot.cleared then w.memory.schedule else snapshot.settings))
      && (!write.Stored? ==> v.memory == w.memory)
  {
    Next(actions, Import(snapshot, write));
    hide Run;
  }

  // ----- The update as the scheduler runs it under its mutex -----

  function WholeUpdate(w: World, next: Settings, clear: Write, save: Write, restore: Write): World {
    var begun := DoBegin(w, next, clear);
    if !begun.memory.update.SaveSchedule? then begun
    else
      var saved := DoSchedule(begun, save);
      if saved.memory.update.Restore? then DoRestore(saved, restore) else saved
  }

  class Scheduler {
    var schedule: Settings
    var lastRun: Settings
    var votes: set<Vote>
    var finished: bool
    var running: bool
    var files: Files
    ghost var epoch: nat

    ghost function View(): World
      reads this
    {
      World(Memory(schedule, lastRun, votes, finished, running, Idle), files, epoch)
    }

    constructor ()
      ensures View() == Init()
    {
      schedule, lastRun, votes, finished, running := DEFAULT, DEFAULT, {}, false, false;
      files, epoch := Files(None, None), 0;
    }

    method WriteSnapshotFile(snapshot: Snapshot, w: Write) returns (ok: bool)
      modifies this`files
      ensures files == WriteSnapshot(old(files), snapshot, w) && ok == w.Stored?
    {
      if w != Lost {
        files := files.(snapshot := Some(snapshot));
      }
      ok := w == Stored;
    }

    method WriteScheduleFile(settings: Settings, w: Write) returns (ok: bool)
      modifies this`files
      ensures files == WriteSchedule(old(files), settings, w) && ok == w.Stored?
    {
      if w != Lost {
        files := files.(schedule := Some(settings));
      }
      ok := w == Stored;
    }

    /** Succeeds with the new settings in memory and on file and, if they differ, with no counts in
        either place; otherwise leaves memory as it was. */
    method Update(next: Settings, clear: Write, save: Write, restore: Write) returns (ok: bool)
      modifies this
      ensures View() == old(WholeUpdate(View(), next, clear, save, restore))
      ensures ok ==> schedule == next && files.schedule == Some(next)
      ensures ok && next != old(schedule) ==> votes == {} && (finished ==> files.snapshot.Some? && files.snapshot.value.votes == {})
      ensures !ok ==> View().memory == old(View().memory)
      ensures lastRun == old(lastRun) && finished == old(finished) && running == old(running)
      ensures ok <==> (next == old(schedule) || (!running && (finished ==> clear == Stored))) && save == Stored
      ensures next == old(schedule) ==> votes == old(votes) && files.snapshot == old(files).snapshot
      ensures files.schedule ==
        if (next == old(schedule) || (!running && (finished ==> clear == Stored))) && save != Lost then Some(next) else old(files).schedule
      ensures var settings := if lastRun.target == 0 then old(schedule) else lastRun;
        files.snapshot ==
          if next == old(schedule) || running || !finished || clear == Lost then old(files).snapshot
          else if clear == Stored && save != Stored && restore != Lost then Some(Snapshot(false, settings, old(votes)))
          else Some(Snapshot(false, settings, {}))
    {
      var changed := schedule != next;
      if changed && running {
        return false;
      }
      var previous: Option<Snapshot> := None;
      if changed && finished {
        var settings := if lastRun.target == 0 then schedule else lastRun;
        previous := Some(Snapshot(false, settings, votes));
        ok := WriteSnapshotFile(Snapshot(false, settings, {}), clear);
        if !ok {
          return false;
        }
      }
      ok := WriteScheduleFile(next, save);
      if !ok {
        if previous.Some? {
          var restored := WriteSnapshotFile(previous.value, restore);
        }
        return false;
      }
      schedule := next;
      if changed {
        votes := {};
        epoch := epoch + 1;
      }
      return true;
    }

    /** Start of the server. */
    method Load(scheduleReadable: bool, snapshotReadable: bool)
      modifies this
      ensures View() == DoRestart(old(View()), scheduleReadable, snapshotReadable)
      ensures files == old(files) && !running
      ensures schedule == if scheduleReadable && files.schedule.Some? then files.schedule.value else DEFAULT
      ensures var usable := snapshotReadable && files.snapshot.Some? && !files.snapshot.value.cleared;
        && finished == usable
        && lastRun == (if usable then files.snapshot.value.settings else DEFAULT)
        && votes == (if usable && files.snapshot.value.settings == schedule then files.snapshot.value.votes else {})
    {
      ghost var before := schedule;
      schedule, lastRun, votes, finished, running := DEFAULT, DEFAULT, {}, false, false;
      if scheduleReadable && files.schedule.Some? {
        schedule := files.schedule.value;
      }
      epoch := if schedule == before then epoch else epoch + 1;
      if !snapshotReadable || files.snapshot.None? || files.snapshot.value.cleared {
        return;
      }
      lastRun, finished := files.snapshot.value.settings, true;
      if files.snapshot.value.settings == schedule {
        votes := files.snapshot.value.votes;
      }
    }
  }
}
