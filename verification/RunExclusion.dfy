/** Full inspection runs against rechecks and manual actions, and workers that a paused run puts to
    sleep. A step is what one thread does between two lock operations, so a
    sequence of actions is one interleaving; a step of a thread that cannot move has no effect. */
module RunExclusion {
  import opened Basics

  datatype State = Idle | Running | Paused | Stopping | Completed | Stopped | Partial | Failed
  {
    predicate Active() {
      Running? || Paused? || Stopping?
    }
    predicate Terminal() {
      Completed? || Stopped? || Partial? || Failed?
    }
  }

  /** A thread in startRun: past the start mutex, past the first look, with the slot, about to leave. */
  datatype Starter = Reserved | Looked | HasSlot | Leaving

  /** A recheck or manual action: past the first look, with the read lock, with both locks, admitted
      to its work, and on its way out. A token refresh takes the same locks for the refresh itself,
      but merges its result after it has released them, so that merge is none of these steps. */
  datatype Guest = Knocked | Reading | Locked | Inside | Unlocked

  datatype Worker = Worker(run: nat, asleep: bool)

  datatype Stage = Inspecting | Published

  datatype Writer = NoWriter | ByStarter(starter: nat) | ByRun(run: nat)

  datatype Event =
    | Begun(run: nat)
    | Ended(run: nat, outcome: State)
    | Entered(guest: nat)
    | Merged(guest: nat)
    | Left(guest: nat)

  /** `cancelled` are the runs whose context is done, `announced` those whose cancel watcher has
      broadcast. `log` is ghost history: what happened in which order. */
  datatype World = World(
    state: State, shutDown: bool,
    startMutex: Option<nat>, writer: Writer, readers: set<nat>, manualMutex: Option<nat>,
    starters: map<nat, Starter>, guests: map<nat, Guest>, stages: map<nat, Stage>, workers: map<nat, Worker>,
    cancelled: set<nat>, announced: set<nat>, runs: nat, log: seq<Event>)

  datatype Action =
    | Reserve(t: nat)
    | Look(t: nat)
    | TakeSlot(t: nat)
    | Begin(t: nat, saved: bool)
    | Leave(t: nat)
    | Hire(w: nat, run: nat)
    | WaitIfPaused(w: nat)
    | Retire(w: nat)
    | End(run: nat, outcome: State)
    | ReleaseSlot(run: nat)
    | Knock(g: nat)
    | ReadLock(g: nat)
    | ManualLock(g: nat)
    | Enter(g: nat)
    | Merge(g: nat)
    | ManualUnlock(g: nat)
    | ReadUnlock(g: nat)
    | Pause
    | Resume
    | Stop
    | Shutdown
    | Cancel(run: nat)
    | Watch(run: nat)
    | Import(state: State)

  function Awakened(workers: map<nat, Worker>): map<nat, Worker> {
    map w | w in workers :: workers[w].(asleep := false)
  }

  predicate At<T(==)>(threads: map<nat, T>, t: nat, pc: T) {
    t in threads && threads[t] == pc
  }

  predicate Enabled(w: World, a: Action) {
    match a
    case Reserve(t) => t !in w.starters && w.startMutex.None?
    case Look(t) => At(w.starters, t, Reserved)
    case TakeSlot(t) => At(w.starters, t, Looked) && w.writer.NoWriter? && w.readers == {}
    case Begin(t, saved) => At(w.starters, t, HasSlot)
    case Leave(t) => At(w.starters, t, Leaving)
    case Hire(i, run) => i !in w.workers && At(w.stages, run, Inspecting)
    case WaitIfPaused(i) => i in w.workers && !w.workers[i].asleep
    case Retire(i) => i in w.workers && !w.workers[i].asleep
    case End(run, outcome) => At(w.stages, run, Inspecting) && outcome.Terminal() && forall i :: i in w.workers ==> w.workers[i].run != run
    case ReleaseSlot(run) => At(w.stages, run, Published)
    case Knock(g) => g !in w.guests && !w.state.Active()
    case ReadLock(g) => At(w.guests, g, Knocked) && w.writer.NoWriter?
    case ManualLock(g) => At(w.guests, g, Reading) && w.manualMutex.None?
    case Enter(g) => At(w.guests, g, Locked)
    case Merge(g) => At(w.guests, g, Inside)
    case ManualUnlock(g) => At(w.guests, g, Inside)
    case ReadUnlock(g) => At(w.guests, g, Unlocked)
    case Pause => true
    case Resume => true
    case Stop => true
    case Shutdown => true
    case Cancel(run) => run < w.runs
    case Watch(run) => run in w.cancelled
    case Import(state) => !w.state.Active() && (state.Idle? || state.Terminal())
  }

  /** Second look, with the slot held: fails, or publishes the running state. */
  function DoBegin(w: World, t: nat, saved: bool): World {
    if w.shutDown || w.state.Active() || !saved then w.(writer := NoWriter, starters := w.starters[t := Leaving])
    else w.(state := Running, writer := ByRun(w.runs), starters := w.starters[t := Leaving],
            stages := w.stages[w.runs := Inspecting], runs := w.runs + 1, log := w.log + [Begun(w.runs)])
  }

  function DoLook(w: World, t: nat): World {
    if w.shutDown || w.state.Active() then w.(starters := w.starters[t := Leaving])
    else w.(starters := w.starters[t := Looked])
  }

  /** One round of the loop under the mutex: sleep, or go on working. */
  function DoWait(w: World, i: nat): World
    requires i in w.workers
  {
    var asleep := w.state.Paused? && w.workers[i].run !in w.cancelled;
    w.(workers := w.workers[i := w.workers[i].(asleep := asleep)])
  }

  function DoEnter(w: World, g: nat): World {
    if w.state.Active() then w.(manualMutex := None, guests := w.guests[g := Unlocked])
    else w.(guests := w.guests[g := Inside], log := w.log + [Entered(g)])
  }

  function Step(w: World, a: Action): World
    requires Enabled(w, a)
  {
    match a
    case Reserve(t) => w.(startMutex := Some(t), starters := w.starters[t := Reserved])
    case Look(t) => DoLook(w, t)
    case TakeSlot(t) => w.(writer := ByStarter(t), starters := w.starters[t := HasSlot])
    case Begin(t, saved) => DoBegin(w, t, saved)
    case Leave(t) => w.(startMutex := None, starters := w.starters - {t})
    case Hire(i, run) => w.(workers := w.workers[i := Worker(run, false)])
    case WaitIfPaused(i) => DoWait(w, i)
    case Retire(i) => w.(workers := w.workers - {i})
    case End(run, outcome) => w.(state := outcome, stages := w.stages[run := Published], log := w.log + [Ended(run, outcome)])
    case ReleaseSlot(run) => w.(writer := NoWriter, stages := w.stages - {run}, cancelled := w.cancelled + {run})
    case Knock(g) => w.(guests := w.guests[g := Knocked])
    case ReadLock(g) => w.(guests := w.guests[g := Reading], readers := w.readers + {g})
    case ManualLock(g) => w.(guests := w.guests[g := Locked], manualMutex := Some(g))
    case Enter(g) => DoEnter(w, g)
    case Merge(g) => w.(log := w.log + [Merged(g)])
    case ManualUnlock(g) => w.(guests := w.guests[g := Unlocked], manualMutex := None, log := w.log + [Left(g)])
    case ReadUnlock(g) => w.(guests := w.guests - {g}, readers := w.readers - {g})
    case Pause => if w.state.Active() && !w.state.Stopping? then w.(state := Paused) else w
    case Resume => if w.state.Paused? then w.(state := Running, workers := Awakened(w.workers)) else w
    case Stop => if w.state.Active() then w.(state := Stopping, workers := Awakened(w.workers)) else w
    case Shutdown => w.(shutDown := true, workers := Awakened(w.workers))
    case Cancel(run) => w.(cancelled := w.cancelled + {run})
    case Watch(run) => w.(announced := w.announced + {run}, workers := Awakened(w.workers))
    case Import(state) => w.(state := state)
  }

  function Init(): World {
    World(Idle, false, None, NoWriter, {}, None, map[], map[], map[], map[], {}, {}, 0, [])
  }

  function Run(actions: seq<Action>): World {
    if actions == [] then Init()
    else
      var w, a := Run(actions[..|actions| - 1]), actions[|actions| - 1];
      if Enabled(w, a) then Step(w, a) else w
  }

  // ----- The same, one at a time -----

  datatype Phase = Quiet(ended: nat) | InRun(run: nat) | InGuest(ended: nat, guest: nat) | Broken

  /** A scheduler that does one thing at a time: a whole run or one guest's work. */
  function After(p: Phase, e: Event): Phase {
    match p
    case Quiet(n) => if e == Begun(n) then InRun(n) else if e.Entered? then InGuest(n, e.guest) else Broken
    case InRun(k) => if e.Ended? && e.run == k && e.outcome.Terminal() then Quiet(k + 1) else Broken
    case InGuest(n, g) => if e == Merged(g) then p else if e == Left(g) then Quiet(n) else Broken
    case Broken => Broken
  }

  function Replay(log: seq<Event>): Phase {
    if log == [] then Quiet(0) else After(Replay(log[..|log| - 1]), log[|log| - 1])
  }

  // ----- Invariants -----

  ghost predicate StartersLocked(w: World) {
    && (forall t :: t in w.starters ==> w.startMutex == Some(t))
    && (forall t :: t in w.starters ==> (w.starters[t].HasSlot? <==> w.writer == ByStarter(t)))
    && (w.writer.ByStarter? ==> w.writer.starter in w.starters)
  }

  ghost predicate RunsLocked(w: World) {
    && (forall k :: k in w.stages ==> w.writer == ByRun(k))
    && (w.writer.ByRun? ==> w.writer.run in w.stages && w.writer.run < w.runs)
    && (w.state.Active() <==> w.writer.ByRun? && At(w.stages, w.writer.run, Inspecting))
  }

  ghost predicate GuestsLocked(w: World) {
    && (!w.writer.NoWriter? ==> w.readers == {})
    && (forall g :: g in w.readers <==> g in w.guests && !w.guests[g].Knocked?)
    && (forall g :: g in w.guests ==> (w.guests[g].Locked? || w.guests[g].Inside? <==> w.manualMutex == Some(g)))
    && (w.manualMutex.Some? ==> w.manualMutex.value in w.guests)
  }

  function PhaseOf(w: World): Phase {
    if w.writer.ByRun? && At(w.stages, w.writer.run, Inspecting) then InRun(w.writer.run)
    else if w.manualMutex.Some? && At(w.guests, w.manualMutex.value, Inside) then InGuest(w.runs, w.manualMutex.value)
    else Quiet(w.runs)
  }

  ghost predicate Serial(w: World) {
    && (w.writer.ByRun? ==> w.writer.run + 1 == w.runs)
    && Replay(w.log) == PhaseOf(w)
  }

  ghost predicate WorkersSound(w: World) {
    && (forall i :: i in w.workers ==> At(w.stages, w.workers[i].run, Inspecting))
    && (forall i :: i in w.workers && w.workers[i].asleep ==>
          w.state.Paused? && (w.workers[i].run !in w.cancelled || w.workers[i].run !in w.announced))
    && (forall run :: run in w.announced ==> run in w.cancelled)
    && (forall run :: run in w.cancelled ==> run < w.runs)
  }

  ghost predicate Inv(w: World) {
    StartersLocked(w) && RunsLocked(w) && GuestsLocked(w) && Serial(w) && WorkersSound(w)
  }

  predicate Starts(a: Action) {
    a.Reserve? || a.Look? || a.TakeSlot? || a.Begin? || a.Leave?
  }

  predicate Runs(a: Action) {
    a.Hire? || a.WaitIfPaused? || a.Retire? || a.End? || a.ReleaseSlot?
  }

  predicate Visits(a: Action) {
    a.Knock? || a.ReadLock? || a.ManualLock? || a.Enter? || a.Merge? || a.ManualUnlock? || a.ReadUnlock?
  }

  /** While a starter has the slot no run has it. */
  lemma SlotIsStarters(w: World, t: nat)
    requires StartersLocked(w) && RunsLocked(w) && At(w.starters, t, HasSlot)
    ensures w.writer == ByStarter(t) && w.stages == map[] && !w.state.Active()
  {
    assert forall k :: k in w.stages ==> false;
  }

  lemma StartersStay(w: World, a: Action)
    requires StartersLocked(w) && RunsLocked(w) && Enabled(w, a)
    ensures StartersLocked(Step(w, a))
  {
    if Starts(a) {
      StartersOnStart(w, a);
    }
  }

  lemma StartersOnStart(w: World, a: Action)
    requires StartersLocked(w) && Enabled(w, a) && Starts(a)
    ensures StartersLocked(Step(w, a))
  {
  }

  lemma RunsStay(w: World, a: Action)
    requires StartersLocked(w) && RunsLocked(w) && Enabled(w, a)
    ensures RunsLocked(Step(w, a))
  {
    if a.Begin? {
      SlotIsStarters(w, a.t);
    }
    hide StartersLocked;
    if Starts(a) {
      RunsOnStart(w, a);
    } else if Runs(a) {
      RunsOnRun(w, a);
    }
  }

  lemma RunsOnStart(w: World, a: Action)
    requires RunsLocked(w) && Enabled(w, a) && Starts(a)
    requires a.Begin? ==> w.writer == ByStarter(a.t) && w.stages == map[] && !w.state.Active()
    ensures RunsLocked(Step(w, a))
  {
  }

  lemma RunsOnRun(w: World, a: Action)
    requires RunsLocked(w) && Enabled(w, a) && Runs(a)
    ensures RunsLocked(Step(w, a))
  {
  }

  lemma GuestsStay(w: World, a: Action)
    requires StartersLocked(w) && RunsLocked(w) && GuestsLocked(w) && Enabled(w, a)
    ensures GuestsLocked(Step(w, a))
  {
    if a.Begin? {
      SlotIsStarters(w, a.t);
    }
    hide StartersLocked, RunsLocked;
    if Arrives(a) {
      GuestsOnArrival(w, a);
    } else if Visits(a) {
      GuestsOnWork(w, a);
    }
  }

  predicate Arrives(a: Action) {
    a.Knock? || a.ReadLock? || a.ManualLock?
  }

  lemma GuestsOnArrival(w: World, a: Action)
    requires GuestsLocked(w) && Enabled(w, a) && Arrives(a)
    ensures GuestsLocked(Step(w, a))
  {
  }

  lemma GuestsOnWork(w: World, a: Action)
    requires GuestsLocked(w) && Enabled(w, a) && Visits(a) && !Arrives(a)
    ensures GuestsLocked(Step(w, a))
  {
  }

  lemma WorkersStay(w: World, a: Action)
    requires StartersLocked(w) && RunsLocked(w) && WorkersSound(w) && Enabled(w, a)
    ensures WorkersSound(Step(w, a))
  {
    if a.Begin? {
      SlotIsStarters(w, a.t);
    }
    hide StartersLocked;
    if Runs(a) {
      WorkersOnRun(w, a);
    } else if !Starts(a) && !Visits(a) {
      WorkersOnControl(w, a);
    }
  }

  lemma WorkersOnRun(w: World, a: Action)
    requires RunsLocked(w) && WorkersSound(w) && Enabled(w, a) && Runs(a)
    ensures WorkersSound(Step(w, a))
  {
  }

  lemma WorkersOnControl(w: World, a: Action)
    requires RunsLocked(w) && WorkersSound(w) && Enabled(w, a) && !Runs(a) && !Starts(a) && !Visits(a)
    ensures WorkersSound(Step(w, a))
  {
  }

  predicate Logs(a: Action) {
    a.Begin? || a.End? || a.Enter? || a.Merge? || a.ManualUnlock?
  }

  lemma SilentStays(w: World, a: Action)
    requires StartersLocked(w) && RunsLocked(w) && GuestsLocked(w) && Serial(w) && Enabled(w, a) && !Logs(a)
    ensures Serial(Step(w, a))
  {
    hide Replay;
    assert Step(w, a).log == w.log;
    assert PhaseOf(Step(w, a)) == PhaseOf(w);
  }

  lemma ReplayMore(log: seq<Event>, e: Event)
    ensures Replay(log + [e]) == After(Replay(log), e)
  {
    assert (log + [e])[..|log|] == log;
  }

  lemma LoggedStays(w: World, a: Action)
    requires Inv(w) && Enabled(w, a) && Logs(a)
    ensures Serial(Step(w, a))
  {
    hide WorkersSound, Replay;
    match a
    case Begin(t, saved) => SlotIsStarters(w, t); ReplayMore(w.log, Begun(w.runs));
    case End(run, outcome) => ReplayMore(w.log, Ended(run, outcome));
    case Enter(g) => ReplayMore(w.log, Entered(g));
    case Merge(g) => ReplayMore(w.log, Merged(g));
    case ManualUnlock(g) => ReplayMore(w.log, Left(g));
  }

  /** Every interleaving is equivalent to one at a time: what runs and guests did, in the order it
      happened, is accepted by the scheduler that has no concurrency. */
  lemma {:induction false} Serializable(actions: seq<Action>)
    ensures Inv(Run(actions))
    ensures Replay(Run(actions).log) == PhaseOf(Run(actions)) != Broken
  {
    if actions != [] {
      var w, a := Run(actions[..|actions| - 1]), actions[|actions| - 1];
      Serializable(actions[..|actions| - 1]);
      if Enabled(w, a) {
        StartersStay(w, a);
        RunsStay(w, a);
        GuestsStay(w, a);
        WorkersStay(w, a);
        if Logs(a) { LoggedStays(w, a); } else { SilentStays(w, a); }
      }
    }
  }

  /** While a run is active it has the slot to itself; guests exclude each other; and both second
      looks at the running state are there for shutdown and save errors only. */
  lemma {:induction false} ActiveRunIsAlone(actions: seq<Action>)
    ensures var w := Run(actions);
      && (w.state.Active() ==>
            && w.writer.ByRun? && w.runs == w.writer.run + 1 && w.readers == {}
            && (forall g :: g in w.guests ==> w.guests[g].Knocked?)
            && (forall t :: t in w.starters ==> !w.starters[t].HasSlot?))
      && (forall k, l :: k in w.stages && l in w.stages ==> k == l)
      && (forall g, h :: At(w.guests, g, Inside) && At(w.guests, h, Inside) ==> g == h)
      && (forall g :: Enabled(w, Enter(g)) ==> Step(w, Enter(g)).guests[g].Inside?)
      && (forall t, saved :: Enabled(w, Begin(t, saved)) ==>
            (Step(w, Begin(t, saved)).state.Running? <==> saved && !w.shutDown))
  {
    Serializable(actions);
    hide Run, Replay, WorkersSound;
  }

  /** A sleeping worker belongs to a paused run and somebody is still due to wake it: whoever
      resumes or stops the run and, once the run is cancelled, the watcher. Awake, it does not fall
      asleep again. */
  lemma {:induction false} NoLostWakeup(actions: seq<Action>, i: nat)
    requires i in Run(actions).workers && Run(actions).workers[i].asleep
    ensures var w := Run(actions); var run := w.workers[i].run;
      && w.state.Paused? && w.writer == ByRun(run)
      && !(run in w.cancelled && run in w.announced)
      && WakesFor(w, Resume, i) && WakesFor(w, Stop, i)
      && (run in w.cancelled ==> WakesFor(w, Watch(run), i))
  {
    Serializable(actions);
    hide Run, Serial, GuestsLocked, StartersLocked;
    Wakes(Run(actions), i);
  }

  /** The step can be taken, the worker wakes, and its next look at the state leaves it awake. */
  predicate WakesFor(w: World, a: Action, i: nat)
    requires i in w.workers
  {
    Enabled(w, a) &&
      var v := Step(w, a);
      i in v.workers && !v.workers[i].asleep && !DoWait(v, i).workers[i].asleep
  }

  lemma Wakes(w: World, i: nat)
    requires i in w.workers && w.state.Paused?
    ensures WakesFor(w, Resume, i) && WakesFor(w, Stop, i)
    ensures w.workers[i].run in w.cancelled ==> WakesFor(w, Watch(w.workers[i].run), i)
  {
  }

  // ----- What gets through -----

  function Next(w: World, a: Action): World {
    if Enabled(w, a) then Step(w, a) else w
  }

  /** After any run, a start that finds nobody in its way begins a run if and only if the server is not
      shutting down and the evidence can be saved; otherwise it leaves the slot as it found it. */
  lemma {:induction false} FreeSlotIsTaken(actions: seq<Action>, t: nat, saved: bool)
    requires Run(actions).startMutex.None? && Run(actions).writer.NoWriter? && Run(actions).readers == {}
    ensures var w := Run(actions);
      var v := Next(Next(Next(Next(Next(w, Reserve(t)), Look(t)), TakeSlot(t)), Begin(t, saved)), Leave(t));
      && !w.state.Active() && v.startMutex.None? && t !in v.starters
      && (saved && !w.shutDown ==>
            && v.state.Running? && v.runs == w.runs + 1 && v.log == w.log + [Begun(w.runs)]
            && v.writer == ByRun(w.runs) && At(v.stages, w.runs, Inspecting))
      && (!saved || w.shutDown ==> v.state == w.state && v.log == w.log && v.writer.NoWriter? && v.runs == w.runs)
  {
    Serializable(actions);
    hide Run, Serial, WorkersSound, GuestsLocked;
  }

  /** After any run, a guest that finds nobody in its way does its work, merges, and leaves all locks. */
  lemma {:induction false} FreeGuestWorks(actions: seq<Action>, g: nat)
    requires g !in Run(actions).guests && Run(actions).writer.NoWriter? && Run(actions).manualMutex.None?
    ensures var w := Run(actions);
      var v := Next(Next(Next(Next(Next(Next(Next(w, Knock(g)), ReadLock(g)), ManualLock(g)), Enter(g)), Merge(g)), ManualUnlock(g)), ReadUnlock(g));
      && v.log == w.log + [Entered(g)] + [Merged(g)] + [Left(g)]
      && v.guests == w.guests && v.manualMutex.None? && v.readers == w.readers && v.state == w.state
  {
    Serializable(actions);
    hide Run, Serial, WorkersSound, StartersLocked;
    GuestWorks(Run(actions), g);
  }

  lemma GuestWorks(w: World, g: nat)
    requires g !in w.guests && g !in w.readers && w.writer.NoWriter? && w.manualMutex.None? && !w.state.Active()
    ensures var v := Next(Next(Next(Next(Next(Next(Next(w, Knock(g)), ReadLock(g)), ManualLock(g)), Enter(g)), Merge(g)), ManualUnlock(g)), ReadUnlock(g));
      && v.log == w.log + [Entered(g)] + [Merged(g)] + [Left(g)]
      && v.guests == w.guests && v.manualMutex.None? && v.readers == w.readers && v.state == w.state
  {
    hide Next, State.Active;
    GuestArrives(w, g);
    GuestWorking(Next(Next(Next(w, Knock(g)), ReadLock(g)), ManualLock(g)), g);
    var c := w.(guests := w.guests[g := Unlocked], readers := w.readers + {g}, log := w.log + [Entered(g)] + [Merged(g)] + [Left(g)]);
    assert w.guests[g := Locked][g := Unlocked] == w.guests[g := Unlocked];
    assert Next(Next(Next(Next(Next(Next(w, Knock(g)), ReadLock(g)), ManualLock(g)), Enter(g)), Merge(g)), ManualUnlock(g)) == c;
    GuestLeaves(c, g);
    assert w.guests[g := Unlocked] - {g} == w.guests;
    assert w.readers + {g} - {g} == w.readers;
  }

  lemma GuestArrives(w: World, g: nat)
    requires g !in w.guests && w.writer.NoWriter? && w.manualMutex.None? && !w.state.Active()
    ensures Next(Next(Next(w, Knock(g)), ReadLock(g)), ManualLock(g))
         == w.(guests := w.guests[g := Locked], readers := w.readers + {g}, manualMutex := Some(g))
  {
    assert w.guests[g := Knocked][g := Reading][g := Locked] == w.guests[g := Locked];
  }

  lemma GuestWorking(w: World, g: nat)
    requires At(w.guests, g, Locked) && !w.state.Active()
    ensures Next(Next(Next(w, Enter(g)), Merge(g)), ManualUnlock(g))
         == w.(guests := w.guests[g := Unlocked], manualMutex := None, log := w.log + [Entered(g)] + [Merged(g)] + [Left(g)])
  {
    assert w.guests[g := Inside][g := Unlocked] == w.guests[g := Unlocked];
  }

  lemma GuestLeaves(w: World, g: nat)
    requires At(w.guests, g, Unlocked)
    ensures Next(w, ReadUnlock(g)) == w.(guests := w.guests - {g}, readers := w.readers - {g})
  {
  }

  /** After any run: pausing holds back every worker of a live run that asks, resuming lets it go on,
      and stopping lets all of them go on to their end. */
  lemma {:induction false} PauseHoldsResumeReleases(actions: seq<Action>, i: nat)
    requires i in Run(actions).workers && !Run(actions).workers[i].asleep
    requires Run(actions).state.Running? || Run(actions).state.Paused?
    ensures var w := Run(actions);
      var p := Next(Next(w, Pause), WaitIfPaused(i)); var r := Next(p, Resume); var s := Next(p, Stop);
      && p.state.Paused? && i in p.workers
      && (p.workers[i].asleep <==> w.workers[i].run !in w.cancelled) && (Enabled(p, Retire(i)) <==> !p.workers[i].asleep)
      && r.state.Running? && Enabled(r, Retire(i)) && Enabled(Next(r, WaitIfPaused(i)), Retire(i))
      && s.state.Stopping? && Enabled(s, Retire(i)) && Enabled(Next(s, WaitIfPaused(i)), Retire(i))
      && p.log == r.log == s.log == w.log && p.runs == r.runs == s.runs == w.runs
  {
    var w := Run(actions);
    var p := Next(Next(w, Pause), WaitIfPaused(i));
    HeldBack(w, i);
    LetGo(p, i);
    hide Run, Next, Enabled;
  }

  lemma PauseTakes(w: World)
    requires w.state.Running? || w.state.Paused?
    ensures Next(w, Pause) == w.(state := Paused)
  {
  }

  lemma WaitTakes(w: World, i: nat)
    requires i in w.workers && !w.workers[i].asleep
    ensures Next(w, WaitIfPaused(i)) == DoWait(w, i)
    ensures Enabled(DoWait(w, i), Retire(i)) <==> !DoWait(w, i).workers[i].asleep
  {
  }

  lemma HeldBack(w: World, i: nat)
    requires i in w.workers && !w.workers[i].asleep && (w.state.Running? || w.state.Paused?)
    ensures var p := Next(Next(w, Pause), WaitIfPaused(i));
      && p.state.Paused? && i in p.workers && p.log == w.log && p.runs == w.runs
      && (p.workers[i].asleep <==> w.workers[i].run !in w.cancelled) && (Enabled(p, Retire(i)) <==> !p.workers[i].asleep)
  {
    hide Next, Enabled;
    PauseTakes(w);
    WaitTakes(Next(w, Pause), i);
  }

  lemma LetGo(p: World, i: nat)
    requires i in p.workers && p.state.Paused?
    ensures var r := Next(p, Resume);
      && r.state.Running? && r.log == p.log && r.runs == p.runs
      && Enabled(r, Retire(i)) && Enabled(Next(r, WaitIfPaused(i)), Retire(i))
    ensures var s := Next(p, Stop);
      && s.state.Stopping? && s.log == p.log && s.runs == p.runs
      && Enabled(s, Retire(i)) && Enabled(Next(s, WaitIfPaused(i)), Retire(i))
  {
  }

  /** Outside an active run the controls do nothing; a run that is stopping can be neither paused nor
      resumed. */
  lemma ControlsNeedARun(w: World)
    ensures !w.state.Active() ==> Next(w, Pause) == w && Next(w, Resume) == w && Next(w, Stop) == w
    ensures w.state.Stopping? ==> Next(w, Pause) == w && Next(w, Resume) == w
    ensures w.state.Running? ==> Next(w, Resume) == w
  {
  }

  /** After any run, an active run without workers ends in the given state, and the slot is free again. */
  lemma {:induction false} FinishedRunFreesSlot(actions: seq<Action>, outcome: State)
    requires Run(actions).state.Active() && Run(actions).workers == map[] && outcome.Terminal()
    ensures var w := Run(actions); var k := w.runs - 1;
      k >= 0 && var v := Next(Next(w, End(k, outcome)), ReleaseSlot(k));
      && v.state == outcome && v.writer.NoWriter? && v.stages == map[] && v.log == w.log + [Ended(k, outcome)]
      && v.cancelled == w.cancelled + {k}
  {
    Serializable(actions);
    hide Run, Replay, WorkersSound, GuestsLocked, StartersLocked;
    var w := Run(actions);
    var v := Next(Next(w, End(w.runs - 1, outcome)), ReleaseSlot(w.runs - 1));
    assert forall k :: k in v.stages ==> false;
  }

  // ----- Nobody waits forever for a lock -----

  /** Something that holds locks or waits for them. */
  predicate Busy(w: World) {
    w.starters != map[] || w.guests != map[] || w.stages != map[]
  }

  /** A step with which a thread that is already under way goes on. */
  predicate GoesOn(a: Action) {
    a.Look? || a.TakeSlot? || a.Begin? || a.Leave? || a.Retire? || a.End? || a.ReleaseSlot?
    || a.ReadLock? || a.ManualLock? || a.Enter? || a.ManualUnlock? || a.ReadUnlock?
  }

  lemma RunGoesOn(w: World, k: nat) returns (a: Action)
    requires Inv(w) && k in w.stages
    ensures (GoesOn(a) && Enabled(w, a)) || (a == Resume && w.state.Paused? && exists i :: i in w.workers && w.workers[i].asleep)
    ensures !a.ReadLock?
  {
    hide Serial, GuestsLocked, StartersLocked;
    if w.stages[k] == Published {
      a := ReleaseSlot(k);
    } else if i :| i in w.workers && w.workers[i].run == k {
      a := if w.workers[i].asleep then Resume else Retire(i);
    } else {
      a := End(k, Completed);
    }
  }

  /** A guest that has the read lock is not held up by anyone but guests that can go on. */
  lemma ReaderGoesOn(w: World, g: nat) returns (a: Action)
    requires GuestsLocked(w) && g in w.readers
    ensures GoesOn(a) && Enabled(w, a) && !a.ReadLock?
  {
    if w.guests[g].Unlocked? {
      a := ReadUnlock(g);
    } else if w.manualMutex.None? {
      a := ManualLock(g);
    } else {
      var h := w.manualMutex.value;
      a := if w.guests[h].Locked? then Enter(h) else ManualUnlock(h);
    }
  }

  lemma StarterGoesOn(w: World, t: nat) returns (a: Action)
    requires Inv(w) && w.stages == map[] && t in w.starters
    ensures GoesOn(a) && Enabled(w, a) && !a.ReadLock?
  {
    hide Serial, WorkersSound;
    match w.starters[t]
    case Reserved => a := Look(t);
    case HasSlot => a := Begin(t, true);
    case Leaving => a := Leave(t);
    case Looked =>
      assert w.writer.NoWriter?;
      if g :| g in w.readers {
        a := ReaderGoesOn(w, g);
      } else {
        a := TakeSlot(t);
      }
  }

  /** No deadlock: whenever a start, a run or a guest is under way, one of them can go on, unless the
      run is paused and a worker sleeps. This needs no reader to get in before a waiting writer. */
  lemma {:induction false} SomebodyGoesOn(actions: seq<Action>) returns (a: Action)
    requires Busy(Run(actions))
    ensures var w := Run(actions);
      || (GoesOn(a) && Enabled(w, a) && (a.ReadLock? ==> w.starters == map[]))
      || (a == Resume && w.state.Paused? && exists i :: i in w.workers && w.workers[i].asleep)
  {
    Serializable(actions);
    hide Run;
    var w := Run(actions);
    if k :| k in w.stages {
      a := RunGoesOn(w, k);
    } else if t :| t in w.starters {
      a := StarterGoesOn(w, t);
    } else {
      hide Serial, WorkersSound;
      var g :| g in w.guests;
      if g in w.readers {
        a := ReaderGoesOn(w, g);
      } else {
        a := ReadLock(g);
      }
    }
  }

  // ----- What a serial log says -----

  function Ends(p: Phase): nat
    requires !p.Broken?
  {
    if p.InRun? then p.run else p.ended
  }

  lemma {:induction false} PrefixReplays(log: seq<Event>, i: nat)
    requires i <= |log| && !Replay(log).Broken?
    ensures !Replay(log[..i]).Broken? && Ends(Replay(log[..i])) <= Ends(Replay(log))
  {
    if i < |log| {
      PrefixReplays(log[..|log| - 1], i);
      assert log[..|log| - 1][..i] == log[..i];
    } else {
      assert log[..i] == log;
    }
  }

  lemma ReplayAt(log: seq<Event>, i: nat)
    requires i < |log| && !Replay(log).Broken?
    ensures !Replay(log[..i]).Broken? && !After(Replay(log[..i]), log[i]).Broken?
    ensures Replay(log[..i + 1]) == After(Replay(log[..i]), log[i])
  {
    PrefixReplays(log, i);
    PrefixReplays(log, i + 1);
    assert log[..i + 1][..i] == log[..i];
  }

  lemma SerialRuns(log: seq<Event>, i: nat, j: nat)
    requires i < j < |log| && !Replay(log).Broken?
    ensures log[i].Begun? ==> log[i + 1].Ended? && log[i + 1].run == log[i].run && log[i + 1].outcome.Terminal()
    ensures log[i].Ended? && log[j].Ended? ==> log[i].run < log[j].run
    ensures log[i].Begun? && log[j].Begun? ==> log[i].run < log[j].run
  {
    ReplayAt(log, i);
    ReplayAt(log, i + 1);
    ReplayAt(log, j);
    PrefixReplays(log, j);
    PrefixReplays(log[..j], i + 1);
    assert log[..j][..i + 1] == log[..i + 1];
    if i + 1 < j {
      PrefixReplays(log[..j], i + 2);
      assert log[..j][..i + 2] == log[..i + 2];
    }
    hide Replay;
  }

  /** Runs are numbered as they begin, each ends before anything else happens, in one terminal state,
      and never again. */
  lemma {:induction false} EachRunEndsOnce(actions: seq<Action>, i: nat, j: nat)
    requires i < j < |Run(actions).log|
    ensures var log := Run(actions).log;
      && (log[i].Begun? ==> log[i + 1].Ended? && log[i + 1].run == log[i].run && log[i + 1].outcome.Terminal())
      && (log[i].Ended? && log[j].Ended? ==> log[i].run < log[j].run)
      && (log[i].Begun? && log[j].Begun? ==> log[i].run < log[j].run)
  {
    Serializable(actions);
    SerialRuns(Run(actions).log, i, j);
  }

  /** A guest merges only between its own entry and exit, with no other event in between: in
      particular into no results that a run has cleared or published since the guest entered. */
  lemma {:induction false} MergesAreInside(log: seq<Event>, i: nat) returns (entry: nat)
    requires i < |log| && !Replay(log).Broken? && (log[i].Merged? || log[i].Left?)
    ensures entry < i && log[entry] == Entered(log[i].guest)
    ensures forall m :: entry < m < i ==> log[m] == Merged(log[i].guest)
    decreases i
  {
    ReplayAt(log, i);
    if i > 0 {
      ReplayAt(log, i - 1);
    }
    hide Replay;
    if log[i - 1] == Entered(log[i].guest) {
      entry := i - 1;
    } else {
      entry := MergesAreInside(log, i - 1);
    }
  }

  lemma RunMore(actions: seq<Action>, more: seq<Action>)
    requires more != []
    ensures var w, a := Run(actions + more[..|more| - 1]), more[|more| - 1];
      Run(actions + more) == if Enabled(w, a) then Step(w, a) else w
  {
    assert (actions + more)[..|actions + more| - 1] == actions + more[..|more| - 1];
  }

  lemma StaysShut(w: World, a: Action)
    requires Enabled(w, a)
    ensures w.shutDown ==> Step(w, a).shutDown && Step(w, a).runs == w.runs
    ensures w.announced <= Step(w, a).announced
  {
  }

  /** A stop lets the current run go on until it notices; a shutdown lets no other run begin. */
  lemma {:induction false} NothingStartsAfterShutdown(actions: seq<Action>, more: seq<Action>)
    requires Run(actions).shutDown
    ensures Run(actions + more).shutDown && Run(actions + more).runs == Run(actions).runs
  {
    hide Run, Step, Enabled;
    if more == [] {
      assert actions + more == actions;
    } else {
      NothingStartsAfterShutdown(actions, more[..|more| - 1]);
      RunMore(actions, more);
      var w, a := Run(actions + more[..|more| - 1]), more[|more| - 1];
      if Enabled(w, a) { StaysShut(w, a); }
    }
  }

  lemma {:induction false} StaysAnnounced(actions: seq<Action>, more: seq<Action>)
    ensures Run(actions).announced <= Run(actions + more).announced
  {
    hide Run, Step, Enabled;
    if more == [] {
      assert actions + more == actions;
    } else {
      StaysAnnounced(actions, more[..|more| - 1]);
      RunMore(actions, more);
      var w, a := Run(actions + more[..|more| - 1]), more[|more| - 1];
      if Enabled(w, a) { StaysShut(w, a); }
    }
  }

  /** Once a run is cancelled and its watcher has broadcast, none of its workers sleeps in any
      continuation, so each of them can retire. */
  lemma {:induction false} CancelledRunStaysAwake(actions: seq<Action>, more: seq<Action>, i: nat)
    requires i in Run(actions + more).workers && Run(actions + more).workers[i].run in Run(actions).announced
    ensures Enabled(Run(actions + more), Retire(i))
  {
    Serializable(actions + more);
    StaysAnnounced(actions, more);
    hide Run, Step, Serial, GuestsLocked, StartersLocked;
  }

  lemma RunOne(actions: seq<Action>, a: Action)
    ensures Run(actions + [a]) == Next(Run(actions), a)
  {
    assert (actions + [a])[..|actions|] == actions;
  }

  /** After any run, whatever follows a shutdown begins no run, and no worker sleeps through it. */
  lemma {:induction false} ShutdownRefusesStarts(actions: seq<Action>, more: seq<Action>)
    ensures var w, v := Run(actions), Run(actions + [Shutdown]);
      && v.shutDown && v.state == w.state && v.runs == w.runs && v.workers.Keys == w.workers.Keys
      && (forall i :: i in v.workers ==> v.workers[i] == Worker(w.workers[i].run, false))
      && Run(actions + [Shutdown] + more).runs == w.runs
  {
    RunOne(actions, Shutdown);
    NothingStartsAfterShutdown(actions + [Shutdown], more);
    hide Run;
  }

  /** Whatever follows the cancellation of a run and its announcement, every worker of it that is left
      then can retire. */
  lemma {:induction false} CancellationFreesWorkers(actions: seq<Action>, k: nat, more: seq<Action>, i: nat)
    requires k < Run(actions).runs
    ensures var w := Run(actions + [Cancel(k)] + [Watch(k)] + more);
      k in w.announced && (i in w.workers && w.workers[i].run == k ==> Enabled(w, Retire(i)))
  {
    RunOne(actions, Cancel(k));
    RunOne(actions + [Cancel(k)], Watch(k));
    var told := actions + [Cancel(k)] + [Watch(k)];
    StaysAnnounced(told, more);
    hide Run;
    if i in Run(told + more).workers && Run(told + more).workers[i].run == k {
      CancelledRunStaysAwake(told, more, i);
    }
  }

  /** A run takes on a worker, awake, as long as it inspects; it cannot end before that worker has
      retired, which undoes the hiring. */
  lemma RunOutlivesItsWorkers(w: World, k: nat, i: nat, outcome: State)
    requires At(w.stages, k, Inspecting) && i !in w.workers
    ensures var v := Next(w, Hire(i, k));
      && v == w.(workers := w.workers[i := Worker(k, false)]) && !Enabled(v, End(k, outcome))
      && Next(v, Retire(i)) == w
  {
    var v := Next(w, Hire(i, k));
    assert v.workers[i].run == k;
    assert v.workers - {i} == w.workers;
  }

  /** An import puts its state in force unless a run is active. */
  lemma ImportNeedsRest(w: World, state: State)
    requires state.Idle? || state.Terminal()
    ensures Next(w, Import(state)) == if w.state.Active() then w else w.(state := state)
  {
  }
}
