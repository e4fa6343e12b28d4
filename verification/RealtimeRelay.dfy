/** Two goroutines that copy a realtime connection, one each way, and the quota turn they share.
    A step is what one of them does between two accesses to the shared state, the quota service or
    a socket. Turns are numbered in the order in which they are charged. */
module RealtimeRelay {
  import opened Basics

  /** The loop towards the upstream: reading, with a create in hand, with one that found nothing
      active, with a charged turn to record, writing, or returned. */
  datatype Down =
    | DownReading
    | GotCreate
    | NotBusy
    | Charged(number: nat)
    | DownWriting(create: bool, turn: Option<nat>)
    | DownEnded

  /** The loop towards the client: reading, with a completion in hand, settling, writing, or returned. */
  datatype Up =
    | UpReading
    | GotCompleted
    | Settling(turn: Option<nat>)
    | UpWriting
    | UpEnded

  /** A frame that went upstream; of a create that has a turn, how many turns had been taken for
      settlement by then. */
  datatype Frame = Other | Create(turn: Option<nat>, taken: nat)

  /** `taken` and `settled` are the turns taken from the shared state and handed to the quota
      service, oldest first; `completions` counts the completions read from the upstream. */
  datatype World = World(
    down: Down, up: Up, active: Option<nat>, charged: nat, completions: nat, taken: seq<nat>, settled: seq<nat>, wire: seq<Frame>)

  datatype Admission = Rejected | Free | Charge

  datatype Action =
    | ReadDown(create: bool)
    | CheckBusy
    | Admit(admission: Admission)
    | Activate
    | WriteUp(ok: bool)
    | FailDown
    | ReadUp(completed: bool)
    | Take
    | Settle
    | WriteDown(ok: bool)
    | FailUp

  predicate Enabled(w: World, a: Action) {
    match a
    case ReadDown(_) => w.down.DownReading?
    case CheckBusy => w.down.GotCreate?
    case Admit(_) => w.down.NotBusy?
    case Activate => w.down.Charged?
    case WriteUp(_) => w.down.DownWriting?
    case FailDown => w.down.DownReading?
    case ReadUp(_) => w.up.UpReading?
    case Take => w.up.GotCompleted?
    case Settle => w.up.Settling?
    case WriteDown(_) => w.up.UpWriting?
    case FailUp => w.up.UpReading?
  }

  function DoAdmit(w: World, admission: Admission): World {
    match admission
    case Rejected => w.(down := DownReading)
    case Free => w.(down := DownWriting(true, None))
    case Charge => w.(down := Charged(w.charged), charged := w.charged + 1)
  }

  function DoWriteUp(w: World, ok: bool): World
    requires w.down.DownWriting?
  {
    if ok then w.(down := DownReading, wire := w.wire + [if w.down.create then Create(w.down.turn, |w.taken|) else Other])
    else w.(down := DownEnded)
  }

  function Step(w: World, a: Action): World
    requires Enabled(w, a)
  {
    match a
    case ReadDown(create) => w.(down := if create then GotCreate else DownWriting(false, None))
    case CheckBusy => w.(down := if w.active.Some? then DownReading else NotBusy)
    case Admit(admission) => DoAdmit(w, admission)
    case Activate => w.(active := Some(w.down.number), down := DownWriting(true, Some(w.down.number)))
    case WriteUp(ok) => DoWriteUp(w, ok)
    case FailDown => w.(down := DownEnded)
    case ReadUp(completed) =>
      if completed then w.(up := GotCompleted, completions := w.completions + 1) else w.(up := UpWriting)
    case Take => w.(up := Settling(w.active), active := None, taken := w.taken + Only(w.active))
    case Settle => w.(up := UpWriting, settled := w.settled + Only(w.up.turn))
    case WriteDown(ok) => w.(up := if ok then UpReading else UpEnded)
    case FailUp => w.(up := UpEnded)
  }

  function Only(turn: Option<nat>): seq<nat> {
    if turn.Some? then [turn.value] else []
  }

  function Init(): World {
    World(DownReading, UpReading, None, 0, 0, [], [], [])
  }

  function Run(actions: seq<Action>): World {
    if actions == [] then Init()
    else
      var w, a := Run(actions[..|actions| - 1]), actions[|actions| - 1];
      if Enabled(w, a) then Step(w, a) else w
  }

  /** 0, 1, ..., n - 1. */
  function UpTo(n: nat): (s: seq<nat>)
    ensures |s| == n && forall i :: 0 <= i < n ==> s[i] == i
  {
    seq(n, i requires 0 <= i < n => i)
  }

  /** Charged, but not yet recorded in the shared state. */
  function Unrecorded(w: World): seq<nat> {
    if w.down.Charged? then [w.down.number] else []
  }

  function InHand(w: World): seq<nat> {
    if w.up.Settling? then Only(w.up.turn) else []
  }

  predicate Conserved(w: World) {
    && w.settled + InHand(w) == w.taken
    && w.taken + Only(w.active) + Unrecorded(w) == UpTo(w.charged)
  }

  predicate Exclusive(w: World) {
    && (w.down.NotBusy? || w.down.Charged? ==> w.active.None?)
    && (w.down.Charged? ==> w.down.number + 1 == w.charged)
    && (w.down.DownWriting? && w.down.turn.Some? ==>
          w.down.create && w.down.turn.value + 1 == w.charged && (w.active.None? || w.active == w.down.turn))
  }

  /** On the wire, a turn's create comes when all earlier turns have been taken. */
  predicate WireOrderly(w: World) {
    && (forall i :: 0 <= i < |w.wire| && w.wire[i].Create? && w.wire[i].turn.Some? ==>
          w.wire[i].turn.value <= w.wire[i].taken <= w.wire[i].turn.value + 1 <= w.charged)
    && (forall i, j :: 0 <= i < j < |w.wire| && w.wire[i].Create? && w.wire[i].turn.Some? && w.wire[j].Create? && w.wire[j].turn.Some? ==>
          w.wire[i].turn.value < w.wire[j].turn.value)
    && (forall i :: 0 <= i < |w.wire| && w.wire[i].Create? && w.wire[i].turn.Some? ==>
          (w.down.Charged? || (w.down.DownWriting? && w.down.turn.Some?)) ==> w.wire[i].turn.value + 1 < w.charged)
  }

  /** Creates on the wire, and those among them that have a turn. */
  function Creates(wire: seq<Frame>): nat {
    if wire == [] then 0 else Creates(wire[..|wire| - 1]) + if wire[|wire| - 1].Create? then 1 else 0
  }

  function Charges(wire: seq<Frame>): (n: nat)
    ensures n <= Creates(wire)
  {
    if wire == [] then 0
    else Charges(wire[..|wire| - 1]) + if wire[|wire| - 1].Create? && wire[|wire| - 1].turn.Some? then 1 else 0
  }

  lemma OneFrame(wire: seq<Frame>, f: Frame)
    ensures Creates(wire + [f]) == Creates(wire) + if f.Create? then 1 else 0
    ensures Charges(wire + [f]) == Charges(wire) + if f.Create? && f.turn.Some? then 1 else 0
  {
    assert (wire + [f])[..|wire|] == wire;
  }

  /** Every charged turn's create is on the wire, or still to be written, or its write failed. */
  predicate Counted(w: World) {
    var unwritten := |Unrecorded(w)| + if w.down.DownWriting? && w.down.turn.Some? then 1 else 0;
    if w.down.DownEnded? then Charges(w.wire) <= w.charged <= Charges(w.wire) + 1 else Charges(w.wire) + unwritten == w.charged
  }

  predicate Inv(w: World) {
    Conserved(w) && Exclusive(w) && WireOrderly(w) && Counted(w)
  }

  lemma ConservedStays(w: World, a: Action)
    requires Inv(w) && Enabled(w, a)
    ensures Conserved(Step(w, a)) && Exclusive(Step(w, a))
  {
    hide WireOrderly, Counted;
    var v := Step(w, a);
    if v.charged != w.charged {
      assert UpTo(v.charged) == UpTo(w.charged) + [w.charged];
    }
    if a.Activate? || a.Admit? {
      assert w.active.None?;
    }
    if a.Take? || a.Settle? {
      assert v.settled + InHand(v) == v.taken;
      assert v.taken + Only(v.active) == w.taken + Only(w.active);
    }
    assert |w.taken + Only(w.active) + Unrecorded(w)| == w.charged;
  }

  lemma TakenSoFar(w: World)
    requires Inv(w)
    ensures |w.taken| + |Only(w.active)| + |Unrecorded(w)| == w.charged
  {
    assert |w.taken + Only(w.active) + Unrecorded(w)| == |UpTo(w.charged)|;
  }

  lemma WireOnWrite(w: World, ok: bool)
    requires Inv(w) && Enabled(w, WriteUp(ok))
    ensures WireOrderly(DoWriteUp(w, ok))
  {
    TakenSoFar(w);
    hide Conserved, Counted;
  }

  lemma WireStays(w: World, a: Action)
    requires Inv(w) && Enabled(w, a)
    ensures WireOrderly(Step(w, a))
  {
    TakenSoFar(w);
    hide Conserved, Counted;
    if a.WriteUp? {
      WireOnWrite(w, a.ok);
    }
  }

  lemma CountedStays(w: World, a: Action)
    requires Counted(w) && Exclusive(w) && Enabled(w, a)
    ensures Counted(Step(w, a))
  {
    if a.WriteUp? && a.ok {
      OneFrame(w.wire, if w.down.create then Create(w.down.turn, |w.taken|) else Other);
    }
    hide Creates, Charges;
  }

  lemma {:induction false} RunStays(actions: seq<Action>)
    ensures Inv(Run(actions))
  {
    if actions != [] {
      RunStays(actions[..|actions| - 1]);
      var w, a := Run(actions[..|actions| - 1]), actions[|actions| - 1];
      if Enabled(w, a) {
        ConservedStays(w, a);
        WireStays(w, a);
        CountedStays(w, a);
      }
    }
  }

  // ----- Over all interleavings -----

  /** Every charged turn is, in this order: handed to settlement, being handed, active, or about to
      become active. So none is settled twice, out of order, or lost, and while the connection is
      open at most two are unsettled; after both loops returned, at most the one still active. */
  lemma {:induction false} EveryTurnOnce(actions: seq<Action>)
    ensures var w := Run(actions);
      && w.settled + InHand(w) + Only(w.active) + Unrecorded(w) == UpTo(w.charged)
      && w.charged - 2 <= |w.settled| <= w.charged
      && (w.down.DownEnded? && w.up.UpEnded? ==> w.charged == |w.settled| + |Only(w.active)|)
  {
    RunStays(actions);
    hide Run, WireOrderly, UpTo;
    var w := Run(actions);
    assert |w.settled + InHand(w) + Only(w.active) + Unrecorded(w)| == w.charged;
  }

  /** Recording a turn never overwrites one, and a create that arrives while a turn is active is
      neither charged nor forwarded. */
  lemma {:induction false} ActiveTurnIsKept(actions: seq<Action>)
    ensures var w := Run(actions);
      && (Enabled(w, Activate) ==> w.active.None?)
      && (Enabled(w, CheckBusy) && w.active.Some? ==> Step(w, CheckBusy) == w.(down := DownReading))
  {
    RunStays(actions);
    hide Run;
  }

  /** Charged creates reach the wire in the order of their turns, each after all earlier turns were
      taken for settlement, so at most one charged turn is open upstream. */
  lemma {:induction false} OneTurnOnTheWire(actions: seq<Action>, i: nat, j: nat)
    requires i < j < |Run(actions).wire|
    requires Run(actions).wire[i].Create? && Run(actions).wire[i].turn.Some?
    requires Run(actions).wire[j].Create? && Run(actions).wire[j].turn.Some?
    ensures var f, g := Run(actions).wire[i], Run(actions).wire[j];
      f.turn.value < g.turn.value && f.turn.value + 1 <= g.turn.value <= g.taken
  {
    RunStays(actions);
  }

  lemma RunOne(actions: seq<Action>, a: Action)
    ensures Run(actions + [a]) == if Enabled(Run(actions), a) then Step(Run(actions), a) else Run(actions)
  {
    assert (actions + [a])[..|actions|] == actions;
  }

  // ----- What gets through -----

  function Next(w: World, a: Action): World {
    if Enabled(w, a) then Step(w, a) else w
  }

  /** After any run, a create that finds no active turn is forwarded if and only if it is admitted, as a
      new active turn if it is charged; one that finds a turn goes nowhere. */
  lemma {:induction false} CreateIsForwarded(actions: seq<Action>, admission: Admission)
    requires Run(actions).down.DownReading?
    ensures var w := Run(actions);
      var v := Next(Next(Next(Next(w, ReadDown(true)), CheckBusy), Admit(admission)), if admission.Charge? then Activate else WriteUp(true));
      var u := if admission.Charge? then Next(v, WriteUp(true)) else v;
      && u.down.DownReading? && u.up == w.up && u.taken == w.taken && u.settled == w.settled
      && (w.active.Some? || admission.Rejected? ==> u.wire == w.wire && u.active == w.active && u.charged == w.charged)
      && (w.active.None? && admission.Charge? ==>
            && u.wire == w.wire + [Create(Some(w.charged), |w.taken|)]
            && u.active == Some(w.charged) && u.charged == w.charged + 1)
      && (w.active.None? && admission.Free? ==>
            u.wire == w.wire + [Create(None, |w.taken|)] && u.active.None? && u.charged == w.charged)
  {
    hide Run;
    CreateGoes(Run(actions), admission);
  }

  lemma CreateGoes(w: World, admission: Admission)
    requires w.down.DownReading?
    ensures var b := Next(Next(w, ReadDown(true)), CheckBusy);
      && (w.active.Some? ==> b == w) && (w.active.None? ==> b == w.(down := NotBusy))
      && (!b.down.NotBusy? ==> Next(b, Admit(admission)) == b && Next(b, Activate) == b && Next(b, WriteUp(true)) == b)
    ensures var b := w.(down := NotBusy); var a := Next(b, Admit(admission));
      && (admission.Rejected? ==> a == w && Next(a, WriteUp(true)) == w)
      && (admission.Free? ==> Next(a, WriteUp(true)) == w.(wire := w.wire + [Create(None, |w.taken|)]))
      && (admission.Charge? ==>
            Next(Next(a, Activate), WriteUp(true))
            == w.(active := Some(w.charged), charged := w.charged + 1, wire := w.wire + [Create(Some(w.charged), |w.taken|)]))
  {
  }

  /** After any run, a completion hands exactly the active turn to settlement, once, and clears it;
      without an active turn it settles nothing. */
  lemma {:induction false} CompletionSettles(actions: seq<Action>)
    requires Run(actions).up.UpReading?
    ensures var w := Run(actions); var v := Next(Next(Next(Next(w, ReadUp(true)), Take), Settle), WriteDown(true));
      && v.up.UpReading? && v.active.None? && v.settled == w.settled + Only(w.active) && v.taken == w.taken + Only(w.active)
      && v.down == w.down && v.wire == w.wire && v.charged == w.charged
      && (w.active.Some? ==> |v.settled| == |w.settled| + 1 && v.settled[|w.settled|] == w.active.value)
      && (w.active.None? ==> v.settled == w.settled)
  {
    hide Run;
  }

  /** Frames of other kinds go through in either direction without touching a turn. */
  lemma OthersGoThrough(w: World)
    ensures w.down.DownReading? ==> Next(Next(w, ReadDown(false)), WriteUp(true)) == w.(wire := w.wire + [Other])
    ensures w.up.UpReading? ==> Next(Next(w, ReadUp(false)), WriteDown(true)) == w
  {
  }

  // ----- A turn taken before its create is sent -----

  /** Some turn was taken for settlement although its create is not on the wire. */
  predicate Premature(w: World) {
    |w.taken| > Charges(w.wire)
  }

  /** Nothing is charged or taken any more. */
  predicate Over(w: World) {
    w.down.DownEnded? && w.active.None?
  }

  /** What the quota service and the upstream must do: every admitted create is charged, and the
      upstream completes no more responses than creates were sent to it. Neither matters once the loop
      that would suffer from it has ended. */
  predicate Allowed(w: World, a: Action) {
    match a
    case Admit(admission) => admission.Free? ==> w.up.UpEnded?
    case ReadUp(completed) => completed ==> w.completions < Creates(w.wire) || Over(w)
    case _ => true
  }

  /** Every step of `more`, taken after `actions`, is allowed. */
  predicate Guarded(actions: seq<Action>, more: seq<Action>)
    decreases |more|
  {
    more != [] ==>
      var front, a := more[..|more| - 1], more[|more| - 1];
      Guarded(actions, front) && (Enabled(Run(actions + front), a) ==> Allowed(Run(actions + front), a))
  }

  /** While both loops can go on, completions match the creates that were sent one for one. */
  predicate Orderly(w: World) {
    && !Premature(w)
    && (forall i :: 0 <= i < |w.wire| && w.wire[i].Create? && w.wire[i].turn.Some? ==> w.wire[i].taken == w.wire[i].turn.value)
    && (!w.up.UpEnded? && !Over(w) ==>
          && Creates(w.wire) == Charges(w.wire) && !(w.down.DownWriting? && w.down.create && w.down.turn.None?)
          && w.completions == |w.taken| + (if w.up.GotCompleted? then 1 else 0) && w.completions <= Creates(w.wire))
  }

  lemma OrderlyOnWrite(w: World, ok: bool)
    requires Inv(w) && Orderly(w) && Enabled(w, WriteUp(ok))
    ensures Orderly(DoWriteUp(w, ok))
  {
    TakenSoFar(w);
    OneFrame(w.wire, if w.down.create then Create(w.down.turn, |w.taken|) else Other);
    hide Conserved, Creates, Charges, WireOrderly;
  }

  lemma OrderlyStays(w: World, a: Action)
    requires Inv(w) && Orderly(w) && Enabled(w, a) && Allowed(w, a)
    ensures Orderly(Step(w, a))
  {
    TakenSoFar(w);
    hide Conserved, Creates, Charges, WireOrderly;
    if a.WriteUp? {
      OrderlyOnWrite(w, a.ok);
    }
  }

  lemma {:induction false} GuardedIsOrderly(actions: seq<Action>, more: seq<Action>)
    requires Guarded(actions, more) && Orderly(Run(actions))
    ensures Orderly(Run(actions + more))
  {
    hide Run, Inv, Orderly, Allowed, Enabled, Step;
    if more == [] {
      assert actions + more == actions;
    } else {
      var front, a := more[..|more| - 1], more[|more| - 1];
      GuardedIsOrderly(actions, front);
      RunOne(actions + front, a);
      assert (actions + front) + [a] == actions + more;
      RunStays(actions + front);
      if Enabled(Run(actions + front), a) {
        OrderlyStays(Run(actions + front), a);
      }
    }
  }

  /** Under these conditions, and in every interleaving, no turn is taken or settled before its create
      is sent, and a create is sent exactly when all earlier turns and not its own were taken. */
  lemma {:induction false} NoTurnBeforeItsCreate(actions: seq<Action>, i: nat)
    requires Guarded([], actions)
    ensures |Run(actions).settled| <= |Run(actions).taken| <= Charges(Run(actions).wire)
    ensures var wire := Run(actions).wire;
      i < |wire| && wire[i].Create? && wire[i].turn.Some? ==> wire[i].taken == wire[i].turn.value
  {
    assert Orderly(Run([]));
    GuardedIsOrderly([], actions);
    assert [] + actions == actions;
    RunStays(actions);
    hide Run, WireOrderly, Creates, Charges, Counted;
    assert |Run(actions).settled + InHand(Run(actions))| == |Run(actions).taken|;
  }

  // ----- Without these conditions -----

  ghost predicate CanFail(actions: seq<Action>) {
    exists more :: Guarded(actions, more) && Premature(Run(actions + more))
  }

  lemma {:induction false} GuardedLater(actions: seq<Action>, a: Action, more: seq<Action>)
    requires Guarded(actions + [a], more) && (Enabled(Run(actions), a) ==> Allowed(Run(actions), a))
    ensures Guarded(actions, [a] + more)
  {
    hide Run, Enabled, Allowed;
    var all := [a] + more;
    if more == [] {
      assert all[..0] == [] && all[|all| - 1] == a && actions + [] == actions;
      assert Guarded(actions, []);
    } else {
      var front := more[..|more| - 1];
      GuardedLater(actions, a, front);
      assert all[..|all| - 1] == [a] + front;
      assert actions + ([a] + front) == actions + [a] + front;
    }
  }

  lemma FailsLater(actions: seq<Action>, a: Action)
    requires Allowed(Run(actions), a) && CanFail(actions + [a])
    ensures CanFail(actions)
  {
    hide Run, Enabled, Allowed, Premature;
    var more :| Guarded(actions + [a], more) && Premature(Run(actions + [a] + more));
    GuardedLater(actions, a, more);
    assert actions + ([a] + more) == actions + [a] + more;
  }

  lemma FailsNow(actions: seq<Action>)
    requires Premature(Run(actions))
    ensures CanFail(actions)
  {
    assert Guarded(actions, []) && actions + [] == actions;
  }

  /** A completion is in hand that belongs to no create with a turn. */
  predicate Surplus(w: World) {
    w.up.GotCompleted? && |w.taken| == Charges(w.wire) && !Over(w)
  }

  /** The way to the next turn that is active and not written. */
  function TowardsTurn(w: World): Action {
    if w.active.Some? then Take
    else match w.down
      case Charged(_) => Activate
      case NotBusy => Admit(Charge)
      case GotCreate => CheckBusy
      case DownReading => ReadDown(true)
      case _ => WriteUp(true)
  }

  function Distance(w: World): nat {
    if w.active.Some? then 0
    else match w.down
      case Charged(_) => 1
      case NotBusy => 2
      case GotCreate => 3
      case DownReading => 4
      case _ => 5
  }

  lemma SurplusStep(w: World)
    requires Inv(w) && Surplus(w)
    ensures var a := TowardsTurn(w);
      && Enabled(w, a) && Allowed(w, a)
      && (if w.active.Some? then Premature(Step(w, a)) else Surplus(Step(w, a)) && Distance(Step(w, a)) < Distance(w))
  {
    TakenSoFar(w);
    if TowardsTurn(w).WriteUp? {
      OneFrame(w.wire, if w.down.create then Create(w.down.turn, |w.taken|) else Other);
    }
    hide Conserved, WireOrderly, Creates, Charges;
  }

  lemma {:induction false} SurplusFails(actions: seq<Action>)
    requires Surplus(Run(actions))
    ensures CanFail(actions)
    decreases Distance(Run(actions))
  {
    var w := Run(actions);
    RunStays(actions);
    SurplusStep(w);
    RunOne(actions, TowardsTurn(w));
    hide Run, Inv, Surplus, Premature, Allowed, Enabled, Step;
    if w.active.Some? {
      FailsNow(actions + [TowardsTurn(w)]);
    } else {
      SurplusFails(actions + [TowardsTurn(w)]);
    }
    FailsLater(actions, TowardsTurn(w));
  }

  /** A completion may still come that belongs to no create with a turn. */
  predicate Spare(w: World) {
    && w.completions < Creates(w.wire) && |w.taken| == Charges(w.wire) && w.active.None?
    && !w.down.DownEnded? && !w.up.UpEnded?
  }

  function TowardsCompletion(w: World): Action {
    if w.up.Settling? then Settle else if w.up.UpWriting? then WriteDown(true) else ReadUp(true)
  }

  lemma {:induction false} SpareFails(actions: seq<Action>)
    requires Spare(Run(actions))
    ensures CanFail(actions)
    decreases if Run(actions).up.Settling? then 2 else if Run(actions).up.UpWriting? then 1 else 0
  {
    var w, a := Run(actions), TowardsCompletion(Run(actions));
    RunOne(actions, a);
    hide Run, Creates, Charges;
    if w.up.GotCompleted? {
      SurplusFails(actions);
    } else {
      if w.up.UpReading? {
        SurplusFails(actions + [a]);
      } else {
        SpareFails(actions + [a]);
      }
      FailsLater(actions, a);
    }
  }

  /** A free create that is admitted while the upstream loop reads. */
  lemma {:induction false} FreeFails(actions: seq<Action>)
    requires Orderly(Run(actions)) && Enabled(Run(actions), Admit(Free)) && !Allowed(Run(actions), Admit(Free))
    ensures CanFail(actions + [Admit(Free)])
  {
    var w, v := Run(actions), Run(actions + [Admit(Free)]);
    RunStays(actions);
    TakenSoFar(w);
    RunOne(actions, Admit(Free));
    RunOne(actions + [Admit(Free)], WriteUp(true));
    OneFrame(v.wire, Create(None, |v.taken|));
    hide Run, Creates, Charges, Conserved, WireOrderly;
    SpareFails(actions + [Admit(Free)] + [WriteUp(true)]);
    FailsLater(actions + [Admit(Free)], WriteUp(true));
  }

  lemma {:induction false} UnsolicitedFails(actions: seq<Action>)
    requires Orderly(Run(actions)) && Enabled(Run(actions), ReadUp(true)) && !Allowed(Run(actions), ReadUp(true))
    ensures CanFail(actions + [ReadUp(true)])
  {
    RunOne(actions, ReadUp(true));
    hide Run, Creates, Charges;
    SurplusFails(actions + [ReadUp(true)]);
  }

  /** Exactly: after a run under the conditions, the next step meets them if and only if no
      continuation that meets them takes a turn before its create is sent. */
  lemma {:induction false} AllowedIsExact(actions: seq<Action>, a: Action)
    requires Guarded([], actions) && Enabled(Run(actions), a)
    ensures Allowed(Run(actions), a) <==> !CanFail(actions + [a])
  {
    assert Orderly(Run([]));
    GuardedIsOrderly([], actions);
    assert [] + actions == actions;
    RunStays(actions);
    RunOne(actions, a);
    if Allowed(Run(actions), a) {
      OrderlyStays(Run(actions), a);
      hide Run, Inv, Allowed, Enabled, Step;
      forall more | Guarded(actions + [a], more) ensures !Premature(Run(actions + [a] + more)) {
        GuardedIsOrderly(actions + [a], more);
      }
    } else if a.Admit? {
      FreeFails(actions);
    } else {
      UnsolicitedFails(actions);
    }
  }

  /** Such a run: an unsolicited completion between recording turn 0 and writing its create. */
  lemma TurnSettledBeforeItsCreate()
    ensures var w := Run([ReadDown(true), CheckBusy, Admit(Charge), Activate, ReadUp(true), Take, Settle, WriteUp(true)]);
      w.settled == [0] && w.wire == [Create(Some(0), 1)]
  {
    var a := [ReadDown(true), CheckBusy, Admit(Charge), Activate];
    RunFour([], ReadDown(true), CheckBusy, Admit(Charge), Activate);
    assert [] + a == a;
    RunFour(a, ReadUp(true), Take, Settle, WriteUp(true));
    hide Run;
    assert a + [ReadUp(true), Take, Settle, WriteUp(true)]
      == [ReadDown(true), CheckBusy, Admit(Charge), Activate, ReadUp(true), Take, Settle, WriteUp(true)];
  }

  /** The upstream completes only what was sent to it, but a create that nobody is charged for was
      sent before: its completion settles turn 0. */
  lemma FreeCreateSettlesNextTurn()
    ensures var w := Run([ReadDown(true), CheckBusy, Admit(Free), WriteUp(true)]
                         + [ReadDown(true), CheckBusy, Admit(Charge), Activate] + [ReadUp(true), Take, Settle, WriteUp(true)]);
      w.settled == [0] && w.completions == 1 && w.wire == [Create(None, 0), Create(Some(0), 1)]
  {
    var a := [ReadDown(true), CheckBusy, Admit(Free), WriteUp(true)];
    var b := a + [ReadDown(true), CheckBusy, Admit(Charge), Activate];
    RunFour([], ReadDown(true), CheckBusy, Admit(Free), WriteUp(true));
    assert [] + a == a;
    RunFour(a, ReadDown(true), CheckBusy, Admit(Charge), Activate);
    RunFour(b, ReadUp(true), Take, Settle, WriteUp(true));
    hide Run;
  }

  lemma RunFour(actions: seq<Action>, a: Action, b: Action, c: Action, d: Action)
    ensures Run(actions + [a, b, c, d]) == Next(Next(Next(Next(Run(actions), a), b), c), d)
  {
    RunOne(actions, a);
    RunOne(actions + [a], b);
    RunOne(actions + [a] + [b], c);
    RunOne(actions + [a] + [b] + [c], d);
    hide Run, Enabled, Step;
    assert actions + [a, b, c, d] == actions + [a] + [b] + [c] + [d];
  }

  // ----- A loop that fails -----

  /** A failed read or write ends its loop with nothing sent or settled by that step. */
  lemma FailureEndsLoop(w: World)
    ensures w.down.DownReading? ==> Next(w, FailDown) == w.(down := DownEnded)
    ensures w.down.DownWriting? ==> Next(w, WriteUp(false)) == w.(down := DownEnded)
    ensures w.up.UpReading? ==> Next(w, FailUp) == w.(up := UpEnded)
    ensures w.up.UpWriting? ==> Next(w, WriteDown(false)) == w.(up := UpEnded)
  {
  }

  lemma EndedStep(w: World, a: Action)
    ensures w.down.DownEnded? ==> Next(w, a).down.DownEnded? && Next(w, a).wire == w.wire && Next(w, a).charged == w.charged
    ensures w.up.UpEnded? ==> Next(w, a).up.UpEnded? && Next(w, a).taken == w.taken && Next(w, a).settled == w.settled
  {
  }

  /** A loop that has ended does nothing in any continuation: no frame is sent and no turn charged, or no
      turn taken and settled. */
  lemma {:induction false} EndedLoopIsSilent(actions: seq<Action>, more: seq<Action>)
    ensures var w, v := Run(actions), Run(actions + more);
      && (w.down.DownEnded? ==> v.down.DownEnded? && v.wire == w.wire && v.charged == w.charged)
      && (w.up.UpEnded? ==> v.up.UpEnded? && v.taken == w.taken && v.settled == w.settled)
  {
    if more == [] {
      assert actions + more == actions;
    } else {
      var front, a := more[..|more| - 1], more[|more| - 1];
      EndedLoopIsSilent(actions, front);
      assert actions + more == (actions + front) + [a];
      RunOne(actions + front, a);
      EndedStep(Run(actions + front), a);
      hide Run, Step, Enabled;
    }
  }
}
