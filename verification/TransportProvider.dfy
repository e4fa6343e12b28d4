/** The cache of transports by effective proxy and override generation, filled by any number of
    threads that build outside the lock, while the process-wide proxy override changes under them.
    Generations are unbounded numbers here. */
module TransportProvider {
  import opened Basics

  /** A trimmed proxy address; NONE is the empty one. */
  type Proxy = nat
  const NONE: Proxy := 0

  datatype Override = Override(enabled: bool, base: Proxy, effective: Proxy)

  /** The route of a raw address under an override. */
  function Effective(o: Override, raw: Proxy): Proxy {
    if o.enabled && raw == o.base then o.effective else raw
  }

  datatype Key = Key(effective: Proxy, generation: nat)

  datatype Cache = Cache(generation: nat, entries: map<Key, nat>)

  datatype Reply = Retry | Direct | Hit(transport: nat) | Miss

  /** First visit under the lock: an older generation is evicted as a whole. */
  function Caught(c: Cache, key: Key): Cache {
    if c.generation < key.generation then Cache(key.generation, map[]) else c
  }

  function LookReply(c: Cache, key: Key): Reply {
    if c.generation > key.generation then Retry
    else if key.effective == NONE then Direct
    else if key in Caught(c, key).entries then Hit(Caught(c, key).entries[key])
    else Miss
  }

  /** Second visit, with a transport in hand. */
  function InstallReply(c: Cache, key: Key): Reply {
    if c.generation != key.generation then Retry
    else if key in c.entries then Hit(c.entries[key])
    else Miss
  }

  function Installed(c: Cache, key: Key, transport: nat): Cache {
    if InstallReply(c, key).Miss? then c.(entries := c.entries[key := transport]) else c
  }

  /** The provider with its lock held. */
  class Provider {
    var generation: nat
    var entries: map<Key, nat>

    function View(): Cache reads this {
      Cache(generation, entries)
    }

    constructor ()
      ensures View() == Cache(0, map[])
    {
      generation, entries := 0, map[];
    }

    /** `closed` are the transports whose idle connections were closed. */
    method Look(key: Key) returns (reply: Reply, closed: set<nat>)
      modifies this
      ensures View() == Caught(old(View()), key) && reply == LookReply(old(View()), key)
      ensures closed == if old(generation) < key.generation then old(entries).Values else {}
      ensures reply.Retry? <==> old(generation) > key.generation
      ensures reply.Direct? <==> old(generation) <= key.generation && key.effective == NONE
      ensures reply.Hit? <==> old(generation) == key.generation && key.effective != NONE && key in old(entries)
      ensures reply.Miss? <==>
        || (old(generation) == key.generation && key.effective != NONE && key !in old(entries))
        || (old(generation) < key.generation && key.effective != NONE)
      ensures reply.Hit? ==> reply.transport == old(entries)[key]
      ensures generation == if old(generation) < key.generation then key.generation else old(generation)
      ensures entries == if old(generation) < key.generation then map[] else old(entries)
    {
      closed := {};
      if generation > key.generation {
        return Retry, closed;
      }
      if generation < key.generation {
        var keys := entries.Keys;
        while keys != {}
          invariant keys <= entries.Keys
          invariant closed == set k | k in entries && k !in keys :: entries[k]
          invariant generation == old(generation) && entries == old(entries)
          decreases keys
        {
          var k :| k in keys;
          closed := closed + {entries[k]};
          keys := keys - {k};
        }
        entries := map[];
        generation := key.generation;
      }
      if key.effective == NONE {
        return Direct, closed;
      }
      if key in entries {
        return Hit(entries[key]), closed;
      }
      return Miss, closed;
    }

    method Install(key: Key, transport: nat) returns (reply: Reply)
      modifies this
      ensures View() == Installed(old(View()), key, transport) && reply == InstallReply(old(View()), key)
      ensures reply.Retry? <==> old(generation) != key.generation
      ensures reply.Hit? <==> old(generation) == key.generation && key in old(entries)
      ensures reply.Miss? <==> old(generation) == key.generation && key !in old(entries)
      ensures reply.Hit? ==> reply.transport == old(entries)[key]
      ensures generation == old(generation)
      ensures entries == if reply.Miss? then old(entries)[key := transport] else old(entries)
    {
      if generation != key.generation {
        return Retry;
      }
      if key in entries {
        return Hit(entries[key]);
      }
      entries := entries[key := transport];
      return Miss;
    }
  }

  // ----- Threads -----

  datatype Place =
    | Resolving
    | Looking(key: Key)
    | Building(key: Key)
    | Checking(key: Key, transport: nat)
    | Installing(key: Key, transport: nat)
    | Done(key: Key, reply: Option<nat>)

  /** A call in progress or finished; `began` is the override's generation at the call, `rounds` the
      resolutions so far. */
  datatype Call = Call(raw: Proxy, began: nat, rounds: nat, place: Place)

  datatype Fate = Held(call: nat) | Cached(key: Key) | Closed

  /** `overrides[g]` is the override of generation g, the last one is in force; `routes` and `fates`
      describe the transports in the order in which they were built. `failed` are the builds that gave
      no transport, `confirmed` the transports whose route was still in force at a time after the build. */
  datatype World = World(
    overrides: seq<Override>, cache: Cache, calls: seq<Call>, routes: seq<Proxy>, fates: seq<Fate>,
    failed: set<(nat, Key)>, confirmed: set<nat>)
  {
    function Generation(): int {
      |overrides| - 1
    }
  }

  datatype Action =
    | SetOverride(to: Override)
    | Invoke(raw: Proxy)
    | Resolve(c: nat)
    | Look(c: nat)
    | Build(c: nat, ok: bool)
    | Check(c: nat)
    | Install(c: nat)

  function Current(w: World): Override
    requires |w.overrides| > 0
  {
    w.overrides[|w.overrides| - 1]
  }

  function ResolveKey(w: World, raw: Proxy): Key
    requires |w.overrides| > 0
  {
    Key(Effective(Current(w), raw), |w.overrides| - 1)
  }

  predicate Enabled(w: World, a: Action) {
    |w.overrides| > 0 && |w.fates| == |w.routes| &&
    match a
    case SetOverride(o) => true
    case Invoke(raw) => true
    case Resolve(c) => c < |w.calls| && w.calls[c].place.Resolving?
    case Look(c) => c < |w.calls| && w.calls[c].place.Looking?
    case Build(c, ok) => c < |w.calls| && w.calls[c].place.Building?
    case Check(c) => c < |w.calls| && w.calls[c].place.Checking? && w.calls[c].place.transport < |w.fates|
    case Install(c) => c < |w.calls| && w.calls[c].place.Installing? && w.calls[c].place.transport < |w.fates|
  }

  /** The transport in hand was built for the route that the override now in force gives. */
  predicate StillRight(w: World, c: nat)
    requires Enabled(w, Check(c))
  {
    var o, raw, key := Current(w), w.calls[c].raw, w.calls[c].place.key;
    key.generation == |w.overrides| - 1 && key.effective == if o.enabled && raw == o.base then o.effective else raw
  }

  function At(w: World, c: nat, place: Place): World
    requires c < |w.calls|
  {
    w.(calls := w.calls[c := w.calls[c].(place := place)])
  }

  function Evicted(fates: seq<Fate>): seq<Fate> {
    seq(|fates|, i requires 0 <= i < |fates| => if fates[i].Cached? then Closed else fates[i])
  }

  function DoLook(w: World, c: nat): World
    requires Enabled(w, Look(c))
  {
    var key := w.calls[c].place.key;
    var place := match LookReply(w.cache, key)
      case Retry => Resolving
      case Direct => Done(key, None)
      case Hit(transport) => Done(key, Some(transport))
      case Miss => Building(key);
    At(w, c, place).(cache := Caught(w.cache, key),
                     fates := if w.cache.generation < key.generation then Evicted(w.fates) else w.fates)
  }

  function DoBuild(w: World, c: nat, ok: bool): World
    requires Enabled(w, Build(c, ok))
  {
    var key := w.calls[c].place.key;
    if !ok then At(w, c, Done(key, None))
    else At(w, c, Checking(key, |w.routes|)).(routes := w.routes + [key.effective], fates := w.fates + [Held(c)])
  }

  function DoCheck(w: World, c: nat): World
    requires Enabled(w, Check(c))
  {
    var Checking(key, transport) := w.calls[c].place;
    if ResolveKey(w, w.calls[c].raw) != key then At(w, c, Resolving).(fates := w.fates[transport := Closed])
    else At(w, c, Installing(key, transport))
  }

  function DoInstall(w: World, c: nat): World
    requires Enabled(w, Install(c))
  {
    var Installing(key, transport) := w.calls[c].place;
    match InstallReply(w.cache, key)
    case Hit(winner) => At(w, c, Done(key, Some(winner))).(fates := w.fates[transport := Closed])
    case Miss => At(w, c, Done(key, Some(transport))).(cache := Installed(w.cache, key, transport), fates := w.fates[transport := Cached(key)])
    case _ => At(w, c, Resolving).(fates := w.fates[transport := Closed])
  }

  function Step(w: World, a: Action): World
    requires Enabled(w, a)
  {
    match a
    case SetOverride(o) => if o == Current(w) then w else w.(overrides := w.overrides + [o])
    case Invoke(raw) => w.(calls := w.calls + [Call(raw, |w.overrides| - 1, 0, Resolving)])
    case Resolve(c) =>
      w.(calls := w.calls[c := w.calls[c].(rounds := w.calls[c].rounds + 1, place := Looking(ResolveKey(w, w.calls[c].raw)))])
    case Look(c) => DoLook(w, c)
    case Build(c, ok) => DoBuild(w, c, ok).(failed := if ok then w.failed else w.failed + {(c, w.calls[c].place.key)})
    case Check(c) => DoCheck(w, c).(confirmed := if StillRight(w, c) then w.confirmed + {w.calls[c].place.transport} else w.confirmed)
    case Install(c) => DoInstall(w, c)
  }

  function Init(): World {
    World([Override(false, NONE, NONE)], Cache(0, map[]), [], [], [], {}, {})
  }

  function Run(actions: seq<Action>): World {
    if actions == [] then Init()
    else
      var w, a := Run(actions[..|actions| - 1]), actions[|actions| - 1];
      if Enabled(w, a) then Step(w, a) else w
  }

  // ----- Invariants -----

  /** The key a call works with is the resolution of its address at some time during the call, and
      each round resolved a newer generation than the round before. */
  predicate CallSound(w: World, call: Call) {
    && call.began < |w.overrides|
    && (call.place.Resolving? ==> call.began + call.rounds < |w.overrides|)
    && (!call.place.Resolving? ==>
          && call.rounds > 0 && call.began + call.rounds - 1 <= call.place.key.generation < |w.overrides|
          && call.place.key.effective == Effective(w.overrides[call.place.key.generation], call.raw))
    && (call.place.Building? || call.place.Checking? || call.place.Installing? ==>
          call.place.key.generation <= w.cache.generation && call.place.key.effective != NONE)
  }

  predicate CallsSound(w: World) {
    && |w.routes| == |w.fates| && w.cache.generation < |w.overrides|
    && forall c :: 0 <= c < |w.calls| ==> CallSound(w, w.calls[c])
  }

  /** A built transport is held by its builder, cached under one key, or closed. */
  predicate Owned(w: World) {
    && |w.routes| == |w.fates|
    && (forall c :: 0 <= c < |w.calls| && (w.calls[c].place.Checking? || w.calls[c].place.Installing?) ==>
          var t := w.calls[c].place.transport;
          t < |w.fates| && w.fates[t] == Held(c) && w.routes[t] == w.calls[c].place.key.effective)
    && (forall t :: 0 <= t < |w.fates| && w.fates[t].Held? ==>
          var c := w.fates[t].call;
          c < |w.calls| && (w.calls[c].place.Checking? || w.calls[c].place.Installing?) && w.calls[c].place.transport == t)
  }

  predicate CacheSound(w: World) {
    && |w.routes| == |w.fates|
    && (forall k :: k in w.cache.entries ==>
          var t := w.cache.entries[k];
          k.generation == w.cache.generation && k.effective != NONE && t < |w.fates| && w.fates[t] == Cached(k) && w.routes[t] == k.effective)
    && (forall t :: 0 <= t < |w.fates| && w.fates[t].Cached? ==>
          w.fates[t].key in w.cache.entries && w.cache.entries[w.fates[t].key] == t)
  }

  /** What finished calls returned was built for the route of the key they resolved. */
  predicate RepliesSound(w: World) {
    && |w.routes| == |w.fates|
    && forall c :: 0 <= c < |w.calls| && w.calls[c].place.Done? && w.calls[c].place.reply.Some? ==>
         var t := w.calls[c].place.reply.value;
         t < |w.routes| && w.routes[t] == w.calls[c].place.key.effective != NONE
  }

  /** A call without transport had none to build or failed to; only confirmed transports get out. */
  predicate NoneForReason(w: World) {
    forall c :: 0 <= c < |w.calls| && w.calls[c].place.Done? && w.calls[c].place.reply.None? ==>
      w.calls[c].place.key.effective == NONE || (c, w.calls[c].place.key) in w.failed
  }

  predicate Confirmed(w: World) {
    && |w.routes| == |w.fates|
    && (forall c :: 0 <= c < |w.calls| && w.calls[c].place.Installing? ==> w.calls[c].place.transport in w.confirmed)
    && (forall t :: 0 <= t < |w.fates| && w.fates[t].Cached? ==> t in w.confirmed)
    && (forall c :: 0 <= c < |w.calls| && w.calls[c].place.Done? && w.calls[c].place.reply.Some? ==> w.calls[c].place.reply.value in w.confirmed)
  }

  predicate Inv(w: World) {
    NoneForReason(w) && Confirmed(w) && |w.overrides| > 0 && CallsSound(w) && Owned(w) && CacheSound(w) && RepliesSound(w)
  }

  lemma CallKept(w: World, v: World, call: Call)
    requires CallSound(w, call) && w.overrides <= v.overrides && w.cache.generation <= v.cache.generation
    ensures CallSound(v, call)
  {
  }

  /** The call that takes the step. */
  lemma CallMoved(w: World, a: Action, c: nat)
    requires CallsSound(w) && Enabled(w, a) && c < |w.calls|
    requires a == Resolve(c) || a == Look(c) || a == Build(c, true) || a == Build(c, false) || a == Check(c) || a == Install(c)
    ensures c < |Step(w, a).calls| && CallSound(Step(w, a), Step(w, a).calls[c])
  {
    assert CallSound(w, w.calls[c]);
  }

  lemma CallsStay(w: World, a: Action)
    requires Inv(w) && Enabled(w, a)
    ensures |Step(w, a).overrides| > 0 && CallsSound(Step(w, a))
  {
    hide Owned, CacheSound, RepliesSound;
    var v := Step(w, a);
    assert w.overrides <= v.overrides && w.cache.generation <= v.cache.generation < |v.overrides|;
    forall c | 0 <= c < |v.calls| ensures CallSound(v, v.calls[c]) {
      if c < |w.calls| && v.calls[c] == w.calls[c] {
        CallKept(w, v, w.calls[c]);
      } else if !a.Invoke? {
        CallMoved(w, a, c);
      }
    }
    hide CallSound;
  }

  /** A call gives up its transport. */
  lemma GivenUp(w: World, c: nat, place: Place, fate: Fate)
    requires Owned(w) && c < |w.calls| && (w.calls[c].place.Checking? || w.calls[c].place.Installing?)
    requires !place.Checking? && !place.Installing? && !fate.Held?
    ensures w.calls[c].place.transport < |w.fates|
    ensures Owned(At(w, c, place).(fates := w.fates[w.calls[c].place.transport := fate]))
  {
  }

  lemma OwnedOnLook(w: World, c: nat)
    requires Owned(w) && Enabled(w, Look(c))
    ensures Owned(DoLook(w, c))
  {
    hide LookReply, Caught;
  }

  lemma OwnedOnBuild(w: World, c: nat, ok: bool)
    requires Owned(w) && Enabled(w, Build(c, ok))
    ensures Owned(DoBuild(w, c, ok))
  {
  }

  lemma OwnedOnCheck(w: World, c: nat)
    requires Owned(w) && Enabled(w, Check(c))
    ensures Owned(DoCheck(w, c))
  {
    hide ResolveKey;
    GivenUp(w, c, Resolving, Closed);
  }

  lemma OwnedOnInstall(w: World, c: nat)
    requires Owned(w) && Enabled(w, Install(c))
    ensures Owned(DoInstall(w, c))
  {
    var key, t := w.calls[c].place.key, w.calls[c].place.transport;
    match InstallReply(w.cache, key)
    case Hit(winner) => GivenUp(w, c, Done(key, Some(winner)), Closed);
    case Miss => GivenUp(w, c, Done(key, Some(t)), Cached(key));
    case _ => GivenUp(w, c, Resolving, Closed);
    hide InstallReply, Installed;
  }

  lemma OwnedStays(w: World, a: Action)
    requires Inv(w) && Enabled(w, a)
    ensures Owned(Step(w, a))
  {
    hide CallsSound, RepliesSound, CacheSound;
    match a
    case Look(c) => OwnedOnLook(w, c);
    case Build(c, ok) => OwnedOnBuild(w, c, ok);
    case Check(c) => OwnedOnCheck(w, c);
    case Install(c) => OwnedOnInstall(w, c);
    case _ =>
  }

  lemma CacheOnLook(w: World, c: nat)
    requires CacheSound(w) && Enabled(w, Look(c))
    ensures CacheSound(DoLook(w, c))
  {
    hide LookReply;
  }

  lemma CacheOnBuild(w: World, c: nat, ok: bool)
    requires CacheSound(w) && Enabled(w, Build(c, ok))
    ensures CacheSound(DoBuild(w, c, ok))
  {
  }

  /** Closing a transport that is not in the cache. */
  lemma CacheOnClose(w: World, t: nat)
    requires CacheSound(w) && t < |w.fates| && !w.fates[t].Cached?
    ensures CacheSound(w.(fates := w.fates[t := Closed]))
  {
  }

  lemma CacheOnInstall(w: World, key: Key, t: nat)
    requires CacheSound(w) && t < |w.fates| && !w.fates[t].Cached? && w.routes[t] == key.effective != NONE
    requires InstallReply(w.cache, key).Miss?
    ensures CacheSound(w.(cache := Installed(w.cache, key, t), fates := w.fates[t := Cached(key)]))
  {
  }

  lemma CacheStays(w: World, a: Action)
    requires Inv(w) && Enabled(w, a)
    ensures CacheSound(Step(w, a))
  {
    hide RepliesSound;
    match a
    case Look(c) => CacheOnLook(w, c);
    case Build(c, ok) => CacheOnBuild(w, c, ok);
    case Check(c) =>
      CacheOnClose(w, w.calls[c].place.transport);
    case Install(c) =>
      var key, t := w.calls[c].place.key, w.calls[c].place.transport;
      CacheOnClose(w, t);
      assert CallSound(w, w.calls[c]);
      if InstallReply(w.cache, key).Miss? {
        CacheOnInstall(w, key, t);
      }
    case _ =>
  }

  lemma RepliesStay(w: World, a: Action)
    requires Inv(w) && Enabled(w, a)
    ensures RepliesSound(Step(w, a))
  {
  }

  lemma ReasonStays(w: World, a: Action)
    requires NoneForReason(w) && Enabled(w, a)
    ensures NoneForReason(Step(w, a))
  {
  }

  lemma ConfirmedStays(w: World, a: Action)
    requires Inv(w) && Enabled(w, a)
    ensures Confirmed(Step(w, a))
  {
    hide CallsSound, RepliesSound, Owned, NoneForReason;
  }

  lemma {:induction false} RunStays(actions: seq<Action>)
    ensures Inv(Run(actions))
  {
    if actions != [] {
      RunStays(actions[..|actions| - 1]);
      var w, a := Run(actions[..|actions| - 1]), actions[|actions| - 1];
      if Enabled(w, a) {
        CallsStay(w, a);
        OwnedStays(w, a);
        CacheStays(w, a);
        RepliesStay(w, a);
        ReasonStays(w, a);
        ConfirmedStays(w, a);
        hide Inv, CallsSound, Owned, CacheSound, RepliesSound, NoneForReason, Confirmed, Step, Enabled;
      }
    }
  }

  // ----- Over all interleavings -----

  /** Cached keys carry the provider's generation, no transport is under two keys, and each was
      built for the route of its key. A transport outside the cache is closed or still in the
      hands of its builder, so once all calls are done nothing is left open outside the cache. */
  lemma {:induction false} NothingLeaks(actions: seq<Action>)
    ensures var w := Run(actions);
      && |w.routes| == |w.fates|
      && (forall k :: k in w.cache.entries ==> k.generation == w.cache.generation)
      && (forall k, l :: k in w.cache.entries && l in w.cache.entries && w.cache.entries[k] == w.cache.entries[l] ==> k == l)
      && (forall k :: k in w.cache.entries ==> w.cache.entries[k] < |w.routes| && w.routes[w.cache.entries[k]] == k.effective)
      && ((forall c :: 0 <= c < |w.calls| ==> w.calls[c].place.Done?) ==>
            forall t :: 0 <= t < |w.fates| && !w.fates[t].Closed? ==> t in w.cache.entries.Values)
  {
    RunStays(actions);
    hide Run, CallsSound, RepliesSound;
    var w := Run(actions);
    forall t | 0 <= t < |w.fates| && w.fates[t].Cached? ensures t in w.cache.entries.Values {
      assert w.cache.entries[w.fates[t].key] == t;
    }
  }

  /** The route of an address under the override of a generation. */
  predicate Routes(w: World, generation: int, raw: Proxy, route: Proxy)
    requires 0 <= generation < |w.overrides|
  {
    var o := w.overrides[generation];
    route == if o.enabled && raw == o.base then o.effective else raw
  }

  /** A call resolves at most once more than the override changed while it ran. What it returns was
      built for the route that some override in force during the call gave its address, and that was
      in force at a time after the build. */
  lemma {:induction false} CallsAreBoundedAndCurrent(actions: seq<Action>, c: nat)
    requires c < |Run(actions).calls|
    ensures var w := Run(actions); var call := w.calls[c];
      && call.began <= w.Generation() && call.rounds <= 1 + w.Generation() - call.began
      && (call.place.Done? ==>
            && call.began <= call.place.key.generation <= w.Generation()
            && call.rounds <= 1 + call.place.key.generation - call.began
            && (call.place.reply.Some? ==>
                  && call.place.reply.value < |w.routes| && call.place.reply.value in w.confirmed
                  && w.routes[call.place.reply.value] != NONE
                  && Routes(w, call.place.key.generation, call.raw, w.routes[call.place.reply.value])))
  {
    RunStays(actions);
    hide Run, CacheSound, Owned;
    assert CallSound(Run(actions), Run(actions).calls[c]);
  }

  lemma {:induction false} FailuresWereBuilds(actions: seq<Action>, c: nat, key: Key)
    requires (c, key) in Run(actions).failed
    ensures Build(c, false) in actions
  {
    if actions != [] {
      var front, a := actions[..|actions| - 1], actions[|actions| - 1];
      assert actions == front + [a];
      if (c, key) in Run(front).failed {
        FailuresWereBuilds(front, c, key);
      } else {
        FailureAdded(Run(front), a, c, key);
      }
    }
  }

  lemma FailureAdded(w: World, a: Action, c: nat, key: Key)
    requires Enabled(w, a) && (c, key) !in w.failed && (c, key) in Step(w, a).failed
    ensures a == Build(c, false)
  {
  }

  /** A call that ends without a transport had none to use, by an override in force during the call, or
      its build failed. */
  lemma {:induction false} DirectForReason(actions: seq<Action>, c: nat)
    requires c < |Run(actions).calls|
    requires Run(actions).calls[c].place.Done? && Run(actions).calls[c].place.reply.None?
    ensures var w := Run(actions); var call := w.calls[c];
      && call.began <= call.place.key.generation <= w.Generation()
      && (Build(c, false) in actions || Routes(w, call.place.key.generation, call.raw, NONE))
  {
    RunStays(actions);
    var key := Run(actions).calls[c].place.key;
    if (c, key) in Run(actions).failed {
      FailuresWereBuilds(actions, c, key);
    }
    hide Run, CacheSound, Owned, RepliesSound;
    assert CallSound(Run(actions), Run(actions).calls[c]);
  }

  function Next(w: World, a: Action): World {
    if Enabled(w, a) then Step(w, a) else w
  }

  /** After any run, a call that nobody disturbs ends in one more round. It gets no transport exactly if
      its route is empty; else one for its route, which is in the cache from then on. */
  lemma {:induction false} UndisturbedCallAnswers(actions: seq<Action>, c: nat)
    requires c < |Run(actions).calls| && Run(actions).calls[c].place.Resolving?
    ensures |Run(actions).overrides| > 0
    ensures var w := Run(actions); var call := w.calls[c];
      var o := w.overrides[|w.overrides| - 1];
      var key := Key(if o.enabled && call.raw == o.base then o.effective else call.raw, |w.overrides| - 1);
      var v := Next(Next(Next(Next(Next(w, Resolve(c)), Look(c)), Build(c, true)), Check(c)), Install(c));
      && c < |v.calls| && v.calls[c].place.Done? && v.calls[c].place.key == key && v.calls[c].rounds == call.rounds + 1
      && (v.calls[c].place.reply.None? <==> key.effective == NONE)
      && (key.effective != NONE ==>
            && key in v.cache.entries && v.calls[c].place.reply == Some(v.cache.entries[key])
            && v.cache.entries[key] < |v.routes| && v.routes[v.cache.entries[key]] == key.effective)
  {
    RunStays(actions);
    hide Run;
    var w := Run(actions);
    var r := Next(w, Resolve(c));
    CallsStay(w, Resolve(c));
    CacheStays(w, Resolve(c));
    UndisturbedLook(r, c);
  }

  lemma UndisturbedLook(w: World, c: nat)
    requires |w.overrides| > 0 && CacheSound(w) && c < |w.calls| && w.calls[c].place == Looking(ResolveKey(w, w.calls[c].raw))
    requires w.cache.generation < |w.overrides|
    ensures var key := w.calls[c].place.key;
      var v := Next(Next(Next(Next(w, Look(c)), Build(c, true)), Check(c)), Install(c));
      && |v.calls| == |w.calls| && v.calls[c].place.Done? && v.calls[c].place.key == key && v.calls[c].rounds == w.calls[c].rounds
      && (v.calls[c].place.reply.None? <==> key.effective == NONE)
      && (key.effective != NONE ==>
            && key in v.cache.entries && v.calls[c].place.reply == Some(v.cache.entries[key])
            && v.cache.entries[key] < |v.routes| && v.routes[v.cache.entries[key]] == key.effective)
  {
    var l := Next(w, Look(c));
    if l.calls[c].place.Building? {
      UndisturbedBuild(l, c);
    }
  }

  lemma UndisturbedBuild(w: World, c: nat)
    requires |w.overrides| > 0 && |w.routes| == |w.fates| && c < |w.calls|
    requires w.calls[c].place == Building(ResolveKey(w, w.calls[c].raw))
    requires w.cache.generation == w.calls[c].place.key.generation && w.calls[c].place.key !in w.cache.entries
    ensures var key := w.calls[c].place.key;
      var v := Next(Next(Next(w, Build(c, true)), Check(c)), Install(c));
      && |v.calls| == |w.calls| && v.calls[c].rounds == w.calls[c].rounds
      && v.calls[c].place == Done(key, Some(|w.routes|)) && key in v.cache.entries && v.cache.entries[key] == |w.routes|
      && |w.routes| < |v.routes| && v.routes[|w.routes|] == key.effective
  {
    var b := Next(w, Build(c, true));
    var k := Next(b, Check(c));
    assert b.calls[c].place == Checking(w.calls[c].place.key, |w.routes|);
    assert k.calls[c].place == Installing(w.calls[c].place.key, |w.routes|);
  }

  lemma StepGrows(w: World, a: Action)
    requires Enabled(w, a)
    ensures w.cache.generation <= Step(w, a).cache.generation
    ensures w.overrides <= Step(w, a).overrides && |w.calls| <= |Step(w, a).calls|
    ensures forall c :: 0 <= c < |w.calls| && w.calls[c].place.Done? ==> Step(w, a).calls[c] == w.calls[c]
    ensures forall t :: 0 <= t < |w.fates| && w.fates[t].Closed? && Inv(w) ==> t < |Step(w, a).fates| && Step(w, a).fates[t].Closed?
  {
  }

  /** The provider's generation never decreases, a finished call keeps its answer, and a closed
      transport is not handed to the cache again. */
  lemma {:induction false} GenerationsNeverDecrease(actions: seq<Action>, more: seq<Action>)
    ensures var w, v := Run(actions), Run(actions + more);
      && w.cache.generation <= v.cache.generation
      && w.overrides <= v.overrides && |w.calls| <= |v.calls|
      && (forall c :: 0 <= c < |w.calls| && w.calls[c].place.Done? ==> v.calls[c] == w.calls[c])
      && (forall t :: 0 <= t < |w.fates| && w.fates[t].Closed? ==> t < |v.fates| && v.fates[t].Closed?)
  {
    hide Step, Enabled, Inv;
    if more == [] {
      assert actions + more == actions;
    } else {
      var front := more[..|more| - 1];
      GenerationsNeverDecrease(actions, front);
      assert (actions + more)[..|actions + more| - 1] == actions + front;
      var u, a := Run(actions + front), more[|more| - 1];
      RunStays(actions + front);
      if Enabled(u, a) { StepGrows(u, a); }
    }
  }

  lemma RunOne(actions: seq<Action>, a: Action)
    ensures Run(actions + [a]) == Next(Run(actions), a)
  {
    assert (actions + [a])[..|actions|] == actions;
  }

  /** After any run, a call that comes after a change of the override resolves its address by the new one,
      and its first look leaves no transport of an older generation open in the cache. */
  lemma {:induction false} NewCallsFollowOverride(actions: seq<Action>, o: Override, raw: Proxy)
    requires Run(actions).overrides == [] || Run(actions).overrides[|Run(actions).overrides| - 1] != o
    ensures var w := Run(actions); var c := |w.calls|;
      var key := Key(if o.enabled && raw == o.base then o.effective else raw, |w.overrides|);
      var r := Run(actions + [SetOverride(o)] + [Invoke(raw)] + [Resolve(c)]);
      var v := Run(actions + [SetOverride(o)] + [Invoke(raw)] + [Resolve(c)] + [Look(c)]);
      && r.overrides == w.overrides + [o] && r.calls == w.calls + [Call(raw, |w.overrides|, 1, Looking(key))]
      && r.cache == w.cache && r.fates == w.fates
      && v.cache == Cache(|w.overrides|, map[]) && |v.fates| == |w.fates|
      && (forall t :: 0 <= t < |v.fates| ==> v.fates[t] == if w.fates[t].Cached? then Closed else w.fates[t])
      && v.calls == r.calls[c := Call(raw, |w.overrides|, 1, if key.effective == NONE then Done(key, None) else Building(key))]
  {
    var c := |Run(actions).calls|;
    RunStays(actions);
    RunOne(actions, SetOverride(o));
    RunOne(actions + [SetOverride(o)], Invoke(raw));
    RunOne(actions + [SetOverride(o)] + [Invoke(raw)], Resolve(c));
    RunOne(actions + [SetOverride(o)] + [Invoke(raw)] + [Resolve(c)], Look(c));
    hide Run, Owned, CacheSound, RepliesSound, NoneForReason, Confirmed, CallSound;
  }
}
