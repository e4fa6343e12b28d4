/** The generation fence around the publication of an account's models. Every member below the class
    runs under the commit mutex as a whole, so a run is a sequence of such steps of any number of
    tasks, each with a context it was handed before. */
module RegistrationFence {
  import opened Basics

  type Id = nat

  datatype Token = Token(id: Id, generation: nat)

  /** A context carries at most the innermost registration token. */
  type Context = Option<Token>

  /** What a commit does to the registry once it is let through. */
  datatype Effect = Publish | Unregister | Nothing

  datatype Event =
    | Began(id: Id, generation: nat)
    | Removed(id: Id, generation: nat)
    | Committed(id: Id, generation: nat, effect: Effect)

  /** `known` are the accounts the manager has, `models` the published models by the generation that
      published them. `log` is history. */
  datatype State = State(generations: map<Id, nat>, known: set<Id>, models: map<Id, nat>, log: seq<Event>)

  function Generation(generations: map<Id, nat>, id: Id): nat {
    if id in generations then generations[id] else 0
  }

  function Bumped(generations: map<Id, nat>, id: Id): map<Id, nat> {
    generations[id := Generation(generations, id) + 1]
  }

  predicate Carries(ctx: Context, id: Id) {
    ctx.Some? && ctx.value.id == id
  }

  function BeginState(s: State, ctx: Context, id: Id): State {
    if Carries(ctx, id) then s
    else s.(generations := Bumped(s.generations, id), log := s.log + [Began(id, Generation(s.generations, id) + 1)])
  }

  function BeginContext(s: State, ctx: Context, id: Id): Context {
    if Carries(ctx, id) then ctx else Some(Token(id, Generation(s.generations, id) + 1))
  }

  function RemoveState(s: State, id: Id): State {
    State(Bumped(s.generations, id), s.known - {id}, s.models - {id}, s.log + [Removed(id, Generation(s.generations, id) + 1)])
  }

  predicate IsCurrent(s: State, ctx: Context, id: Id) {
    Carries(ctx, id) && Generation(s.generations, id) == ctx.value.generation && id in s.known
  }

  function Committing(s: State, id: Id, generation: nat, effect: Effect): State {
    s.(models := match effect
                 case Publish => s.models[id := generation]
                 case Unregister => s.models - {id}
                 case Nothing => s.models,
       log := s.log + [Committed(id, generation, effect)])
  }

  function CommitState(s: State, ctx: Context, id: Id, effect: Effect): State {
    if IsCurrent(s, ctx, id) then Committing(s, id, ctx.value.generation, effect) else s
  }

  /** The service's part of it, and the manager and registry it works on. */
  class Service {
    var generations: map<Id, nat>
    var known: set<Id>
    var models: map<Id, nat>
    ghost var log: seq<Event>

    ghost function View(): State reads this {
      State(generations, known, models, log)
    }

    method Begin(ctx: Context, id: Id) returns (derived: Context)
      modifies this
      ensures View() == BeginState(old(View()), ctx, id) && derived == BeginContext(old(View()), ctx, id)
      ensures ctx.Some? && ctx.value.id == id ==> derived == ctx && generations == old(generations)
      ensures !(ctx.Some? && ctx.value.id == id) ==>
        var next := 1 + if id in old(generations) then old(generations)[id] else 0;
        derived == Some(Token(id, next)) && generations == old(generations)[id := next]
      ensures known == old(known) && models == old(models)
    {
      if ctx.Some? && ctx.value.id == id {
        return ctx;
      }
      if id in generations {
        generations := generations[id := generations[id] + 1];
      } else {
        generations := generations[id := 1];
      }
      log := log + [Began(id, generations[id])];
      return Some(Token(id, generations[id]));
    }

    method WithCurrentCommit(ctx: Context, id: Id, effect: Effect) returns (committed: bool)
      modifies this
      ensures View() == CommitState(old(View()), ctx, id, effect) && committed == IsCurrent(old(View()), ctx, id)
      ensures committed <==>
        && ctx.Some? && ctx.value.id == id && id in old(known)
        && (if id in old(generations) then old(generations)[id] else 0) == ctx.value.generation
      ensures models ==
        if committed && effect == Publish then old(models)[id := ctx.value.generation]
        else if committed && effect == Unregister then old(models) - {id}
        else old(models)
      ensures generations == old(generations) && known == old(known)
    {
      if ctx.None? || ctx.value.id != id {
        return false;
      }
      var current := if id in generations then generations[id] else 0;
      if current != ctx.value.generation || id !in known {
        return false;
      }
      match effect {
        case Publish => models := models[id := ctx.value.generation];
        case Unregister => models := models - {id};
        case Nothing =>
      }
      log := log + [Committed(id, ctx.value.generation, effect)];
      return true;
    }

    method Remove(id: Id)
      modifies this
      ensures View() == RemoveState(old(View()), id)
      ensures id !in known && id !in models && id in generations
      ensures generations[id] == 1 + if id in old(generations) then old(generations)[id] else 0
      ensures forall other :: other != id ==>
        && (other in known <==> other in old(known))
        && (other in models <==> other in old(models)) && (other in models ==> models[other] == old(models)[other])
        && (other in generations <==> other in old(generations)) && (other in generations ==> generations[other] == old(generations)[other])
    {
      generations := generations[id := (if id in generations then generations[id] else 0) + 1];
      known := known - {id};
      models := models - {id};
      log := log + [Removed(id, generations[id])];
    }
  }

  // ----- Runs -----

  datatype Action =
    | Begin(ctx: Context, id: Id)
    | Commit(ctx: Context, id: Id, effect: Effect)
    | Remove(id: Id)
    | Add(id: Id)
    | Drop(id: Id)

  /** `issued` are the tokens that any context carries. */
  datatype World = World(state: State, issued: set<Token>)

  predicate Enabled(w: World, a: Action) {
    match a
    case Begin(ctx, id) => ctx.Some? ==> ctx.value in w.issued
    case Commit(ctx, id, effect) => ctx.Some? ==> ctx.value in w.issued
    case _ => true
  }

  function Step(w: World, a: Action): World {
    match a
    case Begin(ctx, id) => World(BeginState(w.state, ctx, id), w.issued + {BeginContext(w.state, ctx, id).value})
    case Commit(ctx, id, effect) => w.(state := CommitState(w.state, ctx, id, effect))
    case Remove(id) => w.(state := RemoveState(w.state, id))
    case Add(id) => w.(state := w.state.(known := w.state.known + {id}))
    case Drop(id) => w.(state := w.state.(known := w.state.known - {id}))
  }

  function Run(actions: seq<Action>): World {
    if actions == [] then World(State(map[], {}, map[], []), {})
    else
      var w, a := Run(actions[..|actions| - 1]), actions[|actions| - 1];
      if Enabled(w, a) then Step(w, a) else w
  }

  /** Nothing on record is newer than the generation counter; a removal's number is never a token's. */
  predicate Counted(w: World) {
    && (forall i :: 0 <= i < |w.state.log| ==>
          1 <= w.state.log[i].generation <= Generation(w.state.generations, w.state.log[i].id))
    && (forall t :: t in w.issued ==> Began(t.id, t.generation) in w.state.log)
    && (forall t :: t in w.issued ==> Removed(t.id, t.generation) !in w.state.log)
  }

  /** A commit has the newest number so far, it is one that was begun and not removed. */
  predicate Fenced(log: seq<Event>) {
    forall i, j :: 0 <= i < j < |log| && log[j].Committed? && log[i].id == log[j].id ==>
      log[i].generation <= log[j].generation && (log[i].Removed? ==> log[i].generation < log[j].generation)
  }

  predicate Backed(log: seq<Event>) {
    forall j :: 0 <= j < |log| && log[j].Committed? ==> Began(log[j].id, log[j].generation) in log[..j]
  }

  /** What is published was committed after the last removal. */
  predicate Published(s: State) {
    forall id :: id in s.models ==>
      && Committed(id, s.models[id], Publish) in s.log
      && (forall i :: 0 <= i < |s.log| && s.log[i].id == id ==>
            (s.log[i].Removed? ==> s.log[i].generation < s.models[id])
            && (s.log[i].Committed? && s.log[i].effect != Nothing ==> s.log[i].generation <= s.models[id]))
  }

  predicate Inv(w: World) {
    Counted(w) && Fenced(w.state.log) && Backed(w.state.log) && Published(w.state)
  }

  lemma CountedStays(w: World, a: Action)
    requires Counted(w) && Enabled(w, a)
    ensures Counted(Step(w, a))
  {
  }

  lemma FencedStays(w: World, a: Action)
    requires Counted(w) && Fenced(w.state.log) && Enabled(w, a)
    ensures Fenced(Step(w, a).state.log)
  {
  }

  lemma BackedStays(w: World, a: Action)
    requires Counted(w) && Backed(w.state.log) && Enabled(w, a)
    ensures Backed(Step(w, a).state.log)
  {
    var log, next := w.state.log, Step(w, a).state.log;
    forall j | 0 <= j < |next| && next[j].Committed? ensures Began(next[j].id, next[j].generation) in next[..j] {
      if j < |log| {
        assert next[..j] == log[..j];
      } else {
        assert next[..j] == log;
      }
    }
  }

  lemma PublishedOnCommit(w: World, ctx: Context, id: Id, effect: Effect)
    requires Counted(w) && Published(w.state) && Enabled(w, Commit(ctx, id, effect)) && IsCurrent(w.state, ctx, id)
    ensures Published(Committing(w.state, id, ctx.value.generation, effect))
  {
    var s, g := w.state, ctx.value.generation;
    var v := Committing(s, id, g, effect);
    assert v.log[|s.log|] == Committed(id, g, effect);
    forall i | 0 <= i < |s.log| && s.log[i].id == id ensures s.log[i].generation <= g && (s.log[i].Removed? ==> s.log[i].generation < g) {
      assert s.log[i].Removed? ==> s.log[i] == Removed(id, s.log[i].generation);
    }
    hide Counted;
  }

  lemma PublishedStays(w: World, a: Action)
    requires Counted(w) && Published(w.state) && Enabled(w, a)
    ensures Published(Step(w, a).state)
  {
    hide Counted;
    if a.Commit? && IsCurrent(w.state, a.ctx, a.id) {
      PublishedOnCommit(w, a.ctx, a.id, a.effect);
    }
  }

  lemma {:induction false} RunStays(actions: seq<Action>)
    ensures Inv(Run(actions))
  {
    if actions != [] {
      RunStays(actions[..|actions| - 1]);
      var w, a := Run(actions[..|actions| - 1]), actions[|actions| - 1];
      if Enabled(w, a) {
        CountedStays(w, a);
        FencedStays(w, a);
        BackedStays(w, a);
        PublishedStays(w, a);
      }
    }
  }

  /** A commit has the number of a registration that began before it, and no registration of the
      account that began before it is newer, no removal before it is as new, and no earlier commit
      is newer. */
  lemma {:induction false} CommitsAreLatest(actions: seq<Action>, i: nat, j: nat)
    requires i < j < |Run(actions).state.log| && Run(actions).state.log[j].Committed?
    requires Run(actions).state.log[i].id == Run(actions).state.log[j].id
    ensures var log := Run(actions).state.log;
      && Began(log[j].id, log[j].generation) in log[..j]
      && log[i].generation <= log[j].generation
      && (log[i].Removed? ==> log[i].generation < log[j].generation)
  {
    RunStays(actions);
    hide Run;
  }

  /** A task with the token of a registration that was superseded or removed commits nothing, however
      late it comes. */
  lemma {:induction false} SupersededNeverCommits(actions: seq<Action>, token: Token, i: nat, effect: Effect)
    requires i < |Run(actions).state.log| && Run(actions).state.log[i].id == token.id && token in Run(actions).issued
    requires Run(actions).state.log[i].generation > token.generation
      || (Run(actions).state.log[i].Removed? && Run(actions).state.log[i].generation >= token.generation)
    ensures Step(Run(actions), Commit(Some(token), token.id, effect)) == Run(actions)
  {
    RunStays(actions);
    hide Run;
  }

  /** The counter is on record, so it is no higher than the newest begin or removal. */
  predicate Reached(s: State) {
    forall id :: id in s.generations ==>
      Began(id, s.generations[id]) in s.log || Removed(id, s.generations[id]) in s.log
  }

  lemma ReachedStays(w: World, a: Action)
    requires Reached(w.state)
    ensures Reached(Step(w, a).state)
  {
  }

  lemma {:induction false} RunReaches(actions: seq<Action>)
    ensures Reached(Run(actions).state)
  {
    hide Reached, Step, Enabled;
    if actions != [] {
      RunReaches(actions[..|actions| - 1]);
      ReachedStays(Run(actions[..|actions| - 1]), actions[|actions| - 1]);
    } else {
      NothingReached();
    }
  }

  lemma NothingReached()
    ensures Reached(State(map[], {}, map[], []))
  {
  }

  /** Exactly: a task commits if and only if its account is known, and nothing newer began and nothing as
      new was removed for it. A publication then puts its models in force. */
  lemma {:induction false} NewestCommits(actions: seq<Action>, token: Token, effect: Effect)
    requires token in Run(actions).issued
    ensures var s, v := Run(actions).state, Step(Run(actions), Commit(Some(token), token.id, effect)).state;
      var newest := token.id in s.known
        && (forall i :: 0 <= i < |s.log| && s.log[i].id == token.id ==>
              && (s.log[i].Began? ==> s.log[i].generation <= token.generation)
              && (s.log[i].Removed? ==> s.log[i].generation < token.generation));
      && v.log == (if newest then s.log + [Committed(token.id, token.generation, effect)] else s.log)
      && (newest && effect == Publish ==> token.id in v.models && v.models[token.id] == token.generation)
      && (newest && effect == Unregister ==> token.id !in v.models)
      && (!newest || effect == Nothing ==> v.models == s.models)
      && (forall id :: id != token.id ==> (id in v.models <==> id in s.models) && (id in v.models ==> v.models[id] == s.models[id]))
      && v.known == s.known && v.generations == s.generations
  {
    RunStays(actions);
    RunReaches(actions);
    hide Run, Fenced, Backed, Published;
    var s := Run(actions).state;
    assert Began(token.id, token.generation) in s.log;
    assert token.id in s.generations && token.generation <= s.generations[token.id];
    if s.generations[token.id] == token.generation {
      assert Removed(token.id, token.generation) !in s.log;
    }
  }

  /** An account that is added and registered without anybody interfering gets its models published. */
  lemma {:induction false} RegistrationPublishes(actions: seq<Action>, id: Id)
    ensures var w := Run(actions);
      var token := Token(id, 1 + if id in w.state.generations then w.state.generations[id] else 0);
      var v := Step(Step(Step(w, Add(id)), Begin(None, id)), Commit(Some(token), id, Publish));
      token in v.issued && id in v.state.models && v.state.models[id] == token.generation
  {
    hide Run;
  }

  /** A removal withdraws the models and every token issued so far, also once the account is back; while
      the manager lacks the account, no token commits. */
  lemma {:induction false} RemovalWithdraws(actions: seq<Action>, token: Token, effect: Effect)
    requires token in Run(actions).issued
    ensures var w, late := Run(actions), Commit(Some(token), token.id, effect);
      var removed, dropped := Step(w, Remove(token.id)), Step(w, Drop(token.id));
      && token.id !in removed.state.models && token.id !in removed.state.known
      && Step(removed, late) == removed
      && Step(Step(removed, Add(token.id)), late) == Step(removed, Add(token.id))
      && dropped.state.known == w.state.known - {token.id} && Step(dropped, late) == dropped
  {
    RunStays(actions);
    hide Run;
    assert Began(token.id, token.generation) in Run(actions).state.log;
  }

  /** Published models are those of the newest commit that changed anything, made after the account's
      last removal. */
  lemma {:induction false} ModelsAreCurrent(actions: seq<Action>, id: Id, i: nat)
    requires id in Run(actions).state.models && i < |Run(actions).state.log| && Run(actions).state.log[i].id == id
    ensures var s := Run(actions).state;
      && Committed(id, s.models[id], Publish) in s.log
      && (s.log[i].Committed? && s.log[i].effect != Nothing ==> s.log[i].generation <= s.models[id])
      && (s.log[i].Removed? ==> s.log[i].generation < s.models[id])
  {
    RunStays(actions);
    hide Run;
  }
}
