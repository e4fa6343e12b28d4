/** The bookkeeping of a bulk recheck: which items become outcomes, where a worker writes its
    result, and which outcome each hook is told. */
module BulkRecheck {
  import opened Basics

  /** A key, an error text or a result; NONE is the empty one. */
  type Token = nat
  const NONE: Token := 0

  /** What binding an item to the live snapshot gives. */
  datatype Bind = Bound(key: Token) | Unbound(error: Token)

  /** What one inspection gives; a panic counts as an error. */
  datatype Probe = Inspected(result: Token) | Failed(error: Token)

  datatype Outcome = Outcome(key: Token, success: bool, error: Token, result: Option<Token>)

  /** All that the call learns from outside, by position of the item: requested keys, bindings,
      errors of the before-hook, inspections, errors of the save after an inspection, and the error
      of the context once the workers are through. */
  datatype Given = Given(hooked: bool, requested: seq<Token>, binds: seq<Bind>, before: seq<Token>,
                         probes: seq<Probe>, saves: seq<Token>, cancel: Token)
  {
    predicate Sound() {
      && |requested| == |before| == |probes| == |saves| == |binds|
      && (forall i :: 0 <= i < |binds| && binds[i].Unbound? ==> binds[i].error != NONE)
      && (forall i :: 0 <= i < |probes| && probes[i].Failed? ==> probes[i].error != NONE)
    }
  }

  // ----- Which items count -----

  predicate Repeats(binds: seq<Bind>, i: nat)
    requires i < |binds|
  {
    binds[i].Bound? && exists j :: 0 <= j < i && binds[j] == binds[i]
  }

  /** Positions of the first n items without later repetitions of a bound key. */
  function Kept(binds: seq<Bind>, n: nat): (kept: seq<nat>)
    requires n <= |binds|
    ensures |kept| <= n && forall k :: 0 <= k < |kept| ==> kept[k] < n
  {
    if n == 0 then [] else Kept(binds, n - 1) + if Repeats(binds, n - 1) then [] else [n - 1]
  }

  /** Of these, the ones that have to be inspected. */
  function Work(binds: seq<Bind>, n: nat): (work: seq<nat>)
    requires n <= |binds|
    ensures |work| <= n && forall k :: 0 <= k < |work| ==> work[k] < n
    ensures forall i :: i in work ==> i < n && binds[i].Bound?
  {
    if n == 0 then []
    else Work(binds, n - 1) + if binds[n - 1].Bound? && !Repeats(binds, n - 1) then [n - 1] else []
  }

  predicate Increasing(s: seq<nat>) {
    forall a, b :: 0 <= a < b < |s| ==> s[a] < s[b]
  }

  lemma OneLonger(s: seq<nat>, n: nat)
    requires Increasing(s) && forall k :: 0 <= k < |s| ==> s[k] < n
    ensures Increasing(s + [n]) && n !in s
    ensures forall i :: i in s + [n] <==> i in s || i == n
  {
  }

  /** Input order, nothing but repetitions is dropped, and each bound key is inspected once. */
  lemma {:induction false} KeptInOrder(binds: seq<Bind>, n: nat)
    requires n <= |binds|
    ensures Increasing(Kept(binds, n))
    ensures forall i :: 0 <= i < n ==> (i in Kept(binds, n) <==> !Repeats(binds, i))
  {
    if n > 0 {
      KeptInOrder(binds, n - 1);
      OneLonger(Kept(binds, n - 1), n - 1);
      hide Repeats, Increasing;
    }
  }

  lemma {:induction false} WorkInOrder(binds: seq<Bind>, n: nat)
    requires n <= |binds|
    ensures Increasing(Work(binds, n))
    ensures forall i :: 0 <= i < n ==> (i in Work(binds, n) <==> binds[i].Bound? && !Repeats(binds, i))
  {
    if n > 0 {
      WorkInOrder(binds, n - 1);
      OneLonger(Work(binds, n - 1), n - 1);
      hide Repeats, Increasing;
    }
  }

  /** Every refused item is kept, and of each bound key its first item. */
  lemma FirstIsKept(binds: seq<Bind>, i: nat)
    requires i < |binds|
    ensures i in Kept(binds, |binds|) <==> binds[i].Unbound? || forall j :: 0 <= j < i ==> binds[j] != binds[i]
    ensures i in Work(binds, |binds|) <==> binds[i].Bound? && forall j :: 0 <= j < i ==> binds[j] != binds[i]
  {
    KeptInOrder(binds, |binds|);
    WorkInOrder(binds, |binds|);
    hide Kept, Work;
  }

  lemma OneInspectionPerKey(binds: seq<Bind>, a: nat, b: nat)
    requires a < b < |Work(binds, |binds|)|
    ensures binds[Work(binds, |binds|)[a]] != binds[Work(binds, |binds|)[b]]
  {
    WorkInOrder(binds, |binds|);
    var i, j := Work(binds, |binds|)[a], Work(binds, |binds|)[b];
    assert j in Work(binds, |binds|);
    assert !Repeats(binds, j);
    assert i < j;
  }

  // ----- Outcomes -----

  /** Outcome of item i when a worker took it. */
  function Probed(g: Given, i: nat): Outcome
    requires g.Sound() && i < |g.binds| && g.binds[i].Bound?
  {
    var key := g.binds[i].key;
    if g.hooked && g.before[i] != NONE then Outcome(key, false, g.before[i], None)
    else if g.probes[i].Failed? then Outcome(key, false, g.probes[i].error, None)
    else Outcome(key, true, if g.hooked then g.saves[i] else NONE, Some(g.probes[i].result))
  }

  function Unstarted(g: Given, i: nat): Outcome
    requires i < |g.binds|
  {
    if g.binds[i].Bound? then Outcome(g.binds[i].key, false, NONE, None)
    else Outcome(if i < |g.requested| then g.requested[i] else NONE, false, g.binds[i].error, None)
  }

  /** Outcome of item i once the workers took the items in `taken` and those in `canceled` were given up. */
  function Value(g: Given, taken: set<nat>, canceled: set<nat>, i: nat): Outcome
    requires g.Sound() && i < |g.binds|
  {
    if g.binds[i].Bound? && i in taken then Probed(g, i)
    else if g.binds[i].Bound? && i in canceled then Unstarted(g, i).(error := g.cancel)
    else Unstarted(g, i)
  }

  predicate Indexes(order: seq<nat>, bound: nat) {
    && (forall n :: 0 <= n < |order| ==> order[n] < bound)
    && (forall m, n :: 0 <= m < n < |order| ==> order[m] != order[n])
  }

  /** The worker pool: each index at most once, and all of them unless the context is done. */
  predicate PoolRun(g: Given, order: seq<nat>) {
    var n := |Work(g.binds, |g.binds|)|;
    Indexes(order, n) && (g.cancel == NONE ==> forall x :: 0 <= x < n ==> x in order)
  }

  /** The items at these indexes of the work list. */
  function Items(work: seq<nat>, order: seq<nat>): set<nat>
    requires forall n :: 0 <= n < |order| ==> order[n] < |work|
  {
    set n | 0 <= n < |order| :: work[order[n]]
  }

  function WorkSet(g: Given): set<nat> {
    set x | x in Work(g.binds, |g.binds|)
  }

  function Results(outcomes: seq<Outcome>): seq<Token> {
    if outcomes == [] then []
    else
      var o := outcomes[|outcomes| - 1];
      Results(outcomes[..|outcomes| - 1]) + if o.success && o.result.Some? then [o.result.value] else []
  }

  predicate Settled(o: Outcome) {
    o.success || o.error != NONE
  }

  // ----- The loops -----

  /** After n items: one outcome for each kept item, and for each item to inspect its slot. */
  ghost predicate Placed(g: Given, n: nat, outcomes: seq<Outcome>, slots: seq<nat>, items: seq<nat>)
    requires n <= |g.binds|
  {
    var kept := Kept(g.binds, n);
    && items == Work(g.binds, n) && |slots| == |items| && |outcomes| == |kept|
    && (forall k :: 0 <= k < |kept| ==> outcomes[k] == Unstarted(g, kept[k]))
    && (forall x :: 0 <= x < |slots| ==> slots[x] < |kept| && kept[slots[x]] == items[x])
  }

  ghost predicate SeenSo(binds: seq<Bind>, n: nat, seen: set<Token>)
    requires n <= |binds|
  {
    forall key :: key in seen <==> exists j :: 0 <= j < n && binds[j] == Bound(key)
  }

  /** The after-hook of the first n items that could not be bound. */
  ghost predicate Refusals(g: Given, n: nat, told: seq<seq<Outcome>>)
    requires n <= |g.binds|
  {
    && |told| == |g.binds|
    && forall j :: 0 <= j < |told| ==> told[j] == if j < n && g.hooked && g.binds[j].Unbound? then [Unstarted(g, j)] else []
  }

  lemma PlaceOne(g: Given, n: nat, outcomes: seq<Outcome>, slots: seq<nat>, items: seq<nat>)
    requires n < |g.binds| && Placed(g, n, outcomes, slots, items)
    ensures Repeats(g.binds, n) ==> Placed(g, n + 1, outcomes, slots, items)
    ensures g.binds[n].Unbound? ==> Placed(g, n + 1, outcomes + [Unstarted(g, n)], slots, items)
    ensures !Repeats(g.binds, n) && g.binds[n].Bound? ==>
      Placed(g, n + 1, outcomes + [Unstarted(g, n)], slots + [|outcomes|], items + [n])
  {
    hide Unstarted;
  }

  lemma SeeOne(binds: seq<Bind>, n: nat, seen: set<Token>)
    requires n < |binds| && SeenSo(binds, n, seen)
    ensures binds[n].Unbound? ==> SeenSo(binds, n + 1, seen) && !Repeats(binds, n)
    ensures binds[n].Bound? ==> SeenSo(binds, n + 1, seen + {binds[n].key})
    ensures binds[n].Bound? ==> (binds[n].key in seen <==> Repeats(binds, n))
  {
    if binds[n].Bound? {
      var key := binds[n].key;
      assert binds[n] == Bound(key);
    }
  }

  lemma RefuseOne(g: Given, n: nat, told: seq<seq<Outcome>>)
    requires n < |g.binds| && Refusals(g, n, told)
    ensures g.hooked && g.binds[n].Unbound? ==> Refusals(g, n + 1, told[n := told[n] + [Unstarted(g, n)]])
    ensures !g.hooked || g.binds[n].Bound? ==> Refusals(g, n + 1, told)
  {
    hide Unstarted;
    assert [] + [Unstarted(g, n)] == [Unstarted(g, n)];
  }

  lemma NothingGathered(g: Given, told: seq<seq<Outcome>>)
    requires |told| == |g.binds| && forall j :: 0 <= j < |told| ==> told[j] == []
    ensures Placed(g, 0, [], [], []) && SeenSo(g.binds, 0, {}) && Refusals(g, 0, told)
  {
  }

  /** First loop: bind, drop repetitions, and tell the hook of the items that could not be bound. */
  method Gather(g: Given)
    returns (outcomes: seq<Outcome>, slots: seq<nat>, items: seq<nat>, told: seq<seq<Outcome>>)
    requires g.Sound()
    ensures Placed(g, |g.binds|, outcomes, slots, items) && Refusals(g, |g.binds|, told)
  {
    hide Placed, SeenSo, Repeats, Refusals, Kept, Work;
    outcomes, slots, items := [], [], [];
    told := seq(|g.binds|, _ => []);
    var seen: set<Token> := {};
    NothingGathered(g, told);
    for i := 0 to |g.binds|
      invariant Placed(g, i, outcomes, slots, items) && SeenSo(g.binds, i, seen)
      invariant |told| == |g.binds| && Refusals(g, i, told)
    {
      PlaceOne(g, i, outcomes, slots, items);
      SeeOne(g.binds, i, seen);
      RefuseOne(g, i, told);
      match g.binds[i] {
        case Unbound(error) =>
          var outcome := Outcome(g.requested[i], false, error, None);
          outcomes := outcomes + [outcome];
          if g.hooked {
            told := told[i := told[i] + [outcome]];
          }
        case Bound(key) =>
          if key !in seen {
            seen := seen + {key};
            slots := slots + [|outcomes|];
            items := items + [i];
            outcomes := outcomes + [Outcome(key, false, NONE, None)];
          } else {
            assert seen == seen + {key};
          }
      }
    }
  }

  ghost predicate Filled(g: Given, taken: set<nat>, canceled: set<nat>, outcomes: seq<Outcome>)
    requires g.Sound()
  {
    var kept := Kept(g.binds, |g.binds|);
    |outcomes| == |kept| && forall k :: 0 <= k < |kept| ==> outcomes[k] == Value(g, taken, canceled, kept[k])
  }

  /** Each item has been told of as often as its outcome was settled, with that outcome. */
  ghost predicate Told(g: Given, taken: set<nat>, canceled: set<nat>, told: seq<seq<Outcome>>)
    requires g.Sound()
  {
    && |told| == |g.binds|
    && forall i :: 0 <= i < |told| ==>
         told[i] == if g.hooked && (g.binds[i].Unbound? || i in taken || i in canceled)
                    then [Value(g, taken, canceled, i)] else []
  }

  /** Setting one item's outcome does not touch the others. */
  lemma OthersUntouched(g: Given, taken: set<nat>, canceled: set<nat>, i: nat, j: nat)
    requires g.Sound() && j < |g.binds| && j != i
    ensures Value(g, taken + {i}, canceled, j) == Value(g, taken, canceled, j)
    ensures Value(g, taken, canceled + {i}, j) == Value(g, taken, canceled, j)
  {
    hide Probed, Unstarted;
  }

  lemma Distinct(s: seq<nat>, a: nat, b: nat)
    requires Increasing(s) && a < |s| && b < |s| && a != b
    ensures s[a] != s[b]
  {
    assert if a < b then s[a] < s[b] else s[b] < s[a];
  }

  lemma FillOne(g: Given, taken: set<nat>, canceled: set<nat>, outcomes: seq<Outcome>, told: seq<seq<Outcome>>, slot: nat, i: nat)
    requires g.Sound() && Filled(g, taken, canceled, outcomes) && Told(g, taken, canceled, told)
    requires slot < |outcomes| && Kept(g.binds, |g.binds|)[slot] == i
    requires i !in taken && i !in canceled && i in Work(g.binds, |g.binds|)
    ensures outcomes[slot] == Unstarted(g, i) && g.binds[i].Bound?
    ensures Filled(g, taken + {i}, canceled, outcomes[slot := Probed(g, i)])
    ensures Filled(g, taken, canceled + {i}, outcomes[slot := Unstarted(g, i).(error := g.cancel)])
    ensures |told| == |g.binds| && told[i] == []
  {
    KeptInOrder(g.binds, |g.binds|);
    var kept := Kept(g.binds, |g.binds|);
    assert Value(g, taken, canceled, i) == Unstarted(g, i);
    assert Value(g, taken + {i}, canceled, i) == Probed(g, i);
    assert Value(g, taken, canceled + {i}, i) == Unstarted(g, i).(error := g.cancel);
    hide Value, Probed, Unstarted, Kept, Work, Increasing;
    forall k | 0 <= k < |kept| && k != slot
      ensures Value(g, taken + {i}, canceled, kept[k]) == Value(g, taken, canceled, kept[k]) == Value(g, taken, canceled + {i}, kept[k])
    {
      Distinct(kept, k, slot);
      OthersUntouched(g, taken, canceled, i, kept[k]);
    }
  }

  function Heard(g: Given, told: seq<seq<Outcome>>, i: nat, o: Outcome): seq<seq<Outcome>>
    requires i < |told|
  {
    if g.hooked then told[i := told[i] + [o]] else told
  }

  lemma HearOne(g: Given, t: set<nat>, c: set<nat>, taken: set<nat>, canceled: set<nat>, told: seq<seq<Outcome>>, i: nat)
    requires g.Sound() && Told(g, t, c, told) && i < |g.binds| && g.binds[i].Bound? && i !in t && i !in c
    requires (taken == t + {i} && canceled == c) || (taken == t && canceled == c + {i})
    ensures |told| == |g.binds|
    ensures Told(g, taken, canceled, Heard(g, told, i, Value(g, taken, canceled, i)))
  {
    forall j | 0 <= j < |told| && j != i ensures Value(g, taken, canceled, j) == Value(g, t, c, j) {
      OthersUntouched(g, t, c, i, j);
    }
    assert told[i] == [];
    hide Value;
  }

  lemma TellOne(g: Given, taken: set<nat>, canceled: set<nat>, told: seq<seq<Outcome>>, i: nat)
    requires g.Sound() && Told(g, taken, canceled, told)
    requires i !in taken && i !in canceled && i in Work(g.binds, |g.binds|)
    ensures g.binds[i].Bound? && |told| == |g.binds|
    ensures Told(g, taken + {i}, canceled, if g.hooked then told[i := told[i] + [Probed(g, i)]] else told)
    ensures Told(g, taken, canceled + {i}, if g.hooked then told[i := told[i] + [Unstarted(g, i).(error := g.cancel)]] else told)
  {
    HearOne(g, taken, canceled, taken + {i}, canceled, told, i);
    HearOne(g, taken, canceled, taken, canceled + {i}, told, i);
    hide Told, Probed, Unstarted, Work;
  }

  /** What one worker does with the item at an index. */
  method Inspect(g: Given, i: nat, outcome: Outcome) returns (o: Outcome)
    requires g.Sound() && i < |g.binds| && g.binds[i].Bound? && outcome == Unstarted(g, i)
    ensures o == Probed(g, i) && o.key == g.binds[i].key
    ensures o.success <==> g.probes[i].Inspected? && !(g.hooked && g.before[i] != NONE)
    ensures o.success ==> o.result == Some(g.probes[i].result) && o.error == if g.hooked then g.saves[i] else NONE
    ensures !o.success ==>
      o.result == None && o.error == if g.hooked && g.before[i] != NONE then g.before[i] else g.probes[i].error
  {
    o := outcome;
    var error := NONE;
    if g.hooked {
      error := g.before[i];
    }
    if error == NONE && g.probes[i].Failed? {
      error := g.probes[i].error;
    }
    if error != NONE {
      o := o.(error := error);
    } else {
      o := o.(success := true, result := Some(g.probes[i].result));
      if g.hooked {
        o := o.(error := g.saves[i]);
      }
    }
  }

  ghost function Completions(g: Given, order: seq<nat>): (os: seq<Outcome>)
    requires g.Sound() && Indexes(order, |Work(g.binds, |g.binds|)|)
  {
    seq(|order|, n requires 0 <= n < |order| => Probed(g, Work(g.binds, |g.binds|)[order[n]]))
  }

  lemma ItemsAppended(work: seq<nat>, order: seq<nat>, x: nat)
    requires (forall n :: 0 <= n < |order| ==> order[n] < |work|) && x < |work|
    ensures Items(work, order + [x]) == Items(work, order) + {work[x]}
  {
    var all := order + [x];
    assert all[|order|] == x;
    forall i | i in Items(work, order) ensures i in Items(work, all) {
      var n :| 0 <= n < |order| && work[order[n]] == i;
      assert all[n] == order[n];
    }
  }

  lemma ItemsMore(g: Given, work: seq<nat>, order: seq<nat>, n: nat)
    requires work == Work(g.binds, |g.binds|) && Indexes(order, |work|) && n < |order|
    ensures Items(work, order[..n + 1]) == Items(work, order[..n]) + {work[order[n]]}
    ensures work[order[n]] !in Items(work, order[..n]) && work[order[n]] in work
  {
    ItemsAppended(work, order[..n], order[n]);
    assert order[..n] + [order[n]] == order[..n + 1];
    var i := work[order[n]];
    if i in Items(work, order[..n]) {
      var m :| 0 <= m < n && work[order[m]] == i;
      WorkInOrder(g.binds, |g.binds|);
      assert false;
    }
  }

  lemma ResultsMore(a: seq<Outcome>, o: Outcome)
    ensures Results(a + [o]) == Results(a) + if o.success && o.result.Some? then [o.result.value] else []
  {
    assert (a + [o])[..|a|] == a;
  }

  lemma FillNone(g: Given, outcomes: seq<Outcome>, slots: seq<nat>, items: seq<nat>, told: seq<seq<Outcome>>)
    requires g.Sound() && Placed(g, |g.binds|, outcomes, slots, items) && Refusals(g, |g.binds|, told)
    ensures Filled(g, {}, {}, outcomes) && Told(g, {}, {}, told)
    ensures items == Work(g.binds, |g.binds|) && |slots| == |items| && |told| == |g.binds|
    ensures |outcomes| == |Kept(g.binds, |g.binds|)|
    ensures forall x :: 0 <= x < |slots| ==> slots[x] < |outcomes| && Kept(g.binds, |g.binds|)[slots[x]] == items[x]
  {
    hide Unstarted;
  }

  ghost predicate Marks(processed: seq<bool>, order: seq<nat>) {
    forall x :: 0 <= x < |processed| ==> (processed[x] <==> x in order)
  }

  lemma MarkOne(processed: seq<bool>, order: seq<nat>, n: nat)
    requires n < |order| && order[n] < |processed| && Marks(processed, order[..n])
    ensures Marks(processed[order[n] := true], order[..n + 1])
  {
    assert order[..n + 1] == order[..n] + [order[n]];
  }

  lemma CompleteOne(g: Given, order: seq<nat>, n: nat)
    requires g.Sound() && Indexes(order, |Work(g.binds, |g.binds|)|) && n < |order|
    ensures var o := Probed(g, Work(g.binds, |g.binds|)[order[n]]);
      Results(Completions(g, order[..n + 1]))
      == Results(Completions(g, order[..n])) + if o.success && o.result.Some? then [o.result.value] else []
  {
    var o := Probed(g, Work(g.binds, |g.binds|)[order[n]]);
    hide Probed;
    assert Completions(g, order[..n + 1]) == Completions(g, order[..n]) + [o];
    ResultsMore(Completions(g, order[..n]), o);
  }

  /** Second loop: the workers' callbacks, in the order in which they get through. */
  method RunWorkers(g: Given, order: seq<nat>, slots: seq<nat>, items: seq<nat>, bound: seq<Outcome>, refused: seq<seq<Outcome>>)
    returns (outcomes: seq<Outcome>, told: seq<seq<Outcome>>, merged: seq<Token>, processed: seq<bool>)
    requires g.Sound() && Placed(g, |g.binds|, bound, slots, items) && Refusals(g, |g.binds|, refused)
    requires Indexes(order, |items|)
    ensures items == Work(g.binds, |g.binds|)
    ensures |outcomes| == |bound| && |told| == |g.binds| && Filled(g, Items(items, order), {}, outcomes)
    ensures Told(g, Items(items, order), {}, told)
    ensures merged == if g.hooked then Results(Completions(g, order)) else []
    ensures |processed| == |items| && Marks(processed, order)
  {
    hide Filled, Told, Probed, Unstarted, Results, Items, Marks, Completions, Placed, Refusals, Kept, Work;
    FillNone(g, bound, slots, items, refused);
    outcomes, told, merged := bound, refused, [];
    processed := seq(|items|, _ => false);
    ghost var taken: set<nat> := {};
    StartLoop(g, items, order, processed);
    for n := 0 to |order|
      invariant taken == Items(items, order[..n])
      invariant Filled(g, taken, {}, outcomes) && Told(g, taken, {}, told)
      invariant |processed| == |items| && |outcomes| == |bound| && |told| == |g.binds|
      invariant Marks(processed, order[..n])
      invariant merged == if g.hooked then Results(Completions(g, order[..n])) else []
    {
      var index := order[n];
      var i := items[index];
      ItemsMore(g, items, order, n);
      FillOne(g, taken, {}, outcomes, told, slots[index], i);
      TellOne(g, taken, {}, told, i);
      CompleteOne(g, order, n);
      MarkOne(processed, order, n);
      var outcome := Inspect(g, i, outcomes[slots[index]]);
      if g.hooked {
        if outcome.success && outcome.result.Some? {
          merged := merged + [outcome.result.value];
        }
        told := told[i := told[i] + [outcome]];
      }
      outcomes := outcomes[slots[index] := outcome];
      processed := processed[index := true];
      taken := taken + {i};
    }
    assert order[..|order|] == order;
  }

  lemma StartLoop(g: Given, items: seq<nat>, order: seq<nat>, processed: seq<bool>)
    requires g.Sound() && items == Work(g.binds, |g.binds|) && Indexes(order, |items|)
    requires forall x :: 0 <= x < |processed| ==> !processed[x]
    ensures Items(items, order[..0]) == {} && Marks(processed, order[..0]) && Results(Completions(g, order[..0])) == []
  {
  }

  /** Third loop, for a context that is done: the items that no worker took. */
  method CancelRest(g: Given, order: seq<nat>, slots: seq<nat>, items: seq<nat>, processed: seq<bool>,
                    inspected: seq<Outcome>, heard: seq<seq<Outcome>>)
    returns (outcomes: seq<Outcome>, told: seq<seq<Outcome>>)
    requires g.Sound() && items == Work(g.binds, |g.binds|) && Indexes(order, |items|)
    requires |slots| == |items| == |processed| && Marks(processed, order)
    requires |inspected| == |Kept(g.binds, |g.binds|)| && |heard| == |g.binds|
    requires forall x :: 0 <= x < |slots| ==> slots[x] < |inspected| && Kept(g.binds, |g.binds|)[slots[x]] == items[x]
    requires Filled(g, Items(items, order), {}, inspected) && Told(g, Items(items, order), {}, heard)
    ensures Filled(g, Items(items, order), WorkSet(g), outcomes) && Told(g, Items(items, order), WorkSet(g), told)
  {
    hide Filled, Told, Probed, Unstarted, Items, Marks, Kept, Work, Front;
    outcomes, told := inspected, heard;
    ghost var taken, canceled: set<nat> := Items(items, order), {};
    FrontMore(g, items, 0);
    for x := 0 to |items|
      invariant |outcomes| == |inspected| && |told| == |g.binds|
      invariant canceled == Front(items, x)
      invariant Filled(g, taken, canceled, outcomes) && Told(g, taken, canceled, told)
    {
      FrontMore(g, items, x);
      TakenOrNot(g, items, order, processed, x);
      if processed[x] {
        SkipOne(g, taken, canceled, outcomes, told, items[x]);
      } else {
        FillOne(g, taken, canceled, outcomes, told, slots[x], items[x]);
        TellOne(g, taken, canceled, told, items[x]);
        outcomes := outcomes[slots[x] := outcomes[slots[x]].(error := g.cancel)];
        if g.hooked {
          told := told[items[x] := told[items[x]] + [outcomes[slots[x]]]];
        }
      }
      canceled := canceled + {items[x]};
    }
  }

  ghost function Front(items: seq<nat>, n: nat): set<nat>
    requires n <= |items|
  {
    set x | 0 <= x < n :: items[x]
  }

  lemma FrontMore(g: Given, items: seq<nat>, n: nat)
    requires items == Work(g.binds, |g.binds|) && n <= |items|
    ensures Front(items, 0) == {} && Front(items, |items|) == WorkSet(g)
    ensures n < |items| ==> Front(items, n + 1) == Front(items, n) + {items[n]} && items[n] !in Front(items, n)
    ensures n < |items| ==> items[n] in Work(g.binds, |g.binds|)
  {
    WorkInOrder(g.binds, |g.binds|);
    hide Work;
  }

  lemma TakenOrNot(g: Given, items: seq<nat>, order: seq<nat>, processed: seq<bool>, x: nat)
    requires items == Work(g.binds, |g.binds|) && Indexes(order, |items|)
    requires x < |items| == |processed| && Marks(processed, order)
    ensures processed[x] <==> items[x] in Items(items, order)
  {
    WorkInOrder(g.binds, |g.binds|);
    hide Work;
  }

  lemma SkipOne(g: Given, taken: set<nat>, canceled: set<nat>, outcomes: seq<Outcome>, told: seq<seq<Outcome>>, i: nat)
    requires g.Sound() && Filled(g, taken, canceled, outcomes) && Told(g, taken, canceled, told) && i in taken
    ensures Filled(g, taken, canceled + {i}, outcomes) && Told(g, taken, canceled + {i}, told)
  {
    hide Probed, Unstarted;
  }

  lemma AllWorkTaken(g: Given, order: seq<nat>)
    requires g.Sound() && PoolRun(g, order) && g.cancel == NONE
    ensures Items(Work(g.binds, |g.binds|), order) == WorkSet(g)
  {
    var work := Work(g.binds, |g.binds|);
    forall i | i in WorkSet(g) ensures i in Items(work, order) {
      var x :| 0 <= x < |work| && work[x] == i;
      assert x in order;
      var n :| 0 <= n < |order| && order[n] == x;
      assert work[order[n]] == i;
    }
  }

  /** What the call returns for an item: refused, inspected by a worker, or given up. */
  function Verdict(g: Given, order: seq<nat>, i: nat): Outcome
    requires g.Sound() && PoolRun(g, order) && i < |g.binds|
  {
    Value(g, Items(Work(g.binds, |g.binds|), order), WorkSet(g), i)
  }

  /** The outcome of an item, told from what happened to it: refused, inspected, or given up. */
  ghost predicate Right(g: Given, order: seq<nat>, i: nat, o: Outcome)
    requires g.Sound() && PoolRun(g, order) && i < |g.binds|
  {
    var taken := exists n :: 0 <= n < |order| && Work(g.binds, |g.binds|)[order[n]] == i;
    match g.binds[i]
    case Unbound(error) => o == Outcome(g.requested[i], false, error, None)
    case Bound(key) =>
      && o.key == key
      && (!taken ==> o == Outcome(key, false, g.cancel, None))
      && (taken && g.hooked && g.before[i] != NONE ==> o == Outcome(key, false, g.before[i], None))
      && (taken && !(g.hooked && g.before[i] != NONE) && g.probes[i].Failed? ==> o == Outcome(key, false, g.probes[i].error, None))
      && (taken && !(g.hooked && g.before[i] != NONE) && g.probes[i].Inspected? ==>
            o == Outcome(key, true, if g.hooked then g.saves[i] else NONE, Some(g.probes[i].result)))
  }

  lemma VerdictIsRight(g: Given, order: seq<nat>, i: nat)
    requires g.Sound() && PoolRun(g, order) && i < |g.binds| && !Repeats(g.binds, i)
    ensures Right(g, order, i, Verdict(g, order, i))
  {
    KeptIsSettled(g, order, i);
    hide Work, Repeats, Settled;
  }

  ghost function Verdicts(g: Given, order: seq<nat>): seq<Outcome>
    requires g.Sound() && PoolRun(g, order)
  {
    var kept := Kept(g.binds, |g.binds|);
    seq(|kept|, k requires 0 <= k < |kept| => Verdict(g, order, kept[k]))
  }

  /** The loop over the outcomes at the end, when there are no hooks. */
  method MergeAll(outcomes: seq<Outcome>) returns (merged: seq<Token>)
    ensures merged == Results(outcomes)
  {
    merged := [];
    assert outcomes[..0] == [];
    for k := 0 to |outcomes|
      invariant merged == Results(outcomes[..k])
    {
      assert outcomes[..k + 1] == outcomes[..k] + [outcomes[k]];
      ResultsMore(outcomes[..k], outcomes[k]);
      if outcomes[k].success && outcomes[k].result.Some? {
        merged := merged + [outcomes[k].result.value];
      }
    }
    assert outcomes[..|outcomes|] == outcomes;
  }

  /** A recheck of many items: one settled outcome for each item in input order, later repetitions of
      a bound key left out, and each of these outcomes told once to the after-hook. `told` are the
      calls of the after-hook by position of the item, `merged` the results merged, in order. */
  method InspectMany(g: Given, order: seq<nat>)
    returns (outcomes: seq<Outcome>, told: seq<seq<Outcome>>, merged: seq<Token>)
    requires g.Sound() && PoolRun(g, order)
    ensures outcomes == Verdicts(g, order) && |outcomes| == |Kept(g.binds, |g.binds|)| && |told| == |g.binds|
    ensures forall k :: 0 <= k < |outcomes| ==> Settled(outcomes[k])
    ensures forall k :: 0 <= k < |outcomes| ==> Right(g, order, Kept(g.binds, |g.binds|)[k], outcomes[k])
    ensures forall k :: 0 <= k < |outcomes| && g.hooked ==> told[Kept(g.binds, |g.binds|)[k]] == [outcomes[k]]
    ensures forall i :: 0 <= i < |told| && (!g.hooked || Repeats(g.binds, i)) ==> told[i] == []
    ensures merged == Results(if g.hooked then Completions(g, order) else Verdicts(g, order))
  {
    hide Filled, Told, Placed, Refusals, Items, Work, Kept, WorkSet, Results, Completions, Verdict, Settled, Repeats, Marks, Right;
    AllRight(g, order);
    var bound, slots, items, refused := Gather(g);
    FillNone(g, bound, slots, items, refused);
    ghost var taken := Items(items, order);
    var processed;
    outcomes, told, merged, processed := RunWorkers(g, order, slots, items, bound, refused);
    if g.cancel != NONE {
      outcomes, told := CancelRest(g, order, slots, items, processed, outcomes, told);
    } else {
      AllWorkTaken(g, order);
      NoneLeft(g, outcomes, told);
    }
    Conclude(g, order, outcomes, told);
    if !g.hooked {
      merged := MergeAll(outcomes);
    }
  }

  lemma AllRight(g: Given, order: seq<nat>)
    requires g.Sound() && PoolRun(g, order)
    ensures |Verdicts(g, order)| == |Kept(g.binds, |g.binds|)|
    ensures forall k :: 0 <= k < |Verdicts(g, order)| ==> Right(g, order, Kept(g.binds, |g.binds|)[k], Verdicts(g, order)[k])
  {
    hide Work, Repeats, Right, Verdict, Kept;
    var kept := Kept(g.binds, |g.binds|);
    KeptInOrder(g.binds, |g.binds|);
    forall k | 0 <= k < |kept| ensures Right(g, order, kept[k], Verdict(g, order, kept[k])) {
      assert kept[k] in kept;
      VerdictIsRight(g, order, kept[k]);
    }
  }

  /** Exactly the results of the successes are merged. */
  lemma {:induction false} ResultsExact(outcomes: seq<Outcome>, r: Token)
    ensures r in Results(outcomes) <==> exists o :: o in outcomes && o.success && o.result == Some(r)
    ensures |Results(outcomes)| <= |outcomes|
    ensures (forall o :: o in outcomes ==> o.success && o.result.Some?) ==>
      |Results(outcomes)| == |outcomes| && forall k :: 0 <= k < |outcomes| ==> Results(outcomes)[k] == outcomes[k].result.value
  {
    if outcomes != [] {
      ResultsExact(outcomes[..|outcomes| - 1], r);
      assert outcomes == outcomes[..|outcomes| - 1] + [outcomes[|outcomes| - 1]];
    }
  }

  lemma NoneLeft(g: Given, outcomes: seq<Outcome>, told: seq<seq<Outcome>>)
    requires g.Sound() && Filled(g, WorkSet(g), {}, outcomes) && Told(g, WorkSet(g), {}, told)
    ensures Filled(g, WorkSet(g), WorkSet(g), outcomes) && Told(g, WorkSet(g), WorkSet(g), told)
  {
    hide Probed, Unstarted, WorkSet;
  }

  lemma Conclude(g: Given, order: seq<nat>, outcomes: seq<Outcome>, told: seq<seq<Outcome>>)
    requires g.Sound() && PoolRun(g, order)
    requires var taken := Items(Work(g.binds, |g.binds|), order);
      Filled(g, taken, WorkSet(g), outcomes) && Told(g, taken, WorkSet(g), told)
    ensures outcomes == Verdicts(g, order) && |outcomes| == |Kept(g.binds, |g.binds|)| && |told| == |g.binds|
    ensures forall k :: 0 <= k < |outcomes| ==> Settled(outcomes[k])
    ensures forall k :: 0 <= k < |outcomes| && g.hooked ==> told[Kept(g.binds, |g.binds|)[k]] == [outcomes[k]]
    ensures forall i :: 0 <= i < |told| && (!g.hooked || Repeats(g.binds, i)) ==> told[i] == []
  {
    hide Probed, Unstarted, Items, WorkSet, Settled, Kept, Work, Repeats;
    var kept := Kept(g.binds, |g.binds|);
    forall k | 0 <= k < |kept|
      ensures Settled(Verdict(g, order, kept[k])) && (g.binds[kept[k]].Bound? ==> kept[k] in WorkSet(g))
    {
      KeptInOrder(g.binds, |g.binds|);
      assert kept[k] in kept;
      KeptIsSettled(g, order, kept[k]);
    }
    RepeatsAreNoWork(g, order);
  }

  lemma KeptIsSettled(g: Given, order: seq<nat>, i: nat)
    requires g.Sound() && PoolRun(g, order) && i < |g.binds| && !Repeats(g.binds, i)
    ensures Settled(Verdict(g, order, i)) && (g.binds[i].Bound? ==> i in WorkSet(g))
  {
    WorkInOrder(g.binds, |g.binds|);
    if g.cancel == NONE {
      AllWorkTaken(g, order);
    }
    hide Work, Items, Repeats;
  }

  lemma RepeatsAreNoWork(g: Given, order: seq<nat>)
    requires PoolRun(g, order)
    ensures Items(Work(g.binds, |g.binds|), order) <= WorkSet(g)
    ensures forall i :: 0 <= i < |g.binds| && Repeats(g.binds, i) ==> g.binds[i].Bound? && i !in WorkSet(g)
  {
    WorkInOrder(g.binds, |g.binds|);
    hide Work;
  }
}
