/** How long an inspection may go on showing a subscription date and reset credits when the requests
    for them fail: the cached details are inherited, but never made younger. Times are in
    milliseconds. */
module CodexRetention {
  import opened Basics

  type Date = nat

  /** What identifies the credential that an inspection used. */
  type Binding = nat

  /** An account's index; NO_INDEX is the empty one. */
  type Index = nat
  const NO_INDEX: Index := 0

  const DETAILS_TTL: int := 15 * 60 * 1000

  /** `expires` is None if the text is no time. */
  datatype Credit = Credit(id: nat, available: bool, expires: Option<int>)

  datatype Account = Account(binding: Binding, index: Index, updatedAt: int)

  datatype Values = Values(
    activeUntil: Option<Date>, dateObservedAt: Option<int>,
    credits: seq<Credit>, creditsObservedAt: Option<int>,
    count: Option<real>, applicable: Option<real>, failed: bool, binding: Option<Binding>)

  /** Entry of the quota cache. */
  datatype Entry = Entry(index: Index, success: bool, values: Values, observedAt: int)

  /** A valid answer to the request for reset credits. */
  datatype Summary = Summary(credits: seq<Credit>, count: Option<real>, applicable: Option<real>)

  function Time(at: Option<int>): int {
    if at.Some? then at.value else 0
  }

  predicate Young(at: int, now: int) {
    at > 0 && 0 <= now - at < DETAILS_TTL
  }

  predicate Usable(c: Credit, now: int) {
    c.available && c.expires.Some? && c.expires.value > now
  }

  function Kept(credits: seq<Credit>, now: int): seq<Credit> {
    if credits == [] then []
    else
      var c := credits[|credits| - 1];
      Kept(credits[..|credits| - 1], now) + if Usable(c, now) then [c] else []
  }

  /** The cached details that this credential may inherit. */
  function Cached(account: Account, entries: seq<Entry>): Option<Values> {
    if |entries| != 1 || (entries[0].index != NO_INDEX && entries[0].index != account.index) || !entries[0].success then None
    else
      var e := entries[0];
      var v := e.values;
      if v.binding.Some? && v.binding.value != account.binding then None
      else if v.binding.None? && e.observedAt < account.updatedAt then None
      else
        Some(v.(dateObservedAt := if v.binding.None? && v.dateObservedAt.None? then Some(e.observedAt) else v.dateObservedAt,
                creditsObservedAt := if v.creditsObservedAt.None? then Some(e.observedAt) else v.creditsObservedAt))
  }

  /** The date may be inherited. */
  predicate DateLasts(previous: Option<Values>, account: Account, now: int) {
    && previous.Some? && previous.value.activeUntil.Some?
    && Young(Time(previous.value.dateObservedAt), now) && Time(previous.value.dateObservedAt) >= account.updatedAt
  }

  predicate CreditsLast(previous: Option<Values>, count: Option<real>, now: int) {
    && previous.Some? && Young(Time(previous.value.creditsObservedAt), now)
    && (count.None? || count.value > 0.0)
  }

  function Dated(v: Values, previous: Option<Values>, live: Option<Date>, account: Account, now: int): Values {
    if live.Some? then v.(activeUntil := live, dateObservedAt := Some(now))
    else if DateLasts(previous, account, now) then
      v.(activeUntil := previous.value.activeUntil, dateObservedAt := previous.value.dateObservedAt)
    else v
  }

  function OrCount(count: Option<real>, credits: seq<Credit>): Option<real> {
    if count.None? && |credits| > 0 then Some(|credits| as real) else count
  }

  function Credited(v: Values, previous: Option<Values>, resets: Option<Summary>, now: int): Values {
    if resets.Some? then
      var s := resets.value;
      v.(credits := s.credits, creditsObservedAt := Some(now),
         count := if s.count.Some? then s.count else if |s.credits| > 0 then Some(|s.credits| as real) else v.count,
         applicable := if v.applicable.None? then s.applicable else v.applicable)
    else if CreditsLast(previous, v.count, now) then
      var kept := Kept(previous.value.credits, now);
      v.(credits := kept, creditsObservedAt := previous.value.creditsObservedAt, count := OrCount(v.count, kept), failed := true)
    else v.(credits := [], failed := true)
  }

  function Enriched(v: Values, previous: Option<Values>, live: Option<Date>, resets: Option<Summary>, account: Account, now: int): Values {
    var u := Credited(Dated(v, previous, live, account, now), previous, resets, now);
    u.(applicable := if u.applicable.None? then u.count else u.applicable, binding := Some(account.binding))
  }

  // ----- When details are inherited, said outright -----

  /** A time of observation that is known and less than a quarter of an hour old. */
  predicate Recent(at: Option<int>, now: int) {
    at.Some? && at.value > 0 && at.value <= now && now - at.value < 15 * 60 * 1000
  }

  /** A live date with this time; else the earlier date with its own time if that is recent and not older
      than the credential; else what there was. */
  ghost predicate DatedTo(before: Values, after: Values, previous: Option<Values>, live: Option<Date>, updatedAt: int, now: int) {
    var inherits := live.None? && previous.Some? && previous.value.activeUntil.Some?
      && Recent(previous.value.dateObservedAt, now) && previous.value.dateObservedAt.value >= updatedAt;
    && after == before.(activeUntil := after.activeUntil, dateObservedAt := after.dateObservedAt)
    && (live.Some? ==> after.activeUntil == live && after.dateObservedAt == Some(now))
    && (inherits ==> after.activeUntil == previous.value.activeUntil && after.dateObservedAt == previous.value.dateObservedAt)
    && (live.None? && !inherits ==> after == before)
  }

  /** A subsequence: the available credits that have a time to expire and have not reached it. */
  ghost predicate StillUsable(all: seq<Credit>, kept: seq<Credit>, now: int) {
    && (forall c :: c in kept <==> c in all && c.available && c.expires.Some? && c.expires.value > now)
    && |kept| <= |all|
  }

  /** A live answer with this time; else the earlier credits that are still usable, with their own time, if
      that is recent and the count does not rule them out; else none. */
  ghost predicate CreditedTo(before: Values, after: Values, previous: Option<Values>, resets: Option<Summary>, now: int) {
    var inherits := resets.None? && previous.Some? && Recent(previous.value.creditsObservedAt, now)
      && (before.count.None? || before.count.value > 0.0);
    && after == before.(credits := after.credits, creditsObservedAt := after.creditsObservedAt,
                        count := after.count, applicable := after.applicable, failed := after.failed)
    && (resets.Some? ==>
          && after.credits == resets.value.credits && after.creditsObservedAt == Some(now) && after.failed == before.failed
          && (resets.value.count.Some? ==> after.count == resets.value.count)
          && (resets.value.count.None? && after.credits != [] ==> after.count == Some(|after.credits| as real))
          && (resets.value.count.None? && after.credits == [] ==> after.count == before.count)
          && after.applicable == if before.applicable.Some? then before.applicable else resets.value.applicable)
    && (resets.None? ==> after.failed && after.applicable == before.applicable)
    && (inherits ==>
          && StillUsable(previous.value.credits, after.credits, now) && after.creditsObservedAt == previous.value.creditsObservedAt
          && after.count == if before.count.None? && after.credits != [] then Some(|after.credits| as real) else before.count)
    && (resets.None? && !inherits ==>
          after.credits == [] && after.creditsObservedAt == before.creditsObservedAt && after.count == before.count)
  }

  /** What may be inherited: the details of the one successful entry for this account, if they were gathered
      with the same credential, or on the management page since the credential was last changed. */
  ghost predicate CachedTo(account: Account, entries: seq<Entry>, found: Option<Values>) {
    if |entries| == 1 && entries[0].success && (entries[0].index == 0 || entries[0].index == account.index)
       && (entries[0].values.binding == Some(account.binding)
           || (entries[0].values.binding == None && entries[0].observedAt >= account.updatedAt)) then
      var v := entries[0].values;
      && found.Some? && found.value == v.(dateObservedAt := found.value.dateObservedAt, creditsObservedAt := found.value.creditsObservedAt)
      && found.value.creditsObservedAt == (if v.creditsObservedAt.Some? then v.creditsObservedAt else Some(entries[0].observedAt))
      && found.value.dateObservedAt ==
           if v.dateObservedAt.Some? then v.dateObservedAt
           else if v.binding.Some? then None
           else Some(entries[0].observedAt)
    else found == None
  }

  lemma CachedExact(account: Account, entries: seq<Entry>)
    ensures CachedTo(account, entries, Cached(account, entries))
  {
  }

  lemma DatedExact(v: Values, previous: Option<Values>, live: Option<Date>, account: Account, now: int)
    ensures DatedTo(v, Dated(v, previous, live, account, now), previous, live, account.updatedAt, now)
  {
  }

  lemma CreditedExact(v: Values, previous: Option<Values>, resets: Option<Summary>, now: int)
    ensures CreditedTo(v, Credited(v, previous, resets, now), previous, resets, now)
  {
    if previous.Some? {
      KeptExact(previous.value.credits, now);
    }
    hide Kept, StillUsable;
  }

  lemma KeptExact(credits: seq<Credit>, now: int)
    ensures StillUsable(credits, Kept(credits, now), now)
  {
    KeptOf(credits, now);
    KeptFit(credits, now);
  }

  lemma {:induction false} KeptFit(credits: seq<Credit>, now: int)
    ensures |Kept(credits, now)| <= |credits|
  {
    if credits != [] {
      KeptFit(credits[..|credits| - 1], now);
    }
  }

  /** The kept credits stand in the order of the cached ones. */
  lemma {:induction false} KeptInOrder(a: seq<Credit>, b: seq<Credit>, now: int)
    ensures Kept(a + b, now) == Kept(a, now) + Kept(b, now)
    ensures |b| == 1 ==> Kept(b, now) == if b[0].available && b[0].expires.Some? && b[0].expires.value > now then b else []
  {
    if b == [] {
      assert a + b == a;
    } else {
      KeptInOrder(a, b[..|b| - 1], now);
      assert (a + b)[..|a + b| - 1] == a + b[..|b| - 1];
    }
  }

  /** The values as the inspection fills them in. */
  class Details {
    var activeUntil: Option<Date>
    var dateObservedAt: Option<int>
    var credits: seq<Credit>
    var creditsObservedAt: Option<int>
    var count: Option<real>
    var applicable: Option<real>
    var failed: bool
    var binding: Option<Binding>

    function View(): Values reads this {
      Values(activeUntil, dateObservedAt, credits, creditsObservedAt, count, applicable, failed, binding)
    }

    method EnrichDate(previous: Option<Values>, live: Option<Date>, account: Account, now: int)
      modifies this`activeUntil, this`dateObservedAt
      ensures View() == Dated(old(View()), previous, live, account, now)
      ensures DatedTo(old(View()), View(), previous, live, account.updatedAt, now)
    {
      DatedExact(View(), previous, live, account, now);
      hide DatedTo;
      if live.Some? {
        activeUntil, dateObservedAt := live, Some(now);
      } else if previous.Some? && previous.value.activeUntil.Some? {
        var at := Time(previous.value.dateObservedAt);
        var age := now - at;
        if at > 0 && age >= 0 && age < DETAILS_TTL && at >= account.updatedAt {
          activeUntil, dateObservedAt := previous.value.activeUntil, Some(at);
        }
      }
    }

    method EnrichCredits(previous: Option<Values>, resets: Option<Summary>, now: int)
      modifies this`credits, this`creditsObservedAt, this`count, this`applicable, this`failed
      ensures View() == Credited(old(View()), previous, resets, now)
      ensures CreditedTo(old(View()), View(), previous, resets, now)
    {
      CreditedExact(View(), previous, resets, now);
      hide CreditedTo;
      if resets.Some? {
        credits, creditsObservedAt := resets.value.credits, Some(now);
        if resets.value.count.Some? {
          count := resets.value.count;
        } else if |credits| > 0 {
          count := Some(|credits| as real);
        }
        if applicable.None? {
          applicable := resets.value.applicable;
        }
      } else {
        failed := true;
        var at := if previous.Some? then Time(previous.value.creditsObservedAt) else 0;
        var age := now - at;
        if previous.Some? && at > 0 && age >= 0 && age < DETAILS_TTL && (count.None? || count.value > 0.0) {
          var kept := Unexpired(previous.value.credits, now);
          credits, creditsObservedAt := kept, Some(at);
          if count.None? && |kept| > 0 {
            count := Some(|kept| as real);
          }
        } else {
          credits := [];
        }
      }
    }

    method Enrich(previous: Option<Values>, live: Option<Date>, resets: Option<Summary>, account: Account, now: int)
      modifies this
      ensures View() == Enriched(old(View()), previous, live, resets, account, now)
      ensures binding == Some(account.binding)
      ensures exists dated, credited: Values ::
        && DatedTo(old(View()), dated, previous, live, account.updatedAt, now) && CreditedTo(dated, credited, previous, resets, now)
        && View() == credited.(applicable := if credited.applicable.Some? then credited.applicable else credited.count,
                               binding := Some(account.binding))
    {
      hide Dated, Credited, DatedTo, CreditedTo;
      EnrichDate(previous, live, account, now);
      ghost var dated := View();
      EnrichCredits(previous, resets, now);
      ghost var credited := View();
      assert CreditedTo(dated, credited, previous, resets, now);
      if applicable.None? {
        applicable := count;
      }
      binding := Some(account.binding);
    }
  }

  /** The loop over the cached credits. */
  method Unexpired(items: seq<Credit>, now: int) returns (kept: seq<Credit>)
    ensures kept == Kept(items, now)
  {
    kept := [];
    for i := 0 to |items|
      invariant kept == Kept(items[..i], now)
    {
      assert items[..i + 1][..i] == items[..i];
      if Usable(items[i], now) {
        kept := kept + [items[i]];
      }
    }
    assert items[..|items|] == items;
  }

  // ----- Runs -----

  /** Something observed live: at what time and with which credential, None for the management page. */
  datatype Seen<T> = Seen(what: T, at: int, who: Option<Binding>)

  datatype World = World(account: Account, entries: seq<Entry>, dates: set<Seen<Date>>, credits: set<Seen<Credit>>)

  /** `claim` is the date in the credential's own claims. */
  datatype Probe = Probe(claim: Option<Date>, count: Option<real>, applicable: Option<real>, live: Option<Date>, resets: Option<Summary>)

  datatype Action =
    | Inspect(probe: Probe, now: int, stored: bool)
    | PageWrite(values: Values, at: int)
    | Replace(account: Account)
    | Forget

  /** The page writes what it observed itself, without the fields only inspections know. */
  predicate Enabled(a: Action) {
    a.PageWrite? ==> a.values.binding.None? && a.values.dateObservedAt.None? && a.values.creditsObservedAt.None?
  }

  function Blank(p: Probe): Values {
    Values(p.claim, None, [], None, p.count, p.applicable, false, None)
  }

  function Inspected(w: World, p: Probe, now: int): Values {
    Enriched(Blank(p), Cached(w.account, w.entries), p.live, p.resets, w.account, now)
  }

  function Step(w: World, a: Action): World {
    match a
    case Inspect(p, now, stored) =>
      World(w.account,
            if stored then [Entry(w.account.index, true, Inspected(w, p, now), now)] else w.entries,
            w.dates + (if p.live.Some? then {Seen(p.live.value, now, Some(w.account.binding))} else {}),
            w.credits + (if p.resets.Some? then set c | c in p.resets.value.credits :: Seen(c, now, Some(w.account.binding)) else {}))
    case PageWrite(v, at) =>
      World(w.account, [Entry(NO_INDEX, true, v, at)],
            w.dates + (if v.activeUntil.Some? then {Seen(v.activeUntil.value, at, None)} else {}),
            w.credits + set c | c in v.credits :: Seen(c, at, None))
    case Replace(account) => w.(account := account)
    case Forget => w.(entries := [])
  }

  function Run(account: Account, actions: seq<Action>): World {
    if actions == [] then World(account, [], {}, {})
    else
      var w, a := Run(account, actions[..|actions| - 1]), actions[|actions| - 1];
      if Enabled(a) then Step(w, a) else w
  }

  /** Observed live at that time, with this credential or on the page. */
  predicate Witnessed<T(==)>(seen: set<Seen<T>>, what: T, at: int, who: Binding) {
    Seen(what, at, Some(who)) in seen || Seen(what, at, None) in seen
  }

  predicate EntrySound(w: World, e: Entry) {
    var v := e.values;
    if v.binding.Some? then
      && (v.activeUntil.Some? && v.dateObservedAt.Some? ==>
            Witnessed(w.dates, v.activeUntil.value, v.dateObservedAt.value, v.binding.value))
      && (v.creditsObservedAt.None? ==> v.credits == [])
      && (v.creditsObservedAt.Some? ==>
            forall c :: c in v.credits ==> Witnessed(w.credits, c, v.creditsObservedAt.value, v.binding.value))
    else
      && v.dateObservedAt.None? && v.creditsObservedAt.None?
      && (v.activeUntil.Some? ==> Seen(v.activeUntil.value, e.observedAt, None) in w.dates)
      && (forall c :: c in v.credits ==> Seen(c, e.observedAt, None) in w.credits)
  }

  predicate Inv(w: World) {
    forall i :: 0 <= i < |w.entries| ==> EntrySound(w, w.entries[i])
  }

  lemma {:induction false} KeptOf(credits: seq<Credit>, now: int)
    ensures forall c :: c in Kept(credits, now) <==> c in credits && Usable(c, now)
  {
    if credits != [] {
      KeptOf(credits[..|credits| - 1], now);
      assert credits == credits[..|credits| - 1] + [credits[|credits| - 1]];
    }
  }

  /** What an inspection may build on was observed at the time it carries. */
  lemma CachedIsWitnessed(w: World)
    requires Inv(w) && Cached(w.account, w.entries).Some?
    ensures var v := Cached(w.account, w.entries).value;
      && (v.activeUntil.Some? && v.dateObservedAt.Some? ==>
            Witnessed(w.dates, v.activeUntil.value, v.dateObservedAt.value, w.account.binding))
      && v.creditsObservedAt.Some?
      && (forall c :: c in v.credits ==> Witnessed(w.credits, c, v.creditsObservedAt.value, w.account.binding))
  {
    assert EntrySound(w, w.entries[0]);
  }

  lemma InspectionStays(w: World, p: Probe, now: int)
    requires Inv(w)
    ensures EntrySound(Step(w, Inspect(p, now, true)), Entry(w.account.index, true, Inspected(w, p, now), now))
  {
    var previous := Cached(w.account, w.entries);
    if previous.Some? {
      CachedIsWitnessed(w);
      KeptOf(previous.value.credits, now);
    }
    hide Cached, Kept, Inv;
  }

  lemma StepStays(w: World, a: Action)
    requires Inv(w) && Enabled(a)
    ensures Inv(Step(w, a))
  {
    if a.Inspect? {
      InspectionStays(w, a.probe, a.now);
    }
    forall e | EntrySound(w, e) ensures EntrySound(Step(w, a), e) {
    }
    hide EntrySound, Inspected;
  }

  lemma {:induction false} RunStays(account: Account, actions: seq<Action>)
    ensures Inv(Run(account, actions))
  {
    if actions != [] {
      RunStays(account, actions[..|actions| - 1]);
      if Enabled(actions[|actions| - 1]) {
        StepStays(Run(account, actions[..|actions| - 1]), actions[|actions| - 1]);
      }
    }
  }

  /** At any point of any run, what the next inspection shows has been observed live less than a
      quarter of an hour before, at the very time it carries: a date with an observation time, and
      every credit. A date without one is the credential's own claim. */
  lemma {:induction false} ShownIsRecent(account: Account, actions: seq<Action>, p: Probe, now: int)
    ensures var w := Step(Run(account, actions), Inspect(p, now, true)); var v := w.entries[0].values;
      && (v.activeUntil.Some? && v.dateObservedAt.Some? ==>
            0 <= now - v.dateObservedAt.value < 15 * 60 * 1000
            && Witnessed(w.dates, v.activeUntil.value, v.dateObservedAt.value, w.account.binding))
      && (v.dateObservedAt.None? ==> v.activeUntil == p.claim)
      && (forall c :: c in v.credits ==>
            && v.creditsObservedAt.Some? && 0 <= now - v.creditsObservedAt.value < 15 * 60 * 1000
            && Witnessed(w.credits, c, v.creditsObservedAt.value, w.account.binding)
            && (p.resets.None? ==> c.available && c.expires.Some? && c.expires.value > now))
  {
    RunStays(account, actions);
    var w := Run(account, actions);
    InspectionStays(w, p, now);
    var previous := Cached(w.account, w.entries);
    if previous.Some? {
      KeptOf(previous.value.credits, now);
    }
    hide Run, Cached, Kept, Inv;
  }

  // ----- A row of failures -----

  /** Inspections whose requests for credits fail, each at its time and with the count it learned. */
  function Failures(w: World, times: seq<int>, counts: seq<Option<real>>): World
    requires |times| == |counts|
  {
    if times == [] then w
    else
      var n := |times| - 1;
      Step(Failures(w, times[..n], counts[..n]), Inspect(Probe(None, counts[n], None, None, None), times[n], true))
  }

  /** The age limit held, and the count did not rule credits out, at each of these times. */
  predicate Lasting(at: int, times: seq<int>, counts: seq<Option<real>>)
    requires |times| == |counts|
  {
    forall i :: 0 <= i < |times| ==>
      at <= times[i] < at + 15 * 60 * 1000 && (counts[i].None? || counts[i].value > 0.0)
  }

  predicate UsableThroughout(c: Credit, times: seq<int>) {
    forall i :: 0 <= i < |times| ==> c.available && c.expires.Some? && times[i] < c.expires.value
  }

  /** The credits of one live answer and any number of failures later: those that were usable all the
      time, as long as the answer is young, and none from the first time on that it is not. */
  lemma {:induction false} FailuresOnlyShrink(w: World, resets: Summary, at: int, times: seq<int>, counts: seq<Option<real>>)
    requires at > 0 && |times| == |counts|
    ensures var start := Step(w, Inspect(Probe(None, None, None, None, Some(resets)), at, true));
      var end := Failures(start, times, counts);
      && end.account == w.account && |end.entries| == 1
      && (forall c :: c in end.entries[0].values.credits <==>
            c in resets.credits && Lasting(at, times, counts) && UsableThroughout(c, times))
  {
    FailuresFollow(w, resets, at, times, counts);
  }

  predicate Ready(w: World) {
    && |w.entries| == 1 && w.entries[0].success
    && w.entries[0].index == w.account.index && w.entries[0].values.binding == Some(w.account.binding)
  }

  function Failure(count: Option<real>): Probe {
    Probe(None, count, None, None, None)
  }

  lemma OneFailure(w: World, count: Option<real>, now: int, at: Option<int>)
    requires Ready(w) && (at.Some? ==> w.entries[0].values.creditsObservedAt == at)
    ensures var v := Step(w, Inspect(Failure(count), now, true));
      var lasts := at.Some? && Young(at.value, now) && (count.None? || count.value > 0.0);
      && Ready(v) && v.account == w.account
      && (forall c :: c in v.entries[0].values.credits ==> c in w.entries[0].values.credits)
      && (lasts ==> v.entries[0].values.creditsObservedAt == at)
      && (at.Some? ==> forall c :: c in v.entries[0].values.credits <==>
            c in w.entries[0].values.credits && lasts && Usable(c, now))
  {
    KeptOf(w.entries[0].values.credits, now);
    hide Kept;
  }

  /** The state after the failures, as the next inspection finds it. */
  ghost predicate After(account: Account, resets: Summary, at: int, times: seq<int>, counts: seq<Option<real>>, w: World)
    requires |times| == |counts|
  {
    && w.account == account && Ready(w)
    && (Lasting(at, times, counts) ==> w.entries[0].values.creditsObservedAt == Some(at))
    && (forall c :: c in w.entries[0].values.credits <==>
          c in resets.credits && Lasting(at, times, counts) && UsableThroughout(c, times))
  }

  lemma LastingMore(at: int, times: seq<int>, counts: seq<Option<real>>)
    requires |times| == |counts| > 0 && at > 0
    ensures var n := |times| - 1;
      && (Lasting(at, times, counts) <==>
            Lasting(at, times[..n], counts[..n]) && Young(at, times[n]) && (counts[n].None? || counts[n].value > 0.0))
      && (forall c :: UsableThroughout(c, times) <==> UsableThroughout(c, times[..n]) && Usable(c, times[n]))
  {
    var n := |times| - 1;
    assert forall i :: 0 <= i < n ==> times[..n][i] == times[i] && counts[..n][i] == counts[i];
  }

  lemma OneMore(account: Account, resets: Summary, at: int, times: seq<int>, counts: seq<Option<real>>, before: World)
    requires at > 0 && |times| == |counts| > 0 && After(account, resets, at, times[..|times| - 1], counts[..|times| - 1], before)
    ensures var n := |times| - 1;
      After(account, resets, at, times, counts, Step(before, Inspect(Failure(counts[n]), times[n], true)))
  {
    var n := |times| - 1;
    OneFailure(before, counts[n], times[n], if Lasting(at, times[..n], counts[..n]) then Some(at) else None);
    LastingMore(at, times, counts);
    hide Step, Ready, Lasting, UsableThroughout, Young, Usable;
  }

  lemma {:induction false} FailuresFollow(w: World, resets: Summary, at: int, times: seq<int>, counts: seq<Option<real>>)
    requires at > 0 && |times| == |counts|
    ensures After(w.account, resets, at, times, counts,
                  Failures(Step(w, Inspect(Probe(None, None, None, None, Some(resets)), at, true)), times, counts))
  {
    if times != [] {
      var n := |times| - 1;
      FailuresFollow(w, resets, at, times[..n], counts[..n]);
      hide After, Step;
      OneMore(w.account, resets, at, times, counts,
              Failures(Step(w, Inspect(Probe(None, None, None, None, Some(resets)), at, true)), times[..n], counts[..n]));
    }
  }

  // ----- The same for the date -----

  /** Inspections without a live date, each with the date its credential claims. */
  function Dateless(w: World, times: seq<int>, claims: seq<Option<Date>>): World
    requires |times| == |claims|
  {
    if times == [] then w
    else
      var n := |times| - 1;
      Step(Dateless(w, times[..n], claims[..n]), Inspect(Probe(claims[n], None, None, None, None), times[n], true))
  }

  predicate AllWithin(at: int, times: seq<int>) {
    forall i :: 0 <= i < |times| ==> at <= times[i] < at + 15 * 60 * 1000
  }

  /** What is stored after a live date and these inspections: the date with its own time as long as it was
      young at each of them and is not older than the credential, else what the credential claims. */
  ghost predicate DateAfter(account: Account, date: Date, at: int, times: seq<int>, claims: seq<Option<Date>>, w: World)
    requires |times| == |claims|
  {
    && w.account == account && Ready(w)
    && var v := w.entries[0].values;
       if times == [] || (AllWithin(at, times) && at >= account.updatedAt)
       then v.activeUntil == Some(date) && v.dateObservedAt == Some(at)
       else v.dateObservedAt == None && v.activeUntil == claims[|claims| - 1]
  }

  lemma {:induction false} DateLastsAQuarterHour(w: World, date: Date, at: int, times: seq<int>, claims: seq<Option<Date>>)
    requires at > 0 && |times| == |claims|
    ensures DateAfter(w.account, date, at, times, claims,
                      Dateless(Step(w, Inspect(Probe(None, None, None, Some(date), None), at, true)), times, claims))
  {
    if times != [] {
      var n := |times| - 1;
      DateLastsAQuarterHour(w, date, at, times[..n], claims[..n]);
      var before := Dateless(Step(w, Inspect(Probe(None, None, None, Some(date), None), at, true)), times[..n], claims[..n]);
      hide Step;
      OneDateless(before, date, at, times, claims);
    }
  }

  lemma OneDateless(before: World, date: Date, at: int, times: seq<int>, claims: seq<Option<Date>>)
    requires at > 0 && |times| == |claims| > 0
    requires DateAfter(before.account, date, at, times[..|times| - 1], claims[..|times| - 1], before)
    ensures var n := |times| - 1;
      DateAfter(before.account, date, at, times, claims, Step(before, Inspect(Probe(claims[n], None, None, None, None), times[n], true)))
  {
    var n := |times| - 1;
    assert forall i :: 0 <= i < n ==> times[..n][i] == times[i];
    assert AllWithin(at, times) <==> AllWithin(at, times[..n]) && at <= times[n] < at + 15 * 60 * 1000;
    hide Kept, AllWithin;
  }

  // ----- Another credential -----

  lemma Grown(account: Account, actions: seq<Action>, a: Action)
    ensures Run(account, actions + [a]) == if Enabled(a) then Step(Run(account, actions), a) else Run(account, actions)
  {
    assert (actions + [a])[..|actions|] == actions;
  }

  /** After any run, what one inspection stored is not inherited by an inspection with another credential,
      nor after the cache was emptied: without live details it shows its own claim and no credits. */
  lemma {:induction false} NothingIsPassedOn(
    account: Account, actions: seq<Action>, first: Probe, at: int, other: Account, second: Probe, now: int)
    requires second.live.None? && second.resets.None?
    ensures var w := Run(account, actions);
      var stored := actions + [Inspect(first, at, true)];
      var replaced := Run(account, stored + [Replace(other)] + [Inspect(second, now, true)]);
      var emptied := Run(account, stored + [Forget] + [Inspect(second, now, true)]);
      && replaced.account == other && emptied.account == w.account
      && |replaced.entries| == |emptied.entries| == 1
      && (other.binding != w.account.binding ==> WithoutDetails(replaced.entries[0].values, second, other))
      && WithoutDetails(emptied.entries[0].values, second, w.account)
  {
    var stored := actions + [Inspect(first, at, true)];
    Grown(account, actions, Inspect(first, at, true));
    Grown(account, stored, Replace(other));
    Grown(account, stored + [Replace(other)], Inspect(second, now, true));
    Grown(account, stored, Forget);
    Grown(account, stored + [Forget], Inspect(second, now, true));
    hide Run;
  }

  ghost predicate WithoutDetails(v: Values, p: Probe, account: Account) {
    v == Values(p.claim, None, [], None, p.count, if p.applicable.None? then p.count else p.applicable, true, Some(account.binding))
  }
}
