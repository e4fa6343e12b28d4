/** The bounded queue between usage recording and its database writer: a slice with a head
    offset that is compacted now and then, against a plain first-in-first-out sequence. */
module PersistenceQueue {
  const DEFAULT_RETENTION_SECONDS := 3600
  const NANOS_PER_SECOND := 1_000_000_000
  const NANOS_PER_MILLI := 1_000_000
  const COMPACT_AT := 1024

  /** Times are in nanoseconds. */
  datatype Entry = Entry(enqueuedAt: int, payload: seq<bv8>)

  /** Limits of zero or less are no limits, except for the retention, which falls back to its default. */
  datatype Config = Config(retentionSeconds: int, maxItems: int, maxBytes: int) {
    function Cutoff(now: int): int {
      now - (if retentionSeconds <= 0 then DEFAULT_RETENTION_SECONDS else retentionSeconds) * NANOS_PER_SECOND
    }

    predicate Exceeded(q: seq<Entry>) {
      (maxItems > 0 && |q| > maxItems) || (maxBytes > 0 && Total(q) > maxBytes)
    }
  }

  function Total(q: seq<Entry>): nat {
    if q == [] then 0 else |q[0].payload| + Total(q[1..])
  }

  lemma {:induction false} TotalSplit(q: seq<Entry>, k: nat)
    requires k <= |q|
    ensures Total(q) == Total(q[..k]) + Total(q[k..])
  {
    if k > 0 {
      TotalSplit(q[1..], k - 1);
      assert q[..k][1..] == q[1..][..k - 1];
      assert q[1..][k - 1..] == q[k..];
    } else {
      assert q[..0] == [] && q[0..] == q;
    }
  }

  lemma TotalGrown(q: seq<Entry>, e: Entry)
    ensures Total(q + [e]) == Total(q) + |e.payload|
  {
    TotalSplit(q + [e], |q|);
    assert (q + [e])[..|q|] == q && (q + [e])[|q|..] == [e];
  }

  // ----- The plain queue -----

  ghost predicate Suffix(r: seq<Entry>, q: seq<Entry>) {
    |r| <= |q| && r == q[|q| - |r|..]
  }

  /** Entries leave from the front while they are older than the cutoff. */
  function Fresh(q: seq<Entry>, cutoff: int): (r: seq<Entry>)
    ensures |r| <= |q|
  {
    if q == [] || q[0].enqueuedAt >= cutoff then q else Fresh(q[1..], cutoff)
  }

  /** Entries leave from the front while the queue exceeds a limit. */
  function Fitted(q: seq<Entry>, c: Config): (r: seq<Entry>)
    ensures |r| <= |q|
  {
    if q == [] || !c.Exceeded(q) then q else Fitted(q[1..], c)
  }

  lemma {:induction false} FreshSuffix(q: seq<Entry>, cutoff: int)
    ensures Suffix(Fresh(q, cutoff), q)
  {
    if q != [] && q[0].enqueuedAt < cutoff {
      FreshSuffix(q[1..], cutoff);
    }
  }

  lemma {:induction false} FittedSuffix(q: seq<Entry>, c: Config)
    ensures Suffix(Fitted(q, c), q)
  {
    if q != [] && c.Exceeded(q) {
      FittedSuffix(q[1..], c);
    }
  }

  lemma FrontStep(q: seq<Entry>, k: nat, cutoff: int, c: Config)
    requires k <= |q|
    ensures Total(q[k..]) == if k == |q| then 0 else |q[k].payload| + Total(q[k + 1..])
    ensures Fresh(q[k..], cutoff) == if k == |q| || q[k].enqueuedAt >= cutoff then q[k..] else Fresh(q[k + 1..], cutoff)
    ensures Fitted(q[k..], c) == if k == |q| || !c.Exceeded(q[k..]) then q[k..] else Fitted(q[k + 1..], c)
  {
    if k < |q| {
      assert q[k..][1..] == q[k + 1..];
    }
  }

  lemma {:induction false} FittedWithin(q: seq<Entry>, c: Config)
    ensures c.maxItems > 0 ==> |Fitted(q, c)| <= c.maxItems
    ensures c.maxBytes > 0 ==> Total(Fitted(q, c)) <= c.maxBytes
  {
    if q != [] && c.Exceeded(q) {
      FittedWithin(q[1..], c);
    }
  }

  function Younger(q: seq<Entry>, cutoff: int): seq<Entry> {
    if q == [] then []
    else (if q[0].enqueuedAt >= cutoff then [q[0]] else []) + Younger(q[1..], cutoff)
  }

  /** No old entry stands behind a young one. */
  predicate Sorted(q: seq<Entry>, cutoff: int) {
    forall i, j :: 0 <= i < j < |q| ==> q[i].enqueuedAt >= cutoff ==> q[j].enqueuedAt >= cutoff
  }

  lemma SortedHead(q: seq<Entry>, cutoff: int)
    requires q != [] && q[0].enqueuedAt >= cutoff
    ensures Sorted(q, cutoff) <==> forall e :: e in q ==> e.enqueuedAt >= cutoff
  {
    if Sorted(q, cutoff) {
      forall e | e in q ensures e.enqueuedAt >= cutoff {
        var j :| 0 <= j < |q| && q[j] == e;
      }
    }
  }

  lemma SortedTail(q: seq<Entry>, cutoff: int)
    requires q != [] && q[0].enqueuedAt < cutoff
    ensures Sorted(q, cutoff) <==> Sorted(q[1..], cutoff)
  {
    var r := q[1..];
    assert forall j :: 1 <= j < |q| ==> q[j] == r[j - 1];
    if Sorted(r, cutoff) {
      forall i, j | 0 <= i < j < |q| && q[i].enqueuedAt >= cutoff ensures q[j].enqueuedAt >= cutoff {
        assert r[i - 1].enqueuedAt >= cutoff ==> r[j - 1].enqueuedAt >= cutoff;
      }
    }
  }

  /** Leaving from the front is filtering by age exactly if no old entry stands behind a young one. */
  lemma {:induction false} FreshIsYounger(q: seq<Entry>, cutoff: int)
    ensures Fresh(q, cutoff) == Younger(q, cutoff) <==> Sorted(q, cutoff)
  {
    if q != [] {
      if q[0].enqueuedAt >= cutoff {
        AllYounger(q, cutoff);
        SortedHead(q, cutoff);
      } else {
        FreshIsYounger(q[1..], cutoff);
        SortedTail(q, cutoff);
      }
      hide Sorted;
    }
  }

  lemma {:induction false} AllYounger(q: seq<Entry>, cutoff: int)
    ensures Younger(q, cutoff) == q <==> forall e :: e in q ==> e.enqueuedAt >= cutoff
    ensures |Younger(q, cutoff)| <= |q|
  {
    if q != [] {
      AllYounger(q[1..], cutoff);
      assert forall e :: e in q <==> e == q[0] || e in q[1..];
    }
  }

  /** A young entry never leaves, whatever the order. */
  lemma {:induction false} YoungStay(q: seq<Entry>, cutoff: int)
    ensures Younger(Fresh(q, cutoff), cutoff) == Younger(q, cutoff)
  {
    if q != [] && q[0].enqueuedAt < cutoff {
      YoungStay(q[1..], cutoff);
    }
  }

  /** Eviction never removes more than it must: every longer suffix exceeds a limit that is in force. */
  lemma {:induction false} FittedIsLongest(q: seq<Entry>, c: Config, k: nat)
    requires k < |q| - |Fitted(q, c)|
    ensures (c.maxItems > 0 && |q| - k > c.maxItems) || (c.maxBytes > 0 && Total(q[k..]) > c.maxBytes)
  {
    if k > 0 {
      FittedIsLongest(q[1..], c, k - 1);
      assert q[1..][k - 1..] == q[k..];
    } else {
      assert q[0..] == q;
    }
  }

  function Positions(from: int, n: nat): seq<int> {
    seq(n, i => from + i)
  }

  /** The plain queue with its history since the last clear: everything that arrived, the arrival
      positions that were handed out, the number of entries dropped, and the payloads that callers got. */
  datatype Fifo = Fifo(live: seq<Entry>, arrivals: seq<Entry>, popped: seq<int>, dropped: nat, handed: seq<seq<bv8>>) {
    ghost predicate Sound() {
      && |arrivals| == |popped| + dropped + |live|
      && Suffix(live, arrivals)
      && Matches(arrivals, popped, handed)
      && (forall i :: 0 <= i < |popped| ==> 0 <= popped[i] < |arrivals| - |live|)
      && (forall i, j :: 0 <= i < j < |popped| ==> popped[i] < popped[j])
    }

    function Prune(now: int, c: Config): Fifo {
      var kept := Fresh(live, c.Cutoff(now));
      this.(live := kept, dropped := dropped + |live| - |kept|)
    }

    function Evict(c: Config): Fifo {
      var kept := Fitted(live, c);
      this.(live := kept, dropped := dropped + |live| - |kept|)
    }

    function Enqueue(payload: seq<bv8>, now: int, c: Config): Fifo {
      var p := Prune(now, c);
      p.(live := p.live + [Entry(now, payload)], arrivals := arrivals + [Entry(now, payload)]).Evict(c)
    }

    function Pop(count: nat, now: int, c: Config): Fifo {
      var p := Prune(now, c);
      p.Take(if count < |p.live| then count else |p.live|)
    }

    function Take(n: nat): Fifo
      requires n <= |live|
    {
      this.(live := live[n..], popped := popped + Positions(|arrivals| - |live|, n), handed := handed + Payloads(live, n))
    }
  }

  function Empty(): Fifo {
    Fifo([], [], [], 0, [])
  }

  datatype Command = Enqueue(payload: seq<bv8>) | Pop(count: nat) | Stats | Clear

  /** A command with its time and the configuration it reads. */
  datatype Event = Event(command: Command, now: int, config: Config)

  function Apply(f: Fifo, e: Event): Fifo {
    match e.command
    case Enqueue(payload) => f.Enqueue(payload, e.now, e.config)
    case Pop(count) => f.Pop(count, e.now, e.config)
    case Stats => f.Prune(e.now, e.config)
    case Clear => Empty()
  }

  function Run(events: seq<Event>): Fifo {
    if events == [] then Empty() else Apply(Run(events[..|events| - 1]), events[|events| - 1])
  }

  lemma SuffixOfSuffix(r: seq<Entry>, q: seq<Entry>, all: seq<Entry>)
    requires Suffix(r, q) && Suffix(q, all)
    ensures Suffix(r, all)
  {
    assert r == all[|all| - |q|..][|q| - |r|..];
  }

  lemma SuffixGrown(r: seq<Entry>, q: seq<Entry>, e: Entry)
    requires Suffix(r, q)
    ensures Suffix(r + [e], q + [e])
  {
    assert r + [e] == (q + [e])[|q| - |r|..];
  }

  lemma PruneSound(f: Fifo, now: int, c: Config)
    requires f.Sound()
    ensures f.Prune(now, c).Sound()
  {
    FreshSuffix(f.live, c.Cutoff(now));
    SuffixOfSuffix(Fresh(f.live, c.Cutoff(now)), f.live, f.arrivals);
    hide Suffix, Fresh;
  }

  lemma EvictSound(f: Fifo, c: Config)
    requires f.Sound()
    ensures f.Evict(c).Sound()
  {
    FittedSuffix(f.live, c);
    SuffixOfSuffix(Fitted(f.live, c), f.live, f.arrivals);
    hide Suffix, Fitted;
  }

  lemma EnqueueSound(f: Fifo, payload: seq<bv8>, now: int, c: Config)
    requires f.Sound()
    ensures f.Enqueue(payload, now, c).Sound()
  {
    PruneSound(f, now, c);
    var p, e := f.Prune(now, c), Entry(now, payload);
    SuffixGrown(p.live, p.arrivals, e);
    EvictSound(p.(live := p.live + [e], arrivals := p.arrivals + [e]), c);
    hide Suffix, Fresh, Fitted;
  }

  lemma SuffixShortened(r: seq<Entry>, q: seq<Entry>, n: nat)
    requires Suffix(r, q) && n <= |r|
    ensures Suffix(r[n..], q)
  {
    assert r[n..] == q[|q| - |r[n..]|..];
  }

  /** Each payload on record is that of the arrival on record. */
  ghost predicate Matches(arrivals: seq<Entry>, popped: seq<int>, handed: seq<seq<bv8>>) {
    |handed| == |popped| && forall i :: 0 <= i < |popped| ==> 0 <= popped[i] < |arrivals| && handed[i] == arrivals[popped[i]].payload
  }

  lemma MatchesMore(arrivals: seq<Entry>, popped: seq<int>, handed: seq<seq<bv8>>, more: seq<int>, out: seq<seq<bv8>>)
    requires Matches(arrivals, popped, handed) && Matches(arrivals, more, out)
    ensures Matches(arrivals, popped + more, handed + out)
  {
    forall i | 0 <= i < |popped + more|
      ensures 0 <= (popped + more)[i] < |arrivals| && (handed + out)[i] == arrivals[(popped + more)[i]].payload
    {
      if i < |popped| {
        assert (popped + more)[i] == popped[i];
      } else {
        assert (popped + more)[i] == more[i - |popped|];
      }
    }
  }

  lemma TakenMatch(f: Fifo, n: nat)
    requires f.Sound() && n <= |f.live|
    ensures Matches(f.arrivals, Positions(|f.arrivals| - |f.live|, n), Payloads(f.live, n))
  {
    LiveAt(f);
    hide Suffix;
  }

  lemma TakeSound(f: Fifo, n: nat)
    requires f.Sound() && n <= |f.live|
    ensures f.Take(n).Sound()
  {
    SuffixShortened(f.live, f.arrivals, n);
    TakenMatch(f, n);
    TakePositions(f, n);
    MatchesMore(f.arrivals, f.popped, f.handed, Positions(|f.arrivals| - |f.live|, n), Payloads(f.live, n));
    hide Suffix, Payloads, Positions, Matches;
  }

  lemma TakePositions(f: Fifo, n: nat)
    requires f.Sound() && n <= |f.live|
    ensures var t := f.Take(n);
      && |t.popped| == |f.popped| + n
      && (forall i :: |f.popped| <= i < |t.popped| ==> t.popped[i] == |f.arrivals| - |f.live| + i - |f.popped|)
      && (forall i, j :: 0 <= i < j < |t.popped| ==> t.popped[i] < t.popped[j])
  {
    hide Suffix, Payloads;
  }

  /** As many entries leave the front as payloads are handed out, and these are theirs, the payloads of
      the arrivals at the positions on record. */
  ghost predicate HandsOut(before: Fifo, after: Fifo, out: seq<seq<bv8>>) {
    && |out| <= |before.live| && after.live == before.live[|out|..]
    && after.arrivals == before.arrivals && after.dropped == before.dropped && after.handed == before.handed + out
    && |after.popped| == |before.popped| + |out| && after.popped[..|before.popped|] == before.popped
    && forall i :: 0 <= i < |out| ==>
         && out[i] == before.live[i].payload
         && 0 <= after.popped[|before.popped| + i] < |after.arrivals|
         && out[i] == after.arrivals[after.popped[|before.popped| + i]].payload
  }

  lemma TakeExact(f: Fifo, n: nat)
    requires f.Sound() && n <= |f.live|
    ensures HandsOut(f, f.Take(n), Payloads(f.live, n))
  {
    LiveAt(f);
    hide Suffix;
  }

  lemma DropSound(f: Fifo)
    requires f.Sound() && f.live != []
    ensures f.(live := f.live[1..], dropped := f.dropped + 1).Sound()
  {
    SuffixShortened(f.live, f.arrivals, 1);
    hide Suffix;
  }

  lemma AppendSound(f: Fifo, e: Entry)
    requires f.Sound()
    ensures f.(live := f.live + [e], arrivals := f.arrivals + [e]).Sound()
  {
    SuffixGrown(f.live, f.arrivals, e);
    hide Suffix;
  }

  lemma PopSound(f: Fifo, count: nat, now: int, c: Config)
    requires f.Sound()
    ensures f.Pop(count, now, c).Sound()
  {
    PruneSound(f, now, c);
    var p := f.Prune(now, c);
    TakeSound(p, if count < |p.live| then count else |p.live|);
  }

  lemma LiveAt(f: Fifo)
    requires f.Sound()
    ensures forall i :: 0 <= i < |f.live| ==> f.live[i] == f.arrivals[|f.arrivals| - |f.live| + i]
  {
  }

  function Payloads(q: seq<Entry>, n: nat): (r: seq<seq<bv8>>)
    requires n <= |q|
    ensures |r| == n
  {
    seq(n, i requires 0 <= i < n => q[i].payload)
  }

  lemma PayloadsMore(q: seq<Entry>, n: nat)
    requires n <= |q|
    ensures Payloads(q, 0) == []
    ensures n < |q| ==> Payloads(q, n + 1) == Payloads(q, n) + [q[n].payload]
  {
  }

  lemma NothingTaken(f: Fifo)
    ensures f.Take(0) == f && Payloads(f.live, 0) == []
  {
  }

  /** What a pop hands out are the arrivals at the positions it records. */
  lemma PopHandsOutArrivals(f: Fifo, count: nat, now: int, c: Config, i: nat)
    requires f.Sound() && i < |f.Pop(count, now, c).popped| - |f.popped|
    ensures var live, position := f.Prune(now, c).live, f.Pop(count, now, c).popped[|f.popped| + i];
      0 <= position < |f.arrivals| && i < |live| && Payloads(live, |live|)[i] == f.arrivals[position].payload
  {
    PruneSound(f, now, c);
    LiveAt(f.Prune(now, c));
  }

  lemma ApplySound(f: Fifo, e: Event)
    requires f.Sound()
    ensures Apply(f, e).Sound()
  {
    match e.command
    case Enqueue(payload) => EnqueueSound(f, payload, e.now, e.config);
    case Pop(count) => PopSound(f, count, e.now, e.config);
    case Stats => PruneSound(f, e.now, e.config);
    case Clear =>
  }

  /** Conservation over every run, with any clock and any change of configuration: what arrived since
      the last clear was handed out once and in order, or dropped, or is still there; what left is a
      prefix of what arrived. The payloads that were returned are those of the arrivals handed out. */
  lemma {:induction false} NothingLostOrRepeated(events: seq<Event>)
    ensures Run(events).Sound()
    ensures var f := Run(events);
      |f.handed| == |f.popped| && forall i :: 0 <= i < |f.popped| ==>
        0 <= f.popped[i] < |f.arrivals| && f.handed[i] == f.arrivals[f.popped[i]].payload
  {
    if events != [] {
      NothingLostOrRepeated(events[..|events| - 1]);
      ApplySound(Run(events[..|events| - 1]), events[|events| - 1]);
    }
  }

  /** The highest clock reading so far. */
  function Latest(events: seq<Event>): int
    requires events != []
  {
    var front, last := events[..|events| - 1], events[|events| - 1];
    if front == [] || Latest(front) <= last.now then last.now else Latest(front)
  }

  /** A call reads the clock before it gets the lock, so calls can enter with readings out of order.
      Events are in the order of the lock; a reading is at most `lag` behind any before it. */
  predicate WithinLag(events: seq<Event>, lag: nat) {
    |events| > 1 ==>
      WithinLag(events[..|events| - 1], lag) && events[|events| - 1].now >= Latest(events[..|events| - 1]) - lag
  }

  /** No entry is much older than one before it, and none is from after `now`. */
  ghost predicate Lagging(q: seq<Entry>, lag: nat, now: int) {
    && (forall i, j :: 0 <= i < j < |q| ==> q[j].enqueuedAt >= q[i].enqueuedAt - lag)
    && (forall i :: 0 <= i < |q| ==> q[i].enqueuedAt <= now)
  }

  lemma SuffixLags(r: seq<Entry>, q: seq<Entry>, lag: nat, now: int)
    requires Suffix(r, q) && Lagging(q, lag, now)
    ensures Lagging(r, lag, now)
  {
    assert forall i :: 0 <= i < |r| ==> r[i] == q[|q| - |r| + i];
  }

  lemma GrownLags(q: seq<Entry>, e: Entry, lag: nat, before: int, now: int)
    requires Lagging(q, lag, before) && before <= now && before - lag <= e.enqueuedAt <= now
    ensures Lagging(q + [e], lag, now)
  {
  }

  lemma ApplyLags(f: Fifo, e: Event, lag: nat, before: int, now: int)
    requires Lagging(f.live, lag, before) && before <= now && before - lag <= e.now <= now
    ensures Lagging(Apply(f, e).live, lag, now)
  {
    hide Fresh, Fitted, Lagging, Suffix;
    var kept := Fresh(f.live, e.config.Cutoff(e.now));
    FreshSuffix(f.live, e.config.Cutoff(e.now));
    SuffixLags(kept, f.live, lag, before);
    LagsLonger(kept, lag, before, now);
    match e.command
    case Enqueue(payload) =>
      GrownLags(kept, Entry(e.now, payload), lag, before, now);
      FittedSuffix(kept + [Entry(e.now, payload)], e.config);
      SuffixLags(Fitted(kept + [Entry(e.now, payload)], e.config), kept + [Entry(e.now, payload)], lag, now);
    case Pop(count) =>
      var n := if count < |kept| then count else |kept|;
      TailIsSuffix(kept, n);
      SuffixLags(kept[n..], kept, lag, now);
    case Stats =>
    case Clear => NothingLags(lag, now);
  }

  lemma TailIsSuffix(q: seq<Entry>, n: nat)
    requires n <= |q|
    ensures Suffix(q[n..], q)
  {
  }

  lemma NothingLags(lag: nat, now: int)
    ensures Lagging([], lag, now)
  {
  }

  lemma LagsLonger(q: seq<Entry>, lag: nat, before: int, now: int)
    requires Lagging(q, lag, before) && before <= now
    ensures Lagging(q, lag, now)
  {
  }

  lemma {:induction false} LiveLags(events: seq<Event>, lag: nat)
    requires WithinLag(events, lag) && events != []
    ensures Lagging(Run(events).live, lag, Latest(events))
  {
    hide Apply, Lagging;
    var before, last := events[..|events| - 1], events[|events| - 1];
    if before == [] {
      NothingLags(lag, last.now);
      ApplyLags(Empty(), last, lag, last.now, last.now);
    } else {
      LiveLags(before, lag);
      ApplyLags(Run(before), last, lag, Latest(before), Latest(events));
    }
  }

  lemma {:induction false} FreshLags(q: seq<Entry>, lag: nat, now: int, cutoff: int)
    requires Lagging(q, lag, now)
    ensures forall e :: e in Fresh(q, cutoff) ==> e.enqueuedAt >= cutoff - lag
  {
    var kept := Fresh(q, cutoff);
    FreshSuffix(q, cutoff);
    SuffixLags(kept, q, lag, now);
    FreshHead(q, cutoff);
    hide Fresh;
    forall e | e in kept ensures e.enqueuedAt >= cutoff - lag {
      var i :| 0 <= i < |kept| && kept[i] == e;
      assert i > 0 ==> kept[i].enqueuedAt >= kept[0].enqueuedAt - lag;
    }
  }

  lemma {:induction false} FreshHead(q: seq<Entry>, cutoff: int)
    ensures Fresh(q, cutoff) != [] ==> Fresh(q, cutoff)[0].enqueuedAt >= cutoff
  {
    if q != [] && q[0].enqueuedAt < cutoff {
      FreshHead(q[1..], cutoff);
    }
  }

  /** Over every run, a prune at any time keeps all live entries that are young enough, and of the
      others only such as are too old by no more than the lag. Without lag it is a filter. */
  lemma {:induction false} PruneIsFilter(events: seq<Event>, lag: nat, now: int, c: Config)
    requires WithinLag(events, lag)
    ensures var live, kept := Run(events).live, Run(events).Prune(now, c).live;
      var cutoff := now - (if c.retentionSeconds <= 0 then 3600 else c.retentionSeconds) * 1_000_000_000;
      && Younger(kept, cutoff) == Younger(live, cutoff)
      && (forall e :: e in kept ==> e.enqueuedAt >= cutoff - lag)
      && (lag == 0 ==> kept == Younger(live, cutoff))
  {
    var live, cutoff := Run(events).live, c.Cutoff(now);
    if events != [] {
      LiveLags(events, lag);
      FreshLags(live, lag, Latest(events), cutoff);
    }
    hide Run, Latest, WithinLag;
    YoungStay(live, cutoff);
    AllYounger(Fresh(live, cutoff), cutoff);
  }

  /** Two calls that read the clock in one order and get the lock in the other: the entry of the earlier
      reading stays behind the later one when it is past retention. */
  lemma {:induction false} OvertakenEntryStays(payload: seq<bv8>, c: Config)
    requires c.retentionSeconds == 1 && !c.Exceeded([Entry(5, payload), Entry(3, payload)]) && !c.Exceeded([Entry(5, payload)])
    ensures var f := Run([Event(Enqueue(payload), 5, c), Event(Enqueue(payload), 3, c)]);
      var now := 4 + NANOS_PER_SECOND;
      && f.live == [Entry(5, payload), Entry(3, payload)]
      && c.Cutoff(now) == 4 && f.Prune(now, c).live == f.live != Younger(f.live, c.Cutoff(now))
  {
    var a, b, e, g := Entry(5, payload), Entry(3, payload), Event(Enqueue(payload), 5, c), Event(Enqueue(payload), 3, c);
    RunMore([], e);
    RunMore([e], g);
    assert [] + [e] == [e] && [e] + [g] == [e, g];
    hide Run, Fresh, Younger, Fitted, Total;
    JoinsAll(Empty(), payload, 5, c);
    assert [] + [a] == [a];
    JoinsAll(Run([e]), payload, 3, c);
    assert [a] + [b] == [a, b];
    FrontStep([a, b], 0, 4, c);
    assert [a, b][0..] == [a, b];
    AllYounger([a, b], 4);
    assert b in [a, b];
  }

  lemma RunMore(events: seq<Event>, e: Event)
    ensures Run(events + [e]) == Apply(Run(events), e)
  {
    assert (events + [e])[..|events|] == events;
  }

  /** Nothing leaves when an entry joins. */
  lemma JoinsAll(f: Fifo, payload: seq<bv8>, now: int, c: Config)
    requires f.live == [] || f.live[0].enqueuedAt >= c.Cutoff(now)
    requires !c.Exceeded(f.live + [Entry(now, payload)])
    ensures f.Enqueue(payload, now, c).live == f.live + [Entry(now, payload)]
  {
  }

  // ----- The queue object -----

  class Queue {
    var items: seq<Entry>
    var head: nat
    var bytes: int
    var dropped: nat
    ghost var arrivals: seq<Entry>
    ghost var popped: seq<int>
    ghost var handed: seq<seq<bv8>>

    ghost predicate Valid()
      reads this
    {
      head <= |items| && bytes == Total(items[head..]) && View().Sound()
    }

    /** The dead prefix is empty or shorter than the live part. */
    predicate Compact()
      reads this
    {
      head == 0 || head < |items| - head
    }

    ghost function View(): Fifo
      requires head <= |items|
      reads this
    {
      Fifo(items[head..], arrivals, popped, dropped, handed)
    }

    constructor ()
      ensures Valid() && Compact() && View() == Empty()
    {
      items, head, bytes, dropped := [], 0, 0, 0;
      arrivals, popped, handed := [], [], [];
    }

    method ResetItems()
      modifies this`items, this`head, this`bytes
      ensures items == [] && head == 0 && bytes == 0 && bytes == Total(items[head..])
    {
      items, head, bytes := [], 0, 0;
    }

    method Clear()
      modifies this
      ensures Valid() && Compact() && View() == Empty()
    {
      ResetItems();
      dropped := 0;
      arrivals, popped, handed := [], [], [];
    }

    method DropHead()
      requires Valid()
      modifies this`head, this`bytes, this`dropped
      ensures Valid()
      ensures if old(head) < |items| then head == old(head) + 1 && dropped == old(dropped) + 1
              else head == old(head) && dropped == old(dropped)
    {
      if head >= |items| {
        return;
      }
      FrontStep(items, head, 0, Config(0, 0, 0));
      DropSound(View());
      assert items[head + 1..] == View().live[1..];
      bytes := bytes - |items[head].payload|;
      head := head + 1;
      dropped := dropped + 1;
    }

    /** Changes the representation only. */
    method MaybeCompact()
      requires Valid()
      modifies this`items, this`head, this`bytes
      ensures Valid() && Compact() && View() == old(View())
    {
      if head == 0 {
        return;
      }
      if head >= |items| {
        ResetItems();
        return;
      }
      if head < COMPACT_AT && head * 2 < |items| {
        return;
      }
      items := items[head..];
      head := 0;
    }

    method Prune(now: int, c: Config)
      requires Valid()
      modifies this`items, this`head, this`bytes, this`dropped
      ensures Valid() && Compact() && View() == old(View().Prune(now, c))
    {
      hide Total, Fresh, Fitted, Suffix;
      var cutoff := c.Cutoff(now);
      ghost var f := View();
      while head < |items| && items[head].enqueuedAt < cutoff
        invariant Valid() && head >= old(head) && items == old(items)
        invariant Fresh(items[head..], cutoff) == Fresh(f.live, cutoff)
        invariant dropped == old(dropped) + head - old(head)
        decreases |items| - head
      {
        FrontStep(items, head, cutoff, c);
        DropHead();
      }
      FrontStep(items, head, cutoff, c);
      assert View().live == Fresh(f.live, cutoff);
      assert View() == f.Prune(now, c);
      MaybeCompact();
    }

    method EnforceCapacity(c: Config)
      requires Valid()
      modifies this`head, this`bytes, this`dropped
      ensures Valid() && View() == old(View().Evict(c))
      ensures c.maxItems > 0 ==> |items| - head <= c.maxItems
      ensures c.maxBytes > 0 ==> bytes <= c.maxBytes
    {
      hide Total, Fresh, Fitted, Suffix;
      ghost var f := View();
      while head < |items| && ((c.maxItems > 0 && |items| - head > c.maxItems) || (c.maxBytes > 0 && bytes > c.maxBytes))
        invariant Valid() && head >= old(head)
        invariant Fitted(items[head..], c) == Fitted(f.live, c)
        invariant dropped == old(dropped) + head - old(head)
        decreases |items| - head
      {
        FrontStep(items, head, 0, c);
        DropHead();
      }
      FrontStep(items, head, 0, c);
      FittedWithin(f.live, c);
    }

    method Append(entry: Entry)
      requires Valid()
      modifies this`items, this`bytes, this`arrivals
      ensures Valid() && View() == old(View()).(live := old(items)[head..] + [entry], arrivals := old(arrivals) + [entry])
    {
      hide Total, Suffix, Fifo.Sound;
      TotalGrown(items[head..], entry);
      AppendSound(View(), entry);
      assert (items + [entry])[head..] == items[head..] + [entry];
      items := items + [entry];
      arrivals := arrivals + [entry];
      bytes := bytes + |entry.payload|;
    }

    method Enqueue(payload: seq<bv8>, now: int, c: Config)
      requires Valid()
      modifies this
      ensures Valid() && Compact() && View() == old(View().Enqueue(payload, now, c))
      ensures c.maxItems > 0 ==> |items| - head <= c.maxItems
      ensures c.maxBytes > 0 ==> bytes <= c.maxBytes
      ensures arrivals == old(arrivals) + [Entry(now, payload)] && popped == old(popped) && handed == old(handed)
    {
      hide Fresh, Fitted, Suffix, Total, Fifo.Sound;
      Prune(now, c);
      Append(Entry(now, payload));
      EnforceCapacity(c);
      MaybeCompact();
    }

    /** The loop that hands out. */
    method CopyOut(n: nat) returns (out: seq<seq<bv8>>)
      requires head <= |items| && bytes == Total(items[head..]) && n <= |items| - head
      modifies this`bytes
      ensures out == Payloads(items[head..], n) && bytes == Total(items[head + n..])
    {
      hide Total, Fresh, Fitted, Payloads;
      ghost var live := items[head..];
      out := [];
      PayloadsMore(live, 0);
      for index := 0 to n
        invariant out == Payloads(live, index) && bytes == Total(items[head + index..])
      {
        FrontStep(items, head + index, 0, Config(0, 0, 0));
        PayloadsMore(live, index);
        out := out + [items[head + index].payload];
        bytes := bytes - |items[head + index].payload|;
      }
    }

    method Take(n: nat) returns (out: seq<seq<bv8>>)
      requires Valid() && n <= |items| - head
      modifies this`head, this`bytes, this`popped, this`handed
      ensures Valid() && View() == old(View().Take(n)) && out == Payloads(old(View()).live, n)
    {
      hide Total, Suffix, Payloads, Positions, Fifo.Sound;
      ghost var f := View();
      TakeSound(f, n);
      assert (items[head..])[n..] == items[head + n..];
      out := CopyOut(n);
      popped, handed := popped + Positions(|arrivals| - |f.live|, n), handed + out;
      head := head + n;
    }

    /** Hands out up to `count` of the oldest entries; a count of zero or less is turned away before
        the queue is looked at, as is any count while persistence is off. */
    method PopOldest(enabled: bool, count: int, now: int, c: Config) returns (out: seq<seq<bv8>>)
      requires Valid()
      modifies this
      ensures Valid()
      ensures !enabled || count <= 0 ==> out == [] && View() == old(View())
      ensures enabled && count > 0 ==> Compact() && View() == old(View().Pop(count, now, c))
      ensures enabled && count > 0 ==>
        var live := old(View().Prune(now, c)).live;
        out == Payloads(live, if count < |live| then count else |live|)
      ensures enabled && count > 0 ==>
        var p := old(View().Prune(now, c));
        HandsOut(p, View(), out) && |out| == if count < |p.live| then count else |p.live|
    {
      hide Total, Fresh, Fitted, Suffix, Payloads, Fifo.Sound, Fifo.Take, HandsOut;
      if !enabled || count <= 0 {
        return [];
      }
      Prune(now, c);
      ghost var p := View();
      var available := |items| - head;
      if available <= 0 {
        NothingTaken(p);
        TakeExact(p, 0);
        ResetItems();
        assert View() == p;
        return [];
      }
      var n := if count > available then available else count;
      TakeExact(p, n);
      out := Take(n);
      MaybeCompact();
    }

    method Stats(now: int, c: Config) returns (depth: nat, total: int, oldestAgeMs: nat, drops: nat)
      requires Valid()
      modifies this`items, this`head, this`bytes, this`dropped
      ensures Valid() && Compact() && View() == old(View().Prune(now, c))
      ensures depth == |View().live| && total == Total(View().live) && drops == View().dropped
      ensures depth == 0 || View().live[0].enqueuedAt > now ==> oldestAgeMs == 0
      ensures depth > 0 && View().live[0].enqueuedAt <= now ==> oldestAgeMs == (now - View().live[0].enqueuedAt) / NANOS_PER_MILLI
    {
      Prune(now, c);
      depth := |items| - head;
      oldestAgeMs := 0;
      if depth > 0 && now >= items[head].enqueuedAt {
        oldestAgeMs := (now - items[head].enqueuedAt) / NANOS_PER_MILLI;
      }
      total, drops := bytes, dropped;
    }
  }
}
