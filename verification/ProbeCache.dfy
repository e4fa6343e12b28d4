/** What a probe found out about an account and is trusted to stay so for a while: subscriptions,
    profiles, and the endpoint that answered last. Times are in seconds. */
module ProbeCache {
  import opened Basics

  type Key = nat
  type Value = nat
  /** An endpoint address; NO_URL is the empty one. */
  type Url = nat
  const NO_URL: Url := 0

  const HOUR: int := 3600
  const SUBSCRIPTION_TTL: int := 6 * HOUR
  const PROFILE_TTL: int := 12 * HOUR
  const ENDPOINT_TTL: int := HOUR / 2

  datatype Entry = Entry(value: Value, expires: int)

  type Entries = map<Key, Entry>

  function Purged(m: Entries, now: int): Entries {
    map k | k in m && now < m[k].expires :: m[k]
  }

  function Remembered(m: Entries, key: Key, value: Value, now: int, ttl: int): Entries {
    Purged(m, now)[key := Entry(value, now + ttl)]
  }

  function Found(m: Entries, key: Key, now: int): Option<Value> {
    if key in m && now < m[key].expires then Some(m[key].value) else None
  }

  /** A lookup drops what it finds expired. */
  function Looked(m: Entries, key: Key, now: int): Entries {
    if Found(m, key, now).Some? then m else m - {key}
  }

  /** The addresses other than p, in order. */
  function Others(urls: seq<Url>, p: Url): seq<Url> {
    if urls == [] then []
    else Others(urls[..|urls| - 1], p) + if urls[|urls| - 1] == p then [] else [urls[|urls| - 1]]
  }

  predicate Distinct(urls: seq<Url>) {
    forall i, j :: 0 <= i < j < |urls| ==> urls[i] != urls[j]
  }

  /** The key has this entry, and of the others those that have not expired are left. */
  ghost predicate RememberedTo(before: Entries, after: Entries, key: Key, value: Value, now: int, expires: int) {
    && (forall k :: k in after <==> k == key || (k in before && now < before[k].expires))
    && (forall k :: k in after && k != key ==> after[k] == before[k])
    && key in after && after[key] == Entry(value, expires)
  }

  /** The value while it has not expired; an expired entry goes, and nothing else changes. */
  ghost predicate LookedUp(before: Entries, after: Entries, key: Key, value: Option<Value>, now: int) {
    if key in before && now < before[key].expires then value == Some(before[key].value) && after == before
    else value == None && after == before - {key}
  }

  /** The endpoint kept, and until when. */
  datatype Preference = Preference(endpoint: Url, until: int)

  function Preferred(url: Url, now: int): Preference {
    Preference(url, now + ENDPOINT_TTL)
  }

  /** The addresses to try. */
  function Tried(p: Preference, urls: seq<Url>, now: int): seq<Url> {
    if p.endpoint != NO_URL && now < p.until && p.endpoint in urls then [p.endpoint] + Others(urls, p.endpoint) else urls
  }

  class Cache {
    var subscriptions: Entries
    var profiles: Entries
    var endpoint: Url
    var endpointUntil: int

    constructor ()
      ensures subscriptions == map[] && profiles == map[] && endpoint == NO_URL
    {
      subscriptions, profiles, endpoint, endpointUntil := map[], map[], NO_URL, 0;
    }

    /** The loop over the map that precedes an insertion. */
    method Purge(m: Entries, now: int) returns (rest: Entries)
      ensures rest == Purged(m, now)
    {
      rest := m;
      var keys := m.Keys;
      while keys != {}
        invariant keys <= m.Keys
        invariant forall k :: k in rest <==> k in m && (k in keys || now < m[k].expires)
        invariant forall k :: k in rest ==> rest[k] == m[k]
        decreases keys
      {
        var stale :| stale in keys;
        if now >= m[stale].expires {
          rest := rest - {stale};
        }
        keys := keys - {stale};
      }
    }

    method Subscription(key: Key, now: int) returns (value: Option<Value>)
      modifies this`subscriptions
      ensures value == Found(old(subscriptions), key, now) && subscriptions == Looked(old(subscriptions), key, now)
      ensures LookedUp(old(subscriptions), subscriptions, key, value, now)
    {
      if key !in subscriptions || now >= subscriptions[key].expires {
        subscriptions := subscriptions - {key};
        return None;
      }
      return Some(subscriptions[key].value);
    }

    method RememberSubscription(key: Key, value: Value, now: int)
      modifies this`subscriptions
      ensures subscriptions == Remembered(old(subscriptions), key, value, now, SUBSCRIPTION_TTL)
      ensures RememberedTo(old(subscriptions), subscriptions, key, value, now, now + 6 * 60 * 60)
    {
      subscriptions := Purge(subscriptions, now);
      subscriptions := subscriptions[key := Entry(value, now + SUBSCRIPTION_TTL)];
    }

    method Profile(key: Key, now: int) returns (plan: Option<Value>)
      modifies this`profiles
      ensures plan == Found(old(profiles), key, now) && profiles == Looked(old(profiles), key, now)
      ensures LookedUp(old(profiles), profiles, key, plan, now)
    {
      if key !in profiles || now >= profiles[key].expires {
        profiles := profiles - {key};
        return None;
      }
      return Some(profiles[key].value);
    }

    method RememberProfile(key: Key, plan: Value, now: int)
      modifies this`profiles
      ensures profiles == Remembered(old(profiles), key, plan, now, PROFILE_TTL)
      ensures RememberedTo(old(profiles), profiles, key, plan, now, now + 12 * 60 * 60)
    {
      profiles := Purge(profiles, now);
      profiles := profiles[key := Entry(plan, now + PROFILE_TTL)];
    }

    method RememberEndpoint(url: Url, now: int)
      modifies this`endpoint, this`endpointUntil
      ensures Preference(endpoint, endpointUntil) == Preferred(url, now)
      ensures endpoint == url && endpointUntil == now + 30 * 60
    {
      endpoint := url;
      endpointUntil := now + ENDPOINT_TTL;
    }

    /** The addresses to try: all of the base list, each once, in its order but for a known endpoint
        that answered less than half an hour ago, which comes first. */
    method QuotaUrls(urls: seq<Url>, now: int) returns (ordered: seq<Url>)
      requires |urls| > 0 && Distinct(urls)
      ensures multiset(ordered) == multiset(urls)
      ensures ordered == Tried(Preference(endpoint, endpointUntil), urls, now)
      ensures if endpoint != NO_URL && now < endpointUntil && endpoint in urls
              then ordered[0] == endpoint && Others(ordered, endpoint) == Others(urls, endpoint) else ordered == urls
    {
      if !(endpoint != NO_URL && now < endpointUntil) {
        return urls;
      }
      if urls[0] == endpoint {
        FirstStays(urls);
        return urls;
      }
      for i := 0 to |urls|
        invariant endpoint !in urls[..i]
      {
        if urls[i] == endpoint {
          ordered := [endpoint];
          for j := 0 to |urls|
            invariant ordered == [endpoint] + Others(urls[..j], endpoint)
          {
            assert urls[..j + 1][..j] == urls[..j];
            if urls[j] != endpoint {
              ordered := ordered + [urls[j]];
            }
          }
          assert urls[..|urls|] == urls;
          OthersPresent(urls, endpoint);
          FrontedKeepsOthers(urls, endpoint);
          return ordered;
        }
      }
      return urls;
    }
  }

  lemma {:induction false} OthersAbsent(urls: seq<Url>, p: Url)
    requires p !in urls
    ensures Others(urls, p) == urls
  {
    if urls != [] {
      OthersAbsent(urls[..|urls| - 1], p);
    }
  }

  /** Taking one address out of a list without repetitions and putting it in front keeps the list. */
  lemma {:induction false} OthersPresent(urls: seq<Url>, p: Url)
    requires Distinct(urls) && p in urls
    ensures multiset{p} + multiset(Others(urls, p)) == multiset(urls)
  {
    var front, u := urls[..|urls| - 1], urls[|urls| - 1];
    assert urls == front + [u];
    if u == p {
      OthersAbsent(front, p);
      assert Others(urls, p) == front;
      hide Others, Distinct;
      assert multiset(front + [p]) == multiset(front) + multiset{p};
    } else {
      OthersPresent(front, p);
      Regrouped(front, Others(front, p), u, p);
      assert Others(urls, p) == Others(front, p) + [u];
      hide Others, Distinct;
    }
  }

  lemma Regrouped(front: seq<Url>, rest: seq<Url>, u: Url, p: Url)
    requires multiset{p} + multiset(rest) == multiset(front)
    ensures multiset{p} + multiset(rest + [u]) == multiset(front + [u])
  {
    assert multiset(rest + [u]) == multiset(rest) + multiset{u};
  }

  lemma {:induction false} FirstStays(urls: seq<Url>)
    requires |urls| > 0 && Distinct(urls)
    ensures [urls[0]] + Others(urls, urls[0]) == urls
  {
    if |urls| == 1 {
      assert Others(urls, urls[0]) == [];
    } else {
      FirstStays(urls[..|urls| - 1]);
    }
  }

  lemma {:induction false} OthersAppended(a: seq<Url>, b: seq<Url>, p: Url)
    ensures Others(a + b, p) == Others(a, p) + Others(b, p)
  {
    if b == [] {
      assert a + b == a;
    } else {
      OthersAppended(a, b[..|b| - 1], p);
      assert (a + b)[..|a + b| - 1] == a + b[..|b| - 1];
    }
  }

  lemma {:induction false} OthersLeft(urls: seq<Url>, p: Url)
    ensures p !in Others(urls, p)
  {
    if urls != [] {
      OthersLeft(urls[..|urls| - 1], p);
    }
  }

  /** Putting one address in front leaves the others in their order. */
  lemma FrontedKeepsOthers(urls: seq<Url>, p: Url)
    ensures Others([p] + Others(urls, p), p) == Others(urls, p)
  {
    OthersLeft(urls, p);
    OthersAbsent(Others(urls, p), p);
    OthersAppended([p], Others(urls, p), p);
  }

  // ----- Whole histories of one of the maps -----

  datatype Op = Remember(key: Key, value: Value, now: int) | Lookup(key: Key, now: int)

  function Replay(ops: seq<Op>, ttl: int): Entries {
    if ops == [] then map[]
    else
      var m, op := Replay(ops[..|ops| - 1], ttl), ops[|ops| - 1];
      match op
      case Remember(key, value, now) => Remembered(m, key, value, now, ttl)
      case Lookup(key, now) => Looked(m, key, now)
  }

  /** One past the last time the key was remembered, 0 if it never was. */
  function Newest(ops: seq<Op>, key: Key): (n: nat)
    ensures n <= |ops| && (n > 0 ==> ops[n - 1].Remember? && ops[n - 1].key == key)
  {
    if ops == [] then 0
    else if ops[|ops| - 1].Remember? && ops[|ops| - 1].key == key then |ops|
    else Newest(ops[..|ops| - 1], key)
  }

  /** No operation that may drop this key came, by its clock, too late for the entry. */
  predicate Untouched(ops: seq<Op>, key: Key, from: nat, expires: int) {
    forall j :: from <= j < |ops| && (ops[j].Remember? || ops[j].key == key) ==> ops[j].now < expires
  }

  /** Exactly what a lookup finds after any operations at any times: the value remembered last,
      unless it is expired now or was at one of the operations in between that purge it. */
  lemma {:induction false} LookupIsExact(ops: seq<Op>, key: Key, now: int, ttl: int)
    requires ttl > 0
    ensures var n := Newest(ops, key);
      Found(Replay(ops, ttl), key, now)
      == if n > 0 && now < ops[n - 1].now + ttl && Untouched(ops, key, n, ops[n - 1].now + ttl)
         then Some(ops[n - 1].value) else None
  {
    EntryIsExact(ops, key, ttl);
  }

  lemma {:induction false} EntryIsExact(ops: seq<Op>, key: Key, ttl: int)
    requires ttl > 0
    ensures var n, m := Newest(ops, key), Replay(ops, ttl);
      if n > 0 && Untouched(ops, key, n, ops[n - 1].now + ttl)
      then key in m && m[key] == Entry(ops[n - 1].value, ops[n - 1].now + ttl) else key !in m
  {
    if ops != [] {
      var front := ops[..|ops| - 1];
      EntryIsExact(front, key, ttl);
      var n := Newest(front, key);
      if n > 0 && Newest(ops, key) == n {
        var expires := ops[n - 1].now + ttl;
        assert Untouched(ops, key, n, expires) <==>
          Untouched(front, key, n, expires) && (ops[|ops| - 1].Remember? || ops[|ops| - 1].key == key ==> ops[|ops| - 1].now < expires);
      }
    }
  }

  predicate Chronological(ops: seq<Op>, now: int) {
    && (forall i, j :: 0 <= i < j < |ops| ==> ops[i].now <= ops[j].now)
    && (forall i :: 0 <= i < |ops| ==> ops[i].now <= now)
  }

  /** With a clock that does not go back, purging is invisible: a lookup finds the value remembered
      last for the key if and only if that was less than the time to live ago. */
  lemma LookupIsLastRemembered(ops: seq<Op>, key: Key, now: int, ttl: int)
    requires ttl > 0 && Chronological(ops, now)
    ensures var n := Newest(ops, key);
      Found(Replay(ops, ttl), key, now) == if n > 0 && now - ops[n - 1].now < ttl then Some(ops[n - 1].value) else None
  {
    LookupIsExact(ops, key, now, ttl);
  }

  /** With a clock that does go back, remembering one key can lose another one before its time. */
  lemma ClockBackHidesValue(key: Key, other: Key, value: Value, ttl: int)
    requires ttl > 0 && key != other
    ensures var ops := [Remember(key, value, 0), Remember(other, value, ttl)];
      Newest(ops, key) == 1 && Found(Replay(ops, ttl), key, 0) == None
  {
    var ops := [Remember(key, value, 0), Remember(other, value, ttl)];
    assert ops[..1] == [Remember(key, value, 0)];
    assert ops[..1][..0] == [];
    assert Newest(ops[..1], key) == 1;
    LookupIsExact(ops, key, 0, ttl);
    assert !Untouched(ops, key, 1, ttl) by {
      assert ops[1].now == ttl;
    }
  }

  // ----- Whole histories of the endpoint -----

  datatype Answer = Answer(url: Url, at: int)

  function AfterAnswers(answers: seq<Answer>): Preference {
    if answers == [] then Preference(NO_URL, 0)
    else
      var a := answers[|answers| - 1];
      Preferred(a.url, a.at)
  }

  /** After any answers at any times: every address is tried once, the one that answered last is first
      exactly if it is known and answered less than half an hour ago, or heads the list anyway, and the
      others keep their order. */
  lemma {:induction false} LastAnswerGoesFirst(answers: seq<Answer>, urls: seq<Url>, now: int)
    requires |urls| > 0 && Distinct(urls)
    ensures var tried := Tried(AfterAnswers(answers), urls, now);
      && multiset(tried) == multiset(urls) && |tried| == |urls|
      && (answers == [] ==> tried == urls)
      && (answers != [] ==>
            var last := answers[|answers| - 1];
            && (tried[0] == last.url <==>
                  urls[0] == last.url || (last.url != NO_URL && last.url in urls && now - last.at < 30 * 60))
            && Others(tried, last.url) == Others(urls, last.url))
  {
    var p := AfterAnswers(answers);
    var tried, rest := Tried(p, urls, now), Others(urls, p.endpoint);
    if tried != urls {
      OthersPresent(urls, p.endpoint);
      FrontedKeepsOthers(urls, p.endpoint);
      assert multiset([p.endpoint] + rest) == multiset{p.endpoint} + multiset(rest);
      assert |multiset(tried)| == |tried| && |multiset(urls)| == |urls|;
    }
  }
}
