/** The byte stream that is hashed into the credential fingerprint of an account without a
    registration epoch: for each metadata key that is present, in a fixed order, the key, the length
    of the marshaled value in decimal, and the value. */
module Fingerprint {
  import opened Basics

  newtype byte = b: int | 0 <= b < 256

  type Bytes = seq<byte>

  const COLON: byte := 58
  const NEWLINE: byte := 10

  function Ascii(s: string): Bytes {
    seq(|s|, i requires 0 <= i < |s| => ((s[i] as int) % 256) as byte)
  }

  const NAMES: seq<string> := [
    "access_token", "accessToken", "token", "Token", "refresh_token", "refreshToken", "id_token", "idToken", "session_id"]

  const KEYS: seq<Bytes> := seq(9, i requires 0 <= i < 9 => Ascii(NAMES[i]))

  function Decimal(n: nat): (d: Bytes)
    ensures |d| > 0 && forall i :: 0 <= i < |d| ==> 48 <= d[i] <= 57
  {
    if n < 10 then [(48 + n) as byte] else Decimal(n / 10) + [(48 + n % 10) as byte]
  }

  function Record(key: Bytes, raw: Bytes): Bytes {
    key + [COLON] + Decimal(|raw|) + [COLON] + raw + [NEWLINE]
  }

  function Stream(keys: seq<Bytes>, values: seq<Option<Bytes>>): Bytes
    requires |keys| == |values|
  {
    if keys == [] then []
    else (if values[0].Some? then Record(keys[0], values[0].value) else []) + Stream(keys[1..], values[1..])
  }

  /** The loop over the keys, writing to the digest. */
  method Preimage(keys: seq<Bytes>, values: seq<Option<Bytes>>) returns (digest: Bytes)
    requires |keys| == |values|
    ensures digest == Stream(keys, values)
  {
    digest := [];
    for n := 0 to |keys|
      invariant digest + Stream(keys[n..], values[n..]) == Stream(keys, values)
    {
      assert keys[n..][1..] == keys[n + 1..] && values[n..][1..] == values[n + 1..];
      ghost var rest := Stream(keys[n + 1..], values[n + 1..]);
      if values[n].Some? {
        var raw := values[n].value;
        assert digest + (Record(keys[n], raw) + rest) == (digest + Record(keys[n], raw)) + rest;
        digest := digest + (keys[n] + [COLON] + Decimal(|raw|) + [COLON] + raw + [NEWLINE]);
      } else {
        assert [] + rest == rest;
      }
    }
  }

  // ----- Reading it back -----

  /** Length of the part before the first colon. */
  function Head(s: Bytes): (n: nat)
    ensures n <= |s|
  {
    if s == [] || s[0] == COLON then 0 else 1 + Head(s[1..])
  }

  /** The part behind the first colon. */
  function Tail(s: Bytes): Bytes {
    if Head(s) < |s| then s[Head(s) + 1..] else []
  }

  function Number(d: Bytes): nat
    requires forall i :: 0 <= i < |d| ==> 48 <= d[i] <= 57
  {
    if d == [] then 0 else Number(d[..|d| - 1]) * 10 + (d[|d| - 1] as int - 48)
  }

  function ReadNumber(d: Bytes): Option<nat> {
    if d != [] && forall i :: 0 <= i < |d| ==> 48 <= d[i] <= 57 then Some(Number(d)) else None
  }

  /** A length, a colon, as many bytes, and one more; with what follows. */
  function ReadValue(s: Bytes): Option<(Bytes, Bytes)> {
    var size, rest := ReadNumber(s[..Head(s)]), Tail(s);
    if size.Some? && size.value < |rest| then Some((rest[..size.value], rest[size.value + 1..])) else None
  }

  /** The values under these keys, or None if the stream is not of this form. */
  function Parse(keys: seq<Bytes>, s: Bytes): Option<seq<Option<Bytes>>>
    decreases |keys|
  {
    if keys == [] then if s == [] then Some([]) else None
    else if s == [] || s[..Head(s)] != keys[0] then
      var later := Parse(keys[1..], s);
      if later.None? then None else Some([None] + later.value)
    else
      var read := ReadValue(Tail(s));
      if read.None? then None
      else
        var later := Parse(keys[1..], read.value.1);
        if later.None? then None else Some([Some(read.value.0)] + later.value)
  }

  /** Distinct keys without a colon. */
  predicate Separable(keys: seq<Bytes>) {
    && (forall i :: 0 <= i < |keys| ==> COLON !in keys[i])
    && (forall i, j :: 0 <= i < j < |keys| ==> keys[i] != keys[j])
  }

  lemma {:induction false} HeadOf(p: Bytes, rest: Bytes)
    requires COLON !in p
    ensures Head(p + [COLON] + rest) == |p|
  {
    var s := p + [COLON] + rest;
    if p != [] {
      HeadOf(p[1..], rest);
      assert s[1..] == p[1..] + [COLON] + rest;
    }
  }

  lemma {:induction false} NumberOf(n: nat)
    ensures Number(Decimal(n)) == n
  {
    if n >= 10 {
      NumberOf(n / 10);
      var d := Decimal(n);
      assert d[..|d| - 1] == Decimal(n / 10);
    }
  }

  /** A stream is empty or starts with the first key that is present. */
  lemma {:induction false} StartsWithKey(keys: seq<Bytes>, values: seq<Option<Bytes>>)
    requires |keys| == |values| && Separable(keys)
    ensures var s := Stream(keys, values); s == [] || s[..Head(s)] in keys
  {
    if keys != [] {
      var s := Stream(keys, values);
      if values[0].Some? {
        var raw := values[0].value;
        var rest := Decimal(|raw|) + [COLON] + raw + [NEWLINE] + Stream(keys[1..], values[1..]);
        assert s == keys[0] + [COLON] + rest;
        HeadOf(keys[0], rest);
        assert s[..Head(s)] == keys[0];
      } else {
        StartsWithKey(keys[1..], values[1..]);
        assert s == Stream(keys[1..], values[1..]);
      }
    }
  }

  lemma SplitAt(p: Bytes, rest: Bytes)
    requires COLON !in p
    ensures var s := p + [COLON] + rest; Head(s) == |p| < |s| && s[..Head(s)] == p && Tail(s) == rest
  {
    HeadOf(p, rest);
    hide Head;
  }

  lemma BodyOf(raw: Bytes, rest: Bytes)
    ensures var body := raw + [NEWLINE] + rest;
      |raw| < |body| && body[..|raw|] == raw && body[|raw| + 1..] == rest
  {
  }

  lemma ReadNumberOf(n: nat)
    ensures ReadNumber(Decimal(n)) == Some(n) && COLON !in Decimal(n)
  {
    NumberOf(n);
  }

  lemma ReadValueOf(raw: Bytes, rest: Bytes)
    ensures ReadValue(Decimal(|raw|) + [COLON] + (raw + [NEWLINE] + rest)) == Some((raw, rest))
  {
    hide Head, Tail, Decimal, ReadNumber;
    var d, body := Decimal(|raw|), raw + [NEWLINE] + rest;
    ReadNumberOf(|raw|);
    SplitAt(d, body);
    BodyOf(raw, rest);
    var s := d + [COLON] + body;
    assert ReadNumber(s[..Head(s)]) == Some(|raw|) && Tail(s) == body;
  }

  /** One record in front of the rest. */
  lemma ReadRecord(keys: seq<Bytes>, raw: Bytes, rest: Bytes)
    requires keys != [] && COLON !in keys[0]
    ensures var s, later := Record(keys[0], raw) + rest, Parse(keys[1..], rest);
      Parse(keys, s) == if later.Some? then Some([Some(raw)] + later.value) else None
  {
    var s, t := Record(keys[0], raw) + rest, Decimal(|raw|) + [COLON] + (raw + [NEWLINE] + rest);
    assert s == keys[0] + [COLON] + t;
    SplitAt(keys[0], t);
    ReadValueOf(raw, rest);
    hide Head, Tail, Decimal, Record, ReadValue;
  }

  /** The stream can be read back: which keys were present and the exact bytes of each value. */
  lemma {:induction false} RoundTrip(keys: seq<Bytes>, values: seq<Option<Bytes>>)
    requires |keys| == |values| && Separable(keys)
    ensures Parse(keys, Stream(keys, values)) == Some(values)
  {
    if keys != [] {
      var s := Stream(keys, values);
      var later := Stream(keys[1..], values[1..]);
      RoundTrip(keys[1..], values[1..]);
      hide Record, Head, Tail, ReadValue;
      if values[0].Some? {
        ReadRecord(keys, values[0].value, later);
      } else {
        assert s == later;
        StartsWithKey(keys[1..], values[1..]);
        assert s == [] || s[..Head(s)] != keys[0];
      }
      assert [values[0]] + values[1..] == values;
    }
  }

  lemma {:induction false} AsciiOf(s: string)
    requires forall i :: 0 <= i < |s| ==> s[i] != ':' && s[i] as int < 256
    ensures |Ascii(s)| == |s| && COLON !in Ascii(s) && forall i :: 0 <= i < |s| ==> Ascii(s)[i] as int == s[i] as int
  {
  }

  /** The keys are the ones for which this holds. */
  lemma KeysAreSeparable()
    ensures Separable(KEYS)
  {
    forall n | 0 <= n < 9 ensures COLON !in KEYS[n] {
      assert forall i :: 0 <= i < |NAMES[n]| ==> NAMES[n][i] != ':' && NAMES[n][i] as int < 256;
      AsciiOf(NAMES[n]);
    }
    forall m, n | 0 <= m < n < 9 ensures KEYS[m] != KEYS[n] {
      assert |NAMES[m]| != |NAMES[n]| || NAMES[m][0] != NAMES[n][0];
      assert forall i :: 0 <= i < 9 ==> |KEYS[i]| == |NAMES[i]| > 0 && KEYS[i][0] as int == NAMES[i][0] as int;
    }
  }

  /** Two accounts have the same stream if and only if they have the same keys with the same bytes. */
  lemma Injective(a: seq<Option<Bytes>>, b: seq<Option<Bytes>>)
    requires |a| == |b| == |KEYS|
    ensures Stream(KEYS, a) == Stream(KEYS, b) <==> a == b
  {
    KeysAreSeparable();
    RoundTrip(KEYS, a);
    RoundTrip(KEYS, b);
  }
}
