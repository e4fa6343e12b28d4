/** The prefix, priority and weight that an account had before a policy overlaid them are remembered
    in marker attributes of the account itself and restored from there. */
module AccountPolicy {
  import opened Basics

  type Text = string

  /** Stands for an attribute, or a prefix, that was not there. */
  const MISSING: Text := "\0"

  /** Attribute names: the three markers, the two attributes they stand for besides the prefix, and
      all others. */
  datatype Name = BasePrefix | BasePriority | BaseWeight | Priority | Weight | Other(name: Text)

  type Attributes = map<Name, Text>

  /** A nil attribute map is None. */
  datatype View = View(prefix: Text, attributes: Option<Attributes>)

  predicate IsMarker(n: Name) {
    n.BasePrefix? || n.BasePriority? || n.BaseWeight?
  }

  /** The markers of attributes. */
  predicate Marks(marker: Name) {
    marker.BasePriority? || marker.BaseWeight?
  }

  function SourceOf(marker: Name): Name {
    if marker.BasePriority? then Priority else Weight
  }

  function Attrs(v: View): Attributes {
    if v.attributes.Some? then v.attributes.value else map[]
  }

  function Looked(m: Attributes, n: Name): Text {
    if n in m then m[n] else MISSING
  }

  // ----- The two operations on values -----

  function MarkPrefix(m: Attributes, prefix: Text): Attributes {
    if BasePrefix in m then m else m[BasePrefix := if prefix == "" then MISSING else prefix]
  }

  function Mark(m: Attributes, marker: Name): Attributes {
    if marker in m then m else m[marker := Looked(m, SourceOf(marker))]
  }

  function RememberedView(v: View): View {
    v.(attributes := Some(Mark(Mark(MarkPrefix(Attrs(v), v.prefix), BasePriority), BaseWeight)))
  }

  function Unmark(m: Attributes, marker: Name): Attributes {
    if marker !in m then m
    else if m[marker] == MISSING then m - {SourceOf(marker), marker}
    else m[SourceOf(marker) := m[marker]] - {marker}
  }

  function RestoredView(v: View): View {
    if v.attributes.None? then v
    else
      var m := v.attributes.value;
      var prefix := if BasePrefix !in m then v.prefix else if m[BasePrefix] == MISSING then "" else m[BasePrefix];
      View(prefix, Some(Unmark(Unmark(m - {BasePrefix}, BasePriority), BaseWeight)))
  }

  // ----- The same, said outright -----

  /** Each marker that was missing has what the account had, or "missing"; nothing else changes. */
  ghost predicate RememberedTo(before: View, after: View) {
    var m := Attrs(before);
    && after.prefix == before.prefix && after.attributes.Some?
    && var a := after.attributes.value;
       && a.Keys == m.Keys + {BasePrefix, BasePriority, BaseWeight}
       && a[BasePrefix] == (if BasePrefix in m then m[BasePrefix] else if before.prefix == "" then "\0" else before.prefix)
       && a[BasePriority] == (if BasePriority in m then m[BasePriority] else if Priority in m then m[Priority] else "\0")
       && a[BaseWeight] == (if BaseWeight in m then m[BaseWeight] else if Weight in m then m[Weight] else "\0")
       && (forall n :: n in m && !IsMarker(n) ==> a[n] == m[n])
  }

  /** The account has what its markers say, also that something is missing; the markers are gone, and
      whatever had no marker stays as it was. */
  ghost predicate RestoredTo(before: View, after: View) {
    if before.attributes.None? then after == before
    else
      var m := before.attributes.value;
      && after.attributes.Some?
      && after.prefix == (if BasePrefix !in m then before.prefix else if m[BasePrefix] == "\0" then "" else m[BasePrefix])
      && var a := after.attributes.value;
         && (forall n :: IsMarker(n) ==> n !in a)
         && (if BasePriority !in m then Same(m, a, Priority)
             else if m[BasePriority] == "\0" then Priority !in a
             else Priority in a && a[Priority] == m[BasePriority])
         && (if BaseWeight !in m then Same(m, a, Weight)
             else if m[BaseWeight] == "\0" then Weight !in a
             else Weight in a && a[Weight] == m[BaseWeight])
         && (forall n: Name :: n.Other? ==> Same(m, a, n))
  }

  predicate Same(before: Attributes, after: Attributes, n: Name) {
    (n in after <==> n in before) && (n in after ==> after[n] == before[n])
  }

  lemma RememberedExact(v: View)
    ensures RememberedTo(v, RememberedView(v))
  {
    var m, a := Attrs(v), RememberedView(v).attributes.value;
    assert forall n :: n in a <==> n in m || n in {BasePrefix, BasePriority, BaseWeight};
    assert a.Keys == m.Keys + {BasePrefix, BasePriority, BaseWeight};
  }

  lemma RestoredExact(v: View)
    ensures RestoredTo(v, RestoredView(v))
  {
  }

  // ----- In place -----

  class Auth {
    var prefix: Text
    var attributes: Option<Attributes>

    function Value(): View reads this {
      View(prefix, attributes)
    }

    method RememberOne(marker: Name)
      requires attributes.Some? && Marks(marker)
      modifies this`attributes
      ensures attributes == Some(Mark(old(attributes).value, marker))
    {
      var m := attributes.value;
      if marker in m {
        return;
      }
      m := m[marker := MISSING];
      if SourceOf(marker) in m {
        m := m[marker := m[SourceOf(marker)]];
      }
      attributes := Some(m);
      assert m == Mark(old(attributes).value, marker);
    }

    /** The loop over the two markers goes in either order. */
    method Remember(weightFirst: bool)
      modifies this
      ensures Value() == RememberedView(old(Value()))
      ensures RememberedTo(old(Value()), Value())
    {
      RememberedExact(Value());
      hide RememberedTo;
      if attributes.None? {
        attributes := Some(map[]);
      }
      var m := attributes.value;
      if BasePrefix !in m {
        m := m[BasePrefix := MISSING];
        if prefix != "" {
          m := m[BasePrefix := prefix];
        }
        attributes := Some(m);
      }
      ghost var marked := attributes.value;
      assert marked == MarkPrefix(Attrs(old(Value())), old(prefix));
      if weightFirst {
        RememberOne(BaseWeight);
        RememberOne(BasePriority);
      } else {
        RememberOne(BasePriority);
        RememberOne(BaseWeight);
      }
      MarksCommute(marked);
    }

    method RestoreOne(marker: Name)
      requires attributes.Some? && Marks(marker)
      modifies this`attributes
      ensures attributes == Some(Unmark(old(attributes).value, marker))
    {
      var m := attributes.value;
      if marker !in m {
        return;
      }
      var value := m[marker];
      if value == MISSING {
        m := m - {SourceOf(marker)};
      } else {
        m := m[SourceOf(marker) := value];
      }
      attributes := Some(m - {marker});
      assert m - {marker} == Unmark(old(attributes).value, marker);
    }

    method Restore(weightFirst: bool)
      modifies this
      ensures Value() == RestoredView(old(Value()))
      ensures RestoredTo(old(Value()), Value())
    {
      RestoredExact(Value());
      hide RestoredTo;
      if attributes.None? {
        return;
      }
      var m := attributes.value;
      if BasePrefix in m {
        prefix := m[BasePrefix];
        if m[BasePrefix] == MISSING {
          prefix := "";
        }
        attributes := Some(m - {BasePrefix});
      } else {
        assert m - {BasePrefix} == m;
      }
      ghost var rest := m - {BasePrefix};
      assert attributes == Some(rest);
      if weightFirst {
        RestoreOne(BaseWeight);
        RestoreOne(BasePriority);
      } else {
        RestoreOne(BasePriority);
        RestoreOne(BaseWeight);
      }
      UnmarksCommute(rest);
    }
  }

  lemma MarksCommute(m: Attributes)
    ensures Mark(Mark(m, BasePriority), BaseWeight) == Mark(Mark(m, BaseWeight), BasePriority)
  {
    var a, b := Mark(Mark(m, BasePriority), BaseWeight), Mark(Mark(m, BaseWeight), BasePriority);
    forall n | n in a || n in b ensures n in a && n in b && a[n] == b[n] {
    }
  }

  lemma UnmarksCommute(m: Attributes)
    ensures Unmark(Unmark(m, BasePriority), BaseWeight) == Unmark(Unmark(m, BaseWeight), BasePriority)
  {
    var a, b := Unmark(Unmark(m, BasePriority), BaseWeight), Unmark(Unmark(m, BaseWeight), BasePriority);
    forall n | n in a || n in b ensures n in a && n in b && a[n] == b[n] {
    }
  }

  // ----- Policies that come and go -----

  /** What may happen to an account while its base is remembered; attributes are priority or weight. */
  datatype Overlay =
    | SetPrefix(prefix: Text)
    | SetPriority(text: Text)
    | SetWeight(text: Text)
    | DropPriority
    | DropWeight
    | RememberAgain

  function Overlaid(v: View, o: Overlay): View {
    match o
    case SetPrefix(prefix) => v.(prefix := prefix)
    case SetPriority(text) => v.(attributes := Some(Attrs(v)[Priority := text]))
    case SetWeight(text) => v.(attributes := Some(Attrs(v)[Weight := text]))
    case DropPriority => v.(attributes := Some(Attrs(v) - {Priority}))
    case DropWeight => v.(attributes := Some(Attrs(v) - {Weight}))
    case RememberAgain => RememberedView(v)
  }

  function AllOverlaid(v: View, overlays: seq<Overlay>): View {
    if overlays == [] then v else Overlaid(AllOverlaid(v, overlays[..|overlays| - 1]), overlays[|overlays| - 1])
  }

  /** The last overlay has its way, and nothing else changes. */
  lemma LastOverlayShows(v: View, overlays: seq<Overlay>, o: Overlay)
    ensures var u, w := AllOverlaid(v, overlays), AllOverlaid(v, overlays + [o]);
      && (o.SetPrefix? ==> w == View(o.prefix, u.attributes))
      && (o.SetPriority? ==> Priority in Attrs(w) && Attrs(w)[Priority] == o.text)
      && (o.SetWeight? ==> Weight in Attrs(w) && Attrs(w)[Weight] == o.text)
      && (o.DropPriority? ==> Priority !in Attrs(w)) && (o.DropWeight? ==> Weight !in Attrs(w))
      && (o.RememberAgain? ==> RememberedTo(u, w))
      && (!o.SetPrefix? ==> w.prefix == u.prefix)
      && (forall n :: !IsMarker(n) && !(n == Priority && (o.SetPriority? || o.DropPriority?)) && !(n == Weight && (o.SetWeight? || o.DropWeight?)) ==>
            Same(Attrs(u), Attrs(w), n))
  {
    assert (overlays + [o])[..|overlays|] == overlays;
    hide AllOverlaid;
    RememberedExact(AllOverlaid(v, overlays));
  }

  /** The markers hold the base, and nothing but prefix, priority and weight differs from it. */
  predicate Holds(v: View, base: View) {
    var r := RememberedView(base).attributes.value;
    && v.attributes.Some? && BasePrefix in v.attributes.value && BasePriority in v.attributes.value && BaseWeight in v.attributes.value
    && (forall n :: n in v.attributes.value && !n.Priority? && !n.Weight? ==> n in r && v.attributes.value[n] == r[n])
    && (forall n :: n in r && !n.Priority? && !n.Weight? ==> n in v.attributes.value)
  }

  lemma {:induction false} OverlaysHold(base: View, overlays: seq<Overlay>)
    ensures Holds(AllOverlaid(RememberedView(base), overlays), base)
  {
    if overlays != [] {
      OverlaysHold(base, overlays[..|overlays| - 1]);
    }
  }

  /** No markers of its own, and no value that means "missing". */
  predicate Clean(base: View) {
    && (forall n :: n in Attrs(base) ==> !IsMarker(n))
    && base.prefix != MISSING
    && (Priority in Attrs(base) ==> Attrs(base)[Priority] != MISSING)
    && (Weight in Attrs(base) ==> Attrs(base)[Weight] != MISSING)
  }

  /** After remembering, any overlays and any further remembering, restoring gives back the prefix and
      the attributes, with no marker left, exactly if the base was clean. */
  lemma RestoreUndoesOverlays(base: View, overlays: seq<Overlay>)
    ensures var v := RestoredView(AllOverlaid(RememberedView(base), overlays));
      v == View(base.prefix, Some(Attrs(base))) <==> Clean(base)
  {
    OverlaysHold(base, overlays);
    hide AllOverlaid;
    RestoreHeld(AllOverlaid(RememberedView(base), overlays), base);
  }

  lemma RestoreHeld(v: View, base: View)
    requires Holds(v, base)
    ensures RestoredView(v) == View(base.prefix, Some(Attrs(base))) <==> Clean(base)
  {
    var m := RestoredView(v).attributes.value;
    assert forall n :: IsMarker(n) ==> n !in m;
    if Clean(base) {
      assert forall n :: n in m <==> n in Attrs(base);
      assert forall n :: n in m ==> m[n] == Attrs(base)[n];
      assert m == Attrs(base);
    }
  }

  /** Restoring drops the markers whatever they say, and a second time it changes nothing. */
  lemma RestoredTwice(v: View)
    ensures RestoredView(RestoredView(v)) == RestoredView(v)
    ensures forall n :: IsMarker(n) ==> n !in Attrs(RestoredView(v))
  {
    if v.attributes.Some? {
      var m := RestoredView(v).attributes.value;
      assert forall n :: IsMarker(n) ==> n !in m;
      assert m - {BasePrefix} == m;
    }
  }

  // ----- Policies -----

  /** A handled policy; each part may be left to the account. */
  datatype Policy = Policy(prefix: Option<Text>, priority: Option<Text>, weight: Option<Text>)

  function Parts(p: Policy): seq<Overlay> {
    (if p.prefix.Some? then [SetPrefix(p.prefix.value)] else [])
    + (if p.priority.Some? then [SetPriority(p.priority.value)] else [])
    + (if p.weight.Some? then [SetWeight(p.weight.value)] else [])
  }

  /** The account as a policy leaves it, on whatever an earlier policy left. */
  function Applied(v: View, p: Option<Policy>): View {
    if p.None? then RestoredView(v) else AllOverlaid(RememberedView(RestoredView(v)), Parts(p.value))
  }

  // ----- One policy after another -----

  predicate Unmarked(v: View) {
    forall n :: n in Attrs(v) ==> !IsMarker(n)
  }

  /** The account without the values of its own that mean "missing". */
  function Tidy(v: View): View {
    var m := Attrs(v);
    View(if v.prefix == MISSING then "" else v.prefix,
         Some(map n | n in m && !((n.Priority? || n.Weight?) && m[n] == MISSING) :: m[n]))
  }

  /** What the parts of a policy come to. */
  function Laid(v: View, p: Policy): View {
    var m := Attrs(v);
    var n := if p.priority.Some? then m[Priority := p.priority.value] else m;
    View(if p.prefix.Some? then p.prefix.value else v.prefix,
         Some(if p.weight.Some? then n[Weight := p.weight.value] else n))
  }

  /** The policy sets every part for which the account has the value that means "missing". */
  predicate Covers(p: Policy, v: View) {
    && (v.prefix == MISSING ==> p.prefix.Some?)
    && (Priority in Attrs(v) && Attrs(v)[Priority] == MISSING ==> p.priority.Some?)
    && (Weight in Attrs(v) && Attrs(v)[Weight] == MISSING ==> p.weight.Some?)
  }

  lemma OneMore(v: View, overlays: seq<Overlay>, o: Overlay)
    ensures AllOverlaid(v, overlays + [o]) == Overlaid(AllOverlaid(v, overlays), o)
  {
    assert (overlays + [o])[..|overlays|] == overlays;
  }

  lemma PartsLaid(v: View, p: Policy)
    requires v.attributes.Some?
    ensures AllOverlaid(v, Parts(p)) == Laid(v, p)
  {
    var a := if p.prefix.Some? then [SetPrefix(p.prefix.value)] else [];
    var b := a + if p.priority.Some? then [SetPriority(p.priority.value)] else [];
    assert AllOverlaid(v, []) == v;
    if p.prefix.Some? {
      OneMore(v, [], SetPrefix(p.prefix.value));
      assert [] + [SetPrefix(p.prefix.value)] == a;
    }
    if p.priority.Some? {
      OneMore(v, a, SetPriority(p.priority.value));
    } else {
      assert b == a;
    }
    if p.weight.Some? {
      OneMore(v, b, SetWeight(p.weight.value));
    } else {
      assert Parts(p) == b;
    }
    hide AllOverlaid;
  }

  lemma HeldIsTidy(v: View, base: View)
    requires Holds(v, base) && Unmarked(base)
    ensures RestoredView(v) == Tidy(base)
  {
    var m, t := RestoredView(v).attributes.value, Tidy(base).attributes.value;
    assert forall n :: n in m <==> n in t;
    assert forall n :: n in m ==> m[n] == t[n];
    assert m == t;
  }

  lemma TidyClean(v: View)
    requires Unmarked(v)
    ensures Tidy(v) == v <==> Clean(v) && v.attributes.Some?
    ensures Clean(v) ==> Tidy(v) == View(v.prefix, Some(Attrs(v)))
  {
    if Clean(v) {
      assert Tidy(v).attributes.value == Attrs(v);
    }
  }

  /** Remembering adds the markers and changes nothing else; tidying does not change the markers. */
  lemma RememberedTidy(v: View)
    requires Unmarked(v)
    ensures var a, b := RememberedView(Tidy(v)), RememberedView(v);
      && a.attributes.Some? && b.attributes.Some? && a.prefix == Tidy(v).prefix && b.prefix == v.prefix
      && (forall n :: IsMarker(n) ==> n in Attrs(a) && n in Attrs(b) && Attrs(a)[n] == Attrs(b)[n])
      && (forall n :: !IsMarker(n) ==> (n in Attrs(a) <==> n in Attrs(Tidy(v))) && (n in Attrs(b) <==> n in Attrs(v)))
      && (forall n :: !IsMarker(n) && n in Attrs(b) ==> Attrs(b)[n] == Attrs(v)[n])
      && (forall n :: !IsMarker(n) && n in Attrs(a) ==> n in Attrs(v) && Attrs(a)[n] == Attrs(v)[n])
  {
  }

  lemma CoveredAlike(v: View, q: Policy)
    requires Unmarked(v) && Covers(q, v)
    ensures Laid(RememberedView(Tidy(v)), q) == Laid(RememberedView(v), q)
  {
    RememberedTidy(v);
    hide RememberedView;
    var c, d := Laid(RememberedView(Tidy(v)), q).attributes.value, Laid(RememberedView(v), q).attributes.value;
    assert forall n :: n in c <==> n in d;
    assert forall n :: n in c ==> c[n] == d[n];
    assert c == d;
  }

  lemma UncoveredShows(v: View, q: Policy)
    requires Unmarked(v) && !Covers(q, v)
    ensures Laid(RememberedView(Tidy(v)), q) != Laid(RememberedView(v), q)
  {
    RememberedTidy(v);
    hide RememberedView;
    var c, d := Laid(RememberedView(Tidy(v)), q), Laid(RememberedView(v), q);
    if v.prefix == MISSING && q.prefix.None? {
      assert c.prefix != d.prefix;
    } else {
      var n := if Priority in Attrs(v) && Attrs(v)[Priority] == MISSING && q.priority.None? then Priority else Weight;
      assert n in d.attributes.value && n !in c.attributes.value;
    }
  }

  /** A policy has its way where it says something, the account where it does not, and what the account
      was is remembered: restoring gives it back. */
  lemma PolicyIsApplied(base: View, p: Policy)
    ensures var bare, v := RestoredView(base), Applied(base, Some(p));
      && v.prefix == (if p.prefix.Some? then p.prefix.value else bare.prefix)
      && (p.priority.Some? ==> Priority in Attrs(v) && Attrs(v)[Priority] == p.priority.value)
      && (p.weight.Some? ==> Weight in Attrs(v) && Attrs(v)[Weight] == p.weight.value)
      && (forall n :: !IsMarker(n) && !(n == Priority && p.priority.Some?) && !(n == Weight && p.weight.Some?) ==>
            (n in Attrs(v) <==> n in Attrs(bare)) && (n in Attrs(v) ==> Attrs(v)[n] == Attrs(bare)[n]))
      && (Clean(bare) ==> RestoredView(v) == View(bare.prefix, Some(Attrs(bare))))
  {
    var bare := RestoredView(base);
    RestoredTwice(base);
    OverlaysHold(bare, Parts(p));
    HeldIsTidy(Applied(base, Some(p)), bare);
    TidyClean(bare);
    PartsLaid(RememberedView(bare), p);
    RememberedOnly(bare);
    hide AllOverlaid, RestoredView, RememberedView, Tidy, Holds, Parts;
  }

  lemma RememberedOnly(v: View)
    ensures RememberedView(v).prefix == v.prefix && RememberedView(v).attributes.Some?
    ensures forall n :: !IsMarker(n) ==>
      (n in Attrs(RememberedView(v)) <==> n in Attrs(v)) && (n in Attrs(v) ==> Attrs(RememberedView(v))[n] == Attrs(v)[n])
  {
  }

  /** Policies do not add up: what one leaves is, to the next, the account without it. This is so for
      every account and any two policies, except that a policy clears the values that mean "missing"
      and the absent attribute map, which shows if the next one does not set these itself. */
  lemma PoliciesDoNotStack(base: View, p: Option<Policy>, q: Option<Policy>)
    ensures var bare := RestoredView(base);
      && (Applied(Applied(base, p), q) == Applied(base, q) <==>
            p.None? || if q.Some? then Covers(q.value, bare) else Clean(bare) && base.attributes.Some?)
      && (Clean(bare) ==>
            && Applied(Applied(base, p), q).prefix == Applied(base, q).prefix
            && Attrs(Applied(Applied(base, p), q)) == Attrs(Applied(base, q)))
  {
    var bare := RestoredView(base);
    RestoredTwice(base);
    if p.Some? {
      OverlaysHold(bare, Parts(p.value));
      HeldIsTidy(Applied(base, p), bare);
      TidyClean(bare);
      if q.Some? {
        PartsLaid(RememberedView(Tidy(bare)), q.value);
        PartsLaid(RememberedView(bare), q.value);
        if Covers(q.value, bare) { CoveredAlike(bare, q.value); } else { UncoveredShows(bare, q.value); }
      }
    }
    hide AllOverlaid, RestoredView, RememberedView, Tidy, Laid, Holds, Parts;
  }
}
