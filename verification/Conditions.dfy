/** Condition lists: an ordered slice the source edits in place, shown to behave as a map
    from condition type to condition. */
module Conditions {
  import opened Types

  /** What one call sets. `generation` is None for the node agent, which leaves the
      observed generation alone. */
  datatype Verdict = Verdict(status: ConditionStatus, reason: string, message: string)

  function Fresh(typ: string, v: Verdict, generation: Option<int>, now: Time): Condition {
    Condition(typ, v.status, v.reason, v.message,
              if generation.Some? then generation.value else 0, now)
  }

  function Touch(c: Condition, v: Verdict, generation: Option<int>, now: Time): Condition {
    Condition(c.typ, v.status, v.reason, v.message,
              if generation.Some? then generation.value else c.observedGeneration,
              if c.status != v.status then now else c.lastTransition)
  }

  /** The value a set leaves in the slice: the first entry of the type is edited, a new
      type goes to the end. */
  function SetCond(cs: seq<Condition>, typ: string, v: Verdict, generation: Option<int>, now: Time): seq<Condition> {
    if cs == [] then [Fresh(typ, v, generation, now)]
    else if cs[0].typ == typ then [Touch(cs[0], v, generation, now)] + cs[1..]
    else [cs[0]] + SetCond(cs[1..], typ, v, generation, now)
  }

  function Find(cs: seq<Condition>, typ: string): Option<Condition> {
    if cs == [] then None
    else if cs[0].typ == typ then Some(cs[0])
    else Find(cs[1..], typ)
  }

  predicate HasCondition(cs: seq<Condition>, typ: string, status: ConditionStatus) {
    exists i :: 0 <= i < |cs| && cs[i].typ == typ && cs[i].status == status
  }

  predicate Unique(cs: seq<Condition>) {
    forall i, j :: 0 <= i < j < |cs| ==> cs[i].typ != cs[j].typ
  }

  /** The map a list of distinct types stands for. */
  ghost function AsMap(cs: seq<Condition>): map<string, Condition> {
    map t | t in (set i | 0 <= i < |cs| :: cs[i].typ) && Find(cs, t).Some? :: Find(cs, t).value
  }

  /** The list of types; sets never reorder it. */
  ghost function TypeOrder(cs: seq<Condition>): seq<string> {
    seq(|cs|, i requires 0 <= i < |cs| => cs[i].typ)
  }

  lemma {:induction false} FindMember(cs: seq<Condition>, typ: string)
    ensures Find(cs, typ).Some? <==> exists i :: 0 <= i < |cs| && cs[i].typ == typ
    ensures Find(cs, typ).Some? ==> Find(cs, typ).value in cs && Find(cs, typ).value.typ == typ
  {
    if cs != [] {
      FindMember(cs[1..], typ);
      if cs[0].typ != typ && exists i :: 0 <= i < |cs| && cs[i].typ == typ {
        var i :| 0 <= i < |cs| && cs[i].typ == typ;
        assert cs[1..][i - 1].typ == typ;
      }
    }
  }

  /** With distinct types, "some entry says so" and "the entry says so" are the same. */
  lemma UniqueHas(cs: seq<Condition>, typ: string, status: ConditionStatus)
    requires Unique(cs)
    ensures HasCondition(cs, typ, status) <==> Find(cs, typ).Some? && Find(cs, typ).value.status == status
  {
    FindMember(cs, typ);
    if Find(cs, typ).Some? {
      var i :| 0 <= i < |cs| && cs[i] == Find(cs, typ).value;
      assert forall j :: 0 <= j < |cs| && cs[j].typ == typ ==> i == j;
    }
  }

  /** Setting one type is read back as written and leaves every other type untouched. */
  lemma {:induction false} FindAfterSet(cs: seq<Condition>, typ: string, v: Verdict, g: Option<int>, now: Time, other: string)
    ensures var r := SetCond(cs, typ, v, g, now);
            Find(r, other) ==
            if other != typ then Find(cs, other)
            else if Find(cs, typ).None? then Some(Fresh(typ, v, g, now))
            else Some(Touch(Find(cs, typ).value, v, g, now))
  {
    if cs != [] {
      FindAfterSet(cs[1..], typ, v, g, now, other);
    }
  }

  /** A set that says nothing new changes nothing, whatever the clock shows. */
  lemma {:induction false} SetAgain(cs: seq<Condition>, typ: string, v: Verdict, g: Option<int>, now: Time)
    requires Find(cs, typ).Some? && Touch(Find(cs, typ).value, v, g, now) == Find(cs, typ).value
    ensures SetCond(cs, typ, v, g, now) == cs
  {
    if cs[0].typ != typ {
      SetAgain(cs[1..], typ, v, g, now);
    }
  }

  lemma {:induction false} SetTypes(cs: seq<Condition>, typ: string, v: Verdict, g: Option<int>, now: Time)
    ensures var r := SetCond(cs, typ, v, g, now);
            TypeOrder(r) == if Find(cs, typ).Some? then TypeOrder(cs) else TypeOrder(cs) + [typ]
  {
    if cs != [] {
      SetTypes(cs[1..], typ, v, g, now);
      var r, q := SetCond(cs, typ, v, g, now), SetCond(cs[1..], typ, v, g, now);
      assert TypeOrder(cs) == [cs[0].typ] + TypeOrder(cs[1..]);
      if cs[0].typ != typ {
        assert TypeOrder(r) == [cs[0].typ] + TypeOrder(q);
      }
    }
  }

  /** The first entry of the type, at `i`, is the one edited; past the end means append. */
  lemma {:induction false} SetAt(cs: seq<Condition>, typ: string, v: Verdict, g: Option<int>, now: Time, i: nat)
    requires i <= |cs| && (i < |cs| ==> cs[i].typ == typ)
    requires forall j :: 0 <= j < i ==> cs[j].typ != typ
    ensures SetCond(cs, typ, v, g, now) ==
            if i < |cs| then cs[i := Touch(cs[i], v, g, now)] else cs + [Fresh(typ, v, g, now)]
  {
    if cs != [] && i > 0 {
      SetAt(cs[1..], typ, v, g, now, i - 1);
    }
  }

  lemma SetKeepsUnique(cs: seq<Condition>, typ: string, v: Verdict, g: Option<int>, now: Time)
    requires Unique(cs)
    ensures var r := SetCond(cs, typ, v, g, now); Unique(r) && TypeOrder(cs) <= TypeOrder(r)
  {
    hide SetCond, Touch, Fresh;
    var r := SetCond(cs, typ, v, g, now);
    SetTypes(cs, typ, v, g, now);
    FindMember(cs, typ);
    forall i, j | 0 <= i < j < |r| ensures r[i].typ != r[j].typ {
      assert TypeOrder(r)[i] == r[i].typ && TypeOrder(r)[j] == r[j].typ;
      assert j < |cs| ==> TypeOrder(cs)[i] == cs[i].typ && TypeOrder(cs)[j] == cs[j].typ;
      assert i < |cs| ==> TypeOrder(cs)[i] == cs[i].typ;
    }
  }

  lemma AsMapFinds(cs: seq<Condition>)
    ensures forall t :: t in AsMap(cs) <==> Find(cs, t).Some?
    ensures forall t :: t in AsMap(cs) ==> AsMap(cs)[t] == Find(cs, t).value
  {
    forall t ensures t in AsMap(cs) <==> Find(cs, t).Some? {
      FindMember(cs, t);
    }
  }

  /** What a set stores for its type, given what the map held. */
  function Stored(m: map<string, Condition>, typ: string, v: Verdict, g: Option<int>, now: Time): Condition {
    if typ in m then Touch(m[typ], v, g, now) else Fresh(typ, v, g, now)
  }

  /** The slice refines a map: distinct types stay distinct, in the same order, and a set is
      exactly a map update. */
  lemma SetRefinesMap(cs: seq<Condition>, typ: string, v: Verdict, g: Option<int>, now: Time)
    requires Unique(cs)
    ensures var r := SetCond(cs, typ, v, g, now);
            && Unique(r) && TypeOrder(cs) <= TypeOrder(r)
            && AsMap(r) == AsMap(cs)[typ := Stored(AsMap(cs), typ, v, g, now)]
  {
    hide SetCond, Touch, Fresh, AsMap;
    var r := SetCond(cs, typ, v, g, now);
    SetKeepsUnique(cs, typ, v, g, now);
    AsMapFinds(cs);
    AsMapFinds(r);
    forall t ensures Find(r, t) == if t != typ then Find(cs, t)
                                   else if Find(cs, typ).None? then Some(Fresh(typ, v, g, now))
                                   else Some(Touch(Find(cs, typ).value, v, g, now)) {
      FindAfterSet(cs, typ, v, g, now, t);
    }
  }

  /** The transition time of the type moves exactly when its status value changes or it is new. */
  lemma TransitionTime(cs: seq<Condition>, typ: string, v: Verdict, g: Option<int>, now: Time)
    ensures var before, after := Find(cs, typ), Find(SetCond(cs, typ, v, g, now), typ);
            && after.Some?
            && after.value.lastTransition ==
               if before.Some? && before.value.status == v.status then before.value.lastTransition else now
  {
    FindAfterSet(cs, typ, v, g, now, typ);
  }

  /** The slice behind a pointer, as the source passes it around. */
  class ConditionList {
    var items: seq<Condition>

    constructor (initial: seq<Condition>)
      ensures items == initial
    {
      items := initial;
    }

    method Set(typ: string, v: Verdict, generation: Option<int>, now: Time)
      modifies this
      ensures items == SetCond(old(items), typ, v, generation, now)
    {
      var i := 0;
      while i < |items|
        invariant 0 <= i <= |items| && items == old(items)
        invariant forall j :: 0 <= j < i ==> items[j].typ != typ
      {
        if items[i].typ == typ {
          SetAt(items, typ, v, generation, now, i);
          items := items[i := Touch(items[i], v, generation, now)];
          return;
        }
        i := i + 1;
      }
      SetAt(items, typ, v, generation, now, i);
      items := items + [Fresh(typ, v, generation, now)];
    }
  }
}
