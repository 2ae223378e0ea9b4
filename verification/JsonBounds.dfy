/** Whatever text is parsed, the value nests at most 64 deep and has distinct keys; so printing it loses nothing. */
module JsonBounds {
  import opened JsonModel
  import opened JsonRoundTrip

  /** A value the parser may return where `room` levels are left. */
  predicate Bounded(v: Json, room: int) { Depth(v) <= room && DistinctKeys(v) }

  ghost predicate BoundedMembers(members: seq<Member>, room: int) {
    Unique(members) && forall m <- members :: Bounded(m.value, room)
  }

  lemma {:induction false} ItemsBounded(items: seq<Json>, room: nat)
    requires forall x <- items :: Bounded(x, room - 1)
    ensures Bounded(Arr(items), room)
  {
    if items != [] {
      assert items[0] in items && forall x <- items[1..] :: x in items;
      ItemsBounded(items[1..], room);
    }
  }

  lemma {:induction false} DeepestBounded(members: seq<Member>, room: nat)
    requires forall m <- members :: Bounded(m.value, room - 1)
    ensures DeepestMember(members) <= room
  {
    if members != [] {
      DeepestBounded(members[1..], room);
      assert Bounded(members[0].value, room - 1);
    }
  }

  lemma {:induction false} SetFrom(members: seq<Member>, key: string, value: Json)
    ensures forall m <- Set(members, key, value) :: m in members || m == Member(key, value)
  {
    if members != [] { SetFrom(members[1..], key, value); }
  }

  lemma SetBounded(members: seq<Member>, key: string, value: Json, room: int)
    requires BoundedMembers(members, room) && Bounded(value, room)
    ensures BoundedMembers(Set(members, key, value), room)
  {
    SetIsUnique(members, key, value);
    SetFrom(members, key, value);
  }

  lemma NumberBounded(t: string, i: nat)
    ensures Number(t, i).Got? ==> Bounded(Number(t, i).value, 0)
  {
  }

  lemma {:induction false} ValueBounded(t: string, i: nat, depth: nat)
    ensures Value(t, i, depth).Got? ==> Bounded(Value(t, i, depth).value, MAX_DEPTH - depth)
    decreases |t| - i, 2
  {
    hide Number;
    if depth <= MAX_DEPTH && i < |t| {
      match t[i]
      case '[' => ArrayBounded(t, i, depth);
      case '{' => ObjectBounded(t, i, depth);
      case _ => NumberBounded(t, i);
    }
  }

  lemma {:induction false} ArrayBounded(t: string, i: nat, depth: nat)
    requires i < |t| && depth <= MAX_DEPTH
    ensures Array(t, i, depth).Got? ==> Bounded(Array(t, i, depth).value, MAX_DEPTH - depth)
    decreases |t| - i, 1
  {
    hide Elements;
    ItemsBounded([], MAX_DEPTH - depth);
    ElementsBounded(t, SkipSpace(t, i + 1), depth, []);
  }

  lemma {:induction false} ElementsBounded(t: string, i: nat, depth: nat, items: seq<Json>)
    requires i <= |t| && depth <= MAX_DEPTH && forall x <- items :: Bounded(x, MAX_DEPTH - depth - 1)
    ensures Elements(t, i, depth, items).Got? ==> Bounded(Elements(t, i, depth, items).value, MAX_DEPTH - depth)
    decreases |t| - i, 3
  {
    hide Value, SkipSpace, Bounded;
    var v := Value(t, SkipSpace(t, i), depth + 1);
    ValueBounded(t, SkipSpace(t, i), depth + 1);
    if v.Got? {
      ItemsBounded(items + [v.value], MAX_DEPTH - depth);
      var k := SkipSpace(t, v.next);
      if k < |t| && t[k] == ',' { ElementsBounded(t, k + 1, depth, items + [v.value]); }
    }
  }

  lemma {:induction false} ObjectBounded(t: string, i: nat, depth: nat)
    requires i < |t| && depth <= MAX_DEPTH
    ensures Object(t, i, depth).Got? ==> Bounded(Object(t, i, depth).value, MAX_DEPTH - depth)
    decreases |t| - i, 1
  {
    hide Members;
    assert Bounded(Obj([]), MAX_DEPTH - depth);
    MembersBounded(t, SkipSpace(t, i + 1), depth, []);
  }

  lemma ObjBounded(members: seq<Member>, room: nat)
    requires BoundedMembers(members, room - 1)
    ensures Bounded(Obj(members), room)
  {
    DeepestBounded(members, room);
  }

  lemma {:induction false} MembersBounded(t: string, i: nat, depth: nat, members: seq<Member>)
    requires i <= |t| && depth <= MAX_DEPTH && BoundedMembers(members, MAX_DEPTH - depth - 1)
    ensures Members(t, i, depth, members).Got? ==> Bounded(Members(t, i, depth, members).value, MAX_DEPTH - depth)
    decreases |t| - i, 3
  {
    hide Value, SkipSpace, Key, Set, Bounded, BoundedMembers;
    var key := Key(t, i);
    if key.Got? {
      var v := Value(t, key.next, depth + 1);
      ValueBounded(t, key.next, depth + 1);
      if v.Got? {
        var more := Set(members, key.value, v.value);
        SetBounded(members, key.value, v.value, MAX_DEPTH - depth - 1);
        ObjBounded(more, MAX_DEPTH - depth);
        var k := SkipSpace(t, v.next);
        if k < |t| && t[k] == ',' { MembersBounded(t, k + 1, depth, more); }
      }
    }
  }

  /** For every text: if it parses, its value is bounded, and printing that value and parsing again gives it back. */
  lemma ParsedIsCanonical(t: string, indent: int)
    requires Parse(t).Got?
    ensures var v := Parse(t).value;
            && Depth(v) <= MAX_DEPTH && DistinctKeys(v)
            && (Plain(v) ==> Parse(Dump(v, indent, 0)) == Got(v, |Dump(v, indent, 0)|))
  {
    hide Value, Dump, Depth, DistinctKeys, Plain;
    ValueBounded(t, SkipSpace(t, 0), 0);
    var v := Parse(t).value;
    if Plain(v) { RoundTripIff(v, indent); }
  }
}
