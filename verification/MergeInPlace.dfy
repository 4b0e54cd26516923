/** JsonMergePatch on maps that live in the heap: the base is updated in place and takes over the patch's own maps. */
module MergeInPlace {
  import opened Wrappers
  import opened MergePatch

  datatype Value = NullValue | AtomValue(text: string) | ListValue(items: seq<Json>) | MapValue(node: JsonMap)

  /** A map from member names to values; repr holds every map reachable from it, in the shape of a tree. */
  class JsonMap {
    var fields: map<string, Value>
    ghost var repr: set<JsonMap>

    ghost predicate Valid()
      reads this, repr
      decreases repr
    {
      && this in repr
      && (forall k :: k in fields && fields[k].MapValue? ==>
            var c := fields[k].node;
            c in repr && c.repr <= repr && this !in c.repr && c.Valid())
      && (forall k, l :: k in fields && l in fields && k != l && fields[k].MapValue? && fields[l].MapValue? ==>
            fields[k].node.repr !! fields[l].node.repr)
    }

    ghost function View(): Object
      requires Valid()
      reads this, repr
      decreases repr, 1
    {
      map k | k in fields :: Member(k)
    }

    ghost function Member(k: string): Json
      requires Valid() && k in fields
      reads this, repr
      decreases repr, 0
    {
      match fields[k]
      case NullValue => Null
      case AtomValue(text) => Atom(text)
      case ListValue(items) => List(items)
      case MapValue(c) => Obj(c.View())
    }

    ghost function At(k: string): Option<Json>
      requires Valid()
      reads this, repr
    {
      if k in fields then Some(Member(k)) else None
    }

    /** The maps reachable through one member. */
    ghost function Footprint(k: string): set<JsonMap>
      requires Valid()
      reads this, repr
    {
      if k in fields && fields[k].MapValue? then fields[k].node.repr else {}
    }

    lemma FootprintsApart(k: string, l: string)
      requires Valid() && k != l
      ensures Footprint(k) !! Footprint(l) && this !in Footprint(k) && Footprint(k) <= repr
    {
    }

    // ---------- the three branches of the loop body ----------

    method Remove(k: string)
      requires Valid()
      modifies this`fields
      ensures Valid() && k !in fields
      ensures forall l :: l != k ==> At(l) == old(At(l)) && Footprint(l) == old(Footprint(l))
    {
      fields := fields - {k};
    }

    /** Another map's member k could become, or be merged into, this map's member k. */
    ghost predicate MayTake(k: string, from: JsonMap)
      requires Valid()
      reads this, repr, from, from.repr
    {
      && from.Valid() && k in from.fields && this !in from.repr && Footprint(k) !! from.repr
      && forall l :: l != k ==> Footprint(l) !! from.Footprint(k)
    }

    method Put(k: string, from: JsonMap)
      requires Valid() && MayTake(k, from)
      modifies this
      ensures Valid() && repr == old(repr) + from.Footprint(k)
      ensures At(k) == from.At(k) && Footprint(k) == from.Footprint(k)
      ensures forall l :: l != k ==> At(l) == old(At(l)) && Footprint(l) == old(Footprint(l))
    {
      forall l | l in fields && l != k && fields[l].MapValue?
        ensures fields[l].node.repr !! from.Footprint(k)
      {
        assert Footprint(l) !! from.Footprint(k);
      }
      ghost var taken := from.Footprint(k);
      assert from.fields[k].MapValue? ==> var c := from.fields[k].node; c.Valid() && c.repr == taken && this !in c.repr;
      fields := fields[k := from.fields[k]];
      repr := repr + taken;
    }

    method MergeMember(k: string, from: JsonMap)
      requires Valid() && MayTake(k, from)
      requires k in fields && fields[k].MapValue? && from.fields[k].MapValue?
      modifies this`repr, Footprint(k)
      ensures Valid() && repr <= old(repr) + from.Footprint(k)
      ensures At(k) == Some(Obj(Merged(old(Member(k)).fields, from.Member(k).fields)))
      ensures Footprint(k) <= old(Footprint(k)) + from.Footprint(k)
      ensures forall l :: l != k ==> At(l) == old(At(l)) && Footprint(l) == old(Footprint(l))
      decreases from.Footprint(k), 2
    {
      forall l | l in fields && l != k && fields[l].MapValue?
        ensures fields[l].node.repr !! from.Footprint(k) + Footprint(k)
      {
        assert Footprint(l) !! from.Footprint(k);
      }
      // the recursive call returns the very map it was given, so this map's own fields stay
      var c, p := fields[k].node, from.fields[k].node;
      c.JsonMergePatch(p);
      repr := repr + c.repr;
    }

    /** One turn of the loop. */
    method MergeOne(k: string, patch: JsonMap)
      requires Valid() && MayTake(k, patch)
      modifies this, Footprint(k)
      ensures Valid() && repr <= old(repr) + patch.Footprint(k)
      ensures At(k) == Settle(old(At(k)), patch.Member(k))
      ensures Footprint(k) <= old(Footprint(k)) + patch.Footprint(k)
      ensures forall l :: l != k ==> At(l) == old(At(l)) && Footprint(l) == old(Footprint(l))
      ensures patch.Valid() && patch.View() == old(patch.View()) && patch.Feet() == old(patch.Feet())
      decreases patch.Footprint(k), 3
    {
      if patch.fields[k].NullValue? {
        Remove(k);
        return;
      }
      if k in fields && fields[k].MapValue? && patch.fields[k].MapValue? {
        MergeMember(k, patch);
        return;
      }
      Put(k, patch);
    }

    /** The members in rest are as they were; the others have had their turn. */
    ghost predicate Midway(before: Object, own: map<string, set<JsonMap>>,
                           given: Object, lent: map<string, set<JsonMap>>, rest: set<string>)
      requires Valid()
      reads this, repr
    {
      forall l ::
        if l in rest || l !in given then At(l) == Find(before, l) && Footprint(l) <= Foot(own, l)
        else At(l) == Settle(Find(before, l), given[l]) && Footprint(l) <= Foot(own, l) + Foot(lent, l)
    }

    ghost function Feet(): map<string, set<JsonMap>>
      requires Valid()
      reads this, repr
    {
      map k | k in fields :: Footprint(k)
    }

    lemma MidwayAtFirst(given: Object, lent: map<string, set<JsonMap>>)
      requires Valid()
      ensures Midway(View(), Feet(), given, lent, given.Keys)
      ensures forall l :: Foot(Feet(), l) == Footprint(l) <= repr
    {
    }

    lemma MidwayMayTake(before: Object, own: map<string, set<JsonMap>>, patch: JsonMap, rest: set<string>, k: string)
      requires Valid() && patch.Valid() && this !in patch.repr
      requires Midway(before, own, patch.View(), patch.Feet(), rest) && k in rest && k in patch.fields
      requires forall l :: Foot(own, l) !! patch.repr
      ensures MayTake(k, patch)
    {
      assert Footprint(k) <= Foot(own, k);
      forall l | l != k ensures Footprint(l) !! patch.Footprint(k) {
        patch.FootprintsApart(k, l);
        assert Footprint(l) <= Foot(own, l) + Foot(patch.Feet(), l);
      }
    }

    /** One turn, with the members that had theirs before and those still waiting kept in view. */
    method MergeNext(k: string, patch: JsonMap, ghost before: Object, ghost own: map<string, set<JsonMap>>,
                     ghost given: Object, ghost lent: map<string, set<JsonMap>>, ghost rest: set<string>)
      requires Valid() && patch.Valid() && this !in patch.repr && given == patch.View() && lent == patch.Feet()
      requires Midway(before, own, given, lent, rest) && k in rest && k in patch.fields
      requires forall l :: Foot(own, l) !! patch.repr
      modifies this, Footprint(k)
      ensures Valid() && repr <= old(repr) + patch.repr
      ensures Midway(before, own, given, lent, rest - {k})
      ensures patch.Valid() && given == patch.View() && lent == patch.Feet()
      decreases patch.Footprint(k), 4
    {
      MidwayMayTake(before, own, patch, rest, k);
      assert given[k] == patch.Member(k) && Foot(lent, k) == patch.Footprint(k) <= patch.repr;
      MergeOne(k, patch);
    }

    /** The loop, for any order in which the patch hands out its keys. The patch itself is left as it was. */
    method JsonMergePatch(patch: JsonMap)
      requires Valid() && patch.Valid() && repr !! patch.repr
      modifies repr
      ensures Valid() && repr <= old(repr) + patch.repr
      ensures View() == Merged(old(View()), patch.View())
      ensures patch.Valid() && patch.View() == old(patch.View())
      decreases patch.repr, 1
    {
      ghost var before, own, given, lent := View(), Feet(), patch.View(), patch.Feet();
      var rest := patch.fields.Keys;
      MidwayAtFirst(given, lent);
      while rest != {}
        invariant rest <= patch.fields.Keys
        invariant Valid() && repr <= old(repr) + patch.repr
        invariant patch.Valid() && patch.View() == given && patch.Feet() == lent
        invariant Midway(before, own, given, lent, rest)
        decreases |rest|
      {
        var k :| k in rest;
        assert Footprint(k) <= Foot(own, k);
        MergeNext(k, patch, before, own, given, lent, rest);
        rest := rest - {k};
      }
      ViewIs(before, own, given, lent);
    }

    lemma ViewIs(before: Object, own: map<string, set<JsonMap>>, given: Object, lent: map<string, set<JsonMap>>)
      requires Valid() && Midway(before, own, given, lent, {})
      ensures View() == Merged(before, given)
    {
      forall k ensures Find(View(), k) == Find(Merged(before, given), k) {
        assert At(k) == if k in given then Settle(Find(before, k), given[k]) else Find(before, k);
        MergedMember(before, given, k);
      }
      assert forall k :: k in View() <==> Find(View(), k).Some?;
      assert forall k :: k in Merged(before, given) <==> Find(Merged(before, given), k).Some?;
    }
  }

  function Find(o: Object, k: string): Option<Json> {
    if k in o then Some(o[k]) else None
  }

  ghost function Foot(feet: map<string, set<JsonMap>>, k: string): set<JsonMap> {
    if k in feet then feet[k] else {}
  }

  /** What one member of a base becomes under a member of the patch. */
  function Settle(before: Option<Json>, v: Json): Option<Json> {
    if v.Null? then None
    else if before.Some? && before.value.Obj? && v.Obj? then Some(Obj(Merged(before.value.fields, v.fields)))
    else Some(v)
  }
}
