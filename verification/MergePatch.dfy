/** JSON merge patch as a function on values, and how it relates to section 2 of RFC 7396. */
module MergePatch {
  type Object = map<string, Json>

  datatype Json = Null | Atom(text: string) | List(items: seq<Json>) | Obj(fields: Object)

  /** MergePatch(Target, Patch) of RFC 7396; a missing member reads as Null, which is not an object either. */
  function Rfc(target: Json, patch: Json): Json
    decreases patch
  {
    if patch.Obj? then
      var base: Object := if target.Obj? then target.fields else map[];
      Obj(map k | k in base.Keys + patch.fields.Keys && !(k in patch.fields && patch.fields[k].Null?) ::
            if k in patch.fields then Rfc(if k in base then base[k] else Null, patch.fields[k]) else base[k])
    else patch
  }

  predicate BothObjects(base: Object, patch: Object, k: string) {
    k in base && base[k].Obj? && k in patch && patch[k].Obj?
  }

  /** What JsonMergePatch makes of a base. */
  function Merged(base: Object, patch: Object): Object
    decreases Obj(patch)
  {
    map k | k in base.Keys + patch.Keys && !(k in patch && patch[k].Null?) ::
      if BothObjects(base, patch, k) then Obj(Merged(base[k].fields, patch[k].fields))
      else if k in patch then patch[k]
      else base[k]
  }

  predicate Survives(base: Object, patch: Object, k: string) {
    if k in patch then !patch[k].Null? else k in base
  }

  /** One member of a merge. */
  lemma MergedMember(base: Object, patch: Object, k: string)
    ensures k in Merged(base, patch) <==> Survives(base, patch, k)
    ensures k in Merged(base, patch) ==>
              Merged(base, patch)[k] ==
              if BothObjects(base, patch, k) then Obj(Merged(base[k].fields, patch[k].fields))
              else if k in patch then patch[k]
              else base[k]
  {
  }

  /** One member of what RFC 7396 asks for; target is an object with these fields, or no object and they are none. */
  lemma RfcMember(target: Json, base: Object, patch: Object, k: string)
    requires base == if target.Obj? then target.fields else map[]
    ensures var r := Rfc(target, Obj(patch));
            && r.Obj?
            && (k in r.fields <==> Survives(base, patch, k))
            && (k in r.fields ==>
                  r.fields[k] == if k in patch then Rfc(if k in base then base[k] else Null, patch[k]) else base[k])
  {
  }

  // ---------- one application ----------

  /** No member at any depth of nested objects is null. */
  predicate NoNulls(j: Json)
    decreases j
  {
    j.Obj? ==> forall k :: k in j.fields ==> !j.fields[k].Null? && NoNulls(j.fields[k])
  }

  /** Every patch object that lands on something else than an object is free of nulls. */
  predicate NullsMeetObjects(base: Object, patch: Object)
    decreases Obj(patch)
  {
    forall k :: k in patch && patch[k].Obj? ==>
      if BothObjects(base, patch, k) then NullsMeetObjects(base[k].fields, patch[k].fields) else NoNulls(patch[k])
  }

  /** Laid over a non-object, a patch is itself exactly when it holds no nulls. */
  lemma {:induction false} OverNonObject(target: Json, patch: Json)
    requires !target.Obj?
    ensures Rfc(target, patch) == patch <==> NoNulls(patch)
    decreases patch
  {
    if patch.Obj? {
      var r := Rfc(target, patch).fields;
      forall k | k in patch.fields
        ensures Rfc(Null, patch.fields[k]) == patch.fields[k] <==> NoNulls(patch.fields[k])
      {
        OverNonObject(Null, patch.fields[k]);
      }
      if NoNulls(patch) {
        assert r == patch.fields;
      }
      if r == patch.fields {
        forall k | k in patch.fields
          ensures !patch.fields[k].Null? && NoNulls(patch.fields[k])
        {
          assert k in r && r[k] == patch.fields[k];
        }
      }
    }
  }

  /** One application is what RFC 7396 asks for exactly when nulls only ever meet objects. */
  lemma {:induction false} OneApplication(base: Object, patch: Object)
    ensures Obj(Merged(base, patch)) == Rfc(Obj(base), Obj(patch)) <==> NullsMeetObjects(base, patch)
    decreases Obj(patch)
  {
    var m, r := Merged(base, patch), Rfc(Obj(base), Obj(patch)).fields;
    forall k ensures k in m <==> k in r {
      MergedMember(base, patch, k);
      RfcMember(Obj(base), base, patch, k);
    }
    forall k | k in patch && patch[k].Obj?
      ensures k in m && (m[k] == r[k] <==>
                         if BothObjects(base, patch, k) then NullsMeetObjects(base[k].fields, patch[k].fields)
                         else NoNulls(patch[k]))
    {
      MergedMember(base, patch, k);
      RfcMember(Obj(base), base, patch, k);
      if BothObjects(base, patch, k) {
        OneApplication(base[k].fields, patch[k].fields);
      } else {
        OverNonObject(if k in base then base[k] else Null, patch[k]);
      }
    }
    forall k | k in m && !(k in patch && patch[k].Obj?)
      ensures m[k] == r[k]
    {
      MergedMember(base, patch, k);
      RfcMember(Obj(base), base, patch, k);
    }
  }

  /** Onto an empty base, {"a": {"b": null}} leaves the null where RFC 7396 asks for an empty object. */
  lemma OneApplicationKeepsNull()
    ensures var patch: Object := map["a" := Obj(map["b" := Null])];
            Merged(map[], patch) == patch && Rfc(Obj(map[]), Obj(patch)) == Obj(map["a" := Obj(map[])])
  {
    var patch: Object := map["a" := Obj(map["b" := Null])];
    forall k
      ensures (k in Merged(map[], patch) <==> k in patch) && (k in patch ==> Merged(map[], patch)[k] == patch[k])
    {
      MergedMember(map[], patch, k);
    }
    var inner := Rfc(Null, Obj(map["b" := Null]));
    assert inner == Obj(map[]) by {
      assert inner.fields == map[];
    }
    assert Rfc(Obj(map[]), Obj(patch)).fields == map["a" := inner];
  }

  // ---------- two applications ----------

  /** Merging an object into itself only strips its nulls. */
  lemma {:induction false} OntoItself(patch: Object, target: Json)
    requires !target.Obj?
    ensures Obj(Merged(patch, patch)) == Rfc(target, Obj(patch))
    decreases Obj(patch)
  {
    var m, r := Merged(patch, patch), Rfc(target, Obj(patch)).fields;
    forall k
      ensures (k in m <==> k in r) && (k in m ==> m[k] == r[k])
    {
      MergedMember(patch, patch, k);
      RfcMember(target, map[], patch, k);
      if k in patch && patch[k].Obj? {
        OntoItself(patch[k].fields, Null);
      }
    }
  }

  /** A second application of the same patch always gives the result RFC 7396 asks of one. */
  lemma {:induction false} TwoApplications(base: Object, patch: Object)
    ensures Obj(Merged(Merged(base, patch), patch)) == Rfc(Obj(base), Obj(patch))
    decreases Obj(patch)
  {
    var once := Merged(base, patch);
    var m, r := Merged(once, patch), Rfc(Obj(base), Obj(patch)).fields;
    forall k
      ensures (k in m <==> k in r) && (k in m ==> m[k] == r[k])
    {
      MergedMember(base, patch, k);
      MergedMember(once, patch, k);
      RfcMember(Obj(base), base, patch, k);
      if k in patch && patch[k].Obj? {
        if BothObjects(base, patch, k) {
          TwoApplications(base[k].fields, patch[k].fields);
        } else {
          assert once[k] == patch[k];
          OntoItself(patch[k].fields, if k in base then base[k] else Null);
        }
      }
    }
  }

  /** From the second application on nothing changes any more. */
  lemma {:induction false} FurtherApplications(base: Object, patch: Object)
    ensures var twice := Merged(Merged(base, patch), patch); Merged(twice, patch) == twice
    decreases Obj(patch)
  {
    var once := Merged(base, patch);
    var twice := Merged(once, patch);
    var m := Merged(twice, patch);
    forall k
      ensures (k in m <==> k in twice) && (k in m ==> m[k] == twice[k])
    {
      MergedMember(base, patch, k);
      MergedMember(once, patch, k);
      MergedMember(twice, patch, k);
      if k in patch && patch[k].Obj? {
        if BothObjects(base, patch, k) {
          FurtherApplications(base[k].fields, patch[k].fields);
        } else {
          OntoItselfTwice(patch[k].fields);
        }
      }
    }
  }

  lemma {:induction false} OntoItselfTwice(patch: Object)
    ensures Merged(Merged(patch, patch), patch) == Merged(patch, patch)
    decreases Obj(patch)
  {
    var once := Merged(patch, patch);
    var m := Merged(once, patch);
    forall k
      ensures (k in m <==> k in once) && (k in m ==> m[k] == once[k])
    {
      MergedMember(patch, patch, k);
      MergedMember(once, patch, k);
      if k in patch && patch[k].Obj? {
        OntoItselfTwice(patch[k].fields);
      }
    }
  }
}
