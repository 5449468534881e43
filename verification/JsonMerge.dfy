/** The settings merge of src/daemon/app.cpp against the JSON Merge Patch of section 2 of RFC 7396. */
module JsonMerge {
  import opened Wrappers

  datatype Json = Null | Bool(b: bool) | Number(n: real) | Text(s: string) | Array(items: seq<Json>)
                | Obj(fields: map<string, Json>)

  /** merge_objects on two objects. A member lands on the base by recursion only where both are objects; else
      it is taken over as it stands, nulls inside it included. */
  function Merge(base: Json, patch: Json): (r: Json)
    requires base.Obj? && patch.Obj?
    ensures r.Obj?
    decreases patch
  {
    Obj(map k | k in base.fields.Keys + patch.fields.Keys && !(k in patch.fields && patch.fields[k].Null?) ::
      if k !in patch.fields then base.fields[k]
      else if k in base.fields && base.fields[k].Obj? && patch.fields[k].Obj? then Merge(base.fields[k], patch.fields[k])
      else patch.fields[k])
  }

  /** A null of the patch naming a member the base does not have; erasing an absent key throws. */
  predicate Missing(base: Json, patch: Json)
    requires base.Obj? && patch.Obj?
    decreases patch
  {
    exists k :: k in patch.fields &&
      if patch.fields[k].Null? then k !in base.fields
      else k in base.fields && base.fields[k].Obj? && patch.fields[k].Obj? && Missing(base.fields[k], patch.fields[k])
  }

  /** What merge_objects returns, None standing for an exception. */
  function Merged(base: Json, patch: Json): Option<Json> {
    if base.Obj? && patch.Obj? && !Missing(base, patch) then Some(Merge(base, patch)) else None
  }

  /** merge_objects as it is written: a copy of the base, edited member by member in whatever order the patch
      lists them. It throws on a base or patch that is no object and on erasing a member that is not there. */
  method MergeObjects(base: Json, patch: Json) returns (merged: Option<Json>)
    ensures merged == Merged(base, patch)
    decreases patch
  {
    if !base.Obj? || !patch.Obj? {
      return None;
    }
    var fields := base.fields;
    var todo := patch.fields.Keys;
    while todo != {}
      invariant todo <= patch.fields.Keys
      invariant forall k :: k in patch.fields && k !in todo ==>
                  !(if patch.fields[k].Null? then k !in base.fields
                    else k in base.fields && base.fields[k].Obj? && patch.fields[k].Obj? && Missing(base.fields[k], patch.fields[k]))
      invariant forall k :: k in patch.fields && k !in todo ==>
                  (k in fields <==> k in Merge(base, patch).fields) && (k in fields ==> fields[k] == Merge(base, patch).fields[k])
      invariant forall k :: k !in patch.fields || k in todo ==>
                  (k in fields <==> k in base.fields) && (k in fields ==> fields[k] == base.fields[k])
      decreases todo
    {
      var k :| k in todo;
      todo := todo - {k};
      var value := patch.fields[k];
      if value.Null? {
        if k !in fields {
          return None;
        }
        fields := fields - {k};
      } else if k in fields && fields[k].Obj? && value.Obj? {
        var inner := MergeObjects(fields[k], value);
        if inner.None? {
          return None;
        }
        fields := fields[k := inner.value];
      } else {
        fields := fields[k := value];
      }
    }
    assert fields == Merge(base, patch).fields;
    merged := Some(Obj(fields));
  }

  /** MergePatch of RFC 7396, section 2; an absent target is given as Null. */
  function MergePatch(target: Json, patch: Json): Json
    decreases patch
  {
    if !patch.Obj? then patch else
    var t := if target.Obj? then target.fields else map[];
    Obj(map k | k in t.Keys + patch.fields.Keys && !(k in patch.fields && patch.fields[k].Null?) ::
      if k !in patch.fields then t[k]
      else MergePatch(if k in t then t[k] else Null, patch.fields[k]))
  }

  /** A null member at some depth, arrays not looked into. */
  predicate HasNullMember(v: Json) {
    v.Obj? && exists k :: k in v.fields && (v.fields[k].Null? || HasNullMember(v.fields[k]))
  }

  /** A null of the patch that lands, inside an object, where the base has no object to delete it from. */
  predicate Stranded(base: Json, patch: Json)
    requires base.Obj? && patch.Obj?
    decreases patch
  {
    exists k :: k in patch.fields &&
      if k in base.fields && base.fields[k].Obj? && patch.fields[k].Obj? then Stranded(base.fields[k], patch.fields[k])
      else HasNullMember(patch.fields[k])
  }

  lemma {:induction false} PatchOntoNothing(target: Json, v: Json)
    requires !target.Obj?
    ensures MergePatch(target, v) == v <==> !HasNullMember(v)
    decreases v
  {
    if v.Obj? {
      var r := MergePatch(target, v);
      forall k | k in v.fields && !v.fields[k].Null?
        ensures k in r.fields && r.fields[k] == MergePatch(Null, v.fields[k])
        ensures r.fields[k] == v.fields[k] <==> !HasNullMember(v.fields[k])
      {
        PatchOntoNothing(Null, v.fields[k]);
      }
      assert forall k :: k in r.fields <==> k in v.fields && !v.fields[k].Null?;
      if !HasNullMember(v) {
        assert r.fields == v.fields;
      } else {
        var k :| k in v.fields && (v.fields[k].Null? || HasNullMember(v.fields[k]));
        assert k !in r.fields || r.fields[k] != v.fields[k];
      }
    }
  }

  /** The value merge_objects builds is MergePatch's exactly when no null of the patch is stranded. */
  lemma {:induction false} MergeIsMergePatch(base: Json, patch: Json)
    requires base.Obj? && patch.Obj?
    ensures Merge(base, patch) == MergePatch(base, patch) <==> !Stranded(base, patch)
    decreases patch
  {
    var m, r := Merge(base, patch), MergePatch(base, patch);
    assert m.fields.Keys == r.fields.Keys;
    forall k | k in patch.fields && !patch.fields[k].Null?
      ensures k in m.fields && k in r.fields
      ensures m.fields[k] == r.fields[k] <==>
                if k in base.fields && base.fields[k].Obj? && patch.fields[k].Obj?
                then !Stranded(base.fields[k], patch.fields[k]) else !HasNullMember(patch.fields[k])
    {
      if k in base.fields && base.fields[k].Obj? && patch.fields[k].Obj? {
        MergeIsMergePatch(base.fields[k], patch.fields[k]);
      } else if k in base.fields && base.fields[k].Obj? {
        assert MergePatch(base.fields[k], patch.fields[k]) == patch.fields[k];
      } else {
        PatchOntoNothing(if k in base.fields then base.fields[k] else Null, patch.fields[k]);
      }
    }
    if !Stranded(base, patch) {
      assert m.fields == r.fields;
    } else {
      var k :| k in patch.fields &&
               if k in base.fields && base.fields[k].Obj? && patch.fields[k].Obj? then Stranded(base.fields[k], patch.fields[k])
               else HasNullMember(patch.fields[k]);
      assert m.fields[k] != r.fields[k];
    }
  }

  /** merge_objects does what RFC 7396 asks exactly when every null of the patch names, at its place inside
      objects the base has too, a member the base has: elsewhere it throws or takes the null over. */
  lemma MergeIsMergePatchExactly(base: Json, patch: Json)
    requires base.Obj? && patch.Obj?
    ensures Merged(base, patch) == Some(MergePatch(base, patch)) <==> !Missing(base, patch) && !Stranded(base, patch)
  {
    MergeIsMergePatch(base, patch);
  }

  /** Merging into what a merge made changes nothing and does not throw exactly for patches without nulls. */
  lemma {:induction false} MergeAgain(base: Json, patch: Json)
    requires base.Obj? && patch.Obj?
    ensures Merged(Merge(base, patch), patch) == Some(Merge(base, patch)) <==> !HasNullMember(patch)
    decreases patch
  {
    var m := Merge(base, patch);
    var r := Merge(m, patch);
    forall k | k in patch.fields && !patch.fields[k].Null?
      ensures k in m.fields && k in r.fields
      ensures patch.fields[k].Obj? ==> m.fields[k].Obj?
      ensures patch.fields[k].Obj? ==>
                (!Missing(m.fields[k], patch.fields[k]) && r.fields[k] == m.fields[k] <==> !HasNullMember(patch.fields[k]))
    {
      if patch.fields[k].Obj? {
        if k in base.fields && base.fields[k].Obj? {
          MergeAgain(base.fields[k], patch.fields[k]);
        } else {
          MergeOntoItself(patch.fields[k]);
        }
      }
    }
    if HasNullMember(patch) {
      var k :| k in patch.fields && (patch.fields[k].Null? || HasNullMember(patch.fields[k]));
      assert k !in m.fields || Missing(m.fields[k], patch.fields[k]) || r.fields[k] != m.fields[k];
    } else {
      assert m.fields.Keys == r.fields.Keys;
      assert r.fields == m.fields;
    }
  }

  lemma {:induction false} MergeOntoItself(v: Json)
    requires v.Obj?
    ensures Merged(v, v) == Some(v) <==> !HasNullMember(v)
    decreases v
  {
    var r := Merge(v, v);
    forall k | k in v.fields && v.fields[k].Obj?
      ensures !Missing(v.fields[k], v.fields[k]) && r.fields[k] == v.fields[k] <==> !HasNullMember(v.fields[k])
    {
      MergeOntoItself(v.fields[k]);
    }
    if HasNullMember(v) {
      var k :| k in v.fields && (v.fields[k].Null? || HasNullMember(v.fields[k]));
      assert k !in r.fields || Missing(v.fields[k], v.fields[k]) || r.fields[k] != v.fields[k];
    } else {
      assert r.fields == v.fields;
    }
  }

  /** A patch can be repeated after it succeeded exactly when it holds no null: an erased member cannot be
      erased again, and a null taken over is erased the second time. */
  lemma MergeIdempotentExactly(base: Json, patch: Json)
    requires Merged(base, patch).Some?
    ensures Merged(Merged(base, patch).value, patch) == Merged(base, patch) <==> !HasNullMember(patch)
  {
    MergeAgain(base, patch);
  }

  /** A patch without nulls always succeeds on an object, as RFC 7396 says, and may be repeated. */
  lemma {:induction false} NoNullsNoTrouble(base: Json, patch: Json)
    requires base.Obj? && patch.Obj? && !HasNullMember(patch)
    ensures !Missing(base, patch) && !Stranded(base, patch)
    ensures Merged(base, patch) == Some(MergePatch(base, patch))
    decreases patch
  {
    forall k | k in patch.fields && k in base.fields && base.fields[k].Obj? && patch.fields[k].Obj?
      ensures !Missing(base.fields[k], patch.fields[k]) && !Stranded(base.fields[k], patch.fields[k])
    {
      NoNullsNoTrouble(base.fields[k], patch.fields[k]);
    }
    MergeIsMergePatch(base, patch);
  }

  // ----- what a patch leaves alone -----

  function Lookup(v: Json, path: seq<string>): Option<Json> {
    if path == [] then Some(v)
    else if v.Obj? && path[0] in v.fields then Lookup(v.fields[path[0]], path[1..])
    else None
  }

  /** Whether the patch says anything about the place `path` leads to, or about what holds it. */
  predicate Names(patch: Json, path: seq<string>) {
    path == [] || !patch.Obj? || (path[0] in patch.fields && Names(patch.fields[path[0]], path[1..]))
  }

  lemma {:induction false} UnnamedIsNowhere(patch: Json, path: seq<string>)
    requires !Names(patch, path)
    ensures Lookup(patch, path) == None
  {
    if path[0] in patch.fields {
      UnnamedIsNowhere(patch.fields[path[0]], path[1..]);
    }
  }

  /** What the patch does not name is unchanged, present or absent, at every depth. */
  lemma {:induction false} UnnamedUnchanged(base: Json, patch: Json, path: seq<string>)
    requires base.Obj? && patch.Obj? && !Names(patch, path)
    ensures Lookup(Merge(base, patch), path) == Lookup(base, path)
    decreases path
  {
    var k := path[0];
    if k in patch.fields {
      if k in base.fields && base.fields[k].Obj? && patch.fields[k].Obj? {
        UnnamedUnchanged(base.fields[k], patch.fields[k], path[1..]);
      } else {
        UnnamedIsNowhere(patch.fields[k], path[1..]);
      }
    }
  }

  /** What the patch sets is set: every value of it that is neither an object nor null is found where it says. */
  lemma {:induction false} NamedIsSet(base: Json, patch: Json, path: seq<string>)
    requires base.Obj? && patch.Obj? && Lookup(patch, path).Some?
    requires var v := Lookup(patch, path).value; !v.Obj? && !v.Null?
    ensures Lookup(Merge(base, patch), path) == Lookup(patch, path)
    decreases path
  {
    var k := path[0];
    if k in base.fields && base.fields[k].Obj? && patch.fields[k].Obj? {
      NamedIsSet(base.fields[k], patch.fields[k], path[1..]);
    }
  }

  /** What a null names is gone if the base had it, and is the null itself if the base had no object to hold it. */
  lemma {:induction false} NullIsGoneExactly(base: Json, patch: Json, path: seq<string>)
    requires Merged(base, patch).Some? && Lookup(patch, path) == Some(Null)
    ensures Lookup(Merged(base, patch).value, path) == if Lookup(base, path).Some? then None else Some(Null)
    decreases path
  {
    var k := path[0];
    if k in base.fields && base.fields[k].Obj? && patch.fields[k].Obj? {
      assert !Missing(base.fields[k], patch.fields[k]);
      NullIsGoneExactly(base.fields[k], patch.fields[k], path[1..]);
    } else if patch.fields[k].Null? {
      assert k in base.fields && path[1..] == [];
    }
  }

  lemma {:induction false} PathToNull(v: Json) returns (path: seq<string>)
    requires HasNullMember(v)
    ensures path != [] && Lookup(v, path) == Some(Null)
    decreases v
  {
    var k :| k in v.fields && (v.fields[k].Null? || HasNullMember(v.fields[k]));
    if v.fields[k].Null? {
      path := [k];
    } else {
      var rest := PathToNull(v.fields[k]);
      path := [k] + rest;
    }
  }

  lemma {:induction false} NullInside(v: Json, path: seq<string>)
    requires path != [] && Lookup(v, path) == Some(Null)
    ensures HasNullMember(v)
    decreases path
  {
    if path[1..] != [] {
      NullInside(v.fields[path[0]], path[1..]);
    }
  }

  lemma {:induction false} PathToTrouble(base: Json, patch: Json) returns (path: seq<string>)
    requires base.Obj? && patch.Obj? && (Missing(base, patch) || Stranded(base, patch))
    ensures NamesAbsent(base, patch, path)
    decreases patch
  {
    var k, rest;
    if Missing(base, patch) {
      k :| k in patch.fields &&
           if patch.fields[k].Null? then k !in base.fields
           else k in base.fields && base.fields[k].Obj? && patch.fields[k].Obj? && Missing(base.fields[k], patch.fields[k]);
    } else {
      k :| k in patch.fields &&
           if k in base.fields && base.fields[k].Obj? && patch.fields[k].Obj? then Stranded(base.fields[k], patch.fields[k])
           else HasNullMember(patch.fields[k]);
    }
    if patch.fields[k].Null? {
      rest := [];
    } else if k in base.fields && base.fields[k].Obj? {
      rest := PathToTrouble(base.fields[k], patch.fields[k]);
    } else {
      rest := PathToNull(patch.fields[k]);
    }
    path := [k] + rest;
  }

  lemma LookupOne(v: Json, k: string)
    requires v.Obj?
    ensures Lookup(v, [k]).Some? <==> k in v.fields
  {}

  lemma {:induction false} AbsentIsTrouble(base: Json, patch: Json, path: seq<string>)
    requires base.Obj? && patch.Obj? && NamesAbsent(base, patch, path)
    ensures Missing(base, patch) || Stranded(base, patch)
    decreases path
  {
    var k := path[0];
    if k in base.fields && base.fields[k].Obj? && patch.fields[k].Obj? {
      AbsentIsTrouble(base.fields[k], patch.fields[k], path[1..]);
    } else {
      assert Lookup(patch.fields[k], path[1..]) == Some(Null);
      if patch.fields[k].Null? {
        assert path == [k];
        LookupOne(base, k);
      } else {
        NullInside(patch.fields[k], path[1..]);
      }
    }
  }

  /** `path` leads to a null in the patch and to nothing in the base. */
  predicate NamesAbsent(base: Json, patch: Json, path: seq<string>) {
    Lookup(patch, path) == Some(Null) && Lookup(base, path) == None
  }

  /** `path` leads to an object in the base, and the patch asks to delete from it a member it does not have. */
  predicate ErasesAbsent(base: Json, patch: Json, path: seq<string>, k: string) {
    Lookup(patch, path + [k]) == Some(Null) && Lookup(base, path).Some? && Lookup(base, path).value.Obj? &&
    k !in Lookup(base, path).value.fields
  }

  lemma {:induction false} PathToMissing(base: Json, patch: Json) returns (path: seq<string>, k: string)
    requires base.Obj? && patch.Obj? && Missing(base, patch)
    ensures ErasesAbsent(base, patch, path, k)
    decreases patch
  {
    var m :| m in patch.fields &&
             if patch.fields[m].Null? then m !in base.fields
             else m in base.fields && base.fields[m].Obj? && patch.fields[m].Obj? && Missing(base.fields[m], patch.fields[m]);
    if patch.fields[m].Null? {
      path, k := [], m;
      assert [] + [m] == [m] && Lookup(patch, [m]) == Lookup(patch.fields[m], [m][1..]);
    } else {
      var rest;
      rest, k := PathToMissing(base.fields[m], patch.fields[m]);
      path := [m] + rest;
      assert path + [k] == [m] + (rest + [k]) && path[1..] == rest && (path + [k])[1..] == rest + [k];
    }
  }

  lemma {:induction false} ErasingAbsentIsMissing(base: Json, patch: Json, path: seq<string>, k: string)
    requires base.Obj? && patch.Obj? && ErasesAbsent(base, patch, path, k)
    ensures Missing(base, patch)
    decreases path
  {
    if path == [] {
      assert [] + [k] == [k] && Lookup(patch, [k]) == Lookup(patch.fields[k], [k][1..]);
    } else {
      assert (path + [k])[0] == path[0] && (path + [k])[1..] == path[1..] + [k];
      var m := path[0];
      assert Lookup(patch.fields[m], path[1..] + [k]) == Some(Null);
      NotBelowObject(base.fields[m], path[1..]);
      NotBelowObject(patch.fields[m], path[1..] + [k]);
      ErasingAbsentIsMissing(base.fields[m], patch.fields[m], path[1..], k);
    }
  }

  lemma NotBelowObject(v: Json, path: seq<string>)
    requires Lookup(v, path).Some? && (path != [] || Lookup(v, path).value.Obj?)
    ensures v.Obj?
  {}

  /** Which patches throw: exactly those that ask to delete, from an object the base has, a member it lacks. */
  lemma ThrowsExactly(base: Json, patch: Json)
    requires base.Obj? && patch.Obj?
    ensures Merged(base, patch) == None <==> exists path, k :: ErasesAbsent(base, patch, path, k)
  {
    if Missing(base, patch) {
      var path, k := PathToMissing(base, patch);
    }
    forall path, k | ErasesAbsent(base, patch, path, k) ensures Missing(base, patch) {
      ErasingAbsentIsMissing(base, patch, path, k);
    }
  }

  /** In one condition: merge_objects does what RFC 7396 asks exactly when the base has every member, at whatever
      depth, that the patch asks to delete. */
  lemma MergeIsMergePatchByPaths(base: Json, patch: Json)
    requires base.Obj? && patch.Obj?
    ensures Merged(base, patch) == Some(MergePatch(base, patch)) <==> !exists path :: NamesAbsent(base, patch, path)
  {
    MergeIsMergePatchExactly(base, patch);
    if Missing(base, patch) || Stranded(base, patch) {
      var path := PathToTrouble(base, patch);
    }
    forall path | NamesAbsent(base, patch, path) ensures Missing(base, patch) || Stranded(base, patch) {
      AbsentIsTrouble(base, patch, path);
    }
  }
}
