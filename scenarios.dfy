/** Small schemas worked through end to end. */
module Scenarios {
  import opened Outcomes
  import opened Text
  import opened JsonValues
  import opened Primitives
  import opened Resolver
  import opened Generator
  import opened GeneratorProperties
  import opened DataGenerator

  /** A key whose first character no stored name shares is absent. */
  lemma FirstCharMiss(fields: seq<(string, Json)>, key: string)
    requires key != []
    requires forall i :: 0 <= i < |fields| ==> fields[i].0 != [] && fields[i].0[0] != key[0]
    ensures Lookup(fields, key) == None
  {
    LookupFound(fields, key);
  }

  /** A node none of whose names starts like `$ref`, `anyOf` or `enum` goes
      straight to its `type`. */
  lemma PlainNode(fields: seq<(string, Json)>)
    requires forall i :: 0 <= i < |fields| ==> fields[i].0 != [] && fields[i].0[0] !in "$ae"
    ensures ReachesType(JObj(fields))
  {
    FirstCharMiss(fields, "$ref");
    FirstCharMiss(fields, "anyOf");
    FirstCharMiss(fields, "enum");
  }

  const IdSchema := JObj([("type", JStr("integer")), ("minimum", JInt(1)), ("maximum", JInt(1))])

  /** An object with one required integer property whose bounds coincide. */
  const FixedId := JObj([("type", JStr("object")),
                         ("properties", JObj([("id", IdSchema)])),
                         ("required", JArr([JStr("id")]))])

  lemma IdSchemaIsOne(draws: Draws, pos: nat, fuel: nat)
    requires fuel >= 1
    ensures Gen(FixedId, IdSchema, draws, pos, fuel) == Ok(Drawn(JInt(1), pos + 1))
  {
    PlainNode(IdSchema.fields);
    assert DistinctKeys(IdSchema.fields) by {
      assert "minimum"[1] != "maximum"[1];
    }
    LookupDistinct(IdSchema.fields, 0);
    LookupDistinct(IdSchema.fields, 1);
    LookupDistinct(IdSchema.fields, 2);
    assert Field(IdSchema, "minimum") == Some(JInt(1));
    assert Field(IdSchema, "maximum") == Some(JInt(1));
    IntegerFixed(FixedId, IdSchema, draws, pos, fuel, 1);
  }

  lemma FixedIdKeys()
    ensures ReachesType(FixedId)
    ensures Field(FixedId, "type") == Some(JStr("object"))
    ensures PropertyEntries(FixedId) == [("id", IdSchema)]
    ensures Field(FixedId, "required") == Some(JArr([JStr("id")]))
  {
    PlainNode(FixedId.fields);
    assert DistinctKeys(FixedId.fields);
    LookupDistinct(FixedId.fields, 0);
    LookupDistinct(FixedId.fields, 1);
    LookupDistinct(FixedId.fields, 2);
  }

  /** The required `id` is generated without a coin flip. */
  lemma FixedIdFields(draws: Draws, pos: nat, fuel: nat)
    requires fuel >= 1
    ensures GenFields(FixedId, [("id", IdSchema)], Some(JArr([JStr("id")])), draws, pos, fuel)
         == Ok(Drawn([("id", JInt(1))], pos + 1))
  {
    var props := [("id", IdSchema)];
    var required := Some(JArr([JStr("id")]));
    assert Includes(required, "id") == Ok(true);
    IdSchemaIsOne(draws, pos, fuel);
    assert props[1..] == [];
    assert GenFields(FixedId, props[1..], required, draws, pos + 1, fuel) == Ok(Drawn([], pos + 1));
    assert [("id", JInt(1))] + [] == [("id", JInt(1))];
    assert GenFields(FixedId, props, required, draws, pos, fuel)
        == Prepend([("id", JInt(1))], GenFields(FixedId, props[1..], required, draws, pos + 1, fuel));
  }

  /** Whatever the draws, the object is `{"id": 1}`, and only the integer
      draw is used: a required property flips no coin. */
  lemma FixedIdGenerated(draws: Draws, pos: nat, fuel: nat)
    requires fuel >= 2
    ensures GenerateDataSpec(FixedId, draws, pos, fuel) == Ok(Drawn(JObj([("id", JInt(1))]), pos + 1))
  {
    FixedIdKeys();
    FixedIdObject(draws, pos, fuel);
    assert GenerateDataSpec(FixedId, draws, pos, fuel) == GenByType(FixedId, FixedId, draws, pos, fuel);
  }

  lemma FixedIdObject(draws: Draws, pos: nat, fuel: nat)
    requires fuel >= 2
    ensures GenObject(FixedId, FixedId, draws, pos, fuel) == Ok(Drawn(JObj([("id", JInt(1))]), pos + 1))
  {
    FixedIdKeys();
    FixedIdFields(draws, pos, fuel - 1);
  }

  /** A list of nulls: each element is `null`, and there are at most 5. */
  const NullItem := JObj([("type", JStr("null"))])
  const NullList := JObj([("type", JStr("array")), ("items", NullItem)])

  lemma {:induction false} NullItems(count: nat, draws: Draws, pos: nat, fuel: nat)
    requires fuel >= 1
    ensures GenItems(NullList, NullItem, count, draws, pos, fuel) == Ok(Drawn(seq(count, _ => JNull), pos))
    decreases count
  {
    if count > 0 {
      PlainNode(NullItem.fields);
      LookupDistinct(NullItem.fields, 0);
      assert Field(NullItem, "type") == Some(JStr("null"));
      NullByDefault(NullList, NullItem, draws, pos, fuel);
      assert Gen(NullList, NullItem, draws, pos, fuel) == Ok(Drawn(JNull, pos));
      NullItems(count - 1, draws, pos, fuel);
      assert GenItems(NullList, NullItem, count - 1, draws, pos, fuel) == Ok(Drawn(seq(count - 1, _ => JNull), pos));
      assert GenItems(NullList, NullItem, count, draws, pos, fuel)
          == Prepend([JNull], GenItems(NullList, NullItem, count - 1, draws, pos, fuel));
      assert [JNull] + seq(count - 1, _ => JNull) == seq(count, _ => JNull);
    } else {
      assert seq(0, _ => JNull) == [];
    }
  }

  lemma NullListGenerated(draws: Draws, pos: nat, fuel: nat)
    requires fuel >= 2
    ensures var r := GenerateDataSpec(NullList, draws, pos, fuel);
      && r.Ok? && r.value.value.JArr? && |r.value.value.elems| <= 5
      && forall k :: 0 <= k < |r.value.value.elems| ==> r.value.value.elems[k] == JNull
  {
    NullListKeys();
    NullListArray(draws, pos, fuel);
    assert GenerateDataSpec(NullList, draws, pos, fuel) == GenByType(NullList, NullList, draws, pos, fuel);
  }

  lemma NullListKeys()
    ensures ReachesType(NullList)
    ensures Field(NullList, "type") == Some(JStr("array"))
    ensures Field(NullList, "items") == Some(NullItem)
  {
    PlainNode(NullList.fields);
    assert DistinctKeys(NullList.fields);
    LookupDistinct(NullList.fields, 0);
    LookupDistinct(NullList.fields, 1);
  }

  lemma NullListArray(draws: Draws, pos: nat, fuel: nat)
    requires fuel >= 2
    ensures GenArray(NullList, NullList, draws, pos, fuel)
         == Ok(Drawn(JArr(seq(Draw(draws, pos, 0, 5), _ => JNull)), pos + 1))
  {
    NullListKeys();
    NullItems(Draw(draws, pos, 0, 5), draws, pos + 1, fuel - 1);
  }

  /** A schema whose reference names a path the schema does not have. */
  const MissingRef := JObj([("$ref", JStr("#/missing/path"))])

  /** `{"$ref": "#/missing/path"}` fails at its first segment. */
  lemma MissingPathFails(draws: Draws, pos: nat, fuel: nat)
    requires fuel > 0
    ensures GenerateDataSpec(MissingRef, draws, pos, fuel) == Err(RefUnresolved)
  {
    var path := ["missing", "path"];
    assert "#/" + Join(path, '/') == "#/missing/path" by {
      assert Join(path[1..], '/') == "path";
    }
    assert forall i :: 0 <= i < |path| ==> '/' !in path[i] by {
      assert '/' !in path[0] && '/' !in path[1];
    }
    assert Field(MissingRef, "$ref") == Some(JStr("#/missing/path"));
    assert Lookup(MissingRef.fields, "missing") == None by {
      assert "missing"[0] != "$ref"[0];
    }
    assert path[..0] == [];
    RefToAbsentSegment(MissingRef, MissingRef, path, 0, MissingRef, draws, pos, fuel);
  }

  /** A schema whose reference goes through an existing `defs` to a name
      `defs` does not have. */
  const DeepMissingRef := JObj([("$ref", JStr("#/defs/absent")), ("defs", JObj([]))])

  /** `{"$ref": "#/defs/absent", "defs": {}}` resolves `defs` and fails at
      its second segment. */
  lemma DeepMissingPathFails(draws: Draws, pos: nat, fuel: nat)
    requires fuel > 0
    ensures GenerateDataSpec(DeepMissingRef, draws, pos, fuel) == Err(RefUnresolved)
  {
    var path := ["defs", "absent"];
    assert "#/" + Join(path, '/') == "#/defs/absent" by {
      assert Join(path[1..], '/') == "absent";
    }
    assert forall i :: 0 <= i < |path| ==> '/' !in path[i] by {
      assert '/' !in path[0] && '/' !in path[1];
    }
    assert DistinctKeys(DeepMissingRef.fields);
    LookupDistinct(DeepMissingRef.fields, 0);
    LookupDistinct(DeepMissingRef.fields, 1);
    assert path[..1] == ["defs"];
    WalkOne(DeepMissingRef, "defs");
    RefToAbsentSegment(DeepMissingRef, DeepMissingRef, path, 1, JObj([]), draws, pos, fuel);
  }
}
