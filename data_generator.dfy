/** `generateData(schema)`: the schema is both the root that references are
    resolved against and the first node to generate from. */
module DataGenerator {
  import opened Outcomes
  import opened JsonValues
  import opened Primitives
  import opened Generator
  import opened Conformance

  /** What `generateData(schema)` returns or throws, for the draws starting at
      `pos`. */
  function GenerateDataSpec(schema: Json, draws: Draws, pos: nat, fuel: nat): Result<Drawn<Json>> {
    Gen(schema, schema, draws, pos, fuel)
  }

  method GenerateData(schema: Json, draws: Draws, pos: nat, fuel: nat) returns (r: Result<Drawn<Json>>)
    ensures r == GenerateDataSpec(schema, draws, pos, fuel)
    ensures r.Ok? ==> Accepts(schema, schema, r.value.value, fuel)
  {
    r := GenerateValue(schema, schema, draws, pos, fuel);
    GenSound(schema, schema, draws, pos, fuel);
  }
}
