/** What `generateValue` promises, one schema keyword at a time: the
    dispatch priority, the failures, and the range and shape of each kind of
    generated value. */
module GeneratorProperties {
  import opened Outcomes
  import opened Text
  import opened JsonValues
  import opened Primitives
  import opened Resolver
  import opened Generator
  import opened Conformance

  // ---------------------------------------------------------------------
  // Fuel is only a bound

  /** A call that does not run out of fuel returns the same outcome with any
      larger bound: the fuel never decides anything but `OutOfFuel`. */
  lemma {:induction false} GenFuelMonotone(root: Json, node: Json, draws: Draws, pos: nat, fuel: nat, more: nat)
    requires fuel <= more
    requires Gen(root, node, draws, pos, fuel) != Err(OutOfFuel)
    ensures Gen(root, node, draws, pos, more) == Gen(root, node, draws, pos, fuel)
    decreases fuel, 2, 0
  {
    if Truthy(node) && IsObjectLike(node) {
      if HasField(node, "$ref") {
        GenRefFuelMonotone(root, Field(node, "$ref").value, draws, pos, fuel, more);
      } else if HasField(node, "anyOf") {
        GenAnyOfFuelMonotone(root, Field(node, "anyOf").value, draws, pos, fuel, more);
      } else if !HasField(node, "enum") {
        GenByTypeFuelMonotone(root, node, draws, pos, fuel, more);
      }
    }
  }

  lemma {:induction false} GenRefFuelMonotone(root: Json, ref: Json, draws: Draws, pos: nat, fuel: nat, more: nat)
    requires 0 < fuel <= more
    requires GenRef(root, ref, draws, pos, fuel) != Err(OutOfFuel)
    ensures GenRef(root, ref, draws, pos, more) == GenRef(root, ref, draws, pos, fuel)
    decreases fuel, 1, 0
  {
    var target := ResolveValue(root, ref);
    if target.Ok? {
      GenFuelMonotone(root, target.value, draws, pos, fuel - 1, more - 1);
    }
  }

  lemma {:induction false} GenAnyOfFuelMonotone(root: Json, options: Json, draws: Draws, pos: nat, fuel: nat, more: nat)
    requires 0 < fuel <= more
    requires GenAnyOf(root, options, draws, pos, fuel) != Err(OutOfFuel)
    ensures GenAnyOf(root, options, draws, pos, more) == GenAnyOf(root, options, draws, pos, fuel)
    decreases fuel, 1, 0
  {
    if options.JArr? && |options.elems| > 0 {
      var i := Draw(draws, pos, 0, |options.elems| - 1);
      GenFuelMonotone(root, options.elems[i], draws, pos + 1, fuel - 1, more - 1);
    }
  }

  lemma {:induction false} GenByTypeFuelMonotone(root: Json, node: Json, draws: Draws, pos: nat, fuel: nat, more: nat)
    requires 0 < fuel <= more
    requires GenByType(root, node, draws, pos, fuel) != Err(OutOfFuel)
    ensures GenByType(root, node, draws, pos, more) == GenByType(root, node, draws, pos, fuel)
    decreases fuel, 1, 0
  {
    match KindOf(node)
    case ArrayKind =>
      var items := Field(node, "items");
      if items.Some? && Truthy(items.value) {
        GenItemsFuelMonotone(root, items.value, Draw(draws, pos, 0, 5), draws, pos + 1, fuel - 1, more - 1);
      }
    case ObjectKind =>
      GenFieldsFuelMonotone(root, PropertyEntries(node), Field(node, "required"), draws, pos, fuel - 1, more - 1);
    case _ =>
  }

  lemma {:induction false} GenItemsFuelMonotone(root: Json, items: Json, count: nat, draws: Draws, pos: nat,
                                                fuel: nat, more: nat)
    requires fuel <= more
    requires GenItems(root, items, count, draws, pos, fuel) != Err(OutOfFuel)
    ensures GenItems(root, items, count, draws, pos, more) == GenItems(root, items, count, draws, pos, fuel)
    decreases fuel, 3, count
  {
    if count > 0 {
      var first := Gen(root, items, draws, pos, fuel);
      GenFuelMonotone(root, items, draws, pos, fuel, more);
      if first.Ok? {
        GenItemsFuelMonotone(root, items, count - 1, draws, first.value.next, fuel, more);
      }
    }
  }

  lemma {:induction false} GenFieldsFuelMonotone(root: Json, props: seq<(string, Json)>, required: Option<Json>,
                                                 draws: Draws, pos: nat, fuel: nat, more: nat)
    requires fuel <= more
    requires GenFields(root, props, required, draws, pos, fuel) != Err(OutOfFuel)
    ensures GenFields(root, props, required, draws, pos, more) == GenFields(root, props, required, draws, pos, fuel)
    decreases fuel, 3, |props|
  {
    if props != [] {
      var isRequired := Includes(required, props[0].0);
      if isRequired.Ok? {
        var after := if isRequired.value then pos else pos + 1;
        if isRequired.value || Coin(draws, pos) {
          var v := Gen(root, props[0].1, draws, after, fuel);
          GenFuelMonotone(root, props[0].1, draws, after, fuel, more);
          if v.Ok? {
            GenFieldsFuelMonotone(root, props[1..], required, draws, v.value.next, fuel, more);
          }
        } else {
          GenFieldsFuelMonotone(root, props[1..], required, draws, after, fuel, more);
        }
      }
    }
  }

  // ---------------------------------------------------------------------
  // Dispatch priority

  /** The falsy check comes first. */
  lemma FalsyNodeFails(root: Json, node: Json, draws: Draws, pos: nat, fuel: nat)
    requires fuel > 0 && !Truthy(node)
    ensures Gen(root, node, draws, pos, fuel) == Err(SchemaMissing)
  {
  }

  /** A node with `$ref` generates exactly what the node it refers to
      generates, at any fuel that suffices for the target; no other key of
      the node is looked at. A reference that does not resolve is the error. */
  lemma RefTransparency(root: Json, node: Json, draws: Draws, pos: nat, fuel: nat, f: nat)
    requires IsObjectLike(node) && HasField(node, "$ref")
    requires f < fuel
    ensures var target := ResolveValue(root, Field(node, "$ref").value);
      && (target.Err? ==> Gen(root, node, draws, pos, fuel) == Err(target.error))
      && (target.Ok? && Gen(root, target.value, draws, pos, f) != Err(OutOfFuel) ==>
            Gen(root, node, draws, pos, fuel) == Gen(root, target.value, draws, pos, f))
  {
    var target := ResolveValue(root, Field(node, "$ref").value);
    if target.Ok? && Gen(root, target.value, draws, pos, f) != Err(OutOfFuel) {
      GenFuelMonotone(root, target.value, draws, pos, f, fuel - 1);
    }
  }

  /** A reference `#/name` to a name the root does not have is an error,
      not a value. */
  lemma RefToMissingName(root: Json, node: Json, name: string, draws: Draws, pos: nat, fuel: nat)
    requires fuel > 0 && IsObjectLike(node) && Field(node, "$ref") == Some(JStr("#/" + name))
    requires '/' !in name && !root.JNull? && Get(root, name).None?
    ensures Gen(root, node, draws, pos, fuel) == Err(RefUnresolved)
  {
    ResolvePath(root, [name]);
    WalkOne(root, name);
    assert GenRef(root, JStr("#/" + name), draws, pos, fuel) == Err(RefUnresolved);
  }

  /** A reference `#/a/b/…` fails with the unresolved-reference error when
      any one of its segments is absent where the walk reaches it. */
  lemma RefToAbsentSegment(root: Json, node: Json, path: seq<string>, k: nat, mid: Json,
                           draws: Draws, pos: nat, fuel: nat)
    requires k < |path| && forall i :: 0 <= i < |path| ==> '/' !in path[i]
    requires fuel > 0 && IsObjectLike(node) && Field(node, "$ref") == Some(JStr("#/" + Join(path, '/')))
    requires Walk(root, path[..k]) == Ok(mid)
    requires !mid.JNull? && Get(mid, path[k]).None?
    ensures Gen(root, node, draws, pos, fuel) == Err(RefUnresolved)
  {
    ResolvePath(root, path);
    AbsentSegment(root, path, k, mid);
    assert GenRef(root, JStr("#/" + Join(path, '/')), draws, pos, fuel) == Err(RefUnresolved);
  }

  /** Without `$ref`, `anyOf` must be a non-empty array, and the node then
      generates what one of its options generates with the draws after the
      choice. */
  lemma AnyOfChoice(root: Json, node: Json, draws: Draws, pos: nat, fuel: nat)
    requires fuel > 0 && IsObjectLike(node) && !HasField(node, "$ref") && HasField(node, "anyOf")
    ensures var options := Field(node, "anyOf").value;
      && (!options.JArr? || options.elems == [] ==> Gen(root, node, draws, pos, fuel) == Err(AnyOfInvalid))
      && (options.JArr? && options.elems != [] ==>
            exists i :: 0 <= i < |options.elems|
              && Gen(root, node, draws, pos, fuel) == Gen(root, options.elems[i], draws, pos + 1, fuel - 1))
  {
    var options := Field(node, "anyOf").value;
    if options.JArr? && options.elems != [] {
      var i := Draw(draws, pos, 0, |options.elems| - 1);
      assert Gen(root, node, draws, pos, fuel) == Gen(root, options.elems[i], draws, pos + 1, fuel - 1);
    }
  }

  /** Every option of an `anyOf` is chosen by some draw. */
  lemma AnyOfReachable(root: Json, node: Json, pos: nat, fuel: nat, i: nat)
    requires fuel > 0 && IsObjectLike(node) && !HasField(node, "$ref") && HasField(node, "anyOf")
    requires Field(node, "anyOf").value.JArr? && i < |Field(node, "anyOf").value.elems|
    ensures var draws := (k: nat) => i;
      Gen(root, node, draws, pos, fuel) == Gen(root, Field(node, "anyOf").value.elems[i], draws, pos + 1, fuel - 1)
  {
    DrawCovers(pos, 0, |Field(node, "anyOf").value.elems| - 1, i);
  }

  /** Without `$ref` and `anyOf`, `enum` must be a non-empty array, and the
      node then yields one of its members as it stands, from one draw,
      whatever the member is. */
  lemma EnumChoice(root: Json, node: Json, draws: Draws, pos: nat, fuel: nat)
    requires fuel > 0 && IsObjectLike(node) && !HasField(node, "$ref") && !HasField(node, "anyOf") && HasField(node, "enum")
    ensures var values := Field(node, "enum").value;
      var r := Gen(root, node, draws, pos, fuel);
      && (!values.JArr? || values.elems == [] ==> r == Err(EnumInvalid))
      && (values.JArr? && values.elems != [] ==> r.Ok? && r.value.value in values.elems && r.value.next == pos + 1)
  {
  }

  /** Every member of an `enum` is yielded by some draw. */
  lemma EnumReachable(root: Json, node: Json, pos: nat, fuel: nat, i: nat)
    requires fuel > 0 && IsObjectLike(node) && !HasField(node, "$ref") && !HasField(node, "anyOf") && HasField(node, "enum")
    requires Field(node, "enum").value.JArr? && i < |Field(node, "enum").value.elems|
    ensures Gen(root, node, (k: nat) => i, pos, fuel) == Ok(Drawn(Field(node, "enum").value.elems[i], pos + 1))
  {
    DrawCovers(pos, 0, |Field(node, "enum").value.elems| - 1, i);
  }

  /** A node reaches its `type` only when it has none of the three keys. */
  predicate ReachesType(node: Json) {
    IsObjectLike(node) && !HasField(node, "$ref") && !HasField(node, "anyOf") && !HasField(node, "enum")
  }

  // ---------------------------------------------------------------------
  // The types

  /** `null`, an absent `type` and any `type` the switch does not know all
      yield `null`, drawing nothing. */
  lemma NullByDefault(root: Json, node: Json, draws: Draws, pos: nat, fuel: nat)
    requires fuel > 0 && ReachesType(node)
    requires KindOf(node) == NullKind || KindOf(node) == OtherKind
    ensures Gen(root, node, draws, pos, fuel) == Ok(Drawn(JNull, pos))
  {
  }

  /** A `boolean` is one coin flip, and both outcomes occur. */
  lemma BooleanGenerated(root: Json, node: Json, draws: Draws, pos: nat, fuel: nat, b: bool)
    requires fuel > 0 && ReachesType(node) && KindOf(node) == BooleanKind
    ensures var r := Gen(root, node, draws, pos, fuel);
      r.Ok? && r.value.value.JBool? && r.value.next == pos + 1
    ensures Gen(root, node, (k: nat) => if b then 0 else 1, pos, fuel) == Ok(Drawn(JBool(b), pos + 1))
  {
  }

  /** A `string` without `pattern` is 5 to 15 alphanumeric characters, its
      length drawn first; with `pattern` it is the URL shape, the same
      whatever the pattern says. */
  lemma StringGenerated(root: Json, node: Json, draws: Draws, pos: nat, fuel: nat)
    requires fuel > 0 && ReachesType(node) && KindOf(node) == StringKind
    ensures var r := Gen(root, node, draws, pos, fuel);
      && r.Ok? && r.value.value.JStr?
      && (HasField(node, "pattern") ==>
            && r == Ok(Drawn(JStr(PatternUrl(draws, pos)), pos + 10))
            && IsPatternUrl(r.value.value.s))
      && (!HasField(node, "pattern") ==>
            && 5 <= |r.value.value.s| <= 15
            && AllAlnum(r.value.value.s)
            && r.value.next == pos + 1 + |r.value.value.s|)
  {
    if HasField(node, "pattern") {
      PatternUrlShape(draws, pos);
    }
  }

  /** Every length from 5 to 15 occurs. */
  lemma StringLengthReachable(root: Json, node: Json, pos: nat, fuel: nat, n: nat)
    requires fuel > 0 && ReachesType(node) && KindOf(node) == StringKind && !HasField(node, "pattern")
    requires 5 <= n <= 15
    ensures var r := Gen(root, node, (k: nat) => n - 5, pos, fuel);
      r.Ok? && r.value.value.JStr? && |r.value.value.s| == n
  {
    DrawCovers(pos, 5, 15, n);
  }

  /** The bounds of an `integer`: `minimum` or 0, then `maximum` or the
      minimum plus 1000. */
  lemma IntegerBoundsDefaults(node: Json)
    ensures var lo := Field(node, "minimum");
      var hi := Field(node, "maximum");
      && (lo.None? && hi.None? ==> IntegerBounds(node) == Ok((0, 1000)))
      && (lo.Some? && lo.value.JInt? && hi.None? ==> IntegerBounds(node) == Ok((lo.value.i, lo.value.i + 1000)))
      && (lo.None? && hi.Some? && hi.value.JInt? && 0 <= hi.value.i ==> IntegerBounds(node) == Ok((0, hi.value.i)))
      && (lo.Some? && lo.value.JInt? && hi.Some? && hi.value.JInt? && lo.value.i <= hi.value.i ==>
            IntegerBounds(node) == Ok((lo.value.i, hi.value.i)))
  {
  }

  /** An `integer` lies within its bounds and takes one draw. */
  lemma IntegerGenerated(root: Json, node: Json, draws: Draws, pos: nat, fuel: nat)
    requires fuel > 0 && ReachesType(node) && KindOf(node) == IntegerKind
    ensures var r := Gen(root, node, draws, pos, fuel);
      match IntegerBounds(node)
      case Err(e) => r == Err(e)
      case Ok(bounds) =>
        r.Ok? && r.value.value.JInt? && bounds.0 <= r.value.value.i <= bounds.1 && r.value.next == pos + 1
  {
  }

  /** Every integer within the bounds occurs. */
  lemma IntegerReachable(root: Json, node: Json, pos: nat, fuel: nat, n: int)
    requires fuel > 0 && ReachesType(node) && KindOf(node) == IntegerKind
    requires IntegerBounds(node).Ok? && IntegerBounds(node).value.0 <= n <= IntegerBounds(node).value.1
    ensures Gen(root, node, (k: nat) => (n - IntegerBounds(node).value.0) as nat, pos, fuel) == Ok(Drawn(JInt(n), pos + 1))
  {
    var bounds := IntegerBounds(node).value;
    DrawCovers(pos, bounds.0, bounds.1, n);
  }

  /** Equal bounds leave no choice. */
  lemma IntegerFixed(root: Json, node: Json, draws: Draws, pos: nat, fuel: nat, n: int)
    requires fuel > 0 && ReachesType(node) && KindOf(node) == IntegerKind
    requires Field(node, "minimum") == Some(JInt(n)) && Field(node, "maximum") == Some(JInt(n))
    ensures Gen(root, node, draws, pos, fuel) == Ok(Drawn(JInt(n), pos + 1))
  {
  }

  // ---------------------------------------------------------------------
  // Arrays

  /** `v` is what some call on `node` returns with these draws. */
  ghost predicate GeneratedBy(root: Json, node: Json, draws: Draws, fuel: nat, v: Json) {
    exists p: nat :: Gen(root, node, draws, p, fuel).Ok? && Gen(root, node, draws, p, fuel).value.value == v
  }

  /** Each element of a generated list is what some call on `items` returns
      with the same draws. */
  lemma {:induction false} GenItemsGenerated(root: Json, items: Json, count: nat, draws: Draws, pos: nat, fuel: nat)
    requires GenItems(root, items, count, draws, pos, fuel).Ok?
    ensures var elems := GenItems(root, items, count, draws, pos, fuel).value.value;
      forall k :: 0 <= k < |elems| ==> GeneratedBy(root, items, draws, fuel, elems[k])
    decreases count
  {
    if count > 0 {
      var first := Gen(root, items, draws, pos, fuel).value;
      var rest := GenItems(root, items, count - 1, draws, first.next, fuel).value.value;
      GenItemsGenerated(root, items, count - 1, draws, first.next, fuel);
      var elems := GenItems(root, items, count, draws, pos, fuel).value.value;
      assert elems == [first.value] + rest;
      forall k | 0 <= k < |elems|
        ensures GeneratedBy(root, items, draws, fuel, elems[k])
      {
        if k == 0 {
          assert Gen(root, items, draws, pos, fuel).value.value == elems[0];
        } else {
          assert elems[k] == rest[k - 1];
        }
      }
    }
  }

  /** An `array` needs truthy `items`; it has as many elements as the first
      draw says, at most 5, each generated from `items`. */
  lemma ArrayGenerated(root: Json, node: Json, draws: Draws, pos: nat, fuel: nat)
    requires fuel > 0 && ReachesType(node) && KindOf(node) == ArrayKind
    ensures var items := Field(node, "items");
      var r := Gen(root, node, draws, pos, fuel);
      && (items.None? || !Truthy(items.value) ==> r == Err(ItemsMissing))
      && (r.Ok? ==>
            && items.Some? && r.value.value.JArr?
            && |r.value.value.elems| == Draw(draws, pos, 0, 5) <= 5
            && forall k :: 0 <= k < |r.value.value.elems| ==>
                 && Accepts(root, items.value, r.value.value.elems[k], fuel - 1)
                 && GeneratedBy(root, items.value, draws, fuel - 1, r.value.value.elems[k]))
  {
    var items := Field(node, "items");
    assert Gen(root, node, draws, pos, fuel) == GenByType(root, node, draws, pos, fuel)
        == GenArray(root, node, draws, pos, fuel);
    if items.Some? && Truthy(items.value) {
      var length := Draw(draws, pos, 0, 5);
      var list := GenItems(root, items.value, length, draws, pos + 1, fuel - 1);
      GenItemsSound(root, items.value, length, draws, pos + 1, fuel - 1);
      if list.Ok? {
        GenItemsGenerated(root, items.value, length, draws, pos + 1, fuel - 1);
      }
    }
  }

  // ---------------------------------------------------------------------
  // Objects

  /** An `object` takes its keys from `properties`, in their order, always
      including those listed in `required`, and with no `properties` it is
      empty and draws nothing. */
  lemma ObjectGenerated(root: Json, node: Json, draws: Draws, pos: nat, fuel: nat)
    requires fuel > 0 && ReachesType(node) && KindOf(node) == ObjectKind
    ensures var props := PropertyEntries(node);
      var required := Field(node, "required");
      var r := Gen(root, node, draws, pos, fuel);
      && (Field(node, "properties").None? ==> r == Ok(Drawn(JObj([]), pos)))
      && (r.Ok? ==>
            && r.value.value.JObj?
            && IsSubsequence(Keys(r.value.value.fields), Keys(props))
            && forall i :: 0 <= i < |props| && Includes(required, props[i].0) == Ok(true) ==>
                 Lookup(r.value.value.fields, props[i].0).Some?)
  {
    var props := PropertyEntries(node);
    var required := Field(node, "required");
    var r := Gen(root, node, draws, pos, fuel);
    assert r == GenByType(root, node, draws, pos, fuel) == GenObject(root, node, draws, pos, fuel);
    if Field(node, "properties").None? {
      assert props == [];
      assert GenFields(root, props, required, draws, pos, fuel - 1) == Ok(Drawn([], pos));
    }
    if r.Ok? {
      GenByTypeSound(root, node, draws, pos, fuel);
      var fields := r.value.value.fields;
      FieldsMatchKeys(root, props, required, fields, fuel - 1);
      forall i | 0 <= i < |props| && Includes(required, props[i].0) == Ok(true)
        ensures Lookup(fields, props[i].0).Some?
      {
        FieldsMatchRequired(root, props, required, fields, fuel - 1, i);
      }
    }
  }

  /** With no property required, the object where every coin says no is
      empty. */
  lemma {:induction false} NoneTaken(root: Json, props: seq<(string, Json)>, required: Option<Json>, pos: nat, fuel: nat)
    requires forall i :: 0 <= i < |props| ==> Includes(required, props[i].0) == Ok(false)
    ensures GenFields(root, props, required, (k: nat) => 1, pos, fuel) == Ok(Drawn([], pos + |props|))
    decreases |props|
  {
    if props != [] {
      assert Includes(required, props[0].0) == Ok(false);
      NoneTaken(root, props[1..], required, pos + 1, fuel);
    }
  }
}
