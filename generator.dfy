/** `generateValue`: the recursive dispatcher and the array and object
    synthesizers.

    `Gen` is the specification: the value one call returns (or the error it
    throws) for a given oracle and position of the first draw, together
    with the position of the first draw left unused. `GenerateValue` is the
    code itself, loops included, proved to compute `Gen`.

    `fuel` bounds how deeply calls of `generateValue` nest. In the source
    the bound is the call stack: nesting too deeply (a cyclic `$ref` or
    `anyOf`, say) throws a `RangeError` at a depth the engine chooses.
    Running out of fuel (`OutOfFuel`) stands for that error, and
    `GenFuelMonotone` shows that more fuel never changes any other
    outcome. */
module Generator {
  import opened Outcomes
  import opened Text
  import opened JsonValues
  import opened Primitives
  import opened Resolver

  /** A generated value and the position of the next unused draw. */
  datatype Drawn<+T> = Drawn(value: T, next: nat)

  /** Puts the elements already built in front of what the rest of a loop
      builds; errors pass through. */
  function Prepend<T>(xs: seq<T>, r: Result<Drawn<seq<T>>>): Result<Drawn<seq<T>>> {
    match r
    case Err(e) => Err(e)
    case Ok(d) => Ok(Drawn(xs + d.value, d.next))
  }

  lemma PrependNothing<T>(r: Result<Drawn<seq<T>>>)
    ensures Prepend([], r) == r
  {
    match r
    case Err(e) =>
    case Ok(d) => assert [] + d.value == d.value;
  }

  lemma PrependTwice<T>(xs: seq<T>, ys: seq<T>, r: Result<Drawn<seq<T>>>)
    ensures Prepend(xs, Prepend(ys, r)) == Prepend(xs + ys, r)
  {
    match r
    case Err(e) =>
    case Ok(d) => assert xs + (ys + d.value) == xs + ys + d.value;
  }

  /** `resolveRef(currentSchema['$ref'])`: a non-string reference has no
      `startsWith` and throws. */
  function ResolveValue(root: Json, ref: Json): (r: Result<Json>)
    ensures !ref.JStr? ==> r == Err(TypeError)
  {
    match ref
    case JStr(s) => Resolve(root, s)
    case _ => Err(TypeError)
  }

  /** The bounds of an `integer` node: `minimum` or 0, then `maximum` or
      that minimum plus 1000. */
  function IntegerBounds(node: Json): (r: Result<(int, int)>)
    ensures r.Ok? ==> r.value.0 <= r.value.1
  {
    var lo := match Field(node, "minimum")
      case None => Ok(0)
      case Some(JInt(m)) => Ok(m)
      case Some(_) => Err(UnsupportedBound);
    if lo.Err? then Err(lo.error)
    else
      var hi := match Field(node, "maximum")
        case None => Ok(lo.value + 1000)
        case Some(JInt(m)) => Ok(m)
        case Some(_) => Err(UnsupportedBound);
      if hi.Err? then Err(hi.error)
      else if lo.value > hi.value then Err(InvertedBounds)
      else Ok((lo.value, hi.value))
  }

  /** `(currentSchema.required || []).includes(key)`: membership for an
      array, substring search for a string, a `TypeError` for any other
      truthy value. */
  function Includes(required: Option<Json>, key: string): (r: Result<bool>)
    ensures r.Err? <==> required.Some? && Truthy(required.value) && !required.value.JArr? && !required.value.JStr?
    ensures r.Err? ==> r.error == TypeError
    ensures r == Ok(true) ==> required.Some? && Truthy(required.value)
  {
    match required
    case None => Ok(false)
    case Some(r) =>
      if !Truthy(r) then Ok(false)
      else
        match r
        case JArr(elems) => Ok(JStr(key) in elems)
        case JStr(s) => Ok(Contains(s, key))
        case _ => Err(TypeError)
  }

  /** What `for (let key in currentSchema.properties || {})` visits. */
  function PropertyEntries(node: Json): (r: seq<(string, Json)>)
    ensures r != [] ==> HasField(node, "properties") && Truthy(Field(node, "properties").value)
  {
    match Field(node, "properties")
    case None => []
    case Some(props) => Entries(props)
  }

  /** One call of `generateValue`: the falsy check, then `$ref`, `anyOf` and
      `enum`, in that order, before `type` is looked at. */
  function Gen(root: Json, node: Json, draws: Draws, pos: nat, fuel: nat): Result<Drawn<Json>>
    decreases fuel, 2, 0
  {
    if fuel == 0 then Err(OutOfFuel)
    else if !Truthy(node) then Err(SchemaMissing)
    else if !IsObjectLike(node) then Err(TypeError)
    else if HasField(node, "$ref") then GenRef(root, Field(node, "$ref").value, draws, pos, fuel)
    else if HasField(node, "anyOf") then GenAnyOf(root, Field(node, "anyOf").value, draws, pos, fuel)
    else if HasField(node, "enum") then GenEnum(Field(node, "enum").value, draws, pos)
    else GenByType(root, node, draws, pos, fuel)
  }

  /** The `$ref` case: whatever the node the reference names generates. */
  function GenRef(root: Json, ref: Json, draws: Draws, pos: nat, fuel: nat): Result<Drawn<Json>>
    requires fuel > 0
    decreases fuel, 1, 0
  {
    match ResolveValue(root, ref)
    case Err(e) => Err(e)
    case Ok(target) => Gen(root, target, draws, pos, fuel - 1)
  }

  /** The `anyOf` case: one draw picks the option to generate from. */
  function GenAnyOf(root: Json, options: Json, draws: Draws, pos: nat, fuel: nat): Result<Drawn<Json>>
    requires fuel > 0
    decreases fuel, 1, 0
  {
    if !options.JArr? || options.elems == [] then Err(AnyOfInvalid)
    else Gen(root, options.elems[Draw(draws, pos, 0, |options.elems| - 1)], draws, pos + 1, fuel - 1)
  }

  /** The `enum` case: one draw picks the member returned, as it stands. */
  function GenEnum(values: Json, draws: Draws, pos: nat): Result<Drawn<Json>> {
    if !values.JArr? || values.elems == [] then Err(EnumInvalid)
    else Ok(Drawn(values.elems[Draw(draws, pos, 0, |values.elems| - 1)], pos + 1))
  }

  /** The cases of `switch (currentSchema.type)`; `OtherKind` is `default`. */
  datatype Kind = StringKind | IntegerKind | BooleanKind | NullKind | ArrayKind | ObjectKind | OtherKind

  function KindOf(node: Json): Kind {
    var ty := Field(node, "type");
    if ty == Some(JStr("string")) then StringKind
    else if ty == Some(JStr("integer")) then IntegerKind
    else if ty == Some(JStr("boolean")) then BooleanKind
    else if ty == Some(JStr("null")) then NullKind
    else if ty == Some(JStr("array")) then ArrayKind
    else if ty == Some(JStr("object")) then ObjectKind
    else OtherKind
  }

  /** The `switch (currentSchema.type)`. */
  function GenByType(root: Json, node: Json, draws: Draws, pos: nat, fuel: nat): Result<Drawn<Json>>
    requires fuel > 0
    decreases fuel, 1, 0
  {
    match KindOf(node)
    case StringKind => Ok(GenString(node, draws, pos))
    case IntegerKind => GenInteger(node, draws, pos)
    case BooleanKind => Ok(Drawn(JBool(Coin(draws, pos)), pos + 1))
    case NullKind => Ok(Drawn(JNull, pos))
    case ArrayKind => GenArray(root, node, draws, pos, fuel)
    case ObjectKind => GenObject(root, node, draws, pos, fuel)
    case OtherKind => Ok(Drawn(JNull, pos))
  }

  /** The `string` case: the URL when `pattern` is present, otherwise 5 to
      15 random characters, the length drawn first. */
  function GenString(node: Json, draws: Draws, pos: nat): Drawn<Json> {
    if HasField(node, "pattern") then Drawn(JStr(PatternUrl(draws, pos)), pos + 10)
    else
      var length := Draw(draws, pos, 5, 15);
      Drawn(JStr(RandomString(draws, pos + 1, length)), pos + 1 + length)
  }

  /** The `integer` case: one draw within the bounds. */
  function GenInteger(node: Json, draws: Draws, pos: nat): Result<Drawn<Json>> {
    match IntegerBounds(node)
    case Err(e) => Err(e)
    case Ok(bounds) => Ok(Drawn(JInt(Draw(draws, pos, bounds.0, bounds.1)), pos + 1))
  }

  /** The `array` case: the length is drawn before `items` is checked. */
  function GenArray(root: Json, node: Json, draws: Draws, pos: nat, fuel: nat): Result<Drawn<Json>>
    requires fuel > 0
    decreases fuel, 0, 0
  {
    var length := Draw(draws, pos, 0, 5);
    var items := Field(node, "items");
    if items.None? || !Truthy(items.value) then Err(ItemsMissing)
    else
      match GenItems(root, items.value, length, draws, pos + 1, fuel - 1)
      case Err(e) => Err(e)
      case Ok(d) => Ok(Drawn(JArr(d.value), d.next))
  }

  /** The `object` case. */
  function GenObject(root: Json, node: Json, draws: Draws, pos: nat, fuel: nat): Result<Drawn<Json>>
    requires fuel > 0
    decreases fuel, 0, 0
  {
    match GenFields(root, PropertyEntries(node), Field(node, "required"), draws, pos, fuel - 1)
    case Err(e) => Err(e)
    case Ok(d) => Ok(Drawn(JObj(d.value), d.next))
  }

  /** `count` successive calls on `items`, as the array loop makes them. */
  function GenItems(root: Json, items: Json, count: nat, draws: Draws, pos: nat, fuel: nat)
    : Result<Drawn<seq<Json>>>
    decreases fuel, 3, count
  {
    if count == 0 then Ok(Drawn([], pos))
    else
      match Gen(root, items, draws, pos, fuel)
      case Err(e) => Err(e)
      case Ok(first) => Prepend([first.value], GenItems(root, items, count - 1, draws, first.next, fuel))
  }

  /** The object loop over the visited properties: a required one is always
      generated; any other only if a coin flip, drawn just for it, says so. */
  function GenFields(root: Json, props: seq<(string, Json)>, required: Option<Json>,
                     draws: Draws, pos: nat, fuel: nat): Result<Drawn<seq<(string, Json)>>>
    decreases fuel, 3, |props|
  {
    if props == [] then Ok(Drawn([], pos))
    else
      var key := props[0].0;
      match Includes(required, key)
      case Err(e) => Err(e)
      case Ok(isRequired) =>
        var after := if isRequired then pos else pos + 1;
        if isRequired || Coin(draws, pos) then
          match Gen(root, props[0].1, draws, after, fuel)
          case Err(e) => Err(e)
          case Ok(v) => Prepend([(key, v.value)], GenFields(root, props[1..], required, draws, v.next, fuel))
        else GenFields(root, props[1..], required, draws, after, fuel)
  }

  /** `generateValue(currentSchema)`: the checks before the `switch`. */
  method GenerateValue(root: Json, node: Json, draws: Draws, pos: nat, fuel: nat)
    returns (r: Result<Drawn<Json>>)
    ensures r == Gen(root, node, draws, pos, fuel)
    decreases fuel, 2
  {
    if fuel == 0 {
      return Err(OutOfFuel);
    }
    if !Truthy(node) {
      return Err(SchemaMissing);
    }
    if !IsObjectLike(node) {
      return Err(TypeError);
    }
    if HasField(node, "$ref") {
      var ref := Field(node, "$ref").value;
      if !ref.JStr? {
        return Err(TypeError);
      }
      var target := ResolveRef(root, ref.s);
      if target.Err? {
        return Err(target.error);
      }
      r := GenerateValue(root, target.value, draws, pos, fuel - 1);
      assert r == GenRef(root, ref, draws, pos, fuel);
      return;
    }
    if HasField(node, "anyOf") {
      var options := Field(node, "anyOf").value;
      if !options.JArr? || |options.elems| == 0 {
        return Err(AnyOfInvalid);
      }
      var chosen := options.elems[Draw(draws, pos, 0, |options.elems| - 1)];
      r := GenerateValue(root, chosen, draws, pos + 1, fuel - 1);
      assert r == GenAnyOf(root, options, draws, pos, fuel);
      return;
    }
    if HasField(node, "enum") {
      var values := Field(node, "enum").value;
      if !values.JArr? || |values.elems| == 0 {
        return Err(EnumInvalid);
      }
      return Ok(Drawn(values.elems[Draw(draws, pos, 0, |values.elems| - 1)], pos + 1));
    }
    r := GenerateByType(root, node, draws, pos, fuel);
  }

  /** The `switch (currentSchema.type)` of `generateValue`. */
  method GenerateByType(root: Json, node: Json, draws: Draws, pos: nat, fuel: nat)
    returns (r: Result<Drawn<Json>>)
    requires fuel > 0
    ensures r == GenByType(root, node, draws, pos, fuel)
    decreases fuel, 1
  {
    match KindOf(node)
    case StringKind =>
      var d := GenerateString(node, draws, pos);
      r := Ok(d);
    case IntegerKind =>
      var bounds := IntegerBounds(node);
      if bounds.Err? {
        r := Err(bounds.error);
      } else {
        r := Ok(Drawn(JInt(Draw(draws, pos, bounds.value.0, bounds.value.1)), pos + 1));
      }
    case BooleanKind =>
      r := Ok(Drawn(JBool(Coin(draws, pos)), pos + 1));
    case NullKind =>
      r := Ok(Drawn(JNull, pos));
    case ArrayKind =>
      r := GenerateArray(root, node, draws, pos, fuel);
    case ObjectKind =>
      r := GenerateObject(root, node, draws, pos, fuel);
    case OtherKind =>
      r := Ok(Drawn(JNull, pos));
  }

  /** The `string` case. */
  method GenerateString(node: Json, draws: Draws, pos: nat) returns (r: Drawn<Json>)
    ensures r == GenString(node, draws, pos)
  {
    var s, next;
    if HasField(node, "pattern") {
      s, next := GenerateStringFromPattern(draws, pos);
    } else {
      s, next := GetRandomString(draws, pos + 1, Draw(draws, pos, 5, 15));
    }
    r := Drawn(JStr(s), next);
  }

  /** The `array` case: draws the length and checks `items` before any
      item is generated. */
  method GenerateArray(root: Json, node: Json, draws: Draws, pos: nat, fuel: nat)
    returns (r: Result<Drawn<Json>>)
    requires fuel > 0
    ensures r == GenArray(root, node, draws, pos, fuel)
    decreases fuel, 0
  {
    var length := Draw(draws, pos, 0, 5);
    var items := Field(node, "items");
    if items.None? || !Truthy(items.value) {
      r := Err(ItemsMissing);
    } else {
      var arr := GenerateItems(root, items.value, length, draws, pos + 1, fuel - 1);
      r := if arr.Err? then Err(arr.error) else Ok(Drawn(JArr(arr.value.value), arr.value.next));
    }
  }

  /** The array loop: pushes `length` generated items. */
  method GenerateItems(root: Json, items: Json, length: nat, draws: Draws, pos: nat, fuel: nat)
    returns (r: Result<Drawn<seq<Json>>>)
    ensures r == GenItems(root, items, length, draws, pos, fuel)
    decreases fuel, 3
  {
    var arr: seq<Json> := [];
    var p := pos;
    var i := 0;
    PrependNothing(GenItems(root, items, length, draws, pos, fuel));
    while i < length
      invariant 0 <= i <= length
      invariant GenItems(root, items, length, draws, pos, fuel)
             == Prepend(arr, GenItems(root, items, length - i, draws, p, fuel))
    {
      var element := GenerateValue(root, items, draws, p, fuel);
      if element.Err? {
        return Err(element.error);
      }
      PrependTwice(arr, [element.value.value],
                   GenItems(root, items, length - i - 1, draws, element.value.next, fuel));
      arr := arr + [element.value.value];
      p := element.value.next;
      i := i + 1;
    }
    assert arr + [] == arr;
    r := Ok(Drawn(arr, p));
  }

  /** The `object` case. */
  method GenerateObject(root: Json, node: Json, draws: Draws, pos: nat, fuel: nat)
    returns (r: Result<Drawn<Json>>)
    requires fuel > 0
    ensures r == GenObject(root, node, draws, pos, fuel)
    decreases fuel, 0
  {
    var obj := GenerateFields(root, PropertyEntries(node), Field(node, "required"), draws, pos, fuel - 1);
    r := if obj.Err? then Err(obj.error) else Ok(Drawn(JObj(obj.value.value), obj.value.next));
  }

  /** The object loop: fills `obj` over the visited properties. */
  method GenerateFields(root: Json, props: seq<(string, Json)>, required: Option<Json>,
                        draws: Draws, pos: nat, fuel: nat)
    returns (r: Result<Drawn<seq<(string, Json)>>>)
    ensures r == GenFields(root, props, required, draws, pos, fuel)
    decreases fuel, 3, |props| + 1
  {
    var obj: seq<(string, Json)> := [];
    var p := pos;
    var i := 0;
    PrependNothing(GenFields(root, props, required, draws, pos, fuel));
    while i < |props|
      invariant 0 <= i <= |props|
      invariant GenFields(root, props, required, draws, pos, fuel)
             == Prepend(obj, GenFields(root, props[i..], required, draws, p, fuel))
    {
      var step := GenerateField(root, props[i..], required, draws, p, fuel);
      if step.Err? {
        return Err(step.error);
      }
      assert props[i..][1..] == props[i + 1..];
      PrependTwice(obj, step.value.value, GenFields(root, props[i + 1..], required, draws, step.value.next, fuel));
      obj := obj + step.value.value;
      p := step.value.next;
      i := i + 1;
    }
    assert props[i..] == [] && obj + [] == obj;
    r := Ok(Drawn(obj, p));
  }

  /** One iteration of the object loop, for the first of `props`: the pair
      it adds to `obj` (none if the property is skipped) and where the draws
      continue, or what it throws. */
  method GenerateField(root: Json, props: seq<(string, Json)>, required: Option<Json>,
                       draws: Draws, pos: nat, fuel: nat)
    returns (r: Result<Drawn<seq<(string, Json)>>>)
    requires props != []
    ensures r.Err? ==> GenFields(root, props, required, draws, pos, fuel) == Err(r.error)
    ensures r.Ok? ==> |r.value.value| <= 1
    ensures r.Ok? ==> GenFields(root, props, required, draws, pos, fuel)
                      == Prepend(r.value.value, GenFields(root, props[1..], required, draws, r.value.next, fuel))
    decreases fuel, 3, |props|
  {
    var key := props[0].0;
    var isRequired := Includes(required, key);
    if isRequired.Err? {
      return Err(isRequired.error);
    }
    var taken := isRequired.value;
    var p := pos;
    if !taken {
      taken := Coin(draws, p);
      p := p + 1;
    }
    if !taken {
      PrependNothing(GenFields(root, props[1..], required, draws, p, fuel));
      return Ok(Drawn([], p));
    }
    var value := GenerateValue(root, props[0].1, draws, p, fuel);
    if value.Err? {
      return Err(value.error);
    }
    r := Ok(Drawn([(key, value.value.value)], value.value.next));
  }
}
