/** What a schema node admits, stated without reference to any draws, and
    the theorem that every value the generator returns is admitted: the
    shape, type and range guarantees that the test file checks on one
    generated instance, proved for all of them. */
module Conformance {
  import opened Outcomes
  import opened Text
  import opened JsonValues
  import opened Primitives
  import opened Resolver
  import opened Generator

  /** `a` is `b` with some elements left out, order kept. */
  predicate IsSubsequence(a: seq<string>, b: seq<string>)
    decreases |b|
  {
    a == [] || (b != [] && ((a[0] == b[0] && IsSubsequence(a[1..], b[1..])) || IsSubsequence(a, b[1..])))
  }

  /** A string of the URL shape, with the parts the pattern generator uses. */
  predicate IsPatternUrl(s: string) {
    var p := ParseUrl(s);
    && p.Some?
    && p.value.subdomain in Subdomains
    && 1000 <= p.value.number <= 9999
    && |p.value.suffix| == 8
  }

  /** `v` is a value `node` admits, with references followed at most `fuel`
      deep. Reference, union and enumeration come first, as in the
      dispatcher. */
  ghost predicate Accepts(root: Json, node: Json, v: Json, fuel: nat)
    decreases fuel, 2, 0
  {
    && fuel > 0
    && Truthy(node)
    && IsObjectLike(node)
    && if HasField(node, "$ref") then
         match ResolveValue(root, Field(node, "$ref").value)
         case Err(_) => false
         case Ok(target) => Accepts(root, target, v, fuel - 1)
       else if HasField(node, "anyOf") then
         match Field(node, "anyOf").value
         case JArr(options) => exists i :: 0 <= i < |options| && Accepts(root, options[i], v, fuel - 1)
         case _ => false
       else if HasField(node, "enum") then
         match Field(node, "enum").value
         case JArr(values) => v in values
         case _ => false
       else AcceptsByType(root, node, v, fuel)
  }

  /** What each `type` admits. */
  ghost predicate AcceptsByType(root: Json, node: Json, v: Json, fuel: nat)
    requires fuel > 0
    decreases fuel, 1, 0
  {
    match KindOf(node)
    case StringKind =>
      v.JStr? && if HasField(node, "pattern") then IsPatternUrl(v.s) else 5 <= |v.s| <= 15 && AllAlnum(v.s)
    case IntegerKind =>
      (match IntegerBounds(node)
       case Err(_) => false
       case Ok(bounds) => v.JInt? && bounds.0 <= v.i <= bounds.1)
    case BooleanKind => v.JBool?
    case NullKind => v == JNull
    case ArrayKind =>
      var items := Field(node, "items");
      && items.Some? && Truthy(items.value)
      && v.JArr? && |v.elems| <= 5
      && forall k :: 0 <= k < |v.elems| ==> Accepts(root, items.value, v.elems[k], fuel - 1)
    case ObjectKind =>
      v.JObj? && FieldsMatch(root, PropertyEntries(node), Field(node, "required"), v.fields, fuel - 1)
    case OtherKind => v == JNull
  }

  /** `fields` takes properties from `props` in their order, skips none that
      is required, and holds for each taken one a value its schema admits. */
  ghost predicate FieldsMatch(root: Json, props: seq<(string, Json)>, required: Option<Json>,
                              fields: seq<(string, Json)>, fuel: nat)
    decreases fuel, 3, |props|
  {
    if props == [] then fields == []
    else
      match Includes(required, props[0].0)
      case Err(_) => false
      case Ok(isRequired) =>
        || (&& fields != []
            && fields[0].0 == props[0].0
            && Accepts(root, props[0].1, fields[0].1, fuel)
            && FieldsMatch(root, props[1..], required, fields[1..], fuel))
        || (!isRequired && FieldsMatch(root, props[1..], required, fields, fuel))
  }

  // ---------------------------------------------------------------------
  // Soundness: every generated value is admitted

  lemma {:induction false} GenSound(root: Json, node: Json, draws: Draws, pos: nat, fuel: nat)
    ensures var r := Gen(root, node, draws, pos, fuel);
      r.Ok? ==> Accepts(root, node, r.value.value, fuel)
    decreases fuel, 2, 0
  {
    var r := Gen(root, node, draws, pos, fuel);
    if r.Ok? {
      if HasField(node, "$ref") {
        var target := ResolveValue(root, Field(node, "$ref").value);
        if target.Ok? {
          GenSound(root, target.value, draws, pos, fuel - 1);
        }
      } else if HasField(node, "anyOf") {
        var options := Field(node, "anyOf").value;
        if options.JArr? && options.elems != [] {
          var i := Draw(draws, pos, 0, |options.elems| - 1);
          GenSound(root, options.elems[i], draws, pos + 1, fuel - 1);
        }
      } else if !HasField(node, "enum") {
        GenByTypeSound(root, node, draws, pos, fuel);
      }
    }
  }

  lemma {:induction false} GenByTypeSound(root: Json, node: Json, draws: Draws, pos: nat, fuel: nat)
    requires fuel > 0
    ensures var r := GenByType(root, node, draws, pos, fuel);
      r.Ok? ==> AcceptsByType(root, node, r.value.value, fuel)
    decreases fuel, 1, 0
  {
    match KindOf(node)
    case StringKind =>
      if HasField(node, "pattern") {
        PatternUrlShape(draws, pos);
      }
    case ArrayKind =>
      var items := Field(node, "items");
      if items.Some? && Truthy(items.value) {
        GenItemsSound(root, items.value, Draw(draws, pos, 0, 5), draws, pos + 1, fuel - 1);
      }
    case ObjectKind =>
      GenFieldsSound(root, PropertyEntries(node), Field(node, "required"), draws, pos, fuel - 1);
    case _ =>
  }

  lemma {:induction false} GenItemsSound(root: Json, items: Json, count: nat, draws: Draws, pos: nat, fuel: nat)
    ensures var r := GenItems(root, items, count, draws, pos, fuel);
      r.Ok? ==> (&& |r.value.value| == count
                 && forall k :: 0 <= k < count ==> Accepts(root, items, r.value.value[k], fuel))
    decreases fuel, 3, count
  {
    if count > 0 {
      var first := Gen(root, items, draws, pos, fuel);
      if first.Ok? {
        GenSound(root, items, draws, pos, fuel);
        GenItemsSound(root, items, count - 1, draws, first.value.next, fuel);
        var rest := GenItems(root, items, count - 1, draws, first.value.next, fuel);
        if rest.Ok? {
          assert GenItems(root, items, count, draws, pos, fuel)
              == Ok(Drawn([first.value.value] + rest.value.value, rest.value.next));
          AllPrepend(v => Accepts(root, items, v, fuel), first.value.value, rest.value.value);
        }
      }
    }
  }

  /** A property of every element survives putting one more, that has
      it, in front. */
  lemma AllPrepend<T>(p: T -> bool, x: T, xs: seq<T>)
    requires p(x)
    requires forall k :: 0 <= k < |xs| ==> p(xs[k])
    ensures forall k :: 0 <= k < |[x] + xs| ==> p(([x] + xs)[k])
  {
    forall k | 0 <= k < |[x] + xs|
      ensures p(([x] + xs)[k])
    {
      if k > 0 {
        assert ([x] + xs)[k] == xs[k - 1];
      }
    }
  }

  lemma {:induction false} GenFieldsSound(root: Json, props: seq<(string, Json)>, required: Option<Json>,
                                          draws: Draws, pos: nat, fuel: nat)
    ensures var r := GenFields(root, props, required, draws, pos, fuel);
      r.Ok? ==> FieldsMatch(root, props, required, r.value.value, fuel)
    decreases fuel, 3, |props|
  {
    if props != [] {
      var isRequired := Includes(required, props[0].0);
      if isRequired.Ok? {
        var after := if isRequired.value then pos else pos + 1;
        if isRequired.value || Coin(draws, pos) {
          var v := Gen(root, props[0].1, draws, after, fuel);
          if v.Ok? {
            GenSound(root, props[0].1, draws, after, fuel);
            GenFieldsSound(root, props[1..], required, draws, v.value.next, fuel);
          }
        } else {
          GenFieldsSound(root, props[1..], required, draws, after, fuel);
        }
      }
    }
  }

  // ---------------------------------------------------------------------
  // What the object clause means

  /** The generated keys are declared properties, in declaration order. */
  lemma {:induction false} FieldsMatchKeys(root: Json, props: seq<(string, Json)>, required: Option<Json>,
                                           fields: seq<(string, Json)>, fuel: nat)
    requires FieldsMatch(root, props, required, fields, fuel)
    ensures IsSubsequence(Keys(fields), Keys(props))
    decreases |props|
  {
    if props != [] {
      if fields != [] && fields[0].0 == props[0].0
         && Accepts(root, props[0].1, fields[0].1, fuel)
         && FieldsMatch(root, props[1..], required, fields[1..], fuel) {
        FieldsMatchKeys(root, props[1..], required, fields[1..], fuel);
      } else {
        FieldsMatchKeys(root, props[1..], required, fields, fuel);
      }
    }
  }

  /** Every required property is present. */
  lemma {:induction false} FieldsMatchRequired(root: Json, props: seq<(string, Json)>, required: Option<Json>,
                                               fields: seq<(string, Json)>, fuel: nat, i: nat)
    requires FieldsMatch(root, props, required, fields, fuel)
    requires i < |props| && Includes(required, props[i].0) == Ok(true)
    ensures Lookup(fields, props[i].0).Some?
    decreases |props|
  {
    var taken := fields != [] && fields[0].0 == props[0].0
                 && Accepts(root, props[0].1, fields[0].1, fuel)
                 && FieldsMatch(root, props[1..], required, fields[1..], fuel);
    if i == 0 {
      assert taken;
    } else if taken {
      FieldsMatchRequired(root, props[1..], required, fields[1..], fuel, i - 1);
      if fields[0].0 != props[i].0 {
        assert Lookup(fields, props[i].0) == Lookup(fields[1..], props[i].0);
      }
    } else {
      FieldsMatchRequired(root, props[1..], required, fields, fuel, i - 1);
    }
  }
}
