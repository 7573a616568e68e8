/** `resolveRef`: local `#/a/b/c` pointers looked up in the root schema. */
module Resolver {
  import opened Outcomes
  import opened Text
  import opened JsonValues

  /** One iteration of the walk: `current[part]`, which throws on `null`, and
      the `=== undefined` test. */
  function Step(current: Json, part: string): (r: Result<Json>)
    ensures r.Ok? ==> Get(current, part) == Some(r.value)
    ensures r.Err? ==> r.error == (if current.JNull? then TypeError else RefUnresolved)
  {
    if current.JNull? then Err(TypeError)
    else
      match Get(current, part)
      case None => Err(RefUnresolved)
      case Some(next) => Ok(next)
  }

  /** The node reached from `current` by following `parts` in order. */
  function Walk(current: Json, parts: seq<string>): (r: Result<Json>)
    ensures r.Err? ==> r.error == RefUnresolved || r.error == TypeError
    decreases |parts|
  {
    if parts == [] then Ok(current)
    else
      match Step(current, parts[0])
      case Err(e) => Err(e)
      case Ok(next) => Walk(next, parts[1..])
  }

  predicate IsLocal(ref: string) {
    |ref| >= 2 && ref[..2] == "#/"
  }

  /** What `resolveRef(ref)` returns or throws. */
  function Resolve(root: Json, ref: string): (r: Result<Json>)
    ensures !IsLocal(ref) ==> r == Err(RefNotLocal)
    ensures r.Err? ==> r.error == RefNotLocal || r.error == RefUnresolved || r.error == TypeError
  {
    if IsLocal(ref) then Walk(root, Split(ref[2..], '/')) else Err(RefNotLocal)
  }

  /** `resolveRef`: the loop that reassigns `current` once per segment. */
  method ResolveRef(root: Json, ref: string) returns (r: Result<Json>)
    ensures r == Resolve(root, ref)
  {
    if !IsLocal(ref) {
      return Err(RefNotLocal);
    }
    var parts := Split(ref[2..], '/');
    var current := root;
    var i := 0;
    while i < |parts|
      invariant 0 <= i <= |parts|
      invariant Walk(root, parts) == Walk(current, parts[i..])
    {
      assert parts[i..][1..] == parts[i + 1..];
      if current.JNull? {
        return Err(TypeError);
      }
      var next := Get(current, parts[i]);
      if next.None? {
        return Err(RefUnresolved);
      }
      current := next.value;
      i := i + 1;
    }
    r := Ok(current);
  }

  /** Walking a path in two pieces is walking it whole. */
  lemma {:induction false} WalkAppend(current: Json, p: seq<string>, q: seq<string>)
    ensures Walk(current, p + q) ==
      match Walk(current, p)
      case Err(e) => Err(e)
      case Ok(mid) => Walk(mid, q)
    decreases |p|
  {
    if p == [] {
      assert p + q == q;
    } else {
      assert (p + q)[0] == p[0] && (p + q)[1..] == p[1..] + q;
      match Step(current, p[0])
      case Err(e) =>
      case Ok(next) => WalkAppend(next, p[1..], q);
    }
  }

  /** A one-segment walk is a single property read. */
  lemma WalkOne(current: Json, part: string)
    ensures Walk(current, [part]) == Step(current, part)
  {
    assert [part][1..] == [];
  }

  /** A walk fails as soon as one segment is absent, however deep it lies and
      whatever follows it. */
  lemma AbsentSegment(root: Json, parts: seq<string>, k: nat, mid: Json)
    requires k < |parts| && Walk(root, parts[..k]) == Ok(mid)
    requires !mid.JNull? && Get(mid, parts[k]).None?
    ensures Walk(root, parts) == Err(RefUnresolved)
  {
    assert parts == parts[..k] + parts[k..];
    WalkAppend(root, parts[..k], parts[k..]);
    assert parts[k..] == [parts[k]] + parts[k + 1..];
    WalkAppend(mid, [parts[k]], parts[k + 1..]);
    WalkOne(mid, parts[k]);
  }

  /** A reference spelled from a path of plain names resolves to the node at
      that path. */
  lemma ResolvePath(root: Json, path: seq<string>)
    requires |path| > 0
    requires forall i :: 0 <= i < |path| ==> '/' !in path[i]
    ensures Resolve(root, "#/" + Join(path, '/')) == Walk(root, path)
  {
    var ref := "#/" + Join(path, '/');
    assert ref[..2] == "#/" && ref[2..] == Join(path, '/');
    SplitOfJoin(path, '/');
  }

  /** A resolved reference names a real chain of properties: every shorter
      prefix of its path resolves too. */
  lemma ResolvedPrefix(current: Json, parts: seq<string>, k: nat)
    requires k <= |parts|
    requires Walk(current, parts).Ok?
    ensures Walk(current, parts[..k]).Ok?
  {
    assert parts == parts[..k] + parts[k..];
    WalkAppend(current, parts[..k], parts[k..]);
  }
}
