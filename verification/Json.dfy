/** Query conditions as JSON-like values, and the deep merge that combines them. */
module Json {
  import opened Wrappers

  datatype Scalar = Null | Bool(flag: bool) | Number(amount: real) | Text(text: string)

  datatype Json = Leaf(value: Scalar) | Arr(items: seq<Json>) | Obj(fields: map<string, Json>)

  /** What one key of a merge ends up as. */
  function MergeAt(target: Json, source: Json, key: string): Json
    requires target.Obj? && source.Obj? && key in target.fields.Keys + source.fields.Keys
    decreases source, 0
  {
    if key !in source.fields then target.fields[key]
    else if key in target.fields && target.fields[key].Obj? && source.fields[key].Obj?
    then Merge(target.fields[key], source.fields[key])
    else source.fields[key]
  }

  /** `deepMerge`: objects are merged key by key; anything else from the source replaces what was there. */
  function Merge(target: Json, source: Json): (merged: Json)
    requires target.Obj? && source.Obj?
    ensures merged.Obj?
    decreases source, 1
  {
    Obj(map key | key in target.fields.Keys + source.fields.Keys :: MergeAt(target, source, key))
  }

  /** The entries not in `left` have been merged into a copy of the target. */
  ghost predicate MergedSoFar(fields: map<string, Json>, target: Json, source: Json, left: set<string>)
    requires target.Obj? && source.Obj? && left <= source.fields.Keys
  {
    && fields.Keys == target.fields.Keys + (source.fields.Keys - left)
    && (forall k :: k in fields ==> fields[k] == if k in left then target.fields[k] else MergeAt(target, source, k))
  }

  /** The loop: a copy of the target, with each source entry merged in or put over it. */
  method DeepMerge(target: Json, source: Json) returns (output: Json)
    requires target.Obj? && source.Obj?
    ensures output == Merge(target, source)
    decreases source
  {
    var fields := target.fields;
    var entries := source.fields.Keys;
    while entries != {}
      invariant entries <= source.fields.Keys && MergedSoFar(fields, target, source, entries)
      decreases |entries|
    {
      var key :| key in entries;
      assert entries == entries - {key} + {key};
      entries := entries - {key};
      var value := source.fields[key];
      if key in fields && fields[key].Obj? && value.Obj? {
        value := DeepMerge(fields[key], value);
      }
      fields := fields[key := value];
    }
    output := Obj(fields);
    MergedAll(fields, target, source);
  }

  lemma MergedAll(fields: map<string, Json>, target: Json, source: Json)
    requires target.Obj? && source.Obj? && MergedSoFar(fields, target, source, {})
    ensures Obj(fields) == Merge(target, source)
  {
    assert fields == Merge(target, source).fields;
  }

  /* ----------------------------- look-ups ------------------------------ */

  /** What a condition says at a path, if anything. */
  function At(j: Json, path: seq<string>): Option<Json> {
    if path == [] then Some(j)
    else if j.Obj? && path[0] in j.fields then At(j.fields[path[0]], path[1..])
    else None
  }

  /** The condition pins this path to a value: anything but a further object. */
  predicate Pins(j: Json, path: seq<string>) { At(j, path).Some? && !At(j, path).value.Obj? }

  /** Whatever a later condition pins, it has the last word on. */
  lemma {:induction false} LaterPinsSurvive(target: Json, source: Json, path: seq<string>)
    requires target.Obj? && source.Obj? && Pins(source, path)
    ensures At(Merge(target, source), path) == At(source, path)
  {
    var key, rest := path[0], path[1..];
    if key in target.fields && target.fields[key].Obj? && source.fields[key].Obj? {
      LaterPinsSurvive(target.fields[key], source.fields[key], rest);
    }
  }

  /** The later condition says nothing at the path and blocks none of the keys on the way to it. */
  predicate Silent(j: Json, path: seq<string>)
    requires j.Obj?
  {
    path != [] && (path[0] !in j.fields || (j.fields[path[0]].Obj? && Silent(j.fields[path[0]], path[1..])))
  }

  lemma {:induction false} SilentSaysNothing(j: Json, path: seq<string>)
    requires j.Obj? && Silent(j, path)
    ensures At(j, path).None?
  {
    if path[0] in j.fields {
      SilentSaysNothing(j.fields[path[0]], path[1..]);
    }
  }

  /** What a later condition is silent about is as it was, and what nobody had said stays unsaid. */
  lemma {:induction false} SilenceKeeps(target: Json, source: Json, path: seq<string>)
    requires target.Obj? && source.Obj? && Silent(source, path)
    ensures At(Merge(target, source), path) == At(target, path)
  {
    var key, rest := path[0], path[1..];
    if key in source.fields {
      SilentSaysNothing(source.fields[key], rest);
      if key in target.fields && target.fields[key].Obj? {
        SilenceKeeps(target.fields[key], source.fields[key], rest);
      }
    }
  }
}
