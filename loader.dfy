/**
 * The part of the OpenAPI document loader that rewrites the dereferenced document:
 * operation objects that come back nested under their own method key are
 * unwrapped, and a failed schema validation is reported without stopping the load.
 */
module Loader {
  import opened Js

  /** `op[method] || op`: the operation nested under its own method key, or the operation itself. */
  function Unwrap(verb: string, operation: Value): Result<Value> {
    var inner :- Member(operation, verb);
    Ok(if Truthy(inner) then inner else operation)
  }

  /** How each property of a source object becomes a property of the rebuilt one. */
  type Rewrite = (string, Value) -> Result<Value>

  /**
   * `keys.reduce((obj, k) => (obj[k] = rewrite(k, source[k]), obj), acc)`: a fresh
   * object holding the rewritten value of every key of the source.
   */
  function Rebuild(rewrite: Rewrite, source: Value, keys: seq<string>, acc: Fields): Result<Fields>
    decreases keys
  {
    if keys == [] then Ok(acc)
    else
      var v :- rewrite(keys[0], Get(source, keys[0]));
      Rebuild(rewrite, source, keys[1..], Define(acc, keys[0], v))
  }

  /** One path item with each of its operations unwrapped. */
  function UnwrapPathItem(path: string, item: Value): Result<Value> {
    var methods :- OwnKeys(item);
    var fields :- Rebuild(Unwrap, item, methods, []);
    Ok(Obj(fields))
  }

  /** `definition.paths = <every path item unwrapped>`; the rest of the document is left as it is. */
  function NormalisePaths(definition: Value): Result<Value> {
    var paths :- Member(definition, "paths");
    var keys :- OwnKeys(paths);
    var fields :- Rebuild(UnwrapPathItem, paths, keys, []);
    Ok(Obj(Define(OwnFields(definition), "paths", Obj(fields))))
  }

  /** Rewriting succeeds at every key. */
  predicate AllRewrite(rewrite: Rewrite, source: Value, keys: seq<string>) {
    forall j :: 0 <= j < |keys| ==> rewrite(keys[j], Get(source, keys[j])).Ok?
  }

  lemma AllRewriteCons(rewrite: Rewrite, source: Value, keys: seq<string>)
    requires keys != []
    ensures AllRewrite(rewrite, source, keys) <==>
      rewrite(keys[0], Get(source, keys[0])).Ok? && AllRewrite(rewrite, source, keys[1..])
  {
    assert forall j :: 1 <= j < |keys| ==> keys[j] == keys[1..][j - 1];
  }

  /** Rebuilding throws iff rewriting some key throws. */
  lemma {:induction false} RebuildOk(rewrite: Rewrite, source: Value, keys: seq<string>, acc: Fields)
    ensures Rebuild(rewrite, source, keys, acc).Ok? <==> AllRewrite(rewrite, source, keys)
    decreases keys
  {
    if keys != [] {
      AllRewriteCons(rewrite, source, keys);
      var v := rewrite(keys[0], Get(source, keys[0]));
      if v.Ok? {
        RebuildOk(rewrite, source, keys[1..], Define(acc, keys[0], v.value));
      }
    }
  }

  /** Fresh keys: none of `keys` is already collected, and none occurs twice. */
  predicate FreshKeys(keys: seq<string>, acc: Fields) {
    Distinct(keys) && forall k :: k in keys ==> k !in KeysOf(acc)
  }

  lemma FreshTail(keys: seq<string>, acc: Fields, v: Value)
    requires keys != [] && FreshKeys(keys, acc)
    ensures keys[0] !in keys[1..]
    ensures FreshKeys(keys[1..], Define(acc, keys[0], v))
    ensures KeysOf(Define(acc, keys[0], v)) == KeysOf(acc) + [keys[0]]
  {
    assert forall j :: 0 <= j < |keys[1..]| ==> keys[1..][j] == keys[j + 1];
  }

  lemma KeysAfterFirst(before: seq<string>, keys: seq<string>)
    requires keys != []
    ensures before + [keys[0]] + keys[1..] == before + keys
  {
    assert [keys[0]] + keys[1..] == keys;
  }

  /** Rebuilding keeps the keys in source order after those already collected. */
  lemma {:induction false} RebuildKeys(rewrite: Rewrite, source: Value, keys: seq<string>, acc: Fields)
    requires FreshKeys(keys, acc)
    requires Rebuild(rewrite, source, keys, acc).Ok?
    ensures KeysOf(Rebuild(rewrite, source, keys, acc).value) == KeysOf(acc) + keys
    decreases keys
  {
    if keys != [] {
      var v := rewrite(keys[0], Get(source, keys[0])).value;
      var next := Define(acc, keys[0], v);
      FreshTail(keys, acc, v);
      RebuildKeys(rewrite, source, keys[1..], next);
      KeysAfterFirst(KeysOf(acc), keys);
    }
  }

  /** Each key holds its rewritten value; other keys keep what was collected before. */
  lemma {:induction false} RebuildValues(rewrite: Rewrite, source: Value, keys: seq<string>, acc: Fields)
    requires FreshKeys(keys, acc)
    requires Rebuild(rewrite, source, keys, acc).Ok?
    ensures var r := Rebuild(rewrite, source, keys, acc).value;
      && (forall j :: 0 <= j < |keys| ==> Ok(Lookup(r, keys[j])) == rewrite(keys[j], Get(source, keys[j])))
      && (forall k :: k !in keys ==> Lookup(r, k) == Lookup(acc, k))
    decreases keys
  {
    if keys != [] {
      var v := rewrite(keys[0], Get(source, keys[0])).value;
      var acc' := Define(acc, keys[0], v);
      FreshTail(keys, acc, v);
      RebuildValues(rewrite, source, keys[1..], acc');
      var r := Rebuild(rewrite, source, keys[1..], acc').value;
      assert Lookup(r, keys[0]) == v;
      forall j | 1 <= j < |keys|
        ensures Ok(Lookup(r, keys[j])) == rewrite(keys[j], Get(source, keys[j]))
      {
        assert keys[j] == keys[1..][j - 1];
      }
    }
  }

  /** An operation as the normalised document holds it. */
  function Unwrapped(verb: string, operation: Value): Value {
    if Truthy(Get(operation, verb)) then Get(operation, verb) else operation
  }

  /** Unwrapping succeeds at every method key iff no operation is null or undefined. */
  lemma UnwrapAllOk(item: Value, methods: seq<string>)
    ensures AllRewrite(Unwrap, item, methods) <==> forall m :: m in methods ==> !Nullish(Get(item, m))
  {
    assert forall m :: m in methods ==> exists j :: 0 <= j < |methods| && methods[j] == m;
  }

  /** A path item unwraps as its operations are rebuilt under their method keys. */
  lemma UnwrapPathItemRebuilds(path: string, item: Value)
    requires item.Obj?
    ensures UnwrapPathItem(path, item).Ok? <==> Rebuild(Unwrap, item, KeysOf(item.fields), []).Ok?
    ensures UnwrapPathItem(path, item).Ok? ==>
      UnwrapPathItem(path, item).value == Obj(Rebuild(Unwrap, item, KeysOf(item.fields), []).value)
  {
  }

  /**
   * A path item keeps its method keys in order; under each the operation is the one
   * nested under the same method key when that is truthy, else the operation itself.
   * It throws iff some operation is null or undefined.
   */
  lemma UnwrapPathItemMeaning(path: string, item: Value)
    requires item.Obj? && DistinctKeys(item.fields)
    ensures UnwrapPathItem(path, item).Ok? <==>
      forall m :: m in KeysOf(item.fields) ==> !Nullish(Get(item, m))
    ensures UnwrapPathItem(path, item).Ok? ==>
      var r := UnwrapPathItem(path, item).value;
      && r.Obj?
      && KeysOf(r.fields) == KeysOf(item.fields)
      && forall m :: m in KeysOf(item.fields) ==> Lookup(r.fields, m) == Unwrapped(m, Get(item, m))
  {
    var methods := KeysOf(item.fields);
    UnwrapPathItemRebuilds(path, item);
    RebuildOk(Unwrap, item, methods, []);
    UnwrapAllOk(item, methods);
    if UnwrapPathItem(path, item).Ok? {
      UnwrapOperations(item, methods);
    }
  }

  /** The rebuilt path item holds each method key once, in order, with its operation unwrapped. */
  lemma UnwrapOperations(item: Value, methods: seq<string>)
    requires Distinct(methods) && Rebuild(Unwrap, item, methods, []).Ok?
    ensures var r := Rebuild(Unwrap, item, methods, []).value;
      && KeysOf(r) == methods
      && forall m :: m in methods ==> Lookup(r, m) == Unwrapped(m, Get(item, m))
  {
    RebuildKeys(Unwrap, item, methods, []);
    RebuildValues(Unwrap, item, methods, []);
    var r := Rebuild(Unwrap, item, methods, []).value;
    forall m | m in methods
      ensures Lookup(r, m) == Unwrapped(m, Get(item, m))
    {
      var j :| 0 <= j < |methods| && methods[j] == m;
    }
  }


  /** What the unwrap needs of a `paths` object: path items that are objects of operations. */
  predicate WellFormedPathItems(paths: Value) {
    && paths.Obj?
    && DistinctKeys(paths.fields)
    && forall p :: p in KeysOf(paths.fields) ==>
         var item := Get(paths, p);
         && item.Obj? && DistinctKeys(item.fields)
         && forall m :: m in KeysOf(item.fields) ==> !Nullish(Get(item, m))
  }

  /** Every path item of a well-formed `paths` object unwraps, each keeping its path key in order. */
  lemma UnwrapAllPaths(paths: Value)
    requires WellFormedPathItems(paths)
    ensures Rebuild(UnwrapPathItem, paths, KeysOf(paths.fields), []).Ok?
    ensures var r := Rebuild(UnwrapPathItem, paths, KeysOf(paths.fields), []).value;
      && KeysOf(r) == KeysOf(paths.fields)
      && forall p :: p in KeysOf(paths.fields) ==> Ok(Lookup(r, p)) == UnwrapPathItem(p, Get(paths, p))
  {
    var keys := KeysOf(paths.fields);
    forall p | p in keys
      ensures UnwrapPathItem(p, Get(paths, p)).Ok?
    {
      UnwrapPathItemMeaning(p, Get(paths, p));
    }
    RebuildOk(UnwrapPathItem, paths, keys, []);
    RebuildKeys(UnwrapPathItem, paths, keys, []);
    RebuildValues(UnwrapPathItem, paths, keys, []);
    assert forall p :: p in keys ==> exists j :: 0 <= j < |keys| && keys[j] == p;
  }

  /**
   * Normalisation rewrites `paths` only: the document keeps its other fields and
   * its key order, the new `paths` keeps the path keys in order, and each path item
   * is unwrapped as `UnwrapPathItem` says.
   */
  lemma NormalisePathsMeaning(definition: Value)
    requires definition.Obj? && WellFormedPathItems(Get(definition, "paths"))
    ensures NormalisePaths(definition).Ok?
    ensures
      var doc := NormalisePaths(definition).value;
      var paths := Get(definition, "paths");
      && doc.Obj?
      && KeysOf(doc.fields) == KeysOf(definition.fields)
      && (forall k :: k != "paths" ==> Get(doc, k) == Get(definition, k))
      && Get(doc, "paths").Obj?
      && KeysOf(Get(doc, "paths").fields) == KeysOf(paths.fields)
      && forall p :: p in KeysOf(paths.fields) ==> Ok(Get(Get(doc, "paths"), p)) == UnwrapPathItem(p, Get(paths, p))
  {
    UnwrapAllPaths(Get(definition, "paths"));
  }

  /** An operation that is null or undefined makes the unwrap throw. */
  lemma NullOperationThrows(paths: Value, p: string, m: string)
    requires paths.Obj? && p in KeysOf(paths.fields)
    requires Get(paths, p).Obj? && DistinctKeys(Get(paths, p).fields)
    requires m in KeysOf(Get(paths, p).fields) && Nullish(Get(Get(paths, p), m))
    ensures Rebuild(UnwrapPathItem, paths, KeysOf(paths.fields), []).Throw?
  {
    var keys := KeysOf(paths.fields);
    UnwrapPathItemMeaning(p, Get(paths, p));
    RebuildOk(UnwrapPathItem, paths, keys, []);
    var j :| 0 <= j < |keys| && keys[j] == p;
  }

  // ---------------------------------------------------------------------------
  // Validation

  /** What the OpenAPI 3 schema validator reports. */
  datatype Validation = Validation(valid: bool, errors: seq<Value>)

  /** The console message of an invalid document: the error count and the errors themselves. */
  datatype Warning = Warning(count: nat, details: seq<Value>)

  /** The loader's in-memory result (the YAML text beside it is not modelled). */
  datatype Loaded = Loaded(json: Value, warning: Option<Warning>)

  /** Normalise, validate, log on failure, and return the document either way. */
  function Load(dereferenced: Value, validate: Value -> Validation): Result<Loaded> {
    var doc :- NormalisePaths(dereferenced);
    var report := validate(doc);
    Ok(Loaded(doc, if report.valid then None else Some(Warning(|report.errors|, report.errors))))
  }

  /**
   * Validation never aborts a load: whatever the validator says, the normalised
   * document is returned; a warning carrying the error count and details is
   * produced exactly when the document is invalid.
   */
  lemma LoadIsLenient(dereferenced: Value, validate: Value -> Validation)
    requires NormalisePaths(dereferenced).Ok?
    ensures Load(dereferenced, validate).Ok?
    ensures Load(dereferenced, validate).value.json == NormalisePaths(dereferenced).value
    ensures var report := validate(NormalisePaths(dereferenced).value);
      && (Load(dereferenced, validate).value.warning.Some? <==> !report.valid)
      && (!report.valid ==> Load(dereferenced, validate).value.warning.value.count == |report.errors|)
      && (!report.valid ==> Load(dereferenced, validate).value.warning.value.details == report.errors)
  {
  }
}
