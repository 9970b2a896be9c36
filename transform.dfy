/**
 * The operation transformer: flattens `paths -> method -> Operation` of a loaded
 * OpenAPI 3.0 document into the ordered list of operation records the client
 * template is rendered from.
 */
module Transform {
  import opened Js

  /** The only security scheme the generated client knows how to satisfy. */
  const AuthScheme := "auth0"

  // ---------------------------------------------------------------------------
  // Security flag

  /** `Object.keys(obj)[0]` for one Security Requirement Object. */
  function FirstKey(req: Value): Result<Value> {
    var keys :- OwnKeys(req);
    Ok(if keys == [] then Undefined else Str(keys[0]))
  }

  /** Whether `security.find((obj) => Object.keys(obj)[0] === 'auth0')` finds an entry. */
  function FindAuth(reqs: seq<Value>): Result<bool> {
    if reqs == [] then Ok(false)
    else
      var first :- FirstKey(reqs[0]);
      if first == Str(AuthScheme) then Ok(true) else FindAuth(reqs[1..])
  }

  /** `!!(security && security.find(...))`: only arrays have `find`. */
  function SecurityFlag(security: Value): Result<bool> {
    if !Truthy(security) then Ok(false)
    else if !security.Arr? then Throw(TypeError)
    else FindAuth(security.items)
  }

  /** A requirement whose first (and only inspected) scheme name is the recognised one. */
  predicate NamesAuthScheme(req: Value) {
    req.Obj? && |req.fields| > 0 && req.fields[0].0 == AuthScheme
  }

  /** A `security` list one of whose requirements names the recognised scheme. */
  predicate RequiresAuth(security: Value) {
    security.Arr? && exists i :: 0 <= i < |security.items| && NamesAuthScheme(security.items[i])
  }

  /**
   * `find` stops at the first match: it throws exactly when a null or undefined
   * requirement comes before any matching one, and otherwise reports whether some
   * requirement names the scheme.
   */
  lemma {:induction false} FindAuthMeaning(reqs: seq<Value>)
    ensures FindAuth(reqs).Throw? <==>
      exists i :: 0 <= i < |reqs| && Nullish(reqs[i]) && forall j :: 0 <= j < i ==> !NamesAuthScheme(reqs[j])
    ensures FindAuth(reqs).Ok? ==>
      (FindAuth(reqs).value <==> exists i :: 0 <= i < |reqs| && NamesAuthScheme(reqs[i]))
  {
    if reqs != [] {
      FindAuthMeaning(reqs[1..]);
      assert forall i :: 1 <= i < |reqs| ==> reqs[i] == reqs[1..][i - 1];
      if !Nullish(reqs[0]) && !NamesAuthScheme(reqs[0]) {
        if FindAuth(reqs).Throw? {
          var i :| 0 <= i < |reqs[1..]| && Nullish(reqs[1..][i]) && forall j :: 0 <= j < i ==> !NamesAuthScheme(reqs[1..][j]);
          assert Nullish(reqs[i + 1]) && forall j :: 0 <= j < i + 1 ==> !NamesAuthScheme(reqs[j]);
        }
      }
    }
  }

  /**
   * The security flag of an operation: false without a `security` list (or with any
   * falsy value), true iff some requirement's first key is the recognised scheme.
   */
  lemma SecurityFlagMeaning(security: Value)
    requires security.Arr? ==> forall i :: 0 <= i < |security.items| ==> !Nullish(security.items[i])
    ensures !Truthy(security) ==> SecurityFlag(security) == Ok(false)
    ensures Truthy(security) && !security.Arr? ==> SecurityFlag(security) == Throw(TypeError)
    ensures security.Arr? ==>
      SecurityFlag(security) == Ok(exists i :: 0 <= i < |security.items| && NamesAuthScheme(security.items[i]))
  {
    if security.Arr? {
      FindAuthMeaning(security.items);
    }
  }

  // ---------------------------------------------------------------------------
  // Declared parameters

  /** `({...config, type: config.schema.type, [config.in]: true})`. */
  function TagParameter(config: Value): Result<Value> {
    var schema :- Member(config, "schema");
    var schemaType :- Member(schema, "type");
    Ok(Obj(Define(Define(OwnFields(config), "type", schemaType), ToStr(Get(config, "in")), Bool(true))))
  }

  /** `parameters.map(TagParameter)`. */
  function TagParameters(configs: seq<Value>): Result<seq<Value>> {
    if configs == [] then Ok([])
    else
      var first :- TagParameter(configs[0]);
      var rest :- TagParameters(configs[1..]);
      Ok([first] + rest)
  }

  /**
   * A declared parameter keeps every field of its own, gains `type` from its schema
   * and a `true` flag named by its `in` value (the flag wins when `in` is "type").
   * It throws exactly when the parameter or its schema is missing.
   */
  lemma TagParameterMeaning(config: Value)
    ensures TagParameter(config).Ok? <==> !Nullish(config) && !Nullish(Get(config, "schema"))
    ensures TagParameter(config).Ok? ==>
      var tagged := TagParameter(config).value;
      var flag := ToStr(Get(config, "in"));
      && tagged.Obj?
      && Lookup(tagged.fields, flag) == Bool(true)
      && (flag != "type" ==> Lookup(tagged.fields, "type") == Get(Get(config, "schema"), "type"))
      && (forall k :: k != flag && k != "type" ==> Lookup(tagged.fields, k) == Get(config, k))
      && (DistinctKeys(OwnFields(config)) ==> DistinctKeys(tagged.fields))
  {
    if TagParameter(config).Ok? && DistinctKeys(OwnFields(config)) {
      var schemaType := Get(Get(config, "schema"), "type");
      DefineKeepsDistinct(OwnFields(config), "type", schemaType);
      DefineKeepsDistinct(Define(OwnFields(config), "type", schemaType), ToStr(Get(config, "in")), Bool(true));
    }
  }

  /** The declared parameters map one to one, in order. */
  lemma {:induction false} TagParametersMeaning(configs: seq<Value>)
    ensures TagParameters(configs).Ok? <==> forall i :: 0 <= i < |configs| ==> TagParameter(configs[i]).Ok?
    ensures TagParameters(configs).Ok? ==>
      && |TagParameters(configs).value| == |configs|
      && forall i :: 0 <= i < |configs| ==> TagParameter(configs[i]) == Ok(TagParameters(configs).value[i])
  {
    if configs != [] {
      TagParametersMeaning(configs[1..]);
      assert forall i :: 1 <= i < |configs| ==> configs[i] == configs[1..][i - 1];
    }
  }

  // ---------------------------------------------------------------------------
  // Body parameters synthesised from the request body schema

  /** `required.includes(name)`: arrays test membership, strings test for a substring. */
  function Includes(required: Value, name: string): Result<bool> {
    match required
    case Arr(items) => Ok(Str(name) in items)
    case Str(s) => Ok(IndexOf(s, name, 0) != -1)
    case _ => Throw(TypeError)
  }

  /** `{...config, name, required: required.includes(name), body: true}` for `config = properties[name]`. */
  function BodyParameter(properties: Value, required: Value, name: string): Result<Value> {
    var isRequired :- Includes(required, name);
    Ok(Obj(Define(Define(Define(OwnFields(Get(properties, name)), "name", Str(name)), "required", Bool(isRequired)), "body", Bool(true))))
  }

  /** `names.map(build)` for a step that may throw: the first throw ends the map. */
  function MapNames(build: string -> Result<Value>, names: seq<string>): Result<seq<Value>> {
    if names == [] then Ok([])
    else
      var first :- build(names[0]);
      var rest :- MapNames(build, names[1..]);
      Ok([first] + rest)
  }

  /** `Object.keys(properties).map(...)`. */
  function BodyParameters(properties: Value, required: Value, names: seq<string>): Result<seq<Value>> {
    MapNames(name => BodyParameter(properties, required, name), names)
  }

  /** The schema of the `application/json` request body: `requestBody.content['application/json'].schema`. */
  function BodySchema(requestBody: Value): Result<Value> {
    var content :- Member(requestBody, "content");
    var media :- Member(content, "application/json");
    Member(media, "schema")
  }

  /** The `form` list: one body parameter per property of the request body schema. */
  function Form(requestBody: Value): Result<seq<Value>> {
    if !Truthy(requestBody) then Ok([])
    else
      var schema :- BodySchema(requestBody);
      if Nullish(schema) then Throw(TypeError)
      else
        var properties := OrDefault(Get(schema, "properties"), Obj([]));
        var required := OrDefault(Get(schema, "required"), Arr([]));
        var names :- OwnKeys(properties);
        BodyParameters(properties, required, names)
  }

  /**
   * A synthesised body parameter carries the property's own fields, its `name`,
   * `body: true`, and `required` true iff the name is listed in the schema's
   * `required` array.
   */
  lemma BodyParameterMeaning(properties: Value, items: seq<Value>, name: string)
    ensures BodyParameter(properties, Arr(items), name).Ok?
    ensures
      var p := BodyParameter(properties, Arr(items), name).value;
      && p.Obj?
      && Lookup(p.fields, "name") == Str(name)
      && Lookup(p.fields, "required") == Bool(Str(name) in items)
      && Lookup(p.fields, "body") == Bool(true)
      && (forall k :: k != "name" && k != "required" && k != "body" ==>
            Lookup(p.fields, k) == Get(Get(properties, name), k))
  {
    var isRequired := Str(name) in items;
    assert BodyParameter(properties, Arr(items), name) ==
      Ok(Obj(Define(Define(Define(OwnFields(Get(properties, name)), "name", Str(name)), "required", Bool(isRequired)), "body", Bool(true))));
    DefineThree(OwnFields(Get(properties, name)), Str(name), Bool(isRequired));
  }

  /** Writing `name`, `required` and `body`, in that order, over some fields. */
  lemma DefineThree(f0: Fields, name: Value, required: Value)
    ensures var r := Define(Define(Define(f0, "name", name), "required", required), "body", Bool(true));
      && Lookup(r, "name") == name && Lookup(r, "required") == required && Lookup(r, "body") == Bool(true)
      && forall k :: k != "name" && k != "required" && k != "body" ==> Lookup(r, k) == Lookup(f0, k)
  {
    assert "name"[0] != "required"[0] && "name"[0] != "body"[0] && "required"[0] != "body"[0];
  }

  /** A map whose every step succeeds yields one result per name, in order. */
  lemma {:induction false} MapNamesMeaning(build: string -> Result<Value>, names: seq<string>)
    requires forall j :: 0 <= j < |names| ==> build(names[j]).Ok?
    ensures MapNames(build, names).Ok?
    ensures |MapNames(build, names).value| == |names|
    ensures forall j :: 0 <= j < |names| ==> build(names[j]) == Ok(MapNames(build, names).value[j])
  {
    if names != [] {
      assert forall j :: 1 <= j < |names| ==> names[1..][j - 1] == names[j];
      MapNamesMeaning(build, names[1..]);
      var rest := MapNames(build, names[1..]).value;
      assert MapNames(build, names) == Ok([build(names[0]).value] + rest);
      assert forall j :: 1 <= j < |names| ==> ([build(names[0]).value] + rest)[j] == rest[j - 1];
    }
  }

  /** Body parameters map one to one onto the property names, in order. */
  lemma BodyParametersMeaning(properties: Value, required: Value, names: seq<string>)
    requires required.Arr?
    ensures BodyParameters(properties, required, names).Ok?
    ensures |BodyParameters(properties, required, names).value| == |names|
    ensures forall j :: 0 <= j < |names| ==>
      BodyParameter(properties, required, names[j]) == Ok(BodyParameters(properties, required, names).value[j])
  {
    MapNamesMeaning(name => BodyParameter(properties, required, name), names);
  }

  /** A well-formed JSON request body: an object schema with an optional `required` array. */
  predicate WellFormedBody(requestBody: Value) {
    !Truthy(requestBody) ||
    (BodySchema(requestBody).Ok? && BodySchema(requestBody).value.Obj? &&
     var schema := BodySchema(requestBody).value;
     (Get(schema, "properties").Undefined? || Get(schema, "properties").Obj?) &&
     (Get(schema, "required").Undefined? || Get(schema, "required").Arr?))
  }

  /** The property names of the request body schema, in order; none without a request body. */
  function BodyNames(requestBody: Value): seq<string> {
    if !Truthy(requestBody) || BodySchema(requestBody).Throw? then []
    else
      var properties := Get(BodySchema(requestBody).value, "properties");
      if properties.Obj? then KeysOf(properties.fields) else []
  }

  /** No request body means no body parameters; otherwise one per schema property, in order. */
  lemma FormMeaning(requestBody: Value)
    requires WellFormedBody(requestBody)
    ensures !Truthy(requestBody) ==> Form(requestBody) == Ok([])
    ensures Form(requestBody).Ok? && |Form(requestBody).value| == |BodyNames(requestBody)|
    ensures Truthy(requestBody) ==>
      var schema := BodySchema(requestBody).value;
      forall j :: 0 <= j < |BodyNames(requestBody)| ==>
        BodyParameter(OrDefault(Get(schema, "properties"), Obj([])), OrDefault(Get(schema, "required"), Arr([])),
                      BodyNames(requestBody)[j]) == Ok(Form(requestBody).value[j])
  {
    if Truthy(requestBody) {
      var schema := BodySchema(requestBody).value;
      var properties := OrDefault(Get(schema, "properties"), Obj([]));
      BodyParametersMeaning(properties, OrDefault(Get(schema, "required"), Arr([])), OwnKeys(properties).value);
    }
  }

  // ---------------------------------------------------------------------------
  // Operation records

  /** `{...operation, method, endpoint: path, parameters, security}`. */
  function Record(operation: Value, verb: string, path: string, parameters: seq<Value>, secure: bool): Fields {
    Define(Define(Define(Define(OwnFields(operation), "method", Str(verb)), "endpoint", Str(path)),
                  "parameters", Arr(parameters)), "security", Bool(secure))
  }

  /** The record for the operation under `paths[path][method]`. */
  function TransformOperation(path: string, verb: string, operation: Value): Result<Value> {
    if Nullish(operation) then Throw(TypeError)
    else
      var parameters := OrDefault(Get(operation, "parameters"), Arr([]));
      var form :- Form(Get(operation, "requestBody"));
      if !parameters.Arr? then Throw(TypeError)
      else
        var declared :- TagParameters(parameters.items);
        var secure :- SecurityFlag(Get(operation, "security"));
        Ok(Obj(Record(operation, verb, path, declared + form, secure)))
  }

  const RecordKeys := ["method", "endpoint", "parameters", "security"]

  lemma RecordKeysDiffer()
    ensures "method" != "endpoint" && "method" != "parameters" && "method" != "security"
    ensures "endpoint" != "parameters" && "endpoint" != "security" && "parameters" != "security"
  {
    assert "endpoint"[0] != "security"[0];
  }

  /**
   * A record is the operation with `method`, `endpoint`, `parameters` and `security`
   * written over it: those four hold the method key, the path key, the parameter
   * list and the flag, and every other field of the operation is kept.
   */
  lemma RecordFields(operation: Value, verb: string, path: string, parameters: seq<Value>, secure: bool)
    ensures var r := Record(operation, verb, path, parameters, secure);
      && Lookup(r, "method") == Str(verb)
      && Lookup(r, "endpoint") == Str(path)
      && Lookup(r, "parameters") == Arr(parameters)
      && Lookup(r, "security") == Bool(secure)
      && (forall k :: k !in RecordKeys ==> Lookup(r, k) == Get(operation, k))
  {
    var f0 := OwnFields(operation);
    var f1 := Define(f0, "method", Str(verb));
    var f2 := Define(f1, "endpoint", Str(path));
    var f3 := Define(f2, "parameters", Arr(parameters));
    var f4 := Define(f3, "security", Bool(secure));
    RecordKeysDiffer();
    assert Lookup(f4, "method") == Lookup(f1, "method");
    assert Lookup(f4, "endpoint") == Lookup(f2, "endpoint");
    forall k | k !in RecordKeys
      ensures Lookup(f4, k) == Get(operation, k)
    {
      assert k != RecordKeys[0] && k != RecordKeys[1] && k != RecordKeys[2] && k != RecordKeys[3];
    }
  }

  /**
   * Fields the operation already has keep their position in the record; the four
   * record fields it lacks follow in the order the literal writes them.
   */
  lemma RecordKeyOrder(operation: Value, verb: string, path: string, parameters: seq<Value>, secure: bool)
    ensures var r := Record(operation, verb, path, parameters, secure);
      && KeysOf(r) == Extend(Extend(Extend(Extend(KeysOf(OwnFields(operation)), "method"), "endpoint"), "parameters"), "security")
      && (DistinctKeys(OwnFields(operation)) ==> DistinctKeys(r))
  {
    var f0 := OwnFields(operation);
    var f1 := Define(f0, "method", Str(verb));
    var f2 := Define(f1, "endpoint", Str(path));
    var f3 := Define(f2, "parameters", Arr(parameters));
    if DistinctKeys(f0) {
      DefineKeepsDistinct(f0, "method", Str(verb));
      DefineKeepsDistinct(f1, "endpoint", Str(path));
      DefineKeepsDistinct(f2, "parameters", Arr(parameters));
      DefineKeepsDistinct(f3, "security", Bool(secure));
    }
  }

  /** What the transformer needs of an operation in order not to throw. */
  predicate WellFormedOperation(operation: Value) {
    && !Nullish(operation)
    && (Get(operation, "parameters").Undefined? || Get(operation, "parameters").Arr?)
    && (Get(operation, "parameters").Arr? ==>
          forall i :: 0 <= i < |Get(operation, "parameters").items| ==>
            TagParameter(Get(operation, "parameters").items[i]).Ok?)
    && WellFormedBody(Get(operation, "requestBody"))
    && var security := Get(operation, "security");
       !Truthy(security) ||
       (security.Arr? && forall i :: 0 <= i < |security.items| ==> !Nullish(security.items[i]))
  }

  /** The operation's declared parameters, `[]` when it has none. */
  function Declared(operation: Value): seq<Value> {
    var parameters := OrDefault(Get(operation, "parameters"), Arr([]));
    if parameters.Arr? then parameters.items else []
  }

  /**
   * A well-formed operation transforms without throwing, into the record built from
   * its tagged declared parameters, its body parameters and its security flag.
   */
  lemma TransformOperationParts(path: string, verb: string, operation: Value)
    requires WellFormedOperation(operation)
    ensures TagParameters(Declared(operation)).Ok?
    ensures Form(Get(operation, "requestBody")).Ok?
    ensures SecurityFlag(Get(operation, "security")).Ok?
    ensures TransformOperation(path, verb, operation) ==
      Ok(Obj(Record(operation, verb, path,
                    TagParameters(Declared(operation)).value + Form(Get(operation, "requestBody")).value,
                    SecurityFlag(Get(operation, "security")).value)))
  {
    ParameterList(operation);
    SecureFlag(operation);
  }

  /** The parameter list a well-formed operation is given: its tagged declared parameters, then its body parameters. */
  lemma ParameterList(operation: Value)
    requires WellFormedOperation(operation)
    ensures TagParameters(Declared(operation)).Ok? && Form(Get(operation, "requestBody")).Ok?
    ensures
      var declared := Declared(operation);
      var ps := TagParameters(declared).value + Form(Get(operation, "requestBody")).value;
      && |ps| == |declared| + |BodyNames(Get(operation, "requestBody"))|
      && forall i :: 0 <= i < |declared| ==> TagParameter(declared[i]) == Ok(ps[i])
  {
    FormMeaning(Get(operation, "requestBody"));
    TagParametersMeaning(Declared(operation));
    var declared := TagParameters(Declared(operation)).value;
    var form := Form(Get(operation, "requestBody")).value;
    assert forall i :: 0 <= i < |declared| ==> (declared + form)[i] == declared[i];
  }

  /** The parameter list of a well-formed operation's record: tagged declared parameters, then body parameters. */
  lemma TransformOperationParameters(path: string, verb: string, operation: Value)
    requires WellFormedOperation(operation)
    ensures TransformOperation(path, verb, operation).Ok?
    ensures
      var r := TransformOperation(path, verb, operation).value;
      var declared := Declared(operation);
      && r.Obj?
      && Lookup(r.fields, "parameters").Arr?
      && |Lookup(r.fields, "parameters").items| == |declared| + |BodyNames(Get(operation, "requestBody"))|
      && forall i :: 0 <= i < |declared| ==> TagParameter(declared[i]) == Ok(Lookup(r.fields, "parameters").items[i])
  {
    TransformOperationParts(path, verb, operation);
    ParameterList(operation);
    var ps := TagParameters(Declared(operation)).value + Form(Get(operation, "requestBody")).value;
    var secure := SecurityFlag(Get(operation, "security")).value;
    RecordFields(operation, verb, path, ps, secure);
  }

  /** The security flag of a well-formed operation says whether its `security` list names the scheme. */
  lemma SecureFlag(operation: Value)
    requires WellFormedOperation(operation)
    ensures SecurityFlag(Get(operation, "security")) == Ok(RequiresAuth(Get(operation, "security")))
  {
    SecurityFlagMeaning(Get(operation, "security"));
  }

  /** The other record fields of a well-formed operation: the keys, the security flag and the operation's own fields. */
  lemma TransformOperationFields(path: string, verb: string, operation: Value)
    requires WellFormedOperation(operation)
    ensures TransformOperation(path, verb, operation).Ok?
    ensures
      var r := TransformOperation(path, verb, operation).value;
      && r.Obj?
      && Lookup(r.fields, "method") == Str(verb)
      && Lookup(r.fields, "endpoint") == Str(path)
      && Lookup(r.fields, "security") == Bool(RequiresAuth(Get(operation, "security")))
      && (forall k :: k !in RecordKeys ==> Lookup(r.fields, k) == Get(operation, k))
  {
    TransformOperationParts(path, verb, operation);
    SecureFlag(operation);
    var ps := TagParameters(Declared(operation)).value + Form(Get(operation, "requestBody")).value;
    RecordFields(operation, verb, path, ps, RequiresAuth(Get(operation, "security")));
  }

  /**
   * The record of a well-formed operation: `method` and `endpoint` are the method
   * and path keys; the parameters are the declared ones, each tagged, followed by
   * one body parameter per schema property, so exactly |parameters| + |properties|
   * entries with no merge by name; `security` is the flag; other fields are the
   * operation's own.
   */
  lemma TransformOperationMeaning(path: string, verb: string, operation: Value)
    requires WellFormedOperation(operation)
    ensures TransformOperation(path, verb, operation).Ok?
    ensures
      var r := TransformOperation(path, verb, operation).value;
      var declared := Declared(operation);
      var names := BodyNames(Get(operation, "requestBody"));
      && r.Obj?
      && Lookup(r.fields, "method") == Str(verb)
      && Lookup(r.fields, "endpoint") == Str(path)
      && Lookup(r.fields, "parameters").Arr?
      && |Lookup(r.fields, "parameters").items| == |declared| + |names|
      && (forall i :: 0 <= i < |declared| ==>
            TagParameter(declared[i]) == Ok(Lookup(r.fields, "parameters").items[i]))
      && Lookup(r.fields, "security") == Bool(RequiresAuth(Get(operation, "security")))
      && (forall k :: k !in RecordKeys ==> Lookup(r.fields, k) == Get(operation, k))
  {
    TransformOperationParameters(path, verb, operation);
    TransformOperationFields(path, verb, operation);
  }

  /** Without `parameters` and without `requestBody` a record has an empty parameter list. */
  lemma EmptyOperation(path: string, verb: string, operation: Value)
    requires operation.Obj? && Get(operation, "parameters") == Undefined && Get(operation, "requestBody") == Undefined
    requires !Truthy(Get(operation, "security"))
    ensures TransformOperation(path, verb, operation).Ok?
    ensures Lookup(TransformOperation(path, verb, operation).value.fields, "parameters") == Arr([])
    ensures Lookup(TransformOperation(path, verb, operation).value.fields, "security") == Bool(false)
  {
    TransformOperationMeaning(path, verb, operation);
  }

  // ---------------------------------------------------------------------------
  // The whole document

  /** How one operation becomes a record: `(path, method, operation) -> record`. */
  type RecordBuilder = (string, string, Value) -> Result<Value>

  /** `Object.keys(item).map((method) => build(path, method, item[method]))`. */
  function MapMethods(build: RecordBuilder, path: string, item: Value, methods: seq<string>): Result<seq<Value>> {
    if methods == [] then Ok([])
    else
      var first :- build(path, methods[0], Get(item, methods[0]));
      var rest :- MapMethods(build, path, item, methods[1..]);
      Ok([first] + rest)
  }

  /** `Object.keys(paths).map(...)` followed by `.reduce((all, arr) => all.concat(arr), [])`. */
  function MapPaths(build: RecordBuilder, paths: Value, keys: seq<string>): Result<seq<Value>> {
    if keys == [] then Ok([])
    else
      var item := Get(paths, keys[0]);
      var methods :- OwnKeys(item);
      var first :- MapMethods(build, keys[0], item, methods);
      var rest :- MapPaths(build, paths, keys[1..]);
      Ok(first + rest)
  }

  /** The exported transform: `definition -> [OperationRecord]`. */
  function TransformDocument(definition: Value): Result<seq<Value>> {
    var paths :- Member(definition, "paths");
    var keys :- OwnKeys(paths);
    MapPaths(TransformOperation, paths, keys)
  }

  /** The (path, method) pairs of a document in traversal order: paths first, methods within a path. */
  function MethodPairs(path: string, methods: seq<string>): (pairs: seq<(string, string)>)
    ensures |pairs| == |methods|
    ensures forall j :: 0 <= j < |methods| ==> pairs[j] == (path, methods[j])
  {
    if methods == [] then [] else [(path, methods[0])] + MethodPairs(path, methods[1..])
  }

  function OperationPairs(paths: Value, keys: seq<string>): seq<(string, string)> {
    if keys == [] then []
    else
      var item := Get(paths, keys[0]);
      MethodPairs(keys[0], if item.Obj? then KeysOf(item.fields) else []) + OperationPairs(paths, keys[1..])
  }

  /** The record built for one (path, method) pair. */
  function RecordFor(build: RecordBuilder, paths: Value, pair: (string, string)): Result<Value> {
    build(pair.0, pair.1, Get(Get(paths, pair.0), pair.1))
  }

  lemma {:induction false} MapMethodsEnumerates(build: RecordBuilder, path: string, item: Value, methods: seq<string>)
    ensures MapMethods(build, path, item, methods).Ok? <==>
      forall j :: 0 <= j < |methods| ==> build(path, methods[j], Get(item, methods[j])).Ok?
    ensures MapMethods(build, path, item, methods).Ok? ==>
      && |MapMethods(build, path, item, methods).value| == |methods|
      && forall j :: 0 <= j < |methods| ==>
           build(path, methods[j], Get(item, methods[j])) == Ok(MapMethods(build, path, item, methods).value[j])
  {
    if methods != [] {
      MapMethodsEnumerates(build, path, item, methods[1..]);
      assert forall j :: 1 <= j < |methods| ==> methods[j] == methods[1..][j - 1];
    }
  }

  /** Every pair's record is built without throwing. */
  predicate AllBuilt(build: RecordBuilder, paths: Value, pairs: seq<(string, string)>) {
    forall k :: 0 <= k < |pairs| ==> RecordFor(build, paths, pairs[k]).Ok?
  }

  /** `recs` holds the record of each pair, in order. */
  predicate BuiltInOrder(build: RecordBuilder, paths: Value, pairs: seq<(string, string)>, recs: seq<Value>) {
    |recs| == |pairs| && forall k :: 0 <= k < |pairs| ==> RecordFor(build, paths, pairs[k]) == Ok(recs[k])
  }

  lemma ConcatBuilt(build: RecordBuilder, paths: Value, a: seq<(string, string)>, b: seq<(string, string)>)
    ensures AllBuilt(build, paths, a + b) <==> AllBuilt(build, paths, a) && AllBuilt(build, paths, b)
    ensures forall ra, rb :: BuiltInOrder(build, paths, a, ra) && BuiltInOrder(build, paths, b, rb) ==>
      BuiltInOrder(build, paths, a + b, ra + rb)
  {
    assert forall k :: 0 <= k < |a| ==> (a + b)[k] == a[k];
    assert forall k :: 0 <= k < |b| ==> (a + b)[|a| + k] == b[k];
    if AllBuilt(build, paths, a) && AllBuilt(build, paths, b) {
      forall k | 0 <= k < |a + b|
        ensures RecordFor(build, paths, (a + b)[k]).Ok?
      {
        if k >= |a| {
          assert (a + b)[k] == b[k - |a|];
        }
      }
    }
  }

  /**
   * Exactly one record per (path, method) pair, in traversal order: the traversal
   * succeeds iff no path item is null or undefined and every record is built, and
   * then the k-th record is the record of the k-th pair.
   */
  lemma {:induction false} MapPathsEnumerates(build: RecordBuilder, paths: Value, keys: seq<string>)
    ensures MapPaths(build, paths, keys).Ok? <==>
      (forall p :: p in keys ==> !Nullish(Get(paths, p))) && AllBuilt(build, paths, OperationPairs(paths, keys))
    ensures MapPaths(build, paths, keys).Ok? ==>
      BuiltInOrder(build, paths, OperationPairs(paths, keys), MapPaths(build, paths, keys).value)
  {
    if keys != [] {
      var item := Get(paths, keys[0]);
      var methods := if item.Obj? then KeysOf(item.fields) else [];
      var head := MethodPairs(keys[0], methods);
      var tail := OperationPairs(paths, keys[1..]);
      assert OperationPairs(paths, keys) == head + tail;
      MapPathsEnumerates(build, paths, keys[1..]);
      MapMethodsEnumerates(build, keys[0], item, methods);
      ConcatBuilt(build, paths, head, tail);
      assert forall p :: p in keys <==> p == keys[0] || p in keys[1..];
      assert forall j :: 0 <= j < |methods| ==>
        RecordFor(build, paths, head[j]) == build(keys[0], methods[j], Get(item, methods[j]));
      if !Nullish(item) && MapPaths(build, paths, keys).Ok? {
        var first := MapMethods(build, keys[0], item, methods).value;
        assert BuiltInOrder(build, paths, head, first);
      }
    }
  }

  /** For a document whose `paths` is an object: one record per (path, method) pair, in traversal order. */
  lemma TransformDocumentEnumerates(definition: Value)
    requires Get(definition, "paths").Obj?
    ensures var paths := Get(definition, "paths");
      var pairs := OperationPairs(paths, KeysOf(paths.fields));
      && (TransformDocument(definition).Ok? <==>
            (forall p :: p in KeysOf(paths.fields) ==> !Nullish(Get(paths, p))) &&
            AllBuilt(TransformOperation, paths, pairs))
      && (TransformDocument(definition).Ok? ==>
           && |TransformDocument(definition).value| == |pairs|
           && forall k :: 0 <= k < |pairs| ==>
                RecordFor(TransformOperation, paths, pairs[k]) == Ok(TransformDocument(definition).value[k]))
  {
    var paths := Get(definition, "paths");
    assert TransformDocument(definition) == MapPaths(TransformOperation, paths, KeysOf(paths.fields));
    MapPathsEnumerates(TransformOperation, paths, KeysOf(paths.fields));
  }
}
