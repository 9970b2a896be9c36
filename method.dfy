/**
 * The body of one generated client method: the method template rendered for an
 * operation record, then called with the caller's `params`.  The rendered code
 * upper-cases the record's method, starts `query` and `body` empty, and copies
 * every defined `params[name]` of a query- or body-flagged parameter into the
 * matching map, one parameter at a time.
 */
module GeneratedMethod {
  import opened Js

  /** The argument object `{method, path, query, body}` handed to the client's `request`. */
  datatype RequestArgs = RequestArgs(verb: string, path: string, query: Fields, body: Fields)

  /**
   * Whether a mustache section `{{#flag}}` renders its content: not for a falsy value
   * or an empty list.  (A non-empty list renders the content once per element, which
   * repeats the same assignment and so has the effect of rendering it once.)
   */
  predicate Flagged(v: Value) {
    Truthy(v) && v != Arr([])
  }

  /** The text `{{&name}}` renders: nothing for a missing or null name. */
  function RenderedName(p: Value): string {
    var name := Get(p, "name");
    if Nullish(name) then "" else ToStr(name)
  }

  /**
   * `if (params[name] !== undefined) { map[name] = params[name] }`: reading a
   * property of null or undefined `params` throws.
   */
  function Place(acc: Fields, params: Value, name: string): Result<Fields> {
    var v :- Member(params, name);
    if v.Undefined? then Ok(acc) else Ok(Define(acc, name, v))
  }

  /**
   * The map the rendered code builds for one flag (`query` or `body`) after the
   * given parameters: the assignments of the flagged ones, in parameter order.  It
   * throws exactly when `params` is null or undefined and some parameter is flagged.
   */
  function PlaceAll(parameters: seq<Value>, params: Value, flag: string): (r: Result<Fields>)
    ensures r.Throw? <==>
      Nullish(params) && exists i :: 0 <= i < |parameters| && Flagged(Get(parameters[i], flag))
    ensures r.Throw? ==> r.exception == TypeError
  {
    if parameters == [] then Ok([])
    else
      var init := parameters[..|parameters| - 1];
      var last := parameters[|parameters| - 1];
      assert forall i :: 0 <= i < |init| ==> init[i] == parameters[i];
      var acc :- PlaceAll(init, params, flag);
      if Flagged(Get(last, flag)) then Place(acc, params, RenderedName(last)) else Ok(acc)
  }

  /** What one call of the generated method hands to `request`. */
  function Generated(verb: string, path: string, parameters: seq<Value>, params: Value): Result<RequestArgs> {
    var query :- PlaceAll(parameters, params, "query");
    var body :- PlaceAll(parameters, params, "body");
    Ok(RequestArgs(Upper(verb), path, query, body))
  }

  /** A parameter whose rendering assigns into the query or the body. */
  predicate FlaggedEither(p: Value) {
    Flagged(Get(p, "query")) || Flagged(Get(p, "body"))
  }

  /** Some parameter carries `flag` and renders the name `k`. */
  predicate FlaggedName(parameters: seq<Value>, flag: string, k: string) {
    exists i :: 0 <= i < |parameters| && Flagged(Get(parameters[i], flag)) && RenderedName(parameters[i]) == k
  }

  /**
   * The rendered method body run on `params`, step by step.  `path` is the path text
   * rendered into the method; it is passed on unchanged.
   */
  method Invoke(verb: string, path: string, parameters: seq<Value>, params: Value) returns (r: Result<RequestArgs>)
    ensures r == Generated(verb, path, parameters, params)
  {
    var query: Fields := [];
    var body: Fields := [];
    var i := 0;
    while i < |parameters|
      invariant 0 <= i <= |parameters|
      invariant PlaceAll(parameters[..i], params, "query") == Ok(query)
      invariant PlaceAll(parameters[..i], params, "body") == Ok(body)
    {
      var p := parameters[i];
      assert parameters[..i + 1] == parameters[..i] + [p];
      PlaceAllSnoc(parameters[..i], p, params, "query");
      PlaceAllSnoc(parameters[..i], p, params, "body");
      if Flagged(Get(p, "query")) {
        var name := RenderedName(p);
        if Nullish(params) {
          assert PlaceAll(parameters, params, "query").Throw?;
          return Throw(TypeError);
        }
        var v := Get(params, name);
        if v != Undefined {
          query := Define(query, name, v);
        }
      }
      if Flagged(Get(p, "body")) {
        var name := RenderedName(p);
        if Nullish(params) {
          assert PlaceAll(parameters, params, "body").Throw?;
          return Throw(TypeError);
        }
        var v := Get(params, name);
        if v != Undefined {
          body := Define(body, name, v);
        }
      }
      i := i + 1;
    }
    assert parameters[..i] == parameters;
    var verbUpper := Upper(verb);
    r := Ok(RequestArgs(verbUpper, path, query, body));
  }

  /**
   * Whenever filling the map for a flag succeeds (always for non-null `params`; for
   * null or undefined `params` when no parameter carries the flag), the map gives
   * each flagged name its value in `params` and has nothing under other names.
   */
  lemma {:induction false} PlaceAllLookup(parameters: seq<Value>, params: Value, flag: string)
    requires PlaceAll(parameters, params, flag).Ok?
    ensures forall k ::
      Lookup(PlaceAll(parameters, params, flag).value, k) == if FlaggedName(parameters, flag, k) then Get(params, k) else Undefined
  {
    if parameters != [] {
      var init := parameters[..|parameters| - 1];
      var last := parameters[|parameters| - 1];
      PlaceAllLookup(init, params, flag);
      assert forall i :: 0 <= i < |init| ==> init[i] == parameters[i];
      assert forall k :: FlaggedName(parameters, flag, k) <==>
        FlaggedName(init, flag, k) || (Flagged(Get(last, flag)) && RenderedName(last) == k);
    }
  }

  /**
   * The keys of the map for a flag are exactly the flagged names whose value in
   * `params` is defined, none of them twice.
   */
  lemma {:induction false} PlaceAllKeys(parameters: seq<Value>, params: Value, flag: string)
    requires PlaceAll(parameters, params, flag).Ok?
    ensures var acc := PlaceAll(parameters, params, flag).value;
      && DistinctKeys(acc)
      && forall k :: k in KeysOf(acc) <==> FlaggedName(parameters, flag, k) && Get(params, k) != Undefined
  {
    PlaceAllLookup(parameters, params, flag);
    if parameters != [] {
      var init := parameters[..|parameters| - 1];
      var last := parameters[|parameters| - 1];
      PlaceAllKeys(init, params, flag);
      PlaceAllLookup(init, params, flag);
      var acc := PlaceAll(init, params, flag).value;
      assert forall i :: 0 <= i < |init| ==> init[i] == parameters[i];
      assert forall k :: FlaggedName(parameters, flag, k) <==>
        FlaggedName(init, flag, k) || (Flagged(Get(last, flag)) && RenderedName(last) == k);
      if Flagged(Get(last, flag)) {
        var name := RenderedName(last);
        var v := Get(params, name);
        if v != Undefined {
          DefineKeepsDistinct(acc, name, v);
        }
      }
    }
  }

  /**
   * Whenever the call does not throw, the method is upper-cased and the rendered
   * path is passed on unchanged.
   */
  lemma GeneratedShape(verb: string, path: string, parameters: seq<Value>, params: Value)
    requires Generated(verb, path, parameters, params).Ok?
    ensures var args := Generated(verb, path, parameters, params).value;
      && args.verb == Upper(verb) && args.path == path
      && forall j :: 0 <= j < |args.verb| ==> !('a' <= args.verb[j] <= 'z')
  {
    UpperIsUpper(verb);
  }

  /**
   * A call without `params` (null or undefined) to a method none of whose parameters
   * goes to the query or the body runs: it requests the upper-cased method on the
   * rendered path with an empty query and an empty body.
   */
  lemma {:induction false} NoParamsCall(verb: string, path: string, parameters: seq<Value>, params: Value)
    requires Nullish(params)
    requires forall i :: 0 <= i < |parameters| ==> !FlaggedEither(parameters[i])
    ensures Generated(verb, path, parameters, params) == Ok(RequestArgs(Upper(verb), path, [], []))
  {
    EmptyWithoutFlag(parameters, params, "query");
    EmptyWithoutFlag(parameters, params, "body");
  }

  /** With no parameter carrying `flag`, the map for it stays empty. */
  lemma {:induction false} EmptyWithoutFlag(parameters: seq<Value>, params: Value, flag: string)
    requires forall i :: 0 <= i < |parameters| ==> !Flagged(Get(parameters[i], flag))
    ensures PlaceAll(parameters, params, flag) == Ok([])
  {
    if parameters != [] {
      var init := parameters[..|parameters| - 1];
      assert forall i :: 0 <= i < |init| ==> init[i] == parameters[i];
      EmptyWithoutFlag(init, params, flag);
    }
  }

  /** `toUpperCase` leaves no ASCII lower-case letter and keeps the length. */
  lemma {:induction false} UpperIsUpper(s: string)
    ensures |Upper(s)| == |s|
    ensures forall j :: 0 <= j < |s| ==> !('a' <= Upper(s)[j] <= 'z')
  {
    if s != [] {
      UpperIsUpper(s[1..]);
      assert forall j :: 1 <= j < |s| ==> Upper(s)[j] == Upper(s[1..])[j - 1];
    }
  }

  /**
   * The call throws exactly when `params` is null or undefined while some parameter
   * is flagged for the query or the body; the error is a TypeError.
   */
  lemma GeneratedThrows(verb: string, path: string, parameters: seq<Value>, params: Value)
    ensures Generated(verb, path, parameters, params).Throw? <==>
      Nullish(params) && exists i :: 0 <= i < |parameters| && FlaggedEither(parameters[i])
    ensures Generated(verb, path, parameters, params).Throw? ==>
      Generated(verb, path, parameters, params).exception == TypeError
  {
    if Nullish(params) && exists i :: 0 <= i < |parameters| && FlaggedEither(parameters[i]) {
      var i :| 0 <= i < |parameters| && FlaggedEither(parameters[i]);
      assert PlaceAll(parameters, params, "query").Throw? || PlaceAll(parameters, params, "body").Throw?;
    }
  }

  /** The map after one more parameter is the map before it with that parameter's assignment. */
  lemma PlaceAllSnoc(init: seq<Value>, last: Value, params: Value, flag: string)
    ensures PlaceAll(init + [last], params, flag) ==
      if PlaceAll(init, params, flag).Throw? then PlaceAll(init, params, flag)
      else if Flagged(Get(last, flag)) then Place(PlaceAll(init, params, flag).value, params, RenderedName(last))
      else PlaceAll(init, params, flag)
  {
    var ps := init + [last];
    assert ps[..|ps| - 1] == init && ps[|ps| - 1] == last;
  }

  /** A parameter that does not carry `flag` leaves that map as it is, keys and order. */
  lemma {:induction false} PlaceAllSkips(before: seq<Value>, p: Value, after: seq<Value>, params: Value, flag: string)
    requires !Flagged(Get(p, flag))
    ensures PlaceAll(before + [p] + after, params, flag) == PlaceAll(before + after, params, flag)
    decreases |after|
  {
    if after == [] {
      assert before + [p] + after == before + [p] && before + after == before;
      PlaceAllSnoc(before, p, params, flag);
    } else {
      var shorter := after[..|after| - 1];
      var q := after[|after| - 1];
      PlaceAllSkips(before, p, shorter, params, flag);
      assert before + [p] + after == (before + [p] + shorter) + [q];
      assert before + after == (before + shorter) + [q];
      PlaceAllSnoc(before + [p] + shorter, q, params, flag);
      PlaceAllSnoc(before + shorter, q, params, flag);
    }
  }

  /**
   * A parameter flagged for neither map (a path or header parameter) changes nothing,
   * wherever it stands in the list.
   */
  lemma UnflaggedIgnored(verb: string, path: string, before: seq<Value>, p: Value, after: seq<Value>, params: Value)
    requires !Flagged(Get(p, "query")) && !Flagged(Get(p, "body"))
    ensures Generated(verb, path, before + [p] + after, params) == Generated(verb, path, before + after, params)
  {
    PlaceAllSkips(before, p, after, params, "query");
    PlaceAllSkips(before, p, after, params, "body");
  }
}
