/** The operation projection of `parseSwaggerYaml`: it walks the `paths`
    object of a dereferenced OpenAPI document and emits one flat descriptor
    for every key of every path item, in `Object.keys` order. */
module Generate {
  import opened Document
  import opened JsString

  /** Why a call fails: a JavaScript `TypeError` raised by the walk itself, or
      a failure reported by the reference resolver. */
  datatype Failure = TypeError(reason: string) | ResolutionError(reason: string)

  datatype Result<T> = Ok(value: T) | Err(error: Failure)

  /** `$RefParser.dereference` awaited: it inlines references or fails.
      Nothing is assumed about it. */
  type Resolver = Json -> Result<Json>

  /** A query parameter's schema: a value taken from the document, or the
      handle of a dereference that was started and never awaited. */
  datatype ParamSchema = Inline(schema: Json) | Pending(original: Json)

  datatype QueryParam = QueryParam(name: Option<Json>, schema: ParamSchema, required: Json)

  datatype Descriptor = Descriptor(
    url: string,
    httpMethod: string,
    operationId: Option<Json>,
    requestBody: Json,
    responses: Option<Json>,
    tags: Option<Json>,
    queryParams: seq<QueryParam>)

  /** One (path key, key under that path) pair and the value stored there. */
  datatype Op = Op(url: string, key: string, operation: Json)

  /** `params.length > 0`. An array or a string has a length; an object has
      one only as an own `length` property; numbers and booleans have none. */
  predicate HasPositiveLength(params: Json): (b: bool)
    ensures b ==> params.Arr? || params.Str? || params.Obj?
    ensures params.Arr? ==> (b <==> |params.items| > 0)
    ensures params.Str? ==> (b <==> |params.s| > 0)
    ensures params.Obj? && Get(params, "length").None? ==> !b
  {
    match params
    case Arr(items) => |items| > 0
    case Str(s) => |s| > 0
    case Obj(ms) =>
      (match Lookup(ms, "length")
       case Some(Num(n)) => n > 0
       case Some(Bool(b)) => b
       case _ => false)
    case _ => false
  }

  /** The callback of `params.map`: one parameter's descriptor. */
  function ParamDescriptor(param: Json): (r: Result<QueryParam>)
    ensures r.Err? <==> param == Null
    ensures r.Ok? ==> r.value.name == Get(param, "name")
    ensures r.Ok? ==> (r.value.required == Bool(false) <==> !Truthy(Get(param, "required")))
    ensures r.Ok? && Truthy(Get(param, "required")) ==> Some(r.value.required) == Get(param, "required")
    ensures r.Ok? && !Truthy(Get(param, "schema")) ==> r.value.schema == Inline(EmptyObject)
    ensures r.Ok? && Truthy(Get(param, "schema")) && !Truthy(Prop(Get(param, "schema"), "$ref")) ==>
      r.value.schema == Inline(Get(param, "schema").value)
    ensures r.Ok? && Truthy(Get(param, "schema")) && Truthy(Prop(Get(param, "schema"), "$ref")) ==>
      r.value.schema == Pending(Get(param, "schema").value)
    ensures r.Ok? && r.value.schema.Inline? ==> Truthy(Some(r.value.schema.schema))
  {
    if param == Null then
      Err(TypeError("Cannot read properties of null (reading 'schema')"))
    else
      var schema := Get(param, "schema");
      var dereferenced: Option<ParamSchema> :=
        if Truthy(schema) && Truthy(Prop(schema, "$ref")) then Some(Pending(schema.value))
        else if Truthy(schema) then Some(Inline(schema.value))
        else None;
      Ok(QueryParam(
        Get(param, "name"),
        if dereferenced.Some? then dereferenced.value else Inline(EmptyObject),
        Or(Get(param, "required"), Bool(false))))
  }

  /** `items.map(callback)`: left to right, the first throw ends it. */
  function MapEach(items: seq<Json>): (r: Result<seq<QueryParam>>)
    ensures r.Ok? <==> forall k :: 0 <= k < |items| ==> items[k] != Null
    ensures r.Ok? ==> |r.value| == |items|
    ensures r.Ok? ==> forall k :: 0 <= k < |items| ==> Ok(r.value[k]) == ParamDescriptor(items[k])
    ensures r.Err? ==> r.error.TypeError?
  {
    if items == [] then Ok([])
    else
      match ParamDescriptor(items[0])
      case Err(e) => Err(e)
      case Ok(q) =>
        match MapEach(items[1..])
        case Err(e) => Err(e)
        case Ok(qs) => Ok([q] + qs)
  }

  /** `params.map(...)`: only an array has `map`. */
  function MapParams(params: Json): (r: Result<seq<QueryParam>>)
    ensures r.Ok? <==> params.Arr? && forall k :: 0 <= k < |params.items| ==> params.items[k] != Null
    ensures r.Ok? ==> |r.value| == |params.items|
    ensures r.Ok? ==> forall k :: 0 <= k < |params.items| ==> Ok(r.value[k]) == ParamDescriptor(params.items[k])
    ensures r.Err? ==> r.error.TypeError?
  {
    if params.Arr? then MapEach(params.items)
    else Err(TypeError("params.map is not a function"))
  }

  /** The requestBody truthiness chain of one operation, as `parseSwaggerYaml`
      tests it. Only objects have these properties, so the chain holds
      exactly when the schema at its end is truthy. */
  predicate HasJsonBodySchema(operation: Json): (b: bool)
    ensures b <==> Truthy(JsonBodySchema(operation))
  {
    var requestBody := Get(operation, "requestBody");
    Truthy(requestBody) && Truthy(Prop(requestBody, "content"))
    && Truthy(Prop(Prop(requestBody, "content"), "application/json"))
    && Truthy(Prop(Prop(Prop(requestBody, "content"), "application/json"), "schema"))
  }

  /** The schema under `requestBody.content['application/json']`. */
  function JsonBodySchema(operation: Json): (r: Option<Json>)
    ensures r.Some? ==>
      && Get(operation, "requestBody").Some? && Get(operation, "requestBody").value.Obj?
      && Prop(Get(operation, "requestBody"), "content").Some?
      && Prop(Prop(Get(operation, "requestBody"), "content"), "application/json").Some?
  {
    Prop(Prop(Prop(Get(operation, "requestBody"), "content"), "application/json"), "schema")
  }

  /** When one pair can be described: the operation is not `null`, the
      resolver accepts its JSON request-body schema if there is one, and a
      GET key with `parameters` of positive length has an array of
      non-`null` parameters there. */
  predicate Describable(op: Op, resolve: Resolver) {
    var params := Or(Get(op.operation, "parameters"), Arr([]));
    && op.operation != Null
    && (HasJsonBodySchema(op.operation) ==> resolve(JsonBodySchema(op.operation).value).Ok?)
    && (Upper(op.key) == "GET" && HasPositiveLength(params) ==>
          params.Arr? && forall k :: 0 <= k < |params.items| ==> params.items[k] != Null)
  }

  /** The body of the inner loop for one (path, key) pair, as a value. */
  function Describe(op: Op, resolve: Resolver): (r: Result<Descriptor>)
    ensures r.Ok? <==> Describable(op, resolve)
    ensures op.operation == Null ==> r.Err? && r.error.TypeError?
    ensures r.Err? && !(op.operation != Null && HasJsonBodySchema(op.operation) && resolve(JsonBodySchema(op.operation).value).Err?)
      ==> r.error.TypeError?
    ensures r.Ok? ==> r.value.url == op.url && r.value.httpMethod == Upper(op.key)
    ensures r.Ok? ==>
      && r.value.operationId == Get(op.operation, "operationId")
      && r.value.responses == Get(op.operation, "responses")
      && r.value.tags == Get(op.operation, "tags")
    ensures r.Ok? && HasJsonBodySchema(op.operation) ==>
      Ok(r.value.requestBody) == resolve(JsonBodySchema(op.operation).value)
    ensures r.Ok? && !HasJsonBodySchema(op.operation) ==> r.value.requestBody == EmptyObject
    ensures op.operation != Null && HasJsonBodySchema(op.operation)
      && resolve(JsonBodySchema(op.operation).value).Err?
      ==> r == Err(resolve(JsonBodySchema(op.operation).value).error)
    ensures r.Ok? && (Upper(op.key) != "GET" || !HasPositiveLength(Or(Get(op.operation, "parameters"), Arr([])))) ==>
      r.value.queryParams == []
    ensures r.Ok? && Upper(op.key) == "GET" && Or(Get(op.operation, "parameters"), Arr([])).Arr? ==>
      var items := Or(Get(op.operation, "parameters"), Arr([])).items;
      |r.value.queryParams| == |items| &&
      forall k :: 0 <= k < |items| ==> Ok(r.value.queryParams[k]) == ParamDescriptor(items[k])
    ensures op.operation != Null && Upper(op.key) == "GET"
      && HasPositiveLength(Or(Get(op.operation, "parameters"), Arr([])))
      && !Or(Get(op.operation, "parameters"), Arr([])).Arr?
      ==> r.Err?
  {
    var operation := op.operation;
    if operation == Null then
      Err(TypeError("Cannot read properties of null (reading 'parameters')"))
    else
      var params := Or(Get(operation, "parameters"), Arr([]));
      var schema := if HasJsonBodySchema(operation) then resolve(JsonBodySchema(operation).value) else Ok(EmptyObject);
      var queryParams := if Upper(op.key) == "GET" && HasPositiveLength(params) then MapParams(params) else Ok([]);
      if schema.Err? then Err(schema.error)
      else if queryParams.Err? then Err(queryParams.error)
      else
        Ok(Descriptor(op.url, Upper(op.key), Get(operation, "operationId"), schema.value,
                      Get(operation, "responses"), Get(operation, "tags"), queryParams.value))
  }

  /** The `paths` object is an object of objects with distinct keys. The
      model covers only such documents: a `null` or missing `paths` or path
      item throws, a number or boolean has no keys, and a string or array is
      walked by its index keys. */
  predicate PathsShape(doc: Json) {
    && Get(doc, "paths").Some? && Get(doc, "paths").value.Obj?
    && var ps := Get(doc, "paths").value.members;
    && DistinctKeys(ps)
    && forall i :: 0 <= i < |ps| ==> ps[i].1.Obj? && DistinctKeys(ps[i].1.members)
  }

  function PathItems(doc: Json): Members
    requires PathsShape(doc)
  {
    Get(doc, "paths").value.members
  }

  function Entries(item: Json): Members {
    if item.Obj? then item.members else []
  }

  /** The pairs of one path item, in key order. */
  function MethodOps(url: string, ms: Members): (r: seq<Op>)
    ensures |r| == |ms|
    ensures forall k :: 0 <= k < |ms| ==> r[k] == Op(url, ms[k].0, ms[k].1)
  {
    seq(|ms|, k requires 0 <= k < |ms| => Op(url, ms[k].0, ms[k].1))
  }

  /** The number of keys under the given paths taken together. */
  function KeyCount(ps: Members): nat {
    if ps == [] then 0 else KeyCount(ps[..|ps| - 1]) + |Entries(ps[|ps| - 1].1)|
  }

  /** Every (path, key) pair, path-major. */
  function PathOps(ps: Members): (r: seq<Op>)
    ensures |r| == KeyCount(ps)
  {
    if ps == [] then []
    else PathOps(ps[..|ps| - 1]) + MethodOps(ps[|ps| - 1].0, Entries(ps[|ps| - 1].1))
  }

  /** Applying `f` to the elements one after another; the first failure ends
      the walk. */
  function Walk<A, B>(xs: seq<A>, f: A -> Result<B>): (r: Result<seq<B>>)
    ensures r.Ok? <==> forall k :: 0 <= k < |xs| ==> f(xs[k]).Ok?
    ensures r.Ok? ==> |r.value| == |xs|
    ensures r.Ok? ==> forall k :: 0 <= k < |xs| ==> Ok(r.value[k]) == f(xs[k])
  {
    if xs == [] then Ok([])
    else
      var init := xs[..|xs| - 1];
      assert forall k :: 0 <= k < |init| ==> init[k] == xs[k];
      match Walk(init, f)
      case Err(e) => Err(e)
      case Ok(ys) =>
        match f(xs[|xs| - 1])
        case Err(e) => Err(e)
        case Ok(y) => Ok(ys + [y])
  }

  /** Describing the pairs one after another; the first failure ends the walk. */
  function Traverse(ops: seq<Op>, resolve: Resolver): (r: Result<seq<Descriptor>>)
    ensures r.Ok? <==> forall k :: 0 <= k < |ops| ==> Describe(ops[k], resolve).Ok?
    ensures r.Ok? ==> |r.value| == |ops|
    ensures r.Ok? ==> forall k :: 0 <= k < |ops| ==> Ok(r.value[k]) == Describe(ops[k], resolve)
  {
    Walk(ops, Describer(resolve))
  }

  function Describer(resolve: Resolver): Op -> Result<Descriptor> {
    (op: Op) => Describe(op, resolve)
  }

  /** The projection of the members `ps` of a `paths` object. */
  function Project(ps: Members, resolve: Resolver): (r: Result<seq<Descriptor>>)
    ensures r.Ok? ==> |r.value| == KeyCount(ps)
    ensures r.Ok? ==> forall k :: 0 <= k < KeyCount(ps) ==> Ok(r.value[k]) == Describe(PathOps(ps)[k], resolve)
  {
    Traverse(PathOps(ps), resolve)
  }

  /** The projection of a dereferenced document. */
  function Catalog(doc: Json, resolve: Resolver): (r: Result<seq<Descriptor>>)
    requires PathsShape(doc)
    ensures r.Ok? ==> |r.value| == KeyCount(Get(doc, "paths").value.members)
  {
    Project(PathItems(doc), resolve)
  }

  /** `parseSwaggerYaml` from the parsed tree on: dereference, then project. */
  function Parse(parsed: Json, resolve: Resolver): (r: Result<seq<Descriptor>>)
    requires resolve(parsed).Ok? ==> PathsShape(resolve(parsed).value)
    ensures resolve(parsed).Err? ==> r == Err(resolve(parsed).error)
    ensures r.Ok? ==> resolve(parsed).Ok? && |r.value| == KeyCount(PathItems(resolve(parsed).value))
  {
    match resolve(parsed)
    case Err(e) => Err(e)
    case Ok(doc) => Catalog(doc, resolve)
  }

  // ---------------------------------------------------------------------
  // Lemmas the walk needs

  lemma MethodOpsSplit(url: string, ms: Members, n: nat)
    requires n <= |ms|
    ensures MethodOps(url, ms) == MethodOps(url, ms[..n]) + MethodOps(url, ms[n..])
  {
    forall k | 0 <= k < |ms|
      ensures MethodOps(url, ms)[k] == (MethodOps(url, ms[..n]) + MethodOps(url, ms[n..]))[k]
    {
      if k < n {
        assert ms[..n][k] == ms[k];
      } else {
        assert ms[n..][k - n] == ms[k];
      }
    }
  }

  /** One more path item at the end adds that item's pairs at the end. */
  lemma PathOpsLast(ps: Members, item: (string, Json))
    ensures PathOps(ps + [item]) == PathOps(ps) + MethodOps(item.0, Entries(item.1))
  {
    assert (ps + [item])[..|ps|] == ps;
  }

  lemma Assoc<T>(a: seq<T>, b: seq<T>, c: seq<T>)
    ensures (a + b) + c == a + (b + c)
  {
  }

  lemma {:induction false} PathOpsAppend(a: Members, b: Members)
    ensures PathOps(a + b) == PathOps(a) + PathOps(b)
    decreases |b|
  {
    if b == [] {
      assert a + b == a;
    } else {
      var b', item := b[..|b| - 1], b[|b| - 1];
      assert b == b' + [item];
      assert a + b == (a + b') + [item];
      PathOpsAppend(a, b');
      PathOpsLast(a + b', item);
      PathOpsLast(b', item);
      Assoc(PathOps(a), PathOps(b'), MethodOps(item.0, Entries(item.1)));
    }
  }

  lemma PathOpsSnoc(ps: Members, i: nat)
    requires i < |ps|
    ensures PathOps(ps[..i + 1]) == PathOps(ps[..i]) + MethodOps(ps[i].0, Entries(ps[i].1))
  {
    assert ps[..i + 1][..i] == ps[..i];
  }

  lemma Regroup<T>(a: seq<T>, b: seq<T>, c: seq<T>, d: seq<T>, e: seq<T>)
    ensures a + (b + c + d) + e == a + b + c + (d + e)
  {
  }

  lemma MethodOpsGrow(url: string, ms: Members, j: nat)
    requires j < |ms|
    ensures MethodOps(url, ms[..j + 1]) == MethodOps(url, ms[..j]) + [Op(url, ms[j].0, ms[j].1)]
  {
    assert forall k :: 0 <= k < j ==> ms[..j + 1][k] == ms[..j][k];
  }

  lemma MethodOpsPick(url: string, ms: Members, j: nat)
    requires j < |ms|
    ensures MethodOps(url, ms) == MethodOps(url, ms[..j]) + [Op(url, ms[j].0, ms[j].1)] + MethodOps(url, ms[j + 1..])
  {
    MethodOpsSplit(url, ms, j);
    MethodOpsSplit(url, ms[j..], 1);
    assert ms[j..][1..] == ms[j + 1..];
  }

  /** Walk order: what has been pushed so far is a prefix of all pairs. */
  lemma PrefixOfPathOps(ps: Members, i: nat, j: nat)
    requires i < |ps| && j < |Entries(ps[i].1)|
    ensures exists rest ::
      PathOps(ps) == PathOps(ps[..i]) + MethodOps(ps[i].0, Entries(ps[i].1)[..j]) + [Op(ps[i].0, Entries(ps[i].1)[j].0, Entries(ps[i].1)[j].1)] + rest
  {
    var ms := Entries(ps[i].1);
    var url := ps[i].0;
    var before := PathOps(ps[..i]);
    var after := PathOps(ps[i + 1..]);
    var op := Op(url, ms[j].0, ms[j].1);
    var left, right := MethodOps(url, ms[..j]), MethodOps(url, ms[j + 1..]);
    assert ps == ps[..i + 1] + ps[i + 1..];
    PathOpsAppend(ps[..i + 1], ps[i + 1..]);
    PathOpsSnoc(ps, i);
    assert PathOps(ps) == before + MethodOps(url, ms) + after;
    MethodOpsPick(url, ms, j);
    assert MethodOps(url, ms) == left + [op] + right;
    var rest := right + after;
    Regroup(before, left, [op], right, after);
  }

  lemma {:induction false} WalkErrSticks<A, B>(a: seq<A>, b: seq<A>, f: A -> Result<B>)
    requires Walk(a, f).Err?
    ensures Walk(a + b, f) == Walk(a, f)
    decreases |b|
  {
    if b != [] {
      assert (a + b)[..|a + b| - 1] == a + b[..|b| - 1];
      WalkErrSticks(a, b[..|b| - 1], f);
    } else {
      assert a + b == a;
    }
  }

  lemma WalkSnoc<A, B>(xs: seq<A>, x: A, f: A -> Result<B>)
    ensures Walk(xs + [x], f) ==
      match Walk(xs, f)
      case Err(e) => Err(e)
      case Ok(ys) => (match f(x) case Err(e) => Err(e) case Ok(y) => Ok(ys + [y]))
  {
    assert (xs + [x])[..|xs|] == xs;
  }

  /** One more pair described: the walk's result grows by its descriptor. */
  lemma WalkStep(ps: Members, i: nat, j: nat, resolve: Resolver, done: seq<Descriptor>, d: Descriptor)
    requires i < |ps| && j < |Entries(ps[i].1)|
    requires Traverse(PathOps(ps[..i]) + MethodOps(ps[i].0, Entries(ps[i].1)[..j]), resolve) == Ok(done)
    requires Describe(Op(ps[i].0, Entries(ps[i].1)[j].0, Entries(ps[i].1)[j].1), resolve) == Ok(d)
    ensures Traverse(PathOps(ps[..i]) + MethodOps(ps[i].0, Entries(ps[i].1)[..j + 1]), resolve) == Ok(done + [d])
  {
    var ms := Entries(ps[i].1);
    var url := ps[i].0;
    var op := Op(url, ms[j].0, ms[j].1);
    var before, left := PathOps(ps[..i]), MethodOps(url, ms[..j]);
    MethodOpsGrow(url, ms, j);
    Assoc(before, left, [op]);
    WalkSnoc(before + left, op, Describer(resolve));
  }

  /** A failing pair after a successful prefix is the walk's failure. */
  lemma WalkStops(ps: Members, i: nat, j: nat, resolve: Resolver, done: seq<Descriptor>)
    requires i < |ps| && j < |Entries(ps[i].1)|
    requires Traverse(PathOps(ps[..i]) + MethodOps(ps[i].0, Entries(ps[i].1)[..j]), resolve) == Ok(done)
    requires Describe(Op(ps[i].0, Entries(ps[i].1)[j].0, Entries(ps[i].1)[j].1), resolve).Err?
    ensures Traverse(PathOps(ps), resolve) ==
      Err(Describe(Op(ps[i].0, Entries(ps[i].1)[j].0, Entries(ps[i].1)[j].1), resolve).error)
  {
    var op := Op(ps[i].0, Entries(ps[i].1)[j].0, Entries(ps[i].1)[j].1);
    var prefix := PathOps(ps[..i]) + MethodOps(ps[i].0, Entries(ps[i].1)[..j]);
    PrefixOfPathOps(ps, i, j);
    var rest :| PathOps(ps) == prefix + [op] + rest;
    WalkSnoc(prefix, op, Describer(resolve));
    WalkErrSticks(prefix + [op], rest, Describer(resolve));
  }

  // ---------------------------------------------------------------------
  // The walk

  /** The body of the loop over the keys of one path item, for the value
      `operation` stored under key `methodKey` of the path item for `path`. */
  method DescribeOperation(path: string, methodKey: string, operation: Json, resolve: Resolver)
    returns (r: Result<Descriptor>)
    ensures r == Describe(Op(path, methodKey, operation), resolve)
  {
    if operation == Null {
      return Err(TypeError("Cannot read properties of null (reading 'parameters')"));
    }
    var params := Or(Get(operation, "parameters"), Arr([]));
    var requestBody := Get(operation, "requestBody");

    var schema := EmptyObject;
    if Truthy(requestBody) && Truthy(Prop(requestBody, "content"))
      && Truthy(Prop(Prop(requestBody, "content"), "application/json"))
    {
      var requestBodySchema := Prop(Prop(Prop(requestBody, "content"), "application/json"), "schema");
      if Truthy(requestBodySchema) {
        var resolvedBody := resolve(requestBodySchema.value);
        if resolvedBody.Err? {
          return Err(resolvedBody.error);
        }
        schema := resolvedBody.value;
      }
    }

    var queryParams: seq<QueryParam> := [];
    if Upper(methodKey) == "GET" && HasPositiveLength(params) {
      var mapped := MapParams(params);
      if mapped.Err? {
        return Err(mapped.error);
      }
      queryParams := mapped.value;
    }

    r := Ok(Descriptor(path, Upper(methodKey), Get(operation, "operationId"), schema,
                       Get(operation, "responses"), Get(operation, "tags"), queryParams));
  }

  /** `parseSwaggerYaml` after `YAML.parse`: dereference the whole tree, then
      push one descriptor per key of every path item. */
  method ParseSwaggerYaml(parsed: Json, resolve: Resolver) returns (r: Result<seq<Descriptor>>)
    requires resolve(parsed).Ok? ==> PathsShape(resolve(parsed).value)
    ensures r == Parse(parsed, resolve)
    ensures r.Ok? ==> |r.value| == KeyCount(PathItems(resolve(parsed).value))
  {
    var resolved := resolve(parsed);
    if resolved.Err? {
      return Err(resolved.error);
    }
    var swaggerDoc := resolved.value;
    var pathItems := Get(swaggerDoc, "paths").value.members;
    var paths := Keys(pathItems);
    var result: seq<Descriptor> := [];

    for i := 0 to |paths|
      invariant Traverse(PathOps(pathItems[..i]), resolve) == Ok(result)
    {
      var path := paths[i];
      LookupDistinct(pathItems, i);
      var pathItem := Lookup(pathItems, path).value;
      var entries := pathItem.members;
      var methods := Keys(entries);
      assert path == pathItems[i].0 && entries == Entries(pathItems[i].1);
      assert PathOps(pathItems[..i]) + MethodOps(path, entries[..0]) == PathOps(pathItems[..i]);

      for j := 0 to |methods|
        invariant Traverse(PathOps(pathItems[..i]) + MethodOps(path, entries[..j]), resolve) == Ok(result)
      {
        var methodKey := methods[j];
        LookupDistinct(entries, j);
        var operation := Lookup(entries, methodKey).value;
        var descriptor := DescribeOperation(path, methodKey, operation, resolve);
        if descriptor.Err? {
          WalkStops(pathItems, i, j, resolve, result);
          return Err(descriptor.error);
        }
        WalkStep(pathItems, i, j, resolve, result, descriptor.value);
        result := result + [descriptor.value];
      }
      assert entries[..|methods|] == entries;
      PathOpsSnoc(pathItems, i);
    }
    assert pathItems[..|paths|] == pathItems;
    r := Ok(result);
  }
}
