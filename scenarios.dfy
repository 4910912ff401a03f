/** What the projection gives for small concrete documents, one per
    behaviour the system is expected to show. */
module Scenarios {
  import opened Document
  import opened JsString
  import opened Generate

  /** One path with one GET operation, no parameters and no request body:
      one descriptor with an empty request body and no query parameters;
      the absent `responses` and `tags` stay absent. */
  lemma MinimalGetOperation(resolve: Resolver)
    ensures Project([("/items", Obj([("get", Obj([("operationId", Str("list"))]))]))], resolve)
      == Ok([Descriptor("/items", "GET", Some(Str("list")), EmptyObject, None, None, [])])
  {
    UpperIsGet("get");
    var op := Op("/items", "get", Obj([("operationId", Str("list"))]));
    assert PathOps([("/items", Obj([("get", op.operation)]))]) == [op];
    var d := Descriptor("/items", "GET", Some(Str("list")), EmptyObject, None, None, []);
    assert Describe(op, resolve) == Ok(d);
    var r := Traverse([op], resolve);
    assert r.Ok? && |r.value| == 1 && Ok(r.value[0]) == Ok(d);
    assert r.value == [d];
  }

  /** A `post` key yields the method `POST`. */
  lemma PostIsUpperCased(resolve: Resolver)
    ensures Describe(Op("/items", "post", EmptyObject), resolve)
      == Ok(Descriptor("/items", "POST", None, EmptyObject, None, None, []))
  {
    assert Upper("post") == "POST";
  }

  /** A path with `get` and `post` yields two descriptors with the same url. */
  lemma TwoMethodsOnePath(resolve: Resolver)
    ensures var r := Project([("/items", Obj([("get", EmptyObject), ("post", EmptyObject)]))], resolve);
      r.Ok? && |r.value| == 2 && r.value[0].url == r.value[1].url == "/items"
      && r.value[0].httpMethod == "GET" && r.value[1].httpMethod == "POST"
  {
    var get, post := Op("/items", "get", EmptyObject), Op("/items", "post", EmptyObject);
    assert PathOps([("/items", Obj([("get", EmptyObject), ("post", EmptyObject)]))]) == [get, post];
    assert Describe(get, resolve).Ok? && Describe(post, resolve).Ok?;
  }

  /** A GET parameter `limit`, not required, with an integer schema, becomes
      the query parameter `limit` with that schema and `required: false`. */
  lemma GetQueryParameter(resolve: Resolver)
    ensures var integer := Obj([("type", Str("integer"))]);
      var param := Obj([("name", Str("limit")), ("required", Bool(false)), ("schema", integer)]);
      var r := Describe(Op("/items", "get", Obj([("parameters", Arr([param]))])), resolve);
      r.Ok? && r.value.queryParams == [QueryParam(Some(Str("limit")), Inline(integer), Bool(false))]
  {
    var integer := Obj([("type", Str("integer"))]);
    var param := Obj([("name", Str("limit")), ("required", Bool(false)), ("schema", integer)]);
    var operation := Obj([("parameters", Arr([param]))]);
    var q := QueryParam(Some(Str("limit")), Inline(integer), Bool(false));
    UpperIsGet("get");
    assert Get(operation, "parameters") == Some(Arr([param]));
    assert !HasJsonBodySchema(operation);
    LookupFirst(param.members, "required", 1);
    LookupFirst(param.members, "schema", 2);
    assert ParamDescriptor(param) == Ok(q);
    var r := Describe(Op("/items", "get", operation), resolve);
    assert r.Ok? && |r.value.queryParams| == 1 && Ok(r.value.queryParams[0]) == Ok(q);
  }

  /** The same parameter under a `Get` key is treated alike, but under
      `post` it yields no query parameters. */
  lemma QueryParametersOnlyForGet(resolve: Resolver)
    ensures var param := Obj([("name", Str("limit"))]);
      var operation := Obj([("parameters", Arr([param]))]);
      && Describe(Op("/items", "Get", operation), resolve).Ok?
      && |Describe(Op("/items", "Get", operation), resolve).value.queryParams| == 1
      && Describe(Op("/items", "post", operation), resolve).Ok?
      && Describe(Op("/items", "post", operation), resolve).value.queryParams == []
  {
  }

  /** A parameter schema with a `$ref` is replaced by the pending
      dereference, never by the resolver's result. */
  lemma ReferencedParameterSchemaIsPending(resolve: Resolver)
    ensures var schema := Obj([("$ref", Str("#/components/schemas/Limit"))]);
      var r := ParamDescriptor(Obj([("name", Str("limit")), ("schema", schema)]));
      r == Ok(QueryParam(Some(Str("limit")), Pending(schema), Bool(false)))
  {
  }

  /** A JSON request-body schema is handed to the resolver and its result is
      the descriptor's request body. */
  lemma RequestBodyIsResolved(resolve: Resolver, widget: Json)
    requires resolve(Obj([("$ref", Str("#/components/schemas/Widget"))])) == Ok(widget)
    ensures var schema := Obj([("$ref", Str("#/components/schemas/Widget"))]);
      var body := Obj([("content", Obj([("application/json", Obj([("schema", schema)]))]))]);
      var r := Describe(Op("/widgets", "post", Obj([("requestBody", body)])), resolve);
      r.Ok? && r.value.requestBody == widget
  {
  }

  /** A non-method key of a path item, such as `parameters`, is walked like
      a method: it yields a descriptor whose method is `PARAMETERS`. */
  lemma NonMethodKeyIsWalked(resolve: Resolver)
    ensures var r := Describe(Op("/items", "parameters", Arr([Obj([("name", Str("id"))])])), resolve);
      r.Ok? && r.value.httpMethod == "PARAMETERS" && r.value.queryParams == []
  {
  }

  /** A `null` under a path item key fails the whole projection. */
  lemma NullOperationFails(resolve: Resolver)
    ensures Project([("/items", Obj([("get", EmptyObject), ("delete", Null)]))], resolve).Err?
  {
  }
}
