# Operation projection of an OpenAPI document

This project models the core of a small Next.js API route: `parseSwaggerYaml`
takes an OpenAPI document, has `$RefParser.dereference` inline its
references, and flattens the `paths` object into a list of per-operation
descriptors. Each descriptor holds `url`, `method`, `operationId`,
`requestBody`, `responses`, `tags` and `queryParams`.

The model starts from the already-parsed document tree:

- `document.dfy` (module `Document`) holds the generic JSON-like tree. An
  object is an ordered sequence of members, so `Object.keys` order is
  explicit. `None` stands for JavaScript `undefined`. The module also gives
  property access (`Get`, `Prop`), `||` (`Or`) and truthiness (`Truthy`).
- `jsstring.dfy` (module `JsString`) models `toUpperCase` for method keys.
- `generate.dfy` (module `Generate`) holds the descriptors and the
  per-parameter function (the `params.map` callback). It also holds the
  specification of one pair (`Describe`) and of the whole walk
  (`PathOps`, `Traverse`, `Project`, `Catalog`, `Parse`). `Traverse` is the
  generic left-to-right walk `Walk`, where the first failure ends the walk,
  applied to `Describe`. The looped method
  `ParseSwaggerYaml` is proved equal to that specification, and so is
  `DescribeOperation`, the body of its inner loop.
- `catalog.dfy` (module `CatalogProperties`) proves what the list
  promises: one descriptor per (path key, key under that path), in
  path-major order; the url and method of each; when the walk fails and
  with which failure.
- `scenarios.dfy` (module `Scenarios`) states what the projection gives for
  small concrete documents.

The reference resolver is a parameter `resolve: Json -> Result<Json>`: a pure
function that may map any tree to any tree or fail. Its result for the whole
document must have the shape `PathsShape` describes (see "## Left out");
nothing else is assumed about it. The resolver models only the awaited
calls. A GET parameter's `$ref` schema is not passed to it. The source starts
that dereference, but never awaits it, so what it stores is the handle of the
running call rather than its result. The model stores that handle as the
opaque value `Pending(original)`. The value is truthy and so survives
`schema || {}`.

JavaScript `TypeError`s that the walk itself would throw are modelled as
`Err(TypeError(..))` results, and the first one ends the walk:

- a `null` operation;
- `params.map` on a non-array whose `length` is positive;
- a `null` parameter.

A failure reported by the resolver for the whole document or for a request
body is passed on unchanged.

Two behaviours of the code worth stating:

- Every key of a path item is walked as a method, including keys such as
  `parameters` or `summary`, not only lower-case HTTP verbs.
- A GET parameter's referenced schema is dereferenced, but that dereference
  is never awaited and its result is never stored. The descriptor holds the
  pending handle instead, and an error is only logged by the callback.

## Model

| member | source | states |
|---|---|---|
| `Document.Keys` | pages/api/generate.ts:14-18 | `Object.keys` lists one key per member, in member order, and a key is listed exactly when a property read with it finds a value |
| `Document.Lookup` | pages/api/generate.ts:18-21 | `o[key]` is `undefined` exactly when no member has that key |
| `Document.Get` | pages/api/generate.ts:21-23 | a property read gives `undefined` exactly on a non-object or a missing key |
| `Document.Prop` | pages/api/generate.ts:26-27 | a property of a possibly absent value is present only when that value is an object, and so truthy; on a present value it is the plain property read |
| `Document.Truthy` | pages/api/generate.ts:26-28 | a truthy value is defined and not `null`; every array and object, even an empty one, is truthy; a string is truthy exactly when it is not empty |
| `Document.Or` | pages/api/generate.ts:22 | `o \|\| fallback` gives `o` when it is truthy and `fallback` otherwise; its result is truthy exactly when one of the two operands is |
| `Document.LookupFirst` | pages/api/generate.ts:21 | `o[key]` yields the value of the first member with that key |
| `Document.LookupDistinct` | pages/api/generate.ts:18-21 | in an object with distinct keys, indexing with the j-th key listed by `Object.keys` yields the j-th member's value |
| `JsString.Upper` | pages/api/generate.ts:34 | `toUpperCase` keeps the length, leaves no ASCII lower-case letter, and changes a character exactly when it is an ASCII lower-case letter |
| `JsString.UpperNormalises` | pages/api/generate.ts:55 | a key is its own upper-casing exactly when it has no ASCII lower-case letter, and upper-casing twice changes nothing |
| `JsString.UpperCharIs` | pages/api/generate.ts:34 | exactly a letter and its lower-case form upper-case to that letter |
| `JsString.UpperIsGet` | pages/api/generate.ts:34 | `method.toUpperCase() === 'GET'` holds exactly for the eight case variants of `get` |
| `Generate.ParamDescriptor` | pages/api/generate.ts:35-50 | fails exactly on a `null` parameter; `name` is copied, absent stays absent; `required` is `false` exactly when `param.required` is falsy and is otherwise that value; a falsy schema becomes `{}`; a truthy schema without a truthy `$ref` passes through; a schema with a truthy `$ref` becomes the pending dereference; an inline schema is always truthy |
| `Generate.MapEach` | pages/api/generate.ts:35-50 | mapping succeeds exactly when no parameter is `null`; then the query parameters have the same length and order as `parameters`, each being its parameter's descriptor; any failure is a `TypeError` |
| `Generate.HasPositiveLength` | pages/api/generate.ts:34 | only an array, a string or an object can have a positive `length`; an array or a string has one exactly when it is not empty; an object without an own `length` never has one |
| `Generate.MapParams` | pages/api/generate.ts:35-50 | `params.map` succeeds exactly on an array without `null` elements, giving the element-wise descriptors in order; a non-array has no `map`, and every failure is a `TypeError` |
| `Generate.HasJsonBodySchema` | pages/api/generate.ts:26-28 | the `requestBody && content && application/json && schema` test holds exactly when the schema at the end of the chain is truthy |
| `Generate.JsonBodySchema` | pages/api/generate.ts:27 | a request-body schema is present only under an object `requestBody` with `content` and `application/json` present |
| `Generate.Describe` | pages/api/generate.ts:21-61 | the description succeeds exactly when the operation is not `null`, the resolver accepts the JSON request-body schema if the chain reaches one, and, for a GET key with `parameters` of positive length, those are an array without `null` elements. A `null` operation fails with a `TypeError`. On success: `url` is the path key; `method` is the upper-cased key; `operationId`, `responses` and `tags` are copied, absent stays absent; `requestBody` is the resolver's result on `requestBody.content['application/json'].schema` exactly when that chain is truthy, otherwise `{}`, and a resolver failure there is the result. `queryParams` is `[]` unless the key upper-cases to `GET` and `parameters` (default `[]`) has a positive length; for a GET key and array `parameters` it is the element-wise parameter descriptors; a GET key with non-array `parameters` of positive length fails |
| `Generate.DescribeOperation` | pages/api/generate.ts:21-61 | the inner-loop body, with its reassigned `schema` and `queryParams` and its early failures, computes exactly `Describe` of its pair |
| `Generate.PathOps` | pages/api/generate.ts:14-20 | the number of (path, key) pairs walked is the sum of the per-path key counts |
| `Generate.Walk` | pages/api/generate.ts:17-63 | applying a possibly failing step to each element in order succeeds exactly when every step succeeds; the results then have one entry per element, in order, each being that element's step result |
| `Generate.Traverse` | pages/api/generate.ts:17-63 | the walk succeeds exactly when every pair can be described; its list then has one descriptor per pair, in order, each the pair's description |
| `Generate.Project` | pages/api/generate.ts:14-63 | a successful projection of a `paths` object has one descriptor per (path, key) pair, the k-th being the description of the k-th pair |
| `Generate.Catalog` | pages/api/generate.ts:13-63 | a successful projection of a dereferenced document has one descriptor per key of its path items |
| `Generate.Parse` | pages/api/generate.ts:11-66 | a failure to resolve the whole document is the result; a success has one descriptor per key of every path item of the resolved document |
| `Generate.ParseSwaggerYaml` | pages/api/generate.ts:11-66 | the nested loops that push into `result` compute exactly `Parse`: a whole-document resolution failure is the result; otherwise the list has one descriptor per key of every path item, or the first failure of the walk |
| `CatalogProperties.PathOpsAt` | pages/api/generate.ts:14-20 | the j-th key of the i-th path is walked at position (keys of the paths before i) + j, path-major |
| `CatalogProperties.KeyCountGrows` | pages/api/generate.ts:17-20 | the pairs of a path all come before the pairs of any later path |
| `CatalogProperties.PathOpsCover` | pages/api/generate.ts:14-20 | every position of the walk falls in the block of exactly one path |
| `CatalogProperties.PairOf` | pages/api/generate.ts:14-20 | every position of the walk is the position of some (path, key) pair |
| `CatalogProperties.WalkFails` | pages/api/generate.ts:17-62 | a failed walk has a first failing element whose failure it reports, all earlier elements succeeding |
| `CatalogProperties.TraverseFails` | pages/api/generate.ts:17-62 | a failed walk has a first failing pair whose failure it reports, all earlier pairs succeeding |
| `CatalogProperties.DescriptorAt` | pages/api/generate.ts:53-61 | the descriptor at the position of the j-th key of the i-th path is that pair's description; its url is the i-th path key and its method the upper-cased j-th key |
| `CatalogProperties.ProjectSucceeds` | pages/api/generate.ts:17-63 | the projection succeeds exactly when every (path, key) pair meets the success condition of `Describe`: a non-`null` operation, an accepted request-body schema, and array `parameters` without `null` under a GET key |
| `CatalogProperties.PlainOperationDescribed` | pages/api/generate.ts:21-61 | a non-`null` operation without a JSON request-body schema, whose `parameters` are absent or an array without `null`, is described under every key and with every resolver |
| `CatalogProperties.PlainDocumentProjects` | pages/api/generate.ts:14-63 | a `paths` object holding only such operations yields one descriptor per key of every path item, with every resolver |
| `CatalogProperties.ProjectFails` | pages/api/generate.ts:17-63 | a failed projection reports the failure of the first pair in path-major order that cannot be described |
| `CatalogProperties.UrlIdentifiesPath` | pages/api/generate.ts:54 | with distinct path keys, two descriptors share a url exactly when they come from the same path |
| `CatalogProperties.KeyCaseInsensitive` | pages/api/generate.ts:34 | the descriptor depends on the key only through its upper-casing, so `get`, `Get` and `GET` give the same result |
| `Scenarios.MinimalGetOperation` | pages/api/generate.ts:17-61 | one path with one GET and no parameters or request body gives one descriptor with `requestBody` `{}`, `queryParams` `[]`, and absent `responses` and `tags` |
| `Scenarios.PostIsUpperCased` | pages/api/generate.ts:55 | a `post` key gives method `POST` |
| `Scenarios.TwoMethodsOnePath` | pages/api/generate.ts:18-20 | a path with `get` and `post` gives two descriptors, in that order, with the same url |
| `Scenarios.GetQueryParameter` | pages/api/generate.ts:35-50 | a GET parameter `limit`, not required, with an integer schema gives the query parameter `limit` with that schema and `required: false` |
| `Scenarios.QueryParametersOnlyForGet` | pages/api/generate.ts:33-34 | the same parameters produce a query parameter under a `Get` key and none under `post` |
| `Scenarios.ReferencedParameterSchemaIsPending` | pages/api/generate.ts:37-44 | a parameter schema with `$ref` becomes the pending dereference |
| `Scenarios.RequestBodyIsResolved` | pages/api/generate.ts:26-31 | a JSON request-body schema that is a reference yields the resolver's result |
| `Scenarios.NonMethodKeyIsWalked` | pages/api/generate.ts:18-20 | a `parameters` key of a path item is walked as a method `PARAMETERS` with no query parameters |
| `Scenarios.NullOperationFails` | pages/api/generate.ts:21-22 | a `null` value under a path item key makes the whole projection fail |

## Left out

- The HTTP `handler` (pages/api/generate.ts:69-79): `fetch`, `blob().text()` and `res.status(200).send` are network and framework I/O.
- `YAML.parse` (pages/api/generate.ts:12) is a foreign library; the model starts from the parsed tree.
- `resolveRefs` and the awaited `$RefParser.dereference` calls (pages/api/generate.ts:6-9, 13, 29) are foreign reference resolution; they are the uninterpreted parameter `resolve`. The unawaited call at pages/api/generate.ts:38 is not passed to `resolve`; it is the `Pending` handle described above.
- The async/await machinery, the callback given to the unawaited dereference and its `console.log` (pages/api/generate.ts:38-43) are promise behaviour and logging; an error the callback logs is not modelled.
- Serialising the result to JSON in the response, which would turn the pending handle into `{}`, belongs to the handler.
- Documents outside `PathsShape`, which asks that `paths` be an object whose path items are all objects, with distinct keys (as every JavaScript object has). For other shapes the source behaves as follows; `ParseSwaggerYaml`, `Parse` and `Catalog` require `PathsShape` of the resolved document, so none of this is modelled:
  - a missing or `null` `paths` or path item makes `Object.keys` throw a `TypeError`;
  - a number or boolean has no keys and contributes nothing, so `paths: 5` gives `[]`;
  - a string or an array is walked by its index keys, so a path item `"abc"` gives descriptors with methods `0`, `1` and `2`.
- `$RefParser.dereference` changes its argument in place, so after dereferencing, subtrees can be shared between places in the document. With its default options it also turns circular `$ref`s into cyclic object graphs. The pure `resolve` returns a new, finite `Json` tree. It does not capture the in-place change, the sharing, or cyclic results.
- `Object.keys` lists integer-like keys first in ascending order; the model takes an object's member order to be the `Object.keys` order already.
- Numbers are integers: floating point values and `NaN` are not modelled.
- JsString.Upper: maps only ASCII `a` to `z`; JavaScript also upper-cases non-ASCII letters (such as `ß` to `SS`), which the model leaves unchanged.
- Generate.HasPositiveLength: for an object `parameters`, an own `length` that is a string, array or object is read as not positive; JavaScript would convert it to a number first.
