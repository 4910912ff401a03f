/** What the projection promises about the whole descriptor list: one
    descriptor per (path key, key under that path), in path-major
    `Object.keys` order, and the first failing pair decides the failure. */
module CatalogProperties {
  import opened Document
  import opened JsString
  import opened Generate

  /** The `j`-th key of the `i`-th path sits at position
      `KeyCount(ps[..i]) + j` of the walk. */
  lemma {:induction false} PathOpsAt(ps: Members, i: nat, j: nat)
    requires i < |ps| && j < |Entries(ps[i].1)|
    ensures KeyCount(ps[..i]) + j < KeyCount(ps)
    ensures PathOps(ps)[KeyCount(ps[..i]) + j] == Op(ps[i].0, Entries(ps[i].1)[j].0, Entries(ps[i].1)[j].1)
    decreases |ps|
  {
    var n := |ps|;
    var init, last := ps[..n - 1], ps[n - 1];
    assert ps == init + [last];
    PathOpsLast(init, last);
    if i < n - 1 {
      assert init[..i] == ps[..i] && init[i] == ps[i];
      PathOpsAt(init, i, j);
    } else {
      assert init == ps[..i];
    }
  }

  /** The block of path `a` ends no later than the block of any later path
      `b` begins. */
  lemma {:induction false} KeyCountGrows(ps: Members, a: nat, b: nat)
    requires a < b <= |ps|
    ensures KeyCount(ps[..a]) + |Entries(ps[a].1)| <= KeyCount(ps[..b])
    decreases b - a
  {
    assert ps[..b][..b - 1] == ps[..b - 1];
    if b > a + 1 {
      KeyCountGrows(ps, a, b - 1);
    }
  }

  /** Every position of the walk belongs to the block of exactly one path. */
  lemma PathOpsCover(ps: Members, k: nat)
    requires k < KeyCount(ps)
    ensures exists i ::
      && 0 <= i < |ps| && KeyCount(ps[..i]) <= k < KeyCount(ps[..i]) + |Entries(ps[i].1)|
      && forall i2 :: 0 <= i2 < |ps| && KeyCount(ps[..i2]) <= k < KeyCount(ps[..i2]) + |Entries(ps[i2].1)| ==> i2 == i
  {
    var i, j := PairOf(ps, k);
    forall i2 | 0 <= i2 < |ps| && KeyCount(ps[..i2]) <= k < KeyCount(ps[..i2]) + |Entries(ps[i2].1)|
      ensures i2 == i
    {
      if i2 < i {
        KeyCountGrows(ps, i2, i);
      } else if i < i2 {
        KeyCountGrows(ps, i, i2);
      }
    }
  }

  /** A failed walk failed at a first element, every element before it
      succeeded. */
  lemma {:induction false} WalkFails<A, B>(xs: seq<A>, f: A -> Result<B>)
    requires Walk(xs, f).Err?
    ensures exists k ::
      && 0 <= k < |xs| && f(xs[k]) == Err(Walk(xs, f).error)
      && forall l :: 0 <= l < k ==> f(xs[l]).Ok?
    decreases |xs|
  {
    var n := |xs|;
    var init := xs[..n - 1];
    if Walk(init, f).Err? {
      WalkFails(init, f);
      var k :| 0 <= k < |init| && f(init[k]) == Err(Walk(init, f).error)
        && forall l :: 0 <= l < k ==> f(init[l]).Ok?;
      assert init[k] == xs[k];
      assert forall l :: 0 <= l < k ==> init[l] == xs[l];
    } else {
      assert forall l :: 0 <= l < n - 1 ==> init[l] == xs[l];
      assert f(xs[n - 1]) == Err(Walk(xs, f).error);
    }
  }

  /** A failed walk over the pairs failed at a first pair, every pair before
      it described. */
  lemma TraverseFails(ops: seq<Op>, resolve: Resolver)
    requires Traverse(ops, resolve).Err?
    ensures exists k ::
      && 0 <= k < |ops| && Describe(ops[k], resolve) == Err(Traverse(ops, resolve).error)
      && forall l :: 0 <= l < k ==> Describe(ops[l], resolve).Ok?
  {
    WalkFails(ops, Describer(resolve));
  }

  /** The descriptor of the `j`-th key of the `i`-th path: it is that pair's
      description, with that path as its url and that key upper-cased as
      its method. */
  lemma DescriptorAt(ps: Members, resolve: Resolver, i: nat, j: nat)
    requires Project(ps, resolve).Ok?
    requires i < |ps| && j < |Entries(ps[i].1)|
    ensures var entry := Entries(ps[i].1)[j];
      var k := KeyCount(ps[..i]) + j;
      && k < |Project(ps, resolve).value|
      && Ok(Project(ps, resolve).value[k]) == Describe(Op(ps[i].0, entry.0, entry.1), resolve)
      && Project(ps, resolve).value[k].url == ps[i].0
      && Project(ps, resolve).value[k].httpMethod == Upper(entry.0)
  {
    PathOpsAt(ps, i, j);
  }

  /** The projection succeeds exactly when every pair can be described. */
  lemma ProjectSucceeds(ps: Members, resolve: Resolver)
    ensures Project(ps, resolve).Ok? <==>
      forall i, j :: 0 <= i < |ps| && 0 <= j < |Entries(ps[i].1)| ==>
        Describable(Op(ps[i].0, Entries(ps[i].1)[j].0, Entries(ps[i].1)[j].1), resolve)
  {
    if Project(ps, resolve).Ok? {
      forall i, j | 0 <= i < |ps| && 0 <= j < |Entries(ps[i].1)|
        ensures Describable(Op(ps[i].0, Entries(ps[i].1)[j].0, Entries(ps[i].1)[j].1), resolve)
      {
        DescriptorAt(ps, resolve, i, j);
      }
    } else {
      ProjectFails(ps, resolve);
    }
  }

  /** An operation that is not `null`, has no JSON request-body schema, and
      whose `parameters` are absent or an array without `null`. */
  predicate PlainOperation(operation: Json) {
    var params := Or(Get(operation, "parameters"), Arr([]));
    && operation != Null
    && !HasJsonBodySchema(operation)
    && params.Arr?
    && forall k :: 0 <= k < |params.items| ==> params.items[k] != Null
  }

  /** A plain operation is described under any key and any resolver. */
  lemma PlainOperationDescribed(url: string, key: string, operation: Json, resolve: Resolver)
    requires PlainOperation(operation)
    ensures Describe(Op(url, key, operation), resolve).Ok?
  {
  }

  /** A document whose every path item holds only plain operations projects
      to one descriptor per key under every path, whatever the resolver. */
  lemma PlainDocumentProjects(ps: Members, resolve: Resolver)
    requires forall i, j :: 0 <= i < |ps| && 0 <= j < |Entries(ps[i].1)| ==> PlainOperation(Entries(ps[i].1)[j].1)
    ensures Project(ps, resolve).Ok? && |Project(ps, resolve).value| == KeyCount(ps)
  {
    ProjectSucceeds(ps, resolve);
  }

  /** The pair a position of the walk belongs to. */
  lemma {:induction false} PairOf(ps: Members, k: nat) returns (i: nat, j: nat)
    requires k < KeyCount(ps)
    ensures i < |ps| && j < |Entries(ps[i].1)| && k == KeyCount(ps[..i]) + j
    ensures PathOps(ps)[k] == Op(ps[i].0, Entries(ps[i].1)[j].0, Entries(ps[i].1)[j].1)
    decreases |ps|
  {
    var n := |ps|;
    var init, last := ps[..n - 1], ps[n - 1];
    assert ps == init + [last];
    PathOpsLast(init, last);
    if k < KeyCount(init) {
      i, j := PairOf(init, k);
      assert init[..i] == ps[..i] && init[i] == ps[i];
    } else {
      i, j := n - 1, k - KeyCount(init);
      assert init == ps[..i];
    }
  }

  /** A failed projection reports the failure of the first pair, in
      path-major key order, that could not be described. */
  lemma ProjectFails(ps: Members, resolve: Resolver)
    requires Project(ps, resolve).Err?
    ensures exists i, j ::
      && 0 <= i < |ps| && 0 <= j < |Entries(ps[i].1)|
      && Describe(Op(ps[i].0, Entries(ps[i].1)[j].0, Entries(ps[i].1)[j].1), resolve) == Err(Project(ps, resolve).error)
      && KeyCount(ps[..i]) + j < KeyCount(ps)
      && forall l :: 0 <= l < KeyCount(ps[..i]) + j ==> Describe(PathOps(ps)[l], resolve).Ok?
  {
    var ops := PathOps(ps);
    TraverseFails(ops, resolve);
    var k :| 0 <= k < |ops| && Describe(ops[k], resolve) == Err(Project(ps, resolve).error)
      && forall l :: 0 <= l < k ==> Describe(ops[l], resolve).Ok?;
    var i, j := PairOf(ps, k);
  }

  /** With distinct path keys, descriptors share a url exactly when they
      come from the same path. */
  lemma UrlIdentifiesPath(ps: Members, resolve: Resolver, i1: nat, j1: nat, i2: nat, j2: nat)
    requires DistinctKeys(ps) && Project(ps, resolve).Ok?
    requires i1 < |ps| && j1 < |Entries(ps[i1].1)|
    requires i2 < |ps| && j2 < |Entries(ps[i2].1)|
    ensures KeyCount(ps[..i1]) + j1 < |Project(ps, resolve).value|
    ensures KeyCount(ps[..i2]) + j2 < |Project(ps, resolve).value|
    ensures (Project(ps, resolve).value[KeyCount(ps[..i1]) + j1].url
             == Project(ps, resolve).value[KeyCount(ps[..i2]) + j2].url) <==> i1 == i2
  {
    DescriptorAt(ps, resolve, i1, j1);
    DescriptorAt(ps, resolve, i2, j2);
    if i1 < i2 {
      assert ps[i1].0 != ps[i2].0;
    } else if i2 < i1 {
      assert ps[i2].0 != ps[i1].0;
    }
  }

  /** The descriptor depends on the key only through its upper-casing, so
      `get`, `Get` and `GET` are treated alike. */
  lemma KeyCaseInsensitive(url: string, key1: string, key2: string, operation: Json, resolve: Resolver)
    requires Upper(key1) == Upper(key2)
    ensures Describe(Op(url, key1, operation), resolve) == Describe(Op(url, key2, operation), resolve)
  {
  }
}
