/** The scheduled catalog sync: fetch the provider catalog, fetch the store's
    eSIM products once, then walk the catalog in order and post a new store
    product for every provider product the store list does not already hold.
    Existing products are never updated or deleted; the first failed request
    aborts the walk.

    Whether a store product holds a provider product is decided by a marker
    metafield. The code as written looks for the marker on the VARIANTS only,
    while the products it creates carry the marker at PRODUCT level.
    `Matcher` selects between that join (`VariantLevel`) and one that also
    reads product-level metafields (`AnyLevel`). */
module CatalogSync {
  import opened Search
  import opened Calls

  /** Key of the metafield that records the provider product id. */
  const MarkerKey := "maya_product_id"
  const SkuPrefix := "MAYA_ESIM_"

  const SyncCompleted := Sent(200, "Product sync completed.")
  const SyncFailed := Sent(500, "Product sync failed.")

  /** An entry of the provider catalog (`data.data`). */
  datatype ProviderProduct = ProviderProduct(id: string, name: string, description: string, retailPrice: string)

  /** A store metafield. */
  datatype Metafield = Metafield(key: string, namespace: string, value: string)

  /** A store product variant; `metafields` None is an absent field. */
  datatype Variant = Variant(metafields: Option<seq<Metafield>>)

  /** A store product as listed by the store: product-level metafields and variants. */
  datatype StoreProduct = StoreProduct(metafields: Option<seq<Metafield>>, variants: seq<Variant>)

  /** Which metafields the join reads. */
  datatype Matcher = VariantLevel | AnyLevel

  /** The progress of the create loop: the create requests issued so far and
      whether one of them failed (which stops the loop). */
  datatype Progress = Progress(creates: seq<Call>, failed: bool)

  predicate IsMarker(mf: Metafield, id: string)
  {
    mf.key == MarkerKey && mf.value == id
  }

  /** `metafields?.some(mf => mf.key === MarkerKey && mf.value === id)`:
      an absent collection marks nothing. */
  predicate Marks(metafields: Option<seq<Metafield>>, id: string)
  {
    metafields.Some? && Any(metafields.value, (mf: Metafield) => IsMarker(mf, id))
  }

  /** Whether store product `p` holds the provider product with id `id`. */
  predicate ProductMatches(kind: Matcher, p: StoreProduct, id: string): (b: bool)
    ensures b <==>
      || (exists v :: 0 <= v < |p.variants| && Marks(p.variants[v].metafields, id))
      || (kind == AnyLevel && Marks(p.metafields, id))
  {
    || Any(p.variants, (v: Variant) => Marks(v.metafields, id))
    || (kind == AnyLevel && Marks(p.metafields, id))
  }

  /** `shopifyProducts.find(p => ...)` returned a product. */
  predicate Listed(kind: Matcher, store: seq<StoreProduct>, id: string): (b: bool)
    ensures b <==> exists i :: 0 <= i < |store| && ProductMatches(kind, store[i], id)
    ensures store == [] ==> !b
  {
    FindIndex(store, (p: StoreProduct) => ProductMatches(kind, p, id)).Some?
  }

  /** The join as written, spelled out: some variant of some store product
      has a metafield with the marker key whose value is the provider id. */
  lemma VariantJoin(store: seq<StoreProduct>, id: string)
    ensures Listed(VariantLevel, store, id) <==>
      exists i, v, k ::
        && 0 <= i < |store| && 0 <= v < |store[i].variants|
        && store[i].variants[v].metafields.Some?
        && 0 <= k < |store[i].variants[v].metafields.value|
        && IsMarker(store[i].variants[v].metafields.value[k], id)
  {
    if Listed(VariantLevel, store, id) {
      var i :| 0 <= i < |store| && ProductMatches(VariantLevel, store[i], id);
      var v :| 0 <= v < |store[i].variants| && Marks(store[i].variants[v].metafields, id);
      var k :| 0 <= k < |store[i].variants[v].metafields.value| && IsMarker(store[i].variants[v].metafields.value[k], id);
    }
    if exists i, v, k ::
        && 0 <= i < |store| && 0 <= v < |store[i].variants|
        && store[i].variants[v].metafields.Some?
        && 0 <= k < |store[i].variants[v].metafields.value|
        && IsMarker(store[i].variants[v].metafields.value[k], id)
    {
      var i, v, k :|
        && 0 <= i < |store| && 0 <= v < |store[i].variants|
        && store[i].variants[v].metafields.Some?
        && 0 <= k < |store[i].variants[v].metafields.value|
        && IsMarker(store[i].variants[v].metafields.value[k], id);
      assert Marks(store[i].variants[v].metafields, id);
      assert ProductMatches(VariantLevel, store[i], id);
    }
  }

  /** The product the sync creates for provider product `m`. */
  function PayloadFor(m: ProviderProduct): (np: NewProduct)
    ensures |np.variants| == 1 && ProviderIdOfSku(np.variants[0].sku) == Some(m.id)
    ensures |np.metafields| == 1 && np.metafields[0].key == MarkerKey && np.metafields[0].value == m.id
  {
    assert (SkuPrefix + m.id)[..|SkuPrefix|] == SkuPrefix;
    assert (SkuPrefix + m.id)[|SkuPrefix|..] == m.id;
    NewProduct(
      m.name, m.description, "Maya Mobile", "eSIM", true,
      [NewVariant(SkuPrefix + m.id, m.retailPrice, None, false)],
      [NewMetafield(MarkerKey, "maya", m.id, "string")])
  }

  /** The provider id a generated SKU was built from. */
  function ProviderIdOfSku(sku: string): (id: Option<string>)
    ensures id.Some? <==> |SkuPrefix| <= |sku| && sku[..|SkuPrefix|] == SkuPrefix
    ensures id.Some? ==> SkuPrefix + id.value == sku
  {
    if |SkuPrefix| <= |sku| && sku[..|SkuPrefix|] == SkuPrefix then Some(sku[|SkuPrefix|..]) else None
  }

  /** The created product copies name, description and retail price, is an
      unshipped, untracked eSIM, and names the provider id both in its SKU
      (recoverable from it) and in a product-level marker metafield. */
  lemma PayloadDescribesProduct(m: ProviderProduct)
    ensures
      var np := PayloadFor(m);
      && np.title == m.name && np.bodyHtml == m.description
      && np.productType == "eSIM" && np.vendor == "Maya Mobile" && np.published
      && |np.variants| == 1
      && np.variants[0].price == m.retailPrice
      && np.variants[0].inventoryManagement == None
      && !np.variants[0].requiresShipping
      && ProviderIdOfSku(np.variants[0].sku) == Some(m.id)
      && np.metafields == [NewMetafield(MarkerKey, "maya", m.id, "string")]
  {
    assert (SkuPrefix + m.id)[..|SkuPrefix|] == SkuPrefix;
    assert (SkuPrefix + m.id)[|SkuPrefix|..] == m.id;
  }

  /** The membership test the loop applies: the store list fetched before
      the loop, which the loop never extends. */
  function HeldBy(kind: Matcher, store: seq<StoreProduct>): string -> bool
  {
    (id: string) => Listed(kind, store, id)
  }

  /** The provider products whose id `held` rejects, in catalog order. */
  function Missing(ms: seq<ProviderProduct>, held: string -> bool): (out: seq<ProviderProduct>)
    ensures |out| <= |ms|
    decreases |ms|
  {
    if |ms| == 0 then []
    else
      var last := ms[|ms| - 1];
      Missing(ms[..|ms| - 1], held) + (if held(last.id) then [] else [last])
  }

  /** The missing list holds exactly the catalog entries not held. */
  lemma {:induction false} MissingMembers(ms: seq<ProviderProduct>, held: string -> bool)
    ensures forall m :: m in Missing(ms, held) <==> m in ms && !held(m.id)
    decreases |ms|
  {
    if |ms| > 0 {
      var last := ms[|ms| - 1];
      MissingMembers(ms[..|ms| - 1], held);
      assert ms == ms[..|ms| - 1] + [last];
    }
  }

  /** The missing list keeps catalog order: the entries missing from a
      catalog split in two are those missing from the first part followed
      by those missing from the second. */
  lemma {:induction false} MissingConcat(a: seq<ProviderProduct>, b: seq<ProviderProduct>, held: string -> bool)
    ensures Missing(a + b, held) == Missing(a, held) + Missing(b, held)
    decreases |b|
  {
    if |b| == 0 {
      assert a + b == a;
    } else {
      var front := b[..|b| - 1];
      MissingConcat(a, front, held);
      assert (a + b)[..|a + b| - 1] == a + front;
      assert (a + b)[|a + b| - 1] == b[|b| - 1];
    }
  }

  /** The provider ids of a list of provider products, in order. */
  function Ids(ps: seq<ProviderProduct>): seq<string>
  {
    seq(|ps|, i requires 0 <= i < |ps| => ps[i].id)
  }

  lemma IdsConcat(a: seq<ProviderProduct>, b: seq<ProviderProduct>)
    ensures Ids(a + b) == Ids(a) + Ids(b)
  {
  }

  /** Dropping the last catalog entry drops its id from the catalog ids,
      and from the missing ids exactly when it is not held. */
  lemma MissingIdsSnoc(ms: seq<ProviderProduct>, held: string -> bool)
    requires |ms| > 0
    ensures Ids(ms) == Ids(ms[..|ms| - 1]) + [ms[|ms| - 1].id]
    ensures Ids(Missing(ms, held)) ==
      Ids(Missing(ms[..|ms| - 1], held)) + if held(ms[|ms| - 1].id) then [] else [ms[|ms| - 1].id]
  {
    var last := ms[|ms| - 1];
    var front := ms[..|ms| - 1];
    var added := if held(last.id) then [] else [last];
    assert ms == front + [last];
    IdsConcat(front, [last]);
    IdsConcat(Missing(front, held), added);
    assert Ids(added) == if held(last.id) then [] else [last.id];
  }

  /** An id that is not held is created once per catalog entry that has it,
      so two entries with the same id both yield a create request; a held
      id is never created. */
  lemma {:induction false} CreatesPerOccurrence(ms: seq<ProviderProduct>, held: string -> bool, id: string)
    ensures multiset(Ids(Missing(ms, held)))[id] == if held(id) then 0 else multiset(Ids(ms))[id]
    decreases |ms|
  {
    if |ms| > 0 {
      CreatesPerOccurrence(ms[..|ms| - 1], held, id);
      MissingIdsSnoc(ms, held);
    } else {
      assert Ids(ms) == [];
    }
  }

  /** The create requests for a list of provider products, in order. */
  function Creates(ps: seq<ProviderProduct>): seq<Call>
  {
    seq(|ps|, i requires 0 <= i < |ps| => CreateProduct(PayloadFor(ps[i])))
  }

  lemma CreatesAppend(ps: seq<ProviderProduct>, m: ProviderProduct)
    ensures Creates(ps + [m]) == Creates(ps) + [CreateProduct(PayloadFor(m))]
  {
  }

  /** Extending the catalog prefix by one entry extends the missing list by
      that entry exactly when it is not held. */
  lemma MissingSnoc(ms: seq<ProviderProduct>, held: string -> bool, n: nat)
    requires 0 < n <= |ms|
    ensures Missing(ms[..n], held) == Missing(ms[..n - 1], held) + (if held(ms[n - 1].id) then [] else [ms[n - 1]])
  {
    assert ms[..n][..n - 1] == ms[..n - 1];
  }

  /** The for-loop over the first `n` catalog entries. `createOk(k)` is the
      store's answer to the create request for catalog entry `k`. */
  function Loop(ms: seq<ProviderProduct>, held: string -> bool, createOk: nat -> bool, n: nat): (p: Progress)
    requires n <= |ms|
    ensures p.failed <==> exists k :: 0 <= k < n && !held(ms[k].id) && !createOk(k)
    ensures !p.failed ==> p.creates == Creates(Missing(ms[..n], held))
    ensures |p.creates| <= n
    ensures forall i :: 0 <= i < |p.creates| ==> p.creates[i].CreateProduct?
    decreases n
  {
    if n == 0 then Progress([], false)
    else
      var prev := Loop(ms, held, createOk, n - 1);
      MissingSnoc(ms, held, n);
      if prev.failed then prev
      else if held(ms[n - 1].id) then prev
      else
        CreatesAppend(Missing(ms[..n - 1], held), ms[n - 1]);
        Progress(prev.creates + [CreateProduct(PayloadFor(ms[n - 1]))], !createOk(n - 1))
  }

  /** The handler. `catalog` and `store` are the answers to the two list
      requests; `createOk` answers the create requests. */
  function Sync(kind: Matcher, catalog: Reply<seq<ProviderProduct>>, store: Reply<seq<StoreProduct>>, createOk: nat -> bool): (r: Run)
    ensures catalog.Failed? ==> r == Run(SyncFailed, [FetchProviderCatalog])
    ensures catalog.Ok? && store.Failed? ==> r == Run(SyncFailed, [FetchProviderCatalog, FetchStoreProducts])
    ensures r.response == SyncCompleted || r.response == SyncFailed
    // success exactly when every product that needed creating was created
    ensures r.response == SyncCompleted <==>
      && catalog.Ok? && store.Ok?
      && forall k :: 0 <= k < |catalog.data| && !Listed(kind, store.data, catalog.data[k].id) ==> createOk(k)
    ensures r.response == SyncCompleted ==>
      r.trace == [FetchProviderCatalog, FetchStoreProducts] + Creates(Missing(catalog.data, HeldBy(kind, store.data)))
    // after the two reads, only create requests: nothing is updated or deleted
    ensures |r.trace| >= 1 && r.trace[0] == FetchProviderCatalog
    ensures |r.trace| >= 2 ==> r.trace[1] == FetchStoreProducts
    ensures forall i :: 2 <= i < |r.trace| ==> r.trace[i].CreateProduct?
  {
    match catalog
    case Failed => Run(SyncFailed, [FetchProviderCatalog])
    case Ok(ms) =>
      match store
      case Failed => Run(SyncFailed, [FetchProviderCatalog, FetchStoreProducts])
      case Ok(ps) =>
        var p := Loop(ms, HeldBy(kind, ps), createOk, |ms|);
        assert ms[..|ms|] == ms;
        Run(if p.failed then SyncFailed else SyncCompleted, [FetchProviderCatalog, FetchStoreProducts] + p.creates)
  }

  /** The step that processes the first failing entry `f`: everything
      before it went through, so the loop has issued the creates missing up
      to `f` and now stops. */
  lemma FailingStep(ms: seq<ProviderProduct>, held: string -> bool, createOk: nat -> bool, f: nat)
    requires f < |ms|
    requires !held(ms[f].id) && !createOk(f)
    requires forall k :: 0 <= k < f && !held(ms[k].id) ==> createOk(k)
    ensures Loop(ms, held, createOk, f + 1) == Progress(Creates(Missing(ms[..f + 1], held)), true)
  {
    var prev := Loop(ms, held, createOk, f);
    assert prev.creates == Creates(Missing(ms[..f], held)) && !prev.failed;
    assert Creates(Missing(ms[..f + 1], held)) == prev.creates + [CreateProduct(PayloadFor(ms[f]))] by {
      MissingSnoc(ms, held, f + 1);
      CreatesAppend(Missing(ms[..f], held), ms[f]);
    }
  }

  /** The first failed create ends the loop: the requests issued are the
      creates up to and including the failed one, and nothing after it. */
  lemma {:induction false} FirstFailureStopsLoop(
    ms: seq<ProviderProduct>, held: string -> bool, createOk: nat -> bool, f: nat, n: nat)
    requires f < n <= |ms|
    requires !held(ms[f].id) && !createOk(f)
    requires forall k :: 0 <= k < f && !held(ms[k].id) ==> createOk(k)
    ensures Loop(ms, held, createOk, n) == Progress(Creates(Missing(ms[..f + 1], held)), true)
    decreases n
  {
    if n == f + 1 {
      FailingStep(ms, held, createOk, f);
    } else {
      FirstFailureStopsLoop(ms, held, createOk, f, n - 1);
    }
  }

  /** A failed create aborts the sync with 500; the creates issued before
      it, and the failed one itself, stay in the trace. */
  lemma FirstFailureAbortsSync(
    kind: Matcher, ms: seq<ProviderProduct>, store: seq<StoreProduct>, createOk: nat -> bool, f: nat)
    requires f < |ms|
    requires !Listed(kind, store, ms[f].id) && !createOk(f)
    requires forall k :: 0 <= k < f && !Listed(kind, store, ms[k].id) ==> createOk(k)
    ensures Sync(kind, Ok(ms), Ok(store), createOk) ==
      Run(SyncFailed, [FetchProviderCatalog, FetchStoreProducts] + Creates(Missing(ms[..f + 1], HeldBy(kind, store))))
  {
    FirstFailureStopsLoop(ms, HeldBy(kind, store), createOk, f, |ms|);
  }

  /** How the store lists a product created from `np`: the marker metafield
      at product level, the variants without metafields. */
  function StoredForm(np: NewProduct): StoreProduct
  {
    StoreProduct(
      Some(seq(|np.metafields|, i requires 0 <= i < |np.metafields| =>
        Metafield(np.metafields[i].key, np.metafields[i].namespace, np.metafields[i].value))),
      seq(|np.variants|, i => Variant(None)))
  }

  function StoredForms(ps: seq<ProviderProduct>): seq<StoreProduct>
  {
    seq(|ps|, i requires 0 <= i < |ps| => StoredForm(PayloadFor(ps[i])))
  }

  /** A created product is found again only by a join that reads
      product-level metafields. */
  lemma StoredFormMatches(m: ProviderProduct)
    ensures ProductMatches(AnyLevel, StoredForm(PayloadFor(m)), m.id)
    ensures !ProductMatches(VariantLevel, StoredForm(PayloadFor(m)), m.id)
  {
    var p := StoredForm(PayloadFor(m));
    assert IsMarker(p.metafields.value[0], m.id);
  }

  /** The variant-only join does not find a created product in a store
      list holding just that product. */
  lemma StoredFormNotListed(m: ProviderProduct)
    ensures !Listed(VariantLevel, [StoredForm(PayloadFor(m))], m.id)
    ensures Missing([m], HeldBy(VariantLevel, [StoredForm(PayloadFor(m))])) == [m]
  {
    var store := [StoredForm(PayloadFor(m))];
    StoredFormMatches(m);
    assert forall i :: 0 <= i < |store| ==> store[i] == store[0];
    assert [m][..0] == [];
  }

  /** As written, a product the sync created is not recognised by the next
      run, which posts it again. */
  lemma RerunCreatesAgain(m: ProviderProduct, createOk: nat -> bool)
    ensures Sync(VariantLevel, Ok([m]), Ok([StoredForm(PayloadFor(m))]), createOk).trace ==
      [FetchProviderCatalog, FetchStoreProducts, CreateProduct(PayloadFor(m))]
  {
    var store := [StoredForm(PayloadFor(m))];
    StoredFormNotListed(m);
    assert [m][..1] == [m];
    assert Creates([m]) == [CreateProduct(PayloadFor(m))];
    if !createOk(0) {
      FirstFailureAbortsSync(VariantLevel, [m], store, createOk, 0);
    }
  }

  /** A product listed in a store list stays listed when products are appended. */
  lemma ListedInExtension(kind: Matcher, store: seq<StoreProduct>, extra: seq<StoreProduct>, id: string)
    ensures Listed(kind, store, id) ==> Listed(kind, store + extra, id)
    ensures (exists j :: 0 <= j < |extra| && ProductMatches(kind, extra[j], id)) ==> Listed(kind, store + extra, id)
  {
    if Listed(kind, store, id) {
      var i :| 0 <= i < |store| && ProductMatches(kind, store[i], id);
      assert (store + extra)[i] == store[i];
    }
    if exists j :: 0 <= j < |extra| && ProductMatches(kind, extra[j], id) {
      var j :| 0 <= j < |extra| && ProductMatches(kind, extra[j], id);
      assert (store + extra)[|store| + j] == extra[j];
    }
  }

  /** A catalog whose every id is held has nothing missing. */
  lemma {:induction false} NothingMissing(ms: seq<ProviderProduct>, held: string -> bool)
    requires forall k :: 0 <= k < |ms| ==> held(ms[k].id)
    ensures Missing(ms, held) == []
    decreases |ms|
  {
    if |ms| > 0 {
      NothingMissing(ms[..|ms| - 1], held);
    }
  }

  /** A run against a store that already lists every catalog id posts
      nothing and succeeds, whatever the create answers would have been. */
  lemma FullyListedStoreCreatesNothing(
    kind: Matcher, ms: seq<ProviderProduct>, store: seq<StoreProduct>, createOk: nat -> bool)
    requires forall k :: 0 <= k < |ms| ==> Listed(kind, store, ms[k].id)
    ensures Sync(kind, Ok(ms), Ok(store), createOk) == Run(SyncCompleted, [FetchProviderCatalog, FetchStoreProducts])
  {
    NothingMissing(ms, HeldBy(kind, store));
    assert Creates([]) == [];
  }

  /** One provider product and an empty store: exactly one create request,
      whose SKU, price and marker name the provider product. */
  lemma SingleProductIntoEmptyStore(description: string, createOk: nat -> bool)
    requires createOk(0)
    ensures
      var p1 := ProviderProduct("P1", "5GB EU", description, "10.00");
      var r := Sync(VariantLevel, Ok([p1]), Ok([]), createOk);
      && r.response == SyncCompleted
      && |r.trace| == 3 && r.trace[2].CreateProduct?
      && r.trace[2].product.variants[0].sku == "MAYA_ESIM_P1"
      && r.trace[2].product.variants[0].price == "10.00"
      && r.trace[2].product.metafields == [NewMetafield("maya_product_id", "maya", "P1", "string")]
  {
    var p1 := ProviderProduct("P1", "5GB EU", description, "10.00");
    assert [p1][..0] == [];
    assert Missing([p1], HeldBy(VariantLevel, [])) == [p1];
  }

  /** A catalog entry the first run posted is listed once the store list is
      extended with the products that run created. */
  lemma PostedIsListed(missing: seq<ProviderProduct>, store: seq<StoreProduct>, m: ProviderProduct)
    requires m in missing
    ensures Listed(AnyLevel, store + StoredForms(missing), m.id)
  {
    var created := StoredForms(missing);
    var j :| 0 <= j < |missing| && missing[j] == m;
    StoredFormMatches(m);
    assert ProductMatches(AnyLevel, created[j], m.id);
    ListedInExtension(AnyLevel, store, created, m.id);
  }

  /** Every catalog entry is listed once the products the first run created
      are appended to the store list, when the join reads product-level
      metafields. */
  lemma CreatedAreListed(ms: seq<ProviderProduct>, store: seq<StoreProduct>)
    ensures forall k :: 0 <= k < |ms| ==>
      Listed(AnyLevel, store + StoredForms(Missing(ms, HeldBy(AnyLevel, store))), ms[k].id)
  {
    var missing := Missing(ms, HeldBy(AnyLevel, store));
    MissingMembers(ms, HeldBy(AnyLevel, store));
    forall k | 0 <= k < |ms|
      ensures Listed(AnyLevel, store + StoredForms(missing), ms[k].id)
    {
      if Listed(AnyLevel, store, ms[k].id) {
        ListedInExtension(AnyLevel, store, StoredForms(missing), ms[k].id);
      } else {
        PostedIsListed(missing, store, ms[k]);
      }
    }
  }

  /** With the join reading product-level metafields, a second run over the
      store extended with the products the first run created posts nothing
      and succeeds. */
  lemma CorrectedRerunCreatesNothing(ms: seq<ProviderProduct>, store: seq<StoreProduct>, createOk: nat -> bool)
    ensures
      var created := StoredForms(Missing(ms, HeldBy(AnyLevel, store)));
      Sync(AnyLevel, Ok(ms), Ok(store + created), createOk) == Run(SyncCompleted, [FetchProviderCatalog, FetchStoreProducts])
  {
    CreatedAreListed(ms, store);
    FullyListedStoreCreatesNothing(AnyLevel, ms, store + StoredForms(Missing(ms, HeldBy(AnyLevel, store))), createOk);
  }
}
