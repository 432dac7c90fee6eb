/**
  The `create_product` step: create-if-absent of every product declared in
  the bootstrap context, against a remote product inventory.

  The remote client is replaced by oracles. `Listing` is what `get_products`
  made of the product listing; `ItemOracle` is what the client answers to the
  create call and to the metadata call for one item, indexed by the item's
  position. The step's observable behaviour is the sequence of client calls
  it issues, what became of each item, and the exception (if any) that
  escapes it.
*/
module ProductStep {
  import opened Wrappers
  import opened Python

  /** Sentinel defaults for fields an item leaves out. */
  const DefaultName: Value := VStr("ENOPRODNAME")
  const DefaultDescription: Value := VStr("ENOPRODDESCR")
  const DefaultProdType: Value := VInt(1)
  const DefaultAccount: Value := VStr("none")
  /** Default of the step option naming the item collection. */
  const DefaultWithItems: Value := VStr("ENOITEMS")
  /** The response code after which the account metadata is attached. */
  const HttpCreated: int := 201

  /** A call issued on the remote client. */
  datatype Call =
    | ListProducts
    | CreateProduct(name: Value, description: Value, prodType: Value)
    | AddProductMetadata(productId: Value, key: string, value: Value)

  /** What `get_products` hands back: `None` because the listing call raised,
      an empty mapping because the call reported no success, or the product
      records found under `"objects"` (an absent `"objects"` is an empty list). */
  datatype Listing = ListRaised | ListUnsuccessful | Listed(objects: seq<Value>)

  /** The client's answer to one `create_product` call. */
  datatype CreateAnswer = CreateRaised | CreateReturned(responseCode: int, data: Value)

  /** The client's answers for one item: to the create call, and whether the
      metadata call raises. */
  datatype ItemOracle = ItemOracle(create: CreateAnswer, metadataRaises: bool)

  /** An exception that escapes the step, by the line that raises it. */
  datatype StepError =
    | MissingProductsKey       // KeyError: no "products" key in the context
    | StepOptionsNotMapping    // AttributeError: steps or steps.create_product is not a mapping
    | UnhashableWithItems      // TypeError: with_items is a list or a mapping
    | ListingUnavailable       // TypeError: iterating the None of a failed listing
    | ProductRecordNotMapping  // AttributeError: a listed product is not a mapping
    | ItemsNotIterable         // TypeError: the item collection cannot be iterated

  /** Why one item's block ended in its `except` branch. */
  datatype ItemFailure =
    | ItemNotMapping   // the item has no `.get`
    | NameExists       // KeyError for an existing name with allow_existing false
    | CreateFailed     // the create call raised
    | NoProductId      // the created product's data has no "id"
    | MetadataFailed   // the metadata call raised

  datatype ItemOutcome = Skipped | Added | Failed(why: ItemFailure)

  /** One item's block: the calls it issued and how it ended. */
  datatype ItemRun = ItemRun(calls: seq<Call>, outcome: ItemOutcome)

  /** The whole step: the calls it issued, one run per item visited, and the
      exception that escaped it, if any. */
  datatype StepOutcome = StepOutcome(calls: seq<Call>, runs: seq<ItemRun>, raised: Option<StepError>)

  /** The fields of an item, sentinel defaults filled in. */
  datatype Fields = Fields(name: Value, description: Value, prodType: Value, account: Value)

  function ItemFields(item: seq<Entry>): Fields {
    Fields(GetOr(item, "name", DefaultName),
           GetOr(item, "description", DefaultDescription),
           GetOr(item, "prod_type", DefaultProdType),
           GetOr(item, "account", DefaultAccount))
  }

  /** `product.data['id']`, or nothing when that subscript raises. */
  function ProductId(data: Value): Option<Value> {
    match data
    case VDict(es) => Get(es, "id")
    case _ => None
  }

  /** The create call an item whose name is new receives. */
  function CreateCallFor(item: seq<Entry>): Call {
    var f := ItemFields(item);
    CreateProduct(f.name, f.description, f.prodType)
  }

  /** An item is a mapping whose name is not among the existing names. */
  predicate IsNewItem(item: Value, current: seq<Value>) {
    item.VDict? && !InList(ItemFields(item.entries).name, current)
  }

  /** The body of the loop for one item, its `except` branch included. */
  function ProcessItem(item: Value, current: seq<Value>, allowExisting: Value, o: ItemOracle): (r: ItemRun)
    // no create call for a name already listed, and no call at all then
    ensures item.VDict? && InList(ItemFields(item.entries).name, current) ==>
              r.calls == [] && r.outcome == (if Truthy(allowExisting) then Skipped else Failed(NameExists))
    // a new name gets exactly one create call, first, with the defaults filled in
    ensures IsNewItem(item, current) <==> (|r.calls| > 0 && r.calls[0].CreateProduct?)
    ensures IsNewItem(item, current) ==> r.calls[0] == CreateCallFor(item.entries)
    // the metadata call follows if and only if the create call answered 201 with an id
    ensures (|r.calls| == 2) <==>
              (IsNewItem(item, current) && o.create.CreateReturned? && o.create.responseCode == HttpCreated
               && ProductId(o.create.data).Some?)
    ensures |r.calls| == 2 ==>
              r.calls[1] == AddProductMetadata(ProductId(o.create.data).value, "account",
                                                ItemFields(item.entries).account)
    ensures |r.calls| <= 2
    // a non-mapping item fails before any call
    ensures !item.VDict? ==> r == ItemRun([], Failed(ItemNotMapping))
    ensures r.outcome == Skipped ==> Truthy(allowExisting) && r.calls == []
  {
    if !item.VDict? then ItemRun([], Failed(ItemNotMapping))
    else
      var f := ItemFields(item.entries);
      if InList(f.name, current) then
        if Truthy(allowExisting) then ItemRun([], Skipped)
        else ItemRun([], Failed(NameExists))
      else
        var create := CreateProduct(f.name, f.description, f.prodType);
        match o.create
        case CreateRaised => ItemRun([create], Failed(CreateFailed))
        case CreateReturned(code, data) =>
          if code != HttpCreated then ItemRun([create], Added)
          else
            match ProductId(data)
            case None => ItemRun([create], Failed(NoProductId))
            case Some(id) =>
              var meta := AddProductMetadata(id, "account", f.account);
              if o.metadataRaises then ItemRun([create, meta], Failed(MetadataFailed))
              else ItemRun([create, meta], Added)
  }

  /** Every item visited, each run on its own oracle answers: the reference
      meaning of the loop. */
  function RunItems(items: seq<Value>, current: seq<Value>, allowExisting: Value,
                    oracle: nat -> ItemOracle): seq<ItemRun>
  {
    seq(|items|, k requires 0 <= k < |items| => ProcessItem(items[k], current, allowExisting, oracle(k)))
  }

  /** The calls of the runs, in run order. */
  function Flatten(runs: seq<ItemRun>): seq<Call> {
    if |runs| == 0 then [] else runs[0].calls + Flatten(runs[1..])
  }

  /** `allow_existing` and `with_items` from `context["steps"]["create_product"]`. */
  function StepOptions(ctx: seq<Entry>): Result<(Value, Value), StepError> {
    match GetOr(ctx, "steps", VNone)
    case VDict(steps) =>
      (match GetOr(steps, "create_product", VNone)
       case VDict(opts) =>
         Ok((GetOr(opts, "allow_existing", VBool(false)), GetOr(opts, "with_items", DefaultWithItems)))
       case _ => Err(StepOptionsNotMapping))
    case _ => Err(StepOptionsNotMapping)
  }

  /** `context.get(with_items)`: a list or mapping key is unhashable; any
      other non-string key matches none of the string keys. */
  function ResolveItems(ctx: seq<Entry>, withItems: Value): Result<Value, StepError> {
    match withItems
    case VStr(k) => Ok(GetOr(ctx, k, VNone))
    case VList(_) => Err(UnhashableWithItems)
    case VDict(_) => Err(UnhashableWithItems)
    case _ => Ok(VNone)
  }

  /** `[p.get("name") for p in get_products(client)]` */
  function ExistingNames(listing: Listing): Result<seq<Value>, StepError> {
    match listing
    case ListRaised => Err(ListingUnavailable)
    case ListUnsuccessful => Ok([])
    case Listed(objects) =>
      if forall k :: 0 <= k < |objects| ==> objects[k].VDict? then
        Ok(seq(|objects|, k requires 0 <= k < |objects| && objects[k].VDict? =>
                 GetOr(objects[k].entries, "name", VNone)))
      else Err(ProductRecordNotMapping)
  }

  /** What the lines before the loop settle: the `allow_existing` option,
      the existing names and the items the loop visits. */
  datatype Plan = Plan(allowExisting: Value, current: seq<Value>, items: seq<Value>)

  /** The lines before the loop, in evaluation order: the "products" check,
      the step options, the item collection, the listing, then `iter(items)`. */
  function Prepare(ctx: seq<Entry>, listing: Listing): Result<Plan, StepError> {
    if !HasKey(ctx, "products") then Err(MissingProductsKey)
    else
      match StepOptions(ctx)
      case Err(e) => Err(e)
      case Ok((allowExisting, withItems)) =>
        match ResolveItems(ctx, withItems)
        case Err(e) => Err(e)
        case Ok(items) =>
          match ExistingNames(listing)
          case Err(e) => Err(e)
          case Ok(current) =>
            match Iterate(items)
            case None => Err(ItemsNotIterable)
            case Some(visited) => Ok(Plan(allowExisting, current, visited))
  }

  /** The errors raised once the listing call has been issued. */
  predicate AfterListing(e: StepError) {
    e.ListingUnavailable? || e.ProductRecordNotMapping? || e.ItemsNotIterable?
  }

  /** `create_product(client, context)`. */
  function CreateProductStep(ctx: seq<Entry>, listing: Listing, oracle: nat -> ItemOracle): (r: StepOutcome)
    // without the literal "products" key: KeyError before any call
    ensures !HasKey(ctx, "products") ==> r == StepOutcome([], [], Some(MissingProductsKey))
    // with_items naming an absent key: the loop cannot start, after the listing call
    ensures (&& HasKey(ctx, "products") && StepOptions(ctx).Ok?
             && StepOptions(ctx).value.1.VStr? && !HasKey(ctx, StepOptions(ctx).value.1.s)
             && ExistingNames(listing).Ok?)
            ==> r == StepOutcome([ListProducts], [], Some(ItemsNotIterable))
    // a listing that raised leaves get_products with None, which cannot be iterated
    ensures (&& HasKey(ctx, "products") && StepOptions(ctx).Ok?
             && ResolveItems(ctx, StepOptions(ctx).value.1).Ok? && listing.ListRaised?)
            ==> r == StepOutcome([ListProducts], [], Some(ListingUnavailable))
    // the listing is the first call whenever a call is issued
    ensures |r.calls| > 0 ==> r.calls[0] == ListProducts
    // an escaping error leaves no item visited; otherwise every item is visited
    ensures r.raised.Some? ==> r.runs == [] && |r.calls| <= 1
    ensures r.raised.None? <==> Prepare(ctx, listing).Ok?
    ensures r.raised.None? ==> |r.runs| == |Prepare(ctx, listing).value.items|
  {
    match Prepare(ctx, listing)
    case Err(e) => StepOutcome(if AfterListing(e) then [ListProducts] else [], [], Some(e))
    case Ok(plan) =>
      var runs := RunItems(plan.items, plan.current, plan.allowExisting, oracle);
      StepOutcome([ListProducts] + Flatten(runs), runs, None)
  }

  /** The loop of lines 204-224, written as the source writes it: one item
      after the other, each block's calls appended to the trace. */
  method RunItemsLoop(items: seq<Value>, current: seq<Value>, allowExisting: Value,
                      oracle: nat -> ItemOracle) returns (calls: seq<Call>, runs: seq<ItemRun>)
    ensures runs == RunItems(items, current, allowExisting, oracle)
    ensures calls == Flatten(runs)
  {
    calls, runs := [], [];
    var i := 0;
    while i < |items|
      invariant 0 <= i <= |items|
      invariant runs == RunItems(items, current, allowExisting, oracle)[..i]
      invariant calls == Flatten(runs)
    {
      var run := ProcessItem(items[i], current, allowExisting, oracle(i));
      FlattenAppend(runs, [run]);
      FlattenSingle(run);
      calls := calls + run.calls;
      runs := runs + [run];
      i := i + 1;
    }
  }

  /** `create_product(client, context)` as the source runs it: the lines
      before the loop, then the loop item by item. */
  method CreateProductMethod(ctx: seq<Entry>, listing: Listing, oracle: nat -> ItemOracle)
    returns (out: StepOutcome)
    ensures out == CreateProductStep(ctx, listing, oracle)
  {
    match Prepare(ctx, listing)
    case Err(e) =>
      out := StepOutcome(if AfterListing(e) then [ListProducts] else [], [], Some(e));
    case Ok(plan) =>
      var calls, runs := RunItemsLoop(plan.items, plan.current, plan.allowExisting, oracle);
      out := StepOutcome([ListProducts] + calls, runs, None);
  }

  lemma FlattenSingle(run: ItemRun)
    ensures Flatten([run]) == run.calls
  {
    assert [run][1..] == [];
  }

  /** Flattening distributes over concatenation: item order is call order. */
  lemma {:induction false} FlattenAppend(a: seq<ItemRun>, b: seq<ItemRun>)
    ensures Flatten(a + b) == Flatten(a) + Flatten(b)
    decreases |a|
  {
    if |a| == 0 {
      assert a + b == b;
    } else {
      assert (a + b)[1..] == a[1..] + b;
      FlattenAppend(a[1..], b);
    }
  }

  /** A call is in the trace exactly when some item's block issued it. */
  lemma {:induction false} FlattenMembership(runs: seq<ItemRun>, c: Call)
    ensures c in Flatten(runs) <==> exists k :: 0 <= k < |runs| && c in runs[k].calls
    decreases |runs|
  {
    if |runs| > 0 {
      FlattenMembership(runs[1..], c);
      if c in Flatten(runs[1..]) {
        var k :| 0 <= k < |runs[1..]| && c in runs[1..][k].calls;
        assert runs[k + 1] == runs[1..][k];
      }
      if exists k :: 0 <= k < |runs| && c in runs[k].calls {
        var k :| 0 <= k < |runs| && c in runs[k].calls;
        if k > 0 {
          assert runs[1..][k - 1] == runs[k];
        }
      }
    }
  }

  /** When the lines before the loop succeed, the step is the listing call
      followed by the loop over the planned items. */
  lemma StepRuns(ctx: seq<Entry>, listing: Listing, oracle: nat -> ItemOracle)
    requires Prepare(ctx, listing).Ok?
    ensures var plan := Prepare(ctx, listing).value;
            var r := CreateProductStep(ctx, listing, oracle);
            && r.runs == RunItems(plan.items, plan.current, plan.allowExisting, oracle)
            && r.calls == [ListProducts] + Flatten(r.runs)
            && r.raised.None?
  {
  }

  /** Per-item isolation and order: whatever earlier items did, the block of
      item `k` runs on its own item and oracle answer, and its calls sit in
      the trace right after those of the items before it. */
  lemma {:induction false} ItemRunInTrace(ctx: seq<Entry>, listing: Listing, oracle: nat -> ItemOracle, k: nat)
    requires Prepare(ctx, listing).Ok?
    requires k < |Prepare(ctx, listing).value.items|
    ensures var plan := Prepare(ctx, listing).value;
            var r := CreateProductStep(ctx, listing, oracle);
            && |r.runs| == |plan.items|
            && r.runs[k] == ProcessItem(plan.items[k], plan.current, plan.allowExisting, oracle(k))
            && r.calls == [ListProducts] + Flatten(r.runs[..k]) + r.runs[k].calls + Flatten(r.runs[k + 1..])
  {
    var plan := Prepare(ctx, listing).value;
    StepRuns(ctx, listing, oracle);
    var r := CreateProductStep(ctx, listing, oracle);
    assert r.runs == RunItems(plan.items, plan.current, plan.allowExisting, oracle);
    assert |r.runs| == |plan.items|;
    assert r.runs[k] == ProcessItem(plan.items[k], plan.current, plan.allowExisting, oracle(k));
    FlattenSplit(r.runs, k);
    assert r.calls == [ListProducts] + Flatten(r.runs);
  }

  /** The calls of run `k` sit between those of the runs before and after it. */
  lemma {:induction false} FlattenSplit(runs: seq<ItemRun>, k: nat)
    requires k < |runs|
    ensures Flatten(runs) == Flatten(runs[..k]) + runs[k].calls + Flatten(runs[k + 1..])
  {
    var before, after := runs[..k], runs[k + 1..];
    assert runs == before + ([runs[k]] + after);
    FlattenAppend(before, [runs[k]] + after);
    FlattenAppend([runs[k]], after);
    FlattenSingle(runs[k]);
    calc {
      Flatten(runs);
      Flatten(before) + Flatten([runs[k]] + after);
      Flatten(before) + (runs[k].calls + Flatten(after));
    }
  }

  /** The run of item `k` does not depend on the other items nor on the
      client's answers for them. */
  lemma ItemIsolation(items: seq<Value>, items': seq<Value>, current: seq<Value>, allowExisting: Value,
                      oracle: nat -> ItemOracle, oracle': nat -> ItemOracle, k: nat)
    requires k < |items| && k < |items'|
    requires items[k] == items'[k] && oracle(k) == oracle'(k)
    ensures RunItems(items, current, allowExisting, oracle)[k] == RunItems(items', current, allowExisting, oracle')[k]
  {
  }

  /** No block of the loop issues a listing call. */
  lemma {:induction false} NoListingInLoop(runs: seq<ItemRun>, items: seq<Value>, current: seq<Value>,
                                           allowExisting: Value, oracle: nat -> ItemOracle)
    requires runs == RunItems(items, current, allowExisting, oracle)
    ensures ListProducts !in Flatten(runs)
  {
    FlattenMembership(runs, ListProducts);
    forall k | 0 <= k < |runs|
      ensures ListProducts !in runs[k].calls
    {
      assert runs[k] == ProcessItem(items[k], current, allowExisting, oracle(k));
    }
  }

  /** The existing names are fetched once: the listing call is the first
      call and never issued again. */
  lemma ListedOnce(ctx: seq<Entry>, listing: Listing, oracle: nat -> ItemOracle)
    ensures var r := CreateProductStep(ctx, listing, oracle);
            forall i :: 0 < i < |r.calls| ==> r.calls[i] != ListProducts
  {
    if Prepare(ctx, listing).Ok? {
      var plan := Prepare(ctx, listing).value;
      StepRuns(ctx, listing, oracle);
      var r := CreateProductStep(ctx, listing, oracle);
      NoListingInLoop(r.runs, plan.items, plan.current, plan.allowExisting, oracle);
      forall i | 0 < i < |r.calls|
        ensures r.calls[i] != ListProducts
      {
        assert r.calls[i] == Flatten(r.runs)[i - 1];
      }
    }
  }

  /** Every create call of the loop names an item whose name is not listed. */
  lemma {:induction false} LoopCreatesOnlyNew(runs: seq<ItemRun>, items: seq<Value>, current: seq<Value>,
                                              allowExisting: Value, oracle: nat -> ItemOracle, c: Call)
    requires runs == RunItems(items, current, allowExisting, oracle)
    requires c in Flatten(runs) && c.CreateProduct?
    ensures !InList(c.name, current)
  {
    FlattenMembership(runs, c);
    var k :| 0 <= k < |runs| && c in runs[k].calls;
    var run := runs[k];
    assert run == ProcessItem(items[k], current, allowExisting, oracle(k));
    var j :| 0 <= j < |run.calls| && run.calls[j] == c;
    assert j == 0;
  }

  /** No create call names a product in the existing list, which is never
      refreshed during the loop. */
  lemma NoCreateForExistingName(ctx: seq<Entry>, listing: Listing, oracle: nat -> ItemOracle)
    requires Prepare(ctx, listing).Ok?
    ensures var current := Prepare(ctx, listing).value.current;
            var r := CreateProductStep(ctx, listing, oracle);
            forall i :: 0 <= i < |r.calls| && r.calls[i].CreateProduct? ==> !InList(r.calls[i].name, current)
  {
    var plan := Prepare(ctx, listing).value;
    StepRuns(ctx, listing, oracle);
    var r := CreateProductStep(ctx, listing, oracle);
    forall i | 0 <= i < |r.calls| && r.calls[i].CreateProduct?
      ensures !InList(r.calls[i].name, plan.current)
    {
      assert r.calls[i] == Flatten(r.runs)[i - 1];
      LoopCreatesOnlyNew(r.runs, plan.items, plan.current, plan.allowExisting, oracle, r.calls[i]);
    }
  }

  /** Two new items with the same name both receive a create call: the
      names created earlier in the loop are not added to the existing list. */
  lemma SameNewNameCreatedTwice(items: seq<Value>, current: seq<Value>, allowExisting: Value,
                                 oracle: nat -> ItemOracle, j: nat, k: nat)
    requires j < k < |items|
    requires IsNewItem(items[j], current) && IsNewItem(items[k], current)
    requires ItemFields(items[j].entries).name == ItemFields(items[k].entries).name
    ensures var runs := RunItems(items, current, allowExisting, oracle);
            && |runs[j].calls| > 0 && |runs[k].calls| > 0
            && runs[j].calls[0].CreateProduct? && runs[k].calls[0].CreateProduct?
            && runs[j].calls[0].name == runs[k].calls[0].name
  {
    var runs := RunItems(items, current, allowExisting, oracle);
    assert runs[j] == ProcessItem(items[j], current, allowExisting, oracle(j));
    assert runs[k] == ProcessItem(items[k], current, allowExisting, oracle(k));
  }

  /** The number of create calls in a trace. */
  function CountCreates(calls: seq<Call>): nat {
    if |calls| == 0 then 0
    else (if calls[0].CreateProduct? then 1 else 0) + CountCreates(calls[1..])
  }

  /** The number of mapping items whose name is not in the existing list. */
  function CountNew(items: seq<Value>, current: seq<Value>): nat {
    if |items| == 0 then 0
    else (if IsNewItem(items[0], current) then 1 else 0) + CountNew(items[1..], current)
  }

  lemma {:induction false} CountCreatesAppend(a: seq<Call>, b: seq<Call>)
    ensures CountCreates(a + b) == CountCreates(a) + CountCreates(b)
    decreases |a|
  {
    if |a| == 0 {
      assert a + b == b;
    } else {
      assert (a + b)[1..] == a[1..] + b;
      CountCreatesAppend(a[1..], b);
    }
  }

  /** One item's block issues one create call if its item is new, none otherwise. */
  lemma ItemCreates(item: Value, current: seq<Value>, allowExisting: Value, o: ItemOracle)
    ensures CountCreates(ProcessItem(item, current, allowExisting, o).calls) == if IsNewItem(item, current) then 1 else 0
  {
    var calls := ProcessItem(item, current, allowExisting, o).calls;
    if |calls| == 2 {
      assert calls[1..][1..] == [];
      assert !calls[1].CreateProduct?;
      assert CountCreates(calls[1..]) == 0;
    } else if |calls| == 1 {
      assert calls[1..] == [];
    }
  }

  lemma {:induction false} LoopCreates(runs: seq<ItemRun>, items: seq<Value>, current: seq<Value>)
    requires |runs| == |items|
    requires forall k :: 0 <= k < |runs| ==>
               CountCreates(runs[k].calls) == if IsNewItem(items[k], current) then 1 else 0
    ensures CountCreates(Flatten(runs)) == CountNew(items, current)
    decreases |runs|
  {
    if |runs| > 0 {
      LoopCreates(runs[1..], items[1..], current);
      CountCreatesAppend(runs[0].calls, Flatten(runs[1..]));
    }
  }

  /** Exactly one create call per new item: the step creates each item whose
      name was not listed, and nothing else. */
  lemma CreatesMatchNewItems(ctx: seq<Entry>, listing: Listing, oracle: nat -> ItemOracle)
    requires Prepare(ctx, listing).Ok?
    ensures var plan := Prepare(ctx, listing).value;
            CountCreates(CreateProductStep(ctx, listing, oracle).calls) == CountNew(plan.items, plan.current)
  {
    var plan := Prepare(ctx, listing).value;
    StepRuns(ctx, listing, oracle);
    var r := CreateProductStep(ctx, listing, oracle);
    forall k | 0 <= k < |r.runs|
      ensures CountCreates(r.runs[k].calls) == if IsNewItem(plan.items[k], plan.current) then 1 else 0
    {
      ItemCreates(plan.items[k], plan.current, plan.allowExisting, oracle(k));
    }
    LoopCreates(r.runs, plan.items, plan.current);
    CountCreatesAppend([ListProducts], Flatten(r.runs));
  }
}
