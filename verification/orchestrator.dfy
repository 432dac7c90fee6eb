/**
  The step dispatch of `run`: the steps block of the bootstrap document is
  looked up, the `create_product` step is run when it is declared, any
  exception from that block is logged and swallowed, and completion is
  always logged.
*/
module Orchestrator {
  import opened Wrappers
  import opened Python
  import opened ProductStep

  /** The log lines the dispatch block writes, in the source's order. */
  datatype LogLine =
    | RunningCreateProduct  // "Running step 'create_product'"
    | StepsFailed           // "Exception raised in bootstrapping steps ..."
    | Ended                 // "Bootstrapping ENDED"

  /** An exception caught by the dispatch block. */
  datatype DispatchError =
    | ContextNotMapping     // AttributeError: the bootstrap document has no `.get`
    | StepsNotMapping       // AttributeError: `steps` is absent or has no `.keys()`
    | InStep(e: StepError)  // raised by the create_product step

  datatype RunReport = RunReport(calls: seq<Call>, caught: Option<DispatchError>, log: seq<LogLine>)

  /** The bootstrap document declares a `create_product` step. */
  predicate DeclaresCreateProduct(doc: Value) {
    && doc.VDict?
    && GetOr(doc.entries, "steps", VNone).VDict?
    && HasKey(GetOr(doc.entries, "steps", VNone).entries, "create_product")
  }

  /** Lines 257-266 of `run`, on the decoded bootstrap document. */
  function Dispatch(doc: Value, listing: Listing, oracle: nat -> ItemOracle): (r: RunReport)
    // completion is always logged, once, as the last line
    ensures |r.log| > 0 && r.log[|r.log| - 1] == Ended
    ensures forall i :: 0 <= i < |r.log| - 1 ==> r.log[i] != Ended
    // an exception is logged, and only then
    ensures StepsFailed in r.log <==> r.caught.Some?
    // only a declared create_product step issues calls; its calls are the run's
    ensures !DeclaresCreateProduct(doc) ==> r.calls == [] && RunningCreateProduct !in r.log
    ensures DeclaresCreateProduct(doc) ==>
              && RunningCreateProduct in r.log
              && r.calls == CreateProductStep(doc.entries, listing, oracle).calls
              && (r.caught.Some? <==> CreateProductStep(doc.entries, listing, oracle).raised.Some?)
    ensures DeclaresCreateProduct(doc) && CreateProductStep(doc.entries, listing, oracle).raised.Some? ==>
              r.caught == Some(InStep(CreateProductStep(doc.entries, listing, oracle).raised.value))
    // a document that is not a mapping, or whose steps is absent or not a mapping: caught and logged
    ensures !(doc.VDict? && GetOr(doc.entries, "steps", VNone).VDict?) ==>
              r.calls == [] && r.caught.Some? && !r.caught.value.InStep? && r.log == [StepsFailed, Ended]
    // a steps mapping without create_product: nothing happens but completion
    ensures doc.VDict? && GetOr(doc.entries, "steps", VNone).VDict? && !DeclaresCreateProduct(doc) ==>
              r == RunReport([], None, [Ended])
  {
    match doc
    case VDict(ctx) =>
      (match GetOr(ctx, "steps", VNone)
       case VDict(steps) =>
         if HasKey(steps, "create_product") then
           var out := CreateProductStep(ctx, listing, oracle);
           match out.raised
           case None => RunReport(out.calls, None, [RunningCreateProduct, Ended])
           case Some(e) => RunReport(out.calls, Some(InStep(e)), [RunningCreateProduct, StepsFailed, Ended])
         else RunReport([], None, [Ended])
       case _ => RunReport([], Some(StepsNotMapping), [StepsFailed, Ended]))
    case _ => RunReport([], Some(ContextNotMapping), [StepsFailed, Ended])
  }

  /** A document without the literal "products" key: the step's KeyError is
      caught, no call is issued, and completion is still logged. */
  lemma MissingProductsSwallowed(doc: Value, listing: Listing, oracle: nat -> ItemOracle)
    requires DeclaresCreateProduct(doc) && !HasKey(doc.entries, "products")
    ensures Dispatch(doc, listing, oracle)
            == RunReport([], Some(InStep(MissingProductsKey)), [RunningCreateProduct, StepsFailed, Ended])
  {
  }

  /** A document without a "steps" key: the AttributeError is caught, no
      call is issued, and completion is still logged. */
  lemma MissingStepsSwallowed(doc: Value, listing: Listing, oracle: nat -> ItemOracle)
    requires doc.VDict? && !HasKey(doc.entries, "steps")
    ensures Dispatch(doc, listing, oracle) == RunReport([], Some(StepsNotMapping), [StepsFailed, Ended])
  {
  }

  /** The one declared product of the end-to-end run. */
  const P1: Value := VDict([Entry("name", VStr("P1"))])

  /** A bootstrap document declaring the create_product step over "products". */
  const ScenarioContext: seq<Entry> :=
    [Entry("steps", VDict([Entry("create_product", VDict([Entry("with_items", VStr("products"))]))])),
     Entry("products", VList([P1]))]

  lemma ScenarioPlan()
    ensures Prepare(ScenarioContext, Listed([])) == Ok(Plan(VBool(false), [], [P1]))
  {
    var ctx := ScenarioContext;
    assert "products" != "steps";
    assert HasKey(ctx, "products") by { assert ctx[1].key == "products"; }
    assert StepOptions(ctx) == Ok((VBool(false), VStr("products")));
    assert Get(ctx, "products") == Some(VList([P1]));
    assert ResolveItems(ctx, VStr("products")) == Ok(VList([P1]));
    assert ExistingNames(Listed([])).Ok? && |ExistingNames(Listed([])).value| == 0;
  }

  lemma ScenarioItem(o: ItemOracle, id: Value)
    requires o == ItemOracle(CreateReturned(201, VDict([Entry("id", id)])), false)
    ensures ProcessItem(P1, [], VBool(false), o)
            == ItemRun([CreateProduct(VStr("P1"), DefaultDescription, DefaultProdType),
                        AddProductMetadata(id, "account", DefaultAccount)], Added)
  {
    assert "name" != "description" && "name" != "prod_type" && "name" != "account";
    assert ItemFields(P1.entries) == Fields(VStr("P1"), DefaultDescription, DefaultProdType, DefaultAccount);
    assert !InList(VStr("P1"), []);
    assert ProductId(o.create.data) == Some(id);
  }

  /** The end-to-end run: one declared product, none existing, the create
      call answered 201 with an id. Exactly one create call, then the
      account metadata call, and completion. */
  lemma OneProductScenario(oracle: nat -> ItemOracle, id: Value)
    requires oracle(0) == ItemOracle(CreateReturned(201, VDict([Entry("id", id)])), false)
    ensures Dispatch(VDict(ScenarioContext), Listed([]), oracle)
            == RunReport([ListProducts,
                          CreateProduct(VStr("P1"), DefaultDescription, DefaultProdType),
                          AddProductMetadata(id, "account", DefaultAccount)],
                         None, [RunningCreateProduct, Ended])
  {
    ScenarioPlan();
    StepRuns(ScenarioContext, Listed([]), oracle);
    var runs := CreateProductStep(ScenarioContext, Listed([]), oracle).runs;
    assert runs == [ProcessItem(P1, [], VBool(false), oracle(0))];
    ScenarioItem(oracle(0), id);
    FlattenSingle(runs[0]);
    assert DeclaresCreateProduct(VDict(ScenarioContext)) by {
      assert Get(ScenarioContext, "steps").Some?;
      assert HasKey(GetOr(ScenarioContext, "steps", VNone).entries, "create_product") by {
        assert GetOr(ScenarioContext, "steps", VNone).entries[0].key == "create_product";
      }
    }
  }
}
