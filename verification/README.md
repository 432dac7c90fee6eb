# DefectDojo bootstrap: a Dafny model of the provisioning core

The script `plugins/modules/monitoring/defectdojo.py` bootstraps a DefectDojo
server from a declarative YAML document. This project models its decision
logic and proves properties about it:

- `parse_bool` normalises the truthy and falsey spellings that a string-only
  configuration source produces.
- `create_product` is a create-if-absent over the declared products. The
  existing product names are listed once. Each item is then processed in its
  own `try` block: a listed name is skipped or rejected depending on
  `allow_existing`. A new name gets a create call. An account metadata call
  follows when the create call answers 201.
- The step dispatch of `run` runs `create_product` when the document
  declares it, logs and swallows any exception, and always logs completion.

The remote DefectDojo client is replaced by oracles. A `Listing` is what
`get_products` returned: `None`, an empty mapping, or the product records.
An `ItemOracle` gives, for the item at a given position, the answer to the
create call (it raises, or a response code and data) and whether the
metadata call raises. The observable behaviour of the step is a
`StepOutcome` with three parts:

- the client calls issued, in order;
- one `ItemRun` per visited item, holding its calls and how its block ended;
- the exception that escaped the step, if any.

The dispatch returns a `RunReport`: the calls, the caught exception and its
log lines.

Files:

- `wrappers.dfy`: `Option` and `Result`.
- `python.dfy`: decoded Python values with the semantics the script relies
  on: `dict.get`, `==` (where `True == 1`), `in` on a list, truthiness and
  iteration.
- `coercion.dfy`: `parse_bool`.
- `product_step.dfy`: `create_product`, the imperative loop and the
  properties of the step.
- `orchestrator.dfy`: the dispatch block of `run` and the end-to-end
  scenario.

Python's `==` is modelled by `Python.PyEq`. Numbers compare across `bool`
and `int`; strings, lists and dicts compare by content. `parse_bool` is
written as the source's chain of `==` tests. Its contract lists the
accepted spellings explicitly, so it states both that the integers 1 and 0
are accepted and that `"TRUE"` and `"yes"` are not.

Three behaviours of the code are worth stating plainly:

- A missing `products` or `steps` key does not stop the script.
  `create_product` raises a `KeyError` for a missing `products` key (lines
  196-197), but `run` catches every exception of the dispatch block (lines
  262-264) and still logs completion.
- The `ContextFrom` builders are commented out (lines 28-73), so the enum
  has no members.
- An item whose create call answers with a code other than 201 ends the
  same way as a success: "Added" is logged with no metadata call (lines
  217-221). The model records it as `Added`.

## Model

| member | source | states |
|---|---|---|
| `Coercion.ParseBool` | plugins/modules/monitoring/defectdojo.py:76-88 | The result is `True` exactly for `True`, `1`, `"1"`, `"True"`, `"true"`. It is `False` exactly for `False`, `0`, `"0"`, `"False"`, `"false"`. Every other value comes back unchanged. |
| `Coercion.ParseBoolIdempotent` | plugins/modules/monitoring/defectdojo.py:83-88 | The result is a boolean or the input itself, so applying `parse_bool` twice equals applying it once. |
| `Coercion.ParseBoolIsCaseSensitive` | plugins/modules/monitoring/defectdojo.py:83-88 | `"TRUE"`, `"yes"`, `2` and `None` are passed through unchanged. |
| `ProductStep.ProcessItem` | plugins/modules/monitoring/defectdojo.py:205-224 | A non-mapping item fails before any call. A listed name gets no call: it is `Skipped` when `allow_existing` is truthy, otherwise it fails with the caught `KeyError`. A new name gets exactly one create call, first, with `ENOPRODNAME`, `ENOPRODDESCR` and `1` filling missing fields. The metadata call `(id, "account", account)` follows, with `account` defaulting to `"none"`, if and only if the create call answered 201 with an id. |
| `ProductStep.CreateProductStep` | plugins/modules/monitoring/defectdojo.py:193-224 | Without the literal `"products"` key, a `KeyError` is raised before any call, whatever `with_items` names. When `with_items` names an absent key, or the listing raised, the step raises after exactly the one listing call. The listing is the first call whenever any call is issued. When nothing escapes, every planned item has a run. |
| `ProductStep.RunItemsLoop` | plugins/modules/monitoring/defectdojo.py:204-224 | The loop, item after item, produces exactly the runs of the reference `RunItems`, and the calls in item order. |
| `ProductStep.CreateProductMethod` | plugins/modules/monitoring/defectdojo.py:193-224 | The step run as the source runs it: the lines before the loop, then the item-by-item loop. Its outcome equals the reference `CreateProductStep` on every input. |
| `ProductStep.ItemRunInTrace` | plugins/modules/monitoring/defectdojo.py:204-224 | Item `k` is always attempted, on its own item and oracle answer, whatever earlier items did. Its calls sit in the trace after those of every earlier item and before those of every later item. |
| `ProductStep.ItemIsolation` | plugins/modules/monitoring/defectdojo.py:204-224 | The run of item `k` does not depend on the other items, nor on the client's answers for them. |
| `ProductStep.ListedOnce` | plugins/modules/monitoring/defectdojo.py:202-204 | The listing call is issued at most once, as the first call. The existing names are never refetched during the loop. |
| `ProductStep.NoCreateForExistingName` | plugins/modules/monitoring/defectdojo.py:202-216 | No create call names a product found in the listing. |
| `ProductStep.SameNewNameCreatedTwice` | plugins/modules/monitoring/defectdojo.py:202-216 | In the loop, two new items sharing a name both receive a create call for that name, because names created earlier are not added to the existing list. |
| `ProductStep.CreatesMatchNewItems` | plugins/modules/monitoring/defectdojo.py:204-216 | The trace holds exactly one create call per mapping item whose name was not listed, and no others. |
| `Orchestrator.Dispatch` | plugins/modules/monitoring/defectdojo.py:257-266 | Completion is logged exactly once, as the last line. An exception is logged if and only if one was caught. Only a declared `create_product` step issues calls, and then the run's calls are the step's, and the exception caught is the step's own. A document that is not a mapping, or whose `steps` is absent or not a mapping, issues no call; its error is caught and logged before completion. A `steps` mapping without `create_product` yields nothing but completion. |
| `Orchestrator.MissingProductsSwallowed` | plugins/modules/monitoring/defectdojo.py:257-266 | A declared step over a document without `"products"` issues no call. Its `KeyError` is caught and logged, and completion follows. |
| `Orchestrator.MissingStepsSwallowed` | plugins/modules/monitoring/defectdojo.py:257-266 | A document without `"steps"` issues no call. The resulting error is caught and logged, and completion follows. |
| `Orchestrator.OneProductScenario` | plugins/modules/monitoring/defectdojo.py:199-220 | One declared product `P1`, none existing, and a create call answering 201 with an id. The calls are exactly: the listing, one create call for `P1` with the description and type defaults, and the metadata call tagging it with account `"none"`. The run then logs completion. |

## Left out

- Context building: the `ContextFrom` builders are commented out (lines 28-73). `create_context` (lines 91-106) only calls the builder it is given. The bootstrap document is therefore a parameter of `Orchestrator.Dispatch`.
- Lines 231-255 of `run`, which build the two contexts, fetch the API key and create and test the client. Lines 233-242 and 253 call `create_context` on `ContextFrom.FROM_DOTENV` and `ContextFrom.FROM_YAML`, and `ContextFrom` has no members. So, as the code stands, line 234 raises `AttributeError`, lines 243-244 re-raise it, and `run` never reaches the dispatch block. `Orchestrator.Dispatch` models lines 257-266 on their own, as they would behave were a bootstrap document loaded.
- `get_api_key`, `create_client` and `test_client`: network I/O through libraries that are not part of this model.
- The JSON decoding in `get_products` (lines 161-175) is replaced by the `Listing` oracle. An absent `"objects"` key is an empty `Listed`. An `"objects"` value that is not a list is not modelled. `get_users` is unused by the script and left out.
- Every remote call is an oracle answer. The remote inventory may change between the listing and a create call; that race is not modelled.
- Logging configuration and environment reads (lines 13-21), tracebacks, the per-item log lines (replaced by each item's `ItemOutcome`), and the `print` of the API key (line 267).
- Floating-point values: in Python `1.0 == True` and `0.0` is falsy. The model has no floats. Values of other types are `VOther`, compared by identity, always truthy and never iterable. This does not cover YAML sets and binary values, which decode to an iterable Python set or bytes that are falsy when empty. If `with_items` names such a value, Python visits its elements, and each one fails inside its own `try` block. The model raises `ItemsNotIterable` out of the step instead.
- Dict keys other than strings, and user-defined objects with their own `__eq__`, `__bool__` or `get`. A dict is an association list and is assumed to hold each key once.
- A create response whose `response_code` is not an integer.
