# Stock allocation: a Dafny model

This project models the allocation domain of a small "architecture patterns" service. The Dafny modules are:

- **Model** (`model.dfy`, from `model.py`):
  - order lines are values;
  - batches are entities with a reference, a sku, an optional eta and a purchased quantity, and they hold a set of allocated order lines;
  - the domain service `allocate` sorts the batches by preference (undated stock first, then earliest eta) and gives the line to the first batch that can take it.
- **Services** (`services.dfy`, from `services.py`): the first service layer. It works over a repository of batches and a session that commits.
  - The repository is the in-memory one its tests use, a set of batches hashed by reference.
  - The session only records that it was committed.
- **ServiceLayer** (`service_layer.dfy`, from `src/allocation/service_layer/services.py`): the later service layer. Every service runs inside a unit of work. Batches are grouped into one product per sku.
  - The unit of work is the in-memory one its tests use. It holds a repository of products keyed by sku and a `committed` flag, and its rollback does nothing.
  - This layer adds `change_batch_quantity`, which deallocates lines until the batch is no longer short.
- **UnitOfWork** (`unit_of_work.dfy`, from `unit_of_work.py`): the unit of work over a database session.
  - The database is reduced to its batch rows. Each session has its own *pending* rows and shares the factory's *durable* rows.
  - Commit makes the pending rows durable, and rollback resets the pending rows to the durable ones.
  - Entering the scope opens a fresh session and binds a repository to it. Leaving always rolls back and closes: the scope's session ends closed, holding only the durable rows, so uncommitted work never becomes durable.
- **Wrappers** and **Lexicographic**: support modules.
  - Wrappers holds `Option`, plus `Result`/`Outcome` standing in for raised exceptions.
  - Lexicographic holds a total order on strings.

Some conventions cover the whole project:

- The exceptions of the domain and the service layers are `Error` values returned instead of a result: `OutOfStock`, `UnallocatedSKU`, `InvalidSKU`, a failed lookup of a batch by reference, and popping from an empty set. Every service states both its failure paths and its success path. A failed database query in `UnitOfWork` is an `Option` instead (see "## Left out").
- `eta` is a day number, `Option<int>`.
- Quantities are unbounded integers, as in Python. Negative quantities are not excluded, because the source does not exclude them.

How Python's built-ins are modelled:

- **`sum(...)` over a set.** `SumQty` adds the lines in a fixed order: greatest first under `LineLe`, which orders by quantity, then order id, then sku. The sum does not depend on that order (`SumQtyRemove`).
- **`sorted(batches)`.** Python's `a < b` on two batches falls back to the reflected `b.__gt__(a)`. The sort is stable.
  - `SortByPreference` is the stable insertion sort by that comparison.
  - `FirstFit` is the `next(...)` over the sorted list.
  - `BestFit` is an independent definition on the unsorted list: the allocatable batch that nothing earlier beats.
  - `FirstFitOfSortedIsBestFit` proves that the two selections agree.

## Model

| member | source | states |
|---|---|---|
| Model.MessageIdentifiesSkuFailure | model.py:130-152 | the out-of-stock, unallocated-sku and invalid-sku messages name the sku: equal messages mean the same exception with the same sku |
| Model.Message | model.py:152 | the text each raised exception carries, as built at model.py:78, model.py:152 and services.py:25: the out-of-stock, unallocated-sku and invalid-sku messages end with the sku, the not-found message with the reference |
| Model.SumQtyRemove | model.py:81-92 | the allocated quantity is the sum over the set whatever line is taken first: it is any member's quantity plus the sum of the rest |
| Model.SumQtyAdd | model.py:81-92 | adding a line not yet held raises the allocated quantity by exactly that line's quantity |
| Model.SumQty | model.py:91 | the sum over no lines is 0 |
| Model.SumQtyBounds | model.py:81-92 | when no line has a negative quantity, the sum is not negative and is at least each line's quantity |
| Model.MaxLine | src/allocation/service_layer/services.py:61 | the line `deallocate_one` gives up is held by the batch and is the greatest held line, so the choice is deterministic |
| Model.Batch.constructor | model.py:52-57 | a new batch keeps its reference, sku, eta and purchased quantity, and starts with no allocations |
| Model.Batch.AllocatedQty | model.py:81-92 | no allocations means nothing allocated; when no held line is negative, the allocated quantity is not negative and covers each held line |
| Model.Batch.AvailableQty | model.py:94-97 | a batch with no allocations has its whole purchased quantity available; when no held line is negative, never more than that |
| Model.Batch.CanAllocate | model.py:99-100 | true exactly when the line's sku is the batch's and the available quantity minus the line's quantity is not negative |
| Model.Batch.HasBeenAllocated | model.py:102-103 | true exactly when the batch holds the line; then the allocated quantity is that line's quantity plus the rest |
| Model.Batch.Allocate | model.py:59-73 | the line is added exactly when `can_allocate` held (sku matches and available >= qty), and otherwise nothing changes; a line already held changes nothing; the available quantity drops by the line's quantity only for a newly added line; allocation never takes the available quantity below zero |
| Model.Batch.Deallocate | model.py:75-79 | a held line `(orderid, sku, qty)` is removed, alone, and the available quantity grows by qty; an absent line fails with `UnallocatedSKU` naming the sku and changes nothing |
| Model.Batch.ChangePurchasedQuantity | src/allocation/service_layer/services.py:59 | the purchased quantity becomes the new one, allocations stay, and the available quantity moves by the difference |
| Model.Batch.DeallocateOne | src/allocation/service_layer/services.py:61 | an empty batch fails as popping from an empty set; otherwise exactly the greatest line is removed and returned, and the available quantity grows by its quantity |
| Model.AllocateTwice | model.py:59-73 | per batch: allocating a line twice to one batch leaves the state the first call left, so the line is added at most once |
| Model.AllocateTwiceOverTwoBatches | model.py:138-152 | the allocator is not idempotent across batches: the same line allocated twice over an in-stock batch of 15 and a shipment of 100 goes first to the in-stock batch, then to the shipment, and ends up held by both |
| Model.AllocateThenDeallocate | test_services.py:63-70 | allocating a line the batch can take, then deallocating it, succeeds and restores both the allocations and the available quantity |
| Model.Batch.Equals | model.py:108-120 | a batch equals only a batch with the same hash key, which is its reference (`HashKey`, `__hash__`), and every batch equals itself |
| Model.Batch.Gt | model.py:122-127 | `self > other` only when `self` has an eta that is strictly later than `other`'s, if `other` has one; every dated batch is greater than an undated one |
| Model.Before | model.py:122-127 | `a < b` on batches, the reflected `b.__gt__(a)`, holds exactly when `a` arrives no later than `b` and `b` not no later than `a` |
| Model.EqualityIsByReference | model.py:108-120 | two batches are equal exactly when their references are, whatever their sku, quantity or eta; equality is symmetric and equal batches hash alike |
| Model.BeforeIsStrictWeakOrder | model.py:122-127 | `a < b` (the reflected `b.__gt__(a)`) is irreflexive and transitive, its negation is "no later eta" and is transitive: a strict weak order with undated batches first |
| Model.Insert | model.py:146 | inserting into the sorted list is a permutation of the list plus the new batch |
| Model.InsertKeepsOrder | model.py:146 | insertion after every batch not later than the new one keeps the list sorted by preference |
| Model.SortByPreference | model.py:146 | `sorted(batches)` is a permutation of its input and is ordered by preference |
| Model.FirstFit | model.py:145-148 | the `next(...)` returns a listed batch that can take the line, and returns nothing exactly when no listed batch can take it |
| Model.BestFit | model.py:145-148 | the batch picked, when there is one, is listed and can take the line; `BestFitIsMostPreferred` states which one |
| Model.BestFitIsMostPreferred | model.py:145-148 | the chosen batch can take the line, no allocatable batch has an earlier eta or is in stock when it is not, and every allocatable batch listed before it is strictly later; there is none exactly when no batch can take the line |
| Model.FirstFitInsert | model.py:145-148 | the first fit of a sorted list with one batch inserted is the new batch when it can take the line and nothing before its place can, else the old first fit |
| Model.FirstFitOfSortedIsBestFit | model.py:145-148 | the first allocatable batch of the stably sorted list is the most preferred allocatable batch, ties going to the earlier listed |
| Model.Allocate | model.py:138-152 | with a non-empty list: when no batch can take the line, `OutOfStock` naming the sku and no batch changes; otherwise the most preferred allocatable batch gains the line, its reference is returned, and no other batch changes |
| Services.FakeRepository.constructor | test_services.py:11-12 | the repository holds one batch per reference among the given batches, the first one listed with that reference |
| Services.FirstWithRefAdd | test_services.py:11-12 | adding the batches one at a time, a map that keeps the first batch of each reference still does so after one more batch |
| Services.FakeRepository.Add | test_services.py:14-15 | adding a batch whose reference is held keeps the held batch; otherwise it is filed under its reference |
| Services.FakeRepository.Get | test_services.py:17-18 | the batch with that reference, or a not-found failure when no held batch has it |
| Services.FakeRepository.List | test_services.py:20-21 | every held batch exactly once |
| Services.FakeSession.constructor | test_services.py:24-25 | a new session is not committed |
| Services.FakeSession.Commit | test_services.py:27-28 | after commit the session is committed |
| Services.IsValidSku | services.py:11-16 | true exactly when some listed batch has the line's sku, which makes the list non-empty |
| Services.Allocate | services.py:18-28 | `InvalidSKU` exactly when no batch has the sku, before any batch changes and without commit; `OutOfStock` exactly when some batch has the sku but none can take the line, also without change or commit; no other failure; otherwise committed, and exactly one batch (the ghost `chosen`), one that could take the line and is no later than any other that could, gains it and has its reference returned |
| Services.AddBatch | services.py:30-32 | the batch is in the repository unless one with its reference already was, and the session is committed |
| Services.Deallocate | services.py:34-37 | an unknown reference fails without commit; a held line is removed from that batch and the session commits; an absent line fails with `UnallocatedSKU` without commit; other batches are untouched |
| ServiceLayer.Product.constructor | src/allocation/service_layer/services.py:22 | a new product has the given sku and batches |
| ServiceLayer.Product.Allocate | src/allocation/service_layer/services.py:36 | the domain allocator over the product's batches, with the same outcome |
| ServiceLayer.FakeUnitOfWork.constructor | tests/unit/test_services.py:27-29 | a new unit of work has no products and is not committed |
| ServiceLayer.FakeUnitOfWork.Enter | unit_of_work.py:15-16 | entering returns the unit of work itself |
| ServiceLayer.FakeUnitOfWork.Exit | unit_of_work.py:18-19 | leaving rolls back and returns nothing true, so an exception raised in the scope is not suppressed |
| ServiceLayer.FakeUnitOfWork.Rollback | tests/unit/test_services.py:34-35 | the in-memory rollback leaves the products and the committed flag as they were |
| ServiceLayer.FakeUnitOfWork.Commit | tests/unit/test_services.py:31-32 | after commit the unit of work is committed |
| ServiceLayer.FakeUnitOfWork.GetProduct | tests/unit/test_services.py:17-20 | the product of that sku, or `None` exactly when no product has it |
| ServiceLayer.FakeUnitOfWork.AddProduct | tests/unit/test_services.py:14-15 | a product for a sku already present is not added; otherwise it is filed under its sku |
| ServiceLayer.FakeUnitOfWork.GetBatch | src/allocation/service_layer/services.py:43 | a batch of some product with that reference, or a not-found failure exactly when no product holds one |
| ServiceLayer.IsValidSku | src/allocation/service_layer/services.py:10-15 | true exactly when some listed batch has the sku |
| ServiceLayer.AddBatch | src/allocation/service_layer/services.py:17-25 | a product is created only when the sku has none; the new batch is appended last to that product's batches, existing batches are kept in order, other products are unchanged, and the unit of work commits |
| ServiceLayer.Allocate | src/allocation/service_layer/services.py:27-38 | no product for the sku: `InvalidSKU` with no commit and no change; otherwise the product's allocator's outcome, and commit only when it returned a reference |
| ServiceLayer.Deallocate | src/allocation/service_layer/services.py:41-45 | an unknown reference fails without commit; otherwise the batch with that reference (the ghost `changed`) loses the line and the unit of work commits, or `UnallocatedSKU` propagates without commit; no other batch changes |
| ServiceLayer.Shed | src/allocation/service_layer/services.py:60-61 | what the loop keeps is a subset of the allocations that fits the new quantity; it runs out of lines only when the new quantity is negative |
| ServiceLayer.ShedFailsExactlyWhenNegative | src/allocation/service_layer/services.py:60-61 | the deallocation loop can only run out of lines when the new quantity is negative, and when no line is negative a negative quantity always makes it run out |
| ServiceLayer.ShedKeepsSmallestThatFit | src/allocation/service_layer/services.py:60-61 | what the loop keeps is a subset of the allocations that fits the new quantity, and every line given up is no smaller than every line kept |
| ServiceLayer.ShedStopsAsSoonAsItFits | src/allocation/service_layer/services.py:60-61 | the loop gives up no more than needed: putting back the smallest line it gave up would leave the batch short again |
| ServiceLayer.ShedUntilFits | src/allocation/service_layer/services.py:60-61 | the loop ends with what `Shed` keeps and a non-negative available quantity, or with the empty-set failure and no allocations left |
| ServiceLayer.ChangeQuantityOf | src/allocation/service_layer/services.py:59-62 | the batch gets the new purchased quantity and keeps what `Shed` keeps; the unit of work commits only when the batch then fits, and otherwise the batch is left with no lines and the empty-set failure |
| ServiceLayer.ChangeBatchQuantity | src/allocation/service_layer/services.py:56-62 | an unknown reference fails without change or commit; otherwise that batch (the ghost `changed`) gets the new purchased quantity and loses lines greatest first until it is not short; it commits with available >= 0, or fails when it runs out of lines; no other batch changes |
| UnitOfWork.Database.NewSession | unit_of_work.py:36 | the session factory gives a fresh open session that sees exactly the durable rows |
| UnitOfWork.Session.constructor | unit_of_work.py:36 | a new session is open and starts from the durable rows |
| UnitOfWork.Session.Insert | tests/integration/test_uow.py:9-14 | an insert is seen by this session only: its pending rows gain the row, the durable rows do not |
| UnitOfWork.Session.Commit | unit_of_work.py:45-46 | commit makes the session's pending rows the durable rows |
| UnitOfWork.Session.Rollback | unit_of_work.py:48-49 | rollback discards pending work: the session sees the durable rows again |
| UnitOfWork.Session.Close | unit_of_work.py:43 | a closed session is no longer open |
| UnitOfWork.SessionRepository.constructor | unit_of_work.py:37 | the repository is bound to the given session |
| UnitOfWork.SessionRepository.Add | repository.py:19-22 | adding places the row in the session's pending work |
| UnitOfWork.SessionRepository.Get | repository.py:24-26 | the row with that reference as the session sees it, or `None` exactly when there is none |
| UnitOfWork.SqlAlchemyUnitOfWork.constructor | unit_of_work.py:32-33 | the unit of work keeps its session factory and has no session yet |
| UnitOfWork.SqlAlchemyUnitOfWork.Enter | unit_of_work.py:35-38 | entering opens a fresh session from the factory, binds a fresh repository to that same session, and returns the unit of work itself |
| UnitOfWork.SqlAlchemyUnitOfWork.Exit | unit_of_work.py:40-43 | leaving always rolls back, so the session sees only durable rows, then closes the session, and returns nothing true, so an exception raised in the scope is not suppressed |
| UnitOfWork.SqlAlchemyUnitOfWork.Commit | unit_of_work.py:45-46 | commit makes the session's pending work durable |
| UnitOfWork.SqlAlchemyUnitOfWork.Rollback | unit_of_work.py:48-49 | rollback resets the session to the durable rows |
| UnitOfWork.RollsBackUncommittedWork | tests/integration/test_uow.py:43-49 | work done in the scope without commit is rolled back: the scope's session ends closed with only the durable rows, and a fresh session afterwards sees the rows durable before |
| UnitOfWork.RollsBackOnError | tests/integration/test_uow.py:51-62 | the scope's work is rolled back (its session ends closed with only the durable rows, and a fresh session sees the rows durable before), and the exception raised in the scope propagates, because `Exit` does not suppress it |
| UnitOfWork.CommittedWorkSurvives | tests/integration/test_uow.py:28-41 | a committed batch is found through the unit of work's repository, and work committed in the scope survives the rollback on exit |

## Left out

- `reallocate` (src/allocation/service_layer/services.py:47-54) is not modelled. It calls `batch.deallocate(line)` and `allocate(line)` with argument counts that match no definition.
- The SQLAlchemy table definitions and mappers, the SQL inside `SQLAlchemyRepository`, the Flask entry points and the test fixtures are not modelled. In `UnitOfWork`, the database is reduced to a map of batch rows keyed by reference, so an insert with an existing reference replaces the row.
- `DEFAULT_SESSION_FACTORY`, built from configuration when the module is imported, and the `print` in `__exit__` are left out. Both are process-wide input and output. The session factory is a parameter.
- Transaction isolation and concurrent sessions are not modelled. Sessions run one after another.
- `Model.Batch.ChangePurchasedQuantity`, `Model.Batch.DeallocateOne` and `ServiceLayer.Product`: `Product`, `change_purchased_quantity` and `deallocate_one` are defined in `allocation.domain.model`, which the `src` services import. That module is not followed in this model.
  - `Product` is modelled as a sku with a list of batches, and its `allocate` is the domain allocator over those batches.
  - `deallocate_one` is modelled as popping one line from the batch's set of allocations. The model fixes the choice as the greatest line under `LineLe`, that is, a largest quantity first.
- `services.py:26` calls `domain_allocate(line, batches)` and `services.py:36` calls `batch.deallocate(line)`, but the definitions take the line's fields. The model passes the fields.
- The in-memory unit of work has no `batches` attribute, yet `deallocate` and `change_batch_quantity` call `uow.batches.get(ref)`. `ServiceLayer.FakeUnitOfWork.GetBatch` looks the reference up among the batches of every product.
  - A failed lookup is the `BatchNotFound` error. Its message is the model's own.
  - Where `Services.FakeRepository.Get` fails, Python's `next` raises `StopIteration`; the model returns the same `BatchNotFound` error.
- `ServiceLayer.FakeUnitOfWork.Exit` and `ServiceLayer.FakeUnitOfWork.Rollback` do nothing, as the in-memory rollback does. Changes made before a failure in the `src` services therefore stay made, and the contracts say so.
- `Services.Allocate`: `repo.list()` returns the batches in an unspecified order, and the stable sort breaks eta ties by that order. The contract therefore states that the chosen batch is no later than every other batch that could take the line, not which one of the tied batches is chosen.
- `ServiceLayer.ShedKeepsSmallestThatFit` and `ServiceLayer.ShedStopsAsSoonAsItFits` describe the loop's result as "smallest lines kept, stopped as soon as it fits" rather than as the only set with that property. With negative line quantities allowed, the loop's greedy choice is not minimal in general.
- `UnitOfWork.SqlAlchemyUnitOfWork.Exit`, `UnitOfWork.SqlAlchemyUnitOfWork.Commit` and `UnitOfWork.SqlAlchemyUnitOfWork.Rollback` require that the scope has been entered. Python would raise `AttributeError` on the missing session instead.
- `UnitOfWork.SessionRepository` stores rows, not `Batch` objects. Allocating through a batch loaded from the database is not modelled, because the object-relational mapping is left out.
- `UnitOfWork.SessionRepository.Get`: `.one()` raises `NoResultFound` when no row has the reference. The model returns `None` instead and does not model the exception.
- `Model.Allocate` does not make allocation exactly-once. It never checks whether some batch already holds the line, so allocating the same line again can give it to a second batch (`Model.AllocateTwiceOverTwoBatches`), or fail with `OutOfStock` when no other batch can take it. Only `Model.Batch.Allocate` is idempotent, per batch. The model follows the code and does not add the missing check.
