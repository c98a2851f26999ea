/** The later service layer: every service runs inside a unit of work, and
    batches are grouped into one product per sku. The unit of work is the
    in-memory one its tests use: a repository of products keyed by sku, a
    flag recording the commit, and a rollback that does nothing. */
module ServiceLayer {
  import opened Wrappers
  import opened Model
  import Lexicographic

  /** All the batches of one sku. */
  class Product {
    const sku: string
    var batches: seq<Batch>

    constructor (sku: string, batches: seq<Batch>)
      ensures this.sku == sku && this.batches == batches
    {
      this.sku := sku;
      this.batches := batches;
    }

    /** The domain allocator over this product's batches. */
    method Allocate(orderid: string, sku: string, qty: int) returns (r: Result<string, Error>)
      requires |batches| > 0
      modifies batches
      ensures var line := OrderLine(orderid, sku, qty);
              match old(BestFit(batches, line))
              case None =>
                r == Err(OutOfStock(sku))
                && forall b :: b in batches ==> b.allocations == old(b.allocations)
              case Some(c) =>
                c in batches && r == Ok(c.ref)
                && c.allocations == old(c.allocations) + {line}
                && forall b :: b in batches && b != c ==> b.allocations == old(b.allocations)
      ensures forall b :: b in batches ==> b.purchasedQty == old(b.purchasedQty)
    {
      r := Model.Allocate(orderid, sku, qty, batches);
    }
  }

  class FakeUnitOfWork {
    /** The product repository: sku to product. Adding a product for a sku
        that already has one keeps the one that was there. */
    var products: map<string, Product>
    var committed: bool

    /** What `add_batch` keeps true: each product is filed under its own sku,
        holds at least one batch, and holds only batches of its sku. */
    ghost predicate Valid()
      reads this`products, products.Values
    {
      forall sku :: sku in products ==>
        products[sku].sku == sku
        && |products[sku].batches| > 0
        && forall b :: b in products[sku].batches ==> b.sku == sku
    }

    /** Every batch of every product. */
    ghost function Batches(): set<Batch>
      reads this`products, products.Values
    {
      set sku, b | sku in products && b in products[sku].batches :: b
    }

    constructor ()
      ensures products == map[] && !committed && Valid()
    {
      products := map[];
      committed := false;
    }

    /** `__enter__` returns the unit of work itself. */
    function Enter(): (u: FakeUnitOfWork)
      ensures u == this
    {
      this
    }

    /** `__exit__` rolls back, which this unit of work does by doing nothing:
        changes made to the objects it holds stay made. It returns nothing
        true, so an exception raised in the scope is never suppressed. */
    method Exit() returns (suppress: bool)
      ensures !suppress
    {
      Rollback();
      suppress := false;
    }

    method Commit()
      modifies this`committed
      ensures committed
    {
      committed := true;
    }

    /** Rolling back the in-memory unit of work changes nothing. */
    method Rollback()
      ensures products == old(products) && committed == old(committed)
    {
    }

    /** The product of that sku, or `None`. */
    function GetProduct(sku: string): (r: Option<Product>)
      requires Valid()
      reads this, products.Values
      ensures r.Some? ==> r.value in products.Values && r.value.sku == sku
      ensures r.None? ==> forall p :: p in products.Values ==> p.sku != sku
    {
      if sku in products then Some(products[sku]) else None
    }

    method AddProduct(product: Product)
      modifies this`products
      ensures products == if product.sku in old(products) then old(products)
                          else old(products)[product.sku := product]
    {
      if product.sku !in products {
        products := products[product.sku := product];
      }
    }

    /** `batches.get(ref)`: a batch with that reference among all the
        products' batches, or the failed lookup when there is none. */
    method GetBatch(ref: string) returns (r: Result<Batch, Error>)
      ensures r.Ok? ==> r.value in Batches() && r.value.ref == ref
      ensures r.Err? ==> r == Err(BatchNotFound(ref))
                         && forall b :: b in Batches() ==> b.ref != ref
    {
      var left := products.Keys;
      while left != {}
        invariant left <= products.Keys
        invariant forall sku, b :: sku in products.Keys - left && b in products[sku].batches ==> b.ref != ref
        decreases |left|
      {
        var sku :| sku in left;
        var batches := products[sku].batches;
        var i := 0;
        while i < |batches|
          invariant 0 <= i <= |batches|
          invariant forall k :: 0 <= k < i ==> batches[k].ref != ref
        {
          if batches[i].ref == ref {
            assert batches[i] in products[sku].batches;
            return Ok(batches[i]);
          }
          i := i + 1;
        }
        left := left - {sku};
      }
      r := Err(BatchNotFound(ref));
    }
  }

  /** The sku is among the skus of the batches. */
  function IsValidSku(sku: string, batches: seq<Batch>): (r: bool)
    ensures r <==> exists i :: 0 <= i < |batches| && batches[i].sku == sku
  {
    sku in (set b | b in batches :: b.sku)
  }

  /** Creates the batch and appends it to its sku's product, creating the
      product first when there is none; then commits. */
  method AddBatch(ref: string, sku: string, qty: int, eta: Option<int>, uow: FakeUnitOfWork)
    requires uow.Valid()
    modifies uow, uow.products.Values
    ensures uow.Valid() && uow.committed
    ensures sku in uow.products
    ensures old(sku in uow.products) ==> uow.products == old(uow.products)
    ensures old(sku !in uow.products) ==>
              fresh(uow.products[sku]) && uow.products == old(uow.products)[sku := uow.products[sku]]
    ensures var bs := uow.products[sku].batches;
            var added := bs[|bs| - 1];
            bs[..|bs| - 1] == (if old(sku in uow.products) then old(uow.products[sku].batches) else [])
            && fresh(added) && added.ref == ref && added.sku == sku && added.eta == eta
            && added.purchasedQty == qty && added.allocations == {}
    ensures forall s :: s in old(uow.products) && s != sku ==>
              uow.products[s].batches == old(uow.products[s].batches)
  {
    var batch := new Batch(ref, sku, qty, eta);
    var scope := uow.Enter();
    var product: Product;
    match uow.GetProduct(sku) {
      case Some(p) =>
        product := p;
      case None =>
        product := new Product(sku, []);
        uow.AddProduct(product);
    }
    product.batches := product.batches + [batch];
    assert product.batches[..|product.batches| - 1] == old(if sku in uow.products then uow.products[sku].batches else []);
    uow.Commit();
    var suppressed := uow.Exit();
  }

  /** Looks up the sku's product, raising `InvalidSKU` when there is none,
      lets the product allocate the line and commits once it has. The
      product always holds a batch, so the allocator's non-empty-list
      assertion cannot fail. */
  method Allocate(orderid: string, sku: string, qty: int, uow: FakeUnitOfWork)
    returns (r: Result<string, Error>)
    requires uow.Valid()
    modifies uow`committed, uow.Batches()
    ensures uow.Valid()
    ensures sku !in uow.products ==>
              r == Err(InvalidSku(sku)) && uow.committed == old(uow.committed)
              && forall b :: b in old(uow.Batches()) ==> b.allocations == old(b.allocations)
    ensures sku in uow.products ==>
              var line := OrderLine(orderid, sku, qty);
              match old(BestFit(uow.products[sku].batches, line))
              case None =>
                r == Err(OutOfStock(sku)) && uow.committed == old(uow.committed)
                && forall b :: b in old(uow.Batches()) ==> b.allocations == old(b.allocations)
              case Some(c) =>
                c in uow.products[sku].batches && r == Ok(c.ref) && uow.committed
                && c.allocations == old(c.allocations) + {line}
                && forall b :: b in old(uow.Batches()) && b != c ==> b.allocations == old(b.allocations)
    ensures forall b :: b in old(uow.Batches()) ==> b.purchasedQty == old(b.purchasedQty)
  {
    var scope := uow.Enter();
    var product := uow.GetProduct(sku);
    if product.None? {
      r := Err(InvalidSku(sku));
    } else {
      assert product.value == uow.products[sku];
      forall b | b in product.value.batches
        ensures b in old(uow.Batches())
      {
        assert sku in uow.products && b in uow.products[sku].batches;
        assert b in uow.Batches();
      }
      r := product.value.Allocate(orderid, sku, qty);
      if r.Ok? {
        uow.Commit();
      }
    }
    var suppressed := uow.Exit();
  }

  /** Looks the batch up by reference and removes the line; a failed lookup
      or an `UnallocatedSKU` escapes before the commit. */
  method Deallocate(orderid: string, sku: string, qty: int, ref: string, uow: FakeUnitOfWork)
    returns (r: Outcome<Error>, ghost changed: Batch?)
    requires uow.Valid()
    modifies uow`committed, uow.Batches()
    ensures uow.Valid()
    ensures r == Fail(BatchNotFound(ref)) <==> forall b :: b in old(uow.Batches()) ==> b.ref != ref
    ensures r == Fail(BatchNotFound(ref)) ==>
              uow.committed == old(uow.committed)
              && forall b :: b in old(uow.Batches()) ==> b.allocations == old(b.allocations)
    ensures r != Fail(BatchNotFound(ref)) ==>
              var b := changed;
              b != null && b in old(uow.Batches()) && b.ref == ref
                && (var line := OrderLine(orderid, sku, qty);
                    if line in old(b.allocations) then
                      r == Pass && uow.committed && b.allocations == old(b.allocations) - {line}
                    else
                      r == Fail(UnallocatedSku(sku)) && uow.committed == old(uow.committed)
                      && b.allocations == old(b.allocations))
                && forall o :: o in old(uow.Batches()) && o != b ==> o.allocations == old(o.allocations)
    ensures forall b :: b in old(uow.Batches()) ==> b.purchasedQty == old(b.purchasedQty)
  {
    var scope := uow.Enter();
    var found := uow.GetBatch(ref);
    if found.Err? {
      r, changed := Fail(found.error), null;
    } else {
      changed := found.value;
      r := found.value.Deallocate(orderid, sku, qty);
      if r.Pass? {
        uow.Commit();
      }
    }
    var suppressed := uow.Exit();
  }

  /** What `change_batch_quantity` leaves allocated to a batch of purchased
      quantity `qty`: while the batch is short, give up the greatest line.
      `None` when it runs out of lines while still short. */
  function Shed(allocations: set<OrderLine>, qty: int): (r: Option<set<OrderLine>>)
    ensures r.Some? ==> r.value <= allocations && qty - SumQty(r.value) >= 0
    ensures r.None? ==> qty < 0
    decreases |allocations|
  {
    if qty - SumQty(allocations) >= 0 then Some(allocations)
    else if allocations == {} then None
    else Shed(allocations - {MaxLine(allocations)}, qty)
  }

  /** Shedding only fails on running out of lines while still short, which
      cannot happen when the new quantity is not negative; and when no line
      is negative, a negative quantity always runs out of lines. */
  lemma {:induction false} ShedFailsExactlyWhenNegative(allocations: set<OrderLine>, qty: int)
    ensures Shed(allocations, qty).None? ==> qty < 0
    ensures (forall l :: l in allocations ==> l.qty >= 0) && qty < 0 ==> Shed(allocations, qty).None?
    decreases |allocations|
  {
    if (forall l :: l in allocations ==> l.qty >= 0) && qty < 0 {
      SumQtyBounds(allocations);
      if allocations != {} {
        ShedFailsExactlyWhenNegative(allocations - {MaxLine(allocations)}, qty);
      }
    }
  }

  /** What shedding keeps is a subset of the lines that fits the new
      quantity, and every line given up is at least as large as every line
      kept. */
  lemma {:induction false} ShedKeepsSmallestThatFit(allocations: set<OrderLine>, qty: int)
    ensures Shed(allocations, qty).Some? ==>
              var kept := Shed(allocations, qty).value;
              kept <= allocations && qty - SumQty(kept) >= 0
              && forall k, d :: k in kept && d in allocations - kept ==> LineLe(k, d)
    decreases |allocations|
  {
    if qty - SumQty(allocations) < 0 && allocations != {} {
      var m := MaxLine(allocations);
      ShedKeepsSmallestThatFit(allocations - {m}, qty);
      if Shed(allocations, qty).Some? {
        var kept := Shed(allocations, qty).value;
        assert allocations - kept == ((allocations - {m}) - kept) + {m};
      }
    }
  }

  /** `d` is the smallest line given up in going from `allocations` down to
      `kept`, and putting it back would leave quantity `qty` short. */
  ghost predicate SmallestGivenUpOverflows(allocations: set<OrderLine>, kept: set<OrderLine>, qty: int, d: OrderLine)
  {
    d in allocations - kept
    && (forall x :: x in allocations - kept ==> LineLe(d, x))
    && qty - SumQty(kept + {d}) < 0
  }

  /** Shedding stops as soon as the batch fits: putting back the smallest
      line it gave up would leave the batch short again. */
  lemma {:induction false} ShedStopsAsSoonAsItFits(allocations: set<OrderLine>, qty: int)
    ensures Shed(allocations, qty).Some? && Shed(allocations, qty).value != allocations ==>
              exists d :: SmallestGivenUpOverflows(allocations, Shed(allocations, qty).value, qty, d)
    decreases |allocations|
  {
    if qty - SumQty(allocations) < 0 && allocations != {} && Shed(allocations, qty).Some? {
      var m := MaxLine(allocations);
      var rest := allocations - {m};
      var kept := Shed(rest, qty).value;
      assert allocations - kept == (rest - kept) + {m};
      if kept == rest {
        assert kept + {m} == allocations;
        Lexicographic.LexLeTotal(m.sku, m.sku);
        assert SmallestGivenUpOverflows(allocations, kept, qty, m);
      } else {
        ShedStopsAsSoonAsItFits(rest, qty);
        var d :| SmallestGivenUpOverflows(rest, kept, qty, d);
        assert SmallestGivenUpOverflows(allocations, kept, qty, d);
      }
    }
  }

  /** The loop of `change_batch_quantity`: while the batch is short,
      deallocate one line; popping from the empty set raises. */
  method ShedUntilFits(batch: Batch) returns (r: Outcome<Error>)
    modifies batch`allocations
    ensures match Shed(old(batch.allocations), batch.purchasedQty)
            case Some(kept) => r == Pass && batch.allocations == kept && batch.AvailableQty() >= 0
            case None => r == Fail(EmptyAllocations) && batch.allocations == {}
  {
    while batch.AvailableQty() < 0
      invariant Shed(batch.allocations, batch.purchasedQty) == Shed(old(batch.allocations), batch.purchasedQty)
      decreases |batch.allocations|
    {
      var popped := batch.DeallocateOne();
      if popped.Err? {
        return Fail(popped.error);
      }
    }
    r := Pass;
  }

  /** What `change_batch_quantity` leaves in the batch it found, given the
      lines it held before: the new purchased quantity, and what `Shed`
      keeps with a commit, or no lines and no commit when shedding ran out
      of lines. */
  ghost predicate QuantityChanged(b: Batch, before: set<OrderLine>, newQty: int, r: Outcome<Error>,
                                  committed: bool, wasCommitted: bool)
    reads b
  {
    b.purchasedQty == newQty
    && match Shed(before, newQty)
       case Some(kept) => r == Pass && committed && b.allocations == kept && b.AvailableQty() >= 0
       case None => r == Fail(EmptyAllocations) && committed == wasCommitted && b.allocations == {}
  }

  /** The body of the `with` block once the batch is found: set the new
      purchased quantity, shed lines until the batch is not short, and
      commit unless shedding raised. */
  method ChangeQuantityOf(batch: Batch, newQty: int, uow: FakeUnitOfWork) returns (r: Outcome<Error>)
    modifies uow`committed, batch`purchasedQty, batch`allocations
    ensures r == Pass || r == Fail(EmptyAllocations)
    ensures QuantityChanged(batch, old(batch.allocations), newQty, r, uow.committed, old(uow.committed))
  {
    batch.ChangePurchasedQuantity(newQty);
    r := ShedUntilFits(batch);
    if r.Pass? {
      uow.Commit();
    }
  }

  /** Sets the batch's purchased quantity, then deallocates one line at a
      time while the batch is short, and commits. Each round gives up a
      line, so the loop ends; if the batch runs out of lines while still
      short, popping from the empty set raises before the commit (the
      in-memory unit of work keeps the changes already made). */
  method ChangeBatchQuantity(ref: string, newQty: int, uow: FakeUnitOfWork)
    returns (r: Outcome<Error>, ghost changed: Batch?)
    requires uow.Valid()
    modifies uow`committed, uow.Batches()
    ensures uow.Valid()
    ensures r == Fail(BatchNotFound(ref)) <==> forall b :: b in old(uow.Batches()) ==> b.ref != ref
    ensures r == Fail(BatchNotFound(ref)) ==>
              uow.committed == old(uow.committed)
              && forall b :: b in old(uow.Batches()) ==> b.allocations == old(b.allocations) && b.purchasedQty == old(b.purchasedQty)
    ensures r != Fail(BatchNotFound(ref)) ==>
              var b := changed;
              b != null && b in old(uow.Batches()) && b.ref == ref
                && QuantityChanged(b, old(b.allocations), newQty, r, uow.committed, old(uow.committed))
                && forall o :: o in old(uow.Batches()) && o != b ==>
                     o.allocations == old(o.allocations) && o.purchasedQty == old(o.purchasedQty)
  {
    var scope := uow.Enter();
    var found := uow.GetBatch(ref);
    if found.Err? {
      var suppressed := uow.Exit();
      return Fail(found.error), null;
    }
    var batch: Batch := found.value;
    changed := batch;
    r := ChangeQuantityOf(batch, newQty, uow);
    var suppressed := uow.Exit();
  }
}
